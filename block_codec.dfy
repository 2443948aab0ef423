/**
 * The EfficientNet block notation: `BlockDecoder` turns strings such as
 * `r2_k3_s22_e6_i16_o24_se0.25` into `BlockArgs` records and back.
 *
 * A string is split at `_` into tokens; a token whose first decimal digit is at
 * position p gives the option `token[..p] := token[p..]` (the value stops at a
 * line break, as the regular expression `(\d.*)` does); later tokens with the
 * same key overwrite earlier ones, and a token without a digit (`noskip`) adds
 * no option.
 */
module BlockCodec {
  import opened Common

  /** A decimal fraction mantissa / 10^scale, the exact value of the `float` the source parses. */
  datatype Decimal = Decimal(mantissa: nat, scale: nat)

  function DecimalValue(d: Decimal): real
  {
    d.mantissa as real / Pow10(d.scale) as real
  }

  /**
   * The `stride` field: the decoder stores a one-element list, while
   * `ExtractFeatures` later replaces it by the plain integer 1.
   */
  datatype Stride = Listed(elems: seq<int>) | Scalar(value: int)

  /** The `BlockArgs` named tuple. */
  datatype BlockArgs = BlockArgs(
    kernelSize: int,
    numRepeat: int,
    inputFilters: int,
    outputFilters: int,
    expandRatio: int,
    idSkip: bool,
    stride: Stride,
    seRatio: Option<Decimal>)

  // ---------------------------------------------------------------------
  // str.split / str.join

  function FirstIndex(s: string, c: char): (i: nat)
    requires c in s
    ensures i < |s| && s[i] == c && c !in s[..i]
  {
    if s[0] == c then 0 else
      var j := FirstIndex(s[1..], c);
      assert s[1..][..j] == s[1..j + 1];
      assert s[..j + 1] == [s[0]] + s[1..j + 1];
      j + 1
  }

  lemma {:induction false} FirstIndexIs(s: string, c: char, i: nat)
    requires i < |s| && s[i] == c && c !in s[..i]
    ensures c in s && FirstIndex(s, c) == i
    decreases i
  {
    if i > 0 {
      assert s[0] == s[..i][0];
      assert s[1..][..i - 1] == s[1..i];
      FirstIndexIs(s[1..], c, i - 1);
    }
  }

  /** `sep.join(parts)`. */
  function Join(parts: seq<string>, sep: char): string
  {
    if |parts| == 0 then ""
    else if |parts| == 1 then parts[0]
    else parts[0] + [sep] + Join(parts[1..], sep)
  }

  /** `s.split(sep)`: at least one part, no part contains the separator, and joining them gives s back. */
  function Split(s: string, sep: char): (parts: seq<string>)
    ensures |parts| >= 1
    ensures forall k :: 0 <= k < |parts| ==> sep !in parts[k]
    ensures Join(parts, sep) == s
    decreases |s|
  {
    if sep !in s then [s]
    else
      var i := FirstIndex(s, sep);
      var rest := Split(s[i + 1..], sep);
      assert s == s[..i] + [sep] + s[i + 1..];
      [s[..i]] + rest
  }

  /** Splitting a join of separator-free parts recovers the parts. */
  lemma {:induction false} SplitJoin(parts: seq<string>, sep: char)
    requires |parts| >= 1
    requires forall k :: 0 <= k < |parts| ==> sep !in parts[k]
    ensures Split(Join(parts, sep), sep) == parts
    decreases |parts|
  {
    if |parts| > 1 {
      var s := Join(parts, sep);
      var rest := parts[1..];
      SplitJoin(rest, sep);
      assert s == parts[0] + [sep] + Join(rest, sep);
      assert s[..|parts[0]|] == parts[0];
      assert s[|parts[0]|] == sep;
      FirstIndexIs(s, sep, |parts[0]|);
      var i := FirstIndex(s, sep);
      assert s[..i] == parts[0];
      assert s[i + 1..] == Join(rest, sep);
    }
  }

  lemma JoinAppend(parts: seq<string>, last: string, sep: char)
    requires |parts| >= 1
    ensures Join(parts + [last], sep) == Join(parts, sep) + [sep] + last
    decreases |parts|
  {
    if |parts| > 1 {
      assert (parts + [last])[1..] == parts[1..] + [last];
      JoinAppend(parts[1..], last, sep);
    } else {
      assert (parts + [last])[1..] == [last];
    }
  }

  /** A character absent from every part and from the separator is absent from the join. */
  lemma {:induction false} JoinAvoids(parts: seq<string>, sep: char, c: char)
    requires c != sep
    requires forall k :: 0 <= k < |parts| ==> c !in parts[k]
    ensures c !in Join(parts, sep)
    decreases |parts|
  {
    if |parts| > 1 {
      JoinAvoids(parts[1..], sep, c);
    }
  }

  // ---------------------------------------------------------------------
  // Tokens

  /** Position of the first decimal digit of s, if there is one. */
  function FirstDigit(s: string): (r: Option<nat>)
    ensures r.Some? ==> r.value < |s| && IsDigit(s[r.value])
    ensures r.Some? ==> forall j :: 0 <= j < r.value ==> !IsDigit(s[j])
    ensures r.None? <==> forall j :: 0 <= j < |s| ==> !IsDigit(s[j])
  {
    if s == [] then None
    else if IsDigit(s[0]) then Some(0)
    else match FirstDigit(s[1..])
      case None => None
      case Some(j) => Some(j + 1)
  }

  /** The text up to (not including) the first line break: what `.*` matches. */
  function Line(s: string): (r: string)
    ensures '\n' !in r
    ensures r <= s
    ensures '\n' !in s ==> r == s
  {
    if s == [] || s[0] == '\n' then [] else [s[0]] + Line(s[1..])
  }

  /** `re.split(r'(\d.*)', op)[:2]` when it has at least two parts: (key, value). */
  function SplitToken(op: string): (r: Option<(string, string)>)
    ensures r.Some? ==> |r.value.1| >= 1 && IsDigit(r.value.1[0])
  {
    match FirstDigit(op)
    case None => None
    case Some(p) =>
      var v := Line(op[p..]);
      assert v[0] == op[p];
      Some((op[..p], v))
  }

  /** The `options` dictionary after the loop over `ops` (later keys overwrite). */
  function Options(ops: seq<string>): (m: map<string, string>)
    ensures forall k :: k in m ==> |m[k]| >= 1 && IsDigit(m[k][0])
  {
    if ops == [] then map[]
    else
      var m := Options(ops[..|ops| - 1]);
      match SplitToken(ops[|ops| - 1])
      case None => m
      case Some(kv) => m[kv.0 := kv.1]
  }

  lemma OptionsAppend(ops: seq<string>, op: string)
    ensures Options(ops + [op]) == match SplitToken(op)
      case None => Options(ops)
      case Some(kv) => Options(ops)[kv.0 := kv.1]
  {
    assert (ops + [op])[..|ops + [op]| - 1] == ops;
  }

  predicate HasKey(op: string, key: string)
  {
    SplitToken(op).Some? && SplitToken(op).value.0 == key
  }

  predicate SomeTokenHasKey(ops: seq<string>, key: string)
  {
    exists j :: 0 <= j < |ops| && HasKey(ops[j], key)
  }

  /**
   * The token rule: a key is present exactly when some token carries it, and
   * its value comes from the LAST token that carries it.
   */
  lemma {:induction false} OptionsLastWins(ops: seq<string>, key: string)
    ensures key in Options(ops) <==> SomeTokenHasKey(ops, key)
    ensures forall j :: 0 <= j < |ops| && HasKey(ops[j], key) &&
                        (forall j' :: j < j' < |ops| ==> !HasKey(ops[j'], key)) ==>
                        key in Options(ops) && Options(ops)[key] == SplitToken(ops[j]).value.1
    decreases |ops|
  {
    if ops != [] {
      var init, last := ops[..|ops| - 1], ops[|ops| - 1];
      OptionsLastWins(init, key);
      assert ops == init + [last];
      OptionsAppend(init, last);
      if HasKey(last, key) {
        assert HasKey(ops[|ops| - 1], key);
      } else {
        assert ops[|init|] == last;
        forall j | 0 <= j < |ops| && HasKey(ops[j], key)
          ensures j < |init| && HasKey(init[j], key)
        {
          assert ops[j] == init[j] || j == |init|;
        }
        forall j | 0 <= j < |init| && HasKey(init[j], key)
          ensures HasKey(ops[j], key)
        {
          assert init[j] == ops[j];
        }
      }
    }
  }

  // ---------------------------------------------------------------------
  // int() and float() of an option value

  /** The ASCII characters Python's `str.isspace` accepts, which `int()` and `float()` strip. */
  predicate IsSpace(c: char)
  {
    c == ' ' || c == '\t' || c == '\n' || c == '\r' || c == '\U{000B}' || c == '\U{000C}'
    || ('\U{001C}' <= c <= '\U{001F}')
  }

  function StripStart(s: string): (r: string)
    ensures |r| <= |s| && r == s[|s| - |r|..]
    ensures r != [] ==> !IsSpace(r[0])
  {
    if s != [] && IsSpace(s[0]) then StripStart(s[1..]) else s
  }

  function StripEnd(s: string): (r: string)
    ensures |r| <= |s| && r == s[..|r|]
    ensures r != [] ==> !IsSpace(r[|r| - 1])
  {
    if s != [] && IsSpace(s[|s| - 1]) then StripEnd(s[..|s| - 1]) else s
  }

  /** `s.strip()`: the text between the leading and the trailing white space. */
  function Strip(s: string): string
  {
    StripEnd(StripStart(s))
  }

  /** A string that neither starts nor ends with white space is its own strip. */
  lemma StripClean(s: string)
    requires s != [] && !IsSpace(s[0]) && !IsSpace(s[|s| - 1])
    ensures Strip(s) == s
  {
  }

  /**
   * `int(v)`: surrounding white space is ignored and the rest must be ASCII
   * digits; anything else raises ValueError. (A sign or an underscore cannot
   * occur in an option value, which starts with a digit and holds no `_`.)
   */
  function ParseInt(v: string): Option<int>
  {
    var t := Strip(v);
    if |t| >= 1 && AllDigits(t) then Some(DigitsValue(t)) else None
  }

  /** The fixed-point part of a float literal: digits, optionally a point and more digits, some digit somewhere. */
  function ParseFixed(v: string): Option<Decimal>
  {
    if |v| >= 1 && AllDigits(v) then Some(Decimal(DigitsValue(v), 0))
    else if '.' !in v then None
    else
      var i := FirstIndex(v, '.');
      var whole, frac := v[..i], v[i + 1..];
      if |whole| + |frac| >= 1 && AllDigits(whole) && AllDigits(frac) then
        AllDigitsAppend(whole, frac);
        Some(Decimal(DigitsValue(whole + frac), |frac|))
      else None
  }

  predicate IsExponentMark(c: char)
  {
    c == 'e' || c == 'E'
  }

  /** The position of the first exponent mark, or |s| when there is none. */
  function ExponentAt(s: string): (r: nat)
    ensures r <= |s|
    ensures r < |s| ==> IsExponentMark(s[r])
    ensures forall j :: 0 <= j < r ==> !IsExponentMark(s[j])
  {
    if s == [] then 0
    else if IsExponentMark(s[0]) then 0
    else 1 + ExponentAt(s[1..])
  }

  /** The exponent of a float literal: an optional sign, then ASCII digits. */
  function ParseExponent(x: string): Option<int>
  {
    if |x| >= 1 && (x[0] == '+' || x[0] == '-') then
      var digits := x[1..];
      if |digits| >= 1 && AllDigits(digits) then
        var n: int := DigitsValue(digits);
        Some(if x[0] == '-' then -n else n)
      else None
    else if |x| >= 1 && AllDigits(x) then Some(DigitsValue(x))
    else None
  }

  /** The decimal d·10^e. */
  function Shift(d: Decimal, e: int): Decimal
  {
    if e >= d.scale then Decimal(d.mantissa * Pow10(e - d.scale), 0)
    else Decimal(d.mantissa, d.scale - e)
  }

  /** 10^e as a real, for an exponent of either sign. */
  function Power10(e: int): real
  {
    if e >= 0 then Pow10(e) as real else 1.0 / Pow10(-e) as real
  }

  lemma {:induction false} Pow10Add(a: nat, b: nat)
    ensures Pow10(a + b) == Pow10(a) * Pow10(b)
    decreases a
  {
    if a > 0 {
      Pow10Add(a - 1, b);
      assert Pow10(a + b) == 10 * Pow10(a - 1 + b);
    }
  }

  lemma CancelRight(m: real, p: real, q: real)
    requires p > 0.0 && q > 0.0
    ensures m / (p * q) * q == m / p
  {
  }

  lemma CancelLeft(m: real, p: real, q: real)
    requires p > 0.0 && q > 0.0
    ensures m / p * (p * q) == m * q
  {
  }

  lemma SplitQuotient(m: real, p: real, q: real)
    requires p > 0.0 && q > 0.0
    ensures m / (p * q) == m / p * (1.0 / q)
  {
  }

  lemma RealProduct(a: nat, b: nat)
    ensures (a * b) as real == a as real * b as real
  {
  }

  /** m / p · pq = m · q when pq = p · q. */
  lemma ScaleUpQuotient(m: nat, p: nat, q: nat, pq: nat)
    requires p >= 1 && q >= 1 && pq == p * q
    ensures (m * q) as real == m as real / p as real * pq as real
  {
    RealProduct(m, q);
    RealProduct(p, q);
    CancelLeft(m as real, p as real, q as real);
  }

  /** m / p = m / pq · q when pq = p · q. */
  lemma ScaleDownQuotient(m: nat, p: nat, q: nat, pq: nat)
    requires p >= 1 && q >= 1 && pq == p * q
    ensures m as real / p as real == m as real / pq as real * q as real
  {
    RealProduct(p, q);
    CancelRight(m as real, p as real, q as real);
  }

  /** m / pq = m / p · (1 / q) when pq = p · q. */
  lemma SplitScaleQuotient(m: nat, p: nat, q: nat, pq: nat)
    requires p >= 1 && q >= 1 && pq == p * q
    ensures m as real / pq as real == m as real / p as real * (1.0 / q as real)
  {
    RealProduct(p, q);
    SplitQuotient(m as real, p as real, q as real);
  }

  lemma ShiftUpValue(d: Decimal, e: int)
    requires e >= d.scale
    ensures DecimalValue(Shift(d, e)) == DecimalValue(d) * Power10(e)
  {
    var m, s := d.mantissa, d.scale;
    var k: nat := e - s;
    var p, q, pq := Pow10(s), Pow10(k), Pow10(e);
    assert pq == p * q by {
      Pow10Add(s, k);
      assert s + k == e;
    }
    assert DecimalValue(Shift(d, e)) == (m * q) as real by {
      assert Shift(d, e) == Decimal(m * q, 0);
      assert Pow10(0) == 1;
    }
    assert (m * q) as real == m as real / p as real * pq as real by {
      ScaleUpQuotient(m, p, q, pq);
    }
  }

  lemma ShiftDownValue(d: Decimal, e: int)
    requires 0 <= e < d.scale
    ensures DecimalValue(Shift(d, e)) == DecimalValue(d) * Power10(e)
  {
    var m, s := d.mantissa, d.scale;
    var k: nat := s - e;
    var p, q, pq := Pow10(k), Pow10(e), Pow10(s);
    assert pq == p * q by {
      Pow10Add(k, e);
      assert k + e == s;
    }
    assert DecimalValue(Shift(d, e)) == m as real / p as real by {
      assert Shift(d, e) == Decimal(m, k);
    }
    assert m as real / p as real == m as real / pq as real * q as real by {
      ScaleDownQuotient(m, p, q, pq);
    }
  }

  lemma ShiftNegativeValue(d: Decimal, e: int)
    requires e < 0
    ensures DecimalValue(Shift(d, e)) == DecimalValue(d) * Power10(e)
  {
    var m, s := d.mantissa, d.scale;
    var k: nat := -e;
    var p, q, pq := Pow10(s), Pow10(k), Pow10(s + k);
    assert pq == p * q by {
      Pow10Add(s, k);
    }
    assert DecimalValue(Shift(d, e)) == m as real / pq as real by {
      assert Shift(d, e) == Decimal(m, s + k);
    }
    assert m as real / pq as real == m as real / p as real * (1.0 / q as real) by {
      SplitScaleQuotient(m, p, q, pq);
    }
  }

  /** Shifting scales the value by the power of ten. */
  lemma ShiftValue(d: Decimal, e: int)
    ensures DecimalValue(Shift(d, e)) == DecimalValue(d) * Power10(e)
  {
    if e >= d.scale {
      ShiftUpValue(d, e);
    } else if e >= 0 {
      ShiftDownValue(d, e);
    } else {
      ShiftNegativeValue(d, e);
    }
  }

  /**
   * `float(v)` of an option value: surrounding white space is ignored, then a
   * fixed-point literal, optionally followed by `e` or `E`, a sign and an
   * exponent; anything else raises ValueError.
   */
  function ParseDecimal(v: string): Option<Decimal>
  {
    var t := Strip(v);
    var i := ExponentAt(t);
    if i == |t| then ParseFixed(t)
    else match (ParseFixed(t[..i]), ParseExponent(t[i + 1..]))
      case (Some(d), Some(e)) => Some(Shift(d, e))
      case _ => None
  }

  /** A string with no surrounding white space and no exponent mark is read as a fixed-point literal. */
  lemma ParseDecimalFixed(s: string)
    requires s != [] && !IsSpace(s[0]) && !IsSpace(s[|s| - 1])
    requires forall j :: 0 <= j < |s| ==> !IsExponentMark(s[j])
    ensures ParseDecimal(s) == ParseFixed(s)
  {
    StripClean(s);
  }

  lemma ExponentAtMark(f: string, x: string)
    requires forall j :: 0 <= j < |f| ==> !IsExponentMark(f[j])
    ensures ExponentAt(f + "e" + x) == |f|
  {
    var t := f + "e" + x;
    assert t[|f|] == 'e';
    forall j | 0 <= j < |f| ensures !IsExponentMark(t[j]) { assert t[j] == f[j]; }
  }

  lemma StripExponentForm(f: string, x: string)
    requires f != [] && !IsSpace(f[0]) && x != [] && !IsSpace(x[|x| - 1])
    ensures Strip(f + "e" + x) == f + "e" + x
  {
    var t := f + "e" + x;
    assert t[0] == f[0] && t[|t| - 1] == x[|x| - 1];
    StripClean(t);
  }

  /** Reading an exponent form scales the fixed-point part by ten to the exponent. */
  lemma ParseDecimalExponent(f: string, x: string, d: Decimal, e: int)
    requires ParseFixed(f) == Some(d) && ParseExponent(x) == Some(e)
    requires forall j :: 0 <= j < |f| ==> !IsExponentMark(f[j])
    requires f != [] && !IsSpace(f[0]) && x != [] && !IsSpace(x[|x| - 1])
    ensures ParseDecimal(f + "e" + x) == Some(Shift(d, e))
    ensures DecimalValue(Shift(d, e)) == DecimalValue(d) * Power10(e)
  {
    var t := f + "e" + x;
    StripExponentForm(f, x);
    ExponentAtMark(f, x);
    assert t[..|f|] == f && t[|f| + 1..] == x;
    ShiftValue(d, e);
  }

  lemma {:induction false} StripStartSpaces(pre: string, s: string)
    requires forall j :: 0 <= j < |pre| ==> IsSpace(pre[j])
    requires s != [] && !IsSpace(s[0])
    ensures StripStart(pre + s) == s
    decreases |pre|
  {
    if pre != [] {
      assert (pre + s)[0] == pre[0];
      assert (pre + s)[1..] == pre[1..] + s;
      StripStartSpaces(pre[1..], s);
    } else {
      assert pre + s == s;
    }
  }

  lemma {:induction false} StripEndSpaces(s: string, post: string)
    requires forall j :: 0 <= j < |post| ==> IsSpace(post[j])
    requires s != [] && !IsSpace(s[|s| - 1])
    ensures StripEnd(s + post) == s
    decreases |post|
  {
    if post != [] {
      var t := s + post;
      assert t[|t| - 1] == post[|post| - 1];
      assert t[..|t| - 1] == s + post[..|post| - 1];
      StripEndSpaces(s, post[..|post| - 1]);
    } else {
      assert s + post == s;
    }
  }

  /** White space around a value is stripped away, and only that. */
  lemma StripPadding(pre: string, s: string, post: string)
    requires forall j :: 0 <= j < |pre| ==> IsSpace(pre[j])
    requires forall j :: 0 <= j < |post| ==> IsSpace(post[j])
    requires s != [] && !IsSpace(s[0]) && !IsSpace(s[|s| - 1])
    ensures Strip(pre + s + post) == s
  {
    assert pre + s + post == pre + (s + post);
    assert (s + post)[0] == s[0];
    StripStartSpaces(pre, s + post);
    StripEndSpaces(s, post);
  }

  /** `int()` reads a digit string surrounded by white space. */
  lemma ParseIntPadded(pre: string, n: nat, post: string)
    requires forall j :: 0 <= j < |pre| ==> IsSpace(pre[j])
    requires forall j :: 0 <= j < |post| ==> IsSpace(post[j])
    ensures ParseInt(pre + NatToString(n) + post) == Some(n)
  {
    NatToStringValue(n);
    var t := NatToString(n);
    assert IsDigit(t[0]) && IsDigit(t[|t| - 1]);
    StripPadding(pre, t, post);
  }

  /** `float()` reads a value surrounded by white space as it reads the value alone. */
  lemma ParseDecimalPadded(pre: string, s: string, post: string)
    requires forall j :: 0 <= j < |pre| ==> IsSpace(pre[j])
    requires forall j :: 0 <= j < |post| ==> IsSpace(post[j])
    requires s != [] && !IsSpace(s[0]) && !IsSpace(s[|s| - 1])
    ensures ParseDecimal(pre + s + post) == ParseDecimal(s)
  {
    StripPadding(pre, s, post);
    StripClean(s);
  }

  /** `float()` accepts a numeral with a trailing point. */
  lemma ParseDecimalTrailingPoint(whole: string)
    requires |whole| >= 1 && AllDigits(whole)
    ensures ParseDecimal(whole + ".") == Some(Decimal(DigitsValue(whole), 0))
  {
    ParseDecimalPoint(whole, "");
    assert whole + "." + "" == whole + "." && whole + "" == whole;
  }


  /** Whether w occurs in s as a contiguous substring (Python's `w in s`). */
  function Contains(s: string, w: string): bool
    decreases |s|
  {
    if |s| < |w| then false else s[..|w|] == w || Contains(s[1..], w)
  }

  lemma {:induction false} ContainsNeedsFirst(s: string, w: string)
    requires |w| >= 1 && w[0] !in s
    ensures !Contains(s, w)
    decreases |s|
  {
    if |s| >= |w| {
      assert s[..|w|][0] == s[0];
      ContainsNeedsFirst(s[1..], w);
    }
  }

  lemma {:induction false} ContainsSuffix(s: string, w: string)
    ensures Contains(s + w, w)
    decreases |s|
  {
    if s == [] {
      assert (s + w)[..|w|] == w;
    } else {
      assert (s + w)[1..] == s[1..] + w;
      ContainsSuffix(s[1..], w);
    }
  }

  // ---------------------------------------------------------------------
  // _decode_block_string

  function IntField(options: map<string, string>, key: string): Result<int>
  {
    if key !in options then Err(KeyError)
    else match ParseInt(options[key])
      case None => Err(ValueError)
      case Some(n) => Ok(n)
  }

  /** The stride check `cond_1 or cond_2`: one character, or two equal characters. */
  predicate StrideOk(v: string)
  {
    |v| == 1 || (|v| == 2 && v[0] == v[1])
  }

  /** The keyword arguments of the `BlockArgs(...)` call, evaluated left to right. */
  function BuildRecord(blockString: string, options: map<string, string>): (r: Result<BlockArgs>)
    requires "s" in options && |options["s"]| >= 1 && IsDigit(options["s"][0])
    ensures r.Ok? ==> r.value.stride == Listed([DigitValue(options["s"][0])])
    ensures r.Ok? ==> (r.value.idSkip <==> !Contains(blockString, "noskip"))
    ensures r.Ok? ==> (r.value.seRatio.None? <==> "se" !in options)
  {
    var k :- IntField(options, "k");
    var r :- IntField(options, "r");
    var i :- IntField(options, "i");
    var o :- IntField(options, "o");
    var e :- IntField(options, "e");
    var se :- if "se" !in options then Ok(None)
              else match ParseDecimal(options["se"])
                case None => Err(ValueError)
                case Some(d) => Ok(Some(d));
    Ok(BlockArgs(k, r, i, o, e, !Contains(blockString, "noskip"), Listed([DigitValue(options["s"][0])]), se))
  }

  /**
   * What `_decode_block_string` does once `options` is filled: `cond_2`
   * indexes `options['s']` unguarded, then the assertion checks the stride.
   */
  function BuildBlock(blockString: string, options: map<string, string>): Result<BlockArgs>
    requires forall k :: k in options ==> |options[k]| >= 1 && IsDigit(options[k][0])
  {
    if "s" !in options then Err(KeyError)
    else if !StrideOk(options["s"]) then Err(AssertionError)
    else BuildRecord(blockString, options)
  }

  /** `BlockDecoder._decode_block_string` as a value. */
  function DecodeBlock(blockString: string): Result<BlockArgs>
  {
    BuildBlock(blockString, Options(Split(blockString, '_')))
  }

  /** The loop over `ops` that fills the `options` dictionary. */
  method FillOptions(ops: seq<string>) returns (options: map<string, string>)
    ensures options == Options(ops)
  {
    options := map[];
    var n := 0;
    while n < |ops|
      invariant 0 <= n <= |ops|
      invariant options == Options(ops[..n])
    {
      assert ops[..n + 1] == ops[..n] + [ops[n]];
      OptionsAppend(ops[..n], ops[n]);
      var kv := SplitToken(ops[n]);
      if kv.Some? {
        options := options[kv.value.0 := kv.value.1];
      }
      n := n + 1;
    }
    assert ops[..n] == ops;
  }

  /** `BlockDecoder._decode_block_string`: fills `options` token by token, then builds the record. */
  method DecodeBlockString(blockString: string) returns (r: Result<BlockArgs>)
    ensures r == DecodeBlock(blockString)
  {
    var options := FillOptions(Split(blockString, '_'));
    r := BuildBlock(blockString, options);
  }

  /** Stride validation: decoding fails without an `s` option or with a malformed one, and otherwise stores its first digit. */
  lemma DecodeStride(blockString: string)
    ensures var options := Options(Split(blockString, '_'));
      && ("s" !in options ==> DecodeBlock(blockString) == Err(KeyError))
      && ("s" in options && !StrideOk(options["s"]) ==> DecodeBlock(blockString) == Err(AssertionError))
      && (DecodeBlock(blockString).Ok? ==>
            "s" in options && StrideOk(options["s"]) &&
            DecodeBlock(blockString).value.stride == Listed([DigitValue(options["s"][0])]) &&
            0 <= DecodeBlock(blockString).value.stride.elems[0] <= 9)
  {
  }

  /** The skip flag and the SE ratio: `noskip` anywhere switches the skip off; no token with key `se` means no ratio. */
  lemma DecodeFlags(blockString: string)
    requires DecodeBlock(blockString).Ok?
    ensures DecodeBlock(blockString).value.idSkip <==> !Contains(blockString, "noskip")
    ensures DecodeBlock(blockString).value.seRatio.None? <==> !SomeTokenHasKey(Split(blockString, '_'), "se")
  {
    var ops := Split(blockString, '_');
    OptionsLastWins(ops, "se");
    assert DecodeBlock(blockString) == BuildRecord(blockString, Options(ops));
  }

  /** A key without digits followed by a value starting with a digit splits back into the two. */
  lemma {:induction false} SplitTokenOf(key: string, value: string)
    requires forall j :: 0 <= j < |key| ==> !IsDigit(key[j])
    requires |value| >= 1 && IsDigit(value[0]) && '\n' !in value
    ensures SplitToken(key + value) == Some((key, value))
  {
    FirstDigitAfter(key, value);
    assert (key + value)[..|key|] == key;
    assert (key + value)[|key|..] == value;
  }

  lemma {:induction false} FirstDigitAfter(key: string, value: string)
    requires forall j :: 0 <= j < |key| ==> !IsDigit(key[j])
    requires |value| >= 1 && IsDigit(value[0])
    ensures FirstDigit(key + value) == Some(|key|)
    decreases |key|
  {
    if key == [] {
      assert key + value == value;
    } else {
      assert (key + value)[1..] == key[1..] + value;
      FirstDigitAfter(key[1..], value);
    }
  }

  /** A digit string is read back by `int()`. */
  lemma ParseIntOf(n: nat)
    ensures ParseInt(NatToString(n)) == Some(n)
  {
    NatToStringValue(n);
    var t := NatToString(n);
    assert IsDigit(t[0]) && IsDigit(t[|t| - 1]);
    StripClean(t);
  }

  // ---------------------------------------------------------------------
  // _encode_block_string

  /**
   * The decimal with the same value in the fixed-point form Python's `'%s'`
   * gives a ratio of at least 1e-4: at least one fractional digit and no
   * other trailing zero. (Python switches to exponent notation below 1e-4;
   * this form does not.)
   */
  function Canonical(d: Decimal): (c: Decimal)
    ensures c.scale >= 1
    ensures DecimalValue(c) == DecimalValue(d)
    decreases d.scale
  {
    if d.scale == 0 then Decimal(10 * d.mantissa, 1)
    else if d.scale > 1 && d.mantissa % 10 == 0 then
      var c := Decimal(d.mantissa / 10, d.scale - 1);
      ScaleDown(d.mantissa / 10, Pow10(d.scale - 1));
      Canonical(c)
    else d
  }

  lemma ScaleDown(k: nat, p: nat)
    requires p >= 1
    ensures (10 * k) as real / (10 * p) as real == k as real / p as real
  {
  }

  lemma DivMod(m: nat, p: nat)
    requires p >= 1
    ensures 0 <= m / p && 0 <= m % p < p && (m / p) * p + m % p == m
  {
  }

  /** The fraction digits of a decimal, zero-padded to exactly `scale` digits. */
  function FracText(d: Decimal): (f: string)
    requires d.scale >= 1
    ensures |f| == d.scale && AllDigits(f) && DigitsValue(f) == d.mantissa % Pow10(d.scale)
  {
    DivMod(d.mantissa, Pow10(d.scale));
    var r := d.mantissa % Pow10(d.scale);
    var frac := NatToString(r);
    NatToStringLength(r, d.scale);
    LeadingZeros(d.scale - |frac|, frac);
    NatToStringValue(r);
    Zeros(d.scale - |frac|) + frac
  }

  /** The whole-number digits of a decimal. */
  function WholeText(d: Decimal): (w: string)
    ensures |w| >= 1 && AllDigits(w) && DigitsValue(w) == d.mantissa / Pow10(d.scale)
  {
    var p := Pow10(d.scale);
    DivMod(d.mantissa, p);
    var q: nat := d.mantissa / p;
    NatToStringValue(q);
    NatToString(q)
  }

  /** The text of a decimal with at least one fractional digit: whole part, `.`, zero-padded fraction. */
  function DecimalToString(d: Decimal): (s: string)
    requires d.scale >= 1
  {
    WholeText(d) + "." + FracText(d)
  }

  /** `float()` of a numeral with a fractional part. */
  lemma ParseDecimalPoint(whole: string, frac: string)
    requires |whole| >= 1 && AllDigits(whole) && AllDigits(frac)
    ensures AllDigits(whole + frac)
    ensures ParseDecimal(whole + "." + frac) == Some(Decimal(DigitsValue(whole + frac), |frac|))
  {
    AllDigitsAppend(whole, frac);
    var s := whole + "." + frac;
    assert s[|whole|] == '.';
    assert s[..|whole|] == whole;
    assert '.' !in whole by {
      forall j | 0 <= j < |whole| ensures whole[j] != '.' { assert IsDigit(whole[j]); }
    }
    FirstIndexIs(s, '.', |whole|);
    assert s[|whole| + 1..] == frac;
    assert !AllDigits(s) by { assert !IsDigit(s[|whole|]); }
    assert IsDigit(s[0]);
    assert IsDigit(s[|s| - 1]) || s[|s| - 1] == '.';
    forall j | 0 <= j < |s| ensures !IsExponentMark(s[j]) {
      if j < |whole| { assert s[j] == whole[j]; }
      else if j > |whole| { assert s[j] == frac[j - |whole| - 1]; }
    }
    ParseDecimalFixed(s);
  }

  /** The characters of a printed decimal: digits and one point. */
  lemma DecimalCharacters(whole: string, frac: string)
    requires AllDigits(whole) && AllDigits(frac)
    ensures forall c :: c in whole + "." + frac ==> IsDigit(c) || c == '.'
  {
    var s := whole + "." + frac;
    forall c | c in s ensures IsDigit(c) || c == '.' {
      var j :| 0 <= j < |s| && s[j] == c;
      if j < |whole| { assert s[j] == whole[j]; }
      else if j > |whole| { assert s[j] == frac[j - |whole| - 1]; }
    }
  }


  /** A printed decimal starts with a digit and holds no newline, `_` or `n`. */
  lemma DecimalTextShape(d: Decimal)
    requires d.scale >= 1
    ensures var s := DecimalToString(d);
      |s| >= 1 && IsDigit(s[0]) && '\n' !in s && '_' !in s && 'n' !in s
  {
    var whole, fracPart := WholeText(d), FracText(d);
    var s := DecimalToString(d);
    DecimalCharacters(whole, fracPart);
    assert s[0] == whole[0];
  }

  /** Printing a decimal and reading it back with `float()` gives the same decimal. */
  lemma DecimalToStringRoundTrip(d: Decimal)
    requires d.scale >= 1
    ensures ParseDecimal(DecimalToString(d)) == Some(d)
  {
    var whole, fracPart := WholeText(d), FracText(d);
    ParseDecimalPoint(whole, fracPart);
    DigitsValueAppend(whole, fracPart);
    var p := Pow10(d.scale);
    DivMod(d.mantissa, p);
    assert DigitsValue(whole + fracPart) == d.mantissa;
  }

  /**
   * The `'%d%d'` stride text, corrected to read the `stride` field the record
   * has: its only element stands for both digits of the pair.
   */
  function StrideText(st: Stride): Result<string>
  {
    match st
    case Scalar(_) => Err(TypeError)
    case Listed(e) => if |e| == 0 then Err(IndexError) else Ok(IntToString(e[0]) + IntToString(e[0]))
  }

  /** Whether the `se` token is emitted: `0 < se_ratio <= 1`. */
  predicate EmitsSe(se: Option<Decimal>)
  {
    se.Some? && 0.0 < DecimalValue(se.value) <= 1.0
  }

  /** The six mandatory tokens of `_encode_block_string`, in the order r, k, s, e, i, o. */
  function BaseArgs(b: BlockArgs, strideText: string): seq<string>
  {
    ["r" + IntToString(b.numRepeat), "k" + IntToString(b.kernelSize), "s" + strideText,
     "e" + IntToString(b.expandRatio), "i" + IntToString(b.inputFilters),
     "o" + IntToString(b.outputFilters)]
  }

  /** The optional `se` token. */
  function SeArgs(b: BlockArgs): seq<string>
  {
    if EmitsSe(b.seRatio) then ["se" + DecimalToString(Canonical(b.seRatio.value))] else []
  }

  /** The optional `noskip` token. */
  function SkipArgs(b: BlockArgs): seq<string>
  {
    if !b.idSkip then ["noskip"] else []
  }

  /** The `args` list of `_encode_block_string`, then the `se` comparison, then `noskip`. */
  function EncodeArgs(b: BlockArgs): Result<seq<string>>
  {
    var st :- StrideText(b.stride);
    if b.seRatio.None? then Err(TypeError)
    else Ok(BaseArgs(b, st) + SeArgs(b) + SkipArgs(b))
  }

  /**
   * `BlockDecoder._encode_block_string` with the stride read from `stride`;
   * a missing ratio still raises TypeError at `0 < se_ratio`, as in the source.
   */
  function EncodeBlock(b: BlockArgs): Result<string>
  {
    var args :- EncodeArgs(b);
    Ok(Join(args, '_'))
  }

  /**
   * `BlockDecoder._encode_block_string` as written: building the first list
   * already evaluates `block.strides`, a field `BlockArgs` does not have, so
   * every call raises AttributeError.
   */
  function EncodeBlockAsWritten(b: BlockArgs): Result<string>
  {
    Err(AttributeError)
  }

  /** The records the round trip covers: non-negative numbers, a one-digit stride list, a ratio in (0, 1]. */
  predicate Encodable(b: BlockArgs)
  {
    && b.kernelSize >= 0 && b.numRepeat >= 0 && b.inputFilters >= 0
    && b.outputFilters >= 0 && b.expandRatio >= 0
    && b.stride.Listed? && |b.stride.elems| == 1 && 0 <= b.stride.elems[0] <= 9
    && EmitsSe(b.seRatio)
  }

  function CanonicalSe(se: Option<Decimal>): Option<Decimal>
  {
    match se
    case None => None
    case Some(d) => Some(Canonical(d))
  }

  /** An option value the encoder writes: starts with a digit, no line break, no separator, no `n`. */
  predicate ValueText(v: string)
  {
    |v| >= 1 && IsDigit(v[0]) && '\n' !in v && '_' !in v && 'n' !in v
  }

  lemma NatValueText(n: nat)
    ensures ValueText(NatToString(n))
  {
    var v := NatToString(n);
    forall j | 0 <= j < |v| ensures v[j] != '\n' && v[j] != '_' && v[j] != 'n' {
      assert IsDigit(v[j]);
    }
  }

  /** A token written as a key and a value text has no `_` and no `n` when the key has none. */
  lemma TokenClean(key: string, v: string)
    requires '_' !in key && 'n' !in key && ValueText(v)
    ensures '_' !in key + v && 'n' !in key + v
  {
  }

  /** One step of the options loop on a token with a key. */
  lemma OptionsStep(ops: seq<string>, op: string, key: string, v: string)
    requires SplitToken(op) == Some((key, v))
    ensures Options(ops + [op]) == Options(ops)[key := v]
  {
    OptionsAppend(ops, op);
  }

  /** The options of the first three mandatory tokens. */
  lemma OptionsOfFirstThree(vr: string, vk: string, vs: string)
    requires ValueText(vr) && ValueText(vk) && ValueText(vs)
    ensures Options(["r" + vr, "k" + vk, "s" + vs]) == map["r" := vr, "k" := vk, "s" := vs]
  {
    SplitTokenOf("r", vr);
    SplitTokenOf("k", vk);
    SplitTokenOf("s", vs);
    var p0: seq<string> := [];
    OptionsStep(p0, "r" + vr, "r", vr);
    var p1 := p0 + ["r" + vr];
    OptionsStep(p1, "k" + vk, "k", vk);
    var p2 := p1 + ["k" + vk];
    OptionsStep(p2, "s" + vs, "s", vs);
    assert p2 + ["s" + vs] == ["r" + vr, "k" + vk, "s" + vs];
  }

  /** The options of the six mandatory tokens. */
  lemma OptionsOfBase(vr: string, vk: string, vs: string, ve: string, vi: string, vo: string)
    requires ValueText(vr) && ValueText(vk) && ValueText(vs)
    requires ValueText(ve) && ValueText(vi) && ValueText(vo)
    ensures var base := ["r" + vr, "k" + vk, "s" + vs, "e" + ve, "i" + vi, "o" + vo];
      Options(base) == map["r" := vr, "k" := vk, "s" := vs, "e" := ve, "i" := vi, "o" := vo]
  {
    OptionsOfFirstThree(vr, vk, vs);
    SplitTokenOf("e", ve);
    SplitTokenOf("i", vi);
    SplitTokenOf("o", vo);
    var p3 := ["r" + vr, "k" + vk, "s" + vs];
    OptionsStep(p3, "e" + ve, "e", ve);
    var p4 := p3 + ["e" + ve];
    OptionsStep(p4, "i" + vi, "i", vi);
    var p5 := p4 + ["i" + vi];
    OptionsStep(p5, "o" + vo, "o", vo);
    assert p5 + ["o" + vo] == ["r" + vr, "k" + vk, "s" + vs, "e" + ve, "i" + vi, "o" + vo];
  }

  /** The six mandatory tokens contain neither `_` nor `n`. */
  lemma BaseClean(vr: string, vk: string, vs: string, ve: string, vi: string, vo: string)
    requires ValueText(vr) && ValueText(vk) && ValueText(vs)
    requires ValueText(ve) && ValueText(vi) && ValueText(vo)
    ensures var base := ["r" + vr, "k" + vk, "s" + vs, "e" + ve, "i" + vi, "o" + vo];
      forall k :: 0 <= k < |base| ==> '_' !in base[k] && 'n' !in base[k]
  {
    var base := ["r" + vr, "k" + vk, "s" + vs, "e" + ve, "i" + vi, "o" + vo];
    forall k | 0 <= k < |base| ensures '_' !in base[k] && 'n' !in base[k] {
      var v := [vr, vk, vs, ve, vi, vo][k];
      assert base[k] == [base[k][0]] + v;
    }
  }

  /** The stride text of an encodable record: the digit written twice. */
  lemma StrideTextOf(b: BlockArgs)
    requires Encodable(b)
    ensures StrideText(b.stride) == Ok(NatToString(b.stride.elems[0]) + NatToString(b.stride.elems[0]))
    ensures ValueText(StrideText(b.stride).value)
    ensures StrideText(b.stride).value[0] == DigitChar(b.stride.elems[0])
    ensures StrideOk(StrideText(b.stride).value)
  {
    var d := b.stride.elems[0];
    var t := NatToString(d) + NatToString(d);
    assert NatToString(d) == [DigitChar(d)];
    assert t == [DigitChar(d), DigitChar(d)];
  }

  /** The option map an encodable record should decode from. */
  function BaseMap(b: BlockArgs, st: string): map<string, string>
  {
    map["r" := IntToString(b.numRepeat), "k" := IntToString(b.kernelSize), "s" := st,
        "e" := IntToString(b.expandRatio), "i" := IntToString(b.inputFilters),
        "o" := IntToString(b.outputFilters)]
  }

  function EncodedMap(b: BlockArgs, st: string): map<string, string>
  {
    if EmitsSe(b.seRatio) then BaseMap(b, st)["se" := DecimalToString(Canonical(b.seRatio.value))]
    else BaseMap(b, st)
  }

  lemma IntValueText(n: int)
    requires n >= 0
    ensures ValueText(IntToString(n))
  {
    NatValueText(n);
  }

  /** The tokens before `noskip`: free of `_` and `n`, and giving the expected options. */
  lemma EncodedPrefix(b: BlockArgs, st: string)
    requires Encodable(b) && StrideText(b.stride) == Ok(st)
    ensures var withSe := BaseArgs(b, st) + SeArgs(b);
      Options(withSe) == EncodedMap(b, st)
  {
    StrideTextOf(b);
    IntValueText(b.numRepeat);
    IntValueText(b.kernelSize);
    IntValueText(b.expandRatio);
    IntValueText(b.inputFilters);
    IntValueText(b.outputFilters);
    var base := BaseArgs(b, st);
    OptionsOfBase(IntToString(b.numRepeat), IntToString(b.kernelSize), st,
                  IntToString(b.expandRatio), IntToString(b.inputFilters), IntToString(b.outputFilters));
    SeStep(b, base);
  }

  /** The optional `se` token adds the printed canonical ratio under key `se`. */
  lemma SeStep(b: BlockArgs, base: seq<string>)
    ensures Options(base + SeArgs(b)) ==
      if EmitsSe(b.seRatio) then Options(base)["se" := DecimalToString(Canonical(b.seRatio.value))]
      else Options(base)
  {
    if EmitsSe(b.seRatio) {
      var v := DecimalToString(Canonical(b.seRatio.value));
      DecimalTextShape(Canonical(b.seRatio.value));
      SplitTokenOf("se", v);
      OptionsStep(base, "se" + v, "se", v);
    } else {
      assert base + SeArgs(b) == base;
    }
  }

  /** The tokens before `noskip` contain neither `_` nor `n`. */
  lemma EncodedPrefixClean(b: BlockArgs, st: string)
    requires Encodable(b) && StrideText(b.stride) == Ok(st)
    ensures var withSe := BaseArgs(b, st) + SeArgs(b);
      |withSe| >= 1 && forall k :: 0 <= k < |withSe| ==> '_' !in withSe[k] && 'n' !in withSe[k]
  {
    StrideTextOf(b);
    IntValueText(b.numRepeat);
    IntValueText(b.kernelSize);
    IntValueText(b.expandRatio);
    IntValueText(b.inputFilters);
    IntValueText(b.outputFilters);
    var base := BaseArgs(b, st);
    BaseClean(IntToString(b.numRepeat), IntToString(b.kernelSize), st,
              IntToString(b.expandRatio), IntToString(b.inputFilters), IntToString(b.outputFilters));
    var withSe := base + SeArgs(b);
    if EmitsSe(b.seRatio) {
      var v := DecimalToString(Canonical(b.seRatio.value));
      DecimalTextShape(Canonical(b.seRatio.value));
      TokenClean("se", v);
    }
    forall k | 0 <= k < |withSe| ensures '_' !in withSe[k] && 'n' !in withSe[k] {
      if k < |base| { assert withSe[k] == base[k]; }
    }
  }

  /** The whole `args` list: free of `_`, giving the expected options, naming `noskip` exactly when the skip is off. */
  lemma EncodedOptions(b: BlockArgs)
    requires Encodable(b)
    ensures EncodeArgs(b).Ok?
    ensures var args := EncodeArgs(b).value;
      && |args| >= 1 && (forall k :: 0 <= k < |args| ==> '_' !in args[k])
      && Options(args) == EncodedMap(b, StrideText(b.stride).value)
      && (Contains(Join(args, '_'), "noskip") <==> !b.idSkip)
  {
    StrideTextOf(b);
    var st := StrideText(b.stride).value;
    var withSe := BaseArgs(b, st) + SeArgs(b);
    EncodedPrefix(b, st);
    EncodedPrefixClean(b, st);
    FinishArgs(withSe, b.idSkip);
    EncodeArgsOf(b, st);
  }

  /** For a record with a stride text and a ratio, the encoder's list is the three parts in order. */
  lemma EncodeArgsOf(b: BlockArgs, st: string)
    requires StrideText(b.stride) == Ok(st) && b.seRatio.Some?
    ensures EncodeArgs(b) == Ok(BaseArgs(b, st) + SeArgs(b) + (if !b.idSkip then ["noskip"] else []))
  {
  }

  /** Appending the optional `noskip` token to clean tokens. */
  lemma FinishArgs(withSe: seq<string>, idSkip: bool)
    requires |withSe| >= 1 && forall k :: 0 <= k < |withSe| ==> '_' !in withSe[k] && 'n' !in withSe[k]
    ensures var args := withSe + (if !idSkip then ["noskip"] else []);
      && (forall k :: 0 <= k < |args| ==> '_' !in args[k])
      && Options(args) == Options(withSe)
      && (Contains(Join(args, '_'), "noskip") <==> !idSkip)
  {
    JoinAvoids(withSe, '_', 'n');
    SkipStep(withSe, idSkip);
  }

  /** The optional `noskip` token adds no option, and `noskip` occurs in the string exactly when it is written. */
  lemma SkipStep(withSe: seq<string>, idSkip: bool)
    requires |withSe| >= 1 && (forall k :: 0 <= k < |withSe| ==> '_' !in withSe[k])
    requires 'n' !in Join(withSe, '_')
    ensures var args := withSe + (if !idSkip then ["noskip"] else []);
      && (forall k :: 0 <= k < |args| ==> '_' !in args[k])
      && Options(args) == Options(withSe)
      && (Contains(Join(args, '_'), "noskip") <==> !idSkip)
  {
    if idSkip {
      assert withSe + [] == withSe;
      ContainsNeedsFirst(Join(withSe, '_'), "noskip");
    } else {
      var args := withSe + ["noskip"];
      assert FirstDigit("noskip") == None;
      OptionsAppend(withSe, "noskip");
      JoinAppend(withSe, "noskip", '_');
      assert Join(args, '_') == (Join(withSe, '_') + ['_']) + "noskip";
      ContainsSuffix(Join(withSe, '_') + ['_'], "noskip");
      forall k | 0 <= k < |args| ensures '_' !in args[k] {
        if k < |withSe| { assert args[k] == withSe[k]; }
      }
    }
  }

  /** The numeric fields read back from the expected option map. */
  lemma EncodedIntFields(b: BlockArgs, st: string)
    requires Encodable(b)
    ensures var m := EncodedMap(b, st);
      && IntField(m, "k") == Ok(b.kernelSize) && IntField(m, "r") == Ok(b.numRepeat)
      && IntField(m, "i") == Ok(b.inputFilters) && IntField(m, "o") == Ok(b.outputFilters)
      && IntField(m, "e") == Ok(b.expandRatio)
  {
    var m0 := BaseMap(b, st);
    var m := EncodedMap(b, st);
    assert forall key :: key in m0 && key != "se" ==> key in m && m[key] == m0[key];
    IntFieldOf(m, "k", b.kernelSize);
    IntFieldOf(m, "r", b.numRepeat);
    IntFieldOf(m, "i", b.inputFilters);
    IntFieldOf(m, "o", b.outputFilters);
    IntFieldOf(m, "e", b.expandRatio);
  }

  /** The stride and the ratio read back from the expected option map. */
  lemma EncodedFields(b: BlockArgs, st: string)
    requires Encodable(b) && StrideText(b.stride) == Ok(st)
    ensures var m := EncodedMap(b, st);
      && "s" in m && m["s"] == st && StrideOk(st) && |st| >= 1 && IsDigit(st[0])
      && CanonicalBlock(b).stride == Listed([DigitValue(st[0])])
      && (CanonicalBlock(b).seRatio.None? <==> "se" !in m)
      && (CanonicalBlock(b).seRatio.Some? ==> ParseDecimal(m["se"]) == CanonicalBlock(b).seRatio)
  {
    EncodedStride(b, st);
    EncodedSe(b, st);
  }

  lemma EncodedStride(b: BlockArgs, st: string)
    requires Encodable(b) && StrideText(b.stride) == Ok(st)
    ensures var m := EncodedMap(b, st);
      && "s" in m && m["s"] == st && StrideOk(st) && |st| >= 1 && IsDigit(st[0])
      && CanonicalBlock(b).stride == Listed([DigitValue(st[0])])
  {
    StrideTextOf(b);
  }

  lemma EncodedSe(b: BlockArgs, st: string)
    requires Encodable(b)
    ensures var m := EncodedMap(b, st);
      && (CanonicalBlock(b).seRatio.None? <==> "se" !in m)
      && (CanonicalBlock(b).seRatio.Some? ==> ParseDecimal(m["se"]) == CanonicalBlock(b).seRatio)
  {
    if EmitsSe(b.seRatio) {
      DecimalToStringRoundTrip(Canonical(b.seRatio.value));
    }
  }

  lemma IntFieldOf(m: map<string, string>, key: string, n: int)
    requires n >= 0 && key in m && m[key] == IntToString(n)
    ensures IntField(m, key) == Ok(n)
  {
    ParseIntOf(n);
  }

  /** `BuildRecord` once every field reads back. */
  lemma BuildRecordOf(blockString: string, options: map<string, string>, b: BlockArgs)
    requires "s" in options && |options["s"]| >= 1 && IsDigit(options["s"][0])
    requires IntField(options, "k") == Ok(b.kernelSize) && IntField(options, "r") == Ok(b.numRepeat)
    requires IntField(options, "i") == Ok(b.inputFilters) && IntField(options, "o") == Ok(b.outputFilters)
    requires IntField(options, "e") == Ok(b.expandRatio)
    requires b.stride == Listed([DigitValue(options["s"][0])])
    requires b.idSkip <==> !Contains(blockString, "noskip")
    requires b.seRatio.None? <==> "se" !in options
    requires b.seRatio.Some? ==> ParseDecimal(options["se"]) == b.seRatio
    ensures BuildRecord(blockString, options) == Ok(b)
  {
  }

  /** The record the round trip gives back: the same record, its ratio in canonical form. */
  function CanonicalBlock(b: BlockArgs): BlockArgs
  {
    b.(seRatio := CanonicalSe(b.seRatio))
  }

  /** The encoding of an encodable record splits back into the expected options, with `noskip` exactly when the skip is off. */
  lemma EncodedString(b: BlockArgs)
    requires Encodable(b)
    ensures EncodeBlock(b).Ok?
    ensures var s := EncodeBlock(b).value;
      && Options(Split(s, '_')) == EncodedMap(b, StrideText(b.stride).value)
      && (Contains(s, "noskip") <==> !b.idSkip)
  {
    EncodedOptions(b);
    var args := EncodeArgs(b).value;
    SplitJoin(args, '_');
  }

  /**
   * The round trip: for a record with a one-digit stride list and a ratio
   * in (0, 1], decoding the encoding gives back every field (the
   * ratio in its canonical decimal form, which has the same value).
   */
  lemma RoundTrip(b: BlockArgs)
    requires Encodable(b)
    ensures EncodeBlock(b).Ok?
    ensures DecodeBlock(EncodeBlock(b).value) == Ok(CanonicalBlock(b))
  {
    EncodedString(b);
    StrideTextOf(b);
    var st := StrideText(b.stride).value;
    var s := EncodeBlock(b).value;
    var m := EncodedMap(b, st);
    EncodedFields(b, st);
    EncodedIntFields(b, st);
    var b' := CanonicalBlock(b);
    BuildRecordOf(s, m, b');
    DecodeOfOptions(s, m, b');
  }

  lemma DecodeOfOptions(s: string, m: map<string, string>, b: BlockArgs)
    requires Options(Split(s, '_')) == m
    requires "s" in m && StrideOk(m["s"])
    requires BuildRecord(s, m) == Ok(b)
    ensures DecodeBlock(s) == Ok(b)
  {
  }

  /**
   * The discrepancy in the source: whatever string the decoder accepts, the
   * encoder as written cannot encode the record it produced.
   */
  lemma EncodeAsWrittenBreaksRoundTrip(blockString: string)
    requires DecodeBlock(blockString).Ok?
    ensures EncodeBlockAsWritten(DecodeBlock(blockString).value) == Err(AttributeError)
    ensures EncodeBlock(DecodeBlock(blockString).value).Ok? <==> SomeTokenHasKey(Split(blockString, '_'), "se")
  {
    DecodeStride(blockString);
    DecodeFlags(blockString);
  }

  // ---------------------------------------------------------------------
  // decode / encode over lists

  /** `BlockDecoder.decode` as a value: the records in order, or the first string's exception. */
  function DecodeAll(strings: seq<string>): Result<seq<BlockArgs>>
  {
    MapResult(DecodeBlock, strings)
  }

  /** `BlockDecoder.decode`: appends one decoded record per string. */
  method Decode(strings: seq<string>) returns (r: Result<seq<BlockArgs>>)
    ensures r == DecodeAll(strings)
    ensures r.Ok? <==> AllOk(DecodeBlock, strings)
    ensures r.Ok? ==> (|r.value| == |strings| &&
      forall k :: 0 <= k < |strings| ==> r.value[k] == DecodeBlock(strings[k]).value)
  {
    MapResultShape(DecodeBlock, strings);
    r := MapLoop(DecodeBlock, strings);
  }

  /** `BlockDecoder.encode` as a value, with the corrected block encoder. */
  function EncodeAll(blocks: seq<BlockArgs>): Result<seq<string>>
  {
    MapResult(EncodeBlock, blocks)
  }

  /** `BlockDecoder.encode`: appends one block string per record. */
  method Encode(blocks: seq<BlockArgs>) returns (r: Result<seq<string>>)
    ensures r == EncodeAll(blocks)
    ensures r.Ok? <==> AllOk(EncodeBlock, blocks)
    ensures r.Ok? ==> (|r.value| == |blocks| &&
      forall k :: 0 <= k < |blocks| ==> r.value[k] == EncodeBlock(blocks[k]).value)
  {
    MapResultShape(EncodeBlock, blocks);
    r := MapLoop(EncodeBlock, blocks);
  }


  /** Decoding the encodings of a list of encodable records gives the list back, ratios in canonical form. */
  lemma RoundTripAll(blocks: seq<BlockArgs>)
    requires forall k :: 0 <= k < |blocks| ==> Encodable(blocks[k])
    ensures EncodeAll(blocks).Ok?
    ensures DecodeAll(EncodeAll(blocks).value).Ok?
    ensures var r := DecodeAll(EncodeAll(blocks).value).value;
      |r| == |blocks| && forall k :: 0 <= k < |blocks| ==> r[k] == CanonicalBlock(blocks[k])
  {
    forall k | 0 <= k < |blocks| ensures EncodeBlock(blocks[k]).Ok? &&
      DecodeBlock(EncodeBlock(blocks[k]).value) == Ok(CanonicalBlock(blocks[k]))
    {
      RoundTrip(blocks[k]);
    }
    MapResultShape(EncodeBlock, blocks);
    var strs := EncodeAll(blocks).value;
    MapResultShape(DecodeBlock, strs);
    assert AllOk(DecodeBlock, strs);
  }
}
