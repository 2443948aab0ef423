/**
 * Shared vocabulary of the model: the Python exceptions the modelled code can
 * raise, a Result type carrying them, and the integer and real arithmetic of
 * Python (floor division, truncating int(), ceil) written out over Dafny's
 * unbounded numbers.
 */
module Common {

  /** The Python exceptions raised by the modelled code paths. */
  datatype PyError =
    | KeyError
    | IndexError
    | ValueError
    | TypeError
    | AttributeError
    | AssertionError
    | ZeroDivisionError
    | NotImplementedError
    | StopIteration
    | UnboundLocalError

  datatype Option<+T> = None | Some(value: T)

  /** A computation that either returns a value or raises a Python exception. */
  datatype Result<+T> = Ok(value: T) | Err(error: PyError) {
    predicate IsFailure() { Err? }
    function PropagateFailure<U>(): Result<U>
      requires Err?
    {
      Err(error)
    }
    function Extract(): T
      requires Ok?
    {
      value
    }
  }

  function Max(a: int, b: int): (r: int)
    ensures r >= a && r >= b && (r == a || r == b)
  {
    if a >= b then a else b
  }

  function Min(a: int, b: int): (r: int)
    ensures r <= a && r <= b && (r == a || r == b)
  {
    if a <= b then a else b
  }

  /** Python's `//` on integers: the floor of the exact quotient. */
  function FloorDiv(a: int, b: int): (q: int)
    requires b != 0
    ensures b > 0 ==> q * b <= a < q * b + b
    ensures b < 0 ==> q * b >= a > q * b + b
  {
    if b > 0 then a / b else (-a) / (-b)
  }

  /** Python's `%` on integers: the remainder takes the sign of the divisor. */
  function PyMod(a: int, b: int): (r: int)
    requires b != 0
    ensures b > 0 ==> 0 <= r < b
    ensures b < 0 ==> b < r <= 0
    ensures a == FloorDiv(a, b) * b + r
  {
    a - FloorDiv(a, b) * b
  }

  /** Python's `int(x)` on a float: truncation toward zero. */
  function Trunc(x: real): (n: int)
    ensures x >= 0.0 ==> n as real <= x < n as real + 1.0
    ensures x < 0.0 ==> n as real - 1.0 < x <= n as real
  {
    if x >= 0.0 then x.Floor else -((-x).Floor)
  }

  /** `math.ceil`: the least integer not below x. */
  function Ceil(x: real): (n: int)
    ensures n as real >= x && n as real - 1.0 < x
  {
    -((-x).Floor)
  }

  /** A quotient is determined by its bracketing. */
  lemma FloorDivUnique(a: int, b: int, q: int)
    requires b >= 1 && q * b <= a < q * b + b
    ensures FloorDiv(a, b) == q
  {
    var r := FloorDiv(a, b);
    if r < q {
      assert r + 1 <= q;
      MulMono(r + 1, q, b);
    } else if r > q {
      assert q + 1 <= r;
      MulMono(q + 1, r, b);
    }
  }

  lemma MulMono(x: int, y: int, b: int)
    requires x <= y && b >= 0
    ensures x * b <= y * b
  {
  }

  /** Python truthiness of an optional number: None and zero are false. */
  predicate Truthy(x: Option<real>)
  {
    x.Some? && x.value != 0.0
  }

  function Pow10(n: nat): (p: nat)
    ensures p >= 1
  {
    if n == 0 then 1 else 10 * Pow10(n - 1)
  }

  // ---------------------------------------------------------------------
  // Decimal digit strings

  predicate IsDigit(c: char)
  {
    '0' <= c <= '9'
  }

  predicate AllDigits(s: string)
  {
    forall i :: 0 <= i < |s| ==> IsDigit(s[i])
  }

  function DigitValue(c: char): nat
    requires IsDigit(c)
  {
    (c as int - '0' as int) as nat
  }

  function DigitChar(d: nat): (c: char)
    requires d < 10
    ensures IsDigit(c) && DigitValue(c) == d
  {
    ('0' as int + d) as char
  }

  /** The number a string of decimal digits denotes (most significant first). */
  function DigitsValue(s: string): nat
    requires AllDigits(s)
  {
    if s == [] then 0 else 10 * DigitsValue(s[..|s| - 1]) + DigitValue(s[|s| - 1])
  }

  /** The shortest decimal numeral of n, as `'%d' % n` prints it. */
  function NatToString(n: nat): (s: string)
    ensures |s| >= 1 && AllDigits(s)
    decreases n
  {
    if n < 10 then [DigitChar(n)] else NatToString(n / 10) + [DigitChar(n % 10)]
  }

  /** `'%d' % n` for any integer: a minus sign in front of negative numbers. */
  function IntToString(n: int): (s: string)
    ensures |s| >= 1
    ensures n >= 0 ==> s == NatToString(n)
  {
    if n >= 0 then NatToString(n) else "-" + NatToString(-n)
  }

  lemma AllDigitsAppend(s: string, t: string)
    requires AllDigits(s) && AllDigits(t)
    ensures AllDigits(s + t)
  {
    forall i | 0 <= i < |s + t| ensures IsDigit((s + t)[i]) {
      if i < |s| { assert (s + t)[i] == s[i]; } else { assert (s + t)[i] == t[i - |s|]; }
    }
  }

  lemma {:induction false} DigitsValueAppend(s: string, t: string)
    requires AllDigits(s) && AllDigits(t)
    ensures AllDigits(s + t)
    ensures DigitsValue(s + t) == DigitsValue(s) * Pow10(|t|) + DigitsValue(t)
    decreases |t|
  {
    AllDigitsAppend(s, t);
    if t == [] {
      assert s + t == s;
    } else {
      var t' := t[..|t| - 1];
      DigitsValueAppend(s, t');
      assert (s + t)[..|s + t| - 1] == s + t';
      assert (s + t)[|s + t| - 1] == t[|t| - 1];
      assert AllDigits(t');
      var a, p, b, c := DigitsValue(s), Pow10(|t'|), DigitsValue(t'), DigitValue(t[|t| - 1]);
      assert DigitsValue(s + t) == 10 * (a * p + b) + c;
      assert DigitsValue(t) == 10 * b + c;
      assert Pow10(|t|) == 10 * p;
      ShiftDigit(a, p, b, c);
    }
  }

  lemma ShiftDigit(a: int, p: int, b: int, c: int)
    ensures 10 * (a * p + b) + c == a * (10 * p) + (10 * b + c)
  {
  }

  /** Printing a natural number and reading it back gives the number. */
  lemma {:induction false} NatToStringValue(n: nat)
    ensures DigitsValue(NatToString(n)) == n
    decreases n
  {
    if n >= 10 {
      NatToStringValue(n / 10);
      var s := NatToString(n);
      assert s[..|s| - 1] == NatToString(n / 10);
    }
  }

  /** A numeral of n has at most k digits whenever n < 10^k. */
  lemma {:induction false} NatToStringLength(n: nat, k: nat)
    requires n < Pow10(k)
    ensures |NatToString(n)| <= k || (n == 0 && k == 0)
    decreases n
  {
    if n >= 10 {
      assert k >= 1;
      assert n / 10 < Pow10(k - 1);
      NatToStringLength(n / 10, k - 1);
    }
  }

  function Zeros(k: nat): (s: string)
    ensures |s| == k && AllDigits(s) && DigitsValue(s) == 0
  {
    if k == 0 then [] else
      var z := Zeros(k - 1) + ['0'];
      assert z[..|z| - 1] == Zeros(k - 1);
      z
  }

  /** Leading zeros do not change the value of a numeral. */
  lemma LeadingZeros(k: nat, s: string)
    requires AllDigits(s)
    ensures AllDigits(Zeros(k) + s) && DigitsValue(Zeros(k) + s) == DigitsValue(s)
  {
    DigitsValueAppend(Zeros(k), s);
  }

  // ---------------------------------------------------------------------
  // Applying a list of operators in order

  /** `for op in ops: data = op(data)`: each operator once, in list order. */
  function ApplyInOrder<D>(ops: seq<D -> D>, data: D): D
  {
    if ops == [] then data else ops[|ops| - 1](ApplyInOrder(ops[..|ops| - 1], data))
  }

  /** Applying a + b is applying a, then b. */
  lemma {:induction false} ApplyInOrderAppend<D>(a: seq<D -> D>, b: seq<D -> D>, data: D)
    ensures ApplyInOrder(a + b, data) == ApplyInOrder(b, ApplyInOrder(a, data))
    decreases |b|
  {
    if b == [] {
      assert a + b == a;
    } else {
      var b' := b[..|b| - 1];
      assert (a + b)[..|a + b| - 1] == a + b';
      assert (a + b)[|a + b| - 1] == b[|b| - 1];
      ApplyInOrderAppend(a, b', data);
    }
  }

  // ---------------------------------------------------------------------
  // A loop that stops at the first exception

  /** Applies f to each element in order; the first exception ends the loop and is re-raised. */
  function MapResult<A, B>(f: A -> Result<B>, xs: seq<A>): Result<seq<B>>
  {
    if xs == [] then Ok([])
    else
      var init :- MapResult(f, xs[..|xs| - 1]);
      var last :- f(xs[|xs| - 1]);
      Ok(init + [last])
  }

  predicate AllOk<A, B>(f: A -> Result<B>, xs: seq<A>)
  {
    forall k :: 0 <= k < |xs| ==> f(xs[k]).Ok?
  }

  /** The loop succeeds exactly when every element does, and then returns f's results in order. */
  lemma {:induction false} MapResultShape<A, B>(f: A -> Result<B>, xs: seq<A>)
    ensures MapResult(f, xs).Ok? <==> AllOk(f, xs)
    ensures MapResult(f, xs).Ok? ==>
      |MapResult(f, xs).value| == |xs| &&
      forall k :: 0 <= k < |xs| ==> MapResult(f, xs).value[k] == f(xs[k]).value
    decreases |xs|
  {
    if xs != [] {
      var n := |xs| - 1;
      var init := xs[..n];
      MapResultShape(f, init);
      assert forall k :: 0 <= k < n ==> init[k] == xs[k];
      if MapResult(f, init).Err? {
        var k :| 0 <= k < n && f(init[k]).Err?;
        assert f(xs[k]).Err?;
      } else if f(xs[n]).Ok? {
        var ys := MapResult(f, xs).value;
        assert ys == MapResult(f, init).value + [f(xs[n]).value];
        forall k | 0 <= k < |xs| ensures f(xs[k]).Ok? && ys[k] == f(xs[k]).value {
          if k < n { assert ys[k] == MapResult(f, init).value[k]; }
        }
      }
    }
  }

  /** Once a prefix raises, the whole loop raises the same exception. */
  lemma {:induction false} MapResultPrefixFailure<A, B>(f: A -> Result<B>, xs: seq<A>, n: nat)
    requires n <= |xs| && MapResult(f, xs[..n]).Err?
    ensures MapResult(f, xs) == Err(MapResult(f, xs[..n]).error)
    decreases |xs| - n
  {
    if n < |xs| {
      assert xs[..n + 1][..n] == xs[..n];
      MapResultPrefixFailure(f, xs, n + 1);
    } else {
      assert xs[..n] == xs;
    }
  }

  /** The loop itself: appends f's result for each element and stops at the first exception. */
  method MapLoop<A, B>(f: A -> Result<B>, xs: seq<A>) returns (r: Result<seq<B>>)
    ensures r == MapResult(f, xs)
  {
    var ys: seq<B> := [];
    var n := 0;
    while n < |xs|
      invariant 0 <= n <= |xs|
      invariant MapResult(f, xs[..n]) == Ok(ys)
    {
      assert xs[..n + 1][..n] == xs[..n];
      var y := f(xs[n]);
      if y.Err? {
        r := Err(y.error);
        MapResultPrefixFailure(f, xs, n + 1);
        return;
      }
      ys := ys + [y.value];
      n := n + 1;
    }
    assert xs[..n] == xs;
    r := Ok(ys);
  }
}
