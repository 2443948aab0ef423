/**
 * EfficientNet configuration arithmetic: the per-model coefficient table,
 * `get_model_params`, the width and depth rounding rules, SAME padding and
 * the per-stage input sizes, and the conditions under which an MBConv block
 * gets a squeeze-and-excitation branch or a residual connection.
 *
 * Python floats are modelled as exact reals.
 */
module EfficientNet {
  import opened Common
  import opened BlockCodec

  /** The `GlobalParams` named tuple, with the Python `None` of optional fields made explicit. */
  datatype GlobalParams = GlobalParams(
    batchNormMomentum: real,
    batchNormEpsilon: real,
    dropoutRate: Option<real>,
    numClasses: int,
    widthCoefficient: Option<real>,
    depthCoefficient: Option<real>,
    depthDivisor: int,
    minDepth: Option<int>,
    dropConnectRate: Option<real>)

  /** One row of `efficientnet_params`: width, depth, resolution, dropout. */
  datatype Coefficients = Coefficients(width: real, depth: real, resolution: int, dropout: real)

  /** `efficientnet_params`: the table lookup; an unknown name raises KeyError. */
  function ModelCoefficients(modelName: string): (r: Result<Coefficients>)
    ensures r.Ok? ==> "efficientnet" <= modelName
    ensures r.Ok? ==> r.value.width >= 1.0 && r.value.depth >= 1.0 && r.value.resolution > 0
  {
    if modelName == "efficientnet-b0" then Ok(Coefficients(1.0, 1.0, 224, 0.2))
    else if modelName == "efficientnet-b1" then Ok(Coefficients(1.0, 1.1, 240, 0.2))
    else if modelName == "efficientnet-b2" then Ok(Coefficients(1.1, 1.2, 260, 0.3))
    else if modelName == "efficientnet-b3" then Ok(Coefficients(1.2, 1.4, 300, 0.3))
    else if modelName == "efficientnet-b4" then Ok(Coefficients(1.4, 1.8, 380, 0.4))
    else if modelName == "efficientnet-b5" then Ok(Coefficients(1.6, 2.2, 456, 0.4))
    else if modelName == "efficientnet-b6" then Ok(Coefficients(1.8, 2.6, 528, 0.5))
    else if modelName == "efficientnet-b7" then Ok(Coefficients(2.0, 3.1, 600, 0.5))
    else Err(KeyError)
  }

  /** The eight model names of the table. */
  function ModelNames(): seq<string>
  {
    ["efficientnet-b0", "efficientnet-b1", "efficientnet-b2", "efficientnet-b3",
     "efficientnet-b4", "efficientnet-b5", "efficientnet-b6", "efficientnet-b7"]
  }

  /** The table is defined exactly on its eight names, and resolution and both coefficients grow from b0 to b7. */
  lemma CoefficientTable(modelName: string)
    ensures ModelCoefficients(modelName).Ok? <==> modelName in ModelNames()
    ensures forall k :: 0 <= k < 7 ==>
      var a, b := ModelCoefficients(ModelNames()[k]).value, ModelCoefficients(ModelNames()[k + 1]).value;
      a.width <= b.width && a.depth < b.depth && a.resolution < b.resolution && a.dropout <= b.dropout
  {
  }

  /** The block strings listed in `efficientnet`. */
  function DefaultBlockStrings(): seq<string>
  {
    ["r1_k3_s11_e1_i32_o16_se0.25",
     "r2_k3_s22_e6_i16_o24_se0.25",
     "r2_k5_s22_e6_i24_o40_se0.25",
     "r3_k3_s22_e6_i40_o80_se0.25",
     "r3_k5_s11_e6_i80_o112_se0.25",
     "r4_k5_s22_e6_i112_o192_se0.25",
     "r1_k3_s11_e6_i192_o320_se0.25"]
  }

  /** `efficientnet(...)`: the decoded block list and the global parameters built from the arguments. */
  function Efficientnet(width: Option<real>, depth: Option<real>, dropout: Option<real>, dropConnect: Option<real>)
    : Result<(seq<BlockArgs>, GlobalParams)>
  {
    var blocks :- DecodeAll(DefaultBlockStrings());
    Ok((blocks, GlobalParams(0.99, 0.001, dropout, 1000, width, depth, 8, None, dropConnect)))
  }

  /** A `_replace` keyword: a known field with its new value, or an unknown name. */
  datatype Override =
    | SetMomentum(momentum: real)
    | SetEpsilon(epsilon: real)
    | SetDropout(dropout: Option<real>)
    | SetNumClasses(classes: int)
    | SetWidth(width: Option<real>)
    | SetDepth(depth: Option<real>)
    | SetDivisor(divisor: int)
    | SetMinDepth(minDepth: Option<int>)
    | SetDropConnect(dropConnect: Option<real>)
    | SetUnknown(name: string)

  function ApplyOverride(gp: GlobalParams, o: Override): GlobalParams
  {
    match o
    case SetMomentum(x) => gp.(batchNormMomentum := x)
    case SetEpsilon(x) => gp.(batchNormEpsilon := x)
    case SetDropout(x) => gp.(dropoutRate := x)
    case SetNumClasses(x) => gp.(numClasses := x)
    case SetWidth(x) => gp.(widthCoefficient := x)
    case SetDepth(x) => gp.(depthCoefficient := x)
    case SetDivisor(x) => gp.(depthDivisor := x)
    case SetMinDepth(x) => gp.(minDepth := x)
    case SetDropConnect(x) => gp.(dropConnectRate := x)
    case SetUnknown(_) => gp
  }

  predicate HasUnknown(overrides: seq<Override>)
  {
    exists k :: 0 <= k < |overrides| && overrides[k].SetUnknown?
  }

  /** `global_params._replace(**override_params)`: unexpected field names raise ValueError. */
  function Replace(gp: GlobalParams, overrides: seq<Override>): Result<GlobalParams>
  {
    if HasUnknown(overrides) then Err(ValueError) else Ok(ApplyAll(gp, overrides))
  }

  function ApplyAll(gp: GlobalParams, overrides: seq<Override>): GlobalParams
  {
    if overrides == [] then gp
    else ApplyOverride(ApplyAll(gp, overrides[..|overrides| - 1]), overrides[|overrides| - 1])
  }

  /** `get_model_params`. */
  function GetModelParams(modelName: string, overrides: seq<Override>): Result<(seq<BlockArgs>, GlobalParams)>
  {
    if !("efficientnet" <= modelName) then Err(NotImplementedError)
    else
      var c :- ModelCoefficients(modelName);
      var bg :- Efficientnet(Some(c.width), Some(c.depth), Some(c.dropout), Some(0.2));
      if overrides == [] then Ok(bg)
      else
        var gp :- Replace(bg.1, overrides);
        Ok((bg.0, gp))
  }

  /** A name without the `efficientnet` prefix raises NotImplementedError. */
  lemma GetModelParamsUnsupported(modelName: string, overrides: seq<Override>)
    requires !("efficientnet" <= modelName)
    ensures GetModelParams(modelName, overrides) == Err(NotImplementedError)
  {
  }

  /** A prefixed name missing from the table raises KeyError. */
  lemma GetModelParamsUnknown(modelName: string, overrides: seq<Override>)
    requires "efficientnet" <= modelName && modelName !in ModelNames()
    ensures GetModelParams(modelName, overrides) == Err(KeyError)
  {
    CoefficientTable(modelName);
  }

  /**
   * A listed model without overrides gets its table coefficients, divisor 8,
   * no minimum depth and drop-connect rate 0.2; an unknown override name
   * raises ValueError.
   */
  lemma GetModelParamsListed(modelName: string, c: Coefficients, overrides: seq<Override>, blocks: seq<BlockArgs>)
    requires ModelCoefficients(modelName) == Ok(c) && DecodeAll(DefaultBlockStrings()) == Ok(blocks)
    ensures HasUnknown(overrides) ==> GetModelParams(modelName, overrides) == Err(ValueError)
    ensures overrides == [] ==>
      GetModelParams(modelName, overrides) ==
        Ok((blocks, GlobalParams(0.99, 0.001, Some(c.dropout), 1000, Some(c.width), Some(c.depth), 8, None, Some(0.2))))
  {
    CoefficientTable(modelName);
  }

  /** Overrides name the fields they set; every other field keeps its value. */
  lemma {:induction false} ApplyAllFrame(gp: GlobalParams, overrides: seq<Override>)
    ensures (forall k :: 0 <= k < |overrides| ==> !overrides[k].SetWidth?) ==>
      ApplyAll(gp, overrides).widthCoefficient == gp.widthCoefficient
    ensures (forall k :: 0 <= k < |overrides| ==> !overrides[k].SetDepth?) ==>
      ApplyAll(gp, overrides).depthCoefficient == gp.depthCoefficient
    ensures (forall k :: 0 <= k < |overrides| ==> !overrides[k].SetDivisor?) ==>
      ApplyAll(gp, overrides).depthDivisor == gp.depthDivisor
    ensures |overrides| >= 1 && overrides[|overrides| - 1].SetWidth? ==>
      ApplyAll(gp, overrides).widthCoefficient == overrides[|overrides| - 1].width
    decreases |overrides|
  {
    if overrides != [] {
      var init := overrides[..|overrides| - 1];
      assert forall k :: 0 <= k < |init| ==> init[k] == overrides[k];
      ApplyAllFrame(gp, init);
    }
  }

  // ---------------------------------------------------------------------
  // round_filters / round_repeats

  /** `min_depth or divisor`. */
  function MinDepthOf(gp: GlobalParams): int
  {
    if gp.minDepth.Some? && gp.minDepth.value != 0 then gp.minDepth.value else gp.depthDivisor
  }

  /** `int(filters + divisor / 2) // divisor * divisor`: the nearest multiple of the divisor. */
  function NearestMultiple(f: real, d: int): (q: int)
    requires d != 0
  {
    FloorDiv(Trunc(f + d as real / 2.0), d) * d
  }

  /** `if new_filters < 0.9 * filters: new_filters += divisor`. */
  function Bump(n: int, f: real, d: int): int
  {
    if (n as real) < 0.9 * f then n + d else n
  }

  /** `round_filters`: scale by the width coefficient and round to a multiple of the divisor, at least the minimum depth. */
  function RoundFilters(filters: int, gp: GlobalParams): Result<int>
  {
    if !Truthy(gp.widthCoefficient) then Ok(filters)
    else if gp.depthDivisor == 0 then Err(ZeroDivisionError)
    else Ok(RoundScaled(filters, gp.widthCoefficient.value, MinDepthOf(gp), gp.depthDivisor))
  }

  /** The rounding of `filters * multiplier`. */
  function RoundScaled(filters: int, multiplier: real, minDepth: int, d: int): int
    requires d != 0
  {
    var f := filters as real * multiplier;
    Bump(Max(minDepth, NearestMultiple(f, d)), f, d)
  }

  predicate IsMultiple(n: int, d: int)
    requires d != 0
  {
    PyMod(n, d) == 0
  }

  lemma MultipleOf(q: int, d: int)
    requires d > 0
    ensures IsMultiple(q * d, d)
  {
    FloorDivUnique(q * d, d, q);
  }

  lemma MultipleStep(n: int, d: int)
    requires d > 0 && IsMultiple(n, d)
    ensures IsMultiple(n + d, d)
  {
    var q := FloorDiv(n, d);
    assert n + d == (q + 1) * d;
    MultipleOf(q + 1, d);
  }

  /** The rounding of a non-negative x to a multiple of d > 0 loses less than d/2. */
  lemma NearestMultipleBound(f: real, d: int)
    requires d > 0 && f >= 0.0
    ensures NearestMultiple(f, d) as real > f - d as real / 2.0
  {
    var x := f + d as real / 2.0;
    var t := Trunc(x);
    assert t as real <= x < t as real + 1.0;
    var q := FloorDiv(t, d);
    assert q * d <= t < q * d + d;
    assert q * d >= t - d + 1;
    assert (q * d) as real >= (t - d + 1) as real;
  }

  /** `round_filters` with a falsy width coefficient returns the count; a zero divisor raises. */
  lemma RoundFiltersUnscaled(filters: int, gp: GlobalParams)
    ensures !Truthy(gp.widthCoefficient) ==> RoundFilters(filters, gp) == Ok(filters)
    ensures Truthy(gp.widthCoefficient) && gp.depthDivisor == 0 ==> RoundFilters(filters, gp) == Err(ZeroDivisionError)
  {
  }

  lemma RoundFiltersScaled(filters: int, gp: GlobalParams)
    requires Truthy(gp.widthCoefficient) && gp.depthDivisor > 0
    ensures RoundFilters(filters, gp) ==
      Ok(RoundScaled(filters, gp.widthCoefficient.value, MinDepthOf(gp), gp.depthDivisor))
  {
  }

  /** The final adjustment keeps the minimum depth, a common divisor, and lands within 10% of a non-negative f. */
  lemma BumpBounds(m: int, q: int, f: real, d: int)
    requires d > 0
    ensures Bump(Max(m, q), f, d) >= m
    ensures IsMultiple(m, d) && IsMultiple(q, d) ==> IsMultiple(Bump(Max(m, q), f, d), d)
    ensures f >= 0.0 && q as real > f - d as real / 2.0 ==> Bump(Max(m, q), f, d) as real >= 0.9 * f
  {
    var n := Max(m, q);
    if IsMultiple(m, d) && IsMultiple(q, d) {
      MultipleStep(n, d);
    }
    if f >= 0.0 && q as real > f - d as real / 2.0 {
      assert n as real >= q as real;
      assert (n + d) as real == n as real + d as real;
    }
  }

  /**
   * `round_filters` with a positive divisor: at least the minimum depth, and a
   * multiple of the divisor whenever the minimum depth is one (the default
   * minimum depth is the divisor itself).
   */
  lemma RoundFiltersRounded(filters: int, gp: GlobalParams)
    requires Truthy(gp.widthCoefficient) && gp.depthDivisor > 0
    ensures RoundFilters(filters, gp).Ok? && RoundFilters(filters, gp).value >= MinDepthOf(gp)
    ensures IsMultiple(MinDepthOf(gp), gp.depthDivisor) ==> IsMultiple(RoundFilters(filters, gp).value, gp.depthDivisor)
  {
    var d := gp.depthDivisor;
    var f := filters as real * gp.widthCoefficient.value;
    MultipleOf(FloorDiv(Trunc(f + d as real / 2.0), d), d);
    BumpBounds(MinDepthOf(gp), NearestMultiple(f, d), f, d);
    RoundFiltersScaled(filters, gp);
    assert RoundScaled(filters, gp.widthCoefficient.value, MinDepthOf(gp), d) ==
      Bump(Max(MinDepthOf(gp), NearestMultiple(f, d)), f, d);
  }

  /** `round_filters` never rounds a non-negative scaled count down by more than 10%. */
  lemma RoundFiltersNear(filters: int, gp: GlobalParams)
    requires Truthy(gp.widthCoefficient) && gp.depthDivisor > 0
    requires filters as real * gp.widthCoefficient.value >= 0.0
    ensures RoundFilters(filters, gp).Ok?
    ensures RoundFilters(filters, gp).value as real >= 0.9 * (filters as real * gp.widthCoefficient.value)
  {
    var d := gp.depthDivisor;
    var f := filters as real * gp.widthCoefficient.value;
    NearestMultipleBound(f, d);
    BumpBounds(MinDepthOf(gp), NearestMultiple(f, d), f, d);
    RoundFiltersScaled(filters, gp);
    assert RoundScaled(filters, gp.widthCoefficient.value, MinDepthOf(gp), d) ==
      Bump(Max(MinDepthOf(gp), NearestMultiple(f, d)), f, d);
  }

  /** `round_repeats`: `int(math.ceil(multiplier * repeats))`, or the count itself for a falsy multiplier. */
  function RoundRepeats(repeats: int, gp: GlobalParams): int
  {
    if !Truthy(gp.depthCoefficient) then repeats
    else Ceil(gp.depthCoefficient.value * repeats as real)
  }

  /**
   * `round_repeats`: the least integer not below multiplier × repeats, which
   * never drops below the repeat count when the multiplier is at least 1.
   */
  lemma RoundRepeatsSpec(repeats: int, gp: GlobalParams)
    ensures !Truthy(gp.depthCoefficient) ==> RoundRepeats(repeats, gp) == repeats
    ensures Truthy(gp.depthCoefficient) ==>
      var x := gp.depthCoefficient.value * repeats as real;
      RoundRepeats(repeats, gp) as real >= x && (RoundRepeats(repeats, gp) - 1) as real < x
    ensures Truthy(gp.depthCoefficient) && gp.depthCoefficient.value >= 1.0 && repeats >= 0 ==>
      RoundRepeats(repeats, gp) >= repeats
  {
    if Truthy(gp.depthCoefficient) && gp.depthCoefficient.value >= 1.0 && repeats >= 0 {
      var m := gp.depthCoefficient.value;
      ScaleUp(m, repeats as real);
    }
  }

  lemma ScaleUp(m: real, r: real)
    requires m >= 1.0 && r >= 0.0
    ensures m * r >= r
  {
  }

  // ---------------------------------------------------------------------
  // cal_padding and the Conv2ds padding choice

  /** `cal_padding`: the total SAME padding split into (top, bottom); a zero stride raises ZeroDivisionError. */
  function CalPadding(imgSize: int, stride: int, filterSize: int): Result<(int, int)>
  {
    if stride == 0 then Err(ZeroDivisionError)
    else
      var m := PyMod(imgSize, stride);
      var out := if m == 0 then Max(filterSize - stride, 0) else Max(filterSize - m, 0);
      Ok((FloorDiv(out, 2), out - FloorDiv(out, 2)))
  }

  /** The total SAME padding of `cal_padding`. */
  function SameTotal(imgSize: int, stride: int, filterSize: int): int
    requires stride != 0
  {
    var m := PyMod(imgSize, stride);
    if m == 0 then Max(filterSize - stride, 0) else Max(filterSize - m, 0)
  }

  function CeilDiv(a: int, b: int): int
    requires b > 0
  {
    FloorDiv(a + b - 1, b)
  }

  /**
   * `cal_padding` splits its total into two non-negative halves, the second
   * equal to the first or one more.
   */
  lemma CalPaddingSplit(imgSize: int, stride: int, filterSize: int)
    requires stride != 0
    ensures CalPadding(imgSize, stride, filterSize).Ok?
    ensures var (a, b) := CalPadding(imgSize, stride, filterSize).value;
      && a >= 0 && b >= 0
      && a + b == SameTotal(imgSize, stride, filterSize)
      && a == FloorDiv(SameTotal(imgSize, stride, filterSize), 2)
      && (b == a || b == a + 1)
  {
  }

  /**
   * The SAME total is the padding that makes a stride-s convolution produce
   * ceil(img / s) outputs: (ceil(img / s) - 1) * s + k - img, clipped at 0.
   */
  lemma SameTotalIsCeilPadding(img: int, s: int, k: int)
    requires img >= 1 && s >= 1 && k >= 1
    ensures SameTotal(img, s, k) == Max((CeilDiv(img, s) - 1) * s + k - img, 0)
  {
    var q := FloorDiv(img, s);
    var m := PyMod(img, s);
    assert img == q * s + m;
    if m == 0 {
      assert CeilDiv(img, s) == q by { CeilDivExact(q, s); }
      assert (q - 1) * s + k - img == k - s;
    } else {
      assert CeilDiv(img, s) == q + 1 by { CeilDivInexact(q, m, s); }
      assert q * s + k - img == k - m;
    }
  }

  lemma CeilDivExact(q: int, s: int)
    requires s >= 1
    ensures CeilDiv(q * s, s) == q
  {
    assert q * s + s - 1 == q * s + (s - 1);
    FloorDivUnique(q * s + s - 1, s, q);
  }

  lemma CeilDivInexact(q: int, m: int, s: int)
    requires s >= 1 && 0 < m < s
    ensures CeilDiv(q * s + m, s) == q + 1
  {
    assert q * s + m + s - 1 == (q + 1) * s + (m - 1);
    FloorDivUnique(q * s + m + s - 1, s, q + 1);
  }

  /** How `Conv2ds` is asked to pad. */
  datatype PaddingType = Same | Valid | Dynamic | Given(padding: int)

  /** The padding handed to `Conv2D`: a [height, width] pair or a single number. */
  datatype ConvPadding = PadPair(height: int, width: int) | PadScalar(amount: int)

  /** The padding the layer chooses and whether its forward pass crops the first row and column. */
  datatype ConvSetup = ConvSetup(padding: ConvPadding, needCrop: bool)

  /** The `inp_shape` table: input sizes of the stem (entry 0), of stages 1..7 and of the head (entry 7). */
  function InpShape(name: string): Option<seq<int>>
  {
    if name == "b0_small" || name == "b0" then Some([224, 112, 112, 56, 28, 14, 14, 7])
    else if name == "b1" then Some([240, 120, 120, 60, 30, 15, 15, 8])
    else if name == "b2" then Some([260, 130, 130, 65, 33, 17, 17, 9])
    else if name == "b3" then Some([300, 150, 150, 75, 38, 19, 19, 10])
    else if name == "b4" then Some([380, 190, 190, 95, 48, 24, 24, 12])
    else if name == "b5" then Some([456, 228, 228, 114, 57, 29, 29, 15])
    else if name == "b6" then Some([528, 264, 264, 132, 66, 33, 33, 17])
    else if name == "b7" then Some([600, 300, 300, 150, 75, 38, 38, 19])
    else None
  }

  /** Python list indexing: negative indices count from the end; anything else out of range raises IndexError. */
  function PyIndex(s: seq<int>, i: int): Result<int>
  {
    if 0 <= i < |s| then Ok(s[i])
    else if -|s| <= i < 0 then Ok(s[|s| + i])
    else Err(IndexError)
  }

  /**
   * `inps` in `Conv2ds`: 1 when neither a model name nor a stage is given,
   * otherwise `inp_shape[model_name][cur_stage]` (a missing name raises
   * KeyError, a missing stage TypeError).
   */
  function ConvInputSize(modelName: Option<string>, curStage: Option<int>): Result<int>
  {
    if modelName.None? && curStage.None? then Ok(1)
    else if modelName.None? || InpShape(modelName.value).None? then Err(KeyError)
    else if curStage.None? then Err(TypeError)
    else PyIndex(InpShape(modelName.value).value, curStage.value)
  }

  /** The padding selection of `Conv2ds.__init__`. */
  function ConvPaddingOf(modelName: Option<string>, curStage: Option<int>, stride: int, filterSize: int,
                         paddingType: PaddingType): Result<ConvSetup>
  {
    var inps :- ConvInputSize(modelName, curStage);
    match paddingType
    case Same =>
      var tb :- CalPadding(inps, stride, filterSize);
      // left and right come from the same call with the same arguments
      var lr := tb;
      if tb.0 != tb.1 || lr.0 != lr.1 then Ok(ConvSetup(PadPair(tb.0 + stride, lr.0 + stride), true))
      else Ok(ConvSetup(PadPair(tb.1, lr.1), false))
    case Valid => Ok(ConvSetup(PadPair(0, 0), false))
    case Dynamic => Ok(ConvSetup(PadScalar(FloorDiv((stride - 1) + 1 * (filterSize - 1), 2)), false))
    case Given(p) => Ok(ConvSetup(PadScalar(p), false))
  }

  /** The output size of a convolution with symmetric padding p: floor((n + 2p - k) / s) + 1. */
  function ConvOutput(n: int, p: int, k: int, s: int): int
    requires s != 0
  {
    FloorDiv(n + 2 * p - k, s) + 1
  }

  /**
   * The arithmetic behind SAME padding: with the `cal_padding` halves a <= b,
   * padding b on both sides (even total) or a + s on both sides and cropping
   * one row (odd total) both give ceil(n / s) outputs.
   */
  lemma SameOutputArith(n: int, s: int, k: int)
    requires n >= 1 && s >= 1 && k >= 1
    ensures var total := SameTotal(n, s, k);
      var a := FloorDiv(total, 2);
      var b := total - a;
      && (b == a <==> total % 2 == 0)
      && (b == a ==> ConvOutput(n, b, k, s) == CeilDiv(n, s))
      && (b != a ==> ConvOutput(n, a + s, k, s) - 1 == CeilDiv(n, s))
  {
    CalPaddingSplit(n, s, k);
    SameTotalIsCeilPadding(n, s, k);
    var total := SameTotal(n, s, k);
    var a := FloorDiv(total, 2);
    var b := total - a;
    var c := CeilDiv(n, s);
    CeilDivPositive(n, s);
    if (c - 1) * s + k - n >= 0 {
      if b == a {
        assert n + 2 * b - k == (c - 1) * s;
        FloorDivUnique((c - 1) * s, s, c - 1);
      } else {
        assert n + 2 * (a + s) - k == c * s + (s - 1);
        FloorDivUnique(c * s + (s - 1), s, c);
      }
    } else {
      FloorPart(n, s, k, c);
    }
  }

  /**
   * SAME padding in `Conv2ds`: the layer crops exactly when the total padding
   * is odd, and then pads by top + stride; either way the size after the
   * optional crop is ceil(input / stride), the size SAME padding promises.
   */
  lemma SamePaddingOutput(modelName: Option<string>, curStage: Option<int>, s: int, k: int)
    requires ConvInputSize(modelName, curStage).Ok? && ConvInputSize(modelName, curStage).value >= 1
    requires s >= 1 && k >= 1
    ensures var n := ConvInputSize(modelName, curStage).value;
      var r := ConvPaddingOf(modelName, curStage, s, k, Same);
      && r.Ok? && r.value.padding.PadPair? && r.value.padding.height == r.value.padding.width
      && (r.value.needCrop <==> SameTotal(n, s, k) % 2 == 1)
      && ConvOutput(n, r.value.padding.height, k, s) - (if r.value.needCrop then 1 else 0) == CeilDiv(n, s)
  {
    var n := ConvInputSize(modelName, curStage).value;
    CalPaddingSplit(n, s, k);
    SameOutputArith(n, s, k);
  }

  lemma CeilDivPositive(n: int, s: int)
    requires n >= 1 && s >= 1
    ensures CeilDiv(n, s) >= 1
  {
    var c := CeilDiv(n, s);
    assert c * s <= n + s - 1 < c * s + s;
    if c <= 0 {
      MulMono(c, 0, s);
    }
  }

  /** Without padding, a kernel no wider than the excess gives ceil(n / s) outputs. */
  lemma FloorPart(n: int, s: int, k: int, c: int)
    requires n >= 1 && s >= 1 && k >= 1 && c == CeilDiv(n, s)
    requires (c - 1) * s + k - n < 0
    ensures FloorDiv(n - k, s) + 1 == c
  {
    assert c * s <= n + s - 1 < c * s + s;
    assert (c - 1) * s <= n - k;
    assert n - k < (c - 1) * s + s;
    FloorDivUnique(n - k, s, c - 1);
  }

  /** The stride that takes each `inp_shape` entry to the next: the stem's 2, then stages 1..6 of the default list. */
  function StageStrides(): seq<int>
  {
    [2, 1, 2, 2, 2, 1, 2]
  }

  /** The `inp_shape` key of each model of the coefficient table. */
  function ShapeNames(): seq<string>
  {
    ["b0", "b1", "b2", "b3", "b4", "b5", "b6", "b7"]
  }

  /** Each entry is the SAME output size, ceil(previous / stride), of the previous one. */
  predicate StrideChain(sizes: seq<int>)
  {
    |sizes| == 8 && forall j :: 0 <= j < 7 ==> sizes[j + 1] == CeilDiv(sizes[j], StageStrides()[j])
  }

  /** Entry 0 of `inp_shape` for model bK is the resolution of `efficientnet-bK`. */
  lemma InpShapeResolution(k: nat)
    requires k < 8
    ensures InpShape(ShapeNames()[k]).Some?
    ensures InpShape(ShapeNames()[k]).value[0] == ModelCoefficients(ModelNames()[k]).value.resolution
  {
  }

  /** Every `inp_shape` row follows the strides of the stem and of the default stages. */
  lemma InpShapeStrides(k: nat)
    requires k < 8
    ensures InpShape(ShapeNames()[k]).Some? && StrideChain(InpShape(ShapeNames()[k]).value)
  {
    var sizes := InpShape(ShapeNames()[k]).value;
    forall j | 0 <= j < 7
      ensures sizes[j + 1] == CeilDiv(sizes[j], StageStrides()[j])
    {
      CeilDivStep(sizes[j], StageStrides()[j], sizes[j + 1]);
    }
  }

  /** ceil(a / s) == c, checked by the bracketing (c - 1) * s < a <= c * s. */
  lemma CeilDivStep(a: int, s: int, c: int)
    requires s == 1 || s == 2
    requires (c - 1) * s < a <= c * s
    ensures CeilDiv(a, s) == c
  {
    FloorDivUnique(a + s - 1, s, c);
  }

  /**
   * The head convolution's input width, chosen by model name, is exactly the
   * width `round_filters` gives the last stage's 320 output filters under
   * the model's coefficients.
   */
  lemma HeadInputIsRoundedLastStage(k: nat)
    requires k < 8
    ensures var c := ModelCoefficients(ModelNames()[k]).value;
      var gp := GlobalParams(0.99, 0.001, Some(c.dropout), 1000, Some(c.width), Some(c.depth), 8, None, Some(0.2));
      RoundFilters(320, gp) == HeadInputChannels(ShapeNames()[k])
  {
  }

  // ---------------------------------------------------------------------
  // MbConvBlock conditions and the head

  /** `has_se`: requested, present and in (0, 1]. */
  predicate HasSe(useSe: bool, b: BlockArgs)
  {
    useSe && b.seRatio.Some? && 0.0 < DecimalValue(b.seRatio.value) <= 1.0
  }

  /** `max(1, int(input_filters * se_ratio))`. */
  function SqueezedChannels(b: BlockArgs): int
    requires b.seRatio.Some?
  {
    Max(1, Trunc(b.inputFilters as real * DecimalValue(b.seRatio.value)))
  }

  /** The squeeze width is at least 1 and, for a ratio in (0, 1] and non-negative width, at most the input width. */
  lemma SqueezedChannelsBounds(b: BlockArgs)
    requires b.seRatio.Some?
    ensures SqueezedChannels(b) >= 1
    ensures b.inputFilters >= 1 && DecimalValue(b.seRatio.value) <= 1.0 && DecimalValue(b.seRatio.value) >= 0.0 ==>
      SqueezedChannels(b) <= b.inputFilters
  {
    var v := DecimalValue(b.seRatio.value);
    if b.inputFilters >= 1 && v <= 1.0 && v >= 0.0 {
      var x := b.inputFilters as real * v;
      assert x <= b.inputFilters as real by { ScaleDownReal(b.inputFilters as real, v); }
      assert x >= 0.0;
    }
  }

  lemma ScaleDownReal(a: real, v: real)
    requires a >= 0.0 && 0.0 <= v <= 1.0
    ensures a * v <= a && a * v >= 0.0
  {
  }

  /** The expansion convolution exists exactly when `expand_ratio != 1`. */
  predicate HasExpansion(b: BlockArgs)
  {
    b.expandRatio != 1
  }

  /**
   * The residual branch of `MbConvBlock.forward`: `id_skip`, `stride == 1`
   * and equal filter counts. A stride still in its decoded list form `[1]`
   * is not equal to the integer 1.
   */
  predicate HasResidual(b: BlockArgs)
  {
    b.idSkip && b.stride == Scalar(1) && b.inputFilters == b.outputFilters
  }

  /** Drop-connect is applied on the residual branch only, and only for a truthy rate. */
  predicate AppliesDropConnect(b: BlockArgs, dropConnectRate: Option<real>)
  {
    HasResidual(b) && Truthy(dropConnectRate)
  }

  /** A decoded record never has a residual branch: its stride is a list. */
  lemma DecodedHasNoResidual(blockString: string)
    requires DecodeBlock(blockString).Ok?
    ensures !HasResidual(DecodeBlock(blockString).value)
  {
    DecodeStride(blockString);
  }

  /** The input channels of the head convolution, chosen by model name; other names leave `oup` unbound. */
  function HeadInputChannels(name: string): Result<int>
  {
    if name == "b0_small" || name == "b0" || name == "b1" then Ok(320)
    else if name == "b2" then Ok(352)
    else if name == "b3" then Ok(384)
    else if name == "b4" then Ok(448)
    else if name == "b5" then Ok(512)
    else if name == "b6" then Ok(576)
    else if name == "b7" then Ok(640)
    else Err(UnboundLocalError)
  }
}
