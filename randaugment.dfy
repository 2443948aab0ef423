/**
 * The RandAugment data-augmentation policies of
 * ppcls/data/preprocess/ops/randaugment.py: the `solarize_add` lookup table,
 * the `cutout` mask, the two level and operation tables (the ImageNet policy
 * and the EfficientNetV2 one), the layer loop of `__call__` and the
 * `RandomApply` gate.
 *
 * PIL and numpy stay abstract: an image is a type parameter, `img.point(lut)`
 * and the fourteen image operations are function parameters, and every random
 * draw (the operation names, the cutout centre, the gate's uniform sample) is
 * an argument. `cutout` works on the numpy array of the image, written here as
 * a height x width x channels sequence of integers.
 */
module RandAugment {
  import opened Common

  // ----- solarize_add -----

  /** Entry i of the `solarize_add` table: shifted by `add` (capped at 255) below the threshold, kept otherwise. */
  function SolarizeEntry(i: int, add: int, thresh: int): int
  {
    if i < thresh then Min(255, i + add) else i
  }

  /** The 256-entry table the loop of `solarize_add` builds. */
  function SolarizeTable(add: int, thresh: int): seq<int>
  {
    seq(256, i => SolarizeEntry(i, add, thresh))
  }

  /** Builds the lookup table entry by entry, as the source's loop does. */
  method SolarizeLut(add: int, thresh: int) returns (lut: seq<int>)
    ensures lut == SolarizeTable(add, thresh)
  {
    lut := [];
    for i := 0 to 256
      invariant |lut| == i
      invariant forall j :: 0 <= j < i ==> lut[j] == SolarizeEntry(j, add, thresh)
    {
      if i < thresh {
        lut := lut + [Min(255, i + add)];
      } else {
        lut := lut + [i];
      }
    }
  }

  /**
   * The table has 256 entries, none above 255; entries at or above the
   * threshold map a value to itself, and a non-negative shift never darkens.
   */
  lemma SolarizeTableFacts(add: int, thresh: int)
    ensures |SolarizeTable(add, thresh)| == 256
    ensures forall i :: 0 <= i < 256 ==> SolarizeTable(add, thresh)[i] <= 255
    ensures forall i :: 0 <= i < 256 && i >= thresh ==> SolarizeTable(add, thresh)[i] == i
    ensures forall i :: 0 <= i < 256 && i < thresh ==> SolarizeTable(add, thresh)[i] == Min(255, i + add)
    ensures add >= 0 ==> forall i :: 0 <= i < 256 ==> i <= SolarizeTable(add, thresh)[i]
  {
  }

  /** What `solarize_add` hands to `img.point`: the table itself, or three copies of it, one per band, for RGB. */
  function PointTable(mode: string, lut: seq<int>): seq<int>
  {
    if mode == "RGB" && |lut| == 256 then lut + lut + lut else lut
  }

  /** An RGB image gets 768 entries, entry k of the tripled table repeating entry k mod 256 of the original. */
  lemma RgbPointTable(lut: seq<int>)
    requires |lut| == 256
    ensures |PointTable("RGB", lut)| == 768
    ensures forall k :: 0 <= k < 768 ==> PointTable("RGB", lut)[k] == lut[k % 256]
  {
    var t := PointTable("RGB", lut);
    forall k | 0 <= k < 768
      ensures t[k] == lut[k % 256]
    {
      if k < 256 {
        assert t[k] == lut[k];
      } else if k < 512 {
        assert t[k] == (lut + lut)[k];
      } else {
        assert t[k] == lut[k - 512];
      }
    }
  }

  /** `solarize_add` once its table is built: only L and RGB images are remapped. */
  function SolarizeAddSpec<Img>(img: Img, mode: string, add: int, thresh: int, point: (Img, seq<int>) -> Img): Img
  {
    if mode == "L" || mode == "RGB" then point(img, PointTable(mode, SolarizeTable(add, thresh))) else img
  }

  /** `solarize_add(img, add, thresh)`, where `mode` is `img.mode` and `point` is `Image.point`. */
  method SolarizeAdd<Img>(img: Img, mode: string, add: int, thresh: int, point: (Img, seq<int>) -> Img)
    returns (out: Img)
    ensures out == SolarizeAddSpec(img, mode, add, thresh, point)
  {
    var lut := SolarizeLut(add, thresh);
    if mode == "L" || mode == "RGB" {
      if mode == "RGB" && |lut| == 256 {
        lut := lut + lut + lut;
      }
      out := point(img, lut);
    } else {
      out := img;
    }
  }

  /** An L image is remapped by the table, an RGB one by the tripled table, any other mode is returned as it came. */
  lemma SolarizeAddModes<Img>(img: Img, mode: string, add: int, thresh: int, point: (Img, seq<int>) -> Img)
    ensures mode == "L" ==> SolarizeAddSpec(img, mode, add, thresh, point) == point(img, SolarizeTable(add, thresh))
    ensures mode == "RGB" ==>
      var t := SolarizeTable(add, thresh);
      SolarizeAddSpec(img, mode, add, thresh, point) == point(img, t + t + t)
    ensures mode != "L" && mode != "RGB" ==> SolarizeAddSpec(img, mode, add, thresh, point) == img
  {
    SolarizeTableFacts(add, thresh);
  }

  // ----- cutout -----

  /** The four pads around the zero block of the cutout mask and the block's own height and width. */
  datatype Geometry = Geometry(lower: int, upper: int, left: int, right: int, cutH: int, cutW: int)

  /** The mask geometry for an h x w image, a centre (ch, cw) and a half-size `pad`. */
  function CutoutGeometry(h: int, w: int, ch: int, cw: int, pad: int): Geometry
  {
    var lower := Max(0, ch - pad);
    var upper := Max(0, h - ch - pad);
    var left := Max(0, cw - pad);
    var right := Max(0, w - cw - pad);
    Geometry(lower, upper, left, right, h - (lower + upper), w - (left + right))
  }

  /**
   * For a centre drawn in [0, h] x [0, w] and a non-negative pad, the pads are
   * non-negative, pads and block tile the image exactly, and the block spans
   * at most 2 * pad rows and columns.
   */
  lemma CutoutGeometryBounds(h: int, w: int, ch: int, cw: int, pad: int)
    requires 0 <= ch <= h && 0 <= cw <= w && pad >= 0
    ensures var g := CutoutGeometry(h, w, ch, cw, pad);
      g.lower >= 0 && g.upper >= 0 && g.left >= 0 && g.right >= 0
      && g.lower + g.cutH + g.upper == h && g.left + g.cutW + g.right == w
      && 0 <= g.cutH <= 2 * pad && 0 <= g.cutW <= 2 * pad
  {
  }

  /** Whether the padded mask is zero at pixel (r, q). */
  predicate Masked(g: Geometry, r: int, q: int)
  {
    g.lower <= r < g.lower + g.cutH && g.left <= q < g.left + g.cutW
  }

  /** `a` is an h x w x c array. */
  predicate Shaped(a: seq<seq<seq<int>>>, h: nat, w: nat, c: nat)
  {
    |a| == h && forall r :: 0 <= r < h ==> |a[r]| == w && forall q :: 0 <= q < w ==> |a[r][q]| == c
  }

  /** One output pixel: the fill value inside the zero block, the input pixel (broadcast to three channels) outside. */
  function CutoutPixel(g: Geometry, r: int, q: int, px: seq<int>, replace: int): seq<int>
    requires |px| == 1 || |px| == 3
  {
    if Masked(g, r, q) then [replace, replace, replace]
    else if |px| == 3 then px
    else [px[0], px[0], px[0]]
  }

  /**
   * `cutout` on the h x w x c array of the image, with the centre (ch, cw)
   * drawn by `randint`. `np.zeros` refuses a negative block and `np.where`
   * cannot broadcast the three-channel mask against c channels other than 1 or 3.
   */
  function Cutout(image: seq<seq<seq<int>>>, h: nat, w: nat, c: nat, pad: int, replace: int, ch: int, cw: int)
    : Result<seq<seq<seq<int>>>>
    requires Shaped(image, h, w, c)
  {
    var g := CutoutGeometry(h, w, ch, cw, pad);
    if g.cutH < 0 || g.cutW < 0 then Err(ValueError)
    else if c != 3 && c != 1 then Err(ValueError)
    else Ok(seq(h, r requires 0 <= r < h =>
              seq(w, q requires 0 <= q < w => CutoutPixel(g, r, q, image[r][q], replace))))
  }

  /** The zero block is the square of side 2 * pad centred on the drawn centre, clipped to the image. */
  lemma MaskedSquare(h: int, w: int, ch: int, cw: int, pad: int, r: int, q: int)
    requires 0 <= r < h && 0 <= q < w
    ensures Masked(CutoutGeometry(h, w, ch, cw, pad), r, q)
        <==> ch - pad <= r < ch + pad && cw - pad <= q < cw + pad
  {
  }

  /**
   * For a centre in [0, h] x [0, w]: the call succeeds exactly when the pad is
   * non-negative and the image has one or three channels; the result is then
   * h x w x 3, the fill value on the clipped square around the centre and the
   * input everywhere else.
   */
  lemma CutoutMask(image: seq<seq<seq<int>>>, h: nat, w: nat, c: nat, pad: int, replace: int, ch: int, cw: int)
    requires Shaped(image, h, w, c)
    requires 0 <= ch <= h && 0 <= cw <= w
    ensures Cutout(image, h, w, c, pad, replace, ch, cw).Ok? <==> pad >= 0 && (c == 3 || c == 1)
    ensures Cutout(image, h, w, c, pad, replace, ch, cw).Err? ==> Cutout(image, h, w, c, pad, replace, ch, cw).error == ValueError
    ensures Cutout(image, h, w, c, pad, replace, ch, cw).Ok? ==>
      var out := Cutout(image, h, w, c, pad, replace, ch, cw).value;
      Shaped(out, h, w, 3)
      && (forall r, q :: 0 <= r < h && 0 <= q < w && ch - pad <= r < ch + pad && cw - pad <= q < cw + pad ==>
            out[r][q] == [replace, replace, replace])
      && (forall r, q :: 0 <= r < h && 0 <= q < w && !(ch - pad <= r < ch + pad && cw - pad <= q < cw + pad) ==>
            out[r][q] == if c == 3 then image[r][q] else [image[r][q][0], image[r][q][0], image[r][q][0]])
  {
    var g := CutoutGeometry(h, w, ch, cw, pad);
    if pad < 0 {
      assert g.cutH == 2 * pad;
    }
    var res := Cutout(image, h, w, c, pad, replace, ch, cw);
    if res.Ok? {
      forall r, q | 0 <= r < h && 0 <= q < w
        ensures res.value[r][q] == CutoutPixel(g, r, q, image[r][q], replace)
      {
      }
      forall r, q | 0 <= r < h && 0 <= q < w
        ensures Masked(g, r, q) <==> ch - pad <= r < ch + pad && cw - pad <= q < cw + pad
      {
        MaskedSquare(h, w, ch, cw, pad, r, q);
      }
    }
  }

  // ----- the policies -----

  /** A level value: a Python float or a Python int. */
  datatype Level = RealLevel(r: real) | IntLevel(n: int)

  /**
   * Which lambda of a policy's `func` table a name maps to: the operation of
   * that name in the ImageNet policy (`v2` false) or in the EfficientNetV2 one.
   */
  datatype Impl = Impl(name: string, v2: bool)

  /** A constructed policy: the layer count, the magnitude, `level_map`, the order of its keys and `func`. */
  datatype Policy = Policy(numLayers: int, magnitude: real, levelMap: map<string, Level>,
                           keyOrder: seq<string>, func: map<string, Impl>)

  /** The fourteen operation names of the ImageNet policy, in `level_map`'s order. */
  const NamesV1: seq<string> := ["shearX", "shearY", "translateX", "translateY", "rotate", "color",
                                 "posterize", "solarize", "contrast", "sharpness", "brightness",
                                 "autocontrast", "equalize", "invert"]

  /** The sixteen names of the EfficientNetV2 policy, in its `level_map`'s order. */
  const NamesV2: seq<string> := ["shearX", "shearY", "translateX", "translateY", "rotate", "color",
                                 "posterize", "solarize", "solarize_add", "contrast", "sharpness",
                                 "brightness", "autocontrast", "equalize", "invert", "cutout"]

  /** The ImageNet `level_map`, a = magnitude / 10. */
  function LevelMapV1(magnitude: real): map<string, Level>
  {
    var a := magnitude / 10.0;
    map["shearX" := RealLevel(0.3 * a), "shearY" := RealLevel(0.3 * a),
        "translateX" := RealLevel(150.0 / 331.0 * a), "translateY" := RealLevel(150.0 / 331.0 * a),
        "rotate" := RealLevel(30.0 * a), "color" := RealLevel(0.9 * a),
        "posterize" := IntLevel(Trunc(4.0 * a)), "solarize" := RealLevel(256.0 * a),
        "contrast" := RealLevel(0.9 * a), "sharpness" := RealLevel(0.9 * a),
        "brightness" := RealLevel(0.9 * a),
        "autocontrast" := IntLevel(0), "equalize" := IntLevel(0), "invert" := IntLevel(0)]
  }

  /** The ImageNet `func` table, written as its own dictionary like the source's. */
  function FuncV1(): map<string, Impl>
  {
    map["shearX" := Impl("shearX", false), "shearY" := Impl("shearY", false),
        "translateX" := Impl("translateX", false), "translateY" := Impl("translateY", false),
        "rotate" := Impl("rotate", false), "color" := Impl("color", false),
        "posterize" := Impl("posterize", false), "solarize" := Impl("solarize", false),
        "contrast" := Impl("contrast", false), "sharpness" := Impl("sharpness", false),
        "brightness" := Impl("brightness", false), "autocontrast" := Impl("autocontrast", false),
        "equalize" := Impl("equalize", false), "invert" := Impl("invert", false)]
  }

  /** The EfficientNetV2 `level_map`, a = magnitude / 10. */
  function LevelMapV2(magnitude: real): map<string, Level>
  {
    var a := magnitude / 10.0;
    map["shearX" := RealLevel(0.3 * a), "shearY" := RealLevel(0.3 * a),
        "translateX" := RealLevel(100.0 * a), "translateY" := RealLevel(100.0 * a),
        "rotate" := RealLevel(30.0 * a), "color" := RealLevel(1.8 * a + 0.1),
        "posterize" := IntLevel(Trunc(4.0 * a)), "solarize" := IntLevel(Trunc(256.0 * a)),
        "solarize_add" := IntLevel(Trunc(110.0 * a)),
        "contrast" := RealLevel(1.8 * a + 0.1), "sharpness" := RealLevel(1.8 * a + 0.1),
        "brightness" := RealLevel(1.8 * a + 0.1),
        "autocontrast" := IntLevel(0), "equalize" := IntLevel(0), "invert" := IntLevel(0),
        "cutout" := IntLevel(Trunc(40.0 * a))]
  }

  /** The EfficientNetV2 `func` table. */
  function FuncV2(): map<string, Impl>
  {
    map["shearX" := Impl("shearX", true), "shearY" := Impl("shearY", true),
        "translateX" := Impl("translateX", true), "translateY" := Impl("translateY", true),
        "rotate" := Impl("rotate", true), "color" := Impl("color", true),
        "posterize" := Impl("posterize", true), "solarize" := Impl("solarize", true),
        "solarize_add" := Impl("solarize_add", true),
        "contrast" := Impl("contrast", true), "sharpness" := Impl("sharpness", true),
        "brightness" := Impl("brightness", true), "autocontrast" := Impl("autocontrast", true),
        "equalize" := Impl("equalize", true), "invert" := Impl("invert", true),
        "cutout" := Impl("cutout", true)]
  }

  /** `RandAugment(num_layers, magnitude)`. */
  function RandAugmentV1(numLayers: int, magnitude: real): Policy
  {
    Policy(numLayers, magnitude, LevelMapV1(magnitude), NamesV1, FuncV1())
  }

  /**
   * `RandAugmentV2(num_layers, magnitude)`: the base constructor sets the
   * layer count and magnitude, and both of its tables are then replaced.
   */
  function RandAugmentV2(numLayers: int, magnitude: real): Policy
  {
    Policy(numLayers, magnitude, LevelMapV2(magnitude), NamesV2, FuncV2())
  }

  /** A policy whose key list, `level_map` and `func` name the same operations, each dispatched to its own lambda. */
  ghost predicate Consistent(p: Policy)
  {
    TablesAgree(p.levelMap, p.keyOrder, p.func)
  }

  ghost predicate TablesAgree(levelMap: map<string, Level>, keyOrder: seq<string>, func: map<string, Impl>)
  {
    levelMap.Keys == func.Keys
    && (forall k :: 0 <= k < |keyOrder| ==> keyOrder[k] in levelMap)
    && (forall name :: name in levelMap ==> name in keyOrder)
    && (forall name :: name in func ==> func[name].name == name)
  }

  /** The ImageNet policy is consistent: its key list, `level_map` and `func` name the same fourteen operations. */
  lemma ConsistentV1(numLayers: int, magnitude: real)
    ensures Consistent(RandAugmentV1(numLayers, magnitude))
    ensures |NamesV1| == 14
    ensures forall name :: name in FuncV1() ==> FuncV1()[name].name == name && !FuncV1()[name].v2
  {
    AgreeV1(magnitude);
  }

  lemma AgreeV1(magnitude: real)
    ensures TablesAgree(LevelMapV1(magnitude), NamesV1, FuncV1())
  {
    assert LevelMapV1(magnitude).Keys == FuncV1().Keys;
    assert forall name :: name in LevelMapV1(magnitude) ==> name in NamesV1;
  }

  /** The EfficientNetV2 policy is consistent over its sixteen operations. */
  lemma ConsistentV2(numLayers: int, magnitude: real)
    ensures Consistent(RandAugmentV2(numLayers, magnitude))
    ensures |NamesV2| == 16
    ensures forall name :: name in FuncV2() ==> FuncV2()[name].name == name && FuncV2()[name].v2
  {
    AgreeV2(magnitude);
  }

  lemma AgreeV2(magnitude: real)
    ensures TablesAgree(LevelMapV2(magnitude), NamesV2, FuncV2())
  {
    assert LevelMapV2(magnitude).Keys == FuncV2().Keys;
    assert forall name :: name in LevelMapV2(magnitude) ==> name in NamesV2;
  }

  /** The EfficientNetV2 names are the ImageNet ones plus `solarize_add` and `cutout`, which the ImageNet policy lacks. */
  lemma V2AddsTwo(magnitude: real)
    ensures LevelMapV2(magnitude).Keys == LevelMapV1(magnitude).Keys + {"solarize_add", "cutout"}
    ensures "solarize_add" !in LevelMapV1(magnitude) && "cutout" !in LevelMapV1(magnitude)
  {
  }

  /** Truncating a value in [0, c] for an integer c stays in [0, c]. */
  lemma TruncBetween(x: real, c: int)
    requires 0.0 <= x <= c as real
    ensures 0 <= Trunc(x) <= c
  {
  }

  /** For a magnitude in [0, 10] every integer level stays in its range: posterize bits in [0, 4], and so on. */
  lemma IntLevelBounds(magnitude: real)
    requires 0.0 <= magnitude <= 10.0
    ensures 0 <= LevelMapV1(magnitude)["posterize"].n <= 4
    ensures 0 <= LevelMapV2(magnitude)["posterize"].n <= 4
    ensures 0 <= LevelMapV2(magnitude)["solarize"].n <= 256
    ensures 0 <= LevelMapV2(magnitude)["solarize_add"].n <= 110
    ensures 0 <= LevelMapV2(magnitude)["cutout"].n <= 40
  {
    var a := magnitude / 10.0;
    assert 0.0 <= a <= 1.0;
    TruncBetween(4.0 * a, 4);
    TruncBetween(256.0 * a, 256);
    TruncBetween(110.0 * a, 110);
    TruncBetween(40.0 * a, 40);
  }

  // ----- __call__ -----

  /**
   * The (operation, level) pairs the first n layers look up for the drawn
   * names, or the KeyError of the first name missing from `func` or
   * `level_map` (`func` is indexed first).
   */
  function Layers(p: Policy, choices: seq<string>, n: nat): Result<seq<(Impl, Level)>>
    requires n <= |choices|
  {
    if n == 0 then Ok([])
    else
      var prev :- Layers(p, choices, n - 1);
      var name := choices[n - 1];
      if name !in p.func then Err(KeyError)
      else if name !in p.levelMap then Err(KeyError)
      else Ok(prev + [(p.func[name], p.levelMap[name])])
  }

  /** Applies the looked-up operations one after another. */
  function ApplySteps<Img>(apply: (Impl, Img, Level) -> Img, steps: seq<(Impl, Level)>, img: Img): Img
  {
    if steps == [] then img
    else
      var last := steps[|steps| - 1];
      apply(last.0, ApplySteps(apply, steps[..|steps| - 1], img), last.1)
  }

  /** `__call__`: `num_layers` layers (none when it is not positive), each applying the drawn operation at its level. */
  function CallSpec<Img>(p: Policy, img: Img, choices: seq<string>, apply: (Impl, Img, Level) -> Img): Result<Img>
    requires Max(0, p.numLayers) <= |choices|
  {
    var steps :- Layers(p, choices, Max(0, p.numLayers));
    Ok(ApplySteps(apply, steps, img))
  }

  /** Once a lookup fails, every longer run fails the same way. */
  lemma {:induction false} LayersStopped(p: Policy, choices: seq<string>, k: nat, n: nat)
    requires k <= n <= |choices|
    requires Layers(p, choices, k).Err?
    ensures Layers(p, choices, n) == Layers(p, choices, k)
    decreases n
  {
    if n > k {
      LayersStopped(p, choices, k, n - 1);
    }
  }

  /**
   * `__call__` with the drawn names `choices` (one per layer) and the
   * operations' effect `apply`.
   */
  method Call<Img>(p: Policy, img: Img, choices: seq<string>, apply: (Impl, Img, Level) -> Img)
    returns (r: Result<Img>)
    requires Max(0, p.numLayers) <= |choices|
    ensures r == CallSpec(p, img, choices, apply)
  {
    var out := img;
    ghost var steps: seq<(Impl, Level)> := [];
    var n := Max(0, p.numLayers);
    for k := 0 to n
      invariant Layers(p, choices, k) == Ok(steps)
      invariant out == ApplySteps(apply, steps, img)
    {
      var name := choices[k];
      if name !in p.func || name !in p.levelMap {
        LayersStopped(p, choices, k + 1, n);
        return Err(KeyError);
      }
      out := apply(p.func[name], out, p.levelMap[name]);
      ghost var prev := steps;
      steps := steps + [(p.func[name], p.levelMap[name])];
      assert steps[..|steps| - 1] == prev;
    }
    r := Ok(out);
  }

  /**
   * The lookups succeed exactly when every drawn name is in both tables, and
   * then layer k uses `func` and `level_map` of the k-th name; otherwise the
   * error is a KeyError.
   */
  lemma {:induction false} LayersFound(p: Policy, choices: seq<string>, n: nat)
    requires n <= |choices|
    ensures Layers(p, choices, n).Ok? <==>
      forall k :: 0 <= k < n ==> choices[k] in p.func && choices[k] in p.levelMap
    ensures Layers(p, choices, n).Err? ==> Layers(p, choices, n).error == KeyError
    ensures Layers(p, choices, n).Ok? ==>
      var steps := Layers(p, choices, n).value;
      |steps| == n && forall k :: 0 <= k < n ==> steps[k] == (p.func[choices[k]], p.levelMap[choices[k]])
  {
    if n > 0 {
      LayersFound(p, choices, n - 1);
    }
  }

  /** Splitting the operations: the later ones act on the result of the earlier ones. */
  lemma {:induction false} ApplyStepsAppend<Img>(apply: (Impl, Img, Level) -> Img, a: seq<(Impl, Level)>,
                                                  b: seq<(Impl, Level)>, img: Img)
    ensures ApplySteps(apply, a + b, img) == ApplySteps(apply, b, ApplySteps(apply, a, img))
    decreases |b|
  {
    if b == [] {
      assert a + b == a;
    } else {
      assert (a + b)[..|a + b| - 1] == a + b[..|b| - 1];
      assert (a + b)[|a + b| - 1] == b[|b| - 1];
      ApplyStepsAppend(apply, a, b[..|b| - 1], img);
    }
  }

  /**
   * A consistent policy with names drawn from its key list applies exactly
   * `max(0, num_layers)` operations, the k-th being the k-th drawn name at its
   * level; with no layers the image comes back unchanged.
   */
  lemma CallDrawn<Img>(p: Policy, img: Img, choices: seq<string>, apply: (Impl, Img, Level) -> Img)
    requires Max(0, p.numLayers) <= |choices|
    requires Consistent(p)
    requires forall k :: 0 <= k < |choices| ==> choices[k] in p.keyOrder
    ensures CallSpec(p, img, choices, apply).Ok?
    ensures p.numLayers <= 0 ==> CallSpec(p, img, choices, apply) == Ok(img)
    ensures var steps := Layers(p, choices, Max(0, p.numLayers)).value;
      |steps| == Max(0, p.numLayers)
      && (forall k :: 0 <= k < |steps| ==>
            steps[k].0 == Impl(choices[k], steps[k].0.v2) && steps[k].1 == p.levelMap[choices[k]])
      && CallSpec(p, img, choices, apply) == Ok(ApplySteps(apply, steps, img))
  {
    var n := Max(0, p.numLayers);
    assert TablesAgree(p.levelMap, p.keyOrder, p.func);
    forall k | 0 <= k < n
      ensures choices[k] in p.func && choices[k] in p.levelMap
    {
      var i :| 0 <= i < |p.keyOrder| && p.keyOrder[i] == choices[k];
      assert p.keyOrder[i] in p.levelMap;
    }
    LayersFound(p, choices, n);
  }

  // ----- RandomApply -----

  /**
   * `RandomApply.__call__` with the uniform draw `draw` of `np.random.rand`:
   * the image is returned untouched when p < draw, otherwise the composed
   * transforms run in order.
   */
  function RandomApply<Img>(p: real, draw: real, transforms: seq<Img -> Img>, img: Img): Img
  {
    if p < draw then img else ApplyInOrder(transforms, img)
  }

  /**
   * Over the draw's range [0, 1): a probability of 1 or more always applies the
   * transforms, a negative one never does, and in between they run exactly
   * when the draw does not exceed p; an empty list is the identity.
   */
  lemma RandomApplyGate<Img>(p: real, draw: real, transforms: seq<Img -> Img>, img: Img)
    requires 0.0 <= draw < 1.0
    ensures p >= 1.0 ==> RandomApply(p, draw, transforms, img) == ApplyInOrder(transforms, img)
    ensures p < 0.0 ==> RandomApply(p, draw, transforms, img) == img
    ensures draw <= p ==> RandomApply(p, draw, transforms, img) == ApplyInOrder(transforms, img)
    ensures draw > p ==> RandomApply(p, draw, transforms, img) == img
    ensures RandomApply(p, draw, [], img) == img
  {
  }
}
