/**
 * `ExtractFeatures.__init__`: how the decoded block list is expanded into
 * the sequence of MBConv blocks: every stage is rounded by the width and
 * depth coefficients, contributes one block plus one per extra repeat, and
 * every block gets its index, stage, sub-layer name and a drop-connect rate
 * that grows linearly with the index.
 */
module Features {
  import opened Common
  import opened BlockCodec
  import opened EfficientNet

  /** One `MbConvBlock` of `conv_seq`, as constructed. */
  datatype MbConvSpec = MbConvSpec(
    index: nat,
    stage: nat,
    args: BlockArgs,
    dropConnectRate: Option<real>,
    sublayer: string)

  /** The `_replace` at the top of both loops: rounded filter counts and repeat count. */
  function RoundArgs(gp: GlobalParams, b: BlockArgs): (r: Result<BlockArgs>)
    ensures r.Ok? ==> r.value == b.(inputFilters := r.value.inputFilters, outputFilters := r.value.outputFilters,
                                    numRepeat := r.value.numRepeat)
    ensures r.Ok? <==> RoundFilters(b.inputFilters, gp).Ok?
    ensures r.Ok? ==> (Ok(r.value.inputFilters) == RoundFilters(b.inputFilters, gp)
      && Ok(r.value.outputFilters) == RoundFilters(b.outputFilters, gp)
      && r.value.numRepeat == RoundRepeats(b.numRepeat, gp))
  {
    var i :- RoundFilters(b.inputFilters, gp);
    match RoundFilters(b.outputFilters, gp)
    case Err(e) => Err(e)
    case Ok(o) => Ok(b.(inputFilters := i, outputFilters := o, numRepeat := RoundRepeats(b.numRepeat, gp)))
  }

  function RoundOf(gp: GlobalParams): BlockArgs -> Result<BlockArgs>
  {
    b => RoundArgs(gp, b)
  }

  /** The number of blocks a rounded stage contributes: one, plus one per extra repeat. */
  function StageCount(a: BlockArgs): (n: nat)
    ensures n >= 1
  {
    if a.numRepeat > 1 then a.numRepeat else 1
  }

  /** `block_size`: the total over the rounded stages. */
  function BlockSize(rs: seq<BlockArgs>): (n: nat)
    ensures n >= |rs|
  {
    if rs == [] then 0 else BlockSize(rs[..|rs| - 1]) + StageCount(rs[|rs| - 1])
  }

  /** `drop_connect_rate * (float(idx) / block_size)` when the rate is truthy, the rate itself otherwise. */
  function DropRate(gp: GlobalParams, index: nat, blockSize: nat): Option<real>
    requires blockSize > 0
  {
    if Truthy(gp.dropConnectRate) then Some(LinearRate(gp.dropConnectRate.value, index, blockSize))
    else gp.dropConnectRate
  }

  /** `rate * (float(idx) / block_size)`. */
  function LinearRate(rate: real, index: nat, blockSize: nat): real
    requires blockSize > 0
  {
    rate * (index as real / blockSize as real)
  }

  /** The arguments of the repeats of a stage: input width set to the output width, stride the integer 1. */
  function RepeatArgs(a: BlockArgs): BlockArgs
  {
    if a.numRepeat > 1 then a.(inputFilters := a.outputFilters, stride := Scalar(1)) else a
  }

  /** The first block of a stage is registered as `_blocks.<idx>.`, its repeats as `block.<idx>.`. */
  function SublayerName(first: bool, index: nat): string
  {
    (if first then "_blocks." else "block.") + NatToString(index) + "."
  }

  /** The blocks of one rounded stage, numbered from `start`. */
  function StageBlocks(gp: GlobalParams, a: BlockArgs, stage: nat, start: nat, blockSize: nat): (s: seq<MbConvSpec>)
    requires blockSize > 0
    ensures |s| == StageCount(a)
  {
    [MbConvSpec(start, stage, a, DropRate(gp, start, blockSize), SublayerName(true, start))] +
    seq(StageCount(a) - 1, j requires 0 <= j =>
      MbConvSpec(start + 1 + j, stage, RepeatArgs(a), DropRate(gp, start + 1 + j, blockSize),
                 SublayerName(false, start + 1 + j)))
  }

  /** `conv_seq` after the stages `rs` (already rounded), numbered consecutively from 0, stages from 1. */
  function Expansion(gp: GlobalParams, rs: seq<BlockArgs>, blockSize: nat): (e: seq<MbConvSpec>)
    requires blockSize >= BlockSize(rs)
    ensures |e| == BlockSize(rs)
  {
    if rs == [] then []
    else
      var prev := Expansion(gp, rs[..|rs| - 1], blockSize);
      prev + StageBlocks(gp, rs[|rs| - 1], |rs|, |prev|, blockSize)
  }

  /** What the two loops of `ExtractFeatures.__init__` build: the first exception of the rounding, or the expansion. The stem built before them is not modelled. */
  function FeatureBlocks(gp: GlobalParams, blocks: seq<BlockArgs>): Result<seq<MbConvSpec>>
  {
    var rs :- MapResult(RoundOf(gp), blocks);
    Ok(Expansion(gp, rs, BlockSize(rs)))
  }

  /** `ExtractFeatures.__init__`: count the blocks, then construct them. */
  method ExtractFeatures(gp: GlobalParams, blocks: seq<BlockArgs>) returns (r: Result<seq<MbConvSpec>>)
    ensures r == FeatureBlocks(gp, blocks)
  {
    var blockSize := CountBlocks(gp, blocks);
    if blockSize.Err? {
      return Err(blockSize.error);
    }
    var conv := BuildBlocks(gp, blocks, blockSize.value);
    r := Ok(conv);
  }

  /** The first loop: `block_size`, or the first exception of the rounding. */
  method CountBlocks(gp: GlobalParams, blocks: seq<BlockArgs>) returns (r: Result<nat>)
    ensures r.Ok? <==> MapResult(RoundOf(gp), blocks).Ok?
    ensures r.Err? ==> r.error == MapResult(RoundOf(gp), blocks).error
    ensures r.Ok? ==> r.value == BlockSize(MapResult(RoundOf(gp), blocks).value)
  {
    var blockSize := 0;
    ghost var rs: seq<BlockArgs> := [];
    var k := 0;
    while k < |blocks|
      invariant 0 <= k <= |blocks|
      invariant MapResult(RoundOf(gp), blocks[..k]) == Ok(rs)
      invariant blockSize == BlockSize(rs)
    {
      assert blocks[..k + 1][..k] == blocks[..k];
      var a := RoundArgs(gp, blocks[k]);
      if a.Err? {
        MapResultPrefixFailure(RoundOf(gp), blocks, k + 1);
        return Err(a.error);
      }
      blockSize := blockSize + 1;
      var t := 0;
      while t < a.value.numRepeat - 1
        invariant 0 <= t && (t <= a.value.numRepeat - 1 || t == 0)
        invariant blockSize == BlockSize(rs) + 1 + t
      {
        blockSize := blockSize + 1;
        t := t + 1;
      }
      ghost var rs0 := rs;
      rs := rs + [a.value];
      assert rs[..|rs| - 1] == rs0;
      k := k + 1;
    }
    assert blocks[..k] == blocks;
    r := Ok(blockSize);
  }

  /** The second loop: append one block per stage and one per extra repeat, numbering them as it goes. */
  method BuildBlocks(gp: GlobalParams, blocks: seq<BlockArgs>, blockSize: nat) returns (conv: seq<MbConvSpec>)
    requires MapResult(RoundOf(gp), blocks).Ok?
    requires blockSize == BlockSize(MapResult(RoundOf(gp), blocks).value)
    ensures conv == Expansion(gp, MapResult(RoundOf(gp), blocks).value, blockSize)
  {
    ghost var rs := MapResult(RoundOf(gp), blocks).value;
    MapResultShape(RoundOf(gp), blocks);
    conv := [];
    var curStage := 1;
    var k := 0;
    while k < |blocks|
      invariant 0 <= k <= |blocks| && |rs| == |blocks|
      invariant BlockSize(rs[..k]) <= blockSize
      invariant conv == Expansion(gp, rs[..k], blockSize)
      invariant curStage == k + 1
    {
      BlockSizePrefix(rs, k + 1);
      ExpansionStep(gp, rs, k, blockSize);
      var a := RoundArgs(gp, blocks[k]).value;
      assert a == rs[k];
      conv := AppendStage(gp, conv, a, curStage, blockSize);
      curStage := curStage + 1;
      k := k + 1;
    }
    assert rs[..k] == rs;
  }

  /**
   * One stage of the second loop: the first block with the rounded arguments,
   * then the repeats with input width = output width and stride 1; `idx`
   * is the length of `conv_seq`.
   */
  method AppendStage(gp: GlobalParams, conv0: seq<MbConvSpec>, args: BlockArgs, curStage: nat, blockSize: nat)
    returns (conv: seq<MbConvSpec>)
    requires blockSize > 0
    ensures conv == conv0 + StageBlocks(gp, args, curStage, |conv0|, blockSize)
  {
    ghost var stage := StageBlocks(gp, args, curStage, |conv0|, blockSize);
    var a := args;
    var idx := |conv0|;
    conv := conv0 + [MbConvSpec(idx, curStage, a, DropRate(gp, idx, blockSize), SublayerName(true, idx))];
    idx := idx + 1;
    if a.numRepeat > 1 {
      a := a.(inputFilters := a.outputFilters, stride := Scalar(1));
    }
    var t := 0;
    while t < a.numRepeat - 1
      invariant 0 <= t <= StageCount(args) - 1
      invariant a == RepeatArgs(args) && a.numRepeat == args.numRepeat
      invariant conv == conv0 + stage[..1 + t]
      invariant idx == |conv0| + 1 + t
    {
      assert stage[..2 + t] == stage[..1 + t] + [stage[1 + t]];
      conv := conv + [MbConvSpec(idx, curStage, a, DropRate(gp, idx, blockSize), SublayerName(false, idx))];
      idx := idx + 1;
      t := t + 1;
    }
    assert stage[..1 + t] == stage;
  }

  /** The expansion of one more stage appends that stage's blocks. */
  lemma ExpansionStep(gp: GlobalParams, rs: seq<BlockArgs>, k: nat, blockSize: nat)
    requires k < |rs| && BlockSize(rs[..k + 1]) <= blockSize
    ensures BlockSize(rs[..k]) <= blockSize && blockSize > 0
    ensures Expansion(gp, rs[..k + 1], blockSize)
            == Expansion(gp, rs[..k], blockSize)
               + StageBlocks(gp, rs[k], k + 1, |Expansion(gp, rs[..k], blockSize)|, blockSize)
  {
    assert rs[..k + 1][..k] == rs[..k];
  }

  /** The block count of a prefix of the stages never exceeds the count of all of them. */
  lemma {:induction false} BlockSizePrefix(rs: seq<BlockArgs>, n: nat)
    requires n <= |rs|
    ensures BlockSize(rs[..n]) <= BlockSize(rs)
    decreases |rs| - n
  {
    if n < |rs| {
      BlockSizePrefix(rs, n + 1);
      assert rs[..n + 1][..n] == rs[..n];
    } else {
      assert rs[..n] == rs;
    }
  }

  /** Stage counts over a prefix grow with the prefix. */
  lemma BlockSizeMono(rs: seq<BlockArgs>, a: nat, b: nat)
    requires a <= b <= |rs|
    ensures BlockSize(rs[..a]) <= BlockSize(rs[..b])
  {
    BlockSizePrefix(rs[..b], a);
    assert rs[..b][..a] == rs[..a];
  }

  /**
   * Block i of the expansion of rs: it lies in the range of its stage, has
   * index i and the drop-connect rate of index i, and carries the stage's
   * rounded arguments (first block) or their repeat form (the others).
   */
  predicate BlockAt(gp: GlobalParams, rs: seq<BlockArgs>, blockSize: nat, e: MbConvSpec, i: nat)
  {
    && 1 <= e.stage <= |rs|
    && BlockSize(rs[..e.stage - 1]) <= i < BlockSize(rs[..e.stage])
    && e.index == i
    && blockSize > 0 && e.dropConnectRate == DropRate(gp, i, blockSize)
    && var first := i == BlockSize(rs[..e.stage - 1]);
       e.args == (if first then rs[e.stage - 1] else RepeatArgs(rs[e.stage - 1]))
       && e.sublayer == SublayerName(first, i)
  }

  lemma BlockAtExtend(gp: GlobalParams, rs: seq<BlockArgs>, blockSize: nat, e: MbConvSpec, i: nat)
    requires |rs| >= 1 && BlockAt(gp, rs[..|rs| - 1], blockSize, e, i)
    ensures BlockAt(gp, rs, blockSize, e, i)
  {
    var init := rs[..|rs| - 1];
    var st := e.stage;
    assert init[..st - 1] == rs[..st - 1];
    assert init[..st] == rs[..st];
    assert init[st - 1] == rs[st - 1];
  }

  lemma BlockAtLast(gp: GlobalParams, rs: seq<BlockArgs>, blockSize: nat, i: nat)
    requires |rs| >= 1 && blockSize >= BlockSize(rs)
    requires |Expansion(gp, rs[..|rs| - 1], blockSize)| == BlockSize(rs[..|rs| - 1])
    requires BlockSize(rs[..|rs| - 1]) <= i < BlockSize(rs)
    ensures BlockAt(gp, rs, blockSize, Expansion(gp, rs, blockSize)[i], i)
  {
    var n := |rs| - 1;
    var prev := Expansion(gp, rs[..n], blockSize);
    var e := Expansion(gp, rs, blockSize)[i];
    assert e == StageBlocks(gp, rs[n], |rs|, |prev|, blockSize)[i - |prev|];
    assert rs[..e.stage - 1] == rs[..n];
    assert rs[..e.stage] == rs;
  }

  /** Block i of the expansion lies in its stage's range with the arguments, rate and name `BlockAt` states. */
  lemma {:induction false} ExpansionShape(gp: GlobalParams, rs: seq<BlockArgs>, blockSize: nat)
    requires blockSize >= BlockSize(rs)
    ensures forall i :: 0 <= i < BlockSize(rs) ==> BlockAt(gp, rs, blockSize, Expansion(gp, rs, blockSize)[i], i)
    decreases |rs|
  {
    if rs != [] {
      var n := |rs| - 1;
      var prev := Expansion(gp, rs[..n], blockSize);
      ExpansionShape(gp, rs[..n], blockSize);
      var all := Expansion(gp, rs, blockSize);
      forall i | 0 <= i < BlockSize(rs)
        ensures BlockAt(gp, rs, blockSize, all[i], i)
      {
        if i < |prev| {
          assert all[i] == prev[i];
          BlockAtExtend(gp, rs, blockSize, all[i], i);
        } else {
          BlockAtLast(gp, rs, blockSize, i);
        }
      }
    }
  }

  /**
   * `conv_seq` is numbered 0, 1, 2, ... and its stages run from 1 to the
   * number of stages without ever going back.
   */
  lemma ExpansionOrder(gp: GlobalParams, rs: seq<BlockArgs>, i: nat, j: nat)
    requires i <= j < BlockSize(rs)
    ensures var e := Expansion(gp, rs, BlockSize(rs));
      && e[i].index == i && e[j].index == j
      && 1 <= e[i].stage <= e[j].stage <= |rs|
  {
    ExpansionShape(gp, rs, BlockSize(rs));
    var e := Expansion(gp, rs, BlockSize(rs));
    assert BlockAt(gp, rs, BlockSize(rs), e[i], i);
    assert BlockAt(gp, rs, BlockSize(rs), e[j], j);
    if e[i].stage > e[j].stage {
      BlockSizeMono(rs, e[j].stage, e[i].stage - 1);
    }
  }

  /**
   * Drop-connect: with a truthy rate p, block i gets p * i / block_size,
   * which lies in [0, p) for positive p; otherwise every block gets the rate
   * unchanged.
   */
  lemma ExpansionDropRate(gp: GlobalParams, rs: seq<BlockArgs>, i: nat)
    requires i < BlockSize(rs)
    ensures var d := Expansion(gp, rs, BlockSize(rs))[i].dropConnectRate;
      && (!Truthy(gp.dropConnectRate) ==> d == gp.dropConnectRate)
      && (Truthy(gp.dropConnectRate) ==> d == Some(LinearRate(gp.dropConnectRate.value, i, BlockSize(rs))))
      && (Truthy(gp.dropConnectRate) && gp.dropConnectRate.value > 0.0 ==>
            0.0 <= d.value < gp.dropConnectRate.value)
  {
    ExpansionShape(gp, rs, BlockSize(rs));
    assert BlockAt(gp, rs, BlockSize(rs), Expansion(gp, rs, BlockSize(rs))[i], i);
    if Truthy(gp.dropConnectRate) && gp.dropConnectRate.value > 0.0 {
      RateOrder(gp.dropConnectRate.value, i, BlockSize(rs), BlockSize(rs));
    }
  }

  /** With a positive rate, later blocks get strictly larger drop-connect rates. */
  lemma ExpansionDropRatesGrow(gp: GlobalParams, rs: seq<BlockArgs>, i: nat, j: nat)
    requires i < j < BlockSize(rs)
    requires Truthy(gp.dropConnectRate) && gp.dropConnectRate.value > 0.0
    ensures var e := Expansion(gp, rs, BlockSize(rs));
      e[i].dropConnectRate.Some? && e[j].dropConnectRate.Some? &&
      e[i].dropConnectRate.value < e[j].dropConnectRate.value
  {
    ExpansionDropRate(gp, rs, i);
    ExpansionDropRate(gp, rs, j);
    RateOrder(gp.dropConnectRate.value, i, j, BlockSize(rs));
  }

  lemma RateOrder(p: real, i: nat, j: nat, n: nat)
    requires p > 0.0 && i < j <= n
    ensures 0.0 <= LinearRate(p, i, n) < LinearRate(p, j, n) <= p
  {
    var x, y := i as real / n as real, j as real / n as real;
    assert 0.0 <= x < y <= 1.0;
  }

  /**
   * Residual branches: when every stage's stride is still the decoded list
   * `[s]`, a block has a residual branch exactly when it is a repeat (not
   * the first block of its stage) and its stage keeps `id_skip`; repeats
   * always have equal input and output widths and stride 1.
   */
  lemma ExpansionResiduals(gp: GlobalParams, rs: seq<BlockArgs>, i: nat)
    requires i < BlockSize(rs)
    requires forall k :: 0 <= k < |rs| ==> rs[k].stride.Listed?
    ensures var e := Expansion(gp, rs, BlockSize(rs))[i];
      1 <= e.stage <= |rs| &&
      var first := i == BlockSize(rs[..e.stage - 1]);
      && (!first ==> e.args.inputFilters == e.args.outputFilters && e.args.stride == Scalar(1))
      && (HasResidual(e.args) <==> !first && e.args.idSkip)
  {
    ExpansionArgs(gp, rs, i);
    var e := Expansion(gp, rs, BlockSize(rs))[i];
    assert rs[e.stage - 1].stride.Listed?;
  }

  /** Block i carries its stage's arguments when it is the stage's first block, and the repeat arguments of a stage of several blocks otherwise. */
  lemma ExpansionArgs(gp: GlobalParams, rs: seq<BlockArgs>, i: nat)
    requires i < BlockSize(rs)
    ensures var e := Expansion(gp, rs, BlockSize(rs))[i];
      && 1 <= e.stage <= |rs|
      && (i == BlockSize(rs[..e.stage - 1]) ==> e.args == rs[e.stage - 1])
      && (i != BlockSize(rs[..e.stage - 1]) ==>
            rs[e.stage - 1].numRepeat > 1 && e.args == RepeatArgs(rs[e.stage - 1]))
  {
    ExpansionShape(gp, rs, BlockSize(rs));
    var e := Expansion(gp, rs, BlockSize(rs))[i];
    assert BlockAt(gp, rs, BlockSize(rs), e, i);
    var st := e.stage;
    if i != BlockSize(rs[..st - 1]) {
      assert rs[..st] == rs[..st - 1] + [rs[st - 1]];
      assert BlockSize(rs[..st]) == BlockSize(rs[..st - 1]) + StageCount(rs[st - 1]);
    }
  }

  /** Sub-layer names determine the index and the kind of block. */
  lemma SublayerNameInjective(f1: bool, i: nat, f2: bool, j: nat)
    requires SublayerName(f1, i) == SublayerName(f2, j)
    ensures i == j && f1 == f2
  {
    var s := SublayerName(f1, i);
    SublayerNameFirst(f1, i);
    SublayerNameFirst(f2, j);
    if f1 == f2 {
      var p: string := if f1 then "_blocks." else "block.";
      assert s == p + NatToString(i) + ".";
      assert s[|p|..|s| - 1] == NatToString(i);
      assert SublayerName(f2, j)[|p|..|s| - 1] == NatToString(j);
      NatToStringValue(i);
      NatToStringValue(j);
    }
  }

  lemma SublayerNameFirst(first: bool, i: nat)
    ensures SublayerName(first, i)[0] == if first then '_' else 'b'
  {
  }

  /** No two blocks of `conv_seq` are registered under the same sub-layer name. */
  lemma ExpansionNamesDistinct(gp: GlobalParams, rs: seq<BlockArgs>, i: nat, j: nat)
    requires i < BlockSize(rs) && j < BlockSize(rs) && i != j
    ensures Expansion(gp, rs, BlockSize(rs))[i].sublayer != Expansion(gp, rs, BlockSize(rs))[j].sublayer
  {
    ExpansionShape(gp, rs, BlockSize(rs));
    var e := Expansion(gp, rs, BlockSize(rs));
    assert BlockAt(gp, rs, BlockSize(rs), e[i], i);
    assert BlockAt(gp, rs, BlockSize(rs), e[j], j);
    if e[i].sublayer == e[j].sublayer {
      SublayerNameInjective(i == BlockSize(rs[..e[i].stage - 1]), i, j == BlockSize(rs[..e[j].stage - 1]), j);
    }
  }

  /**
   * With at most seven stages, as in the default list, every block's
   * `Conv2ds` finds its `inp_shape` entry for each listed model, the entry
   * of its stage.
   */
  lemma ExpansionStagesFit(gp: GlobalParams, rs: seq<BlockArgs>, i: nat, name: string)
    requires i < BlockSize(rs) && |rs| <= 7 && name in ShapeNames()
    ensures var st := Expansion(gp, rs, BlockSize(rs))[i].stage;
      1 <= st <= 7 && ConvInputSize(Some(name), Some(st)).Ok?
  {
    ExpansionShape(gp, rs, BlockSize(rs));
    assert BlockAt(gp, rs, BlockSize(rs), Expansion(gp, rs, BlockSize(rs))[i], i);
    var k :| 0 <= k < 8 && ShapeNames()[k] == name;
    InpShapeStrides(k);
  }

  /**
   * `ExtractFeatures` succeeds exactly when every stage rounds, keeps one
   * stage per block argument, and raises ZeroDivisionError for a non-empty
   * list under a truthy width coefficient with divisor 0.
   */
  lemma FeatureBlocksCases(gp: GlobalParams, blocks: seq<BlockArgs>)
    ensures FeatureBlocks(gp, blocks).Ok? <==> AllOk(RoundOf(gp), blocks)
    ensures FeatureBlocks(gp, blocks).Ok? ==>
      var rs := MapResult(RoundOf(gp), blocks).value;
      && |rs| == |blocks|
      && (forall k :: 0 <= k < |blocks| ==> RoundOf(gp)(blocks[k]) == Ok(rs[k]))
      && FeatureBlocks(gp, blocks).value == Expansion(gp, rs, BlockSize(rs))
      && |FeatureBlocks(gp, blocks).value| == BlockSize(rs)
    ensures |blocks| >= 1 && Truthy(gp.widthCoefficient) && gp.depthDivisor == 0 ==>
      FeatureBlocks(gp, blocks) == Err(ZeroDivisionError)
  {
    MapResultShape(RoundOf(gp), blocks);
    if |blocks| >= 1 && Truthy(gp.widthCoefficient) && gp.depthDivisor == 0 {
      FirstFailure(gp, blocks);
    }
  }

  /** Under a zero divisor every stage raises the same ZeroDivisionError. */
  lemma {:induction false} FirstFailure(gp: GlobalParams, blocks: seq<BlockArgs>)
    requires |blocks| >= 1 && Truthy(gp.widthCoefficient) && gp.depthDivisor == 0
    ensures MapResult(RoundOf(gp), blocks) == Err(ZeroDivisionError)
    decreases |blocks|
  {
    var n := |blocks| - 1;
    RoundFiltersUnscaled(blocks[n].inputFilters, gp);
    if n >= 1 {
      FirstFailure(gp, blocks[..n]);
    }
  }
}
