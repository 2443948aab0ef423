/**
 * One training epoch of the PaddleClas engine (`train_epoch` in
 * ppcls/engine/train/train.py).
 *
 * The engine object is a class whose state the epoch updates in place: the
 * global step counter, the data-loader iterator it keeps between epochs, and
 * an event log recording, in order, every call the epoch makes into the
 * framework (fetching a batch, the forward and backward passes, optimiser,
 * scheduler and EMA steps, logging).  Tensors, timings and the profiler are
 * not modelled; the data loader is a source of `loaderLen` batches per pass
 * whose iterator raises once a pass is exhausted.
 *
 * The method `Engine.TrainEpoch` is proved equal to the pure specification
 * `Epoch`, and the lemmas below count what `Epoch` does: how many optimiser
 * steps (one per gradient-accumulation window), scheduler steps, EMA updates,
 * backward passes and log lines an epoch produces.
 */
module Train {
  import opened Common

  /** An entry of `engine.lr_sch`: whether it steps by epoch, and its class name. */
  datatype Scheduler = Scheduler(byEpoch: bool, typeName: string)

  /** The parts of the engine and its configuration that `train_epoch` reads but never changes. */
  datatype TrainConfig = TrainConfig(
    iterPerEpoch: int,
    updateFreq: int,
    numOptimizers: nat,
    schedulers: seq<Scheduler>,
    amp: bool,
    ema: bool,
    useDali: bool,
    isRec: bool,
    useMultilabel: bool,
    loaderLen: nat)

  /** The calls the epoch makes, in the order it makes them. */
  datatype Event =
    | CreateIterator             // iter(engine.train_dataloader)
    | DaliReset                  // engine.train_dataloader.reset()
    | FetchBatch                 // a successful next(engine.train_dataloader_iter)
    | ResetTimeInfo              // every time_info meter reset
    | ReshapeLabels              // batch[1] reshaped to [batch_size, -1]
    | Forward(withLabel: bool)   // the model called on batch[0] (and batch[1])
    | Backward(scaled: bool, divisor: int)  // backward of loss / update_freq, through the AMP scaler or not
    | OptimizerStep(opt: nat, viaScaler: bool)  // optimizer[opt].step(), or scaler.minimize
    | ClearGrad(opt: nat)
    | SchedulerStep(sch: nat)
    | EmaUpdate
    | UpdateMetric
    | UpdateLoss
    | LogInfo(epoch: int, iter: int)

  /** The engine's iterator over the training loader: present or not, and how many batches it has handed out. */
  datatype IterState = IterState(present: bool, consumed: nat)

  datatype EngineState = EngineState(globalStep: int, iter: IterState, log: seq<Event>)

  /** How often an event occurs in a log. */
  function Occ(log: seq<Event>, e: Event): nat
  {
    if log == [] then 0 else Occ(log[..|log| - 1], e) + (if log[|log| - 1] == e then 1 else 0)
  }

  lemma {:induction false} OccAppend(a: seq<Event>, b: seq<Event>, e: Event)
    ensures Occ(a + b, e) == Occ(a, e) + Occ(b, e)
    decreases |b|
  {
    if b == [] {
      assert a + b == a;
    } else {
      assert (a + b)[..|a + b| - 1] == a + b[..|b| - 1];
      OccAppend(a, b[..|b| - 1], e);
    }
  }

  lemma OccSingle(x: Event, e: Event)
    ensures Occ([x], e) == if x == e then 1 else 0
  {
    assert [x][..0] == [];
  }

  predicate IsFetchEvent(e: Event)
  {
    e.CreateIterator? || e.DaliReset? || e.FetchBatch?
  }

  // ---------------------------------------------------------------------
  // Specification of one epoch

  /**
   * `batch = next(engine.train_dataloader_iter)`, falling back on a fresh
   * iterator (after a DALI reset) when the current one is exhausted; a loader
   * with no batches makes the second `next` raise.
   */
  function FetchStep(cfg: TrainConfig, s: EngineState): (Option<PyError>, EngineState)
  {
    if s.iter.present && s.iter.consumed < cfg.loaderLen then
      (None, s.(iter := IterState(true, s.iter.consumed + 1), log := s.log + [FetchBatch]))
    else
      var reset := if cfg.useDali then [DaliReset] else [];
      var renewed := s.log + reset + [CreateIterator];
      if cfg.loaderLen == 0 then
        (Some(StopIteration), s.(iter := IterState(true, 0), log := renewed))
      else
        (None, s.(iter := IterState(true, 1), log := renewed + [FetchBatch]))
  }

  /** How often a fetch logs e. */
  function FetchCount(cfg: TrainConfig, it: IterState, e: Event): nat
  {
    if it.present && it.consumed < cfg.loaderLen then (if e == FetchBatch then 1 else 0)
    else (if cfg.useDali && e == DaliReset then 1 else 0) + (if e == CreateIterator then 1 else 0)
         + (if cfg.loaderLen != 0 && e == FetchBatch then 1 else 0)
  }

  lemma FetchOcc(cfg: TrainConfig, s: EngineState, e: Event)
    ensures Occ(FetchStep(cfg, s).1.log, e) == Occ(s.log, e) + FetchCount(cfg, s.iter, e)
  {
    if s.iter.present && s.iter.consumed < cfg.loaderLen {
      OccSingle(FetchBatch, e);
      OccAppend(s.log, [FetchBatch], e);
    } else {
      RenewOcc(cfg, s, e);
    }
  }

  lemma RenewOcc(cfg: TrainConfig, s: EngineState, e: Event)
    requires !(s.iter.present && s.iter.consumed < cfg.loaderLen)
    ensures Occ(FetchStep(cfg, s).1.log, e) == Occ(s.log, e) + FetchCount(cfg, s.iter, e)
  {
    var reset := if cfg.useDali then [DaliReset] else [];
    var a := s.log + reset;
    var b := a + [CreateIterator];
    OccSingle(FetchBatch, e);
    OccSingle(DaliReset, e);
    OccSingle(CreateIterator, e);
    OccAppend(s.log, reset, e);
    OccAppend(a, [CreateIterator], e);
    OccAppend(b, [FetchBatch], e);
    assert Occ(reset, e) == if cfg.useDali && e == DaliReset then 1 else 0;
    assert Occ(b, e) == Occ(s.log, e) + (if cfg.useDali && e == DaliReset then 1 else 0) + (if e == CreateIterator then 1 else 0);
  }

  /**
   * A fetch either hands out the next batch of the current pass, or (when the
   * pass is exhausted or no iterator exists) creates a new iterator, after a
   * DALI reset when DALI is in use, and takes its first batch; it raises only
   * when the loader has no batches at all.  It logs no other event.
   */
  lemma FetchStepFacts(cfg: TrainConfig, s: EngineState, r: (Option<PyError>, EngineState))
    requires r == FetchStep(cfg, s)
    ensures r.1.globalStep == s.globalStep && r.1.iter.present
    ensures r.0.None? <==> cfg.loaderLen > 0
    ensures r.0 == None || r.0 == Some(StopIteration)
    ensures r.0.None? ==> 1 <= r.1.iter.consumed <= cfg.loaderLen
    ensures r.0.None? ==> Occ(r.1.log, FetchBatch) == Occ(s.log, FetchBatch) + 1
    ensures var refresh := !(s.iter.present && s.iter.consumed < cfg.loaderLen);
      && Occ(r.1.log, CreateIterator) == Occ(s.log, CreateIterator) + (if refresh then 1 else 0)
      && Occ(r.1.log, DaliReset) == Occ(s.log, DaliReset) + (if refresh && cfg.useDali then 1 else 0)
      && (!refresh ==> r.1.iter.consumed == s.iter.consumed + 1)
      && (refresh && r.0.None? ==> r.1.iter.consumed == 1)
    ensures forall e {:trigger Occ(r.1.log, e)} :: !IsFetchEvent(e) ==> Occ(r.1.log, e) == Occ(s.log, e)
  {
    forall e {:trigger Occ(r.1.log, e)} ensures Occ(r.1.log, e) == Occ(s.log, e) + FetchCount(cfg, s.iter, e) {
        FetchOcc(cfg, s, e);
    }
    FetchOcc(cfg, s, FetchBatch);
    FetchOcc(cfg, s, CreateIterator);
    FetchOcc(cfg, s, DaliReset);
  }

  /** `(iter_id + 1) % engine.update_freq == 0`: this iteration closes a gradient-accumulation window. */
  predicate WindowEnd(updateFreq: int, it: int)
    requires updateFreq != 0
  {
    PyMod(it + 1, updateFreq) == 0
  }

  /** The optimiser loop over `range(len(engine.optimizer))`, its first n rounds. */
  function OptimizerSteps(n: nat, viaScaler: bool): seq<Event>
  {
    if n == 0 then [] else OptimizerSteps(n - 1, viaScaler) + [OptimizerStep(n - 1, viaScaler)]
  }

  function ClearGrads(n: nat): seq<Event>
  {
    if n == 0 then [] else ClearGrads(n - 1) + [ClearGrad(n - 1)]
  }

  /**
   * Which schedulers a loop steps: inside a window those without `by_epoch`
   * (a missing attribute counts as False); at the end of the epoch those with
   * `by_epoch` that are not ReduceOnPlateau.
   */
  predicate Selected(s: Scheduler, perEpoch: bool)
  {
    if perEpoch then s.byEpoch && s.typeName != "ReduceOnPlateau" else !s.byEpoch
  }

  /** The scheduler loop over `range(len(engine.lr_sch))`, its first n rounds. */
  function SchedulerSteps(schedulers: seq<Scheduler>, n: nat, perEpoch: bool): seq<Event>
    requires n <= |schedulers|
  {
    if n == 0 then []
    else SchedulerSteps(schedulers, n - 1, perEpoch)
         + (if Selected(schedulers[n - 1], perEpoch) then [SchedulerStep(n - 1)] else [])
  }

  /** What happens after the optimiser step at the end of a window: clear, step by-step schedulers, update the EMA. */
  function WindowEvents(cfg: TrainConfig): seq<Event>
  {
    ClearGrads(cfg.numOptimizers)
    + SchedulerSteps(cfg.schedulers, |cfg.schedulers|, false)
    + (if cfg.ema then [EmaUpdate] else [])
  }

  /** The events of an iteration up to its backward pass. */
  function PreEvents(cfg: TrainConfig, it: int): seq<Event>
  {
    (if it == 5 then [ResetTimeInfo] else [])
    + (if !cfg.useMultilabel then [ReshapeLabels] else [])
    + [Forward(cfg.isRec), Backward(cfg.amp, cfg.updateFreq)]
  }

  /** The events of the two `(iter_id + 1) % update_freq == 0` branches. */
  function WindowPart(cfg: TrainConfig, it: int): seq<Event>
    requires cfg.updateFreq != 0
  {
    if WindowEnd(cfg.updateFreq, it) then OptimizerSteps(cfg.numOptimizers, cfg.amp) + WindowEvents(cfg) else []
  }

  /**
   * Everything iteration `it` does after its batch arrived.  A zero
   * `update_freq` raises at the first `%` after the backward pass, a zero
   * `print_batch_step` at the `%` before `log_info`.
   */
  function IterationBody(cfg: TrainConfig, epochId: int, printBatchStep: int, it: int): (Option<PyError>, seq<Event>)
  {
    var pre := PreEvents(cfg, it);
    if cfg.updateFreq == 0 then (Some(ZeroDivisionError), pre)
    else
      var mid := pre + WindowPart(cfg, it) + [UpdateMetric, UpdateLoss];
      if printBatchStep == 0 then (Some(ZeroDivisionError), mid)
      else (None, mid + LogEvents(epochId, printBatchStep, it))
  }

  /** `log_info` on iterations whose index is a multiple of `print_batch_step`. */
  function LogEvents(epochId: int, printBatchStep: int, it: int): seq<Event>
    requires printBatchStep != 0
  {
    if PyMod(it, printBatchStep) == 0 then [LogInfo(epochId, it)] else []
  }

  /** One pass of the `for iter_id` loop: fetch, bump `global_step`, then the body. */
  function Iteration(cfg: TrainConfig, epochId: int, printBatchStep: int, s: EngineState, it: int): (Option<PyError>, EngineState)
  {
    var (fetchErr, f) := FetchStep(cfg, s);
    if fetchErr.Some? then (fetchErr, f)
    else
      var (err, body) := IterationBody(cfg, epochId, printBatchStep, it);
      (err, f.(globalStep := f.globalStep + 1, log := f.log + body))
  }

  /** The first n passes of a loop whose pass `step` maps a state and an index to the next; the first exception ends it. */
  function RunLoop(step: (EngineState, int) -> (Option<PyError>, EngineState), s: EngineState, n: nat)
    : (Option<PyError>, EngineState)
  {
    if n == 0 then (None, s)
    else
      var (err, s') := RunLoop(step, s, n - 1);
      if err.Some? then (err, s')
      else step(s', n - 1)
  }

  /** The pass of the `for iter_id` loop for one configuration. */
  function IterStep(cfg: TrainConfig, epochId: int, printBatchStep: int): (EngineState, int) -> (Option<PyError>, EngineState)
  {
    (x: EngineState, it: int) => Iteration(cfg, epochId, printBatchStep, x, it)
  }

  /** The first n iterations of the loop; the first exception ends it. */
  function Loop(cfg: TrainConfig, epochId: int, printBatchStep: int, s: EngineState, n: nat): (Option<PyError>, EngineState)
  {
    RunLoop(IterStep(cfg, epochId, printBatchStep), s, n)
  }

  /** The number of iterations `range(engine.iter_per_epoch)` yields. */
  function Iterations(cfg: TrainConfig): nat
  {
    Max(0, cfg.iterPerEpoch)
  }

  /** The state in which the loop starts: an iterator is created when the engine has none. */
  function EpochStart(s: EngineState): EngineState
  {
    if s.iter.present then s else s.(iter := IterState(true, 0), log := s.log + [CreateIterator])
  }

  /** `train_epoch(engine, epoch_id, print_batch_step)`. */
  function Epoch(cfg: TrainConfig, epochId: int, printBatchStep: int, s: EngineState): (Option<PyError>, EngineState)
  {
    var (err, s') := Loop(cfg, epochId, printBatchStep, EpochStart(s), Iterations(cfg));
    if err.Some? then (err, s')
    else (None, s'.(log := s'.log + SchedulerSteps(cfg.schedulers, |cfg.schedulers|, true)))
  }

  /** `forward(engine, batch)`: the arguments the model is called with. */
  function ForwardInputs<T>(isRec: bool, batch: seq<T>): (r: Result<seq<T>>)
    ensures r.Ok? <==> |batch| >= (if isRec then 2 else 1)
    ensures r.Err? ==> r.error == IndexError
    ensures r.Ok? ==> 1 <= |r.value| <= 2 && |r.value| <= |batch| && r.value == batch[..|r.value|]
    ensures r.Ok? ==> (|r.value| == 2 <==> isRec)
  {
    if |batch| == 0 then Err(IndexError)
    else if !isRec then Ok([batch[0]])
    else if |batch| == 1 then Err(IndexError)
    else Ok([batch[0], batch[1]])
  }

  // ---------------------------------------------------------------------
  // The engine, updated in place

  class Engine {
    const cfg: TrainConfig
    var globalStep: int
    var hasIterator: bool
    var consumed: nat
    var log: seq<Event>

    function State(): EngineState
      reads this
    {
      EngineState(globalStep, IterState(hasIterator, consumed), log)
    }

    /** A fresh engine: no steps taken, no iterator yet, nothing logged. */
    constructor (cfg: TrainConfig)
      ensures this.cfg == cfg
      ensures State() == EngineState(0, IterState(false, 0), [])
    {
      this.cfg := cfg;
      globalStep := 0;
      hasIterator := false;
      consumed := 0;
      log := [];
    }

    method Fetch() returns (err: Option<PyError>)
      modifies this
      ensures (err, State()) == FetchStep(cfg, old(State()))
    {
      if hasIterator && consumed < cfg.loaderLen {
        consumed := consumed + 1;
        log := log + [FetchBatch];
        return None;
      }
      var reset := if cfg.useDali then [DaliReset] else [];
      log := log + reset + [CreateIterator];
      hasIterator := true;
      consumed := 0;
      if cfg.loaderLen == 0 {
        return Some(StopIteration);
      }
      consumed := 1;
      log := log + [FetchBatch];
      err := None;
    }

    method StepOptimizers()
      modifies this`log
      ensures log == old(log) + OptimizerSteps(cfg.numOptimizers, cfg.amp)
    {
      for i := 0 to cfg.numOptimizers
        invariant log == old(log) + OptimizerSteps(i, cfg.amp)
      {
        log := log + [OptimizerStep(i, cfg.amp)];
      }
    }

    method ClearAllGrads()
      modifies this`log
      ensures log == old(log) + ClearGrads(cfg.numOptimizers)
    {
      for i := 0 to cfg.numOptimizers
        invariant log == old(log) + ClearGrads(i)
      {
        log := log + [ClearGrad(i)];
      }
    }

    method StepSchedulers(perEpoch: bool)
      modifies this`log
      ensures log == old(log) + SchedulerSteps(cfg.schedulers, |cfg.schedulers|, perEpoch)
    {
      for i := 0 to |cfg.schedulers|
        invariant log == old(log) + SchedulerSteps(cfg.schedulers, i, perEpoch)
      {
        if Selected(cfg.schedulers[i], perEpoch) {
          log := log + [SchedulerStep(i)];
        }
      }
    }

    method TrainIteration(epochId: int, printBatchStep: int, it: int) returns (err: Option<PyError>)
      modifies this
      ensures (err, State()) == Iteration(cfg, epochId, printBatchStep, old(State()), it)
    {
      err := Fetch();
      if err.Some? {
        return;
      }
      err := RunBody(epochId, printBatchStep, it);
    }

    /** The iteration after its batch arrived: `global_step += 1`, then the events of `IterationBody`. */
    method RunBody(epochId: int, printBatchStep: int, it: int) returns (err: Option<PyError>)
      modifies this
      ensures err == IterationBody(cfg, epochId, printBatchStep, it).0
      ensures State() == old(State()).(globalStep := old(globalStep) + 1,
                                       log := old(log) + IterationBody(cfg, epochId, printBatchStep, it).1)
    {
      ghost var f := State();
      LogPre(it);
      globalStep := globalStep + 1;
      if cfg.updateFreq == 0 {
        return Some(ZeroDivisionError);
      }
      ghost var pre := log;
      err := LogAfterBackward(epochId, printBatchStep, it);
      ghost var mid := PreEvents(cfg, it) + WindowPart(cfg, it) + [UpdateMetric, UpdateLoss];
      if printBatchStep == 0 {
        assert log == f.log + mid;
      } else {
        assert log == f.log + mid + LogEvents(epochId, printBatchStep, it);
      }
    }

    /** The events up to the backward pass: the timer reset at iteration 5, the label reshape, forward and backward. */
    method LogPre(it: int)
      modifies this`log
      ensures log == old(log) + PreEvents(cfg, it)
    {
      if it == 5 {
        log := log + [ResetTimeInfo];
      }
      if !cfg.useMultilabel {
        log := log + [ReshapeLabels];
      }
      log := log + [Forward(cfg.isRec), Backward(cfg.amp, cfg.updateFreq)];
    }

    /** The events after the backward pass: the window's steps, the meters, and `log_info`, whose `%` raises when print_batch_step is 0. */
    method LogAfterBackward(epochId: int, printBatchStep: int, it: int) returns (err: Option<PyError>)
      requires cfg.updateFreq != 0
      modifies this`log
      ensures err == if printBatchStep == 0 then Some(ZeroDivisionError) else None
      ensures log == old(log) + WindowPart(cfg, it) + [UpdateMetric, UpdateLoss]
                     + (if printBatchStep == 0 then [] else LogEvents(epochId, printBatchStep, it))
    {
      CloseWindow(it);
      log := log + [UpdateMetric, UpdateLoss];
      if printBatchStep == 0 {
        return Some(ZeroDivisionError);
      }
      if PyMod(it, printBatchStep) == 0 {
        log := log + [LogInfo(epochId, it)];
      }
      err := None;
    }

    /** Both `(iter_id + 1) % update_freq == 0` branches: the optimiser steps, then the window's bookkeeping. */
    method CloseWindow(it: int)
      requires cfg.updateFreq != 0
      modifies this`log
      ensures log == old(log) + WindowPart(cfg, it)
    {
      if PyMod(it + 1, cfg.updateFreq) == 0 {
        StepOptimizers();
      }
      if PyMod(it + 1, cfg.updateFreq) == 0 {
        FinishWindow();
      }
    }

    /** The second branch: clear every gradient, step the per-iteration schedulers, update the EMA. */
    method FinishWindow()
      modifies this`log
      ensures log == old(log) + WindowEvents(cfg)
    {
      ClearAllGrads();
      StepSchedulers(false);
      if cfg.ema {
        log := log + [EmaUpdate];
      }
    }

    /** The whole epoch: the engine ends in the state `Epoch` describes. */
    method TrainEpoch(epochId: int, printBatchStep: int) returns (err: Option<PyError>)
      modifies this
      ensures (err, State()) == Epoch(cfg, epochId, printBatchStep, old(State()))
    {
      if !hasIterator {
        hasIterator := true;
        consumed := 0;
        log := log + [CreateIterator];
      }
      ghost var start := State();
      assert start == EpochStart(old(State()));
      var n := Iterations(cfg);
      for it := 0 to n
        invariant Loop(cfg, epochId, printBatchStep, start, it) == (None, State())
      {
        err := TrainIteration(epochId, printBatchStep, it);
        if err.Some? {
          LoopStopped(cfg, epochId, printBatchStep, start, it + 1, n);
          return;
        }
      }
      StepSchedulers(true);
      err := None;
    }
  }

  /** Once an iteration raises, the rest of the loop does not run. */
  lemma {:induction false} LoopStopped(cfg: TrainConfig, epochId: int, printBatchStep: int, s: EngineState, k: nat, n: nat)
    requires k <= n && Loop(cfg, epochId, printBatchStep, s, k).0.Some?
    ensures Loop(cfg, epochId, printBatchStep, s, n) == Loop(cfg, epochId, printBatchStep, s, k)
    decreases n - k
  {
    if k < n {
      LoopStopped(cfg, epochId, printBatchStep, s, k, n - 1);
    }
  }

  // ---------------------------------------------------------------------
  // What one window and one iteration log

  lemma {:induction false} OptimizerStepsOcc(n: nat, viaScaler: bool, e: Event)
    ensures Occ(OptimizerSteps(n, viaScaler), e) == if e.OptimizerStep? && e.viaScaler == viaScaler && e.opt < n then 1 else 0
  {
    if n > 0 {
      OptimizerStepsOcc(n - 1, viaScaler, e);
      OccAppend(OptimizerSteps(n - 1, viaScaler), [OptimizerStep(n - 1, viaScaler)], e);
    }
  }

  /** The optimisers are stepped in index order. */
  lemma {:induction false} OptimizerStepsOrder(n: nat, viaScaler: bool)
    ensures |OptimizerSteps(n, viaScaler)| == n
    ensures forall j :: 0 <= j < n ==> OptimizerSteps(n, viaScaler)[j] == OptimizerStep(j, viaScaler)
  {
    if n > 0 {
      OptimizerStepsOrder(n - 1, viaScaler);
    }
  }

  lemma {:induction false} ClearGradsOcc(n: nat, e: Event)
    ensures Occ(ClearGrads(n), e) == if e.ClearGrad? && e.opt < n then 1 else 0
  {
    if n > 0 {
      ClearGradsOcc(n - 1, e);
      OccAppend(ClearGrads(n - 1), [ClearGrad(n - 1)], e);
    }
  }

  lemma {:induction false} ClearGradsShape(n: nat)
    ensures |ClearGrads(n)| == n
    ensures forall j :: 0 <= j < n ==> ClearGrads(n)[j] == ClearGrad(j)
  {
    if n > 0 {
      ClearGradsShape(n - 1);
    }
  }

  lemma {:induction false} SchedulerStepsOcc(schedulers: seq<Scheduler>, n: nat, perEpoch: bool, e: Event)
    requires n <= |schedulers|
    ensures Occ(SchedulerSteps(schedulers, n, perEpoch), e)
            == if e.SchedulerStep? && e.sch < n && Selected(schedulers[e.sch], perEpoch) then 1 else 0
  {
    if n > 0 {
      SchedulerStepsOcc(schedulers, n - 1, perEpoch, e);
      var last := if Selected(schedulers[n - 1], perEpoch) then [SchedulerStep(n - 1)] else [];
      OccAppend(SchedulerSteps(schedulers, n - 1, perEpoch), last, e);
    }
  }

  lemma {:induction false} SchedulerStepsOnly(schedulers: seq<Scheduler>, n: nat, perEpoch: bool)
    requires n <= |schedulers|
    ensures forall j :: 0 <= j < |SchedulerSteps(schedulers, n, perEpoch)| ==> SchedulerSteps(schedulers, n, perEpoch)[j].SchedulerStep?
  {
    if n > 0 {
      SchedulerStepsOnly(schedulers, n - 1, perEpoch);
    }
  }

  /** The events that belong to the end of an accumulation window. */
  predicate WindowKind(e: Event)
  {
    e.OptimizerStep? || e.ClearGrad? || e.SchedulerStep? || e.EmaUpdate?
  }

  /** Whether a window-closing iteration logs e (it then logs it exactly once). */
  predicate StepsInWindow(cfg: TrainConfig, e: Event)
  {
    match e
    case OptimizerStep(i, viaScaler) => viaScaler == cfg.amp && i < cfg.numOptimizers
    case ClearGrad(i) => i < cfg.numOptimizers
    case SchedulerStep(i) => i < |cfg.schedulers| && Selected(cfg.schedulers[i], false)
    case EmaUpdate => cfg.ema
    case _ => false
  }

  /**
   * At the end of a window every optimiser steps once, every optimiser's
   * gradient is cleared once, every by-step scheduler steps once, and the EMA
   * is updated once when enabled; nothing else happens.
   */
  lemma WindowOcc(cfg: TrainConfig, e: Event)
    ensures Occ(OptimizerSteps(cfg.numOptimizers, cfg.amp) + WindowEvents(cfg), e) == if StepsInWindow(cfg, e) then 1 else 0
  {
    var o := OptimizerSteps(cfg.numOptimizers, cfg.amp);
    var c := ClearGrads(cfg.numOptimizers);
    var sch := SchedulerSteps(cfg.schedulers, |cfg.schedulers|, false);
    var ema := if cfg.ema then [EmaUpdate] else [];
    OptimizerStepsOcc(cfg.numOptimizers, cfg.amp, e);
    ClearGradsOcc(cfg.numOptimizers, e);
    SchedulerStepsOcc(cfg.schedulers, |cfg.schedulers|, false, e);
    OccAppend(c, sch, e);
    OccAppend(c + sch, ema, e);
    OccAppend(o, c + sch + ema, e);
  }

  /**
   * Within a window-closing iteration the optimisers step first, in index
   * order, and only then are gradients cleared, by-step schedulers stepped and
   * the EMA updated; the clearing also goes in index order.
   */
  lemma WindowOrder(cfg: TrainConfig, it: int)
    requires cfg.updateFreq != 0 && WindowEnd(cfg.updateFreq, it)
    ensures var w := WindowPart(cfg, it); var n := cfg.numOptimizers;
      && |w| >= 2 * n
      && (forall j :: 0 <= j < n ==> w[j] == OptimizerStep(j, cfg.amp) && w[n + j] == ClearGrad(j))
      && (forall j :: n <= j < |w| ==> !w[j].OptimizerStep?)
  {
    var n := cfg.numOptimizers;
    OptimizerStepsOrder(n, cfg.amp);
    ClearGradsShape(n);
    SchedulerStepsOnly(cfg.schedulers, |cfg.schedulers|, false);
    var w := WindowPart(cfg, it);
    var sch := SchedulerSteps(cfg.schedulers, |cfg.schedulers|, false);
    var ema := if cfg.ema then [EmaUpdate] else [];
    assert w == OptimizerSteps(n, cfg.amp) + ClearGrads(n) + sch + ema;
    forall j | n <= j < |w| ensures !w[j].OptimizerStep? {
      if j < 2 * n {
        assert w[j] == ClearGrads(n)[j - n];
      } else if j < 2 * n + |sch| {
        assert w[j] == sch[j - 2 * n];
      } else {
        assert w[j] == ema[j - 2 * n - |sch|];
      }
    }
  }

  /**
   * How often a successful iteration body logs e: the time reset at
   * iter_id 5, the label reshape unless multi-label, one forward and one
   * backward pass, the window events when the iteration closes a window, the
   * metric and loss updates, and a log line when iter_id is a multiple of
   * print_batch_step.
   */
  function IterOcc(cfg: TrainConfig, epochId: int, printBatchStep: int, it: int, e: Event): nat
    requires cfg.updateFreq != 0 && printBatchStep != 0
  {
    (if it == 5 && e == ResetTimeInfo then 1 else 0)
    + (if !cfg.useMultilabel && e == ReshapeLabels then 1 else 0)
    + (if e == Forward(cfg.isRec) then 1 else 0)
    + (if e == Backward(cfg.amp, cfg.updateFreq) then 1 else 0)
    + (if WindowEnd(cfg.updateFreq, it) && StepsInWindow(cfg, e) then 1 else 0)
    + (if e == UpdateMetric then 1 else 0)
    + (if e == UpdateLoss then 1 else 0)
    + (if PyMod(it, printBatchStep) == 0 && e == LogInfo(epochId, it) then 1 else 0)
  }

  lemma LogEventsOcc(epochId: int, printBatchStep: int, it: int, e: Event)
    requires printBatchStep != 0
    ensures Occ(LogEvents(epochId, printBatchStep, it), e)
            == if PyMod(it, printBatchStep) == 0 && e == LogInfo(epochId, it) then 1 else 0
  {
    OccSingle(LogInfo(epochId, it), e);
  }

  lemma PreEventsOcc(cfg: TrainConfig, it: int, e: Event)
    ensures Occ(PreEvents(cfg, it), e)
            == (if it == 5 && e == ResetTimeInfo then 1 else 0)
               + (if !cfg.useMultilabel && e == ReshapeLabels then 1 else 0)
               + (if e == Forward(cfg.isRec) then 1 else 0)
               + (if e == Backward(cfg.amp, cfg.updateFreq) then 1 else 0)
  {
    var a := if it == 5 then [ResetTimeInfo] else [];
    var b := if !cfg.useMultilabel then [ReshapeLabels] else [];
    var c := [Forward(cfg.isRec), Backward(cfg.amp, cfg.updateFreq)];
    OccAppend(a, b, e);
    OccAppend(a + b, c, e);
    OccAppend([Forward(cfg.isRec)], [Backward(cfg.amp, cfg.updateFreq)], e);
    assert c == [Forward(cfg.isRec)] + [Backward(cfg.amp, cfg.updateFreq)];
  }

  lemma WindowPartOcc(cfg: TrainConfig, it: int, e: Event)
    requires cfg.updateFreq != 0
    ensures Occ(WindowPart(cfg, it), e) == if WindowEnd(cfg.updateFreq, it) && StepsInWindow(cfg, e) then 1 else 0
  {
    WindowOcc(cfg, e);
  }

  lemma PairOcc(x: Event, y: Event, e: Event)
    ensures Occ([x, y], e) == (if x == e then 1 else 0) + (if y == e then 1 else 0)
  {
    OccSingle(x, e);
    OccSingle(y, e);
    OccAppend([x], [y], e);
    assert [x, y] == [x] + [y];
  }

  lemma PiecesOcc(cfg: TrainConfig, epochId: int, printBatchStep: int, it: int, e: Event)
    requires cfg.updateFreq != 0 && printBatchStep != 0
    ensures Occ(PreEvents(cfg, it), e) + Occ(WindowPart(cfg, it), e) + Occ([UpdateMetric, UpdateLoss], e)
            + Occ(LogEvents(epochId, printBatchStep, it), e)
            == IterOcc(cfg, epochId, printBatchStep, it, e)
  {
    PreEventsOcc(cfg, it, e);
    WindowPartOcc(cfg, it, e);
    PairOcc(UpdateMetric, UpdateLoss, e);
    LogEventsOcc(epochId, printBatchStep, it, e);
  }

  /** The body of a successful iteration logs exactly what `IterOcc` counts. */
  lemma BodyOcc(cfg: TrainConfig, epochId: int, printBatchStep: int, it: int, e: Event)
    requires cfg.updateFreq != 0 && printBatchStep != 0
    ensures IterationBody(cfg, epochId, printBatchStep, it).0 == None
    ensures Occ(IterationBody(cfg, epochId, printBatchStep, it).1, e) == IterOcc(cfg, epochId, printBatchStep, it, e)
  {
    var pre := PreEvents(cfg, it);
    var w := WindowPart(cfg, it);
    var m := [UpdateMetric, UpdateLoss];
    var l := LogEvents(epochId, printBatchStep, it);
    assert IterationBody(cfg, epochId, printBatchStep, it) == (None, pre + w + m + l);
    OccAppend(pre, w, e);
    OccAppend(pre + w, m, e);
    OccAppend(pre + w + m, l, e);
    PiecesOcc(cfg, epochId, printBatchStep, it, e);
  }

  // ---------------------------------------------------------------------
  // Counting over the iterations of an epoch

  /** The number of window-closing iterations among iter_id = 0 .. n-1. */
  function WindowCount(updateFreq: int, n: nat): nat
    requires updateFreq != 0
  {
    if n == 0 then 0 else WindowCount(updateFreq, n - 1) + (if WindowEnd(updateFreq, n - 1) then 1 else 0)
  }

  lemma FloorDivStep(n: int, d: int)
    requires d >= 1
    ensures FloorDiv(n, d) == FloorDiv(n - 1, d) + (if PyMod(n, d) == 0 then 1 else 0)
  {
    var q, r := FloorDiv(n - 1, d), PyMod(n - 1, d);
    assert n == q * d + r + 1;
    if r + 1 == d {
      assert (q + 1) * d == q * d + d;
      FloorDivUnique(n, d, q + 1);
    } else {
      FloorDivUnique(n, d, q);
    }
  }

  /** A window closes on floor(n / update_freq) of the first n iterations. */
  lemma {:induction false} WindowCountValue(updateFreq: int, n: nat)
    requires updateFreq >= 1
    ensures WindowCount(updateFreq, n) == n / updateFreq
  {
    if n > 0 {
      WindowCountValue(updateFreq, n - 1);
      FloorDivStep(n, updateFreq);
    }
  }

  /** c(0) + ... + c(n - 1). */
  function CountSum(c: int -> int, n: nat): int
  {
    if n == 0 then 0 else CountSum(c, n - 1) + c(n - 1)
  }

  /** How often iteration `it`'s body logs e, as a function of `it`. */
  function IterCount(cfg: TrainConfig, epochId: int, printBatchStep: int, e: Event): int -> int
    requires cfg.updateFreq != 0 && printBatchStep != 0
  {
    it => IterOcc(cfg, epochId, printBatchStep, it, e)
  }

  /** How often the bodies of the first n iterations log e. */
  function BodySum(cfg: TrainConfig, epochId: int, printBatchStep: int, e: Event, n: nat): int
    requires cfg.updateFreq != 0 && printBatchStep != 0
  {
    CountSum(IterCount(cfg, epochId, printBatchStep, e), n)
  }

  lemma {:induction false} BodySumWindow(cfg: TrainConfig, epochId: int, printBatchStep: int, e: Event, n: nat)
    requires cfg.updateFreq != 0 && printBatchStep != 0 && WindowKind(e)
    ensures BodySum(cfg, epochId, printBatchStep, e, n) == if StepsInWindow(cfg, e) then WindowCount(cfg.updateFreq, n) else 0
  {
    if n > 0 {
      BodySumWindow(cfg, epochId, printBatchStep, e, n - 1);
    }
  }

  /** The events every iteration logs exactly once. */
  predicate EveryIteration(cfg: TrainConfig, e: Event)
  {
    e == Forward(cfg.isRec) || e == Backward(cfg.amp, cfg.updateFreq) || e == UpdateMetric || e == UpdateLoss
    || (e == ReshapeLabels && !cfg.useMultilabel)
  }

  lemma {:induction false} BodySumEvery(cfg: TrainConfig, epochId: int, printBatchStep: int, e: Event, n: nat)
    requires cfg.updateFreq != 0 && printBatchStep != 0 && EveryIteration(cfg, e)
    ensures BodySum(cfg, epochId, printBatchStep, e, n) == n
  {
    if n > 0 {
      BodySumEvery(cfg, epochId, printBatchStep, e, n - 1);
    }
  }

  lemma {:induction false} BodySumAbsent(cfg: TrainConfig, epochId: int, printBatchStep: int, e: Event, n: nat)
    requires cfg.updateFreq != 0 && printBatchStep != 0
    requires e == Forward(!cfg.isRec) || e == Backward(!cfg.amp, cfg.updateFreq) || (e == ReshapeLabels && cfg.useMultilabel)
    ensures BodySum(cfg, epochId, printBatchStep, e, n) == 0
  {
    if n > 0 {
      BodySumAbsent(cfg, epochId, printBatchStep, e, n - 1);
    }
  }

  lemma {:induction false} BodySumReset(cfg: TrainConfig, epochId: int, printBatchStep: int, n: nat)
    requires cfg.updateFreq != 0 && printBatchStep != 0
    ensures BodySum(cfg, epochId, printBatchStep, ResetTimeInfo, n) == if n > 5 then 1 else 0
  {
    if n > 0 {
      BodySumReset(cfg, epochId, printBatchStep, n - 1);
    }
  }

  lemma {:induction false} BodySumLog(cfg: TrainConfig, epochId: int, printBatchStep: int, j: int, n: nat)
    requires cfg.updateFreq != 0 && printBatchStep != 0
    ensures BodySum(cfg, epochId, printBatchStep, LogInfo(epochId, j), n)
            == if 0 <= j < n && PyMod(j, printBatchStep) == 0 then 1 else 0
  {
    if n > 0 {
      BodySumLog(cfg, epochId, printBatchStep, j, n - 1);
    }
  }

  /** Nothing in the loop can raise: no `% 0`, and a loader that has batches. */
  predicate Completes(cfg: TrainConfig, printBatchStep: int)
  {
    cfg.updateFreq != 0 && printBatchStep != 0 && cfg.loaderLen >= 1
  }

  lemma LoopUnfold(cfg: TrainConfig, epochId: int, printBatchStep: int, s: EngineState, n: nat)
    requires n > 0 && Loop(cfg, epochId, printBatchStep, s, n - 1).0 == None
    ensures Loop(cfg, epochId, printBatchStep, s, n)
            == Iteration(cfg, epochId, printBatchStep, Loop(cfg, epochId, printBatchStep, s, n - 1).1, n - 1)
  {
  }

  /** One successful iteration: one global step, the fetch's events, then the body's. */
  lemma IterationOcc(cfg: TrainConfig, epochId: int, printBatchStep: int, s: EngineState, it: int, e: Event)
    requires Completes(cfg, printBatchStep)
    ensures var r := Iteration(cfg, epochId, printBatchStep, s, it);
      && r.0 == None
      && r.1.globalStep == s.globalStep + 1
      && r.1.iter == FetchStep(cfg, s).1.iter
      && Occ(r.1.log, e) == Occ(s.log, e) + FetchCount(cfg, s.iter, e) + IterOcc(cfg, epochId, printBatchStep, it, e)
  {
    var f := FetchStep(cfg, s).1;
    var body := IterationBody(cfg, epochId, printBatchStep, it);
    FetchOcc(cfg, s, e);
    BodyOcc(cfg, epochId, printBatchStep, it, e);
    OccAppend(f.log, body.1, e);
  }

  lemma IterationLogOcc(cfg: TrainConfig, epochId: int, printBatchStep: int, s: EngineState, it: int, e: Event)
    requires Completes(cfg, printBatchStep) && !IsFetchEvent(e)
    ensures Iteration(cfg, epochId, printBatchStep, s, it).0 == None
    ensures Occ(Iteration(cfg, epochId, printBatchStep, s, it).1.log, e) == Occ(s.log, e) + IterOcc(cfg, epochId, printBatchStep, it, e)
  {
    IterationOcc(cfg, epochId, printBatchStep, s, it, e);
  }

  lemma IterationState(cfg: TrainConfig, epochId: int, printBatchStep: int, s: EngineState, it: int)
    requires Completes(cfg, printBatchStep)
    ensures var r := Iteration(cfg, epochId, printBatchStep, s, it);
      && r.0 == None
      && r.1.globalStep == s.globalStep + 1
      && r.1.iter == FetchStep(cfg, s).1.iter
  {
    BodyOcc(cfg, epochId, printBatchStep, it, FetchBatch);
  }

  lemma IterationFetchOcc(cfg: TrainConfig, epochId: int, printBatchStep: int, s: EngineState, it: int, e: Event)
    requires Completes(cfg, printBatchStep) && IsFetchEvent(e)
    ensures Occ(Iteration(cfg, epochId, printBatchStep, s, it).1.log, e) == Occ(s.log, e) + FetchCount(cfg, s.iter, e)
  {
    IterationOcc(cfg, epochId, printBatchStep, s, it, e);
  }

  /** Every pass of `step` succeeds, takes one global step and consumes one batch of a pass of `loaderLen`. */
  ghost predicate StepRuns(step: (EngineState, int) -> (Option<PyError>, EngineState), loaderLen: nat)
  {
    forall x: EngineState, it: int ::
      && step(x, it).0 == None
      && step(x, it).1.globalStep == x.globalStep + 1
      && step(x, it).1.iter.present && 1 <= step(x, it).1.iter.consumed <= loaderLen
      && Occ(step(x, it).1.log, FetchBatch) == Occ(x.log, FetchBatch) + 1
  }

  /** A pass of `step` that still has a batch takes the next one and renews nothing. */
  ghost predicate StepWithinPass(step: (EngineState, int) -> (Option<PyError>, EngineState), loaderLen: nat)
  {
    forall x: EngineState, it: int :: x.iter.present && x.iter.consumed < loaderLen ==>
      && step(x, it).1.iter == IterState(true, x.iter.consumed + 1)
      && Occ(step(x, it).1.log, CreateIterator) == Occ(x.log, CreateIterator)
      && Occ(step(x, it).1.log, DaliReset) == Occ(x.log, DaliReset)
  }

  /** Pass `it` of `step` logs e exactly c(it) times. */
  ghost predicate StepCounts(step: (EngineState, int) -> (Option<PyError>, EngineState), e: Event, c: int -> int)
  {
    forall x: EngineState, it: int :: Occ(step(x, it).1.log, e) == Occ(x.log, e) + c(it)
  }

  /** The training pass has these properties when nothing can raise. */
  lemma IterStepRuns(cfg: TrainConfig, epochId: int, printBatchStep: int)
    requires Completes(cfg, printBatchStep)
    ensures StepRuns(IterStep(cfg, epochId, printBatchStep), cfg.loaderLen)
    ensures StepWithinPass(IterStep(cfg, epochId, printBatchStep), cfg.loaderLen)
  {
    var step := IterStep(cfg, epochId, printBatchStep);
    forall x: EngineState, it: int
      ensures step(x, it).0 == None
      ensures step(x, it).1.globalStep == x.globalStep + 1
      ensures step(x, it).1.iter.present && 1 <= step(x, it).1.iter.consumed <= cfg.loaderLen
      ensures Occ(step(x, it).1.log, FetchBatch) == Occ(x.log, FetchBatch) + 1
      ensures x.iter.present && x.iter.consumed < cfg.loaderLen ==>
        && step(x, it).1.iter == IterState(true, x.iter.consumed + 1)
        && Occ(step(x, it).1.log, CreateIterator) == Occ(x.log, CreateIterator)
        && Occ(step(x, it).1.log, DaliReset) == Occ(x.log, DaliReset)
    {
      assert step(x, it) == Iteration(cfg, epochId, printBatchStep, x, it);
      IterationState(cfg, epochId, printBatchStep, x, it);
      FetchStepFacts(cfg, x, FetchStep(cfg, x));
      IterationFetchOcc(cfg, epochId, printBatchStep, x, it, FetchBatch);
      IterationFetchOcc(cfg, epochId, printBatchStep, x, it, CreateIterator);
      IterationFetchOcc(cfg, epochId, printBatchStep, x, it, DaliReset);
    }
  }

  /** ... and logs every other event as its body does. */
  lemma IterStepBody(cfg: TrainConfig, epochId: int, printBatchStep: int, e: Event)
    requires Completes(cfg, printBatchStep) && !IsFetchEvent(e)
    ensures StepCounts(IterStep(cfg, epochId, printBatchStep), e, IterCount(cfg, epochId, printBatchStep, e))
  {
    var step := IterStep(cfg, epochId, printBatchStep);
    var c := IterCount(cfg, epochId, printBatchStep, e);
    forall x: EngineState, it: int
      ensures Occ(step(x, it).1.log, e) == Occ(x.log, e) + c(it)
    {
      assert step(x, it) == Iteration(cfg, epochId, printBatchStep, x, it);
      assert c(it) == IterOcc(cfg, epochId, printBatchStep, it, e);
      IterationLogOcc(cfg, epochId, printBatchStep, x, it, e);
    }
  }

  /** A loop whose passes all succeed runs to completion, one global step and one batch per pass, leaving a batch in hand. */
  lemma {:induction false} LoopRuns(step: (EngineState, int) -> (Option<PyError>, EngineState), loaderLen: nat,
                                    s: EngineState, n: nat)
    requires StepRuns(step, loaderLen)
    ensures var r := RunLoop(step, s, n);
      && r.0 == None
      && r.1.globalStep == s.globalStep + n
      && Occ(r.1.log, FetchBatch) == Occ(s.log, FetchBatch) + n
      && (n >= 1 ==> r.1.iter.present && 1 <= r.1.iter.consumed <= loaderLen)
  {
    if n > 0 {
      LoopRuns(step, loaderLen, s, n - 1);
    }
  }

  /** A loop whose passes all succeed and log e c(it) times in pass `it` logs e c(0) + ... + c(n - 1) times. */
  lemma {:induction false} LoopOcc(step: (EngineState, int) -> (Option<PyError>, EngineState), loaderLen: nat,
                                   s: EngineState, n: nat, e: Event, c: int -> int)
    requires StepRuns(step, loaderLen) && StepCounts(step, e, c)
    ensures Occ(RunLoop(step, s, n).1.log, e) == Occ(s.log, e) + CountSum(c, n)
  {
    if n > 0 {
      LoopOcc(step, loaderLen, s, n - 1, e, c);
      LoopRuns(step, loaderLen, s, n - 1);
    }
  }

  /** While the current pass lasts, the loop takes the next batches of that pass and renews nothing. */
  lemma {:induction false} LoopWithinPass(step: (EngineState, int) -> (Option<PyError>, EngineState), loaderLen: nat,
                                          s: EngineState, n: nat)
    requires StepRuns(step, loaderLen) && StepWithinPass(step, loaderLen)
    requires s.iter.present && s.iter.consumed + n <= loaderLen
    ensures var r := RunLoop(step, s, n).1;
      && r.iter == IterState(true, s.iter.consumed + n)
      && Occ(r.log, CreateIterator) == Occ(s.log, CreateIterator)
      && Occ(r.log, DaliReset) == Occ(s.log, DaliReset)
  {
    if n > 0 {
      LoopWithinPass(step, loaderLen, s, n - 1);
      LoopRuns(step, loaderLen, s, n - 1);
    }
  }

  // ---------------------------------------------------------------------
  // What an epoch does

  /** Epoch-end scheduler steps: those with `by_epoch` that are not ReduceOnPlateau, once each. */
  predicate StepsAtEpochEnd(cfg: TrainConfig, e: Event)
  {
    e.SchedulerStep? && e.sch < |cfg.schedulers| && Selected(cfg.schedulers[e.sch], true)
  }

  lemma EpochUnfold(cfg: TrainConfig, epochId: int, printBatchStep: int, s: EngineState)
    requires Completes(cfg, printBatchStep)
    ensures var l := Loop(cfg, epochId, printBatchStep, EpochStart(s), Iterations(cfg));
      && l.0 == None
      && Epoch(cfg, epochId, printBatchStep, s)
         == (None, l.1.(log := l.1.log + SchedulerSteps(cfg.schedulers, |cfg.schedulers|, true)))
  {
    IterStepRuns(cfg, epochId, printBatchStep);
    LoopRuns(IterStep(cfg, epochId, printBatchStep), cfg.loaderLen, EpochStart(s), Iterations(cfg));
  }

  /** An epoch in which nothing raises takes exactly `iter_per_epoch` global steps, one batch each. */
  lemma EpochRuns(cfg: TrainConfig, epochId: int, printBatchStep: int, s: EngineState)
    requires Completes(cfg, printBatchStep)
    ensures var r := Epoch(cfg, epochId, printBatchStep, s);
      && r.0 == None
      && r.1.globalStep == s.globalStep + Iterations(cfg)
      && Occ(r.1.log, FetchBatch) == Occ(s.log, FetchBatch) + Iterations(cfg)
      && (Iterations(cfg) >= 1 ==> r.1.iter.present && 1 <= r.1.iter.consumed <= cfg.loaderLen)
  {
    var n := Iterations(cfg);
    var s0 := EpochStart(s);
    EpochUnfold(cfg, epochId, printBatchStep, s);
    IterStepRuns(cfg, epochId, printBatchStep);
    LoopRuns(IterStep(cfg, epochId, printBatchStep), cfg.loaderLen, s0, n);
    var l := Loop(cfg, epochId, printBatchStep, s0, n).1;
    var tail := SchedulerSteps(cfg.schedulers, |cfg.schedulers|, true);
    SchedulerStepsOcc(cfg.schedulers, |cfg.schedulers|, true, FetchBatch);
    OccAppend(l.log, tail, FetchBatch);
    OccSingle(CreateIterator, FetchBatch);
    OccAppend(s.log, [CreateIterator], FetchBatch);
  }

  /** Every event other than a fetch event is logged by an iteration body or by the epoch-end scheduler loop. */
  lemma EpochOcc(cfg: TrainConfig, epochId: int, printBatchStep: int, s: EngineState, e: Event)
    requires Completes(cfg, printBatchStep) && !IsFetchEvent(e)
    ensures Occ(Epoch(cfg, epochId, printBatchStep, s).1.log, e)
            == Occ(s.log, e) + BodySum(cfg, epochId, printBatchStep, e, Iterations(cfg))
               + (if StepsAtEpochEnd(cfg, e) then 1 else 0)
  {
    var n := Iterations(cfg);
    var s0 := EpochStart(s);
    EpochUnfold(cfg, epochId, printBatchStep, s);
    IterStepRuns(cfg, epochId, printBatchStep);
    IterStepBody(cfg, epochId, printBatchStep, e);
    LoopOcc(IterStep(cfg, epochId, printBatchStep), cfg.loaderLen, s0, n, e, IterCount(cfg, epochId, printBatchStep, e));
    var l := Loop(cfg, epochId, printBatchStep, s0, n).1;
    var tail := SchedulerSteps(cfg.schedulers, |cfg.schedulers|, true);
    SchedulerStepsOcc(cfg.schedulers, |cfg.schedulers|, true, e);
    OccAppend(l.log, tail, e);
    OccSingle(CreateIterator, e);
    OccAppend(s.log, [CreateIterator], e);
    assert Occ(s0.log, e) == Occ(s.log, e);
  }

  /**
   * Every optimiser steps once per accumulation window, floor(iter_per_epoch
   * / update_freq) times in the epoch, through the AMP scaler exactly when AMP
   * is on; there is no optimiser beyond `len(engine.optimizer)`.
   */
  lemma EpochOptimizerSteps(cfg: TrainConfig, epochId: int, printBatchStep: int, s: EngineState, i: nat, viaScaler: bool)
    requires Completes(cfg, printBatchStep) && cfg.updateFreq >= 1
    ensures Occ(Epoch(cfg, epochId, printBatchStep, s).1.log, OptimizerStep(i, viaScaler))
            == Occ(s.log, OptimizerStep(i, viaScaler))
               + (if i < cfg.numOptimizers && viaScaler == cfg.amp then Iterations(cfg) / cfg.updateFreq else 0)
  {
    var e := OptimizerStep(i, viaScaler);
    EpochOcc(cfg, epochId, printBatchStep, s, e);
    BodySumWindow(cfg, epochId, printBatchStep, e, Iterations(cfg));
    WindowCountValue(cfg.updateFreq, Iterations(cfg));
  }

  /** Every optimiser's gradient is cleared once per window, and no other gradient is. */
  lemma EpochClearGrads(cfg: TrainConfig, epochId: int, printBatchStep: int, s: EngineState, i: nat)
    requires Completes(cfg, printBatchStep) && cfg.updateFreq >= 1
    ensures Occ(Epoch(cfg, epochId, printBatchStep, s).1.log, ClearGrad(i))
            == Occ(s.log, ClearGrad(i)) + (if i < cfg.numOptimizers then Iterations(cfg) / cfg.updateFreq else 0)
  {
    EpochOcc(cfg, epochId, printBatchStep, s, ClearGrad(i));
    BodySumWindow(cfg, epochId, printBatchStep, ClearGrad(i), Iterations(cfg));
    WindowCountValue(cfg.updateFreq, Iterations(cfg));
  }

  /**
   * A scheduler without `by_epoch` steps once per window and never at the end
   * of the epoch; one with `by_epoch` steps exactly once, at the end, unless it
   * is a ReduceOnPlateau, which this function never steps.
   */
  lemma EpochSchedulerSteps(cfg: TrainConfig, epochId: int, printBatchStep: int, s: EngineState, i: nat)
    requires Completes(cfg, printBatchStep) && cfg.updateFreq >= 1 && i < |cfg.schedulers|
    ensures var sch := cfg.schedulers[i];
      Occ(Epoch(cfg, epochId, printBatchStep, s).1.log, SchedulerStep(i))
      == Occ(s.log, SchedulerStep(i))
         + (if !sch.byEpoch then Iterations(cfg) / cfg.updateFreq
            else if sch.typeName != "ReduceOnPlateau" then 1
            else 0)
  {
    EpochOcc(cfg, epochId, printBatchStep, s, SchedulerStep(i));
    BodySumWindow(cfg, epochId, printBatchStep, SchedulerStep(i), Iterations(cfg));
    WindowCountValue(cfg.updateFreq, Iterations(cfg));
  }

  /** The EMA is updated once per window when enabled, and never otherwise. */
  lemma EpochEma(cfg: TrainConfig, epochId: int, printBatchStep: int, s: EngineState)
    requires Completes(cfg, printBatchStep) && cfg.updateFreq >= 1
    ensures Occ(Epoch(cfg, epochId, printBatchStep, s).1.log, EmaUpdate)
            == Occ(s.log, EmaUpdate) + (if cfg.ema then Iterations(cfg) / cfg.updateFreq else 0)
  {
    EpochOcc(cfg, epochId, printBatchStep, s, EmaUpdate);
    BodySumWindow(cfg, epochId, printBatchStep, EmaUpdate, Iterations(cfg));
    WindowCountValue(cfg.updateFreq, Iterations(cfg));
  }

  /**
   * Every iteration runs one forward pass (with the label exactly when
   * `is_rec`) and one backward pass of loss / update_freq (through the scaler
   * exactly under AMP), and updates the metric and loss meters.
   */
  lemma EpochEveryIteration(cfg: TrainConfig, epochId: int, printBatchStep: int, s: EngineState, e: Event)
    requires Completes(cfg, printBatchStep) && EveryIteration(cfg, e)
    ensures Occ(Epoch(cfg, epochId, printBatchStep, s).1.log, e) == Occ(s.log, e) + Iterations(cfg)
  {
    EpochOcc(cfg, epochId, printBatchStep, s, e);
    BodySumEvery(cfg, epochId, printBatchStep, e, Iterations(cfg));
  }

  /** The forward pass never takes the other form, and labels are never reshaped under `use_multilabel`. */
  lemma EpochNeverOtherwise(cfg: TrainConfig, epochId: int, printBatchStep: int, s: EngineState, e: Event)
    requires Completes(cfg, printBatchStep)
    requires e == Forward(!cfg.isRec) || e == Backward(!cfg.amp, cfg.updateFreq) || (e == ReshapeLabels && cfg.useMultilabel)
    ensures Occ(Epoch(cfg, epochId, printBatchStep, s).1.log, e) == Occ(s.log, e)
  {
    EpochOcc(cfg, epochId, printBatchStep, s, e);
    BodySumAbsent(cfg, epochId, printBatchStep, e, Iterations(cfg));
  }

  /**
   * The gradients of a trailing partial window are neither stepped nor
   * cleared: the backward passes exceed update_freq times the clears by
   * iter_per_epoch mod update_freq.
   */
  lemma EpochTrailingWindow(cfg: TrainConfig, epochId: int, printBatchStep: int, s: EngineState)
    requires Completes(cfg, printBatchStep) && cfg.updateFreq >= 1 && cfg.numOptimizers >= 1
    ensures var log := Epoch(cfg, epochId, printBatchStep, s).1.log;
      var backward := Occ(log, Backward(cfg.amp, cfg.updateFreq)) - Occ(s.log, Backward(cfg.amp, cfg.updateFreq));
      var cleared := Occ(log, ClearGrad(0)) - Occ(s.log, ClearGrad(0));
      backward == cfg.updateFreq * cleared + Iterations(cfg) % cfg.updateFreq
  {
    var log := Epoch(cfg, epochId, printBatchStep, s).1.log;
    EpochEveryIteration(cfg, epochId, printBatchStep, s, Backward(cfg.amp, cfg.updateFreq));
    EpochClearGrads(cfg, epochId, printBatchStep, s, 0);
    var n := Iterations(cfg);
    assert Occ(log, Backward(cfg.amp, cfg.updateFreq)) - Occ(s.log, Backward(cfg.amp, cfg.updateFreq)) == n;
    assert Occ(log, ClearGrad(0)) - Occ(s.log, ClearGrad(0)) == n / cfg.updateFreq;
    DivModSplit(n, cfg.updateFreq);
  }

  lemma DivModSplit(n: int, d: int)
    requires d >= 1
    ensures n == d * (n / d) + n % d
  {
  }

  /** The `time_info` meters are reset once, at iter_id 5, when the epoch is long enough to reach it. */
  lemma EpochTimeReset(cfg: TrainConfig, epochId: int, printBatchStep: int, s: EngineState)
    requires Completes(cfg, printBatchStep)
    ensures Occ(Epoch(cfg, epochId, printBatchStep, s).1.log, ResetTimeInfo)
            == Occ(s.log, ResetTimeInfo) + (if Iterations(cfg) > 5 then 1 else 0)
  {
    EpochOcc(cfg, epochId, printBatchStep, s, ResetTimeInfo);
    BodySumReset(cfg, epochId, printBatchStep, Iterations(cfg));
  }

  /** `log_info` runs for iteration j exactly when j is an iteration of the epoch and a multiple of print_batch_step. */
  lemma EpochLogInfo(cfg: TrainConfig, epochId: int, printBatchStep: int, s: EngineState, j: int)
    requires Completes(cfg, printBatchStep)
    ensures Occ(Epoch(cfg, epochId, printBatchStep, s).1.log, LogInfo(epochId, j))
            == Occ(s.log, LogInfo(epochId, j))
               + (if 0 <= j < Iterations(cfg) && PyMod(j, printBatchStep) == 0 then 1 else 0)
  {
    EpochOcc(cfg, epochId, printBatchStep, s, LogInfo(epochId, j));
    BodySumLog(cfg, epochId, printBatchStep, j, Iterations(cfg));
  }

  /**
   * The iterator is created at the start only when the engine has none; while
   * the current pass has batches left no iterator is created and no DALI
   * reset happens, and the epoch takes the next batches of that pass.
   */
  lemma EpochIterator(cfg: TrainConfig, epochId: int, printBatchStep: int, s: EngineState)
    requires Completes(cfg, printBatchStep)
    requires EpochStart(s).iter.consumed + Iterations(cfg) <= cfg.loaderLen
    ensures var r := Epoch(cfg, epochId, printBatchStep, s).1;
      && r.iter == IterState(true, EpochStart(s).iter.consumed + Iterations(cfg))
      && Occ(r.log, CreateIterator) == Occ(s.log, CreateIterator) + (if s.iter.present then 0 else 1)
      && Occ(r.log, DaliReset) == Occ(s.log, DaliReset)
  {
    var n := Iterations(cfg);
    var s0 := EpochStart(s);
    EpochUnfold(cfg, epochId, printBatchStep, s);
    IterStepRuns(cfg, epochId, printBatchStep);
    LoopWithinPass(IterStep(cfg, epochId, printBatchStep), cfg.loaderLen, s0, n);
    var l := Loop(cfg, epochId, printBatchStep, s0, n).1;
    var tail := SchedulerSteps(cfg.schedulers, |cfg.schedulers|, true);
    SchedulerStepsOcc(cfg.schedulers, |cfg.schedulers|, true, CreateIterator);
    SchedulerStepsOcc(cfg.schedulers, |cfg.schedulers|, true, DaliReset);
    OccAppend(l.log, tail, CreateIterator);
    OccAppend(l.log, tail, DaliReset);
    OccSingle(CreateIterator, CreateIterator);
    OccSingle(CreateIterator, DaliReset);
    OccAppend(s.log, [CreateIterator], CreateIterator);
    OccAppend(s.log, [CreateIterator], DaliReset);
  }

  /**
   * An epoch of at least one iteration stops in its first iteration when the
   * loader has no batches (StopIteration, before `global_step` moves), or when
   * update_freq or print_batch_step is zero (ZeroDivisionError, after it
   * moved once).
   */
  lemma EpochStops(cfg: TrainConfig, epochId: int, printBatchStep: int, s: EngineState)
    requires Iterations(cfg) >= 1
    ensures var r := Epoch(cfg, epochId, printBatchStep, s);
      && (cfg.loaderLen == 0 ==> r.0 == Some(StopIteration) && r.1.globalStep == s.globalStep)
      && (cfg.loaderLen >= 1 && (cfg.updateFreq == 0 || printBatchStep == 0)
          ==> r.0 == Some(ZeroDivisionError) && r.1.globalStep == s.globalStep + 1)
  {
    var s0 := EpochStart(s);
    LoopUnfold(cfg, epochId, printBatchStep, s0, 1);
    var first := Iteration(cfg, epochId, printBatchStep, s0, 0);
    FetchStepFacts(cfg, s0, FetchStep(cfg, s0));
    if cfg.loaderLen == 0 || cfg.updateFreq == 0 || printBatchStep == 0 {
      assert first.0.Some?;
      LoopStopped(cfg, epochId, printBatchStep, s0, 1, Iterations(cfg));
    }
  }
}
