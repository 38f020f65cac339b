/** The training loop of the main model: a state machine over (epoch, batch
    index) whose network and optimizer are oracles. One `Trainer` object
    holds what the loop changes: the parameters, the optimizer state, the
    module's train/eval flag, the number of scheduler steps, the log, sample
    and validation records, and the checkpoint files written so far. */
module Training {
  import opened Wrappers
  import opened Schedule
  import opened Losses

  /** The model's parameters; only the oracles look inside. */
  type Params = seq<real>

  /** One batch of a data loader. */
  type Batch = seq<real>

  /** The optimizer's `state_dict()`: its moment buffers and the learning rate
      of its parameter groups. */
  datatype OptState = OptState(moments: seq<real>, lr: real)

  /** The `mode` argument of the model's forward call. */
  datatype Mode = TrainMode | ValMode

  /** The model and the optimizer as oracles. `forward(params, training, mode,
      batch)` is one call of the model and returns its `loss_dict`;
      `step(params, moments, lr, training, objective, batch)` is `zero_grad`,
      `backward` of `objective` applied to the batch's `loss_dict`, and the
      AdamW `step`, and returns the new parameters and moment buffers. */
  datatype Network = Network(
    forward: (Params, bool, Mode, Batch) -> Breakdown,
    step: (Params, seq<real>, real, bool, Breakdown -> real, Batch) -> (Params, seq<real>))

  /** The options the loop reads. */
  datatype Config = Config(
    initEpoch: nat,
    nEpochs: nat,
    cad: Cadences,
    weights: LossWeights,
    display: DisplayWeights)

  /** The factor of the exponential learning-rate schedule. */
  const Gamma: real := 0.997

  /** The learning rate `lr` after `k` scheduler steps: `lr * Gamma^k`. */
  function Decayed(lr: real, k: nat): real {
    if k == 0 then lr else Decayed(lr, k - 1) * Gamma
  }

  /** The epoch the loop stops before: `range(init_epoch, n_epochs)` is empty
      when `n_epochs <= init_epoch`. */
  function StopEpoch(cfg: Config): nat {
    if cfg.nEpochs > cfg.initEpoch then cfg.nEpochs else cfg.initEpoch
  }

  /** A checkpoint file's payload: `{model, opt, n_epoch, n_iter}`. */
  datatype Checkpoint = Checkpoint(model: Params, opt: OptState, nEpoch: nat, nIter: nat)

  /** One line of the training log. */
  datatype LogRecord = LogRecord(
    epoch: nat,
    nEpochs: nat,
    idx: nat,
    numBatches: nat,
    report: Report,
    lr: real,
    step: nat)

  /** One saved sample image, named after its epoch and step. */
  datatype SampleRecord = SampleRecord(epoch: nat, step: nat)

  /** One validation event: where it happened and the averaged losses. */
  datatype ValRecord = ValRecord(epoch: nat, idx: nat, step: nat, losses: ValLosses)

  datatype RunError =
    | CheckpointMissing(path: string)   // torch.load of a path that holds no checkpoint
    | EmptyValLoader                    // the averaging divides by len(val_loader) == 0
    | StepUndefined(epoch: nat)         // batches_done read before any batch ran

  datatype Outcome = Done | Failed(error: RunError)

  function LogSteps(log: seq<LogRecord>): seq<nat> {
    if log == [] then [] else LogSteps(log[..|log| - 1]) + [log[|log| - 1].step]
  }

  function SampleSteps(samples: seq<SampleRecord>): seq<nat> {
    if samples == [] then [] else SampleSteps(samples[..|samples| - 1]) + [samples[|samples| - 1].step]
  }

  function ValSteps(vals: seq<ValRecord>): seq<nat> {
    if vals == [] then [] else ValSteps(vals[..|vals| - 1]) + [vals[|vals| - 1].step]
  }

  /** The breakdowns of one pass over the validation loader, in eval mode. */
  function ValBreakdowns(net: Network, params: Params, batches: seq<Batch>): (bs: seq<Breakdown>)
    ensures |bs| == |batches|
  {
    seq(|batches|, i requires 0 <= i < |batches| => net.forward(params, false, ValMode, batches[i]))
  }

  /** The `+=` pass over the validation loader followed by the `/=` pass.
      An empty loader is the division by zero of the second pass. */
  method ValidationLosses(net: Network, params: Params, valBatches: seq<Batch>)
    returns (r: Result<ValLosses, RunError>)
    ensures r.Failure? <==> |valBatches| == 0
    ensures r.Failure? ==> r.error == EmptyValLoader
    ensures r.Success? ==> |valBatches| > 0 && r.value == Mean(ValBreakdowns(net, params, valBatches))
  {
    ghost var bs := ValBreakdowns(net, params, valBatches);
    var acc := ZeroVal;
    var i := 0;
    while i < |valBatches|
      invariant 0 <= i <= |valBatches|
      invariant acc == SumOf(bs[..i])
    {
      var b := net.forward(params, false, ValMode, valBatches[i]);
      assert bs[..i + 1][..i] == bs[..i];
      acc := Accumulate(acc, b);
      i := i + 1;
    }
    assert bs[..i] == bs;
    if |valBatches| == 0 {
      return Failure(EmptyValLoader);
    }
    r := Success(Divide(acc, |valBatches|));
  }

  // ---------------------------------------------------------------------
  // The run as a fold over the batches

  /** The part of the trainer the two oracles read and write: the
      parameters, the optimizer's moment buffers, the train/eval flag and the
      learning rate. */
  datatype Point = Point(params: Params, moments: seq<real>, training: bool, lr: real)

  /** What a run works on: the network, the options, and the batches of the
      training and validation loaders, which every epoch goes through in the
      same order. */
  datatype Loop = Loop(net: Network, cfg: Config, batches: seq<Batch>, valBatches: seq<Batch>)

  /** One pass of the batch loop at step `step`: the optimizer step on the
      objective of the options' weights, and eval mode from a validation step
      on. The learning rate stays. */
  function AfterBatch(loop: Loop, pt: Point, step: nat, batch: Batch): Point {
    var u := loop.net.step(pt.params, pt.moments, pt.lr, pt.training, ObjectiveOf(loop.cfg.weights), batch);
    Point(u.0, u.1, pt.training && !ValDue(step, loop.cfg.cad.freqVal), pt.lr)
  }

  /** The point after the first `idx` batches of epoch `epoch`, which started
      at `start`. */
  function InEpoch(loop: Loop, epoch: nat, start: Point, idx: nat): Point
    requires idx <= |loop.batches|
  {
    if idx == 0 then start
    else
      AfterBatch(loop, InEpoch(loop, epoch, start, idx - 1),
                 StepOf(epoch, |loop.batches|, idx - 1), loop.batches[idx - 1])
  }

  /** The point after epoch `epoch` from `start`: every batch of the loader,
      then one scheduler step. */
  function EpochEnd(loop: Loop, epoch: nat, start: Point): Point {
    var pt := InEpoch(loop, epoch, start, |loop.batches|);
    pt.(lr := pt.lr * Gamma)
  }

  /** The point at the start of epoch `epoch` of a run that entered epoch
      `init` at `origin`. */
  function EpochStart(loop: Loop, origin: Point, init: nat, epoch: nat): Point
    decreases epoch
  {
    if epoch <= init then origin
    else EpochEnd(loop, epoch - 1, EpochStart(loop, origin, init, epoch - 1))
  }

  /** The payload `torch.save` writes at the end of epoch `epoch` of `n`
      batches when the trainer is at `pt`. */
  function Saved(pt: Point, epoch: nat, n: nat): Checkpoint {
    Checkpoint(pt.params, OptState(pt.moments, pt.lr), epoch, StepsBefore(epoch + 1, n))
  }

  /** The batches of an epoch never change the learning rate. */
  lemma {:induction false} InEpochKeepsRate(loop: Loop, epoch: nat, start: Point, idx: nat)
    requires idx <= |loop.batches|
    ensures InEpoch(loop, epoch, start, idx).lr == start.lr
  {
    if idx > 0 {
      InEpochKeepsRate(loop, epoch, start, idx - 1);
    }
  }

  /** Epoch `epoch` of a run that entered epoch `init` at learning rate
      `lr` runs at `lr * Gamma^(epoch - init)`. */
  lemma {:induction false} EpochStartRate(loop: Loop, origin: Point, init: nat, epoch: nat)
    requires init <= epoch
    ensures EpochStart(loop, origin, init, epoch).lr == Decayed(origin.lr, epoch - init)
    decreases epoch
  {
    if epoch > init {
      EpochStartRate(loop, origin, init, epoch - 1);
      InEpochKeepsRate(loop, epoch - 1, EpochStart(loop, origin, init, epoch - 1), |loop.batches|);
    }
  }

  /** The module stays in train mode through the batches of an epoch
      exactly as long as no validation has fallen due among their steps. */
  lemma {:induction false} InEpochMode(loop: Loop, epoch: nat, start: Point, idx: nat)
    requires idx <= |loop.batches|
    ensures var first := StepOf(epoch, |loop.batches|, 0);
      InEpoch(loop, epoch, start, idx).training ==
      (start.training && DueSteps(first, first + idx, Validate, loop.cfg.cad) == [])
  {
    var first := StepOf(epoch, |loop.batches|, 0);
    if idx > 0 {
      InEpochMode(loop, epoch, start, idx - 1);
      var before := DueSteps(first, first + idx - 1, Validate, loop.cfg.cad);
      assert DueSteps(first, first + idx, Validate, loop.cfg.cad) ==
        before + (if ValDue(first + idx - 1, loop.cfg.cad.freqVal) then [first + idx - 1] else []);
    }
  }

  // ---------------------------------------------------------------------
  // Snapshots of the trainer and the records they hold

  /** What a stretch of the run is measured by: the trainer's traces,
      parameters, optimizer state, flags, counters and checkpoint directory
      at one moment. */
  datatype Snapshot = Snapshot(
    trainLog: seq<LogRecord>,
    samples: seq<SampleRecord>,
    valLog: seq<ValRecord>,
    params: Params,
    moments: seq<real>,
    training: bool,
    decays: nat,
    lr: real,
    store: map<string, Checkpoint>)

  function PointOf(s: Snapshot): Point {
    Point(s.params, s.moments, s.training, s.lr)
  }

  /** Log record `r` was written by a batch of epoch `epoch`, which started
      at `start`: it shows the batch's position and step, the learning rate
      the batch ran at, and the report of the losses of the forward call
      made before that batch's optimizer step. */
  ghost predicate LogFitsEpoch(loop: Loop, epoch: nat, start: Point, r: LogRecord) {
    var n := |loop.batches|;
    && r.epoch == epoch
    && r.nEpochs == loop.cfg.nEpochs
    && r.numBatches == n
    && r.idx < n
    && r.step == StepOf(epoch, n, r.idx)
    && var pt := InEpoch(loop, epoch, start, r.idx);
       && r.lr == pt.lr
       && r.report == MakeReport(loop.net.forward(pt.params, pt.training, TrainMode, loop.batches[r.idx]),
                                 loop.cfg.weights, loop.cfg.display)
  }

  /** Sample record `r` was saved by a batch of epoch `epoch`. */
  ghost predicate SampleFitsEpoch(loop: Loop, epoch: nat, r: SampleRecord) {
    var n := |loop.batches|;
    r.epoch == epoch && StepOf(epoch, n, 0) <= r.step < StepOf(epoch, n, n)
  }

  /** Validation record `r` was written by a batch of epoch `epoch`, which
      started at `start`: it holds the mean losses of a non-empty validation
      loader under the parameters that batch's optimizer step produced. */
  ghost predicate ValFitsEpoch(loop: Loop, epoch: nat, start: Point, r: ValRecord) {
    var n := |loop.batches|;
    && r.epoch == epoch
    && r.idx < n
    && r.step == StepOf(epoch, n, r.idx)
    && |loop.valBatches| > 0
    && r.losses == Mean(ValBreakdowns(loop.net, InEpoch(loop, epoch, start, r.idx + 1).params, loop.valBatches))
  }

  /** From `log0` to `log` the training log only grew, and every new line
      was written by a batch of epoch `epoch`, which started at `start`. */
  ghost predicate LogsFitEpoch(loop: Loop, epoch: nat, start: Point, log0: seq<LogRecord>, log: seq<LogRecord>) {
    log0 <= log && forall i {:trigger LogFitsEpoch(loop, epoch, start, log[i])} :: |log0| <= i < |log| ==> LogFitsEpoch(loop, epoch, start, log[i])
  }

  ghost predicate SamplesFitEpoch(loop: Loop, epoch: nat, samples0: seq<SampleRecord>, samples: seq<SampleRecord>) {
    samples0 <= samples && forall i {:trigger SampleFitsEpoch(loop, epoch, samples[i])} :: |samples0| <= i < |samples| ==> SampleFitsEpoch(loop, epoch, samples[i])
  }

  ghost predicate ValsFitEpoch(loop: Loop, epoch: nat, start: Point, vals0: seq<ValRecord>, vals: seq<ValRecord>) {
    vals0 <= vals && forall i {:trigger ValFitsEpoch(loop, epoch, start, vals[i])} :: |vals0| <= i < |vals| ==> ValFitsEpoch(loop, epoch, start, vals[i])
  }

  /** From `s0` to `s` the records only grew, and every new one was written
      by a batch of epoch `epoch`, which started at `start`. */
  ghost predicate EpochRecords(loop: Loop, epoch: nat, start: Point, s0: Snapshot, s: Snapshot) {
    && LogsFitEpoch(loop, epoch, start, s0.trainLog, s.trainLog)
    && SamplesFitEpoch(loop, epoch, s0.samples, s.samples)
    && ValsFitEpoch(loop, epoch, start, s0.valLog, s.valLog)
  }

  /** A log record of one of the epochs `[init, hi)` of a run that entered
      epoch `init` at `origin`. */
  ghost predicate LogFits(loop: Loop, origin: Point, init: nat, hi: nat, r: LogRecord) {
    init <= r.epoch < hi && LogFitsEpoch(loop, r.epoch, EpochStart(loop, origin, init, r.epoch), r)
  }

  ghost predicate SampleFits(loop: Loop, init: nat, hi: nat, r: SampleRecord) {
    init <= r.epoch < hi && SampleFitsEpoch(loop, r.epoch, r)
  }

  ghost predicate ValFits(loop: Loop, origin: Point, init: nat, hi: nat, r: ValRecord) {
    init <= r.epoch < hi && ValFitsEpoch(loop, r.epoch, EpochStart(loop, origin, init, r.epoch), r)
  }

  ghost predicate LogsFit(loop: Loop, origin: Point, init: nat, hi: nat, log0: seq<LogRecord>, log: seq<LogRecord>) {
    log0 <= log && forall i {:trigger LogFits(loop, origin, init, hi, log[i])} :: |log0| <= i < |log| ==> LogFits(loop, origin, init, hi, log[i])
  }

  ghost predicate SamplesFit(loop: Loop, init: nat, hi: nat, samples0: seq<SampleRecord>, samples: seq<SampleRecord>) {
    samples0 <= samples && forall i {:trigger SampleFits(loop, init, hi, samples[i])} :: |samples0| <= i < |samples| ==> SampleFits(loop, init, hi, samples[i])
  }

  ghost predicate ValsFit(loop: Loop, origin: Point, init: nat, hi: nat, vals0: seq<ValRecord>, vals: seq<ValRecord>) {
    vals0 <= vals && forall i {:trigger ValFits(loop, origin, init, hi, vals[i])} :: |vals0| <= i < |vals| ==> ValFits(loop, origin, init, hi, vals[i])
  }

  /** From `s0` to `s` the records only grew, and every new one was written
      by a batch of one of the epochs `[init, hi)` of a run that entered epoch
      `init` at `origin`. */
  ghost predicate RunRecords(loop: Loop, origin: Point, init: nat, hi: nat, s0: Snapshot, s: Snapshot) {
    && LogsFit(loop, origin, init, hi, s0.trainLog, s.trainLog)
    && SamplesFit(loop, init, hi, s0.samples, s.samples)
    && ValsFit(loop, origin, init, hi, s0.valLog, s.valLog)
  }

  /** The log lines of two consecutive stretches of one epoch. */
  lemma LogsFitEpochConcat(loop: Loop, epoch: nat, start: Point, log0: seq<LogRecord>, log1: seq<LogRecord>, log2: seq<LogRecord>)
    requires LogsFitEpoch(loop, epoch, start, log0, log1) && LogsFitEpoch(loop, epoch, start, log1, log2)
    ensures LogsFitEpoch(loop, epoch, start, log0, log2)
  {
    forall i | |log0| <= i < |log2|
      ensures LogFitsEpoch(loop, epoch, start, log2[i])
    {
      if i < |log1| {
        assert log2[i] == log1[i];
        assert LogFitsEpoch(loop, epoch, start, log1[i]);
      }
    }
  }

  lemma SamplesFitEpochConcat(loop: Loop, epoch: nat, samples0: seq<SampleRecord>, samples1: seq<SampleRecord>, samples2: seq<SampleRecord>)
    requires SamplesFitEpoch(loop, epoch, samples0, samples1) && SamplesFitEpoch(loop, epoch, samples1, samples2)
    ensures SamplesFitEpoch(loop, epoch, samples0, samples2)
  {
    forall i | |samples0| <= i < |samples2|
      ensures SampleFitsEpoch(loop, epoch, samples2[i])
    {
      if i < |samples1| {
        assert samples2[i] == samples1[i];
        assert SampleFitsEpoch(loop, epoch, samples1[i]);
      }
    }
  }

  lemma ValsFitEpochConcat(loop: Loop, epoch: nat, start: Point, vals0: seq<ValRecord>, vals1: seq<ValRecord>, vals2: seq<ValRecord>)
    requires ValsFitEpoch(loop, epoch, start, vals0, vals1) && ValsFitEpoch(loop, epoch, start, vals1, vals2)
    ensures ValsFitEpoch(loop, epoch, start, vals0, vals2)
  {
    forall i | |vals0| <= i < |vals2|
      ensures ValFitsEpoch(loop, epoch, start, vals2[i])
    {
      if i < |vals1| {
        assert vals2[i] == vals1[i];
        assert ValFitsEpoch(loop, epoch, start, vals1[i]);
      }
    }
  }

  /** The log lines of a run of `[init, epoch)` followed by those of epoch
      `epoch` are the log lines of a run of `[init, epoch + 1)`. */
  lemma LogsFitExtend(loop: Loop, origin: Point, init: nat, epoch: nat, log0: seq<LogRecord>, log1: seq<LogRecord>, log2: seq<LogRecord>)
    requires init <= epoch
    requires LogsFit(loop, origin, init, epoch, log0, log1)
    requires LogsFitEpoch(loop, epoch, EpochStart(loop, origin, init, epoch), log1, log2)
    ensures LogsFit(loop, origin, init, epoch + 1, log0, log2)
  {
    forall i | |log0| <= i < |log2|
      ensures LogFits(loop, origin, init, epoch + 1, log2[i])
    {
      if i < |log1| {
        assert log2[i] == log1[i];
        assert LogFits(loop, origin, init, epoch, log1[i]);
      } else {
        assert LogFitsEpoch(loop, epoch, EpochStart(loop, origin, init, epoch), log2[i]);
      }
    }
  }

  lemma SamplesFitExtend(loop: Loop, init: nat, epoch: nat, samples0: seq<SampleRecord>, samples1: seq<SampleRecord>, samples2: seq<SampleRecord>)
    requires init <= epoch
    requires SamplesFit(loop, init, epoch, samples0, samples1)
    requires SamplesFitEpoch(loop, epoch, samples1, samples2)
    ensures SamplesFit(loop, init, epoch + 1, samples0, samples2)
  {
    forall i | |samples0| <= i < |samples2|
      ensures SampleFits(loop, init, epoch + 1, samples2[i])
    {
      if i < |samples1| {
        assert samples2[i] == samples1[i];
        assert SampleFits(loop, init, epoch, samples1[i]);
      } else {
        assert SampleFitsEpoch(loop, epoch, samples2[i]);
      }
    }
  }

  lemma ValsFitExtend(loop: Loop, origin: Point, init: nat, epoch: nat, vals0: seq<ValRecord>, vals1: seq<ValRecord>, vals2: seq<ValRecord>)
    requires init <= epoch
    requires ValsFit(loop, origin, init, epoch, vals0, vals1)
    requires ValsFitEpoch(loop, epoch, EpochStart(loop, origin, init, epoch), vals1, vals2)
    ensures ValsFit(loop, origin, init, epoch + 1, vals0, vals2)
  {
    forall i | |vals0| <= i < |vals2|
      ensures ValFits(loop, origin, init, epoch + 1, vals2[i])
    {
      if i < |vals1| {
        assert vals2[i] == vals1[i];
        assert ValFits(loop, origin, init, epoch, vals1[i]);
      } else {
        assert ValFitsEpoch(loop, epoch, EpochStart(loop, origin, init, epoch), vals2[i]);
      }
    }
  }

  // ---------------------------------------------------------------------
  // Batches

  /** What the records of a snapshot show of the steps taken: the steps of
      its log lines, of its samples and of its validation records, and
      whether the module is still in train mode. */
  datatype Trace = Trace(logSteps: seq<nat>, sampleSteps: seq<nat>, valSteps: seq<nat>, training: bool)

  function TraceOf(s: Snapshot): Trace {
    Trace(LogSteps(s.trainLog), SampleSteps(s.samples), ValSteps(s.valLog), s.training)
  }

  /** Trace `t` after the steps `[lo, hi)`: each action adds exactly its due
      steps among them, in order, and the module leaves train mode if and
      only if a validation falls due. */
  function Advance(t: Trace, lo: nat, hi: nat, cad: Cadences): Trace
    requires cad.freqLog != 0
  {
    Trace(t.logSteps + DueSteps(lo, hi, Log, cad),
          t.sampleSteps + DueSteps(lo, hi, Sample, cad),
          t.valSteps + DueSteps(lo, hi, Validate, cad),
          t.training && DueSteps(lo, hi, Validate, cad) == [])
  }

  /** From `s0` to `s1` the loop took the steps `[lo, hi)` in order. */
  ghost predicate TracesBetween(cad: Cadences, lo: nat, hi: nat, s0: Snapshot, s1: Snapshot)
    requires cad.freqLog != 0
  {
    TraceOf(s1) == Advance(TraceOf(s0), lo, hi, cad)
  }

  /** One pass of the batch loop on batch `idx` of epoch `epoch` from `s`:
      the trainer moves to the point after the batch, a log line and a sample
      are added exactly when due, and a due validation either fails on an
      empty validation loader or adds its record. */
  function BatchStep(loop: Loop, epoch: nat, idx: nat, s: Snapshot): (Outcome, Snapshot)
    requires loop.cfg.cad.freqLog != 0 && idx < |loop.batches|
  {
    var cfg, n := loop.cfg, |loop.batches|;
    var step := StepOf(epoch, n, idx);
    var pt := PointOf(s);
    var after := AfterBatch(loop, pt, step, loop.batches[idx]);
    var losses := loop.net.forward(pt.params, pt.training, TrainMode, loop.batches[idx]);
    var moved := s.(
      trainLog := s.trainLog +
        (if LogDue(step, cfg.cad.freqLog)
         then [LogRecord(epoch, cfg.nEpochs, idx, n, MakeReport(losses, cfg.weights, cfg.display), pt.lr, step)]
         else []),
      samples := s.samples + (if SampleDue(step, cfg.cad.freqSample) then [SampleRecord(epoch, step)] else []),
      params := after.params,
      moments := after.moments,
      training := after.training);
    if ValDue(step, cfg.cad.freqVal) && |loop.valBatches| == 0 then (Failed(EmptyValLoader), moved)
    else
      (Done, moved.(valLog := s.valLog +
        (if ValDue(step, cfg.cad.freqVal)
         then [ValRecord(epoch, idx, step, Mean(ValBreakdowns(loop.net, after.params, loop.valBatches)))]
         else [])))
  }

  /** From `s0` to `s1` batch `idx` of epoch `epoch` ran with `outcome`. */
  ghost predicate BatchRan(loop: Loop, epoch: nat, idx: nat, outcome: Outcome, s0: Snapshot, s1: Snapshot)
    requires loop.cfg.cad.freqLog != 0 && idx < |loop.batches|
  {
    (outcome, s1) == BatchStep(loop, epoch, idx, s0)
  }

  /** A batch that did not fail took its step: its log line, sample and
      validation record are there exactly when due, and the module left
      train mode exactly when the validation was due. */
  lemma BatchStepTraces(loop: Loop, epoch: nat, idx: nat, s: Snapshot)
    requires loop.cfg.cad.freqLog != 0 && idx < |loop.batches|
    ensures var step := StepOf(epoch, |loop.batches|, idx);
      var r := BatchStep(loop, epoch, idx, s);
      r.0.Done? ==> TracesBetween(loop.cfg.cad, step, step + 1, s, r.1)
  {
    var r := BatchStep(loop, epoch, idx, s);
    if r.0.Done? {
      BatchStepLogSteps(loop, epoch, idx, s);
      BatchStepSampleSteps(loop, epoch, idx, s);
      BatchStepValSteps(loop, epoch, idx, s);
      OneStepTraces(loop.cfg.cad, StepOf(epoch, |loop.batches|, idx), s, r.1);
    }
  }

  lemma BatchStepLogSteps(loop: Loop, epoch: nat, idx: nat, s: Snapshot)
    requires loop.cfg.cad.freqLog != 0 && idx < |loop.batches|
    ensures var step := StepOf(epoch, |loop.batches|, idx);
      LogSteps(BatchStep(loop, epoch, idx, s).1.trainLog) ==
      LogSteps(s.trainLog) + (if LogDue(step, loop.cfg.cad.freqLog) then [step] else [])
  {
    var log := BatchStep(loop, epoch, idx, s).1.trainLog;
    if LogDue(StepOf(epoch, |loop.batches|, idx), loop.cfg.cad.freqLog) {
      LogStepsSnoc(s.trainLog, log[|s.trainLog|]);
      assert log == s.trainLog + [log[|s.trainLog|]];
    } else {
      assert log == s.trainLog;
    }
  }

  lemma BatchStepSampleSteps(loop: Loop, epoch: nat, idx: nat, s: Snapshot)
    requires loop.cfg.cad.freqLog != 0 && idx < |loop.batches|
    ensures var step := StepOf(epoch, |loop.batches|, idx);
      SampleSteps(BatchStep(loop, epoch, idx, s).1.samples) ==
      SampleSteps(s.samples) + (if SampleDue(step, loop.cfg.cad.freqSample) then [step] else [])
  {
    var samples := BatchStep(loop, epoch, idx, s).1.samples;
    if SampleDue(StepOf(epoch, |loop.batches|, idx), loop.cfg.cad.freqSample) {
      SampleStepsSnoc(s.samples, samples[|s.samples|]);
      assert samples == s.samples + [samples[|s.samples|]];
    } else {
      assert samples == s.samples;
    }
  }

  lemma BatchStepValSteps(loop: Loop, epoch: nat, idx: nat, s: Snapshot)
    requires loop.cfg.cad.freqLog != 0 && idx < |loop.batches|
    ensures var step := StepOf(epoch, |loop.batches|, idx);
      var r := BatchStep(loop, epoch, idx, s);
      r.0.Done? ==>
      ValSteps(r.1.valLog) == ValSteps(s.valLog) + (if ValDue(step, loop.cfg.cad.freqVal) then [step] else [])
  {
    var vals := BatchStep(loop, epoch, idx, s).1.valLog;
    if ValDue(StepOf(epoch, |loop.batches|, idx), loop.cfg.cad.freqVal) && |loop.valBatches| > 0 {
      ValStepsSnoc(s.valLog, vals[|s.valLog|]);
      assert vals == s.valLog + [vals[|s.valLog|]];
    } else {
      assert vals == s.valLog;
    }
  }

  /** The batch loop of epoch `epoch` from `s0` after its first `idx`
      batches: the outcome and the snapshot it stopped at, the first failed
      batch ending the loop. */
  ghost function BatchesRun(loop: Loop, epoch: nat, idx: nat, s0: Snapshot): (Outcome, Snapshot)
    requires loop.cfg.cad.freqLog != 0 && idx <= |loop.batches|
  {
    if idx == 0 then (Done, s0)
    else
      var r := BatchesRun(loop, epoch, idx - 1, s0);
      if r.0.Failed? then r else BatchStep(loop, epoch, idx - 1, r.1)
  }

  /** The batch loop of epoch `epoch` after its first `idx` batches, from
      `s0`: they ran in order, none of them failed, every record they added
      fits, and the trainer is at the point after them. */
  ghost predicate BatchesSoFar(loop: Loop, epoch: nat, idx: nat, s0: Snapshot, s: Snapshot)
    requires loop.cfg.cad.freqLog != 0 && idx <= |loop.batches|
  {
    var first := StepOf(epoch, |loop.batches|, 0);
    && TracesBetween(loop.cfg.cad, first, first + idx, s0, s)
    && (|loop.valBatches| == 0 ==> DueSteps(first, first + idx, Validate, loop.cfg.cad) == [])
    && EpochRecords(loop, epoch, PointOf(s0), s0, s)
    && PointOf(s) == InEpoch(loop, epoch, PointOf(s0), idx)
    && s.decays == s0.decays
    && s.store == s0.store
  }

  lemma BatchesStart(loop: Loop, epoch: nat, s0: Snapshot)
    requires loop.cfg.cad.freqLog != 0
    ensures BatchesSoFar(loop, epoch, 0, s0, s0)
  {
  }

  /** The steps of the first `idx - 1` batches followed by the step of
      batch `idx - 1`, when it did not fail, are the steps of the first
      `idx` batches. */
  lemma BatchDoneTraces(loop: Loop, epoch: nat, idx: nat, s0: Snapshot, before: Snapshot)
    requires loop.cfg.cad.freqLog != 0 && 0 < idx <= |loop.batches|
    requires var first := StepOf(epoch, |loop.batches|, 0);
      TracesBetween(loop.cfg.cad, first, first + (idx - 1), s0, before)
    ensures var first, b := StepOf(epoch, |loop.batches|, 0), BatchStep(loop, epoch, idx - 1, before);
      b.0.Done? ==> TracesBetween(loop.cfg.cad, first, first + idx, s0, b.1)
  {
    var first, b := StepOf(epoch, |loop.batches|, 0), BatchStep(loop, epoch, idx - 1, before);
    if b.0.Done? {
      BatchStepTraces(loop, epoch, idx - 1, before);
      TracesConcat(loop.cfg.cad, first, first + (idx - 1), first + idx, s0, before, b.1);
    }
  }

  /** A batch fails only at a due validation with an empty loader. */
  lemma BatchFailed(loop: Loop, epoch: nat, idx: nat, outcome: Outcome, before: Snapshot, after: Snapshot)
    requires loop.cfg.cad.freqLog != 0 && idx < |loop.batches|
    requires BatchRan(loop, epoch, idx, outcome, before, after)
    requires outcome.Failed?
    ensures var n := |loop.batches|;
      |loop.valBatches| == 0 && DueSteps(StepsBefore(epoch, n) + 1, StepsBefore(epoch + 1, n) + 1, Validate, loop.cfg.cad) != []
  {
    var n := |loop.batches|;
    DueStepsMembers(StepsBefore(epoch, n) + 1, StepsBefore(epoch + 1, n) + 1, Validate, loop.cfg.cad, StepOf(epoch, n, idx));
  }

  /** An epoch whose batches all ran had no due validation with an empty
      loader. */
  lemma BatchesNoneFailed(loop: Loop, epoch: nat)
    requires loop.cfg.cad.freqLog != 0
    requires var first := StepOf(epoch, |loop.batches|, 0);
      |loop.valBatches| == 0 ==> DueSteps(first, first + |loop.batches|, Validate, loop.cfg.cad) == []
    ensures var n := |loop.batches|;
      !(|loop.valBatches| == 0 && DueSteps(StepsBefore(epoch, n) + 1, StepsBefore(epoch + 1, n) + 1, Validate, loop.cfg.cad) != [])
  {
  }

  /** The first `idx` batches of the loop fail only at a due validation
      with an empty loader. */
  lemma {:induction false} BatchesRunFails(loop: Loop, epoch: nat, idx: nat, s0: Snapshot)
    requires loop.cfg.cad.freqLog != 0 && idx <= |loop.batches|
    ensures var n := |loop.batches|;
      BatchesRun(loop, epoch, idx, s0).0.Failed? ==>
      |loop.valBatches| == 0 && DueSteps(StepsBefore(epoch, n) + 1, StepsBefore(epoch + 1, n) + 1, Validate, loop.cfg.cad) != []
  {
    if idx > 0 {
      BatchesRunFails(loop, epoch, idx - 1, s0);
      var r := BatchesRun(loop, epoch, idx - 1, s0);
      if r.0.Done? {
        var b := BatchStep(loop, epoch, idx - 1, r.1);
        if b.0.Failed? {
          BatchFailed(loop, epoch, idx - 1, b.0, r.1, b.1);
        }
      }
    }
  }

  /** When the first `idx` batches all ran, their steps were taken in order
      with every action at its due steps. */
  lemma {:induction false} BatchesRunTraces(loop: Loop, epoch: nat, idx: nat, s0: Snapshot)
    requires loop.cfg.cad.freqLog != 0 && idx <= |loop.batches|
    ensures var first, r := StepOf(epoch, |loop.batches|, 0), BatchesRun(loop, epoch, idx, s0);
      r.0.Done? ==> TracesBetween(loop.cfg.cad, first, first + idx, s0, r.1)
  {
    if idx > 0 {
      BatchesRunTraces(loop, epoch, idx - 1, s0);
      var r := BatchesRun(loop, epoch, idx - 1, s0);
      if r.0.Done? {
        BatchDoneTraces(loop, epoch, idx, s0, r.1);
      }
    }
  }

  /** When the first `idx` batches all ran, none of their steps was a
      validation with an empty loader. */
  lemma {:induction false} BatchesRunDone(loop: Loop, epoch: nat, idx: nat, s0: Snapshot)
    requires loop.cfg.cad.freqLog != 0 && idx <= |loop.batches|
    ensures var first := StepOf(epoch, |loop.batches|, 0);
      BatchesRun(loop, epoch, idx, s0).0.Done? && |loop.valBatches| == 0 ==>
      DueSteps(first, first + idx, Validate, loop.cfg.cad) == []
  {
    if idx > 0 {
      BatchesRunDone(loop, epoch, idx - 1, s0);
      var first := StepOf(epoch, |loop.batches|, 0);
      assert DueSteps(first, first + idx, Validate, loop.cfg.cad) ==
        DueSteps(first, first + (idx - 1), Validate, loop.cfg.cad) +
        (if ValDue(first + (idx - 1), loop.cfg.cad.freqVal) then [first + (idx - 1)] else []);
    }
  }

  /** When the first `idx` batches all ran, every record they added fits
      its batch, the trainer is at the point after them, and neither the
      scheduler nor the checkpoint directory moved. */
  lemma {:induction false} BatchesRunRecords(loop: Loop, epoch: nat, idx: nat, s0: Snapshot)
    requires loop.cfg.cad.freqLog != 0 && idx <= |loop.batches|
    ensures var r := BatchesRun(loop, epoch, idx, s0);
      r.0.Done? ==>
        && EpochRecords(loop, epoch, PointOf(s0), s0, r.1)
        && PointOf(r.1) == InEpoch(loop, epoch, PointOf(s0), idx)
        && r.1.decays == s0.decays && r.1.store == s0.store
  {
    if idx > 0 {
      BatchesRunRecords(loop, epoch, idx - 1, s0);
      var r := BatchesRun(loop, epoch, idx - 1, s0);
      if r.0.Done? {
        var b := BatchStep(loop, epoch, idx - 1, r.1);
        BatchRecords(loop, epoch, idx - 1, b.0, PointOf(s0), s0, r.1, b.1);
      }
    }
  }

  /** The first `idx` batches of the loop: they fail only at a due
      validation with an empty loader, and when none failed they are the
      epoch's batches so far. */
  lemma BatchesRunSoFar(loop: Loop, epoch: nat, idx: nat, s0: Snapshot)
    requires loop.cfg.cad.freqLog != 0 && idx <= |loop.batches|
    ensures var n, r := |loop.batches|, BatchesRun(loop, epoch, idx, s0);
      && (r.0.Failed? ==>
            |loop.valBatches| == 0 && DueSteps(StepsBefore(epoch, n) + 1, StepsBefore(epoch + 1, n) + 1, Validate, loop.cfg.cad) != [])
      && (r.0.Done? ==> BatchesSoFar(loop, epoch, idx, s0, r.1))
  {
    BatchesRunFails(loop, epoch, idx, s0);
    BatchesRunTraces(loop, epoch, idx, s0);
    BatchesRunDone(loop, epoch, idx, s0);
    BatchesRunRecords(loop, epoch, idx, s0);
  }

  /** The whole batch loop of an epoch fails exactly when a validation falls
      due among its steps with an empty loader, and otherwise runs every
      batch of the epoch. */
  lemma BatchesRunOutcome(loop: Loop, epoch: nat, s0: Snapshot)
    requires loop.cfg.cad.freqLog != 0
    ensures var n, r := |loop.batches|, BatchesRun(loop, epoch, |loop.batches|, s0);
      && (r.0.Failed? <==>
            |loop.valBatches| == 0 && DueSteps(StepsBefore(epoch, n) + 1, StepsBefore(epoch + 1, n) + 1, Validate, loop.cfg.cad) != [])
      && (r.0.Done? ==> BatchesSoFar(loop, epoch, n, s0, r.1))
  {
    BatchesRunSoFar(loop, epoch, |loop.batches|, s0);
    if BatchesRun(loop, epoch, |loop.batches|, s0).0.Done? {
      BatchesNoneFailed(loop, epoch);
    }
  }

  /** The records batch `idx` adds continue the epoch's records. */
  lemma BatchRecords(loop: Loop, epoch: nat, idx: nat, outcome: Outcome, start: Point, s0: Snapshot, before: Snapshot, after: Snapshot)
    requires loop.cfg.cad.freqLog != 0 && idx < |loop.batches|
    requires EpochRecords(loop, epoch, start, s0, before)
    requires PointOf(before) == InEpoch(loop, epoch, start, idx)
    requires BatchRan(loop, epoch, idx, outcome, before, after)
    ensures EpochRecords(loop, epoch, start, s0, after)
  {
    BatchLogsFit(loop, epoch, idx, outcome, start, before, after);
    LogsFitEpochConcat(loop, epoch, start, s0.trainLog, before.trainLog, after.trainLog);
    BatchSamplesFit(loop, epoch, idx, outcome, start, before, after);
    SamplesFitEpochConcat(loop, epoch, s0.samples, before.samples, after.samples);
    BatchValsFit(loop, epoch, idx, outcome, start, before, after);
    ValsFitEpochConcat(loop, epoch, start, s0.valLog, before.valLog, after.valLog);
  }

  /** The log line of a batch, if any, shows that batch's position, step,
      learning rate and losses. */
  lemma BatchLogsFit(loop: Loop, epoch: nat, idx: nat, outcome: Outcome, start: Point, before: Snapshot, after: Snapshot)
    requires loop.cfg.cad.freqLog != 0 && idx < |loop.batches|
    requires PointOf(before) == InEpoch(loop, epoch, start, idx)
    requires BatchRan(loop, epoch, idx, outcome, before, after)
    ensures LogsFitEpoch(loop, epoch, start, before.trainLog, after.trainLog)
  {
  }

  lemma BatchSamplesFit(loop: Loop, epoch: nat, idx: nat, outcome: Outcome, start: Point, before: Snapshot, after: Snapshot)
    requires loop.cfg.cad.freqLog != 0 && idx < |loop.batches|
    requires PointOf(before) == InEpoch(loop, epoch, start, idx)
    requires BatchRan(loop, epoch, idx, outcome, before, after)
    ensures SamplesFitEpoch(loop, epoch, before.samples, after.samples)
  {
  }

  /** The validation record of a batch, if any, holds the mean losses under
      the parameters after that batch. */
  lemma BatchValsFit(loop: Loop, epoch: nat, idx: nat, outcome: Outcome, start: Point, before: Snapshot, after: Snapshot)
    requires loop.cfg.cad.freqLog != 0 && idx < |loop.batches|
    requires PointOf(before) == InEpoch(loop, epoch, start, idx)
    requires BatchRan(loop, epoch, idx, outcome, before, after)
    ensures ValsFitEpoch(loop, epoch, start, before.valLog, after.valLog)
  {
  }

  // ---------------------------------------------------------------------
  // Checkpoints

  /** The file name of the checkpoint of epoch `e`, with `n` batches per
      epoch: it is saved after the epoch's last step. */
  function EpochCheckpoint(e: nat, n: nat): string {
    CheckpointFile(e, StepsBefore(e + 1, n))
  }

  /** The file names of the checkpoints of the given epochs. */
  function CheckpointNames(epochs: seq<nat>, n: nat): set<string> {
    if epochs == [] then {}
    else CheckpointNames(epochs[..|epochs| - 1], n) + {EpochCheckpoint(epochs[|epochs| - 1], n)}
  }

  /** The payload saved at the end of epoch `e` of a run that entered epoch
      `init` at `origin`: the point after the epoch, scheduler step
      included. */
  function SavedAt(loop: Loop, origin: Point, init: nat, e: nat): Checkpoint {
    Saved(EpochStart(loop, origin, init, e + 1), e, |loop.batches|)
  }

  /** Every epoch of `epochs` has its checkpoint in `store`, holding the
      model and optimizer state at the end of that epoch, the epoch and its
      last step. */
  ghost predicate AllSaved(loop: Loop, origin: Point, init: nat, store: map<string, Checkpoint>, epochs: seq<nat>) {
    epochs == [] ||
    (&& AllSaved(loop, origin, init, store, epochs[..|epochs| - 1])
     && var e := epochs[|epochs| - 1];
        && EpochCheckpoint(e, |loop.batches|) in store
        && store[EpochCheckpoint(e, |loop.batches|)] == SavedAt(loop, origin, init, e))
  }

  /** Every file of `m0` outside `names` is still in `m`, unchanged. */
  ghost predicate Kept<K, V>(m0: map<K, V>, m: map<K, V>, names: set<K>) {
    forall k :: k in m0 && k !in names ==> k in m && m[k] == m0[k]
  }

  /** From `s0` to `s` the checkpoints of the due epochs of `[init, stop)`
      were written, each holding the state at the end of its epoch; no other
      file was added and every other file stayed as it was. */
  ghost predicate CheckpointsBetween(loop: Loop, origin: Point, init: nat, stop: nat, s0: Snapshot, s: Snapshot)
    requires loop.cfg.cad.freqCkpt != 0
  {
    var due := DueEpochs(init, stop, loop.cfg.cad);
    var names := CheckpointNames(due, |loop.batches|);
    && s.store.Keys == s0.store.Keys + names
    && Kept(s0.store, s.store, names)
    && AllSaved(loop, origin, init, s.store, due)
  }

  // ---------------------------------------------------------------------
  // Epochs and runs

  /** From `s0` to `s1` the loop ran epoch `epoch` to its end: its steps
      in order, its records, the point after its batches and one scheduler
      step, and its checkpoint (if due) holding that point. */
  ghost predicate EpochStep(loop: Loop, epoch: nat, s0: Snapshot, s1: Snapshot)
    requires loop.cfg.cad.freqLog != 0 && loop.cfg.cad.freqCkpt != 0
  {
    var n := |loop.batches|;
    var end := EpochEnd(loop, epoch, PointOf(s0));
    && TracesBetween(loop.cfg.cad, StepsBefore(epoch, n) + 1, StepsBefore(epoch + 1, n) + 1, s0, s1)
    && EpochRecords(loop, epoch, PointOf(s0), s0, s1)
    && PointOf(s1) == end
    && s1.decays == s0.decays + 1
    && s1.store == (if CheckpointDue(epoch, loop.cfg.cad)
                    then s0.store[EpochCheckpoint(epoch, n) := Saved(end, epoch, n)]
                    else s0.store)
  }

  /** The batches of a whole epoch followed by the scheduler step and the
      checkpoint of the state reached make one epoch. */
  lemma EpochComplete(loop: Loop, epoch: nat, s0: Snapshot, mid: Snapshot, s1: Snapshot)
    requires loop.cfg.cad.freqLog != 0 && loop.cfg.cad.freqCkpt != 0
    requires BatchesSoFar(loop, epoch, |loop.batches|, s0, mid)
    requires s1.trainLog == mid.trainLog && s1.samples == mid.samples && s1.valLog == mid.valLog
    requires PointOf(s1) == PointOf(mid).(lr := mid.lr * Gamma)
    requires s1.decays == mid.decays + 1
    requires s1.store == (if CheckpointDue(epoch, loop.cfg.cad)
                          then mid.store[EpochCheckpoint(epoch, |loop.batches|) := Saved(PointOf(s1), epoch, |loop.batches|)]
                          else mid.store)
    ensures EpochStep(loop, epoch, s0, s1)
  {
  }

  /** From `s0` to `s` the loop ran epochs `[init, stop)`: the steps
      `init * n + 1 .. stop * n` were taken in order with every action firing
      exactly at its due steps, every record fits its batch, the trainer is
      at the point the fold over those epochs reaches, the scheduler stepped
      once per epoch, and every due epoch has its checkpoint. */
  ghost predicate Ran(loop: Loop, init: nat, stop: nat, s0: Snapshot, s: Snapshot)
    requires loop.cfg.cad.freqLog != 0 && loop.cfg.cad.freqCkpt != 0
    requires init <= stop
  {
    var n, origin := |loop.batches|, PointOf(s0);
    && TracesBetween(loop.cfg.cad, StepsBefore(init, n) + 1, StepsBefore(stop, n) + 1, s0, s)
    && RunRecords(loop, origin, init, stop, s0, s)
    && PointOf(s) == EpochStart(loop, origin, init, stop)
    && s.decays == s0.decays + (stop - init)
    && CheckpointsBetween(loop, origin, init, stop, s0, s)
  }

  /** A run of `train_main_model` stops with an error exactly when a
      validation falls due with an empty validation loader, or a checkpoint
      falls due before any batch has run (an empty training loader). */
  predicate RunFails(cfg: Config, n: nat, numVal: nat)
    requires cfg.cad.freqCkpt != 0
  {
    || (numVal == 0 && DueSteps(StepsBefore(cfg.initEpoch, n) + 1, StepsBefore(StopEpoch(cfg), n) + 1, Validate, cfg.cad) != [])
    || (n == 0 && DueEpochs(cfg.initEpoch, StopEpoch(cfg), cfg.cad) != [])
  }

  /** None of the epochs `[init_epoch, epoch)` failed: no validation fell
      due with an empty validation loader and no checkpoint fell due with an
      empty training loader. */
  predicate NoneFailed(cfg: Config, n: nat, numVal: nat, epoch: nat)
    requires cfg.cad.freqCkpt != 0
  {
    && (numVal == 0 ==> DueSteps(StepsBefore(cfg.initEpoch, n) + 1, StepsBefore(epoch, n) + 1, Validate, cfg.cad) == [])
    && (n == 0 ==> DueEpochs(cfg.initEpoch, epoch, cfg.cad) == [])
  }

  /** Epoch `epoch` stops the loop with an error: a validation falls due
      among its steps with an empty validation loader, or its checkpoint
      falls due while `batches_done` was never set. */
  predicate EpochFails(cfg: Config, n: nat, numVal: nat, epoch: nat)
    requires cfg.cad.freqCkpt != 0
  {
    || (numVal == 0 && DueSteps(StepsBefore(epoch, n) + 1, StepsBefore(epoch + 1, n) + 1, Validate, cfg.cad) != [])
    || (n == 0 && CheckpointDue(epoch, cfg.cad))
  }

  /** The checkpoints of a run are a property of the checkpoint directory
      alone: a later state with the same directory has the same ones. */
  lemma CheckpointsSameStore(loop: Loop, origin: Point, init: nat, stop: nat, s0: Snapshot, s: Snapshot, s1: Snapshot)
    requires loop.cfg.cad.freqCkpt != 0
    requires CheckpointsBetween(loop, origin, init, stop, s0, s)
    requires s1.store == s.store
    ensures CheckpointsBetween(loop, origin, init, stop, s0, s1)
  {
  }

  /** A run of `train_main_model` stopped with an error in epoch `epoch`:
      the epochs before it ran without failing, `epoch` itself failed, and
      the checkpoint directory holds exactly the checkpoints of the due
      epochs of `[init_epoch, epoch)`, every other file unchanged. */
  ghost predicate FailedAt(loop: Loop, epoch: nat, s0: Snapshot, s: Snapshot)
    requires loop.cfg.cad.freqCkpt != 0
  {
    var cfg, n, numVal := loop.cfg, |loop.batches|, |loop.valBatches|;
    && cfg.initEpoch <= epoch < StopEpoch(cfg)
    && NoneFailed(cfg, n, numVal, epoch)
    && EpochFails(cfg, n, numVal, epoch)
    && CheckpointsBetween(loop, PointOf(s0), cfg.initEpoch, epoch, s0, s)
  }

  /** An epoch that fails after the loop ran up to it, without touching
      the checkpoint directory, leaves a run that failed at that epoch. */
  lemma FailedAtStop(loop: Loop, epoch: nat, s0: Snapshot, mid: Snapshot, s1: Snapshot)
    requires loop.cfg.cad.freqLog != 0 && loop.cfg.cad.freqCkpt != 0
    requires loop.cfg.initEpoch <= epoch < StopEpoch(loop.cfg)
    requires RanSoFar(loop, epoch, s0, mid)
    requires EpochFails(loop.cfg, |loop.batches|, |loop.valBatches|, epoch)
    requires s1.store == mid.store
    ensures FailedAt(loop, epoch, s0, s1)
  {
    CheckpointsSameStore(loop, PointOf(s0), loop.cfg.initEpoch, epoch, s0, mid, s1);
  }

  /** An epoch that does not fail keeps the run free of failures. */
  lemma NoneFailedExtend(cfg: Config, n: nat, numVal: nat, epoch: nat)
    requires cfg.cad.freqCkpt != 0
    requires cfg.initEpoch <= epoch
    requires NoneFailed(cfg, n, numVal, epoch)
    requires !(numVal == 0 && DueSteps(StepsBefore(epoch, n) + 1, StepsBefore(epoch + 1, n) + 1, Validate, cfg.cad) != [])
    requires !(n == 0 && CheckpointDue(epoch, cfg.cad))
    ensures NoneFailed(cfg, n, numVal, epoch + 1)
  {
    StepsBeforeMonotone(cfg.initEpoch, epoch, n);
    DueStepsSplit(StepsBefore(cfg.initEpoch, n) + 1, StepsBefore(epoch, n) + 1, StepsBefore(epoch + 1, n) + 1, Validate, cfg.cad);
    if n == 0 {
      assert DueEpochs(cfg.initEpoch, epoch + 1, cfg.cad) == DueEpochs(cfg.initEpoch, epoch, cfg.cad);
    }
  }

  /** The loop of `train_main_model` after the epochs `[init_epoch, epoch)`:
      they ran, and none of them failed. */
  ghost predicate RanSoFar(loop: Loop, epoch: nat, s0: Snapshot, s: Snapshot)
    requires loop.cfg.cad.freqLog != 0 && loop.cfg.cad.freqCkpt != 0
    requires loop.cfg.initEpoch <= epoch
  {
    && NoneFailed(loop.cfg, |loop.batches|, |loop.valBatches|, epoch)
    && Ran(loop, loop.cfg.initEpoch, epoch, s0, s)
  }

  /** An epoch that did not fail extends the loop by one epoch. */
  lemma RanSoFarExtend(loop: Loop, epoch: nat, s0: Snapshot, mid: Snapshot, s1: Snapshot)
    requires loop.cfg.cad.freqLog != 0 && loop.cfg.cad.freqCkpt != 0
    requires loop.cfg.initEpoch <= epoch
    requires RanSoFar(loop, epoch, s0, mid)
    requires EpochStep(loop, epoch, mid, s1)
    requires var n := |loop.batches|;
      !(|loop.valBatches| == 0 && DueSteps(StepsBefore(epoch, n) + 1, StepsBefore(epoch + 1, n) + 1, Validate, loop.cfg.cad) != [])
    requires !(|loop.batches| == 0 && CheckpointDue(epoch, loop.cfg.cad))
    ensures RanSoFar(loop, epoch + 1, s0, s1)
  {
    RanExtend(loop, loop.cfg.initEpoch, epoch, s0, mid, s1);
    NoneFailedExtend(loop.cfg, |loop.batches|, |loop.valBatches|, epoch);
  }

  lemma RanSoFarStart(loop: Loop, s0: Snapshot)
    requires loop.cfg.cad.freqLog != 0 && loop.cfg.cad.freqCkpt != 0
    ensures RanSoFar(loop, loop.cfg.initEpoch, s0, s0)
  {
  }

  /** A loop that got through the whole range ran every epoch of it and
      did not fail. */
  lemma RanSoFarComplete(loop: Loop, epoch: nat, s0: Snapshot, s: Snapshot)
    requires loop.cfg.cad.freqLog != 0 && loop.cfg.cad.freqCkpt != 0
    requires epoch == StopEpoch(loop.cfg)
    requires RanSoFar(loop, epoch, s0, s)
    ensures !RunFails(loop.cfg, |loop.batches|, |loop.valBatches|)
    ensures Ran(loop, loop.cfg.initEpoch, StopEpoch(loop.cfg), s0, s)
  {
  }

  /** An epoch of the range that fails makes the whole run fail. */
  lemma EpochFailureFailsRun(cfg: Config, n: nat, numVal: nat, epoch: nat)
    requires cfg.cad.freqCkpt != 0
    requires cfg.initEpoch <= epoch < StopEpoch(cfg)
    requires || (numVal == 0 && DueSteps(StepsBefore(epoch, n) + 1, StepsBefore(epoch + 1, n) + 1, Validate, cfg.cad) != [])
             || (n == 0 && CheckpointDue(epoch, cfg.cad))
    ensures RunFails(cfg, n, numVal)
  {
    if numVal == 0 && DueSteps(StepsBefore(epoch, n) + 1, StepsBefore(epoch + 1, n) + 1, Validate, cfg.cad) != [] {
      StepsBeforeMonotone(cfg.initEpoch, epoch, n);
      StepsBeforeMonotone(epoch + 1, StopEpoch(cfg), n);
      DueStepsWithin(StepsBefore(cfg.initEpoch, n) + 1, StepsBefore(epoch, n) + 1, StepsBefore(epoch + 1, n) + 1, StepsBefore(StopEpoch(cfg), n) + 1, Validate, cfg.cad);
    } else {
      DueEpochsMembers(cfg.initEpoch, StopEpoch(cfg), cfg.cad, epoch);
    }
  }

  /** An action that fires within a stretch fires within any stretch
      around it. */
  lemma DueStepsWithin(lo: nat, a: nat, b: nat, hi: nat, act: Action, cad: Cadences)
    requires act.Log? ==> cad.freqLog != 0
    requires lo <= a <= b <= hi
    requires DueSteps(a, b, act, cad) != []
    ensures DueSteps(lo, hi, act, cad) != []
  {
    DueStepsSplit(lo, a, hi, act, cad);
    DueStepsSplit(a, b, hi, act, cad);
  }

  /** The learning rates a run shows: with `lr` where it entered epoch
      `init`, every log line of epoch `e` shows `lr * Gamma^(e - init)`,
      the checkpoint of a due epoch `e` holds `lr * Gamma^(e + 1 - init)`,
      and the run ends at `lr * Gamma^(stop - init)`. */
  lemma RanRates(loop: Loop, init: nat, stop: nat, s0: Snapshot, s: Snapshot)
    requires loop.cfg.cad.freqLog != 0 && loop.cfg.cad.freqCkpt != 0
    requires init <= stop
    requires Ran(loop, init, stop, s0, s)
    ensures s.lr == Decayed(s0.lr, stop - init)
    ensures forall i :: |s0.trainLog| <= i < |s.trainLog| ==>
      init <= s.trainLog[i].epoch && s.trainLog[i].lr == Decayed(s0.lr, s.trainLog[i].epoch - init)
    ensures forall e :: e in DueEpochs(init, stop, loop.cfg.cad) ==>
      && init <= e
      && EpochCheckpoint(e, |loop.batches|) in s.store
      && s.store[EpochCheckpoint(e, |loop.batches|)].opt.lr == Decayed(s0.lr, e + 1 - init)
  {
    var origin := PointOf(s0);
    EpochStartRate(loop, origin, init, stop);
    forall i | |s0.trainLog| <= i < |s.trainLog|
      ensures init <= s.trainLog[i].epoch && s.trainLog[i].lr == Decayed(s0.lr, s.trainLog[i].epoch - init)
    {
      assert LogFits(loop, origin, init, stop, s.trainLog[i]);
      LogLineRate(loop, origin, init, s.trainLog[i]);
    }
    forall e | e in DueEpochs(init, stop, loop.cfg.cad)
      ensures && init <= e
              && EpochCheckpoint(e, |loop.batches|) in s.store
              && s.store[EpochCheckpoint(e, |loop.batches|)].opt.lr == Decayed(s0.lr, e + 1 - init)
    {
      DueEpochsMembers(init, stop, loop.cfg.cad, e);
      AllSavedMembers(loop, origin, init, s.store, DueEpochs(init, stop, loop.cfg.cad), e);
      EpochStartRate(loop, origin, init, e + 1);
    }
  }

  /** A log line of epoch `e` shows the rate the run entered with, decayed
      once per epoch before `e`. */
  lemma LogLineRate(loop: Loop, origin: Point, init: nat, r: LogRecord)
    requires init <= r.epoch && LogFitsEpoch(loop, r.epoch, EpochStart(loop, origin, init, r.epoch), r)
    ensures r.lr == Decayed(origin.lr, r.epoch - init)
  {
    EpochStartRate(loop, origin, init, r.epoch);
    InEpochKeepsRate(loop, r.epoch, EpochStart(loop, origin, init, r.epoch), r.idx);
  }

  lemma LogStepsSnoc(log: seq<LogRecord>, r: LogRecord)
    ensures LogSteps(log + [r]) == LogSteps(log) + [r.step]
  {
    assert (log + [r])[..|log|] == log;
  }

  lemma SampleStepsSnoc(samples: seq<SampleRecord>, r: SampleRecord)
    ensures SampleSteps(samples + [r]) == SampleSteps(samples) + [r.step]
  {
    assert (samples + [r])[..|samples|] == samples;
  }

  lemma ValStepsSnoc(vals: seq<ValRecord>, r: ValRecord)
    ensures ValSteps(vals + [r]) == ValSteps(vals) + [r.step]
  {
    assert (vals + [r])[..|vals|] == vals;
  }

  /** A single step `step` is the stretch `[step, step + 1)`. */
  lemma OneStepTraces(cad: Cadences, step: nat, s0: Snapshot, s1: Snapshot)
    requires cad.freqLog != 0
    requires LogSteps(s1.trainLog) == LogSteps(s0.trainLog) + (if LogDue(step, cad.freqLog) then [step] else [])
    requires SampleSteps(s1.samples) == SampleSteps(s0.samples) + (if SampleDue(step, cad.freqSample) then [step] else [])
    requires ValSteps(s1.valLog) == ValSteps(s0.valLog) + (if ValDue(step, cad.freqVal) then [step] else [])
    requires s1.training == (s0.training && !ValDue(step, cad.freqVal))
    ensures TracesBetween(cad, step, step + 1, s0, s1)
  {
    assert DueSteps(step, step, Log, cad) == [];
    assert DueSteps(step, step, Sample, cad) == [];
    assert DueSteps(step, step, Validate, cad) == [];
  }

  /** Two stretches of steps run one after the other make one stretch. */
  lemma TracesConcat(cad: Cadences, lo: nat, mid: nat, hi: nat, s0: Snapshot, s1: Snapshot, s2: Snapshot)
    requires cad.freqLog != 0
    requires lo <= mid <= hi
    requires TracesBetween(cad, lo, mid, s0, s1) && TracesBetween(cad, mid, hi, s1, s2)
    ensures TracesBetween(cad, lo, hi, s0, s2)
  {
    StretchConcat(LogSteps(s0.trainLog), LogSteps(s1.trainLog), LogSteps(s2.trainLog), lo, mid, hi, Log, cad);
    StretchConcat(SampleSteps(s0.samples), SampleSteps(s1.samples), SampleSteps(s2.samples), lo, mid, hi, Sample, cad);
    StretchConcat(ValSteps(s0.valLog), ValSteps(s1.valLog), ValSteps(s2.valLog), lo, mid, hi, Validate, cad);
  }

  /** One trace of steps extended by two consecutive stretches. */
  lemma StretchConcat(t0: seq<nat>, t1: seq<nat>, t2: seq<nat>, lo: nat, mid: nat, hi: nat, a: Action, cad: Cadences)
    requires a.Log? ==> cad.freqLog != 0
    requires lo <= mid <= hi
    requires t1 == t0 + DueSteps(lo, mid, a, cad)
    requires t2 == t1 + DueSteps(mid, hi, a, cad)
    ensures t2 == t0 + DueSteps(lo, hi, a, cad)
    ensures DueSteps(lo, hi, a, cad) == [] <==> DueSteps(lo, mid, a, cad) == [] && DueSteps(mid, hi, a, cad) == []
  {
    var x, y := DueSteps(lo, mid, a, cad), DueSteps(mid, hi, a, cad);
    DueStepsSplit(lo, mid, hi, a, cad);
    assert t2 == t0 + (x + y) by {
      assert t0 + x + y == t0 + (x + y);
    }
    assert x + y == [] <==> x == [] && y == [] by {
      assert |x + y| == |x| + |y|;
    }
  }

  /** What `AllSaved` means: each listed epoch's checkpoint is there,
      holding the state at the end of that epoch, the epoch and its last
      step. */
  lemma {:induction false} AllSavedMembers(loop: Loop, origin: Point, init: nat, store: map<string, Checkpoint>, epochs: seq<nat>, e: nat)
    requires AllSaved(loop, origin, init, store, epochs) && e in epochs
    ensures EpochCheckpoint(e, |loop.batches|) in store
    ensures store[EpochCheckpoint(e, |loop.batches|)] == SavedAt(loop, origin, init, e)
    ensures store[EpochCheckpoint(e, |loop.batches|)].nEpoch == e
    ensures store[EpochCheckpoint(e, |loop.batches|)].nIter == StepsBefore(e + 1, |loop.batches|)
  {
    var prefix := epochs[..|epochs| - 1];
    if e != epochs[|epochs| - 1] {
      assert epochs == prefix + [epochs[|epochs| - 1]];
      assert e in prefix;
      AllSavedMembers(loop, origin, init, store, prefix, e);
    }
  }

  /** Writing a file that is none of the listed epochs' checkpoints keeps
      them all. */
  lemma {:induction false} AllSavedUpdate(loop: Loop, origin: Point, init: nat, store: map<string, Checkpoint>,
                                          epochs: seq<nat>, name: string, c: Checkpoint)
    requires AllSaved(loop, origin, init, store, epochs) && name !in CheckpointNames(epochs, |loop.batches|)
    ensures AllSaved(loop, origin, init, store[name := c], epochs)
  {
    if epochs != [] {
      AllSavedUpdate(loop, origin, init, store, epochs[..|epochs| - 1], name, c);
    }
  }

  /** Two epochs never share a checkpoint file. */
  lemma CheckpointsDiffer(e: nat, f: nat, n: nat)
    requires e != f
    ensures EpochCheckpoint(e, n) != EpochCheckpoint(f, n)
  {
    if EpochCheckpoint(e, n) == EpochCheckpoint(f, n) {
      CheckpointFileInjective(e, StepsBefore(e + 1, n), f, StepsBefore(f + 1, n));
    }
  }

  lemma KeysSnoc<K, V>(keys0: set<K>, names: set<K>, m: map<K, V>, m1: map<K, V>, k: K)
    requires m.Keys == keys0 + names
    requires k in m1 && m1 == m[k := m1[k]]
    ensures m1.Keys == keys0 + (names + {k})
  {
  }

  lemma KeptSnoc<K, V>(m0: map<K, V>, m: map<K, V>, names: set<K>, k: K, v: V)
    requires Kept(m0, m, names)
    ensures Kept(m0, m[k := v], names + {k})
  {
  }

  /** Writing the checkpoint of one more epoch, under a name none of the
      earlier epochs used, saves that epoch as well. */
  lemma SavedSnoc(loop: Loop, origin: Point, init: nat, store0: map<string, Checkpoint>, epochs: seq<nat>, e: nat)
    requires AllSaved(loop, origin, init, store0, epochs)
    requires EpochCheckpoint(e, |loop.batches|) !in CheckpointNames(epochs, |loop.batches|)
    ensures AllSaved(loop, origin, init, store0[EpochCheckpoint(e, |loop.batches|) := SavedAt(loop, origin, init, e)], epochs + [e])
    ensures CheckpointNames(epochs + [e], |loop.batches|) == CheckpointNames(epochs, |loop.batches|) + {EpochCheckpoint(e, |loop.batches|)}
  {
    var name := EpochCheckpoint(e, |loop.batches|);
    AllSavedUpdate(loop, origin, init, store0, epochs, name, SavedAt(loop, origin, init, e));
    assert (epochs + [e])[..|epochs|] == epochs;
  }

  /** The checkpoint of a later epoch is not among those of `[lo, hi)`. */
  lemma {:induction false} LaterCheckpointIsNew(lo: nat, hi: nat, cad: Cadences, e: nat, n: nat)
    requires cad.freqCkpt != 0
    requires hi <= e
    ensures EpochCheckpoint(e, n) !in CheckpointNames(DueEpochs(lo, hi, cad), n)
    decreases hi
  {
    if hi > lo {
      var prefix := DueEpochs(lo, hi - 1, cad);
      LaterCheckpointIsNew(lo, hi - 1, cad, e, n);
      if CheckpointDue(hi - 1, cad) {
        var due := prefix + [hi - 1];
        assert DueEpochs(lo, hi, cad) == due;
        assert due[..|due| - 1] == prefix && due[|due| - 1] == hi - 1;
        CheckpointsDiffer(e, hi - 1, n);
      } else {
        assert DueEpochs(lo, hi, cad) == prefix;
      }
    }
  }

  /** The checkpoints of `[init, epoch)` followed by the end of epoch
      `epoch` are the checkpoints of `[init, epoch + 1)`: the new file never
      overwrites the file of an earlier epoch of the run, so each of them
      still holds the state at the end of its epoch, and every file outside
      the run's checkpoint names stays as it was. */
  lemma CheckpointsExtend(loop: Loop, origin: Point, init: nat, epoch: nat, s0: Snapshot, mid: Snapshot, s1: Snapshot)
    requires loop.cfg.cad.freqCkpt != 0
    requires init <= epoch
    requires CheckpointsBetween(loop, origin, init, epoch, s0, mid)
    requires s1.store == (if CheckpointDue(epoch, loop.cfg.cad)
                          then mid.store[EpochCheckpoint(epoch, |loop.batches|) := SavedAt(loop, origin, init, epoch)]
                          else mid.store)
    ensures CheckpointsBetween(loop, origin, init, epoch + 1, s0, s1)
  {
    var cad, n := loop.cfg.cad, |loop.batches|;
    var olds := DueEpochs(init, epoch, cad);
    if CheckpointDue(epoch, cad) {
      assert DueEpochs(init, epoch + 1, cad) == olds + [epoch];
      var name := EpochCheckpoint(epoch, n);
      LaterCheckpointIsNew(init, epoch, cad, epoch, n);
      SavedSnoc(loop, origin, init, mid.store, olds, epoch);
      KeysSnoc(s0.store.Keys, CheckpointNames(olds, n), mid.store, s1.store, name);
      KeptSnoc(s0.store, mid.store, CheckpointNames(olds, n), name, SavedAt(loop, origin, init, epoch));
    } else {
      assert DueEpochs(init, epoch + 1, cad) == olds;
    }
  }

  /** The traces of epochs `[init, epoch)` followed by those of epoch `epoch`
      are the traces of epochs `[init, epoch + 1)`. */
  lemma EpochTracesExtend(cad: Cadences, init: nat, epoch: nat, n: nat, s0: Snapshot, mid: Snapshot, s1: Snapshot)
    requires cad.freqLog != 0
    requires init <= epoch
    requires TracesBetween(cad, StepsBefore(init, n) + 1, StepsBefore(epoch, n) + 1, s0, mid)
    requires TracesBetween(cad, StepsBefore(epoch, n) + 1, StepsBefore(epoch + 1, n) + 1, mid, s1)
    ensures TracesBetween(cad, StepsBefore(init, n) + 1, StepsBefore(epoch + 1, n) + 1, s0, s1)
  {
    StepsBeforeMonotone(init, epoch, n);
    TracesConcat(cad, StepsBefore(init, n) + 1, StepsBefore(epoch, n) + 1, StepsBefore(epoch + 1, n) + 1, s0, mid, s1);
  }

  /** A run of epochs `[init, epoch)` followed by epoch `epoch` is a run of
      `[init, epoch + 1)`. */
  lemma RanExtend(loop: Loop, init: nat, epoch: nat, s0: Snapshot, mid: Snapshot, s1: Snapshot)
    requires loop.cfg.cad.freqLog != 0 && loop.cfg.cad.freqCkpt != 0
    requires init <= epoch
    requires Ran(loop, init, epoch, s0, mid)
    requires EpochStep(loop, epoch, mid, s1)
    ensures Ran(loop, init, epoch + 1, s0, s1)
  {
    EpochTracesExtend(loop.cfg.cad, init, epoch, |loop.batches|, s0, mid, s1);
    RanExtendRecords(loop, init, epoch, s0, mid, s1);
    RanExtendCheckpoints(loop, init, epoch, s0, mid, s1);
    EpochStartNext(loop, PointOf(s0), init, epoch, PointOf(mid), PointOf(s1));
  }

  /** Ending epoch `epoch` from its start point reaches the start point of
      epoch `epoch + 1`. */
  lemma EpochStartNext(loop: Loop, origin: Point, init: nat, epoch: nat, mid: Point, end: Point)
    requires init <= epoch
    requires mid == EpochStart(loop, origin, init, epoch)
    requires end == EpochEnd(loop, epoch, mid)
    ensures end == EpochStart(loop, origin, init, epoch + 1)
  {
  }

  lemma RanExtendRecords(loop: Loop, init: nat, epoch: nat, s0: Snapshot, mid: Snapshot, s1: Snapshot)
    requires init <= epoch
    requires RunRecords(loop, PointOf(s0), init, epoch, s0, mid)
    requires PointOf(mid) == EpochStart(loop, PointOf(s0), init, epoch)
    requires EpochRecords(loop, epoch, PointOf(mid), mid, s1)
    ensures RunRecords(loop, PointOf(s0), init, epoch + 1, s0, s1)
  {
    var origin := PointOf(s0);
    LogsFitExtend(loop, origin, init, epoch, s0.trainLog, mid.trainLog, s1.trainLog);
    SamplesFitExtend(loop, init, epoch, s0.samples, mid.samples, s1.samples);
    ValsFitExtend(loop, origin, init, epoch, s0.valLog, mid.valLog, s1.valLog);
  }

  lemma RanExtendCheckpoints(loop: Loop, init: nat, epoch: nat, s0: Snapshot, mid: Snapshot, s1: Snapshot)
    requires loop.cfg.cad.freqCkpt != 0
    requires init <= epoch
    requires CheckpointsBetween(loop, PointOf(s0), init, epoch, s0, mid)
    requires PointOf(mid) == EpochStart(loop, PointOf(s0), init, epoch)
    requires var n := |loop.batches|;
      s1.store == (if CheckpointDue(epoch, loop.cfg.cad)
                   then mid.store[EpochCheckpoint(epoch, n) := Saved(EpochEnd(loop, epoch, PointOf(mid)), epoch, n)]
                   else mid.store)
    ensures CheckpointsBetween(loop, PointOf(s0), init, epoch + 1, s0, s1)
  {
    CheckpointsExtend(loop, PointOf(s0), init, epoch, s0, mid, s1);
  }

  /** The snapshot a run starts from: the trainer as it is, or with the
      model and the optimizer state of the resumed checkpoint. */
  function ResumeStart(s: Snapshot, resume: Option<string>): Snapshot
    requires resume.Some? ==> resume.value in s.store
  {
    if resume.None? then s
    else
      var ck := s.store[resume.value];
      s.(params := ck.model, moments := ck.opt.moments, lr := ck.opt.lr)
  }

  class Trainer {
    var params: Params
    var opt: OptState
    /** The module's train/eval flag (`nn.Module.training`). */
    var training: bool
    /** How many times the scheduler has stepped. */
    var decays: nat
    var trainLog: seq<LogRecord>
    var samples: seq<SampleRecord>
    var valLog: seq<ValRecord>
    /** The checkpoint directory: file name to payload. */
    var store: map<string, Checkpoint>

    /** `ModelMain(opts)` in train mode and a fresh `AdamW` with learning rate
        `lr`, over an existing checkpoint directory. */
    constructor (init: Params, lr: real, existing: map<string, Checkpoint>)
      ensures params == init && opt == OptState([], lr) && training && decays == 0
      ensures trainLog == [] && samples == [] && valLog == [] && store == existing
    {
      params := init;
      opt := OptState([], lr);
      training := true;
      decays := 0;
      trainLog := [];
      samples := [];
      valLog := [];
      store := existing;
    }

    function Snap(): Snapshot
      reads this
    {
      Snapshot(trainLog, samples, valLog, params, opt.moments, training, decays, opt.lr, store)
    }

    /** `torch.load(path)` followed by `load_state_dict` for the model and the
        optimizer: both come back exactly as they were saved. */
    method LoadCheckpoint(path: string) returns (ok: bool)
      modifies this
      ensures ok == (path in store)
      ensures ok ==> params == store[path].model && opt == store[path].opt
      ensures !ok ==> params == old(params) && opt == old(opt)
      ensures training == old(training) && decays == old(decays) && store == old(store)
      ensures trainLog == old(trainLog) && samples == old(samples) && valLog == old(valLog)
    {
      ok := path in store;
      if ok {
        params := store[path].model;
        opt := store[path].opt;
      }
    }

    /** The validation block: the module goes to eval mode (and stays there),
        the losses are averaged, and one record is added. Parameters,
        optimizer, counters and the other records are untouched. */
    method RunValidation(net: Network, valBatches: seq<Batch>, epoch: nat, idx: nat, step: nat)
      returns (outcome: Outcome)
      modifies this
      ensures !training
      ensures outcome.Failed? <==> |valBatches| == 0
      ensures outcome.Failed? ==> outcome.error == EmptyValLoader && valLog == old(valLog)
      ensures outcome.Done? ==> (|valBatches| > 0 &&
        valLog == old(valLog) + [ValRecord(epoch, idx, step, Mean(ValBreakdowns(net, old(params), valBatches)))])
      ensures params == old(params) && opt == old(opt) && decays == old(decays) && store == old(store)
      ensures trainLog == old(trainLog) && samples == old(samples)
    {
      training := false;
      var r := ValidationLosses(net, params, valBatches);
      if r.Failure? {
        return Failed(r.error);
      }
      valLog := valLog + [ValRecord(epoch, idx, step, r.value)];
      outcome := Done;
    }

    /** The optimisation half of a pass of the batch loop: forward in the
        current mode, then the optimizer step on the objective built from the
        options' weights. The learning rate is not touched; it changes only
        at the end of an epoch. */
    method Optimize(cfg: Config, net: Network, batch: Batch) returns (losses: Breakdown)
      modifies this
      ensures losses == net.forward(old(params), old(training), TrainMode, batch)
      ensures var updated := net.step(old(params), old(opt.moments), old(opt.lr), old(training), ObjectiveOf(cfg.weights), batch);
        params == updated.0 && opt == OptState(updated.1, old(opt.lr))
      ensures training == old(training) && decays == old(decays) && store == old(store)
      ensures trainLog == old(trainLog) && samples == old(samples) && valLog == old(valLog)
    {
      losses := net.forward(params, training, TrainMode, batch);
      var updated := net.step(params, opt.moments, opt.lr, training, ObjectiveOf(cfg.weights), batch);
      params, opt := updated.0, opt.(moments := updated.1);
    }

    /** The bookkeeping half: a log line and a sample image at the steps their
        cadences select. */
    method Record(cfg: Config, epoch: nat, idx: nat, n: nat, step: nat, losses: Breakdown)
      requires cfg.cad.freqLog != 0
      modifies this
      ensures && trainLog == old(trainLog) +
             (if LogDue(step, cfg.cad.freqLog)
              then [LogRecord(epoch, cfg.nEpochs, idx, n, MakeReport(losses, cfg.weights, cfg.display), opt.lr, step)]
              else [])
        && LogSteps(trainLog) == LogSteps(old(trainLog)) + (if LogDue(step, cfg.cad.freqLog) then [step] else [])
        && samples == old(samples) + (if SampleDue(step, cfg.cad.freqSample) then [SampleRecord(epoch, step)] else [])
        && SampleSteps(samples) == SampleSteps(old(samples)) + (if SampleDue(step, cfg.cad.freqSample) then [step] else [])
      ensures params == old(params) && opt == old(opt) && training == old(training)
      ensures valLog == old(valLog) && decays == old(decays) && store == old(store)
    {
      if LogDue(step, cfg.cad.freqLog) {
        var record := LogRecord(epoch, cfg.nEpochs, idx, n, MakeReport(losses, cfg.weights, cfg.display), opt.lr, step);
        LogStepsSnoc(trainLog, record);
        trainLog := trainLog + [record];
      }
      if SampleDue(step, cfg.cad.freqSample) {
        SampleStepsSnoc(samples, SampleRecord(epoch, step));
        samples := samples + [SampleRecord(epoch, step)];
      }
    }

    /** Validation at the steps its cadence selects. */
    method ValidateIfDue(cfg: Config, net: Network, valBatches: seq<Batch>, epoch: nat, idx: nat, step: nat)
      returns (outcome: Outcome)
      modifies this
      ensures training == (old(training) && !ValDue(step, cfg.cad.freqVal))
      ensures outcome.Failed? <==> ValDue(step, cfg.cad.freqVal) && |valBatches| == 0
      ensures outcome.Failed? ==> outcome.error == EmptyValLoader
      ensures valLog == old(valLog) +
        (if ValDue(step, cfg.cad.freqVal) && |valBatches| > 0
         then [ValRecord(epoch, idx, step, Mean(ValBreakdowns(net, old(params), valBatches)))]
         else [])
      ensures outcome.Done? ==>
        ValSteps(valLog) == ValSteps(old(valLog)) + (if ValDue(step, cfg.cad.freqVal) then [step] else [])
      ensures params == old(params) && opt == old(opt) && decays == old(decays) && store == old(store)
      ensures trainLog == old(trainLog) && samples == old(samples)
    {
      outcome := Done;
      if ValDue(step, cfg.cad.freqVal) {
        ghost var vals := valLog;
        outcome := RunValidation(net, valBatches, epoch, idx, step);
        if outcome.Done? {
          ValStepsSnoc(vals, valLog[|valLog| - 1]);
          assert valLog == vals + [valLog[|valLog| - 1]];
        }
      }
    }

    /** One pass of the batch loop on batch `idx` of epoch `epoch`: forward,
        objective, optimizer step, step counter, then logging, sampling and
        validation as their cadences say. */
    method TrainStep(loop: Loop, epoch: nat, idx: nat) returns (outcome: Outcome)
      requires loop.cfg.cad.freqLog != 0 && idx < |loop.batches|
      modifies this
      ensures (outcome, Snap()) == BatchStep(loop, epoch, idx, old(Snap()))
    {
      var n := |loop.batches|;
      var step := StepOf(epoch, n, idx);
      var losses := Optimize(loop.cfg, loop.net, loop.batches[idx]);
      Record(loop.cfg, epoch, idx, n, step, losses);
      outcome := ValidateIfDue(loop.cfg, loop.net, loop.valBatches, epoch, idx, step);
      ghost var r := BatchStep(loop, epoch, idx, old(Snap()));
      assert outcome == r.0;
      assert trainLog == r.1.trainLog;
      assert samples == r.1.samples;
      assert valLog == r.1.valLog;
      assert params == r.1.params;
      assert opt.moments == r.1.moments;
      assert opt.lr == r.1.lr;
      assert training == r.1.training;
      assert decays == r.1.decays;
      assert store == r.1.store;
    }

    /** The end of an epoch: one scheduler step, then the checkpoint if it is
        due, saved under the epoch and the last step and holding the decayed
        optimizer state. */
    method EndEpoch(cfg: Config, epoch: nat, last: Option<nat>) returns (outcome: Outcome)
      requires cfg.cad.freqCkpt != 0
      modifies this
      ensures opt == old(opt).(lr := old(opt.lr) * Gamma) && decays == old(decays) + 1
      ensures params == old(params) && training == old(training)
      ensures trainLog == old(trainLog) && samples == old(samples) && valLog == old(valLog)
      ensures outcome.Failed? <==> CheckpointDue(epoch, cfg.cad) && last.None?
      ensures outcome.Failed? ==> outcome.error == StepUndefined(epoch) && store == old(store)
      ensures outcome.Done? ==> (store ==
        if CheckpointDue(epoch, cfg.cad)
        then old(store)[CheckpointFile(epoch, last.value) := Checkpoint(params, opt, epoch, last.value)]
        else old(store))
    {
      opt := opt.(lr := opt.lr * Gamma);
      decays := decays + 1;
      outcome := Done;
      if CheckpointDue(epoch, cfg.cad) {
        if last.None? {
          return Failed(StepUndefined(epoch));
        }
        store := store[CheckpointFile(epoch, last.value) := Checkpoint(params, opt, epoch, last.value)];
      }
    }

    /** The batch loop of one epoch: every batch of the training loader in
        order, stopping at the first validation that fails. */
    method RunBatches(loop: Loop, epoch: nat, last: Option<nat>) returns (outcome: Outcome, last': Option<nat>)
      requires loop.cfg.cad.freqLog != 0
      modifies this
      ensures outcome.Done? ==> BatchesRun(loop, epoch, |loop.batches|, old(Snap())) == (Done, Snap())
      ensures var n := |loop.batches|;
        outcome.Failed? ==>
        |loop.valBatches| == 0 && DueSteps(StepsBefore(epoch, n) + 1, StepsBefore(epoch + 1, n) + 1, Validate, loop.cfg.cad) != []
      ensures outcome.Failed? ==> store == old(store)
      ensures outcome.Done? ==> last' == (if |loop.batches| == 0 then last else Some(StepsBefore(epoch + 1, |loop.batches|)))
    {
      var n := |loop.batches|;
      ghost var s0 := Snap();
      var idx := 0;
      last' := last;
      outcome := Done;
      while idx < n
        invariant 0 <= idx <= n
        invariant outcome == Done
        invariant last' == if idx == 0 then last else Some(StepsBefore(epoch, n) + idx)
        invariant BatchesRun(loop, epoch, idx, s0) == (Done, Snap())
        invariant store == s0.store
      {
        ghost var before := Snap();
        outcome := TrainStep(loop, epoch, idx);
        if outcome.Failed? {
          BatchFailed(loop, epoch, idx, outcome, before, Snap());
          return;
        }
        last' := Some(StepsBefore(epoch, n) + idx + 1);
        idx := idx + 1;
      }
    }

    /** One epoch: every batch of the training loader, then the epoch's end.
        `last` is `batches_done` before the epoch (none before the first
        batch of the run). */
    method RunEpoch(loop: Loop, epoch: nat, last: Option<nat>) returns (outcome: Outcome, last': Option<nat>)
      requires loop.cfg.cad.freqLog != 0 && loop.cfg.cad.freqCkpt != 0
      requires last.Some? ==> |loop.batches| > 0 && last.value == StepsBefore(epoch, |loop.batches|)
      modifies this
      ensures var n := |loop.batches|;
        outcome.Failed? <==>
          || (|loop.valBatches| == 0 && DueSteps(StepsBefore(epoch, n) + 1, StepsBefore(epoch + 1, n) + 1, Validate, loop.cfg.cad) != [])
          || (n == 0 && CheckpointDue(epoch, loop.cfg.cad))
      ensures outcome.Failed? ==> store == old(store)
      ensures outcome.Done? ==> EpochStep(loop, epoch, old(Snap()), Snap())
      ensures outcome.Done? ==> last' == (if |loop.batches| == 0 then last else Some(StepsBefore(epoch + 1, |loop.batches|)))
    {
      var n := |loop.batches|;
      ghost var s0 := Snap();
      outcome, last' := RunBatches(loop, epoch, last);
      BatchesRunOutcome(loop, epoch, s0);
      if outcome.Failed? {
        return;
      }
      ghost var mid := Snap();
      outcome := EndEpoch(loop.cfg, epoch, last');
      if outcome.Done? {
        EpochComplete(loop, epoch, s0, mid, Snap());
      }
    }

    /** Epoch `epoch` of the loop, continuing the run that has gone from
        `s0` through the epochs before it. */
    method NextEpoch(loop: Loop, epoch: nat, last: Option<nat>, ghost s0: Snapshot)
      returns (outcome: Outcome, last': Option<nat>)
      requires loop.cfg.cad.freqLog != 0 && loop.cfg.cad.freqCkpt != 0
      requires loop.cfg.initEpoch <= epoch < StopEpoch(loop.cfg)
      requires last == if epoch == loop.cfg.initEpoch || |loop.batches| == 0 then None else Some(StepsBefore(epoch, |loop.batches|))
      requires RanSoFar(loop, epoch, s0, Snap())
      modifies this
      ensures outcome.Failed? ==> RunFails(loop.cfg, |loop.batches|, |loop.valBatches|)
      ensures outcome.Failed? ==> FailedAt(loop, epoch, s0, Snap())
      ensures outcome.Done? ==> RanSoFar(loop, epoch + 1, s0, Snap())
      ensures outcome.Done? ==> last' == if |loop.batches| == 0 then None else Some(StepsBefore(epoch + 1, |loop.batches|))
    {
      ghost var mid := Snap();
      outcome, last' := RunEpoch(loop, epoch, last);
      if outcome.Done? {
        RanSoFarExtend(loop, epoch, s0, mid, Snap());
      } else {
        EpochFailureFailsRun(loop.cfg, |loop.batches|, |loop.valBatches|, epoch);
        FailedAtStop(loop, epoch, s0, mid, Snap());
      }
    }

    /** `for epoch in range(init_epoch, n_epochs)`: the range is taken from the
        options, never from a loaded checkpoint. */
    method RunEpochs(cfg: Config, net: Network, trainBatches: seq<Batch>, valBatches: seq<Batch>)
      returns (outcome: Outcome, ghost failedAt: nat)
      requires cfg.cad.freqLog != 0 && cfg.cad.freqCkpt != 0
      modifies this
      ensures outcome.Failed? <==> RunFails(cfg, |trainBatches|, |valBatches|)
      ensures outcome.Failed? ==> FailedAt(Loop(net, cfg, trainBatches, valBatches), failedAt, old(Snap()), Snap())
      ensures outcome.Done? ==>
        Ran(Loop(net, cfg, trainBatches, valBatches), cfg.initEpoch, StopEpoch(cfg), old(Snap()), Snap())
    {
      var loop := Loop(net, cfg, trainBatches, valBatches);
      var n := |trainBatches|;
      var init := cfg.initEpoch;
      ghost var s0 := Snap();
      RanSoFarStart(loop, s0);
      var epoch := init;
      var last: Option<nat> := None;
      outcome := Done;
      failedAt := init;
      while epoch < cfg.nEpochs
        invariant init <= epoch <= StopEpoch(cfg)
        invariant outcome == Done
        invariant last == if epoch == init || n == 0 then None else Some(StepsBefore(epoch, n))
        invariant RanSoFar(loop, epoch, s0, Snap())
      {
        outcome, last := NextEpoch(loop, epoch, last, s0);
        if outcome.Failed? {
          failedAt := epoch;
          return;
        }
        epoch := epoch + 1;
      }
      RanSoFarComplete(loop, epoch, s0, Snap());
    }

    /** `train_main_model` from the optimizer's creation on: an optional
        resume from a checkpoint file, then the epoch loop. The resumed
        checkpoint restores the parameters and the optimizer state (its
        learning rate included) but not the position: the epochs are still
        `[init_epoch, n_epochs)` of the options. A failed run leaves the
        checkpoints of the due epochs before the failing one on disk. */
    method TrainMainModel(cfg: Config, net: Network, trainBatches: seq<Batch>, valBatches: seq<Batch>, resume: Option<string>)
      returns (outcome: Outcome, ghost failedAt: nat)
      requires cfg.cad.freqLog != 0 && cfg.cad.freqCkpt != 0
      modifies this
      ensures resume.Some? && resume.value !in old(store) ==>
        outcome == Failed(CheckpointMissing(resume.value)) && Snap() == old(Snap())
      ensures resume.None? || resume.value in old(store) ==>
        var loop, s0 := Loop(net, cfg, trainBatches, valBatches), ResumeStart(old(Snap()), resume);
        && (outcome.Failed? <==> RunFails(cfg, |trainBatches|, |valBatches|))
        && (outcome.Done? ==> Ran(loop, cfg.initEpoch, StopEpoch(cfg), s0, Snap()))
        && (outcome.Failed? ==> FailedAt(loop, failedAt, s0, Snap()))
    {
      failedAt := cfg.initEpoch;
      if resume.Some? {
        var ok := LoadCheckpoint(resume.value);
        if !ok {
          return Failed(CheckpointMissing(resume.value)), failedAt;
        }
      }
      outcome, failedAt := RunEpochs(cfg, net, trainBatches, valBatches);
    }
  }
}
