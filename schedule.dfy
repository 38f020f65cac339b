/** When the training loop logs, samples, validates and checkpoints: the
    global step counter (`batches_done`), the step- and epoch-based cadence
    predicates, the traces of due steps over a stretch of the run, and the
    file names of checkpoints. */
module Schedule {
  import opened Decimal
  import Text

  /** The cadence options of a run: `freq_log`, `freq_sample`, `freq_val`
      (in steps), `freq_ckpt` and `threshold_ckpt` (in epochs). */
  datatype Cadences = Cadences(
    freqLog: int,
    freqSample: int,
    freqVal: int,
    freqCkpt: int,
    thresholdCkpt: int)

  /** The three step-based actions of the batch loop. */
  datatype Action = Log | Sample | Validate

  /** `epoch * numBatches`, the steps taken by the epochs before `epoch`,
      written as a sum over those epochs so that step arithmetic stays
      linear. */
  function StepsBefore(epoch: nat, numBatches: nat): nat {
    if epoch == 0 then 0 else StepsBefore(epoch - 1, numBatches) + numBatches
  }

  /** `batches_done` after batch `idx` of epoch `epoch`, with `numBatches`
      batches per epoch. */
  function StepOf(epoch: nat, numBatches: nat, idx: nat): nat {
    StepsBefore(epoch, numBatches) + idx + 1
  }

  /** Logging has no zero guard: `freq_log == 0` is a division by zero. */
  predicate LogDue(step: nat, freqLog: int)
    requires freqLog != 0
  {
    step % freqLog == 0
  }

  predicate SampleDue(step: nat, freqSample: int) {
    freqSample > 0 && step % freqSample == 0
  }

  predicate ValDue(step: nat, freqVal: int) {
    freqVal > 0 && step % freqVal == 0
  }

  /** Checked once per epoch, after the learning-rate decay; `freq_ckpt == 0`
      is a division by zero. */
  predicate CheckpointDue(epoch: nat, cad: Cadences)
    requires cad.freqCkpt != 0
  {
    epoch % cad.freqCkpt == 0 && epoch >= cad.thresholdCkpt
  }

  predicate Due(a: Action, cad: Cadences, step: nat)
    requires a.Log? ==> cad.freqLog != 0
  {
    match a
    case Log => LogDue(step, cad.freqLog)
    case Sample => SampleDue(step, cad.freqSample)
    case Validate => ValDue(step, cad.freqVal)
  }

  /** The steps in `[lo, hi)` at which action `a` fires, in the order the
      loop reaches them. */
  function DueSteps(lo: nat, hi: nat, a: Action, cad: Cadences): seq<nat>
    requires a.Log? ==> cad.freqLog != 0
    decreases hi
  {
    if hi <= lo then []
    else DueSteps(lo, hi - 1, a, cad) + (if Due(a, cad, hi - 1) then [hi - 1] else [])
  }

  /** The epochs in `[lo, hi)` at whose end a checkpoint is written, in order. */
  function DueEpochs(lo: nat, hi: nat, cad: Cadences): seq<nat>
    requires cad.freqCkpt != 0
    decreases hi
  {
    if hi <= lo then []
    else DueEpochs(lo, hi - 1, cad) + (if CheckpointDue(hi - 1, cad) then [hi - 1] else [])
  }

  /** The integers `lo, lo + 1, ..., hi - 1`. */
  function Span(lo: nat, hi: nat): (s: seq<nat>)
    ensures |s| == if hi <= lo then 0 else hi - lo
    ensures forall k :: 0 <= k < |s| ==> s[k] == lo + k
    decreases hi
  {
    if hi <= lo then [] else Span(lo, hi - 1) + [hi - 1]
  }

  /** `f"{epoch}_{batches_done}.ckpt"`, the checkpoint's file name. */
  function CheckpointFile(epoch: nat, step: nat): string {
    ToDecimal(epoch) + "_" + ToDecimal(step) + ".ckpt"
  }

  // ---------------------------------------------------------------------
  // The step counter

  /** Batch after batch, the step grows by exactly one, also across an epoch
      boundary, and it is never below 1. */
  lemma StepSuccessor(epoch: nat, n: nat, idx: nat)
    requires idx < n
    ensures StepOf(epoch, n, idx) >= 1
    ensures idx + 1 < n ==> StepOf(epoch, n, idx + 1) == StepOf(epoch, n, idx) + 1
    ensures idx + 1 == n ==> StepOf(epoch + 1, n, 0) == StepOf(epoch, n, idx) + 1
  {
  }

  lemma {:induction false} StepsBeforeProduct(epoch: nat, n: nat)
    ensures StepsBefore(epoch, n) == epoch * n
  {
    if epoch > 0 {
      StepsBeforeProduct(epoch - 1, n);
    }
  }

  /** Later epochs start at later steps. */
  lemma {:induction false} StepsBeforeMonotone(a: nat, b: nat, n: nat)
    requires a <= b
    ensures StepsBefore(a, n) <= StepsBefore(b, n)
    decreases b
  {
    if a < b {
      StepsBeforeMonotone(a, b - 1, n);
    }
  }

  lemma DivModUnique(q: int, r: int, d: int)
    requires d > 0 && 0 <= r < d
    ensures (q * d + r) / d == q && (q * d + r) % d == r
  {
    var x := q * d + r;
    var e := x / d - q;
    assert d * e == r - x % d;
    assert e >= 1 ==> d * e >= d * 1;
    assert e <= -1 ==> d * e <= d * -1;
  }

  /** A step determines its position: the epoch and the batch index are the
      quotient and remainder of `step - 1` by the number of batches, so two
      different positions never share a step. */
  lemma StepPosition(epoch: nat, n: nat, idx: nat)
    requires idx < n
    ensures (StepOf(epoch, n, idx) - 1) / n == epoch
    ensures (StepOf(epoch, n, idx) - 1) % n == idx
  {
    StepsBeforeProduct(epoch, n);
    DivModUnique(epoch, idx, n);
  }

  /** Whatever the cadences, the first batch of a run started (or resumed)
      at `initEpoch` takes step `initEpoch * n + 1`, and no batch of the run
      takes a step below it. */
  lemma ResumedRunFirstStep(initEpoch: nat, n: nat, epoch: nat, idx: nat)
    requires initEpoch <= epoch
    ensures StepOf(initEpoch, n, 0) == initEpoch * n + 1
    ensures StepOf(epoch, n, idx) >= initEpoch * n + 1
  {
    StepsBeforeProduct(initEpoch, n);
    StepsBeforeMonotone(initEpoch, epoch, n);
  }

  // ---------------------------------------------------------------------
  // Traces of due steps and epochs

  /** A step is in the trace exactly when it lies in the stretch and the
      action is due at it. */
  lemma {:induction false} DueStepsMembers(lo: nat, hi: nat, a: Action, cad: Cadences, x: nat)
    requires a.Log? ==> cad.freqLog != 0
    ensures x in DueSteps(lo, hi, a, cad) <==> lo <= x < hi && Due(a, cad, x)
    decreases hi
  {
    if hi > lo {
      DueStepsMembers(lo, hi - 1, a, cad, x);
    }
  }

  /** The trace is strictly increasing, so no step fires twice. */
  lemma {:induction false} DueStepsIncreasing(lo: nat, hi: nat, a: Action, cad: Cadences)
    requires a.Log? ==> cad.freqLog != 0
    ensures forall i, j :: 0 <= i < j < |DueSteps(lo, hi, a, cad)| ==>
      DueSteps(lo, hi, a, cad)[i] < DueSteps(lo, hi, a, cad)[j]
    decreases hi
  {
    if hi > lo {
      var prefix := DueSteps(lo, hi - 1, a, cad);
      var s := DueSteps(lo, hi, a, cad);
      DueStepsIncreasing(lo, hi - 1, a, cad);
      forall i, j | 0 <= i < j < |s| ensures s[i] < s[j] {
        if j >= |prefix| {
          assert s[i] == prefix[i];
          DueStepsMembers(lo, hi - 1, a, cad, prefix[i]);
        }
      }
    }
  }

  /** Running `[lo, mid)` and then `[mid, hi)` fires the same actions as
      running `[lo, hi)`. */
  lemma {:induction false} DueStepsSplit(lo: nat, mid: nat, hi: nat, a: Action, cad: Cadences)
    requires a.Log? ==> cad.freqLog != 0
    requires lo <= mid <= hi
    ensures DueSteps(lo, hi, a, cad) == DueSteps(lo, mid, a, cad) + DueSteps(mid, hi, a, cad)
    decreases hi
  {
    if hi > mid {
      DueStepsSplit(lo, mid, hi - 1, a, cad);
    }
  }

  /** Sampling and validation with a frequency of zero or less never fire. */
  lemma {:induction false} DisabledNeverFires(lo: nat, hi: nat, a: Action, cad: Cadences)
    requires (a.Sample? && cad.freqSample <= 0) || (a.Validate? && cad.freqVal <= 0)
    ensures DueSteps(lo, hi, a, cad) == []
    decreases hi
  {
    if hi > lo {
      DisabledNeverFires(lo, hi - 1, a, cad);
    }
  }

  /** With `freq_log == 1` every step of the stretch is logged, in order. */
  lemma {:induction false} LogEveryStep(lo: nat, hi: nat, cad: Cadences)
    requires cad.freqLog == 1
    ensures DueSteps(lo, hi, Log, cad) == Span(lo, hi)
    decreases hi
  {
    if hi > lo {
      LogEveryStep(lo, hi - 1, cad);
    }
  }

  /** Three batches from the start of a run with `freq_log == 1` give log
      records for steps 1, 2, 3 and, with `freq_val == 0`, no validation. */
  lemma ThreeBatchesExample(cad: Cadences)
    requires cad.freqLog == 1 && cad.freqVal == 0
    ensures DueSteps(StepOf(0, 3, 0), StepOf(0, 3, 2) + 1, Log, cad) == [1, 2, 3]
    ensures DueSteps(StepOf(0, 3, 0), StepOf(0, 3, 2) + 1, Validate, cad) == []
  {
    LogEveryStep(1, 4, cad);
    DisabledNeverFires(1, 4, Validate, cad);
  }

  lemma DivStep(t: nat, f: nat)
    requires t >= 1 && f >= 1
    ensures t / f == (t - 1) / f + (if t % f == 0 then 1 else 0)
  {
    var q, r := (t - 1) / f, (t - 1) % f;
    assert t - 1 == q * f + r;
    if r == f - 1 {
      DivModUnique(q + 1, 0, f);
      assert t == (q + 1) * f + 0;
    } else {
      DivModUnique(q, r + 1, f);
    }
  }

  /** Over the first T steps of training, a positive `freq_log` of f gives
      exactly T / f log records. */
  lemma {:induction false} LogCount(t: nat, cad: Cadences)
    requires cad.freqLog > 0
    ensures |DueSteps(1, t + 1, Log, cad)| == t / cad.freqLog
    decreases t
  {
    if t >= 1 {
      LogCount(t - 1, cad);
      DivStep(t, cad.freqLog);
    }
  }

  /** An epoch is in the checkpoint trace exactly when it lies in the stretch
      and the checkpoint predicate holds for it. */
  lemma {:induction false} DueEpochsMembers(lo: nat, hi: nat, cad: Cadences, e: nat)
    requires cad.freqCkpt != 0
    ensures e in DueEpochs(lo, hi, cad) <==> lo <= e < hi && CheckpointDue(e, cad)
    decreases hi
  {
    if hi > lo {
      DueEpochsMembers(lo, hi - 1, cad, e);
    }
  }

  /** With `threshold_ckpt == 5` and `freq_ckpt == 3`, epochs 0 to 12
      checkpoint at 6, 9 and 12 only. */
  lemma CheckpointExample(cad: Cadences)
    requires cad.freqCkpt == 3 && cad.thresholdCkpt == 5
    ensures DueEpochs(0, 13, cad) == [6, 9, 12]
  {
  }

  // ---------------------------------------------------------------------
  // File keys

  lemma DigitsHaveNoSeparator(s: string, c: char)
    requires AllDigits(s) && !IsDigit(c)
    ensures c !in s
  {
  }

  /** A digit string followed by a non-digit separator can be told apart from
      whatever follows it. */
  lemma DigitsThenSeparator(a: string, b: string, c: string, d: string, sep: char)
    requires AllDigits(a) && AllDigits(c) && !IsDigit(sep)
    requires a + [sep] + b == c + [sep] + d
    ensures a == c && b == d
  {
    DigitsHaveNoSeparator(a, sep);
    DigitsHaveNoSeparator(c, sep);
    Text.SplitCons(a, sep, b);
    Text.SplitCons(c, sep, d);
    assert ([a] + Text.Split(b, sep))[0] == a;
    assert ([c] + Text.Split(d, sep))[0] == c;
    assert b == (a + [sep] + b)[|a| + 1..];
    assert d == (c + [sep] + d)[|c| + 1..];
  }

  /** The checkpoint key identifies its epoch and step: different
      `(epoch, step)` pairs never overwrite each other's file. */
  lemma CheckpointFileInjective(e1: nat, s1: nat, e2: nat, s2: nat)
    requires CheckpointFile(e1, s1) == CheckpointFile(e2, s2)
    ensures e1 == e2 && s1 == s2
  {
    var a, c := ToDecimal(e1), ToDecimal(e2);
    var b, d := ToDecimal(s1) + ".ckpt", ToDecimal(s2) + ".ckpt";
    assert CheckpointFile(e1, s1) == a + ['_'] + b;
    assert CheckpointFile(e2, s2) == c + ['_'] + d;
    DigitsThenSeparator(a, b, c, d, '_');
    ToDecimalInjective(e1, e2);
    assert ToDecimal(s1) == b[..|b| - 5];
    assert ToDecimal(s2) == d[..|d| - 5];
    ToDecimalInjective(s1, s2);
  }
}
