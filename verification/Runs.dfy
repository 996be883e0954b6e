/** Theorems about whole runs of the time loop, read off the log it leaves. */
module Runs {
  import opened Basics
  import opened Clock
  import opened TimeControl
  import opened TimeLoop

  // ------------------------------------------------------- lengths and limits

  function SumDt(log: seq<Step>, n: nat): real
    requires n <= |log|
  {
    if n == 0 then 0.0 else SumDt(log, n - 1) + log[n - 1].dt
  }

  lemma {:induction false} TimeIsSumOfSteps(r: Run, log: seq<Step>, n: nat)
    requires RunOk(r, log) && n <= |log|
    ensures TimeBefore(r, log, n) - r.start == SumDt(log, n)
  {
    if n > 0 {
      TimeIsSumOfSteps(r, log, n - 1);
      assert StepOk(r, log, n - 1);
    }
  }

  lemma {:induction false} TimeAdvances(r: Run, log: seq<Step>, i: nat, j: nat)
    requires RunOk(r, log) && i <= j <= |log|
    ensures TimeBefore(r, log, i) <= TimeBefore(r, log, j)
    ensures i < j ==> TimeBefore(r, log, i) < TimeBefore(r, log, j)
    decreases j - i
  {
    if i < j {
      TimeAdvances(r, log, i, j - 1);
      assert StepOk(r, log, j - 1);
    }
  }

  function Pow(b: real, n: nat): real {
    if n == 0 then 1.0 else b * Pow(b, n - 1)
  }

  lemma PowTimes(b: real, n: nat, x: real)
    ensures b * (Pow(b, n) * x) == Pow(b, n + 1) * x
  {
  }

  /** Steps grow at most geometrically. */
  lemma {:induction false} StepsGrowGeometrically(r: Run, log: seq<Step>, n: nat)
    requires RunOk(r, log) && n < |log| && r.g.adaptive && r.g.growth >= 0.0
    ensures 0.0 < log[n].dt <= Pow(1.0 + r.g.growth, n) * log[0].dt
  {
    assert StepOk(r, log, n);
    if n > 0 {
      StepsGrowGeometrically(r, log, n - 1);
      var f := 1.0 + r.g.growth;
      ProductOrder(log[n - 1].dt, Pow(f, n - 1) * log[0].dt, f);
      PowTimes(f, n - 1, log[0].dt);
    }
  }

  lemma {:induction false} StridesAddUp(r: Run, log: seq<Step>, n: nat)
    requires RunOk(r, log) && Bounded(r) && n <= |log|
    requires n > 0 ==> TimeBefore(r, log, n) < r.stop
    ensures n as real * Stride(r) <= TimeBefore(r, log, n) - r.start
  {
    if n > 0 {
      assert StepOk(r, log, n - 1);
      StridesAddUp(r, log, n - 1);
      Distribute((n - 1) as real, 1.0, Stride(r));
    }
  }

  /** A run of `n + 1` steps has spent `n` strides before its last one; the stop time
      is never passed. */
  lemma RunLengthBound(r: Run, log: seq<Step>)
    requires RunOk(r, log) && Bounded(r) && r.g.adaptive && log != []
    ensures (|log| - 1) as real * Stride(r) < r.stop - r.start
    ensures forall i :: 0 <= i < |log| ==> log[i].next <= r.stop && (log[i].next == r.stop ==> i == |log| - 1)
  {
    var n := |log| - 1;
    assert StepOk(r, log, n);
    StridesAddUp(r, log, n);
    forall i | 0 <= i < |log|
      ensures log[i].next <= r.stop && (log[i].next == r.stop ==> i == n)
    {
      assert StepOk(r, log, i);
      TimeAdvances(r, log, i + 1, |log|);
    }
  }

  // ---------------------------------------------------- enforced output times

  /** Every due output time of an enforced interval that a run reaches has a step
      that ends on it, up to the tolerance and never past it. */
  lemma EnforcedOutputIsHit(r: Run, log: seq<Step>, rule: Rule, k: int, n: nat) returns (i: nat)
    requires RunOk(r, log) && r.g.adaptive && rule in AllRules(r.g, r.post) && Due(rule, k, r.start)
    requires n <= |log| && TimeBefore(r, log, n) >= (k as real - rule.tol) * rule.interval
    ensures i < n && (k as real - rule.tol) * rule.interval <= log[i].next <= k as real * rule.interval
    ensures log[i].cur < (k as real - rule.tol) * rule.interval
  {
    i := FirstAt(r, log, (k as real - rule.tol) * rule.interval, n);
    assert StepOk(r, log, i);
    assert KeepsTo(rule, log[i].cur, log[i].dt);
    assert Due(rule, k, log[i].cur);
  }

  lemma {:induction false} FirstAt(r: Run, log: seq<Step>, t: real, n: nat) returns (i: nat)
    requires RunOk(r, log) && n <= |log| && r.start < t <= TimeBefore(r, log, n)
    ensures i < n && log[i].cur < t <= log[i].next
  {
    assert n > 0 ==> StepOk(r, log, n - 1);
    if t <= TimeBefore(r, log, n - 1) {
      i := FirstAt(r, log, t, n - 1);
    } else {
      i := n - 1;
    }
  }

  // ----------------------------------------------------------- output triggers

  /** Number of the last output due by `t`, counting `tol` ahead. */
  function OutputIndex(interval: real, origin: real, t: real, tol: real): int
    requires interval > 0.0
  {
    ((t - origin + tol) / interval).Floor
  }

  function OutputTime(interval: real, origin: real, k: int): real {
    origin + k as real * interval
  }

  lemma NextOutputTime(interval: real, origin: real, k: int)
    ensures OutputTime(interval, origin, k + 1) == OutputTime(interval, origin, k) + interval
  {
    Distribute(k as real, 1.0, interval);
  }

  lemma FloorAtLeast(y: real, k: int)
    ensures k <= y.Floor <==> k as real <= y
  {
  }

  /** An output number has been reached exactly when its time, less the tolerance,
      has passed. */
  lemma IndexReached(interval: real, origin: real, t: real, tol: real, k: int)
    requires interval > 0.0
    ensures k <= OutputIndex(interval, origin, t, tol) <==> OutputTime(interval, origin, k) <= t + tol
  {
    var y := (t - origin + tol) / interval;
    QuotientTimes(t - origin + tol, interval);
    FloorAtLeast(y, k);
    if k as real <= y {
      ProductOrder(k as real, y, interval);
    } else {
      ProductOrder(y, k as real, interval);
    }
  }

  lemma IndexAdvances(interval: real, origin: real, t: real, next: real, tol: real)
    requires interval > 0.0 && t <= next <= t + interval
    ensures var k := OutputIndex(interval, origin, t, tol); k <= OutputIndex(interval, origin, next, tol) <= k + 1
  {
    var k := OutputIndex(interval, origin, t, tol);
    IndexReached(interval, origin, t, tol, k);
    IndexReached(interval, origin, next, tol, k);
    IndexReached(interval, origin, t, tol, k + 1);
    IndexReached(interval, origin, next, tol, k + 2);
    NextOutputTime(interval, origin, k + 1);
  }

  lemma QuotientDifference(a: real, b: real, k: real)
    requires k > 0.0
    ensures a / k - b / k == (a - b) / k
  {
    QuotientTimes(a, k);
    QuotientTimes(b, k);
    QuotientTimes(a - b, k);
    var p, q, s := a / k, b / k, (a - b) / k;
    assert (p - q) * k == p * k - q * k;
    QuotientOrder(p - q, s, k);
    QuotientOrder(s, p - q, k);
  }

  /** The phase test of the code is the test that the output number has changed. */
  lemma OnBeatMeansNewIndex(ch: Channel, b: Beat)
    requires ch.timeInterval > 0.0
    ensures var tol := TriggerTol(ch, b.dt, b.absTol);
      OnBeat(ch, b) <==> OutputIndex(ch.timeInterval, b.startTime, b.newTime - b.dt, tol)
                         < OutputIndex(ch.timeInterval, b.startTime, b.newTime, tol)
  {
    var tol := TriggerTol(ch, b.dt, b.absTol);
    var y := b.newTime - b.startTime + tol;
    assert b.newTime - b.dt - b.startTime + tol == y - b.dt;
    QuotientDifference(y, y - b.dt, ch.timeInterval);
    FloorAtLeast((y - b.dt) / ch.timeInterval, (y / ch.timeInterval).Floor);
  }

  /** The output time `t` lies in the window that triggers at this beat. */
  predicate InWindow(ch: Channel, b: Beat, t: real) {
    var tol := TriggerTol(ch, b.dt, b.absTol);
    b.newTime - b.dt + tol < t <= b.newTime + tol
  }

  lemma InWindowIffReached(ch: Channel, b: Beat, k: int)
    requires ch.timeInterval > 0.0
    ensures var tol := TriggerTol(ch, b.dt, b.absTol);
      InWindow(ch, b, OutputTime(ch.timeInterval, b.startTime, k)) <==>
      OutputIndex(ch.timeInterval, b.startTime, b.newTime - b.dt, tol) < k
      <= OutputIndex(ch.timeInterval, b.startTime, b.newTime, tol)
  {
    var tol := TriggerTol(ch, b.dt, b.absTol);
    IndexReached(ch.timeInterval, b.startTime, b.newTime, tol, k);
    IndexReached(ch.timeInterval, b.startTime, b.newTime - b.dt, tol, k);
  }

  /** The trigger fires exactly when some output time lies in the window. */
  lemma OnBeatIffOutputInWindow(ch: Channel, b: Beat)
    requires ch.timeInterval > 0.0
    ensures OnBeat(ch, b) <==> exists k: int :: InWindow(ch, b, OutputTime(ch.timeInterval, b.startTime, k))
  {
    OnBeatMeansNewIndex(ch, b);
    var last := OutputIndex(ch.timeInterval, b.startTime, b.newTime, TriggerTol(ch, b.dt, b.absTol));
    InWindowIffReached(ch, b, last);
    forall k: int | InWindow(ch, b, OutputTime(ch.timeInterval, b.startTime, k))
      ensures OnBeat(ch, b)
    {
      InWindowIffReached(ch, b, k);
    }
  }

  // ------------------------------------------------------- which steps write what

  /** One output channel of a run: its plot files or its checkpoints. */
  datatype Outputs = Plots | Checkpoints

  function ChannelOf(r: Run, o: Outputs): Channel { if o.Plots? then r.g.plt else r.g.chkpt }

  function Origin(r: Run, o: Outputs): real { if o.Plots? then r.pltTime else r.chkTime }

  function StartIndex(r: Run, o: Outputs): int { if o.Plots? then r.pltIndex else r.chkIndex }

  predicate Written(s: Step, o: Outputs) { if o.Plots? then s.plotted else s.checkpointed }

  function BeatAt(r: Run, log: seq<Step>, o: Outputs, i: nat): Beat
    requires i < |log|
  {
    BeatOf(r, log[i], StartIndex(r, o), Origin(r, o))
  }

  /** The trigger tolerance of a step: relative to the step, up to the absolute one. */
  function TolAt(r: Run, log: seq<Step>, o: Outputs, i: nat): real
    requires i < |log|
  {
    TriggerTol(ChannelOf(r, o), log[i].dt, r.absTol)
  }

  /** Output by time, past its delay at every step. */
  ghost predicate Timed(r: Run, log: seq<Step>, o: Outputs) {
    var ch := ChannelOf(r, o);
    && ch.interval <= 0 && ch.timeInterval > 0.0
    && forall i :: 0 <= i < |log| ==> log[i].next + TolAt(r, log, o, i) - ch.timeDelay >= 0.0
  }

  function TimeOf(r: Run, o: Outputs, k: int): real {
    OutputTime(ChannelOf(r, o).timeInterval, Origin(r, o), k)
  }

  /** Output time `k` lies between the beginning and the end of step `i`, both shifted
      by the tolerance of the step. */
  predicate InWindowAt(r: Run, log: seq<Step>, o: Outputs, i: nat, k: int)
    requires i < |log|
  {
    log[i].cur + TolAt(r, log, o, i) < TimeOf(r, o, k) <= log[i].next + TolAt(r, log, o, i)
  }

  /** Step `i` writes a file, and output time `k` is one that it stands for. */
  predicate Writes(r: Run, log: seq<Step>, o: Outputs, i: nat, k: int)
    requires i < |log|
  {
    Written(log[i], o) && InWindowAt(r, log, o, i, k)
  }

  lemma WritesIffInWindow(r: Run, log: seq<Step>, o: Outputs, i: nat, k: int)
    requires RunOk(r, log) && Timed(r, log, o) && i < |log|
    ensures Writes(r, log, o, i, k) <==> InWindowAt(r, log, o, i, k)
  {
    var ch, b := ChannelOf(r, o), BeatAt(r, log, o, i);
    assert StepOk(r, log, i) && log[i].next - log[i].dt == log[i].cur;
    if InWindowAt(r, log, o, i, k) {
      assert InWindow(ch, b, OutputTime(ch.timeInterval, b.startTime, k));
      OnBeatIffOutputInWindow(ch, b);
    }
  }

  /** How many of the first `n` steps write output `k`. */
  function CountWrites(r: Run, log: seq<Step>, o: Outputs, k: int, n: nat): nat
    requires n <= |log|
  {
    if n == 0 then 0
    else CountWrites(r, log, o, k, n - 1) + if Writes(r, log, o, n - 1, k) then 1 else 0
  }

  /** Output time `k` lies after the end of step `i` with its own tolerance, but not
      after it with the tolerance of the next step: neither of the two writes it. */
  predicate Missed(r: Run, log: seq<Step>, o: Outputs, i: nat, k: int)
    requires i + 1 < |log|
  {
    TolAt(r, log, o, i) < TimeOf(r, o, k) - log[i].next <= TolAt(r, log, o, i + 1)
  }

  /** The other way round: both write it. */
  predicate Repeated(r: Run, log: seq<Step>, o: Outputs, i: nat, k: int)
    requires i + 1 < |log|
  {
    TolAt(r, log, o, i + 1) < TimeOf(r, o, k) - log[i].next <= TolAt(r, log, o, i)
  }

  function CountMissed(r: Run, log: seq<Step>, o: Outputs, k: int, n: nat): nat
    requires n == 0 || n < |log|
  {
    if n == 0 then 0
    else CountMissed(r, log, o, k, n - 1) + if Missed(r, log, o, n - 1, k) then 1 else 0
  }

  function CountRepeated(r: Run, log: seq<Step>, o: Outputs, k: int, n: nat): nat
    requires n == 0 || n < |log|
  {
    if n == 0 then 0
    else CountRepeated(r, log, o, k, n - 1) + if Repeated(r, log, o, n - 1, k) then 1 else 0
  }

  predicate Begun(r: Run, log: seq<Step>, o: Outputs, k: int)
    requires log != []
  {
    log[0].cur + TolAt(r, log, o, 0) < TimeOf(r, o, k)
  }

  predicate PassedBy(r: Run, log: seq<Step>, o: Outputs, k: int, i: nat)
    requires i < |log|
  {
    log[i].next + TolAt(r, log, o, i) < TimeOf(r, o, k)
  }

  /** Output `k` falls between the beginning and the end of the run, both shifted by the
      tolerance of the step there. */
  predicate GoesBy(r: Run, log: seq<Step>, o: Outputs, k: int)
    requires log != []
  {
    Begun(r, log, o, k) && !PassedBy(r, log, o, k, |log| - 1)
  }

  function Bit(c: bool): int { if c then 1 else 0 }

  lemma {:induction false} WritesBalance(r: Run, log: seq<Step>, o: Outputs, k: int, n: nat)
    requires RunOk(r, log) && Timed(r, log, o) && n < |log|
    ensures CountWrites(r, log, o, k, n + 1)
            == Bit(Begun(r, log, o, k)) - Bit(PassedBy(r, log, o, k, n))
               + CountRepeated(r, log, o, k, n) - CountMissed(r, log, o, k, n)
  {
    WritesIffInWindow(r, log, o, n, k);
    assert StepOk(r, log, n);
    if n > 0 {
      WritesBalance(r, log, o, k, n - 1);
      assert log[n].cur == log[n - 1].next;
    }
  }

  /** Over a whole run, whatever its steps, an output time that goes by is written once,
      and once more for every pair of steps that repeats it and once less for every pair
      that misses it. */
  lemma WritesOfRun(r: Run, log: seq<Step>, o: Outputs, k: int)
    requires RunOk(r, log) && Timed(r, log, o) && log != []
    ensures var m := |log| - 1;
      CountWrites(r, log, o, k, |log|)
      == Bit(GoesBy(r, log, o, k)) - Bit(!Begun(r, log, o, k) && PassedBy(r, log, o, k, m))
         + CountRepeated(r, log, o, k, m) - CountMissed(r, log, o, k, m)
  {
    WritesBalance(r, log, o, k, |log| - 1);
  }

  /** No step is shorter than its tolerance or the one before it. */
  ghost predicate Calm(r: Run, log: seq<Step>, o: Outputs) {
    forall i :: 0 <= i < |log| ==> CalmAt(r, log, o, i)
  }

  predicate CalmAt(r: Run, log: seq<Step>, o: Outputs, i: nat)
    requires i < |log|
  {
    && 0.0 <= TolAt(r, log, o, i) <= log[i].dt
    && (i > 0 ==> TolAt(r, log, o, i - 1) <= log[i].dt)
  }

  /** Output time `k` lies between the tolerances of steps `i` and `i + 1`, counted from
      their common time. */
  predicate BetweenTolerances(r: Run, log: seq<Step>, o: Outputs, i: nat, k: int)
    requires i + 1 < |log|
  {
    Missed(r, log, o, i, k) || Repeated(r, log, o, i, k)
  }

  /** In a calm run an output time between two tolerances goes by, and it is between no
      others. */
  lemma BetweenOnlyOnce(r: Run, log: seq<Step>, o: Outputs, i: nat, j: nat, k: int)
    requires RunOk(r, log) && Calm(r, log, o) && i + 1 < |log| && BetweenTolerances(r, log, o, i, k)
    ensures GoesBy(r, log, o, k)
    ensures j + 1 < |log| && BetweenTolerances(r, log, o, j, k) ==> j == i
  {
    InsideNextStep(r, log, o, i, k);
    StepsInOrder(r, log, 0, i + 1);
    StepsInOrder(r, log, i + 1, |log| - 1);
    assert CalmAt(r, log, o, 0) && CalmAt(r, log, o, |log| - 1) && StepOk(r, log, 0);
    if j + 1 < |log| && BetweenTolerances(r, log, o, j, k) {
      InsideNextStep(r, log, o, j, k);
      if i < j {
        StepsInOrder(r, log, i + 1, j + 1);
      } else if j < i {
        StepsInOrder(r, log, j + 1, i + 1);
      }
    }
  }

  lemma InsideNextStep(r: Run, log: seq<Step>, o: Outputs, i: nat, k: int)
    requires RunOk(r, log) && Calm(r, log, o) && i + 1 < |log| && BetweenTolerances(r, log, o, i, k)
    ensures log[i + 1].cur < TimeOf(r, o, k) <= log[i + 1].next
  {
    assert CalmAt(r, log, o, i) && CalmAt(r, log, o, i + 1) && StepOk(r, log, i + 1);
  }

  lemma StepsInOrder(r: Run, log: seq<Step>, i: nat, j: nat)
    requires RunOk(r, log) && i <= j < |log|
    ensures log[i].next <= log[j].next
    ensures i < j ==> log[i].next <= log[j].cur
  {
    TimeAdvances(r, log, i + 1, j + 1);
    if i < j {
      TimeAdvances(r, log, i + 1, j);
      assert StepOk(r, log, j);
    }
  }

  lemma {:induction false} CountsVanish(r: Run, log: seq<Step>, o: Outputs, k: int, n: nat)
    requires n == 0 || n < |log|
    requires forall i :: 0 <= i < n ==> !BetweenTolerances(r, log, o, i, k)
    ensures CountMissed(r, log, o, k, n) == CountRepeated(r, log, o, k, n) == 0
  {
    if n > 0 {
      CountsVanish(r, log, o, k, n - 1);
      assert !BetweenTolerances(r, log, o, n - 1, k);
    }
  }

  lemma {:induction false} CountsDiffer(r: Run, log: seq<Step>, o: Outputs, k: int, i: nat, n: nat)
    requires i < n < |log| && BetweenTolerances(r, log, o, i, k)
    requires forall j :: 0 <= j < n && j != i ==> !BetweenTolerances(r, log, o, j, k)
    ensures CountMissed(r, log, o, k, n) != CountRepeated(r, log, o, k, n)
  {
    if i == n - 1 {
      CountsVanish(r, log, o, k, n - 1);
    } else {
      assert !BetweenTolerances(r, log, o, n - 1, k);
      CountsDiffer(r, log, o, k, i, n - 1);
    }
  }

  ghost predicate EachWrittenOnce(r: Run, log: seq<Step>, o: Outputs)
    requires log != []
  {
    forall k :: GoesBy(r, log, o, k) ==> CountWrites(r, log, o, k, |log|) == 1
  }

  ghost predicate NoneBetweenTolerances(r: Run, log: seq<Step>, o: Outputs) {
    forall i, k :: 0 <= i < |log| - 1 ==> !BetweenTolerances(r, log, o, i, k)
  }

  lemma NoneBetweenSuffices(r: Run, log: seq<Step>, o: Outputs)
    requires RunOk(r, log) && Timed(r, log, o) && log != [] && NoneBetweenTolerances(r, log, o)
    ensures forall k :: CountWrites(r, log, o, k, |log|) <= 1
    ensures EachWrittenOnce(r, log, o)
  {
    forall k
      ensures CountWrites(r, log, o, k, |log|) <= 1
      ensures GoesBy(r, log, o, k) ==> CountWrites(r, log, o, k, |log|) == 1
    {
      WritesOfRun(r, log, o, k);
      CountsVanish(r, log, o, k, |log| - 1);
    }
  }

  /** In a calm run every output time that goes by is written exactly once if and only
      if none lies between the tolerances of two steps in a row. */
  lemma EachWrittenOnceIff(r: Run, log: seq<Step>, o: Outputs)
    requires RunOk(r, log) && Timed(r, log, o) && Calm(r, log, o) && log != []
    ensures EachWrittenOnce(r, log, o) <==> NoneBetweenTolerances(r, log, o)
  {
    if NoneBetweenTolerances(r, log, o) {
      NoneBetweenSuffices(r, log, o);
    } else {
      var i, k :| 0 <= i < |log| - 1 && BetweenTolerances(r, log, o, i, k);
      forall j | 0 <= j < |log| - 1 && j != i
        ensures !BetweenTolerances(r, log, o, j, k)
      {
        BetweenOnlyOnce(r, log, o, i, j, k);
      }
      BetweenOnlyOnce(r, log, o, i, i, k);
      CountsDiffer(r, log, o, k, i, |log| - 1);
      WritesOfRun(r, log, o, k);
    }
  }

  const GROWING := Run(
    Config(true, 0.0, 1.0, -1.0, -1.0, -1.0, -1.0, 0.1, 0.1,
           Channel(-1, 1.0, 0, 0.0, 0.01, false, 0.001), Channel(-1, -1.0, 0, 0.0, 0.01, false, 0.001), 0.000001),
    [], 1.0e8, 10.0, 0.4947, 0.5, 0, 0, 0.0, 0, 0.0, -1)

  const GROWING_STEPS := [
    Step(1, 0.4947, 0.5, 0.9947, Cfl(2.0, 0.0, 0.0, 2.0), false, false),
    Step(2, 0.9947, 0.55, 1.5447, Cfl(1.0, 0.0, 0.0, 1.0), false, false)]

  lemma GrowingStepsNotWritten()
    ensures !WriteNow(GROWING.g.plt, Beat(1, 0.9947, 0.5, 1.0e8, 0, 0.0))
    ensures !WriteNow(GROWING.g.plt, Beat(2, 1.5447, 0.55, 1.0e8, 0, 0.0))
  {
    var ch := GROWING.g.plt;
    assert Phase(ch, Beat(1, 0.9947, 0.5, 1.0e8, 0, 0.0)) == 0.9997;
    assert Phase(ch, Beat(2, 1.5447, 0.55, 1.0e8, 0, 0.0)) == 1.5502;
  }

  lemma GrowingStepsAreGood()
    ensures RunOk(GROWING, GROWING_STEPS)
  {
    GrowingStepsNotWritten();
    assert StepOk(GROWING, GROWING_STEPS, 0);
    assert StepOk(GROWING, GROWING_STEPS, 1);
  }

  /** A run of two steps, each the one that the clock chooses, with a relative tolerance
      of a hundredth: the step grows by a tenth, and the output at time one, just after
      the first step, is not written. */
  lemma GrowingRunLosesOutput()
    ensures RunOk(GROWING, GROWING_STEPS) && Timed(GROWING, GROWING_STEPS, Plots) && Calm(GROWING, GROWING_STEPS, Plots)
    ensures AdaptiveDt(GROWING.g, Moment(false, 0.4947, 0.5, 10.0), [], GROWING_STEPS[0].cfl) == Ok(0.5)
    ensures AdaptiveDt(GROWING.g, Moment(false, 0.9947, 0.5, 10.0), [], GROWING_STEPS[1].cfl) == Ok(0.55)
    ensures TimeOf(GROWING, Plots, 1) == 1.0 && GoesBy(GROWING, GROWING_STEPS, Plots, 1)
    ensures CountWrites(GROWING, GROWING_STEPS, Plots, 1, 2) == 0
  {
    GrowingStepsAreGood();
    GrowingStepsAreChosen();
    assert Missed(GROWING, GROWING_STEPS, Plots, 0, 1);
  }

  lemma GrowingStepsAreChosen()
    ensures AdaptiveDt(GROWING.g, Moment(false, 0.4947, 0.5, 10.0), [], GROWING_STEPS[0].cfl) == Ok(0.5)
    ensures AdaptiveDt(GROWING.g, Moment(false, 0.9947, 0.5, 10.0), [], GROWING_STEPS[1].cfl) == Ok(0.55)
  {
  }

  // ------------------------------------------------------ outputs counted by steps

  /** A step of a channel that counts steps is written exactly when its index is past the
      delay and differs from the start index by a multiple of the interval. */
  lemma WrittenByCount(r: Run, log: seq<Step>, o: Outputs, i: nat)
    requires RunOk(r, log) && CountsSteps(ChannelOf(r, o)) && i < |log|
    ensures Written(log[i], o)
            <==> && r.startIndex + i + 1 >= ChannelOf(r, o).delay
                 && IsMultiple(r.startIndex + i + 1 - StartIndex(r, o), ChannelOf(r, o).interval)
  {
    assert StepOk(r, log, i);
    StepWritesByCount(r, log, i);
  }

  function CountWritten(log: seq<Step>, o: Outputs, n: nat): nat
    requires n <= |log|
  {
    if n == 0 then 0 else CountWritten(log, o, n - 1) + if Written(log[n - 1], o) then 1 else 0
  }

  /** How many intervals lie between the start index and the end of the first `n` steps. */
  function IntervalsBefore(r: Run, o: Outputs, n: nat): int
    requires ChannelOf(r, o).interval > 0
  {
    (r.startIndex + n - StartIndex(r, o)) / ChannelOf(r, o).interval
  }

  /** No file is written before the delay; past it one is written for every interval that
      is completed. */
  lemma {:induction false} FilesByCount(r: Run, log: seq<Step>, o: Outputs, m: nat, n: nat)
    requires RunOk(r, log) && CountsSteps(ChannelOf(r, o)) && m <= n <= |log|
    ensures r.startIndex + n < ChannelOf(r, o).delay ==> CountWritten(log, o, n) == 0
    ensures r.startIndex + m + 1 >= ChannelOf(r, o).delay ==>
              CountWritten(log, o, n) - CountWritten(log, o, m) == IntervalsBefore(r, o, n) - IntervalsBefore(r, o, m)
    decreases n
  {
    if n > 0 {
      var x, k := r.startIndex + n - 1 - StartIndex(r, o), ChannelOf(r, o).interval;
      WrittenByCount(r, log, o, n - 1);
      MultipleIff(x + 1, k);
      NextQuotient(x, k);
      if m < n {
        FilesByCount(r, log, o, m, n - 1);
      } else {
        FilesByCount(r, log, o, n - 1, n - 1);
      }
    }
  }

  lemma NextQuotient(x: int, k: int)
    requires k > 0
    ensures (x + 1) / k - x / k == if (x + 1) % k == 0 then 1 else 0
  {
    var q, p := x / k, (x + 1) / k;
    assert x == q * k + x % k && x + 1 == p * k + (x + 1) % k;
    assert (p - q) * k == x % k + 1 - (x + 1) % k;
    if (x + 1) % k == 0 {
      SmallMultipleIsOne(p - q, k, x % k + 1);
    } else {
      OnlyZeroIsSmall(p - q, k, x % k + 1 - (x + 1) % k);
    }
  }

  lemma SmallMultipleIsOne(m: int, k: int, c: int)
    requires k > 0 && m * k == c && 0 < c <= k
    ensures m == 1
  {
    assert m >= 2 ==> m * k >= 2 * k;
    assert m <= 0 ==> m * k <= 0;
  }

  /** With the delay over, the final file of such a channel is written exactly when the
      last step's was not. */
  lemma FinalFileByCount(r: Run, log: seq<Step>, o: Outputs, last: bool)
    requires RunOk(r, log) && CountsSteps(ChannelOf(r, o)) && log != []
    requires r.startIndex + |log| >= ChannelOf(r, o).delay
    requires last == WriteLast(ChannelOf(r, o), FinalBeat(r, log, StartIndex(r, o), Origin(r, o)))
    ensures last <==> !Written(log[|log| - 1], o)
    ensures last <==> !IsMultiple(r.startIndex + |log| - StartIndex(r, o), ChannelOf(r, o).interval)
  {
    WrittenByCount(r, log, o, |log| - 1);
    LastByCount(r, log, ChannelOf(r, o), StartIndex(r, o), Origin(r, o));
  }

  // ------------------------------------------------------------------ steady runs

  /** Output by time past its delay, no step longer than the interval, and the same
      trigger tolerance at every step. */
  ghost predicate Steady(r: Run, log: seq<Step>, o: Outputs, tol: real) {
    Timed(r, log, o) && forall i :: 0 <= i < |log| ==> SteadyAt(r, log, o, tol, i)
  }

  ghost predicate SteadyAt(r: Run, log: seq<Step>, o: Outputs, tol: real, i: nat)
    requires i < |log|
  {
    TolAt(r, log, o, i) == tol && log[i].dt <= ChannelOf(r, o).timeInterval
  }

  function IndexBefore(r: Run, log: seq<Step>, o: Outputs, tol: real, i: nat): int
    requires ChannelOf(r, o).timeInterval > 0.0 && i <= |log|
  {
    OutputIndex(ChannelOf(r, o).timeInterval, Origin(r, o), TimeBefore(r, log, i), tol)
  }

  lemma WrittenMeansNewIndex(r: Run, log: seq<Step>, o: Outputs, tol: real, i: nat)
    requires RunOk(r, log) && Steady(r, log, o, tol) && i < |log|
    ensures Written(log[i], o) <==> IndexBefore(r, log, o, tol, i) < IndexBefore(r, log, o, tol, i + 1)
    ensures IndexBefore(r, log, o, tol, i) <= IndexBefore(r, log, o, tol, i + 1) <= IndexBefore(r, log, o, tol, i) + 1
  {
    var ch, s := ChannelOf(r, o), log[i];
    assert StepOk(r, log, i) && SteadyAt(r, log, o, tol, i);
    OnBeatMeansNewIndex(ch, BeatAt(r, log, o, i));
    assert s.next - s.dt == s.cur;
    IndexAdvances(ch.timeInterval, Origin(r, o), s.cur, s.next, tol);
  }

  /** As many files are written as output times go by. */
  lemma {:induction false} FilesMatchOutputTimes(r: Run, log: seq<Step>, o: Outputs, tol: real, n: nat)
    requires RunOk(r, log) && Steady(r, log, o, tol) && n <= |log|
    ensures CountWritten(log, o, n) == IndexBefore(r, log, o, tol, n) - IndexBefore(r, log, o, tol, 0)
  {
    if n > 0 {
      FilesMatchOutputTimes(r, log, o, tol, n - 1);
      WrittenMeansNewIndex(r, log, o, tol, n - 1);
    }
  }

  lemma WritesIffReached(r: Run, log: seq<Step>, o: Outputs, tol: real, i: nat, k: int)
    requires RunOk(r, log) && Steady(r, log, o, tol) && i < |log|
    ensures Writes(r, log, o, i, k) <==> IndexBefore(r, log, o, tol, i) < k <= IndexBefore(r, log, o, tol, i + 1)
  {
    assert StepOk(r, log, i) && SteadyAt(r, log, o, tol, i);
    WritesIffInWindow(r, log, o, i, k);
    IndexReached(ChannelOf(r, o).timeInterval, Origin(r, o), log[i].cur, tol, k);
    IndexReached(ChannelOf(r, o).timeInterval, Origin(r, o), log[i].next, tol, k);
  }

  /** Some step writes output `k`. */
  predicate IsWritten(r: Run, log: seq<Step>, o: Outputs, k: int) {
    exists i :: 0 <= i < |log| && Writes(r, log, o, i, k)
  }

  lemma {:induction false} CountedIsWritten(r: Run, log: seq<Step>, o: Outputs, k: int, n: nat)
    requires n <= |log| && CountWrites(r, log, o, k, n) > 0
    ensures IsWritten(r, log, o, k)
  {
    if !Writes(r, log, o, n - 1, k) {
      CountedIsWritten(r, log, o, k, n - 1);
    }
  }

  lemma {:induction false} WritersAreCounted(r: Run, log: seq<Step>, o: Outputs, k: int, i: nat, j: nat, n: nat)
    requires i < n <= |log| && j < n && Writes(r, log, o, i, k) && Writes(r, log, o, j, k)
    ensures CountWrites(r, log, o, k, n) >= if i == j then 1 else 2
  {
    if i == n - 1 && j < n - 1 {
      WritersAreCounted(r, log, o, k, j, j, n - 1);
    } else if j == n - 1 && i < n - 1 {
      WritersAreCounted(r, log, o, k, i, i, n - 1);
    } else if i < n - 1 {
      WritersAreCounted(r, log, o, k, i, j, n - 1);
    }
  }

  lemma SteadyHasNoneBetween(r: Run, log: seq<Step>, o: Outputs, tol: real)
    requires Steady(r, log, o, tol)
    ensures NoneBetweenTolerances(r, log, o)
  {
    forall i, k | 0 <= i < |log| - 1
      ensures !BetweenTolerances(r, log, o, i, k)
    {
      assert SteadyAt(r, log, o, tol, i) && SteadyAt(r, log, o, tol, i + 1);
    }
  }

  /** Each output time that goes by is written by exactly one step, and a step that
      writes does so for exactly one output time. */
  lemma OutputsExactlyOnce(r: Run, log: seq<Step>, o: Outputs, tol: real)
    requires RunOk(r, log) && Steady(r, log, o, tol) && log != []
    ensures forall k :: GoesBy(r, log, o, k) ==> IsWritten(r, log, o, k)
    ensures forall i, j, k :: 0 <= i < |log| && 0 <= j < |log| && Writes(r, log, o, i, k) && Writes(r, log, o, j, k)
              ==> i == j
    ensures forall i :: 0 <= i < |log| && Written(log[i], o)
              ==> Writes(r, log, o, i, IndexBefore(r, log, o, tol, i + 1))
    ensures forall i, k, l :: 0 <= i < |log| && Writes(r, log, o, i, k) && Writes(r, log, o, i, l) ==> k == l
  {
    SteadyHasNoneBetween(r, log, o, tol);
    NoneBetweenSuffices(r, log, o);
    forall k | GoesBy(r, log, o, k)
      ensures IsWritten(r, log, o, k)
    {
      CountedIsWritten(r, log, o, k, |log|);
    }
    forall i, j, k | 0 <= i < |log| && 0 <= j < |log| && Writes(r, log, o, i, k) && Writes(r, log, o, j, k)
      ensures i == j
    {
      WritersAreCounted(r, log, o, k, i, j, |log|);
    }
    forall i | 0 <= i < |log| && Written(log[i], o)
      ensures Writes(r, log, o, i, IndexBefore(r, log, o, tol, i + 1))
    {
      WrittenMeansNewIndex(r, log, o, tol, i);
      WritesIffReached(r, log, o, tol, i, IndexBefore(r, log, o, tol, i + 1));
    }
    forall i, k, l | 0 <= i < |log| && Writes(r, log, o, i, k) && Writes(r, log, o, i, l)
      ensures k == l
    {
      WrittenMeansNewIndex(r, log, o, tol, i);
      WritesIffReached(r, log, o, tol, i, k);
      WritesIffReached(r, log, o, tol, i, l);
    }
  }

  // --------------------------------------- the file of an enforced output time

  /** An enforced channel whose absolute tolerance is no larger than its allowance, and
      whose output `l` is due at the multiple `k` of its interval. */
  predicate EnforcedAt(r: Run, o: Outputs, k: int, l: int) {
    var ch := ChannelOf(r, o);
    && r.g.adaptive && ch.enforce && ch.timeInterval > 0.0 && ch.reltol >= 0.0
    && 0.0 <= r.absTol <= AbsTolOf(RuleOf(ch))
    && Due(RuleOf(ch), k, r.start) && TimeOf(r, o, l) == k as real * ch.timeInterval
  }

  lemma HitIsFirst(r: Run, log: seq<Step>, o: Outputs, k: int, l: int, i: nat, j: nat)
    requires RunOk(r, log) && Timed(r, log, o) && EnforcedAt(r, o, k, l) && j < i < |log|
    requires log[i].cur < (k as real - ChannelOf(r, o).enforceTol) * ChannelOf(r, o).timeInterval
    ensures !Writes(r, log, o, j, l)
  {
    var ch := ChannelOf(r, o);
    Allowance(k as real, ch.enforceTol, ch.timeInterval);
    StepsInOrder(r, log, j, i);
  }

  lemma TolNotNegative(r: Run, log: seq<Step>, o: Outputs, i: nat)
    requires RunOk(r, log) && i < |log| && ChannelOf(r, o).reltol >= 0.0 && r.absTol >= 0.0
    ensures 0.0 <= TolAt(r, log, o, i) <= r.absTol
  {
    assert StepOk(r, log, i);
  }

  /** Once a step has passed an output time no later one writes its file. */
  lemma NoLaterWriter(r: Run, log: seq<Step>, o: Outputs, i: nat, j: nat, l: int)
    requires RunOk(r, log) && i < j < |log| && ChannelOf(r, o).reltol >= 0.0 && r.absTol >= 0.0
    requires log[i].next >= TimeOf(r, o, l)
    ensures !Writes(r, log, o, j, l)
  {
    StepsInOrder(r, log, i, j);
    TolNotNegative(r, log, o, j);
  }

  /** The step that ends on an enforced output time, up to the allowance, is the first
      that can write its file. It does exactly when what is left is within its trigger
      tolerance, which may be smaller than the allowance. */
  lemma EnforcedOutputFirstWriter(r: Run, log: seq<Step>, o: Outputs, k: int, l: int, n: nat) returns (i: nat)
    requires RunOk(r, log) && Timed(r, log, o) && EnforcedAt(r, o, k, l) && n <= |log|
    requires TimeBefore(r, log, n) >= (k as real - ChannelOf(r, o).enforceTol) * ChannelOf(r, o).timeInterval
    ensures i < n && 0.0 <= TimeOf(r, o, l) - log[i].next <= AbsTolOf(RuleOf(ChannelOf(r, o)))
    ensures forall j :: 0 <= j < i ==> !Writes(r, log, o, j, l)
    ensures Writes(r, log, o, i, l) <==> TimeOf(r, o, l) - log[i].next <= TolAt(r, log, o, i)
  {
    var ch := ChannelOf(r, o);
    i := EnforcedOutputIsHit(r, log, RuleOf(ch), k, n);
    Allowance(k as real, ch.enforceTol, ch.timeInterval);
    forall j | 0 <= j < i
      ensures !Writes(r, log, o, j, l)
    {
      HitIsFirst(r, log, o, k, l, i, j);
    }
    HitWrites(r, log, o, k, l, i);
  }

  lemma Allowance(k: real, tol: real, interval: real)
    ensures (k - tol) * interval == k * interval - tol * interval
  {
  }

  lemma HitWrites(r: Run, log: seq<Step>, o: Outputs, k: int, l: int, i: nat)
    requires RunOk(r, log) && Timed(r, log, o) && EnforcedAt(r, o, k, l) && i < |log|
    requires log[i].cur < (k as real - ChannelOf(r, o).enforceTol) * ChannelOf(r, o).timeInterval
    ensures Writes(r, log, o, i, l) <==> TimeOf(r, o, l) - log[i].next <= TolAt(r, log, o, i)
  {
    Allowance(k as real, ChannelOf(r, o).enforceTol, ChannelOf(r, o).timeInterval);
    WritesIffInWindow(r, log, o, i, l);
    TolNotNegative(r, log, o, i);
  }

  /** Where the step after it passes the output time, that step writes the file exactly
      when more was left than its own tolerance, and no later one does. A step that ends
      on the output time writes it alone. */
  lemma EnforcedOutputWriters(r: Run, log: seq<Step>, o: Outputs, k: int, l: int, n: nat) returns (i: nat)
    requires RunOk(r, log) && Timed(r, log, o) && EnforcedAt(r, o, k, l) && n <= |log|
    requires TimeBefore(r, log, n) >= (k as real - ChannelOf(r, o).enforceTol) * ChannelOf(r, o).timeInterval
    ensures i < n && 0.0 <= TimeOf(r, o, l) - log[i].next <= AbsTolOf(RuleOf(ChannelOf(r, o)))
    ensures forall j :: 0 <= j < i ==> !Writes(r, log, o, j, l)
    ensures Writes(r, log, o, i, l) <==> TimeOf(r, o, l) - log[i].next <= TolAt(r, log, o, i)
    ensures i + 1 < |log| && log[i + 1].next >= TimeOf(r, o, l) ==>
              && (Writes(r, log, o, i + 1, l) <==> TolAt(r, log, o, i + 1) < TimeOf(r, o, l) - log[i].next)
              && (forall j :: i + 1 < j < |log| ==> !Writes(r, log, o, j, l))
    ensures log[i].next == TimeOf(r, o, l) ==> forall j :: 0 <= j < |log| ==> (Writes(r, log, o, j, l) <==> j == i)
  {
    i := EnforcedOutputFirstWriter(r, log, o, k, l, n);
    if i + 1 < |log| && log[i + 1].next >= TimeOf(r, o, l) {
      NextWriter(r, log, o, i, l);
      forall j | i + 1 < j < |log|
        ensures !Writes(r, log, o, j, l)
      {
        NoLaterWriter(r, log, o, i + 1, j, l);
      }
    }
    if log[i].next == TimeOf(r, o, l) {
      TolNotNegative(r, log, o, i);
      forall j | i < j < |log|
        ensures !Writes(r, log, o, j, l)
      {
        NoLaterWriter(r, log, o, i, j, l);
      }
    }
  }

  lemma NextWriter(r: Run, log: seq<Step>, o: Outputs, i: nat, l: int)
    requires RunOk(r, log) && Timed(r, log, o) && i + 1 < |log| && log[i + 1].next >= TimeOf(r, o, l)
    requires ChannelOf(r, o).reltol >= 0.0 && r.absTol >= 0.0
    ensures Writes(r, log, o, i + 1, l) <==> TolAt(r, log, o, i + 1) < TimeOf(r, o, l) - log[i].next
  {
    assert StepOk(r, log, i + 1);
    TolNotNegative(r, log, o, i + 1);
    WritesIffInWindow(r, log, o, i + 1, l);
  }

  // ---------------------------------------------------------- the final outputs

  predicate DelayOver(ch: Channel, b: Beat) {
    if ch.interval > 0 then b.timeIndex - ch.delay >= 0
    else b.newTime + TriggerTol(ch, b.dt, b.absTol) - ch.timeDelay >= 0.0
  }

  /** An output falls due at this beat: its number of steps is a multiple of the
      interval, or an output time lies in the window. */
  ghost predicate FallsDue(ch: Channel, b: Beat) {
    if ch.interval > 0 then (b.timeIndex - b.startIndex) % ch.interval == 0
    else exists k: int :: InWindow(ch, b, OutputTime(ch.timeInterval, b.startTime, k))
  }

  /** At the last step a channel in use is never written twice, and it is not written at
      all exactly when an output falls due before its delay is over. */
  lemma LastOutput(ch: Channel, b: Beat)
    requires ch.interval > 0 || ch.timeInterval > 0.0
    requires !(ch.interval > 0 && ch.timeInterval > 0.0)
    ensures !(WriteNow(ch, b) && WriteLast(ch, b))
    ensures !WriteNow(ch, b) && !WriteLast(ch, b) <==> !DelayOver(ch, b) && FallsDue(ch, b)
  {
    if ch.interval <= 0 {
      OnBeatIffOutputInWindow(ch, b);
    }
  }

  const DELAYED := Run(
    Config(false, 0.0, 1.0, 0.5, -1.0, -1.0, -1.0, 0.1, 0.1,
           Channel(-1, 1.0, 0, 5.0, 0.01, false, 0.001), Channel(-1, -1.0, 0, 0.0, 0.01, false, 0.001), 0.000001),
    [], 1.0e8, 1.0, 0.5, 0.5, 0, 0, 0.0, 0, 0.0, -1)

  const DELAYED_STEPS := [Step(1, 0.5, 0.5, 1.0, Cfl(1.0, 0.0, 0.0, 1.0), false, false)]

  /** A run that ends on an output time before the output delay is over leaves no file
      of its last state, neither by the regular nor by the final trigger. */
  lemma DelayedRunLeavesNoFile()
    ensures RunOk(DELAYED, DELAYED_STEPS) && DELAYED_STEPS[0].next == DELAYED.stop == TimeOf(DELAYED, Plots, 1)
    ensures !Written(DELAYED_STEPS[0], Plots) && !WriteLast(DELAYED.g.plt, FinalBeat(DELAYED, DELAYED_STEPS, 0, 0.0))
  {
    assert Phase(DELAYED.g.plt, Beat(1, 1.0, 0.5, 1.0e8, 0, 0.0)) == 1.005;
  }

  /** Once its delay is over, the final output of a channel that writes by time is
      written exactly when the last step did not write it. */
  lemma FinalOutputCompletesRun(r: Run, log: seq<Step>, o: Outputs)
    requires RunOk(r, log) && Timed(r, log, o) && log != []
    ensures WriteLast(ChannelOf(r, o), FinalBeat(r, log, StartIndex(r, o), Origin(r, o)))
            <==> !Written(log[|log| - 1], o)
  {
    var n := |log| - 1;
    assert StepOk(r, log, n);
    LastOutput(ChannelOf(r, o), FinalBeat(r, log, StartIndex(r, o), Origin(r, o)));
  }
}
