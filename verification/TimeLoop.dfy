/** The time loop over the clock, the log it leaves, and what holds of whole runs. */
module TimeLoop {
  import opened Basics
  import opened Clock
  import opened TimeControl

  /** One completed step, as the solver saw it when it asked whether to write. */
  datatype Step = Step(index: int, cur: real, dt: real, next: real, cfl: Cfl, plotted: bool, checkpointed: bool)

  /** What stays fixed during a run. */
  datatype Run = Run(g: Config, post: seq<Rule>, absTol: real, stop: real, start: real, dt0: real,
                     startIndex: int, pltIndex: int, pltTime: real, chkIndex: int, chkTime: real, maxStep: int)

  function TimeBefore(r: Run, log: seq<Step>, i: nat): real
    requires i <= |log|
  {
    if i == 0 then r.start else log[i - 1].next
  }

  function DtBefore(r: Run, log: seq<Step>, i: nat): real
    requires i <= |log|
  {
    if i == 0 then r.dt0 else log[i - 1].dt
  }

  function BeatOf(r: Run, s: Step, startIndex: int, startTime: real): Beat {
    Beat(s.index, s.next, s.dt, r.absTol, startIndex, startTime)
  }

  ghost predicate StepOk(r: Run, log: seq<Step>, i: nat)
    requires i < |log|
  {
    var s := log[i];
    && s.index == r.startIndex + i + 1
    && s.cur == TimeBefore(r, log, i) && s.next == s.cur + s.dt && s.dt > 0.0
    && (if r.g.adaptive
        then GoodStep(r.g, Moment(false, s.cur, DtBefore(r, log, i), r.stop), r.post, s.cfl, r.absTol, s.dt)
        else s.dt == r.g.fixedDt)
    && s.plotted == WriteNow(r.g.plt, BeatOf(r, s, r.pltIndex, r.pltTime))
    && s.checkpointed == WriteNow(r.g.chkpt, BeatOf(r, s, r.chkIndex, r.chkTime))
  }

  ghost predicate RunOk(r: Run, log: seq<Step>) {
    forall i :: 0 <= i < |log| ==> StepOk(r, log, i)
  }

  lemma RunExtends(r: Run, log: seq<Step>, s: Step)
    requires RunOk(r, log) && StepOk(r, log + [s], |log|)
    ensures RunOk(r, log + [s])
  {
    forall i | 0 <= i < |log|
      ensures StepOk(r, log + [s], i)
    {
      assert StepOk(r, log, i);
    }
  }

  // ------------------------------------------------------------ the time loop

  /** Inputs under which every step that is chosen advances the time. */
  ghost predicate Ready(r: Run) {
    if r.g.adaptive then Sensible(r.g) && r.absTol > 0.0 && Covers(r.absTol, AllRules(r.g, r.post))
    else r.g.fixedDt > 0.0
  }

  /** The stop time is bound to be reached. */
  predicate EndsByTime(r: Run) {
    r.stop > 0.0 && (r.g.adaptive ==> r.g.minDt > 0.0)
  }

  /** The number of steps is limited; a negative limit stands for none. */
  predicate EndsByCount(r: Run) { r.maxStep >= 0 }

  ghost predicate Bounded(r: Run) { Ready(r) && EndsByTime(r) }

  /** The least that a step advances the time, unless it ends on the stop time. */
  function Stride(r: Run): real { if r.g.adaptive then Min(r.g.minDt, r.absTol) else r.g.fixedDt }

  /** Steps that can still be taken from time `t`. */
  function StepsLeft(r: Run, t: real): int
    requires Stride(r) > 0.0
  {
    if t >= r.stop then 0 else ((r.stop - t) / Stride(r)).Floor + 1
  }

  lemma QuotientOrder(p: real, q: real, k: real)
    requires k > 0.0 && p * k <= q * k
    ensures p <= q
  {
    if q < p {
      ProductOrder(q, p, k);
    }
  }

  lemma QuotientDrops(a: real, b: real, k: real)
    requires k > 0.0 && b <= a - k
    ensures b / k <= a / k - 1.0
  {
    QuotientTimes(a, k);
    QuotientTimes(b, k);
    Distribute(a / k, -1.0, k);
    QuotientOrder(b / k, a / k - 1.0, k);
  }

  lemma QuotientPositive(a: real, k: real)
    requires k > 0.0 && a >= 0.0
    ensures a / k >= 0.0
  {
    var q := a / k;
    QuotientTimes(a, k);
    if q < 0.0 {
      ProductOrder(q, 0.0, k);
    }
  }

  lemma StepsLeftDrops(r: Run, t: real, next: real)
    requires Bounded(r) && t < r.stop && t < next
    requires next >= t + Stride(r) || next == r.stop
    ensures 0 <= StepsLeft(r, next) < StepsLeft(r, t)
  {
    var k := Stride(r);
    QuotientPositive(r.stop - t, k);
    if next < r.stop {
      QuotientDrops(r.stop - t, r.stop - next, k);
      QuotientPositive(r.stop - next, k);
    }
  }

  /** After `i` steps a run goes on: it has not been told to take none, it is further than
      the tolerance before its stop time, and it has steps left. */
  predicate GoesOn(r: Run, log: seq<Step>, i: nat)
    requires i <= |log|
  {
    && r.maxStep != 0
    && (r.stop > 0.0 ==> TimeBefore(r, log, i) < r.stop - 1.0e4 * r.g.epsilon)
    && (r.maxStep > 0 ==> r.startIndex + i < r.maxStep)
  }

  /** Every step was begun by a run that was to go on. */
  ghost predicate WentOn(r: Run, log: seq<Step>) { forall i :: 0 <= i < |log| ==> GoesOn(r, log, i) }

  lemma WentOnExtends(r: Run, log: seq<Step>, s: Step)
    requires WentOn(r, log) && GoesOn(r, log, |log|)
    ensures WentOn(r, log + [s])
  {
    forall i | 0 <= i < |log + [s]|
      ensures GoesOn(r, log + [s], i)
    {
      assert GoesOn(r, log, i);
      assert TimeBefore(r, log + [s], i) == TimeBefore(r, log, i);
    }
  }

  /** How a run ends: with no step limit at its stop time, with no stop time at its limit,
      and otherwise at what comes first. */
  lemma RunHasEnded(r: Run, log: seq<Step>)
    requires WentOn(r, log) && !GoesOn(r, log, |log|) && r.maxStep != 0
    ensures || (r.stop > 0.0 && TimeBefore(r, log, |log|) >= r.stop - 1.0e4 * r.g.epsilon)
            || (r.maxStep > 0 && |log| == if r.maxStep >= r.startIndex then r.maxStep - r.startIndex else 0)
  {
    if log != [] {
      assert GoesOn(r, log, |log| - 1);
    }
  }

  // ------------------------------------------------------ outputs counted by steps

  predicate CountsSteps(ch: Channel) { ch.interval > 0 && ch.timeInterval <= 0.0 }

  function Multiple(m: int, n: int): int { m * n }

  ghost predicate IsMultiple(d: int, n: int) { exists m: int :: d == Multiple(m, n) }

  /** A step with this index is due: past the delay, and a multiple of the interval after
      the start index. */
  ghost predicate DueByCount(ch: Channel, index: int, start: int) {
    index >= ch.delay && IsMultiple(index - start, ch.interval)
  }

  lemma MultipleIff(d: int, n: int)
    requires n > 0
    ensures IsMultiple(d, n) <==> d % n == 0
  {
    if d % n == 0 {
      assert d == Multiple(d / n, n);
    }
    forall m: int | d == Multiple(m, n)
      ensures d % n == 0
    {
      MultipleHasNoRest(m, n);
    }
  }

  lemma MultipleHasNoRest(m: int, n: int)
    requires n > 0
    ensures Multiple(m, n) % n == 0
  {
    var d := Multiple(m, n);
    assert d == d / n * n + d % n;
    assert (m - d / n) * n == d - d / n * n;
    OnlyZeroIsSmall(m - d / n, n, d % n);
  }

  lemma OnlyZeroIsSmall(k: int, n: int, c: int)
    requires k * n == c && -n < c < n
    ensures k == 0
  {
    assert k >= 1 ==> k * n >= n;
    assert k <= -1 ==> k * n <= -n;
  }

  /** What the logged step after those of `log` has written of the channels that count
      steps. */
  ghost predicate WritesByCount(r: Run, s: Step, i: nat) {
    && (CountsSteps(r.g.plt) ==> (s.plotted <==> DueByCount(r.g.plt, r.startIndex + i + 1, r.pltIndex)))
    && (CountsSteps(r.g.chkpt) ==> (s.checkpointed <==> DueByCount(r.g.chkpt, r.startIndex + i + 1, r.chkIndex)))
  }

  lemma StepWritesByCount(r: Run, log: seq<Step>, i: nat)
    requires i < |log| && StepOk(r, log, i)
    ensures WritesByCount(r, log[i], i)
  {
    if CountsSteps(r.g.plt) {
      MultipleIff(r.startIndex + i + 1 - r.pltIndex, r.g.plt.interval);
    }
    if CountsSteps(r.g.chkpt) {
      MultipleIff(r.startIndex + i + 1 - r.chkIndex, r.g.chkpt.interval);
    }
  }

  ghost predicate AllByCount(r: Run, log: seq<Step>) {
    forall i :: 0 <= i < |log| ==> WritesByCount(r, log[i], i)
  }

  /** The position of the clock once the steps of `log` are done. */
  function FinalBeat(r: Run, log: seq<Step>, startIndex: int, startTime: real): Beat {
    Beat(r.startIndex + |log|, TimeBefore(r, log, |log|), DtBefore(r, log, |log|), r.absTol, startIndex, startTime)
  }

  lemma LastByCount(r: Run, log: seq<Step>, ch: Channel, startIndex: int, startTime: real)
    requires CountsSteps(ch)
    ensures WriteLast(ch, FinalBeat(r, log, startIndex, startTime))
            <==> !IsMultiple(r.startIndex + |log| - startIndex, ch.interval)
  {
    MultipleIff(r.startIndex + |log| - startIndex, ch.interval);
  }

  ghost predicate Describes(r: Run, t: SimTime)
    reads t
  {
    && t.Valid() && t.cfg == r.g && t.post == r.post && t.forceDtAbsTol == r.absTol && t.stopTime == r.stop
    && t.stopTimeIndex == r.maxStep
    && t.pltStartIndex == r.pltIndex && t.pltStartTime == r.pltTime
    && t.chkptStartIndex == r.chkIndex && t.chkptStartTime == r.chkTime
  }

  /** The clock stands after the steps of `log`; `go` says that another was begun. */
  ghost predicate InStep(r: Run, log: seq<Step>, t: SimTime, go: bool)
    reads t
  {
    && Describes(r, t) && !t.isInit
    && t.curTime == t.newTime == TimeBefore(r, log, |log|) && t.dt[0] == DtBefore(r, log, |log|)
    && t.timeIndex == r.startIndex + |log| + (if go then 1 else 0)
    && (go ==> GoesOn(r, log, |log|))
  }

  /** Starts the next step, or finds that the run is over. */
  method Begin(ghost r: Run, ghost log: seq<Step>, t: SimTime) returns (go: bool)
    requires Ready(r) && Describes(r, t)
    requires t.newTime == TimeBefore(r, log, |log|) && t.dt[0] == DtBefore(r, log, |log|)
    requires t.timeIndex == r.startIndex + |log|
    modifies t
    ensures InStep(r, log, t, go) && (go <==> GoesOn(r, log, |log|))
  {
    go := t.NewTimestep();
  }

  /** One pass of the loop body: choose the step, advance, ask what to write. */
  method TakeStep(ghost r: Run, t: SimTime, c: Cfl, ghost log: seq<Step>) returns (fault: bool, s: Step)
    requires Ready(r) && RunOk(r, log) && InStep(r, log, t, true) && IsCfl(c) && !BeforeDelay(r.g, t.curTime)
    modifies t
    ensures fault
            <==> r.g.adaptive && AdaptiveDt(r.g, Moment(false, old(t.curTime), old(t.dt[0]), r.stop), r.post, c).Abort?
    ensures !fault ==> Describes(r, t) && RunOk(r, log + [s]) && s.cfl == c
    ensures !fault ==> t.newTime == s.next && t.dt[0] == s.dt && t.timeIndex == r.startIndex + |log| + 1
    ensures !fault ==> old(t.newTime) < s.next
    ensures !fault && EndsByTime(r) ==> 0 <= StepsLeft(r, s.next) < StepsLeft(r, old(t.newTime))
    ensures !fault ==> WritesByCount(r, s, |log|)
  {
    ghost var m := t.Now();
    var q := t.SetCurrentCfl(c);
    s := Step(t.timeIndex, t.curTime, t.dt[0], t.newTime, c, false, false);
    fault := q.Abort?;
    if !fault {
      if r.g.adaptive {
        AdaptiveStepIsGood(r.g, m, r.post, c, r.absTol, t.dt[0]);
      }
      t.AdvanceTime();
      s := Step(t.timeIndex, t.curTime, t.dt[0], t.newTime, c,
                WriteNow(t.cfg.plt, t.PlotBeat()), WriteNow(t.cfg.chkpt, t.CheckpointBeat()));
      assert StepOk(r, log + [s], |log|);
      RunExtends(r, log, s);
      StepWritesByCount(r, log + [s], |log|);
      if EndsByTime(r) {
        StepsLeftDrops(r, m.cur, s.next);
      }
    }
  }

  /** What the step after those of `log` is chosen from. */
  function MomentAfter(r: Run, log: seq<Step>): Moment {
    Moment(false, TimeBefore(r, log, |log|), DtBefore(r, log, |log|), r.stop)
  }

  /** What is left of a run: steps to go up to the limit if there is one, and otherwise
      those that can be taken until the stop time. */
  function Fuel(r: Run, t: real, index: int): int
    requires EndsByCount(r) || Stride(r) > 0.0
  {
    if EndsByCount(r) then r.maxStep - index else StepsLeft(r, t)
  }

  /** What the loop has logged. */
  ghost predicate Logged(r: Run, log: seq<Step>, cfl: nat -> Cfl) {
    && RunOk(r, log) && WentOn(r, log) && AllByCount(r, log)
    && forall i :: 0 <= i < |log| ==> log[i].cfl == cfl(i)
  }

  lemma LoggedExtends(r: Run, log: seq<Step>, cfl: nat -> Cfl, s: Step)
    requires Logged(r, log, cfl) && GoesOn(r, log, |log|)
    requires RunOk(r, log + [s]) && WritesByCount(r, s, |log|) && s.cfl == cfl(|log|)
    ensures Logged(r, log + [s], cfl)
  {
    WentOnExtends(r, log, s);
  }

  /** The loop itself. */
  method RunSteps(ghost r: Run, t: SimTime, cfl: nat -> Cfl) returns (log: seq<Step>, fault: bool)
    requires Ready(r) && (EndsByTime(r) || EndsByCount(r)) && Describes(r, t) && forall n: nat :: IsCfl(cfl(n))
    requires t.newTime == r.start && t.dt[0] == r.dt0 && t.timeIndex == r.startIndex && !BeforeDelay(r.g, r.start)
    modifies t
    ensures Logged(r, log, cfl)
    ensures EndsByTime(r) ==> |log| <= StepsLeft(r, r.start)
    ensures fault ==> GoesOn(r, log, |log|)
    ensures fault ==> r.g.adaptive && AdaptiveDt(r.g, MomentAfter(r, log), r.post, cfl(|log|)).Abort?
    ensures !fault ==> InStep(r, log, t, false) && !GoesOn(r, log, |log|)
  {
    log, fault := [], false;
    if EndsByTime(r) {
      StepsLeftNotNegative(r, r.start);
    }
    var go := Begin(r, log, t);
    while go
      invariant InStep(r, log, t, go) && Logged(r, log, cfl) && (go <==> GoesOn(r, log, |log|))
      invariant t.newTime >= r.start
      invariant EndsByTime(r) ==> 0 <= StepsLeft(r, t.newTime) <= StepsLeft(r, r.start) - |log|
      decreases go, Fuel(r, t.newTime, t.timeIndex)
    {
      var s;
      fault, s := TakeStep(r, t, cfl(|log|), log);
      if fault {
        return;
      }
      LoggedExtends(r, log, cfl, s);
      log := log + [s];
      go := Begin(r, log, t);
    }
  }

  /** The loop ends for every sequence of CFL numbers, whether the number of steps is
      limited or the stop time, or both.  Every step it logs meets all limits, and at the
      end the clock says once more what is still to be written. Without a fault the run
      goes on up to its stop time, or up to its limit of steps, whichever comes first. */
  method Evolve(ghost r: Run, t: SimTime, cfl: nat -> Cfl)
      returns (log: seq<Step>, fault: bool, lastPlot: bool, lastCheckpoint: bool)
    requires Ready(r) && (EndsByTime(r) || EndsByCount(r)) && Describes(r, t) && forall n: nat :: IsCfl(cfl(n))
    requires t.newTime == r.start && t.dt[0] == r.dt0 && t.timeIndex == r.startIndex && !BeforeDelay(r.g, r.start)
    modifies t
    ensures RunOk(r, log) && AllByCount(r, log)
    ensures EndsByTime(r) ==> |log| <= StepsLeft(r, r.start)
    ensures forall i :: 0 <= i < |log| ==> log[i].cfl == cfl(i)
    ensures fault ==> r.g.adaptive && AdaptiveDt(r.g, MomentAfter(r, log), r.post, cfl(|log|)).Abort?
    ensures EndsByCount(r) ==> log == [] || |log| <= r.maxStep - r.startIndex
    ensures WentOn(r, log) && (r.maxStep == 0 ==> log == [] && !fault)
    ensures !fault && r.maxStep != 0 ==>
              || (r.stop > 0.0 && TimeBefore(r, log, |log|) >= r.stop - 1.0e4 * r.g.epsilon)
              || (r.maxStep > 0 && |log| == if r.maxStep >= r.startIndex then r.maxStep - r.startIndex else 0)
    ensures !fault ==> t.Valid() && t.newTime == TimeBefore(r, log, |log|) && t.timeIndex == r.startIndex + |log|
    ensures !fault ==> lastPlot == WriteLast(r.g.plt, FinalBeat(r, log, r.pltIndex, r.pltTime))
    ensures !fault ==> lastCheckpoint == WriteLast(r.g.chkpt, FinalBeat(r, log, r.chkIndex, r.chkTime))
    ensures !fault && CountsSteps(r.g.plt) ==>
              (lastPlot <==> !IsMultiple(r.startIndex + |log| - r.pltIndex, r.g.plt.interval))
    ensures !fault && CountsSteps(r.g.chkpt) ==>
              (lastCheckpoint <==> !IsMultiple(r.startIndex + |log| - r.chkIndex, r.g.chkpt.interval))
  {
    lastPlot, lastCheckpoint := false, false;
    log, fault := RunSteps(r, t, cfl);
    if EndsByCount(r) {
      StepsWithinLimit(r, log);
    }
    if !fault {
      if r.maxStep != 0 {
        RunHasEnded(r, log);
      }
      lastPlot := WriteLast(t.cfg.plt, t.PlotBeat());
      lastCheckpoint := WriteLast(t.cfg.chkpt, t.CheckpointBeat());
      if CountsSteps(r.g.plt) {
        LastByCount(r, log, r.g.plt, r.pltIndex, r.pltTime);
      }
      if CountsSteps(r.g.chkpt) {
        LastByCount(r, log, r.g.chkpt, r.chkIndex, r.chkTime);
      }
    }
  }

  lemma StepsWithinLimit(r: Run, log: seq<Step>)
    requires WentOn(r, log) && EndsByCount(r)
    ensures log == [] || |log| <= r.maxStep - r.startIndex
    ensures r.maxStep == 0 ==> log == []
  {
    if log != [] {
      assert GoesOn(r, log, |log| - 1);
    }
  }

  lemma StepsLeftNotNegative(r: Run, t: real)
    requires Bounded(r)
    ensures StepsLeft(r, t) >= 0
  {
    if t < r.stop {
      QuotientPositive(r.stop - t, Stride(r));
    }
  }
}
