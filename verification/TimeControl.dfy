/** The simulation clock as the solver drives it: a class whose methods advance the
    time, choose the step and say when to write, and the time loop over it. */
module TimeControl {
  import opened Basics
  import opened Clock

  // --------------------------------------------------------- output triggers

  function TriggerTol(ch: Channel, dt: real, absTol: real): real {
    Min(ch.reltol * dt, absTol)
  }

  /** Where the clock stands with respect to one output channel. */
  datatype Beat = Beat(timeIndex: int, newTime: real, dt: real, absTol: real, startIndex: int, startTime: real)

  function Phase(ch: Channel, b: Beat): real
    requires ch.timeInterval > 0.0
  {
    (b.newTime - b.startTime + TriggerTol(ch, b.dt, b.absTol)) / ch.timeInterval
  }

  predicate OnBeat(ch: Channel, b: Beat)
    requires ch.timeInterval > 0.0
  {
    Phase(ch, b) - Phase(ch, b).Floor as real < b.dt / ch.timeInterval
  }

  predicate WriteNow(ch: Channel, b: Beat) {
    || (ch.interval > 0 && b.timeIndex - ch.delay >= 0 && (b.timeIndex - b.startIndex) % ch.interval == 0)
    || (ch.timeInterval > 0.0 && b.newTime + TriggerTol(ch, b.dt, b.absTol) - ch.timeDelay >= 0.0 && OnBeat(ch, b))
  }

  predicate WriteLast(ch: Channel, b: Beat) {
    || (ch.interval > 0 && (b.timeIndex - b.startIndex) % ch.interval != 0)
    || (ch.timeInterval > 0.0 && !OnBeat(ch, b))
  }

  // --------------------------------------------------- the absolute tolerance

  function TolWith(tol: real, r: Rule): real {
    if r.enforce then Min(tol, AbsTolOf(r)) else tol
  }

  function TolOver(rules: seq<Rule>, n: nat, tol: real): real
    requires n <= |rules|
  {
    if n == 0 then tol else TolWith(TolOver(rules, n - 1, tol), rules[n - 1])
  }

  ghost predicate PositiveRules(rules: seq<Rule>) {
    forall r :: r in rules && Active(r) ==> r.tol > 0.0
  }

  lemma {:induction false} TolOverCovers(rules: seq<Rule>, n: nat, tol: real)
    requires n <= |rules| && PositiveRules(rules)
    ensures TolOver(rules, n, tol) <= tol
    ensures Covers(TolOver(rules, n, tol), rules[..n])
    ensures tol > 0.0 && (forall r :: r in rules && r.enforce ==> r.interval > 0.0) ==> TolOver(rules, n, tol) > 0.0
  {
    if n > 0 {
      TolOverCovers(rules, n - 1, tol);
      var r := rules[n - 1];
      assert r in rules;
      if r.enforce && r.interval > 0.0 {
        ProductOrder(0.0, r.tol, r.interval);
      }
    }
  }

  /** The recomputed tolerance is the old one or one of the allowances. */
  lemma {:induction false} TolOverIsReached(rules: seq<Rule>, n: nat, tol: real)
    requires n <= |rules|
    ensures TolOver(rules, n, tol) == tol
            || exists i :: 0 <= i < n && rules[i].enforce && TolOver(rules, n, tol) == rules[i].tol * rules[i].interval
  {
    if n > 0 {
      TolOverIsReached(rules, n - 1, tol);
    }
  }

  lemma PrefixOfChannels(g: Config, post: seq<Rule>, tol: real)
    ensures TolOver(AllRules(g, post), 2, tol) == TolWith(TolWith(tol, RuleOf(g.chkpt)), RuleOf(g.plt))
  {
    assert TolOver(AllRules(g, post), 1, tol) == TolWith(tol, RuleOf(g.chkpt));
  }

  // ------------------------------------------------------------------- the class

  /** The combinations of inputs that the parser lets through. */
  predicate Accepted(g: Config) {
    && (g.adaptive <==> g.fixedDt <= 0.0)
    && !(g.plt.interval > 0 && g.plt.timeInterval > 0.0) && !(g.chkpt.interval > 0 && g.chkpt.timeInterval > 0.0)
    && (g.plt.enforce ==> g.plt.timeInterval > 0.0) && (g.chkpt.enforce ==> g.chkpt.timeInterval > 0.0)
    && (g.plt.enforce || g.chkpt.enforce ==> g.adaptive)
    && g.epsilon > 0.0
  }

  const INITIAL_ABS_TOL := 1.0e8

  function Or<T>(o: Option<T>, preset: T): T { if o.Some? then o.value else preset }

  /** Where the input may say that plot files and checkpoints start to be counted. */
  datatype Starts = Starts(pltIndex: Option<int>, pltTime: Option<real>,
                           chkptIndex: Option<int>, chkptTime: Option<real>)

  class SimTime {
    const cfg: Config
    const starts: Starts
    var dt: seq<real>
    var curTime: real
    var newTime: real
    var stopTime: real
    var stopTimeIndex: int
    var timeIndex: int
    var currentCfl: real
    var dtCalc: real
    var forceDtAbsTol: real
    var pltStartIndex: int
    var pltStartTime: real
    var chkptStartIndex: int
    var chkptStartTime: real
    var isInit: bool
    var post: seq<Rule>

    ghost predicate Valid()
      reads this
    {
      |dt| == 3 && Accepted(cfg)
    }

    constructor (g: Config, user: Starts, stop: real, maxStep: int)
      requires Accepted(g)
      ensures Valid() && cfg == g && starts == user && stopTime == stop && stopTimeIndex == maxStep
      ensures pltStartIndex == Or(user.pltIndex, 0) && pltStartTime == Or(user.pltTime, 0.0)
      ensures chkptStartIndex == Or(user.chkptIndex, 0) && chkptStartTime == Or(user.chkptTime, 0.0)
      ensures isInit && post == [] && curTime == newTime == 0.0 && timeIndex == 0
      ensures dt[0] == if g.adaptive then -1.0 else g.fixedDt
      ensures forceDtAbsTol == TolOver(AllRules(g, []), 2, INITIAL_ABS_TOL)
    {
      cfg, starts := g, user;
      dt := if g.adaptive then [-1.0, -1.0, -1.0] else [g.fixedDt, -1.0, -1.0];
      curTime, newTime, stopTime := 0.0, 0.0, stop;
      stopTimeIndex, timeIndex := maxStep, 0;
      currentCfl, dtCalc, forceDtAbsTol := 0.0, 0.0, INITIAL_ABS_TOL;
      pltStartIndex, pltStartTime := Or(user.pltIndex, 0), Or(user.pltTime, 0.0);
      chkptStartIndex, chkptStartTime := Or(user.chkptIndex, 0), Or(user.chkptTime, 0.0);
      isInit, post := true, [];
      new;
      CalculateMinimumEnforceDtAbsTol();
    }

    function PlotBeat(): Beat
      requires |dt| == 3
      reads this
    {
      Beat(timeIndex, newTime, dt[0], forceDtAbsTol, pltStartIndex, pltStartTime)
    }

    function CheckpointBeat(): Beat
      requires |dt| == 3
      reads this
    {
      Beat(timeIndex, newTime, dt[0], forceDtAbsTol, chkptStartIndex, chkptStartTime)
    }

    predicate ContinueSimulation()
      reads this
      requires cfg.epsilon > 0.0
    {
      if stopTimeIndex == 0 then false
      else if stopTime > 0.0 && newTime + cfg.epsilon * 1.0e4 >= stopTime then false
      else if stopTimeIndex > 0 && timeIndex >= stopTimeIndex then false
      else true
    }

    method NewTimestep() returns (go: bool)
      requires Valid()
      modifies this
      ensures Valid()
      ensures go <==> stopTimeIndex != 0 && (stopTime > 0.0 ==> old(newTime) < stopTime - 1.0e4 * cfg.epsilon)
                      && (stopTimeIndex > 0 ==> old(timeIndex) < stopTimeIndex)
      ensures !isInit && curTime == newTime == old(newTime)
      ensures dt == (if go then [old(dt)[0], old(dt)[0], old(dt)[1]] else old(dt))
      ensures timeIndex == (if go then old(timeIndex) + 1 else old(timeIndex))
      ensures unchanged(`stopTime, `stopTimeIndex, `forceDtAbsTol, `post, `currentCfl, `dtCalc)
      ensures unchanged(`pltStartIndex, `pltStartTime, `chkptStartIndex, `chkptStartTime)
    {
      go := ContinueSimulation();
      isInit := false;
      if go {
        var i := 2;
        while i > 0
          invariant 0 <= i <= 2 && |dt| == 3 && dt[0] == old(dt)[0]
          invariant dt[1] == (if i < 1 then old(dt)[0] else old(dt)[1])
          invariant dt[2] == (if i < 2 then old(dt)[1] else old(dt)[2])
          invariant unchanged(`newTime, `timeIndex, `stopTime, `stopTimeIndex, `forceDtAbsTol, `post)
          invariant unchanged(`currentCfl, `dtCalc, `pltStartIndex, `pltStartTime, `chkptStartIndex, `chkptStartTime)
          invariant !isInit
        {
          dt := dt[i := dt[i - 1]];
          i := i - 1;
        }
        timeIndex := timeIndex + 1;
        curTime := newTime;
      } else {
        curTime := newTime;
      }
    }

    function Now(): Moment
      requires |dt| == 3
      reads this
    {
      Moment(isInit, curTime, dt[0], stopTime)
    }

    /** What the step will be: the adaptive or the fixed one, or the initial one
        while adaptive stepping is delayed. */
    function NextDt(c: Cfl): Result<real>
      requires Valid()
      reads this
    {
      if !cfg.adaptive then Ok(if BeforeDelay(cfg, curTime) then cfg.initialDt else cfg.fixedDt)
      else match AdaptiveDt(cfg, Now(), post, c)
        case Abort(f) => Abort(f)
        case Ok(d) => Ok(if BeforeDelay(cfg, curTime) then cfg.initialDt else d)
    }

    /** Shortens a step for the checkpoint, plot and post-processing intervals. */
    method ShortenForOutputs(d: real) returns (dtNew: real)
      requires Valid()
      ensures dtNew == ShortenedBy(AllRules(cfg, post), |AllRules(cfg, post)|, curTime, d)
    {
      ghost var rules := AllRules(cfg, post);
      dtNew := d;
      if cfg.chkpt.timeInterval > 0.0 && cfg.chkpt.enforce && curTime + dtNew - cfg.chkpt.timeDelay >= 0.0 {
        dtNew := EnforcedDt(dtNew, curTime, cfg.chkpt.timeInterval, cfg.chkpt.enforceTol);
      }
      assert dtNew == ShortenedBy(rules, 1, curTime, d);
      if cfg.plt.timeInterval > 0.0 && cfg.plt.enforce && curTime + dtNew - cfg.plt.timeDelay >= 0.0 {
        dtNew := EnforcedDt(dtNew, curTime, cfg.plt.timeInterval, cfg.plt.enforceTol);
      }
      for npp := 0 to |post|
        invariant dtNew == ShortenedBy(rules, npp + 2, curTime, d)
      {
        assert rules[npp + 2] == post[npp];
        if post[npp].interval > 0.0 && post[npp].enforce && curTime + dtNew - post[npp].delay >= 0.0 {
          dtNew := EnforcedDt(dtNew, curTime, post[npp].interval, post[npp].tol);
        }
      }
    }

    /** The CFL number turned into a step, or into the reason to abort. */
    method StepForCfl(c: Cfl) returns (r: Result<real>)
      requires Valid()
      ensures r == CflDt(cfg, Now(), c)
    {
      var unit := UnitCfl(c);
      var useInitDt := false;
      if cfg.adaptive && !isInit && unit < cfg.epsilon {
        if curTime < cfg.epsilon {
          if cfg.initialDt > 0.0 {
            useInitDt := true;
          } else {
            return Abort(NoInitialDt);
          }
        } else {
          return Abort(CflTooSmall);
        }
      }
      r := Ok(if useInitDt then cfg.initialDt else 2.0 * cfg.maxCfl / Max(unit, cfg.epsilon));
    }

    /** Growth, size and stop-time limits of an adaptive step. */
    method RestrictStep(d: real) returns (r: Result<real>)
      requires Valid() && cfg.adaptive
      ensures r == Restricted(cfg, Now(), d)
    {
      var dtNew := d;
      if dt[0] > 0.0 && cfg.adaptive {
        dtNew := Min(dtNew, (1.0 + cfg.growth) * dt[0]);
      }
      if cfg.maxDt > 0.0 {
        dtNew := Min(dtNew, cfg.maxDt);
      }
      if cfg.minDt > 0.0 && dtNew < cfg.minDt {
        return Abort(BelowMinDt);
      }
      if stopTime > 0.0 && curTime + dtNew > stopTime {
        dtNew := stopTime - curTime;
      }
      r := Ok(dtNew);
    }

    method AdaptiveStep(d: real) returns (r: Result<real>)
      requires Valid() && cfg.adaptive
      ensures r == Enforced(cfg, Now(), post, Restricted(cfg, Now(), d))
    {
      r := RestrictStep(d);
      if r.Ok? {
        var dtNew := ShortenForOutputs(r.value);
        if isInit && cfg.initialDt > 0.0 {
          dtNew := Min(dtNew, cfg.initialDt);
        }
        r := Ok(dtNew);
      }
    }

    /** The step that the CFL number calls for, and the one the clock will take. */
    method ChooseStep(c: Cfl) returns (r: Result<real>, calculated: real)
      requires Valid()
      ensures r == NextDt(c)
      ensures r.Ok? && cfg.adaptive ==> AdaptiveDt(cfg, Now(), post, c) == Ok(calculated)
    {
      ghost var m := Now();
      AdaptiveDtFrom(cfg, m, post, c);
      var s := StepForCfl(c);
      if s.Abort? {
        return s, 0.0;
      }
      calculated := if isInit then s.value * cfg.initShrink else s.value;
      assert calculated == Shrunk(cfg, m, s.value);
      if cfg.adaptive {
        s := AdaptiveStep(calculated);
        assert s == AdaptiveDt(cfg, m, post, c);
        if s.Abort? {
          return s, 0.0;
        }
        calculated := s.value;
      }
      r := Ok(if BeforeDelay(cfg, curTime) then cfg.initialDt else if cfg.adaptive then calculated else cfg.fixedDt);
    }

    method SetCurrentCfl(c: Cfl) returns (r: Result<real>)
      requires Valid()
      modifies this`dt, this`currentCfl, this`dtCalc
      ensures Valid() && r == old(NextDt(c))
      ensures r.Ok? ==> dt == old(dt)[0 := r.value] && currentCfl == 0.5 * UnitCfl(c) * r.value
      ensures r.Ok? && cfg.adaptive ==> old(AdaptiveDt(cfg, Now(), post, c)) == Ok(dtCalc)
      ensures r.Abort? ==> unchanged(this)
      ensures r.Ok? ==> dt[0] == if curTime + 0.1 * Max(cfg.initialDt, 0.0) < cfg.delayTime then cfg.initialDt
                                 else if cfg.adaptive then dtCalc else cfg.fixedDt
    {
      var calculated;
      r, calculated := ChooseStep(c);
      if r.Ok? {
        dt := dt[0 := r.value];
        currentCfl := 0.5 * UnitCfl(c) * r.value;
        dtCalc := calculated;
      }
    }

    method AdvanceTime()
      requires Valid()
      modifies this`newTime
      ensures Valid() && newTime == curTime + dt[0]
    {
      newTime := curTime + dt[0];
    }

    method AddPostprocDtParameters(enforceFlag: bool, tol: real, interval: real, delay: real)
      requires Valid()
      modifies this`post
      ensures Valid() && post == old(post) + [Rule(enforceFlag, tol, interval, delay)]
    {
      post := post + [Rule(enforceFlag, tol, interval, delay)];
    }

    method CalculateMinimumEnforceDtAbsTol()
      requires Valid()
      modifies this`forceDtAbsTol
      ensures Valid() && forceDtAbsTol == TolOver(AllRules(cfg, post), |AllRules(cfg, post)|, old(forceDtAbsTol))
    {
      PrefixOfChannels(cfg, post, forceDtAbsTol);
      ghost var rules := AllRules(cfg, post);
      forceDtAbsTol := if cfg.chkpt.enforce then Min(forceDtAbsTol, cfg.chkpt.enforceTol * cfg.chkpt.timeInterval)
                       else forceDtAbsTol;
      forceDtAbsTol := if cfg.plt.enforce then Min(forceDtAbsTol, cfg.plt.enforceTol * cfg.plt.timeInterval)
                       else forceDtAbsTol;
      for npp := 0 to |post|
        invariant forceDtAbsTol == TolOver(rules, npp + 2, old(forceDtAbsTol))
      {
        assert rules[npp + 2] == post[npp];
        forceDtAbsTol := if post[npp].enforce then Min(forceDtAbsTol, post[npp].tol * post[npp].interval)
                         else forceDtAbsTol;
      }
    }

    /** After a restart files are counted from there, unless the input says otherwise. */
    method SetRestartTime(tidx: int, time: real)
      requires Valid()
      modifies this
      ensures Valid() && timeIndex == tidx && newTime == curTime == time
      ensures pltStartIndex == Or(starts.pltIndex, tidx) && pltStartTime == Or(starts.pltTime, time)
      ensures chkptStartIndex == Or(starts.chkptIndex, tidx) && chkptStartTime == Or(starts.chkptTime, time)
      ensures unchanged(`dt, `stopTime, `stopTimeIndex, `forceDtAbsTol, `post, `isInit, `currentCfl, `dtCalc)
    {
      timeIndex := tidx;
      pltStartIndex, pltStartTime := Or(starts.pltIndex, tidx), Or(starts.pltTime, time);
      chkptStartIndex, chkptStartTime := Or(starts.chkptIndex, tidx), Or(starts.chkptTime, time);
      newTime, curTime := time, time;
    }
  }
}
