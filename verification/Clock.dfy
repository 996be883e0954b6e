/** Arithmetic of the simulation clock: the adaptive time step as a function of the
    inputs, and what each of its limits guarantees. */
module Clock {
  import opened Basics

  /** One kind of output: every so many steps, or every so much time. */
  datatype Channel = Channel(interval: int, timeInterval: real, delay: int, timeDelay: real,
                             reltol: real, enforce: bool, enforceTol: real)

  /** An output interval on which time steps may be made to end. */
  datatype Rule = Rule(enforce: bool, tol: real, interval: real, delay: real)

  datatype Config = Config(adaptive: bool, delayTime: real, maxCfl: real, fixedDt: real, initialDt: real,
                           maxDt: real, minDt: real, initShrink: real, growth: real,
                           plt: Channel, chkpt: Channel, epsilon: real)

  /** Convective, diffusive and source parts of the CFL number of a unit time step;
      `root` is the square root taken of them. */
  datatype Cfl = Cfl(conv: real, diff: real, src: real, root: real)

  predicate IsCfl(c: Cfl) {
    && c.conv >= 0.0 && c.diff >= 0.0 && c.src >= 0.0 && c.root >= 0.0
    && c.root * c.root == (c.conv + c.diff) * (c.conv + c.diff) + 4.0 * c.src
  }

  function UnitCfl(c: Cfl): real { c.conv + c.diff + c.root }

  datatype Moment = Moment(isInit: bool, cur: real, dt0: real, stopTime: real)

  datatype Fault = NoInitialDt | CflTooSmall | BelowMinDt

  datatype Result<+T> = Ok(value: T) | Abort(fault: Fault)

  // ------------------------------------------------------ the limits, in order

  /** The step that the CFL number allows, or the initial one at the very start. */
  function CflDt(g: Config, m: Moment, c: Cfl): Result<real>
    requires g.epsilon > 0.0
  {
    var unit := UnitCfl(c);
    if g.adaptive && !m.isInit && unit < g.epsilon then
      if m.cur < g.epsilon then
        if g.initialDt > 0.0 then Ok(g.initialDt) else Abort(NoInitialDt)
      else Abort(CflTooSmall)
    else Ok(2.0 * g.maxCfl / Max(unit, g.epsilon))
  }

  function Grown(g: Config, m: Moment, dt: real): real {
    if m.dt0 > 0.0 && g.adaptive then Min(dt, (1.0 + g.growth) * m.dt0) else dt
  }

  function Capped(g: Config, dt: real): real {
    if g.maxDt > 0.0 then Min(dt, g.maxDt) else dt
  }

  function Stopped(m: Moment, dt: real): real {
    if m.stopTime > 0.0 && m.cur + dt > m.stopTime then m.stopTime - m.cur else dt
  }

  /** The output time after the last one, which counts as past once `cur` is within
      the tolerance of it. */
  function NextOutput(cur: real, interval: real, tol: real): real
    requires interval > 0.0
  {
    ((cur / interval + tol).Floor + 1) as real * interval
  }

  function EnforcedDt(dt: real, cur: real, interval: real, tol: real): real
    requires interval > 0.0
  {
    Min(dt, NextOutput(cur, interval, tol) - cur)
  }

  predicate Active(r: Rule) { r.interval > 0.0 && r.enforce }

  function Shortened(r: Rule, cur: real, dt: real): real {
    if Active(r) && cur + dt - r.delay >= 0.0 then EnforcedDt(dt, cur, r.interval, r.tol) else dt
  }

  function ShortenedBy(rules: seq<Rule>, n: nat, cur: real, dt: real): real
    requires n <= |rules|
  {
    if n == 0 then dt else Shortened(rules[n - 1], cur, ShortenedBy(rules, n - 1, cur, dt))
  }

  function RuleOf(ch: Channel): Rule {
    Rule(ch.enforce, ch.enforceTol, ch.timeInterval, ch.timeDelay)
  }

  /** Checkpoints first, then plot files, then post-processing in registration order. */
  function AllRules(g: Config, post: seq<Rule>): seq<Rule> {
    [RuleOf(g.chkpt), RuleOf(g.plt)] + post
  }

  /** Before it is shortened for outputs: the step under the CFL, growth, size and
      stop-time limits. */
  function LimitedDt(g: Config, m: Moment, c: Cfl): Result<real>
    requires g.epsilon > 0.0
  {
    match CflDt(g, m, c)
    case Abort(f) => Abort(f)
    case Ok(d) => Restricted(g, m, Shrunk(g, m, d))
  }

  /** Steps are cautious while the solver initializes. */
  function Shrunk(g: Config, m: Moment, d: real): real {
    if m.isInit then d * g.initShrink else d
  }

  function Restricted(g: Config, m: Moment, d: real): Result<real> {
    var dt := Capped(g, Grown(g, m, d));
    if g.minDt > 0.0 && dt < g.minDt then Abort(BelowMinDt) else Ok(Stopped(m, dt))
  }

  predicate BeforeDelay(g: Config, cur: real) {
    cur < g.delayTime - 0.1 * Max(g.initialDt, 0.0)
  }

  /** A limited step shortened for outputs. */
  function Enforced(g: Config, m: Moment, post: seq<Rule>, limited: Result<real>): Result<real> {
    match limited
    case Abort(f) => Abort(f)
    case Ok(d) =>
      var s := ShortenedBy(AllRules(g, post), |AllRules(g, post)|, m.cur, d);
      Ok(if m.isInit && g.initialDt > 0.0 then Min(s, g.initialDt) else s)
  }

  /** The adaptive step. */
  function AdaptiveDt(g: Config, m: Moment, post: seq<Rule>, c: Cfl): Result<real>
    requires g.epsilon > 0.0
  {
    Enforced(g, m, post, LimitedDt(g, m, c))
  }

  lemma AdaptiveDtFrom(g: Config, m: Moment, post: seq<Rule>, c: Cfl)
    requires g.epsilon > 0.0
    ensures CflDt(g, m, c).Abort? ==> AdaptiveDt(g, m, post, c) == CflDt(g, m, c)
    ensures CflDt(g, m, c).Ok? ==>
              AdaptiveDt(g, m, post, c) == Enforced(g, m, post, Restricted(g, m, Shrunk(g, m, CflDt(g, m, c).value)))
  {
  }

  // -------------------------------------------------- enforced output intervals

  lemma ProductOrder(a: real, b: real, k: real)
    requires k > 0.0
    ensures a <= b ==> a * k <= b * k
    ensures a < b ==> a * k < b * k
  {
  }

  lemma Distribute(a: real, b: real, k: real)
    ensures (a + b) * k == a * k + b * k == k * (a + b)
    ensures -a * k == -(a * k)
  {
  }

  lemma QuotientTimes(a: real, k: real)
    requires k != 0.0
    ensures a / k * k == a
  {
  }

  /** The next multiple of `interval` is more than the tolerance ahead. */
  lemma NextMultiple(cur: real, interval: real, tol: real)
    requires interval > 0.0
    ensures NextOutput(cur, interval, tol) > cur + tol * interval
  {
    var q := cur / interval;
    QuotientTimes(cur, interval);
    var n: real := ((q + tol).Floor + 1) as real;
    assert q + tol < n;
    ProductOrder(q + tol, n, interval);
    Distribute(q, tol, interval);
    assert NextOutput(cur, interval, tol) == n * interval;
  }

  /** No multiple that far ahead comes before it. */
  lemma NextMultipleIsFirst(cur: real, interval: real, tol: real, k: int)
    requires interval > 0.0 && cur < (k as real - tol) * interval
    ensures NextOutput(cur, interval, tol) <= k as real * interval
  {
    var q := cur / interval;
    QuotientTimes(cur, interval);
    ProductOrder(k as real - tol, q, interval);
    assert (q + tol).Floor + 1 <= k;
    ProductOrder(((q + tol).Floor + 1) as real, k as real, interval);
  }

  /** `t` is the output time `k * interval` of an active rule, due and still ahead. */
  predicate Due(r: Rule, k: int, cur: real) {
    Active(r) && k as real * r.interval >= r.delay && cur < (k as real - r.tol) * r.interval
  }

  lemma ShortenedStep(r: Rule, cur: real, dt: real)
    requires Active(r) ==> r.tol > 0.0
    ensures Shortened(r, cur, dt) <= dt
    ensures Active(r) ==> Shortened(r, cur, dt) >= Min(dt, AbsTolOf(r))
    ensures KeepsTo(r, cur, Shortened(r, cur, dt))
  {
    if Active(r) {
      NextMultiple(cur, r.interval, r.tol);
    }
    forall k: int | Due(r, k, cur)
      ensures cur + Shortened(r, cur, dt) <= k as real * r.interval
    {
      NextMultipleIsFirst(cur, r.interval, r.tol, k);
    }
  }

  /** The tolerance of a rule, which is relative to its interval, as a time. */
  function AbsTolOf(r: Rule): real { r.tol * r.interval }

  /** `tol` is no larger than the absolute tolerance of any active rule. */
  ghost predicate Covers(tol: real, rules: seq<Rule>) {
    forall i :: 0 <= i < |rules| && Active(rules[i]) ==> rules[i].tol > 0.0 && tol <= AbsTolOf(rules[i])
  }

  /** A step of `dt` passes over no due output time of `r`. */
  ghost predicate KeepsTo(r: Rule, cur: real, dt: real) {
    forall k: int :: Due(r, k, cur) ==> cur + dt <= k as real * r.interval
  }

  lemma ShorterKeepsTo(r: Rule, cur: real, dt: real, shorter: real)
    requires KeepsTo(r, cur, dt) && shorter <= dt
    ensures KeepsTo(r, cur, shorter)
  {
  }

  /** All rules at once: the step only gets shorter, keeps to the tolerance, and
      crosses no due output time of any rule. */
  lemma {:induction false} ShortenedBySteps(rules: seq<Rule>, n: nat, cur: real, dt: real, tol: real)
    requires n <= |rules| && Covers(tol, rules)
    ensures Min(dt, tol) <= ShortenedBy(rules, n, cur, dt) <= dt
    ensures forall i :: 0 <= i < n ==> KeepsTo(rules[i], cur, ShortenedBy(rules, n, cur, dt))
  {
    if n > 0 {
      var before, after := ShortenedBy(rules, n - 1, cur, dt), ShortenedBy(rules, n, cur, dt);
      ShortenedBySteps(rules, n - 1, cur, dt, tol);
      ShortenedStep(rules[n - 1], cur, before);
      assert after == Shortened(rules[n - 1], cur, before);
      assert Active(rules[n - 1]) ==> tol <= AbsTolOf(rules[n - 1]);
      forall i | 0 <= i < n - 1
        ensures KeepsTo(rules[i], cur, after)
      {
        ShorterKeepsTo(rules[i], cur, before, after);
      }
    }
  }

  // ------------------------------------------------------------------ CFL bound

  lemma SourceTerm(cd: real, src: real, root: real, dt: real)
    requires root * root == cd * cd + 4.0 * src
    ensures src * (dt * dt) == (root - cd) * dt * ((cd + root) * dt) / 4.0
  {
    assert 4.0 * src == (root - cd) * (root + cd);
    assert (root - cd) * dt * ((cd + root) * dt) == (root - cd) * (root + cd) * (dt * dt);
  }

  lemma SquareOrder(a: real, b: real)
    requires a >= 0.0 && b >= 0.0 && a * a >= b * b
    ensures a >= b
  {
    if a < b {
      ProductOrder(0.0, b - a, b + a);
      Distribute(b, -a, b + a);
      Distribute(b, a, b);
      Distribute(b, a, a);
    }
  }

  /** Keeping the linear CFL number keeps the quadratic condition it stands for. */
  lemma QuadraticCfl(c: Cfl, dt: real, cfl: real)
    requires IsCfl(c) && dt >= 0.0 && cfl >= 0.0
    requires 0.5 * UnitCfl(c) * dt <= cfl
    ensures c.src * (dt * dt) + cfl * (c.conv + c.diff) * dt <= cfl * cfl
  {
    var cd, u := c.conv + c.diff, UnitCfl(c);
    SourceTerm(cd, c.src, c.root, dt);
    SquareOrder(c.root, cd);
    var x, y := (c.root - cd) * dt, u * dt;
    assert x >= 0.0;
    assert y <= 2.0 * cfl;
    assert x * y <= x * (2.0 * cfl);
    assert c.src * (dt * dt) <= x * cfl / 2.0;
    assert cfl * cd * dt == cfl * (cd * dt);
    assert x / 2.0 + cd * dt == y / 2.0;
    assert cfl * (x / 2.0 + cd * dt) <= cfl * cfl;
  }

  // ------------------------------------------------------------- the whole step

  /** Inputs under which every limit leaves a positive step. */
  predicate Sensible(g: Config) {
    g.adaptive && g.epsilon > 0.0 && g.maxCfl > 0.0 && g.growth >= 0.0
  }

  /** The stop time is still ahead. */
  predicate BeforeStop(m: Moment) { m.stopTime > 0.0 ==> m.cur < m.stopTime }

  predicate Running(m: Moment) { !m.isInit && BeforeStop(m) }

  lemma CflDtBounds(g: Config, m: Moment, c: Cfl, d: real)
    requires Sensible(g) && Running(m) && IsCfl(c) && CflDt(g, m, c) == Ok(d)
    ensures d > 0.0
    ensures UnitCfl(c) >= g.epsilon ==> UnitCfl(c) * d <= 2.0 * g.maxCfl
  {
    if UnitCfl(c) >= g.epsilon {
      QuotientTimes(2.0 * g.maxCfl, UnitCfl(c));
    }
  }

  lemma RestrictedBounds(g: Config, m: Moment, e: real, d: real)
    requires Sensible(g) && BeforeStop(m) && e > 0.0 && Restricted(g, m, e) == Ok(d)
    ensures 0.0 < d <= e
    ensures g.maxDt > 0.0 ==> d <= g.maxDt
    ensures m.dt0 > 0.0 ==> d <= (1.0 + g.growth) * m.dt0
    ensures m.stopTime > 0.0 ==> m.cur + d <= m.stopTime
    ensures g.minDt > 0.0 ==> d >= g.minDt || (m.stopTime > 0.0 && m.cur + d == m.stopTime)
  {
    if m.dt0 > 0.0 {
      ProductOrder(0.0, 1.0 + g.growth, m.dt0);
    }
  }

  /** The CFL number stays below its limit, and so does the condition it stands for. */
  predicate WithinCfl(g: Config, c: Cfl, dt: real) {
    && 0.5 * UnitCfl(c) * dt <= g.maxCfl
    && c.src * (dt * dt) + g.maxCfl * (c.conv + c.diff) * dt <= g.maxCfl * g.maxCfl
  }

  lemma ShorterKeepsCfl(g: Config, c: Cfl, e: real, dt: real)
    requires Sensible(g) && IsCfl(c) && UnitCfl(c) > 0.0 && 0.0 < dt <= e && UnitCfl(c) * e <= 2.0 * g.maxCfl
    ensures WithinCfl(g, c, dt)
  {
    ProductOrder(dt, e, UnitCfl(c));
    assert 0.5 * UnitCfl(c) * dt == 0.5 * (UnitCfl(c) * dt);
    QuadraticCfl(c, dt, g.maxCfl);
  }

  /** Every guarantee of one adaptive step at once. */
  ghost predicate GoodStep(g: Config, m: Moment, post: seq<Rule>, c: Cfl, tol: real, dt: real) {
    && dt > 0.0
    && (UnitCfl(c) >= g.epsilon ==> WithinCfl(g, c, dt))
    && (g.maxDt > 0.0 ==> dt <= g.maxDt)
    && (m.dt0 > 0.0 ==> dt <= (1.0 + g.growth) * m.dt0)
    && (m.stopTime > 0.0 ==> m.cur + dt <= m.stopTime)
    && (g.minDt > 0.0 ==> dt >= Min(g.minDt, tol) || (m.stopTime > 0.0 && m.cur + dt == m.stopTime))
    && CrossesNone(g, post, m.cur, dt)
  }

  /** The step passes over no due output time of any enforced interval. */
  ghost predicate CrossesNone(g: Config, post: seq<Rule>, cur: real, dt: real) {
    forall r :: r in AllRules(g, post) ==> KeepsTo(r, cur, dt)
  }

  lemma StepFrom(g: Config, m: Moment, post: seq<Rule>, c: Cfl, dt: real) returns (e: real, d: real)
    requires Sensible(g) && !m.isInit && AdaptiveDt(g, m, post, c) == Ok(dt)
    ensures CflDt(g, m, c) == Ok(e) && Restricted(g, m, e) == Ok(d) && LimitedDt(g, m, c) == Ok(d)
    ensures dt == ShortenedBy(AllRules(g, post), |AllRules(g, post)|, m.cur, d)
  {
    e, d := CflDt(g, m, c).value, LimitedDt(g, m, c).value;
  }

  lemma ShortenedKeepsCfl(g: Config, m: Moment, c: Cfl, e: real, dt: real)
    requires Sensible(g) && Running(m) && IsCfl(c) && CflDt(g, m, c) == Ok(e) && 0.0 < dt <= e
    ensures UnitCfl(c) >= g.epsilon ==> WithinCfl(g, c, dt)
  {
    CflDtBounds(g, m, c, e);
    if UnitCfl(c) >= g.epsilon {
      ShorterKeepsCfl(g, c, e, dt);
    }
  }

  lemma PartsAreGood(g: Config, m: Moment, post: seq<Rule>, c: Cfl, tol: real, e: real, d: real, dt: real)
    requires Sensible(g) && Running(m) && tol > 0.0
    requires e > 0.0 && Restricted(g, m, e) == Ok(d)
    requires Min(d, tol) <= dt <= d && CrossesNone(g, post, m.cur, dt)
    requires UnitCfl(c) >= g.epsilon ==> WithinCfl(g, c, dt)
    ensures GoodStep(g, m, post, c, tol, dt)
  {
    RestrictedBounds(g, m, e, d);
    StillGood(g, m, post, c, tol, d, dt);
  }

  lemma LimitedIsShorter(g: Config, m: Moment, c: Cfl, e: real, d: real)
    requires Sensible(g) && Running(m) && IsCfl(c)
    requires CflDt(g, m, c) == Ok(e) && Restricted(g, m, e) == Ok(d)
    ensures 0.0 < d <= e
  {
    CflDtBounds(g, m, c, e);
    RestrictedBounds(g, m, e, d);
  }

  /** Enforcing output times costs at most the tolerance. */
  lemma ShorteningIsBounded(g: Config, m: Moment, post: seq<Rule>, c: Cfl, tol: real, dt: real)
    requires Sensible(g) && !m.isInit && Covers(tol, AllRules(g, post)) && AdaptiveDt(g, m, post, c) == Ok(dt)
    ensures LimitedDt(g, m, c).Ok? && Min(LimitedDt(g, m, c).value, tol) <= dt <= LimitedDt(g, m, c).value
    ensures CrossesNone(g, post, m.cur, dt)
  {
    var e, d := StepFrom(g, m, post, c, dt);
    ShortenedBySteps(AllRules(g, post), |AllRules(g, post)|, m.cur, d, tol);
  }

  lemma AdaptiveStepIsGood(g: Config, m: Moment, post: seq<Rule>, c: Cfl, tol: real, dt: real)
    requires Sensible(g) && Running(m) && IsCfl(c)
    requires tol > 0.0 && Covers(tol, AllRules(g, post))
    requires AdaptiveDt(g, m, post, c) == Ok(dt)
    ensures GoodStep(g, m, post, c, tol, dt)
  {
    var e, d := StepFrom(g, m, post, c, dt);
    LimitedIsShorter(g, m, c, e, d);
    ShorteningIsBounded(g, m, post, c, tol, dt);
    ShortenedKeepsCfl(g, m, c, e, dt);
    PartsAreGood(g, m, post, c, tol, e, d, dt);
  }

  lemma StillGood(g: Config, m: Moment, post: seq<Rule>, c: Cfl, tol: real, d: real, dt: real)
    requires tol > 0.0 && d > 0.0 && Min(d, tol) <= dt <= d
    requires g.maxDt > 0.0 ==> d <= g.maxDt
    requires m.dt0 > 0.0 ==> d <= (1.0 + g.growth) * m.dt0
    requires m.stopTime > 0.0 ==> m.cur + d <= m.stopTime
    requires g.minDt > 0.0 ==> d >= g.minDt || (m.stopTime > 0.0 && m.cur + d == m.stopTime)
    requires UnitCfl(c) >= g.epsilon ==> WithinCfl(g, c, dt)
    requires CrossesNone(g, post, m.cur, dt)
    ensures GoodStep(g, m, post, c, tol, dt)
  {
  }

  // ------------------------------------------------- the step is as long as it may be

  /** The CFL number that a step is chosen for. */
  function CflGoal(g: Config, m: Moment): real { if m.isInit then g.initShrink * g.maxCfl else g.maxCfl }

  /** On the limit of the linear CFL number the quadratic condition is met with equality. */
  lemma QuadraticAtLimit(c: Cfl, dt: real, cfl: real)
    requires IsCfl(c) && 0.5 * UnitCfl(c) * dt == cfl
    ensures c.src * (dt * dt) + cfl * (c.conv + c.diff) * dt == cfl * cfl
  {
    var cd := c.conv + c.diff;
    SourceTerm(cd, c.src, c.root, dt);
    var x := (c.root - cd) * dt;
    assert (cd + c.root) * dt == 2.0 * cfl;
    assert x / 2.0 + cd * dt == cfl;
    assert cfl * cd * dt == cfl * (cd * dt);
    assert cfl * (x / 2.0 + cd * dt) == cfl * (x / 2.0) + cfl * (cd * dt);
  }

  /** A step meets the CFL condition with equality, or what replaces it while velocities
      vanish. */
  predicate AtCfl(g: Config, m: Moment, c: Cfl, dt: real) {
    if UnitCfl(c) >= g.epsilon then
      var cfl := CflGoal(g, m);
      c.src * (dt * dt) + cfl * (c.conv + c.diff) * dt == cfl * cfl
    else if m.isInit then 0.5 * g.epsilon * dt == CflGoal(g, m)
    else m.cur < g.epsilon && dt == g.initialDt > 0.0
  }

  lemma ScaledProduct(u: real, e: real, k: real)
    ensures 0.5 * u * (e * k) == 0.5 * (e * u) * k
  {
  }

  lemma CflReached(g: Config, m: Moment, c: Cfl, e: real, u: real)
    requires Sensible(g) && CflDt(g, m, c) == Ok(e) && (m.isInit || UnitCfl(c) >= g.epsilon)
    requires u == Max(UnitCfl(c), g.epsilon)
    ensures 0.5 * u * Shrunk(g, m, e) == CflGoal(g, m)
  {
    TwiceTheGoal(g, m, c, e, u);
    HalfOfTwice(u, g.maxCfl, g.initShrink, e);
  }

  lemma TwiceTheGoal(g: Config, m: Moment, c: Cfl, e: real, u: real)
    requires Sensible(g) && CflDt(g, m, c) == Ok(e) && (m.isInit || UnitCfl(c) >= g.epsilon)
    requires u == Max(UnitCfl(c), g.epsilon)
    ensures e * u == 2.0 * g.maxCfl
  {
    QuotientTimes(2.0 * g.maxCfl, u);
  }

  lemma HalfOfTwice(u: real, cfl: real, k: real, e: real)
    requires e * u == 2.0 * cfl
    ensures 0.5 * u * e == cfl && 0.5 * u * (e * k) == k * cfl
  {
    ScaledProduct(u, e, k);
  }

  lemma CflDtIsAtCfl(g: Config, m: Moment, c: Cfl, e: real)
    requires Sensible(g) && IsCfl(c) && CflDt(g, m, c) == Ok(e)
    ensures AtCfl(g, m, c, Shrunk(g, m, e))
  {
    if m.isInit || UnitCfl(c) >= g.epsilon {
      CflReached(g, m, c, e, Max(UnitCfl(c), g.epsilon));
    }
    if UnitCfl(c) >= g.epsilon {
      QuadraticAtLimit(c, Shrunk(g, m, e), CflGoal(g, m));
    }
  }

  /** A step ends on a multiple of the interval of an active rule, further ahead than the
      tolerance. */
  predicate EndsOn(r: Rule, cur: real, dt: real, k: int) {
    Active(r) && cur + dt == k as real * r.interval && dt > AbsTolOf(r)
  }

  /** A step of at most `longest` ends on an output of a rule whose delay that step could
      have passed. */
  ghost predicate EndsOnOutput(rules: seq<Rule>, cur: real, longest: real, dt: real) {
    exists r, k :: r in rules && cur + longest >= r.delay && EndsOn(r, cur, dt, k)
  }

  lemma EnforcedEndsOn(r: Rule, cur: real, dt: real) returns (k: int)
    requires Active(r) && EnforcedDt(dt, cur, r.interval, r.tol) != dt
    ensures EndsOn(r, cur, EnforcedDt(dt, cur, r.interval, r.tol), k)
  {
    k := (cur / r.interval + r.tol).Floor + 1;
    NextMultiple(cur, r.interval, r.tol);
    assert NextOutput(cur, r.interval, r.tol) == k as real * r.interval;
  }

  lemma {:induction false} ShortenedEndsOnOutput(rules: seq<Rule>, n: nat, cur: real, dt: real)
    requires n <= |rules|
    ensures ShortenedBy(rules, n, cur, dt) <= dt
    ensures ShortenedBy(rules, n, cur, dt) == dt || EndsOnOutput(rules, cur, dt, ShortenedBy(rules, n, cur, dt))
  {
    if n > 0 {
      var before, after, r := ShortenedBy(rules, n - 1, cur, dt), ShortenedBy(rules, n, cur, dt), rules[n - 1];
      ShortenedEndsOnOutput(rules, n - 1, cur, dt);
      if after != before {
        var k := EnforcedEndsOn(r, cur, before);
        assert r in rules && EndsOn(r, cur, after, k);
      }
    }
  }

  /** Some limit is met with equality. */
  ghost predicate AtLimit(g: Config, m: Moment, post: seq<Rule>, c: Cfl, dt: real)
    requires g.epsilon > 0.0
  {
    || AtCfl(g, m, c, dt)
    || (m.dt0 > 0.0 && dt == (1.0 + g.growth) * m.dt0)
    || (g.maxDt > 0.0 && dt == g.maxDt)
    || (m.stopTime > 0.0 && m.cur + dt == m.stopTime)
    || (m.isInit && g.initialDt > 0.0 && dt == g.initialDt)
    || (LimitedDt(g, m, c).Ok? && EndsOnOutput(AllRules(g, post), m.cur, LimitedDt(g, m, c).value, dt))
  }

  /** No adaptive step, the initial one included, is shorter than its limits make it: where
      no other limit is met with equality, the CFL condition is. */
  lemma AdaptiveStepIsMaximal(g: Config, m: Moment, post: seq<Rule>, c: Cfl, dt: real)
    requires Sensible(g) && IsCfl(c) && AdaptiveDt(g, m, post, c) == Ok(dt)
    ensures AtLimit(g, m, post, c, dt)
  {
    var e, d := CflDt(g, m, c).value, LimitedDt(g, m, c).value;
    CflDtIsAtCfl(g, m, c, e);
    ShortenedEndsOnOutput(AllRules(g, post), |AllRules(g, post)|, m.cur, d);
  }

  /** The initial step: shrunk, no longer than the initial step that was asked for, and
      within all other limits. */
  lemma InitialStepIsGood(g: Config, m: Moment, post: seq<Rule>, c: Cfl, tol: real, dt: real)
    requires Sensible(g) && m.isInit && BeforeStop(m) && IsCfl(c) && g.initShrink > 0.0
    requires tol > 0.0 && Covers(tol, AllRules(g, post)) && AdaptiveDt(g, m, post, c) == Ok(dt)
    ensures dt > 0.0 && (g.initialDt > 0.0 ==> dt <= g.initialDt)
    ensures UnitCfl(c) >= g.epsilon ==> 0.5 * UnitCfl(c) * dt <= g.initShrink * g.maxCfl
    ensures g.maxDt > 0.0 ==> dt <= g.maxDt
    ensures m.dt0 > 0.0 ==> dt <= (1.0 + g.growth) * m.dt0
    ensures m.stopTime > 0.0 ==> m.cur + dt <= m.stopTime
    ensures CrossesNone(g, post, m.cur, dt)
  {
    var x, d, s := InitialStepFrom(g, m, post, c, dt);
    ShortenedBySteps(AllRules(g, post), |AllRules(g, post)|, m.cur, d, tol);
    InitialParts(g, m, c, tol, x, d, s, dt);
    ShorterCrossesNone(g, post, m.cur, s, dt);
  }

  lemma InitialStepFrom(g: Config, m: Moment, post: seq<Rule>, c: Cfl, dt: real) returns (x: real, d: real, s: real)
    requires Sensible(g) && m.isInit && IsCfl(c) && g.initShrink > 0.0 && AdaptiveDt(g, m, post, c) == Ok(dt)
    ensures x > 0.0 && (UnitCfl(c) >= g.epsilon ==> 0.5 * UnitCfl(c) * x == g.initShrink * g.maxCfl)
    ensures Restricted(g, m, x) == Ok(d)
    ensures s == ShortenedBy(AllRules(g, post), |AllRules(g, post)|, m.cur, d)
    ensures dt == if g.initialDt > 0.0 then Min(s, g.initialDt) else s
  {
    x := InitialCfl(g, m, c, CflDt(g, m, c).value);
    d := LimitedDt(g, m, c).value;
    s := ShortenedBy(AllRules(g, post), |AllRules(g, post)|, m.cur, d);
  }

  lemma InitialParts(g: Config, m: Moment, c: Cfl, tol: real, x: real, d: real, s: real, dt: real)
    requires Sensible(g) && BeforeStop(m) && IsCfl(c) && tol > 0.0
    requires x > 0.0 && (UnitCfl(c) >= g.epsilon ==> 0.5 * UnitCfl(c) * x == g.initShrink * g.maxCfl)
    requires Restricted(g, m, x) == Ok(d) && Min(d, tol) <= s <= d
    requires dt == if g.initialDt > 0.0 then Min(s, g.initialDt) else s
    ensures 0.0 < dt <= s && (g.initialDt > 0.0 ==> dt <= g.initialDt)
    ensures UnitCfl(c) >= g.epsilon ==> 0.5 * UnitCfl(c) * dt <= g.initShrink * g.maxCfl
    ensures g.maxDt > 0.0 ==> dt <= g.maxDt
    ensures m.dt0 > 0.0 ==> dt <= (1.0 + g.growth) * m.dt0
    ensures m.stopTime > 0.0 ==> m.cur + dt <= m.stopTime
  {
    RestrictedBounds(g, m, x, d);
    if UnitCfl(c) >= g.epsilon {
      ProductOrder(dt, x, 0.5 * UnitCfl(c));
    }
  }

  lemma ShorterCrossesNone(g: Config, post: seq<Rule>, cur: real, dt: real, shorter: real)
    requires shorter <= dt
    requires forall i :: 0 <= i < |AllRules(g, post)| ==> KeepsTo(AllRules(g, post)[i], cur, dt)
    ensures CrossesNone(g, post, cur, shorter)
  {
    forall r | r in AllRules(g, post)
      ensures KeepsTo(r, cur, shorter)
    {
      ShorterKeepsTo(r, cur, dt, shorter);
    }
  }

  lemma InitialCfl(g: Config, m: Moment, c: Cfl, e: real) returns (x: real)
    requires Sensible(g) && m.isInit && g.initShrink > 0.0 && CflDt(g, m, c) == Ok(e)
    ensures x == Shrunk(g, m, e) > 0.0
    ensures UnitCfl(c) >= g.epsilon ==> 0.5 * UnitCfl(c) * x == g.initShrink * g.maxCfl
  {
    var u := Max(UnitCfl(c), g.epsilon);
    x := Shrunk(g, m, e);
    assert e * u == 2.0 * g.maxCfl by { TwiceTheGoal(g, m, c, e, u); }
    ShrunkQuotient(u, g.maxCfl, g.initShrink, e);
  }

  lemma ShrunkQuotient(u: real, cfl: real, k: real, e: real)
    requires u > 0.0 && cfl > 0.0 && k > 0.0 && e * u == 2.0 * cfl
    ensures e * k > 0.0 && 0.5 * u * (e * k) == k * cfl
  {
    ProductOrder(e, 0.0, u);
    ProductOrder(0.0, e, k);
    HalfOfTwice(u, cfl, k, e);
  }

  // ------------------------------------------------------------- when steps abort

  /** Velocities vanish, and no initial step stands in for the CFL condition. */
  predicate NoStepForCfl(g: Config, m: Moment, c: Cfl) {
    !m.isInit && UnitCfl(c) < g.epsilon && (m.cur >= g.epsilon || g.initialDt <= 0.0)
  }

  /** Some limit is below the smallest step that is allowed. */
  predicate TooTight(g: Config, m: Moment, c: Cfl) {
    && g.minDt > 0.0
    && ((m.dt0 > 0.0 && (1.0 + g.growth) * m.dt0 < g.minDt)
        || (g.maxDt > 0.0 && g.maxDt < g.minDt)
        || CflIsTight(g, m, c))
  }

  predicate CflIsTight(g: Config, m: Moment, c: Cfl) {
    if m.isInit || UnitCfl(c) >= g.epsilon then 0.5 * Max(UnitCfl(c), g.epsilon) * g.minDt > CflGoal(g, m)
    else g.initialDt < g.minDt
  }

  lemma CflTooTight(g: Config, m: Moment, c: Cfl, e: real)
    requires Sensible(g) && IsCfl(c) && CflDt(g, m, c) == Ok(e) && g.minDt > 0.0
    ensures Shrunk(g, m, e) < g.minDt <==> CflIsTight(g, m, c)
  {
    if m.isInit || UnitCfl(c) >= g.epsilon {
      CflReached(g, m, c, e, Max(UnitCfl(c), g.epsilon));
      BelowIff(0.5 * Max(UnitCfl(c), g.epsilon), Shrunk(g, m, e), g.minDt);
    }
  }

  lemma BelowIff(u: real, x: real, y: real)
    requires u > 0.0
    ensures x < y <==> u * x < u * y
  {
    ProductOrder(x, y, u);
    ProductOrder(y, x, u);
  }

  /** An adaptive step aborts exactly where velocities vanish without an initial step to
      stand in, or a limit is below the smallest step; the stop time and output times
      never make it abort. */
  lemma AbortsIff(g: Config, m: Moment, post: seq<Rule>, c: Cfl)
    requires Sensible(g) && IsCfl(c)
    ensures AdaptiveDt(g, m, post, c).Abort? <==> NoStepForCfl(g, m, c) || TooTight(g, m, c)
  {
    AdaptiveDtFrom(g, m, post, c);
    if CflDt(g, m, c).Ok? && g.minDt > 0.0 {
      CflTooTight(g, m, c, CflDt(g, m, c).value);
    }
  }
}
