/** Right-hand sides of the transport equations: the predictor and corrector updates,
    the explicit diffusion correction, and the budget they keep over a box. */
module RhsUpdate {
  import opened BoxSums
  import opened IndexVectors
  import opened MolFluxes

  datatype DiffusionType = Explicit | CrankNicolson | Implicit

  /** Everything that the updates read. `phiOld` is the field at the old time, the terms
      come at the old and the new time. Without mesh mapping `detJ` is one; `mask` is
      zero in blanked cells and one elsewhere. */
  datatype Terms = Terms(multiplyRho: bool, phiOld: CompField, rhoOld: IntVect -> real, rho: IntVect -> real,
                         src: CompField, diffOld: CompField, diff: CompField, convOld: CompField, conv: CompField,
                         mask: IntVect -> int, detJ: IntVect -> real)

  /** The source divides by these. */
  predicate Divides(t: Terms, c: IntVect) { t.rho(c) != 0.0 && t.detJ(c) != 0.0 }

  ghost predicate DividesIn(t: Terms, b: Box) { forall c :: Inside(b, c) ==> Divides(t, c) }

  // ----------------------------------------------------------------- the updates

  function PredictorFactor(d: DiffusionType): real {
    match d
    case Explicit => 1.0
    case CrankNicolson => 0.5
    case Implicit => 0.0
  }

  /** Weights of the old and the new diffusion term. */
  function CorrectorFactors(d: DiffusionType): (real, real) {
    match d
    case Explicit => (0.5, 0.5)
    case CrankNicolson => (0.5, 0.0)
    case Implicit => (0.0, 0.0)
  }

  function Divided(d: DiffusionType, multiplyRho: bool, value: real, rho: real, detJ: real): real
    requires rho != 0.0 && detJ != 0.0
  {
    var v := if multiplyRho then value / rho else value;
    if d.Explicit? then v / detJ else v
  }

  function Start(t: Terms, c: IntVect, n: nat): real {
    if t.multiplyRho then t.rhoOld(c) * t.detJ(c) * t.phiOld(c, n) else t.detJ(c) * t.phiOld(c, n)
  }

  function Push(t: Terms, dt: real, c: IntVect, rate: real): real { t.mask(c) as real * dt * rate }

  /** A cell advanced over a step at a given rate. */
  function Stepped(t: Terms, d: DiffusionType, dt: real, c: IntVect, n: nat, rate: real): real
    requires Divides(t, c)
  {
    Divided(d, t.multiplyRho, Start(t, c, n) + Push(t, dt, c, rate), t.rho(c), t.detJ(c))
  }

  /** The predictor takes its terms at the new time for Godunov schemes, which keep
      only that state, and at the old time otherwise. */
  function PredictorRate(t: Terms, d: DiffusionType, godunov: bool, c: IntVect, n: nat): real {
    var conv := if godunov then t.conv(c, n) else t.convOld(c, n);
    var diff := if godunov then t.diff(c, n) else t.diffOld(c, n);
    conv + t.detJ(c) * t.src(c, n) + PredictorFactor(d) * diff
  }

  function CorrectorRate(t: Terms, d: DiffusionType, c: IntVect, n: nat): real {
    var (ofac, nfac) := CorrectorFactors(d);
    0.5 * (t.convOld(c, n) + t.conv(c, n)) + ofac * t.diffOld(c, n) + nfac * t.diff(c, n) + t.detJ(c) * t.src(c, n)
  }

  function Predicted(t: Terms, d: DiffusionType, dt: real, godunov: bool, c: IntVect, n: nat): real
    requires Divides(t, c)
  {
    Stepped(t, d, dt, c, n, PredictorRate(t, d, godunov, c, n))
  }

  function Corrected(t: Terms, d: DiffusionType, dt: real, c: IntVect, n: nat): real
    requires Divides(t, c)
  {
    Stepped(t, d, dt, c, n, CorrectorRate(t, d, c, n))
  }

  // ------------------------------------------------------------- what a cell keeps

  /** What a value amounts to in a cell at the new time: density, if the equation
      multiplies by it, and volume, once the update has divided by it. */
  function Amount(t: Terms, d: DiffusionType, c: IntVect, value: real): real {
    (if t.multiplyRho then t.rho(c) else 1.0) * ((if d.Explicit? then t.detJ(c) else 1.0) * value)
  }

  function OldAmount(t: Terms, c: IntVect, n: nat): real {
    (if t.multiplyRho then t.rhoOld(c) else 1.0) * (t.detJ(c) * t.phiOld(c, n))
  }

  /** What a rate brings into a cell; nothing into a blanked one. */
  function Gain(t: Terms, c: IntVect, rate: real): real { t.mask(c) as real * rate }

  lemma UndoDivision(v: real, rho: real, detJ: real)
    requires rho != 0.0 && detJ != 0.0
    ensures rho * (v / rho) == v && detJ * (v / detJ) == v
    ensures rho * (detJ * (v / rho / detJ)) == v
  {
    assert detJ * (v / rho / detJ) == v / rho;
  }

  lemma AmountOfDivided(t: Terms, d: DiffusionType, c: IntVect, v: real)
    requires Divides(t, c)
    ensures Amount(t, d, c, Divided(d, t.multiplyRho, v, t.rho(c), t.detJ(c))) == v
  {
    UndoDivision(v, t.rho(c), t.detJ(c));
  }

  lemma Regroup(r: real, j: real, v: real, m: real, dt: real, g: real)
    ensures r * j * v == r * (j * v)
    ensures m * dt * g == dt * (m * g)
  {
  }

  /** In every cell a step changes the amount by the step size times the gain. */
  lemma StepBalances(t: Terms, d: DiffusionType, dt: real, c: IntVect, n: nat, rate: real)
    requires Divides(t, c)
    ensures Amount(t, d, c, Stepped(t, d, dt, c, n, rate)) == OldAmount(t, c, n) + dt * Gain(t, c, rate)
  {
    AmountOfDivided(t, d, c, Start(t, c, n) + Push(t, dt, c, rate));
    Regroup(t.rhoOld(c), t.detJ(c), t.phiOld(c, n), t.mask(c) as real, dt, rate);
  }

  /** When no term changed between the two times the corrector repeats the predictor,
      for every way of treating diffusion. */
  lemma SteadyTermsRepeatPredictor(t: Terms, d: DiffusionType, dt: real, godunov: bool, c: IntVect, n: nat)
    requires Divides(t, c) && t.conv(c, n) == t.convOld(c, n) && t.diff(c, n) == t.diffOld(c, n)
    ensures Corrected(t, d, dt, c, n) == Predicted(t, d, dt, godunov, c, n)
  {
    var s := t.detJ(c) * t.src(c, n);
    SteadyRates(d, t.conv(c, n), t.diff(c, n), s);
    assert CorrectorRate(t, d, c, n) == PredictorRate(t, d, godunov, c, n);
  }

  lemma SteadyRates(d: DiffusionType, x: real, y: real, s: real)
    ensures 0.5 * (x + x) + CorrectorFactors(d).0 * y + CorrectorFactors(d).1 * y + s == x + s + PredictorFactor(d) * y
  {
  }

  /** A blanked cell keeps its amount. */
  lemma BlankedCellKeeps(t: Terms, d: DiffusionType, dt: real, godunov: bool, c: IntVect, n: nat)
    requires Divides(t, c) && t.mask(c) == 0
    ensures Amount(t, d, c, Predicted(t, d, dt, godunov, c, n)) == OldAmount(t, c, n)
    ensures Amount(t, d, c, Corrected(t, d, dt, c, n)) == OldAmount(t, c, n)
  {
    StepBalances(t, d, dt, c, n, PredictorRate(t, d, godunov, c, n));
    StepBalances(t, d, dt, c, n, CorrectorRate(t, d, c, n));
  }

  // ------------------------------------------------- the explicit diffusion correction

  /** Adds half a step of a change of the diffusion term. */
  function Improved(t: Terms, dt: real, c: IntVect, value: real, change: real): real
    requires Divides(t, c)
  {
    var factor := 0.5 * dt * t.mask(c) as real;
    value + (if t.multiplyRho then factor / t.rho(c) else factor) * change
  }

  /** The rate with the diffusion term averaged between the one that the explicit
      Godunov predictor used and a new one. */
  function TrapezoidalRate(t: Terms, c: IntVect, n: nat, diffNew: real): real {
    t.conv(c, n) + t.detJ(c) * t.src(c, n) + 0.5 * (t.diff(c, n) + diffNew)
  }

  lemma QuotientOfSum(x: real, y: real, r: real)
    requires r != 0.0
    ensures (x + y) / r == x / r + y / r
  {
  }

  lemma PushOfSum(t: Terms, dt: real, c: IntVect, x: real, y: real)
    ensures Push(t, dt, c, x + y) == Push(t, dt, c, x) + Push(t, dt, c, y)
  {
  }

  lemma HalfPush(t: Terms, dt: real, c: IntVect, x: real)
    ensures Push(t, dt, c, 0.5 * x) == 0.5 * dt * t.mask(c) as real * x
  {
    assert t.mask(c) as real * dt * (0.5 * x) == 0.5 * dt * t.mask(c) as real * x;
  }

  lemma RateWithChange(t: Terms, c: IntVect, n: nat, diffNew: real)
    ensures TrapezoidalRate(t, c, n, diffNew)
            == PredictorRate(t, Explicit, true, c, n) + 0.5 * (diffNew - t.diff(c, n))
  {
  }

  lemma FactorQuotient(f: real, r: real, x: real)
    requires r != 0.0
    ensures f / r * x == f * x / r
  {
    var q := f / r;
    assert f == q * r;
    assert f * x == (q * x) * r;
    assert (q * x) * r / r == q * x;
  }

  /** What the trapezoidal rate adds to the predicted value. */
  function Missing(t: Terms, dt: real, c: IntVect, change: real): real
    requires Divides(t, c)
  {
    Divided(Explicit, t.multiplyRho, Push(t, dt, c, 0.5 * change), t.rho(c), t.detJ(c))
  }

  lemma DividedOfSum(m: bool, x: real, y: real, rho: real, detJ: real)
    requires rho != 0.0 && detJ != 0.0
    ensures Divided(Explicit, m, x + y, rho, detJ)
            == Divided(Explicit, m, x, rho, detJ) + Divided(Explicit, m, y, rho, detJ)
  {
    QuotientOfSum(x, y, rho);
    QuotientOfSum(x / rho, y / rho, detJ);
    QuotientOfSum(x, y, detJ);
  }

  lemma StepWithChange(t: Terms, dt: real, c: IntVect, n: nat, rate: real, change: real)
    requires Divides(t, c)
    ensures Stepped(t, Explicit, dt, c, n, rate + 0.5 * change)
            == Stepped(t, Explicit, dt, c, n, rate) + Missing(t, dt, c, change)
  {
    PushOfSum(t, dt, c, rate, 0.5 * change);
    DividedOfSum(t.multiplyRho, Start(t, c, n) + Push(t, dt, c, rate), Push(t, dt, c, 0.5 * change),
                 t.rho(c), t.detJ(c));
  }

  lemma StretchedIsSame(j: real, y: real)
    ensures j * y == y <==> j == 1.0 || y == 0.0
  {
    assert j > 1.0 && y > 0.0 ==> (j - 1.0) * y > 0.0;
    assert j > 1.0 && y < 0.0 ==> (j - 1.0) * y < 0.0;
    assert j < 1.0 && y > 0.0 ==> (j - 1.0) * y < 0.0;
    assert j < 1.0 && y < 0.0 ==> (j - 1.0) * y > 0.0;
  }

  lemma UndoQuotients(x: real, rho: real, detJ: real)
    requires rho != 0.0 && detJ != 0.0
    ensures detJ * (x / rho / detJ) == x / rho && detJ * (x / detJ) == x
  {
  }

  lemma ImprovedAdds(t: Terms, dt: real, c: IntVect, value: real, change: real)
    requires Divides(t, c)
    ensures Improved(t, dt, c, value, change) == value + t.detJ(c) * Missing(t, dt, c, change)
  {
    HalfPush(t, dt, c, change);
    FactorQuotient(0.5 * dt * t.mask(c) as real, t.rho(c), change);
    UndoQuotients(Push(t, dt, c, 0.5 * change), t.rho(c), t.detJ(c));
  }

  /** The explicit Godunov predictor followed by the correction treats diffusion by
      the trapezoidal rule exactly when the cell is not stretched by a mesh mapping,
      or the correction has nothing to add: the correction does not divide by the
      Jacobian, the predictor does. */
  lemma PostHocIsTrapezoidal(t: Terms, dt: real, c: IntVect, n: nat, diffNew: real)
    requires Divides(t, c)
    ensures var v := Predicted(t, Explicit, dt, true, c, n);
      Improved(t, dt, c, v, diffNew - t.diff(c, n)) == Stepped(t, Explicit, dt, c, n, TrapezoidalRate(t, c, n, diffNew))
      <==> t.detJ(c) == 1.0 || 0.5 * dt * t.mask(c) as real * (diffNew - t.diff(c, n)) == 0.0
  {
    var v, change := Predicted(t, Explicit, dt, true, c, n), diffNew - t.diff(c, n);
    var w, s := Improved(t, dt, c, v, change), Stepped(t, Explicit, dt, c, n, TrapezoidalRate(t, c, n, diffNew));
    var y := Missing(t, dt, c, change);
    assert w == v + t.detJ(c) * y by { ImprovedAdds(t, dt, c, v, change); }
    assert s == v + y by {
      RateWithChange(t, c, n, diffNew);
      StepWithChange(t, dt, c, n, PredictorRate(t, Explicit, true, c, n), change);
    }
    assert t.detJ(c) * y == y <==> t.detJ(c) == 1.0 || y == 0.0 by { StretchedIsSame(t.detJ(c), y); }
    MissingIsZero(t, dt, c, change);
  }

  function Constant(x: real): CompField { (c: IntVect, n: nat) => x }

  function Uniform(x: real): IntVect -> real { (c: IntVect) => x }

  /** Nothing but diffusion, in cells that the mapping stretches to twice their size. */
  function Stretched(): Terms {
    Terms(false, Constant(0.0), Uniform(1.0), Uniform(1.0), Constant(0.0), Constant(0.0), Constant(0.0), Constant(0.0),
          Constant(0.0), (c: IntVect) => 1, Uniform(2.0))
  }

  /** In such a cell the correction adds twice what the trapezoidal rule would. */
  lemma StretchedCellIsOvercorrected(c: IntVect, n: nat)
    ensures Predicted(Stretched(), Explicit, 1.0, true, c, n) == 0.0
    ensures Improved(Stretched(), 1.0, c, 0.0, 2.0 - Stretched().diff(c, n)) == 1.0
    ensures Stepped(Stretched(), Explicit, 1.0, c, n, TrapezoidalRate(Stretched(), c, n, 2.0)) == 0.5
  {
  }

  lemma QuotientIsZero(x: real, r: real)
    requires r != 0.0
    ensures x / r == 0.0 <==> x == 0.0
  {
    assert x == x / r * r;
  }

  lemma MissingIsZero(t: Terms, dt: real, c: IntVect, change: real)
    requires Divides(t, c)
    ensures Missing(t, dt, c, change) == 0.0 <==> 0.5 * dt * t.mask(c) as real * change == 0.0
  {
    HalfPush(t, dt, c, change);
    var x := Push(t, dt, c, 0.5 * change);
    QuotientIsZero(x, t.rho(c));
    QuotientIsZero(x / t.rho(c), t.detJ(c));
    QuotientIsZero(x, t.detJ(c));
  }

  // ------------------------------------------------------------ updates in place

  function PredictorRates(t: Terms, d: DiffusionType, godunov: bool): CompField {
    (c: IntVect, n: nat) => PredictorRate(t, d, godunov, c, n)
  }

  function CorrectorRates(t: Terms, d: DiffusionType): CompField {
    (c: IntVect, n: nat) => CorrectorRate(t, d, c, n)
  }

  /** Every cell of the box went from its old amount by the step times its gain. */
  ghost predicate HoldsStep(t: Terms, d: DiffusionType, dt: real, rates: CompField, b: Box, ncomp: nat,
                            field: array4<real>)
    requires Covers(field, b, ncomp)
    reads field
  {
    forall c, n :: Inside(b, c) && 0 <= n < ncomp ==>
      Amount(t, d, c, At(field, b, ncomp, c, n)) == OldAmount(t, c, n) + dt * Gain(t, c, rates(c, n))
  }

  method Fill(t: Terms, d: DiffusionType, dt: real, rates: CompField, b: Box, ncomp: nat, field: array4<real>)
    requires DividesIn(t, b) && Covers(field, b, ncomp)
    modifies field
    ensures HoldsStep(t, d, dt, rates, b, ncomp, field)
  {
    forall x, y, z, n | 0 <= x < field.Length0 && 0 <= y < field.Length1 && 0 <= z < field.Length2
                        && 0 <= n < field.Length3 {
      field[x, y, z, n] := Stepped(t, d, dt, IntVect(x + b.ilo, y + b.jlo, z + b.klo), n,
                                   rates(IntVect(x + b.ilo, y + b.jlo, z + b.klo), n));
    }
    forall c, n | Inside(b, c) && 0 <= n < ncomp
      ensures Amount(t, d, c, At(field, b, ncomp, c, n)) == OldAmount(t, c, n) + dt * Gain(t, c, rates(c, n))
    {
      assert At(field, b, ncomp, c, n) == Stepped(t, d, dt, c, n, rates(c, n));
      StepBalances(t, d, dt, c, n, rates(c, n));
    }
  }

  method PredictorRhs(t: Terms, d: DiffusionType, dt: real, godunov: bool, b: Box, ncomp: nat, field: array4<real>)
    requires DividesIn(t, b) && Covers(field, b, ncomp)
    modifies field
    ensures HoldsStep(t, d, dt, PredictorRates(t, d, godunov), b, ncomp, field)
  {
    Fill(t, d, dt, PredictorRates(t, d, godunov), b, ncomp, field);
  }

  method CorrectorRhs(t: Terms, d: DiffusionType, dt: real, b: Box, ncomp: nat, field: array4<real>)
    requires DividesIn(t, b) && Covers(field, b, ncomp)
    modifies field
    ensures HoldsStep(t, d, dt, CorrectorRates(t, d), b, ncomp, field)
  {
    Fill(t, d, dt, CorrectorRates(t, d), b, ncomp, field);
  }

  /** What an update does not take from its rates. */
  ghost predicate SameButForRates(t: Terms, u: Terms) {
    && t.multiplyRho == u.multiplyRho && t.phiOld == u.phiOld && t.rhoOld == u.rhoOld && t.rho == u.rho
    && t.mask == u.mask && t.detJ == u.detJ
  }

  lemma AmountIsInjective(t: Terms, d: DiffusionType, c: IntVect, x: real, y: real)
    requires Divides(t, c) && Amount(t, d, c, x) == Amount(t, d, c, y)
    ensures x == y
  {
    var j := if d.Explicit? then t.detJ(c) else 1.0;
    var r := if t.multiplyRho then t.rho(c) else 1.0;
    CancelFactor(r, j * x, j * y);
    CancelFactor(j, x, y);
  }

  lemma CancelFactor(r: real, x: real, y: real)
    requires r != 0.0 && r * x == r * y
    ensures x == y
  {
    assert r * (x - y) == 0.0;
  }

  /** The value that an update leaves in a cell: times the new density, if the equation
      multiplies by it, and times the Jacobian, if diffusion is explicit, it is the old
      value times the old density and the Jacobian, plus the masked step times the rate. */
  predicate LeftIn(t: Terms, d: DiffusionType, dt: real, c: IntVect, n: nat, rate: real, value: real) {
    var push := t.mask(c) as real * (dt * rate);
    var start := t.detJ(c) * t.phiOld(c, n);
    match (d, t.multiplyRho)
    case (Explicit, true) => t.rho(c) * (t.detJ(c) * value) == t.rhoOld(c) * start + push
    case (Explicit, false) => t.detJ(c) * value == start + push
    case (_, true) => t.rho(c) * value == t.rhoOld(c) * start + push
    case (_, false) => value == start + push
  }

  lemma FilledValues(t: Terms, d: DiffusionType, dt: real, rates: CompField, b: Box, ncomp: nat, field: array4<real>,
                     c: IntVect, n: nat)
    requires Covers(field, b, ncomp) && HoldsStep(t, d, dt, rates, b, ncomp, field) && Inside(b, c) && n < ncomp
    ensures LeftIn(t, d, dt, c, n, rates(c, n), At(field, b, ncomp, c, n))
  {
    assert Amount(t, d, c, At(field, b, ncomp, c, n)) == OldAmount(t, c, n) + dt * Gain(t, c, rates(c, n));
    Regroup(1.0, 1.0, 1.0, t.mask(c) as real, dt, rates(c, n));
  }

  /** Updates with the same rates leave the same field. */
  lemma SameRatesSameField(t: Terms, u: Terms, d: DiffusionType, dt: real, rates: CompField, others: CompField, b: Box,
                           ncomp: nat, field: array4<real>, other: array4<real>)
    requires DividesIn(t, b) && SameButForRates(t, u) && Covers(field, b, ncomp) && Covers(other, b, ncomp)
    requires HoldsStep(t, d, dt, rates, b, ncomp, field) && HoldsStep(u, d, dt, others, b, ncomp, other)
    requires forall c, n :: Inside(b, c) && 0 <= n < ncomp ==> rates(c, n) == others(c, n)
    ensures SameField(field, other, b, ncomp)
  {
    forall c, n | Inside(b, c) && 0 <= n < ncomp
      ensures At(field, b, ncomp, c, n) == At(other, b, ncomp, c, n)
    {
      assert Divides(t, c) && rates(c, n) == others(c, n);
      AmountIsInjective(t, d, c, At(field, b, ncomp, c, n), At(other, b, ncomp, c, n));
    }
  }

  ghost predicate SameField(field: array4<real>, other: array4<real>, b: Box, ncomp: nat)
    requires Covers(field, b, ncomp) && Covers(other, b, ncomp)
    reads field, other
  {
    forall c, n :: Inside(b, c) && 0 <= n < ncomp ==> At(field, b, ncomp, c, n) == At(other, b, ncomp, c, n)
  }

  /** Unless diffusion is explicit the corrector leaves the new diffusion to the solver:
      whatever it is, the same field results. The implicit one does not read the old
      diffusion either. */
  lemma CorrectorLeavesNewDiffusion(t: Terms, u: Terms, d: DiffusionType, dt: real, b: Box, ncomp: nat,
                                    field: array4<real>, other: array4<real>)
    requires DividesIn(t, b) && Covers(field, b, ncomp) && Covers(other, b, ncomp)
    requires d != Explicit && u == t.(diff := u.diff, diffOld := u.diffOld)
    requires d == CrankNicolson ==> u.diffOld == t.diffOld
    requires HoldsStep(t, d, dt, CorrectorRates(t, d), b, ncomp, field)
    requires HoldsStep(u, d, dt, CorrectorRates(u, d), b, ncomp, other)
    ensures SameField(field, other, b, ncomp)
  {
    SameRatesSameField(t, u, d, dt, CorrectorRates(t, d), CorrectorRates(u, d), b, ncomp, field, other);
  }

  /** The Godunov predictor reads the terms at the new time alone, the other one those at
      the old time. */
  lemma PredictorReadsOneTime(t: Terms, u: Terms, d: DiffusionType, godunov: bool, dt: real, b: Box, ncomp: nat,
                              field: array4<real>, other: array4<real>)
    requires DividesIn(t, b) && Covers(field, b, ncomp) && Covers(other, b, ncomp)
    requires if godunov then u == t.(convOld := u.convOld, diffOld := u.diffOld)
             else u == t.(conv := u.conv, diff := u.diff)
    requires HoldsStep(t, d, dt, PredictorRates(t, d, godunov), b, ncomp, field)
    requires HoldsStep(u, d, dt, PredictorRates(u, d, godunov), b, ncomp, other)
    ensures SameField(field, other, b, ncomp)
  {
    SameRatesSameField(t, u, d, dt, PredictorRates(t, d, godunov), PredictorRates(u, d, godunov), b, ncomp, field,
                       other);
  }

  /** Every cell of the box was improved by half a step of the change. */
  twostate predicate HoldsImproved(t: Terms, dt: real, change: CompField, b: Box, ncomp: nat, field: array4<real>)
    requires DividesIn(t, b) && Covers(field, b, ncomp)
    reads field
  {
    forall c, n :: Inside(b, c) && 0 <= n < ncomp ==>
      At(field, b, ncomp, c, n) == Improved(t, dt, c, old(At(field, b, ncomp, c, n)), change(c, n))
  }

  method ExplicitRk2PostHoc(t: Terms, dt: real, change: CompField, b: Box, ncomp: nat, field: array4<real>)
    requires DividesIn(t, b) && Covers(field, b, ncomp)
    modifies field
    ensures HoldsImproved(t, dt, change, b, ncomp, field)
  {
    forall x, y, z, n | 0 <= x < field.Length0 && 0 <= y < field.Length1 && 0 <= z < field.Length2
                        && 0 <= n < field.Length3 {
      field[x, y, z, n] := Improved(t, dt, IntVect(x + b.ilo, y + b.jlo, z + b.klo), field[x, y, z, n],
                                    change(IntVect(x + b.ilo, y + b.jlo, z + b.klo), n));
    }
  }

  // ----------------------------------------------------------- budgets over a box

  function AmountAt(t: Terms, d: DiffusionType, phi: CompField, n: nat, i: int, j: int, k: int): real {
    Amount(t, d, IntVect(i, j, k), phi(IntVect(i, j, k), n))
  }

  function Amounts(t: Terms, d: DiffusionType, phi: CompField, n: nat): CellField {
    (i, j, k) => AmountAt(t, d, phi, n, i, j, k)
  }

  function OldAmountAt(t: Terms, n: nat, i: int, j: int, k: int): real { OldAmount(t, IntVect(i, j, k), n) }

  function OldAmounts(t: Terms, n: nat): CellField { (i, j, k) => OldAmountAt(t, n, i, j, k) }

  function GainAt(t: Terms, rates: CompField, n: nat, i: int, j: int, k: int): real {
    Gain(t, IntVect(i, j, k), rates(IntVect(i, j, k), n))
  }

  function Gains(t: Terms, rates: CompField, n: nat): CellField { (i, j, k) => GainAt(t, rates, n, i, j, k) }

  /** The values `phi` are what an update over a step leaves in a box. */
  ghost predicate Advances(t: Terms, d: DiffusionType, dt: real, rates: CompField, b: Box, phi: CompField, n: nat) {
    forall c :: Inside(b, c) ==> Amount(t, d, c, phi(c, n)) == OldAmount(t, c, n) + dt * Gain(t, c, rates(c, n))
  }

  function TimesAt(p: real, f: CellField, i: int, j: int, k: int): real { p * f(i, j, k) }

  function Times(p: real, f: CellField): CellField { (i, j, k) => TimesAt(p, f, i, j, k) }

  lemma BudgetOf(before: CellField, gain: CellField, after: CellField, dt: real, b: Box)
    requires forall i, j, k :: In(b, i, j, k) ==> after(i, j, k) == before(i, j, k) + dt * gain(i, j, k)
    ensures Total(after, b) == Total(before, b) + dt * Total(gain, b)
  {
    var push := Times(dt, gain);
    TotalScale(gain, push, dt, b);
    TotalAdd(before, push, after, b);
  }

  /** Over any box an update changes the total amount by the step times the total gain. */
  lemma StepBudget(t: Terms, d: DiffusionType, dt: real, rates: CompField, b: Box, phi: CompField, n: nat)
    requires Advances(t, d, dt, rates, b, phi, n)
    ensures Total(Amounts(t, d, phi, n), b) == Total(OldAmounts(t, n), b) + dt * Total(Gains(t, rates, n), b)
  {
    var before, gain, after := OldAmounts(t, n), Gains(t, rates, n), Amounts(t, d, phi, n);
    forall i, j, k | In(b, i, j, k)
      ensures after(i, j, k) == before(i, j, k) + dt * gain(i, j, k)
    {
      assert Inside(b, IntVect(i, j, k));
    }
    BudgetOf(before, gain, after, dt, b);
  }

  lemma HeldAdvances(t: Terms, d: DiffusionType, dt: real, rates: CompField, b: Box, ncomp: nat, field: array4<real>,
                     n: nat)
    requires Covers(field, b, ncomp) && HoldsStep(t, d, dt, rates, b, ncomp, field) && n < ncomp
    ensures Advances(t, d, dt, rates, b, CompFieldOf(field, b, ncomp), n)
  {
    forall c | Inside(b, c)
      ensures Amount(t, d, c, CompFieldOf(field, b, ncomp)(c, n)) == OldAmount(t, c, n) + dt * Gain(t, c, rates(c, n))
    {
      assert CompFieldOf(field, b, ncomp)(c, n) == At(field, b, ncomp, c, n);
    }
  }

  /** So does what predictor or corrector leave in their array. */
  lemma FilledBudget(t: Terms, d: DiffusionType, dt: real, rates: CompField, b: Box, ncomp: nat, field: array4<real>,
                     n: nat)
    requires Covers(field, b, ncomp) && HoldsStep(t, d, dt, rates, b, ncomp, field) && n < ncomp
    ensures Total(Amounts(t, d, CompFieldOf(field, b, ncomp), n), b)
            == Total(OldAmounts(t, n), b) + dt * Total(Gains(t, rates, n), b)
  {
    HeldAdvances(t, d, dt, rates, b, ncomp, field, n);
    StepBudget(t, d, dt, rates, b, CompFieldOf(field, b, ncomp), n);
  }

  /** No cell of the box is blanked. */
  ghost predicate NoneBlanked(t: Terms, b: Box) { forall c :: Inside(b, c) ==> t.mask(c) == 1 }

  function SourceAt(t: Terms, n: nat, i: int, j: int, k: int): real {
    t.detJ(IntVect(i, j, k)) * t.src(IntVect(i, j, k), n)
  }

  /** Sources per unit of the unstretched volume. */
  function Sources(t: Terms, n: nat): CellField { (i, j, k) => SourceAt(t, n, i, j, k) }

  /** Totals of the parts of a sum with given factors. */
  lemma TotalOfParts(p: CellField, q: CellField, r: CellField, s: CellField, x: CellField, gain: CellField,
                     u: real, v: real, w: real, y: real, b: Box)
    requires forall i, j, k :: In(b, i, j, k) ==>
               gain(i, j, k) == u * p(i, j, k) + v * q(i, j, k) + w * r(i, j, k) + y * s(i, j, k) + x(i, j, k)
    ensures Total(gain, b) == u * Total(p, b) + v * Total(q, b) + w * Total(r, b) + y * Total(s, b) + Total(x, b)
  {
    var up, vq, wr, ys := Times(u, p), Times(v, q), Times(w, r), Times(y, s);
    TotalScale(p, up, u, b);
    TotalScale(q, vq, v, b);
    TotalScale(r, wr, w, b);
    TotalScale(s, ys, y, b);
    var sum := Plus(up, vq);
    TotalAdd(up, vq, sum, b);
    TotalAdd4(sum, wr, ys, x, gain, b);
  }

  /** What a rate with given factors of its terms gains in a box without blanked cells. */
  lemma GainOfParts(t: Terms, rates: CompField, n: nat, b: Box, u: real, v: real, w: real, y: real)
    requires NoneBlanked(t, b) && forall c :: Inside(b, c) ==> HasParts(t, rates, n, c, u, v, w, y)
    ensures Total(Gains(t, rates, n), b)
            == u * Total(Comp(t.convOld, n), b) + v * Total(Comp(t.conv, n), b)
               + w * Total(Comp(t.diffOld, n), b) + y * Total(Comp(t.diff, n), b) + Total(Sources(t, n), b)
  {
    var p, q, r, s, x := Comp(t.convOld, n), Comp(t.conv, n), Comp(t.diffOld, n), Comp(t.diff, n), Sources(t, n);
    var gain := Gains(t, rates, n);
    forall i, j, k | In(b, i, j, k)
      ensures gain(i, j, k) == u * p(i, j, k) + v * q(i, j, k) + w * r(i, j, k) + y * s(i, j, k) + x(i, j, k)
    {
      assert Inside(b, IntVect(i, j, k)) && HasParts(t, rates, n, IntVect(i, j, k), u, v, w, y);
    }
    TotalOfParts(p, q, r, s, x, gain, u, v, w, y, b);
  }

  /** A rate is made of its terms with these factors, and of the sources. */
  predicate HasParts(t: Terms, rates: CompField, n: nat, c: IntVect, u: real, v: real, w: real, y: real) {
    rates(c, n) == u * t.convOld(c, n) + v * t.conv(c, n) + w * t.diffOld(c, n) + y * t.diff(c, n)
                   + t.detJ(c) * t.src(c, n)
  }

  /** `phi` is what the corrector leaves in a box without blanked cells when its two
      convection terms are the rates of the fluxes `fOld` and `f`. */
  ghost predicate CorrectorStep(t: Terms, d: DiffusionType, dt: real, dxinv: Inverse, fOld: Fluxes, f: Fluxes, b: Box,
                                phi: CompField, n: nat)
  {
    && Proper(b) && NoneBlanked(t, b) && Advances(t, d, dt, CorrectorRates(t, d), b, phi, n)
    && IsRate(fOld, dxinv, Comp(t.convOld, n), b) && IsRate(f, dxinv, Comp(t.conv, n), b)
  }

  lemma CorrectorGain(t: Terms, d: DiffusionType, n: nat, b: Box)
    requires NoneBlanked(t, b)
    ensures var gain := Total(Gains(t, CorrectorRates(t, d), n), b);
      var other := 0.5 * (Total(Comp(t.convOld, n), b) + Total(Comp(t.conv, n), b)) + Total(Sources(t, n), b);
      && (d == Explicit ==> gain == other + 0.5 * Total(Comp(t.diffOld, n), b) + 0.5 * Total(Comp(t.diff, n), b))
      && (d == CrankNicolson ==> gain == other + 0.5 * Total(Comp(t.diffOld, n), b))
      && (d == Implicit ==> gain == other)
  {
    match d
    case Explicit => GainOfParts(t, CorrectorRates(t, d), n, b, 0.5, 0.5, 0.5, 0.5);
    case CrankNicolson => GainOfParts(t, CorrectorRates(t, d), n, b, 0.5, 0.5, 0.5, 0.0);
    case Implicit => GainOfParts(t, CorrectorRates(t, d), n, b, 0.5, 0.5, 0.0, 0.0);
  }

  /** The budget of the corrector over any box without blanked cells: the total changes by
      the step times the total gain, and the total gain is the average of what the old and
      the new fluxes bring through the faces of the box, plus the sources, plus diffusion:
      the average of the old and the new one for explicit diffusion, half of the old one
      for Crank-Nicolson, and none for implicit diffusion. Fluxes through faces inside the
      box do not enter. */
  lemma CorrectorBudget(t: Terms, d: DiffusionType, dt: real, dxinv: Inverse, fOld: Fluxes, f: Fluxes, b: Box,
                        phi: CompField, n: nat)
    requires CorrectorStep(t, d, dt, dxinv, fOld, f, b, phi, n)
    ensures var gain := Total(Gains(t, CorrectorRates(t, d), n), b);
      var other := 0.5 * (Inflow(fOld, dxinv, b) + Inflow(f, dxinv, b)) + Total(Sources(t, n), b);
      && Total(Amounts(t, d, phi, n), b) == Total(OldAmounts(t, n), b) + dt * gain
      && (d == Explicit ==> gain == other + 0.5 * Total(Comp(t.diffOld, n), b) + 0.5 * Total(Comp(t.diff, n), b))
      && (d == CrankNicolson ==> gain == other + 0.5 * Total(Comp(t.diffOld, n), b))
      && (d == Implicit ==> gain == other)
  {
    StepBudget(t, d, dt, CorrectorRates(t, d), b, phi, n);
    RatesTelescope(fOld, dxinv, Comp(t.convOld, n), b);
    RatesTelescope(f, dxinv, Comp(t.conv, n), b);
    CorrectorGain(t, d, n, b);
  }

  /** The budget of the predictor: convection, all of the diffusion if it is explicit,
      half of it for Crank-Nicolson, none if it is implicit, and the sources; at the new
      time for Godunov schemes and at the old time otherwise. */
  lemma PredictorBudget(t: Terms, d: DiffusionType, godunov: bool, dt: real, b: Box, phi: CompField, n: nat)
    requires NoneBlanked(t, b) && Advances(t, d, dt, PredictorRates(t, d, godunov), b, phi, n)
    ensures var gain := Total(Gains(t, PredictorRates(t, d, godunov), n), b);
      var other := Total(Comp(if godunov then t.conv else t.convOld, n), b) + Total(Sources(t, n), b);
      var diffusion := Total(Comp(if godunov then t.diff else t.diffOld, n), b);
      && Total(Amounts(t, d, phi, n), b) == Total(OldAmounts(t, n), b) + dt * gain
      && (d == Explicit ==> gain == other + diffusion)
      && (d == CrankNicolson ==> gain == other + 0.5 * diffusion)
      && (d == Implicit ==> gain == other)
  {
    StepBudget(t, d, dt, PredictorRates(t, d, godunov), b, phi, n);
    var k := match d case Explicit => 1.0 case CrankNicolson => 0.5 case Implicit => 0.0;
    if godunov {
      GainOfParts(t, PredictorRates(t, d, godunov), n, b, 0.0, 1.0, 0.0, k);
    } else {
      GainOfParts(t, PredictorRates(t, d, godunov), n, b, 1.0, 0.0, k, 0.0);
    }
  }

  /** A term at every point of the box is what an array holds there. */
  ghost predicate TakenFrom(term: CompField, b: Box, ncomp: nat, n: nat, f: array4<real>)
    requires Covers(f, b, ncomp) && n < ncomp
    reads f
  {
    forall c :: Inside(b, c) ==> term(c, n) == At(f, b, ncomp, c, n)
  }

  lemma TermIsRate(s: Setting, dxinv: Inverse, term: CompField, n: nat, b: Box, f: array4<real>)
    requires Covers(f, b, |s.bcs|) && n < |s.bcs| && HoldsTileRates(s, b, dxinv, b, f)
    requires TakenFrom(term, b, |s.bcs|, n, f)
    ensures IsRate(BoundaryFluxes(s, n), dxinv, Comp(term, n), b)
  {
    var rate := Comp(term, n);
    forall i, j, k | In(b, i, j, k)
      ensures rate(i, j, k) == RateOf(BoundaryFluxes(s, n), dxinv, IntVect(i, j, k))
    {
      assert Inside(b, IntVect(i, j, k)) && rate(i, j, k) == term(IntVect(i, j, k), n);
    }
  }

  /** A periodic component on the whole domain: the convection terms are what the
      advection operator left, by any tilings, in arrays at the old and at the new time. */
  ghost predicate PeriodicTerms(t: Terms, dxinv: Inverse, sOld: Setting, s: Setting, convOld: array4<real>,
                                conv: array4<real>, n: nat)
    requires s.d == sOld.d && |s.bcs| == |sOld.bcs| && Covers(convOld, s.d, |s.bcs|) && Covers(conv, s.d, |s.bcs|)
    reads convOld, conv
  {
    && NoneBlanked(t, s.d)
    && PeriodicIn(sOld, n) && SlopesAgree(sOld.slopes, sOld.d) && PeriodicIn(s, n) && SlopesAgree(s.slopes, s.d)
    && HoldsTileRates(sOld, s.d, dxinv, s.d, convOld) && TakenFrom(t.convOld, s.d, |s.bcs|, n, convOld)
    && HoldsTileRates(s, s.d, dxinv, s.d, conv) && TakenFrom(t.conv, s.d, |s.bcs|, n, conv)
  }

  lemma PeriodicStep(t: Terms, d: DiffusionType, dt: real, dxinv: Inverse, sOld: Setting, s: Setting,
                     convOld: array4<real>, conv: array4<real>, field: array4<real>, n: nat)
    requires s.d == sOld.d && |s.bcs| == |sOld.bcs| && Covers(convOld, s.d, |s.bcs|) && Covers(conv, s.d, |s.bcs|)
    requires PeriodicTerms(t, dxinv, sOld, s, convOld, conv, n) && Covers(field, s.d, |s.bcs|)
    requires HoldsStep(t, d, dt, CorrectorRates(t, d), s.d, |s.bcs|, field)
    ensures CorrectorStep(t, d, dt, dxinv, BoundaryFluxes(sOld, n), BoundaryFluxes(s, n), s.d,
                          CompFieldOf(field, s.d, |s.bcs|), n)
  {
    TermIsRate(sOld, dxinv, t.convOld, n, s.d, convOld);
    TermIsRate(s, dxinv, t.conv, n, s.d, conv);
    HeldAdvances(t, d, dt, CorrectorRates(t, d), s.d, |s.bcs|, field, n);
  }

  /** With periodic data, sources that add up to nothing and diffusion of which the part
      that is used adds up to nothing, what the corrector leaves in its array has the total
      of the field before the step. */
  lemma PeriodicCorrectorConserves(t: Terms, d: DiffusionType, dt: real, dxinv: Inverse, sOld: Setting, s: Setting,
                                   convOld: array4<real>, conv: array4<real>, field: array4<real>, n: nat)
    requires s.d == sOld.d && |s.bcs| == |sOld.bcs| && Covers(convOld, s.d, |s.bcs|) && Covers(conv, s.d, |s.bcs|)
    requires PeriodicTerms(t, dxinv, sOld, s, convOld, conv, n) && Covers(field, s.d, |s.bcs|)
    requires HoldsStep(t, d, dt, CorrectorRates(t, d), s.d, |s.bcs|, field)
    requires Total(Sources(t, n), s.d) == 0.0
    requires d == Explicit ==> Total(Comp(t.diffOld, n), s.d) + Total(Comp(t.diff, n), s.d) == 0.0
    requires d == CrankNicolson ==> Total(Comp(t.diffOld, n), s.d) == 0.0
    ensures Total(Amounts(t, d, CompFieldOf(field, s.d, |s.bcs|), n), s.d) == Total(OldAmounts(t, n), s.d)
  {
    PeriodicStep(t, d, dt, dxinv, sOld, s, convOld, conv, field, n);
    CorrectorBudget(t, d, dt, dxinv, BoundaryFluxes(sOld, n), BoundaryFluxes(s, n), s.d,
                    CompFieldOf(field, s.d, |s.bcs|), n);
    PeriodicInflow(sOld, n, dxinv);
    PeriodicInflow(s, n, dxinv);
  }
}
