/** The second half of the solar return-on-investment calculation: the
    year-by-year savings and cost simulation with break-even detection, the
    no-solar counterfactual, the summary figures (lifetime savings, ROI,
    carbon offset, bill impact) and the calculation as the source runs it,
    with its two accumulating loops.

    Everything here reads the fixed figures through a `Setup` record, so the
    series and their properties are stated over those figures alone. */
module RoiSimulation {
  import opened Wrappers
  import opened SolarMath
  import opened RoiEngine

  /** Panels keep 99.5% of the previous year's output. */
  const DegradationFactor: real := 0.995
  /** Metric tons of CO2 avoided per kWh produced. */
  const CarbonTonsPerKwh: real := 0.0004

  /** The unrounded figures of one projection. `roi` and `annualizedRoi` are
      None where the source divides by a zero total investment (NaN or an
      infinity in JavaScript). */
  datatype Projection = Projection(
    systemSize: real,
    annualProduction: real,
    systemCost: real,
    federalTaxCredit: real,
    netSystemCost: real,
    actualOutOfPocket: real,
    firstYearSavings: real,
    monthlyLoanPayment: real,
    totalInterestPaid: real,
    cumulativeSavings: real,
    cumulativeCosts: real,
    breakEvenYear: nat,
    totalLifetimeSavings: real,
    roi: Option<real>,
    annualizedRoi: Option<real>,
    totalElectricityBillWithoutSolar: real,
    carbonOffsetPerYear: real,
    totalCarbonOffset: real,
    isProfitable: bool,
    effectiveAnnualSavings: real,
    currentMonthlyBill: real,
    newMonthlyBill: real,
    monthlySavings: real)

  // ---------------------------------------------------------------------------
  // The year-by-year series, specified on their own

  /** Production in year y (1-based), after 0.5% compounding degradation. */
  function Production(s: Setup, y: nat): real
    requires y >= 1
  {
    s.annualProduction * Pow(DegradationFactor, y - 1)
  }

  /** What year y's production is worth at that year's escalated utility price. */
  function YearSavings(s: Setup, y: nat): real
    requires y >= 1
  {
    Production(s, y) * s.electricityRate * Pow(s.escalation, y - 1)
  }

  /** The yearly savings as a series over years 1, 2, ... */
  function SavingsTerm(s: Setup): nat -> real
  {
    (y: nat) => if y == 0 then 0.0 else YearSavings(s, y)
  }

  /** Savings summed over years 1..n. */
  function CumulativeSavings(s: Setup, n: nat): real
  {
    SeriesSum(SavingsTerm(s), n)
  }

  /** Twelve payments in each of the loan's 20 years, nothing otherwise. */
  function LoanCostInYear(s: Setup, y: nat): real
  {
    if y <= LoanTermYears && s.loanAmount > 0.0 then s.monthlyLoanPayment * 12.0 else 0.0
  }

  /** Costs up to the end of year n: the out-of-pocket amount and all loan
      interest up front, then twelve loan payments in each year of the loan. */
  function CumulativeCosts(s: Setup, n: nat): real
  {
    if n == 0 then s.actualOutOfPocket + s.totalInterestPaid
    else CumulativeCosts(s, n - 1) + LoanCostInYear(s, n)
  }

  /** Whether the running savings after year y have reached the running costs. */
  predicate BrokeEven(s: Setup, y: nat)
  {
    CumulativeSavings(s, y) >= CumulativeCosts(s, y)
  }

  /** The break-even test as a year predicate, for the generic scan. */
  function BrokeEvenTest(s: Setup): nat -> bool
  {
    (y: nat) => BrokeEven(s, y)
  }

  /** The scan over years 1..n that records the first year for which
      `reached` holds and keeps it; 0 when there is none. */
  function FirstReached(reached: nat -> bool, n: nat): nat
  {
    if n == 0 then 0
    else
      var b := FirstReached(reached, n - 1);
      if reached(n) && b == 0 then n else b
  }

  /** The break-even year found by scanning years 1..n: it is recorded on the
      first year whose running savings reach its running costs, and kept. */
  function FirstBreakEven(s: Setup, n: nat): nat
  {
    FirstReached(BrokeEvenTest(s), n)
  }

  /** A year of bills at year y's escalated price, as a series over years
      1, 2, ... */
  function BillTerm(s: Setup): nat -> real
  {
    (y: nat) => if y == 0 then 0.0 else s.monthlyBill * 12.0 * Pow(s.escalation, y - 1)
  }

  /** What the household would pay for electricity over years 1..n without
      solar, at the escalating price. */
  function BillWithoutSolar(s: Setup, n: nat): real
  {
    SeriesSum(BillTerm(s), n)
  }

  // ---------------------------------------------------------------------------
  // Bill impact and the summary

  /** Bill after solar, per month, never negative, and together with the
      monthly saving making up the current bill. */
  function NewMonthlyBill(s: Setup): (b: real)
    ensures b >= 0.0
    ensures b + MonthlySavings(s) == s.monthlyBill
    ensures b == 0.0 <==> s.firstYearSavings / 12.0 >= s.monthlyBill
  {
    var saved := s.firstYearSavings / 12.0;
    if 0.0 >= s.monthlyBill - saved then 0.0 else s.monthlyBill - saved
  }

  /** Monthly saving: a twelfth of the first year's savings, capped at the
      current bill. */
  function MonthlySavings(s: Setup): (m: real)
    ensures m <= s.monthlyBill && m <= s.firstYearSavings / 12.0
    ensures m == s.monthlyBill || m == s.firstYearSavings / 12.0
  {
    var saved := s.firstYearSavings / 12.0;
    if s.monthlyBill <= saved then s.monthlyBill else saved
  }

  /** The figures derived from the simulation's results (running savings and
      costs after the last year, the break-even year and the no-solar bill
      total) and from the fixed figures. The lifetime savings are what the
      savings exceed the costs by, the system is profitable exactly when that
      is positive, the ROI is undefined exactly when nothing was invested and
      otherwise scales the lifetime savings back to the investment, the
      yearly figures spread the totals evenly over the time frame, the
      carbon offset counts the first year's production every year, and the
      bill impact splits the current bill into what is saved and what is
      still paid. */
  function Summary(s: Setup, savings: real, costs: real, breakEven: nat, billWithoutSolar: real): (p: Projection)
    requires s.timeFrame >= 1
    ensures p.cumulativeSavings == savings && p.cumulativeCosts == costs
    ensures p.actualOutOfPocket == s.actualOutOfPocket && p.totalInterestPaid == s.totalInterestPaid
    ensures p.currentMonthlyBill == s.monthlyBill
    ensures p.newMonthlyBill == NewMonthlyBill(s) && p.monthlySavings == MonthlySavings(s)
    ensures p.carbonOffsetPerYear == s.annualProduction * CarbonTonsPerKwh
    ensures p.breakEvenYear == breakEven && p.totalElectricityBillWithoutSolar == billWithoutSolar
    ensures p.totalLifetimeSavings == savings - costs
    ensures p.isProfitable <==> savings > costs
    ensures p.roi.None? <==> p.actualOutOfPocket + p.totalInterestPaid == 0.0
    ensures p.roi.Some? ==> p.roi.value * (p.actualOutOfPocket + p.totalInterestPaid) == 100.0 * (savings - costs)
    ensures p.annualizedRoi.Some? <==> p.roi.Some?
    ensures p.roi.Some? ==> p.annualizedRoi.value * s.timeFrame as real == p.roi.value
    ensures p.effectiveAnnualSavings * s.timeFrame as real == savings - costs
    ensures p.totalCarbonOffset == p.carbonOffsetPerYear * s.timeFrame as real
    ensures p.newMonthlyBill >= 0.0
    ensures p.monthlySavings <= p.currentMonthlyBill
    ensures p.newMonthlyBill + p.monthlySavings == p.currentMonthlyBill
  {
    var tf := s.timeFrame as real;
    var lifetime := savings - costs;
    var investment := s.actualOutOfPocket + s.totalInterestPaid;
    var roi := if investment == 0.0 then None else Some(lifetime / investment * 100.0);
    var carbon := s.annualProduction * CarbonTonsPerKwh;
    Projection(
      systemSize := s.systemSize,
      annualProduction := s.annualProduction,
      systemCost := s.systemCost,
      federalTaxCredit := s.federalTaxCredit,
      netSystemCost := s.netSystemCost,
      actualOutOfPocket := s.actualOutOfPocket,
      firstYearSavings := s.firstYearSavings,
      monthlyLoanPayment := s.monthlyLoanPayment,
      totalInterestPaid := s.totalInterestPaid,
      cumulativeSavings := savings,
      cumulativeCosts := costs,
      breakEvenYear := breakEven,
      totalLifetimeSavings := lifetime,
      roi := roi,
      annualizedRoi := if roi.None? then None else Some(roi.value / tf),
      totalElectricityBillWithoutSolar := billWithoutSolar,
      carbonOffsetPerYear := carbon,
      totalCarbonOffset := carbon * tf,
      isProfitable := lifetime > 0.0,
      effectiveAnnualSavings := lifetime / tf,
      currentMonthlyBill := s.monthlyBill,
      newMonthlyBill := NewMonthlyBill(s),
      monthlySavings := MonthlySavings(s))
  }

  /** The projection from the fixed figures: the summary of the series taken
      over the full time frame. */
  function Projected(s: Setup): Projection
    requires s.timeFrame >= 1
  {
    var tf := s.timeFrame;
    Summary(s, CumulativeSavings(s, tf), CumulativeCosts(s, tf), FirstBreakEven(s, tf), BillWithoutSolar(s, tf))
  }

  /** The whole projection, as a specification. */
  function Project(inp: RoiInput): Projection
    requires WellFormed(inp)
  {
    Projected(Prepare(inp))
  }

  // ---------------------------------------------------------------------------
  // Properties of the series

  /** Number of loan years that have elapsed by the end of year n. */
  function LoanYears(n: nat): (k: nat)
    ensures k <= n && k <= LoanTermYears
    ensures k == n || k == LoanTermYears
  {
    if n <= LoanTermYears then n else LoanTermYears
  }

  /** After n years the costs are the up-front amount plus twelve payments for
      each loan year elapsed, at most 20. */
  lemma {:induction false} CumulativeCostsClosedForm(s: Setup, n: nat)
    ensures CumulativeCosts(s, n) == s.actualOutOfPocket + s.totalInterestPaid
      + (if s.loanAmount > 0.0 then 12.0 * s.monthlyLoanPayment * LoanYears(n) as real else 0.0)
  {
    if n > 0 {
      CumulativeCostsClosedForm(s, n - 1);
      if n <= LoanTermYears {
        MulLeft(12.0 * s.monthlyLoanPayment, LoanYears(n) as real, LoanYears(n - 1) as real + 1.0);
      }
    }
  }

  /** The scan yields 0 exactly when no year in 1..n is reached; otherwise it
      yields the first reached year. */
  lemma {:induction false} FirstReachedIsFirst(reached: nat -> bool, n: nat)
    ensures FirstReached(reached, n) == 0 <==> forall y :: 1 <= y <= n ==> !reached(y)
    ensures FirstReached(reached, n) != 0 ==>
      var b := FirstReached(reached, n);
      1 <= b <= n && reached(b) && forall y :: 1 <= y < b ==> !reached(y)
  {
    if n > 0 {
      FirstReachedIsFirst(reached, n - 1);
    }
  }

  /** Once recorded, the scan's result is never changed by later years. */
  lemma {:induction false} FirstReachedSticky(reached: nat -> bool, m: nat, n: nat)
    requires m <= n && FirstReached(reached, m) != 0
    ensures FirstReached(reached, n) == FirstReached(reached, m)
  {
    if m < n {
      FirstReachedSticky(reached, m, n - 1);
    }
  }

  /** The break-even year is 0 exactly when no year in 1..n has running
      savings at least its running costs; otherwise it is the first such year. */
  lemma BreakEvenIsFirst(s: Setup, n: nat)
    ensures FirstBreakEven(s, n) == 0 <==> forall y :: 1 <= y <= n ==> !BrokeEven(s, y)
    ensures FirstBreakEven(s, n) != 0 ==>
      var b := FirstBreakEven(s, n);
      1 <= b <= n && BrokeEven(s, b) && forall y :: 1 <= y < b ==> !BrokeEven(s, y)
  {
    FirstReachedIsFirst(BrokeEvenTest(s), n);
    forall y: nat
      ensures BrokeEvenTest(s)(y) == BrokeEven(s, y)
    {
    }
  }

  /** Once recorded, the break-even year is never changed by later years. */
  lemma BreakEvenSticky(s: Setup, m: nat, n: nat)
    requires m <= n && FirstBreakEven(s, m) != 0
    ensures FirstBreakEven(s, n) == FirstBreakEven(s, m)
  {
    FirstReachedSticky(BrokeEvenTest(s), m, n);
  }

  /** Degradation: each year's production is 99.5% of the year before's. */
  lemma DegradationLaw(s: Setup, y: nat)
    requires y >= 1
    ensures Production(s, y + 1) == Production(s, y) * DegradationFactor
  {
    MulLeft(s.annualProduction, Pow(DegradationFactor, y), DegradationFactor * Pow(DegradationFactor, y - 1));
  }

  /** The factor by which one year's savings exceed the year before's:
      0.5% less production, valued at a price higher by the increase. */
  function Growth(s: Setup): real
  {
    DegradationFactor * s.escalation
  }

  /** The first year's savings are the first year's production valued at
      today's price, as the calculation fixes them. */
  predicate SavingsPriced(s: Setup)
  {
    s.firstYearSavings == s.annualProduction * s.electricityRate
  }

  /** Year y's savings are the first year's, grown by degradation times
      escalation for each year that has passed. */
  lemma YearSavingsClosedForm(s: Setup, y: nat)
    requires SavingsPriced(s) && y >= 1
    ensures YearSavings(s, y) == s.firstYearSavings * Pow(Growth(s), y - 1)
  {
    PowMul(DegradationFactor, s.escalation, y - 1);
    Regroup(Production(s, y), s.annualProduction, Pow(DegradationFactor, y - 1), s.electricityRate,
            Pow(s.escalation, y - 1), Pow(Growth(s), y - 1), s.firstYearSavings);
  }

  lemma Regroup(prod: real, a: real, d: real, r: real, e: real, de: real, f: real)
    requires prod == a * d && de == d * e && f == a * r
    ensures prod * r * e == f * de
  {
    MulLeft(r * e, prod, a * d);
    MulLeft(a * r, de, d * e);
    MulLeft(de, f, a * r);
  }

  /** Consecutive years' savings differ by the factor 0.995 * (1 + increase). */
  lemma SavingsRatio(s: Setup, y: nat)
    requires SavingsPriced(s) && y >= 1
    ensures YearSavings(s, y + 1) == YearSavings(s, y) * Growth(s)
  {
    YearSavingsClosedForm(s, y);
    YearSavingsClosedForm(s, y + 1);
    ScaleStep(YearSavings(s, y), YearSavings(s, y + 1), s.firstYearSavings, Growth(s),
              Pow(Growth(s), y - 1), Pow(Growth(s), y));
  }

  lemma ScaleStep(t: real, t1: real, f: real, g: real, p: real, q: real)
    requires t == f * p && t1 == f * q && q == g * p
    ensures t1 == t * g
  {
    MulLeft(f, q, g * p);
    MulLeft(g, t, f * p);
  }

  /** Running savings are the first year's savings times a geometric sum. */
  lemma CumulativeSavingsClosedForm(s: Setup, n: nat)
    requires SavingsPriced(s)
    ensures CumulativeSavings(s, n) == s.firstYearSavings * GeoSum(Growth(s), n)
  {
    forall y | 1 <= y <= n
      ensures SavingsTerm(s)(y) == s.firstYearSavings * Pow(Growth(s), y - 1)
    {
      YearSavingsClosedForm(s, y);
    }
    GeometricSeries(SavingsTerm(s), s.firstYearSavings, Growth(s), n);
  }

  /** The no-solar bill total is a year of today's bills times a geometric sum. */
  lemma BillWithoutSolarClosedForm(s: Setup, n: nat)
    ensures BillWithoutSolar(s, n) == s.monthlyBill * 12.0 * GeoSum(s.escalation, n)
  {
    GeometricSeries(BillTerm(s), s.monthlyBill * 12.0, s.escalation, n);
  }

  /** A faster utility price increase never lowers the running savings and
      leaves the running costs alone (for non-negative first-year savings and
      an increase of no less than -100%). */
  lemma EscalationMonotone(s: Setup, e: real, n: nat)
    requires SavingsPriced(s) && s.firstYearSavings >= 0.0
    requires 0.0 <= s.escalation <= e
    ensures CumulativeSavings(s, n) <= CumulativeSavings(s.(escalation := e), n)
    ensures CumulativeCosts(s, n) == CumulativeCosts(s.(escalation := e), n)
  {
    var s' := s.(escalation := e);
    forall y | 1 <= y <= n
      ensures SavingsTerm(s)(y) <= SavingsTerm(s')(y)
    {
      YearSavingsClosedForm(s, y);
      YearSavingsClosedForm(s', y);
      PowMonotoneBase(Growth(s), Growth(s'), y - 1);
      PowSign(Growth(s), y - 1);
      MonotoneStep(s.firstYearSavings, s.firstYearSavings, Pow(Growth(s), y - 1), Pow(Growth(s'), y - 1));
    }
    SeriesMonotone(SavingsTerm(s), SavingsTerm(s'), n);
    CumulativeCostsClosedForm(s, n);
    CumulativeCostsClosedForm(s', n);
  }

  // ---------------------------------------------------------------------------
  // Properties of the projection

  /** The projection's running savings are the first year's savings times
      the geometric sum of the yearly growth 0.995 * (1 + increase). */
  lemma ProjectionSavings(s: Setup)
    requires s.timeFrame >= 1 && SavingsPriced(s)
    ensures Projected(s).cumulativeSavings == s.firstYearSavings * GeoSum(Growth(s), s.timeFrame)
  {
    CumulativeSavingsClosedForm(s, s.timeFrame);
  }

  /** The projection's running costs are the up-front amount plus a year of
      loan payments for each loan year within the time frame. */
  lemma ProjectionCosts(s: Setup)
    requires s.timeFrame >= 1
    ensures Projected(s).cumulativeCosts == s.actualOutOfPocket + s.totalInterestPaid
      + (if s.loanAmount > 0.0 then 12.0 * s.monthlyLoanPayment * LoanYears(s.timeFrame) as real else 0.0)
  {
    CumulativeCostsClosedForm(s, s.timeFrame);
  }

  /** The projection's no-solar bill total is a year of today's bills times the
      geometric sum of the price escalation. */
  lemma ProjectionBill(s: Setup)
    requires s.timeFrame >= 1
    ensures Projected(s).totalElectricityBillWithoutSolar == s.monthlyBill * 12.0 * GeoSum(s.escalation, s.timeFrame)
  {
    BillWithoutSolarClosedForm(s, s.timeFrame);
  }

  /** The projection's break-even year is 0 exactly when the running savings
      never reach the running costs within the time frame, and otherwise the
      first year in which they do. */
  lemma ProjectionBreakEven(s: Setup)
    requires s.timeFrame >= 1
    ensures var p := Projected(s);
      && (p.breakEvenYear == 0 <==> forall y :: 1 <= y <= s.timeFrame ==> !BrokeEven(s, y))
      && (p.breakEvenYear != 0 ==>
           1 <= p.breakEvenYear <= s.timeFrame && BrokeEven(s, p.breakEvenYear)
           && forall y :: 1 <= y < p.breakEvenYear ==> !BrokeEven(s, y))
  {
    BreakEvenIsFirst(s, s.timeFrame);
  }

  /** The projected lifetime savings never drop when the utility price
      increase is raised (for non-negative first-year savings and an increase
      of no less than -100%). */
  lemma LifetimeSavingsMonotone(s: Setup, e: real)
    requires s.timeFrame >= 1 && SavingsPriced(s) && s.firstYearSavings >= 0.0
    requires 0.0 <= s.escalation <= e
    ensures Projected(s).totalLifetimeSavings <= Projected(s.(escalation := e)).totalLifetimeSavings
  {
    EscalationMonotone(s, e, s.timeFrame);
  }

  /** The same, stated on the form's inputs: raising the utility rate
      increase keeps the inputs well formed and never lowers the projected
      lifetime savings. */
  lemma RateIncreaseMonotone(inp: RoiInput, u: real)
    requires WellFormed(inp) && inp.utilityRateIncrease <= u
    requires Escalation(inp) >= 0.0 && FirstYearSavings(inp) >= 0.0
    ensures WellFormed(inp.(utilityRateIncrease := u))
    ensures Project(inp).totalLifetimeSavings <= Project(inp.(utilityRateIncrease := u)).totalLifetimeSavings
  {
    var inp' := inp.(utilityRateIncrease := u);
    PreparedFigures(inp);
    RateOnlyEscalates(inp, u);
    LifetimeSavingsMonotone(Prepare(inp), Escalation(inp'));
  }

  /** The fixed figures price the first year's production at today's rate and
      carry the form's time frame and escalation. */
  lemma PreparedFigures(inp: RoiInput)
    requires Defined(inp)
    ensures SavingsPriced(Prepare(inp))
    ensures Prepare(inp).timeFrame == inp.timeFrame
    ensures Prepare(inp).escalation == Escalation(inp)
    ensures Prepare(inp).firstYearSavings == FirstYearSavings(inp)
  {
  }

  /** The utility rate increase enters the fixed figures only through the
      escalation factor. */
  lemma RateOnlyEscalates(inp: RoiInput, u: real)
    requires Defined(inp)
    ensures Defined(inp.(utilityRateIncrease := u))
    ensures Prepare(inp.(utilityRateIncrease := u))
      == Prepare(inp).(escalation := Escalation(inp.(utilityRateIncrease := u)))
  {
  }

  // ---------------------------------------------------------------------------
  // The calculation as the source runs it: two accumulating loops

  /** The year-by-year loop: running savings and costs over the time frame,
      recording the first year the savings reach the costs. */
  method SimulateYears(s: Setup) returns (cumulativeSavings: real, cumulativeCosts: real, breakEvenYear: nat)
    ensures cumulativeSavings == CumulativeSavings(s, s.timeFrame)
    ensures cumulativeCosts == CumulativeCosts(s, s.timeFrame)
    ensures breakEvenYear == FirstBreakEven(s, s.timeFrame)
  {
    cumulativeSavings := 0.0;
    cumulativeCosts := s.actualOutOfPocket + s.totalInterestPaid;
    breakEvenYear := 0;
    var year: nat := 1;
    while year <= s.timeFrame
      invariant 1 <= year <= s.timeFrame + 1
      invariant cumulativeSavings == CumulativeSavings(s, year - 1)
      invariant cumulativeCosts == CumulativeCosts(s, year - 1)
      invariant breakEvenYear == FirstBreakEven(s, year - 1)
    {
      // degraded production valued at the escalated price
      var adjustedProduction := Production(s, year);
      var currentAnnualSavings := adjustedProduction * s.electricityRate * Pow(s.escalation, year - 1);
      SavingsTermIs(s, year, adjustedProduction, currentAnnualSavings);
      cumulativeSavings := cumulativeSavings + currentAnnualSavings;
      if year <= LoanTermYears && s.loanAmount > 0.0 {
        cumulativeCosts := cumulativeCosts + s.monthlyLoanPayment * 12.0;
      }
      if cumulativeSavings >= cumulativeCosts && breakEvenYear == 0 {
        breakEvenYear := year;
      }
      year := year + 1;
    }
  }

  /** The loop body's figure for year y is the year-y term of the savings
      series. */
  lemma SavingsTermIs(s: Setup, y: nat, adjustedProduction: real, currentAnnualSavings: real)
    requires y >= 1 && adjustedProduction == Production(s, y)
    requires currentAnnualSavings == adjustedProduction * s.electricityRate * Pow(s.escalation, y - 1)
    ensures currentAnnualSavings == SavingsTerm(s)(y)
  {
  }

  /** The loop body's figure for year y is the year-y term of the bill series. */
  lemma BillTermIs(s: Setup, y: nat, yearlyBill: real)
    requires y >= 1 && yearlyBill == s.monthlyBill * 12.0 * Pow(s.escalation, y - 1)
    ensures yearlyBill == BillTerm(s)(y)
  {
  }

  /** The counterfactual loop: a year of bills at each year's escalated price. */
  method BillsWithoutSolar(s: Setup) returns (total: real)
    ensures total == BillWithoutSolar(s, s.timeFrame)
  {
    total := 0.0;
    var year: nat := 1;
    while year <= s.timeFrame
      invariant 1 <= year <= s.timeFrame + 1
      invariant total == BillWithoutSolar(s, year - 1)
    {
      var yearlyBill := s.monthlyBill * 12.0 * Pow(s.escalation, year - 1);
      BillTermIs(s, year, yearlyBill);
      total := total + yearlyBill;
      year := year + 1;
    }
  }

  /** The calculation: the fixed figures, the two loops and the summary. */
  method CalculateSolarROI(inp: RoiInput) returns (p: Projection)
    requires WellFormed(inp)
    ensures p == Project(inp)
  {
    var s := Prepare(inp);
    var cumulativeSavings, cumulativeCosts, breakEvenYear := SimulateYears(s);
    var totalElectricityBillWithoutSolar := BillsWithoutSolar(s);
    p := Summary(s, cumulativeSavings, cumulativeCosts, breakEvenYear, totalElectricityBillWithoutSolar);
  }
}
