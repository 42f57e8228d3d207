/** The result record the calculator stores and displays: the projection's
    figures rounded the way `Math.round` rounds, currency-like figures to
    whole units and sizes, percentages and tons to one decimal place. */
module RoiResults {
  import opened Wrappers
  import opened RoiEngine
  import opened RoiSimulation

  /** `Math.round`: the nearest integer, halves rounding up (towards
      +infinity). It is the one integer within half a unit, counting the
      upper end. */
  function Round(x: real): (r: int)
    ensures x - 0.5 < r as real <= x + 0.5
  {
    (x + 0.5).Floor
  }

  /** `Math.round(x * 10) / 10`: x to one decimal place, a whole number of
      tenths within half a tenth, halves rounding up. */
  function RoundTenth(x: real): (r: real)
    ensures (r * 10.0).Floor as real == r * 10.0
    ensures x - 0.05 < r <= x + 0.05
  {
    Round(x * 10.0) as real / 10.0
  }

  /** r is x rounded to a whole number: within half a unit, halves up. */
  predicate NearestWhole(x: real, r: int)
  {
    x - 0.5 < r as real <= x + 0.5
  }

  /** r is x rounded to one decimal place: a whole number of tenths within
      half a tenth, halves up. */
  predicate NearestTenth(x: real, r: real)
  {
    (r * 10.0).Floor as real == r * 10.0 && x - 0.05 < r <= x + 0.05
  }

  /** An integer rounds to itself. */
  lemma RoundInteger(n: int)
    ensures Round(n as real) == n
  {
    var r := Round(n as real);
    assert n as real - 0.5 < r as real <= n as real + 0.5;
  }

  /** Rounding never reverses an order. */
  lemma RoundMonotone(x: real, y: real)
    requires x <= y
    ensures Round(x) <= Round(y)
  {
    assert (x + 0.5).Floor as real <= x + 0.5 <= y + 0.5;
  }

  /** One decimal place for `roi` and `annualizedROI`, which are NaN or an
      infinity in JavaScript when the investment is zero. */
  function RoundTenthOption(o: Option<real>): (r: Option<real>)
    ensures r.None? <==> o.None?
    ensures o.Some? ==> NearestTenth(o.value, r.value)
  {
    if o.None? then None else Some(RoundTenth(o.value))
  }

  /** The stored result record (`paybackPeriod` repeats the break-even year). */
  datatype Results = Results(
    systemSize: real,
    annualProduction: int,
    systemCost: int,
    netSystemCost: int,
    actualOutOfPocket: int,
    firstYearSavings: int,
    totalLifetimeSavings: int,
    totalElectricityBillWithoutSolar: int,
    cumulativeSavings: int,
    roi: Option<real>,
    annualizedRoi: Option<real>,
    breakEvenYear: nat,
    federalTaxCredit: int,
    monthlyLoanPayment: int,
    totalInterestPaid: int,
    carbonOffsetPerYear: real,
    totalCarbonOffset: real,
    isProfitable: bool,
    paybackPeriod: nat,
    effectiveAnnualSavings: int,
    currentMonthlyBill: int,
    newMonthlyBill: int,
    monthlySavings: int)

  /** The rounded record: each figure is its projection's figure rounded to
      a whole unit (or to a tenth), the break-even year and the verdict are
      carried over unchanged, and ROI and annualized ROI are undefined
      exactly when they were. */
  function Present(p: Projection): (r: Results)
    ensures NearestTenth(p.systemSize, r.systemSize)
    ensures NearestWhole(p.annualProduction, r.annualProduction)
    ensures NearestWhole(p.systemCost, r.systemCost)
    ensures NearestWhole(p.netSystemCost, r.netSystemCost)
    ensures NearestWhole(p.actualOutOfPocket, r.actualOutOfPocket)
    ensures NearestWhole(p.firstYearSavings, r.firstYearSavings)
    ensures NearestWhole(p.totalLifetimeSavings, r.totalLifetimeSavings)
    ensures NearestWhole(p.totalElectricityBillWithoutSolar, r.totalElectricityBillWithoutSolar)
    ensures NearestWhole(p.cumulativeSavings, r.cumulativeSavings)
    ensures r.roi.None? <==> p.roi.None?
    ensures p.roi.Some? ==> NearestTenth(p.roi.value, r.roi.value)
    ensures r.annualizedRoi.None? <==> p.annualizedRoi.None?
    ensures p.annualizedRoi.Some? ==> NearestTenth(p.annualizedRoi.value, r.annualizedRoi.value)
    ensures r.breakEvenYear == r.paybackPeriod == p.breakEvenYear
    ensures NearestWhole(p.federalTaxCredit, r.federalTaxCredit)
    ensures NearestWhole(p.monthlyLoanPayment, r.monthlyLoanPayment)
    ensures NearestWhole(p.totalInterestPaid, r.totalInterestPaid)
    ensures NearestTenth(p.carbonOffsetPerYear, r.carbonOffsetPerYear)
    ensures NearestTenth(p.totalCarbonOffset, r.totalCarbonOffset)
    ensures r.isProfitable == p.isProfitable
    ensures NearestWhole(p.effectiveAnnualSavings, r.effectiveAnnualSavings)
    ensures NearestWhole(p.currentMonthlyBill, r.currentMonthlyBill)
    ensures NearestWhole(p.newMonthlyBill, r.newMonthlyBill)
    ensures NearestWhole(p.monthlySavings, r.monthlySavings)
  {
    Results(
      systemSize := RoundTenth(p.systemSize),
      annualProduction := Round(p.annualProduction),
      systemCost := Round(p.systemCost),
      netSystemCost := Round(p.netSystemCost),
      actualOutOfPocket := Round(p.actualOutOfPocket),
      firstYearSavings := Round(p.firstYearSavings),
      totalLifetimeSavings := Round(p.totalLifetimeSavings),
      totalElectricityBillWithoutSolar := Round(p.totalElectricityBillWithoutSolar),
      cumulativeSavings := Round(p.cumulativeSavings),
      roi := RoundTenthOption(p.roi),
      annualizedRoi := RoundTenthOption(p.annualizedRoi),
      breakEvenYear := p.breakEvenYear,
      federalTaxCredit := Round(p.federalTaxCredit),
      monthlyLoanPayment := Round(p.monthlyLoanPayment),
      totalInterestPaid := Round(p.totalInterestPaid),
      carbonOffsetPerYear := RoundTenth(p.carbonOffsetPerYear),
      totalCarbonOffset := RoundTenth(p.totalCarbonOffset),
      isProfitable := p.isProfitable,
      paybackPeriod := p.breakEvenYear,
      effectiveAnnualSavings := Round(p.effectiveAnnualSavings),
      currentMonthlyBill := Round(p.currentMonthlyBill),
      newMonthlyBill := Round(p.newMonthlyBill),
      monthlySavings := Round(p.monthlySavings))
  }

  /** The displayed bill impact keeps its shape after rounding: the new bill
      is not negative, the saving is at most the displayed current bill, and
      new bill plus saving is the current bill give or take one unit. */
  lemma PresentedBillImpact(s: Setup)
    requires s.timeFrame >= 1
    ensures var r := Present(Projected(s));
      && r.newMonthlyBill >= 0
      && r.monthlySavings <= r.currentMonthlyBill
      && -1 <= r.newMonthlyBill + r.monthlySavings - r.currentMonthlyBill <= 1
  {
    var p := Projected(s);
    assert p.newMonthlyBill == NewMonthlyBill(s) && p.monthlySavings == MonthlySavings(s);
    assert p.currentMonthlyBill == s.monthlyBill;
    RoundMonotone(0.0, p.newMonthlyBill);
    RoundInteger(0);
    RoundMonotone(p.monthlySavings, p.currentMonthlyBill);
  }
}
