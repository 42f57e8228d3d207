/** The straight-line first half of the solar return-on-investment
    calculation: the inputs and their fallbacks, system sizing, production,
    the federal tax credit and the loan's annuity payment and interest, all
    fixed before the year-by-year simulation starts.

    JavaScript doubles are modelled as exact reals; `Math.pow` is `Pow`. */
module RoiEngine {
  import opened Wrappers
  import opened SolarMath
  import opened SolarTables

  const LoanTermMonths: nat := 240
  const LoanTermYears: nat := 20
  const TaxCreditRate: real := 0.30
  /** Peak sun hours used when the system size is estimated from the bill. */
  const SizingSunHours: real := 4.5

  /** The form's numeric fields after `parseFloat`. `systemSize` and
      `downPayment` are None when the field does not parse (blank). */
  datatype RoiInput = RoiInput(
    monthlyBill: real,
    electricityRate: real,
    systemSize: Option<real>,
    systemCost: real,
    downPayment: Option<real>,
    financingRate: real,          // annual percentage, e.g. 6.5
    location: Location,
    roofType: RoofOrientation,
    timeFrame: nat,               // years
    utilityRateIncrease: real)    // annual percentage, e.g. 3.0

  // ---------------------------------------------------------------------------
  // Inputs and their fallbacks

  /** JavaScript's `parsed || fallback` on a number: a blank (NaN) or zero
      field selects the fallback. */
  function OrElse(o: Option<real>, fallback: real): (r: real)
    ensures o.Some? && o.value != 0.0 ==> r == o.value
    ensures o.None? || o.value == 0.0 ==> r == fallback
  {
    if o.Some? && o.value != 0.0 then o.value else fallback
  }

  /** The amount paid up front: the down payment given, or the whole system
      cost when the field is blank or zero. */
  function DownPayment(inp: RoiInput): (d: real)
    ensures d == inp.systemCost || (inp.downPayment.Some? && d == inp.downPayment.value)
    ensures inp.downPayment.None? || inp.downPayment == Some(0.0) ==> d == inp.systemCost
  {
    OrElse(inp.downPayment, inp.systemCost)
  }

  /** The part of the system cost the down payment leaves to be financed: with
      a blank or zero down payment there is nothing to finance. */
  function LoanAmount(inp: RoiInput): (l: real)
    ensures l + DownPayment(inp) == inp.systemCost
    ensures inp.downPayment.None? || inp.downPayment == Some(0.0) ==> l == 0.0
    ensures inp.downPayment.Some? && inp.downPayment.value != 0.0 ==> l == inp.systemCost - inp.downPayment.value
  {
    inp.systemCost - DownPayment(inp)
  }

  /** The loan's monthly interest rate as a fraction. */
  function MonthlyRate(inp: RoiInput): real
  {
    inp.financingRate / 100.0 / 12.0
  }

  /** One plus the yearly utility price increase as a fraction. */
  function Escalation(inp: RoiInput): real
  {
    1.0 + inp.utilityRateIncrease / 100.0
  }

  predicate SizeGiven(inp: RoiInput)
  {
    inp.systemSize.Some? && inp.systemSize.value != 0.0
  }

  /** The size estimate divides by the electricity rate. */
  predicate SizeDefined(inp: RoiInput)
  {
    !SizeGiven(inp) ==> inp.electricityRate != 0.0
  }

  /** The annuity formula divides by (1 + r)^240 - 1, which is zero exactly
      for the monthly rates 0 and -2, i.e. annual rates 0% and -2400%. */
  predicate LoanDefined(inp: RoiInput)
  {
    LoanAmount(inp) > 0.0 ==> inp.financingRate != 0.0 && inp.financingRate != -2400.0
  }

  predicate Defined(inp: RoiInput)
  {
    SizeDefined(inp) && LoanDefined(inp)
  }

  /** The inputs for which every figure of the projection is a finite number. */
  predicate WellFormed(inp: RoiInput)
  {
    Defined(inp) && inp.timeFrame >= 1
  }

  // ---------------------------------------------------------------------------
  // System sizing and production

  /** The given size, or the size whose yield at 4.5 sun hours a day, valued
      at the electricity rate, matches a year of bills. */
  function SystemSize(inp: RoiInput): (s: real)
    requires SizeDefined(inp)
    ensures SizeGiven(inp) ==> s == inp.systemSize.value
    ensures !SizeGiven(inp) ==> s * (inp.electricityRate * 1000.0 * SizingSunHours) == inp.monthlyBill * 12.0
  {
    if SizeGiven(inp) then inp.systemSize.value
    else (inp.monthlyBill * 12.0) / (inp.electricityRate * 1000.0 * SizingSunHours)
  }

  /** First-year production in kWh: the size times the site's sun hours a
      day, 365 days, the roof's multiplier and the system efficiency. It is
      zero exactly when the size is, and for a non-negative size it lies
      between the yields of the worst site (north roof, low sun) and the
      best (south roof, high sun). */
  function AnnualProduction(inp: RoiInput): (p: real)
    requires SizeDefined(inp)
    ensures p == 0.0 <==> SystemSize(inp) == 0.0
    ensures SystemSize(inp) >= 0.0 ==> 0.0 <= p
    ensures SystemSize(inp) >= 0.0 ==>
      SystemSize(inp) * (3.5 * 365.0 * 0.6 * SystemEfficiency) <= p <= SystemSize(inp) * (5.5 * 365.0 * 1.0 * SystemEfficiency)
  {
    var s, h, m := SystemSize(inp), PeakSunHours(inp.location), RoofMultiplier(inp.roofType);
    assert 3.5 * 0.6 <= h * m <= 5.5 * 1.0 by {
      assert 3.5 * 0.6 <= 3.5 * m <= h * m;
      assert h * m <= 5.5 * m <= 5.5 * 1.0;
    }
    s * h * 365.0 * m * SystemEfficiency
  }

  function FirstYearSavings(inp: RoiInput): real
    requires SizeDefined(inp)
  {
    AnnualProduction(inp) * inp.electricityRate
  }

  // ---------------------------------------------------------------------------
  // Incentive

  /** The 30% federal tax credit on the system cost. */
  function FederalTaxCredit(inp: RoiInput): (c: real)
    ensures c == TaxCreditRate * inp.systemCost
  {
    inp.systemCost * TaxCreditRate
  }

  /** What the system costs once the credit is taken off: the credit and the
      net cost add back up to the sticker price. */
  function NetSystemCost(inp: RoiInput): (n: real)
    ensures n + FederalTaxCredit(inp) == inp.systemCost
    ensures n == 0.7 * inp.systemCost
  {
    inp.systemCost - FederalTaxCredit(inp)
  }

  /** The down payment less a 30% credit on the down payment itself. */
  function ActualOutOfPocket(inp: RoiInput): (o: real)
    ensures o == 0.7 * DownPayment(inp)
    ensures inp.downPayment.None? || inp.downPayment == Some(0.0) ==> o == NetSystemCost(inp)
  {
    DownPayment(inp) - DownPayment(inp) * TaxCreditRate
  }

  // ---------------------------------------------------------------------------
  // Financing

  /** The fixed-rate annuity payment for a principal l at monthly rate r over
      240 months: l * r * (1 + r)^240 / ((1 + r)^240 - 1). */
  function Annuity(l: real, r: real): (a: real)
    requires r != 0.0 && r != -2.0
    ensures a * (Pow(1.0 + r, LoanTermMonths) - 1.0) == l * (r * Pow(1.0 + r, LoanTermMonths))
  {
    var p := Pow(1.0 + r, LoanTermMonths);
    PowNotOne(1.0 + r, LoanTermMonths);
    l * (r * p) / (p - 1.0)
  }

  /** The monthly payment: the annuity on the loan, or nothing without one. */
  function MonthlyLoanPayment(inp: RoiInput): (m: real)
    requires LoanDefined(inp)
    ensures LoanAmount(inp) <= 0.0 ==> m == 0.0
  {
    if LoanAmount(inp) > 0.0 then Annuity(LoanAmount(inp), MonthlyRate(inp)) else 0.0
  }

  /** Everything paid over the loan's life beyond the principal. */
  function TotalInterestPaid(inp: RoiInput): (t: real)
    requires LoanDefined(inp)
    ensures LoanAmount(inp) <= 0.0 ==> t == 0.0
    ensures LoanAmount(inp) > 0.0 ==> t + LoanAmount(inp) == LoanTermMonths as real * MonthlyLoanPayment(inp)
  {
    if LoanAmount(inp) > 0.0 then MonthlyLoanPayment(inp) * LoanTermMonths as real - LoanAmount(inp)
    else 0.0
  }

  /** The loan balance after n monthly payments of m, where each month the
      balance first grows by the factor `growth` (1 plus the monthly rate),
      then the payment is taken off. */
  function Balance(principal: real, growth: real, m: real, n: nat): real
  {
    if n == 0 then principal else Balance(principal, growth, m, n - 1) * growth - m
  }

  lemma {:induction false} BalanceClosedForm(principal: real, x: real, m: real, n: nat)
    ensures Balance(principal, x, m, n) == principal * Pow(x, n) - m * GeoSum(x, n)
  {
    if n > 0 {
      BalanceClosedForm(principal, x, m, n - 1);
      BalanceStep(principal, Pow(x, n - 1), m, GeoSum(x, n - 1), x);
    }
  }

  /** One month of the closed form: interest on the balance, less a payment. */
  lemma BalanceStep(a: real, p: real, m: real, g: real, x: real)
    ensures (a * p - m * g) * x - m == a * (x * p) - m * (1.0 + x * g)
  {
  }

  /** The annuity payment is exactly the one that leaves nothing owed after
      the 240th payment. */
  lemma {:induction false} AnnuityRepays(l: real, r: real)
    requires r != 0.0 && r != -2.0
    ensures Balance(l, 1.0 + r, Annuity(l, r), LoanTermMonths) == 0.0
  {
    PowNotOne(1.0 + r, LoanTermMonths);
    GeoSumRate(r, LoanTermMonths);
    AnnuityCancels(l, r, Pow(1.0 + r, LoanTermMonths), GeoSum(1.0 + r, LoanTermMonths), Annuity(l, r));
    BalanceClosedForm(l, 1.0 + r, Annuity(l, r), LoanTermMonths);
  }

  /** The payment the calculator charges repays its loan in 240 months. */
  lemma AnnuityRepaysLoan(inp: RoiInput)
    requires LoanDefined(inp) && LoanAmount(inp) > 0.0
    ensures Balance(LoanAmount(inp), 1.0 + MonthlyRate(inp), MonthlyLoanPayment(inp), LoanTermMonths) == 0.0
  {
    AnnuityRepays(LoanAmount(inp), MonthlyRate(inp));
  }

  /** With p - 1 == r * g (and nonzero), a payment m with m * (p - 1) == l * r * p
      satisfies m * g == l * p. */
  lemma AnnuityCancels(l: real, r: real, p: real, g: real, m: real)
    requires r * g == p - 1.0 && p - 1.0 != 0.0
    requires m * (p - 1.0) == l * (r * p)
    ensures l * p - m * g == 0.0
  {
    assert r * (m * g) == r * (l * p) by {
      assert m * (r * g) == l * (r * p);
    }
    assert r != 0.0;
  }

  /** At a positive interest rate the 240 payments cover at least the
      principal, so the interest paid is never negative. */
  lemma InterestNonNegative(inp: RoiInput)
    requires LoanDefined(inp) && inp.financingRate > 0.0
    ensures TotalInterestPaid(inp) >= 0.0
    ensures LoanAmount(inp) > 0.0 ==> LoanTermMonths as real * MonthlyLoanPayment(inp) >= LoanAmount(inp)
  {
    if LoanAmount(inp) > 0.0 {
      AnnuityCoversPrincipal(LoanAmount(inp), MonthlyRate(inp));
    }
  }

  /** At a positive rate, 240 annuity payments add up to at least the principal. */
  lemma AnnuityCoversPrincipal(l: real, r: real)
    requires l > 0.0 && r > 0.0
    ensures LoanTermMonths as real * Annuity(l, r) >= l
  {
    PowNotOne(1.0 + r, LoanTermMonths);
    GeoSumRate(r, LoanTermMonths);
    GeoSumAtMost(1.0 + r, LoanTermMonths);
    GeoSumSign(1.0 + r, LoanTermMonths);
    PaymentCoversPrincipal(l, r, Pow(1.0 + r, LoanTermMonths), GeoSum(1.0 + r, LoanTermMonths),
                           Annuity(l, r), LoanTermMonths as real);
  }

  /** With p - 1 == r * g, g <= n * p and a positive rate and principal, n
      payments of m, where m * (p - 1) == l * r * p, add up to at least l. */
  lemma PaymentCoversPrincipal(l: real, r: real, p: real, g: real, m: real, n: real)
    requires l > 0.0 && r > 0.0 && g >= 1.0 && n >= 0.0
    requires r * g == p - 1.0 && g <= n * p
    requires m * (p - 1.0) == l * (r * p)
    ensures n * m >= l
  {
    var d := p - 1.0;
    assert d > 0.0;
    assert d <= n * (r * p) by {
      assert r * g <= r * (n * p);
    }
    assert (n * m) * d == l * (n * (r * p));
    assert l * (n * (r * p)) >= l * d;
    assert (n * m - l) * d >= 0.0;
  }

  /** A blank or zero down payment means the whole system is paid up front,
      so there is no loan, no payment and no interest. */
  lemma NoLoanWithoutDownPayment(inp: RoiInput)
    requires inp.downPayment.None? || inp.downPayment == Some(0.0)
    ensures LoanAmount(inp) == 0.0 && LoanDefined(inp)
    ensures MonthlyLoanPayment(inp) == 0.0 && TotalInterestPaid(inp) == 0.0
  {
  }

  /** The form's own example values: the "e.g." placeholders of the monthly
      bill ($180) and the system cost ($25,000, here paid in full), with the
      form's initial electricity rate ($0.12/kWh), financing rate, average
      location, south roof, 20 years and 3% increase. */
  lemma WorkedExample()
    ensures var inp := RoiInput(180.0, 0.12, None, 25000.0, Some(25000.0), 6.5, Average, South, 20, 3.0);
      && WellFormed(inp)
      && SystemSize(inp) == 4.0
      && FederalTaxCredit(inp) == 7500.0
      && NetSystemCost(inp) == 17500.0
      && ActualOutOfPocket(inp) == 17500.0
      && LoanAmount(inp) == 0.0
      && MonthlyLoanPayment(inp) == 0.0 && TotalInterestPaid(inp) == 0.0
      && AnnualProduction(inp) == 5212.2
  {
  }

  // ---------------------------------------------------------------------------
  // The fixed figures, gathered

  /** The figures the calculation fixes before its loops, as the loops and
      the summary read them. */
  datatype Setup = Setup(
    monthlyBill: real,
    electricityRate: real,
    systemSize: real,
    systemCost: real,
    loanAmount: real,
    timeFrame: nat,
    escalation: real,             // 1 + the yearly utility price increase
    annualProduction: real,
    firstYearSavings: real,
    federalTaxCredit: real,
    netSystemCost: real,
    actualOutOfPocket: real,
    monthlyLoanPayment: real,
    totalInterestPaid: real)

  function Prepare(inp: RoiInput): Setup
    requires Defined(inp)
  {
    Setup(
      monthlyBill := inp.monthlyBill,
      electricityRate := inp.electricityRate,
      systemSize := SystemSize(inp),
      systemCost := inp.systemCost,
      loanAmount := LoanAmount(inp),
      timeFrame := inp.timeFrame,
      escalation := Escalation(inp),
      annualProduction := AnnualProduction(inp),
      firstYearSavings := FirstYearSavings(inp),
      federalTaxCredit := FederalTaxCredit(inp),
      netSystemCost := NetSystemCost(inp),
      actualOutOfPocket := ActualOutOfPocket(inp),
      monthlyLoanPayment := MonthlyLoanPayment(inp),
      totalInterestPaid := TotalInterestPaid(inp))
  }
}
