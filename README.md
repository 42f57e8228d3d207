# Solar ROI calculator — a verified Dafny model

The calculator is a two-step lead form. On step 1 the visitor gives contact
details. On step 2 they give their electricity bill, a system cost and a few
options. The form then projects what a rooftop solar system saves and costs
over 10 to 30 years.

This project models the computational core of the single source file
`src/App.js`:

- the irradiance and roof-orientation tables;
- the input fallbacks (`parseFloat(...) || fallback`);
- system sizing and annual production;
- the 30% federal tax credit;
- the 240-month fixed-rate annuity loan;
- the year-by-year loop of degraded, escalated savings and loan costs, with its sticky break-even year;
- the no-solar bill counterfactual;
- the summary, carbon and bill-impact figures;
- the `Math.round` presentation of the result record;
- the form state with its handlers (`handleInputChange`, `validateStep1`, `validateStep2`, `handleNextStep`, and "Back").

JavaScript doubles are modelled as exact `real`s. `Math.pow` with a whole
exponent is the recursive `SolarMath.Pow`.

Modules:

- `Wrappers` (`wrappers.dfy`): `Option`.
- `SolarMath` (`solar_math.dfy`): powers, geometric sums, sums of a yearly series, and their laws.
- `SolarTables` (`solar_tables.dfy`): the two lookup tables.
- `RoiEngine` (`roi_engine.dfy`): the parsed inputs (`RoiInput`) and everything computed before the loops. It gathers those figures into a `Setup` record through `Prepare`.
- `RoiSimulation` (`roi_simulation.dfy`): the series the loops compute, given as functions (`CumulativeSavings`, `CumulativeCosts`, `FirstBreakEven`, `BillWithoutSolar`), and the summary (`Summary`, `Projected`, `Project`). It also holds the loops as methods (`SimulateYears`, `BillsWithoutSolar`), each proved equal to its function, and `CalculateSolarROI`, proved equal to `Project`.
- `RoiResults` (`roi_results.dfy`): `Math.round`, and the stored result record built by `Present`.
- `LeadForm` (`lead_form.dfy`): the form's fields, JavaScript `trim`, the two gates, and the `SolarCalculator` class. The class holds `step`, `formData`, `results` and `showResults`, with methods for the handlers.

The model follows the code as written on these points:

- Step 1 only checks that the five contact fields are non-blank after `trim`. There is no e-mail, phone or ZIP format check.
- Step 2 only checks that the monthly bill and system cost texts are non-empty. Positivity is not checked.
- A zero total investment is not rejected; the code produces NaN or Infinity for ROI. The model makes `roi` and `annualizedRoi` `None` in that case.
- The carbon offset uses the undegraded first-year production for every year.

## Model

| member | source | states |
|---|---|---|
| SolarTables.PeakSunHours | src/App.js:28-32 | Sun hours are 5.5, 4.2 or 3.5. They are 5.5 exactly for a high location and 3.5 exactly for a low one. |
| SolarTables.RoofMultiplier | src/App.js:35-42 | Multipliers lie in [0.6, 1.0]. 1.0 exactly for south and 0.6 exactly for north. |
| SolarTables.RoofMultiplierOrder | src/App.js:35-42 | Southeast equals southwest and east equals west. The multiplier strictly decreases from south through the diagonals and east/west to north. |
| RoiEngine.DownPayment | src/App.js:103 | The down payment is the one given or the system cost. A blank or zero field gives the system cost. |
| RoiEngine.LoanAmount | src/App.js:104 | Loan plus down payment is the system cost. A blank or zero down payment leaves no loan; a given one leaves the cost minus it. |
| RoiEngine.SystemSize | src/App.js:111 | A given non-zero size is used as is. Otherwise the estimate's yield at 4.5 sun hours × 1000, valued at the electricity rate, equals twelve months of bills. |
| RoiEngine.AnnualProduction | src/App.js:112-117 | First-year production is zero exactly when the size is. For a non-negative size it is non-negative and lies between the north-roof/low-sun and south-roof/high-sun yields of that size. |
| RoiEngine.NetSystemCost | src/App.js:121-122 | The federal credit is 30% of the system cost: the net cost is 70% of it, and net cost plus credit is exactly the system cost. |
| RoiEngine.ActualOutOfPocket | src/App.js:103-123 | Out-of-pocket is 70% of the down payment. With a blank or zero down payment it equals the net system cost. |
| RoiEngine.Annuity | src/App.js:130 | The payment m satisfies m·((1+r)^240 − 1) = L·r·(1+r)^240, the fixed-rate annuity equation. |
| RoiEngine.MonthlyLoanPayment | src/App.js:126-131 | There is no payment when the loan amount is not positive. |
| RoiEngine.TotalInterestPaid | src/App.js:126-132 | Interest is 0 without a loan. Otherwise interest plus principal equals 240 payments. |
| RoiEngine.AnnuityRepays | src/App.js:130 | Paying the annuity for 240 months, with monthly interest on the balance, leaves a balance of exactly 0. |
| RoiEngine.AnnuityRepaysLoan | src/App.js:126-131 | The same, for the loan and payment the calculator computes. |
| RoiEngine.AnnuityCoversPrincipal | src/App.js:130 | At a positive rate, 240 payments are at least the principal. |
| RoiEngine.InterestNonNegative | src/App.js:126-132 | At a positive financing rate the total interest is never negative. |
| RoiEngine.NoLoanWithoutDownPayment | src/App.js:103-104 | A blank or zero down payment falls back to the system cost, so there is no loan, payment or interest. |
| RoiEngine.WorkedExample | src/App.js:101-123 | The form's own example values (the bill and cost placeholders with the initial rate, location and roof): $180 bill, $0.12/kWh, $25,000 paid in full, average site, south roof. It gives 4.0 kW, a $7,500 credit, $17,500 net and out of pocket, no loan, and 5212.2 kWh a year. |
| RoiSimulation.LoanYears | src/App.js:150 | The number of loan years elapsed by year n is min(n, 20). |
| RoiSimulation.CumulativeCostsClosedForm | src/App.js:136-153 | Costs after n years are out-of-pocket + interest, plus 12 payments per loan year elapsed when there is a loan. |
| RoiSimulation.FirstReachedIsFirst | src/App.js:155-158 | The sticky scan yields 0 exactly when no year qualifies. Otherwise it yields the least qualifying year. |
| RoiSimulation.FirstReachedSticky | src/App.js:155-158 | Once recorded, the scan's result is never changed by later years. |
| RoiSimulation.BreakEvenIsFirst | src/App.js:137-158 | The break-even year is 0 exactly when running savings never reach running costs. Otherwise it is the first year they do. |
| RoiSimulation.BreakEvenSticky | src/App.js:155-158 | Later years never change a recorded break-even year. |
| RoiSimulation.DegradationLaw | src/App.js:141-142 | Each year's production is 0.995 times the year before's. |
| RoiSimulation.YearSavingsClosedForm | src/App.js:141-145 | Year y's savings are the first year's savings × (0.995·(1+inc))^(y−1). |
| RoiSimulation.SavingsRatio | src/App.js:141-145 | Consecutive years' savings differ by the factor 0.995·(1+inc). |
| RoiSimulation.CumulativeSavingsClosedForm | src/App.js:135-146 | Savings after n years are the first year's savings × the geometric sum of 0.995·(1+inc). |
| RoiSimulation.BillWithoutSolarClosedForm | src/App.js:169-173 | The no-solar total is 12 × the bill × the geometric sum of (1+inc). |
| RoiSimulation.EscalationMonotone | src/App.js:141-153 | A higher price escalation never lowers running savings and leaves running costs unchanged. This needs non-negative first-year savings and escalation. |
| RoiSimulation.NewMonthlyBill | src/App.js:214 | The new bill is ≥ 0. It is 0 exactly when a month of savings covers the bill. New bill plus monthly saving is the current bill. |
| RoiSimulation.MonthlySavings | src/App.js:215 | The monthly saving is the smaller of the bill and a twelfth of the first year's savings. |
| RoiSimulation.Summary | src/App.js:160-215 | The record carries the simulation's savings, costs, break-even year and no-solar total, and the set-up's out-of-pocket amount, interest and current bill. Lifetime savings = savings − costs; profitable ⇔ savings > costs; ROI undefined ⇔ out-of-pocket + interest is 0; ROI·investment = 100·lifetime; annualized ROI defined ⇔ ROI is, and annualized ROI·years = ROI; effective annual savings·years = lifetime; yearly carbon is 0.0004 t per kWh of first-year production and total carbon = yearly carbon·years; the new bill and monthly saving are NewMonthlyBill and MonthlySavings, so new bill ≥ 0, saving ≤ current bill and new bill + saving = current bill. |
| RoiSimulation.ProjectionSavings | src/App.js:135-146 | The projection's cumulative savings in closed form. |
| RoiSimulation.ProjectionCosts | src/App.js:136-153 | The projection's cumulative costs in closed form. |
| RoiSimulation.ProjectionBill | src/App.js:169-173 | The projection's no-solar bill total in closed form. |
| RoiSimulation.ProjectionBreakEven | src/App.js:137-158 | The projection's break-even year is 0 or the first year savings reach costs, and 0 exactly when there is none. |
| RoiSimulation.LifetimeSavingsMonotone | src/App.js:141-161 | A higher price escalation never lowers the projected lifetime savings. |
| RoiSimulation.RateIncreaseMonotone | src/App.js:107-161 | The same for the form's utility rate increase. Raising it keeps the inputs well formed. |
| RoiSimulation.RateOnlyEscalates | src/App.js:101-132 | The utility rate increase affects the pre-loop figures only through the escalation factor. |
| RoiSimulation.SimulateYears | src/App.js:135-159 | The loop ends with the running savings, running costs and break-even year of the specification series. |
| RoiSimulation.BillsWithoutSolar | src/App.js:169-173 | The loop ends with the no-solar bill total of the specification series. |
| RoiSimulation.CalculateSolarROI | src/App.js:100-216 | The calculation returns exactly the specified projection. |
| RoiResults.Round | src/App.js:182 | `Math.round` gives the integer r with x − 0.5 < r ≤ x + 0.5. |
| RoiResults.RoundTenth | src/App.js:181 | One-decimal rounding gives a whole number of tenths within 0.05 of the value, halves rounding up. |
| RoiResults.RoundInteger | src/App.js:213 | Rounding leaves integers unchanged. |
| RoiResults.RoundMonotone | src/App.js:213-215 | Rounding preserves order. |
| RoiResults.RoundTenthOption | src/App.js:194-195 | ROI stays undefined (NaN or an infinity in JavaScript) exactly when it was. Otherwise it is rounded to a whole number of tenths within 0.05. |
| RoiResults.Present | src/App.js:179-216 | Every stored figure is its projection figure rounded: size, ROI, annualized ROI and the two carbon figures to a whole number of tenths within 0.05, the other fifteen amounts to an integer within 0.5. Break-even year, payback period and verdict carry over. ROI and annualized ROI are undefined exactly when they were. |
| RoiResults.PresentedBillImpact | src/App.js:213-215 | After rounding, the new bill is ≥ 0 and the saving is ≤ the current bill. New bill plus saving is within 1 of the current bill. |
| LeadForm.TrimStart | src/App.js:52-53 | Strips exactly the leading white space. The result is a suffix that is empty or starts with a non-space. |
| LeadForm.TrimEnd | src/App.js:52-53 | Strips exactly the trailing white space. The result is a prefix that is empty or ends with a non-space. |
| LeadForm.Trim | src/App.js:52-53 | `trim` never lengthens the text, and its result is empty or starts and ends with a character that is not white space. |
| LeadForm.TrimEmpty | src/App.js:52-53 | `trim` is empty exactly when the text is all white space. |
| LeadForm.TrimIdempotent | src/App.js:52-53 | Trimming twice is trimming once. |
| LeadForm.Step1Ready | src/App.js:51-54 | Step 1 is valid exactly when each of name, email, phone, address and ZIP has a non-white-space character. |
| LeadForm.Step2Ready | src/App.js:56-58 | Step 2 is valid whenever the monthly bill and system cost both have text. |
| LeadForm.Step2AcceptsBlank | src/App.js:56-58 | A bill and a cost of a single space also pass step 2, although neither has text: these fields are not trimmed. |
| LeadForm.InitialFormData | src/App.js:6-23 | The initial form has a value for every field. |
| LeadForm.InitialNotReady | src/App.js:6-23 | On the initial form neither step is ready. |
| LeadForm.NextStep | src/App.js:223-226 | "Next" changes the step exactly when on step 1 with step 1 valid, and then to 2. |
| LeadForm.NextStepExclusive | src/App.js:223-229 | "Next" never both advances and calculates, and never calculates from step 1. |
| LeadForm.SolarCalculator.constructor | src/App.js:5-25 | Starts on step 1 with the initial form, no results and results hidden. |
| LeadForm.SolarCalculator.HandleInputChange | src/App.js:44-49 | Only the named field changes, to the typed text. Step and results stay as they were. |
| LeadForm.SolarCalculator.HandleNextStep | src/App.js:223-229 | The step becomes NextStep of the old state. On a valid step 2 it stores the rounded projection and shows it. Otherwise results are unchanged. The form is never changed. |
| LeadForm.SolarCalculator.Back | src/App.js:349 | Returns to step 1, keeping form and results. |

## Left out

- `sendWebhook` (network I/O, `fetch`, console logging) and its call after the results are stored: not modelled.
- JSX rendering, `formatCurrency` (`Intl.NumberFormat`) and the disabled state of the buttons: presentation only, not modelled.
- `parseFloat`: the numeric fields are taken already parsed (`RoiInput`). A blank `systemSize` or `downPayment` is `None`.
- The choice fields: `location` and `roofType` are the datatypes `Location` and `RoofOrientation`. `timeFrame` is a whole number of years, as its select offers only 10 to 30.
- LeadForm.SolarCalculator.HandleNextStep: the parsed input is a parameter. The model does not tie it to the text in `formData`.
- The annual-usage field is kept in the form but never used by the calculation, as in the source.
- Inputs whose figures are NaN or an infinity in JavaScript are excluded by `RoiEngine.WellFormed`:
  - an estimated size at a zero electricity rate;
  - a loan at a financing rate of 0% or −2400% (the only rates that make the annuity formula divide by zero);
  - a time frame of 0.
- A zero total investment is kept and gives an undefined ROI (`None`).
- Floating-point rounding of intermediate values is not modelled. All arithmetic is exact.
- `calculateSolarROI` is asynchronous only because of the webhook. The model runs it synchronously, and its two loops are separate methods over the `Setup` figures.
- The loop's seed values `currentAnnualSavings = firstYearSavings` and `totalLifetimeSavings = 0` are overwritten before use, so they are not modelled.
- RoiSimulation.EscalationMonotone, RoiSimulation.LifetimeSavingsMonotone, RoiSimulation.RateIncreaseMonotone: stated only for non-negative first-year savings and an increase of at least −100%. Outside that range a higher increase can lower the savings.
- RoiEngine.InterestNonNegative, RoiEngine.AnnuityCoversPrincipal: stated only for a positive financing rate. At a negative rate the interest can be negative.
