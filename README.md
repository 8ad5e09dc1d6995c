# Loan simulator core in Dafny

This project models the computational core of a Next.js loan simulator
("simulador de crédito"):

- the loan arithmetic of `src/lib/calculations.ts`:
  - the compound-interest path, where `calculateLoan` wires together the
    total, installment, interest and percentage helpers;
  - the constant-amortisation path (`calculateSAC`, "Sistema de
    Amortização Constante");
- the payment-schedule generator `generatePaymentSchedule`, which the three
  chart components copy verbatim;
- the pure data shaping around that generator in each chart: the displayed
  prefix, the insights, the tooltips, month labels, the pie data, the
  "% de Juros" ratio and the root class;
- the record factories, default constants and runtime type guards of
  `src/types/loan.ts`;
- the class-name combiner `cn` of `src/lib/utils.ts`.

Amounts and rates are exact `real` numbers. `Math.pow` with a natural
exponent is the recursive `Calculations.Pow`. Installment counts are `int`.

The two rate conventions of the code stay separate, as in the source:

- `calculations.ts` reads `interestRate` as a monthly percentage and divides
  it by 100;
- the charts read it as a monthly decimal and do not divide.

Modules:

- `Wrappers` (`Option`)
- `NumberText`: how a template literal renders an integer of magnitude
  below 10^21, with a parser for the round trip
- `JsValues`: a JavaScript value, used by the type guards
- `LoanTypes`
- `Calculations`
- `Utils`
- `ChartCommon`: the shared schedule generator, the JavaScript
  `slice(0, end)`, and the tooltip helpers
- one module per chart file: `BalanceEvolutionChart`,
  `InstallmentCompositionChart` and `LoanChart`

`generatePaymentSchedule` is an imperative loop in the source, so it is
modelled once, as the method `ChartCommon.GeneratePaymentSchedule`. The
method is proved against the recursive specification functions `RawBalance`,
`InterestAt`, `PrincipalAt`, `CumInterest`, `CumPrincipal` and `Row`, and
each chart calls it from its own wrapper. `calculateSAC` is a loop as well.
It is modelled as the method `Calculations.CalculateSAC` and proved against
the recursive sum `SacPaid`.

The tests and `LoanCalculator.tsx` import age-based functions
(`getInterestRateByAge`, `calculateLoanWithAge`, …) that `calculations.ts`
does not define. This model follows the functions that `calculations.ts`
does define.

## Model

| member | source | states |
|---|---|---|
| Calculations.TotalAmount | src/lib/calculations.ts:6-13 | at rate 0 the total is exactly the amount; for a positive amount and a non-negative rate it is at least the amount; with a positive rate and at least one installment it is strictly more |
| Calculations.InstallmentAmount | src/lib/calculations.ts:18-23 | the installment times the number of installments gives back the total |
| Calculations.TotalInterest | src/lib/calculations.ts:28-33 | principal plus interest is the total |
| Calculations.InterestPercentage | src/lib/calculations.ts:38-43 | the percentage times the principal is 100 times the interest |
| Calculations.CalculateLoan | src/lib/calculations.ts:48-66 | copies amount, installments and rate unchanged; total = amount·(1 + rate/100)^n; installment·n = total; interest = total − amount; percentage·amount = 100·interest; at rate 0 the total is the amount, the interest and percentage are 0, and the installment is amount/n |
| Calculations.PowOne | src/lib/calculations.ts:12 | 1^n = 1, which makes the zero-rate total exact |
| Calculations.Bernoulli | src/lib/calculations.ts:12 | (1 + m)^n ≥ 1 + n·m for m ≥ 0, the bound behind "the total exceeds the amount" |
| Calculations.CalculateSAC | src/lib/calculations.ts:72-98 | the loop total is the sum of the n SAC payments, equal to amount + (rate/100)·amount·(n+1)/2; installment·n = total; interest = total − amount; percentage·amount = 100·interest; the input fields are copied; at rate 0 the total is the amount, interest and percentage are 0, and the installment is amount/n |
| Calculations.SacPaidClosedForm | src/lib/calculations.ts:80-85 | after i iterations the accumulated total is i·(a/n) + (r/100)·(i·a − (a/n)·i(i−1)/2) |
| Calculations.SacTotalClosedForm | src/lib/calculations.ts:80-85 | the final SAC total is a + (r/100)·a·(n+1)/2 |
| Calculations.SacZeroRate | src/lib/calculations.ts:76-85 | with rate 0 each SAC payment is amount/n and the total is the amount |
| Calculations.SacPaymentsNonIncreasing | src/lib/calculations.ts:69-70 | for non-negative amount and rate no later payment exceeds an earlier one; with a positive amount and rate they strictly decrease ("parcelas decrescentes") |
| Calculations.SacPositiveRate | src/lib/calculations.ts:81-88 | for a positive amount and rate the SAC total exceeds the amount and the average installment exceeds amount/n |
| Calculations.SacNotAboveCompound | src/lib/calculations.ts:72-98 | SAC never costs more than the compound total for the same data, and costs strictly less from two installments on at a positive rate |
| Calculations.CompoundExample | src/lib/calculations.ts:6-13 | 10000 at 2% for 12 months gives a total strictly between 12682.415 and 12682.425 (so 12682.42 to the cent), an installment between 1056.865 and 1056.875, and an interest strictly between 2682.415 and 2682.425 |
| Calculations.SacExamples | src/lib/calculations.ts:72-98 | 1200 at 1% over 12 months totals 1278; 12000 at 2% over 12 months totals 13560 |
| Calculations.ZeroRateExample | src/lib/calculations.ts:48-66 | at rate 0, 12000 over 12 months totals 12000, in installments of 1000 |
| Calculations.PercentageExamples | src/lib/calculations.ts:38-43 | 13000 paid on 10000 is 3000 of interest; 2000 of interest on 10000 is 20%, 5000 is 50%, and no interest is 0% |
| LoanTypes.CreateLoanData | src/types/loan.ts:80-83 | each field present in the partial record wins; each absent field takes its value from DEFAULT_LOAN_DATA |
| LoanTypes.CreateLoanResult | src/types/loan.ts:85-90 | the same, against the all-zero DEFAULT_LOAN_RESULT |
| LoanTypes.CreateLoanCalculation | src/types/loan.ts:92-98 | the data fields are those of createLoanData(data) and the result fields those of createLoanResult(result) |
| LoanTypes.FactoryDefaults | src/types/loan.ts:59-98 | with nothing given, the factories return the default records {0, 1, 0} and all zeros |
| LoanTypes.CreateLoanDataComplete | src/types/loan.ts:80-83 | a complete record passes through createLoanData unchanged |
| LoanTypes.IsLoanData | src/types/loan.ts:34-42 | only an object (never an array, null or a primitive) passes; IsLoanDataExactly gives the full iff |
| LoanTypes.IsLoanResult | src/types/loan.ts:44-53 | only an object passes; IsLoanResultExactly gives the full iff |
| LoanTypes.IsLoanCalculation | src/types/loan.ts:55-57 | only an object passes; CalculationSatisfiesGuards shows every calculation does |
| LoanTypes.IsLoanDataExactly | src/types/loan.ts:34-42 | isLoanData holds iff the value is a non-null object whose amount, installments and interestRate are all numbers |
| LoanTypes.IsLoanResultExactly | src/types/loan.ts:44-53 | isLoanResult holds iff the value is a non-null object whose four result fields are all numbers |
| LoanTypes.IsLoanDataRejects | src/types/loan.ts:34-42 | null, undefined, {}, an array, a partial object and a string-valued field are all rejected |
| LoanTypes.IsLoanDataAllowsExtraFields | src/types/loan.ts:34-42 | adding an unrelated property keeps a value accepted |
| LoanTypes.CalculationSatisfiesGuards | src/types/loan.ts:55-57 | every loan calculation, as a JavaScript object, passes isLoanData, isLoanResult and isLoanCalculation |
| LoanTypes.FactoriesSatisfyGuards | src/types/loan.ts:80-98 | every factory output passes its guard |
| LoanTypes.ValidationRangesOrdered | src/types/loan.ts:73-77 | each DEFAULT_LOAN_VALIDATION range has min < max |
| Utils.KeptClasses | src/lib/utils.ts:8-12 | the kept classes are non-empty strings taken from the arguments, and there are none exactly when every argument is falsy |
| Utils.KeptConcat | src/lib/utils.ts:11 | filtering preserves the order of the arguments |
| Utils.KeptAppend | src/lib/utils.ts:11 | one more argument adds its string at the end iff it is truthy |
| Utils.JoinAppend | src/lib/utils.ts:11 | joining one more part adds exactly one separator before it |
| Utils.JoinLength | src/lib/utils.ts:11 | the joined length is the sum of the part lengths plus one separator between neighbours |
| Utils.Cn | src/lib/utils.ts:8-12 | the result is "" iff every argument is falsy; see also SplitJoin, CnIgnoresTrailingFalsy and CnAppendTruthy |
| Utils.SplitJoin | src/lib/utils.ts:11 | splitting the joined string at spaces gives back the space-free parts: no extra leading, trailing or doubled separator |
| Utils.CnAllFalsy | src/lib/utils.ts:11 | with no arguments, or only falsy ones, the result is "" |
| Utils.CnIgnoresTrailingFalsy | src/lib/utils.ts:11 | appending a falsy argument does not change the result |
| Utils.CnAppendTruthy | src/lib/utils.ts:11 | appending a non-empty class adds it after one space, or alone when nothing was kept before |
| Utils.CnExamples | src/lib/utils.ts:8-12 | cn(s) = s for non-empty s; a trailing undefined is dropped; "space-y-6" with "custom" gives "space-y-6 custom"; only falsy values give "" |
| NumberText.IntRoundTrip | src/components/loan/charts/LoanBalanceEvolutionChart.tsx:91-93 | the decimal rendering of any integer, negative ones included, reads back as that integer |
| NumberText.IntToDecimalInjective | src/components/loan/charts/LoanInstallmentCompositionChart.tsx:90-92 | different months get different renderings |
| ChartCommon.GeneratePaymentSchedule | src/components/loan/charts/LoanBalanceEvolutionChart.tsx:47-79 | exactly max(installments, 0) rows; row k is month k+1, with interest = (unclamped balance before the month)·rate, principal = installment − interest, the unclamped balance, and the running sums; the three payment fields are clamped at 0 and the two sums are unclamped |
| ChartCommon.RowFacts | src/components/loan/charts/LoanBalanceEvolutionChart.tsx:67-75 | a row's month is k+1; its stored balance, principal and interest are non-negative; the stored balance is the raw balance when that is non-negative and 0 otherwise |
| ChartCommon.CumulativeSplit | src/components/loan/charts/LoanBalanceEvolutionChart.tsx:63-64 | after k months, cumulative interest plus cumulative principal is k·installmentAmount |
| ChartCommon.BalanceIsAmountLessPrincipal | src/components/loan/charts/LoanBalanceEvolutionChart.tsx:53-65 | the unclamped balance after k months is amount − cumulative principal |
| ChartCommon.ZeroRateSchedule | src/components/loan/charts/LoanBalanceEvolutionChart.tsx:60-65 | at rate 0 every interest is 0, every principal is the installment, and the raw balance after k is amount − k·installment |
| ChartCommon.ZeroRatePaidOff | src/components/loan/charts/LoanBalanceEvolutionChart.tsx:59-76 | at rate 0 with installment = amount/n the last row's balance is exactly 0 |
| ChartCommon.MonthLabelReadsBack | src/components/loan/charts/LoanBalanceEvolutionChart.tsx:91-93 | a month label is the decimal rendering of the month followed by "º mês", and its prefix reads back as the month |
| ChartCommon.Max0 | src/components/loan/charts/LoanBalanceEvolutionChart.tsx:70-72 | Math.max(0, x) is at least 0 and at least x, and is one of the two |
| ChartCommon.Slice0 | src/components/loan/charts/LoanInstallmentCompositionChart.tsx:80 | slice(0, end) is a prefix of the sequence, of length SliceLength(length, end) |
| ChartCommon.SliceLength | src/components/loan/charts/LoanInstallmentCompositionChart.tsx:80 | the kept length never exceeds the length nor a non-negative end, and is the whole length once end reaches it; its definition is min(end, length) for end ≥ 0 and max(length + end, 0) for negative end |
| ChartCommon.MonthLabel | src/components/loan/charts/LoanBalanceEvolutionChart.tsx:91-93 | the month's decimal rendering followed by "º mês"; specified by MonthLabelReadsBack and FormatMonthExample |
| ChartCommon.TooltipActive | src/components/loan/charts/LoanBalanceEvolutionChart.tsx:109 | the guard `active && payload && payload.length`; the tooltips' contracts state that they render iff it holds |
| ChartCommon.TooltipTotal | src/components/loan/charts/LoanInstallmentCompositionChart.tsx:115 | 0 when no entry has either key; non-negative when every entry value is; see also TooltipTotalIgnoresOtherEntries and TooltipTotalExamples |
| ChartCommon.FindByDataKey | src/components/loan/charts/LoanInstallmentCompositionChart.tsx:110-113 | find gives nothing iff no entry has the key; otherwise it gives the first entry with that key |
| ChartCommon.FindSkipsOtherKeys | src/components/loan/charts/LoanInstallmentCompositionChart.tsx:110-113 | inserting an entry with another key does not change what find returns |
| ChartCommon.TooltipTotalIgnoresOtherEntries | src/components/loan/charts/LoanInstallmentCompositionChart.tsx:115 | entries whose key is neither principalPayment nor interestPayment do not affect the tooltip total |
| ChartCommon.TooltipTotalExamples | src/components/loan/charts/LoanInstallmentCompositionChart.tsx:115 | 800 principal plus 200 interest gives 1000; a missing entry counts as 0 |
| ChartCommon.TooltipLines | src/components/loan/charts/LoanBalanceEvolutionChart.tsx:115-119 | one line per payload entry, in order, with the entry's name and value |
| ChartCommon.CardClass | src/components/loan/charts/LoanBalanceEvolutionChart.tsx:127 | cn(className) is the prop itself, or "" when absent |
| BalanceEvolutionChart.PaymentSchedule | src/components/loan/charts/LoanBalanceEvolutionChart.tsx:47-81 | the chart data has installments rows in month order 1, 2, …; fields are non-negative; cumulativeInterest + cumulativePrincipal of row k is (k+1)·installmentAmount |
| BalanceEvolutionChart.CustomTooltip | src/components/loan/charts/LoanBalanceEvolutionChart.tsx:96-124 | something is rendered iff active with a non-empty payload; the heading is formatMonth of the month; one line per entry with its name and value |
| BalanceEvolutionChart.FormatMonthExample | src/components/loan/charts/LoanBalanceEvolutionChart.tsx:91-93 | month 1 renders as "1º mês", month 12 as "12º mês" |
| InstallmentCompositionChart.ShowMonths | src/components/loan/charts/LoanInstallmentCompositionChart.tsx:42 | showMonths defaults to 12 |
| InstallmentCompositionChart.DisplayedSchedule | src/components/loan/charts/LoanInstallmentCompositionChart.tsx:79-80 | the displayed rows are the first min(showMonths, installments) schedule rows |
| InstallmentCompositionChart.SliceLengthExamples | src/components/loan/charts/LoanInstallmentCompositionChart.tsx:80 | with the default, 24 installments show 12 rows, 3 show 3 and 0 show none; slice(0, −2) of 12 rows keeps 10 |
| InstallmentCompositionChart.FormatMonth | src/components/loan/charts/LoanInstallmentCompositionChart.tsx:90-92 | the month's decimal rendering followed by "º"; specified by FormatMonthReadsBack and FormatMonthExamples |
| InstallmentCompositionChart.FormatMonthReadsBack | src/components/loan/charts/LoanInstallmentCompositionChart.tsx:90-92 | formatMonth is the decimal rendering followed by "º", and the rendering reads back as the month |
| InstallmentCompositionChart.FormatMonthExamples | src/components/loan/charts/LoanInstallmentCompositionChart.tsx:90-92 | 1 → "1º", 0 → "0º", −1 → "-1º" |
| InstallmentCompositionChart.CompositionTooltip | src/components/loan/charts/LoanInstallmentCompositionChart.tsx:95-136 | null unless active with a non-empty payload; otherwise the heading "<m>º mês", the entries in order, and total = first principalPayment value (0 if none) + first interestPayment value (0 if none) |
| InstallmentCompositionChart.LargestAmortization | src/components/loan/charts/LoanInstallmentCompositionChart.tsx:206-209 | shown iff rows are displayed; captioned with showMonths; the last displayed row's principal |
| InstallmentCompositionChart.LargestInterest | src/components/loan/charts/LoanInstallmentCompositionChart.tsx:219-222 | shown iff rows are displayed; captioned "1º mês"; the first displayed row's interest |
| InstallmentCompositionChart.InsightsOfSchedule | src/components/loan/charts/LoanInstallmentCompositionChart.tsx:206-222 | on the displayed schedule, the interest insight is max(0, amount·rate) and the amortisation insight is the clamped principal of the last displayed month; the caption is showMonths even when fewer months exist |
| LoanChart.AreaChartData | src/components/loan/LoanChart.tsx:65-102 | the area chart gets the full schedule |
| LoanChart.BarChartData | src/components/loan/LoanChart.tsx:378 | the bar chart gets the first min(12, installments) rows |
| LoanChart.SummaryData | src/components/loan/LoanChart.tsx:105-116 | exactly two slices: Principal = amount in the success colour, then Juros = totalInterest in the warning colour |
| LoanChart.SummaryCoversTotal | src/components/loan/LoanChart.tsx:105-116 | for a computed loan the two slices add up to the total amount |
| LoanChart.InterestShareOfTotal | src/components/loan/LoanChart.tsx:456-459 | "% de Juros" times the total paid is 100 times the interest: the share is relative to the total, not to the amount |
| LoanChart.InterestShareBelowPercentage | src/components/loan/LoanChart.tsx:456-459 | for a computed loan with a positive amount and a non-negative rate the share is in [0, 100) and never exceeds interestPercentage |
| LoanChart.PercentageRate | src/components/loan/LoanChart.tsx:131-135 | the monthly decimal rate times 100; 0.02 gives 2 |
| LoanChart.CompositionTooltip | src/components/loan/LoanChart.tsx:138-206 | rendered iff active with a non-empty payload; interest and principal rows iff entries with those keys exist; the total is their sum with 0 for a missing one; the share exists iff there is an interest entry and the total is positive, and share·total = 100·interest |
| LoanChart.CustomTooltip | src/components/loan/LoanChart.tsx:209-235 | rendered iff active with a non-empty payload; the raw label, and one line per entry with the entry's name and value, in order |
| LoanChart.RootClass | src/components/loan/LoanChart.tsx:238 | through the local cn, the root class is "space-y-6" when the prop is absent or empty, and "space-y-6 " followed by the prop otherwise |

## Left out

Presentation and environment:

- JSX rendering, Recharts, Tailwind classes and the UI components are not
  modelled: they are presentation with no stateable behaviour beyond what
  is listed above.
- React state and Next.js routing are not modelled.
- `src/app/simulador/page.tsx` is not part of this model. Its inline
  compound total duplicates `calculateTotalAmount`, which is modelled.

Number formatting and arithmetic:

- `formatCurrency` (`Intl.NumberFormat`) and `toFixed` are locale display
  formatting and are not modelled. `LoanChart.PercentageRate` and
  `LoanChart.InterestShareOfTotal` stop at the number before `toFixed`.
- The pie label's percentage is computed inside Recharts and is not
  modelled.
- IEEE-754 floating point is not modelled. Arithmetic is exact, so every
  value is the ideal real number. The rounded figures of the tests (for
  example 12682.42) appear only as interval bounds in
  `Calculations.CompoundExample`.
- NaN and Infinity are not modelled, and neither are the finite but
  meaningless figures of a negative installment count:
  - `Calculations.CalculateLoan` and `Calculations.CalculateSAC` require
    installments > 0 and amount ≠ 0. With 0 installments or a 0 amount
    JavaScript produces Infinity or NaN; with a negative count it produces
    finite numbers that the model does not reproduce;
  - `Calculations.InstallmentAmount` requires installments ≠ 0;
  - `Calculations.InterestPercentage` requires the principal ≠ 0;
  - `LoanChart.InterestShareOfTotal` requires totalAmount ≠ 0.
- Calculations.TotalAmount: `installments` is a `nat`, so `Math.pow` with
  a negative exponent (a negative installment count) is not modelled.
- Numbers of magnitude 10^21 or more are printed by JavaScript in exponent
  form (for example `1e+21`). `NumberText.IntToDecimal`, and so the month
  labels and the `${showMonths}º mês` caption, give plain digits for them
  instead.
- `?.value || 0` also maps NaN to 0. The tooltips read it only as "absent
  gives 0".
- Non-integer `installments` and `showMonths`, which JavaScript accepts in
  loop bounds and `slice`, are not modelled: both are integers here.

JavaScript value semantics:

- BalanceEvolutionChart.CustomTooltip: the label goes through
  `Number(label)` before formatting. The model takes the month number that
  this parse yields as its input and does not model the parse, or its NaN
  for a non-numeric label.
- InstallmentCompositionChart.CompositionTooltip: the same, for `Number(label)`.
- LoanTypes.CreateLoanData: a `Partial` field is either present or absent.
  Spreading a field that is explicitly `undefined` (which overwrites the
  default) is not modelled. The same holds for
  `LoanTypes.CreateLoanResult` and `LoanTypes.CreateLoanCalculation`.
- The guards treat `typeof obj === "object"` as "object or array". Other
  host objects (Date, Map, …) are not modelled.

Functions that are not modelled:

- Functions named only by tests or imports are not modelled:
  `getInterestRateByAge`, `calculateLoanWithAge`,
  `convertAnnualToMonthlyRate`, `getAgeFromBirthDate`,
  `calculateLoanWithCustomRate`, `formatCurrency` and `formatPercentage`
  from `@/lib/utils`. None of them is defined in the `calculations.ts` or
  `utils.ts` of the repository.

Duplicates modelled once:

- The three copies of `generatePaymentSchedule` are modelled once, as
  `ChartCommon.GeneratePaymentSchedule`.
- The local `formatMonth` of `LoanChart.tsx:126-128` is the same function as
  `ChartCommon.MonthLabel`.
- The local `cn` of `LoanChart.tsx:28-30` is the same as `Utils.Cn`, and so
  is the one in `Badge.tsx` (Badge.tsx is not part of this model).

Weaker contracts:

- ChartCommon.RowFacts: this lemma does not restate the interest and
  principal formulas of a row. Those are given by the definitions of
  `Row`, `InterestAt` and `PrincipalAt`, which
  `ChartCommon.GeneratePaymentSchedule` is proved against.
- Tooling (coverage script, Jest, ESLint and Tailwind configuration) and the
  plain data of `src/constants/loan.ts` are not modelled: they have no
  behaviour.
