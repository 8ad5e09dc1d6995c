/** `LoanChart`: the dashboard of summary cards, a pie of principal against
    interest, the balance area chart, the composition bar chart of the first
    twelve months and the final summary. */
module LoanChart {
  import opened Wrappers
  import opened LoanTypes
  import opened Utils
  import opened ChartCommon
  import Calculations

  /** The area chart's data: the full schedule. */
  method AreaChartData(loanData: LoanCalculation) returns (data: seq<PaymentScheduleItem>)
    ensures |data| == ScheduleLength(loanData)
    ensures forall k :: 0 <= k < |data| ==> data[k] == Row(loanData, k)
  {
    data := GeneratePaymentSchedule(loanData);
  }

  /** The bar chart's data: `paymentSchedule.slice(0, 12)`. */
  method BarChartData(loanData: LoanCalculation) returns (data: seq<PaymentScheduleItem>)
    ensures |data| == if ScheduleLength(loanData) < 12 then ScheduleLength(loanData) else 12
    ensures forall k :: 0 <= k < |data| ==> data[k] == Row(loanData, k)
  {
    var paymentSchedule := GeneratePaymentSchedule(loanData);
    data := Slice0(paymentSchedule, 12);
  }

  /** A pie slice. */
  datatype PieSlice = PieSlice(name: string, value: real, color: string)

  const SUCCESS_COLOR := "#22c55e"
  const WARNING_COLOR := "#eab308"

  /** `summaryData`: principal first, then interest. */
  function SummaryData(loanData: LoanCalculation): (r: seq<PieSlice>)
    ensures |r| == 2
    ensures r[0].name == "Principal" && r[0].value == loanData.amount && r[0].color == SUCCESS_COLOR
    ensures r[1].name == "Juros" && r[1].value == loanData.totalInterest && r[1].color == WARNING_COLOR
  {
    [PieSlice("Principal", loanData.amount, SUCCESS_COLOR),
     PieSlice("Juros", loanData.totalInterest, WARNING_COLOR)]
  }

  /** For a computed loan the two slices together are the total to pay. */
  lemma SummaryCoversTotal(d: LoanData)
    requires d.installments > 0 && d.amount != 0.0
    ensures SummaryData(Calculations.CalculateLoan(d))[0].value +
            SummaryData(Calculations.CalculateLoan(d))[1].value == Calculations.CalculateLoan(d).totalAmount
  {
  }

  /** The "% de Juros" card: interest relative to the total paid. */
  function InterestShareOfTotal(loanData: LoanCalculation): (r: real)
    requires loanData.totalAmount != 0.0
    ensures r * loanData.totalAmount == loanData.totalInterest * 100.0
  {
    (loanData.totalInterest / loanData.totalAmount) * 100.0
  }

  /** For a computed loan with positive amount and non-negative rate, the
      card shows less than 100 and never more than `interestPercentage`,
      which is relative to the amount instead. */
  lemma InterestShareBelowPercentage(d: LoanData)
    requires d.installments > 0 && d.amount > 0.0 && d.interestRate >= 0.0
    ensures 0.0 <= InterestShareOfTotal(Calculations.CalculateLoan(d)) < 100.0
    ensures InterestShareOfTotal(Calculations.CalculateLoan(d)) <= Calculations.CalculateLoan(d).interestPercentage
  {
    var c := Calculations.CalculateLoan(d);
    var t := c.totalAmount;
    var i := c.totalInterest;
    assert t >= d.amount > 0.0;
    var s := InterestShareOfTotal(c);
    var p := c.interestPercentage;
    assert s == (i / t) * 100.0;
    assert p == (i / d.amount) * 100.0;
    assert 0.0 <= i < t;
    DivBounds(i, t, d.amount);
  }

  lemma DivBounds(i: real, t: real, a: real)
    requires 0.0 <= i < t && 0.0 < a <= t
    ensures 0.0 <= (i / t) * 100.0 < 100.0
    ensures (i / t) * 100.0 <= (i / a) * 100.0
  {
    assert i / t < 1.0;
    assert i / t <= i / a by {
      assert (i / t) * t == i;
      assert (i / a) * a == i;
    }
  }

  /** `formatInterestRate` before `toFixed`: the monthly decimal rate in percent. */
  function PercentageRate(monthlyRate: real): (r: real)
    ensures r / 100.0 == monthlyRate
    ensures monthlyRate == 0.02 ==> r == 2.0
  {
    monthlyRate * 100.0
  }

  /** What the dashboard's `CompositionTooltip` renders. */
  datatype LoanTooltipView = LoanTooltipView(
    heading: Option<string>,
    interest: Option<real>,
    principal: Option<real>,
    total: real,
    interestShare: Option<real>)

  /** `CompositionTooltip`: null unless active with a non-empty payload; the
      interest and principal rows only when their entries exist; the total;
      and the interest share only when an interest entry exists and the
      total is positive. */
  function CompositionTooltip(active: Option<bool>, payload: Option<seq<TooltipEntry>>, heading: Option<string>)
    : (r: Option<LoanTooltipView>)
    ensures r.Some? <==> active == Some(true) && payload.Some? && |payload.value| > 0
    ensures r.Some? ==> r.value.heading == heading
    ensures r.Some? ==> r.value.total == TooltipTotal(payload.value)
    ensures r.Some? ==> (r.value.interest.Some? <==>
                         exists i :: 0 <= i < |payload.value| && payload.value[i].dataKey == "interestPayment")
    ensures r.Some? ==> (r.value.principal.Some? <==>
                         exists i :: 0 <= i < |payload.value| && payload.value[i].dataKey == "principalPayment")
    ensures r.Some? ==> (r.value.interestShare.Some? <==> r.value.interest.Some? && r.value.total > 0.0)
    ensures r.Some? && r.value.interestShare.Some? ==>
              r.value.interestShare.value * r.value.total == r.value.interest.value * 100.0
    ensures r.Some? && r.value.interest.Some? && r.value.principal.Some? ==>
              r.value.total == r.value.interest.value + r.value.principal.value
  {
    if TooltipActive(active, payload) then
      var principalData := FindByDataKey(payload.value, "principalPayment");
      var interestData := FindByDataKey(payload.value, "interestPayment");
      var total := ValueOrZero(principalData) + ValueOrZero(interestData);
      var interest := if interestData.Some? then Some(interestData.value.value) else None;
      var principal := if principalData.Some? then Some(principalData.value.value) else None;
      var share := if interestData.Some? && total > 0.0 then Some((interestData.value.value / total) * 100.0) else None;
      Some(LoanTooltipView(heading, interest, principal, total, share))
    else None
  }

  /** The dashboard's `CustomTooltip`: the raw label and one line per entry. */
  function CustomTooltip(active: Option<bool>, payload: Option<seq<TooltipEntry>>, heading: Option<string>)
    : (r: Option<(Option<string>, seq<TooltipLine>)>)
    ensures r.Some? <==> active == Some(true) && payload.Some? && |payload.value| > 0
    ensures r.Some? ==> r.value.0 == heading && |r.value.1| == |payload.value|
    ensures r.Some? ==> r.value.1 == TooltipLines(payload.value)
  {
    if TooltipActive(active, payload) then Some((heading, TooltipLines(payload.value))) else None
  }

  lemma RootClassCases(className: Option<string>)
    ensures Truthy(ClassArg(className)) ==>
              Cn([Class("space-y-6")] + [ClassArg(className)]) == "space-y-6 " + className.value
    ensures !Truthy(ClassArg(className)) ==>
              Cn([Class("space-y-6")] + [ClassArg(className)]) == "space-y-6"
  {
    CnExamples("space-y-6");
    if Truthy(ClassArg(className)) {
      CnAppendTruthy([Class("space-y-6")], className.value);
    } else {
      CnIgnoresTrailingFalsy([Class("space-y-6")], ClassArg(className));
    }
  }

  /** `cn("space-y-6", className)`: the root class, followed by the prop
      after one space when the prop is a non-empty string. */
  function RootClass(className: Option<string>): (r: string)
    ensures className.None? || className.value == "" ==> r == "space-y-6"
    ensures className.Some? && className.value != "" ==> r == "space-y-6 " + className.value
  {
    var classes := [Class("space-y-6"), ClassArg(className)];
    assert classes == [Class("space-y-6")] + [ClassArg(className)];
    RootClassCases(className);
    Cn(classes)
  }
}
