/** `LoanBalanceEvolutionChart`: an area chart of the remaining balance over
    the whole schedule, with a tooltip listing the hovered entries. */
module BalanceEvolutionChart {
  import opened Wrappers
  import opened LoanTypes
  import opened ChartCommon

  /** The chart's data: the full schedule of the loan. */
  method PaymentSchedule(loanData: LoanCalculation) returns (schedule: seq<PaymentScheduleItem>)
    ensures |schedule| == ScheduleLength(loanData)
    ensures forall k :: 0 <= k < |schedule| ==>
      schedule[k] == Row(loanData, k) && schedule[k].month == k + 1
    ensures forall k :: 0 <= k < |schedule| ==>
      schedule[k].remainingBalance >= 0.0 && schedule[k].principalPayment >= 0.0 &&
      schedule[k].interestPayment >= 0.0
    ensures forall k :: 0 <= k < |schedule| ==>
      schedule[k].cumulativeInterest + schedule[k].cumulativePrincipal ==
        ((k + 1) as real) * loanData.installmentAmount
  {
    schedule := GeneratePaymentSchedule(loanData);
    forall k | 0 <= k < |schedule|
      ensures schedule[k].month == k + 1
      ensures schedule[k].remainingBalance >= 0.0 && schedule[k].principalPayment >= 0.0 &&
        schedule[k].interestPayment >= 0.0
      ensures schedule[k].cumulativeInterest + schedule[k].cumulativePrincipal ==
        ((k + 1) as real) * loanData.installmentAmount
    {
      RowFacts(loanData, k);
      RowCumulative(loanData, k);
    }
  }

  /** What `CustomTooltip` renders: a heading and one line per entry. */
  datatype BalanceTooltip = BalanceTooltip(heading: string, lines: seq<TooltipLine>)

  /** `CustomTooltip`: nothing unless active with a non-empty payload; then
      the hovered month as `formatMonth` renders it, and the entries in order.
      The label is taken as the month number that `Number(label)` reads. */
  function CustomTooltip(active: Option<bool>, payload: Option<seq<TooltipEntry>>, month: int): (r: Option<BalanceTooltip>)
    ensures r.Some? <==> active == Some(true) && payload.Some? && |payload.value| > 0
    ensures r.Some? ==> r.value.heading == MonthLabel(month) && |r.value.lines| == |payload.value|
    ensures r.Some? ==> forall i :: 0 <= i < |payload.value| ==>
      r.value.lines[i].name == payload.value[i].name && r.value.lines[i].value == payload.value[i].value
  {
    if TooltipActive(active, payload) then Some(BalanceTooltip(MonthLabel(month), TooltipLines(payload.value)))
    else None
  }

  /** `formatMonth(1)` is "1º mês". */
  lemma FormatMonthExample()
    ensures MonthLabel(1) == "1º mês" && MonthLabel(12) == "12º mês"
  {
  }
}
