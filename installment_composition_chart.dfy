/** `LoanInstallmentCompositionChart`: a stacked bar chart of principal and
    interest over the first `showMonths` months, a tooltip with the
    installment total, and two insights. */
module InstallmentCompositionChart {
  import opened Wrappers
  import opened NumberText
  import opened LoanTypes
  import opened ChartCommon

  /** `showMonths = 12`: the default of the prop. */
  const DEFAULT_SHOW_MONTHS: int := 12

  function ShowMonths(prop: Option<int>): (r: int)
    ensures prop.None? ==> r == DEFAULT_SHOW_MONTHS
    ensures prop.Some? ==> r == prop.value
  {
    prop.GetOr(DEFAULT_SHOW_MONTHS)
  }

  /** `displayedSchedule = generatePaymentSchedule(loanData).slice(0, showMonths)`. */
  method DisplayedSchedule(loanData: LoanCalculation, showMonths: int) returns (displayed: seq<PaymentScheduleItem>)
    ensures |displayed| == SliceLength(ScheduleLength(loanData), showMonths)
    ensures showMonths >= 0 ==> |displayed| <= showMonths
    ensures forall k :: 0 <= k < |displayed| ==> displayed[k] == Row(loanData, k)
  {
    var paymentSchedule := GeneratePaymentSchedule(loanData);
    displayed := Slice0(paymentSchedule, showMonths);
  }

  /** With the default prop a 24-month loan shows 12 rows and a 3-month loan 3. */
  lemma SliceLengthExamples()
    ensures SliceLength(24, ShowMonths(None)) == 12
    ensures SliceLength(3, ShowMonths(None)) == 3
    ensures SliceLength(0, ShowMonths(None)) == 0
    ensures SliceLength(12, -2) == 10
  {
  }

  /** This chart's `formatMonth`: `${month}º`. */
  function FormatMonth(month: int): string {
    IntToDecimal(month) + "º"
  }

  /** A tick label ends in "º" and what precedes it reads back as the month. */
  lemma FormatMonthReadsBack(month: int)
    ensures |FormatMonth(month)| > 1 && FormatMonth(month)[|FormatMonth(month)| - 1] == 'º'
    ensures ParseInt(FormatMonth(month)[..|FormatMonth(month)| - 1]) == Some(month)
  {
    IntRoundTrip(month);
    assert FormatMonth(month)[..|IntToDecimal(month)|] == IntToDecimal(month);
  }

  lemma FormatMonthExamples()
    ensures FormatMonth(1) == "1º" && FormatMonth(0) == "0º" && FormatMonth(-1) == "-1º"
  {
  }

  /** What `CompositionTooltip` renders. */
  datatype CompositionTooltipView = CompositionTooltipView(heading: string, lines: seq<TooltipLine>, total: real)

  /** `CompositionTooltip`: null unless active with a non-empty payload;
      otherwise the month, one line per entry and the installment total. */
  function CompositionTooltip(active: Option<bool>, payload: Option<seq<TooltipEntry>>, month: int)
    : (r: Option<CompositionTooltipView>)
    ensures r.Some? <==> active == Some(true) && payload.Some? && |payload.value| > 0
    ensures r.Some? ==> r.value.heading == FormatMonth(month) + " mês"
    ensures r.Some? ==> r.value.lines == TooltipLines(payload.value)
    ensures r.Some? ==>
              r.value.total == ValueOrZero(FindByDataKey(payload.value, "principalPayment")) +
                               ValueOrZero(FindByDataKey(payload.value, "interestPayment"))
  {
    if TooltipActive(active, payload) then
      Some(CompositionTooltipView(FormatMonth(month) + " mês", TooltipLines(payload.value), TooltipTotal(payload.value)))
    else None
  }

  /** An insight text: a month label and an amount. */
  datatype Insight = Insight(caption: string, value: real)

  /** "Maior Amortização": shown only for a non-empty display; it names
      month `showMonths` (not the last displayed month) and gives the last
      displayed row's principal. */
  function LargestAmortization(displayed: seq<PaymentScheduleItem>, showMonths: int): (r: Option<Insight>)
    ensures r.Some? <==> |displayed| > 0
    ensures r.Some? ==> r.value.caption == MonthLabel(showMonths)
    ensures r.Some? ==> r.value.value == displayed[|displayed| - 1].principalPayment
  {
    if |displayed| > 0 then Some(Insight(MonthLabel(showMonths), displayed[|displayed| - 1].principalPayment))
    else None
  }

  /** "Maior Juro": shown only for a non-empty display; the first row's interest. */
  function LargestInterest(displayed: seq<PaymentScheduleItem>): (r: Option<Insight>)
    ensures r.Some? <==> |displayed| > 0
    ensures r.Some? ==> r.value.caption == "1º mês" && r.value.value == displayed[0].interestPayment
  {
    if |displayed| > 0 then Some(Insight("1º mês", displayed[0].interestPayment)) else None
  }

  /** On a displayed schedule the insights report the loan's figures: the
      first month's interest is the amount times the rate (clamped at 0), and
      the amortisation insight is the principal of the last displayed month,
      while it is labelled with `showMonths` even when fewer months exist. */
  lemma InsightsOfSchedule(loanData: LoanCalculation, showMonths: int, displayed: seq<PaymentScheduleItem>)
    requires |displayed| == SliceLength(ScheduleLength(loanData), showMonths) > 0
    requires forall k :: 0 <= k < |displayed| ==> displayed[k] == Row(loanData, k)
    ensures LargestInterest(displayed) == Some(Insight("1º mês", Max0(loanData.amount * loanData.interestRate)))
    ensures LargestAmortization(displayed, showMonths) ==
      Some(Insight(MonthLabel(showMonths), Max0(PrincipalAt(loanData, |displayed| - 1))))
    ensures LargestAmortization(displayed, showMonths).value.caption == MonthLabel(showMonths)
    ensures showMonths > ScheduleLength(loanData) ==>
      displayed[|displayed| - 1].month == ScheduleLength(loanData) < showMonths
  {
    assert displayed[0] == Row(loanData, 0);
    assert InterestAt(loanData, 0) == loanData.amount * loanData.interestRate;
    assert displayed[|displayed| - 1] == Row(loanData, |displayed| - 1);
  }
}
