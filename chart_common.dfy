/** What the three chart components share: the payment-schedule generator
    (the same loop is written out in each of them), JavaScript's
    `slice(0, end)`, and the tooltip helpers. Here the loan's `interestRate`
    is a monthly DECIMAL rate, used without dividing by 100. */
module ChartCommon {
  import opened Wrappers
  import opened NumberText
  import opened LoanTypes
  import opened Utils

  /** One month of the schedule (`PaymentScheduleItem`). */
  datatype PaymentScheduleItem = PaymentScheduleItem(
    month: int,
    remainingBalance: real,
    principalPayment: real,
    interestPayment: real,
    cumulativeInterest: real,
    cumulativePrincipal: real,
    monthLabel: string)

  /** `Math.max(0, x)`. */
  function Max0(x: real): (r: real)
    ensures r >= 0.0 && r >= x
    ensures r == x || r == 0.0
  {
    if x > 0.0 then x else 0.0
  }

  /** `${month}º mês`: the month in decimal, then the suffix. */
  function MonthLabel(month: int): string {
    IntToDecimal(month) + "º mês"
  }

  /** A month label ends in "º mês", and what precedes it reads back as the month. */
  lemma MonthLabelReadsBack(month: int)
    ensures |MonthLabel(month)| > 5 && MonthLabel(month)[|MonthLabel(month)| - 5..] == "º mês"
    ensures ParseInt(MonthLabel(month)[..|MonthLabel(month)| - 5]) == Some(month)
  {
    var digits := IntToDecimal(month);
    IntRoundTrip(month);
    assert MonthLabel(month)[..|digits|] == digits;
  }

  /** The number of rows: the loop runs for month = 1 .. installments. */
  function ScheduleLength(loan: LoanCalculation): nat {
    if loan.installments > 0 then loan.installments else 0
  }

  /** The running (unclamped) balance after k months: each month lowers it by
      the installment minus the interest on the balance before that month. */
  function RawBalance(loan: LoanCalculation, k: nat): real
    decreases k
  {
    if k == 0 then loan.amount
    else
      var before := RawBalance(loan, k - 1);
      before - (loan.installmentAmount - before * loan.interestRate)
  }

  /** Interest of month k + 1: the balance before it times the rate (no /100). */
  function InterestAt(loan: LoanCalculation, k: nat): real {
    RawBalance(loan, k) * loan.interestRate
  }

  /** Principal of month k + 1: what the installment leaves after interest. */
  function PrincipalAt(loan: LoanCalculation, k: nat): real {
    loan.installmentAmount - InterestAt(loan, k)
  }

  /** Interest paid in the first k months. */
  function CumInterest(loan: LoanCalculation, k: nat): real
    decreases k
  {
    if k == 0 then 0.0 else CumInterest(loan, k - 1) + InterestAt(loan, k - 1)
  }

  /** Principal paid in the first k months. */
  function CumPrincipal(loan: LoanCalculation, k: nat): real
    decreases k
  {
    if k == 0 then 0.0 else CumPrincipal(loan, k - 1) + PrincipalAt(loan, k - 1)
  }

  /** The row the loop pushes for month k + 1: per-month figures clamped at 0,
      cumulative figures as accumulated. */
  function Row(loan: LoanCalculation, k: nat): PaymentScheduleItem {
    PaymentScheduleItem(
      k + 1,
      Max0(RawBalance(loan, k + 1)),
      Max0(PrincipalAt(loan, k)),
      Max0(InterestAt(loan, k)),
      CumInterest(loan, k + 1),
      CumPrincipal(loan, k + 1),
      MonthLabel(k + 1))
  }

  /** The first n rows, in month order. */
  function Schedule(loan: LoanCalculation, n: nat): seq<PaymentScheduleItem>
    decreases n
  {
    if n == 0 then [] else Schedule(loan, n - 1) + [Row(loan, n - 1)]
  }

  /** `Schedule(loan, n)` has n rows and row k is `Row(loan, k)`. */
  lemma {:induction false} ScheduleRows(loan: LoanCalculation, n: nat)
    ensures |Schedule(loan, n)| == n
    ensures forall k :: 0 <= k < n ==> Schedule(loan, n)[k] == Row(loan, k)
    decreases n
  {
    if n > 0 { ScheduleRows(loan, n - 1); }
  }

  /** `generatePaymentSchedule`, as each chart component writes it. */
  method GeneratePaymentSchedule(loan: LoanCalculation) returns (schedule: seq<PaymentScheduleItem>)
    ensures |schedule| == ScheduleLength(loan)
    ensures forall k :: 0 <= k < |schedule| ==> schedule[k] == Row(loan, k)
  {
    var monthlyRate := loan.interestRate;
    var remainingBalance := loan.amount;
    schedule := [];
    var cumulativeInterest := 0.0;
    var cumulativePrincipal := 0.0;
    var month := 1;
    while month <= loan.installments
      invariant 1 <= month <= ScheduleLength(loan) + 1
      invariant remainingBalance == RawBalance(loan, month - 1)
      invariant cumulativeInterest == CumInterest(loan, month - 1)
      invariant cumulativePrincipal == CumPrincipal(loan, month - 1)
      invariant schedule == Schedule(loan, month - 1)
      decreases loan.installments - month
    {
      var interestPayment := remainingBalance * monthlyRate;
      var principalPayment := loan.installmentAmount - interestPayment;
      BalanceStep(loan, month, remainingBalance, cumulativeInterest, cumulativePrincipal, interestPayment);
      MonthStep(loan, month, remainingBalance, cumulativeInterest, cumulativePrincipal, interestPayment);
      cumulativeInterest := cumulativeInterest + interestPayment;
      cumulativePrincipal := cumulativePrincipal + principalPayment;
      remainingBalance := remainingBalance - principalPayment;
      schedule := schedule + [PaymentScheduleItem(
        month,
        Max0(remainingBalance),
        Max0(principalPayment),
        Max0(interestPayment),
        cumulativeInterest,
        cumulativePrincipal,
        MonthLabel(month))];
      month := month + 1;
    }
    ScheduleRows(loan, month - 1);
  }

  /** One loop iteration on the running figures: given the balance and the
      sums before `month` and that month's interest, the balance and sums after it. */
  lemma BalanceStep(loan: LoanCalculation, month: nat, balance: real, interest: real, principal: real,
                    interestPayment: real)
    requires month >= 1
    requires balance == RawBalance(loan, month - 1)
    requires interest == CumInterest(loan, month - 1) && principal == CumPrincipal(loan, month - 1)
    requires interestPayment == balance * loan.interestRate
    ensures InterestAt(loan, month - 1) == interestPayment
    ensures RawBalance(loan, month) == balance - (loan.installmentAmount - interestPayment)
    ensures CumInterest(loan, month) == interest + interestPayment
    ensures CumPrincipal(loan, month) == principal + (loan.installmentAmount - interestPayment)
  {
  }

  /** The same iteration on the schedule: the row it pushes is `Row(loan, month - 1)`. */
  lemma MonthStep(loan: LoanCalculation, month: nat, balance: real, interest: real, principal: real,
                  interestPayment: real)
    requires month >= 1
    requires balance == RawBalance(loan, month - 1)
    requires interest == CumInterest(loan, month - 1) && principal == CumPrincipal(loan, month - 1)
    requires interestPayment == balance * loan.interestRate
    ensures Schedule(loan, month) == Schedule(loan, month - 1) + [PaymentScheduleItem(
      month,
      Max0(balance - (loan.installmentAmount - interestPayment)),
      Max0(loan.installmentAmount - interestPayment),
      Max0(interestPayment),
      interest + interestPayment,
      principal + (loan.installmentAmount - interestPayment),
      MonthLabel(month))]
  {
    BalanceStep(loan, month, balance, interest, principal, interestPayment);
  }

  /** Each row is month k + 1, its stored per-month figures are the raw ones
      clamped at zero, and its interest is the balance before it times the rate. */
  lemma RowFacts(loan: LoanCalculation, k: nat)
    ensures Row(loan, k).month == k + 1
    ensures Row(loan, k).remainingBalance >= 0.0 && Row(loan, k).principalPayment >= 0.0
         && Row(loan, k).interestPayment >= 0.0
    ensures RawBalance(loan, k + 1) >= 0.0 ==> Row(loan, k).remainingBalance == RawBalance(loan, k + 1)
    ensures RawBalance(loan, k + 1) < 0.0 ==> Row(loan, k).remainingBalance == 0.0
  {
  }

  /** After k months interest and principal together make up k installments. */
  lemma {:induction false} CumulativeSplit(loan: LoanCalculation, k: nat)
    ensures CumInterest(loan, k) + CumPrincipal(loan, k) == (k as real) * loan.installmentAmount
    decreases k
  {
    if k > 0 { CumulativeSplit(loan, k - 1); }
  }

  /** Row k carries the running sums after k + 1 months, which split
      k + 1 installments between interest and principal. */
  lemma RowCumulative(loan: LoanCalculation, k: nat)
    ensures Row(loan, k).cumulativeInterest + Row(loan, k).cumulativePrincipal ==
      ((k + 1) as real) * loan.installmentAmount
  {
    var row := Row(loan, k);
    assert row.cumulativeInterest == CumInterest(loan, k + 1);
    assert row.cumulativePrincipal == CumPrincipal(loan, k + 1);
    CumulativeSplit(loan, k + 1);
  }

  /** The running balance is the amount less the principal repaid so far. */
  lemma {:induction false} BalanceIsAmountLessPrincipal(loan: LoanCalculation, k: nat)
    ensures RawBalance(loan, k) == loan.amount - CumPrincipal(loan, k)
    decreases k
  {
    if k > 0 { BalanceIsAmountLessPrincipal(loan, k - 1); }
  }

  /** With a zero rate nothing is charged as interest and the balance falls
      by one installment each month. */
  lemma {:induction false} ZeroRateSchedule(loan: LoanCalculation, k: nat)
    requires loan.interestRate == 0.0
    ensures InterestAt(loan, k) == 0.0 && CumInterest(loan, k) == 0.0
    ensures PrincipalAt(loan, k) == loan.installmentAmount
    ensures RawBalance(loan, k) == loan.amount - (k as real) * loan.installmentAmount
    decreases k
  {
    if k > 0 { ZeroRateSchedule(loan, k - 1); }
  }

  /** A zero-rate loan whose installment is amount/installments is paid off
      exactly in its last month. */
  lemma ZeroRatePaidOff(loan: LoanCalculation)
    requires loan.interestRate == 0.0 && loan.installments > 0
    requires loan.installmentAmount == loan.amount / (loan.installments as real)
    ensures RawBalance(loan, loan.installments) == 0.0
    ensures Row(loan, loan.installments - 1).remainingBalance == 0.0
  {
    ZeroRateSchedule(loan, loan.installments);
  }

  /** JavaScript's `s.slice(0, end)` for an integer end: a negative end
      counts back from the length. */
  function Slice0<T>(s: seq<T>, end: int): (r: seq<T>)
    ensures |r| == SliceLength(|s|, end)
    ensures r <= s
  {
    s[..SliceLength(|s|, end)]
  }

  /** How many elements `slice(0, end)` keeps of `length`: `end` itself,
      capped at the length, with a negative `end` counted from the back
      and floored at 0. */
  function SliceLength(length: nat, end: int): (r: nat)
    ensures r <= length
    ensures end >= 0 ==> r <= end
    ensures end >= length ==> r == length
  {
    if end >= 0 then (if end < length then end else length)
    else (if length + end > 0 then length + end else 0)
  }

  /** One tooltip payload entry. */
  datatype TooltipEntry = TooltipEntry(name: string, value: real, color: string, dataKey: string)

  /** `active && payload && payload.length`. */
  predicate TooltipActive(active: Option<bool>, payload: Option<seq<TooltipEntry>>) {
    active == Some(true) && payload.Some? && |payload.value| > 0
  }

  /** `payload.find((p) => p.dataKey === key)`: the first entry with that key. */
  function FindByDataKey(payload: seq<TooltipEntry>, key: string): (r: Option<TooltipEntry>)
    ensures r.None? <==> forall i :: 0 <= i < |payload| ==> payload[i].dataKey != key
    ensures r.Some? ==> r.value.dataKey == key
    ensures r.Some? ==> exists i :: (0 <= i < |payload| && payload[i] == r.value &&
                                     forall j :: 0 <= j < i ==> payload[j].dataKey != key)
  {
    if payload == [] then None
    else if payload[0].dataKey == key then Some(payload[0])
    else
      var r := FindByDataKey(payload[1..], key);
      assert r.Some? ==> exists i :: (0 <= i < |payload| && payload[i] == r.value &&
                                      forall j :: 0 <= j < i ==> payload[j].dataKey != key) by {
        if r.Some? {
          var i :| 0 <= i < |payload[1..]| && payload[1..][i] == r.value &&
                    forall j :: 0 <= j < i ==> payload[1..][j].dataKey != key;
          assert payload[i + 1] == r.value;
        }
      }
      r
  }

  /** `entry?.value || 0` for a found entry. */
  function ValueOrZero(entry: Option<TooltipEntry>): real {
    if entry.Some? then entry.value.value else 0.0
  }

  /** The total shown by a composition tooltip. */
  function TooltipTotal(payload: seq<TooltipEntry>): (r: real)
    ensures (forall i :: 0 <= i < |payload| ==>
               payload[i].dataKey != "principalPayment" && payload[i].dataKey != "interestPayment") ==> r == 0.0
    ensures (forall i :: 0 <= i < |payload| ==> payload[i].value >= 0.0) ==> r >= 0.0
  {
    ValueOrZero(FindByDataKey(payload, "principalPayment")) +
    ValueOrZero(FindByDataKey(payload, "interestPayment"))
  }

  /** An entry whose key is not searched for is never found. */
  lemma {:induction false} FindSkipsOtherKeys(a: seq<TooltipEntry>, e: TooltipEntry, b: seq<TooltipEntry>, key: string)
    requires e.dataKey != key
    ensures FindByDataKey(a + [e] + b, key) == FindByDataKey(a + b, key)
    decreases |a|
  {
    if a == [] {
      assert a + [e] + b == [e] + b && ([e] + b)[1..] == b && a + b == b;
    } else {
      assert (a + [e] + b)[1..] == a[1..] + [e] + b;
      assert (a + b)[1..] == a[1..] + b;
      FindSkipsOtherKeys(a[1..], e, b, key);
    }
  }

  /** Entries other than principal and interest do not change the total. */
  lemma TooltipTotalIgnoresOtherEntries(a: seq<TooltipEntry>, e: TooltipEntry, b: seq<TooltipEntry>)
    requires e.dataKey != "principalPayment" && e.dataKey != "interestPayment"
    ensures TooltipTotal(a + [e] + b) == TooltipTotal(a + b)
  {
    FindSkipsOtherKeys(a, e, b, "principalPayment");
    FindSkipsOtherKeys(a, e, b, "interestPayment");
  }

  /** A principal entry and an interest entry add up; a missing one counts 0. */
  lemma TooltipTotalExamples()
    ensures TooltipTotal([TooltipEntry("Principal", 800.0, "#22c55e", "principalPayment"),
                          TooltipEntry("Juros", 200.0, "#f59e0b", "interestPayment")]) == 1000.0
    ensures TooltipTotal([TooltipEntry("Juros", 200.0, "#f59e0b", "interestPayment")]) == 200.0
    ensures TooltipTotal([TooltipEntry("Saldo", 5000.0, "#2563eb", "remainingBalance")]) == 0.0
  {
  }

  /** A tooltip line: the entry's name and value. */
  datatype TooltipLine = TooltipLine(name: string, value: real)

  /** `payload.map((entry) => ...)`: one line per entry, in order. */
  function TooltipLines(payload: seq<TooltipEntry>): (r: seq<TooltipLine>)
    ensures |r| == |payload|
    ensures forall i :: 0 <= i < |r| ==> r[i] == TooltipLine(payload[i].name, payload[i].value)
  {
    if payload == [] then [] else [TooltipLine(payload[0].name, payload[0].value)] + TooltipLines(payload[1..])
  }

  /** A `className` prop as an argument of `cn`. */
  function ClassArg(className: Option<string>): ClassValue {
    if className.Some? then Class(className.value) else Undefined
  }

  /** `cn(className)`, the card class of both chart components: the prop
      itself, or "" when it is absent. */
  function CardClass(className: Option<string>): (r: string)
    ensures r == className.GetOr("")
  {
    Cn([ClassArg(className)])
  }
}
