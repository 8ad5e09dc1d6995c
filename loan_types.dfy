/** The loan records, their defaults, the factories that merge defaults with
    partial records, and the runtime type guards. */
module LoanTypes {
  import opened Wrappers
  import opened JsValues

  datatype LoanData = LoanData(amount: real, installments: int, interestRate: real)

  datatype LoanResult = LoanResult(
    totalAmount: real,
    installmentAmount: real,
    totalInterest: real,
    interestPercentage: real)

  /** `interface LoanCalculation extends LoanData, LoanResult`. */
  datatype LoanCalculation = LoanCalculation(
    amount: real,
    installments: int,
    interestRate: real,
    totalAmount: real,
    installmentAmount: real,
    totalInterest: real,
    interestPercentage: real)
  {
    /** The calculation seen as a `LoanData`. */
    function Data(): LoanData {
      LoanData(amount, installments, interestRate)
    }

    /** The calculation seen as a `LoanResult`. */
    function Result(): LoanResult {
      LoanResult(totalAmount, installmentAmount, totalInterest, interestPercentage)
    }
  }

  /** `Partial<LoanData>`: every field may be absent. */
  datatype PartialLoanData = PartialLoanData(
    amount: Option<real>,
    installments: Option<int>,
    interestRate: Option<real>)

  /** `Partial<LoanResult>`. */
  datatype PartialLoanResult = PartialLoanResult(
    totalAmount: Option<real>,
    installmentAmount: Option<real>,
    totalInterest: Option<real>,
    interestPercentage: Option<real>)

  datatype Range = Range(min: real, max: real)

  datatype LoanValidation = LoanValidation(amount: Range, installments: Range, interestRate: Range)

  const DEFAULT_LOAN_DATA := LoanData(0.0, 1, 0.0)

  const DEFAULT_LOAN_RESULT := LoanResult(0.0, 0.0, 0.0, 0.0)

  const DEFAULT_LOAN_VALIDATION := LoanValidation(
    Range(1000.0, 100000.0), Range(6.0, 60.0), Range(0.5, 10.0))

  /** `{}`, the default argument of every factory. */
  const NO_LOAN_DATA := PartialLoanData(None, None, None)

  const NO_LOAN_RESULT := PartialLoanResult(None, None, None, None)

  /** `{ ...DEFAULT_LOAN_DATA, ...data }`: a present field wins, an absent one
      takes its default. */
  function CreateLoanData(data: PartialLoanData): (r: LoanData)
    ensures data.amount.Some? ==> r.amount == data.amount.value
    ensures data.amount.None? ==> r.amount == DEFAULT_LOAN_DATA.amount
    ensures data.installments.Some? ==> r.installments == data.installments.value
    ensures data.installments.None? ==> r.installments == DEFAULT_LOAN_DATA.installments
    ensures data.interestRate.Some? ==> r.interestRate == data.interestRate.value
    ensures data.interestRate.None? ==> r.interestRate == DEFAULT_LOAN_DATA.interestRate
  {
    LoanData(
      data.amount.GetOr(DEFAULT_LOAN_DATA.amount),
      data.installments.GetOr(DEFAULT_LOAN_DATA.installments),
      data.interestRate.GetOr(DEFAULT_LOAN_DATA.interestRate))
  }

  /** `{ ...DEFAULT_LOAN_RESULT, ...result }`. */
  function CreateLoanResult(result: PartialLoanResult): (r: LoanResult)
    ensures result.totalAmount.Some? ==> r.totalAmount == result.totalAmount.value
    ensures result.totalAmount.None? ==> r.totalAmount == DEFAULT_LOAN_RESULT.totalAmount
    ensures result.installmentAmount.Some? ==> r.installmentAmount == result.installmentAmount.value
    ensures result.installmentAmount.None? ==> r.installmentAmount == DEFAULT_LOAN_RESULT.installmentAmount
    ensures result.totalInterest.Some? ==> r.totalInterest == result.totalInterest.value
    ensures result.totalInterest.None? ==> r.totalInterest == DEFAULT_LOAN_RESULT.totalInterest
    ensures result.interestPercentage.Some? ==> r.interestPercentage == result.interestPercentage.value
    ensures result.interestPercentage.None? ==> r.interestPercentage == DEFAULT_LOAN_RESULT.interestPercentage
  {
    LoanResult(
      result.totalAmount.GetOr(DEFAULT_LOAN_RESULT.totalAmount),
      result.installmentAmount.GetOr(DEFAULT_LOAN_RESULT.installmentAmount),
      result.totalInterest.GetOr(DEFAULT_LOAN_RESULT.totalInterest),
      result.interestPercentage.GetOr(DEFAULT_LOAN_RESULT.interestPercentage))
  }

  /** `{ ...createLoanData(data), ...createLoanResult(result) }`. */
  function CreateLoanCalculation(data: PartialLoanData, result: PartialLoanResult): (r: LoanCalculation)
    ensures r.Data() == CreateLoanData(data)
    ensures r.Result() == CreateLoanResult(result)
  {
    var d := CreateLoanData(data);
    var res := CreateLoanResult(result);
    LoanCalculation(d.amount, d.installments, d.interestRate,
                    res.totalAmount, res.installmentAmount, res.totalInterest, res.interestPercentage)
  }

  /** The object a record is at run time. */
  function DataToJs(d: LoanData): JsValue {
    Object(map["amount" := Number(d.amount),
               "installments" := Number(d.installments as real),
               "interestRate" := Number(d.interestRate)])
  }

  function ResultToJs(r: LoanResult): JsValue {
    Object(map["totalAmount" := Number(r.totalAmount),
               "installmentAmount" := Number(r.installmentAmount),
               "totalInterest" := Number(r.totalInterest),
               "interestPercentage" := Number(r.interestPercentage)])
  }

  function CalculationToJs(c: LoanCalculation): JsValue {
    Object(DataToJs(c.Data()).props + ResultToJs(c.Result()).props)
  }

  /** `isLoanData`. */
  predicate IsLoanData(obj: JsValue)
    ensures IsLoanData(obj) ==> obj.Object?
  {
    if !IsNonNullObject(obj) then false
    else
      IsNumber(Get(obj, "amount")) &&
      IsNumber(Get(obj, "installments")) &&
      IsNumber(Get(obj, "interestRate"))
  }

  /** `isLoanResult`. */
  predicate IsLoanResult(obj: JsValue)
    ensures IsLoanResult(obj) ==> obj.Object?
  {
    if !IsNonNullObject(obj) then false
    else
      IsNumber(Get(obj, "totalAmount")) &&
      IsNumber(Get(obj, "installmentAmount")) &&
      IsNumber(Get(obj, "totalInterest")) &&
      IsNumber(Get(obj, "interestPercentage"))
  }

  /** `isLoanCalculation`. */
  predicate IsLoanCalculation(obj: JsValue)
    ensures IsLoanCalculation(obj) ==> obj.Object?
  {
    IsLoanData(obj) && IsLoanResult(obj)
  }

  /** Holds of an object whose three fields exist and are numbers, and of
      nothing else; other fields do not matter. */
  lemma IsLoanDataExactly(obj: JsValue)
    ensures IsLoanData(obj) <==>
      obj.Object? &&
      "amount" in obj.props && obj.props["amount"].Number? &&
      "installments" in obj.props && obj.props["installments"].Number? &&
      "interestRate" in obj.props && obj.props["interestRate"].Number?
  {
  }

  lemma IsLoanResultExactly(obj: JsValue)
    ensures IsLoanResult(obj) <==>
      obj.Object? &&
      "totalAmount" in obj.props && obj.props["totalAmount"].Number? &&
      "installmentAmount" in obj.props && obj.props["installmentAmount"].Number? &&
      "totalInterest" in obj.props && obj.props["totalInterest"].Number? &&
      "interestPercentage" in obj.props && obj.props["interestPercentage"].Number?
  {
  }

  /** null, undefined, `{}`, arrays and partial objects are rejected. */
  lemma IsLoanDataRejects()
    ensures !IsLoanData(Null) && !IsLoanData(Undefined) && !IsLoanData(Object(map[]))
    ensures !IsLoanData(Array([Number(1.0)]))
    ensures !IsLoanData(Object(map["amount" := Number(10000.0), "installments" := Number(12.0)]))
    ensures !IsLoanData(Object(map["amount" := Str("10000"), "installments" := Number(12.0),
                                   "interestRate" := Number(2.0)]))
  {
  }

  /** Extra fields never turn a loan-data object into a non-loan-data one. */
  lemma IsLoanDataAllowsExtraFields(props: map<string, JsValue>, key: string, v: JsValue)
    requires IsLoanData(Object(props))
    requires key !in {"amount", "installments", "interestRate"}
    ensures IsLoanData(Object(props[key := v]))
  {
  }

  /** A calculation record passes all three guards. */
  lemma CalculationSatisfiesGuards(c: LoanCalculation)
    ensures IsLoanData(CalculationToJs(c))
    ensures IsLoanResult(CalculationToJs(c))
    ensures IsLoanCalculation(CalculationToJs(c))
  {
  }

  /** Every factory output passes its guard. */
  lemma FactoriesSatisfyGuards(data: PartialLoanData, result: PartialLoanResult)
    ensures IsLoanData(DataToJs(CreateLoanData(data)))
    ensures IsLoanResult(ResultToJs(CreateLoanResult(result)))
    ensures IsLoanCalculation(CalculationToJs(CreateLoanCalculation(data, result)))
  {
    CalculationSatisfiesGuards(CreateLoanCalculation(data, result));
  }

  /** With no argument the factories give the defaults. */
  lemma FactoryDefaults()
    ensures CreateLoanData(NO_LOAN_DATA) == DEFAULT_LOAN_DATA
    ensures CreateLoanResult(NO_LOAN_RESULT) == DEFAULT_LOAN_RESULT
    ensures CreateLoanCalculation(NO_LOAN_DATA, NO_LOAN_RESULT) ==
      LoanCalculation(0.0, 1, 0.0, 0.0, 0.0, 0.0, 0.0)
  {
  }

  /** A complete partial record is returned unchanged. */
  lemma CreateLoanDataComplete(d: LoanData)
    ensures CreateLoanData(PartialLoanData(Some(d.amount), Some(d.installments), Some(d.interestRate))) == d
  {
  }

  /** Every validation range is non-empty. */
  lemma ValidationRangesOrdered()
    ensures DEFAULT_LOAN_VALIDATION.amount.min < DEFAULT_LOAN_VALIDATION.amount.max
    ensures DEFAULT_LOAN_VALIDATION.installments.min < DEFAULT_LOAN_VALIDATION.installments.max
    ensures DEFAULT_LOAN_VALIDATION.interestRate.min < DEFAULT_LOAN_VALIDATION.interestRate.max
  {
  }
}
