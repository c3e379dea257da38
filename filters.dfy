/** The stock table's column filters: a text filter and a number filter, each
    deciding whether a row's cell passes the filter the user set on that
    column. */
module Filters {
  import opened JsNumber
  import opened Signals
  import opened Text

  /** The value of a row's column: a string, a number, or anything else
      (such as `null`). */
  datatype Cell = TextCell(text: string) | NumberCell(number: Num) | OtherCell

  /** The operators a filter can carry. */
  datatype Operator = Contains | NotContains | Eq | Ne | Gt | Lt | Gte | Lte

  /** An operator as its string. */
  function OperatorName(op: Operator): string {
    match op
    case Contains => "contains"
    case NotContains => "notContains"
    case Eq => "eq"
    case Ne => "ne"
    case Gt => "gt"
    case Lt => "lt"
    case Gte => "gte"
    case Lte => "lte"
  }

  /** The filter's optional operand. */
  datatype Operand = NoOperand | TextOperand(text: string) | NumberOperand(number: Num)

  /** The filter value the table stores for a column. */
  datatype FilterValue = FilterValue(operator: Operator, value: Operand)

  // ---------------------------------------------------------------------
  // textFilterFn

  /** What `String(filterValue)` gives for the filter object. */
  const ObjectString: string := "[object Object]"

  /** textFilterFn: a string cell passes when it includes the filter value
      turned into a string, which for the filter object is "[object Object]";
      any other cell fails. */
  function TextFilterFn(cell: Cell, filterValue: FilterValue): bool {
    cell.TextCell? && Includes(cell.text, ObjectString)
  }

  /** The text filter ignores the operator and the operand the user chose:
      it passes exactly the string cells that contain "[object Object]". */
  lemma TextFilterMeaning(cell: Cell, filterValue: FilterValue)
    ensures TextFilterFn(cell, filterValue) <==>
              cell.TextCell? && exists k :: OccursAt(cell.text, ObjectString, k)
  {
    if cell.TextCell? {
      IncludesMeaning(cell.text, ObjectString);
    }
  }

  /** So text without a `[` never passes, whatever the filter says. */
  lemma TextFilterRejectsPlainText(text: string, filterValue: FilterValue)
    requires '[' !in text
    ensures !TextFilterFn(TextCell(text), filterValue)
  {
    forall k
      ensures !OccursAt(text, ObjectString, k)
    {
      if 0 <= k && k + |ObjectString| <= |text| {
        assert text[k] in text;
        assert text[k..k + |ObjectString|][0] == text[k] != ObjectString[0];
      }
    }
    IncludesMeaning(text, ObjectString);
  }

  // ---------------------------------------------------------------------
  // numberFilterFn

  /** `!!filterValue.value` */
  predicate OperandTruthy(value: Operand) {
    match value
    case NoOperand => false
    case TextOperand(s) => s != ""
    case NumberOperand(n) => Truthy(n)
  }

  /** How JavaScript turns a string into a number when it meets one in `<`,
      `>`, `<=` or `>=`. The conversion is kept abstract: the filter only
      forwards its result to the comparison. */
  type NumberParser = f: string -> Num | true
    witness (text: string) => NaN

  const StringToNumber: NumberParser

  /** `value === operand` for a number cell: false for any operand that is
      not a number, since strict equality never converts. */
  predicate StrictEqOperand(value: Num, operand: Operand) {
    operand.NumberOperand? && StrictEq(value, operand.number)
  }

  /** The operand as the relational operators see it: a string is
      converted, and a missing operand is `undefined`, which becomes NaN. */
  function RelationalOperand(operand: Operand): Num {
    match operand
    case NoOperand => NaN
    case TextOperand(text) => StringToNumber(text)
    case NumberOperand(n) => n
  }

  /** numberFilterFn: a non-number cell or a falsy operand fails; otherwise
      the operator compares the cell with the operand, and an operator that
      is not a comparison is an error. */
  function NumberFilterFn(cell: Cell, filterValue: FilterValue): (r: Result<bool>)
    ensures r.Error? <==>
              cell.NumberCell? && OperandTruthy(filterValue.value) &&
              (filterValue.operator == Contains || filterValue.operator == NotContains)
  {
    if !cell.NumberCell? || !OperandTruthy(filterValue.value) then Ok(false)
    else
      var value := cell.number;
      var operand := filterValue.value;
      match filterValue.operator
      case Eq => Ok(StrictEqOperand(value, operand))
      case Ne => Ok(!StrictEqOperand(value, operand))
      case Gt => Ok(JsNumber.Gt(value, RelationalOperand(operand)))
      case Lt => Ok(JsNumber.Lt(value, RelationalOperand(operand)))
      case Gte => Ok(Ge(value, RelationalOperand(operand)))
      case Lte => Ok(Le(value, RelationalOperand(operand)))
      case op => Error("Unknown filter operator: " + OperatorName(op))
  }

  /** A numeric filter value. */
  function NumberFilter(op: Operator, threshold: Num): FilterValue {
    FilterValue(op, NumberOperand(threshold))
  }

  /** A missing operand, the empty string, 0 and NaN are falsy: each rejects
      every row, whatever the operator. */
  lemma ZeroThresholdRejects(cell: Cell, op: Operator)
    ensures NumberFilterFn(cell, NumberFilter(op, Fin(0.0))) == Ok(false)
    ensures NumberFilterFn(cell, NumberFilter(op, NaN)) == Ok(false)
    ensures NumberFilterFn(cell, FilterValue(op, TextOperand(""))) == Ok(false)
    ensures NumberFilterFn(cell, FilterValue(op, NoOperand)) == Ok(false)
  {
  }

  /** For a number cell and a truthy numeric threshold: "eq" and "ne" are
      complementary, "gte" is "gt" or "eq", and "lte" is "lt" or "eq". */
  lemma OperatorsAgree(value: Num, threshold: Num)
    requires Truthy(threshold)
    ensures NumberFilterFn(NumberCell(value), NumberFilter(Eq, threshold)).value ==
              !NumberFilterFn(NumberCell(value), NumberFilter(Ne, threshold)).value
    ensures NumberFilterFn(NumberCell(value), NumberFilter(Gte, threshold)).value ==
              (NumberFilterFn(NumberCell(value), NumberFilter(Gt, threshold)).value ||
               NumberFilterFn(NumberCell(value), NumberFilter(Eq, threshold)).value)
    ensures NumberFilterFn(NumberCell(value), NumberFilter(Lte, threshold)).value ==
              (NumberFilterFn(NumberCell(value), NumberFilter(Lt, threshold)).value ||
               NumberFilterFn(NumberCell(value), NumberFilter(Eq, threshold)).value)
  {
  }

  /** A non-empty text operand, as the filter's input box stores it: "eq"
      never passes and "ne" passes every number cell, because strict
      equality does not convert. The ordering operators compare with the
      converted string, so "gte" is "gt" or equality with the converted
      value, which "eq" does not see. */
  lemma TextOperandOnNumber(value: Num, text: string)
    requires text != ""
    ensures NumberFilterFn(NumberCell(value), FilterValue(Eq, TextOperand(text))) == Ok(false)
    ensures NumberFilterFn(NumberCell(value), FilterValue(Ne, TextOperand(text))) == Ok(true)
    ensures NumberFilterFn(NumberCell(value), FilterValue(Gt, TextOperand(text))) ==
              Ok(JsNumber.Gt(value, StringToNumber(text)))
    ensures NumberFilterFn(NumberCell(value), FilterValue(Lt, TextOperand(text))) ==
              Ok(JsNumber.Lt(value, StringToNumber(text)))
    ensures NumberFilterFn(NumberCell(value), FilterValue(Gte, TextOperand(text))).value ==
              (NumberFilterFn(NumberCell(value), FilterValue(Gt, TextOperand(text))).value ||
               StrictEq(value, StringToNumber(text)))
    ensures NumberFilterFn(NumberCell(value), FilterValue(Lte, TextOperand(text))).value ==
              (NumberFilterFn(NumberCell(value), FilterValue(Lt, TextOperand(text))).value ||
               StrictEq(value, StringToNumber(text)))
  {
  }

  /** On finite numbers with a non-zero threshold, the comparisons are the
      ordinary ones; a NaN cell passes only "ne". */
  lemma FiniteComparisons(value: real, threshold: real)
    requires threshold != 0.0
    ensures NumberFilterFn(NumberCell(Fin(value)), NumberFilter(Eq, Fin(threshold))) == Ok(value == threshold)
    ensures NumberFilterFn(NumberCell(Fin(value)), NumberFilter(Gt, Fin(threshold))) == Ok(value > threshold)
    ensures NumberFilterFn(NumberCell(Fin(value)), NumberFilter(Lt, Fin(threshold))) == Ok(value < threshold)
    ensures NumberFilterFn(NumberCell(Fin(value)), NumberFilter(Gte, Fin(threshold))) == Ok(value >= threshold)
    ensures NumberFilterFn(NumberCell(Fin(value)), NumberFilter(Lte, Fin(threshold))) == Ok(value <= threshold)
    ensures forall op :: op != Contains && op != NotContains ==>
              NumberFilterFn(NumberCell(NaN), NumberFilter(op, Fin(threshold))) == Ok(op == Ne)
  {
  }

  /** The text operators on a number column are errors, once the guard lets
      the row through, whether the operand is a number or a string. */
  lemma TextOperatorOnNumber(value: Num, operand: Operand)
    requires OperandTruthy(operand)
    ensures NumberFilterFn(NumberCell(value), FilterValue(Contains, operand)) == Error("Unknown filter operator: contains")
    ensures NumberFilterFn(NumberCell(value), FilterValue(NotContains, operand)) == Error("Unknown filter operator: notContains")
  {
  }
}
