/** The framework objects the list-report extension controller touches,
    reduced to plain values: tokens of a multi-input, the query filters handed
    to the table binding, the custom controls of the smart filter bar, and a
    table row against which a filter can be evaluated. */
module Controls {
  import opened Wrappers

  /** Key of the supplier multi-input in the filter bar, and the field it filters. */
  const SupplierKey: string := "supplier_ID"
  /** Key of the rating indicator in the filter bar, and the field it filters. */
  const RatingKey: string := "averageRating"

  /** A token of a multi-input: the selected supplier's key and its display text. */
  datatype Token = Token(key: string, text: string)

  /** A query filter: `EQ` on a string value, or `BT` between two rating bounds. */
  datatype Filter =
    | Eq(path: string, value: string)
    | Between(path: string, lower: real, upper: real)

  /** What a lookup in the filter bar can yield, as far as the `instanceof`
      checks of the controller can tell. `tokens` is `None` when the control
      reports no token array. */
  datatype Control =
    | MultiInput(tokens: Option<seq<Token>>)
    | RatingIndicator(value: real)
    | Other

  /** The object found under the filter bar's id: a smart filter bar holding its
      controls by key, or anything else (including nothing at all). */
  datatype FilterBar =
    | SmartFilterBar(controls: map<string, Control>)
    | NotSmartFilterBar

  /** A field value of a table row. */
  datatype FieldValue = Str(s: string) | Num(n: real)

  /** A table row, by field name. */
  type Row = map<string, FieldValue>

  /** `getControlByKey`: a missing key yields nothing, which no `instanceof` check accepts. */
  function ControlByKey(controls: map<string, Control>, key: string): Control {
    if key in controls then controls[key] else Other
  }

  /** The tokens of a control when it is a multi-input that reports tokens, else none. */
  function TokensOf(c: Control): seq<Token> {
    if c.MultiInput? && c.tokens.Some? then c.tokens.value else []
  }

  /** The tokens of the supplier multi-input of a smart filter bar, else none. */
  function SupplierTokens(bar: FilterBar): seq<Token> {
    if bar.SmartFilterBar? then TokensOf(ControlByKey(bar.controls, SupplierKey)) else []
  }

  /** Whether a row satisfies a filter: `EQ` is equality of the string field,
      `BT` holds when the numeric field lies within both bounds, inclusive. */
  predicate Holds(f: Filter, row: Row) {
    match f
    case Eq(path, v) => path in row && row[path] == Str(v)
    case Between(path, lo, hi) => path in row && row[path].Num? && lo <= row[path].n <= hi
  }
}
