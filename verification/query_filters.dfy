/** Construction of the query filters the custom filter fields contribute to
    the table's binding: one `EQ` filter per selected supplier token, and a
    `BT` filter of width one around a positive average rating. */
module QueryFilters {
  import opened Wrappers
  import opened Controls

  /** One `EQ` filter on `name` per token, in token order. */
  function EqFilters(ts: seq<Token>, name: string): (r: seq<Filter>)
    ensures |r| == |ts|
    ensures forall i :: 0 <= i < |ts| ==> r[i] == Eq(name, ts[i].key)
  {
    if ts == [] then [] else [Eq(name, ts[0].key)] + EqFilters(ts[1..], name)
  }

  /** `_getTokens`: the supplier filters of a multi-input; a control that
      reports no token array contributes none. */
  function GetTokens(tokens: Option<seq<Token>>, name: string): (r: seq<Filter>)
    ensures tokens.None? ==> r == []
    ensures tokens.Some? ==> |r| == |tokens.value|
    ensures tokens.Some? ==>
      forall i :: 0 <= i < |r| ==> r[i].Eq? && r[i].path == name && r[i].value == tokens.value[i].key
  {
    match tokens
    case None => []
    case Some(ts) => EqFilters(ts, name)
  }

  /** `_getRatingFilter`: no filter for a rating that is not positive; otherwise
      a `BT` filter on the rating field centred on the rating, one unit wide,
      with no clamping to the indicator's range. */
  function GetRatingFilter(rating: real): (r: Option<Filter>)
    ensures r.None? <==> rating <= 0.0
    ensures r.Some? ==> r.value.Between? && r.value.path == RatingKey
    ensures r.Some? ==> r.value.upper - r.value.lower == 1.0
    ensures r.Some? ==> r.value.lower + r.value.upper == 2.0 * rating
  {
    if rating > 0.0 then Some(Between(RatingKey, rating - 0.5, rating + 0.5)) else None
  }

  /** The filter-appending part of `onBeforeRebindTableExtension`: with a smart
      filter bar, the supplier filters (when the supplier control is a
      multi-input) and then the rating filter (when the rating control is a
      rating indicator with a positive value) are pushed onto the binding's
      existing filters. */
  function BeforeRebindTable(bar: FilterBar, filters: seq<Filter>): (r: seq<Filter>)
    ensures |r| >= |filters| && r[..|filters|] == filters
    ensures bar.NotSmartFilterBar? ==> r == filters
    ensures bar.SmartFilterBar? ==>
      var ts := SupplierTokens(bar);
      var rc := ControlByKey(bar.controls, RatingKey);
      && |r| == |filters| + |ts| + (if rc.RatingIndicator? && rc.value > 0.0 then 1 else 0)
      && (forall i :: 0 <= i < |ts| ==> r[|filters| + i] == Eq(SupplierKey, ts[i].key))
      && (rc.RatingIndicator? && rc.value > 0.0 ==>
            r[|r| - 1] == Between(RatingKey, rc.value - 0.5, rc.value + 0.5))
  {
    match bar
    case NotSmartFilterBar => filters
    case SmartFilterBar(controls) =>
      var sc := ControlByKey(controls, SupplierKey);
      var supplierFilters := if sc.MultiInput? then GetTokens(sc.tokens, SupplierKey) else [];
      var withSuppliers := if |supplierFilters| > 0 then filters + supplierFilters else filters;
      var rc := ControlByKey(controls, RatingKey);
      var ratingFilter := if rc.RatingIndicator? then GetRatingFilter(rc.value) else None;
      if ratingFilter.Some? then withSuppliers + [ratingFilter.value] else withSuppliers
  }

  /** A row satisfies one of the supplier filters exactly when its supplier
      field equals the key of one of the tokens. */
  lemma {:induction false} SupplierFiltersSelectTokenKeys(ts: seq<Token>, row: Row)
    ensures (exists f :: f in GetTokens(Some(ts), SupplierKey) && Holds(f, row))
        <==> (exists t :: t in ts && SupplierKey in row && row[SupplierKey] == Str(t.key))
  {
    var r := GetTokens(Some(ts), SupplierKey);
    if exists f :: f in r && Holds(f, row) {
      var f :| f in r && Holds(f, row);
      var i :| 0 <= i < |r| && r[i] == f;
      assert ts[i] in ts;
    }
    if exists t :: t in ts && SupplierKey in row && row[SupplierKey] == Str(t.key) {
      var t :| t in ts && SupplierKey in row && row[SupplierKey] == Str(t.key);
      var i :| 0 <= i < |ts| && ts[i] == t;
      assert r[i] in r && Holds(r[i], row);
    }
  }

  /** A row satisfies the rating filter exactly when its average rating lies
      within half a unit of the selected rating. */
  lemma RatingFilterSelectsNeighbourhood(rating: real, row: Row)
    requires rating > 0.0
    ensures Holds(GetRatingFilter(rating).value, row)
        <==> (RatingKey in row && row[RatingKey].Num?
              && rating - 0.5 <= row[RatingKey].n <= rating + 0.5)
  {
  }
}
