/** Saving the custom filter fields into the app state and restoring them
    from it, e.g. across a back navigation. The rating is stored as a number
    under `AverageRatingValue`, the supplier tokens as `[key, text]` pairs
    under `Supplier`; every other entry of the app-state object belongs to the
    framework and is left alone. */
module AppState {
  import opened Wrappers
  import opened Controls

  /** A stored supplier token: `[key, text]`. */
  type KeyValue = (string, string)

  /** Names of the two entries of the custom-data object this controller owns. */
  const AverageRatingEntry: string := "AverageRatingValue"
  const SupplierEntry: string := "Supplier"

  /** The custom-data object of the app state: the two entries this controller
      owns, each `None` when undefined, and the entries it does not own, whose
      values are of whatever type `V` the framework stores. */
  datatype Snapshot<V> = Snapshot(
    averageRatingValue: Option<real>,
    supplier: Option<seq<KeyValue>>,
    rest: map<string, V>)
  {
    /** One JavaScript object is one snapshot: the owned entries live only in
        their own fields, never in `rest`. */
    predicate Valid() {
      AverageRatingEntry !in rest && SupplierEntry !in rest
    }
  }

  /** One `[key, text]` pair per token, in token order. */
  function Pairs(ts: seq<Token>): (r: seq<KeyValue>)
    ensures |r| == |ts|
    ensures forall i :: 0 <= i < |ts| ==> r[i].0 == ts[i].key && r[i].1 == ts[i].text
  {
    if ts == [] then [] else [(ts[0].key, ts[0].text)] + Pairs(ts[1..])
  }

  /** `_getKeyValuePairs`: the pairs of a multi-input's tokens; a control that
      reports no token array yields none. */
  function GetKeyValuePairs(tokens: Option<seq<Token>>): (r: seq<KeyValue>)
    ensures tokens.None? ==> r == []
    ensures tokens.Some? ==> |r| == |tokens.value|
    ensures tokens.Some? ==>
      forall i :: 0 <= i < |r| ==> r[i] == (tokens.value[i].key, tokens.value[i].text)
  {
    match tokens
    case None => []
    case Some(ts) => Pairs(ts)
  }

  /** `_createTokens`: one token per stored pair, key first, text second, in order. */
  function CreateTokens(kvs: seq<KeyValue>): (r: seq<Token>)
    ensures |r| == |kvs|
    ensures forall i :: 0 <= i < |kvs| ==> r[i].key == kvs[i].0 && r[i].text == kvs[i].1
  {
    if kvs == [] then [] else [Token(kvs[0].0, kvs[0].1)] + CreateTokens(kvs[1..])
  }

  /** Rebuilding tokens from their stored pairs gives back the very same tokens. */
  lemma CreateTokensOfPairs(ts: seq<Token>)
    ensures CreateTokens(GetKeyValuePairs(Some(ts))) == ts
  {
  }

  /** Storing rebuilt tokens gives back the very same pairs. */
  lemma PairsOfCreateTokens(kvs: seq<KeyValue>)
    ensures GetKeyValuePairs(Some(CreateTokens(kvs))) == kvs
  {
  }

  /** `getCustomAppStateDataExtension`: with a custom-data object and a smart
      filter bar, the rating indicator's value is stored whatever it is, and
      the supplier tokens are stored only when there is at least one. */
  function GetCustomAppStateData<V>(data: Option<Snapshot<V>>, bar: FilterBar): (r: Option<Snapshot<V>>)
    ensures data.None? <==> r.None?
    ensures data.Some? ==> r.value.rest == data.value.rest
    ensures data.Some? && data.value.Valid() ==> r.value.Valid()
    ensures data.Some? ==>
      r.value.averageRatingValue
        == (if bar.SmartFilterBar? && ControlByKey(bar.controls, RatingKey).RatingIndicator?
            then Some(ControlByKey(bar.controls, RatingKey).value)
            else data.value.averageRatingValue)
    ensures data.Some? ==>
      var ts := SupplierTokens(bar);
      if |ts| > 0 then
        && r.value.supplier.Some? && |r.value.supplier.value| == |ts|
        && forall i :: 0 <= i < |ts| ==> r.value.supplier.value[i] == (ts[i].key, ts[i].text)
      else r.value.supplier == data.value.supplier
  {
    match data
    case None => None
    case Some(d) =>
      match bar
      case NotSmartFilterBar => data
      case SmartFilterBar(controls) =>
        var rc := ControlByKey(controls, RatingKey);
        var d1 := if rc.RatingIndicator? then d.(averageRatingValue := Some(rc.value)) else d;
        var sc := ControlByKey(controls, SupplierKey);
        var kvs := if sc.MultiInput? then GetKeyValuePairs(sc.tokens) else [];
        Some(if |kvs| > 0 then d1.(supplier := Some(kvs)) else d1)
  }

  /** `restoreCustomAppStateDataExtension`: with a smart filter bar, a stored
      rating is written into the rating indicator, and stored supplier pairs
      replace the multi-input's tokens, but only when there is at least one
      pair; an empty stored list leaves the tokens as they were. */
  function RestoreCustomAppStateData<V>(data: Snapshot<V>, bar: FilterBar): (r: FilterBar)
    ensures bar.NotSmartFilterBar? ==> r == bar
    ensures bar.SmartFilterBar? ==> r.SmartFilterBar? && r.controls.Keys == bar.controls.Keys
    ensures bar.SmartFilterBar? ==>
      forall k :: k in bar.controls && k != RatingKey && k != SupplierKey ==>
        r.controls[k] == bar.controls[k]
    ensures bar.SmartFilterBar? ==>
      var rc := ControlByKey(bar.controls, RatingKey);
      ControlByKey(r.controls, RatingKey)
        == (if data.averageRatingValue.Some? && rc.RatingIndicator?
            then RatingIndicator(data.averageRatingValue.value)
            else rc)
    ensures bar.SmartFilterBar? ==>
      var sc := ControlByKey(bar.controls, SupplierKey);
      var after := ControlByKey(r.controls, SupplierKey);
      if data.supplier.Some? && |data.supplier.value| > 0 && sc.MultiInput? then
        && after.MultiInput? && after.tokens.Some?
        && |after.tokens.value| == |data.supplier.value|
        && forall i :: 0 <= i < |data.supplier.value| ==>
             after.tokens.value[i] == Token(data.supplier.value[i].0, data.supplier.value[i].1)
      else after == sc
  {
    match bar
    case NotSmartFilterBar => bar
    case SmartFilterBar(controls) =>
      var rc := ControlByKey(controls, RatingKey);
      var c1 :=
        if data.averageRatingValue.Some? && rc.RatingIndicator?
        then controls[RatingKey := RatingIndicator(data.averageRatingValue.value)]
        else controls;
      var sc := ControlByKey(c1, SupplierKey);
      var created := if data.supplier.Some? && sc.MultiInput? then CreateTokens(data.supplier.value) else [];
      var c2 := if |created| > 0 then c1[SupplierKey := MultiInput(Some(created))] else c1;
      SmartFilterBar(c2)
  }

  /** The custom-data object the framework hands to a save: nothing stored yet. */
  function Fresh<V>(rest: map<string, V>): Snapshot<V> {
    Snapshot(None, None, rest)
  }

  /** Saving into a fresh object and restoring from it onto the same filter bar
      leaves the filter bar exactly as it was, whatever its controls. */
  lemma {:induction false} SaveThenRestoreIsIdentity<V>(bar: FilterBar, rest: map<string, V>)
    ensures RestoreCustomAppStateData(GetCustomAppStateData(Some(Fresh(rest)), bar).value, bar) == bar
  {
    if bar.SmartFilterBar? {
      var saved := GetCustomAppStateData(Some(Fresh(rest)), bar).value;
      var r := RestoreCustomAppStateData(saved, bar);
      var sc := ControlByKey(bar.controls, SupplierKey);
      if saved.supplier.Some? {
        assert CreateTokens(saved.supplier.value) == sc.tokens.value by {
          CreateTokensOfPairs(sc.tokens.value);
        }
      }
      assert r.controls == bar.controls;
    }
  }

  /** Saving a filter bar that holds both custom controls and at least one
      supplier token, then restoring onto any filter bar that holds both
      controls, carries over the rating and the tokens (keys and texts, in order). */
  lemma {:induction false} SaveThenRestoreTransfers<V>(
    source: FilterBar, target: FilterBar, data: Snapshot<V>)
    requires source.SmartFilterBar? && target.SmartFilterBar?
    requires ControlByKey(source.controls, RatingKey).RatingIndicator?
    requires ControlByKey(target.controls, RatingKey).RatingIndicator?
    requires ControlByKey(target.controls, SupplierKey).MultiInput?
    requires |SupplierTokens(source)| > 0
    ensures
      var r := RestoreCustomAppStateData(GetCustomAppStateData(Some(data), source).value, target);
      && ControlByKey(r.controls, RatingKey) == ControlByKey(source.controls, RatingKey)
      && ControlByKey(r.controls, SupplierKey) == MultiInput(Some(SupplierTokens(source)))
  {
    var ts := SupplierTokens(source);
    var saved := GetCustomAppStateData(Some(data), source).value;
    assert saved.supplier == Some(GetKeyValuePairs(Some(ts)));
    CreateTokensOfPairs(ts);
  }
}
