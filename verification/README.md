# List-report extension controller of the iTelO catalog, in Dafny

The catalog's list report has two custom filter fields in its smart filter
bar: a supplier multi-input (its tokens are the selected suppliers, key and
display text) and an average-rating indicator. Its extension controller

- turns them into query filters before the table rebinds: one `EQ` filter on
  `supplier_ID` per token, and a `BT` filter on `averageRating` from
  rating − 0.5 to rating + 0.5 when the rating is positive, appended to the
  binding's existing filters;
- saves them into the app state (`AverageRatingValue`, and `Supplier` as
  `[key, text]` pairs when there is at least one token) and restores them
  from it;
- turns the records confirmed in the supplier selection dialog into the
  multi-input's tokens.

This project models those transformations as pure functions over immutable
values and proves what they promise. The framework objects become plain
datatypes (module `Controls`): a `Token`, a `Filter` (`Eq` or `Between`), a
`Control` that is a `MultiInput`, a `RatingIndicator` or anything else (the
`instanceof` checks), and a `FilterBar` that is a `SmartFilterBar` holding its
controls by key or anything else. A missing key in the filter bar reads as
`Other`, which no `instanceof` check accepts. A token array the control does
not report (`if (aTokens)`) is `None`. The app-state object is a `Snapshot`
with the two entries the controller owns (`None` when undefined) and a map
of the entries it does not own, of any value type; `Snapshot.Valid` says the
owned entries never appear in that map, and saving keeps it so. Ratings are exact `real`s.

To say what the filters mean independently of how they are built,
`Controls.Holds` evaluates a filter against a table row: `EQ` is equality of
the string field, `BT` keeps values within both bounds inclusively.

Two behaviours of the code are modelled as written:
- a save that finds no supplier token leaves any `Supplier` entry already in
  the object untouched;
- a restore whose `Supplier` list is empty leaves the multi-input's tokens as
  they were, although the comment in the restore hook says empty properties
  have to be set.

## Model

| member | source | states |
|---|---|---|
| QueryFilters.EqFilters | ui-iteloCatalog/webapp/ext/controller/ListReportExt.controller.js:147-149 | one `EQ` filter per token on the given field, the token's key as value, same length and order |
| QueryFilters.GetTokens | ui-iteloCatalog/webapp/ext/controller/ListReportExt.controller.js:143-152 | exactly one `EQ` filter per token on the given name with the token's key, in token order; no token array gives no filters |
| QueryFilters.GetRatingFilter | ui-iteloCatalog/webapp/ext/controller/ListReportExt.controller.js:130-141 | no filter exactly when the rating is not positive; otherwise a `BT` filter on `averageRating` centred on the rating and exactly one unit wide, unclamped |
| QueryFilters.BeforeRebindTable | ui-iteloCatalog/webapp/ext/controller/ListReportExt.controller.js:27-44 | only appends: the prior filters are a prefix, followed by one supplier filter per token and then the rating filter when the rating is positive; nothing is added without a smart filter bar or with controls of the wrong type |
| QueryFilters.SupplierFiltersSelectTokenKeys | ui-iteloCatalog/webapp/ext/controller/ListReportExt.controller.js:143-152 | a row satisfies some supplier filter if and only if its `supplier_ID` equals the key of some token |
| QueryFilters.RatingFilterSelectsNeighbourhood | ui-iteloCatalog/webapp/ext/controller/ListReportExt.controller.js:133-138 | a row satisfies the rating filter if and only if its average rating is within half a unit of the selected rating |
| AppState.Pairs | ui-iteloCatalog/webapp/ext/controller/ListReportExt.controller.js:158-160 | one `[key, text]` pair per token, same length and order |
| AppState.GetKeyValuePairs | ui-iteloCatalog/webapp/ext/controller/ListReportExt.controller.js:154-163 | the `[key, text]` pairs of the tokens in order; no token array gives no pairs |
| AppState.CreateTokens | ui-iteloCatalog/webapp/ext/controller/ListReportExt.controller.js:165-174 | one token per pair, key from the first element and text from the second, in order |
| AppState.CreateTokensOfPairs | ui-iteloCatalog/webapp/ext/controller/ListReportExt.controller.js:154-174 | round trip: rebuilding tokens from their pairs gives back the same tokens |
| AppState.PairsOfCreateTokens | ui-iteloCatalog/webapp/ext/controller/ListReportExt.controller.js:154-174 | round trip the other way: the pairs of rebuilt tokens are the stored pairs |
| AppState.GetCustomAppStateData | ui-iteloCatalog/webapp/ext/controller/ListReportExt.controller.js:83-99 | nothing without a custom-data object; the rating is stored whenever the rating indicator is present, even at 0; `Supplier` is set, as the tokens' pairs, only when there is a token; all other entries are unchanged |
| AppState.RestoreCustomAppStateData | ui-iteloCatalog/webapp/ext/controller/ListReportExt.controller.js:110-127 | the rating changes only when a rating is stored and the control is a rating indicator; tokens are replaced only when a non-empty `Supplier` is stored and the control is a multi-input; every other control is unchanged |
| AppState.SaveThenRestoreIsIdentity | ui-iteloCatalog/webapp/ext/controller/ListReportExt.controller.js:83-127 | saving into a fresh object and restoring onto the same filter bar leaves the filter bar exactly as it was |
| AppState.SaveThenRestoreTransfers | ui-iteloCatalog/webapp/ext/controller/ListReportExt.controller.js:87-125 | with both controls present and at least one token, save then restore onto another filter bar reproduces the rating and the tokens (keys and texts, in order) |
| SupplierDialog.DialogClose | ui-iteloCatalog/webapp/ext/controller/ListReportExt.controller.js:61-74 | with selected contexts, the tokens become exactly one per record, in order, key = `ID` and text = `name`; without them the tokens are unchanged |

## Left out

- `onInitSmartFilterBarExtension` has an empty body.
- `onCustomSupplierDialogOpen`: lazy fragment creation, `addDependent` and `open` are UI plumbing of the framework.
- `onHandleCustomSupplierDialogSearch` and the `filter([])` / `updateBindings` calls after a dialog close act inside the framework's binding engine, which is not part of this model.
- `fireChange` after a dialog close, and the framework semantics of `byId` and `getControlByKey`: only their results are modelled, as parameters and as a map lookup.
- The default `bindingParams.parameters = … || {}` in the pre-rebind hook does not affect the filters and is not modelled.
- How the table binding combines the list of filters into one query is the framework's business; `Controls.Holds` gives the meaning of a single filter only.
- `rating ± 0.5` is computed on exact reals; the floating-point rounding of JavaScript numbers is not modelled.
- `RatingIndicator.setValue` is modelled as storing the value as given; any clamping the framework control applies is not part of this model.
- A stored `null` entry is not modelled: the restore hook tests only for `undefined`, so it would call `setValue(null)` for a `null` `AverageRatingValue` and throw in `_createTokens` for a `null` `Supplier`; the save hook never writes `null`.
- The restore hook reads `oCustomData` without checking it, so the model takes a snapshot that is always present.
- The `Filter` and `Token` framework classes are plain datatypes; only the path, operator and values of a filter, and the key and text of a token, are kept.
