/** Closing the supplier selection dialog: the records the user confirmed
    become the tokens of the supplier multi-input. */
module SupplierDialog {
  import opened Wrappers
  import opened Controls

  /** A selected supplier record, as the dialog's binding context yields it. */
  datatype Record = Record(id: string, name: string)

  /** The token-building loop of `onHandleCustomSupplierTableSelectDialogClose`:
      when the dialog reports selected contexts, the multi-input's tokens
      become one token per record, in selection order, keyed by the record's
      id and labelled with its name; otherwise the tokens stay as they were. */
  method DialogClose(selected: Option<seq<Record>>, tokens: Option<seq<Token>>)
    returns (r: Option<seq<Token>>)
    ensures selected.None? ==> r == tokens
    ensures selected.Some? ==> r.Some? && |r.value| == |selected.value|
    ensures selected.Some? ==>
      forall i :: 0 <= i < |selected.value| ==>
        r.value[i].key == selected.value[i].id && r.value[i].text == selected.value[i].name
  {
    if selected.None? {
      return tokens;
    }
    var records := selected.value;
    var built: seq<Token> := [];
    var i := 0;
    while i < |records|
      invariant 0 <= i <= |records|
      invariant |built| == i
      invariant forall j :: 0 <= j < i ==> built[j] == Token(records[j].id, records[j].name)
    {
      built := built + [Token(records[i].id, records[i].name)];
      i := i + 1;
    }
    r := Some(built);
  }
}
