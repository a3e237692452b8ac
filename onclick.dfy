/**
 * `on_select_entry`: the main-menu callback that receives the item id of an
 * address-book entry, splits it into address and account type, stores both
 * in the dialog data and moves the dialog to the entry editor.
 */
module Onclick {
  import opened Wrappers
  import opened Strings

  /** The states of `MainMenuStates`. */
  datatype MainMenuState = SelectAbEntry | EditAbEntry | EnterAccountAddress | EnterAccountAlias

  /** Unpacking the split into two names raised: `pieces` is how many pieces there were. */
  datatype UnpackError = UnpackError(pieces: nat)

  /** The item id the entry list gives each entry: `f"{address}_{type}"`. */
  function ItemId(address: string, accountType: string): string
  {
    address + "_" + accountType
  }

  /** `account_address, account_type = data.split("_")`. */
  function SplitItemId(data: string): (r: Result<(string, string), UnpackError>)
    ensures r.Ok? <==> Count(data, '_') == 1
    ensures r.Ok? ==> ItemId(r.value.0, r.value.1) == data
    ensures r.Ok? ==> '_' !in r.value.0 && '_' !in r.value.1
    ensures r.Err? ==> r.error.pieces == Count(data, '_') + 1 && r.error.pieces != 2
  {
    var pieces := Split(data, '_');
    if |pieces| == 2 then
      JoinSplit(data, '_');
      assert pieces[1..] == [pieces[1]];
      Ok((pieces[0], pieces[1]))
    else Err(UnpackError(|pieces|))
  }

  /** Splitting an item id gives back its address and type when neither holds '_'. */
  lemma ItemIdRoundTrip(address: string, accountType: string)
    requires '_' !in address && '_' !in accountType
    ensures SplitItemId(ItemId(address, accountType)) == Ok((address, accountType))
  {
    var pieces := [address, accountType];
    assert pieces[1..] == [accountType];
    assert Join(pieces, '_') == ItemId(address, accountType);
    SplitJoin(pieces, '_');
  }

  /** An address holding '_' makes its own entry unselectable. */
  lemma UnderscoreAddressRejected(address: string, accountType: string)
    requires '_' in address
    ensures SplitItemId(ItemId(address, accountType)).Err?
  {
    var id := ItemId(address, accountType);
    assert id == address + ("_" + accountType);
    CountZero(address, '_');
    CountAppend(address, "_" + accountType, '_');
    CountAppend("_", accountType, '_');
    assert Count("_", '_') == 1;
  }

  /** The current dialog context and the state the dialog manager shows. */
  class DialogManager {
    var dialogData: map<string, string>
    var state: MainMenuState

    constructor (state: MainMenuState)
      ensures this.state == state && dialogData == map[]
    {
      this.state := state;
      dialogData := map[];
    }

    /** `on_select_entry(callback, widget, manager, data)`. */
    method OnSelectEntry(data: string) returns (r: Result<(), UnpackError>)
      modifies this
      ensures r.Ok? <==> SplitItemId(data).Ok?
      ensures r.Err? ==> r.error == SplitItemId(data).error
      ensures r.Err? ==> dialogData == old(dialogData) && state == old(state)
      ensures r.Ok? ==> var (address, accountType) := SplitItemId(data).value;
        dialogData == old(dialogData)["account_address" := address]["account_type" := accountType]
        && state == EditAbEntry
    {
      var split := SplitItemId(data);
      if split.Err? {
        return Err(split.error);
      }
      var (address, accountType) := split.value;
      dialogData := dialogData["account_address" := address]["account_type" := accountType];
      state := EditAbEntry;
      return Ok(());
    }
  }
}
