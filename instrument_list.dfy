/**
 * The instrument list on the private page: create, rename and delete take
 * effect on the `instruments` state only after the request succeeded, and a
 * blank name (after `trim`) sends nothing.
 */
module InstrumentListView {
  import opened Wrappers
  import opened JsString
  import opened ItemList

  /** An instrument with its `bigint` id. */
  type Instrument = Item<int>

  class InstrumentList {
    var instruments: seq<Instrument>
    var newInstrumentName: string
    var editingId: Option<int>
    var editingName: string
    var isAdding: bool

    constructor (initialInstruments: seq<Instrument>)
      ensures instruments == initialInstruments
      ensures newInstrumentName == "" && editingId == None && editingName == "" && !isAdding
    {
      instruments := initialInstruments;
      newInstrumentName := "";
      editingId := None;
      editingName := "";
      isAdding := false;
    }

    /**
     * `handleCreate`: `created` is the record the POST answered with, None
     * when the request failed. A blank name sends nothing.
     */
    method HandleCreate(created: Option<Instrument>)
      modifies this`instruments, this`newInstrumentName, this`isAdding
      ensures IsBlank(old(newInstrumentName)) || created.None? ==>
        instruments == old(instruments) && newInstrumentName == old(newInstrumentName) && isAdding == old(isAdding)
      ensures !IsBlank(old(newInstrumentName)) && created.Some? ==>
        instruments == old(instruments) + [created.value] && newInstrumentName == "" && !isAdding
    {
      TrimEmptyIffBlank(newInstrumentName);
      if Trim(newInstrumentName) == "" {
        return;
      }
      if created.None? {
        return;
      }
      instruments := instruments + [created.value];
      newInstrumentName := "";
      isAdding := false;
    }

    /**
     * `handleUpdate(id)`: `updated` is the record the PUT answered with,
     * None when the request failed. A blank edited name sends nothing.
     */
    method HandleUpdate(id: int, updated: Option<Instrument>)
      modifies this`instruments, this`editingId
      ensures IsBlank(old(editingName)) || updated.None? ==>
        instruments == old(instruments) && editingId == old(editingId)
      ensures !IsBlank(old(editingName)) && updated.Some? ==>
        instruments == ReplaceById(old(instruments), id, updated.value) && editingId == None
    {
      TrimEmptyIffBlank(editingName);
      if Trim(editingName) == "" {
        return;
      }
      if updated.None? {
        return;
      }
      instruments := ReplaceById(instruments, id, updated.value);
      editingId := None;
    }

    /** `handleDelete(id)`: only after the user confirmed and the DELETE succeeded. */
    method HandleDelete(id: int, confirmed: bool, ok: bool)
      modifies this`instruments
      ensures instruments == if confirmed && ok then RemoveById(old(instruments), id) else old(instruments)
    {
      if !confirmed {
        return;
      }
      if !ok {
        return;
      }
      instruments := RemoveById(instruments, id);
    }

    /** `startEditing(instrument)`. */
    method StartEditing(instrument: Instrument)
      modifies this`editingId, this`editingName
      ensures editingId == Some(instrument.id) && editingName == instrument.name
    {
      editingId := Some(instrument.id);
      editingName := instrument.name;
    }
  }
}
