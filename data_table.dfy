/**
 * The instruments table screen: optimistic add, update and delete of the
 * `instruments` state. An add shows a placeholder at once and later swaps it
 * for the server's record or drops it; an update or delete applies at once
 * and later keeps the change or restores the list saved just before it.
 */
module DataTable {
  import opened Wrappers
  import opened ItemList

  /**
   * An id as the screen holds it: a number (the placeholder's `Date.now()`)
   * or the text the API sends. `===` never equates a number with a string.
   */
  datatype JsId = Number(n: int) | Text(s: string)

  type Instrument = Item<JsId>

  /** Every entry came from the API, which sends its ids as text. */
  predicate FromServer(xs: seq<Instrument>)
  {
    forall i :: 0 <= i < |xs| ==> xs[i].id.Text?
  }

  /**
   * A list loaded from the API cannot hold the placeholder's id, so an add
   * ends with the server's record at the end on success and with the list
   * unchanged on failure.
   */
  lemma PlaceholderSettles(xs: seq<Instrument>, t: int, name: string, created: Instrument)
    requires FromServer(xs)
    ensures RemoveById(xs + [Item(Number(t), name)], Number(t)) == xs
    ensures ReplaceById(xs + [Item(Number(t), name)], Number(t), created) == xs + [created]
  {
    assert Fresh(xs, Number(t));
    DropPlaceholder(xs, Number(t), name);
    SwapPlaceholder(xs, Number(t), name, created);
  }

  class InstrumentsTable {
    var instruments: seq<Instrument>
    var loading: bool
    var editingId: Option<JsId>
    var editName: string
    var newInstrumentName: string
    var isAdding: bool

    constructor ()
      ensures instruments == [] && loading && editingId == None
      ensures editName == "" && newInstrumentName == "" && !isAdding
    {
      instruments := [];
      loading := true;
      editingId := None;
      editName := "";
      newInstrumentName := "";
      isAdding := false;
    }

    /** `fetchInstruments`: the list the API sent, or the current one when the request failed. */
    method FetchInstruments(data: Option<seq<Instrument>>)
      modifies this`instruments, this`loading
      ensures instruments == if data.Some? then data.value else old(instruments)
      ensures !loading
    {
      if data.Some? {
        instruments := data.value;
      }
      loading := false;
    }

    /** `addInstrument`, before the request: the placeholder goes at the end. */
    method BeginAdd(optimisticId: int, name: string)
      modifies this`instruments
      ensures instruments == old(instruments) + [Item(Number(optimisticId), name)]
    {
      instruments := instruments + [Item(Number(optimisticId), name)];
    }

    /** `addInstrument`, after the request: swap the placeholder for the created record, or drop it. */
    method SettleAdd(optimisticId: int, created: Option<Instrument>)
      modifies this`instruments
      ensures created.Some? ==> instruments == ReplaceById(old(instruments), Number(optimisticId), created.value)
      ensures created.None? ==> instruments == RemoveById(old(instruments), Number(optimisticId))
    {
      if created.Some? {
        instruments := ReplaceById(instruments, Number(optimisticId), created.value);
      } else {
        instruments := RemoveById(instruments, Number(optimisticId));
      }
    }

    /** `addInstrument` run to the end with no other change in between. */
    method AddInstrument(optimisticId: int, name: string, created: Option<Instrument>)
      modifies this`instruments
      ensures Fresh(old(instruments), Number(optimisticId)) ==>
        instruments == old(instruments) + (if created.Some? then [created.value] else [])
      ensures created.None? ==> Fresh(instruments, Number(optimisticId))
    {
      ghost var before := instruments;
      BeginAdd(optimisticId, name);
      SettleAdd(optimisticId, created);
      if Fresh(before, Number(optimisticId)) {
        if created.Some? {
          SwapPlaceholder(before, Number(optimisticId), name, created.value);
        } else {
          DropPlaceholder(before, Number(optimisticId), name);
        }
      }
    }

    /** `updateInstrument`, before the request: snapshot, then rename the entries with that id. */
    method BeginUpdate(id: JsId, name: string) returns (previous: seq<Instrument>)
      modifies this`instruments
      ensures previous == old(instruments)
      ensures instruments == RenameById(old(instruments), id, name)
    {
      previous := instruments;
      instruments := RenameById(instruments, id, name);
    }

    /** `deleteInstrument`, before the request: snapshot, then drop the entries with that id. */
    method BeginDelete(id: JsId) returns (previous: seq<Instrument>)
      modifies this`instruments
      ensures previous == old(instruments)
      ensures instruments == RemoveById(old(instruments), id)
    {
      previous := instruments;
      instruments := RemoveById(instruments, id);
    }

    /** Update and delete, after the request: keep the optimistic list, or restore the snapshot. */
    method Settle(previous: seq<Instrument>, ok: bool)
      modifies this`instruments
      ensures instruments == if ok then old(instruments) else previous
    {
      if !ok {
        instruments := previous;
      }
    }

    /** `updateInstrument` run to the end: renamed on success, exactly as before on failure. */
    method UpdateInstrument(id: JsId, name: string, ok: bool)
      modifies this`instruments
      ensures instruments == if ok then RenameById(old(instruments), id, name) else old(instruments)
    {
      var previous := BeginUpdate(id, name);
      Settle(previous, ok);
    }

    /** `deleteInstrument` run to the end: filtered on success, exactly as before on failure. */
    method DeleteInstrument(id: JsId, ok: bool)
      modifies this`instruments
      ensures instruments == if ok then RemoveById(old(instruments), id) else old(instruments)
    {
      var previous := BeginDelete(id);
      Settle(previous, ok);
    }

    /** The Save button of the add row, disabled while the name is empty. */
    method SaveNew(optimisticId: int)
      modifies this`instruments, this`newInstrumentName, this`isAdding
      ensures old(newInstrumentName) == "" ==>
        instruments == old(instruments) && newInstrumentName == "" && isAdding == old(isAdding)
      ensures old(newInstrumentName) != "" ==>
        instruments == old(instruments) + [Item(Number(optimisticId), old(newInstrumentName))] &&
        newInstrumentName == "" && !isAdding
    {
      if newInstrumentName != "" {
        BeginAdd(optimisticId, newInstrumentName);
        newInstrumentName := "";
        isAdding := false;
      }
    }

    /** The Edit button of a row. */
    method StartEdit(instrument: Instrument)
      modifies this`editingId, this`editName
      ensures editingId == Some(instrument.id) && editName == instrument.name
    {
      editingId := Some(instrument.id);
      editName := instrument.name;
    }

    /**
     * The Save button of the row being edited, disabled while the edited name
     * is empty; when it runs it hands back the snapshot for `Settle`.
     */
    method SaveEdit() returns (previous: Option<seq<Instrument>>)
      requires editingId.Some?
      modifies this`instruments, this`editingId
      ensures old(editName) == "" ==>
        previous == None && instruments == old(instruments) && editingId == old(editingId)
      ensures old(editName) != "" ==>
        previous == Some(old(instruments)) &&
        instruments == RenameById(old(instruments), old(editingId).value, old(editName)) &&
        editingId == None
    {
      if editName == "" {
        return None;
      }
      var snapshot := BeginUpdate(editingId.value, editName);
      editingId := None;
      previous := Some(snapshot);
    }
  }
}
