/** The two SQLite tables behind an event (internal/persistence/store.go): `codexes`
    with the CurrentView column and `event_heads` with the last sequence number. */
module EventTables {
  import opened Common
  import opened Activity

  /** Where a CommitEvent transaction fails. */
  datatype Fault = NoFault | BeginFails | HeadFails | UpdateFails | CommitFails(landed: bool)

  datatype CommitResult = Sequence(number: nat) | Refused | OutcomeUnknown

  /** What really happened to the transaction, given what its caller saw. */
  function Ended(r: CommitResult, fault: Fault): Commit {
    match r
    case Sequence(_) => Committed
    case Refused => RolledBack
    case OutcomeUnknown => if fault.CommitFails? && fault.landed then UnknownLanded else UnknownLost
  }

  class Tables {
    var codexes: map<string, Raw>
    var heads: map<string, nat>

    /** LoadEventState: head defaults to 0 when the Codex has no event_heads row. */
    function Load(id: string): Option<Row>
      reads this
    {
      if id in codexes then Some(Row(if id in heads then heads[id] else 0, codexes[id])) else None
    }

    /** `view` is None when buildView fails. */
    method CommitEvent(id: string, view: Option<Body>, fault: Fault) returns (r: CommitResult)
      modifies this
      ensures Load(id) == CommitRow(old(Load(id)), if view.Some? then view.value else NO_VIEW, Ended(r, fault))
      ensures r.Sequence? ==> Load(id).Some? && Load(id).value.head == r.number && old(Load(id)).Some?
      ensures r.Sequence? <==> id != "" && old(Load(id)).Some? && view.Some? && fault.NoFault?
      ensures r.OutcomeUnknown? <==> id != "" && old(Load(id)).Some? && view.Some? && fault.CommitFails?
      ensures forall other :: other != id ==> Load(other) == old(Load(other))
    {
      if id == "" || fault.BeginFails? {
        return Refused;
      }
      var txCodexes, txHeads := codexes, heads;
      if id !in txCodexes {
        return Refused;
      }
      if id !in txHeads {
        txHeads := txHeads[id := 0];
      }
      if fault.HeadFails? {
        return Refused;
      }
      txHeads := txHeads[id := txHeads[id] + 1];
      var number := txHeads[id];
      if view.None? || fault.UpdateFails? {
        return Refused;
      }
      txCodexes := txCodexes[id := Stored(View(number, view.value))];
      if fault.CommitFails? {
        if fault.landed {
          codexes, heads := txCodexes, txHeads;
        }
        return OutcomeUnknown;
      }
      codexes, heads := txCodexes, txHeads;
      return Sequence(number);
    }

    /** UpsertCodex writes the row and leaves its event head alone; a row that was deleted starts at 0. */
    method UpsertCodex(id: string, raw: Raw, w: Write) returns (ok: bool)
      modifies this
      ensures ok <==> w.Written?
      ensures w.Lands() ==> Load(id) == Some(Row(if id in old(heads) then old(heads)[id] else 0, raw))
      ensures !w.Lands() ==> Load(id) == old(Load(id))
      ensures heads == old(heads) && forall other :: other != id ==> Load(other) == old(Load(other))
    {
      if w.Lands() {
        codexes := codexes[id := raw];
      }
      return w.Written?;
    }

    /** DeleteCodex removes the Codex row together with its event head, or nothing, and may report
        an error although it did. */
    method DeleteCodex(id: string, w: Write) returns (ok: bool)
      modifies this
      ensures ok <==> id != "" && old(Load(id)).Some? && w.Written?
      ensures Load(id) == if id != "" && w.Lands() then None else old(Load(id))
      ensures id != "" && old(Load(id)).Some? && w.Lands() ==> id !in heads
      ensures forall other :: other != id ==> Load(other) == old(Load(other))
    {
      if id == "" || id !in codexes {
        return false;
      }
      if w.Lands() {
        heads := heads - {id};
        codexes := codexes - {id};
      }
      return w.Written?;
    }
  }
}
