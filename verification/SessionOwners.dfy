/** The in-place form of the owner operations: the tables of internal/persistence/store.go and the
    Codexes in memory of internal/codex/manager.go, updated statement by statement. */
module SessionOwners {
  import opened Common
  import O = Owners

  function With(h: O.Host, p: O.Pending): O.Host {
    h.(pending := map[0 := p])
  }

  /** The steps of an import in a row. */
  function Imported(h: O.Host, request: O.Ident, id: O.CodexId, ident: O.Ident, drawn: O.Owner, bind: Write,
        save: Write, drop: Write): O.Host {
    O.EndImport(O.Save(O.Resolve(O.BeginImport(h, 0, request), 0, ident, drawn, bind), 0, id, save), 0, drop)
  }

  /** saveCodex and what follows it, without the bookkeeping of the pending call. */
  lemma SavedIs(h: O.Host, id: O.CodexId, resumed: Option<O.Ident>, ident: O.Ident, owner: O.Owner, save: Write,
        drop: Write)
    requires id !in h.used && h.pending == map[]
    ensures var (rows, ok) := O.UpsertCodex(h.rows, id, O.Codex(ident, owner, true), save);
      O.EndImport(O.Save(With(h, O.Owned(resumed, ident, owner)), 0, id, save), 0, drop).(pending := map[]) ==
      h.(rows := rows, used := h.used + {id}, live := if ok then h.live[id := O.Codex(ident, owner, true)] else h.live,
         forgotten := if ok && resumed.Some? && drop.Lands() then h.forgotten - {resumed.value} else h.forgotten)
  {
    var s := O.Save(With(h, O.Owned(resumed, ident, owner)), 0, id, save);
    if 0 in s.pending {
      assert s.pending[0].Saved?;
    }
  }

  /** Forget and import are a round trip for the owner: the session comes back as a new Codex with
      the owner it had, even under another native thread, and the forgotten record is gone. */
  lemma ForgetThenImport(h: O.Host, gone: O.CodexId, id: O.CodexId, ident: O.Ident, drawn: O.Owner)
    requires O.Inv(h) && h.pending == map[] && gone in h.live && !h.live[gone].managed && id !in h.used
    requires forall other :: other in h.rows && other != gone ==>
      h.rows[other].ident != h.live[gone].ident && h.rows[other].ident != ident
    requires ident !in h.owners || h.owners[ident] == h.live[gone].owner
    ensures var c := h.live[gone];
      var h' := Imported(O.Forget(h, gone, Written, Written), c.ident, id, ident, drawn, Written, Written, Written);
      && id in h'.live && h'.live[id] == O.Codex(ident, c.owner, true)
      && h'.rows == (h.rows - {gone})[id := h'.live[id]]
      && gone !in h'.live && c.ident !in h'.forgotten && ident in h'.owners && h'.owners[ident] == c.owner
  {
    var c := h.live[gone];
    assert O.OwnedBy(h.owners, c.ident, c.owner);
    var h1 := O.Forget(h, gone, Written, Written);
    assert h1.forgotten[c.ident] == c.owner && h1.rows == h.rows - {gone} && !O.Managed(h1, c.ident);
    var h2 := O.BeginImport(h1, 0, c.ident);
    assert h2.pending[0] == O.Looked(c.ident, Some(c.owner));
    var h3 := O.Resolve(h2, 0, ident, drawn, Written);
    assert h3.pending[0] == O.Owned(Some(c.ident), ident, c.owner) && h3.rows == h1.rows;
    assert !O.Taken(h3.rows, id, ident);
    var h4 := O.Save(h3, 0, id, Written);
    assert h4.pending[0] == O.Saved(c.ident);
  }

  class SessionHost {
    var logicalOwners: map<O.Ident, O.Owner>
    var codexes: map<O.CodexId, O.Codex>
    var forgottenSessions: map<O.Ident, O.Owner>
    var byId: map<O.CodexId, O.Codex>
    var used: set<O.CodexId>
    var edges: set<O.Edge>

    function Host(): O.Host
      reads this
    {
      O.Host(logicalOwners, codexes, forgottenSessions, byId, map[], used, edges)
    }

    method EnsureLogicalOwner(ident: O.Ident, drawn: O.Owner, w: Write) returns (owner: Option<O.Owner>)
      modifies this`logicalOwners
      ensures (logicalOwners, owner) == O.EnsureOwner(old(logicalOwners), ident, drawn, w)
    {
      if ident !in logicalOwners && w.Lands() {
        logicalOwners := logicalOwners[ident := drawn];
      }
      if !w.Written? {
        return None;
      }
      owner := Some(logicalOwners[ident]);
    }

    method BindLogicalOwner(ident: O.Ident, owner: O.Owner, w: Write) returns (ok: bool)
      modifies this`logicalOwners
      ensures (logicalOwners, ok) == O.BindOwner(old(logicalOwners), ident, owner, w)
    {
      if ident !in logicalOwners && w.Lands() {
        logicalOwners := logicalOwners[ident := owner];
      }
      if !w.Written? {
        return false;
      }
      ok := logicalOwners[ident] == owner;
    }

    method UpsertCodex(id: O.CodexId, c: O.Codex, w: Write) returns (ok: bool)
      modifies this`codexes
      ensures (codexes, ok) == O.UpsertCodex(old(codexes), id, c, w)
    {
      if !w.Lands() || O.Taken(codexes, id, c.ident) {
        return false;
      }
      codexes := codexes[id := c];
      ok := w.Written?;
    }

    method ForgetCodex(id: O.CodexId, remember: Write, destroy: Write) returns (ok: bool)
      modifies this`codexes, this`forgottenSessions, this`byId
      ensures Host() == O.Forget(old(Host()), id, remember, destroy)
      ensures ok ==> id in old(byId) && id !in byId && id !in codexes
      ensures ok ==> var c := old(byId)[id]; c.ident in forgottenSessions && forgottenSessions[c.ident] == c.owner
    {
      if id !in byId || byId[id].managed {
        return false;
      }
      var c := byId[id];
      if remember.Lands() {
        forgottenSessions := forgottenSessions[c.ident := c.owner];
      }
      if !remember.Written? {
        return false;
      }
      if destroy.Lands() {
        codexes := codexes - {id};
      }
      if !destroy.Written? {
        return false;
      }
      byId := byId - {id};
      ok := true;
    }

    /** BindLogicalOwner for a session that takes over a lineage. */
    method MoveLineage(from: O.Ident, to: O.Ident, owner: O.Owner, w: Write) returns (ok: bool)
      modifies this`logicalOwners, this`edges
      ensures (Host(), ok) == O.Move(old(Host()), from, to, owner, w)
    {
      ok := BindLogicalOwner(to, owner, w);
      if to in logicalOwners && logicalOwners[to] == owner {
        edges := edges + {O.Edge(from, to)};
      }
    }

    method SaveCodex(id: O.CodexId, ident: O.Ident, owner: O.Owner, w: Write) returns (ok: bool)
      requires id !in used
      modifies this`codexes, this`byId, this`used
      ensures ok == O.UpsertCodex(old(codexes), id, O.Codex(ident, owner, true), w).1
      ensures codexes == O.UpsertCodex(old(codexes), id, O.Codex(ident, owner, true), w).0
      ensures used == old(used) + {id} && byId == if ok then old(byId)[id := O.Codex(ident, owner, true)] else old(byId)
    {
      used := used + {id};
      ok := UpsertCodex(id, O.Codex(ident, owner, true), w);
      if ok {
        byId := byId[id := O.Codex(ident, owner, true)];
      }
    }

    /** CreateCodex with nothing interleaved: the two steps of the protocol in a row. */
    method CreateCodex(id: O.CodexId, ident: O.Ident, drawn: O.Owner, ensure: Write, save: Write) returns (ok: bool)
      requires id !in used
      modifies this
      ensures Host() == O.Save(O.Create(old(Host()), 0, ident, drawn, ensure), 0, id, save).(pending := map[])
      ensures ok ==> id in byId && byId[id].ident == ident
    {
      var owner := EnsureLogicalOwner(ident, drawn, ensure);
      if owner.None? {
        return false;
      }
      ok := SaveCodex(id, ident, owner.value, save);
    }

    /** ImportSession from the forgotten record to the owner. */
    method ResolveOwner(request: O.Ident, forgotten: Option<O.Owner>, ident: O.Ident, drawn: O.Owner, bind: Write)
      returns (owner: Option<O.Owner>)
      modifies this`logicalOwners, this`edges
      ensures var r := O.Resolve(With(old(Host()), O.Looked(request, forgotten)), 0, ident, drawn, bind);
        && Host() == r.(pending := map[])
        && var resumed := if forgotten.Some? then Some(request) else None;
          r.pending == if owner.Some? then map[0 := O.Owned(resumed, ident, owner.value)] else map[]
    {
      var known := if forgotten.Some? then forgotten.value else 0;
      if known == 0 {
        owner := EnsureLogicalOwner(ident, drawn, bind);
      } else {
        var bound := MoveLineage(request, ident, known, bind);
        owner := if bound then Some(known) else None;
      }
    }

    /** ImportSession from saveCodex to the end. */
    method SaveImported(id: O.CodexId, resumed: Option<O.Ident>, ident: O.Ident, owner: O.Owner, save: Write,
          drop: Write) returns (ok: bool)
      requires id !in used
      modifies this
      ensures var saved := O.Save(With(old(Host()), O.Owned(resumed, ident, owner)), 0, id, save);
        Host() == O.EndImport(saved, 0, drop).(pending := map[])
    {
      SavedIs(Host(), id, resumed, ident, owner, save, drop);
      ok := SaveCodex(id, ident, owner, save);
      if ok && resumed.Some? && drop.Lands() {
        forgottenSessions := forgottenSessions - {resumed.value};
      }
    }

    /** ImportSession with nothing interleaved, once the app-server has settled on thread `ident`. */
    method ImportSession(request: O.Ident, id: O.CodexId, ident: O.Ident, drawn: O.Owner, bind: Write, save: Write,
          drop: Write)
      returns (ok: bool)
      requires id !in used
      modifies this
      ensures Host() == Imported(old(Host()), request, id, ident, drawn, bind, save, drop).(pending := map[])
    {
      if O.Managed(Host(), request) {
        return false;
      }
      var forgotten := if request in forgottenSessions then Some(forgottenSessions[request]) else None;
      assert O.BeginImport(Host(), 0, request) == With(Host(), O.Looked(request, forgotten));
      var owner := ResolveOwner(request, forgotten, ident, drawn, bind);
      if owner.None? {
        return false;
      }
      ok := SaveImported(id, if forgotten.Some? then Some(request) else None, ident, owner.value, save, drop);
    }

    method RegisterRestored(id: O.CodexId, c: O.Codex, w: Write)
      modifies this`codexes, this`byId
      ensures Host() == O.Register(old(Host()), id, c, w)
    {
      byId := byId[id := c];
      var _ := UpsertCodex(id, c, w);
    }

    method ReplaceUnmaterializedCodex(id: O.CodexId, r: O.Codex, replacement: O.Ident, move: Write, persist: Write)
      modifies this
      ensures Host() == O.RestoreAs(old(Host()), id, r, Some(replacement), move, persist)
    {
      var ok := MoveLineage(r.ident, replacement, r.owner, move);
      if ok {
        RegisterRestored(id, r.(ident := replacement), persist);
      }
    }

    method RestoreCodex(id: O.CodexId, drawn: O.Owner, bind: Write, replacement: Option<O.Ident>, move: Write,
          persist: Write)
      modifies this
      ensures Host() == O.Restore(old(Host()), id, drawn, bind, replacement, move, persist)
    {
      if id !in codexes {
        return;
      }
      var r := codexes[id];
      if r.owner == 0 {
        var owner := EnsureLogicalOwner(r.ident, drawn, bind);
        if owner.None? {
          return;
        }
        r := r.(owner := owner.value);
      } else {
        var ok := BindLogicalOwner(r.ident, r.owner, bind);
        if !ok {
          return;
        }
      }
      if replacement.Some? {
        ReplaceUnmaterializedCodex(id, r, replacement.value, move, persist);
      } else {
        RegisterRestored(id, r, persist);
      }
    }
  }
}
