/** Logical owners of sessions: session_logical_owners and forgotten_sessions
    (internal/persistence/store.go), and the operations of internal/codex/manager.go that carry an
    owner from one native session to the next. Sources are normalised. A call that is refused for
    a blank argument or an unreadable row is one whose write failed without landing. */
module Owners {
  import opened Common

  /** Identifiers are only compared, so they are numbers here. Owner 0 is the empty string of a
      record that has none. */
  type CodexId = nat
  type Owner = nat

  /** A native session: its source and its id. */
  datatype Ident = Ident(source: nat, session: nat)

  /** A row of codexes, or a Codex in memory. */
  datatype Codex = Codex(ident: Ident, owner: Owner, managed: bool)

  /** A create or import under way, between two of its steps. */
  datatype Pending =
    | Looked(request: Ident, forgotten: Option<Owner>)
    | Owned(resumed: Option<Ident>, ident: Ident, owner: Owner)
    | Saved(request: Ident)

  /** The Host moved a session lineage from one native session to another. */
  datatype Edge = Edge(from: Ident, to: Ident)

  /** `owners`, `rows` and `forgotten` are durable; `live` and `pending` are lost in a crash.
      `used` and `edges` are history: Codex ids drawn, and lineage moves the table accepted. */
  datatype Host = Host(
    owners: map<Ident, Owner>, rows: map<CodexId, Codex>, forgotten: map<Ident, Owner>,
    live: map<CodexId, Codex>, pending: map<nat, Pending>, used: set<CodexId>, edges: set<Edge>)

  // ---------------------------------------------------------------- the tables

  /** INSERT … ON CONFLICT DO NOTHING. */
  function Insert(owners: map<Ident, Owner>, ident: Ident, owner: Owner, w: Write): map<Ident, Owner> {
    if ident in owners || !w.Lands() then owners else owners[ident := owner]
  }

  function EnsureOwner(owners: map<Ident, Owner>, ident: Ident, drawn: Owner, w: Write)
    : (map<Ident, Owner>, Option<Owner>)
  {
    var owners' := Insert(owners, ident, drawn, w);
    (owners', if w.Written? && ident in owners' then Some(owners'[ident]) else None)
  }

  function BindOwner(owners: map<Ident, Owner>, ident: Ident, owner: Owner, w: Write): (map<Ident, Owner>, bool) {
    var owners' := Insert(owners, ident, owner, w);
    (owners', w.Written? && ident in owners' && owners'[ident] == owner)
  }

  /** UNIQUE(session_source, thread_id). */
  predicate Taken(rows: map<CodexId, Codex>, id: CodexId, ident: Ident) {
    exists other :: other in rows && other != id && rows[other].ident == ident
  }

  function UpsertCodex(rows: map<CodexId, Codex>, id: CodexId, c: Codex, w: Write): (map<CodexId, Codex>, bool) {
    if !w.Lands() || Taken(rows, id, c.ident) then (rows, false) else (rows[id := c], w.Written?)
  }

  // ------------------------------------------------------------- the operations

  /** BindLogicalOwner for a session that takes over the lineage of another. */
  function Move(s: Host, from: Ident, to: Ident, owner: Owner, w: Write): (Host, bool) {
    var (owners, ok) := BindOwner(s.owners, to, owner, w);
    var s' := s.(owners := owners);
    (if to in owners && owners[to] == owner then s'.(edges := s.edges + {Edge(from, to)}) else s', ok)
  }

  function Drop(s: Host, tid: nat): Host {
    s.(pending := s.pending - {tid})
  }

  /** CreateCodex up to the owner; the app-server has started thread `ident`. */
  function Create(s: Host, tid: nat, ident: Ident, drawn: Owner, w: Write): Host {
    if tid in s.pending then s
    else
      var (owners, owner) := EnsureOwner(s.owners, ident, drawn, w);
      var s' := s.(owners := owners);
      if owner.Some? then s'.(pending := s.pending[tid := Owned(None, ident, owner.value)]) else s'
  }

  predicate Managed(s: Host, ident: Ident) {
    exists id :: id in s.rows && s.rows[id].ident == ident
  }

  /** ImportSession up to GetForgottenSession. */
  function BeginImport(s: Host, tid: nat, request: Ident): Host {
    if tid in s.pending || Managed(s, request) then s
    else
      var forgotten := if request in s.forgotten then Some(s.forgotten[request]) else None;
      s.(pending := s.pending[tid := Looked(request, forgotten)])
  }

  /** ImportSession settles on thread `ident`, the requested one or a replacement. */
  function Resolve(s: Host, tid: nat, ident: Ident, drawn: Owner, w: Write): Host {
    if tid !in s.pending || !s.pending[tid].Looked? then s
    else
      var Looked(request, forgotten) := s.pending[tid];
      var known := if forgotten.Some? then forgotten.value else 0;
      if known == 0 then ResolveFirst(s, tid, if forgotten.Some? then Some(request) else None, ident, drawn, w)
      else
        var (s', ok) := Move(s, request, ident, known, w);
        if ok then s'.(pending := s'.pending[tid := Owned(Some(request), ident, known)]) else Drop(s', tid)
  }

  function ResolveFirst(s: Host, tid: nat, resumed: Option<Ident>, ident: Ident, drawn: Owner, w: Write): Host {
    var (owners, owner) := EnsureOwner(s.owners, ident, drawn, w);
    var s' := s.(owners := owners);
    if owner.Some? then s'.(pending := s'.pending[tid := Owned(resumed, ident, owner.value)]) else Drop(s', tid)
  }

  /** saveCodex. */
  function Save(s: Host, tid: nat, id: CodexId, w: Write): Host {
    if tid !in s.pending || !s.pending[tid].Owned? || id in s.used then s
    else
      var Owned(resumed, ident, owner) := s.pending[tid];
      var c := Codex(ident, owner, true);
      var (rows, ok) := UpsertCodex(s.rows, id, c, w);
      var s' := s.(rows := rows, used := s.used + {id});
      if !ok then Drop(s', tid)
      else if resumed.Some? then s'.(live := s.live[id := c], pending := s.pending[tid := Saved(resumed.value)])
      else Drop(s'.(live := s.live[id := c]), tid)
  }

  /** ImportSession ends with DeleteForgottenSession. */
  function EndImport(s: Host, tid: nat, w: Write): Host {
    if tid !in s.pending || !s.pending[tid].Saved? then s
    else Drop(s.(forgotten := if w.Lands() then s.forgotten - {s.pending[tid].request} else s.forgotten), tid)
  }

  /** Whatever else changes a Codex and persists it: unmanaging, renewing, starting turns. */
  function Persist(s: Host, id: CodexId, managed: bool, w: Write): Host {
    if id !in s.live then s
    else
      var c := s.live[id].(managed := managed);
      var (rows, ok) := UpsertCodex(s.rows, id, c, w);
      s.(rows := rows, live := if ok then s.live[id := c] else s.live)
  }

  function Forget(s: Host, id: CodexId, remember: Write, destroy: Write): Host {
    if id !in s.live || s.live[id].managed then s
    else
      var c := s.live[id];
      var s' := if remember.Lands() then s.(forgotten := s.forgotten[c.ident := c.owner]) else s;
      if !remember.Written? then s'
      else
        var s'' := if destroy.Lands() then s'.(rows := s'.rows - {id}) else s';
        if destroy.Written? then s''.(live := s''.live - {id}) else s''
  }

  /** registerRestored, then persistState. */
  function Register(s: Host, id: CodexId, c: Codex, w: Write): Host {
    var (rows, ok) := UpsertCodex(s.rows, id, c, w);
    s.(rows := rows, live := s.live[id := c])
  }

  /** The owner restoreLocked settles on for a row. */
  function RowOwner(owners: map<Ident, Owner>, r: Codex, drawn: Owner, bind: Write)
    : (map<Ident, Owner>, Option<Owner>)
  {
    if r.owner == 0 then EnsureOwner(owners, r.ident, drawn, bind)
    else
      var (owners', ok) := BindOwner(owners, r.ident, r.owner, bind);
      (owners', if ok then Some(r.owner) else None)
  }

  /** The rest of restoreLocked for a row with its owner. `replacement` is the thread that replaces
      an unmaterialised one. */
  function RestoreAs(s: Host, id: CodexId, r: Codex, replacement: Option<Ident>, move: Write, persist: Write): Host {
    if replacement.None? then Register(s, id, r, persist)
    else
      var (s', ok) := Move(s, r.ident, replacement.value, r.owner, move);
      if ok then Register(s', id, r.(ident := replacement.value), persist) else s'
  }

  function Restore(s: Host, id: CodexId, drawn: Owner, bind: Write, replacement: Option<Ident>, move: Write,
        persist: Write): Host {
    if id !in s.rows then s
    else
      var (owners, owner) := RowOwner(s.owners, s.rows[id], drawn, bind);
      if owner.None? then s.(owners := owners)
      else RestoreAs(s.(owners := owners), id, s.rows[id].(owner := owner.value), replacement, move, persist)
  }

  datatype Action =
    | DoCreate(tid: nat, ident: Ident, drawn: Owner, w: Write)
    | DoBeginImport(tid: nat, request: Ident)
    | DoResolve(tid: nat, ident: Ident, drawn: Owner, w: Write)
    | DoSave(tid: nat, id: CodexId, w: Write)
    | DoEndImport(tid: nat, w: Write)
    | DoPersist(id: CodexId, managed: bool, w: Write)
    | DoForget(id: CodexId, remember: Write, destroy: Write)
    | DoRestore(id: CodexId, drawn: Owner, bind: Write, replacement: Option<Ident>, move: Write, persist: Write)
    | Crash

  /** newOpaqueID draws an owner that no session has yet. */
  predicate Admissible(s: Host, a: Action) {
    (a.DoCreate? || a.DoResolve? || a.DoRestore?) ==> a.drawn != 0 && a.drawn !in s.owners.Values
  }

  function Step(s: Host, a: Action): Host {
    if !Admissible(s, a) then s else
    match a
    case DoCreate(tid, ident, drawn, w) => Create(s, tid, ident, drawn, w)
    case DoBeginImport(tid, request) => BeginImport(s, tid, request)
    case DoResolve(tid, ident, drawn, w) => Resolve(s, tid, ident, drawn, w)
    case DoSave(tid, id, w) => Save(s, tid, id, w)
    case DoEndImport(tid, w) => EndImport(s, tid, w)
    case DoPersist(id, managed, w) => Persist(s, id, managed, w)
    case DoForget(id, remember, destroy) => Forget(s, id, remember, destroy)
    case DoRestore(id, drawn, bind, replacement, move, persist) =>
      Restore(s, id, drawn, bind, replacement, move, persist)
    case Crash => s.(live := map[], pending := map[])
  }

  function Run(s: Host, actions: seq<Action>): Host {
    if actions == [] then s else Step(Run(s, actions[..|actions| - 1]), actions[|actions| - 1])
  }

  // --------------------------------------------- the owner of a live Codex

  ghost predicate Extends(owners: map<Ident, Owner>, owners': map<Ident, Owner>) {
    forall i :: i in owners ==> i in owners' && owners'[i] == owners[i]
  }

  predicate OwnedBy(owners: map<Ident, Owner>, ident: Ident, owner: Owner) {
    owner != 0 && ident in owners && owners[ident] == owner
  }

  ghost predicate NonEmpty(owners: map<Ident, Owner>) {
    forall i :: i in owners ==> owners[i] != 0
  }

  ghost predicate LiveOwned(owners: map<Ident, Owner>, live: map<CodexId, Codex>) {
    forall id :: id in live ==> OwnedBy(owners, live[id].ident, live[id].owner)
  }

  predicate PendingOwned(owners: map<Ident, Owner>, p: Pending) {
    p.Owned? ==> OwnedBy(owners, p.ident, p.owner)
  }

  ghost predicate AllPendingOwned(owners: map<Ident, Owner>, pending: map<nat, Pending>) {
    forall t :: t in pending ==> PendingOwned(owners, pending[t])
  }

  /** What the process holds in memory agrees with the owner table. It holds whatever the
      database contained when the process started. */
  ghost predicate LiveInv(s: Host) {
    NonEmpty(s.owners) && LiveOwned(s.owners, s.live) && AllPendingOwned(s.owners, s.pending)
  }

  lemma Inserted(owners: map<Ident, Owner>, ident: Ident, owner: Owner, w: Write)
    requires NonEmpty(owners) && owner != 0
    ensures NonEmpty(Insert(owners, ident, owner, w)) && Extends(owners, Insert(owners, ident, owner, w))
    ensures w.Written? ==> ident in Insert(owners, ident, owner, w)
  {
  }

  /** A grown owner table still covers what it covered. */
  lemma Grown(s: Host, owners: map<Ident, Owner>, edges: set<Edge>)
    requires LiveInv(s) && NonEmpty(owners) && Extends(s.owners, owners)
    ensures LiveInv(s.(owners := owners, edges := edges))
  {
  }

  lemma PendingSet(s: Host, tid: nat, p: Pending)
    requires LiveInv(s) && PendingOwned(s.owners, p)
    ensures LiveInv(s.(pending := s.pending[tid := p])) && LiveInv(Drop(s, tid))
  {
    assert LiveInv(Drop(s, tid));
  }

  lemma LiveSet(s: Host, id: CodexId, c: Codex, rows: map<CodexId, Codex>)
    requires LiveInv(s) && OwnedBy(s.owners, c.ident, c.owner)
    ensures LiveInv(s.(rows := rows, live := s.live[id := c]))
  {
  }

  lemma CreateKeepsLive(s: Host, tid: nat, ident: Ident, drawn: Owner, w: Write)
    requires LiveInv(s) && drawn != 0
    ensures LiveInv(Create(s, tid, ident, drawn, w)) && Extends(s.owners, Create(s, tid, ident, drawn, w).owners)
  {
    var owners := Insert(s.owners, ident, drawn, w);
    Inserted(s.owners, ident, drawn, w);
    Grown(s, owners, s.edges);
    if w.Written? {
      PendingSet(s.(owners := owners), tid, Owned(None, ident, owners[ident]));
    }
  }

  lemma ResolveFirstKeepsLive(s: Host, tid: nat, resumed: Option<Ident>, ident: Ident, drawn: Owner, w: Write)
    requires LiveInv(s) && drawn != 0
    ensures var s' := ResolveFirst(s, tid, resumed, ident, drawn, w); LiveInv(s') && Extends(s.owners, s'.owners)
  {
    var owners := Insert(s.owners, ident, drawn, w);
    Inserted(s.owners, ident, drawn, w);
    Grown(s, owners, s.edges);
    PendingSet(s.(owners := owners), tid, if w.Written? then Owned(resumed, ident, owners[ident]) else Saved(ident));
  }

  lemma MoveKeepsLive(s: Host, from: Ident, to: Ident, owner: Owner, w: Write)
    requires LiveInv(s) && owner != 0
    ensures var (s', ok) := Move(s, from, to, owner, w);
      LiveInv(s') && Extends(s.owners, s'.owners) && (ok ==> OwnedBy(s'.owners, to, owner))
  {
    Inserted(s.owners, to, owner, w);
    Grown(s, Insert(s.owners, to, owner, w), s.edges + {Edge(from, to)});
  }

  lemma ResolveKeepsLive(s: Host, tid: nat, ident: Ident, drawn: Owner, w: Write)
    requires LiveInv(s) && drawn != 0
    ensures LiveInv(Resolve(s, tid, ident, drawn, w)) && Extends(s.owners, Resolve(s, tid, ident, drawn, w).owners)
  {
    if tid in s.pending && s.pending[tid].Looked? {
      var Looked(request, forgotten) := s.pending[tid];
      if forgotten.None? || forgotten.value == 0 {
        ResolveFirstKeepsLive(s, tid, if forgotten.Some? then Some(request) else None, ident, drawn, w);
      } else {
        MoveKeepsLive(s, request, ident, forgotten.value, w);
        var (s', ok) := Move(s, request, ident, forgotten.value, w);
        PendingSet(s', tid, if ok then Owned(Some(request), ident, forgotten.value) else Saved(ident));
      }
    }
  }

  lemma SaveKeepsLive(s: Host, tid: nat, id: CodexId, w: Write)
    requires LiveInv(s)
    ensures LiveInv(Save(s, tid, id, w)) && Save(s, tid, id, w).owners == s.owners
  {
    if tid in s.pending && s.pending[tid].Owned? && id !in s.used {
      var Owned(resumed, ident, owner) := s.pending[tid];
      assert PendingOwned(s.owners, s.pending[tid]);
      var c := Codex(ident, owner, true);
      var (rows, ok) := UpsertCodex(s.rows, id, c, w);
      LiveSet(s, id, c, rows);
      var s' := s.(rows := rows, used := s.used + {id}, live := if ok then s.live[id := c] else s.live);
      assert LiveInv(s');
      PendingSet(s', tid, Saved(if resumed.Some? then resumed.value else ident));
    }
  }

  lemma RegisterKeepsLive(s: Host, id: CodexId, c: Codex, w: Write)
    requires LiveInv(s) && OwnedBy(s.owners, c.ident, c.owner)
    ensures LiveInv(Register(s, id, c, w)) && Register(s, id, c, w).owners == s.owners
  {
    LiveSet(s, id, c, UpsertCodex(s.rows, id, c, w).0);
  }

  lemma PersistKeepsLive(s: Host, id: CodexId, managed: bool, w: Write)
    requires LiveInv(s)
    ensures LiveInv(Persist(s, id, managed, w)) && Persist(s, id, managed, w).owners == s.owners
  {
    if id in s.live {
      var c := s.live[id].(managed := managed);
      LiveSet(s, id, c, UpsertCodex(s.rows, id, c, w).0);
    }
  }

  lemma ForgetKeepsLive(s: Host, id: CodexId, remember: Write, destroy: Write)
    requires LiveInv(s)
    ensures LiveInv(Forget(s, id, remember, destroy)) && Forget(s, id, remember, destroy).owners == s.owners
  {
  }

  lemma RestoreAsKeepsLive(s: Host, id: CodexId, r: Codex, replacement: Option<Ident>, move: Write, persist: Write)
    requires LiveInv(s) && OwnedBy(s.owners, r.ident, r.owner)
    ensures var s' := RestoreAs(s, id, r, replacement, move, persist); LiveInv(s') && Extends(s.owners, s'.owners)
  {
    if replacement.None? {
      RegisterKeepsLive(s, id, r, persist);
    } else {
      var (s', ok) := Move(s, r.ident, replacement.value, r.owner, move);
      MoveKeepsLive(s, r.ident, replacement.value, r.owner, move);
      if ok {
        RegisterKeepsLive(s', id, r.(ident := replacement.value), persist);
      }
    }
  }

  lemma RowOwnerOwns(owners: map<Ident, Owner>, r: Codex, drawn: Owner, bind: Write)
    requires NonEmpty(owners) && drawn != 0
    ensures var (owners', owner) := RowOwner(owners, r, drawn, bind);
      NonEmpty(owners') && Extends(owners, owners') && (owner.Some? ==> OwnedBy(owners', r.ident, owner.value))
  {
    Inserted(owners, r.ident, if r.owner == 0 then drawn else r.owner, bind);
  }

  lemma RestoreKeepsLive(s: Host, id: CodexId, drawn: Owner, bind: Write, replacement: Option<Ident>, move: Write,
        persist: Write)
    requires LiveInv(s) && drawn != 0
    ensures var s' := Restore(s, id, drawn, bind, replacement, move, persist);
      LiveInv(s') && Extends(s.owners, s'.owners)
  {
    if id in s.rows {
      var (owners, owner) := RowOwner(s.owners, s.rows[id], drawn, bind);
      RowOwnerOwns(s.owners, s.rows[id], drawn, bind);
      Grown(s, owners, s.edges);
      if owner.Some? {
        RestoreAsKeepsLive(s.(owners := owners), id, s.rows[id].(owner := owner.value), replacement, move, persist);
      }
    }
  }

  lemma StepKeepsLive(s: Host, a: Action)
    requires LiveInv(s)
    ensures LiveInv(Step(s, a)) && Extends(s.owners, Step(s, a).owners)
  {
    if Admissible(s, a) {
      match a
      case DoCreate(tid, ident, drawn, w) => CreateKeepsLive(s, tid, ident, drawn, w);
      case DoBeginImport(_, _) =>
      case DoResolve(tid, ident, drawn, w) => ResolveKeepsLive(s, tid, ident, drawn, w);
      case DoSave(tid, id, w) => SaveKeepsLive(s, tid, id, w);
      case DoEndImport(_, _) =>
      case DoPersist(id, managed, w) => PersistKeepsLive(s, id, managed, w);
      case DoForget(id, remember, destroy) => ForgetKeepsLive(s, id, remember, destroy);
      case DoRestore(id, drawn, bind, replacement, move, persist) =>
        RestoreKeepsLive(s, id, drawn, bind, replacement, move, persist);
      case Crash =>
    }
  }

  /** The owner of a session is written once, and every Codex in memory has the owner of its
      native session: from any database, after any run. */
  lemma {:induction false} LiveOwnerIsRecorded(s: Host, actions: seq<Action>)
    requires LiveInv(s)
    ensures LiveInv(Run(s, actions)) && Extends(s.owners, Run(s, actions).owners)
  {
    if actions != [] {
      LiveOwnerIsRecorded(s, actions[..|actions| - 1]);
      StepKeepsLive(Run(s, actions[..|actions| - 1]), actions[|actions| - 1]);
    }
  }

  // ----------------------------------------------------------------- lineages

  /** `path` goes from session to session along lineage moves, in either direction. */
  ghost predicate IsPath(edges: set<Edge>, path: seq<Ident>) {
    && 0 < |path|
    && forall i :: 0 <= i < |path| - 1 ==> Edge(path[i], path[i + 1]) in edges || Edge(path[i + 1], path[i]) in edges
  }

  ghost predicate Joins(edges: set<Edge>, path: seq<Ident>, a: Ident, b: Ident) {
    IsPath(edges, path) && path[0] == a && path[|path| - 1] == b
  }

  /** Two native sessions belong to one lineage. */
  ghost predicate SameLineage(edges: set<Edge>, a: Ident, b: Ident) {
    exists path :: Joins(edges, path, a, b)
  }

  ghost predicate EdgesInv(owners: map<Ident, Owner>, edges: set<Edge>) {
    forall e :: e in edges ==> e.from in owners && e.to in owners && owners[e.from] == owners[e.to]
  }

  /** Sessions with one owner are joined by lineage moves. */
  ghost predicate OwnersInv(owners: map<Ident, Owner>, edges: set<Edge>) {
    forall a, b :: a in owners && b in owners && owners[a] == owners[b] ==> SameLineage(edges, a, b)
  }

  predicate LookedOwned(owners: map<Ident, Owner>, p: Pending) {
    p.Looked? && p.forgotten.Some? ==> OwnedBy(owners, p.request, p.forgotten.value)
  }

  ghost predicate ForgottenOwned(owners: map<Ident, Owner>, forgotten: map<Ident, Owner>) {
    forall i :: i in forgotten ==> OwnedBy(owners, i, forgotten[i])
  }

  /** Rows, forgotten sessions and what imports have read of them agree with the owner table. */
  ghost predicate RecordsInv(s: Host) {
    && LiveOwned(s.owners, s.rows) && ForgottenOwned(s.owners, s.forgotten)
    && (forall t :: t in s.pending ==> LookedOwned(s.owners, s.pending[t]))
  }

  ghost predicate IdsInv(s: Host) {
    && s.rows.Keys <= s.used && s.live.Keys <= s.used
    && (forall id :: id in s.rows && id in s.live ==> s.rows[id].owner == s.live[id].owner)
  }

  ghost predicate LineageInv(s: Host) {
    EdgesInv(s.owners, s.edges) && OwnersInv(s.owners, s.edges)
  }

  ghost predicate Inv(s: Host) {
    LiveInv(s) && RecordsInv(s) && IdsInv(s) && LineageInv(s)
  }

  lemma Widen(edges: set<Edge>, edges': set<Edge>, a: Ident, b: Ident)
    requires SameLineage(edges, a, b) && edges <= edges'
    ensures SameLineage(edges', a, b)
  {
    var path :| Joins(edges, path, a, b);
    assert Joins(edges', path, a, b);
  }

  lemma Alone(edges: set<Edge>, a: Ident)
    ensures SameLineage(edges, a, a)
  {
    assert Joins(edges, [a], a, a);
  }

  lemma Flip(edges: set<Edge>, a: Ident, b: Ident)
    requires SameLineage(edges, a, b)
    ensures SameLineage(edges, b, a)
  {
    var path :| Joins(edges, path, a, b);
    var back := seq(|path|, i requires 0 <= i < |path| => path[|path| - 1 - i]);
    forall i | 0 <= i < |back| - 1 ensures Edge(back[i], back[i + 1]) in edges || Edge(back[i + 1], back[i]) in edges {
      var j := |path| - 2 - i;
      assert back[i] == path[j + 1] && back[i + 1] == path[j];
    }
    assert Joins(edges, back, b, a);
  }

  lemma Extend(edges: set<Edge>, a: Ident, b: Ident, c: Ident)
    requires SameLineage(edges, a, b) && Edge(b, c) in edges
    ensures SameLineage(edges, a, c)
  {
    var path :| Joins(edges, path, a, b);
    assert Joins(edges, path + [c], a, c);
  }

  /** A session with an owner of its own starts a lineage of its own. */
  lemma EnsureKeeps(owners: map<Ident, Owner>, edges: set<Edge>, ident: Ident, drawn: Owner, w: Write)
    requires EdgesInv(owners, edges) && OwnersInv(owners, edges) && drawn !in owners.Values
    ensures var owners' := EnsureOwner(owners, ident, drawn, w).0; EdgesInv(owners', edges) && OwnersInv(owners', edges)
  {
    Alone(edges, ident);
    assert forall i :: i in owners ==> owners[i] in owners.Values;
  }

  /** A session that takes over a lineage joins it, or keeps the one it is in. */
  lemma MoveKeeps(s: Host, from: Ident, to: Ident, owner: Owner, w: Write)
    requires EdgesInv(s.owners, s.edges) && OwnersInv(s.owners, s.edges) && OwnedBy(s.owners, from, owner)
    ensures var s' := Move(s, from, to, owner, w).0;
      EdgesInv(s'.owners, s'.edges) && OwnersInv(s'.owners, s'.edges) && Extends(s.owners, s'.owners)
  {
    var s' := Move(s, from, to, owner, w).0;
    forall a, b | a in s'.owners && b in s'.owners && s'.owners[a] == s'.owners[b] ensures SameLineage(s'.edges, a, b) {
      if a in s.owners && b in s.owners {
        Widen(s.edges, s'.edges, a, b);
      } else {
        ReachesNew(s, from, to, owner, s', if a in s.owners then a else from);
        ReachesNew(s, from, to, owner, s', if b in s.owners then b else from);
        Alone(s'.edges, to);
        if b in s.owners {
          Flip(s'.edges, b, to);
        }
      }
    }
  }

  lemma ReachesNew(s: Host, from: Ident, to: Ident, owner: Owner, s': Host, a: Ident)
    requires OwnersInv(s.owners, s.edges) && OwnedBy(s.owners, from, owner)
    requires s'.edges == s.edges + {Edge(from, to)} && OwnedBy(s.owners, a, owner)
    ensures SameLineage(s'.edges, a, to)
  {
    Widen(s.edges, s'.edges, a, from);
    Extend(s'.edges, a, from, to);
  }

  // Lineages change only where the owner table does.

  lemma ResolveKeepsLineage(s: Host, tid: nat, ident: Ident, drawn: Owner, w: Write)
    requires LineageInv(s) && RecordsInv(s) && drawn !in s.owners.Values
    ensures LineageInv(Resolve(s, tid, ident, drawn, w))
  {
    EnsureKeeps(s.owners, s.edges, ident, drawn, w);
    if tid in s.pending && s.pending[tid].Looked? && s.pending[tid].forgotten.Some? {
      assert LookedOwned(s.owners, s.pending[tid]);
      MoveKeeps(s, s.pending[tid].request, ident, s.pending[tid].forgotten.value, w);
    }
  }

  lemma SameOwnerTable(s: Host, a: Action)
    requires a.DoBeginImport? || a.DoSave? || a.DoEndImport? || a.DoPersist? || a.DoForget? || a.Crash?
    ensures Step(s, a).owners == s.owners && Step(s, a).edges == s.edges
  {
  }

  lemma StepKeepsLineage(s: Host, a: Action)
    requires Inv(s)
    ensures LineageInv(Step(s, a))
  {
    if Admissible(s, a) {
      match a
      case DoCreate(_, ident, drawn, w) => EnsureKeeps(s.owners, s.edges, ident, drawn, w);
      case DoResolve(tid, ident, drawn, w) => ResolveKeepsLineage(s, tid, ident, drawn, w);
      case DoRestore(id, drawn, bind, replacement, move, persist) =>
        RestoreKeepsLineage(s, id, drawn, bind, replacement, move, persist);
      case _ => SameOwnerTable(s, a);
    }
  }

  /** The row's own owner is already bound, so restoring binds at most a replacement. */
  lemma RestoreIs(s: Host, id: CodexId, drawn: Owner, bind: Write, replacement: Option<Ident>, move: Write,
        persist: Write)
    requires RecordsInv(s) && id in s.rows
    ensures Restore(s, id, drawn, bind, replacement, move, persist) ==
            if bind.Written? then RestoreAs(s, id, s.rows[id], replacement, move, persist) else s
  {
    assert OwnedBy(s.owners, s.rows[id].ident, s.rows[id].owner);
    assert s.(owners := s.owners) == s;
  }

  lemma RestoreKeepsLineage(s: Host, id: CodexId, drawn: Owner, bind: Write, replacement: Option<Ident>, move: Write,
        persist: Write)
    requires Inv(s)
    ensures LineageInv(Restore(s, id, drawn, bind, replacement, move, persist))
  {
    if id in s.rows {
      RestoreIs(s, id, drawn, bind, replacement, move, persist);
      if replacement.Some? {
        MoveKeeps(s, s.rows[id].ident, replacement.value, s.rows[id].owner, move);
      }
    }
  }

  // Records stay covered as the owner table grows.

  lemma RecordsGrown(s: Host, owners: map<Ident, Owner>, edges: set<Edge>)
    requires RecordsInv(s) && Extends(s.owners, owners)
    ensures RecordsInv(s.(owners := owners, edges := edges))
  {
  }

  lemma RecordsPending(s: Host, tid: nat, p: Pending)
    requires RecordsInv(s) && LookedOwned(s.owners, p)
    ensures RecordsInv(s.(pending := s.pending[tid := p])) && RecordsInv(Drop(s, tid))
  {
    assert RecordsInv(Drop(s, tid));
  }

  lemma RecordsUpsert(s: Host, id: CodexId, c: Codex, w: Write)
    requires RecordsInv(s) && OwnedBy(s.owners, c.ident, c.owner)
    ensures RecordsInv(s.(rows := UpsertCodex(s.rows, id, c, w).0))
  {
  }

  lemma ResolveKeepsRecords(s: Host, tid: nat, ident: Ident, drawn: Owner, w: Write)
    requires Inv(s) && drawn != 0
    ensures RecordsInv(Resolve(s, tid, ident, drawn, w))
  {
    if tid in s.pending && s.pending[tid].Looked? {
      var Looked(request, forgotten) := s.pending[tid];
      var offered := if forgotten.Some? && forgotten.value != 0 then forgotten.value else drawn;
      var s' := Resolve(s, tid, ident, drawn, w);
      Inserted(s.owners, ident, offered, w);
      RecordsGrown(s, s'.owners, s'.edges);
      RecordsPending(s.(owners := s'.owners, edges := s'.edges), tid,
                     if tid in s'.pending then s'.pending[tid] else Saved(ident));
    }
  }

  lemma SaveKeepsRecords(s: Host, tid: nat, id: CodexId, w: Write)
    requires Inv(s)
    ensures RecordsInv(Save(s, tid, id, w))
  {
    if tid in s.pending && s.pending[tid].Owned? && id !in s.used {
      var Owned(resumed, ident, owner) := s.pending[tid];
      assert PendingOwned(s.owners, s.pending[tid]);
      RecordsUpsert(s, id, Codex(ident, owner, true), w);
      RecordsPending(s.(rows := Save(s, tid, id, w).rows), tid, Saved(if resumed.Some? then resumed.value else ident));
    }
  }

  lemma RestoreAsKeepsRecords(s: Host, id: CodexId, r: Codex, replacement: Option<Ident>, move: Write, persist: Write)
    requires LiveInv(s) && RecordsInv(s) && OwnedBy(s.owners, r.ident, r.owner)
    ensures RecordsInv(RestoreAs(s, id, r, replacement, move, persist))
  {
    if replacement.None? {
      RecordsUpsert(s, id, r, persist);
    } else {
      var (s', ok) := Move(s, r.ident, replacement.value, r.owner, move);
      MoveKeepsLive(s, r.ident, replacement.value, r.owner, move);
      RecordsGrown(s, s'.owners, s'.edges);
      if ok {
        RecordsUpsert(s', id, r.(ident := replacement.value), persist);
      }
    }
  }

  lemma ForgetKeepsRecords(s: Host, id: CodexId, remember: Write, destroy: Write)
    requires Inv(s)
    ensures RecordsInv(Forget(s, id, remember, destroy))
  {
    if id in s.live && !s.live[id].managed {
      var s' := Forget(s, id, remember, destroy);
      assert OwnedBy(s.owners, s.live[id].ident, s.live[id].owner);
      assert ForgottenOwned(s.owners, s'.forgotten);
      assert LiveOwned(s.owners, s'.rows);
    }
  }

  lemma CreateKeepsRecords(s: Host, tid: nat, ident: Ident, drawn: Owner, w: Write)
    requires LiveInv(s) && RecordsInv(s) && drawn != 0
    ensures RecordsInv(Create(s, tid, ident, drawn, w))
  {
    var s' := Create(s, tid, ident, drawn, w);
    CreateKeepsLive(s, tid, ident, drawn, w);
    RecordsGrown(s, s'.owners, s.edges);
    RecordsPending(s.(owners := s'.owners), tid, if tid in s'.pending then s'.pending[tid] else Saved(ident));
  }

  lemma RestoreKeepsRecords(s: Host, id: CodexId, drawn: Owner, bind: Write, replacement: Option<Ident>, move: Write,
        persist: Write)
    requires LiveInv(s) && RecordsInv(s)
    ensures RecordsInv(Restore(s, id, drawn, bind, replacement, move, persist))
  {
    if id in s.rows {
      RestoreIs(s, id, drawn, bind, replacement, move, persist);
      assert OwnedBy(s.owners, s.rows[id].ident, s.rows[id].owner);
      RestoreAsKeepsRecords(s, id, s.rows[id], replacement, move, persist);
    }
  }

  lemma StepKeepsRecords(s: Host, a: Action)
    requires Inv(s)
    ensures RecordsInv(Step(s, a))
  {
    if Admissible(s, a) {
      match a
      case DoCreate(tid, ident, drawn, w) => CreateKeepsRecords(s, tid, ident, drawn, w);
      case DoBeginImport(_, _) =>
      case DoResolve(tid, ident, drawn, w) => ResolveKeepsRecords(s, tid, ident, drawn, w);
      case DoSave(tid, id, w) => SaveKeepsRecords(s, tid, id, w);
      case DoEndImport(_, _) =>
      case DoPersist(id, managed, w) =>
        if id in s.live {
          RecordsUpsert(s, id, s.live[id].(managed := managed), w);
        }
      case DoForget(id, remember, destroy) => ForgetKeepsRecords(s, id, remember, destroy);
      case DoRestore(id, drawn, bind, replacement, move, persist) =>
        RestoreKeepsRecords(s, id, drawn, bind, replacement, move, persist);
      case Crash =>
    }
  }

  /** The owner of a Codex, loaded or not. */
  function OwnerOf(s: Host, id: CodexId): Option<Owner> {
    if id in s.live then Some(s.live[id].owner) else if id in s.rows then Some(s.rows[id].owner) else None
  }

  ghost predicate SameOwners(s: Host, s': Host) {
    && s.used <= s'.used
    && forall id :: id in s.used ==> OwnerOf(s', id).None? || OwnerOf(s', id) == OwnerOf(s, id)
  }

  /** A new id, stored or not, loaded or not. */
  lemma NewIdKeepsIds(s: Host, s': Host, id: CodexId, c: Codex)
    requires IdsInv(s) && id !in s.used && s'.used == s.used + {id}
    requires s'.rows == s.rows || (s'.rows == s.rows[id := c] && !Taken(s.rows, id, c.ident))
    requires s'.live == s.live || (s'.live == s.live[id := c] && s'.rows == s.rows[id := c])
    ensures IdsInv(s') && SameOwners(s, s')
  {
  }

  lemma SaveKeepsIds(s: Host, tid: nat, id: CodexId, w: Write)
    requires IdsInv(s)
    ensures IdsInv(Save(s, tid, id, w)) && SameOwners(s, Save(s, tid, id, w))
  {
    if tid in s.pending && s.pending[tid].Owned? && id !in s.used {
      NewIdKeepsIds(s, Save(s, tid, id, w), id, Codex(s.pending[tid].ident, s.pending[tid].owner, true));
    }
  }

  lemma PersistKeepsIds(s: Host, id: CodexId, managed: bool, w: Write)
    requires IdsInv(s)
    ensures IdsInv(Persist(s, id, managed, w)) && SameOwners(s, Persist(s, id, managed, w))
  {
  }

  lemma RegisterKeepsIds(s: Host, id: CodexId, c: Codex, w: Write)
    requires IdsInv(s) && id in s.rows && c.owner == s.rows[id].owner
    ensures IdsInv(Register(s, id, c, w)) && SameOwners(s, Register(s, id, c, w))
  {
  }

  lemma ForgetKeepsIds(s: Host, id: CodexId, remember: Write, destroy: Write)
    requires IdsInv(s)
    ensures IdsInv(Forget(s, id, remember, destroy)) && SameOwners(s, Forget(s, id, remember, destroy))
  {
  }

  lemma RestoreAsKeepsIds(s: Host, id: CodexId, r: Codex, replacement: Option<Ident>, move: Write, persist: Write)
    requires IdsInv(s) && id in s.rows && s.rows[id].owner == r.owner
    ensures var s' := RestoreAs(s, id, r, replacement, move, persist); IdsInv(s') && SameOwners(s, s')
  {
    if replacement.None? {
      RegisterKeepsIds(s, id, r, persist);
    } else {
      var (s', ok) := Move(s, r.ident, replacement.value, r.owner, move);
      QuietKeepsIds(s, s');
      RegisterKeepsIds(s', id, r.(ident := replacement.value), persist);
    }
  }

  /** A step that touches no Codex, or drops them all from memory. */
  lemma QuietKeepsIds(s: Host, s': Host)
    requires IdsInv(s) && s'.rows == s.rows && s'.used == s.used && (s'.live == s.live || s'.live == map[])
    ensures IdsInv(s') && SameOwners(s, s')
  {
  }

  predicate SameCodexes(s: Host, s': Host) {
    s'.rows == s.rows && s'.used == s.used && s'.live == s.live
  }

  lemma CreateLeavesCodexes(s: Host, tid: nat, ident: Ident, drawn: Owner, w: Write)
    ensures SameCodexes(s, Create(s, tid, ident, drawn, w))
  {
  }

  lemma ResolveFirstLeavesCodexes(s: Host, tid: nat, resumed: Option<Ident>, ident: Ident, drawn: Owner, w: Write)
    ensures SameCodexes(s, ResolveFirst(s, tid, resumed, ident, drawn, w))
  {
  }

  lemma MoveLeavesCodexes(s: Host, from: Ident, to: Ident, owner: Owner, w: Write)
    ensures SameCodexes(s, Move(s, from, to, owner, w).0)
  {
  }

  lemma ResolveLeavesCodexes(s: Host, tid: nat, ident: Ident, drawn: Owner, w: Write)
    ensures SameCodexes(s, Resolve(s, tid, ident, drawn, w))
  {
    if tid in s.pending && s.pending[tid].Looked? {
      var Looked(request, forgotten) := s.pending[tid];
      if forgotten.None? || forgotten.value == 0 {
        ResolveFirstLeavesCodexes(s, tid, if forgotten.Some? then Some(request) else None, ident, drawn, w);
      } else {
        MoveLeavesCodexes(s, request, ident, forgotten.value, w);
      }
    }
  }

  predicate Quiet(s: Host, a: Action) {
    a.DoCreate? || a.DoBeginImport? || a.DoResolve? || a.DoEndImport? || a.Crash? || !Admissible(s, a)
  }

  lemma LeavesCodexes(s: Host, a: Action)
    requires Quiet(s, a)
    ensures SameCodexes(s, Step(s, a)) ||
      (a.Crash? && SameCodexes(s, Step(s, a).(live := s.live)) && Step(s, a).live == map[])
  {
    if Admissible(s, a) {
      match a
      case DoCreate(tid, ident, drawn, w) => CreateLeavesCodexes(s, tid, ident, drawn, w);
      case DoResolve(tid, ident, drawn, w) => ResolveLeavesCodexes(s, tid, ident, drawn, w);
      case _ =>
    }
  }

  lemma StepKeepsIds(s: Host, a: Action)
    requires Inv(s)
    ensures IdsInv(Step(s, a)) && SameOwners(s, Step(s, a))
  {
    if Quiet(s, a) {
      LeavesCodexes(s, a);
      QuietKeepsIds(s, Step(s, a));
    } else {
      match a
      case DoSave(tid, id, w) => SaveKeepsIds(s, tid, id, w);
      case DoPersist(id, managed, w) => PersistKeepsIds(s, id, managed, w);
      case DoForget(id, remember, destroy) => ForgetKeepsIds(s, id, remember, destroy);
      case DoRestore(id, drawn, bind, replacement, move, persist) =>
        QuietKeepsIds(s, s);
        if id in s.rows {
          RestoreIs(s, id, drawn, bind, replacement, move, persist);
          RestoreAsKeepsIds(s, id, s.rows[id], replacement, move, persist);
        }
    }
  }

  lemma StepKeeps(s: Host, a: Action)
    requires Inv(s)
    ensures Inv(Step(s, a)) && SameOwners(s, Step(s, a))
  {
    StepKeepsLive(s, a);
    StepKeepsRecords(s, a);
    StepKeepsIds(s, a);
    StepKeepsLineage(s, a);
  }

  lemma {:induction false} RunKeeps(s: Host, actions: seq<Action>)
    requires Inv(s)
    ensures Inv(Run(s, actions))
  {
    if actions != [] {
      RunKeeps(s, actions[..|actions| - 1]);
      StepKeeps(Run(s, actions[..|actions| - 1]), actions[|actions| - 1]);
    }
  }

  // ------------------------------------------------------------- main results

  const EMPTY: Host := Host(map[], map[], map[], map[], map[], {}, {})

  lemma {:induction false} PathKeepsOwner(owners: map<Ident, Owner>, edges: set<Edge>, path: seq<Ident>)
    requires EdgesInv(owners, edges) && IsPath(edges, path) && path[0] in owners
    ensures path[|path| - 1] in owners && owners[path[|path| - 1]] == owners[path[0]]
  {
    if |path| > 1 {
      PathKeepsOwner(owners, edges, path[..|path| - 1]);
      var last := |path| - 2;
      assert Edge(path[last], path[last + 1]) in edges || Edge(path[last + 1], path[last]) in edges;
    }
  }

  /** After any run, two sessions have the same owner exactly when the Host moved a lineage from
      one to the other: forgetting, importing, replacing and restarting never split a lineage and
      never merge two. */
  lemma OwnerIsTheLineage(actions: seq<Action>, a: Ident, b: Ident)
    requires a in Run(EMPTY, actions).owners && b in Run(EMPTY, actions).owners
    ensures var s := Run(EMPTY, actions); s.owners[a] == s.owners[b] <==> SameLineage(s.edges, a, b)
  {
    RunKeeps(EMPTY, actions);
    var s := Run(EMPTY, actions);
    if SameLineage(s.edges, a, b) {
      var path :| Joins(s.edges, path, a, b);
      PathKeepsOwner(s.owners, s.edges, path);
    }
  }

  /** A Codex never changes owner, though its native session may change. */
  lemma {:induction false} CodexKeepsOwner(s: Host, actions: seq<Action>)
    requires Inv(s)
    ensures SameOwners(s, Run(s, actions))
  {
    if actions != [] {
      CodexKeepsOwner(s, actions[..|actions| - 1]);
      RunKeeps(s, actions[..|actions| - 1]);
      StepKeeps(Run(s, actions[..|actions| - 1]), actions[|actions| - 1]);
    }
  }

  /** Taking over a lineage succeeds only if the new session had no owner or this one; otherwise
      the call fails and the table is as before. */
  lemma MoveConflictsOrCarries(s: Host, from: Ident, to: Ident, owner: Owner, w: Write)
    ensures var (s', ok) := Move(s, from, to, owner, w);
      && (ok <==> w.Written? && (to !in s.owners || s.owners[to] == owner))
      && (ok ==> s'.owners == s.owners[to := owner])
      && (to in s.owners ==> s'.owners == s.owners)
  {
  }
}
