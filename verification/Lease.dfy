/** The management lease of one Codex (internal/codex/manager.go). Every operation holds
    Manager.commitMu, so it is one step here; but it makes several durable writes, and a
    step may fail at, be left in doubt by, or crash around each of them. */
module Lease {
  import opened Common

  datatype Management = Managed | ExpiringSoon | Unmanaged

  datatype Status = Idle | Running | WaitingForApproval | WaitingForUserInput | Interrupting | Errored | Unavailable

  /** The part of a CurrentView the lease reads. `warnings` are the deadlines of the
      MANAGEMENT_EXPIRING_SOON warnings it holds. */
  datatype View = View(
    management: Management, deadline: int, warnings: seq<int>,
    status: Status, activeTurnId: Id, hasActiveTurn: bool, pendingRequests: nat)

  /** byID and warningDeadline. */
  datatype Memory = Memory(view: View, marker: int)

  /** The lease columns of the codexes row, and the CurrentView stored beside them. */
  datatype Row = Row(management: Management, deadline: int, marker: int, view: View)

  /** `memory` is None while the process is down. `raised` is the history of committed
      WarningRaised events, `degraded` the non-empty asyncError. */
  datatype Host = Host(memory: Option<Memory>, row: Row, raised: seq<int>, degraded: bool, clock: int)

  datatype Config = Config(lease: nat, warningBefore: nat)

  /** How one durable write goes. For the row, any error is one the caller cannot tell apart:
      UnknownLanded is an error although the row was written. */
  datatype Io = Ok | Fail | UnknownLanded | UnknownLost | CrashBefore | CrashAfter {
    predicate Crashes() { CrashBefore? || CrashAfter? }
    predicate InDoubt() { UnknownLanded? || UnknownLost? }
    predicate Lands() { Ok? || UnknownLanded? || CrashAfter? }
  }

  /** The writes of one operation: the row, its first event, WarningRaised or the second event,
      the repairing row write, and the reload of the event cache. */
  datatype Weather = Weather(persist: Io, publish: Io, second: Io, repair: Io, reloads: bool)

  function Stored(m: Memory): Row {
    Row(m.view.management, m.view.deadline, m.marker, m.view)
  }

  /** The effect of one row write, whatever its caller is told. */
  function WriteRow(row: Row, m: Memory, io: Io): Row {
    if io.Lands() then Stored(m) else row
  }

  /** The process goes down; asyncError goes with it. */
  function Down(h: Host): Host {
    h.(memory := None, degraded := false)
  }

  function RollbackState(h: Host, original: Memory, w: Weather): Host {
    var h1 := h.(row := WriteRow(h.row, original, w.repair));
    if w.repair.Crashes() then Down(h1)
    else h1.(memory := Some(original), degraded := h.degraded || !w.repair.Ok? || !w.reloads)
  }

  function PreserveState(h: Host, m: Memory, persist: bool, w: Weather): Host {
    if !persist then h.(memory := Some(m), degraded := true)
    else
      var h1 := h.(row := WriteRow(h.row, m, w.repair));
      if w.repair.Crashes() then Down(h1) else h1.(memory := Some(m), degraded := true)
  }

  /** publishEvent of WarningRaised for the deadline in `next`, after CodexUpdated committed. */
  function RaiseWarning(h: Host, next: Memory, w: Weather): Host {
    var h1 := if w.second.Lands()
              then h.(raised := h.raised + [next.view.deadline], row := h.row.(view := next.view)) else h;
    if w.second.Crashes() then Down(h1)
    else if w.second.InDoubt() then PreserveState(h1, next, false, w)
    else if w.second.Fail? then PreserveState(h1, next.(marker := 0), true, w)
    else h1
  }

  /** The common course of renewLease, UnmanageCodex and sweepLease: write the row, publish
      CodexUpdated, and with `warn` publish WarningRaised. */
  function Change(h: Host, original: Memory, next: Memory, warn: bool, w: Weather): Host {
    var h0 := h.(row := WriteRow(h.row, next, w.persist));
    if w.persist.Crashes() then Down(h0)
    else if !w.persist.Ok? then h0
    else
      var h1 := h0.(memory := Some(next));
      if w.publish.Crashes() then Down(h1)
      else if w.publish.InDoubt() then PreserveState(h1, if warn then next.(marker := 0) else next, warn, w)
      else if w.publish.Fail? then RollbackState(h1, original, w)
      else if warn then RaiseWarning(h1, next, w)
      else h1
  }

  predicate ManualUnmanageBusy(v: View) {
    || v.status.Running? || v.status.WaitingForApproval? || v.status.WaitingForUserInput? || v.status.Interrupting?
    || v.activeTurnId != NO_ID || v.hasActiveTurn || v.pendingRequests != 0
  }

  predicate AutomaticUnmanageSafe(v: View) {
    v.status.Idle? && !ManualUnmanageBusy(v)
  }

  /** The Codex is loaded and managed. */
  predicate Manages(h: Host) {
    h.memory.Some? && !h.memory.value.view.management.Unmanaged?
  }

  function Renewed(m: Memory, deadline: int): Memory {
    Memory(m.view.(management := Managed, deadline := deadline), 0)
  }

  function Released(m: Memory): Memory {
    Memory(m.view.(management := Unmanaged, deadline := 0), 0)
  }

  function Renew(h: Host, c: Config, w: Weather): Host {
    if !Manages(h) then h
    else Change(h, h.memory.value, Renewed(h.memory.value, h.clock + c.lease), false, w)
  }

  function UnmanageManually(h: Host, w: Weather): Host {
    if !Manages(h) || ManualUnmanageBusy(h.memory.value.view) then h
    else Change(h, h.memory.value, Released(h.memory.value), false, w)
  }

  predicate Expires(h: Host, v: View) {
    h.clock >= v.deadline && AutomaticUnmanageSafe(v)
  }

  predicate Expiring(h: Host, c: Config, v: View) {
    h.clock >= v.deadline - c.warningBefore
  }

  /** The view sweepLease publishes when it warns or only moves to EXPIRING_SOON. */
  function Warned(m: Memory): Memory {
    var v := m.view.(management := ExpiringSoon);
    if m.marker == m.view.deadline then m.(view := v)
    else Memory(v.(warnings := if v.deadline in v.warnings then v.warnings else v.warnings + [v.deadline]), v.deadline)
  }

  /** What sweepLease sets out to write; None if there is nothing to do. */
  function Swept(h: Host, c: Config): Option<Memory> {
    if !Manages(h) || h.memory.value.view.deadline <= 0 then None
    else
      var m := h.memory.value;
      if Expires(h, m.view) then Some(Released(m))
      else if Expiring(h, c, m.view) &&
        (m.view.management != ExpiringSoon || m.marker != m.view.deadline) then Some(Warned(m))
      else None
  }

  predicate Warns(m: Memory, next: Memory) {
    !next.view.management.Unmanaged? && m.marker != m.view.deadline
  }

  function Sweep(h: Host, c: Config, w: Weather): Host {
    var next := Swept(h, c);
    if next.None? then h else Change(h, h.memory.value, next.value, Warns(h.memory.value, next.value), w)
  }

  /** sweepLease returned an error. */
  predicate SweepFails(h: Host, c: Config, w: Weather) {
    var next := Swept(h, c);
    next.Some? && (!w.persist.Ok? || !w.publish.Ok? || (Warns(h.memory.value, next.value) && !w.second.Ok?))
  }

  /** RunLeaseSweeper notes the error of a sweep; the sweep at the end of Restore does not. */
  function SweepBy(h: Host, c: Config, w: Weather, sweeper: bool): Host {
    var h' := Sweep(h, c, w);
    if sweeper && h'.memory.Some? && SweepFails(h, c, w) then h'.(degraded := true) else h'
  }

  function RunningFrom(m: Memory, turnId: Id, deadline: int, dropWarnings: bool): Memory {
    var v := m.view;
    var waiting := v.status.WaitingForApproval? || v.status.WaitingForUserInput?;
    Memory(View(Managed, deadline, if dropWarnings then [] else v.warnings,
                if waiting then v.status else Running, turnId, true, v.pendingRequests), 0)
  }

  /** setRunning never rolls back: the turn has started upstream. It may drop the management
      warnings to fit the frame. */
  function SetRunning(h: Host, c: Config, turnId: Id, dropWarnings: bool, w: Weather): Host {
    if h.memory.None? then h
    else
      var next := RunningFrom(h.memory.value, turnId, h.clock + c.lease, dropWarnings);
      var h1 := h.(memory := Some(next), row := WriteRow(h.row, next, w.persist));
      if w.persist.Crashes() then Down(h1)
      else if !w.persist.Ok? then h1.(degraded := true)
      else if w.publish.Crashes() then Down(h1)
      else if !w.publish.Ok? then h1.(degraded := true)
      else if w.second.Crashes() then Down(h1)
      else h1.(degraded := h1.degraded || !w.second.Ok?)
  }

  /** What the operations that leave the lease alone do to a view: they change its activity, and may
      drop the management warnings to fit the frame. */
  datatype Activity = Activity(status: Status, turnId: Id, hasTurn: bool, pending: nat, dropWarnings: bool)

  function WithActivity(v: View, x: Activity): View {
    View(v.management, v.deadline, if x.dropWarnings then [] else v.warnings, x.status, x.turnId, x.hasTurn, x.pending)
  }

  /** An operation that rewrites the view and persists it with the lease columns: adapter events and
      resolved requests set memory `first`, renaming and user messages only once the row is written. */
  function Touch(h: Host, x: Activity, first: bool, persist: Io): Host {
    if h.memory.None? then h
    else
      var next := Memory(WithActivity(h.memory.value.view, x), h.memory.value.marker);
      var h1 := h.(row := WriteRow(h.row, next, persist));
      if persist.Crashes() then Down(h1)
      else if first || persist.Ok? then h1.(memory := Some(next))
      else h1
  }

  /** commitWorkspaceState, once it publishes: the event carries the view to the row, but not the lease
      columns. After an unknown outcome the stored view is read back and adopted as it is. */
  function CommitWorkspace(h: Host, publish: Io, readBack: bool): Host {
    if h.memory.None? then h
    else
      var h1 := if publish.Lands() then h.(row := h.row.(view := h.memory.value.view)) else h;
      if publish.Crashes() then Down(h1)
      else if publish.Ok? then h1
      else if publish.InDoubt() && readBack then h1.(memory := Some(h.memory.value.(view := h1.row.view)))
      else h1.(degraded := true)
  }

  /** Restore rebuilds memory from the row: a managed Codex from the columns alone, an unmanaged one
      from the stored view under the columns. */
  function Restore(h: Host, status: Status, persist: Io): Host {
    var v := if h.row.management.Unmanaged? then h.row.view.(management := Unmanaged, deadline := h.row.deadline)
             else View(h.row.management, h.row.deadline, [], status, NO_ID, false, 0);
    var m := Memory(v, h.row.marker);
    var h1 := h.(memory := Some(m), row := WriteRow(h.row, m, persist));
    if persist.Crashes() then Down(h1) else h1
  }

  datatype Action =
    | DoRenew(w: Weather)
    | DoUnmanage(w: Weather)
    | DoSweep(w: Weather, sweeper: bool)
    | DoSetRunning(turnId: Id, dropWarnings: bool, w: Weather)
    | DoTouch(activity: Activity, first: bool, persist: Io)
    | DoCommitWorkspace(publish: Io, readBack: bool)
    | DoRestore(status: Status, persist: Io)
    | Crash
    | Tick(ms: nat)

  function Step(h: Host, c: Config, a: Action): Host {
    match a
    case DoRenew(w) => Renew(h, c, w)
    case DoUnmanage(w) => UnmanageManually(h, w)
    case DoSweep(w, sweeper) => SweepBy(h, c, w, sweeper)
    case DoSetRunning(turnId, drop, w) => SetRunning(h, c, turnId, drop, w)
    case DoTouch(x, first, persist) => Touch(h, x, first, persist)
    case DoCommitWorkspace(publish, readBack) => CommitWorkspace(h, publish, readBack)
    case DoRestore(status, persist) => Restore(h, status, persist)
    case Crash => Down(h)
    case Tick(ms) => h.(clock := h.clock + ms)
  }

  function Run(h: Host, c: Config, actions: seq<Action>): Host {
    if actions == [] then h else Step(Run(h, c, actions[..|actions| - 1]), c, actions[|actions| - 1])
  }

  /** A Codex as saveCodex leaves it. */
  function Created(c: Config, clock: int): Host {
    var m := Memory(View(Managed, clock + c.lease, [], Idle, NO_ID, false, 0), 0);
    Host(Some(m), Stored(m), [], false, clock)
  }
}
