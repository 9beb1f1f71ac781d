/** The in-place form of the lease operations of internal/codex/manager.go: byID's view and
    the warning marker in memory, next to the database row, changed statement by statement
    under commitMu. A write that crashes takes the process down and ends the call. */
module LeaseManager {
  import opened Common
  import L = Lease

  class Manager {
    const config: L.Config
    var up: bool
    var view: L.View
    var marker: int
    var row: L.Row
    var degraded: bool
    var clock: int
    var raised: seq<int>

    function Host(): L.Host
      reads this
    {
      L.Host(if up then Some(L.Memory(view, marker)) else None, row, raised, degraded, clock)
    }

    constructor (c: L.Config, now: int)
      ensures config == c && Host() == L.Created(c, now)
    {
      config, up, marker, raised, degraded, clock := c, true, 0, [], false, now;
      view := L.View(L.Managed, now + c.lease, [], L.Idle, NO_ID, false, 0);
      row := L.Stored(L.Memory(L.View(L.Managed, now + c.lease, [], L.Idle, NO_ID, false, 0), 0));
    }

    /** persistState: writes the given view with the current marker. */
    method PersistState(snapshot: L.View, io: L.Io) returns (ok: bool)
      modifies this`row, this`up, this`degraded
      ensures ok <==> io.Ok?
      ensures degraded == (old(degraded) && !io.Crashes())
      ensures up == (old(up) && !io.Crashes())
      ensures row == if io.Lands() then L.Stored(L.Memory(snapshot, marker)) else old(row)
    {
      if io.Lands() {
        row := L.Row(snapshot.management, snapshot.deadline, marker, snapshot);
      }
      if io.Crashes() {
        up, degraded := false, false;
      }
      ok := io.Ok?;
    }

    method RollbackLifecycleState(original: L.View, oldMarker: int, w: L.Weather)
      requires up
      modifies this
      ensures Host() == L.RollbackState(old(Host()), L.Memory(original, oldMarker), w)
    {
      marker := oldMarker;
      view := original;
      var ok := PersistState(original, w.repair);
      if up && (!ok || !w.reloads) {
        degraded := true;
      }
    }

    method PreserveLifecycleState(snapshot: L.View, newMarker: int, persist: bool, w: L.Weather)
      requires up
      modifies this
      ensures Host() == L.PreserveState(old(Host()), L.Memory(snapshot, newMarker), persist, w)
    {
      marker := newMarker;
      view := snapshot;
      if persist {
        var _ := PersistState(snapshot, w.repair);
        if !up {
          return;
        }
      }
      degraded := true;
    }

    /** The shared tail of renewLease, UnmanageCodex and sweepLease, from persistState on. */
    method Transition(original: L.View, oldMarker: int, snapshot: L.View, newMarker: int, warn: bool, w: L.Weather)
      requires up && view == original && marker == oldMarker
      modifies this
      ensures Host() == L.Change(old(Host()), L.Memory(original, oldMarker), L.Memory(snapshot, newMarker), warn, w)
    {
      marker := newMarker;
      var ok := PersistState(snapshot, w.persist);
      if !ok {
        marker := oldMarker;
        return;
      }
      view := snapshot;
      if w.publish.Crashes() {
        up, degraded := false, false;
        return;
      }
      if w.publish.InDoubt() {
        PreserveLifecycleState(snapshot, if warn then 0 else newMarker, warn, w);
        return;
      }
      if w.publish.Fail? {
        RollbackLifecycleState(original, oldMarker, w);
        return;
      }
      if warn {
        if w.second.Lands() {
          raised := raised + [snapshot.deadline];
          row := row.(view := snapshot);
        }
        if w.second.Crashes() {
          up, degraded := false, false;
        } else if w.second.InDoubt() {
          PreserveLifecycleState(snapshot, newMarker, false, w);
        } else if w.second.Fail? {
          PreserveLifecycleState(snapshot, 0, true, w);
        }
      }
    }

    method RenewLease(w: L.Weather)
      modifies this
      ensures Host() == L.Renew(old(Host()), config, w)
    {
      if !up || view.management.Unmanaged? {
        return;
      }
      Transition(view, marker, view.(management := L.Managed, deadline := clock + config.lease), 0, false, w);
    }

    method UnmanageCodex(w: L.Weather) returns (busy: bool)
      modifies this
      ensures Host() == L.UnmanageManually(old(Host()), w)
      ensures busy ==> Host() == old(Host())
    {
      busy := false;
      if !up || view.management.Unmanaged? {
        return;
      }
      busy := L.ManualUnmanageBusy(view);
      if !busy {
        Transition(view, marker, view.(management := L.Unmanaged, deadline := 0), 0, false, w);
      }
    }

    method SweepLease(w: L.Weather) returns (failed: bool)
      modifies this
      ensures Host() == L.Sweep(old(Host()), config, w)
      ensures failed == L.SweepFails(old(Host()), config, w)
    {
      failed := false;
      if !up || view.management.Unmanaged? || view.deadline <= 0 {
        return;
      }
      var snapshot, newMarker := view, marker;
      var warn, changed := false, false;
      if clock >= view.deadline && L.AutomaticUnmanageSafe(view) {
        snapshot := snapshot.(management := L.Unmanaged, deadline := 0);
        newMarker, changed := 0, true;
      } else if clock >= view.deadline - config.warningBefore {
        if snapshot.management != L.ExpiringSoon {
          snapshot := snapshot.(management := L.ExpiringSoon);
          changed := true;
        }
        if marker != view.deadline {
          warn := true;
          if view.deadline !in snapshot.warnings {
            snapshot := snapshot.(warnings := snapshot.warnings + [view.deadline]);
          }
          newMarker, changed := view.deadline, true;
        }
      }
      if changed {
        failed := !w.persist.Ok? || !w.publish.Ok? || (warn && !w.second.Ok?);
        Transition(view, marker, snapshot, newMarker, warn, w);
      }
    }

    /** One round of RunLeaseSweeper. */
    method SweepAndNote(w: L.Weather)
      modifies this
      ensures Host() == L.SweepBy(old(Host()), config, w, true)
    {
      var failed := SweepLease(w);
      if up && failed {
        degraded := true;
      }
    }

    method SetRunning(turnId: Id, dropWarnings: bool, w: L.Weather)
      modifies this
      ensures Host() == L.SetRunning(old(Host()), config, turnId, dropWarnings, w)
    {
      if !up {
        return;
      }
      var snapshot := view;
      if !snapshot.status.WaitingForApproval? && !snapshot.status.WaitingForUserInput? {
        snapshot := snapshot.(status := L.Running);
      }
      snapshot := snapshot.(activeTurnId := turnId, hasActiveTurn := true);
      snapshot := snapshot.(management := L.Managed, deadline := clock + config.lease);
      if dropWarnings {
        snapshot := snapshot.(warnings := []);
      }
      marker := 0;
      var ok := PersistState(snapshot, w.persist);
      if !up {
        return;
      }
      view := snapshot;
      if !ok {
        degraded := true;
        return;
      }
      if w.publish.Crashes() || (w.publish.Ok? && w.second.Crashes()) {
        up, degraded := false, false;
      } else if !w.publish.Ok? || !w.second.Ok? {
        degraded := true;
      }
    }

    /** commitWorkspaceState from publishEvent on, as far as the lease is concerned. */
    method CommitWorkspaceState(publish: L.Io, readBack: bool)
      modifies this
      ensures Host() == L.CommitWorkspace(old(Host()), publish, readBack)
    {
      if !up {
        return;
      }
      var snapshot := view;
      if publish.Lands() {
        row := row.(view := snapshot);
      }
      if publish.Crashes() {
        up, degraded := false, false;
        return;
      }
      if publish.InDoubt() {
        if readBack {
          view := row.view;
          return;
        }
        degraded := true;
      } else if publish.Fail? {
        degraded := true;
      }
    }
  }
}
