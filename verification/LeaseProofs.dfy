/** What every run of the management lease keeps, and exactly when it warns twice, revives a Codex or
    lets memory and the lease columns drift apart unnoticed. */
module LeaseProofs {
  import opened Common
  import opened Lease

  // ----------------------------------------- deadlines and management states

  ghost predicate Distinct(s: seq<int>) {
    forall i, j :: 0 <= i < j < |s| ==> s[i] != s[j]
  }

  predicate TupleOk(management: Management, deadline: int) {
    if management.Unmanaged? then deadline == 0 else deadline > 0
  }

  ghost predicate ViewOk(v: View) {
    TupleOk(v.management, v.deadline) && Distinct(v.warnings)
  }

  ghost predicate RowOk(r: Row) {
    TupleOk(r.management, r.deadline) && ViewOk(r.view) && (r.view.management.Unmanaged? ==> r.management.Unmanaged?)
  }

  /** Holds in every run, whatever is adopted. */
  ghost predicate Inv(h: Host) {
    && 0 < h.clock && RowOk(h.row)
    && (h.memory.Some? ==>
          && ViewOk(h.memory.value.view)
          && (h.memory.value.view.management.Unmanaged? ==> h.row.management.Unmanaged?))
  }

  /** The row was written whole, with this view. */
  predicate Holding(r: Row, v: View) {
    r.view == v && r.management == v.management && r.deadline == v.deadline
  }

  /** Where row and memory come from after a change, whatever failed on the way. */
  lemma ChangeLeaves(h: Host, original: Memory, next: Memory, warn: bool, w: Weather)
    requires h.memory == Some(original)
    ensures var h' := Change(h, original, next, warn, w);
      && h'.clock == h.clock
      && (h'.row == h.row || Holding(h'.row, next.view) || Holding(h'.row, original.view))
      && (h'.memory.Some? ==>
            h'.memory.value.view == original.view || (h'.memory.value.view == next.view && Holding(h'.row, next.view)))
  {
  }

  lemma ChangeKeeps(h: Host, original: Memory, next: Memory, warn: bool, w: Weather)
    requires Inv(h) && h.memory == Some(original) && !original.view.management.Unmanaged? && ViewOk(next.view)
    ensures Inv(Change(h, original, next, warn, w))
  {
    ChangeLeaves(h, original, next, warn, w);
  }

  lemma WarnedOk(m: Memory)
    requires ViewOk(m.view) && !m.view.management.Unmanaged?
    ensures ViewOk(Warned(m).view)
  {
  }

  lemma RenewKeeps(h: Host, c: Config, w: Weather)
    requires Inv(h)
    ensures Inv(Renew(h, c, w))
  {
    if Manages(h) {
      ChangeKeeps(h, h.memory.value, Renewed(h.memory.value, h.clock + c.lease), false, w);
    }
  }

  lemma UnmanageKeeps(h: Host, w: Weather)
    requires Inv(h)
    ensures Inv(UnmanageManually(h, w))
  {
    if Manages(h) {
      ChangeKeeps(h, h.memory.value, Released(h.memory.value), false, w);
    }
  }

  lemma SweepKeeps(h: Host, c: Config, w: Weather, sweeper: bool)
    requires Inv(h)
    ensures Inv(SweepBy(h, c, w, sweeper))
  {
    var next := Swept(h, c);
    if next.Some? {
      WarnedOk(h.memory.value);
      ChangeKeeps(h, h.memory.value, next.value, Warns(h.memory.value, next.value), w);
    }
  }

  lemma SetRunningKeeps(h: Host, c: Config, turnId: Id, dropWarnings: bool, w: Weather)
    requires Inv(h)
    ensures Inv(SetRunning(h, c, turnId, dropWarnings, w))
  {
  }

  lemma TouchKeeps(h: Host, x: Activity, first: bool, persist: Io)
    requires Inv(h)
    ensures Inv(Touch(h, x, first, persist))
  {
  }

  lemma CommitWorkspaceKeeps(h: Host, publish: Io, readBack: bool)
    requires Inv(h)
    ensures Inv(CommitWorkspace(h, publish, readBack))
  {
  }

  lemma RestoreKeeps(h: Host, status: Status, persist: Io)
    requires Inv(h)
    ensures Inv(Restore(h, status, persist))
  {
  }

  lemma StepKeeps(h: Host, c: Config, a: Action)
    requires Inv(h)
    ensures Inv(Step(h, c, a))
  {
    match a
    case DoRenew(w) => RenewKeeps(h, c, w);
    case DoUnmanage(w) => UnmanageKeeps(h, w);
    case DoSweep(w, sweeper) => SweepKeeps(h, c, w, sweeper);
    case DoSetRunning(turnId, drop, w) => SetRunningKeeps(h, c, turnId, drop, w);
    case DoTouch(x, first, persist) => TouchKeeps(h, x, first, persist);
    case DoCommitWorkspace(publish, readBack) => CommitWorkspaceKeeps(h, publish, readBack);
    case DoRestore(status, persist) => RestoreKeeps(h, status, persist);
    case Crash =>
    case Tick(_) =>
  }

  lemma {:induction false} RunKeeps(h: Host, c: Config, actions: seq<Action>)
    requires Inv(h)
    ensures Inv(Run(h, c, actions))
  {
    if actions != [] {
      RunKeeps(h, c, actions[..|actions| - 1]);
      StepKeeps(Run(h, c, actions[..|actions| - 1]), c, actions[|actions| - 1]);
    }
  }

  /** After any run a deadline is positive exactly while the Codex is managed, in memory, in the
      columns and in the stored view; and no view holds two warnings for one deadline. */
  lemma DeadlineMatchesManagement(c: Config, clock: int, actions: seq<Action>)
    requires 0 < clock
    ensures var h := Run(Created(c, clock), c, actions);
      && TupleOk(h.row.management, h.row.deadline) && ViewOk(h.row.view)
      && (h.memory.Some? ==> ViewOk(h.memory.value.view))
  {
    RunKeeps(Created(c, clock), c, actions);
  }

  // ---------------------------------------------------------------- warnings

  /** A deadline that was warned about is marked. */
  predicate Marked(deadline: int, marker: int, raised: seq<int>) {
    deadline in raised ==> marker == deadline
  }

  ghost predicate RaisedOk(raised: seq<int>, clock: int, c: Config) {
    Distinct(raised) && forall d :: d in raised ==> 0 < d && d - c.warningBefore <= clock
  }

  ghost predicate WarnInv(h: Host, c: Config) {
    && 0 < h.clock && c.warningBefore < c.lease && RaisedOk(h.raised, h.clock, c)
    && Marked(h.row.deadline, h.row.marker, h.raised)
    && (h.memory.Some? ==> Marked(h.memory.value.view.deadline, h.memory.value.marker, h.raised))
  }

  /** A new deadline lies beyond every deadline warned about so far. */
  lemma NewDeadlineIsNew(h: Host, c: Config)
    requires WarnInv(h, c)
    ensures h.clock + c.lease !in h.raised && 0 !in h.raised
  {
  }

  ghost predicate MayWarn(h: Host, c: Config, next: Memory) {
    && next.view.deadline !in h.raised && next.marker == next.view.deadline
    && 0 < next.view.deadline <= h.clock + c.warningBefore
  }

  /** A state is as good as its row and its memory. */
  lemma Assemble(h: Host, c: Config, h': Host)
    requires WarnInv(h, c) && h'.clock == h.clock && h'.raised == h.raised
    requires Marked(h'.row.deadline, h'.row.marker, h.raised)
    requires h'.memory.Some? ==> Marked(h'.memory.value.view.deadline, h'.memory.value.marker, h.raised)
    ensures WarnInv(h', c)
  {
  }

  lemma RaisedWarns(h: Host, c: Config, next: Memory)
    requires WarnInv(h, c) && h.memory == Some(next) && h.row == Stored(next) && MayWarn(h, c, next)
    ensures WarnInv(h.(raised := h.raised + [next.view.deadline], row := h.row.(view := next.view)), c)
  {
  }

  lemma RaiseWarningWarns(h: Host, c: Config, next: Memory, w: Weather)
    requires WarnInv(h, c) && h.memory == Some(next) && h.row == Stored(next) && MayWarn(h, c, next)
    ensures WarnInv(RaiseWarning(h, next, w), c)
  {
    var h1 := if w.second.Lands()
              then h.(raised := h.raised + [next.view.deadline], row := h.row.(view := next.view)) else h;
    RaisedWarns(h, c, next);
    Assemble(h1, c, RaiseWarning(h, next, w));
  }

  lemma ChangeWarns(h: Host, c: Config, original: Memory, next: Memory, warn: bool, w: Weather)
    requires WarnInv(h, c) && h.memory == Some(original)
    requires Marked(next.view.deadline, next.marker, h.raised) && (warn ==> MayWarn(h, c, next))
    ensures WarnInv(Change(h, original, next, warn, w), c)
  {
    if w.persist.Ok? && w.publish.Ok? && warn {
      var h1 := h.(memory := Some(next), row := Stored(next));
      Assemble(h, c, h1);
      RaiseWarningWarns(h1, c, next, w);
    } else {
      Assemble(h, c, Change(h, original, next, warn, w));
    }
  }

  lemma RenewWarns(h: Host, c: Config, w: Weather)
    requires WarnInv(h, c)
    ensures WarnInv(Renew(h, c, w), c)
  {
    NewDeadlineIsNew(h, c);
    if Manages(h) {
      ChangeWarns(h, c, h.memory.value, Renewed(h.memory.value, h.clock + c.lease), false, w);
    }
  }

  lemma UnmanageWarns(h: Host, c: Config, w: Weather)
    requires WarnInv(h, c)
    ensures WarnInv(UnmanageManually(h, w), c)
  {
    NewDeadlineIsNew(h, c);
    if Manages(h) {
      ChangeWarns(h, c, h.memory.value, Released(h.memory.value), false, w);
    }
  }

  lemma SweepWarns(h: Host, c: Config, w: Weather, sweeper: bool)
    requires WarnInv(h, c)
    ensures WarnInv(SweepBy(h, c, w, sweeper), c)
  {
    NewDeadlineIsNew(h, c);
    var next := Swept(h, c);
    if next.Some? {
      ChangeWarns(h, c, h.memory.value, next.value, Warns(h.memory.value, next.value), w);
      Assemble(Sweep(h, c, w), c, SweepBy(h, c, w, sweeper));
    }
  }

  /** commitWorkspaceState takes over the stored view after an unknown commit that was lost. A commit
      that landed stored the view in memory, so taking that over changes nothing. */
  predicate Adopts(a: Action) {
    a.DoCommitWorkspace? && a.publish.UnknownLost? && a.readBack
  }

  /** The stored view's deadline was not warned about, or the marker in memory is for it. */
  predicate Harmless(h: Host) {
    h.memory.Some? ==> Marked(h.row.view.deadline, h.memory.value.marker, h.raised)
  }

  lemma OtherStepWarns(h: Host, c: Config, a: Action)
    requires WarnInv(h, c) && (Adopts(a) ==> Harmless(h))
    requires a.DoSetRunning? || a.DoTouch? || a.DoCommitWorkspace? || a.DoRestore? || a.Crash?
    ensures WarnInv(Step(h, c, a), c)
  {
    NewDeadlineIsNew(h, c);
    Assemble(h, c, Step(h, c, a));
  }

  lemma StepWarns(h: Host, c: Config, a: Action)
    requires WarnInv(h, c) && (Adopts(a) ==> Harmless(h))
    ensures WarnInv(Step(h, c, a), c)
  {
    match a
    case DoRenew(w) => RenewWarns(h, c, w);
    case DoUnmanage(w) => UnmanageWarns(h, c, w);
    case DoSweep(w, sweeper) => SweepWarns(h, c, w, sweeper);
    case Tick(_) =>
    case _ => OtherStepWarns(h, c, a);
  }

  ghost predicate AdoptsHarmlessly(h: Host, c: Config, actions: seq<Action>) {
    forall i :: 0 <= i < |actions| && Adopts(actions[i]) ==> Harmless(Run(h, c, actions[..i]))
  }

  lemma {:induction false} RunWarns(h: Host, c: Config, actions: seq<Action>)
    requires WarnInv(h, c) && AdoptsHarmlessly(h, c, actions)
    ensures WarnInv(Run(h, c, actions), c)
  {
    if actions != [] {
      var earlier := actions[..|actions| - 1];
      assert forall i :: 0 <= i < |earlier| ==> earlier[..i] == actions[..i];
      RunWarns(h, c, earlier);
      StepWarns(Run(h, c, earlier), c, actions[|actions| - 1]);
    }
  }

  /** Whatever fails, is left in doubt or crashes, a lease deadline is warned about at most once, if
      every stored view the workspace sink adopts is harmless when it is adopted. */
  lemma WarnedAtMostOnce(c: Config, clock: int, actions: seq<Action>)
    requires 0 < clock && c.warningBefore < c.lease && AdoptsHarmlessly(Created(c, clock), c, actions)
    ensures Distinct(Run(Created(c, clock), c, actions).raised)
  {
    RunWarns(Created(c, clock), c, actions);
  }

  const CALM: Weather := Weather(Ok, Ok, Ok, Ok, true)

  ghost predicate AdoptsNothing(actions: seq<Action>) {
    forall i :: 0 <= i < |actions| ==> !Adopts(actions[i])
  }

  const BUSY: Action := DoTouch(Activity(Running, NO_ID, false, 0, false), true, Ok)

  /** A marker for another deadline than the one in the view: the next sweep of the busy Codex warns. */
  lemma UnmarkedWarnsAgain(h: Host, c: Config)
    requires Inv(h) && Manages(h)
    requires h.memory.value.view.deadline in h.raised && h.memory.value.marker != h.memory.value.view.deadline
    requires h.memory.value.view.deadline <= h.clock + c.warningBefore
    ensures AdoptsNothing([BUSY, DoSweep(CALM, true)]) && !Distinct(Run(h, c, [BUSY, DoSweep(CALM, true)]).raised)
  {
    var d := h.memory.value.view.deadline;
    var h1 := Step(h, c, BUSY);
    var h2 := Step(h1, c, DoSweep(CALM, true));
    assert h2.raised == h.raised + [d];
    var i :| 0 <= i < |h.raised| && h.raised[i] == d;
    assert h2.raised[i] == h2.raised[|h.raised|];
    RunOfTwo(h, c, BUSY, DoSweep(CALM, true));
  }

  lemma RunOfTwo(h: Host, c: Config, x: Action, y: Action)
    ensures Run(h, c, [x]) == Step(h, c, x) && Run(h, c, [x, y]) == Step(Step(h, c, x), c, y)
  {
    assert [x, y][..1] == [x] && [x][..0] == [];
    assert Run(h, c, []) == h;
    assert Run(h, c, [x]) == Step(h, c, x);
  }

  /** Exactly when adopting the stored view is safe: no later run warns about a deadline twice, short
      of another adoption, if and only if it is harmless in the state before it. */
  lemma AdoptionIsSafeIff(h: Host, c: Config)
    requires Inv(h) && WarnInv(h, c) && h.memory.Some?
    ensures var h' := Step(h, c, DoCommitWorkspace(Io.UnknownLost, true));
      (forall later :: AdoptsNothing(later) ==> Distinct(Run(h', c, later).raised)) <==> Harmless(h)
  {
    var a := DoCommitWorkspace(Io.UnknownLost, true);
    var h' := Step(h, c, a);
    StepKeeps(h, c, a);
    if Harmless(h) {
      StepWarns(h, c, a);
      forall later | AdoptsNothing(later) ensures Distinct(Run(h', c, later).raised) {
        RunWarns(h', c, later);
      }
    } else {
      UnmarkedWarnsAgain(h', c);
    }
  }

  // -------------------------------------------- runs without failing row writes

  /** The write of a row is done or never heard of again, but not reported as an error. */
  predicate Holds(io: Io) {
    io.Ok? || io.Crashes()
  }

  predicate RowWritesHold(a: Action) {
    match a
    case DoRenew(w) => Holds(w.persist) && Holds(w.repair)
    case DoUnmanage(w) => Holds(w.persist) && Holds(w.repair)
    case DoSweep(w, _) => Holds(w.persist) && Holds(w.repair)
    case DoSetRunning(_, _, w) => Holds(w.persist)
    case DoTouch(_, _, persist) => Holds(persist)
    case DoRestore(_, persist) => Holds(persist)
    case _ => true
  }

  /** Memory, lease columns and stored view carry the same lease. */
  predicate Aligned(h: Host) {
    && h.row.view.management == h.row.management && h.row.view.deadline == h.row.deadline
    && (h.memory.Some? ==>
          && h.memory.value.view.management == h.row.management && h.memory.value.view.deadline == h.row.deadline
          && h.memory.value.marker == h.row.marker)
  }

  lemma ChangeAligned(h: Host, original: Memory, next: Memory, warn: bool, w: Weather)
    requires Aligned(h) && h.memory == Some(original) && Holds(w.persist) && Holds(w.repair)
    ensures Aligned(Change(h, original, next, warn, w))
  {
  }

  lemma StaysAligned(h: Host, c: Config, a: Action)
    requires Aligned(h) && RowWritesHold(a)
    ensures Aligned(Step(h, c, a))
  {
    match a
    case DoRenew(w) =>
      if Manages(h) {
        ChangeAligned(h, h.memory.value, Renewed(h.memory.value, h.clock + c.lease), false, w);
      }
    case DoUnmanage(w) =>
      if Manages(h) {
        ChangeAligned(h, h.memory.value, Released(h.memory.value), false, w);
      }
    case DoSweep(w, _) =>
      var next := Swept(h, c);
      if next.Some? {
        ChangeAligned(h, h.memory.value, next.value, Warns(h.memory.value, next.value), w);
      }
    case _ =>
  }

  lemma {:induction false} RunStaysAligned(c: Config, clock: int, actions: seq<Action>)
    requires 0 < clock && c.warningBefore < c.lease
    requires forall i :: 0 <= i < |actions| ==> RowWritesHold(actions[i])
    ensures var h := Run(Created(c, clock), c, actions); Aligned(h) && WarnInv(h, c)
  {
    if actions != [] {
      var earlier := actions[..|actions| - 1];
      RunStaysAligned(c, clock, earlier);
      var h := Run(Created(c, clock), c, earlier);
      StaysAligned(h, c, actions[|actions| - 1]);
      StepWarns(h, c, actions[|actions| - 1]);
    }
  }

  /** If no row write reports an error, then with crashes, failed, unknown and adopted events, memory,
      columns and stored view always carry the same lease, and no deadline is warned about twice. */
  lemma AlignedWhileRowWritesHold(c: Config, clock: int, actions: seq<Action>)
    requires 0 < clock && c.warningBefore < c.lease
    requires forall i :: 0 <= i < |actions| ==> RowWritesHold(actions[i])
    ensures var h := Run(Created(c, clock), c, actions); Aligned(h) && Distinct(h.raised)
  {
    RunStaysAligned(c, clock, actions);
  }

  // -------------------------------------------------------------- unmanaged

  /** The Codex is unmanaged as far as the Host, up or down, is concerned. */
  predicate IsUnmanaged(h: Host) {
    if h.memory.Some? then h.memory.value.view.management.Unmanaged? else h.row.management.Unmanaged?
  }

  ghost predicate StartsNoTurn(actions: seq<Action>) {
    forall i :: 0 <= i < |actions| ==> !actions[i].DoSetRunning?
  }

  lemma StaysUnmanaged(h: Host, c: Config, a: Action)
    requires Inv(h) && IsUnmanaged(h) && h.row.view.management.Unmanaged? && !a.DoSetRunning?
    ensures var h' := Step(h, c, a); IsUnmanaged(h') && h'.row.view.management.Unmanaged?
  {
  }

  lemma {:induction false} RunStaysUnmanaged(h: Host, c: Config, actions: seq<Action>)
    requires Inv(h) && IsUnmanaged(h) && h.row.view.management.Unmanaged? && StartsNoTurn(actions)
    ensures var h' := Run(h, c, actions); IsUnmanaged(h') && h'.row.view.management.Unmanaged?
  {
    if actions != [] {
      var earlier := actions[..|actions| - 1];
      RunStaysUnmanaged(h, c, earlier);
      RunKeeps(h, c, earlier);
      StaysUnmanaged(Run(h, c, earlier), c, actions[|actions| - 1]);
    }
  }

  const ADOPT: Action := DoCommitWorkspace(Io.UnknownLost, true)

  /** An unmanaged Codex stays unmanaged through every run that starts no turn, exactly when its stored
      view is unmanaged as well: sweeps, renewals, responses, crashes and restarts never revive it, and
      adopting a stored view that still says managed is the only thing that does. */
  lemma OnlyRunningRevivesIff(h: Host, c: Config)
    requires Inv(h) && IsUnmanaged(h)
    ensures (forall actions :: StartsNoTurn(actions) ==> IsUnmanaged(Run(h, c, actions))) <==>
      h.row.view.management.Unmanaged?
  {
    if h.row.view.management.Unmanaged? {
      forall actions | StartsNoTurn(actions) ensures IsUnmanaged(Run(h, c, actions)) {
        RunStaysUnmanaged(h, c, actions);
      }
    } else if h.memory.Some? {
      RunOfTwo(h, c, ADOPT, ADOPT);
      assert StartsNoTurn([ADOPT]) && !IsUnmanaged(Run(h, c, [ADOPT]));
    } else {
      var restore := DoRestore(Idle, Fail);
      RunOfTwo(h, c, restore, ADOPT);
      assert StartsNoTurn([restore, ADOPT]) && !IsUnmanaged(Run(h, c, [restore, ADOPT]));
    }
  }

  /** The Host lets go of a Codex on its own only when the lease has run out and nothing is going
      on; neither memory nor the row becomes unmanaged otherwise. */
  lemma AutomaticUnmanageIsSafe(h: Host, c: Config, w: Weather, sweeper: bool)
    requires Manages(h)
    ensures var h' := SweepBy(h, c, w, sweeper);
      var v := h.memory.value.view;
      (h'.memory.Some? && IsUnmanaged(h')) || (h'.row.management.Unmanaged? && !h.row.management.Unmanaged?) ==>
        && h.clock >= v.deadline && v.status.Idle?
        && v.activeTurnId == NO_ID && !v.hasActiveTurn && v.pendingRequests == 0
  {
    if !Expires(h, h.memory.value.view) {
      assert !Warned(h.memory.value).view.management.Unmanaged?;
    }
  }

  /** Starting a turn always revives the Codex, unless the process goes down. */
  lemma RunningRevives(h: Host, c: Config, turnId: Id, drop: bool, w: Weather)
    requires h.memory.Some? && SetRunning(h, c, turnId, drop, w).memory.Some?
    ensures var m := SetRunning(h, c, turnId, drop, w).memory.value;
      m.view.management.Managed? && m.view.deadline == h.clock + c.lease && m.marker == 0 &&
        m.view.activeTurnId == turnId
  {
  }

  // --------------------------------------------------------- memory and columns

  /** Memory and row carry the same management state, deadline and warning marker. */
  predicate Synced(h: Host) {
    h.memory.Some? ==> SameLease(h.memory.value, h.row)
  }

  predicate SameLease(m: Memory, r: Row) {
    m.view.management == r.management && m.view.deadline == r.deadline && m.marker == r.marker
  }

  predicate InStep(h: Host) {
    Synced(h) || h.degraded
  }

  /** The steps that leave memory and columns apart without a word: a renewal, a manual unmanaging or
      the sweep of a restore whose row write reports an error although it landed, and the adoption of
      a stored view with another lease than the columns. */
  predicate Parts(h: Host, c: Config, a: Action) {
    && h.memory.Some? && !h.degraded
    && match a
       case DoRenew(w) => Manages(h) && w.persist.UnknownLanded? &&
         !SameLease(h.memory.value, Stored(Renewed(h.memory.value, h.clock + c.lease)))
       case DoUnmanage(w) => Manages(h) && !ManualUnmanageBusy(h.memory.value.view) && w.persist.UnknownLanded?
       case DoSweep(w, sweeper) => !sweeper && Swept(h, c).Some? && w.persist.UnknownLanded?
       case DoCommitWorkspace(_, _) =>
         Adopts(a) && !(h.row.view.management == h.row.management && h.row.view.deadline == h.row.deadline)
       case _ => false
  }

  lemma ChangeParts(h: Host, original: Memory, next: Memory, warn: bool, w: Weather)
    requires h.memory == Some(original) && InStep(h)
    ensures var h' := Change(h, original, next, warn, w);
      InStep(h') <==> h.degraded || !w.persist.UnknownLanded? || SameLease(original, Stored(next))
  {
  }

  lemma SweepParts(h: Host, c: Config, w: Weather, sweeper: bool)
    requires InStep(h)
    ensures InStep(SweepBy(h, c, w, sweeper)) <==> !Parts(h, c, DoSweep(w, sweeper))
  {
    var next := Swept(h, c);
    if next.Some? {
      ChangeParts(h, h.memory.value, next.value, Warns(h.memory.value, next.value), w);
    }
  }

  /** Exactly when a call leaves memory and columns apart without noting a degradation. */
  lemma PartsIff(h: Host, c: Config, a: Action)
    requires InStep(h)
    ensures InStep(Step(h, c, a)) <==> !Parts(h, c, a)
  {
    match a
    case DoRenew(w) =>
      if Manages(h) {
        ChangeParts(h, h.memory.value, Renewed(h.memory.value, h.clock + c.lease), false, w);
      }
    case DoUnmanage(w) =>
      if Manages(h) {
        ChangeParts(h, h.memory.value, Released(h.memory.value), false, w);
      }
    case DoSweep(w, sweeper) => SweepParts(h, c, w, sweeper);
    case _ =>
  }

  ghost predicate NeverParts(h: Host, c: Config, actions: seq<Action>) {
    forall i :: 0 <= i < |actions| ==> !Parts(Run(h, c, actions[..i]), c, actions[i])
  }

  /** After any run without such a step, memory agrees with the row or the Host reports itself
      degraded; and after a run that ends with such a first step, it does not. */
  lemma {:induction false} SyncedOrDegraded(c: Config, clock: int, actions: seq<Action>)
    requires NeverParts(Created(c, clock), c, actions)
    ensures InStep(Run(Created(c, clock), c, actions))
    ensures forall a :: Parts(Run(Created(c, clock), c, actions), c, a) ==>
      !InStep(Step(Run(Created(c, clock), c, actions), c, a))
  {
    var h0 := Created(c, clock);
    if actions != [] {
      var earlier := actions[..|actions| - 1];
      assert forall i :: 0 <= i < |earlier| ==> earlier[..i] == actions[..i];
      SyncedOrDegraded(c, clock, earlier);
      PartsIff(Run(h0, c, earlier), c, actions[|actions| - 1]);
    }
    forall a | Parts(Run(h0, c, actions), c, a) ensures !InStep(Step(Run(h0, c, actions), c, a)) {
      PartsIff(Run(h0, c, actions), c, a);
    }
  }

  // ------------------------------------------------------------ failing runs

  function Storm(persist: Io): Weather {
    Weather(persist, Ok, Ok, Ok, true)
  }

  /** The warning window must be shorter than the lease: otherwise a sweep, a renewal in the same
      millisecond and a second sweep warn twice about one deadline. */
  lemma WindowMustBeShorter(c: Config, clock: int)
    requires 0 < clock && 0 < c.lease <= c.warningBefore
    ensures var h0 := Created(c, clock);
      var h1 := Step(h0, c, DoSweep(CALM, true));
      var h2 := Step(h1, c, DoRenew(CALM));
      Step(h2, c, DoSweep(CALM, true)).raised == [clock + c.lease, clock + c.lease]
  {
    var h1 := Step(Created(c, clock), c, DoSweep(CALM, true));
    assert h1.raised == [clock + c.lease] && h1.clock == clock;
    var h2 := Step(h1, c, DoRenew(CALM));
    assert h2.raised == h1.raised && h2.memory.value.marker == 0;
  }

  /** A warned Codex starts a turn whose row write is lost, and the workspace sink then adopts the
      stored view: its deadline is warned about again. */
  lemma AdoptionWarnsTwice(c: Config, clock: int, turnId: Id)
    requires 0 < clock && 0 < c.warningBefore < c.lease
    ensures var d := clock + c.lease;
      var h1 := Step(Created(c, clock), c, Tick(c.lease - c.warningBefore));
      var h2 := Step(h1, c, DoSweep(CALM, true));
      var h3 := Step(h2, c, DoSetRunning(turnId, false, Storm(Fail)));
      var h4 := Step(h3, c, ADOPT);
      !Harmless(h3) && Step(h4, c, DoSweep(CALM, true)).raised == [d, d]
  {
    var h1 := Step(Created(c, clock), c, Tick(c.lease - c.warningBefore));
    var h2 := Step(h1, c, DoSweep(CALM, true));
    assert h2.raised == [clock + c.lease] && h2.row.view.deadline == clock + c.lease;
    var h3 := Step(h2, c, DoSetRunning(turnId, false, Storm(Fail)));
    assert h3.row == h2.row && h3.memory.value.marker == 0;
    var h4 := Step(h3, c, ADOPT);
    assert h4.memory.value.view == h2.row.view;
  }

  /** A turn on an unmanaged Codex whose row write is lost, a workspace event, a crash, a restart whose
      row write is lost, and an adoption: the Codex is managed again, no turn having been started since
      it was unmanaged, and memory and columns disagree without a word. */
  lemma AdoptionRevives(h: Host, c: Config, turnId: Id)
    requires Inv(h) && h.memory.Some? && IsUnmanaged(h)
    ensures var h1 := Step(h, c, DoSetRunning(turnId, false, Storm(Fail)));
      var h2 := Step(h1, c, DoCommitWorkspace(Ok, true));
      var h3 := Step(h2, c, Crash);
      var h4 := Step(h3, c, DoRestore(Idle, Fail));
      var h5 := Step(h4, c, ADOPT);
      && IsUnmanaged(h3) && IsUnmanaged(h4) && InStep(h4)
      && !IsUnmanaged(h5) && !InStep(h5)
  {
  }

  /** One renewal whose row write is reported as failed although it landed. */
  lemma RenewalParts(c: Config, clock: int)
    requires 0 < clock
    ensures !InStep(Step(Step(Created(c, clock), c, Tick(1)), c, DoRenew(Storm(Io.UnknownLanded))))
  {
  }
}
