/** A Codex whose row was deleted behind an error (DeleteCodex landed, its commit failed), so that its
    stream outlives it (Forget in internal/activity/store.go), and what a later row write makes of it. */
module DeletedLogs {
  import opened Common
  import opened Activity
  import opened ActivityProofs

  // ------------------------------------------------------------ numbers given out again

  /** The event of the next commit after Forget, with a row write in between or not. */
  function NextEvent(c: Cell, capacity: nat, rewritten: Option<Raw>, body: Body, view: Body): Option<Event> {
    var c1 := if rewritten.Some? then Persist(c, rewritten.value) else c;
    Publish(c1, capacity, body, view, Committed, true, true).event
  }

  lemma NextEventAfter(c: Cell, capacity: nat, destroy: Write, rewritten: Option<Raw>, body: Body, view: Body)
    requires c.stream.Some? && !c.stream.value.needsReload && c.row.Some?
    ensures NextEvent(Destroyed(Terminated(c, c.stream.value), destroy), capacity, rewritten, body, view) ==
            if !destroy.Lands() then Some(Event(c.row.value.head + 1, body))
            else if rewritten.Some? then Some(Event(1, body)) else None
  {
    var c' := Terminated(c, c.stream.value);
    assert c'.row == c.row && c'.stream.Some? && !c'.stream.value.needsReload;
  }

  /** Forget's terminal event carries head + 1. The next commit gives that number out again exactly when
      the deletion of the durable state did not land, or the row was written again and the deleted log
      had no events. */
  lemma ForgetNumberReused(
      c: Cell, capacity: nat, loads: bool, destroy: Write, rewritten: Option<Raw>, body: Body, view: Body)
    requires Reachable(c, capacity) && Ensure(c, loads).Ready? && c.row.Some?
    ensures var terminal := Ensure(c, loads).cell.stream.value.head + 1;
      var next := NextEvent(Forget(c, loads, destroy), capacity, rewritten, body, view);
      next.Some? && next.value.number == terminal <==> !destroy.Lands() || (rewritten.Some? && c.log == [])
  {
    ReachableInv(c, capacity);
    ReadyHead(c, capacity, loads);
    NextEventAfter(Ensure(c, loads).cell, capacity, destroy, rewritten, body, view);
  }

  // ------------------------------------------------------------------- mixed logs

  /** A stream that is ready, holding these events up to `head`. */
  predicate Holds(c: Cell, head: nat, events: seq<Event>) {
    && c.stream.Some? && !c.stream.value.needsReload && c.stream.value.head == head && c.stream.value.events == events
    && !c.stream.value.replayUnsafe
  }

  lemma FirstEvent(capacity: nat, body: Body, view: Body)
    requires capacity >= 2
    ensures var c := Publish(EMPTY, capacity, body, view, Committed, true, true).cell;
      Inv(c, capacity) && Holds(c, 1, [Event(1, body)]) && c.row.Some? && c.log == [Event(1, body)]
  {
    assert Init(EMPTY);
    PublishKeeps(EMPTY, capacity, body, view, Committed, true, true);
  }

  lemma ForgottenBehindError(c: Cell, capacity: nat, head: nat, events: seq<Event>)
    requires Inv(c, capacity) && Holds(c, head, events) && c.row.Some? && head != 0
    ensures var c' := Forget(c, true, FailedLanded);
      Inv(c', capacity) && Mixes(c') && Holds(c', head, events) && c'.row.None? && c'.log == []
  {
    ForgetKeeps(c, capacity, true, FailedLanded);
  }

  lemma NextEventOverOldBuffer(c: Cell, capacity: nat, body: Body, view: Body, raw: Raw, earlier: Event)
    requires capacity >= 2 && Holds(c, 1, [earlier]) && c.row.None? && c.log == []
    ensures var c' := Publish(Persist(c, raw), capacity, body, view, Committed, true, true).cell;
      && Holds(c', 1, [earlier, Event(1, body)])
      && c'.log == [Event(1, body)] && c'.row.Some? && c'.row.value.head == 1
  {
  }

  lemma WatchFromStart(c: Cell, first: Event, second: Event)
    requires Holds(c, 1, [first, second]) && first.number == 1 && second.number == 1
    ensures var reply := Watch(c, Some(0), 1, true).reply;
      reply.Some? && reply.value.mode == Resumed(1) && reply.value.replay == [first, second]
  {
    var events := [first, second];
    assert ReplayScan(events, 0, 1, 1, 1);
    assert events[..1] == [first] && [first][..0] == [];
    assert Select([], 1, 1) == [] && Select([first], 1, 1) == [first];
  }

  /** The logs do get mixed: an event, a deletion that lands behind an error, a row write, another event.
      A watch from the start is RESUMED with two events of the same number, one of them deleted. */
  lemma DeletedLogIsReplayed(capacity: nat, first: Body, second: Body, view: Body, raw: Raw)
    requires capacity >= 2
    ensures var c1 := Publish(EMPTY, capacity, first, view, Committed, true, true).cell;
      var c2 := Forget(c1, true, FailedLanded);
      var c4 := Publish(Persist(c2, raw), capacity, second, view, Committed, true, true).cell;
      var reply := Watch(c4, Some(0), 1, true).reply;
      && Inv(c2, capacity) && Mixes(c2)
      && c4.log == [Event(1, second)] && c4.row.Some? && c4.row.value.head == 1
      && reply.Some? && reply.value.mode == Resumed(1) && reply.value.replay == [Event(1, first), Event(1, second)]
  {
    var c1 := Publish(EMPTY, capacity, first, view, Committed, true, true).cell;
    var c2 := Forget(c1, true, FailedLanded);
    FirstEvent(capacity, first, view);
    ForgottenBehindError(c1, capacity, 1, [Event(1, first)]);
    NextEventOverOldBuffer(c2, capacity, second, view, raw, Event(1, first));
    WatchFromStart(Publish(Persist(c2, raw), capacity, second, view, Committed, true, true).cell,
                   Event(1, first), Event(1, second));
  }

  // ------------------------------------------------------------------------ repair

  /** One channel when a row appears over an empty log. */
  lemma HeldTurnsLive(ch: Channel, past: seq<Era>, registered: bool)
    requires HeldInv(ch, past, [], {}, registered, false)
    ensures HeldInv(ch, past, [], {}, registered, true) <==> !(registered && ch.from + |ch.replay| != 0)
  {
  }

  /** The row is written, and read again: an empty stream over it, with the same watchers. */
  predicate Reread(c: Cell, c': Cell) {
    && c.stream.Some? && c'.stream.Some? && c'.row.Some? && c'.row.value.head == 0
    && c'.channels == c.channels && c'.past == c.past && c'.log == [] && c'.hidden == {} && c'.streams == c.streams
    && c'.stream == Some(c.stream.value.(head := 0, view := Decode(c'.row.value.raw), era := |c.past|, events := [],
                                         replayUnsafe := true, safeReplayFloor := None, needsReload := false))
  }

  lemma ReloadedAfterWrite(c: Cell, raw: Raw)
    requires c.row.None? && c.stream.Some? && c.log == [] && c.hidden == {}
    ensures Reread(c, ReloadDurable(Persist(c, raw), true))
  {
  }

  lemma RereadStream(c: Cell, c': Cell, capacity: nat)
    requires Inv(c, capacity) && Reread(c, c')
    ensures DurableInv(c') && StreamInv(c', c'.stream.value, capacity)
    ensures forall k :: Registered(c', k) == Registered(c, k)
  {
  }

  lemma RereadChannels(c: Cell, capacity: nat, c': Cell)
    requires Inv(c, capacity) && c.row.None? && c.hidden == {} && Reread(c, c')
    ensures ChannelsInv(c') <==> forall k :: !HasSeen(c, k)
  {
    forall k | k in c.channels
      ensures HeldInv(c.channels[k], c.past, [], {}, Registered(c, k), true) <==> !HasSeen(c, k)
    {
      HeldTurnsLive(c.channels[k], c.past, Registered(c, k));
    }
    assert forall k :: Registered(c', k) == Registered(c, k);
  }

  /** What repairs a Codex whose logs would be mixed: reading the row again, unless a watcher follows the
      deleted log. */
  lemma ReloadRepairsIff(c: Cell, capacity: nat, raw: Raw)
    requires Inv(c, capacity) && Mixes(c)
    ensures Inv(ReloadDurable(Persist(c, raw), true), capacity) <==> forall k :: !HasSeen(c, k)
  {
    assert c.hidden == {};
    var c' := ReloadDurable(Persist(c, raw), true);
    ReloadedAfterWrite(c, raw);
    RereadStream(c, c', capacity);
    RereadChannels(c, capacity, c');
  }

  // ------------------------------------------------------- durable state of all runs

  lemma EnsureDurable(c: Cell, loads: bool)
    requires DurableInv(c) && Ensure(c, loads).Ready?
    ensures var c1 := Ensure(c, loads).cell;
      c1.stream.Some? && DurableInv(c1) && c1.row == c.row && c1.log == c.log
  {
  }

  lemma PublishDurable(c: Cell, capacity: nat, body: Body, view: Body, outcome: Commit, loads: bool, reloads: bool)
    requires DurableInv(c)
    ensures DurableInv(Publish(c, capacity, body, view, outcome, loads, reloads).cell)
  {
    if Ensure(c, loads).Ready? {
      EnsureDurable(c, loads);
    }
  }

  lemma ForgetDurable(c: Cell, loads: bool, destroy: Write)
    requires DurableInv(c)
    ensures DurableInv(Forget(c, loads, destroy))
  {
    if Ensure(c, loads).Ready? {
      EnsureDurable(c, loads);
    }
  }

  lemma WatchDurable(c: Cell, after: Option<nat>, queue: int, loads: bool)
    requires DurableInv(c)
    ensures DurableInv(Watch(c, after, queue, loads).cell)
  {
    if Ensure(c, loads).Ready? {
      EnsureDurable(c, loads);
    }
  }

  lemma StepDurable(c: Cell, capacity: nat, a: Action)
    requires DurableInv(c)
    ensures DurableInv(Step(c, capacity, a))
  {
    match a
    case DoPublish(body, view, outcome, loads, reloads) =>
      PublishDurable(c, capacity, body, view, outcome, loads, reloads);
    case DoWatch(after, queue, loads) => WatchDurable(c, after, queue, loads);
    case DoForceReset(reason, queue, loads) => WatchDurable(c, None, queue, loads);
    case DoCurrentView(loads) => if Ensure(c, loads).Ready? { EnsureDurable(c, loads); }
    case DoForget(loads, destroy) => ForgetDurable(c, loads, destroy);
    case _ =>
  }

  /** Every run at all, mixed logs included, leaves a durable state that a restarted Host can start from. */
  lemma {:induction false} RestartRepairs(c: Cell, capacity: nat, actions: seq<Action>)
    requires Init(c)
    ensures DurableInv(Run(c, capacity, actions)) && Init(Step(Run(c, capacity, actions), capacity, Restart))
  {
    if actions != [] {
      RestartRepairs(c, capacity, actions[..|actions| - 1]);
      StepDurable(Run(c, capacity, actions[..|actions| - 1]), capacity, actions[|actions| - 1]);
    }
  }
}
