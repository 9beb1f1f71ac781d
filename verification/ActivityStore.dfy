/** The in-place form of internal/activity/store.go for one Codex: its entry in
    Store.codex, updated statement by statement under Store.mu, next to the
    database row that the persistence layer keeps for it. */
module ActivityStore {
  import opened Common
  import opened Activity
  import Proofs = ActivityProofs

  class StreamStore {
    const capacity: nat
    var row: Option<Row>
    var stream: Option<Stream>
    var channels: map<ChannelId, Channel>
    var streams: nat
    // History: nothing below steers a method.
    var log: seq<Event>
    var hidden: set<nat>
    var past: seq<Era>
    var viewStale: bool

    function State(): Cell
      reads this
    {
      Cell(row, stream, channels, log, hidden, past, streams, viewStale)
    }

    ghost predicate Valid()
      reads this
    {
      Proofs.Inv(State(), capacity)
    }

    /** NewStore replaces a non-positive replay capacity by 1024. */
    constructor (replayCapacity: int, stored: Option<Row>, durable: seq<Event>)
      requires Proofs.Numbered(durable)
      requires if stored.Some? then stored.value.head == |durable| else durable == []
      ensures Valid() && Proofs.Init(State())
      ensures capacity == (if replayCapacity <= 0 then 1024 else replayCapacity)
      ensures row == stored && log == durable
    {
      capacity := if replayCapacity <= 0 then 1024 else replayCapacity;
      row, stream, channels, streams := stored, None, map[], 0;
      log, hidden, past, viewStale := durable, {}, [], false;
    }

    method Ensure(loads: bool) returns (ok: bool)
      modifies this
      ensures ok <==> Activity.Ensure(old(State()), loads).Ready?
      ensures State() == if ok then Activity.Ensure(old(State()), loads).cell else old(State())
    {
      if stream.Some? {
        var st := stream.value;
        if st.needsReload {
          if !loads || row.None? {
            return false;
          }
          st := st.(head := row.value.head, view := Decode(row.value.raw), era := |past|);
          st := st.(needsReload := false);
          st := st.(replayUnsafe := true);
          stream, viewStale := Some(st), false;
        }
        return true;
      }
      if !loads || row.None? {
        return false;
      }
      var st := FreshStream(streams).(head := row.value.head, era := |past|);
      match row.value.raw {
        case Stored(v) => st := st.(view := Some(v), replayUnsafe := v.headEventSeq != st.head);
        case Unreadable => st := st.(replayUnsafe := true);
        case Absent => if st.head != 0 { st := st.(replayUnsafe := true); }
      }
      stream, streams, viewStale := Some(st), streams + 1, false;
      return true;
    }

    method ReloadUnsafe(loads: bool)
      requires stream.Some?
      modifies this`stream, this`viewStale
      ensures State() == Reload(old(State()), old(stream.value), loads)
    {
      var st := stream.value.(events := [], replayUnsafe := true, safeReplayFloor := None);
      if loads && row.Some? {
        st := st.(head := row.value.head, view := Decode(row.value.raw), era := |past|, needsReload := false);
        viewStale := false;
      } else {
        st := st.(needsReload := true);
      }
      stream := Some(st);
    }

    method ReloadDurable(loads: bool)
      requires Valid()
      modifies this
      ensures Valid() && State() == Activity.ReloadDurable(old(State()), loads)
    {
      Proofs.ReloadDurableKeeps(State(), capacity, loads);
      if stream.None? {
        stream, streams := Some(FreshStream(streams)), streams + 1;
      }
      ReloadUnsafe(loads);
    }

    method Publish(body: Body, view: Body, outcome: Commit, loads: bool, reloads: bool)
      returns (published: Option<Event>)
      requires Valid()
      modifies this
      ensures Valid()
      ensures State() == Activity.Publish(old(State()), capacity, body, view, outcome, loads, reloads).cell
      ensures published == Activity.Publish(old(State()), capacity, body, view, outcome, loads, reloads).event
    {
      ghost var before := State();
      Proofs.PublishKeeps(before, capacity, body, view, outcome, loads, reloads);
      var ready := Ensure(loads);
      if !ready {
        return None;
      }
      Proofs.EnsureKeeps(before, capacity, loads);
      published := CommitAndBroadcast(body, view, outcome, reloads);
    }

    method CommitAndBroadcast(body: Body, view: Body, outcome: Commit, reloads: bool) returns (published: Option<Event>)
      requires stream.Some? && !stream.value.needsReload
      requires forall id :: id in stream.value.watchers ==> ChannelId(stream.value.serial, id) in channels
      modifies this
      ensures Published(State(), published) ==
              PublishReady(old(State()), old(stream.value), capacity, body, view, outcome, reloads)
    {
      if row.None? || !outcome.Committed? {
        if row.Some? && outcome.Lands() {
          log, hidden := log + [Event(row.value.head + 1, body)], hidden + {row.value.head + 1};
          row := CommitRow(row, view, outcome);
        }
        ReloadUnsafe(reloads);
        return None;
      }
      var n := row.value.head + 1;
      var ev := Event(n, body);
      Deliver(ev, view);
      return Some(ev);
    }

    /** The committed event enters the row, the buffer and the channels. */
    method Deliver(ev: Event, view: Body)
      requires stream.Some? && row.Some? && ev.number == row.value.head + 1
      requires forall id :: id in stream.value.watchers ==> ChannelId(stream.value.serial, id) in channels
      modifies this
      ensures State() == CommitVisible(old(State()), old(stream.value), capacity, ev, view)
    {
      ghost var c1 := State();
      row := CommitRow(row, view, Committed);
      log, viewStale := log + [ev], false;
      var st := stream.value.(head := ev.number, view := Some(View(ev.number, view)));
      st := st.(events := st.events + [ev]);
      if |st.events| > capacity {
        st := st.(events := st.events[|st.events| - capacity..]);
      }
      var watching := BroadcastToWatchers(st.serial, st.watchers, ev);
      assert watching == StillWatching(c1, c1.stream.value);
      stream := Some(st.(watchers := watching));
      assert channels == Broadcast(c1, ev);
    }

    /** Offers the event to every registered watcher, in any order, dropping the slow ones. */
    method BroadcastToWatchers(serial: nat, registered: set<nat>, ev: Event) returns (watchers: set<nat>)
      requires forall id :: id in registered ==> ChannelId(serial, id) in channels
      modifies this`channels
      ensures watchers == set id | id in registered && HasRoom(old(channels)[ChannelId(serial, id)])
      ensures channels == map k | k in old(channels) ::
        if k.stream == serial && k.watcher in registered then Offer(old(channels)[k], ev) else old(channels)[k]
    {
      var todo := registered;
      watchers := registered;
      while todo != {}
        invariant todo <= watchers <= registered
        invariant forall id :: id in registered - todo ==>
          (id in watchers <==> HasRoom(old(channels)[ChannelId(serial, id)]))
        invariant channels.Keys == old(channels).Keys
        invariant forall k :: k in channels ==>
          channels[k] == if k.stream == serial && k.watcher in registered - todo
                         then Offer(old(channels)[k], ev) else old(channels)[k]
        decreases |todo|
      {
        var id :| id in todo;
        todo := todo - {id};
        var k := ChannelId(serial, id);
        if |channels[k].queue| < channels[k].capacity {
          channels := channels[k := Push(channels[k], ev)];
        } else {
          channels := channels[k := CloseSlow(channels[k])];
          watchers := watchers - {id};
        }
      }
    }

    method Watch(after: Option<nat>, queue: int, loads: bool) returns (reply: Option<WatchReply>)
      requires Valid()
      modifies this
      ensures Valid()
      ensures State() == Activity.Watch(old(State()), after, queue, loads).cell
      ensures reply == Activity.Watch(old(State()), after, queue, loads).reply
    {
      Proofs.WatchKeeps(State(), capacity, after, queue, loads);
      var ready := Ensure(loads);
      if !ready {
        return None;
      }
      reply := WatchLocked(after, queue);
    }

    method WatchLocked(after: Option<nat>, queue: int) returns (reply: Option<WatchReply>)
      requires stream.Some?
      modifies this`stream, this`channels
      ensures State() == Activity.WatchLocked(old(State()), old(stream.value), after, queue).cell
      ensures reply == Activity.WatchLocked(old(State()), old(stream.value), after, queue).reply
    {
      var st := stream.value;
      st := st.(nextWatcher := st.nextWatcher + 1);
      var k := ChannelId(st.serial, st.nextWatcher);
      st := st.(watchers := st.watchers + {st.nextWatcher});
      var mode: Mode;
      var replay := [];
      if after.None? {
        mode := Reset(InitialWatch, ResetView(st));
      } else if st.replayUnsafe && (st.safeReplayFloor.None? || after.value < st.safeReplayFloor.value) {
        mode := Reset(CursorUnavailable, ResetView(st));
      } else if after.value > st.head {
        mode := Reset(CursorInvalid, ResetView(st));
      } else {
        var available := ContinuousReplayAvailable(st.events, after.value + 1, st.head);
        if !available {
          mode := Reset(CursorUnavailable, ResetView(st));
        } else {
          mode := Resumed(after.value + 1);
          replay := CollectReplay(st.events, after.value + 1, st.head);
        }
      }
      var from := if mode.Reset? then st.head else after.value;
      channels := channels[k := Channel(QueueSize(queue), [], from, replay, [], [], None, None, 0, 0, st.era)];
      if mode.Reset? {
        st := st.(safeReplayFloor := Some(st.head));
      }
      stream := Some(st);
      reply := Some(WatchReply(st.head, mode, replay, k));
    }

    /** The manager writes the row (persistState). The invariant survives exactly when no stream outlived
        a deleted row with its log. */
    method PersistState(raw: Raw)
      requires Valid()
      modifies this`row, this`viewStale
      ensures State() == Activity.Persist(old(State()), raw)
      ensures Valid() <==> !Proofs.Mixes(old(State()))
    {
      Proofs.RowWriteKeepsIff(State(), capacity, raw);
      row := Some(Row(if row.Some? then row.value.head else 0, raw));
      viewStale := true;
    }

    method CancelWatch(k: ChannelId)
      requires Valid()
      modifies this`stream, this`channels
      ensures Valid() && State() == Activity.Cancel(old(State()), k)
    {
      Proofs.CancelKeeps(State(), capacity, k);
      Unregister(k);
    }

    method Unregister(k: ChannelId)
      requires stream.Some? && k.watcher in stream.value.watchers ==>
        ChannelId(stream.value.serial, k.watcher) in channels
      modifies this`stream, this`channels
      ensures State() == Activity.Cancel(old(State()), k)
    {
      if stream.Some? && k.stream == stream.value.serial && k.watcher in stream.value.watchers {
        stream := Some(stream.value.(watchers := stream.value.watchers - {k.watcher}));
        channels := channels[k := channels[k].(eventsCloses := channels[k].eventsCloses + 1)];
      }
    }

    method Forget(loads: bool, destroy: Write) returns (forgotten: bool)
      requires Valid()
      modifies this
      ensures Valid()
      ensures State() == Activity.Forget(old(State()), loads, destroy)
      ensures forgotten <==> destroy.Written? && old(row.Some?) && Activity.Ensure(old(State()), loads).Ready?
    {
      ghost var before := State();
      Proofs.ForgetKeeps(before, capacity, loads, destroy);
      var ready := Ensure(loads);
      if !ready {
        return false;
      }
      Proofs.EnsureKeeps(before, capacity, loads);
      Proofs.ChannelsFit(State(), capacity);
      Terminate();
      forgotten := Destroy(destroy);
    }

    /** Every watcher gets the terminal event and is closed. */
    method Terminate()
      requires stream.Some?
      requires forall id :: id in stream.value.watchers ==> ChannelId(stream.value.serial, id) in channels
      requires forall k :: k in channels ==> 1 <= channels[k].capacity && |channels[k].queue| <= channels[k].capacity
      modifies this`stream, this`channels
      ensures State() == Terminated(old(State()), old(stream.value))
    {
      var st := stream.value;
      DeliverTerminalToWatchers(st.serial, st.watchers, Event(st.head + 1, FORGOTTEN));
      stream := Some(st.(watchers := {}));
    }

    /** The destroy callback; the stream goes only if it reports success. */
    method Destroy(destroy: Write) returns (forgotten: bool)
      modifies this
      ensures State() == Destroyed(old(State()), destroy)
      ensures forgotten <==> destroy.Written? && old(row.Some?)
    {
      forgotten := destroy.Written? && row.Some?;
      if destroy.Lands() && row.Some? {
        row, past := None, Closed(State());
        log, hidden := [], {};
      }
      if forgotten {
        stream := None;
      }
    }

    method DeliverTerminalToWatchers(serial: nat, registered: set<nat>, ev: Event)
      requires forall id :: id in registered ==> ChannelId(serial, id) in channels
      requires forall k :: k in channels ==> 1 <= channels[k].capacity && |channels[k].queue| <= channels[k].capacity
      modifies this`channels
      ensures channels == map k | k in old(channels) ::
        if k.stream == serial && k.watcher in registered
        then DeliverTerminal(old(channels)[k], ev) else old(channels)[k]
    {
      var watchers := registered;
      while watchers != {}
        invariant watchers <= registered
        invariant channels.Keys == old(channels).Keys
        invariant forall k :: k in channels ==>
          channels[k] == if k.stream == serial && k.watcher in registered - watchers
                         then DeliverTerminal(old(channels)[k], ev) else old(channels)[k]
        decreases |watchers|
      {
        var id :| id in watchers;
        var k := ChannelId(serial, id);
        var delivered := SendTerminal(channels[k], ev);
        channels := channels[k := delivered];
        watchers := watchers - {id};
      }
    }
  }

  /** Send on a bounded channel, discarding the oldest queued event while it is full, then close it. */
  method SendTerminal(ch: Channel, ev: Event) returns (delivered: Channel)
    requires 1 <= ch.capacity && |ch.queue| <= ch.capacity
    ensures delivered == DeliverTerminal(ch, ev)
  {
    delivered := ch;
    while |delivered.queue| >= delivered.capacity
      invariant delivered == ch ||
        (HasRoom(delivered) && !HasRoom(ch) && delivered == ch.(queue := ch.queue[1..], lost := Some(|ch.received|)))
      decreases |delivered.queue|
    {
      delivered := delivered.(queue := delivered.queue[1..], lost := Some(|delivered.received|));
    }
    delivered := delivered.(queue := delivered.queue + [ev], terminal := Some(ev));
    delivered := delivered.(eventsCloses := delivered.eventsCloses + 1);
  }

  method ContinuousReplayAvailable(events: seq<Event>, start: nat, head: nat) returns (available: bool)
    ensures available == ReplayAvailable(events, start, head)
  {
    if start > head {
      return true;
    }
    var expected: nat := start;
    var i := 0;
    while i < |events|
      invariant 0 <= i <= |events|
      invariant ReplayScan(events, 0, start, start, head) == ReplayScan(events, i, start, expected, head)
    {
      if events[i].number >= start {
        if events[i].number != expected {
          return false;
        }
        expected := expected + 1;
        if expected > head {
          return true;
        }
      }
      i := i + 1;
    }
    return false;
  }

  method CollectReplay(events: seq<Event>, start: nat, head: nat) returns (replay: seq<Event>)
    ensures replay == Select(events, start, head)
  {
    replay := [];
    for i := 0 to |events|
      invariant replay == Select(events[..i], start, head)
    {
      assert events[..i + 1][..i] == events[..i];
      if start <= events[i].number <= head {
        replay := replay + [events[i]];
      }
    }
    assert events[..|events|] == events;
  }
}
