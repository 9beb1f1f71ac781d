/** What every run of the event stream keeps: the replay buffer is a suffix of the
    durable log, and every watcher is offered the committed events after its cursor. One step can
    break that, a row write that brings a deleted Codex back under a stream that outlived it. */
module ActivityProofs {
  import opened Common
  import opened Activity

  /** The log entries after `from` that were ever broadcast: all but those whose
      commit landed behind an unknown outcome. */
  function Visible(log: seq<Event>, from: nat, hidden: set<nat>): seq<Event> {
    if |log| <= from then []
    else
      var last := log[|log| - 1];
      Visible(log[..|log| - 1], from, hidden) + (if last.number in hidden then [] else [last])
  }

  ghost predicate Numbered(log: seq<Event>) {
    forall i :: 0 <= i < |log| ==> log[i].number == i + 1
  }

  ghost predicate BufferInv(st: Stream, log: seq<Event>, hidden: set<nat>, capacity: nat) {
    if st.needsReload then
      st.events == [] && st.safeReplayFloor == None && st.replayUnsafe
    else
      && st.head == |log|
      && |st.events| <= |log| && |st.events| <= capacity
      && st.events == log[|log| - |st.events|..]
      && (forall n :: n in hidden ==> n <= |log| - |st.events|)
      && (st.safeReplayFloor.Some? ==> st.safeReplayFloor.value <= st.head)
  }

  /** Everything the channel's consumer can read, in order. */
  function Offered(ch: Channel): seq<Event> {
    (if ch.lost.Some? && ch.lost.value < |ch.sent|
     then ch.sent[..ch.lost.value] + ch.sent[ch.lost.value + 1..] else ch.sent)
    + (if ch.terminal.Some? then [ch.terminal.value] else [])
  }

  ghost predicate ChannelInv(ch: Channel, log: seq<Event>, hidden: set<nat>, registered: bool) {
    && 1 <= ch.capacity && |ch.queue| <= ch.capacity
    && ch.from <= |log|
    && ch.replay + ch.sent <= Visible(log, ch.from, hidden)
    && ch.received + ch.queue == Offered(ch)
    && (ch.lost.Some? ==> ch.terminal.Some? && ch.lost.value < |ch.sent|)
    && (registered ==>
          && ch.replay + ch.sent == Visible(log, ch.from, hidden)
          && ch.eventsCloses == 0 && ch.slowCloses == 0 && ch.terminal.None?)
    && (!registered ==> ch.eventsCloses + ch.slowCloses == 1)
  }

  /** A channel of the present log, or of a deleted one. `live`: there is a row. A watcher of a deleted
      log is registered only while there is no row. */
  ghost predicate HeldInv(
      ch: Channel, past: seq<Era>, log: seq<Event>, hidden: set<nat>, registered: bool, live: bool)
  {
    && ch.era <= |past|
    && if ch.era == |past| then ChannelInv(ch, log, hidden, registered)
       else && ChannelInv(ch, past[ch.era].log, past[ch.era].hidden, registered)
            && (registered ==> !live && ch.from + |ch.replay| > 0)
  }

  /** The buffer of a stream over the present log, or over a deleted one while there is no row. */
  ghost predicate HeldBuffer(st: Stream, past: seq<Era>, log: seq<Event>, hidden: set<nat>, capacity: nat, live: bool) {
    if st.needsReload || st.era == |past| then BufferInv(st, log, hidden, capacity)
    else st.era < |past| && !live && BufferInv(st, past[st.era].log, past[st.era].hidden, capacity)
  }

  ghost predicate StreamInv(c: Cell, st: Stream, capacity: nat) {
    && HeldBuffer(st, c.past, c.log, c.hidden, capacity, c.row.Some?)
    && st.serial < c.streams
    && (forall id :: id in st.watchers ==> id <= st.nextWatcher && ChannelId(st.serial, id) in c.channels)
    && (c.row.Some? && !st.needsReload && !c.viewStale ==> st.view == Decode(c.row.value.raw))
  }

  ghost predicate DurableInv(c: Cell) {
    && Numbered(c.log)
    && (if c.row.Some? then c.row.value.head == |c.log| else c.log == [])
    && (forall n :: n in c.hidden ==> 1 <= n <= |c.log|)
    && (forall i :: 0 <= i < |c.past| ==> PastInv(c.past[i]))
  }

  ghost predicate PastInv(era: Era) {
    era.log != [] && Numbered(era.log) && forall n :: n in era.hidden ==> 1 <= n <= |era.log|
  }

  ghost predicate ChannelsInv(c: Cell) {
    forall k :: k in c.channels ==>
      && k.stream < c.streams
      && (c.stream.Some? && k.stream == c.stream.value.serial ==> k.watcher <= c.stream.value.nextWatcher)
      && HeldInv(c.channels[k], c.past, c.log, c.hidden, Registered(c, k), c.row.Some?)
  }

  ghost predicate Inv(c: Cell, capacity: nat) {
    && DurableInv(c)
    && (c.stream.Some? ==> StreamInv(c, c.stream.value, capacity))
    && ChannelsInv(c)
  }

  /** A Codex as a new Host process finds it: any durable log, nothing in memory. */
  ghost predicate Init(c: Cell) {
    DurableInv(c) && c.stream.None? && c.channels == map[]
  }

  // ------------------------------------------------------- visible sequences

  lemma VisibleAppend(log: seq<Event>, e: Event, from: nat, hidden: set<nat>)
    requires from <= |log|
    ensures Visible(log + [e], from, hidden) == Visible(log, from, hidden) + (if e.number in hidden then [] else [e])
  {
    assert (log + [e])[..|log|] == log;
  }

  lemma {:induction false} VisibleSameHidden(log: seq<Event>, from: nat, hidden: set<nat>, n: nat)
    requires Numbered(log) && n > |log|
    ensures Visible(log, from, hidden + {n}) == Visible(log, from, hidden)
  {
    if |log| > from {
      VisibleSameHidden(log[..|log| - 1], from, hidden, n);
    }
  }

  lemma {:induction false} VisibleIsSuffix(log: seq<Event>, from: nat, hidden: set<nat>)
    requires Numbered(log) && from <= |log|
    requires forall n :: n in hidden ==> n <= from || n > |log|
    ensures Visible(log, from, hidden) == log[from..]
  {
    if |log| > from {
      var shorter := log[..|log| - 1];
      VisibleIsSuffix(shorter, from, hidden);
      assert log[from..] == shorter[from..] + [log[|log| - 1]];
    }
  }

  lemma {:induction false} VisibleIncreasing(log: seq<Event>, from: nat, hidden: set<nat>)
    requires Numbered(log)
    ensures forall i :: 0 <= i < |Visible(log, from, hidden)| ==> from < Visible(log, from, hidden)[i].number <= |log|
    ensures forall i, j :: 0 <= i < j < |Visible(log, from, hidden)| ==>
      Visible(log, from, hidden)[i].number < Visible(log, from, hidden)[j].number
  {
    if |log| > from {
      VisibleIncreasing(log[..|log| - 1], from, hidden);
    }
  }

  // ------------------------------------------------------------ replay scan

  lemma {:induction false} ScanReachesHead(events: seq<Event>, base: nat, i: nat, start: nat, expected: nat)
    requires i < |events| && forall j :: 0 <= j < |events| ==> events[j].number == base + j + 1
    requires base < start <= base + |events|
    requires expected == (if base + i + 1 < start then start else base + i + 1)
    ensures ReplayScan(events, i, start, expected, base + |events|)
    decreases |events| - i
  {
    if events[i].number < start {
      ScanReachesHead(events, base, i + 1, start, expected);
    } else if expected + 1 <= base + |events| {
      ScanReachesHead(events, base, i + 1, start, expected + 1);
    }
  }

  /** The early exits of continuousReplayAvailable are exact on a contiguous buffer. */
  lemma ReplayAvailableExact(events: seq<Event>, base: nat, after: nat)
    requires forall j :: 0 <= j < |events| ==> events[j].number == base + j + 1
    requires after <= base + |events|
    ensures ReplayAvailable(events, after + 1, base + |events|) <==> base <= after
  {
    if base <= after < base + |events| {
      ScanReachesHead(events, base, 0, after + 1, after + 1);
    }
  }

  lemma {:induction false} SelectNone(events: seq<Event>, start: nat, head: nat)
    requires forall j :: 0 <= j < |events| ==> events[j].number < start
    ensures Select(events, start, head) == []
  {
    if events != [] {
      SelectNone(events[..|events| - 1], start, head);
    }
  }

  lemma {:induction false} SelectIsTail(events: seq<Event>, base: nat, after: nat, head: nat)
    requires forall j :: 0 <= j < |events| ==> events[j].number == base + j + 1
    requires base <= after <= base + |events| <= head
    ensures Select(events, after + 1, head) == events[after - base..]
  {
    if after == base + |events| {
      SelectNone(events, after + 1, head);
    } else {
      var shorter := events[..|events| - 1];
      SelectIsTail(shorter, base, after, head);
      assert events[after - base..] == shorter[after - base..] + [events[|events| - 1]];
    }
  }

  // ------------------------------------------------------- every step keeps Inv

  /** Channels are untouched as long as the same watchers are registered. */
  lemma SameChannels(c: Cell, c': Cell)
    requires ChannelsInv(c) && c'.channels == c.channels && c'.streams == c.streams
    requires c'.log == c.log && c'.hidden == c.hidden && c'.past == c.past && c'.row.Some? == c.row.Some?
    requires c.stream.Some? && c'.stream.Some? && c'.stream.value.serial == c.stream.value.serial
    requires c'.stream.value.watchers == c.stream.value.watchers &&
      c'.stream.value.nextWatcher == c.stream.value.nextWatcher
    ensures ChannelsInv(c')
  {
    assert forall k :: Registered(c', k) == Registered(c, k);
  }

  lemma OpenedKeeps(c: Cell, capacity: nat)
    requires Inv(c, capacity) && c.stream.None? && c.row.Some?
    ensures Inv(Opened(c, c.row.value), capacity)
  {
    var c' := Opened(c, c.row.value);
    assert forall k :: k in c.channels ==> !Registered(c', k) && !Registered(c, k);
  }

  lemma RereadKeeps(c: Cell, capacity: nat)
    requires Inv(c, capacity) && c.stream.Some? && c.stream.value.needsReload && c.row.Some?
    ensures Inv(Reread(c, c.stream.value, c.row.value), capacity)
  {
    SameChannels(c, Reread(c, c.stream.value, c.row.value));
  }

  lemma EnsureKeeps(c: Cell, capacity: nat, loads: bool)
    requires Inv(c, capacity) && Ensure(c, loads).Ready?
    ensures var c' := Ensure(c, loads).cell;
      && Inv(c', capacity) && c'.stream.Some? && !c'.stream.value.needsReload
      && c'.row == c.row && c'.log == c.log && c'.hidden == c.hidden && c'.past == c.past && c'.channels == c.channels
  {
    if c.stream.None? {
      OpenedKeeps(c, capacity);
    } else if c.stream.value.needsReload {
      RereadKeeps(c, capacity);
    }
  }

  lemma ReloadKeeps(c: Cell, capacity: nat, loads: bool)
    requires DurableInv(c) && ChannelsInv(c) && c.stream.Some?
    requires c.stream.value.serial < c.streams
    requires forall id :: id in c.stream.value.watchers ==>
      id <= c.stream.value.nextWatcher && ChannelId(c.stream.value.serial, id) in c.channels
    ensures Inv(Reload(c, c.stream.value, loads), capacity)
  {
    SameChannels(c, Reload(c, c.stream.value, loads));
  }

  lemma ReloadDurableKeeps(c: Cell, capacity: nat, loads: bool)
    requires Inv(c, capacity)
    ensures Inv(ReloadDurable(c, loads), capacity)
  {
    if c.stream.Some? {
      ReloadKeeps(c, capacity, loads);
    } else {
      var st := FreshStream(c.streams);
      var c1 := c.(streams := c.streams + 1, stream := Some(st));
      assert forall k :: k in c1.channels ==> !Registered(c1, k) && !Registered(c, k) && k.stream != st.serial;
      ReloadKeeps(c1, capacity, loads);
    }
  }

  /** A landed commit extends the log by one entry; a hidden one is added to `hidden`. */
  lemma AppendKeepsChannel(ch: Channel, log: seq<Event>, hidden: set<nat>, registered: bool, e: Event, secret: bool)
    requires Numbered(log) && e.number == |log| + 1 && (forall n :: n in hidden ==> n <= |log|)
    requires ChannelInv(ch, log, hidden, registered)
    requires registered ==> secret
    ensures ChannelInv(ch, log + [e], if secret then hidden + {e.number} else hidden, registered)
  {
    var hidden' := if secret then hidden + {e.number} else hidden;
    VisibleSameHidden(log, ch.from, hidden, e.number);
    VisibleAppend(log, e, ch.from, hidden');
  }

  lemma OfferKeepsChannel(ch: Channel, log: seq<Event>, hidden: set<nat>, e: Event)
    requires Numbered(log) && e.number == |log| + 1 && (forall n :: n in hidden ==> n <= |log|)
    requires ChannelInv(ch, log, hidden, true)
    ensures ChannelInv(Offer(ch, e), log + [e], hidden, HasRoom(ch))
  {
    VisibleAppend(log, e, ch.from, hidden);
    if HasRoom(ch) {
      assert ch.replay + (ch.sent + [e]) == (ch.replay + ch.sent) + [e];
      assert ch.received + (ch.queue + [e]) == (ch.received + ch.queue) + [e];
    }
  }

  /** The channels after a commit that landed unseen. */
  lemma HiddenChannels(c: Cell, e: Event, c': Cell)
    requires DurableInv(c) && ChannelsInv(c) && e.number == |c.log| + 1
    requires c'.channels == c.channels && c'.stream == c.stream && c'.streams == c.streams
    requires c'.past == c.past && c'.row.Some? == c.row.Some?
    requires c'.log == c.log + [e] && c'.hidden == c.hidden + {e.number}
    ensures ChannelsInv(c')
  {
    forall k | k in c.channels && c.channels[k].era == |c.past|
      ensures ChannelInv(c.channels[k], c'.log, c'.hidden, Registered(c', k))
    {
      AppendKeepsChannel(c.channels[k], c.log, c.hidden, Registered(c, k), e, true);
    }
  }

  lemma CommitFailedKeeps(c: Cell, ev: Event, view: Body, outcome: Commit, capacity: nat, reloads: bool)
    requires Inv(c, capacity) && c.stream.Some? && c.row.Some? && ev.number == c.row.value.head + 1
    ensures Inv(CommitFailed(c, c.stream.value, ev, view, outcome, reloads), capacity)
  {
    if outcome.Lands() {
      var c1 := c.(row := CommitRow(c.row, view, outcome), log := c.log + [ev], hidden := c.hidden + {ev.number});
      HiddenChannels(c, ev, c1);
      ReloadKeeps(c1, capacity, reloads);
    } else {
      ReloadKeeps(c, capacity, reloads);
    }
  }

  lemma TrimKeepsSuffix(log: seq<Event>, events: seq<Event>, e: Event, capacity: nat)
    requires |events| <= |log| && events == log[|log| - |events|..]
    ensures var kept := Trim(events + [e], capacity);
      && |kept| <= capacity && |kept| <= |events| + 1
      && kept == (log + [e])[|log| + 1 - |kept|..]
  {
    assert (log + [e])[|log| - |events|..] == events + [e];
  }

  /** One channel under a visible commit: offered, or untouched. */
  lemma BroadcastChannel(c: Cell, ev: Event, k: ChannelId)
    requires DurableInv(c) && k in c.channels && ev.number == |c.log| + 1
    requires HeldInv(c.channels[k], c.past, c.log, c.hidden, Registered(c, k), true)
    ensures var registered := Registered(c, k) && HasRoom(c.channels[k]);
      HeldInv(Broadcast(c, ev)[k], c.past, c.log + [ev], c.hidden, registered, true)
  {
    if Registered(c, k) {
      OfferKeepsChannel(c.channels[k], c.log, c.hidden, ev);
    } else if c.channels[k].era == |c.past| {
      AppendKeepsChannel(c.channels[k], c.log, c.hidden, false, ev, false);
    }
  }

  lemma BroadcastChannels(c: Cell, st: Stream, capacity: nat, ev: Event, view: Body)
    requires DurableInv(c) && ChannelsInv(c) && c.stream == Some(st) && c.row.Some? && ev.number == |c.log| + 1
    ensures ChannelsInv(CommitVisible(c, st, capacity, ev, view))
  {
    var c' := CommitVisible(c, st, capacity, ev, view);
    forall k | k in c'.channels
      ensures HeldInv(c'.channels[k], c'.past, c'.log, c'.hidden, Registered(c', k), true)
    {
      BroadcastChannel(c, ev, k);
      assert Registered(c', k) == (Registered(c, k) && HasRoom(c.channels[k]));
    }
  }

  lemma BroadcastBuffer(st: Stream, log: seq<Event>, hidden: set<nat>, capacity: nat, ev: Event, st': Stream)
    requires BufferInv(st, log, hidden, capacity) && !st.needsReload && ev.number == |log| + 1
    requires st'.events == Trim(st.events + [ev], capacity) && st'.head == ev.number && !st'.needsReload
    requires st'.safeReplayFloor == st.safeReplayFloor
    ensures BufferInv(st', log + [ev], hidden, capacity)
  {
    TrimKeepsSuffix(log, st.events, ev, capacity);
  }

  lemma CommitVisibleKeeps(c: Cell, capacity: nat, ev: Event, view: Body)
    requires Inv(c, capacity) && c.stream.Some? && !c.stream.value.needsReload
    requires c.row.Some? && ev.number == c.row.value.head + 1
    ensures Inv(CommitVisible(c, c.stream.value, capacity, ev, view), capacity)
  {
    var st := c.stream.value;
    var c' := CommitVisible(c, st, capacity, ev, view);
    BroadcastChannels(c, st, capacity, ev, view);
    BroadcastBuffer(st, c.log, c.hidden, capacity, ev, c'.stream.value);
  }

  lemma PublishReadyKeeps(c: Cell, capacity: nat, body: Body, view: Body, outcome: Commit, reloads: bool)
    requires Inv(c, capacity) && c.stream.Some? && !c.stream.value.needsReload
    ensures Inv(PublishReady(c, c.stream.value, capacity, body, view, outcome, reloads).cell, capacity)
  {
    if c.row.None? {
      ReloadKeeps(c, capacity, reloads);
    } else {
      var ev := Event(c.row.value.head + 1, body);
      if outcome.Committed? {
        CommitVisibleKeeps(c, capacity, ev, view);
      } else {
        CommitFailedKeeps(c, ev, view, outcome, capacity, reloads);
      }
    }
  }

  lemma PublishKeeps(c: Cell, capacity: nat, body: Body, view: Body, outcome: Commit, loads: bool, reloads: bool)
    requires Inv(c, capacity)
    ensures Inv(Publish(c, capacity, body, view, outcome, loads, reloads).cell, capacity)
  {
    if Ensure(c, loads).Ready? {
      EnsureKeeps(c, capacity, loads);
      PublishReadyKeeps(Ensure(c, loads).cell, capacity, body, view, outcome, reloads);
    }
  }

  /** A buffer that is a suffix of the log: when it can serve a cursor, and with what. */
  lemma SuffixServes(log: seq<Event>, events: seq<Event>, after: nat)
    requires Numbered(log) && |events| <= |log| && events == log[|log| - |events|..] && after <= |log|
    ensures ReplayAvailable(events, after + 1, |log|) <==> |log| - after <= |events|
    ensures |log| - after <= |events| ==> Select(events, after + 1, |log|) == log[after..]
  {
    var base := |log| - |events|;
    assert forall j :: 0 <= j < |events| ==> events[j] == log[base + j];
    ReplayAvailableExact(events, base, after);
    if base <= after {
      SelectIsTail(events, base, after, |log|);
      assert log[base..][after - base..] == log[after..];
    }
  }

  /** The exact RESUMED condition, and what a RESUMED watch replays. */
  lemma WatchDecision(st: Stream, log: seq<Event>, hidden: set<nat>, capacity: nat, after: Option<nat>)
    requires Numbered(log) && BufferInv(st, log, hidden, capacity) && !st.needsReload
    ensures WatchMode(st, after).Resumed? <==>
      && after.Some?
      && (st.replayUnsafe ==> st.safeReplayFloor.Some? && st.safeReplayFloor.value <= after.value)
      && after.value <= st.head
      && st.head - after.value <= |st.events|
    ensures WatchMode(st, after).Resumed? ==>
      && after.value <= |log| && WatchMode(st, after).replayFrom == after.value + 1
      && Select(st.events, after.value + 1, st.head) == log[after.value..]
      && (forall n :: n in hidden ==> n <= after.value)
  {
    if after.Some? && after.value <= st.head {
      SuffixServes(log, st.events, after.value);
      DecideIff(st, after, ReplayAvailable(st.events, after.value + 1, st.head));
    } else {
      DecideIff(st, after, after.Some? && ReplayAvailable(st.events, after.value + 1, st.head));
    }
  }

  lemma DecideIff(st: Stream, after: Option<nat>, available: bool)
    ensures Decide(st, after, available).Resumed? <==>
      && after.Some?
      && (st.replayUnsafe ==> st.safeReplayFloor.Some? && st.safeReplayFloor.value <= after.value)
      && after.value <= st.head && available
    ensures Decide(st, after, available).Resumed? ==> Decide(st, after, available).replayFrom == after.value + 1
  {
  }

  lemma FreshChannelInv(log: seq<Event>, hidden: set<nat>, from: nat, size: nat, era: nat)
    requires Numbered(log) && from <= |log| && 1 <= size && forall n :: n in hidden ==> n <= from
    ensures ChannelInv(Channel(size, [], from, log[from..], [], [], None, None, 0, 0, era), log, hidden, true)
  {
    VisibleIsSuffix(log, from, hidden);
    assert log[from..] + [] == log[from..];
  }

  /** The channel a new watch starts with: its replay is the log after its cursor. */
  lemma NewChannelInv(st: Stream, mode: Mode, log: seq<Event>, hidden: set<nat>, queue: int)
    requires Numbered(log) && st.head == |log| && forall n :: n in hidden ==> n <= |log|
    requires mode.Resumed? ==>
      && 1 <= mode.replayFrom <= |log| + 1 && Replay(st, mode) == log[mode.replayFrom - 1..]
      && forall n :: n in hidden ==> n < mode.replayFrom
    ensures var ch := NewChannel(st, mode, queue); ChannelInv(ch, log, hidden, true) && ch.from + |ch.replay| == |log|
  {
    var from := if mode.Resumed? then mode.replayFrom - 1 else st.head;
    FreshChannelInv(log, hidden, from, QueueSize(queue), st.era);
    assert log[|log|..] == [];
  }

  /** One more channel, and one more watcher for it. */
  lemma AddChannel(c: Cell, st: Stream, st': Stream, ch: Channel)
    requires ChannelsInv(c) && c.stream == Some(st) && st.serial < c.streams
    requires HeldInv(ch, c.past, c.log, c.hidden, true, c.row.Some?)
    requires st'.serial == st.serial && st'.nextWatcher == st.nextWatcher + 1 &&
      st'.watchers == st.watchers + {st.nextWatcher + 1}
    ensures ChannelsInv(c.(stream := Some(st'), channels := c.channels[ChannelId(st.serial, st.nextWatcher + 1) := ch]))
  {
    var key := ChannelId(st.serial, st.nextWatcher + 1);
    var c' := c.(stream := Some(st'), channels := c.channels[key := ch]);
    assert forall k :: k != key ==> Registered(c', k) == Registered(c, k);
  }

  lemma EnrolKeeps(c: Cell, st: Stream, mode: Mode, capacity: nat, queue: int)
    requires Inv(c, capacity) && c.stream == Some(st) && !st.needsReload
    requires HeldInv(NewChannel(st, mode, queue), c.past, c.log, c.hidden, true, c.row.Some?)
    ensures Inv(Enrol(c, st, mode, queue).cell, capacity)
  {
    AddChannel(c, st, Enrol(c, st, mode, queue).cell.stream.value, NewChannel(st, mode, queue));
  }

  lemma WatchLockedKeeps(c: Cell, capacity: nat, after: Option<nat>, queue: int)
    requires Inv(c, capacity) && c.stream.Some? && !c.stream.value.needsReload
    ensures Inv(WatchLocked(c, c.stream.value, after, queue).cell, capacity)
  {
    var st := c.stream.value;
    var mode := WatchMode(st, after);
    var era := EraOf(c, st.era);
    WatchDecision(st, era.log, era.hidden, capacity, after);
    NewChannelInv(st, mode, era.log, era.hidden, queue);
    EnrolKeeps(c, st, mode, capacity, queue);
  }

  lemma WatchKeeps(c: Cell, capacity: nat, after: Option<nat>, queue: int, loads: bool)
    requires Inv(c, capacity)
    ensures Inv(Watch(c, after, queue, loads).cell, capacity)
  {
    if Ensure(c, loads).Ready? {
      EnsureKeeps(c, capacity, loads);
      WatchLockedKeeps(Ensure(c, loads).cell, capacity, after, queue);
    }
  }

  lemma CancelKeeps(c: Cell, capacity: nat, k: ChannelId)
    requires Inv(c, capacity)
    ensures Inv(Cancel(c, k), capacity)
  {
    var c' := Cancel(c, k);
    forall j | j in c'.channels
      ensures HeldInv(c'.channels[j], c'.past, c'.log, c'.hidden, Registered(c', j), c'.row.Some?)
    {
      if j != k {
        assert c'.channels[j] == c.channels[j];
      }
    }
  }

  lemma ReceiveKeepsChannel(ch: Channel, log: seq<Event>, hidden: set<nat>, registered: bool)
    requires ChannelInv(ch, log, hidden, registered) && ch.queue != []
    ensures ChannelInv(ch.(queue := ch.queue[1..], received := ch.received + [ch.queue[0]]), log, hidden, registered)
  {
    assert (ch.received + [ch.queue[0]]) + ch.queue[1..] == ch.received + ch.queue;
  }

  lemma ReceiveKeeps(c: Cell, capacity: nat, k: ChannelId)
    requires Inv(c, capacity)
    ensures Inv(Receive(c, k), capacity)
  {
    var c' := Receive(c, k);
    forall j | j in c'.channels
      ensures HeldInv(c'.channels[j], c'.past, c'.log, c'.hidden, Registered(c', j), c'.row.Some?)
    {
      if j == k && c.channels[k].queue != [] {
        var era := EraOf(c, c.channels[k].era);
        ReceiveKeepsChannel(c.channels[k], era.log, era.hidden, Registered(c, k));
      } else {
        assert c'.channels[j] == c.channels[j];
      }
    }
  }

  /** The terminal event reaches the consumer last, at the price of at most the oldest queued event. */
  lemma DeliverTerminalKeeps(ch: Channel, log: seq<Event>, hidden: set<nat>, e: Event)
    requires ChannelInv(ch, log, hidden, true)
    ensures ChannelInv(DeliverTerminal(ch, e), log, hidden, false)
    ensures var ch' := DeliverTerminal(ch, e);
      && ch'.queue[|ch'.queue| - 1] == e
      && (ch'.lost.Some? <==> |ch.queue| == ch.capacity)
      && ch'.received + ch'.queue ==
           ch.received + (if ch'.lost.Some? then ch.queue[1..] else ch.queue) + [e]
  {
    var ch' := DeliverTerminal(ch, e);
    var r := |ch.received|;
    assert ch.received + ch.queue == ch.sent;
    if |ch.queue| == ch.capacity {
      assert ch.sent[..r] == ch.received && ch.sent[r..] == ch.queue;
      assert ch.sent[r + 1..] == ch.queue[1..];
    }
    assert ch.received + (ch.queue + [e]) == (ch.received + ch.queue) + [e];
  }

  /** One channel when its Codex is forgotten: the terminal event delivered, or untouched. */
  lemma TerminatedChannel(c: Cell, st: Stream, k: ChannelId)
    requires k in c.channels && HeldInv(c.channels[k], c.past, c.log, c.hidden, Registered(c, k), c.row.Some?)
    ensures HeldInv(Terminated(c, st).channels[k], c.past, c.log, c.hidden, false, c.row.Some?)
  {
    if Registered(c, k) {
      var era := EraOf(c, c.channels[k].era);
      DeliverTerminalKeeps(c.channels[k], era.log, era.hidden, Event(st.head + 1, FORGOTTEN));
    }
  }

  lemma TerminatedKeeps(c: Cell, st: Stream, capacity: nat)
    requires Inv(c, capacity) && c.stream == Some(st)
    ensures Inv(Terminated(c, st), capacity) && Terminated(c, st).stream.value.watchers == {}
  {
    var c' := Terminated(c, st);
    forall k | k in c'.channels
      ensures HeldInv(c'.channels[k], c'.past, c'.log, c'.hidden, Registered(c', k), c'.row.Some?)
    {
      TerminatedChannel(c, st, k);
    }
  }

  function ClosedWith(past: seq<Era>, log: seq<Event>, hidden: set<nat>): seq<Era> {
    if log == [] then past else past + [Era(log, hidden)]
  }

  /** A departed channel when its log, or a later one, is deleted. */
  lemma ClosedChannel(ch: Channel, past: seq<Era>, log: seq<Event>, hidden: set<nat>)
    requires HeldInv(ch, past, log, hidden, false, true) && (log == [] ==> hidden == {})
    ensures HeldInv(ch, ClosedWith(past, log, hidden), [], {}, false, false)
  {
  }

  lemma ClosedBuffer(st: Stream, past: seq<Era>, log: seq<Event>, hidden: set<nat>, capacity: nat)
    requires HeldBuffer(st, past, log, hidden, capacity, true) && (log == [] ==> hidden == {})
    ensures HeldBuffer(st, ClosedWith(past, log, hidden), [], {}, capacity, false)
  {
  }

  lemma DestroyedChannels(c: Cell, destroy: Write)
    requires ChannelsInv(c) && c.row.Some? && destroy.Lands() && (c.log == [] ==> c.hidden == {})
    requires c.stream.Some? && c.stream.value.watchers == {}
    ensures ChannelsInv(Destroyed(c, destroy))
  {
    var c' := Destroyed(c, destroy);
    forall k | k in c'.channels ensures HeldInv(c'.channels[k], c'.past, [], {}, Registered(c', k), false) {
      assert !Registered(c', k) && !Registered(c, k);
      ClosedChannel(c.channels[k], c.past, c.log, c.hidden);
    }
  }

  lemma DestroyedKeeps(c: Cell, capacity: nat, destroy: Write)
    requires Inv(c, capacity) && c.stream.Some? && c.stream.value.watchers == {}
    ensures Inv(Destroyed(c, destroy), capacity)
  {
    if destroy.Lands() && c.row.Some? {
      assert c.log == [] ==> c.hidden == {};
      DestroyedChannels(c, destroy);
      ClosedBuffer(c.stream.value, c.past, c.log, c.hidden, capacity);
      assert Numbered(c.log);
    }
  }

  /** What delivering the terminal event needs of the channels. */
  lemma ChannelsFit(c: Cell, capacity: nat)
    requires Inv(c, capacity)
    ensures forall k :: k in c.channels ==>
      1 <= c.channels[k].capacity && |c.channels[k].queue| <= c.channels[k].capacity
    ensures c.stream.Some? ==>
      forall id :: id in c.stream.value.watchers ==> ChannelId(c.stream.value.serial, id) in c.channels
  {
    forall k | k in c.channels ensures 1 <= c.channels[k].capacity && |c.channels[k].queue| <= c.channels[k].capacity {
      assert HeldInv(c.channels[k], c.past, c.log, c.hidden, Registered(c, k), c.row.Some?);
    }
  }

  lemma ForgetKeeps(c: Cell, capacity: nat, loads: bool, destroy: Write)
    requires Inv(c, capacity)
    ensures Inv(Forget(c, loads, destroy), capacity)
  {
    if Ensure(c, loads).Ready? {
      EnsureKeeps(c, capacity, loads);
      var c1 := Ensure(c, loads).cell;
      TerminatedKeeps(c1, c1.stream.value, capacity);
      DestroyedKeeps(Terminated(c1, c1.stream.value), capacity, destroy);
    }
  }

  /** A registered watcher that was given events of a log, or a cursor into it. */
  predicate HasSeen(c: Cell, k: ChannelId) {
    k in c.channels && Registered(c, k) && c.channels[k].from + |c.channels[k].replay| != 0
  }

  /** Writing the row would bring a deleted Codex back under a stream that still has the deleted log in
      its buffer, or watchers that follow it. */
  predicate Mixes(c: Cell) {
    && c.row.None? && c.stream.Some?
    && ((!c.stream.value.needsReload && c.stream.value.head != 0) || exists k :: k in c.channels && HasSeen(c, k))
  }

  /** The stream and its watchers belong to the present log. */
  ghost predicate OfPresentLog(c: Cell) {
    c.stream.Some? ==>
      && (c.stream.value.needsReload || c.stream.value.era == |c.past|)
      && forall k :: k in c.channels && Registered(c, k) ==> c.channels[k].era == |c.past|
  }

  lemma MixesIff(c: Cell, capacity: nat)
    requires Inv(c, capacity) && c.row.None?
    ensures Mixes(c) <==> !OfPresentLog(c)
  {
    if c.stream.Some? {
      var st := c.stream.value;
      assert !st.needsReload && st.era < |c.past| ==> PastInv(c.past[st.era]);
      forall k | k in c.channels && Registered(c, k) ensures HasSeen(c, k) <==> c.channels[k].era != |c.past| {
        assert HeldInv(c.channels[k], c.past, c.log, c.hidden, true, false);
      }
    }
  }

  lemma PersistKeepsIfPresent(c: Cell, capacity: nat, raw: Raw)
    requires Inv(c, capacity) && (c.row.Some? || OfPresentLog(c))
    ensures Inv(Persist(c, raw), capacity)
  {
    var c' := Persist(c, raw);
    forall k | k in c'.channels ensures HeldInv(c'.channels[k], c'.past, c'.log, c'.hidden, Registered(c', k), true) {
      assert Registered(c', k) == Registered(c, k);
    }
  }

  lemma PersistBreaks(c: Cell, capacity: nat, raw: Raw)
    requires Inv(c, capacity) && c.row.None? && !OfPresentLog(c)
    ensures !Inv(Persist(c, raw), capacity)
  {
    var c' := Persist(c, raw);
    if c.stream.value.needsReload || c.stream.value.era == |c.past| {
      var k :| k in c.channels && Registered(c, k) && c.channels[k].era != |c.past|;
      assert Registered(c', k) && !HeldInv(c'.channels[k], c'.past, c'.log, c'.hidden, true, true);
    }
  }

  /** Exactly when a row write keeps buffer, watchers and log in agreement. */
  lemma RowWriteKeepsIff(c: Cell, capacity: nat, raw: Raw)
    requires Inv(c, capacity)
    ensures Inv(Persist(c, raw), capacity) <==> !Mixes(c)
  {
    if c.row.Some? {
      PersistKeepsIfPresent(c, capacity, raw);
    } else {
      MixesIff(c, capacity);
      if OfPresentLog(c) {
        PersistKeepsIfPresent(c, capacity, raw);
      } else {
        PersistBreaks(c, capacity, raw);
      }
    }
  }

  lemma RestartKeeps(c: Cell, capacity: nat)
    requires Inv(c, capacity)
    ensures Inv(c.(stream := None, channels := map[]), capacity)
  {
  }

  /** The step that mixes two logs. */
  predicate MixesLogs(c: Cell, a: Action) {
    a.PersistView? && Mixes(c)
  }

  lemma StepKeeps(c: Cell, capacity: nat, a: Action)
    requires Inv(c, capacity) && !MixesLogs(c, a)
    ensures Inv(Step(c, capacity, a), capacity)
  {
    match a
    case DoPublish(body, view, outcome, loads, reloads) =>
      PublishKeeps(c, capacity, body, view, outcome, loads, reloads);
    case DoWatch(after, queue, loads) => WatchKeeps(c, capacity, after, queue, loads);
    case DoForceReset(reason, queue, loads) => WatchKeeps(c, capacity, None, queue, loads);
    case DoCancel(k) => CancelKeeps(c, capacity, k);
    case DoReceive(k) => ReceiveKeeps(c, capacity, k);
    case DoReloadDurable(loads) => ReloadDurableKeeps(c, capacity, loads);
    case DoCurrentView(loads) => if Ensure(c, loads).Ready? { EnsureKeeps(c, capacity, loads); }
    case DoForget(loads, destroy) => ForgetKeeps(c, capacity, loads, destroy);
    case PersistView(raw) => RowWriteKeepsIff(c, capacity, raw);
    case Restart => RestartKeeps(c, capacity);
  }

  /** No step of the run mixes two logs. */
  predicate NeverMixes(c: Cell, capacity: nat, actions: seq<Action>) {
    actions == [] ||
    (var earlier := actions[..|actions| - 1];
     NeverMixes(c, capacity, earlier) && !MixesLogs(Run(c, capacity, earlier), actions[|actions| - 1]))
  }

  /** Every run of one Codex's stream without that step, across any failures and restarts, keeps Inv. */
  lemma {:induction false} RunKeeps(c: Cell, capacity: nat, actions: seq<Action>)
    requires Init(c) && NeverMixes(c, capacity, actions)
    ensures Inv(Run(c, capacity, actions), capacity)
  {
    if actions != [] {
      RunKeeps(c, capacity, actions[..|actions| - 1]);
      StepKeeps(Run(c, capacity, actions[..|actions| - 1]), capacity, actions[|actions| - 1]);
    }
  }

  // ------------------------------------------------------------ main results

  /** Some run of some Host process, over any number of restarts and without mixing logs, ends in `c`. */
  ghost predicate Reachable(c: Cell, capacity: nat) {
    exists c0, actions :: Init(c0) && NeverMixes(c0, capacity, actions) && c == Run(c0, capacity, actions)
  }

  lemma ReachableInv(c: Cell, capacity: nat)
    requires Reachable(c, capacity)
    ensures Inv(c, capacity)
  {
    var c0, actions :| Init(c0) && NeverMixes(c0, capacity, actions) && c == Run(c0, capacity, actions);
    RunKeeps(c0, capacity, actions);
  }

  /** The condition under which Watch answers RESUMED, in terms of the stream it finds. */
  predicate CanResume(st: Stream, after: nat) {
    && (st.replayUnsafe ==> st.safeReplayFloor.Some? && st.safeReplayFloor.value <= after)
    && after <= st.head && st.head - after <= |st.events|
  }

  lemma WatchLockedReply(c: Cell, capacity: nat, after: nat, queue: int)
    requires Inv(c, capacity) && c.stream.Some? && !c.stream.value.needsReload
    ensures var st := c.stream.value;
      Serves(WatchLocked(c, st, Some(after), queue).reply.value, EraOf(c, st.era).log, after, CanResume(st, after))
  {
    var era := EraOf(c, c.stream.value.era);
    WatchDecision(c.stream.value, era.log, era.hidden, capacity, Some(after));
  }

  /** The reply to a watch after a cursor: RESUMED with the log after it, or RESET at the log's end. */
  predicate Serves(reply: WatchReply, log: seq<Event>, after: nat, resumes: bool) {
    && reply.head == |log|
    && (reply.mode.Resumed? <==> resumes)
    && (reply.mode.Resumed? ==> after <= |log| && reply.mode.replayFrom == after + 1 && reply.replay == log[after..])
    && (reply.mode.Reset? ==> reply.replay == [] && reply.mode.view.headEventSeq == |log|)
  }

  /** In every reachable state a Watch is RESUMED exactly on the stated condition,
      and then replays the whole durable log after the cursor, nothing else. Where the row was deleted
      behind an error the stream still serves the log that was deleted. */
  lemma ResumedWatchReplaysLog(c: Cell, capacity: nat, after: nat, queue: int, loads: bool)
    requires Reachable(c, capacity)
    ensures Watch(c, Some(after), queue, loads).reply.Some? <==> Ensure(c, loads).Ready?
    ensures Ensure(c, loads).Ready? ==>
      var st := Ensure(c, loads).cell.stream.value;
      && Serves(Watch(c, Some(after), queue, loads).reply.value, EraOf(c, st.era).log, after, CanResume(st, after))
      && (c.row.Some? ==> EraOf(c, st.era) == Era(c.log, c.hidden))
  {
    ReachableInv(c, capacity);
    if Ensure(c, loads).Ready? {
      EnsureKeeps(c, capacity, loads);
      WatchLockedReply(Ensure(c, loads).cell, capacity, after, queue);
    }
  }

  /** A RESET hands out the durable CurrentView, unless the manager rewrote the row since. */
  lemma ResetShowsDurableView(c: Cell, capacity: nat, queue: int, loads: bool)
    requires Reachable(c, capacity) && Ensure(c, loads).Ready?
    requires c.row.Some? && c.row.value.raw.Stored? && !Ensure(c, loads).cell.viewStale
    ensures var reply := Watch(c, None, queue, loads).reply;
      reply.Some? && reply.value.mode == Reset(InitialWatch, c.row.value.raw.view.(headEventSeq := |c.log|))
  {
    ReachableInv(c, capacity);
    EnsureKeeps(c, capacity, loads);
  }

  lemma {:induction false} VisibleContiguousIff(log: seq<Event>, from: nat, hidden: set<nat>)
    requires Numbered(log) && from <= |log|
    ensures |Visible(log, from, hidden)| <= |log| - from
    ensures Visible(log, from, hidden) == log[from..] <==> forall n :: n in hidden ==> n <= from || n > |log|
  {
    if |log| > from {
      var shorter := log[..|log| - 1];
      var last := log[|log| - 1];
      VisibleContiguousIff(shorter, from, hidden);
      if last.number !in hidden {
        assert log[from..] == shorter[from..] + [last];
        assert Visible(log, from, hidden)[..|Visible(log, from, hidden)| - 1] == Visible(shorter, from, hidden);
        assert log[from..][..|log| - from - 1] == shorter[from..];
      }
    }
  }

  lemma {:induction false} VisibleFromLog(log: seq<Event>, from: nat, hidden: set<nat>)
    requires Numbered(log)
    ensures forall i :: 0 <= i < |Visible(log, from, hidden)| ==> Visible(log, from, hidden)[i] in log
  {
    if |log| > from {
      VisibleFromLog(log[..|log| - 1], from, hidden);
    }
  }

  /** What a channel of a log has been given of it. */
  ghost predicate Sees(ch: Channel, log: seq<Event>, hidden: set<nat>, registered: bool) {
    var got := ch.replay + ch.sent;
    && ch.from <= |log|
    && (forall i, j :: 0 <= i < j < |got| ==> got[i].number < got[j].number)
    && (forall i :: 0 <= i < |got| ==> ch.from < got[i].number && got[i] in log)
    && got <= Visible(log, ch.from, hidden)
    && (registered ==> (got == log[ch.from..] <==> forall n :: n in hidden ==> n <= ch.from))
    && (ch.terminal.None? ==> ch.received + ch.queue == ch.sent)
  }

  lemma ChannelSees(ch: Channel, log: seq<Event>, hidden: set<nat>, registered: bool)
    requires Numbered(log) && (forall n :: n in hidden ==> n <= |log|) && ChannelInv(ch, log, hidden, registered)
    ensures Sees(ch, log, hidden, registered)
  {
    var got, all := ch.replay + ch.sent, Visible(log, ch.from, hidden);
    VisibleIncreasing(log, ch.from, hidden);
    VisibleContiguousIff(log, ch.from, hidden);
    VisibleFromLog(log, ch.from, hidden);
    assert forall i :: 0 <= i < |got| ==> got[i] == all[i];
  }

  /** What one consumer gets, at any point of any run: its replay and live events are a
      strictly increasing selection of its log after its cursor, a beginning of all that was
      broadcast since even when it has left; while registered it has been offered the whole
      contiguous run, exactly when no commit was hidden since; and what it read and what is
      still queued are precisely what was sent. */
  lemma WatcherSeesLog(c: Cell, capacity: nat, k: ChannelId)
    requires Reachable(c, capacity) && k in c.channels
    ensures var era := EraOf(c, c.channels[k].era);
      && Sees(c.channels[k], era.log, era.hidden, Registered(c, k))
      && (Registered(c, k) && c.row.Some? ==> era == Era(c.log, c.hidden))
  {
    ReachableInv(c, capacity);
    var era := EraOf(c, c.channels[k].era);
    ChannelSees(c.channels[k], era.log, era.hidden, Registered(c, k));
  }

  /** A Codex without events, as its row is first written. */
  const EMPTY: Cell := Cell(Some(Row(0, Absent)), None, map[], [], {}, [], 0, false)

  /** The gap exists: a watcher registers, a commit lands with an unknown outcome, and the watcher, still
      registered, is never offered the event. */
  lemma HiddenCommitIsMissed(capacity: nat, body: Body, view: Body)
    ensures var c := Run(EMPTY, capacity, [DoWatch(None, 1, true), DoPublish(body, view, UnknownLanded, true, true)]);
      var k := ChannelId(0, 1);
      && Reachable(c, capacity) && k in c.channels && Registered(c, k) && c.log == [Event(1, body)]
      && c.channels[k].from == 0 && c.channels[k].replay + c.channels[k].sent == []
  {
    var actions := [DoWatch(None, 1, true), DoPublish(body, view, UnknownLanded, true, true)];
    assert Init(EMPTY) && actions[..1] == [actions[0]] && [actions[0]][..0] == [];
    assert Run(EMPTY, capacity, []) == EMPTY && NeverMixes(EMPTY, capacity, []);
    assert NeverMixes(EMPTY, capacity, [actions[0]]) && NeverMixes(EMPTY, capacity, actions);
    var c1 := Step(EMPTY, capacity, actions[0]);
    assert Run(EMPTY, capacity, [actions[0]]) == c1;
    assert ChannelId(0, 1) in c1.channels && c1.stream.value.watchers == {1};
  }

  /** What a step may do to a channel that is no longer registered: let its consumer read. */
  ghost predicate OnlyRead(ch: Channel, ch': Channel) {
    && ch'.sent == ch.sent && ch'.terminal == ch.terminal
    && ch'.eventsCloses == ch.eventsCloses && ch'.slowCloses == ch.slowCloses
    && (ch' == ch || (ch.queue != [] && ch'.queue == ch.queue[1..]))
  }

  /** The channel belongs to a watcher that has left, of this or an earlier stream object. */
  predicate Left(c: Cell, k: ChannelId) {
    && k in c.channels && !Registered(c, k) && k.stream < c.streams
    && (c.stream.Some? && k.stream == c.stream.value.serial ==> k.watcher <= c.stream.value.nextWatcher)
  }

  lemma LeftAtEnsure(c: Cell, loads: bool, k: ChannelId)
    requires Left(c, k) && Ensure(c, loads).Ready?
    ensures var c1 := Ensure(c, loads).cell; Left(c1, k) && c1.channels == c.channels && c1.stream.Some?
  {
  }

  lemma LeftAtPublish(c: Cell, capacity: nat, body: Body, view: Body, outcome: Commit, loads: bool, reloads: bool,
        k: ChannelId)
    requires Left(c, k)
    ensures var c' := Publish(c, capacity, body, view, outcome, loads, reloads).cell;
      Left(c', k) && c'.channels[k] == c.channels[k]
  {
    if Ensure(c, loads).Ready? {
      LeftAtEnsure(c, loads, k);
    }
  }

  lemma LeftAtWatch(c: Cell, after: Option<nat>, queue: int, loads: bool, k: ChannelId)
    requires Left(c, k)
    ensures var c' := Watch(c, after, queue, loads).cell; Left(c', k) && c'.channels[k] == c.channels[k]
  {
    if Ensure(c, loads).Ready? {
      LeftAtEnsure(c, loads, k);
    }
  }

  lemma LeftAtForget(c: Cell, loads: bool, destroy: Write, k: ChannelId)
    requires Left(c, k)
    ensures var c' := Forget(c, loads, destroy); Left(c', k) && c'.channels[k] == c.channels[k]
  {
    if Ensure(c, loads).Ready? {
      LeftAtEnsure(c, loads, k);
    }
  }

  lemma LeftAtRead(c: Cell, j: ChannelId, k: ChannelId)
    requires Left(c, k)
    ensures var c' := Receive(c, j); Left(c', k) && OnlyRead(c.channels[k], c'.channels[k])
    ensures var c' := Cancel(c, j); Left(c', k) && c'.channels[k] == c.channels[k]
  {
  }

  lemma LeftAtReload(c: Cell, loads: bool, raw: Raw, k: ChannelId)
    requires Left(c, k)
    ensures var c' := ReloadDurable(c, loads); Left(c', k) && c'.channels[k] == c.channels[k]
    ensures var c' := Persist(c, raw); Left(c', k) && c'.channels[k] == c.channels[k]
  {
  }

  lemma LeftAtStep(c: Cell, capacity: nat, a: Action, k: ChannelId)
    requires Left(c, k) && !a.Restart?
    ensures var c' := Step(c, capacity, a); Left(c', k) && OnlyRead(c.channels[k], c'.channels[k])
  {
    match a
    case DoPublish(body, view, outcome, loads, reloads) =>
      LeftAtPublish(c, capacity, body, view, outcome, loads, reloads, k);
    case DoWatch(after, queue, loads) => LeftAtWatch(c, after, queue, loads, k);
    case DoForceReset(reason, queue, loads) => LeftAtWatch(c, None, queue, loads, k);
    case DoForget(loads, destroy) => LeftAtForget(c, loads, destroy, k);
    case DoCancel(j) => LeftAtRead(c, j, k);
    case DoReceive(j) => LeftAtRead(c, j, k);
    case DoReloadDurable(loads) => LeftAtReload(c, loads, Absent, k);
    case PersistView(raw) => LeftAtReload(c, true, raw, k);
    case DoCurrentView(loads) => if Ensure(c, loads).Ready? { LeftAtEnsure(c, loads, k); }
  }

  /** What a whole run may do to such a channel: its consumer reads some of what was queued. */
  ghost predicate OnlyDrained(ch: Channel, ch': Channel) {
    && ch'.sent == ch.sent && ch'.terminal == ch.terminal
    && ch'.eventsCloses == ch.eventsCloses && ch'.slowCloses == ch.slowCloses
    && |ch'.queue| <= |ch.queue| && ch'.queue == ch.queue[|ch.queue| - |ch'.queue|..]
  }

  lemma {:induction false} LeftForever(c: Cell, capacity: nat, actions: seq<Action>, k: ChannelId)
    requires Left(c, k) && forall i :: 0 <= i < |actions| ==> !actions[i].Restart?
    ensures var c' := Run(c, capacity, actions); Left(c', k) && OnlyDrained(c.channels[k], c'.channels[k])
  {
    if actions != [] {
      var earlier := actions[..|actions| - 1];
      LeftForever(c, capacity, earlier, k);
      LeftAtStep(Run(c, capacity, earlier), capacity, actions[|actions| - 1], k);
    }
  }

  /** A watcher leaves the registry once: its events channel or its slow channel is closed exactly
      once, and for the rest of the process nothing is pushed to it and nothing closed again. */
  lemma ClosedOnceForever(c: Cell, capacity: nat, actions: seq<Action>, k: ChannelId)
    requires Reachable(c, capacity) && k in c.channels && !Registered(c, k)
    requires forall i :: 0 <= i < |actions| ==> !actions[i].Restart?
    ensures var c' := Run(c, capacity, actions);
      k in c'.channels && !Registered(c', k) && OnlyDrained(c.channels[k], c'.channels[k])
    ensures c.channels[k].eventsCloses + c.channels[k].slowCloses == 1
  {
    ReachableInv(c, capacity);
    LeftForever(c, capacity, actions, k);
  }

  lemma ReadyHead(c: Cell, capacity: nat, loads: bool)
    requires Reachable(c, capacity) && Ensure(c, loads).Ready? && c.row.Some?
    ensures var c1 := Ensure(c, loads).cell;
      c1.row == c.row && c1.stream.Some? && !c1.stream.value.needsReload && c1.stream.value.head == c.row.value.head
  {
    ReachableInv(c, capacity);
    EnsureKeeps(c, capacity, loads);
  }
}
