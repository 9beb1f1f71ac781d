/** The event stream of one Codex (internal/activity/store.go): the durable log
    in SQLite, the bounded replay buffer in memory, and the channels of its
    watchers. Each function is one critical section of `Store.mu`; the arguments
    of an action carry what the environment decides (did the commit land, did the
    reload succeed, which consumer reads). `log`, `hidden`, `past`, `streams`, `viewStale`,
    `era` and the history fields of a channel record what happened and steer nothing. */
module Activity {
  import opened Common

  /** What an event or a view carries is only compared, so it is a number. */
  type Body = int

  const NO_VIEW: Body := 0
  const FORGOTTEN: Body := 1

  datatype Event = Event(number: nat, body: Body)

  datatype View = View(headEventSeq: nat, body: Body)

  /** The column current_view_json: NULL, undecodable, or a CurrentView. */
  datatype Raw = Absent | Unreadable | Stored(view: View)

  /** What LoadEventState returns for an existing Codex. */
  datatype Row = Row(head: nat, raw: Raw)

  /** A watcher's Go channels. History: `from` is the cursor the watch starts
      after, `replay` was handed over with the Watch, `sent` went through the
      channel, `received` was read by the consumer, `terminal` is the
      CodexForgotten event, `lost` the index in `sent` that Forget evicted, `era` the
      log that the cursor is about. */
  datatype Channel = Channel(
    capacity: nat, queue: seq<Event>,
    from: nat, replay: seq<Event>, sent: seq<Event>, received: seq<Event>,
    terminal: Option<Event>, lost: Option<nat>,
    eventsCloses: nat, slowCloses: nat, era: nat)

  /** A watcher of one stream object. */
  datatype ChannelId = ChannelId(stream: nat, watcher: nat)

  /** `era` is the log that the stream was last loaded from. */
  datatype Stream = Stream(
    serial: nat, head: nat, events: seq<Event>, view: Option<View>,
    replayUnsafe: bool, safeReplayFloor: Option<nat>, needsReload: bool,
    nextWatcher: nat, watchers: set<nat>, era: nat)

  /** A log that was deleted with its row: its events, and the numbers of those whose commit landed
      behind an unknown outcome. */
  datatype Era = Era(log: seq<Event>, hidden: set<nat>)

  /** `log` and `hidden` belong to the present row, `past` to the rows deleted before it. */
  datatype Cell = Cell(
    row: Option<Row>, stream: Option<Stream>, channels: map<ChannelId, Channel>,
    log: seq<Event>, hidden: set<nat>, past: seq<Era>, streams: nat, viewStale: bool)

  /** The log of an era; the present one comes after all the past ones. */
  function EraOf(c: Cell, era: nat): Era {
    if era < |c.past| then c.past[era] else Era(c.log, c.hidden)
  }

  // ---------------------------------------------------------------- loading

  function Decode(raw: Raw): Option<View> {
    if raw.Stored? then Some(raw.view) else None
  }

  function Load(st: Stream, row: Row, era: nat): Stream {
    st.(head := row.head, view := Decode(row.raw), era := era)
  }

  function FreshStream(serial: nat): Stream {
    Stream(serial, 0, [], None, false, None, false, 0, {}, 0)
  }

  /** The flag a stream gets when it is loaded for the first time in a run. */
  predicate UnsafeAtLoad(row: Row) {
    match row.raw
    case Absent => row.head != 0
    case Unreadable => true
    case Stored(v) => v.headEventSeq != row.head
  }

  datatype Ensured = Ready(cell: Cell) | NotFound | LoadFailed

  /** The first load of a stream in a run. */
  function Opened(c: Cell, row: Row): Cell {
    var st := Load(FreshStream(c.streams), row, |c.past|).(replayUnsafe := UnsafeAtLoad(row));
    c.(stream := Some(st), streams := c.streams + 1, viewStale := false)
  }

  /** The deferred reload of a stream. */
  function Reread(c: Cell, st: Stream, row: Row): Cell {
    c.(stream := Some(Load(st, row, |c.past|).(needsReload := false, replayUnsafe := true)), viewStale := false)
  }

  function Ensure(c: Cell, loads: bool): Ensured {
    match c.stream
    case Some(st) =>
      if !st.needsReload then Ready(c)
      else if !loads || c.row.None? then LoadFailed
      else Ready(Reread(c, st, c.row.value))
    case None =>
      if !loads then LoadFailed
      else if c.row.None? then NotFound
      else Ready(Opened(c, c.row.value))
  }

  /** Shared by reloadUnsafe and ReloadDurable: drop the suffix, read the database. */
  function Reload(c: Cell, st: Stream, loads: bool): Cell {
    var dropped := st.(events := [], replayUnsafe := true, safeReplayFloor := None);
    if loads && c.row.Some?
    then c.(stream := Some(Load(dropped, c.row.value, |c.past|).(needsReload := false)), viewStale := false)
    else c.(stream := Some(dropped.(needsReload := true)))
  }

  function ReloadDurable(c: Cell, loads: bool): Cell {
    match c.stream
    case Some(st) => Reload(c, st, loads)
    case None => Reload(c.(streams := c.streams + 1), FreshStream(c.streams), loads)
  }

  // ------------------------------------------------------------- publishing

  /** The effect of CommitEvent on the database row. */
  function CommitRow(row: Option<Row>, view: Body, outcome: Commit): Option<Row> {
    if row.Some? && outcome.Lands()
    then Some(Row(row.value.head + 1, Stored(View(row.value.head + 1, view))))
    else row
  }

  function Trim(events: seq<Event>, capacity: nat): seq<Event> {
    if |events| > capacity then events[|events| - capacity..] else events
  }

  predicate HasRoom(ch: Channel) {
    |ch.queue| < ch.capacity
  }

  function Push(ch: Channel, ev: Event): Channel {
    ch.(queue := ch.queue + [ev], sent := ch.sent + [ev])
  }

  function CloseSlow(ch: Channel): Channel {
    ch.(slowCloses := ch.slowCloses + 1)
  }

  function Offer(ch: Channel, ev: Event): Channel {
    if HasRoom(ch) then Push(ch, ev) else CloseSlow(ch)
  }

  predicate Registered(c: Cell, k: ChannelId) {
    c.stream.Some? && k.stream == c.stream.value.serial && k.watcher in c.stream.value.watchers
  }

  function Broadcast(c: Cell, ev: Event): map<ChannelId, Channel> {
    map k | k in c.channels :: if Registered(c, k) then Offer(c.channels[k], ev) else c.channels[k]
  }

  function StillWatching(c: Cell, st: Stream): set<nat> {
    set id | id in st.watchers && ChannelId(st.serial, id) in c.channels &&
      HasRoom(c.channels[ChannelId(st.serial, id)])
  }

  datatype Published = Published(cell: Cell, event: Option<Event>)

  /** The commit did not come back as committed: the stream is reloaded, and what landed is hidden. */
  function CommitFailed(c: Cell, st: Stream, ev: Event, view: Body, outcome: Commit, reloads: bool): Cell {
    var c1 := if outcome.Lands()
              then c.(row := CommitRow(c.row, view, outcome), log := c.log + [ev], hidden := c.hidden + {ev.number})
              else c;
    Reload(c1, st, reloads)
  }

  /** The commit succeeded: the event joins the buffer and is offered to every watcher. */
  function CommitVisible(c: Cell, st: Stream, capacity: nat, ev: Event, view: Body): Cell {
    c.(row := CommitRow(c.row, view, Committed), log := c.log + [ev],
       stream := Some(st.(head := ev.number, view := Some(View(ev.number, view)),
                          events := Trim(st.events + [ev], capacity), watchers := StillWatching(c, st))),
       channels := Broadcast(c, ev), viewStale := false)
  }

  /** Publish on a stream that is ready. */
  function PublishReady(c: Cell, st: Stream, capacity: nat, body: Body, view: Body, outcome: Commit,
        reloads: bool): Published {
    if c.row.None? then Published(Reload(c, st, reloads), None)
    else
      var ev := Event(c.row.value.head + 1, body);
      if outcome.Committed? then Published(CommitVisible(c, st, capacity, ev, view), Some(ev))
      else Published(CommitFailed(c, st, ev, view, outcome, reloads), None)
  }

  function Publish(c: Cell, capacity: nat, body: Body, view: Body, outcome: Commit, loads: bool,
        reloads: bool): Published {
    match Ensure(c, loads)
    case NotFound => Published(c, None)
    case LoadFailed => Published(c, None)
    case Ready(c1) => PublishReady(c1, c1.stream.value, capacity, body, view, outcome, reloads)
  }

  // --------------------------------------------------------------- watching

  datatype Mode = Resumed(replayFrom: nat) | Reset(reason: ResetReason, view: View)

  datatype ResetReason = InitialWatch | CursorUnavailable | CursorInvalid | HostRestarted

  datatype WatchReply = WatchReply(head: nat, mode: Mode, replay: seq<Event>, channel: ChannelId)

  function ResetView(st: Stream): View {
    match st.view
    case Some(v) => v.(headEventSeq := st.head)
    case None => View(st.head, NO_VIEW)
  }

  /** The loop of continuousReplayAvailable from event `i` on, still expecting number `expected`. */
  function ReplayScan(events: seq<Event>, i: nat, start: nat, expected: nat, head: nat): bool
    requires i <= |events|
    decreases |events| - i
  {
    if i == |events| then false
    else if events[i].number < start then ReplayScan(events, i + 1, start, expected, head)
    else if events[i].number != expected then false
    else if expected + 1 > head then true
    else ReplayScan(events, i + 1, start, expected + 1, head)
  }

  predicate ReplayAvailable(events: seq<Event>, start: nat, head: nat) {
    start > head || ReplayScan(events, 0, start, start, head)
  }

  function Select(events: seq<Event>, start: nat, head: nat): seq<Event> {
    if events == [] then []
    else
      var last := events[|events| - 1];
      Select(events[..|events| - 1], start, head) + if start <= last.number <= head then [last] else []
  }

  /** How a watch is answered, given whether the buffer reaches back to its cursor. */
  function Decide(st: Stream, after: Option<nat>, available: bool): Mode {
    if after.None? then Reset(InitialWatch, ResetView(st))
    else if st.replayUnsafe && (st.safeReplayFloor.None? || after.value < st.safeReplayFloor.value)
    then Reset(CursorUnavailable, ResetView(st))
    else if after.value > st.head then Reset(CursorInvalid, ResetView(st))
    else if !available then Reset(CursorUnavailable, ResetView(st))
    else Resumed(after.value + 1)
  }

  function WatchMode(st: Stream, after: Option<nat>): Mode {
    Decide(st, after, after.Some? && ReplayAvailable(st.events, after.value + 1, st.head))
  }

  function QueueSize(queue: int): nat {
    if queue <= 0 then 128 else queue
  }

  datatype Watched = Watched(cell: Cell, reply: Option<WatchReply>)

  function Replay(st: Stream, mode: Mode): seq<Event> {
    if mode.Resumed? then Select(st.events, mode.replayFrom, st.head) else []
  }

  /** The channel of a new watch: a resumed one starts at its cursor, any other at the head. */
  function NewChannel(st: Stream, mode: Mode, queue: int): Channel {
    var from := if mode.Resumed? && mode.replayFrom > 0 then mode.replayFrom - 1 else st.head;
    Channel(QueueSize(queue), [], from, Replay(st, mode), [], [], None, None, 0, 0, st.era)
  }

  /** A new watcher, in the mode decided on. */
  function Enrol(c: Cell, st: Stream, mode: Mode, queue: int): Watched {
    var id := st.nextWatcher + 1;
    var floor := if mode.Reset? then Some(st.head) else st.safeReplayFloor;
    var st' := st.(nextWatcher := id, watchers := st.watchers + {id}, safeReplayFloor := floor);
    Watched(c.(stream := Some(st'), channels := c.channels[ChannelId(st.serial, id) := NewChannel(st, mode, queue)]),
            Some(WatchReply(st.head, mode, Replay(st, mode), ChannelId(st.serial, id))))
  }

  function WatchLocked(c: Cell, st: Stream, after: Option<nat>, queue: int): Watched {
    Enrol(c, st, WatchMode(st, after), queue)
  }

  function Watch(c: Cell, after: Option<nat>, queue: int, loads: bool): Watched {
    match Ensure(c, loads)
    case NotFound => Watched(c, None)
    case LoadFailed => Watched(c, None)
    case Ready(c1) => WatchLocked(c1, c1.stream.value, after, queue)
  }

  function ForceReset(c: Cell, reason: ResetReason, queue: int, loads: bool): Watched {
    var w := Watch(c, None, queue, loads);
    match w.reply
    case None => w
    case Some(r) => w.(reply := Some(r.(mode := if r.mode.Reset? then r.mode.(reason := reason) else r.mode)))
  }

  function Cancel(c: Cell, k: ChannelId): Cell {
    if Registered(c, k) && k in c.channels then
      var st := c.stream.value;
      c.(stream := Some(st.(watchers := st.watchers - {k.watcher})),
         channels := c.channels[k := c.channels[k].(eventsCloses := c.channels[k].eventsCloses + 1)])
    else c
  }

  /** The consumer reads one queued event. */
  function Receive(c: Cell, k: ChannelId): Cell {
    if k in c.channels && c.channels[k].queue != [] then
      var ch := c.channels[k];
      c.(channels := c.channels[k := ch.(queue := ch.queue[1..], received := ch.received + [ch.queue[0]])])
    else c
  }

  // -------------------------------------------------------------- forgetting

  /** Forget delivers the terminal event, evicting the oldest queued event when the channel is full. */
  function DeliverTerminal(ch: Channel, ev: Event): Channel {
    if HasRoom(ch) || ch.queue == []
    then ch.(queue := ch.queue + [ev], terminal := Some(ev), eventsCloses := ch.eventsCloses + 1)
    else ch.(queue := ch.queue[1..] + [ev], terminal := Some(ev), lost := Some(|ch.received|),
      eventsCloses := ch.eventsCloses + 1)
  }

  /** Every watcher gets the terminal event and is closed. */
  function Terminated(c: Cell, st: Stream): Cell {
    var ev := Event(st.head + 1, FORGOTTEN);
    c.(stream := Some(st.(watchers := {})),
       channels := map k | k in c.channels ::
                     if Registered(c, k) then DeliverTerminal(c.channels[k], ev) else c.channels[k])
  }

  /** The destroy callback deletes row and log; the stream is dropped only if it reports success. */
  function Destroyed(c: Cell, destroy: Write): Cell {
    if !destroy.Lands() || c.row.None? then c
    else c.(row := None, log := [], hidden := {}, past := Closed(c),
            stream := if destroy.Written? then None else c.stream)
  }

  /** A log without events leaves nothing to remember. */
  function Closed(c: Cell): seq<Era> {
    if c.log == [] then c.past else c.past + [Era(c.log, c.hidden)]
  }

  function Forget(c: Cell, loads: bool, destroy: Write): Cell {
    match Ensure(c, loads)
    case NotFound => c
    case LoadFailed => c
    case Ready(c1) => Destroyed(Terminated(c1, c1.stream.value), destroy)
  }

  // ------------------------------------------------------------------- runs

  datatype Action =
    | DoPublish(body: Body, view: Body, outcome: Commit, loads: bool, reloads: bool)
    | DoWatch(after: Option<nat>, queue: int, loads: bool)
    | DoForceReset(reason: ResetReason, queue: int, loads: bool)
    | DoCancel(channel: ChannelId)
    | DoReceive(channel: ChannelId)
    | DoReloadDurable(loads: bool)
    | DoCurrentView(loads: bool)
    | DoForget(loads: bool, destroy: Write)
    | PersistView(raw: Raw)
    | Restart

  /** The manager writes the Codex row without an event (persistState, saveCodex). UpsertCodex creates the
      row again if it was deleted, and its event head starts again at 0. */
  function Persist(c: Cell, raw: Raw): Cell {
    c.(row := Some(Row(if c.row.Some? then c.row.value.head else 0, raw)), viewStale := true)
  }

  function Step(c: Cell, capacity: nat, a: Action): Cell {
    match a
    case DoPublish(body, view, outcome, loads, reloads) =>
      Publish(c, capacity, body, view, outcome, loads, reloads).cell
    case DoWatch(after, queue, loads) => Watch(c, after, queue, loads).cell
    case DoForceReset(reason, queue, loads) => ForceReset(c, reason, queue, loads).cell
    case DoCancel(k) => Cancel(c, k)
    case DoReceive(k) => Receive(c, k)
    case DoReloadDurable(loads) => ReloadDurable(c, loads)
    case DoCurrentView(loads) => var e := Ensure(c, loads); if e.Ready? then e.cell else c
    case DoForget(loads, destroy) => Forget(c, loads, destroy)
    case PersistView(raw) => Persist(c, raw)
    case Restart => c.(stream := None, channels := map[])
  }

  function Run(c: Cell, capacity: nat, actions: seq<Action>): Cell {
    if actions == [] then c else Step(Run(c, capacity, actions[..|actions| - 1]), capacity, actions[|actions| - 1])
  }
}
