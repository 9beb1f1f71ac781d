/** One event store and one client connection together: the watches of the connection on the store's
    Codex read the store's channels (internal/activity/store.go, internal/gateway/server.go). A step is
    one of the store, one of the connection, or one they take together: registering a watch, and
    reading an event from a channel. */
module EndToEnd {
  import opened Common
  import A = Activity
  import P = ActivityProofs
  import C = Connection

  /** `carries` maps each watch of the connection on this Codex to its channel in the store. */
  datatype World = World(cell: A.Cell, conn: C.State, carries: map<nat, A.ChannelId>)

  datatype Action =
    | Store(store: A.Action)
    | Client(client: C.Action)
    | BeginWatch(after: Option<nat>, queue: int, loads: bool)
    | TakeEvent(watch: nat)

  /** `codex` is the store's Codex on this connection. */
  datatype Config = Config(codex: Id, capacity: nat, maxWatches: nat)

  /** What a channel has offered its reader: what was read, and what is queued. */
  function Readable(ch: A.Channel): seq<A.Event> {
    ch.received + ch.queue
  }

  /** The connection sees its channels as the store left them. */
  function Synced(conn: C.State, cell: A.Cell, carries: map<nat, A.ChannelId>): C.State {
    conn.(table := seq(|conn.table|, w requires 0 <= w < |conn.table| =>
                         if w in carries && carries[w] in cell.channels
                         then conn.table[w].(sent := Readable(cell.channels[carries[w]])) else conn.table[w]))
  }

  /** Steps the store takes by itself: all but reading, and the process does not restart. */
  predicate StoreAlone(a: A.Action) {
    !a.DoReceive? && !a.Restart?
  }

  /** Steps the connection takes by itself: it does not watch this Codex or read its channels, and their
      ends are decided by the store. */
  predicate ClientAlone(g: World, cfg: Config, a: C.Action) {
    match a
    case BeginWatch(codex, _) => codex != cfg.codex
    case Take(w) => w !in g.carries
    case Offer(w, _) => w !in g.carries
    case Evict(w) => w !in g.carries
    case _ => true
  }

  /** The connection takes up a watch, if the store accepted it. */
  function Join(g: World, cfg: Config, watched: A.Watched): World {
    if watched.reply.None? then g
    else World(watched.cell, C.Subscribed(g.conn, cfg.codex, watched.reply.value.replay),
               g.carries[|g.conn.table| := watched.reply.value.channel])
  }

  /** handleWatch under watchesMu: cancel, check the limit, watch in the store, register. */
  function Begin(g: World, cfg: Config, after: Option<nat>, queue: int, loads: bool): World {
    var g1 := g.(conn := C.CancelOld(g.conn, cfg.codex));
    if !g.conn.lock.Free? then g
    else if |g1.conn.watches| >= cfg.maxWatches then g1
    else Join(g1, cfg, A.Watch(g.cell, after, queue, loads))
  }

  function Take(g: World, cfg: Config, w: nat): World {
    var conn := C.Step(g.conn, cfg.maxWatches, C.Take(w));
    if w !in g.carries || conn == g.conn then g else g.(conn := conn, cell := A.Receive(g.cell, g.carries[w]))
  }

  function Step(g: World, cfg: Config, a: Action): World {
    match a
    case Store(x) =>
      if !StoreAlone(x) then g
      else
        var cell := A.Step(g.cell, cfg.capacity, x);
        g.(cell := cell, conn := Synced(g.conn, cell, g.carries))
    case Client(x) => if ClientAlone(g, cfg, x) then g.(conn := C.Step(g.conn, cfg.maxWatches, x)) else g
    case BeginWatch(after, queue, loads) => Begin(g, cfg, after, queue, loads)
    case TakeEvent(w) => Take(g, cfg, w)
  }

  function Run(g: World, cfg: Config, actions: seq<Action>): World {
    if actions == [] then g else Step(Run(g, cfg, actions[..|actions| - 1]), cfg, actions[|actions| - 1])
  }

  // ----------------------------------------------------------------- invariant

  /** A subscription and its channel tell the same story. */
  predicate Linked(sub: C.Subscription, ch: A.Channel) {
    sub.replay == ch.replay && sub.sent == Readable(ch) && sub.taken == |ch.received|
  }

  ghost predicate LinksInv(g: World) {
    forall w :: w in g.carries ==>
      w < |g.conn.table| && g.carries[w] in g.cell.channels && Linked(g.conn.table[w], g.cell.channels[g.carries[w]])
  }

  /** Two watches never share a channel. */
  ghost predicate Injective(g: World) {
    forall v, w :: v in g.carries && w in g.carries && v != w ==> g.carries[v] != g.carries[w]
  }

  ghost predicate Inv(g: World, cfg: Config) {
    P.Inv(g.cell, cfg.capacity) && C.Inv(g.conn) && LinksInv(g) && Injective(g)
  }

  // ------------------------------------------------------------ steps of the store

  /** No step of the store but reading changes what a watch replayed or has been read. */
  predicate SameReading(ch: A.Channel, ch': A.Channel) {
    ch'.replay == ch.replay && ch'.received == ch.received
  }

  ghost predicate KeepsReading(c: A.Cell, c': A.Cell) {
    forall k :: k in c.channels ==> k in c'.channels && SameReading(c.channels[k], c'.channels[k])
  }

  lemma EnsureChannels(c: A.Cell, loads: bool)
    requires A.Ensure(c, loads).Ready?
    ensures A.Ensure(c, loads).cell.channels == c.channels && A.Ensure(c, loads).cell.stream.Some?
  {
  }

  lemma PublishReadyReads(c: A.Cell, st: A.Stream, capacity: nat, body: A.Body, view: A.Body, outcome: Commit,
        reloads: bool)
    ensures KeepsReading(c, A.PublishReady(c, st, capacity, body, view, outcome, reloads).cell)
  {
  }

  lemma PublishReads(c: A.Cell, capacity: nat, body: A.Body, view: A.Body, outcome: Commit, loads: bool, reloads: bool)
    ensures KeepsReading(c, A.Publish(c, capacity, body, view, outcome, loads, reloads).cell)
  {
    if A.Ensure(c, loads).Ready? {
      EnsureChannels(c, loads);
      var c1 := A.Ensure(c, loads).cell;
      PublishReadyReads(c1, c1.stream.value, capacity, body, view, outcome, reloads);
    }
  }

  lemma NextChannelIsFree(c: A.Cell, capacity: nat, loads: bool)
    requires P.Inv(c, capacity) && A.Ensure(c, loads).Ready?
    ensures var st := A.Ensure(c, loads).cell.stream.value; A.ChannelId(st.serial, st.nextWatcher + 1) !in c.channels
  {
    EnsureChannels(c, loads);
    P.EnsureKeeps(c, capacity, loads);
  }

  /** A new watcher adds a channel and leaves the others alone. */
  lemma EnrolAdds(c: A.Cell, st: A.Stream, mode: A.Mode, queue: int)
    requires A.ChannelId(st.serial, st.nextWatcher + 1) !in c.channels
    ensures var watched := A.Enrol(c, st, mode, queue);
      && watched.reply.Some? && watched.reply.value.channel !in c.channels
      && watched.reply.value.channel in watched.cell.channels
      && forall k :: k in c.channels ==> k in watched.cell.channels && watched.cell.channels[k] == c.channels[k]
  {
  }

  lemma WatchAdds(c: A.Cell, capacity: nat, after: Option<nat>, queue: int, loads: bool)
    requires P.Inv(c, capacity)
    ensures var watched := A.Watch(c, after, queue, loads);
      && (forall k :: k in c.channels ==> k in watched.cell.channels && watched.cell.channels[k] == c.channels[k])
      && (watched.reply.Some? ==>
            watched.reply.value.channel !in c.channels && watched.reply.value.channel in watched.cell.channels)
  {
    if A.Ensure(c, loads).Ready? {
      EnsureChannels(c, loads);
      NextChannelIsFree(c, capacity, loads);
      var c1 := A.Ensure(c, loads).cell;
      EnrolAdds(c1, c1.stream.value, A.WatchMode(c1.stream.value, after), queue);
    }
  }

  lemma OtherStoreReads(c: A.Cell, capacity: nat, a: A.Action)
    requires a.DoCancel? || a.DoReloadDurable? || a.DoCurrentView? || a.PersistView?
    ensures KeepsReading(c, A.Step(c, capacity, a))
  {
  }

  lemma ForgetReads(c: A.Cell, loads: bool, destroy: Write)
    ensures KeepsReading(c, A.Forget(c, loads, destroy))
  {
    if A.Ensure(c, loads).Ready? {
      EnsureChannels(c, loads);
    }
  }

  lemma StoreReads(c: A.Cell, capacity: nat, a: A.Action)
    requires P.Inv(c, capacity) && StoreAlone(a)
    ensures KeepsReading(c, A.Step(c, capacity, a))
  {
    match a
    case DoPublish(body, view, outcome, loads, reloads) =>
      PublishReads(c, capacity, body, view, outcome, loads, reloads);
    case DoWatch(after, queue, loads) => WatchAdds(c, capacity, after, queue, loads);
    case DoForceReset(reason, queue, loads) => WatchAdds(c, capacity, None, queue, loads);
    case DoForget(loads, destroy) => ForgetReads(c, loads, destroy);
    case _ => OtherStoreReads(c, capacity, a);
  }

  lemma SyncedKeeps(g: World, cell: A.Cell)
    requires C.Inv(g.conn) && LinksInv(g) && KeepsReading(g.cell, cell)
    ensures var conn := Synced(g.conn, cell, g.carries);
      C.Inv(conn) && LinksInv(g.(cell := cell, conn := conn))
  {
    var conn := Synced(g.conn, cell, g.carries);
    forall w | 0 <= w < |g.conn.table|
      ensures conn.table[w] == g.conn.table[w].(sent := conn.table[w].sent)
      ensures g.conn.table[w].taken <= |conn.table[w].sent|
      ensures conn.table[w].sent[..g.conn.table[w].taken] == g.conn.table[w].sent[..g.conn.table[w].taken]
    {
      if w in g.carries {
        SyncedPrefix(g.conn.table[w], g.cell.channels[g.carries[w]], cell.channels[g.carries[w]]);
      } else {
        TakenBound(g.conn, w);
      }
    }
    C.ResentKeeps(g.conn, conn);
  }

  lemma TakenBound(s: C.State, w: nat)
    requires C.Inv(s) && w < |s.table|
    ensures s.table[w].taken <= |s.table[w].sent|
  {
    assert C.SubscriptionInv(s.table[w], C.EventsOf(s.out, w), C.ForwarderOf(s, w), C.AnsweringOf(s, w));
  }

  lemma SyncedPrefix(sub: C.Subscription, ch: A.Channel, ch': A.Channel)
    requires Linked(sub, ch) && SameReading(ch, ch')
    ensures sub.taken <= |Readable(ch')| && Readable(ch')[..sub.taken] == sub.sent[..sub.taken]
  {
    assert Readable(ch)[..|ch.received|] == ch.received && Readable(ch')[..|ch'.received|] == ch'.received;
  }

  // -------------------------------------------------------- steps of the connection

  /** Same replay, same channel, same place in it. */
  predicate SameSubscription(sub: C.Subscription, sub': C.Subscription) {
    sub'.replay == sub.replay && sub'.sent == sub.sent && sub'.taken == sub.taken
  }

  lemma CancelKeepsSubscription(s: C.State, codex: Id, w: nat)
    requires w < |s.table|
    ensures |C.CancelOld(s, codex).table| == |s.table| && SameSubscription(s.table[w], C.CancelOld(s, codex).table[w])
  {
  }

  lemma HandlerKeepsSubscription(s: C.State, maxWatches: nat, a: C.Action, w: nat)
    requires w < |s.table| && (a.BeginWatch? || a.Answer? || a.Unwatch? || a.Shutdown?)
    ensures var s' := C.Step(s, maxWatches, a); w < |s'.table| && SameSubscription(s.table[w], s'.table[w])
  {
    match a
    case BeginWatch(codex, _) => CancelKeepsSubscription(s, codex, w);
    case Answer(_) =>
      if s.lock.Answering? && s.lock.watch < |s.table| {
        CancelKeepsSubscription(s, s.table[s.lock.watch].codex, w);
      }
    case Unwatch(codex, _) => CancelKeepsSubscription(s, codex, w);
    case Shutdown =>
  }

  /** What one step of the connection leaves of a subscription it does not read. */
  lemma ClientKeepsSubscription(s: C.State, maxWatches: nat, a: C.Action, w: nat)
    requires w < |s.table| && !(a.Take? && a.watch == w) && !(a.Offer? && a.watch == w) && !(a.Evict? && a.watch == w)
    ensures var s' := C.Step(s, maxWatches, a); w < |s'.table| && SameSubscription(s.table[w], s'.table[w])
  {
    if a.BeginWatch? || a.Answer? || a.Unwatch? || a.Shutdown? {
      HandlerKeepsSubscription(s, maxWatches, a, w);
    }
  }

  lemma ClientKeeps(g: World, cfg: Config, a: C.Action)
    requires Inv(g, cfg) && ClientAlone(g, cfg, a)
    ensures Inv(g.(conn := C.Step(g.conn, cfg.maxWatches, a)), cfg)
  {
    C.StepKeeps(g.conn, cfg.maxWatches, a);
    forall w | w in g.carries
      ensures var s' := C.Step(g.conn, cfg.maxWatches, a);
        w < |s'.table| && Linked(s'.table[w], g.cell.channels[g.carries[w]])
    {
      ClientKeepsSubscription(g.conn, cfg.maxWatches, a, w);
    }
  }

  // ------------------------------------------------------------------ joint steps

  lemma CancelKeepsLinks(g: World, codex: Id)
    requires LinksInv(g)
    ensures LinksInv(g.(conn := C.CancelOld(g.conn, codex)))
  {
    forall w | w in g.carries
      ensures w < |C.CancelOld(g.conn, codex).table| &&
        Linked(C.CancelOld(g.conn, codex).table[w], g.cell.channels[g.carries[w]])
    {
      CancelKeepsSubscription(g.conn, codex, w);
    }
  }

  /** A watch that the store accepted starts out linked to its new channel. */
  lemma NewLink(c: A.Cell, codex: Id, after: Option<nat>, queue: int, loads: bool)
    requires A.Watch(c, after, queue, loads).reply.Some?
    ensures var watched := A.Watch(c, after, queue, loads);
      var r := watched.reply.value;
      r.channel in watched.cell.channels
      && Linked(C.Subscription(codex, r.replay, [], 0, false, false), watched.cell.channels[r.channel])
  {
  }

  lemma LinkedAfterWatch(g: World, cell: A.Cell, reply: A.WatchReply, codex: Id)
    requires LinksInv(g) && Injective(g)
    requires forall k :: k in g.cell.channels ==> k in cell.channels && cell.channels[k] == g.cell.channels[k]
    requires reply.channel !in g.cell.channels && reply.channel in cell.channels
    requires Linked(C.Subscription(codex, reply.replay, [], 0, false, false), cell.channels[reply.channel])
    ensures var conn := C.Subscribed(g.conn, codex, reply.replay);
      var g' := World(cell, conn, g.carries[|g.conn.table| := reply.channel]);
      LinksInv(g') && Injective(g')
  {
  }

  /** All that matters of a watch the store accepted. */
  ghost predicate Accepted(c: A.Cell, cfg: Config, cell: A.Cell, reply: A.WatchReply) {
    && P.Inv(cell, cfg.capacity)
    && (forall k :: k in c.channels ==> k in cell.channels && cell.channels[k] == c.channels[k])
    && reply.channel !in c.channels && reply.channel in cell.channels
    && Linked(C.Subscription(cfg.codex, reply.replay, [], 0, false, false), cell.channels[reply.channel])
  }

  lemma WatchAccepted(c: A.Cell, cfg: Config, after: Option<nat>, queue: int, loads: bool)
    requires P.Inv(c, cfg.capacity) && A.Watch(c, after, queue, loads).reply.Some?
    ensures var watched := A.Watch(c, after, queue, loads); Accepted(c, cfg, watched.cell, watched.reply.value)
  {
    P.WatchKeeps(c, cfg.capacity, after, queue, loads);
    WatchAdds(c, cfg.capacity, after, queue, loads);
    NewLink(c, cfg.codex, after, queue, loads);
  }

  lemma JoinKeeps(g: World, cfg: Config, watched: A.Watched)
    requires Inv(g, cfg) && g.conn.lock.Free? && cfg.codex !in g.conn.watches
    requires watched.reply.Some? ==> Accepted(g.cell, cfg, watched.cell, watched.reply.value)
    ensures Inv(Join(g, cfg, watched), cfg)
  {
    if watched.reply.Some? {
      C.SubscribeKeeps(g.conn, cfg.codex, watched.reply.value.replay);
      LinkedAfterWatch(g, watched.cell, watched.reply.value, cfg.codex);
    }
  }

  lemma CancelledKeeps(g: World, cfg: Config)
    requires Inv(g, cfg) && g.conn.lock.Free?
    ensures var s1 := C.CancelOld(g.conn, cfg.codex);
      Inv(g.(conn := s1), cfg) && s1.lock.Free? && cfg.codex !in s1.watches
  {
    C.CancelOldKeeps(g.conn, cfg.codex);
    CancelKeepsLinks(g, cfg.codex);
  }

  lemma BeginKeeps(g: World, cfg: Config, after: Option<nat>, queue: int, loads: bool)
    requires Inv(g, cfg)
    ensures Inv(Begin(g, cfg, after, queue, loads), cfg)
  {
    if g.conn.lock.Free? {
      CancelledKeeps(g, cfg);
      if A.Watch(g.cell, after, queue, loads).reply.Some? {
        WatchAccepted(g.cell, cfg, after, queue, loads);
      }
      JoinKeeps(g.(conn := C.CancelOld(g.conn, cfg.codex)), cfg, A.Watch(g.cell, after, queue, loads));
    }
  }

  /** Reading takes the same event from the subscription and from the channel. */
  lemma TakeLinks(g: World, cfg: Config, w: nat)
    requires LinksInv(g) && Injective(g) && w in g.carries
    requires C.Step(g.conn, cfg.maxWatches, C.Take(w)) != g.conn
    ensures LinksInv(Take(g, cfg, w)) && Injective(Take(g, cfg, w))
  {
    var ch := g.cell.channels[g.carries[w]];
    assert ch.queue != [];
    assert (ch.received + [ch.queue[0]]) + ch.queue[1..] == Readable(ch);
  }

  lemma TakeKeeps(g: World, cfg: Config, w: nat)
    requires Inv(g, cfg)
    ensures Inv(Take(g, cfg, w), cfg)
  {
    if w in g.carries && C.Step(g.conn, cfg.maxWatches, C.Take(w)) != g.conn {
      TakeLinks(g, cfg, w);
      C.StepKeeps(g.conn, cfg.maxWatches, C.Take(w));
      P.ReceiveKeeps(g.cell, cfg.capacity, g.carries[w]);
    }
  }

  /** A row write of the store that brings a deleted Codex back under the stream of its old log. */
  predicate MixesLogs(g: World, a: Action) {
    a.Store? && P.MixesLogs(g.cell, a.store)
  }

  lemma StepKeeps(g: World, cfg: Config, a: Action)
    requires Inv(g, cfg) && !MixesLogs(g, a)
    ensures Inv(Step(g, cfg, a), cfg)
  {
    match a
    case Store(x) =>
      if StoreAlone(x) {
        P.StepKeeps(g.cell, cfg.capacity, x);
        StoreReads(g.cell, cfg.capacity, x);
        SyncedKeeps(g, A.Step(g.cell, cfg.capacity, x));
      }
    case Client(x) => if ClientAlone(g, cfg, x) { ClientKeeps(g, cfg, x); }
    case BeginWatch(after, queue, loads) => BeginKeeps(g, cfg, after, queue, loads);
    case TakeEvent(w) => TakeKeeps(g, cfg, w);
  }

  /** A process and a connection that have just started, over any durable log. */
  ghost predicate Init(g: World) {
    P.Init(g.cell) && g.conn == C.START && g.carries == map[]
  }

  predicate NeverMixes(g: World, cfg: Config, actions: seq<Action>) {
    actions == [] ||
    (var earlier := actions[..|actions| - 1];
     NeverMixes(g, cfg, earlier) && !MixesLogs(Run(g, cfg, earlier), actions[|actions| - 1]))
  }

  lemma {:induction false} RunKeeps(g: World, cfg: Config, actions: seq<Action>)
    requires Init(g) && NeverMixes(g, cfg, actions)
    ensures Inv(Run(g, cfg, actions), cfg)
  {
    if actions != [] {
      RunKeeps(g, cfg, actions[..|actions| - 1]);
      StepKeeps(Run(g, cfg, actions[..|actions| - 1]), cfg, actions[|actions| - 1]);
    }
  }

  // -------------------------------------------------------------- main result

  /** `s` without its entry at `i`. */
  function Without(s: seq<A.Event>, i: nat): seq<A.Event>
    requires i < |s|
  {
    s[..i] + s[i + 1..]
  }

  /** What a client can have been sent of the broadcast events `all` when its Codex was forgotten: a
      beginning of them, of them with one left out, or either followed by the terminal event. */
  ghost predicate EndsIn(sent: seq<A.Event>, all: seq<A.Event>, lost: Option<nat>, terminal: A.Event) {
    if lost.None? then sent <= all || exists n: nat :: n <= |all| && sent == all[..n] + [terminal]
    else lost.value < |all| && (sent <= Without(all, lost.value) ||
         exists n: nat :: lost.value < n <= |all| && sent == Without(all[..n], lost.value) + [terminal])
  }

  /** What a client can have been sent for a watch with this channel. */
  ghost predicate Received(sent: seq<A.Event>, ch: A.Channel, log: seq<A.Event>, hidden: set<nat>) {
    && (ch.terminal.None? ==>
          && sent <= P.Visible(log, ch.from, hidden)
          && ((forall n :: n in hidden ==> n <= ch.from) ==>
                ch.from + |sent| <= |log| && sent == log[ch.from..ch.from + |sent|]))
    && (ch.terminal.Some? ==> EndsIn(sent, P.Visible(log, ch.from, hidden), LostAt(ch), ch.terminal.value))
  }

  /** Over every joint run in which no row write mixes two logs, what a client was sent for a watch is a
      beginning of all that was broadcast after the watch's cursor, whether or not the watch still lasts,
      and a gap-free stretch of the log if no commit was hidden since. If the Codex was forgotten, at
      most one event is missing, and the terminal event comes last. */
  lemma ClientSeesLog(g0: World, cfg: Config, actions: seq<Action>, w: nat)
    requires Init(g0) && NeverMixes(g0, cfg, actions) && w in Run(g0, cfg, actions).carries
    ensures var g := Run(g0, cfg, actions);
      g.carries[w] in g.cell.channels && (
      var ch := g.cell.channels[g.carries[w]];
      var era := A.EraOf(g.cell, ch.era);
      Received(C.EventsOf(g.conn.out, w), ch, era.log, era.hidden))
  {
    RunKeeps(g0, cfg, actions);
    var g := Run(g0, cfg, actions);
    SentIsReadable(g, cfg, w);
    var ch := g.cell.channels[g.carries[w]];
    var era := A.EraOf(g.cell, ch.era);
    ReadableIsVisible(ch, era.log, era.hidden, C.EventsOf(g.conn.out, w), A.Registered(g.cell, g.carries[w]));
  }

  /** The place, among replay and live events, of the event that was evicted for the terminal one. */
  function LostAt(ch: A.Channel): Option<nat> {
    if ch.lost.None? then None else Some(|ch.replay| + ch.lost.value)
  }

  /** A client was sent a beginning of what its watch replayed and its channel offered. */
  lemma SentIsReadable(g: World, cfg: Config, w: nat)
    requires Inv(g, cfg) && w in g.carries
    ensures var ch := g.cell.channels[g.carries[w]];
      var era := A.EraOf(g.cell, ch.era);
      && P.Numbered(era.log) && P.ChannelInv(ch, era.log, era.hidden, A.Registered(g.cell, g.carries[w]))
      && C.EventsOf(g.conn.out, w) <= ch.replay + Readable(ch)
  {
    var ch := g.cell.channels[g.carries[w]];
    ChannelOfEra(g.cell, cfg.capacity, g.carries[w]);
    SubscriptionIsRead(g.conn, w);
  }

  lemma ChannelOfEra(c: A.Cell, capacity: nat, k: A.ChannelId)
    requires P.Inv(c, capacity) && k in c.channels
    ensures var era := A.EraOf(c, c.channels[k].era);
      P.Numbered(era.log) && P.ChannelInv(c.channels[k], era.log, era.hidden, A.Registered(c, k))
  {
    assert P.HeldInv(c.channels[k], c.past, c.log, c.hidden, A.Registered(c, k), c.row.Some?);
  }

  lemma SubscriptionIsRead(s: C.State, w: nat)
    requires C.Inv(s) && w < |s.table|
    ensures C.EventsOf(s.out, w) <= s.table[w].replay + s.table[w].sent
  {
    var sub, sent := s.table[w], C.EventsOf(s.out, w);
    assert C.SubscriptionInv(sub, sent, C.ForwarderOf(s, w), C.AnsweringOf(s, w));
    assert sub.sent[..sub.taken] <= sub.sent;
  }

  lemma ReadableIsVisible(ch: A.Channel, log: seq<A.Event>, hidden: set<nat>, sent: seq<A.Event>, registered: bool)
    requires P.Numbered(log) && P.ChannelInv(ch, log, hidden, registered) && sent <= ch.replay + Readable(ch)
    ensures Received(sent, ch, log, hidden)
  {
    var all := P.Visible(log, ch.from, hidden);
    var got := ch.replay + ch.sent;
    if ch.terminal.None? {
      P.VisibleContiguousIff(log, ch.from, hidden);
    } else if ch.lost.None? {
      LastAfterAll(sent, got, all, ch.terminal.value);
    } else {
      assert ch.replay + (ch.sent[..ch.lost.value] + ch.sent[ch.lost.value + 1..]) == Without(got, LostAt(ch).value);
      LastAfterAllButOne(sent, got, all, LostAt(ch).value, ch.terminal.value);
    }
  }

  lemma LastAfterAll(sent: seq<A.Event>, got: seq<A.Event>, all: seq<A.Event>, terminal: A.Event)
    requires got <= all && sent <= got + [terminal]
    ensures EndsIn(sent, all, None, terminal)
  {
    if |sent| > |got| {
      assert sent == all[..|got|] + [terminal];
    }
  }

  lemma LastAfterAllButOne(sent: seq<A.Event>, got: seq<A.Event>, all: seq<A.Event>, i: nat, terminal: A.Event)
    requires got <= all && i < |got| && sent <= Without(got, i) + [terminal]
    ensures EndsIn(sent, all, Some(i), terminal)
  {
    assert all[..|got|] == got;
    if |sent| >= |got| {
      assert sent == Without(all[..|got|], i) + [terminal];
    }
  }
}
