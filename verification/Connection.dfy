/** The watches of one client connection (internal/gateway/server.go). Handlers and
    forwarders run concurrently; `watchesMu` is the `lock` field, and every action is
    either one critical section of it or one channel operation outside it. `accepted`
    says whether the bounded send queue had room. An action whose guard fails changes
    nothing, so a run is any sequence of actions. */
module Connection {
  import opened Common
  import opened Activity

  datatype Frame =
    | WatchResponse(codex: Id, watch: nat)
    | EventFrame(codex: Id, watch: nat, event: Event)
    | UnwatchResponse(codex: Id)
    | OtherFrame

  /** An activity.Watch: `sent` is everything its channel has offered, `taken` how much
      of that the forwarder has read. */
  datatype Subscription = Subscription(codex: Id, replay: seq<Event>, sent: seq<Event>, taken: nat, closed: bool,
        slow: bool)

  /** Who holds watchesMu: nobody, or a handleWatch that has queued so many frames. */
  datatype Lock = Free | Answering(watch: nat, queued: nat)

  /** `forwarders` maps each running forwardWatch to the event it has read but not yet forwarded. */
  datatype State = State(
    watches: map<Id, nat>, table: seq<Subscription>, forwarders: map<nat, Option<Event>>,
    lock: Lock, out: seq<Frame>, closing: bool)

  datatype Action =
    | BeginWatch(codex: Id, replay: Option<seq<Event>>)
    | Answer(accepted: bool)
    | Unwatch(codex: Id, accepted: bool)
    | Take(watch: nat)
    | Forward(watch: nat, accepted: bool)
    | SeeClosed(watch: nat)
    | SeeSlow(watch: nat)
    | Stop(watch: nat)
    | Offer(watch: nat, event: Event)
    | Evict(watch: nat)
    | CloseChannel(watch: nat)
    | MarkSlow(watch: nat)
    | SendOther(accepted: bool)
    | Shutdown

  predicate Current(s: State, w: nat) {
    w < |s.table| && s.table[w].codex in s.watches && s.watches[s.table[w].codex] == w
  }

  function CancelOld(s: State, codex: Id): State {
    if codex in s.watches && s.watches[codex] < |s.table| then
      var w := s.watches[codex];
      s.(watches := s.watches - {codex}, table := s.table[w := s.table[w].(closed := true)])
    else s
  }

  function Registering(s: State, codex: Id, replay: Option<seq<Event>>, maxWatches: nat): State {
    var s1 := CancelOld(s, codex);
    if |s1.watches| >= maxWatches || replay.None? then s1
    else
      var w := |s1.table|;
      s1.(table := s1.table + [Subscription(codex, replay.value, [], 0, false, false)],
          watches := s1.watches[codex := w], lock := Answering(w, 0))
  }

  /** The frame handleWatch queues next: the response first, then the replay in order. */
  function NextFrame(s: State, w: nat, queued: nat): Frame
    requires w < |s.table| && queued <= |s.table[w].replay|
  {
    if queued == 0 then WatchResponse(s.table[w].codex, w)
    else EventFrame(s.table[w].codex, w, s.table[w].replay[queued - 1])
  }

  function Answering1(s: State, accepted: bool): State {
    if s.lock.Free? || s.lock.watch >= |s.table| || s.lock.queued > |s.table[s.lock.watch].replay| then s
    else
      var w := s.lock.watch;
      if !accepted then CancelOld(s, s.table[w].codex).(lock := Free, closing := true)
      else
        var s1 := s.(out := s.out + [NextFrame(s, w, s.lock.queued)], lock := Answering(w, s.lock.queued + 1));
        if s1.lock.queued == |s.table[w].replay| + 1
        then s1.(lock := Free, forwarders := s1.forwarders[w := None])
        else s1
  }

  function Unwatching(s: State, codex: Id, accepted: bool): State {
    var s1 := CancelOld(s, codex);
    if accepted then s1.(out := s1.out + [UnwatchResponse(codex)]) else s1.(closing := true)
  }

  function Exit(s: State, w: nat): State {
    s.(forwarders := s.forwarders - {w})
  }

  function Forwarding(s: State, w: nat, accepted: bool): State {
    if w !in s.forwarders || s.forwarders[w].None? || w >= |s.table| then s
    else if !Current(s, w) then Exit(s, w)
    else if !accepted then Exit(s, w).(closing := true)
    else s.(out := s.out + [EventFrame(s.table[w].codex, w, s.forwarders[w].value)],
            forwarders := s.forwarders[w := None])
  }

  function Step(s: State, maxWatches: nat, a: Action): State {
    match a
    case BeginWatch(codex, replay) => if s.lock.Free? then Registering(s, codex, replay, maxWatches) else s
    case Answer(accepted) => Answering1(s, accepted)
    case Unwatch(codex, accepted) => if s.lock.Free? then Unwatching(s, codex, accepted) else s
    case Take(w) =>
      if w in s.forwarders && s.forwarders[w].None? && w < |s.table| && s.table[w].taken < |s.table[w].sent|
      then s.(forwarders := s.forwarders[w := Some(s.table[w].sent[s.table[w].taken])],
              table := s.table[w := s.table[w].(taken := s.table[w].taken + 1)])
      else s
    case Forward(w, accepted) => if s.lock.Free? then Forwarding(s, w, accepted) else s
    case SeeClosed(w) =>
      if s.lock.Free? && w in s.forwarders && s.forwarders[w].None? && w < |s.table|
         && s.table[w].closed && s.table[w].taken == |s.table[w].sent|
      then Exit(if Current(s, w) then s.(watches := s.watches - {s.table[w].codex}) else s, w)
      else s
    case SeeSlow(w) =>
      if s.lock.Free? && w in s.forwarders && s.forwarders[w].None? && w < |s.table| && s.table[w].slow
      then Exit(if Current(s, w) then s.(closing := true) else s, w)
      else s
    case Stop(w) => if s.closing && w in s.forwarders && s.forwarders[w].None? then Exit(s, w) else s
    case Offer(w, e) =>
      if w < |s.table| && !s.table[w].closed
      then s.(table := s.table[w := s.table[w].(sent := s.table[w].sent + [e])]) else s
    case Evict(w) =>
      if w < |s.table| && s.table[w].taken < |s.table[w].sent|
      then
        var sub := s.table[w];
        s.(table := s.table[w := sub.(sent := sub.sent[..sub.taken] + sub.sent[sub.taken + 1..])])
      else s
    case CloseChannel(w) => if w < |s.table| then s.(table := s.table[w := s.table[w].(closed := true)]) else s
    case MarkSlow(w) => if w < |s.table| then s.(table := s.table[w := s.table[w].(slow := true)]) else s
    case SendOther(accepted) => if accepted then s.(out := s.out + [OtherFrame]) else s.(closing := true)
    case Shutdown =>
      if s.lock.Free?
      then s.(watches := map[], closing := true,
              table := seq(|s.table|, i requires 0 <= i < |s.table| =>
                             if Current(s, i) then s.table[i].(closed := true) else s.table[i]))
      else s
  }

  function Run(s: State, maxWatches: nat, actions: seq<Action>): State {
    if actions == [] then s else Step(Run(s, maxWatches, actions[..|actions| - 1]), maxWatches, actions[|actions| - 1])
  }

  const START: State := State(map[], [], map[], Free, [], false)

  // ------------------------------------------------------- what was queued

  /** The events queued for one watch, in queue order. */
  function EventsOf(out: seq<Frame>, w: nat): seq<Event> {
    if out == [] then []
    else
      var last := out[|out| - 1];
      EventsOf(out[..|out| - 1], w) + (if last.EventFrame? && last.watch == w then [last.event] else [])
  }

  /** The watch announced by the last Watch or Unwatch Response for this Codex. */
  function LastAnnounced(out: seq<Frame>, codex: Id): Option<nat> {
    if out == [] then None
    else
      var last := out[|out| - 1];
      if last.WatchResponse? && last.codex == codex then Some(last.watch)
      else if last.UnwatchResponse? && last.codex == codex then None
      else LastAnnounced(out[..|out| - 1], codex)
  }

  /** Every queued event belongs to the watch that the last response for its Codex announced. */
  ghost predicate Ordered(out: seq<Frame>) {
    forall j :: 0 <= j < |out| && out[j].EventFrame? ==> LastAnnounced(out[..j], out[j].codex) == Some(out[j].watch)
  }

  /** One watch: `queued` are its events in the send queue, `forwarder` its running
      forwarder and the event that one holds, `answering` the progress of its handleWatch. */
  ghost predicate SubscriptionInv(sub: Subscription, queued: seq<Event>, forwarder: Option<Option<Event>>,
        answering: Option<nat>) {
    && sub.taken <= |sub.sent|
    && queued <= sub.replay + sub.sent[..sub.taken]
    && (forwarder == Some(None) ==> queued == sub.replay + sub.sent[..sub.taken])
    && (forwarder.Some? && forwarder.value.Some? ==>
          && sub.taken > 0 && forwarder.value.value == sub.sent[sub.taken - 1]
          && queued == sub.replay + sub.sent[..sub.taken - 1])
    && (answering.Some? ==>
          && forwarder.None? && sub.taken == 0 && answering.value <= |sub.replay|
          && queued == if answering.value == 0 then [] else sub.replay[..answering.value - 1])
  }

  function ForwarderOf(s: State, w: nat): Option<Option<Event>> {
    if w in s.forwarders then Some(s.forwarders[w]) else None
  }

  function AnsweringOf(s: State, w: nat): Option<nat> {
    if s.lock.Answering? && s.lock.watch == w then Some(s.lock.queued) else None
  }

  ghost predicate WatchesInv(s: State) {
    && (forall c :: c in s.watches ==> s.watches[c] < |s.table| && s.table[s.watches[c]].codex == c)
    && (forall w :: w in s.forwarders ==> w < |s.table|)
    && (s.lock.Answering? ==> Current(s, s.lock.watch))
    && (forall c :: c in s.watches && AnsweringOf(s, s.watches[c]) != Some(0) ==>
      LastAnnounced(s.out, c) == Some(s.watches[c]))
  }

  ghost predicate SubscriptionsInv(s: State) {
    && (forall w :: w >= |s.table| ==> EventsOf(s.out, w) == [])
    && (forall w :: 0 <= w < |s.table| ==>
      SubscriptionInv(s.table[w], EventsOf(s.out, w), ForwarderOf(s, w), AnsweringOf(s, w)))
  }

  ghost predicate Inv(s: State) {
    Ordered(s.out) && WatchesInv(s) && SubscriptionsInv(s)
  }

  function Announce(before: Option<nat>, f: Frame, codex: Id): Option<nat> {
    if f.WatchResponse? && f.codex == codex then Some(f.watch)
    else if f.UnwatchResponse? && f.codex == codex then None
    else before
  }

  lemma QueueFrame(out: seq<Frame>, f: Frame)
    ensures forall w ::
      EventsOf(out + [f], w) == EventsOf(out, w) + (if f.EventFrame? && f.watch == w then [f.event] else [])
    ensures forall c :: LastAnnounced(out + [f], c) == Announce(LastAnnounced(out, c), f, c)
    ensures Ordered(out) && (f.EventFrame? ==> LastAnnounced(out, f.codex) == Some(f.watch)) ==> Ordered(out + [f])
  {
    assert (out + [f])[..|out|] == out;
    assert forall j :: 0 <= j < |out| ==> (out + [f])[..j] == out[..j];
  }

  // ------------------------------------------------------- every step keeps Inv

  lemma CancelOldKeeps(s: State, codex: Id)
    requires Inv(s) && s.lock.Free?
    ensures Inv(CancelOld(s, codex)) && CancelOld(s, codex).lock.Free? && codex !in CancelOld(s, codex).watches
    ensures CancelOld(s, codex).out == s.out
  {
    var s' := CancelOld(s, codex);
    forall w | 0 <= w < |s'.table|
      ensures SubscriptionInv(s'.table[w], EventsOf(s'.out, w), ForwarderOf(s', w), AnsweringOf(s', w))
    {
      assert SubscriptionInv(s.table[w], EventsOf(s.out, w), ForwarderOf(s, w), AnsweringOf(s, w));
    }
  }

  function Subscribed(s: State, codex: Id, replay: seq<Event>): State {
    var w := |s.table|;
    s.(table := s.table + [Subscription(codex, replay, [], 0, false, false)], watches := s.watches[codex := w],
      lock := Answering(w, 0))
  }

  lemma SubscribedWatches(s: State, codex: Id, replay: seq<Event>)
    requires Inv(s) && s.lock.Free? && codex !in s.watches
    ensures WatchesInv(Subscribed(s, codex, replay))
  {
  }

  /** A new subscription, not yet answered. */
  lemma SubscribeKeeps(s: State, codex: Id, replay: seq<Event>)
    requires Inv(s) && s.lock.Free? && codex !in s.watches
    ensures Inv(Subscribed(s, codex, replay))
  {
    var s' := Subscribed(s, codex, replay);
    SubscribedWatches(s, codex, replay);
    forall w | 0 <= w < |s'.table|
      ensures SubscriptionInv(s'.table[w], EventsOf(s'.out, w), ForwarderOf(s', w), AnsweringOf(s', w))
    {
      if w < |s.table| {
        assert SubscriptionInv(s.table[w], EventsOf(s.out, w), ForwarderOf(s, w), AnsweringOf(s, w));
      }
    }
  }

  lemma RegisteringKeeps(s: State, codex: Id, replay: Option<seq<Event>>, maxWatches: nat)
    requires Inv(s) && s.lock.Free?
    ensures Inv(Registering(s, codex, replay, maxWatches))
  {
    CancelOldKeeps(s, codex);
    if replay.Some? {
      SubscribeKeeps(CancelOld(s, codex), codex, replay.value);
    }
  }

  lemma RefusedAnswerKeeps(s: State)
    requires Inv(s)
    ensures Inv(Answering1(s, false))
  {
    var s' := Answering1(s, false);
    forall v | 0 <= v < |s'.table|
      ensures SubscriptionInv(s'.table[v], EventsOf(s'.out, v), ForwarderOf(s', v), AnsweringOf(s', v))
    {
      assert SubscriptionInv(s.table[v], EventsOf(s.out, v), ForwarderOf(s, v), AnsweringOf(s, v));
    }
  }

  lemma AnswerKeepsSubscription(sub: Subscription, queued: seq<Event>, q: nat)
    requires SubscriptionInv(sub, queued, None, Some(q))
    ensures var queued' := if q == 0 then queued else queued + [sub.replay[q - 1]];
      if q == |sub.replay| then SubscriptionInv(sub, queued', Some(None), None)
      else SubscriptionInv(sub, queued', None, Some(q + 1))
  {
    if q > 0 {
      assert sub.replay[..q - 1] + [sub.replay[q - 1]] == sub.replay[..q];
    }
    assert sub.replay[..|sub.replay|] == sub.replay;
  }

  /** Queueing one frame that concerns watch `w`. */
  lemma QueueingKeeps(s: State, s': State, f: Frame, w: nat)
    requires Inv(s) && w < |s.table|
    requires s' == s.(out := s.out + [f], lock := s'.lock, forwarders := s'.forwarders)
    requires forall v :: v != w ==> ForwarderOf(s', v) == ForwarderOf(s, v) && AnsweringOf(s', v) == AnsweringOf(s, v)
    requires f.EventFrame? ==> f.watch == w && LastAnnounced(s.out, f.codex) == Some(w)
    requires WatchesInv(s')
    requires SubscriptionInv(s.table[w], EventsOf(s'.out, w), ForwarderOf(s', w), AnsweringOf(s', w))
    ensures Inv(s')
  {
    QueueFrame(s.out, f);
    forall v | 0 <= v < |s'.table|
      ensures SubscriptionInv(s'.table[v], EventsOf(s'.out, v), ForwarderOf(s', v), AnsweringOf(s', v))
    {
      if v != w {
        assert SubscriptionInv(s.table[v], EventsOf(s.out, v), ForwarderOf(s, v), AnsweringOf(s, v));
      }
    }
  }

  /** What an accepted frame of an answer changes. */
  lemma AcceptedAnswerIs(s: State)
    requires s.lock.Answering? && s.lock.watch < |s.table| && s.lock.queued <= |s.table[s.lock.watch].replay|
    requires s.lock.watch !in s.forwarders
    ensures var w := s.lock.watch;
      var q := s.lock.queued;
      var s' := Answering1(s, true);
      && s' == s.(out := s.out + [NextFrame(s, w, q)], lock := s'.lock, forwarders := s'.forwarders)
      && (forall v :: v != w ==> ForwarderOf(s', v) == ForwarderOf(s, v) && AnsweringOf(s', v) == AnsweringOf(s, v))
      && ForwarderOf(s', w) == (if q == |s.table[w].replay| then Some(None) else None)
      && AnsweringOf(s', w) == (if q == |s.table[w].replay| then None else Some(q + 1))
  {
  }

  lemma AcceptedAnswerKeeps(s: State)
    requires Inv(s) && s.lock.Answering?
    ensures Inv(Answering1(s, true))
  {
    var w := s.lock.watch;
    var q := s.lock.queued;
    var f := NextFrame(s, w, q);
    var s' := Answering1(s, true);
    assert SubscriptionInv(s.table[w], EventsOf(s.out, w), None, Some(q));
    AcceptedAnswerIs(s);
    AnsweredWatches(s);
    assert EventsOf(s'.out, w) == if q == 0 then EventsOf(s.out, w)
      else EventsOf(s.out, w) + [s.table[w].replay[q - 1]] by {
      QueueFrame(s.out, f);
    }
    AnswerKeepsSubscription(s.table[w], EventsOf(s.out, w), q);
    QueueingKeeps(s, s', f, w);
  }

  lemma AnsweredWatches(s: State)
    requires WatchesInv(s) && s.lock.Answering? && s.lock.queued <= |s.table[s.lock.watch].replay|
    ensures WatchesInv(Answering1(s, true))
  {
    QueueFrame(s.out, NextFrame(s, s.lock.watch, s.lock.queued));
  }

  lemma UnwatchingKeeps(s: State, codex: Id, accepted: bool)
    requires Inv(s) && s.lock.Free?
    ensures Inv(Unwatching(s, codex, accepted))
  {
    CancelOldKeeps(s, codex);
    var s1 := CancelOld(s, codex);
    var s' := Unwatching(s, codex, accepted);
    QueueFrame(s1.out, UnwatchResponse(codex));
    forall w | 0 <= w < |s'.table|
      ensures SubscriptionInv(s'.table[w], EventsOf(s'.out, w), ForwarderOf(s', w), AnsweringOf(s', w))
    {
      assert SubscriptionInv(s1.table[w], EventsOf(s1.out, w), ForwarderOf(s1, w), AnsweringOf(s1, w));
    }
  }

  lemma ForwardKeepsSubscription(sub: Subscription, queued: seq<Event>, e: Event)
    requires SubscriptionInv(sub, queued, Some(Some(e)), None)
    ensures SubscriptionInv(sub, queued + [e], Some(None), None)
  {
    assert sub.sent[..sub.taken - 1] + [sub.sent[sub.taken - 1]] == sub.sent[..sub.taken];
  }

  lemma ForwardingKeeps(s: State, w: nat, accepted: bool)
    requires Inv(s) && s.lock.Free?
    ensures Inv(Forwarding(s, w, accepted))
  {
    ExitKeeps(s, w);
    if w in s.forwarders && s.forwarders[w].Some? && Current(s, w) && accepted {
      var f := EventFrame(s.table[w].codex, w, s.forwarders[w].value);
      QueueFrame(s.out, f);
      ForwardKeepsSubscription(s.table[w], EventsOf(s.out, w), s.forwarders[w].value);
      QueueingKeeps(s, Forwarding(s, w, true), f, w);
    }
  }

  /** Changing one subscription's channel, or what its idle forwarder holds. */
  lemma ChannelKeeps(s: State, s': State, w: nat)
    requires Inv(s) && w < |s.table| && |s'.table| == |s.table| && s'.table[w].codex == s.table[w].codex
    requires s' == s.(table := s.table[w := s'.table[w]], forwarders := s'.forwarders)
    requires s'.forwarders == s.forwarders ||
      (w in s.forwarders && w in s'.forwarders && s'.forwarders == s.forwarders[w := s'.forwarders[w]])
    requires SubscriptionInv(s'.table[w], EventsOf(s.out, w), ForwarderOf(s', w), AnsweringOf(s, w))
    ensures Inv(s')
  {
    forall v | 0 <= v < |s'.table|
      ensures SubscriptionInv(s'.table[v], EventsOf(s'.out, v), ForwarderOf(s', v), AnsweringOf(s', v))
    {
      assert SubscriptionInv(s.table[v], EventsOf(s.out, v), ForwarderOf(s, v), AnsweringOf(s, v));
    }
  }

  lemma TakeKeepsSubscription(sub: Subscription, queued: seq<Event>)
    requires SubscriptionInv(sub, queued, Some(None), None) && sub.taken < |sub.sent|
    ensures SubscriptionInv(sub.(taken := sub.taken + 1), queued, Some(Some(sub.sent[sub.taken])), None)
  {
    assert sub.sent[..sub.taken] <= sub.sent[..sub.taken + 1];
  }

  lemma TakeKeeps(s: State, maxWatches: nat, w: nat)
    requires Inv(s)
    ensures Inv(Step(s, maxWatches, Take(w)))
  {
    var s' := Step(s, maxWatches, Take(w));
    if s' != s {
      assert SubscriptionInv(s.table[w], EventsOf(s.out, w), ForwarderOf(s, w), AnsweringOf(s, w));
      TakeKeepsSubscription(s.table[w], EventsOf(s.out, w));
      ChannelKeeps(s, s', w);
    }
  }

  /** The channel may change beyond what the forwarder has read. */
  lemma ResentKeepsSubscription(sub: Subscription, sub': Subscription, queued: seq<Event>,
        forwarder: Option<Option<Event>>, answering: Option<nat>)
    requires SubscriptionInv(sub, queued, forwarder, answering)
    requires sub'.replay == sub.replay && sub'.taken == sub.taken <= |sub'.sent| &&
      sub'.sent[..sub.taken] == sub.sent[..sub.taken]
    ensures SubscriptionInv(sub', queued, forwarder, answering)
  {
    if sub.taken > 0 {
      assert sub'.sent[..sub.taken - 1] == sub'.sent[..sub.taken][..sub.taken - 1];
      assert sub.sent[..sub.taken - 1] == sub.sent[..sub.taken][..sub.taken - 1];
      assert sub'.sent[sub.taken - 1] == sub'.sent[..sub.taken][sub.taken - 1];
      assert sub.sent[sub.taken - 1] == sub.sent[..sub.taken][sub.taken - 1];
    }
  }

  /** Several channels may change so at once. */
  lemma ResentKeeps(s: State, s': State)
    requires Inv(s) && |s'.table| == |s.table| && s' == s.(table := s'.table)
    requires forall w :: 0 <= w < |s.table| ==>
      && s'.table[w] == s.table[w].(sent := s'.table[w].sent)
      && s.table[w].taken <= |s'.table[w].sent|
      && s'.table[w].sent[..s.table[w].taken] == s.table[w].sent[..s.table[w].taken]
    ensures Inv(s')
  {
    forall w | 0 <= w < |s'.table|
      ensures SubscriptionInv(s'.table[w], EventsOf(s'.out, w), ForwarderOf(s', w), AnsweringOf(s', w))
    {
      ResentKeepsSubscription(s.table[w], s'.table[w], EventsOf(s.out, w), ForwarderOf(s, w), AnsweringOf(s, w));
    }
  }

  lemma QuietKeeps(s: State, maxWatches: nat, a: Action)
    requires Inv(s)
    requires a.Offer? || a.Evict? || a.CloseChannel? || a.MarkSlow?
    ensures Inv(Step(s, maxWatches, a))
  {
    var s' := Step(s, maxWatches, a);
    if a.watch < |s.table| && s' != s {
      var w := a.watch;
      assert SubscriptionInv(s.table[w], EventsOf(s.out, w), ForwarderOf(s, w), AnsweringOf(s, w));
      assert s'.table[w].sent[..s.table[w].taken] == s.table[w].sent[..s.table[w].taken];
      ResentKeepsSubscription(s.table[w], s'.table[w], EventsOf(s.out, w), ForwarderOf(s, w), AnsweringOf(s, w));
      ChannelKeeps(s, s', w);
    }
  }

  lemma ExitKeeps(s: State, w: nat)
    requires Inv(s)
    ensures Inv(Exit(s, w))
  {
    var s' := Exit(s, w);
    forall v | 0 <= v < |s'.table|
      ensures SubscriptionInv(s'.table[v], EventsOf(s'.out, v), ForwarderOf(s', v), AnsweringOf(s', v))
    {
      assert SubscriptionInv(s.table[v], EventsOf(s.out, v), ForwarderOf(s, v), AnsweringOf(s, v));
    }
  }

  /** Unregistering watches and closing channels, while no handleWatch is answering. */
  lemma UnregisterKeeps(s: State, s': State)
    requires Inv(s) && s.lock.Free? && |s'.table| == |s.table|
    requires s' == s.(table := s'.table, watches := s'.watches, closing := s'.closing)
    requires forall c :: c in s'.watches ==> c in s.watches && s'.watches[c] == s.watches[c]
    requires forall v :: 0 <= v < |s.table| ==> s'.table[v] == s.table[v].(closed := s'.table[v].closed)
    ensures Inv(s')
  {
    forall v | 0 <= v < |s'.table|
      ensures SubscriptionInv(s'.table[v], EventsOf(s'.out, v), ForwarderOf(s', v), AnsweringOf(s', v))
    {
      assert SubscriptionInv(s.table[v], EventsOf(s.out, v), ForwarderOf(s, v), AnsweringOf(s, v));
    }
  }

  lemma SeeClosedKeeps(s: State, maxWatches: nat, w: nat)
    requires Inv(s)
    ensures Inv(Step(s, maxWatches, SeeClosed(w)))
  {
    ExitKeeps(s, w);
    if Current(s, w) && s.lock.Free? {
      var s1 := s.(watches := s.watches - {s.table[w].codex});
      UnregisterKeeps(s, s1);
      ExitKeeps(s1, w);
    }
  }

  lemma SeeSlowKeeps(s: State, maxWatches: nat, w: nat)
    requires Inv(s)
    ensures Inv(Step(s, maxWatches, SeeSlow(w)))
  {
    ExitKeeps(s, w);
    if s.lock.Free? {
      UnregisterKeeps(s, s.(closing := true));
      ExitKeeps(s.(closing := true), w);
    }
  }

  lemma ShutdownKeeps(s: State, maxWatches: nat)
    requires Inv(s)
    ensures Inv(Step(s, maxWatches, Shutdown))
  {
    if s.lock.Free? {
      UnregisterKeeps(s, Step(s, maxWatches, Shutdown));
    }
  }

  lemma OtherKeeps(s: State, maxWatches: nat, accepted: bool)
    requires Inv(s)
    ensures Inv(Step(s, maxWatches, SendOther(accepted)))
  {
    QueueFrame(s.out, OtherFrame);
    var s' := Step(s, maxWatches, SendOther(accepted));
    forall v | 0 <= v < |s'.table|
      ensures SubscriptionInv(s'.table[v], EventsOf(s'.out, v), ForwarderOf(s', v), AnsweringOf(s', v))
    {
      assert SubscriptionInv(s.table[v], EventsOf(s.out, v), ForwarderOf(s, v), AnsweringOf(s, v));
    }
  }

  lemma StepKeeps(s: State, maxWatches: nat, a: Action)
    requires Inv(s)
    ensures Inv(Step(s, maxWatches, a))
  {
    match a
    case BeginWatch(codex, replay) => if s.lock.Free? { RegisteringKeeps(s, codex, replay, maxWatches); }
    case Answer(accepted) =>
      if accepted && s.lock.Answering? { AcceptedAnswerKeeps(s); } else { RefusedAnswerKeeps(s); }
    case Unwatch(codex, accepted) => if s.lock.Free? { UnwatchingKeeps(s, codex, accepted); }
    case Forward(w, accepted) => if s.lock.Free? { ForwardingKeeps(s, w, accepted); }
    case Take(w) => TakeKeeps(s, maxWatches, w);
    case Offer(_, _) => QuietKeeps(s, maxWatches, a);
    case Evict(_) => QuietKeeps(s, maxWatches, a);
    case CloseChannel(_) => QuietKeeps(s, maxWatches, a);
    case MarkSlow(_) => QuietKeeps(s, maxWatches, a);
    case SendOther(accepted) => OtherKeeps(s, maxWatches, accepted);
    case SeeClosed(w) => SeeClosedKeeps(s, maxWatches, w);
    case SeeSlow(w) => SeeSlowKeeps(s, maxWatches, w);
    case Stop(w) => ExitKeeps(s, w);
    case Shutdown => ShutdownKeeps(s, maxWatches);
  }

  lemma {:induction false} RunKeeps(maxWatches: nat, actions: seq<Action>)
    ensures Inv(Run(START, maxWatches, actions))
  {
    if actions != [] {
      RunKeeps(maxWatches, actions[..|actions| - 1]);
      StepKeeps(Run(START, maxWatches, actions[..|actions| - 1]), maxWatches, actions[|actions| - 1]);
    }
  }

  // ------------------------------------------------------------ main results

  lemma {:induction false} AnnouncedAt(out: seq<Frame>, codex: Id) returns (i: nat)
    requires LastAnnounced(out, codex).Some?
    ensures i < |out| && out[i] == WatchResponse(codex, LastAnnounced(out, codex).value)
    ensures forall k :: i < k < |out| ==>
      out[k] != UnwatchResponse(codex) && !(out[k].WatchResponse? && out[k].codex == codex)
  {
    i := |out| - 1;
    var last := out[i];
    if !(last.WatchResponse? && last.codex == codex) {
      i := AnnouncedAt(out[..i], codex);
    }
  }

  /** Under every interleaving, an event queued at position j follows the Watch Response
      of its own watch, and no later Watch or Unwatch Response for its Codex stands in between. */
  lemma EventsFollowTheirResponse(maxWatches: nat, actions: seq<Action>, j: nat) returns (i: nat)
    requires var out := Run(START, maxWatches, actions).out; j < |out| && out[j].EventFrame?
    ensures var out := Run(START, maxWatches, actions).out;
      && i < j && out[i] == WatchResponse(out[j].codex, out[j].watch)
      && forall k :: i < k < j ==>
        out[k] != UnwatchResponse(out[j].codex) && !(out[k].WatchResponse? && out[k].codex == out[j].codex)
  {
    RunKeeps(maxWatches, actions);
    var out := Run(START, maxWatches, actions).out;
    i := AnnouncedAt(out[..j], out[j].codex);
    assert forall k :: 0 <= k < j ==> out[..j][k] == out[k];
  }

  /** The events queued for a watch are a prefix of its replay followed by what its channel
      offered: replay before live, in order, nothing twice, nothing skipped. */
  lemma QueuedIsPrefix(maxWatches: nat, actions: seq<Action>, w: nat)
    requires w < |Run(START, maxWatches, actions).table|
    ensures var s := Run(START, maxWatches, actions);
      EventsOf(s.out, w) <= s.table[w].replay + s.table[w].sent
  {
    RunKeeps(maxWatches, actions);
    var s := Run(START, maxWatches, actions);
    assert s.table[w].sent[..s.table[w].taken] <= s.table[w].sent;
  }
}
