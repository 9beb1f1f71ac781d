/** The in-place form of the watch handlers of internal/gateway/server.go, run without
    interference. */
module Gateway {
  import opened Common
  import Activity
  import C = Connection

  /** The frames of a watch in the order handleWatch queues them. */
  function Frames(codex: Id, w: nat, replay: seq<Activity.Event>): (f: seq<C.Frame>)
    ensures |f| == |replay| + 1
  {
    [C.WatchResponse(codex, w)] + seq(|replay|, i requires 0 <= i < |replay| => C.EventFrame(codex, w, replay[i]))
  }

  function Min(a: nat, b: nat): nat {
    if a <= b then a else b
  }

  /** handleWatch once it is registered: it queues its frames, as far as the send queue has
      `room`, and ends with a running forwarder or with a cancelled watch. */
  function Answered(s: C.State, room: nat): C.State
    requires s.lock.Answering? ==> s.lock.watch < |s.table|
  {
    if s.lock.Free? then s
    else
      var w := s.lock.watch;
      var frames := Frames(s.table[w].codex, w, s.table[w].replay);
      var s1 := s.(out := s.out + frames[..Min(room, |frames|)], lock := C.Free);
      if room >= |frames| then s1.(forwarders := s1.forwarders[w := None])
      else C.CancelOld(s1, s.table[w].codex).(closing := true)
  }

  /** The handler's state after `n` accepted frames, still inside its critical section. */
  function Partly(s: C.State, n: nat): C.State
    requires s.lock.Answering? && s.lock.watch < |s.table| && n <= |s.table[s.lock.watch].replay|
  {
    var w := s.lock.watch;
    s.(out := s.out + Frames(s.table[w].codex, w, s.table[w].replay)[..n], lock := C.Answering(w, n))
  }

  lemma PartlyStep(s: C.State, n: nat)
    requires s.lock.Answering? && s.lock.watch < |s.table| && 0 < n <= |s.table[s.lock.watch].replay|
    ensures Partly(s, n) == C.Answering1(Partly(s, n - 1), true)
  {
    var w := s.lock.watch;
    var frames := Frames(s.table[w].codex, w, s.table[w].replay);
    assert frames[..n] == frames[..n - 1] + [C.NextFrame(s, w, n - 1)];
    assert s.out + frames[..n] == (s.out + frames[..n - 1]) + [C.NextFrame(s, w, n - 1)];
  }

  lemma {:induction false} PartlyKeeps(s: C.State, n: nat)
    requires C.Inv(s) && s.lock.Answering? && s.lock.queued == 0 && n <= |s.table[s.lock.watch].replay|
    ensures C.Inv(Partly(s, n))
  {
    if n == 0 {
      assert s.out + [] == s.out;
      assert Partly(s, n) == s;
    } else {
      PartlyKeeps(s, n - 1);
      C.StepKeeps(Partly(s, n - 1), 0, C.Answer(true));
      PartlyStep(s, n);
    }
  }

  /** The closed form is a run of the handler's Answer actions. */
  lemma AnsweredIsRun(s: C.State, room: nat)
    requires s.lock.Answering? && s.lock.watch < |s.table|
    ensures var n := |s.table[s.lock.watch].replay|;
      Answered(s, room) == if room <= n then C.Answering1(Partly(s, room), false) else C.Answering1(Partly(s, n), true)
  {
    var w := s.lock.watch;
    var n := |s.table[w].replay|;
    var frames := Frames(s.table[w].codex, w, s.table[w].replay);
    if room > n {
      assert frames[..n + 1] == frames[..n] + [C.NextFrame(s, w, n)];
      assert s.out + frames[..n + 1] == (s.out + frames[..n]) + [C.NextFrame(s, w, n)];
    }
  }

  lemma AnsweredKeeps(s: C.State, room: nat)
    requires C.Inv(s) && s.lock.Answering? && s.lock.queued == 0
    ensures C.Inv(Answered(s, room))
  {
    var n := |s.table[s.lock.watch].replay|;
    AnsweredIsRun(s, room);
    PartlyKeeps(s, if room <= n then room else n);
    C.StepKeeps(Partly(s, if room <= n then room else n), 0, C.Answer(room > n));
  }

  class ClientConnection {
    const maxWatches: nat
    var watches: map<Id, nat>
    var table: seq<C.Subscription>
    var forwarders: map<nat, Option<Activity.Event>>
    var out: seq<C.Frame>
    var closing: bool

    ghost function State(): C.State
      reads this
    {
      C.State(watches, table, forwarders, C.Free, out, closing)
    }

    ghost predicate Valid()
      reads this
    {
      C.Inv(State())
    }

    constructor (limit: int)
      ensures Valid() && State() == C.START
      ensures maxWatches == (if limit <= 0 then 64 else limit)
    {
      maxWatches := if limit <= 0 then 64 else limit;
      watches, table, forwarders, out, closing := map[], [], map[], [], false;
    }

    method CancelOld(codex: Id)
      requires Valid()
      modifies this`watches, this`table
      ensures Valid() && State() == C.CancelOld(old(State()), codex)
    {
      C.CancelOldKeeps(State(), codex);
      if codex in watches {
        table := table[watches[codex] := table[watches[codex]].(closed := true)];
        watches := watches - {codex};
      }
    }

    method QueueFrames(codex: Id, w: nat, replay: seq<Activity.Event>, room: nat) returns (queued: nat)
      modifies this`out
      ensures queued == Min(room, |replay| + 1)
      ensures out == old(out) + Frames(codex, w, replay)[..queued]
    {
      queued := 0;
      while queued < |replay| + 1
        invariant 0 <= queued <= |replay| + 1 && queued <= room
        invariant out == old(out) + Frames(codex, w, replay)[..queued]
      {
        if queued == room {
          return;
        }
        var next := if queued == 0 then C.WatchResponse(codex, w) else C.EventFrame(codex, w, replay[queued - 1]);
        assert Frames(codex, w, replay)[..queued + 1] == Frames(codex, w, replay)[..queued] + [next];
        out := out + [next];
        queued := queued + 1;
      }
    }

    /** `replay` is None when the event store refuses the watch. */
    method HandleWatch(codex: Id, replay: Option<seq<Activity.Event>>, room: nat) returns (queued: nat)
      requires Valid()
      modifies this
      ensures C.Inv(C.Registering(old(State()), codex, replay, maxWatches))
      ensures State() == Answered(C.Registering(old(State()), codex, replay, maxWatches), room)
      ensures Valid()
    {
      ghost var registered := C.Registering(State(), codex, replay, maxWatches);
      C.RegisteringKeeps(State(), codex, replay, maxWatches);
      CancelOld(codex);
      if |watches| >= maxWatches || replay.None? {
        return 0;
      }
      AnsweredKeeps(registered, room);
      queued := Answer(codex, replay.value, room);
    }

    /** Register the watch and queue its frames; it is cancelled if they do not all fit. */
    method Answer(codex: Id, replay: seq<Activity.Event>, room: nat) returns (queued: nat)
      modifies this
      ensures State() == Answered(C.Subscribed(old(State()), codex, replay), room)
    {
      var w := |table|;
      table := table + [C.Subscription(codex, replay, [], 0, false, false)];
      watches := watches[codex := w];
      queued := QueueFrames(codex, w, replay, room);
      if queued < |replay| + 1 {
        table := table[w := table[w].(closed := true)];
        watches := watches - {codex};
        closing := true;
      } else {
        forwarders := forwarders[w := None];
      }
    }

    method HandleUnwatch(codex: Id, accepted: bool)
      requires Valid()
      modifies this
      ensures Valid() && State() == C.Unwatching(old(State()), codex, accepted)
    {
      C.UnwatchingKeeps(State(), codex, accepted);
      CancelOld(codex);
      if accepted {
        out := out + [C.UnwatchResponse(codex)];
      } else {
        closing := true;
      }
    }

    /** The critical section of forwardWatch: forward the event in hand if the watch is still current. */
    method ForwardWatch(w: nat, accepted: bool) returns (running: bool)
      requires Valid() && w in forwarders && forwarders[w].Some?
      modifies this
      ensures Valid() && State() == C.Forwarding(old(State()), w, accepted)
      ensures running <==> w in forwarders
    {
      C.ForwardingKeeps(State(), w, accepted);
      var codex := table[w].codex;
      running := codex in watches && watches[codex] == w;
      if running {
        running := accepted;
        if accepted {
          out := out + [C.EventFrame(codex, w, forwarders[w].value)];
          forwarders := forwarders[w := None];
        } else {
          closing := true;
        }
      }
      if !running {
        forwarders := forwarders - {w};
      }
    }
  }
}
