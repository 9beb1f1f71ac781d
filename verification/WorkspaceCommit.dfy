/** The state sink of the workspace service (internal/codex/workspace.go,
    commitWorkspaceState): it publishes an offered access state with the CurrentView
    and tells the service whether to keep it. */
module WorkspaceCommit {
  import opened Common
  import W = Workspace

  /** The persisted CurrentView: no row, undecodable, or one that holds an access state. */
  datatype Durable = NoRow | Undecodable | Holds(access: Option<W.Access>)

  /** `view` is byID's entry for the Codex, reduced to its access state. */
  datatype Host = Host(view: Option<Option<W.Access>>, durable: Durable, degraded: bool)

  /** What the environment decides: the publish transaction, and whether the read before and
      the read after it succeed. */
  datatype Weather = Weather(publish: Commit, readFirst: bool, readBack: bool)

  datatype Result = Result(host: Host, verdict: W.Verdict)

  predicate Readable(d: Durable, readOk: bool) {
    readOk && d.Holds?
  }

  function AfterPublish(h: Host, offered: W.Access, weather: Weather): Durable {
    if !h.durable.NoRow? && weather.publish.Lands() then Holds(Some(offered)) else h.durable
  }

  function Publish(h: Host, offered: W.Access, weather: Weather): Result {
    var durable := AfterPublish(h, offered, weather);
    if h.durable.NoRow? || weather.publish.RolledBack? then Result(h.(degraded := true), W.Refused)
    else if weather.publish.Committed? then Result(h.(durable := durable, view := Some(Some(offered))), W.Accepted)
    else if !Readable(durable, weather.readBack)
    then Result(Host(Some(Some(offered)), durable, true), W.Unknown)
    else Result(h.(durable := durable, view := Some(durable.access)),
                if durable == Holds(Some(offered)) then W.Accepted else W.Refused)
  }

  function CommitState(h: Host, offered: W.Access, weather: Weather): Result {
    if h.view.None? then Result(h, W.Refused)
    else if h.view.value.Some? && h.view.value.value.generation > offered.generation then Result(h, W.Accepted)
    else if h.view.value == Some(offered) && Readable(h.durable, weather.readFirst) && h.durable == Holds(Some(offered))
    then Result(h, W.Accepted)
    else Publish(h, offered, weather)
  }

  /** Every verdict tells the truth about the durable state. */
  lemma VerdictsAreSound(h: Host, offered: W.Access, weather: Weather)
    ensures var r := CommitState(h, offered, weather);
      var newer := Newer(h, offered);
      // Accepted: the offered state is durable, or a strictly newer one stood and nothing changed.
      && (r.verdict.Accepted? ==> r.host.durable == Holds(Some(offered)) || (newer && r.host == h))
      // A delayed older generation changes nothing.
      && (newer ==> r == Result(h, W.Accepted))
      // Refused: nothing durable moved.
      && (r.verdict.Refused? ==> r.host.durable == h.durable)
      // After an unknown publish, a refusal means the durable state was read and is another one.
      && (r.verdict.Refused? && weather.publish.Unknown() && h.view.Some? && !h.durable.NoRow? ==>
            r.host.durable.Holds? && r.host.durable != Holds(Some(offered)))
      // Unknown: the Host has recorded the degradation and keeps the offered state in memory.
      && (r.verdict.Unknown? ==> r.host.degraded && r.host.view == Some(Some(offered)))
      // The in-memory view never falls behind what the call made durable.
      && (r.verdict.Accepted? && !newer ==> r.host.view == Some(Some(offered)))
  {
  }

  /** The view already holds a newer generation than the offered one. */
  predicate Newer(h: Host, offered: W.Access) {
    h.view.Some? && h.view.value.Some? && h.view.value.value.generation > offered.generation
  }

  /** The service rolls back on a refusal. Exactly when it does so although the offered state is durable:
      it was durable before the call, and either the Codex is not loaded, or no newer generation stood,
      the check for an adopted state did not apply or could not read, and the publish was rolled back. */
  lemma UnjustifiedRollbackIff(h: Host, offered: W.Access, weather: Weather)
    ensures var r := CommitState(h, offered, weather);
      (r.verdict.Refused? && r.host.durable == Holds(Some(offered))) <==>
        && h.durable == Holds(Some(offered))
        && (h.view.None? ||
            (!Newer(h, offered) && !(h.view.value == Some(offered) && weather.readFirst) &&
              weather.publish.RolledBack?))
  {
  }

  /** The unjustified rollback exists: an adopted state, a failed read, a refused publish. */
  lemma RefusedThoughDurable(offered: W.Access)
    ensures var h := Host(Some(Some(offered)), Holds(Some(offered)), false);
      var r := CommitState(h, offered, Weather(RolledBack, false, true));
      r.verdict.Refused? && r.host.durable == Holds(Some(offered))
  {
  }

  // ------------------------------------------------- service and sink together

  /** One transition of the service, end to end, with nothing cutting in. */
  datatype Operation = Operation(action: W.Action, weather: Weather)

  /** `doubt` records an unknown outcome not yet overtaken by an accepted commit. */
  datatype System = System(space: W.Space, host: Host, doubt: bool)

  predicate Transitional(a: W.Action) {
    a.AdmitStart? || a.AdmitStop? || a.AdvanceMutation?
  }

  function Perform(s: System, op: Operation): System {
    var admitted := W.Step(s.space, op.action);
    if !Transitional(op.action) || admitted.pending.None?
    then if op.action.LockMutation? || op.action.AbandonMutation? then s.(space := admitted) else s
    else
      var r := CommitState(s.host, admitted.state, op.weather);
      var p := admitted.pending.value;
      System(W.Finished(W.Answered(admitted, p, r.verdict), p), r.host,
             if r.verdict.Accepted? then false else r.verdict.Unknown? || s.doubt)
  }

  function PerformAll(s: System, ops: seq<Operation>): System {
    if ops == [] then s else Perform(PerformAll(s, ops[..|ops| - 1]), ops[|ops| - 1])
  }

  ghost predicate HostAgrees(state: W.Access, host: Host, doubt: bool) {
    && host.view.Some? && !host.durable.NoRow?
    && (host.view.value.Some? ==> host.view.value.value.generation <= state.generation)
    && (host.durable.Holds? && host.durable.access.Some? ==> host.durable.access.value.generation <= state.generation)
    && (!doubt ==> host.durable == Holds(Some(state)) && host.view == Some(Some(state)))
    && (doubt ==> host.degraded)
  }

  ghost predicate Agrees(s: System) {
    W.Inv(s.space) && s.space.pending.None? && HostAgrees(s.space.state, s.host, s.doubt)
  }

  /** What the service does with a verdict when nothing cuts in. */
  lemma Uninterleaved(w: W.Space, a: W.Action, verdict: W.Verdict)
    requires w.pending.None? && Transitional(a) && W.Step(w, a).pending.Some?
    ensures var admitted := W.Step(w, a);
      var w' := W.Finished(W.Answered(admitted, admitted.pending.value, verdict), admitted.pending.value);
      && admitted.state.generation == w.state.generation + 1
      && w'.pending.None?
      && w'.state == if verdict.Refused? then w.state else admitted.state
  {
  }

  lemma SettledKeeps(w: W.Space, p: nat, verdict: W.Verdict)
    requires W.Inv(w)
    ensures W.Inv(W.Finished(W.Answered(w, p, verdict), p))
  {
    W.AnsweredKeeps(w, p, verdict);
    W.FinishedKeeps(W.Answered(w, p, verdict), p);
  }

  lemma UninterleavedKeeps(w: W.Space, a: W.Action, verdict: W.Verdict)
    requires W.Inv(w) && W.Step(w, a).pending.Some?
    ensures var admitted := W.Step(w, a);
      W.Inv(W.Finished(W.Answered(admitted, admitted.pending.value, verdict), admitted.pending.value))
  {
    var admitted := W.Step(w, a);
    W.StepKeeps(w, a);
    SettledKeeps(admitted, admitted.pending.value, verdict);
  }

  lemma HostFollows(previous: W.Access, offered: W.Access, host: Host, doubt: bool, weather: Weather)
    requires HostAgrees(previous, host, doubt) && offered.generation == previous.generation + 1
    ensures var r := CommitState(host, offered, weather);
      HostAgrees(if r.verdict.Refused? then previous else offered, r.host,
                 if r.verdict.Accepted? then false else r.verdict.Unknown? || doubt)
  {
    VerdictsAreSound(host, offered, weather);
  }

  lemma PerformKeeps(s: System, op: Operation)
    requires Agrees(s)
    ensures Agrees(Perform(s, op))
  {
    var admitted := W.Step(s.space, op.action);
    if Transitional(op.action) && admitted.pending.Some? {
      var r := CommitState(s.host, admitted.state, op.weather);
      Uninterleaved(s.space, op.action, r.verdict);
      UninterleavedKeeps(s.space, op.action, r.verdict);
      HostFollows(s.space.state, admitted.state, s.host, s.doubt, op.weather);
    } else {
      W.StepKeeps(s.space, op.action);
    }
  }

  /** Over any sequence of uninterleaved transitions, with any failures, the service's memory, the
      manager's view and the database agree, unless an unknown outcome is outstanding; and then
      the Host reports itself degraded. */
  lemma {:induction false} MemoryIsDurable(s: System, ops: seq<Operation>)
    requires Agrees(s)
    ensures var s' := PerformAll(s, ops);
      && Agrees(s')
      && (!s'.doubt ==> s'.host.durable == Holds(Some(s'.space.state)) && s'.host.view == Some(Some(s'.space.state)))
      && (s'.doubt ==> s'.host.degraded)
  {
    if ops != [] {
      MemoryIsDurable(s, ops[..|ops| - 1]);
      PerformKeeps(PerformAll(s, ops[..|ops| - 1]), ops[|ops| - 1]);
    }
  }

  // ------------------------------------------------------------ in-place form

  class Manager {
    var view: Option<Option<W.Access>>
    var durable: Durable
    var degraded: bool

    function State(): Host
      reads this
    {
      Host(view, durable, degraded)
    }

    method CommitWorkspaceState(offered: W.Access, weather: Weather) returns (verdict: W.Verdict)
      modifies this
      ensures Result(State(), verdict) == CommitState(old(State()), offered, weather)
    {
      if view.None? {
        return W.Refused;
      }
      var current := view.value;
      if current.Some? {
        if current.value.generation > offered.generation {
          return W.Accepted;
        }
        if current.value == offered {
          if weather.readFirst && durable.Holds? && durable.access == Some(offered) {
            return W.Accepted;
          }
        }
      }
      var failed := durable.NoRow? || weather.publish.RolledBack?;
      if !failed && weather.publish.Lands() {
        durable := Holds(Some(offered));
      }
      if !failed && weather.publish.Unknown() {
        if weather.readBack && durable.Holds? {
          view := Some(durable.access);
          return if durable.access == Some(offered) then W.Accepted else W.Refused;
        }
        view := Some(Some(offered));
        degraded := true;
        return W.Unknown;
      }
      if failed {
        degraded := true;
        return W.Refused;
      }
      view := Some(Some(offered));
      return W.Accepted;
    }
  }
}
