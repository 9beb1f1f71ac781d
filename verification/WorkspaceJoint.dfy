/** The workspace service and its state sink as they interleave. The service holds its own locks only
    while it admits or settles a transition; the sink, a Restore of the manager, its other row writes and
    forgetting run under commitMu (internal/workspace/service.go, internal/codex/workspace.go,
    internal/codex/manager.go). */
module WorkspaceJoint {
  import opened Common
  import W = Workspace
  import K = WorkspaceCommit

  /** `told` is the sink's verdict on the pending transition, not yet acted on; `held` the access state
      a Restore has collected and not yet saved; `doubt` an outcome that may have left the manager's
      view and the database apart, not yet overtaken. */
  datatype Joint = Joint(
    space: W.Space, host: K.Host, told: Option<W.Verdict>, held: Option<W.Access>, doubt: bool)

  datatype Action =
    | Serve(action: W.Action)
    | Commit(weather: K.Weather)
    | Settle
    | Finish
    | RestoreBegins(fromRow: bool, drawn: Id, now: int)
    | RestoreFinds(agent: Id, now: int)
    | RestoreSaves(saved: Write)
    | RestoreFails
    | Persist(saved: Write)
    | Forget(destroy: Write)
    | Unregister

  /** What a client of the service may start. */
  predicate Served(a: W.Action) {
    a.AdmitStart? || a.AdmitStop? || a.LockMutation? || a.AbandonMutation? || a.AdvanceMutation?
  }

  predicate Waiting(w: W.Space) {
    w.pending.Some? && w.pending.value in w.transitions && !w.transitions[w.pending.value].answered
  }

  function Offered(w: W.Space): W.Access
    requires Waiting(w)
  {
    w.transitions[w.pending.value].offered
  }

  function Previous(w: W.Space): W.Access
    requires Waiting(w)
  {
    w.transitions[w.pending.value].previous
  }

  /** Accepting the pending transition makes the service's current state the manager's and the database's. */
  predicate Clears(j: Joint)
    requires Waiting(j.space)
  {
    j.space.state == Offered(j.space) && !K.Newer(j.host, Offered(j.space))
  }

  /** commitWorkspaceState, once it has commitMu. */
  function Committing(j: Joint, weather: K.Weather): Joint {
    if !Waiting(j.space) || j.told.Some? || j.held.Some? then j
    else
      var r := K.CommitState(j.host, Offered(j.space), weather);
      j.(host := r.host, told := Some(r.verdict),
         doubt := if r.verdict.Accepted? && Clears(j) then false else r.verdict.Unknown? || j.doubt)
  }

  /** The service acts on the verdict. */
  function Settling(j: Joint): Joint {
    if !Waiting(j.space) || j.told.None? then j
    else j.(space := W.Answered(j.space, j.space.pending.value, j.told.value), told := None)
  }

  function Finishing(j: Joint): Joint {
    if j.space.pending.None? then j else j.(space := W.Finished(j.space, j.space.pending.value))
  }

  function RowState(d: K.Durable): Option<W.Access> {
    if d.Holds? then d.access else None
  }

  /** ensureWorkspace: Register with the state of the stored view, or with none. */
  function Beginning(j: Joint, fromRow: bool, drawn: Id, now: int): Joint {
    var persisted := if fromRow then RowState(j.host.durable) else None;
    if j.held.Some? || j.host.durable.NoRow? || j.space.holder.Some? then j
    else if !W.Plausible(j.space, W.Restored(persisted, drawn, now), drawn) then j
    else
      var w := W.Step(j.space, W.Register(persisted, drawn, now));
      j.(space := w, held := Some(w.state))
  }

  function Finding(j: Joint, agent: Id, now: int): Joint {
    if j.held.None? || j.space.holder.Some? || j.space.removed then j
    else
      var w := W.Step(j.space, W.RestoreAgent(agent, now));
      j.(space := w, held := Some(w.state))
  }

  /** registerRestored and persistState. */
  function Saving(j: Joint, saved: Write): Joint {
    if j.held.None? then j
    else
      var durable := if saved.FailedLost? then j.host.durable else K.Holds(j.held);
      j.(host := j.host.(view := Some(j.held), durable := durable), held := None, doubt := saved.FailedLost?)
  }

  /** persistState writes the view as it is, creating the row again if it is gone. */
  function Persisting(j: Joint, saved: Write): Joint {
    if j.held.Some? || j.host.view.None? || !saved.Lands() then j
    else j.(host := j.host.(durable := K.Holds(j.host.view.value)))
  }

  /** ForgetCodex: the row goes, and byID's entry only if the deletion reports success. A deletion that
      landed behind an error leaves an outcome in doubt. */
  function Forgetting(j: Joint, destroy: Write): Joint {
    if j.held.Some? || j.host.view.None? || j.host.durable.NoRow? || !destroy.Lands() then j
    else if destroy.Written? then j.(host := j.host.(view := None, durable := K.NoRow))
    else j.(host := j.host.(durable := K.NoRow), doubt := true)
  }

  function Step(j: Joint, a: Action): Joint {
    match a
    case Serve(action) => if Served(action) then j.(space := W.Step(j.space, action)) else j
    case Commit(weather) => Committing(j, weather)
    case Settle => Settling(j)
    case Finish => Finishing(j)
    case RestoreBegins(fromRow, drawn, now) => Beginning(j, fromRow, drawn, now)
    case RestoreFinds(agent, now) => Finding(j, agent, now)
    case RestoreSaves(saved) => Saving(j, saved)
    case RestoreFails => if j.held.None? then j else j.(held := None, doubt := true)
    case Persist(saved) => Persisting(j, saved)
    case Forget(destroy) => Forgetting(j, destroy)
    case Unregister => if j.host.view.None? then j.(space := W.Step(j.space, W.Unregister)) else j
  }

  function Run(j: Joint, actions: seq<Action>): Joint {
    if actions == [] then j else Step(Run(j, actions[..|actions| - 1]), actions[|actions| - 1])
  }

  // ----------------------------------------------------------------- agreement

  /** The access state the manager shows, or is about to show. */
  function Target(host: K.Host, held: Option<W.Access>): Option<W.Access> {
    if held.Some? then held else if host.view.Some? then host.view.value else None
  }

  /** While a transition waits for its sink the target may still be the state before it. */
  ghost predicate Follows(w: W.Space, target: Option<W.Access>, told: Option<W.Verdict>, sure: bool) {
    sure ==>
      || target == Some(w.state)
      || (Waiting(w) && target == Some(Previous(w)) && w.state == Offered(w) && (told.None? || told.value.Refused?))
  }

  /** A Codex that was forgotten is gone from the database; of any other, view and database agree. */
  ghost predicate HostInv(host: K.Host, held: Option<W.Access>, doubt: bool) {
    if host.view.None? then host.durable.NoRow? && held.None?
    else held.None? && !doubt ==> host.durable == K.Holds(host.view.value)
  }

  ghost predicate Agrees(j: Joint) {
    && W.Inv(j.space)
    && HostInv(j.host, j.held, j.doubt)
    && (j.told.Some? ==> Waiting(j.space))
    && (j.host.view.Some? ==> Follows(j.space, Target(j.host, j.held), j.told, j.held.Some? || !j.doubt))
  }

  /** The one step that sets the service and the manager apart: a refused transition is rolled back after
      a Restore has taken up the state it offered. */
  predicate Strands(j: Joint, a: Action) {
    && a.Settle? && j.told == Some(W.Refused) && Waiting(j.space) && j.host.view.Some?
    && (j.held.Some? || !j.doubt)
    && j.space.state == Offered(j.space) && Target(j.host, j.held) == Some(Offered(j.space))
  }

  // ------------------------------------------------------------- step by step

  lemma AnsweredKeepsWaiting(w: W.Space)
    requires W.Inv(w) && w.pending.Some?
    ensures w.pending.value in w.transitions && W.TransitionInv(w, w.transitions[w.pending.value])
  {
    assert w.pending.value in w.transitions.Keys;
  }

  /** Admitting: the target stays where the state was. */
  lemma ServeFollows(w: W.Space, a: W.Action, target: Option<W.Access>, told: Option<W.Verdict>, sure: bool)
    requires Served(a) && Follows(w, target, told, sure) && (told.Some? ==> Waiting(w))
    requires w.holder.Some? ==> w.pending.None?
    ensures var w' := W.Step(w, a); Follows(w', target, told, sure) && (told.Some? ==> Waiting(w'))
  {
  }

  lemma ServeKeepsWaiting(w: W.Space, a: W.Action)
    requires Served(a) && W.Inv(w)
    ensures Waiting(w) ==> Waiting(W.Step(w, a))
  {
  }

  lemma SettleFollows(w: W.Space, target: Option<W.Access>, verdict: W.Verdict, sure: bool)
    requires Waiting(w) && Follows(w, target, Some(verdict), sure)
    requires !(verdict.Refused? && sure && w.state == Offered(w) && target == Some(Offered(w)))
    requires Previous(w) != Offered(w)
    ensures Follows(W.Answered(w, w.pending.value, verdict), target, None, sure)
  {
  }

  lemma FinishFollows(w: W.Space, target: Option<W.Access>, told: Option<W.Verdict>, sure: bool)
    requires w.pending.Some? && Follows(w, target, told, sure) && (told.Some? ==> Waiting(w))
    ensures var w' := W.Finished(w, w.pending.value); Follows(w', target, told, sure) && (told.Some? ==> Waiting(w'))
  {
  }

  /** Restoring: the target is the state it has just read. */
  lemma RestoreFollows(w: W.Space, a: W.Action, told: Option<W.Verdict>)
    requires a.Register? || a.RestoreAgent?
    requires told.Some? ==> Waiting(w)
    ensures var w' := W.Step(w, a); Follows(w', Some(w'.state), told, true) && (told.Some? ==> Waiting(w'))
  {
  }

  lemma WaitingGenerations(w: W.Space)
    requires W.Inv(w) && Waiting(w)
    ensures Previous(w).generation < Offered(w).generation
    ensures w.state != Offered(w) ==> w.state.generation > Offered(w).generation
  {
    AnsweredKeepsWaiting(w);
  }

  lemma CommitFollows(j: Joint, weather: K.Weather)
    requires Agrees(j) && Waiting(j.space) && j.told.None? && j.held.None? && j.host.view.Some?
    ensures var j' := Committing(j, weather);
      && j'.host.view.Some? && HostInv(j'.host, None, j'.doubt)
      && Follows(j'.space, Target(j'.host, None), j'.told, !j'.doubt)
  {
    WaitingGenerations(j.space);
    K.VerdictsAreSound(j.host, Offered(j.space), weather);
  }

  lemma ServeKeeps(j: Joint, a: W.Action)
    requires Agrees(j) && Served(a)
    ensures Agrees(Step(j, Serve(a)))
  {
    W.StepKeeps(j.space, a);
    ServeKeepsWaiting(j.space, a);
    if j.host.view.None? {
      return;
    }
    ServeFollows(j.space, a, Target(j.host, j.held), j.told, j.held.Some? || !j.doubt);
  }

  lemma CommitKeeps(j: Joint, weather: K.Weather)
    requires Agrees(j)
    ensures Agrees(Committing(j, weather))
  {
    if Waiting(j.space) && j.told.None? && j.held.None? && j.host.view.Some? {
      CommitFollows(j, weather);
    }
  }

  lemma SettleKeeps(j: Joint)
    requires Agrees(j) && !Strands(j, Settle)
    ensures Agrees(Settling(j))
  {
    var w := j.space;
    if Waiting(w) && j.told.Some? {
      WaitingGenerations(w);
      W.AnsweredKeeps(w, w.pending.value, j.told.value);
      if j.host.view.None? {
        return;
      }
      SettleFollows(w, Target(j.host, j.held), j.told.value, j.held.Some? || !j.doubt);
    }
  }

  lemma FinishKeeps(j: Joint)
    requires Agrees(j)
    ensures Agrees(Finishing(j))
  {
    if j.space.pending.Some? {
      W.FinishedKeeps(j.space, j.space.pending.value);
      if j.host.view.Some? {
        FinishFollows(j.space, Target(j.host, j.held), j.told, j.held.Some? || !j.doubt);
      }
    }
  }

  /** A Restore has read the state that action `a` leaves. */
  lemma RestoreKeeps(j: Joint, a: W.Action)
    requires Agrees(j) && (a.Register? || a.RestoreAgent?) && j.host.view.Some?
    ensures var w := W.Step(j.space, a); Agrees(j.(space := w, held := Some(w.state)))
  {
    W.StepKeeps(j.space, a);
    RestoreFollows(j.space, a, j.told);
  }

  lemma SaveKeeps(j: Joint, saved: Write)
    requires Agrees(j)
    ensures Agrees(Saving(j, saved))
  {
  }

  lemma ForgetKeeps(j: Joint, w: Write)
    requires Agrees(j)
    ensures Agrees(Forgetting(j, w)) && Agrees(Persisting(j, w))
  {
  }

  lemma UnregisterKeeps(j: Joint)
    requires Agrees(j)
    ensures Agrees(Step(j, Unregister))
  {
    W.StepKeeps(j.space, W.Unregister);
  }

  lemma StepKeeps(j: Joint, a: Action)
    requires Agrees(j) && !Strands(j, a)
    ensures Agrees(Step(j, a))
  {
    match a
    case Serve(action) =>
      if Served(action) {
        ServeKeeps(j, action);
      }
    case Commit(weather) => CommitKeeps(j, weather);
    case Settle => SettleKeeps(j);
    case Finish => FinishKeeps(j);
    case RestoreBegins(fromRow, drawn, now) =>
      if j.host.view.Some? {
        RestoreKeeps(j, W.Register(if fromRow then RowState(j.host.durable) else None, drawn, now));
      }
    case RestoreFinds(agent, now) =>
      if j.host.view.Some? {
        RestoreKeeps(j, W.RestoreAgent(agent, now));
      }
    case RestoreSaves(saved) => SaveKeeps(j, saved);
    case RestoreFails =>
    case Persist(saved) => ForgetKeeps(j, saved);
    case Forget(destroy) => ForgetKeeps(j, destroy);
    case Unregister => UnregisterKeeps(j);
  }

  ghost predicate NeverStrands(j: Joint, actions: seq<Action>) {
    forall i :: 0 <= i < |actions| ==> !Strands(Run(j, actions[..i]), actions[i])
  }

  /** In every run without such a step, whatever interleaves and fails: when nothing is waiting and no
      outcome is in doubt, the service's memory, the manager's view and the database agree; and nothing
      brings back the row of a Codex that was forgotten. */
  lemma {:induction false} RunAgrees(j: Joint, actions: seq<Action>)
    requires Agrees(j) && NeverStrands(j, actions)
    ensures var j' := Run(j, actions);
      && Agrees(j')
      && (j'.host.view.None? ==> j'.host.durable.NoRow?)
      && (j'.host.view.Some? && j'.space.pending.None? && j'.held.None? && !j'.doubt ==>
            j'.host.view == Some(Some(j'.space.state)) && j'.host.durable == K.Holds(Some(j'.space.state)))
  {
    if actions != [] {
      var earlier := actions[..|actions| - 1];
      forall i | 0 <= i < |earlier| ensures !Strands(Run(j, earlier[..i]), earlier[i]) {
        assert earlier[..i] == actions[..i];
      }
      RunAgrees(j, earlier);
      assert !Strands(Run(j, earlier), actions[|earlier|]);
      StepKeeps(Run(j, earlier), actions[|earlier|]);
    }
  }

  /** And that is exact: settling keeps the agreement if and only if it does not strand it. */
  lemma SettlingAgreesIff(j: Joint)
    requires Agrees(j)
    ensures Agrees(Settling(j)) <==> !Strands(j, Settle)
  {
    if Strands(j, Settle) {
      WaitingGenerations(j.space);
    } else {
      SettleKeeps(j);
    }
  }

  /** Such a run: the sink refuses a start, a Restore saves the offered state, the service rolls it back.
      Nothing is waiting, no write is in doubt, and the database is ahead of the service. */
  lemma RestoreStrands(token: Id, drawn: Id, agent: Id, now: int)
    requires token != NO_ID && drawn != NO_ID && token != drawn && agent != NO_ID
    ensures var state := W.Access(1, 0, W.Allowed, token, now);
      var host := K.Host(Some(Some(state)), K.Holds(Some(state)), false);
      var j := Joint(W.Initial(None, token, now), host, None, None, false);
      var j1 := Step(j, Serve(W.AdmitStart(agent, now)));
      var j2 := Step(j1, Commit(K.Weather(RolledBack, true, true)));
      var j3 := Step(j2, RestoreBegins(true, drawn, now));
      var j4 := Step(j3, RestoreSaves(Written));
      var j5 := Step(Step(j4, Settle), Finish);
      && Agrees(j)
      && j5.space.pending.None? && j5.held.None? && !j5.doubt
      && j5.space.state == state && j5.host.durable == K.Holds(Some(W.BusyWith(state, 1, now)))
  {
    W.InitialInv(None, token, now);
    assert |{} + {agent}| == 1;
  }
}
