/** The quiescence protocol of one Codex workspace (internal/workspace/service.go). An
    action is one critical section of `coordinator` and `mu`; the state sink runs between
    two of them, so its verdict arrives as an action of its own and anything the locks
    allow may happen in between. An action whose guard fails changes nothing. Tokens are
    drawn from a fresh supply: an action brings the token it draws. */
module Workspace {
  import opened Common

  /** The id RestoreAgent gives an agent it cannot name. */
  const RESTORE_UNKNOWN: Id := -1

  datatype Status = Allowed | Busy

  /** remotev1.WorkspaceAccessState */
  datatype Access = Access(generation: nat, agents: nat, status: Status, token: Id, observedAt: int)

  datatype Change = AgentStart(agent: Id) | AgentStop(agent: Id) | Mutation(token: Id)

  /** A transition between its admission and finishPending: the local variables of the
      goroutine that waits for the sink. History: the agent sets around the admission,
      and for a mutation its index in `admissions`. */
  datatype Transition = Transition(
    change: Change, previous: Access, offered: Access, answered: bool,
    agentsBefore: set<Id>, agentsAfter: set<Id>, admission: nat)

  /** History of an admitted mutation: the presented token and the generation it made. */
  datatype Admission = Admission(token: Id, generation: nat, refused: bool)

  /** One workspaceState object; a Register after Unregister builds another. `pending` names the
      channel in ws.pending, `holder` the token of the mutation that holds the coordinator for its
      filesystem phase. History: `births` is the generation at which a token was drawn. */
  datatype Space = Space(
    state: Access, agentIds: set<Id>, removed: bool,
    pending: Option<nat>, transitions: map<nat, Transition>, nextPending: nat,
    holder: Option<Id>,
    births: map<Id, nat>, admissions: seq<Admission>)

  datatype Verdict = Accepted | Refused | Unknown

  datatype Action =
    | AdmitStart(agent: Id, now: int)
    | AdmitStop(agent: Id, drawn: Id, now: int)
    | RestoreAgent(agent: Id, now: int)
    | Register(persisted: Option<Access>, drawn: Id, now: int)
    | Unregister
    | LockMutation(token: Id)
    | AbandonMutation
    | AdvanceMutation(drawn: Id, now: int)
    | SinkAnswers(pending: nat, verdict: Verdict)
    | FinishPending(pending: nat)

  predicate Fresh(w: Space, token: Id) {
    token != NO_ID && token !in w.births
  }

  /** lockMutationCoordinator returns only when nothing is pending and the workspace exists. */
  predicate CanAdmit(w: Space) {
    w.holder.None? && w.pending.None? && !w.removed
  }

  // -------------------------------------------------------------- registering

  predicate NeedsNormalizing(p: Access) {
    p.agents != 0 || p.status != Allowed || p.token == NO_ID
  }

  /** The state Register builds from the persisted snapshot. */
  function Restored(persisted: Option<Access>, drawn: Id, now: int): Access {
    if persisted.None? || persisted.value.generation == 0 then Access(1, 0, Allowed, drawn, now)
    else if NeedsNormalizing(persisted.value) then Access(persisted.value.generation + 1, 0, Allowed, drawn, now)
    else persisted.value
  }

  /** Persisted snapshots are ones a Host wrote: a token seen before stands at its generation. */
  predicate Plausible(w: Space, a: Access, drawn: Id) {
    if a.token == drawn then Fresh(w, drawn)
    else a.token in w.births ==> w.births[a.token] == a.generation
  }

  function Registered(w: Space, persisted: Option<Access>, drawn: Id, now: int): Space {
    var a := Restored(persisted, drawn, now);
    var w1 := w.(removed := false, births := w.births[a.token := a.generation]);
    if w.state.generation < a.generation then w1.(state := a, agentIds := {}) else w1
  }

  /** The first Register of a Codex in a Host process. */
  function Initial(persisted: Option<Access>, drawn: Id, now: int): Space {
    var a := Restored(persisted, drawn, now);
    Space(a, {}, false, None, map[], 0, None, map[a.token := a.generation], [])
  }

  // --------------------------------------------------------------- transitions

  function BusyWith(state: Access, agents: nat, now: int): Access {
    Access(state.generation + 1, agents, Busy, NO_ID, now)
  }

  function Stopped(state: Access, agents: nat, drawn: Id, now: int): Access {
    if agents == 0 then Access(state.generation + 1, 0, Allowed, drawn, now)
    else Access(state.generation + 1, agents, Busy, NO_ID, now)
  }

  function Born(w: Space, a: Access): map<Id, nat> {
    if a.token == NO_ID then w.births else w.births[a.token := a.generation]
  }

  /** Apply a change to the access state and begin its pending transition. */
  function Begin(w: Space, change: Change, offered: Access, agents: set<Id>): Space {
    w.(state := offered, agentIds := agents, births := Born(w, offered),
       pending := Some(w.nextPending), nextPending := w.nextPending + 1, holder := None,
       transitions := w.transitions[w.nextPending :=
         Transition(change, w.state, offered, false, w.agentIds, agents, |w.admissions|)],
       admissions := w.admissions
         + if change.Mutation? then [Admission(change.token, offered.generation, false)] else [])
  }

  function Started(w: Space, agent: Id, now: int): Space {
    if !CanAdmit(w) || agent == NO_ID || agent in w.agentIds then w
    else
      var agents := w.agentIds + {agent};
      Begin(w, AgentStart(agent), BusyWith(w.state, |agents|, now), agents)
  }

  function StoppedBy(w: Space, agent: Id, drawn: Id, now: int): Space {
    if !CanAdmit(w) || agent !in w.agentIds || !Fresh(w, drawn) then w
    else
      var agents := w.agentIds - {agent};
      Begin(w, AgentStop(agent), Stopped(w.state, |agents|, drawn, now), agents)
  }

  /** RestoreAgent bypasses a pending sink. */
  function RestoredAgent(w: Space, agent: Id, now: int): Space {
    var id := if agent == NO_ID then RESTORE_UNKNOWN else agent;
    if w.holder.Some? || w.removed || id in w.agentIds then w
    else w.(agentIds := w.agentIds + {id}, state := BusyWith(w.state, |w.agentIds + {id}|, now))
  }

  // ----------------------------------------------------------------- mutations

  /** validateMutationState */
  predicate MayMutate(w: Space, token: Id) {
    w.state.agents == 0 && w.state.status == Allowed && token != NO_ID && token == w.state.token
  }

  function Locked(w: Space, token: Id): Space {
    if CanAdmit(w) && MayMutate(w, token) then w.(holder := Some(token)) else w
  }

  /** advanceMutationLocked followed by beginPendingLocked */
  function Advanced(w: Space, drawn: Id, now: int): Space {
    if w.holder.None? || !Fresh(w, drawn) then w
    else
      var next := w.state.(generation := w.state.generation + 1, observedAt := now, token := drawn);
      Begin(w, Mutation(w.holder.value), next, w.agentIds)
  }

  // ------------------------------------------------------------- sink verdicts

  function Undo(change: Change, agents: set<Id>): set<Id> {
    match change
    case AgentStart(a) => agents - {a}
    case AgentStop(a) => agents + {a}
    case Mutation(_) => agents
  }

  function MarkRefused(admissions: seq<Admission>, i: nat): seq<Admission> {
    if i < |admissions| then admissions[i := admissions[i].(refused := true)] else admissions
  }

  /** A deterministic refusal rolls back if the state is still the offered one; an
      unknown outcome keeps it. */
  function Answered(w: Space, p: nat, verdict: Verdict): Space {
    if p !in w.transitions || w.transitions[p].answered then w
    else
      var t := w.transitions[p];
      var w1 := w.(transitions := w.transitions[p := t.(answered := true)]);
      if !verdict.Refused? then w1
      else
        var w2 := if t.change.Mutation? then w1.(admissions := MarkRefused(w1.admissions, t.admission)) else w1;
        if w.state == t.offered then w2.(state := t.previous, agentIds := Undo(t.change, w.agentIds)) else w2
  }

  function Finished(w: Space, p: nat): Space {
    if p !in w.transitions || !w.transitions[p].answered then w
    else w.(transitions := w.transitions - {p}, pending := if w.pending == Some(p) then None else w.pending)
  }

  function Step(w: Space, a: Action): Space {
    match a
    case AdmitStart(agent, now) => Started(w, agent, now)
    case AdmitStop(agent, drawn, now) => StoppedBy(w, agent, drawn, now)
    case RestoreAgent(agent, now) => RestoredAgent(w, agent, now)
    case Register(persisted, drawn, now) =>
      if w.holder.None? && Plausible(w, Restored(persisted, drawn, now), drawn)
      then Registered(w, persisted, drawn, now) else w
    case Unregister => if w.holder.None? then w.(removed := true) else w
    case LockMutation(token) => Locked(w, token)
    case AbandonMutation => w.(holder := None)
    case AdvanceMutation(drawn, now) => Advanced(w, drawn, now)
    case SinkAnswers(p, verdict) => Answered(w, p, verdict)
    case FinishPending(p) => Finished(w, p)
  }

  function Run(w: Space, actions: seq<Action>): Space {
    if actions == [] then w else Step(Run(w, actions[..|actions| - 1]), actions[|actions| - 1])
  }

  // ----------------------------------------------------------------- invariant

  ghost predicate AccessInv(a: Access, agents: set<Id>) {
    && a.agents == |agents|
    && (a.status == Busy <==> agents != {})
    && (a.token == NO_ID <==> a.status == Busy)
  }

  ghost predicate TokenInv(w: Space, a: Access) {
    a.token != NO_ID ==> a.token in w.births && w.births[a.token] == a.generation
  }

  /** A transition whose sink has not answered: while the generation is still the offered
      one, neither the state nor the agent set has changed since admission. */
  ghost predicate TransitionInv(w: Space, t: Transition) {
    && t.offered.generation == t.previous.generation + 1
    && AccessInv(t.previous, t.agentsBefore) && TokenInv(w, t.previous)
    && Undo(t.change, t.agentsAfter) == t.agentsBefore
    && (!t.answered ==>
          && t.offered.generation <= w.state.generation
          && (w.state.generation == t.offered.generation ==> w.state == t.offered && w.agentIds == t.agentsAfter))
    && (t.change.Mutation? ==>
      t.admission < |w.admissions| && w.admissions[t.admission].generation == t.offered.generation)
    && (forall i :: 0 <= i < |w.admissions| && !w.admissions[i].refused && !(t.change.Mutation? && i == t.admission) ==>
          w.admissions[i].generation <= t.previous.generation)
  }

  ghost predicate AdmissionsInv(w: Space) {
    && (forall i :: 0 <= i < |w.admissions| ==>
          && w.admissions[i].token in w.births && w.births[w.admissions[i].token] < w.admissions[i].generation
          && (!w.admissions[i].refused ==> w.admissions[i].generation <= w.state.generation))
    && (forall i, j :: 0 <= i < j < |w.admissions| && !w.admissions[i].refused && !w.admissions[j].refused ==>
          w.admissions[i].token != w.admissions[j].token)
  }

  ghost predicate Inv(w: Space) {
    && AccessInv(w.state, w.agentIds) && TokenInv(w, w.state)
    && w.transitions.Keys == (if w.pending.Some? then {w.pending.value} else {})
    && (w.pending.Some? ==> w.pending.value < w.nextPending)
    && (forall p :: p in w.transitions ==> TransitionInv(w, w.transitions[p]))
    && (w.holder.Some? ==> w.pending.None? && w.agentIds == {} && w.state.token == w.holder.value)
    && AdmissionsInv(w)
  }

  // ------------------------------------------------------- every step keeps Inv

  lemma InitialInv(persisted: Option<Access>, drawn: Id, now: int)
    requires drawn != NO_ID
    ensures Inv(Initial(persisted, drawn, now))
  {
  }

  /** A token that opened one unrefused mutation is not the current one. */
  lemma CurrentTokenIsUnspent(w: Space, i: nat)
    requires Inv(w) && i < |w.admissions| && !w.admissions[i].refused && w.state.token != NO_ID
    ensures w.admissions[i].token != w.state.token
  {
    assert w.births[w.state.token] == w.state.generation;
  }

  lemma BeginKeepsAdmissions(w: Space, change: Change, offered: Access, agents: set<Id>)
    requires Inv(w) && offered.generation == w.state.generation + 1
    requires offered.token != NO_ID ==> Fresh(w, offered.token)
    requires change.Mutation? ==> change.token == w.state.token && change.token != NO_ID
    ensures AdmissionsInv(Begin(w, change, offered, agents))
  {
    if change.Mutation? {
      forall i | 0 <= i < |w.admissions| && !w.admissions[i].refused ensures w.admissions[i].token != w.state.token {
        CurrentTokenIsUnspent(w, i);
      }
    }
  }

  lemma BeginKeeps(w: Space, change: Change, offered: Access, agents: set<Id>)
    requires Inv(w) && w.pending.None?
    requires offered.generation == w.state.generation + 1 && AccessInv(offered, agents)
    requires offered.token != NO_ID ==> Fresh(w, offered.token)
    requires Undo(change, agents) == w.agentIds
    requires change.Mutation? ==> change.token == w.state.token && change.token != NO_ID
    ensures Inv(Begin(w, change, offered, agents))
  {
    var w' := Begin(w, change, offered, agents);
    BeginKeepsAdmissions(w, change, offered, agents);
    assert w'.transitions.Keys == {w.nextPending};
    assert TransitionInv(w', w'.transitions[w.nextPending]);
  }

  lemma StartedKeeps(w: Space, agent: Id, now: int)
    requires Inv(w)
    ensures Inv(Started(w, agent, now))
  {
    if CanAdmit(w) && agent != NO_ID && agent !in w.agentIds {
      var agents := w.agentIds + {agent};
      assert agents - {agent} == w.agentIds;
      BeginKeeps(w, AgentStart(agent), BusyWith(w.state, |agents|, now), agents);
    }
  }

  lemma StoppedKeeps(w: Space, agent: Id, drawn: Id, now: int)
    requires Inv(w)
    ensures Inv(StoppedBy(w, agent, drawn, now))
  {
    if CanAdmit(w) && agent in w.agentIds && Fresh(w, drawn) {
      var agents := w.agentIds - {agent};
      assert agents + {agent} == w.agentIds;
      BeginKeeps(w, AgentStop(agent), Stopped(w.state, |agents|, drawn, now), agents);
    }
  }

  lemma AdvancedKeeps(w: Space, drawn: Id, now: int)
    requires Inv(w)
    ensures Inv(Advanced(w, drawn, now))
  {
    if w.holder.Some? && Fresh(w, drawn) {
      var next := w.state.(generation := w.state.generation + 1, observedAt := now, token := drawn);
      BeginKeeps(w, Mutation(w.holder.value), next, w.agentIds);
    }
  }

  /** A restore that cuts in: the state moves to a strictly newer generation. */
  lemma CutInKeeps(w: Space, w': Space)
    requires Inv(w) && w.holder.None?
    requires w' == w.(state := w'.state, agentIds := w'.agentIds, births := w'.births, removed := w'.removed)
    requires forall t :: t in w.births ==> t in w'.births && w'.births[t] == w.births[t]
    requires w'.state.generation > w.state.generation || (w'.state == w.state && w'.agentIds == w.agentIds)
    requires AccessInv(w'.state, w'.agentIds) && TokenInv(w', w'.state)
    ensures Inv(w')
  {
  }

  lemma RestoredAgentKeeps(w: Space, agent: Id, now: int)
    requires Inv(w)
    ensures Inv(RestoredAgent(w, agent, now))
  {
    if w.holder.None? {
      CutInKeeps(w, RestoredAgent(w, agent, now));
    }
  }

  lemma RegisteredKeeps(w: Space, persisted: Option<Access>, drawn: Id, now: int)
    requires Inv(w) && w.holder.None? && Plausible(w, Restored(persisted, drawn, now), drawn)
    ensures Inv(Registered(w, persisted, drawn, now))
  {
    CutInKeeps(w, Registered(w, persisted, drawn, now));
  }

  lemma KeptKeeps(w: Space, p: nat)
    requires Inv(w)
    ensures Inv(Answered(w, p, Accepted)) && Answered(w, p, Unknown) == Answered(w, p, Accepted)
  {
    if p in w.transitions {
      assert Answered(w, p, Accepted).transitions.Keys == w.transitions.Keys;
    }
  }

  /** Recording the refusal of a mutation. */
  lemma RefusalKeeps(w: Space, p: nat)
    requires Inv(w) && p in w.transitions && w.transitions[p].answered && w.transitions[p].change.Mutation?
    ensures Inv(w.(admissions := MarkRefused(w.admissions, w.transitions[p].admission)))
  {
    var t := w.transitions[p];
    var w' := w.(admissions := MarkRefused(w.admissions, t.admission));
    assert forall q :: q in w'.transitions ==> q == p && TransitionInv(w, t);
  }

  /** Rolling the state back to the one before the admission. */
  lemma RollbackKeeps(w: Space, p: nat)
    requires Inv(w) && p in w.transitions && w.transitions[p].answered && w.holder.None?
    requires w.transitions[p].change.Mutation? ==> w.admissions[w.transitions[p].admission].refused
    requires w.state == w.transitions[p].offered && w.agentIds == w.transitions[p].agentsAfter
    ensures Inv(w.(state := w.transitions[p].previous, agentIds := Undo(w.transitions[p].change, w.agentIds)))
  {
    var t := w.transitions[p];
    assert TransitionInv(w, t);
  }

  lemma AnsweredKeeps(w: Space, p: nat, verdict: Verdict)
    requires Inv(w)
    ensures Inv(Answered(w, p, verdict))
  {
    KeptKeeps(w, p);
    if p in w.transitions && !w.transitions[p].answered && verdict.Refused? {
      var t := w.transitions[p];
      assert TransitionInv(w, t);
      var w1 := Answered(w, p, Accepted);
      var w2 := if t.change.Mutation? then w1.(admissions := MarkRefused(w1.admissions, t.admission)) else w1;
      if t.change.Mutation? {
        RefusalKeeps(w1, p);
      }
      if w.state == t.offered {
        RollbackKeeps(w2, p);
      }
    }
  }

  lemma LockedKeeps(w: Space, token: Id)
    requires Inv(w)
    ensures Inv(Locked(w, token))
  {
    var w' := Locked(w, token);
    assert forall p :: p in w'.transitions ==> TransitionInv(w, w'.transitions[p]);
  }

  lemma FinishedKeeps(w: Space, p: nat)
    requires Inv(w)
    ensures Inv(Finished(w, p))
  {
    var w' := Finished(w, p);
    assert w'.transitions.Keys <= w.transitions.Keys;
    assert forall q :: q in w'.transitions ==> TransitionInv(w, w'.transitions[q]);
  }

  /** Freeing the coordinator or marking the workspace removed touches nothing else. */
  lemma FlagsKeep(w: Space, removed: bool)
    requires Inv(w)
    ensures Inv(w.(holder := None)) && Inv(w.(removed := removed))
  {
    assert forall p :: p in w.transitions ==> TransitionInv(w, w.transitions[p]);
  }

  lemma StepKeeps(w: Space, a: Action)
    requires Inv(w)
    ensures Inv(Step(w, a))
  {
    match a
    case AdmitStart(agent, now) => StartedKeeps(w, agent, now);
    case AdmitStop(agent, drawn, now) => StoppedKeeps(w, agent, drawn, now);
    case RestoreAgent(agent, now) => RestoredAgentKeeps(w, agent, now);
    case Register(persisted, drawn, now) =>
      if w.holder.None? && Plausible(w, Restored(persisted, drawn, now), drawn) {
        RegisteredKeeps(w, persisted, drawn, now);
      }
    case Unregister => FlagsKeep(w, true);
    case LockMutation(token) => LockedKeeps(w, token);
    case AbandonMutation => FlagsKeep(w, true);
    case AdvanceMutation(drawn, now) => AdvancedKeeps(w, drawn, now);
    case SinkAnswers(p, verdict) => AnsweredKeeps(w, p, verdict);
    case FinishPending(p) => FinishedKeeps(w, p);
  }

  lemma {:induction false} RunKeeps(w: Space, actions: seq<Action>)
    requires Inv(w)
    ensures Inv(Run(w, actions))
  {
    if actions != [] {
      RunKeeps(w, actions[..|actions| - 1]);
      StepKeeps(Run(w, actions[..|actions| - 1]), actions[|actions| - 1]);
    }
  }

  // ------------------------------------------------------------ main results

  /** The states some interleaving reaches from the Host's first Register of the workspace. */
  ghost predicate Reachable(w: Space) {
    exists persisted, drawn, now, actions :: drawn != NO_ID && w == Run(Initial(persisted, drawn, now), actions)
  }

  lemma ReachableInv(w: Space)
    requires Reachable(w)
    ensures Inv(w)
  {
    var persisted, drawn, now, actions :| drawn != NO_ID && w == Run(Initial(persisted, drawn, now), actions);
    InitialInv(persisted, drawn, now);
    RunKeeps(Initial(persisted, drawn, now), actions);
  }

  /** Under every interleaving the published state describes the registered agents, at most
      one transition is in flight, and it is the one ws.pending names. */
  lemma AccessDescribesAgents(w: Space)
    requires Reachable(w)
    ensures w.state.agents == |w.agentIds|
    ensures w.state.status == Busy <==> w.agentIds != {}
    ensures w.state.token == NO_ID <==> w.state.status == Busy
    ensures |w.transitions| <= 1 && w.transitions.Keys == (if w.pending.Some? then {w.pending.value} else {})
  {
    ReachableInv(w);
    assert |w.transitions| == |w.transitions.Keys|;
  }

  /** A mutation in its filesystem phase runs with no registered agent and nothing in flight,
      and only its own actions can change the access state before it releases the coordinator. */
  lemma WritesAreQuiescent(w: Space, a: Action)
    requires Reachable(w) && w.holder.Some?
    ensures w.agentIds == {} && w.transitions == map[] && w.state.token == w.holder.value
    ensures var w' := Step(w, a);
      w'.holder == w.holder ==> w'.state == w.state && w'.agentIds == w.agentIds && w'.transitions == w.transitions
  {
    ReachableInv(w);
    assert w.transitions.Keys == {};
  }

  /** A refusal restores exactly the state and agent set before the admission, when nothing cut
      in; otherwise a strictly newer generation stands and is left alone. */
  lemma RollbackIsExact(w: Space, p: nat)
    requires Reachable(w) && p in w.transitions && !w.transitions[p].answered
    ensures var t := w.transitions[p];
      var w' := Answered(w, p, Refused);
      if w.state == t.offered
      then w.agentIds == t.agentsAfter && w'.state == t.previous && w'.agentIds == t.agentsBefore
      else w.state.generation > t.offered.generation && w'.state == w.state && w'.agentIds == w.agentIds
  {
    ReachableInv(w);
    assert TransitionInv(w, w.transitions[p]);
  }

  /** Two admitted mutations whose commits were not refused presented different tokens. */
  lemma TokenAdmitsOnce(w: Space, i: nat, j: nat)
    requires Reachable(w) && i < j < |w.admissions|
    requires !w.admissions[i].refused && !w.admissions[j].refused
    ensures w.admissions[i].token != w.admissions[j].token
  {
    ReachableInv(w);
  }

  /** A token that opened a mutation whose commit was not refused validates no further one. */
  lemma SpentTokenIsRefused(w: Space, i: nat)
    requires Reachable(w) && i < |w.admissions| && !w.admissions[i].refused
    ensures !MayMutate(w, w.admissions[i].token)
    ensures Locked(w, w.admissions[i].token) == w
  {
    ReachableInv(w);
    if w.state.token != NO_ID {
      CurrentTokenIsUnspent(w, i);
    }
  }
}
