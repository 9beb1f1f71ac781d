/** The in-place form of workspaceState in internal/workspace/service.go: its fields,
    updated section by section under `coordinator` and `mu`. Each method is tied to one
    action of the protocol, whose invariant every action keeps (Workspace.StepKeeps). */
module WorkspaceService {
  import opened Common
  import W = Workspace

  class WorkspaceState {
    var state: W.Access
    var agentIds: set<Id>
    var removed: bool
    var pending: Option<nat>
    var nextPending: nat
    var holder: Option<Id>
    var transitions: map<nat, W.Transition>
    ghost var births: map<Id, nat>
    var admissions: seq<W.Admission>

    ghost function Space(): W.Space
      reads this
    {
      W.Space(state, agentIds, removed, pending, transitions, nextPending, holder, births, admissions)
    }

    constructor (persisted: Option<W.Access>, drawn: Id, now: int)
      requires drawn != NO_ID
      ensures W.Inv(Space()) && Space() == W.Initial(persisted, drawn, now)
    {
      if persisted.None? || persisted.value.generation == 0 {
        state := W.Access(1, 0, W.Allowed, drawn, now);
      } else if W.NeedsNormalizing(persisted.value) {
        state := W.Access(persisted.value.generation + 1, 0, W.Allowed, drawn, now);
      } else {
        state := persisted.value;
      }
      agentIds, removed, pending, nextPending, holder, transitions := {}, false, None, 0, None, map[];
      ghost var restored := W.Restored(persisted, drawn, now);
      births, admissions := map[restored.token := restored.generation], [];
      new;
      W.InitialInv(persisted, drawn, now);
    }

    /** beginPendingLocked, with the local variables the waiting goroutine keeps. */
    method BeginPending(change: W.Change, previous: W.Access, before: set<Id>)
      modifies this`pending, this`nextPending, this`transitions, this`holder, this`births, this`admissions
      ensures Space() == W.Begin(old(Space()).(state := previous, agentIds := before), change, state, agentIds)
    {
      transitions := transitions[nextPending :=
        W.Transition(change, previous, state, false, before, agentIds, |admissions|)];
      pending := Some(nextPending);
      nextPending := nextPending + 1;
      holder := None;
      births := if state.token == NO_ID then births else births[state.token := state.generation];
      if change.Mutation? {
        admissions := admissions + [W.Admission(change.token, state.generation, false)];
      }
    }

    method AgentStarted(agent: Id, now: int) returns (admitted: bool)
      requires W.CanAdmit(Space())
      modifies this
      ensures Space() == W.Step(old(Space()), W.AdmitStart(agent, now))
      ensures admitted <==> agent != NO_ID && agent !in old(agentIds)
    {
      if agent == NO_ID || agent in agentIds {
        return false;
      }
      var previous, before := state, agentIds;
      agentIds := agentIds + {agent};
      state := state.(generation := state.generation + 1);
      state := state.(agents := |agentIds|, status := W.Busy, token := NO_ID, observedAt := now);
      BeginPending(W.AgentStart(agent), previous, before);
      return true;
    }

    method AgentStopped(agent: Id, drawn: Id, now: int) returns (admitted: bool)
      requires W.CanAdmit(Space()) && W.Fresh(Space(), drawn)
      modifies this
      ensures Space() == W.Step(old(Space()), W.AdmitStop(agent, drawn, now))
      ensures admitted <==> agent in old(agentIds)
    {
      if agent !in agentIds {
        return false;
      }
      var previous, before := state, agentIds;
      agentIds := agentIds - {agent};
      state := state.(generation := state.generation + 1, agents := |agentIds|);
      if |agentIds| == 0 {
        state := state.(status := W.Allowed, token := drawn);
      } else {
        state := state.(status := W.Busy, token := NO_ID);
      }
      state := state.(observedAt := now);
      BeginPending(W.AgentStop(agent), previous, before);
      return true;
    }

    method RestoreAgent(agent: Id, now: int) returns (restored: W.Access)
      requires holder.None? && !removed
      modifies this`agentIds, this`state
      ensures Space() == W.Step(old(Space()), W.RestoreAgent(agent, now))
      ensures restored == state && (if agent == NO_ID then W.RESTORE_UNKNOWN else agent) in agentIds
    {
      var id := if agent == NO_ID then W.RESTORE_UNKNOWN else agent;
      if id !in agentIds {
        agentIds := agentIds + {id};
        state := state.(generation := state.generation + 1, agents := |agentIds|);
        state := state.(status := W.Busy, token := NO_ID, observedAt := now);
      }
      return state;
    }

    method Register(persisted: Option<W.Access>, drawn: Id, now: int) returns (current: W.Access)
      requires holder.None? && W.Plausible(Space(), W.Restored(persisted, drawn, now), drawn)
      modifies this`state, this`agentIds, this`removed, this`births
      ensures Space() == W.Step(old(Space()), W.Register(persisted, drawn, now))
      ensures current == state && current.generation >= old(state).generation
      ensures current.generation >= W.Restored(persisted, drawn, now).generation
    {
      var a := W.Restored(persisted, drawn, now);
      removed := false;
      births := births[a.token := a.generation];
      if state.generation < a.generation {
        state := a;
        agentIds := {};
      }
      return state;
    }

    method AdvanceMutation(drawn: Id, now: int)
      requires holder.Some? && W.Fresh(Space(), drawn)
      modifies this
      ensures Space() == W.Step(old(Space()), W.AdvanceMutation(drawn, now))
    {
      var previous, token := state, holder.value;
      state := state.(generation := state.generation + 1);
      state := state.(observedAt := now);
      state := state.(token := drawn);
      BeginPending(W.Mutation(token), previous, agentIds);
    }

    /** The section after emit returned a deterministic error. */
    method RollbackState(p: nat) returns (rolledBack: bool)
      requires p in transitions && !transitions[p].answered
      modifies this
      ensures Space() == W.Step(old(Space()), W.SinkAnswers(p, W.Refused))
      ensures rolledBack <==> old(state == transitions[p].offered)
    {
      var t := transitions[p];
      transitions := transitions[p := t.(answered := true)];
      if t.change.Mutation? {
        admissions := W.MarkRefused(admissions, t.admission);
      }
      rolledBack := state == t.offered;
      if rolledBack {
        match t.change {
          case AgentStart(a) => agentIds := agentIds - {a};
          case AgentStop(a) => agentIds := agentIds + {a};
          case Mutation(_) =>
        }
        state := t.previous;
      }
    }

    method FinishPending(p: nat)
      requires p in transitions && transitions[p].answered
      modifies this`pending, this`transitions
      ensures Space() == W.Step(old(Space()), W.FinishPending(p))
      ensures pending != Some(p)
    {
      if pending == Some(p) {
        pending := None;
      }
      transitions := transitions - {p};
    }
  }
}
