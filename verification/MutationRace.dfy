/** File mutations of one workspace as they interleave (WriteText and Upload in
    internal/workspace/service.go). A call replaces its target and advances the access state under the
    coordinator, but undoes the files of a refused or failed one after it has let go of the coordinator and
    of its pending transition, when the next call may already be at work. A file is known by the call that
    wrote it. File operations do not fail here; Mutation has their failures. */
module MutationRace {
  import opened Common
  import W = Workspace

  /** Staged: the target is replaced, the coordinator held. Waiting and Settled: its transition is offered
      to the sink, and answered. Undoing: it failed or was refused, and only the files are left to undo. */
  datatype Phase = Staged | Waiting(p: nat) | Settled(p: nat, verdict: W.Verdict) | Undoing | Undone | Done

  /** `saved` is what stood at the target, moved to the backup name. */
  datatype Call = Call(target: Id, saved: Option<nat>, phase: Phase)

  datatype Site = Site(space: W.Space, files: map<Id, nat>, calls: map<nat, Call>)

  datatype Action =
    | Stage(call: nat, target: Id, token: Id)
    | Fail(call: nat, built: bool)
    | Advance(call: nat, drawn: Id, now: int)
    | Settle(call: nat, verdict: W.Verdict)
    | Finish(call: nat)
    | Undo(call: nat)
    | Other(action: W.Action)

  function Content(files: map<Id, nat>, target: Id): Option<nat> {
    if target in files then Some(files[target]) else None
  }

  function Put(files: map<Id, nat>, target: Id, content: Option<nat>): map<Id, nat> {
    if content.Some? then files[target := content.value] else files - {target}
  }

  /** No file was written by this call. */
  ghost predicate Unknown(s: Site, call: nat) {
    && call !in s.calls && (forall t :: t in s.files ==> s.files[t] != call)
    && forall c :: c in s.calls ==> s.calls[c].saved != Some(call)
  }

  predicate At(s: Site, call: nat, phase: Phase) {
    call in s.calls && s.calls[call].phase == phase
  }

  function Move(s: Site, call: nat, phase: Phase): Site
    requires call in s.calls
  {
    s.(calls := s.calls[call := s.calls[call].(phase := phase)])
  }

  /** Lock, check the token, stage the target and build the new file. */
  function Staging(s: Site, call: nat, target: Id, token: Id): Site {
    if call in s.calls || !W.CanAdmit(s.space) || !W.MayMutate(s.space, token) then s
    else Site(W.Step(s.space, W.LockMutation(token)), s.files[target := call],
              s.calls[call := Call(target, Content(s.files, target), Staged)])
  }

  /** Building or inspecting failed: the coordinator is released before the files are undone. */
  function Failing(s: Site, call: nat, built: bool): Site {
    if !At(s, call, Staged) then s
    else Move(s.(space := W.Step(s.space, W.AbandonMutation),
                 files := if built then s.files else s.files - {s.calls[call].target}), call, Undoing)
  }

  function Advancing(s: Site, call: nat, drawn: Id, now: int): Site {
    if !At(s, call, Staged) || s.space.holder.None? || !W.Fresh(s.space, drawn) then s
    else Move(s.(space := W.Step(s.space, W.AdvanceMutation(drawn, now))), call, Waiting(s.space.nextPending))
  }

  function Settling(s: Site, call: nat, verdict: W.Verdict): Site {
    if call !in s.calls || !s.calls[call].phase.Waiting? then s
    else
      var p := s.calls[call].phase.p;
      Move(s.(space := W.Step(s.space, W.SinkAnswers(p, verdict))), call, Settled(p, verdict))
  }

  /** finishPending; a call that was not refused is over. */
  function Finishing(s: Site, call: nat): Site {
    if call !in s.calls || !s.calls[call].phase.Settled? then s
    else
      var Settled(p, verdict) := s.calls[call].phase;
      Move(s.(space := W.Step(s.space, W.FinishPending(p))), call, if verdict.Refused? then Undoing else Done)
  }

  /** targetBackup.rollback: remove what is at the target, and move the backup there. */
  function Reverting(s: Site, call: nat): Site {
    if !At(s, call, Undoing) then s
    else Move(s.(files := Put(s.files, s.calls[call].target, s.calls[call].saved)), call, Undone)
  }

  /** Agents, registering, and the transitions of agents. */
  predicate Apart(s: Site, a: W.Action) {
    match a
    case LockMutation(_) => false
    case AbandonMutation => false
    case AdvanceMutation(_, _) => false
    case SinkAnswers(p, _) => !OfCall(s, p)
    case FinishPending(p) => !OfCall(s, p)
    case _ => true
  }

  predicate OfCall(s: Site, p: nat) {
    exists c :: c in s.calls && PendingOf(s.calls[c].phase) == Some(p)
  }

  function PendingOf(phase: Phase): Option<nat> {
    if phase.Waiting? || phase.Settled? then Some(phase.p) else None
  }

  function Step(s: Site, a: Action): Site {
    match a
    case Stage(call, target, token) => Staging(s, call, target, token)
    case Fail(call, built) => Failing(s, call, built)
    case Advance(call, drawn, now) => Advancing(s, call, drawn, now)
    case Settle(call, verdict) => Settling(s, call, verdict)
    case Finish(call) => Finishing(s, call)
    case Undo(call) => Reverting(s, call)
    case Other(action) => if Apart(s, action) then s.(space := W.Step(s.space, action)) else s
  }

  function Run(s: Site, actions: seq<Action>): Site {
    if actions == [] then s else Step(Run(s, actions[..|actions| - 1]), actions[|actions| - 1])
  }

  // ----------------------------------------------------------------- invariant

  /** A call at work holds the coordinator or the pending transition. */
  ghost predicate CallInv(w: W.Space, phase: Phase) {
    match phase
    case Staged => w.holder.Some?
    case Waiting(p) => p in w.transitions && !w.transitions[p].answered
    case Settled(p, _) => p in w.transitions && w.transitions[p].answered
    case _ => true
  }

  ghost predicate Inv(s: Site) {
    && W.Inv(s.space)
    && (forall c :: c in s.calls ==> CallInv(s.space, s.calls[c].phase))
    && (forall b, c :: b in s.calls && c in s.calls && b != c ==>
          !(s.calls[b].phase.Staged? && s.calls[c].phase.Staged?))
    && (forall b, c :: b in s.calls && c in s.calls && b != c && PendingOf(s.calls[b].phase).Some? ==>
          PendingOf(s.calls[b].phase) != PendingOf(s.calls[c].phase))
  }

  predicate Resting(phase: Phase) {
    phase.Undoing? || phase.Undone? || phase.Done?
  }

  /** When a call is admitted, every other call is over or has only its files to undo. */
  lemma AdmittedAlone(s: Site)
    requires Inv(s) && W.CanAdmit(s.space)
    ensures forall c :: c in s.calls ==> Resting(s.calls[c].phase)
  {
  }

  lemma StageKeeps(s: Site, call: nat, target: Id, token: Id)
    requires Inv(s)
    ensures Inv(Staging(s, call, target, token))
  {
    if call !in s.calls && W.CanAdmit(s.space) && W.MayMutate(s.space, token) {
      AdmittedAlone(s);
      W.StepKeeps(s.space, W.LockMutation(token));
    }
  }

  /** One call moves on, and the protocol with it; no other call depends on what changed. */
  lemma MovedInv(s: Site, w: W.Space, files: map<Id, nat>, call: nat, phase: Phase)
    requires Inv(s) && call in s.calls && W.Inv(w) && CallInv(w, phase) && !phase.Staged?
    requires forall c :: c in s.calls && c != call ==>
      CallInv(w, s.calls[c].phase) && (PendingOf(phase).Some? ==> PendingOf(s.calls[c].phase) != PendingOf(phase))
    ensures Inv(Move(Site(w, files, s.calls), call, phase))
  {
  }

  lemma FailKeeps(s: Site, call: nat, built: bool)
    requires Inv(s)
    ensures Inv(Failing(s, call, built))
  {
    if At(s, call, Staged) {
      W.StepKeeps(s.space, W.AbandonMutation);
      forall c | c in s.calls && c != call ensures CallInv(W.Step(s.space, W.AbandonMutation), s.calls[c].phase) {
        assert !s.calls[c].phase.Staged?;
      }
      MovedInv(s, W.Step(s.space, W.AbandonMutation), Failing(s, call, built).files, call, Undoing);
    }
  }

  /** While a call holds the coordinator no transition is pending. */
  lemma StagedAlone(s: Site, call: nat)
    requires Inv(s) && At(s, call, Staged)
    ensures forall c :: c in s.calls && c != call ==> Resting(s.calls[c].phase)
  {
  }

  lemma AdvanceKeeps(s: Site, call: nat, drawn: Id, now: int)
    requires Inv(s)
    ensures Inv(Advancing(s, call, drawn, now))
  {
    if At(s, call, Staged) && s.space.holder.Some? && W.Fresh(s.space, drawn) {
      W.StepKeeps(s.space, W.AdvanceMutation(drawn, now));
      StagedAlone(s, call);
      MovedInv(s, W.Step(s.space, W.AdvanceMutation(drawn, now)), s.files, call, Waiting(s.space.nextPending));
    }
  }

  /** Whatever does not act for a call leaves the coordinator and its transition alone. */
  lemma ApartKeepsCall(w: W.Space, a: W.Action, phase: Phase)
    requires W.Inv(w) && CallInv(w, phase)
    requires !a.LockMutation? && !a.AbandonMutation? && !a.AdvanceMutation?
    requires a.SinkAnswers? || a.FinishPending? ==> PendingOf(phase) != Some(a.pending)
    ensures CallInv(W.Step(w, a), phase)
  {
  }

  /** One call moves on with its transition; the others do not notice. */
  lemma MoveKeeps(s: Site, a: W.Action, call: nat, phase: Phase)
    requires Inv(s) && call in s.calls && (a.SinkAnswers? || a.FinishPending?)
    requires PendingOf(s.calls[call].phase) == Some(a.pending)
    requires PendingOf(phase).None? || PendingOf(phase) == Some(a.pending)
    requires !phase.Staged? && CallInv(W.Step(s.space, a), phase)
    ensures Inv(Move(s.(space := W.Step(s.space, a)), call, phase))
  {
    W.StepKeeps(s.space, a);
    forall c | c in s.calls && c != call ensures CallInv(W.Step(s.space, a), s.calls[c].phase) {
      ApartKeepsCall(s.space, a, s.calls[c].phase);
    }
    MovedInv(s, W.Step(s.space, a), s.files, call, phase);
  }

  lemma SettleKeeps(s: Site, call: nat, verdict: W.Verdict)
    requires Inv(s)
    ensures Inv(Settling(s, call, verdict))
  {
    if call in s.calls && s.calls[call].phase.Waiting? {
      var p := s.calls[call].phase.p;
      MoveKeeps(s, W.SinkAnswers(p, verdict), call, Settled(p, verdict));
    }
  }

  lemma FinishKeeps(s: Site, call: nat)
    requires Inv(s)
    ensures Inv(Finishing(s, call))
  {
    if call in s.calls && s.calls[call].phase.Settled? {
      var Settled(p, verdict) := s.calls[call].phase;
      MoveKeeps(s, W.FinishPending(p), call, if verdict.Refused? then Undoing else Done);
    }
  }

  lemma UndoKeeps(s: Site, call: nat)
    requires Inv(s)
    ensures Inv(Reverting(s, call))
  {
  }

  lemma OtherKeeps(s: Site, a: W.Action)
    requires Inv(s) && Apart(s, a)
    ensures Inv(s.(space := W.Step(s.space, a)))
  {
    W.StepKeeps(s.space, a);
    forall c | c in s.calls ensures CallInv(W.Step(s.space, a), s.calls[c].phase) {
      ApartKeepsCall(s.space, a, s.calls[c].phase);
    }
  }

  lemma StepKeeps(s: Site, a: Action)
    requires Inv(s)
    ensures Inv(Step(s, a))
  {
    match a
    case Stage(call, target, token) => StageKeeps(s, call, target, token);
    case Fail(call, built) => FailKeeps(s, call, built);
    case Advance(call, drawn, now) => AdvanceKeeps(s, call, drawn, now);
    case Settle(call, verdict) => SettleKeeps(s, call, verdict);
    case Finish(call) => FinishKeeps(s, call);
    case Undo(call) => UndoKeeps(s, call);
    case Other(action) => if Apart(s, action) { OtherKeeps(s, action); }
  }

  lemma {:induction false} RunKeeps(s: Site, actions: seq<Action>)
    requires Inv(s)
    ensures Inv(Run(s, actions))
  {
    if actions != [] {
      RunKeeps(s, actions[..|actions| - 1]);
      StepKeeps(Run(s, actions[..|actions| - 1]), actions[|actions| - 1]);
    }
  }

  // ------------------------------------------------------------- who survives

  predicate OutstandingAt(c: Call, target: Id) {
    c.target == target && c.phase.Undoing?
  }

  /** A call on the target still has its files to undo. */
  predicate Outstanding(s: Site, target: Id) {
    exists c :: c in s.calls && OutstandingAt(s.calls[c], target)
  }

  /** Nobody else is admitted on the target. */
  ghost predicate NoneOn(actions: seq<Action>, target: Id) {
    forall i :: 0 <= i < |actions| && actions[i].Stage? ==> actions[i].target != target
  }

  /** Every other call on the target is over or has only its files to undo, and saved no file of `call`. */
  ghost predicate OthersRest(s: Site, call: nat, target: Id) {
    && call in s.calls && s.calls[call].target == target && s.calls[call].saved != Some(call)
    && forall c :: c in s.calls && c != call && s.calls[c].target == target ==>
         Resting(s.calls[c].phase) && s.calls[c].saved != Some(call)
  }

  /** No other call on the target has anything to undo, and the call's own file stands until it fails. */
  ghost predicate Stands(s: Site, call: nat, target: Id) {
    && OthersRest(s, call, target)
    && (forall c :: c in s.calls && c != call ==> !OutstandingAt(s.calls[c], target))
    && (s.calls[call].phase.Undoing? || s.calls[call].phase.Undone? || Content(s.files, target) == Some(call))
  }

  /** Another call's undo is still to come, or has taken the call's file away. */
  ghost predicate Doomed(s: Site, call: nat, target: Id) {
    && OthersRest(s, call, target)
    && (|| (exists c :: c in s.calls && c != call && OutstandingAt(s.calls[c], target))
        || Content(s.files, target) != Some(call))
  }

  lemma StepStands(s: Site, a: Action, call: nat, target: Id)
    requires Stands(s, call, target) && (a.Stage? ==> a.target != target)
    ensures Stands(Step(s, a), call, target)
  {
  }

  lemma StepDooms(s: Site, a: Action, call: nat, target: Id)
    requires Doomed(s, call, target) && (a.Stage? ==> a.target != target)
    ensures Doomed(Step(s, a), call, target)
  {
    var s' := Step(s, a);
    if Content(s.files, target) == Some(call) {
      var c :| c in s.calls && c != call && OutstandingAt(s.calls[c], target);
      if !(a.Undo? && a.call == c) {
        assert OutstandingAt(s'.calls[c], target);
      }
    }
  }

  lemma {:induction false} RunStands(s: Site, actions: seq<Action>, call: nat, target: Id)
    requires Stands(s, call, target) && NoneOn(actions, target)
    ensures Stands(Run(s, actions), call, target)
  {
    if actions != [] {
      RunStands(s, actions[..|actions| - 1], call, target);
      StepStands(Run(s, actions[..|actions| - 1]), actions[|actions| - 1], call, target);
    }
  }

  lemma {:induction false} RunDooms(s: Site, actions: seq<Action>, call: nat, target: Id)
    requires Doomed(s, call, target) && NoneOn(actions, target)
    ensures Doomed(Run(s, actions), call, target)
  {
    if actions != [] {
      RunDooms(s, actions[..|actions| - 1], call, target);
      StepDooms(Run(s, actions[..|actions| - 1]), actions[|actions| - 1], call, target);
    }
  }

  /** What a call finds when it is admitted. */
  lemma AdmittedStandsOrIsDoomed(s: Site, call: nat, target: Id, token: Id)
    requires Inv(s) && Unknown(s, call) && W.CanAdmit(s.space) && W.MayMutate(s.space, token)
    ensures var s1 := Staging(s, call, target, token);
      if Outstanding(s, target) then Doomed(s1, call, target) else Stands(s1, call, target)
  {
    AdmittedAlone(s);
    var s1 := Staging(s, call, target, token);
    if Outstanding(s, target) {
      var c :| c in s.calls && OutstandingAt(s.calls[c], target);
      assert OutstandingAt(s1.calls[c], target);
    }
  }

  /** A write that was accepted, or whose outcome is unknown, stands when everything on its target has
      come to rest and nobody else wrote there since, exactly when no failed or refused call on the target
      still had its files to undo as it was admitted. */
  lemma SurvivesIff(s: Site, call: nat, target: Id, token: Id, later: seq<Action>)
    requires Inv(s) && Unknown(s, call) && W.CanAdmit(s.space) && W.MayMutate(s.space, token)
    requires NoneOn(later, target)
    requires var s' := Run(Step(s, Stage(call, target, token)), later);
      At(s', call, Done) && !Outstanding(s', target)
    ensures var s' := Run(Step(s, Stage(call, target, token)), later);
      Content(s'.files, target) == Some(call) <==> !Outstanding(s, target)
  {
    AdmittedStandsOrIsDoomed(s, call, target, token);
    var s1 := Step(s, Stage(call, target, token));
    if Outstanding(s, target) {
      RunDooms(s1, later, call, target);
    } else {
      RunStands(s1, later, call, target);
    }
  }

  // ------------------------------------------------------------------- witness

  /** The two calls on one file: the first is refused and lets go, the second is admitted with the token
      that the refusal restored, and accepted; then the first undoes its files. */
  function FirstRefused(s: Site, target: Id, token: Id, drawn: Id, now: int): Site {
    Step(Step(Step(Step(s, Stage(1, target, token)), Advance(1, drawn, now)), Settle(1, W.Refused)), Finish(1))
  }

  function SecondAccepted(s: Site, target: Id, token: Id, drawn: Id, now: int): Site {
    Step(Step(Step(Step(s, Stage(2, target, token)), Advance(2, drawn, now)), Settle(2, W.Accepted)), Finish(2))
  }

  /** An idle workspace, as it is first registered. */
  function Quiet(token: Id, now: int): Site {
    Site(W.Initial(None, token, now), map[], map[])
  }

  lemma RefusedLetsGo(s: Site, target: Id, token: Id, drawn: Id, now: int)
    requires s == Quiet(token, now) && token != NO_ID && drawn != NO_ID && drawn != token
    ensures var s1 := FirstRefused(s, target, token, drawn, now);
      && s1.space.state == s.space.state && W.CanAdmit(s1.space) && s1.space.nextPending == 1
      && s1.space.births == s.space.births[drawn := 2] && s1.space.transitions == map[]
      && s1.files == map[target := 1] && s1.calls == map[1 := Call(target, None, Undoing)]
  {
  }

  lemma SecondIsAccepted(s: Site, target: Id, token: Id, drawn: Id, now: int)
    requires s.calls == map[1 := Call(target, None, Undoing)] && s.files == map[target := 1]
    requires W.CanAdmit(s.space) && W.MayMutate(s.space, token)
    requires W.Fresh(s.space, drawn) && s.space.transitions == map[]
    ensures var s2 := SecondAccepted(s, target, token, drawn, now);
      At(s2, 1, Undoing) && s2.calls[1] == s.calls[1] && At(s2, 2, Done) && s2.files == map[target := 2]
  {
  }

  lemma FirstUndone(s: Site, target: Id)
    requires At(s, 1, Undoing) && s.calls[1] == Call(target, None, Undoing) && s.files == map[target := 2]
    ensures Step(s, Undo(1)).files == map[]
  {
  }

  /** The accepted write is gone: the file is as if neither call had been made. */
  lemma AcceptedWriteIsUndone(target: Id, token: Id, drawn: Id, drawn2: Id, now: int) returns (s1: Site, s2: Site)
    requires token != NO_ID && drawn != NO_ID && drawn2 != NO_ID && token != drawn && drawn2 != token && drawn2 != drawn
    ensures Inv(Quiet(token, now)) && s1 == FirstRefused(Quiet(token, now), target, token, drawn, now)
    ensures s2 == SecondAccepted(s1, target, token, drawn2, now)
    ensures At(s2, 2, Done) && Content(s2.files, target) == Some(2) && Step(s2, Undo(1)).files == map[]
  {
    W.InitialInv(None, token, now);
    s1 := FirstRefused(Quiet(token, now), target, token, drawn, now);
    RefusedLetsGo(Quiet(token, now), target, token, drawn, now);
    s2 := SecondAccepted(s1, target, token, drawn2, now);
    SecondIsAccepted(s1, target, token, drawn2, now);
    FirstUndone(s2, target);
  }
}
