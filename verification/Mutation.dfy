/** File mutations on top of the quiescence protocol (internal/workspace/service.go,
    WriteText and Upload), for a call that no other operation interleaves with. The
    filesystem is the directory that holds the target: every staging, backup and
    temporary name is a sibling of it. Faults are parameters. */
module Mutation {
  import opened Common
  import W = Workspace

  /** File content, only compared. */
  type Blob = int

  /** An entry of the directory; a directory entry is an opaque tree of relative paths. */
  datatype Node = File(content: Blob, revision: Id) | Dir(tree: map<Id, Blob>) | Special

  type Entries = map<Id, Node>

  datatype Condition = Unspecified | CreateOnly | ReplaceOnly | Upsert

  datatype Rejection = InvalidRequest | Conflict | NotFound | RevisionConflict

  // ------------------------------------------------------ optimistic concurrency

  /** validateMutationTarget with the regular-file kind, in the order of its checks. */
  function ValidateTarget(existing: Option<Node>, condition: Condition, expected: Id): Option<Rejection> {
    if condition.Unspecified? then Some(InvalidRequest)
    else if condition.CreateOnly? && expected != NO_ID then Some(InvalidRequest)
    else if condition.CreateOnly? && existing.Some? then Some(Conflict)
    else if condition.ReplaceOnly? && expected == NO_ID then Some(InvalidRequest)
    else if condition.ReplaceOnly? && existing.None? then Some(NotFound)
    else if condition.Upsert? && expected == NO_ID && existing.Some? then Some(RevisionConflict)
    else if condition.Upsert? && expected != NO_ID && existing.None? then Some(RevisionConflict)
    else if existing.Some? && !existing.value.File? then Some(Conflict)
    else if existing.Some? && expected != NO_ID && existing.value.revision != expected then Some(RevisionConflict)
    else None
  }

  /** A write is let through exactly when the caller's picture of the target is right: an empty
      revision claims it is absent, any other that it is a regular file at that revision. */
  lemma TargetAcceptedIff(existing: Option<Node>, condition: Condition, expected: Id)
    ensures ValidateTarget(existing, condition, expected).None? <==>
      && !condition.Unspecified?
      && (condition.CreateOnly? ==> expected == NO_ID) && (condition.ReplaceOnly? ==> expected != NO_ID)
      && (expected == NO_ID <==> existing.None?)
      && (existing.Some? ==> existing.value.File? && existing.value.revision == expected)
  {
  }

  /** A new tree for Upload, or a new file for WriteText and Upload. */
  datatype Payload = NewFile(content: Blob, revision: Id) | NewTree(extracted: Option<map<Id, Blob>>)

  function Built(p: Payload): Option<Node> {
    match p
    case NewFile(content, revision) => Some(File(content, revision))
    case NewTree(extracted) => if extracted.Some? then Some(Dir(extracted.value)) else None
  }

  /** Which filesystem calls fail. */
  datatype Faults = Faults(
    stage: bool, create: bool, write: bool, publish: bool, cleanup: bool, inspect: bool,
    undoRemove: bool, undoRename: bool, discard: bool)

  /** Sibling names the call draws: the rollback backup and the temporary file or staging directory. */
  datatype Names = Names(target: Id, backup: Id, temporary: Id)

  /** The two directories differ at most at the given names. */
  ghost predicate SameExcept(a: Entries, b: Entries, names: set<Id>) {
    forall k :: k !in names ==> (k in a <==> k in b) && (k in a ==> a[k] == b[k])
  }

  /** The directory with an existing target copied to its backup name. */
  function Staged(entries: Entries, n: Names, existed: bool): Entries
    requires existed ==> n.target in entries
  {
    if existed then entries[n.backup := entries[n.target]] else entries
  }

  ghost predicate FreshNames(entries: Entries, n: Names) {
    && n.backup !in entries && n.temporary !in entries
    && n.backup != n.target && n.temporary != n.target && n.backup != n.temporary
  }

  datatype Outcome =
    | Done
    | CodexGone
    | Rejected(why: Rejection)
    | WorkspaceBusy
    | Failed
    | RollbackFailed
    | CommitRefused
    | CommitUnknown

  /** The access state a committed mutation leaves. */
  function Next(state: W.Access, drawn: Id, now: int): W.Access {
    state.(generation := state.generation + 1, token := drawn, observedAt := now)
  }

  /** A mutation that holds the coordinator, committed with nothing cutting in. */
  function Committed(w: W.Space, drawn: Id, now: int, verdict: W.Verdict): W.Space
    requires w.holder.Some? && W.Fresh(w, drawn)
  {
    var advanced := W.Advanced(w, drawn, now);
    var p := advanced.pending.value;
    W.Finished(W.Answered(advanced, p, verdict), p)
  }

  lemma CommittedKeeps(w: W.Space, drawn: Id, now: int, verdict: W.Verdict)
    requires W.Inv(w) && w.holder.Some? && W.Fresh(w, drawn)
    ensures W.Inv(Committed(w, drawn, now, verdict))
  {
    var advanced := W.Advanced(w, drawn, now);
    var p := advanced.pending.value;
    W.AdvancedKeeps(w, drawn, now);
    W.AnsweredKeeps(advanced, p, verdict);
    W.FinishedKeeps(W.Answered(advanced, p, verdict), p);
  }

  lemma CommittedState(w: W.Space, drawn: Id, now: int, verdict: W.Verdict)
    requires w.holder.Some? && W.Fresh(w, drawn)
    ensures var w' := Committed(w, drawn, now, verdict);
      && w'.holder.None? && w'.pending.None? && w'.removed == w.removed && w'.agentIds == w.agentIds
      && w'.state == if verdict.Refused? then w.state else Next(w.state, drawn, now)
  {
  }

  class MutableWorkspace {
    var space: W.Space
    var entries: Entries

    /** os.Rename of a sibling onto a free name. */
    method Rename(source: Id, destination: Id, fails: bool) returns (ok: bool)
      requires destination !in entries && source != destination
      modifies this`entries
      ensures ok <==> !fails && source in old(entries)
      ensures ok ==> entries == (old(entries) - {source})[destination := old(entries)[source]]
      ensures !ok ==> entries == old(entries)
    {
      ok := !fails && source in entries;
      if ok {
        var node := entries[source];
        entries := entries - {source};
        entries := entries[destination := node];
      }
    }

    method Remove(name: Id, fails: bool) returns (ok: bool)
      modifies this`entries
      ensures ok <==> !fails
      ensures entries == if ok then old(entries) - {name} else old(entries)
    {
      ok := !fails;
      if ok {
        entries := entries - {name};
      }
    }

    /** stageTarget: moves an existing target aside. */
    method StageTarget(n: Names, faults: Faults) returns (ok: bool, existed: bool)
      requires FreshNames(entries, n)
      modifies this`entries
      ensures existed ==> ok && n.target in old(entries)
      ensures ok <==> n.target !in old(entries) || !faults.stage
      ensures ok && !existed ==> n.target !in old(entries) && entries == old(entries)
      ensures existed ==> entries == (old(entries) - {n.target})[n.backup := old(entries)[n.target]]
      ensures !ok ==> entries == old(entries)
    {
      existed := false;
      if n.target !in entries {
        return true, false;
      }
      ok := Rename(n.target, n.backup, faults.stage);
      existed := ok;
    }

    /** atomicFile and extractZIPAtomic: build beside the target, then rename onto it. */
    method Build(n: Names, payload: Payload, faults: Faults) returns (ok: bool)
      requires n.target !in entries && n.temporary !in entries && n.target != n.temporary
      modifies this`entries
      ensures ok <==> !faults.create && Built(payload).Some? && !faults.write && !faults.publish
      ensures ok ==> entries == old(entries)[n.target := Built(payload).value]
      ensures !ok ==> SameExcept(entries, old(entries), {n.temporary})
      ensures !ok && !faults.cleanup ==> entries == old(entries)
    {
      if faults.create {
        return false;
      }
      ok := Built(payload).Some? && !faults.write;
      entries := entries[n.temporary := if ok then Built(payload).value else Dir(map[])];
      if ok {
        ok := Rename(n.temporary, n.target, faults.publish);
      }
      if !ok {
        var _ := Remove(n.temporary, faults.cleanup);
      }
    }

    /** targetBackup.rollback */
    method Rollback(n: Names, existed: bool, faults: Faults) returns (ok: bool)
      requires existed ==> n.backup in entries && n.backup != n.target
      modifies this`entries
      ensures ok <==> !faults.undoRemove && (existed ==> !faults.undoRename)
      ensures ok && !existed ==> entries == old(entries) - {n.target}
      ensures ok && existed ==>
        entries == ((old(entries) - {n.target}) - {n.backup})[n.target := old(entries)[n.backup]]
      ensures existed && !ok ==> n.backup in entries && entries[n.backup] == old(entries)[n.backup]
      ensures SameExcept(entries, old(entries), {n.target, n.backup})
    {
      ok := Remove(n.target, faults.undoRemove);
      if ok && existed {
        ok := Rename(n.backup, n.target, faults.undoRename);
      }
    }

    /** No operation is admitted or waiting for its sink. */
    ghost predicate Idle()
      reads this
    {
      W.Inv(space) && space.holder.None? && space.pending.None?
    }

    /** The filesystem phase: stage, build, inspect, with the undo of each step's failure. */
    method Replace(n: Names, payload: Payload, faults: Faults) returns (outcome: Outcome, existed: bool)
      requires FreshNames(entries, n)
      modifies this`entries
      ensures outcome.Done? || outcome.Failed? || outcome.RollbackFailed?
      ensures existed ==> n.target in old(entries)
      ensures outcome.Done? ==>
        && (existed <==> n.target in old(entries)) && Built(payload).Some?
        && entries == Staged(old(entries), n, existed)[n.target := Built(payload).value]
      ensures outcome.Done? <==>
        && (n.target in old(entries) ==> !faults.stage) && !faults.create && Built(payload).Some?
        && !faults.write && !faults.publish && !faults.inspect
      ensures outcome.Failed? ==> SameExcept(entries, old(entries), {n.temporary})
      ensures outcome.Failed? && !faults.cleanup ==> entries == old(entries)
      ensures outcome.RollbackFailed? ==> faults.undoRemove || faults.undoRename
      ensures outcome.RollbackFailed? && existed ==> n.backup in entries && entries[n.backup] == old(entries)[n.target]
      ensures outcome.RollbackFailed? && !existed ==> n.target !in old(entries)
      ensures SameExcept(entries, old(entries), {n.target, n.backup, n.temporary})
    {
      var staged: bool;
      staged, existed := StageTarget(n, faults);
      if !staged {
        return Failed, false;
      }
      var built := Build(n, payload, faults);
      if built && !faults.inspect {
        return Done, existed;
      }
      var undone := Rollback(n, existed, faults);
      return if undone then Failed else RollbackFailed, existed;
    }

    /** The access state, before and after, as the sink and the client see it. */
    ghost predicate AccessUnchanged(before: W.Space)
      reads this
    {
      space.state == before.state && space.agentIds == before.agentIds
    }

    /** The coordinator is taken before the files are touched. */
    method Lock(token: Id)
      requires Idle() && !space.removed && W.MayMutate(space, token)
      modifies this`space
      ensures W.Inv(space) && space == W.Step(old(space), W.LockMutation(token)) && space.holder == Some(token)
    {
      W.LockedKeeps(space, token);
      space := W.Locked(space, token);
    }

    method Release()
      requires W.Inv(space) && space.holder.Some?
      modifies this`space
      ensures Idle() && space == W.Step(old(space), W.AbandonMutation)
    {
      W.StepKeeps(space, W.AbandonMutation);
      space := space.(holder := None);
    }

    /** advanceMutationLocked, the sink's verdict and finishPending, with nothing cutting in. */
    method CommitAccess(drawn: Id, now: int, verdict: W.Verdict)
      requires W.Inv(space) && space.holder.Some? && W.Fresh(space, drawn)
      modifies this`space
      ensures Idle() && space.agentIds == old(space.agentIds) && space.removed == old(space.removed)
      ensures if verdict.Refused? then AccessUnchanged(old(space))
        else space.state == Next(old(space.state), drawn, now)
    {
      CommittedKeeps(space, drawn, now, verdict);
      CommittedState(space, drawn, now, verdict);
      space := W.Advanced(space, drawn, now);
      var p := space.pending.value;
      space := W.Answered(space, p, verdict);
      space := W.Finished(space, p);
    }

    /** What happens to the files once the sink has answered: undo, or drop the backup. */
    method Settle(n: Names, existed: bool, faults: Faults, verdict: W.Verdict, ghost node: Node, ghost before: Entries)
      returns (outcome: Outcome)
      requires FreshNames(before, n) && (existed <==> n.target in before)
      requires entries == Staged(before, n, existed)[n.target := node]
      modifies this`entries
      ensures verdict.Refused? <==> outcome.CommitRefused? || outcome.RollbackFailed?
      ensures verdict.Unknown? <==> outcome.CommitUnknown?
      ensures verdict.Accepted? <==> outcome.Done?
      ensures outcome.RollbackFailed? <==> verdict.Refused? && (faults.undoRemove || (existed && faults.undoRename))
      ensures !verdict.Refused? && !faults.discard ==> entries == before[n.target := node]
      ensures outcome.CommitRefused? ==> entries == before
      ensures outcome.RollbackFailed? && existed ==> n.backup in entries && entries[n.backup] == before[n.target]
      ensures SameExcept(entries, before, {n.target, n.backup})
    {
      if verdict.Refused? {
        var undone := Rollback(n, existed, faults);
        return if undone then CommitRefused else RollbackFailed;
      }
      if existed {
        var _ := Remove(n.backup, faults.discard);
      }
      return if verdict.Unknown? then CommitUnknown else Done;
    }

    /** WriteText and Upload share this course; `rejection` is the verdict of the target check. */
    method Mutate(token: Id, n: Names, payload: Payload, rejection: Option<Rejection>, faults: Faults,
                  drawn: Id, now: int, verdict: W.Verdict) returns (outcome: Outcome)
      requires Idle() && FreshNames(entries, n) && W.Fresh(space, drawn)
      modifies this
      ensures Idle() && space.agentIds == old(space.agentIds)
      // Success: exactly the target changes, no staging or backup entry stays, one new generation.
      ensures outcome.Done? || outcome.CommitUnknown? ==>
        && Built(payload).Some? && old(W.MayMutate(space, token)) && rejection.None?
        && (!faults.discard ==> entries == old(entries)[n.target := Built(payload).value])
        && space.state == Next(old(space.state), drawn, now)
      // Failure: nothing changes, neither files nor access state.
      ensures !outcome.Done? && !outcome.CommitUnknown? ==> AccessUnchanged(old(space))
      ensures !outcome.Done? && !outcome.CommitUnknown? && !outcome.RollbackFailed? && !faults.cleanup ==>
        entries == old(entries)
      // Whatever fails, no other name changes, and the replaced node is never lost.
      ensures SameExcept(entries, old(entries), {n.target, n.backup, n.temporary})
      ensures !outcome.Done? && !outcome.CommitUnknown? && n.target in old(entries) ==>
        || (n.target in entries && entries[n.target] == old(entries)[n.target])
        || (n.backup in entries && entries[n.backup] == old(entries)[n.target])
      ensures outcome.RollbackFailed? ==> faults.undoRemove || faults.undoRename
      ensures outcome.CommitUnknown? ==> verdict.Unknown?
      ensures outcome.Done? ==> verdict.Accepted?
    {
      if space.removed {
        return CodexGone;
      }
      if !W.MayMutate(space, token) {
        return WorkspaceBusy;
      }
      Lock(token);
      if rejection.Some? {
        Release();
        return Rejected(rejection.value);
      }
      var existed: bool;
      outcome, existed := Replace(n, payload, faults);
      if !outcome.Done? {
        Release();
        return;
      }
      CommitAccess(drawn, now, verdict);
      outcome := Settle(n, existed, faults, verdict, Built(payload).value, old(entries));
    }

    method WriteText(token: Id, n: Names, content: Blob, revision: Id, condition: Condition, expected: Id,
                     faults: Faults, drawn: Id, now: int, verdict: W.Verdict) returns (outcome: Outcome)
      requires Idle() && FreshNames(entries, n) && W.Fresh(space, drawn)
      modifies this
      ensures Idle()
      ensures outcome.Done? && !faults.discard ==> entries == old(entries)[n.target := File(content, revision)]
      ensures outcome.Done? ==>
        (expected == NO_ID <==> n.target !in old(entries)) &&
          (expected != NO_ID ==> old(entries)[n.target].File? && old(entries)[n.target].revision == expected)
      ensures !outcome.Done? && !outcome.CommitUnknown? ==> AccessUnchanged(old(space))
      ensures !outcome.Done? && !outcome.CommitUnknown? && !outcome.RollbackFailed? && !faults.cleanup ==>
        entries == old(entries)
    {
      var existing := if n.target in entries then Some(entries[n.target]) else None;
      TargetAcceptedIff(existing, condition, expected);
      outcome := Mutate(token, n, NewFile(content, revision), ValidateTarget(existing, condition, expected), faults,
        drawn, now, verdict);
    }

    method Upload(token: Id, n: Names, payload: Payload, faults: Faults, drawn: Id, now: int, verdict: W.Verdict)
      returns (outcome: Outcome)
      requires Idle() && FreshNames(entries, n) && W.Fresh(space, drawn)
      modifies this
      ensures Idle()
      ensures outcome.Done? ==> Built(payload).Some? && (n.target in old(entries) ==> !old(entries)[n.target].Special?)
      ensures outcome.Done? && !faults.discard ==> entries == old(entries)[n.target := Built(payload).value]
      ensures !outcome.Done? && !outcome.CommitUnknown? ==> AccessUnchanged(old(space))
      ensures !outcome.Done? && !outcome.CommitUnknown? && !outcome.RollbackFailed? && !faults.cleanup ==>
        entries == old(entries)
    {
      var rejection := if n.target in entries && entries[n.target].Special? then Some(Conflict) else None;
      outcome := Mutate(token, n, payload, rejection, faults, drawn, now, verdict);
    }
  }
}
