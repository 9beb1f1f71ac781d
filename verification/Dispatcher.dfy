/** The in-place form of Dispatch: the request_dedup table is updated around the backend call.
    One call of Dispatch here is one undisturbed dispatch; Dedup interleaves them. */
module Dispatcher {
  import opened Common
  import D = Dedup

  /** An undisturbed dispatch of a side-effecting request, as three steps of the protocol. */
  function DispatchSteps(tid: nat, r: D.Request, now: int, ready: bool, begin: Write, reply: D.Reply,
        complete: Write): seq<D.Action> {
    [D.DoArrive(tid, r, now, ready, begin), D.DoExecute(tid, reply), D.DoFinish(tid, complete)]
  }

  lemma RunOfThree(s: D.Server, a: D.Action, b: D.Action, c: D.Action)
    ensures D.Run(s, [a, b, c]) == D.Step(D.Step(D.Step(s, a), b), c)
  {
    assert [a, b, c][..2] == [a, b] && [a, b][..1] == [a];
    assert D.Run(s, []) == s;
    assert D.Run(s, [a]) == D.Step(s, a);
    assert D.Run(s, [a, b]) == D.Step(D.Step(s, a), b);
  }

  lemma FirstTime(s: D.Server, r: D.Request, now: int, reply: D.Reply)
    requires D.SideEffect(r) && r.id !in s.table && s.threads == map[] && D.Invalid(r, now).None?
    ensures var p := D.Call(r, reply);
      var row := D.Row(D.Operation(r.payload.value.kind).0, D.Fingerprint(r), D.Completed(p));
      D.Run(s, DispatchSteps(0, r, now, true, Written, reply, Written)) ==
      D.Server(s.table[r.id := row], map[], s.executions + [D.Execution(r, p)], s.answers + [D.Given(r, D.Direct(p))])
  {
    var p := D.Call(r, reply);
    RunOfThree(s, D.DoArrive(0, r, now, true, Written), D.DoExecute(0, reply), D.DoFinish(0, Written));
    var s1 := D.Arrive(s, 0, r, now, true, Written);
    assert s1.threads == map[0 := D.Begun(r)];
    var s2 := D.Execute(s1, 0, reply);
    assert s2.threads == map[0 := D.Called(r, p)];
    assert s2.threads - {0} == map[];
    var row := D.Row(D.Operation(r.payload.value.kind).0, D.Fingerprint(r), D.Completed(p));
    assert D.Finish(s2, 0, Written).table == s.table[r.id := row];
  }

  /** A request that went through and is sent again, with any send time and deadline, is answered
      with the first response and the flag, and the backend is not called again. */
  lemma RetryIsReplayed(s: D.Server, r: D.Request, again: D.Request, now: int, later: int, reply: D.Reply,
        other: D.Reply)
    requires D.SideEffect(r) && r.id !in s.table && s.threads == map[] && D.Invalid(r, now).None?
    requires again.id == r.id && again.payload == r.payload && D.Invalid(again, later).None?
    ensures var p := D.Call(r, reply);
      var s1 := D.Run(s, DispatchSteps(0, r, now, true, Written, reply, Written));
      var s2 := D.Run(s1, DispatchSteps(0, again, later, true, Written, other, Written));
      && s1.executions == s.executions + [D.Execution(r, p)] && s2.executions == s1.executions
      && s2.answers == s.answers + [D.Given(r, D.Direct(p)), D.Given(again, D.Replayed(D.MarkDeduplicated(p)))]
  {
    FirstTime(s, r, now, reply);
    var s1 := D.Run(s, DispatchSteps(0, r, now, true, Written, reply, Written));
    RunOfThree(s1, D.DoArrive(0, again, later, true, Written), D.DoExecute(0, other), D.DoFinish(0, Written));
    assert D.Fingerprint(again) == D.Fingerprint(r);
    assert 0 !in D.Arrive(s1, 0, again, later, true, Written).threads;
  }

  class Dispatcher {
    var requestDedup: D.Table
    var executions: seq<D.Execution>
    var answers: seq<D.Given>

    function Server(): D.Server
      reads this
    {
      D.Server(requestDedup, map[], executions, answers)
    }

    constructor ()
      ensures Server() == D.EMPTY
    {
      requestDedup, executions, answers := map[], [], [];
    }

    method BeginRequest(id: Id, operation: string, fingerprint: D.Request, w: Write) returns (b: D.Begin)
      modifies this`requestDedup
      ensures (requestDedup, b) == D.BeginRequest(old(requestDedup), id, operation, fingerprint, w)
    {
      if id !in requestDedup {
        if w.Lands() {
          requestDedup := requestDedup[id := D.Row(operation, fingerprint, D.InProgress)];
        }
        return if w.Written? then D.Started else D.OtherError;
      }
      if w.FailedLost? {
        return D.OtherError;
      }
      var row := requestDedup[id];
      if row.operation != operation || row.fingerprint != fingerprint {
        return D.ConflictError;
      }
      if row.status.Completed? {
        return D.Replay(row.status.response);
      }
      return D.InProgressError;
    }

    method CompleteRequest(id: Id, response: D.Response, w: Write) returns (ok: bool)
      modifies this`requestDedup
      ensures (requestDedup, ok) == D.CompleteRequest(old(requestDedup), id, response, w)
    {
      var affected := 0;
      if id in requestDedup && requestDedup[id].status.InProgress? && w.Lands() {
        requestDedup := requestDedup[id := requestDedup[id].(status := D.Completed(response))];
        affected := 1;
      }
      ok := affected == 1 && w.Written?;
    }

    /** `reply` is what the backend would answer, were it called. */
    method Dispatch(r: D.Request, now: int, ready: bool, begin: Write, reply: D.Reply, complete: Write)
      returns (answer: D.Answer)
      requires D.SideEffect(r)
      modifies this
      ensures Server() == D.Run(old(Server()), DispatchSteps(0, r, now, ready, begin, reply, complete))
      ensures answers == old(answers) + [D.Given(r, answer)]
      ensures |executions| <= |old(executions)| + 1
      ensures answer.Replayed? || answer.Refused? ==> executions == old(executions)
    {
      RunOfThree(Server(), D.DoArrive(0, r, now, ready, begin), D.DoExecute(0, reply), D.DoFinish(0, complete));
      var invalid := D.Invalid(r, now);
      if invalid.Some? {
        answer := D.Refused(invalid.value);
      } else if !ready {
        answer := D.Refused(D.Refuse(r, D.HostNotReady, true));
      } else {
        var b := BeginRequest(r.id, D.Operation(r.payload.value.kind).0, D.Fingerprint(r), begin);
        if b.Started? {
          var response := D.Call(r, reply);
          executions := executions + [D.Execution(r, response)];
          var ok := CompleteRequest(r.id, response, complete);
          answer := if ok then D.Direct(response) else D.Lost;
          assert map[0 := D.Called(r, response)] - {0} == map[];
          assert (map[])[0 := D.Begun(r)][0 := D.Called(r, response)] == map[0 := D.Called(r, response)];
        } else {
          answer := D.AnswerTo(r, b);
        }
      }
      answers := answers + [D.Given(r, answer)];
    }
  }
}
