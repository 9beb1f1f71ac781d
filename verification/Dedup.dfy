/** Deduplication of side-effecting requests: Dispatch (internal/gateway/dispatcher.go) over the
    request_dedup table (internal/persistence/store.go). Any number of dispatches run at once;
    each is cut into the steps between which others may run or the process may crash. */
module Dedup {
  import opened Common

  // ------------------------------------------------------------------ requests

  datatype Kind =
    | GetHost | ListDirectories | ListSessionCandidates | ListCodexes | CreateCodex | ImportSession
    | WatchCodex | UnwatchCodex | ListHistory | StartTurn | InterruptTurn | RespondApproval | RespondUserInput
    | UnmanageCodex | RenameCodex | ForgetCodex | GetWorkspace | ListWorkspaceEntries | ReadWorkspaceTextFile
    | WriteWorkspaceTextFile | UploadWorkspaceEntry | DownloadWorkspaceEntry | UploadImageAttachment
    | DownloadImageAttachment | Unsupported

  function Operation(k: Kind): (string, bool) {
    match k
    case GetHost => ("get_host", false)
    case ListDirectories => ("list_directories", false)
    case ListSessionCandidates => ("list_session_candidates", false)
    case ListCodexes => ("list_codexes", false)
    case CreateCodex => ("create_codex", true)
    case ImportSession => ("import_session", true)
    case WatchCodex => ("watch_codex", false)
    case UnwatchCodex => ("unwatch_codex", false)
    case ListHistory => ("list_history", false)
    case StartTurn => ("start_turn", true)
    case InterruptTurn => ("interrupt_turn", true)
    case RespondApproval => ("respond_approval", true)
    case RespondUserInput => ("respond_user_input", true)
    case UnmanageCodex => ("unmanage_codex", true)
    case RenameCodex => ("rename_codex", true)
    case ForgetCodex => ("forget_codex", true)
    case GetWorkspace => ("get_workspace", false)
    case ListWorkspaceEntries => ("list_workspace_entries", false)
    case ReadWorkspaceTextFile => ("read_workspace_text_file", false)
    case WriteWorkspaceTextFile => ("write_workspace_text_file", true)
    case UploadWorkspaceEntry => ("upload_workspace_entry", true)
    case DownloadWorkspaceEntry => ("download_workspace_entry", false)
    case UploadImageAttachment => ("upload_image_attachment", true)
    case DownloadImageAttachment => ("download_image_attachment", false)
    case Unsupported => ("unknown", false)
  }

  predicate SideEffect(r: Request) {
    r.payload.Some? && Operation(r.payload.value.kind).1
  }

  datatype Payload = Payload(kind: Kind, body: Id)

  datatype Request = Request(id: Id, sentAt: int, deadline: int, payload: Option<Payload>)

  /** The bytes that are hashed; the hash is taken to be injective, so this is the fingerprint. */
  function Fingerprint(r: Request): Request {
    r.(id := NO_ID, sentAt := 0, deadline := 0)
  }

  // ----------------------------------------------------------------- responses

  datatype Code = InvalidRequest | HostNotReady | DeadlineExceeded | Conflict | InternalError | Rpc(detail: Id)

  datatype Result = Error(code: Code, retryable: bool) | Done(kind: Kind, body: Id, deduplicated: bool)

  datatype Response = Response(id: Id, result: Result)

  /** What the backend returned. */
  datatype Reply = Value(body: Id) | TimedOut | Detail(detail: Id, retry: bool) | Broke

  function Refuse(r: Request, code: Code, retryable: bool): Response {
    Response(r.id, Error(code, retryable))
  }

  function Call(r: Request, reply: Reply): Response
    requires r.payload.Some?
  {
    if r.payload.value.kind.Unsupported? then Refuse(r, InvalidRequest, false) else
    match reply
    case Value(body) => Response(r.id, Done(r.payload.value.kind, body, false))
    case TimedOut => Refuse(r, DeadlineExceeded, true)
    case Detail(detail, retry) => Refuse(r, Rpc(detail), retry)
    case Broke => Refuse(r, InternalError, true)
  }

  function MarkDeduplicated(p: Response): Response {
    match p.result
    case Error(_, _) => p
    case Done(kind, body, _) =>
      match kind
      case CreateCodex | ImportSession | StartTurn | InterruptTurn | RespondApproval | RespondUserInput
         | UnmanageCodex | RenameCodex | ForgetCodex | UploadImageAttachment | WriteWorkspaceTextFile
         | UploadWorkspaceEntry => p.(result := Done(kind, body, true))
      case _ => p
  }

  // --------------------------------------------------------------- the protocol

  datatype Status = InProgress | Completed(response: Response)

  datatype Row = Row(operation: string, fingerprint: Request, status: Status)

  type Table = map<Id, Row>

  /** A dispatch between its steps: the row is reserved, or the backend has answered. */
  datatype Thread = Begun(request: Request) | Called(request: Request, response: Response)

  datatype Execution = Execution(request: Request, response: Response)

  /** What the caller of Dispatch gets for a side-effecting request. `Direct` is the answer of
      its own execution, `Replayed` a stored one, `Lost` an error without a response. */
  datatype Answer = Refused(response: Response) | Direct(response: Response) | Replayed(response: Response) | Lost

  datatype Given = Given(request: Request, answer: Answer)

  /** `executions` and `answers` are history: every backend call for a side-effecting request and
      every answer to one. They steer nothing. */
  datatype Server = Server(table: Table, threads: map<nat, Thread>, executions: seq<Execution>, answers: seq<Given>)

  datatype Begin = Started | InProgressError | ConflictError | OtherError | Replay(response: Response)

  function BeginRequest(t: Table, id: Id, operation: string, fingerprint: Request, w: Write): (Table, Begin) {
    if id !in t then
      (if w.Lands() then t[id := Row(operation, fingerprint, InProgress)] else t,
       if w.Written? then Started else OtherError)
    else if w.FailedLost? then (t, OtherError)
    else if t[id].operation != operation || t[id].fingerprint != fingerprint then (t, ConflictError)
    else if t[id].status.Completed? then (t, Replay(t[id].status.response))
    else (t, InProgressError)
  }

  function CompleteRequest(t: Table, id: Id, response: Response, w: Write): (Table, bool) {
    if id in t && t[id].status.InProgress? && w.Lands()
    then (t[id := t[id].(status := Completed(response))], w.Written?)
    else (t, false)
  }

  function Invalid(r: Request, now: int): Option<Response> {
    if r.id == NO_ID || r.payload.None? then Some(Refuse(r, InvalidRequest, false))
    else if r.deadline < 0 || (r.deadline > 0 && now >= r.deadline) then Some(Refuse(r, DeadlineExceeded, true))
    else None
  }

  /** The answer a BeginRequest that did not start the request leads to. */
  function AnswerTo(r: Request, b: Begin): Answer
    requires !b.Started?
  {
    match b
    case InProgressError => Refused(Refuse(r, Conflict, false))
    case ConflictError => Refused(Refuse(r, Conflict, false))
    case OtherError => Refused(Refuse(r, InternalError, true))
    case Replay(response) => Replayed(MarkDeduplicated(response))
  }

  function Give(s: Server, r: Request, a: Answer): Server {
    s.(answers := s.answers + [Given(r, a)])
  }

  /** A side-effecting request comes in on a new thread. */
  function Arrive(s: Server, tid: nat, r: Request, now: int, ready: bool, w: Write): Server {
    if tid in s.threads || !SideEffect(r) then s
    else if Invalid(r, now).Some? then Give(s, r, Refused(Invalid(r, now).value))
    else if !ready then Give(s, r, Refused(Refuse(r, HostNotReady, true)))
    else
      var (table, b) := BeginRequest(s.table, r.id, Operation(r.payload.value.kind).0, Fingerprint(r), w);
      if b.Started? then s.(table := table, threads := s.threads[tid := Begun(r)])
      else Give(s.(table := table), r, AnswerTo(r, b))
  }

  function Execute(s: Server, tid: nat, reply: Reply): Server {
    if tid !in s.threads || !s.threads[tid].Begun? || s.threads[tid].request.payload.None? then s
    else
      var r := s.threads[tid].request;
      var p := Call(r, reply);
      s.(threads := s.threads[tid := Called(r, p)], executions := s.executions + [Execution(r, p)])
  }

  function Finish(s: Server, tid: nat, w: Write): Server {
    if tid !in s.threads || !s.threads[tid].Called? then s
    else
      var Called(r, p) := s.threads[tid];
      var (table, ok) := CompleteRequest(s.table, r.id, p, w);
      Give(s.(table := table, threads := s.threads - {tid}), r, if ok then Direct(p) else Lost)
  }

  datatype Action =
    | DoArrive(tid: nat, request: Request, now: int, ready: bool, w: Write)
    | DoExecute(tid: nat, reply: Reply)
    | DoFinish(tid: nat, w: Write)
    | Crash

  function Step(s: Server, a: Action): Server {
    match a
    case DoArrive(tid, r, now, ready, w) => Arrive(s, tid, r, now, ready, w)
    case DoExecute(tid, reply) => Execute(s, tid, reply)
    case DoFinish(tid, w) => Finish(s, tid, w)
    case Crash => s.(threads := map[])
  }

  function Run(s: Server, actions: seq<Action>): Server {
    if actions == [] then s else Step(Run(s, actions[..|actions| - 1]), actions[|actions| - 1])
  }

  const EMPTY: Server := Server(map[], map[], [], [])

  // ----------------------------------------------------------------- invariant

  predicate Reserved(t: Table, r: Request) {
    SideEffect(r) && r.id in t && t[r.id].fingerprint == Fingerprint(r) &&
      t[r.id].operation == Operation(r.payload.value.kind).0
  }

  /** The thread holds the reservation of its request. */
  predicate ThreadInv(s: Server, t: Thread) {
    && Reserved(s.table, t.request) && s.table[t.request.id].status.InProgress?
    && (t.Begun? ==> !Executed(s.executions, t.request.id))
    && (t.Called? ==> Execution(t.request, t.response) in s.executions)
  }

  predicate Executed(executions: seq<Execution>, id: Id) {
    exists e :: e in executions && e.request.id == id
  }

  ghost predicate ThreadsInv(s: Server) {
    && (forall i :: i in s.threads ==> ThreadInv(s, s.threads[i]))
    && (forall i, j :: i in s.threads && j in s.threads && i != j ==>
      s.threads[i].request.id != s.threads[j].request.id)
  }

  ghost predicate AtMostOnce(executions: seq<Execution>) {
    forall i, j :: 0 <= i < j < |executions| ==> executions[i].request.id != executions[j].request.id
  }

  ghost predicate ExecutionsInv(s: Server) {
    && AtMostOnce(s.executions)
    && (forall e :: e in s.executions ==> Reserved(s.table, e.request))
  }

  predicate StoredBy(e: Execution, id: Id, p: Response) {
    e.request.id == id && e.response == p
  }

  ghost predicate TableInv(s: Server) {
    forall id :: id in s.table && s.table[id].status.Completed? ==>
      exists e :: e in s.executions && StoredBy(e, id, s.table[id].status.response)
  }

  predicate GivenInv(t: Table, g: Given) {
    match g.answer
    case Refused(_) => true
    case Lost => true
    case Direct(p) => Reserved(t, g.request) && t[g.request.id].status == Completed(p)
    case Replayed(p) =>
      Reserved(t, g.request) && t[g.request.id].status.Completed? &&
        p == MarkDeduplicated(t[g.request.id].status.response)
  }

  ghost predicate AnswersInv(t: Table, answers: seq<Given>) {
    forall g :: g in answers ==> GivenInv(t, g)
  }

  ghost predicate Inv(s: Server) {
    ThreadsInv(s) && ExecutionsInv(s) && TableInv(s) && AnswersInv(s.table, s.answers)
  }

  /** Rows are only added, and then only completed, once. */
  ghost predicate Grows(t: Table, t': Table) {
    forall id :: id in t ==>
      && id in t' && t'[id].operation == t[id].operation && t'[id].fingerprint == t[id].fingerprint
      && (t[id].status.Completed? ==> t'[id] == t[id])
  }

  lemma AnswersKept(t: Table, t': Table, answers: seq<Given>)
    requires AnswersInv(t, answers) && Grows(t, t')
    ensures AnswersInv(t', answers)
  {
  }

  lemma GiveKeeps(s: Server, r: Request, a: Answer)
    requires Inv(s) && GivenInv(s.table, Given(r, a))
    ensures Inv(Give(s, r, a))
  {
  }

  /** A new row, in progress, disturbs nothing. */
  lemma ReserveKeeps(s: Server, id: Id, row: Row)
    requires Inv(s) && id !in s.table && row.status.InProgress?
    ensures Inv(s.(table := s.table[id := row])) && Grows(s.table, s.table[id := row])
    ensures !Executed(s.executions, id)
    ensures forall i :: i in s.threads ==> s.threads[i].request.id != id
  {
    AnswersKept(s.table, s.table[id := row], s.answers);
  }

  lemma ArriveKeeps(s: Server, tid: nat, r: Request, now: int, ready: bool, w: Write)
    requires Inv(s)
    ensures Inv(Arrive(s, tid, r, now, ready, w)) && Grows(s.table, Arrive(s, tid, r, now, ready, w).table)
  {
    if tid in s.threads || !SideEffect(r) {
    } else if Invalid(r, now).Some? {
      GiveKeeps(s, r, Refused(Invalid(r, now).value));
    } else if !ready {
      GiveKeeps(s, r, Refused(Refuse(r, HostNotReady, true)));
    } else {
      var row := Row(Operation(r.payload.value.kind).0, Fingerprint(r), InProgress);
      var (table, b) := BeginRequest(s.table, r.id, row.operation, row.fingerprint, w);
      var s1 := s.(table := table);
      if r.id !in s.table {
        ReserveKeeps(s, r.id, row);
      }
      if !b.Started? {
        GiveKeeps(s1, r, AnswerTo(r, b));
      }
    }
  }

  lemma ExecuteKeeps(s: Server, tid: nat, reply: Reply)
    requires Inv(s)
    ensures Inv(Execute(s, tid, reply))
  {
    if tid in s.threads && s.threads[tid].Begun? {
      var r := s.threads[tid].request;
      assert ThreadInv(s, s.threads[tid]);
      var s' := Execute(s, tid, reply);
      assert forall e :: e in s.executions ==> e in s'.executions;
      forall i | i in s'.threads ensures ThreadInv(s', s'.threads[i]) {
        assert i != tid ==> ThreadInv(s, s.threads[i]);
      }
    }
  }

  lemma FinishKeeps(s: Server, tid: nat, w: Write)
    requires Inv(s)
    ensures Inv(Finish(s, tid, w)) && Grows(s.table, Finish(s, tid, w).table)
  {
    if tid in s.threads && s.threads[tid].Called? {
      var Called(r, p) := s.threads[tid];
      assert ThreadInv(s, s.threads[tid]);
      var (table, ok) := CompleteRequest(s.table, r.id, p, w);
      var s1 := s.(table := table, threads := s.threads - {tid});
      assert StoredBy(Execution(r, p), r.id, p);
      AnswersKept(s.table, table, s.answers);
      GiveKeeps(s1, r, if ok then Direct(p) else Lost);
    }
  }

  lemma StepKeeps(s: Server, a: Action)
    requires Inv(s)
    ensures Inv(Step(s, a)) && Grows(s.table, Step(s, a).table)
  {
    match a
    case DoArrive(tid, r, now, ready, w) => ArriveKeeps(s, tid, r, now, ready, w);
    case DoExecute(tid, reply) => ExecuteKeeps(s, tid, reply);
    case DoFinish(tid, w) => FinishKeeps(s, tid, w);
    case Crash =>
  }

  lemma {:induction false} RunKeeps(s: Server, actions: seq<Action>)
    requires Inv(s)
    ensures Inv(Run(s, actions)) && Grows(s.table, Run(s, actions).table)
  {
    if actions != [] {
      RunKeeps(s, actions[..|actions| - 1]);
      StepKeeps(Run(s, actions[..|actions| - 1]), actions[|actions| - 1]);
    }
  }

  // ------------------------------------------------------------- main results

  /** Over any interleaving of dispatches, retries, failed writes and crashes, the backend is
      called at most once per request id. */
  lemma ExecutedAtMostOnce(actions: seq<Action>)
    ensures AtMostOnce(Run(EMPTY, actions).executions)
  {
    RunKeeps(EMPTY, actions);
  }

  predicate AnsweredBy(g: Given, e: Execution) {
    && e.request.id == g.request.id && Fingerprint(e.request) == Fingerprint(g.request)
    && ((g.answer.Direct? && g.answer.response == e.response) ||
        (g.answer.Replayed? && g.answer.response == MarkDeduplicated(e.response)))
  }

  /** Every outcome a client is given is that of the one execution of the same payload under the
      same id: its own response, or that response replayed with the flag set. */
  lemma AnswersComeFromTheExecution(actions: seq<Action>, g: Given)
    requires g in Run(EMPTY, actions).answers && (g.answer.Direct? || g.answer.Replayed?)
    ensures exists e :: e in Run(EMPTY, actions).executions && AnsweredBy(g, e)
  {
    RunKeeps(EMPTY, actions);
    var s := Run(EMPTY, actions);
    assert GivenInv(s.table, g);
    var e :| e in s.executions && StoredBy(e, g.request.id, s.table[g.request.id].status.response);
    assert Reserved(s.table, e.request);
    assert AnsweredBy(g, e);
  }

  /** What two requests that differ only in id, send time and deadline have in common. */
  lemma FingerprintIgnoresEnvelope(r: Request, r': Request)
    ensures Fingerprint(r) == Fingerprint(r') <==> r.payload == r'.payload
  {
  }

  /** A used id with another payload conflicts at every later time, and changes nothing. */
  lemma OtherPayloadConflicts(s: Server, actions: seq<Action>, tid: nat, r: Request, now: int, w: Write)
    requires Inv(s) && SideEffect(r) && r.id in s.table && s.table[r.id].fingerprint != Fingerprint(r)
    requires Invalid(r, now).None? && tid !in Run(s, actions).threads && !w.FailedLost?
    ensures Arrive(Run(s, actions), tid, r, now, true, w) ==
      Give(Run(s, actions), r, Refused(Refuse(r, Conflict, false)))
  {
    RunKeeps(s, actions);
  }

  /** No dispatch is working for this id. */
  predicate Unattended(s: Server, id: Id) {
    forall i :: i in s.threads ==> s.threads[i].request.id != id
  }

  lemma ExecuteStaysUnattended(s: Server, tid: nat, reply: Reply, id: Id)
    requires Unattended(s, id)
    ensures Unattended(Execute(s, tid, reply), id) && Execute(s, tid, reply).table == s.table
    ensures Executed(Execute(s, tid, reply).executions, id) == Executed(s.executions, id)
  {
    if tid in s.threads && s.threads[tid].Begun? && s.threads[tid].request.payload.Some? {
      var e := Execution(s.threads[tid].request, Call(s.threads[tid].request, reply));
      assert forall x :: x in Execute(s, tid, reply).executions <==> x in s.executions || x == e;
    }
  }

  lemma ArriveStaysUnattended(s: Server, tid: nat, r: Request, now: int, ready: bool, w: Write, id: Id)
    requires id in s.table && Unattended(s, id)
    ensures var s' := Arrive(s, tid, r, now, ready, w);
      Unattended(s', id) && id in s'.table && s'.table[id] == s.table[id] && s'.executions == s.executions
  {
  }

  lemma StepStaysUnattended(s: Server, a: Action, id: Id)
    requires id in s.table && Unattended(s, id)
    ensures var s' := Step(s, a);
      Unattended(s', id) && id in s'.table && s'.table[id] == s.table[id] &&
        Executed(s'.executions, id) == Executed(s.executions, id)
  {
    match a
    case DoArrive(tid, r, now, ready, w) => ArriveStaysUnattended(s, tid, r, now, ready, w, id);
    case DoExecute(tid, reply) => ExecuteStaysUnattended(s, tid, reply, id);
    case DoFinish(_, _) =>
    case Crash =>
  }

  /** A request left in progress by a crash or a failed write stays so for good: it is never
      executed afterwards, whatever is retried. */
  lemma {:induction false} UnknownOutcomeIsNeverRetried(s: Server, actions: seq<Action>, id: Id)
    requires id in s.table && Unattended(s, id)
    ensures var s' := Run(s, actions);
      Unattended(s', id) && id in s'.table && s'.table[id] == s.table[id] &&
        Executed(s'.executions, id) == Executed(s.executions, id)
  {
    if actions != [] {
      UnknownOutcomeIsNeverRetried(s, actions[..|actions| - 1], id);
      StepStaysUnattended(Run(s, actions[..|actions| - 1]), actions[|actions| - 1], id);
    }
  }

  /** The flag is set on exactly the answers that side-effecting requests produce, nothing else in
      the response changes, and setting it twice is setting it once. */
  lemma MarkSetsOnlyTheFlag(r: Request, reply: Reply)
    requires r.payload.Some?
    ensures var p := Call(r, reply); var q := MarkDeduplicated(p);
      && MarkDeduplicated(q) == q && q.id == p.id
      && (p.result.Error? ==> q == p)
      && (p.result.Done? ==> q.result == p.result.(deduplicated := SideEffect(r)))
  {
  }
}
