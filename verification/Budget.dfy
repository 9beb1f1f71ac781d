/** Shrinking messages to the frame budget: internal/codex/budget.go and boundCurrentView,
    minimizePendingPresentation and minimizeItemPresentation of internal/codex/manager.go.
    The size of a message is any function of it. */
module Budget {
  import opened Common
  import opened Utf8

  // ------------------------------------------------------------------ messages

  datatype Completeness = Completeness(truncated: bool, incomplete: bool, originalSize: nat, reason: string)

  datatype Part = TextPart(text: Text) | ImagePart(descriptor: Text)
  datatype PlanStep = PlanStep(text: Text, status: Text)
  datatype FileEdit = FileEdit(path: Text, oldPath: Text, newPath: Text, kind: nat)

  datatype Content =
    | UserMessage(parts: seq<Part>)
    | AgentMessage(text: Text)
    | ReasoningSummary(text: Text)
    | Plan(steps: seq<PlanStep>)
    | Command(argv: seq<Text>, cwd: Text, output: Text, exitCode: Option<int>)
    | Tool(name: Text, summary: Text, result: Text)
    | FileChange(diff: Text, changes: seq<FileEdit>)
    | NoContent

  datatype MessageItem = MessageItem(id: Text, turnId: Text, status: nat, content: Content,
        completeness: Option<Completeness>)

  datatype InputOption = InputOption(id: Text, labelText: Text, description: Text)
  datatype Question = Question(id: Text, header: Text, prompt: Text, multiple: bool, freeForm: bool,
        options: seq<InputOption>)
  datatype Answer = Answer(questionId: Text, selected: seq<Text>, freeForm: Text)

  datatype Pending =
    | Approval(id: Text, turnId: Text, itemId: Text, title: Text, explanation: Text, command: seq<Text>,
      allowed: set<nat>)
    | UserInput(id: Text, turnId: Text, itemId: Text, questions: seq<Question>, answers: seq<Answer>,
      completeness: Option<Completeness>)
    | NoRequest

  datatype Warning = Warning(code: nat, message: Text, metadata: map<string, Text>)
  datatype Failure = Failure(code: nat, message: Text, metadata: map<string, Text>)
  datatype Codex = Codex(id: Text, title: Text, warnings: seq<Warning>)
  datatype Turn = Turn(id: Text, items: seq<MessageItem>, completeness: Option<Completeness>)
  datatype View = View(codex: Option<Codex>, turn: Option<Turn>, pending: seq<Pending>,
        completeness: Option<Completeness>)

  /** ItemStarted, ItemUpdated or ItemCompleted. */
  datatype Stage = Started | Updated | Completed

  datatype Payload =
    | ItemChanged(stage: Stage, item: MessageItem)
    | OutputDelta(itemId: Text, text: Text)
    | TextDelta(itemId: Text, text: Text)
    | PendingUpdated(request: Pending)
    | WarningRaised(warning: Warning)
    | TurnUpdated(turnId: Text, failure: Option<Failure>)
    | CodexUpdated(codex: Codex)
    | OtherEvent

  datatype Event = Event(seqNo: nat, payload: Payload, completeness: Option<Completeness>)

  /** protoJSONSize, of each kind of message. */
  datatype Sizes = Sizes(
    item: MessageItem -> nat, pending: Pending -> nat, warning: Warning -> nat, failure: Failure -> nat,
    codex: Codex -> nat, view: View -> nat, event: Event -> nat)

  function Max(a: int, b: int): int {
    if a > b then a else b
  }

  function Min(a: int, b: int): int {
    if a < b then a else b
  }

  function Cut(value: Text, budget: int): Text {
    BoundString(value, budget).0
  }

  /** validUTF8Prefix(value, min(len(value), 1)). */
  function Stub(value: Text): Text {
    Prefix(value, Min(|value|, 1))
  }

  // -------------------------------------------------------------- completeness

  function BudgetCompleteness(original: nat, reason: string): Completeness {
    Completeness(true, true, original, reason)
  }

  function Merge(dst: Option<Completeness>, src: Option<Completeness>): Option<Completeness> {
    if src.None? then dst
    else if dst.None? then src
    else Some(Completeness(
                dst.value.truncated || src.value.truncated, dst.value.incomplete || src.value.incomplete,
                Max(dst.value.originalSize, src.value.originalSize),
                if dst.value.reason == "" then src.value.reason else dst.value.reason))
  }

  predicate Flagged(c: Option<Completeness>) {
    c.Some? && c.value.truncated && c.value.incomplete
  }

  function WithReason(c: Option<Completeness>, reason: string): Option<Completeness> {
    if c.Some? then Some(c.value.(reason := reason)) else None
  }

  // ------------------------------------------------------------ fitting prefix

  /** The binary search of boundedProtoPrefix, over prefix lengths. */
  function Search<T>(values: seq<T>, low: nat, high: nat, fits: seq<T> -> bool): (r: nat)
    requires low <= high <= |values|
    ensures low <= r <= high
    decreases high - low
  {
    if low == high then low
    else
      var mid := low + (high - low + 1) / 2;
      if fits(values[..mid]) then Search(values, mid, high, fits) else Search(values, low, mid - 1, fits)
  }

  function FittingPrefix<T>(values: seq<T>, minimum: nat, fits: seq<T> -> bool): (r: seq<T>)
    ensures r <= values && |r| >= Min(minimum, |values|)
  {
    var least := Min(minimum, |values|);
    if values == [] || fits(values) then values
    else if !fits(values[..least]) then values[..least]
    else values[..Search(values, least, |values|, fits)]
  }

  ghost predicate DownwardClosed<T>(values: seq<T>, fits: seq<T> -> bool) {
    forall i, j :: 0 <= i <= j <= |values| && fits(values[..j]) ==> fits(values[..i])
  }

  lemma {:induction false} SearchFits<T>(values: seq<T>, low: nat, high: nat, fits: seq<T> -> bool)
    requires low <= high <= |values| && fits(values[..low])
    ensures fits(values[..Search(values, low, high, fits)])
    decreases high - low
  {
    if low < high {
      var mid := low + (high - low + 1) / 2;
      if fits(values[..mid]) {
        SearchFits(values, mid, high, fits);
      } else {
        SearchFits(values, low, mid - 1, fits);
      }
    }
  }

  lemma {:induction false} SearchIsLongest<T>(values: seq<T>, low: nat, high: nat, fits: seq<T> -> bool, n: nat)
    requires low <= n <= high <= |values| && fits(values[..n]) && DownwardClosed(values, fits)
    ensures n <= Search(values, low, high, fits)
    decreases high - low
  {
    if low < high {
      var mid := low + (high - low + 1) / 2;
      if !fits(values[..mid]) {
        SearchIsLongest(values, low, mid - 1, fits, n);
      } else if n >= mid {
        SearchIsLongest(values, mid, high, fits, n);
      }
    }
  }

  /** The result fits or is the forced minimum; it fits if the minimum does; and if every prefix of
      a fitting prefix fits, no longer prefix fits. */
  lemma FittingPrefixIsBest<T>(values: seq<T>, minimum: nat, fits: seq<T> -> bool)
    ensures var r := FittingPrefix(values, minimum, fits);
      && (values == [] || fits(r) || |r| == Min(minimum, |values|))
      && (values != [] && fits(values[..Min(minimum, |values|)]) ==> fits(r))
      && (DownwardClosed(values, fits) ==> forall n :: |r| < n <= |values| ==> !fits(values[..n]))
  {
    var least := Min(minimum, |values|);
    var r := FittingPrefix(values, minimum, fits);
    assert values[..|values|] == values;
    if values != [] && !fits(values) && fits(values[..least]) {
      SearchFits(values, least, |values|, fits);
    }
    if DownwardClosed(values, fits) {
      forall n | |r| < n <= |values| ensures !fits(values[..n]) {
        if fits(values[..n]) {
          SearchIsLongest(values, least, |values|, fits, n);
        }
      }
    }
  }

  method BoundedProtoPrefix<T>(values: seq<T>, minimum: nat, fits: seq<T> -> bool) returns (r: seq<T>)
    ensures r == FittingPrefix(values, minimum, fits)
    ensures r <= values && |r| >= Min(minimum, |values|)
  {
    if |values| == 0 || fits(values) {
      return values;
    }
    var least := Min(minimum, |values|);
    if !fits(values[..least]) {
      return values[..least];
    }
    var low, high := least, |values|;
    while low < high
      invariant least <= low <= high <= |values|
      invariant Search(values, low, high, fits) == Search(values, least, |values|, fits)
    {
      var mid := low + (high - low + 1) / 2;
      if fits(values[..mid]) {
        low := mid;
      } else {
        high := mid - 1;
      }
    }
    r := values[..low];
  }
}
