/** The in-place form of boundItem, boundPendingRequest and boundCanonicalEvent
    (internal/codex/budget.go): one message, shrunk field by field and loop by loop. */
module MessageBudget {
  import opened Common
  import opened Utf8
  import opened Budget
  import opened Shrink
  import opened FrameBudget

  // --------------------------------------------------- loops over repeated fields

  method CutEachPart(ps: seq<Part>, per: int) returns (r: seq<Part>)
    ensures r == CutParts(ps, per)
  {
    r := ps;
    for i := 0 to |ps|
      invariant |r| == |ps| && forall k :: 0 <= k < |ps| ==> r[k] == if k < i then CutPart(ps[k], per) else ps[k]
    {
      if r[i].TextPart? {
        r := r[i := TextPart(Cut(r[i].text, per))];
      }
    }
  }

  method CutEachStep(ss: seq<PlanStep>, per: int) returns (r: seq<PlanStep>)
    ensures r == CutSteps(ss, per)
  {
    r := ss;
    for i := 0 to |ss|
      invariant |r| == |ss| && forall k :: 0 <= k < |ss| ==> r[k] == if k < i then CutStep(ss[k], per) else ss[k]
    {
      r := r[i := PlanStep(Cut(r[i].text, per), Cut(r[i].status, Max(per / 2, 1)))];
    }
  }

  method CutEachEdit(cs: seq<FileEdit>, per: int) returns (r: seq<FileEdit>)
    ensures r == CutEdits(cs, per)
  {
    r := cs;
    for i := 0 to |cs|
      invariant |r| == |cs| && forall k :: 0 <= k < |cs| ==> r[k] == if k < i then CutEdit(cs[k], per) else cs[k]
    {
      r := r[i := r[i].(path := Cut(r[i].path, per))];
      r := r[i := r[i].(oldPath := Cut(r[i].oldPath, per), newPath := Cut(r[i].newPath, per))];
    }
  }

  method CutEachText(ts: seq<Text>, per: int) returns (r: seq<Text>)
    ensures r == CutTexts(ts, per)
  {
    r := ts;
    for i := 0 to |ts|
      invariant |r| == |ts| && forall k :: 0 <= k < |ts| ==> r[k] == if k < i then Cut(ts[k], per) else ts[k]
    {
      r := r[i := Cut(r[i], per)];
    }
  }

  method CutEachOption(q: Question, per: int) returns (r: Question)
    ensures r == CutQuestion(q, per)
  {
    var os := q.options;
    for i := 0 to |q.options|
      invariant |os| == |q.options|
      invariant forall k :: 0 <= k < |os| ==> os[k] == if k < i then CutOption(q.options[k], per) else q.options[k]
    {
      os := os[i := os[i].(labelText := Cut(os[i].labelText, per), description := Cut(os[i].description, per))];
    }
    r := q.(header := Cut(q.header, per), prompt := Cut(q.prompt, per), options := os);
    assert r.options == CutQuestion(q, per).options;
  }

  method CutEachQuestion(qs: seq<Question>, per: int) returns (r: seq<Question>)
    ensures r == CutQuestions(qs, per)
  {
    r := [];
    for i := 0 to |qs|
      invariant |r| == i && forall k :: 0 <= k < i ==> r[k] == CutQuestion(qs[k], per)
    {
      var q := CutEachOption(qs[i], per);
      r := r + [q];
    }
  }

  method CutEachAnswer(xs: seq<Answer>, per: int) returns (r: seq<Answer>)
    ensures r == CutAnswers(xs, per)
  {
    r := xs;
    for i := 0 to |xs|
      invariant |r| == |xs|
      invariant forall k :: 0 <= k < |xs| ==> r[k] == if k < i then xs[k].(freeForm := Cut(xs[k].freeForm, per))
        else xs[k]
    {
      r := r[i := r[i].(freeForm := Cut(r[i].freeForm, per))];
    }
  }

  method StripEachQuestion(qs: seq<Question>) returns (r: seq<Question>)
    ensures r == BareQuestions(qs)
  {
    r := [];
    for i := 0 to |qs|
      invariant |r| == i && forall k :: 0 <= k < i ==> r[k] == BareQuestion(qs[k])
    {
      var os := qs[i].options;
      for j := 0 to |qs[i].options|
        invariant |os| == |qs[i].options|
        invariant forall k :: 0 <= k < |os| ==> os[k] == if k < j then qs[i].options[k].(description := [])
          else qs[i].options[k]
      {
        os := os[j := os[j].(description := [])];
      }
      assert os == BareQuestion(qs[i]).options;
      r := r + [qs[i].(header := [], prompt := [], options := os)];
    }
  }

  // --------------------------------------------------------------------- messages

  class ItemMessage {
    var item: MessageItem

    constructor (original: MessageItem)
      ensures item == original
    {
      item := original;
    }

    method BoundContent(z: Sizes, budget: nat)
      modifies this
      ensures item == old(item).(content := CutContent(z, old(item), budget))
    {
      var per := Max(budget / 8, 1);
      var marked := item;
      match item.content {
        case UserMessage(parts) =>
          var cut := CutEachPart(parts, per);
          cut := BoundedProtoPrefix(cut, 1, PartsFit(z, marked, budget));
          item := item.(content := UserMessage(cut));
        case AgentMessage(text) => item := item.(content := AgentMessage(Cut(text, per)));
        case ReasoningSummary(text) => item := item.(content := ReasoningSummary(Cut(text, per)));
        case Plan(steps) =>
          var cut := CutEachStep(steps, per);
          cut := BoundedProtoPrefix(cut, 1, StepsFit(z, marked, budget));
          item := item.(content := Plan(cut));
        case Command(argv, cwd, output, exit) =>
          var cwd', output' := Cut(cwd, per), Cut(output, per);
          var cut := CutEachText(argv, per);
          cut := BoundedProtoPrefix(cut, 1, ArgvFits(z, marked, cwd', output', exit, budget));
          item := item.(content := Command(cut, cwd', output', exit));
        case Tool(name, summary, result) =>
          item := item.(content := Tool(Cut(name, per), Cut(summary, per), Cut(result, per)));
        case FileChange(diff, changes) =>
          var diff' := Cut(diff, per);
          var cut := CutEachEdit(changes, per);
          cut := BoundedProtoPrefix(cut, 1, EditsFit(z, marked, diff', budget));
          item := item.(content := FileChange(diff', cut));
        case NoContent =>
      }
    }

    method Bound(z: Sizes, budget: nat) returns (complete: Option<Completeness>)
      modifies this
      ensures (item, complete) == BoundItem(z, old(item), budget)
    {
      if z.item(item) <= budget {
        return None;
      }
      complete := Some(BudgetCompleteness(z.item(item), "item fields or collection exceed C/S frame budget"));
      item := item.(completeness := Merge(item.completeness, complete));
      BoundContent(z, budget);
    }
  }

  class PendingMessage {
    var request: Pending

    constructor (original: Pending)
      ensures request == original
    {
      request := original;
    }

    method BoundApprovalFields(z: Sizes, budget: nat)
      requires request.Approval?
      modifies this
      ensures request == BoundApproval(z, old(request), budget)
    {
      var per := Max(budget / 16, 1);
      request := request.(title := Cut(request.title, per), explanation := Cut(request.explanation, per));
      var cut := CutEachText(request.command, per);
      var p1 := request;
      cut := BoundedProtoPrefix(cut, 1, CommandFits(z, p1, budget));
      request := request.(command := cut);
      if z.pending(request) > budget {
        request := request.(title := Stub(request.title), explanation := Stub(request.explanation));
        if |cut| > 0 {
          request := request.(command := [Stub(cut[0])] + cut[1..]);
        }
      }
    }

    method BoundInputFields(z: Sizes, budget: nat, complete: Option<Completeness>)
      requires request.UserInput?
      modifies this
      ensures request == BoundUserInput(z, old(request), budget, complete)
    {
      var per := Max(budget / 16, 1);
      request := request.(completeness := Merge(request.completeness, complete));
      var questions := CutEachQuestion(request.questions, per);
      var answers := CutEachAnswer(request.answers, per);
      request := request.(questions := questions, answers := answers);
      if z.pending(request) > budget {
        questions := StripEachQuestion(request.questions);
        request := request.(questions := questions);
      }
      if request.completeness.Some? && z.pending(request) > budget {
        request := request.(completeness := Some(request.completeness.value.(reason := "frame budget")));
      }
    }

    method Bound(z: Sizes, budget: nat) returns (complete: Option<Completeness>)
      modifies this
      ensures (request, complete) == BoundPending(z, old(request), budget)
    {
      if z.pending(request) <= budget {
        return None;
      }
      complete := Some(BudgetCompleteness(z.pending(request),
        "pending request presentation fields exceed C/S frame budget"));
      if request.Approval? {
        BoundApprovalFields(z, budget);
      } else if request.UserInput? {
        BoundInputFields(z, budget, complete);
      }
    }
  }

  class EventMessage {
    var event: Event

    /** One pass over the payload. */
    method BoundPass(z: Sizes, target: nat) returns (complete: Option<Completeness>)
      modifies this
      ensures event == old(event).(payload := BoundPayload(z, old(event).payload, target).0)
      ensures complete == BoundPayload(z, old(event).payload, target).1
    {
      var p := event.payload;
      if p.ItemChanged? {
        var m := new ItemMessage(p.item);
        complete := m.Bound(z, target);
        event := event.(payload := p.(item := m.item));
      } else if p.PendingUpdated? {
        var m := new PendingMessage(p.request);
        complete := m.Bound(z, target);
        event := event.(payload := PendingUpdated(m.request));
      } else {
        var (bounded, c) := BoundPayload(z, p, target);
        complete := c;
        event := event.(payload := bounded);
      }
    }

    method BoundCanonicalEvent(z: Sizes, budget: nat) returns (complete: Option<Completeness>)
      modifies this
      ensures event == BoundEvent(z, old(event), budget) && complete == event.completeness
      ensures event != old(event) ==> PayloadWithin(event.payload, old(event).payload) && Flagged(event.completeness)
    {
      EventIsBoundedOpenly(z, event, budget);
      if z.event(event) <= budget {
        return event.completeness;
      }
      var original := z.event(event);
      complete := BoundPass(z, Max(budget - 512, budget / 2));
      if z.event(event) > budget && HasStrictPass(event.payload) {
        var strict := BoundPass(z, Max(budget / 4, 1));
        complete := Merge(complete, strict);
      }
      complete := Merge(complete, Some(BudgetCompleteness(original, "canonical event exceeds C/S frame budget")));
      event := event.(completeness := Merge(event.completeness, complete));
      if z.event(event) > budget {
        event := event.(completeness := WithReason(event.completeness, "frame budget"));
      }
      complete := event.completeness;
    }
  }
}
