/** The shrinkers of internal/codex/budget.go and internal/codex/manager.go, on message values, and
    what they keep for any size function. */
module Shrink {
  import opened Common
  import opened Utf8
  import opened Budget

  // --------------------------------------------------------------------- items

  function CutPart(p: Part, per: int): Part {
    if p.TextPart? then TextPart(Cut(p.text, per)) else p
  }

  function CutStep(s: PlanStep, per: int): PlanStep {
    PlanStep(Cut(s.text, per), Cut(s.status, Max(per / 2, 1)))
  }

  function CutEdit(c: FileEdit, per: int): FileEdit {
    FileEdit(Cut(c.path, per), Cut(c.oldPath, per), Cut(c.newPath, per), c.kind)
  }

  function CutParts(ps: seq<Part>, per: int): (r: seq<Part>) {
    seq(|ps|, i requires 0 <= i < |ps| => CutPart(ps[i], per))
  }

  function CutSteps(ss: seq<PlanStep>, per: int): (r: seq<PlanStep>) {
    seq(|ss|, i requires 0 <= i < |ss| => CutStep(ss[i], per))
  }

  function CutEdits(cs: seq<FileEdit>, per: int): (r: seq<FileEdit>) {
    seq(|cs|, i requires 0 <= i < |cs| => CutEdit(cs[i], per))
  }

  function CutTexts(ts: seq<Text>, per: int): (r: seq<Text>) { seq(|ts|, i requires 0 <= i < |ts| => Cut(ts[i], per)) }

  function PartsFit(z: Sizes, item: MessageItem, budget: nat): seq<Part> -> bool {
    vs => z.item(item.(content := UserMessage(vs))) <= budget
  }

  function StepsFit(z: Sizes, item: MessageItem, budget: nat): seq<PlanStep> -> bool {
    vs => z.item(item.(content := Plan(vs))) <= budget
  }

  function ArgvFits(z: Sizes, item: MessageItem, cwd: Text, output: Text, exit: Option<int>, budget: nat)
    : seq<Text> -> bool
  {
    vs => z.item(item.(content := Command(vs, cwd, output, exit))) <= budget
  }

  function EditsFit(z: Sizes, item: MessageItem, diff: Text, budget: nat): seq<FileEdit> -> bool {
    vs => z.item(item.(content := FileChange(diff, vs))) <= budget
  }

  function CutContent(z: Sizes, item: MessageItem, budget: nat): Content {
    var per := Max(budget / 8, 1);
    match item.content
    case UserMessage(parts) => UserMessage(FittingPrefix(CutParts(parts, per), 1, PartsFit(z, item, budget)))
    case AgentMessage(text) => AgentMessage(Cut(text, per))
    case ReasoningSummary(text) => ReasoningSummary(Cut(text, per))
    case Plan(steps) => Plan(FittingPrefix(CutSteps(steps, per), 1, StepsFit(z, item, budget)))
    case Command(argv, cwd, output, exit) =>
      var cwd', output' := Cut(cwd, per), Cut(output, per);
      var argv' := FittingPrefix(CutTexts(argv, per), 1, ArgvFits(z, item, cwd', output', exit, budget));
      Command(argv', cwd', output', exit)
    case Tool(name, summary, result) => Tool(Cut(name, per), Cut(summary, per), Cut(result, per))
    case FileChange(diff, changes) =>
      var diff' := Cut(diff, per);
      FileChange(diff', FittingPrefix(CutEdits(changes, per), 1, EditsFit(z, item, diff', budget)))
    case NoContent => NoContent
  }

  function BoundItem(z: Sizes, item: MessageItem, budget: nat): (MessageItem, Option<Completeness>) {
    if z.item(item) <= budget then (item, None)
    else
      var complete := Some(BudgetCompleteness(z.item(item), "item fields or collection exceed C/S frame budget"));
      var marked := item.(completeness := Merge(item.completeness, complete));
      (marked.(content := CutContent(z, marked, budget)), complete)
  }

  function MinimalContent(c: Content): Content {
    match c
    case UserMessage(parts) =>
      UserMessage(if parts == [] then [] else [if parts[0].TextPart? then TextPart([]) else parts[0]])
    case AgentMessage(_) => AgentMessage([])
    case ReasoningSummary(_) => ReasoningSummary([])
    case Plan(steps) => Plan(if steps == [] then [] else [steps[0].(text := [])])
    case Command(argv, _, _, exit) => Command(if argv == [] then [] else [[]], [], [], exit)
    case Tool(name, _, _) => Tool(name, [], [])
    case FileChange(_, changes) => FileChange([], if changes == [] then [] else [FileEdit([], [], [], changes[0].kind)])
    case NoContent => NoContent
  }

  function MinimizeItem(item: MessageItem): MessageItem {
    item.(content := MinimalContent(item.content),
          completeness := Merge(item.completeness, Some(Completeness(true, true, 0, "frame budget"))))
  }

  /** `a` is a list of `b`'s leading entries, and not empty unless `b` is. */
  predicate Leads<T>(a: seq<T>, b: seq<T>) {
    |a| <= |b| && (b != [] ==> a != [])
  }

  predicate PartWithin(a: Part, b: Part) {
    if b.TextPart? then a.TextPart? && a.text <= b.text else a == b
  }

  predicate StepWithin(a: PlanStep, b: PlanStep) {
    a.text <= b.text && a.status <= b.status
  }

  predicate EditWithin(a: FileEdit, b: FileEdit) {
    a.path <= b.path && a.oldPath <= b.oldPath && a.newPath <= b.newPath && a.kind == b.kind
  }

  predicate PartsWithin(a: seq<Part>, b: seq<Part>) {
    Leads(a, b) && forall i :: 0 <= i < |a| ==> PartWithin(a[i], b[i])
  }

  predicate StepsWithin(a: seq<PlanStep>, b: seq<PlanStep>) {
    Leads(a, b) && forall i :: 0 <= i < |a| ==> StepWithin(a[i], b[i])
  }

  predicate EditsWithin(a: seq<FileEdit>, b: seq<FileEdit>) {
    Leads(a, b) && forall i :: 0 <= i < |a| ==> EditWithin(a[i], b[i])
  }

  predicate TextsWithin(a: seq<Text>, b: seq<Text>) { Leads(a, b) && forall i :: 0 <= i < |a| ==> a[i] <= b[i] }

  /** Same kind of content; every text a prefix, every list leading entries of the original. */
  predicate ContentWithin(a: Content, b: Content) {
    match b
    case UserMessage(parts) => a.UserMessage? && PartsWithin(a.parts, parts)
    case AgentMessage(text) => a.AgentMessage? && a.text <= text
    case ReasoningSummary(text) => a.ReasoningSummary? && a.text <= text
    case Plan(steps) => a.Plan? && StepsWithin(a.steps, steps)
    case Command(argv, cwd, output, exit) =>
      a.Command? && TextsWithin(a.argv, argv) && a.cwd <= cwd && a.output <= output && a.exitCode == exit
    case Tool(name, summary, result) => a.Tool? && a.name <= name && a.summary <= summary && a.result <= result
    case FileChange(diff, changes) => a.FileChange? && a.diff <= diff && EditsWithin(a.changes, changes)
    case NoContent => a.NoContent?
  }

  predicate ItemWithin(a: MessageItem, b: MessageItem) {
    a.id == b.id && a.turnId == b.turnId && a.status == b.status && ContentWithin(a.content, b.content)
  }

  lemma Cuts(value: Text, budget: int)
    ensures Cut(value, budget) <= value && Stub(value) <= value
  {
    BoundStringFacts(value, budget);
    PrefixFacts(value, Min(|value|, 1));
  }

  lemma CutPartsWithin(ps: seq<Part>, per: int, r: seq<Part>)
    requires r <= CutParts(ps, per) && (ps != [] ==> r != [])
    ensures PartsWithin(r, ps)
  {
    forall i | 0 <= i < |r| ensures PartWithin(r[i], ps[i]) {
      if ps[i].TextPart? {
        Cuts(ps[i].text, per);
      }
    }
  }

  lemma CutStepsWithin(ss: seq<PlanStep>, per: int, r: seq<PlanStep>)
    requires r <= CutSteps(ss, per) && (ss != [] ==> r != [])
    ensures StepsWithin(r, ss)
  {
    forall i | 0 <= i < |r| ensures StepWithin(r[i], ss[i]) {
      Cuts(ss[i].text, per);
      Cuts(ss[i].status, Max(per / 2, 1));
    }
  }

  lemma CutEditsWithin(cs: seq<FileEdit>, per: int, r: seq<FileEdit>)
    requires r <= CutEdits(cs, per) && (cs != [] ==> r != [])
    ensures EditsWithin(r, cs)
  {
    forall i | 0 <= i < |r| ensures EditWithin(r[i], cs[i]) {
      Cuts(cs[i].path, per);
      Cuts(cs[i].oldPath, per);
      Cuts(cs[i].newPath, per);
    }
  }

  lemma CutTextsWithin(ts: seq<Text>, per: int, r: seq<Text>)
    requires r <= CutTexts(ts, per) && (ts != [] ==> r != [])
    ensures TextsWithin(r, ts)
  {
    forall i | 0 <= i < |r| ensures r[i] <= ts[i] {
      Cuts(ts[i], per);
    }
  }

  lemma CutContentWithin(z: Sizes, item: MessageItem, budget: nat)
    ensures ContentWithin(CutContent(z, item, budget), item.content)
  {
    var per := Max(budget / 8, 1);
    var r := CutContent(z, item, budget);
    match item.content
    case UserMessage(parts) => CutPartsWithin(parts, per, r.parts);
    case AgentMessage(text) => Cuts(text, per);
    case ReasoningSummary(text) => Cuts(text, per);
    case Plan(steps) => CutStepsWithin(steps, per, r.steps);
    case Command(argv, cwd, output, exit) =>
      Cuts(cwd, per);
      Cuts(output, per);
      CutTextsWithin(argv, per, r.argv);
    case Tool(name, summary, result) =>
      Cuts(name, per);
      Cuts(summary, per);
      Cuts(result, per);
    case FileChange(diff, changes) =>
      Cuts(diff, per);
      CutEditsWithin(changes, per, r.changes);
    case NoContent =>
  }

  lemma SameContentWithin(c: Content)
    ensures ContentWithin(c, c)
  {
  }

  lemma ContentTransitive(a: Content, b: Content, c: Content)
    requires ContentWithin(a, b) && ContentWithin(b, c)
    ensures ContentWithin(a, c)
  {
  }

  /** A bounded item keeps its identity and kind, its texts are prefixes, its lists keep at least
      their first entry, and it is flagged exactly when it did not fit. */
  lemma BoundItemKeeps(z: Sizes, item: MessageItem, budget: nat)
    ensures var (item', complete) := BoundItem(z, item, budget);
      && ItemWithin(item', item)
      && (complete.Some? <==> z.item(item) > budget)
      && (if complete.Some? then Flagged(complete) && Flagged(item'.completeness) else item' == item)
  {
    SameContentWithin(item.content);
    if z.item(item) > budget {
      var complete := Some(BudgetCompleteness(z.item(item), "item fields or collection exceed C/S frame budget"));
      CutContentWithin(z, item.(completeness := Merge(item.completeness, complete)), budget);
    }
  }

  lemma MinimizeItemKeeps(item: MessageItem)
    ensures ItemWithin(MinimizeItem(item), item) && Flagged(MinimizeItem(item).completeness)
  {
  }

  // ------------------------------------------------------------------- pending

  function CutOption(o: InputOption, per: int): InputOption {
    o.(labelText := Cut(o.labelText, per), description := Cut(o.description, per))
  }

  function CutQuestion(q: Question, per: int): Question {
    q.(header := Cut(q.header, per), prompt := Cut(q.prompt, per),
       options := seq(|q.options|, i requires 0 <= i < |q.options| => CutOption(q.options[i], per)))
  }

  function CutQuestions(qs: seq<Question>, per: int): seq<Question> {
    seq(|qs|, i requires 0 <= i < |qs| => CutQuestion(qs[i], per))
  }

  function CutAnswers(xs: seq<Answer>, per: int): seq<Answer> {
    seq(|xs|, i requires 0 <= i < |xs| => xs[i].(freeForm := Cut(xs[i].freeForm, per)))
  }

  /** Header, prompt and option descriptions removed. */
  function BareQuestion(q: Question): Question {
    q.(header := [], prompt := [],
       options := seq(|q.options|, i requires 0 <= i < |q.options| => q.options[i].(description := [])))
  }

  function BareQuestions(qs: seq<Question>): seq<Question> {
    seq(|qs|, i requires 0 <= i < |qs| => BareQuestion(qs[i]))
  }

  function StubFirst(ts: seq<Text>): seq<Text> {
    if ts == [] then [] else [Stub(ts[0])] + ts[1..]
  }

  function CommandFits(z: Sizes, p: Pending, budget: nat): seq<Text> -> bool
    requires p.Approval?
  {
    vs => z.pending(p.(command := vs)) <= budget
  }

  function BoundApproval(z: Sizes, p: Pending, budget: nat): Pending
    requires p.Approval?
  {
    var per := Max(budget / 16, 1);
    var p1 := p.(title := Cut(p.title, per), explanation := Cut(p.explanation, per));
    var p2 := p1.(command := FittingPrefix(CutTexts(p.command, per), 1, CommandFits(z, p1, budget)));
    if z.pending(p2) > budget
    then p2.(title := Stub(p2.title), explanation := Stub(p2.explanation), command := StubFirst(p2.command))
    else p2
  }

  function BoundUserInput(z: Sizes, p: Pending, budget: nat, complete: Option<Completeness>): Pending
    requires p.UserInput?
  {
    var per := Max(budget / 16, 1);
    var p1 := p.(completeness := Merge(p.completeness, complete), questions := CutQuestions(p.questions, per),
                 answers := CutAnswers(p.answers, per));
    var p2 := if z.pending(p1) > budget then p1.(questions := BareQuestions(p1.questions)) else p1;
    if z.pending(p2) > budget then p2.(completeness := WithReason(p2.completeness, "frame budget")) else p2
  }

  function BoundPending(z: Sizes, p: Pending, budget: nat): (Pending, Option<Completeness>) {
    if z.pending(p) <= budget then (p, None)
    else
      var complete := Some(BudgetCompleteness(z.pending(p),
        "pending request presentation fields exceed C/S frame budget"));
      (match p
       case Approval(_, _, _, _, _, _, _) => BoundApproval(z, p, budget)
       case UserInput(_, _, _, _, _, _) => BoundUserInput(z, p, budget, complete)
       case NoRequest => p,
       complete)
  }

  function MinimizePending(p: Pending): Pending {
    match p
    case Approval(_, _, _, title, explanation, command, _) =>
      p.(title := Stub(title), explanation := Stub(explanation),
         command := if command == [] then [] else [Stub(command[0])])
    case UserInput(_, _, _, questions, _, _) => p.(questions := BareQuestions(questions))
    case NoRequest => p
  }

  predicate OptionWithin(a: InputOption, b: InputOption) {
    a.id == b.id && a.labelText <= b.labelText && a.description <= b.description
  }

  predicate QuestionWithin(a: Question, b: Question) {
    && a.id == b.id && a.multiple == b.multiple && a.freeForm == b.freeForm && a.header <= b.header
    && a.prompt <= b.prompt
    && |a.options| == |b.options| && forall i :: 0 <= i < |a.options| ==> OptionWithin(a.options[i], b.options[i])
  }

  predicate QuestionsWithin(a: seq<Question>, b: seq<Question>) {
    |a| == |b| && forall i :: 0 <= i < |a| ==> QuestionWithin(a[i], b[i])
  }

  predicate AnswerWithin(a: Answer, b: Answer) {
    a.questionId == b.questionId && a.selected == b.selected && a.freeForm <= b.freeForm
  }

  predicate AnswersWithin(a: seq<Answer>, b: seq<Answer>) {
    |a| == |b| && forall i :: 0 <= i < |a| ==> AnswerWithin(a[i], b[i])
  }

  /** Every identity and decision kept, no question, option or answer missing; every text a prefix. */
  predicate PendingWithin(a: Pending, b: Pending) {
    match b
    case Approval(id, turnId, itemId, title, explanation, command, allowed) =>
      && a.Approval? && a.id == id && a.turnId == turnId && a.itemId == itemId && a.allowed == allowed
      && a.title <= title && a.explanation <= explanation && TextsWithin(a.command, command)
    case UserInput(id, turnId, itemId, questions, answers, _) =>
      && a.UserInput? && a.id == id && a.turnId == turnId && a.itemId == itemId
      && QuestionsWithin(a.questions, questions) && AnswersWithin(a.answers, answers)
    case NoRequest => a.NoRequest?
  }

  lemma CutQuestionWithin(q: Question, per: int)
    ensures QuestionWithin(CutQuestion(q, per), q)
  {
    Cuts(q.header, per);
    Cuts(q.prompt, per);
    forall i | 0 <= i < |q.options| ensures OptionWithin(CutQuestion(q, per).options[i], q.options[i]) {
      Cuts(q.options[i].labelText, per);
      Cuts(q.options[i].description, per);
    }
  }

  lemma CutQuestionsWithin(qs: seq<Question>, per: int)
    ensures QuestionsWithin(CutQuestions(qs, per), qs)
  {
    forall i | 0 <= i < |qs| ensures QuestionWithin(CutQuestions(qs, per)[i], qs[i]) {
      CutQuestionWithin(qs[i], per);
    }
  }

  lemma CutAnswersWithin(xs: seq<Answer>, per: int)
    ensures AnswersWithin(CutAnswers(xs, per), xs)
  {
    forall i | 0 <= i < |xs| ensures AnswerWithin(CutAnswers(xs, per)[i], xs[i]) {
      Cuts(xs[i].freeForm, per);
    }
  }

  lemma BareQuestionsWithin(qs: seq<Question>)
    ensures QuestionsWithin(BareQuestions(qs), qs)
  {
    forall i | 0 <= i < |qs| ensures QuestionWithin(BareQuestions(qs)[i], qs[i]) {
      assert forall j :: 0 <= j < |qs[i].options| ==> OptionWithin(BareQuestion(qs[i]).options[j], qs[i].options[j]);
    }
  }

  lemma QuestionsTransitive(a: seq<Question>, b: seq<Question>, c: seq<Question>)
    requires QuestionsWithin(a, b) && QuestionsWithin(b, c)
    ensures QuestionsWithin(a, c)
  {
    forall i | 0 <= i < |a| ensures QuestionWithin(a[i], c[i]) {
      assert QuestionWithin(a[i], b[i]) && QuestionWithin(b[i], c[i]);
      forall j | 0 <= j < |a[i].options| ensures OptionWithin(a[i].options[j], c[i].options[j]) {
        assert OptionWithin(a[i].options[j], b[i].options[j]) && OptionWithin(b[i].options[j], c[i].options[j]);
      }
    }
  }

  lemma PendingTransitive(a: Pending, b: Pending, c: Pending)
    requires PendingWithin(a, b) && PendingWithin(b, c)
    ensures PendingWithin(a, c)
  {
    if c.UserInput? {
      QuestionsTransitive(a.questions, b.questions, c.questions);
      forall i | 0 <= i < |a.answers| ensures AnswerWithin(a.answers[i], c.answers[i]) {
        assert AnswerWithin(a.answers[i], b.answers[i]) && AnswerWithin(b.answers[i], c.answers[i]);
      }
    }
  }

  lemma SamePendingWithin(p: Pending)
    ensures PendingWithin(p, p)
  {
  }

  lemma BoundApprovalKeeps(z: Sizes, p: Pending, budget: nat)
    requires p.Approval?
    ensures PendingWithin(BoundApproval(z, p, budget), p)
  {
    var per := Max(budget / 16, 1);
    Cuts(p.title, per);
    Cuts(p.explanation, per);
    var p1 := p.(title := Cut(p.title, per), explanation := Cut(p.explanation, per));
    var p2 := p1.(command := FittingPrefix(CutTexts(p.command, per), 1, CommandFits(z, p1, budget)));
    CutTextsWithin(p.command, per, p2.command);
    Cuts(p2.title, 1);
    Cuts(p2.explanation, 1);
    if p2.command != [] {
      Cuts(p2.command[0], 1);
    }
  }

  lemma BoundUserInputKeeps(z: Sizes, p: Pending, budget: nat, complete: Option<Completeness>)
    requires p.UserInput? && Flagged(complete)
    ensures var p' := BoundUserInput(z, p, budget, complete); PendingWithin(p', p) && Flagged(p'.completeness)
  {
    var per := Max(budget / 16, 1);
    var cut := CutQuestions(p.questions, per);
    CutQuestionsWithin(p.questions, per);
    CutAnswersWithin(p.answers, per);
    BareQuestionsWithin(cut);
    QuestionsTransitive(BareQuestions(cut), cut, p.questions);
  }

  /** A bounded request keeps everything needed to answer it. A request that did not fit comes with
      a flagged completeness for the enclosing message, and a user-input request flags itself. */
  lemma BoundPendingKeeps(z: Sizes, p: Pending, budget: nat)
    ensures var (p', complete) := BoundPending(z, p, budget);
      && PendingWithin(p', p)
      && (complete.Some? <==> z.pending(p) > budget)
      && (if complete.Some? then Flagged(complete) && (p'.UserInput? ==> Flagged(p'.completeness)) else p' == p)
  {
    SamePendingWithin(p);
    if z.pending(p) > budget {
      var complete := Some(BudgetCompleteness(z.pending(p),
        "pending request presentation fields exceed C/S frame budget"));
      match p
      case Approval(_, _, _, _, _, _, _) => BoundApprovalKeeps(z, p, budget);
      case UserInput(_, _, _, _, _, _) => BoundUserInputKeeps(z, p, budget, complete);
      case NoRequest =>
    }
  }

  /** Minimising keeps as much, but it does not flag a user-input request by itself. */
  lemma MinimizePendingKeeps(p: Pending)
    ensures PendingWithin(MinimizePending(p), p)
    ensures p.UserInput? ==> MinimizePending(p).completeness == p.completeness
  {
    match p
    case Approval(_, _, _, title, explanation, command, _) =>
      Cuts(title, 1);
      Cuts(explanation, 1);
      if command != [] {
        Cuts(command[0], 1);
      }
    case UserInput(_, _, _, questions, _, _) => BareQuestionsWithin(questions);
    case NoRequest =>
  }

  // ------------------------------------------------- as far as it may be shrunk

  predicate PartLeast(p: Part, per: nat) {
    p.TextPart? ==> |p.text| <= per
  }

  predicate EditLeast(e: FileEdit, per: nat) {
    |e.path| <= per && |e.oldPath| <= per && |e.newPath| <= per
  }

  /** Nothing is left of the content that bounding with this many bytes per field would remove. */
  predicate ContentLeast(c: Content, per: nat) {
    match c
    case UserMessage(parts) => |parts| <= 1 && forall i :: 0 <= i < |parts| ==> PartLeast(parts[i], per)
    case AgentMessage(text) => |text| <= per
    case ReasoningSummary(text) => |text| <= per
    case Plan(steps) => |steps| <= 1 && forall i :: 0 <= i < |steps| ==>
      |steps[i].text| <= per && |steps[i].status| <= per
    case Command(argv, cwd, output, _) =>
      |argv| <= 1 && (forall i :: 0 <= i < |argv| ==> |argv[i]| <= per) && |cwd| <= per && |output| <= per
    case Tool(name, summary, result) => |name| <= per && |summary| <= per && |result| <= per
    case FileChange(diff, changes) =>
      |diff| <= per && |changes| <= 1 && forall i :: 0 <= i < |changes| ==> EditLeast(changes[i], per)
    case NoContent => true
  }

  lemma CutLength(value: Text, budget: int)
    requires budget >= 1
    ensures |Cut(value, budget)| <= budget && |Stub(value)| <= 1
  {
    BoundStringFacts(value, budget);
    PrefixFacts(value, 1);
  }

  /** A fitting prefix of `values` fits, or it is down to one entry. */
  lemma FitsOrSingle<T>(values: seq<T>, fits: seq<T> -> bool)
    ensures var r := FittingPrefix(values, 1, fits); fits(r) || |r| <= 1
  {
    FittingPrefixIsBest(values, 1, fits);
  }

  lemma CutPartsLeast(ps: seq<Part>, per: nat, r: seq<Part>)
    requires per >= 1 && r <= CutParts(ps, per)
    ensures forall i :: 0 <= i < |r| ==> PartLeast(r[i], per)
  {
    forall i | 0 <= i < |r| ensures PartLeast(r[i], per) {
      if ps[i].TextPart? {
        CutLength(ps[i].text, per);
      }
    }
  }

  lemma CutStepsLeast(ss: seq<PlanStep>, per: nat, r: seq<PlanStep>)
    requires per >= 1 && r <= CutSteps(ss, per)
    ensures forall i :: 0 <= i < |r| ==> |r[i].text| <= per && |r[i].status| <= per
  {
    forall i | 0 <= i < |r| ensures |r[i].text| <= per && |r[i].status| <= per {
      CutLength(ss[i].text, per);
      CutLength(ss[i].status, Max(per / 2, 1));
    }
  }

  lemma CutEditsLeast(cs: seq<FileEdit>, per: nat, r: seq<FileEdit>)
    requires per >= 1 && r <= CutEdits(cs, per)
    ensures forall i :: 0 <= i < |r| ==> EditLeast(r[i], per)
  {
    forall i | 0 <= i < |r| ensures EditLeast(r[i], per) {
      CutLength(cs[i].path, per);
      CutLength(cs[i].oldPath, per);
      CutLength(cs[i].newPath, per);
    }
  }

  lemma CutTextsLeast(ts: seq<Text>, per: nat, r: seq<Text>)
    requires per >= 1 && r <= CutTexts(ts, per)
    ensures forall i :: 0 <= i < |r| ==> |r[i]| <= per
  {
    forall i | 0 <= i < |r| ensures |r[i]| <= per {
      CutLength(ts[i], per);
    }
  }

  /** Contents with a list: the list is shortened until it fits or has one entry. */
  lemma CutListLeast(z: Sizes, item: MessageItem, budget: nat)
    requires item.content.UserMessage? || item.content.Plan?
    ensures var c := CutContent(z, item, budget);
      z.item(item.(content := c)) <= budget || ContentLeast(c, Max(budget / 8, 1))
  {
    var per := Max(budget / 8, 1);
    if item.content.UserMessage? {
      FitsOrSingle(CutParts(item.content.parts, per), PartsFit(z, item, budget));
      CutPartsLeast(item.content.parts, per, CutContent(z, item, budget).parts);
    } else {
      FitsOrSingle(CutSteps(item.content.steps, per), StepsFit(z, item, budget));
      CutStepsLeast(item.content.steps, per, CutContent(z, item, budget).steps);
    }
  }

  lemma CutCommandLeast(z: Sizes, item: MessageItem, budget: nat)
    requires item.content.Command?
    ensures var c := CutContent(z, item, budget);
      z.item(item.(content := c)) <= budget || ContentLeast(c, Max(budget / 8, 1))
  {
    var per := Max(budget / 8, 1);
    var cwd, output := Cut(item.content.cwd, per), Cut(item.content.output, per);
    CutLength(item.content.cwd, per);
    CutLength(item.content.output, per);
    FitsOrSingle(CutTexts(item.content.argv, per), ArgvFits(z, item, cwd, output, item.content.exitCode, budget));
    CutTextsLeast(item.content.argv, per, CutContent(z, item, budget).argv);
  }

  lemma CutChangeLeast(z: Sizes, item: MessageItem, budget: nat)
    requires item.content.FileChange?
    ensures var c := CutContent(z, item, budget);
      z.item(item.(content := c)) <= budget || ContentLeast(c, Max(budget / 8, 1))
  {
    var per := Max(budget / 8, 1);
    var diff := Cut(item.content.diff, per);
    CutLength(item.content.diff, per);
    FitsOrSingle(CutEdits(item.content.changes, per), EditsFit(z, item, diff, budget));
    CutEditsLeast(item.content.changes, per, CutContent(z, item, budget).changes);
  }

  lemma CutContentLeast(z: Sizes, item: MessageItem, budget: nat)
    ensures var c := CutContent(z, item, budget);
      z.item(item.(content := c)) <= budget || ContentLeast(c, Max(budget / 8, 1))
  {
    var per := Max(budget / 8, 1);
    match item.content
    case UserMessage(_) => CutListLeast(z, item, budget);
    case Plan(_) => CutListLeast(z, item, budget);
    case Command(_, _, _, _) => CutCommandLeast(z, item, budget);
    case FileChange(_, _) => CutChangeLeast(z, item, budget);
    case AgentMessage(text) => CutLength(text, per);
    case ReasoningSummary(text) => CutLength(text, per);
    case Tool(name, summary, result) =>
      CutLength(name, per);
      CutLength(summary, per);
      CutLength(result, per);
    case NoContent =>
  }

  /** A bounded item fits, or every list is down to one entry and every text to its share. */
  lemma BoundItemFitsOrLeast(z: Sizes, item: MessageItem, budget: nat)
    ensures var item' := BoundItem(z, item, budget).0;
      z.item(item') <= budget || ContentLeast(item'.content, Max(budget / 8, 1))
  {
    if z.item(item) > budget {
      var complete := Some(BudgetCompleteness(z.item(item), "item fields or collection exceed C/S frame budget"));
      CutContentLeast(z, item.(completeness := Merge(item.completeness, complete)), budget);
    }
  }

  predicate BareWithin(q: Question, per: nat) {
    q.header == [] && q.prompt == [] && forall i :: 0 <= i < |q.options| ==>
      q.options[i].description == [] && |q.options[i].labelText| <= per
  }

  /** Only identities, decisions, and labels and answers of bounded length are left. */
  predicate PendingLeast(p: Pending, per: nat) {
    match p
    case Approval(_, _, _, title, explanation, command, _) =>
      |title| <= 1 && |explanation| <= 1 && |command| <= 1 && forall i :: 0 <= i < |command| ==> |command[i]| <= 1
    case UserInput(_, _, _, questions, answers, _) =>
      && (forall i :: 0 <= i < |questions| ==> BareWithin(questions[i], per))
      && (forall i :: 0 <= i < |answers| ==> |answers[i].freeForm| <= per)
    case NoRequest => true
  }

  lemma BoundApprovalFitsOrLeast(z: Sizes, p: Pending, budget: nat)
    requires p.Approval?
    ensures var p' := BoundApproval(z, p, budget); z.pending(p') <= budget || PendingLeast(p', Max(budget / 16, 1))
  {
    var per := Max(budget / 16, 1);
    var p1 := p.(title := Cut(p.title, per), explanation := Cut(p.explanation, per));
    FittingPrefixIsBest(CutTexts(p.command, per), 1, CommandFits(z, p1, budget));
    forall t: Text ensures |Stub(t)| <= 1 {
      CutLength(t, 1);
    }
  }

  lemma BoundUserInputFitsOrLeast(z: Sizes, p: Pending, budget: nat, complete: Option<Completeness>)
    requires p.UserInput?
    ensures var p' := BoundUserInput(z, p, budget, complete);
      z.pending(p') <= budget || PendingLeast(p', Max(budget / 16, 1))
  {
    var per := Max(budget / 16, 1);
    forall t: Text ensures |Cut(t, per)| <= per {
      CutLength(t, per);
    }
    var cut := CutQuestions(p.questions, per);
    forall i | 0 <= i < |cut| ensures BareWithin(BareQuestions(cut)[i], per) {
      assert cut[i] == CutQuestion(p.questions[i], per);
    }
  }

  /** A bounded request fits, or nothing but what is needed to answer it is left. */
  lemma BoundPendingFitsOrLeast(z: Sizes, p: Pending, budget: nat)
    ensures var p' := BoundPending(z, p, budget).0; z.pending(p') <= budget || PendingLeast(p', Max(budget / 16, 1))
  {
    if z.pending(p) > budget {
      match p
      case Approval(_, _, _, _, _, _, _) => BoundApprovalFitsOrLeast(z, p, budget);
      case UserInput(_, _, _, _, _, _) => BoundUserInputFitsOrLeast(z, p, budget, BoundPending(z, p, budget).1);
      case NoRequest =>
    }
  }
}
