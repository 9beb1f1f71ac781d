/** Answering a user-input request: canonicalOptionID, pendingFromAdapter and the option lookup of
    RespondUserInput (internal/codex/manager.go). Clients see requests only after they were bounded,
    but answers are matched against the original questions. */
module Answers {
  import opened Common
  import opened Utf8
  import opened Budget
  import opened Shrink
  import opened FrameBudget

  datatype NativeOption = NativeOption(labelText: Text, description: Text)
  datatype NativeQuestion = NativeQuestion(id: Text, header: Text, question: Text, multiple: bool, isOther: bool,
        options: seq<NativeOption>)
  datatype NativeRequest = NativeRequest(id: Text, turnId: Text, itemId: Text, questions: seq<NativeQuestion>)

  const DASH: Byte := 0x2D
  const OPTION: Text := [0x6F, 0x70, 0x74, 0x69, 0x6F, 0x6E, 0x2D]

  function Decimal(n: nat): Text {
    if n < 10 then [0x30 + n] else Decimal(n / 10) + [0x30 + n % 10]
  }

  /** canonicalOptionID; `encode` is the base64 encoder, of which nothing is needed. */
  function OptionId(encode: Text -> Text, index: nat, labelText: Text): Text {
    OPTION + (Decimal(index + 1) + ([DASH] + encode(labelText)))
  }

  function OptionsFrom(encode: Text -> Text, os: seq<NativeOption>): seq<InputOption> {
    seq(|os|, i requires 0 <= i < |os| =>
      InputOption(OptionId(encode, i, os[i].labelText), os[i].labelText, os[i].description))
  }

  function QuestionFrom(encode: Text -> Text, q: NativeQuestion): Question {
    Question(q.id, q.header, q.question, q.multiple, q.isOther, OptionsFrom(encode, q.options))
  }

  /** pendingFromAdapter for a user-input request. */
  function PendingFrom(encode: Text -> Text, p: NativeRequest): Pending {
    UserInput(p.id, p.turnId, p.itemId,
              seq(|p.questions|, i requires 0 <= i < |p.questions| => QuestionFrom(encode, p.questions[i])), [], None)
  }

  // -------------------------------------------------------------------- lookup

  /** The first question with the id. */
  function FindQuestion(qs: seq<NativeQuestion>, id: Text): Option<NativeQuestion> {
    if qs == [] then None
    else
      var earlier := FindQuestion(qs[..|qs| - 1], id);
      if earlier.Some? then earlier else if qs[|qs| - 1].id == id then Some(qs[|qs| - 1]) else None
  }

  /** The label of the first option whose canonical id is `selected`. */
  function FindLabel(encode: Text -> Text, os: seq<NativeOption>, selected: Text): Option<Text> {
    if os == [] then None
    else
      var earlier := FindLabel(encode, os[..|os| - 1], selected);
      if earlier.Some? then earlier
      else if OptionId(encode, |os| - 1, os[|os| - 1].labelText) == selected then Some(os[|os| - 1].labelText) else None
  }

  /** What one selected option of one question is answered with. */
  function Resolve(encode: Text -> Text, p: NativeRequest, questionId: Text, selected: Text): Option<Text> {
    var q := FindQuestion(p.questions, questionId);
    if q.None? then None else FindLabel(encode, q.value.options, selected)
  }

  method LookUpQuestion(qs: seq<NativeQuestion>, id: Text) returns (q: Option<NativeQuestion>)
    ensures q == FindQuestion(qs, id)
  {
    assert qs[..0] == [];
    for i := 0 to |qs|
      invariant FindQuestion(qs[..i], id) == None
    {
      assert qs[..i + 1][..i] == qs[..i];
      if qs[i].id == id {
        FirstQuestion(qs, i);
        return Some(qs[i]);
      }
    }
    assert qs[..|qs|] == qs;
    q := None;
  }

  lemma {:induction false} FirstQuestion(qs: seq<NativeQuestion>, i: nat)
    requires i < |qs| && FindQuestion(qs[..i], qs[i].id) == None
    ensures FindQuestion(qs, qs[i].id) == Some(qs[i])
  {
    if i < |qs| - 1 {
      assert qs[..|qs| - 1][..i] == qs[..i];
      FirstQuestion(qs[..|qs| - 1], i);
    }
  }

  method LookUpOption(encode: Text -> Text, os: seq<NativeOption>, selected: Text) returns (l: Option<Text>)
    ensures l == FindLabel(encode, os, selected)
  {
    assert os[..0] == [];
    for i := 0 to |os|
      invariant FindLabel(encode, os[..i], selected) == None
    {
      assert os[..i + 1][..i] == os[..i];
      if OptionId(encode, i, os[i].labelText) == selected {
        FirstLabel(encode, os, i);
        return Some(os[i].labelText);
      }
    }
    assert os[..|os|] == os;
    l := None;
  }

  lemma {:induction false} FirstLabel(encode: Text -> Text, os: seq<NativeOption>, i: nat)
    requires i < |os|
    requires FindLabel(encode, os[..i], OptionId(encode, i, os[i].labelText)) == None
    ensures FindLabel(encode, os, OptionId(encode, i, os[i].labelText)) == Some(os[i].labelText)
  {
    if i < |os| - 1 {
      assert os[..|os| - 1][..i] == os[..i];
      FirstLabel(encode, os[..|os| - 1], i);
    }
  }

  // ------------------------------------------------------- ids name one option

  lemma {:induction false} DecimalHasNoDash(n: nat)
    ensures DASH !in Decimal(n) && Decimal(n) != []
  {
    if n >= 10 {
      DecimalHasNoDash(n / 10);
    }
  }

  lemma {:induction false} DecimalInjective(m: nat, n: nat)
    requires Decimal(m) == Decimal(n)
    ensures m == n
  {
    DecimalHasNoDash(m / 10);
    DecimalHasNoDash(n / 10);
    var a, b := Decimal(m), Decimal(n);
    assert a[|a| - 1] == 0x30 + m % 10 && b[|b| - 1] == 0x30 + n % 10;
    if m >= 10 && n >= 10 {
      assert a[..|a| - 1] == Decimal(m / 10) && b[..|b| - 1] == Decimal(n / 10);
      DecimalInjective(m / 10, n / 10);
    }
  }

  lemma SplitAtDash(a: Text, x: Text, b: Text, y: Text)
    requires a + ([DASH] + x) == b + ([DASH] + y) && DASH !in a && DASH !in b
    ensures a == b
  {
    var s := a + ([DASH] + x);
    assert s[|a|] == DASH && s[|b|] == DASH;
    assert |a| == |b|;
    assert a == s[..|a|] && b == s[..|b|];
  }

  /** An option id names its position, whatever the labels and the encoder. */
  lemma OptionIdNamesPosition(encode: Text -> Text, i: nat, a: Text, j: nat, b: Text)
    requires OptionId(encode, i, a) == OptionId(encode, j, b)
    ensures i == j
  {
    var x, y := Decimal(i + 1) + ([DASH] + encode(a)), Decimal(j + 1) + ([DASH] + encode(b));
    assert x == (OPTION + x)[|OPTION|..] && y == (OPTION + y)[|OPTION|..];
    DecimalHasNoDash(i + 1);
    DecimalHasNoDash(j + 1);
    SplitAtDash(Decimal(i + 1), encode(a), Decimal(j + 1), encode(b));
    DecimalInjective(i + 1, j + 1);
  }

  lemma {:induction false} NoEarlierLabel(encode: Text -> Text, os: seq<NativeOption>, j: nat, labelText: Text)
    requires |os| <= j
    ensures FindLabel(encode, os, OptionId(encode, j, labelText)) == None
  {
    if os != [] {
      NoEarlierLabel(encode, os[..|os| - 1], j, labelText);
      if OptionId(encode, |os| - 1, os[|os| - 1].labelText) == OptionId(encode, j, labelText) {
        OptionIdNamesPosition(encode, |os| - 1, os[|os| - 1].labelText, j, labelText);
      }
    }
  }

  ghost predicate UniqueIds(qs: seq<NativeQuestion>) {
    forall i, j :: 0 <= i < j < |qs| ==> qs[i].id != qs[j].id
  }

  lemma {:induction false} NoEarlierQuestion(qs: seq<NativeQuestion>, id: Text)
    requires forall i :: 0 <= i < |qs| ==> qs[i].id != id
    ensures FindQuestion(qs, id) == None
  {
    if qs != [] {
      NoEarlierQuestion(qs[..|qs| - 1], id);
    }
  }

  // -------------------------------------------------------------- main results

  /** In any shrunk form of the request, the option at a position answers its question with the full
      original label of the option at that position. */
  lemma ShrunkOptionAnswers(encode: Text -> Text, p: NativeRequest, shown: Pending, k: nat, j: nat)
    requires UniqueIds(p.questions) && PendingWithin(shown, PendingFrom(encode, p))
    requires k < |p.questions| && j < |p.questions[k].options|
    ensures k < |shown.questions| && j < |shown.questions[k].options|
    ensures Resolve(encode, p, shown.questions[k].id, shown.questions[k].options[j].id) ==
      Some(p.questions[k].options[j].labelText)
  {
    var q := p.questions[k];
    assert QuestionWithin(shown.questions[k], QuestionFrom(encode, q));
    assert OptionWithin(shown.questions[k].options[j], OptionsFrom(encode, q.options)[j]);
    NoEarlierQuestion(p.questions[..k], q.id);
    FirstQuestion(p.questions, k);
    NoEarlierLabel(encode, q.options[..j], j, q.options[j].labelText);
    FirstLabel(encode, q.options, j);
  }

  /** So for every option of every request in a view bounded to any budget by any size function. */
  lemma BoundedOptionAnswers(encode: Text -> Text, z: Sizes, v: View, budget: nat, warning: Warning, n: nat,
        p: NativeRequest, k: nat, j: nat)
    requires n < |v.pending| && v.pending[n] == PendingFrom(encode, p) && UniqueIds(p.questions)
    requires k < |p.questions| && j < |p.questions[k].options|
    ensures var v' := BoundView(z, v, budget, warning);
      && |v'.pending| == |v.pending| && v'.pending[n].UserInput?
      && k < |v'.pending[n].questions| && j < |v'.pending[n].questions[k].options|
      && var q := v'.pending[n].questions[k];
        Resolve(encode, p, q.id, q.options[j].id) == Some(p.questions[k].options[j].labelText)
  {
    ViewIsBoundedOpenly(z, v, budget, warning);
    var v' := BoundView(z, v, budget, warning);
    assert PendingWithin(v'.pending[n], v.pending[n]);
    ShrunkOptionAnswers(encode, p, v'.pending[n], k, j);
  }

  // -------------------------------------------------------------- whole answers

  /** The labels of the selected options; None if one is unknown. */
  function LabelsOf(encode: Text -> Text, os: seq<NativeOption>, selected: seq<Text>): Option<seq<Text>> {
    if selected == [] then Some([])
    else
      var earlier := LabelsOf(encode, os, selected[..|selected| - 1]);
      var l := FindLabel(encode, os, selected[|selected| - 1]);
      if earlier.None? || l.None? then None else Some(earlier.value + [l.value])
  }

  function Given(m: map<Text, seq<Text>>, id: Text): seq<Text> {
    if id in m then m[id] else []
  }

  /** The map with one more answer to the question `id`. */
  function Added(m: map<Text, seq<Text>>, id: Text, added: seq<Text>): map<Text, seq<Text>> {
    if added == [] then m else m[id := Given(m, id) + added]
  }

  /** What RespondUserInput sends upstream; None if it refuses. */
  function Collect(encode: Text -> Text, p: NativeRequest, answers: seq<Answer>): Option<map<Text, seq<Text>>> {
    if answers == [] then Some(map[])
    else
      var earlier := Collect(encode, p, answers[..|answers| - 1]);
      var a := answers[|answers| - 1];
      var q := FindQuestion(p.questions, a.questionId);
      if earlier.None? || q.None? then None
      else
        var labels := LabelsOf(encode, q.value.options, a.selected);
        if labels.None? then None
        else
          var added := labels.value + if a.freeForm == [] then [] else [a.freeForm];
          Some(Added(earlier.value, a.questionId, added))
  }

  method SelectedLabels(encode: Text -> Text, os: seq<NativeOption>, selected: seq<Text>)
    returns (labels: Option<seq<Text>>)
    ensures labels == LabelsOf(encode, os, selected)
  {
    var found: seq<Text> := [];
    assert selected[..0] == [];
    for i := 0 to |selected|
      invariant LabelsOf(encode, os, selected[..i]) == Some(found)
    {
      assert selected[..i + 1][..i] == selected[..i];
      var l := LookUpOption(encode, os, selected[i]);
      if l.None? {
        UnknownRefuses(encode, os, selected, i);
        return None;
      }
      found := found + [l.value];
    }
    assert selected[..|selected|] == selected;
    labels := Some(found);
  }

  lemma {:induction false} UnknownRefuses(encode: Text -> Text, os: seq<NativeOption>, selected: seq<Text>, i: nat)
    requires i < |selected| && FindLabel(encode, os, selected[i]) == None
    ensures LabelsOf(encode, os, selected) == None
  {
    if i < |selected| - 1 {
      UnknownRefuses(encode, os, selected[..|selected| - 1], i);
    }
  }

  method RespondUserInput(encode: Text -> Text, p: NativeRequest, answers: seq<Answer>)
    returns (r: Option<map<Text, seq<Text>>>)
    ensures r == Collect(encode, p, answers)
  {
    var m: map<Text, seq<Text>> := map[];
    assert answers[..0] == [];
    for i := 0 to |answers|
      invariant Collect(encode, p, answers[..i]) == Some(m)
    {
      assert answers[..i + 1][..i] == answers[..i];
      var a := answers[i];
      var q := LookUpQuestion(p.questions, a.questionId);
      if q.None? {
        RefusedForGood(encode, p, answers, i + 1);
        return None;
      }
      var labels := SelectedLabels(encode, q.value.options, a.selected);
      if labels.None? {
        RefusedForGood(encode, p, answers, i + 1);
        return None;
      }
      var added := labels.value + if a.freeForm == [] then [] else [a.freeForm];
      if added != [] {
        m := m[a.questionId := Given(m, a.questionId) + added];
      }
    }
    assert answers[..|answers|] == answers;
    r := Some(m);
  }

  lemma {:induction false} RefusedForGood(encode: Text -> Text, p: NativeRequest, answers: seq<Answer>, i: nat)
    requires i <= |answers| && Collect(encode, p, answers[..i]) == None
    ensures Collect(encode, p, answers) == None
  {
    if i == |answers| {
      assert answers[..i] == answers;
    } else {
      assert answers[..|answers| - 1][..i] == answers[..i];
      RefusedForGood(encode, p, answers[..|answers| - 1], i);
    }
  }

  /** The ids a client sends when it picks the options at these positions of the shown question. */
  function Picked(shown: Question, positions: seq<nat>): seq<Text>
    requires forall i :: 0 <= i < |positions| ==> positions[i] < |shown.options|
  {
    seq(|positions|, i requires 0 <= i < |positions| => shown.options[positions[i]].id)
  }

  function FullLabels(q: NativeQuestion, positions: seq<nat>): seq<Text>
    requires forall i :: 0 <= i < |positions| ==> positions[i] < |q.options|
  {
    seq(|positions|, i requires 0 <= i < |positions| => q.options[positions[i]].labelText)
  }

  lemma PickedOne(encode: Text -> Text, q: NativeQuestion, shown: Question, j: nat)
    requires QuestionWithin(shown, QuestionFrom(encode, q)) && j < |q.options|
    ensures FindLabel(encode, q.options, shown.options[j].id) == Some(q.options[j].labelText)
  {
    assert OptionWithin(shown.options[j], OptionsFrom(encode, q.options)[j]);
    NoEarlierLabel(encode, q.options[..j], j, q.options[j].labelText);
    FirstLabel(encode, q.options, j);
  }

  lemma {:induction false} PickedResolve(encode: Text -> Text, q: NativeQuestion, shown: Question, positions: seq<nat>)
    requires QuestionWithin(shown, QuestionFrom(encode, q))
    requires forall i :: 0 <= i < |positions| ==> positions[i] < |q.options|
    ensures LabelsOf(encode, q.options, Picked(shown, positions)) == Some(FullLabels(q, positions))
  {
    if positions != [] {
      var earlier := positions[..|positions| - 1];
      var j := positions[|positions| - 1];
      PickedResolve(encode, q, shown, earlier);
      PickedOne(encode, q, shown, j);
      assert Picked(shown, positions)[..|positions| - 1] == Picked(shown, earlier);
      assert FullLabels(q, positions) == FullLabels(q, earlier) + [q.options[j].labelText];
    }
  }

  /** One answer of a client: options picked by position in one question, and free-form text. */
  datatype Pick = Pick(question: nat, positions: seq<nat>, freeForm: Text)

  predicate CanPick(p: NativeRequest, pick: Pick) {
    && pick.question < |p.questions|
    && forall i :: 0 <= i < |pick.positions| ==> pick.positions[i] < |p.questions[pick.question].options|
  }

  predicate CanPickAll(p: NativeRequest, picks: seq<Pick>) {
    forall n :: 0 <= n < |picks| ==> CanPick(p, picks[n])
  }

  /** What one answer says: full original labels in the order picked, then the free-form text. */
  function Said(p: NativeRequest, pick: Pick): seq<Text>
    requires CanPick(p, pick)
  {
    FullLabels(p.questions[pick.question], pick.positions) + if pick.freeForm == [] then [] else [pick.freeForm]
  }

  /** What all the answers to the k-th question say, in order. */
  function Spoken(p: NativeRequest, picks: seq<Pick>, k: nat): seq<Text>
    requires CanPickAll(p, picks)
  {
    if picks == [] then []
    else
      var last := picks[|picks| - 1];
      Spoken(p, picks[..|picks| - 1], k) + if last.question == k then Said(p, last) else []
  }

  ghost predicate Shows(shown: Pending, p: NativeRequest, encode: Text -> Text) {
    UniqueIds(p.questions) && PendingWithin(shown, PendingFrom(encode, p))
  }

  function AnswerOf(encode: Text -> Text, p: NativeRequest, shown: Pending, pick: Pick): Answer
    requires Shows(shown, p, encode) && CanPick(p, pick)
  {
    assert QuestionWithin(shown.questions[pick.question], QuestionFrom(encode, p.questions[pick.question]));
    Answer(shown.questions[pick.question].id, Picked(shown.questions[pick.question], pick.positions), pick.freeForm)
  }

  function AnswersOf(encode: Text -> Text, p: NativeRequest, shown: Pending, picks: seq<Pick>): seq<Answer>
    requires Shows(shown, p, encode) && CanPickAll(p, picks)
  {
    seq(|picks|, n requires 0 <= n < |picks| => AnswerOf(encode, p, shown, picks[n]))
  }

  /** `m` holds what was said to each question, and nothing for a question to which nothing was said. */
  ghost predicate Tells(p: NativeRequest, picks: seq<Pick>, m: map<Text, seq<Text>>)
    requires CanPickAll(p, picks)
  {
    && (forall k :: 0 <= k < |p.questions| ==>
          Given(m, p.questions[k].id) == Spoken(p, picks, k) && (p.questions[k].id in m <==> Spoken(p, picks, k) != []))
    && (forall id :: id in m ==> exists k :: 0 <= k < |p.questions| && p.questions[k].id == id)
  }

  /** One answer adds what it says to its question. */
  lemma AnswerResolves(encode: Text -> Text, p: NativeRequest, shown: Pending, pick: Pick)
    requires Shows(shown, p, encode) && CanPick(p, pick)
    ensures var a := AnswerOf(encode, p, shown, pick);
      && a.questionId == p.questions[pick.question].id && a.freeForm == pick.freeForm
      && FindQuestion(p.questions, a.questionId) == Some(p.questions[pick.question])
      && LabelsOf(encode, p.questions[pick.question].options, a.selected)
         == Some(FullLabels(p.questions[pick.question], pick.positions))
  {
    var q := p.questions[pick.question];
    assert QuestionWithin(shown.questions[pick.question], QuestionFrom(encode, q));
    PickedResolve(encode, q, shown.questions[pick.question], pick.positions);
    NoEarlierQuestion(p.questions[..pick.question], q.id);
    FirstQuestion(p.questions, pick.question);
  }

  lemma AddedGives(m: map<Text, seq<Text>>, id: Text, added: seq<Text>, other: Text, spoken: seq<Text>)
    requires Given(m, other) == spoken && (other in m <==> spoken != [])
    ensures var m', said := Added(m, id, added), spoken + if other == id then added else [];
      Given(m', other) == said && (other in m' <==> said != [])
  {
    assert spoken + [] == spoken;
  }

  lemma TellsOneMore(p: NativeRequest, picks: seq<Pick>, m: map<Text, seq<Text>>)
    requires picks != [] && CanPickAll(p, picks) && UniqueIds(p.questions) && Tells(p, picks[..|picks| - 1], m)
    ensures var last := picks[|picks| - 1]; Tells(p, picks, Added(m, p.questions[last.question].id, Said(p, last)))
  {
    var earlier, last := picks[..|picks| - 1], picks[|picks| - 1];
    var id, added := p.questions[last.question].id, Said(p, last);
    var m' := Added(m, id, added);
    forall k | 0 <= k < |p.questions|
      ensures Given(m', p.questions[k].id) == Spoken(p, picks, k) &&
        (p.questions[k].id in m' <==> Spoken(p, picks, k) != [])
    {
      assert (k == last.question) == (p.questions[k].id == id);
      AddedGives(m, id, added, p.questions[k].id, Spoken(p, earlier, k));
    }
  }

  /** Whatever options of a shrunk request a client picks, in whatever answers, the app-server gets for each
      question the full original labels and the free-form texts, in the order they were given. */
  lemma {:induction false} PickedOptionsAnswer(encode: Text -> Text, p: NativeRequest, shown: Pending, picks: seq<Pick>)
    requires Shows(shown, p, encode) && CanPickAll(p, picks)
    ensures var sent := Collect(encode, p, AnswersOf(encode, p, shown, picks));
      sent.Some? && Tells(p, picks, sent.value)
  {
    if picks != [] {
      var earlier, last := picks[..|picks| - 1], picks[|picks| - 1];
      PickedOptionsAnswer(encode, p, shown, earlier);
      AnswerResolves(encode, p, shown, last);
      var answers := AnswersOf(encode, p, shown, picks);
      assert answers[..|answers| - 1] == AnswersOf(encode, p, shown, earlier);
      TellsOneMore(p, picks, Collect(encode, p, answers[..|answers| - 1]).value);
    }
  }
}
