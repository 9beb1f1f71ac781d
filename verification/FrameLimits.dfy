/** How far messages are shrunk: a bounded message fits, or all that may go has gone. */
module FrameLimits {
  import opened Common
  import opened Utf8
  import opened Budget
  import opened Shrink
  import opened FrameBudget

  /** The payload fits its target, or nothing is left that bounding to it would remove. */
  predicate PayloadLeast(z: Sizes, p: Payload, target: nat) {
    match p
    case ItemChanged(_, item) => z.item(item) <= target || ContentLeast(item.content, Max(target / 8, 1))
    case OutputDelta(_, text) => |text| <= Max(target / 2, 1)
    case TextDelta(_, text) => |text| <= Max(target / 2, 1)
    case PendingUpdated(request) => z.pending(request) <= target || PendingLeast(request, Max(target / 16, 1))
    case WarningRaised(w) => z.warning(w) <= target || (w.metadata == map[] && |w.message| <= Max(target / 3, 1))
    case TurnUpdated(_, failure) =>
      failure.Some? ==> z.failure(failure.value) <= target || |failure.value.message| <= Max(target / 3, 1)
    case CodexUpdated(c) => z.codex(c) <= target || |c.title| <= Max(target / 8, 1)
    case OtherEvent => true
  }

  lemma BoundWarningLeast(z: Sizes, w: Warning, target: nat)
    ensures PayloadLeast(z, WarningRaised(BoundWarning(z, w, target).0), target)
  {
    CutLength(w.message, Max(target / 3, 1));
  }

  lemma BoundPayloadLeast(z: Sizes, p: Payload, target: nat)
    ensures PayloadLeast(z, BoundPayload(z, p, target).0, target)
  {
    match p
    case ItemChanged(_, item) => BoundItemFitsOrLeast(z, item, target);
    case OutputDelta(_, text) => CutLength(text, Max(target / 2, 1));
    case TextDelta(_, text) => CutLength(text, Max(target / 2, 1));
    case PendingUpdated(request) => BoundPendingFitsOrLeast(z, request, target);
    case WarningRaised(w) => BoundWarningLeast(z, w, target);
    case TurnUpdated(_, failure) =>
      if failure.Some? {
        CutLength(failure.value.message, Max(target / 3, 1));
      }
    case CodexUpdated(c) => CutLength(c.title, Max(target / 8, 1));
    case OtherEvent =>
  }

  lemma CutPayloadLeast(z: Sizes, e: Event, budget: nat)
    ensures var p := CutPayload(z, e, budget).0;
      && (PayloadLeast(z, p, Max(budget - 512, budget / 2)) || PayloadLeast(z, p, Max(budget / 4, 1)))
      && (z.event(e.(payload := p)) <= budget || !HasStrictPass(p) || PayloadLeast(z, p, Max(budget / 4, 1)))
  {
    var p1 := BoundPayload(z, e.payload, Max(budget - 512, budget / 2)).0;
    BoundPayloadLeast(z, e.payload, Max(budget - 512, budget / 2));
    BoundPayloadLeast(z, p1, Max(budget / 4, 1));
  }

  /** An event that did not fit is cut to its target; if it still does not fit, the kinds that can
      be cut further are cut to a quarter of the budget. */
  lemma EventIsCutDown(z: Sizes, e: Event, budget: nat)
    requires z.event(e) > budget
    ensures var p := BoundEvent(z, e, budget).payload;
      && (PayloadLeast(z, p, Max(budget - 512, budget / 2)) || PayloadLeast(z, p, Max(budget / 4, 1)))
      && (z.event(e.(payload := p)) <= budget || !HasStrictPass(p) || PayloadLeast(z, p, Max(budget / 4, 1)))
  {
    CutPayloadLeast(z, e, budget);
  }

  /** The item has nothing left but its identity and kind. */
  predicate ItemLean(item: MessageItem) {
    MinimalContent(item.content) == item.content
  }

  predicate ItemsLean(items: seq<MessageItem>) {
    forall i :: 0 <= i < |items| ==> ItemLean(items[i])
  }

  predicate PendingLean(p: Pending) {
    match p
    case Approval(_, _, _, title, explanation, command, _) =>
      |title| <= 1 && |explanation| <= 1 && |command| <= 1 && forall i :: 0 <= i < |command| ==> |command[i]| <= 1
    case UserInput(_, _, _, questions, _, _) => BareQuestions(questions) == questions
    case NoRequest => true
  }

  predicate RequestsLean(ps: seq<Pending>) {
    forall i :: 0 <= i < |ps| ==> PendingLean(ps[i])
  }

  predicate WarningsLean(ws: seq<Warning>) {
    forall i :: 0 <= i < |ws| ==> IsBudgetWarning(ws[i])
  }

  predicate HeadLean(codex: Option<Codex>, budget: nat) {
    codex.Some? ==> |codex.value.title| <= Max(budget / 8, 1) && WarningsLean(codex.value.warnings)
  }

  predicate ViewLean(v: View, budget: nat) {
    (v.turn.Some? ==> ItemsLean(v.turn.value.items)) && RequestsLean(v.pending) && HeadLean(v.codex, budget)
  }

  lemma BareTwice(qs: seq<Question>)
    ensures BareQuestions(BareQuestions(qs)) == BareQuestions(qs)
  {
    var bare := BareQuestions(qs);
    forall i | 0 <= i < |bare| ensures BareQuestion(bare[i]) == bare[i] {
      assert BareQuestion(bare[i]).options == bare[i].options;
    }
  }

  lemma MinimizePendingLean(p: Pending)
    ensures PendingLean(MinimizePending(p))
  {
    forall t: Text ensures |Stub(t)| <= 1 {
      CutLength(t, 1);
    }
    if p.UserInput? {
      BareTwice(p.questions);
    }
  }

  lemma OneMoreLean(ps: seq<Pending>, p: Pending)
    requires RequestsLean(ps) && PendingLean(p)
    ensures RequestsLean(ps + [p])
  {
  }

  lemma {:induction false} BoundAllLean(z: Sizes, ps: seq<Pending>, budget: nat, c: Option<Completeness>)
    ensures RequestsLean(BoundAll(z, ps, budget, true, c).0)
  {
    if ps != [] {
      var p := MinimizePending(BoundPending(z, ps[|ps| - 1], budget).0);
      BoundAllLean(z, ps[..|ps| - 1], budget, c);
      MinimizePendingLean(BoundPending(z, ps[|ps| - 1], budget).0);
      OneMoreLean(BoundAll(z, ps[..|ps| - 1], budget, true, c).0, p);
    }
  }

  lemma MinimizeItemsLean(items: seq<MessageItem>)
    ensures ItemsLean(MinimizeItems(items))
  {
    forall i | 0 <= i < |items| ensures ItemLean(MinimizeItem(items[i])) {
      assert MinimalContent(MinimalContent(items[i].content)) == MinimalContent(items[i].content);
    }
  }

  lemma {:induction false} OnlyBudgetWarnings(ws: seq<Warning>)
    ensures WarningsLean(BudgetWarningsOf(ws))
  {
    if ws != [] {
      OnlyBudgetWarnings(ws[..|ws| - 1]);
    }
  }

  lemma DroppingKeepsBudgetWarnings(ws: seq<Warning>)
    requires WarningsLean(ws)
    ensures WarningsLean(DropLastBudgetWarning(ws))
  {
  }

  /** The head of a view that is still too large after the first pass. */
  lemma TrimmedHeadLean(z: Sizes, v: View, budget: nat)
    requires z.view(TrimTitle(z, TrimWarnings(z, v, budget), budget)) > budget
    ensures HeadLean(TrimTitle(z, TrimWarnings(z, v, budget), budget).codex, budget)
  {
    if v.codex.Some? {
      OnlyBudgetWarnings(v.codex.value.warnings);
      CutLength(v.codex.value.title, Max(budget / 8, 1));
    }
  }

  lemma MinimizedLean(z: Sizes, v: View, budget: nat, pendingBudget: nat, original: nat)
    requires z.view(v) > budget && HeadLean(v.codex, budget)
    ensures ViewLean(Minimize(z, v, budget, pendingBudget, original), budget)
  {
    BoundAllLean(z, v.pending, Max(pendingBudget / 2, 1), v.completeness);
    if v.turn.Some? {
      MinimizeItemsLean(v.turn.value.items);
    }
  }

  lemma LastResortLean(z: Sizes, v: View, budget: nat)
    requires ViewLean(v, budget)
    ensures ViewLean(LastResort(z, v, budget), budget)
  {
    if v.codex.Some? {
      DroppingKeepsBudgetWarnings(v.codex.value.warnings);
    }
  }

  /** A bounded view fits; or its items are down to identity and kind, its requests to what is needed
      to answer them, its title to its share, and no warning but the budget's own is left. */
  lemma ViewFitsOrIsLean(z: Sizes, v: View, budget: nat, warning: Warning)
    ensures var v' := BoundView(z, v, budget, warning); z.view(v') <= budget || ViewLean(v', budget)
  {
    if z.view(v) > budget {
      var v2 := FirstPass(z, v, budget, warning);
      var v3 := TrimTitle(z, TrimWarnings(z, v2, budget), budget);
      if z.view(v3) > budget {
        TrimmedHeadLean(z, v2, budget);
        MinimizedLean(z, v3, budget, PendingBudget(v, budget), z.view(v));
        LastResortLean(z, Minimize(z, v3, budget, PendingBudget(v, budget), z.view(v)), budget);
      }
    }
  }
}
