/** Whole messages under the frame budget: boundCanonicalEvent (internal/codex/budget.go) and
    boundCurrentView (internal/codex/manager.go), for any size function. */
module FrameBudget {
  import opened Common
  import opened Utf8
  import opened Budget
  import opened Shrink

  const SCOPE := "codex_remote_budget_scope"

  // --------------------------------------------------------- warnings and codex

  function CutValues(m: map<string, Text>, per: int): map<string, Text> {
    map k | k in m :: Cut(m[k], per)
  }

  function BoundWarning(z: Sizes, w: Warning, budget: nat): (Warning, Option<Completeness>) {
    if z.warning(w) <= budget then (w, None)
    else
      var w1 := w.(message := Cut(w.message, Max(budget / 3, 1)),
        metadata := CutValues(w.metadata, Max(budget / 8, 1)));
      (if z.warning(w1) > budget then w1.(metadata := map[]) else w1,
       Some(BudgetCompleteness(z.warning(w), "warning exceeds C/S frame budget")))
  }

  function BoundFailure(z: Sizes, f: Failure, budget: nat): (Failure, Option<Completeness>) {
    if z.failure(f) <= budget then (f, None)
    else (f.(message := Cut(f.message, Max(budget / 3, 1)), metadata := CutValues(f.metadata, Max(budget / 8, 1))),
          Some(BudgetCompleteness(z.failure(f), "turn failure exceeds C/S frame budget")))
  }

  function BoundWarnings(z: Sizes, ws: seq<Warning>, budget: nat): seq<Warning> {
    seq(|ws|, i requires 0 <= i < |ws| => BoundWarning(z, ws[i], budget).0)
  }

  function BoundCodex(z: Sizes, c: Codex, budget: nat): (Codex, Option<Completeness>) {
    if z.codex(c) <= budget then (c, None)
    else
      var c1 := c.(warnings := BoundWarnings(z, c.warnings, Max(budget / 4, 1)));
      var c2 := if z.codex(c1) > budget then c1.(warnings := []) else c1;
      (c2.(title := Cut(c2.title, Max(budget / 8, 1))),
       Some(BudgetCompleteness(z.codex(c), "codex presentation fields exceed C/S frame budget")))
  }

  predicate ValuesWithin(a: map<string, Text>, b: map<string, Text>) {
    forall k :: k in a ==> k in b && a[k] <= b[k]
  }

  predicate WarningWithin(a: Warning, b: Warning) {
    a.code == b.code && a.message <= b.message && ValuesWithin(a.metadata, b.metadata)
  }

  predicate FailureWithin(a: Failure, b: Failure) {
    a.code == b.code && a.message <= b.message && ValuesWithin(a.metadata, b.metadata) &&
      a.metadata.Keys == b.metadata.Keys
  }

  predicate CodexWithin(a: Codex, b: Codex) {
    && a.id == b.id && a.title <= b.title
    && (a.warnings == [] ||
        (|a.warnings| == |b.warnings| &&
         forall i :: 0 <= i < |a.warnings| ==> WarningWithin(a.warnings[i], b.warnings[i])))
  }

  lemma CutValuesWithin(m: map<string, Text>, per: int)
    ensures ValuesWithin(CutValues(m, per), m)
  {
    forall k | k in m ensures CutValues(m, per)[k] <= m[k] {
      Cuts(m[k], per);
    }
  }

  lemma BoundWarningKeeps(z: Sizes, w: Warning, budget: nat)
    ensures var (w', complete) := BoundWarning(z, w, budget);
      WarningWithin(w', w) && (complete.None? ==> w' == w) && (complete.Some? ==> Flagged(complete))
  {
    Cuts(w.message, Max(budget / 3, 1));
    CutValuesWithin(w.metadata, Max(budget / 8, 1));
  }

  lemma BoundFailureKeeps(z: Sizes, f: Failure, budget: nat)
    ensures var (f', complete) := BoundFailure(z, f, budget);
      FailureWithin(f', f) && (complete.None? ==> f' == f) && (complete.Some? ==> Flagged(complete))
  {
    Cuts(f.message, Max(budget / 3, 1));
    CutValuesWithin(f.metadata, Max(budget / 8, 1));
  }

  lemma BoundCodexKeeps(z: Sizes, c: Codex, budget: nat)
    ensures var (c', complete) := BoundCodex(z, c, budget);
      CodexWithin(c', c) && (complete.None? ==> c' == c) && (complete.Some? ==> Flagged(complete))
  {
    Cuts(c.title, Max(budget / 8, 1));
    forall i | 0 <= i < |c.warnings|
      ensures WarningWithin(BoundWarning(z, c.warnings[i], Max(budget / 4, 1)).0, c.warnings[i])
    {
      BoundWarningKeeps(z, c.warnings[i], Max(budget / 4, 1));
    }
  }

  // --------------------------------------------------------------------- events

  function BoundPayload(z: Sizes, p: Payload, target: nat): (Payload, Option<Completeness>) {
    match p
    case ItemChanged(stage, item) => var (i, c) := BoundItem(z, item, target); (ItemChanged(stage, i), c)
    case OutputDelta(id, text) =>
      (OutputDelta(id, Cut(text, Max(target / 2, 1))), DeltaCompleteness(text, Max(target / 2, 1)))
    case TextDelta(id, text) =>
      (TextDelta(id, Cut(text, Max(target / 2, 1))), DeltaCompleteness(text, Max(target / 2, 1)))
    case PendingUpdated(request) => var (r, c) := BoundPending(z, request, target); (PendingUpdated(r), c)
    case WarningRaised(warning) => var (w, c) := BoundWarning(z, warning, target); (WarningRaised(w), c)
    case TurnUpdated(id, failure) =>
      if failure.None? then (p, None)
      else var (f, c) := BoundFailure(z, failure.value, target); (TurnUpdated(id, Some(f)), c)
    case CodexUpdated(codex) => var (x, c) := BoundCodex(z, codex, target); (CodexUpdated(x), c)
    case OtherEvent => (p, None)
  }

  function DeltaCompleteness(text: Text, budget: int): Option<Completeness> {
    if BoundString(text, budget).1 then Some(BudgetCompleteness(|text|, "content exceeds C/S frame budget")) else None
  }

  /** The kinds of payload the second, strict pass looks at. */
  predicate HasStrictPass(p: Payload) {
    p.ItemChanged? || p.PendingUpdated? || p.WarningRaised?
  }

  /** The strict pass, for the kinds that have one and still do not fit. */
  function StrictPass(z: Sizes, e: Event, p: Payload, c: Option<Completeness>, budget: nat)
    : (Payload, Option<Completeness>)
  {
    if z.event(e.(payload := p)) > budget && HasStrictPass(p)
    then var (p', c') := BoundPayload(z, p, Max(budget / 4, 1)); (p', Merge(c, c'))
    else (p, c)
  }

  /** Both passes over the payload of an event that does not fit. */
  function CutPayload(z: Sizes, e: Event, budget: nat): (Payload, Option<Completeness>) {
    var (p, c) := BoundPayload(z, e.payload, Max(budget - 512, budget / 2));
    StrictPass(z, e, p, c, budget)
  }

  function BoundEvent(z: Sizes, e: Event, budget: nat): Event {
    if z.event(e) <= budget then e
    else
      var (p, c) := CutPayload(z, e, budget);
      var complete := Merge(c, Some(BudgetCompleteness(z.event(e), "canonical event exceeds C/S frame budget")));
      var e1 := e.(payload := p, completeness := Merge(e.completeness, complete));
      if z.event(e1) > budget then e1.(completeness := WithReason(e1.completeness, "frame budget")) else e1
  }

  /** Same kind of event about the same things; every text a prefix. */
  predicate PayloadWithin(a: Payload, b: Payload) {
    match b
    case ItemChanged(stage, item) => a.ItemChanged? && a.stage == stage && ItemWithin(a.item, item)
    case OutputDelta(id, text) => a.OutputDelta? && a.itemId == id && a.text <= text
    case TextDelta(id, text) => a.TextDelta? && a.itemId == id && a.text <= text
    case PendingUpdated(request) => a.PendingUpdated? && PendingWithin(a.request, request)
    case WarningRaised(warning) => a.WarningRaised? && WarningWithin(a.warning, warning)
    case TurnUpdated(id, failure) =>
      a.TurnUpdated? && a.turnId == id && a.failure.Some? == failure.Some? &&
        (failure.Some? ==> FailureWithin(a.failure.value, failure.value))
    case CodexUpdated(codex) => a.CodexUpdated? && CodexWithin(a.codex, codex)
    case OtherEvent => a.OtherEvent?
  }

  lemma BoundPayloadKeeps(z: Sizes, p: Payload, target: nat)
    ensures PayloadWithin(BoundPayload(z, p, target).0, p)
  {
    match p
    case ItemChanged(_, item) => BoundItemKeeps(z, item, target);
    case OutputDelta(_, text) => Cuts(text, Max(target / 2, 1));
    case TextDelta(_, text) => Cuts(text, Max(target / 2, 1));
    case PendingUpdated(request) => BoundPendingKeeps(z, request, target);
    case WarningRaised(warning) => BoundWarningKeeps(z, warning, target);
    case TurnUpdated(_, failure) =>
      if failure.Some? {
        BoundFailureKeeps(z, failure.value, target);
      }
    case CodexUpdated(codex) => BoundCodexKeeps(z, codex, target);
    case OtherEvent =>
  }

  lemma StrictTransitive(a: Payload, b: Payload, c: Payload)
    requires PayloadWithin(a, b) && PayloadWithin(b, c) && HasStrictPass(b)
    ensures PayloadWithin(a, c)
  {
    if b.PendingUpdated? {
      PendingTransitive(a.request, b.request, c.request);
    } else if b.ItemChanged? {
      ContentTransitive(a.item.content, b.item.content, c.item.content);
    }
  }

  lemma StrictPassKeeps(z: Sizes, e: Event, p: Payload, c: Option<Completeness>, budget: nat, original: Payload)
    requires PayloadWithin(p, original)
    ensures PayloadWithin(StrictPass(z, e, p, c, budget).0, original)
  {
    if HasStrictPass(p) {
      BoundPayloadKeeps(z, p, Max(budget / 4, 1));
      StrictTransitive(BoundPayload(z, p, Max(budget / 4, 1)).0, p, original);
    }
  }

  lemma CutPayloadKeeps(z: Sizes, e: Event, budget: nat)
    ensures PayloadWithin(CutPayload(z, e, budget).0, e.payload)
  {
    var (p, c) := BoundPayload(z, e.payload, Max(budget - 512, budget / 2));
    BoundPayloadKeeps(z, e.payload, Max(budget - 512, budget / 2));
    StrictPassKeeps(z, e, p, c, budget, e.payload);
  }

  /** However small the budget and whatever the size function, a bounded event is about the same
      things, loses nothing but the tails of texts and lists, and is flagged if it was touched. */
  lemma EventIsBoundedOpenly(z: Sizes, e: Event, budget: nat)
    ensures var e' := BoundEvent(z, e, budget);
      && e'.seqNo == e.seqNo && (e' != e ==> PayloadWithin(e'.payload, e.payload))
      && (e' != e ==> Flagged(e'.completeness))
      && (e' != e ==> z.event(e) > budget)
  {
    CutPayloadKeeps(z, e, budget);
  }

  // ---------------------------------------------------------------------- views

  predicate IsBudgetWarning(w: Warning) {
    SCOPE in w.metadata && w.metadata[SCOPE] != []
  }

  predicate HasScope(w: Warning, scope: Text) {
    SCOPE in w.metadata && w.metadata[SCOPE] == scope
  }

  function AddBudgetWarning(c: Codex, scope: Text, warning: Warning): Codex {
    if exists i :: 0 <= i < |c.warnings| && HasScope(c.warnings[i], scope) then c
    else c.(warnings := c.warnings + [warning])
  }

  function BudgetWarningsOf(ws: seq<Warning>): seq<Warning> {
    if ws == [] then []
    else BudgetWarningsOf(ws[..|ws| - 1]) + if IsBudgetWarning(ws[|ws| - 1]) then [ws[|ws| - 1]] else []
  }

  function DropLastBudgetWarning(ws: seq<Warning>): seq<Warning> {
    if ws == [] then []
    else if IsBudgetWarning(ws[|ws| - 1]) then ws[..|ws| - 1]
    else DropLastBudgetWarning(ws[..|ws| - 1]) + [ws[|ws| - 1]]
  }

  /** The loop over the items of the active turn. */
  function BoundItems(z: Sizes, items: seq<MessageItem>, budget: nat, c: Option<Completeness>)
    : (seq<MessageItem>, Option<Completeness>)
  {
    if items == [] then ([], c)
    else
      var (done, c1) := BoundItems(z, items[..|items| - 1], budget, c);
      var (item, complete) := BoundItem(z, items[|items| - 1], budget);
      (done + [item], Merge(c1, complete))
  }

  /** The loops over the pending requests. */
  function BoundAll(z: Sizes, ps: seq<Pending>, budget: nat, minimize: bool, c: Option<Completeness>)
    : (seq<Pending>, Option<Completeness>)
  {
    if ps == [] then ([], c)
    else
      var (done, c1) := BoundAll(z, ps[..|ps| - 1], budget, minimize, c);
      var (p, complete) := BoundPending(z, ps[|ps| - 1], budget);
      (done + [if minimize then MinimizePending(p) else p], Merge(c1, complete))
  }

  lemma BoundItemsStep(z: Sizes, items: seq<MessageItem>, i: nat, budget: nat, c: Option<Completeness>)
    requires i < |items|
    ensures var (done, c1) := BoundItems(z, items[..i], budget, c);
      var (item, complete) := BoundItem(z, items[i], budget);
      BoundItems(z, items[..i + 1], budget, c) == (done + [item], Merge(c1, complete))
  {
    assert items[..i + 1][..i] == items[..i];
  }

  lemma BoundAllStep(z: Sizes, ps: seq<Pending>, i: nat, budget: nat, minimize: bool, c: Option<Completeness>)
    requires i < |ps|
    ensures var (done, c1) := BoundAll(z, ps[..i], budget, minimize, c);
      var (p, complete) := BoundPending(z, ps[i], budget);
      BoundAll(z, ps[..i + 1], budget, minimize, c) ==
        (done + [if minimize then MinimizePending(p) else p], Merge(c1, complete))
  {
    assert ps[..i + 1][..i] == ps[..i];
  }

  function MinimizeItems(items: seq<MessageItem>): seq<MessageItem> {
    seq(|items|, i requires 0 <= i < |items| => MinimizeItem(items[i]))
  }

  function ItemBudget(v: View, budget: nat): nat {
    var n := (if v.turn.Some? then |v.turn.value.items| else 0) + |v.pending|;
    Max(budget / Max(n, 1) - 256, 1)
  }

  function PendingBudget(v: View, budget: nat): nat {
    Max(budget / Max(|v.pending|, 1) - 256, 1)
  }

  function MarkView(z: Sizes, v: View, warning: Warning): View {
    var complete := BudgetCompleteness(z.view(v), "current view collection exceeds C/S frame budget");
    v.(completeness := Merge(v.completeness, Some(complete)),
       codex := if v.codex.None? then None else Some(AddBudgetWarning(v.codex.value, CURRENT_VIEW, warning)))
  }

  const CURRENT_VIEW: Text := [0x63, 0x75, 0x72, 0x72, 0x65, 0x6E, 0x74, 0x5F, 0x76, 0x69, 0x65, 0x77]

  function BoundTurn(z: Sizes, v: View, budget: nat): View {
    if v.turn.None? then v
    else
      var (items, c) := BoundItems(z, v.turn.value.items, ItemBudget(v, budget), v.turn.value.completeness);
      v.(turn := Some(v.turn.value.(items := items, completeness := c)))
  }

  function BoundRequests(z: Sizes, v: View, budget: nat, minimize: bool): View {
    var (ps, c) := BoundAll(z, v.pending, budget, minimize, v.completeness);
    v.(pending := ps, completeness := c)
  }

  function TrimWarnings(z: Sizes, v: View, budget: nat): View {
    if v.codex.None? || z.view(v) <= budget then v
    else v.(codex := Some(v.codex.value.(warnings := BudgetWarningsOf(v.codex.value.warnings))))
  }

  function TrimTitle(z: Sizes, v: View, budget: nat): View {
    if v.codex.None? || z.view(v) <= budget then v
    else v.(codex := Some(v.codex.value.(title := Cut(v.codex.value.title, Max(budget / 8, 1)))))
  }

  function Minimize(z: Sizes, v: View, budget: nat, pendingBudget: nat, original: nat): View {
    if z.view(v) <= budget then v
    else
      var v1 := BoundRequests(z, v, Max(pendingBudget / 2, 1), true);
      if v.turn.None? then v1
      else
        var complete := Merge(v.turn.value.completeness, Some(BudgetCompleteness(original, "frame budget")));
        v1.(turn := Some(v.turn.value.(items := MinimizeItems(v.turn.value.items), completeness := complete)))
  }

  function LastResort(z: Sizes, v: View, budget: nat): View {
    var v1 := if v.codex.None? || z.view(v) <= budget then v
              else v.(codex := Some(v.codex.value.(warnings := DropLastBudgetWarning(v.codex.value.warnings))));
    if z.view(v1) <= budget then v1 else v1.(completeness := WithReason(v1.completeness, "frame budget"))
  }

  function FirstPass(z: Sizes, v: View, budget: nat, warning: Warning): View {
    BoundRequests(z, BoundTurn(z, MarkView(z, v, warning), budget), PendingBudget(v, budget), false)
  }

  /** boundCurrentView; `warning` is the budget warning it adds. */
  function BoundView(z: Sizes, v: View, budget: nat, warning: Warning): View {
    if z.view(v) <= budget then v
    else
      var v2 := FirstPass(z, v, budget, warning);
      var v3 := TrimTitle(z, TrimWarnings(z, v2, budget), budget);
      LastResort(z, Minimize(z, v3, budget, PendingBudget(v, budget), z.view(v)), budget)
  }

  /** What the last pass finds is still too large, so items and requests are minimised. */
  predicate ComesToMinimizing(z: Sizes, v: View, budget: nat, warning: Warning) {
    z.view(TrimTitle(z, TrimWarnings(z, FirstPass(z, v, budget, warning), budget), budget)) > budget
  }

  predicate ItemsWithin(a: seq<MessageItem>, b: seq<MessageItem>) {
    |a| == |b| && forall i :: 0 <= i < |a| ==> ItemWithin(a[i], b[i])
  }

  /** An item that differs from the original says so. */
  predicate ItemsOpen(a: seq<MessageItem>, b: seq<MessageItem>) {
    |a| == |b| && forall i :: 0 <= i < |a| ==> a[i] == b[i] || Flagged(a[i].completeness)
  }

  predicate RequestsWithin(a: seq<Pending>, b: seq<Pending>) {
    |a| == |b| && forall i :: 0 <= i < |a| ==> PendingWithin(a[i], b[i])
  }

  predicate TurnWithin(a: Option<Turn>, b: Option<Turn>) {
    && a.Some? == b.Some?
    && (b.Some? ==>
          && a.value.id == b.value.id && ItemsWithin(a.value.items, b.value.items)
          && ItemsOpen(a.value.items, b.value.items)
          && (a.value.items != b.value.items ==> Flagged(a.value.completeness)))
  }

  predicate HeadWithin(a: Option<Codex>, b: Option<Codex>) {
    a.Some? == b.Some? && (b.Some? ==> a.value.id == b.value.id && a.value.title <= b.value.title)
  }

  /** All items and requests are there, under their identities; what shrank says so. */
  predicate ViewWithin(a: View, b: View) {
    HeadWithin(a.codex, b.codex) && TurnWithin(a.turn, b.turn) && RequestsWithin(a.pending, b.pending)
  }

  /** What bounding a list of items keeps: `c` becomes the completeness of the turn. */
  predicate ItemsKept(a: seq<MessageItem>, b: seq<MessageItem>, c: Option<Completeness>) {
    ItemsWithin(a, b) && ItemsOpen(a, b) && (a != b ==> Flagged(c))
  }

  lemma OneMoreItem(a: seq<MessageItem>, b: seq<MessageItem>, x: MessageItem, y: MessageItem, c: Option<Completeness>,
        complete: Option<Completeness>)
    requires ItemsKept(a, b, c) && ItemWithin(x, y)
    requires if complete.Some? then Flagged(complete) && Flagged(x.completeness) else x == y
    ensures ItemsKept(a + [x], b + [y], Merge(c, complete))
  {
  }

  lemma {:induction false} BoundItemsKeep(z: Sizes, items: seq<MessageItem>, budget: nat, c: Option<Completeness>)
    ensures var (items', c') := BoundItems(z, items, budget, c);
      ItemsKept(items', items, c') && (Flagged(c) ==> Flagged(c'))
  {
    if items != [] {
      var earlier, last := items[..|items| - 1], items[|items| - 1];
      var (done, c1) := BoundItems(z, earlier, budget, c);
      var (item, complete) := BoundItem(z, last, budget);
      BoundItemsKeep(z, earlier, budget, c);
      BoundItemKeeps(z, last, budget);
      OneMoreItem(done, earlier, item, last, c1, complete);
      assert items == earlier + [last];
    }
  }

  lemma OneMoreRequest(a: seq<Pending>, b: seq<Pending>, x: Pending, y: Pending)
    requires RequestsWithin(a, b) && PendingWithin(x, y)
    ensures RequestsWithin(a + [x], b + [y])
  {
  }

  lemma ShrunkRequestWithin(z: Sizes, p: Pending, budget: nat, minimize: bool)
    ensures var p1 := BoundPending(z, p, budget).0; PendingWithin(if minimize then MinimizePending(p1) else p1, p)
  {
    var p1 := BoundPending(z, p, budget).0;
    BoundPendingKeeps(z, p, budget);
    MinimizePendingKeeps(p1);
    PendingTransitive(MinimizePending(p1), p1, p);
  }

  lemma {:induction false} BoundAllKeep(z: Sizes, ps: seq<Pending>, budget: nat, minimize: bool,
        c: Option<Completeness>)
    ensures var (ps', c') := BoundAll(z, ps, budget, minimize, c);
      RequestsWithin(ps', ps) && (Flagged(c) ==> Flagged(c'))
  {
    if ps != [] {
      var earlier, p := ps[..|ps| - 1], ps[|ps| - 1];
      var p1 := BoundPending(z, p, budget).0;
      BoundAllKeep(z, earlier, budget, minimize, c);
      ShrunkRequestWithin(z, p, budget, minimize);
      var shrunk := if minimize then MinimizePending(p1) else p1;
      OneMoreRequest(BoundAll(z, earlier, budget, minimize, c).0, earlier, shrunk, p);
      assert ps == earlier + [p];
    }
  }

  lemma RequestsTransitive(a: seq<Pending>, b: seq<Pending>, c: seq<Pending>)
    requires RequestsWithin(a, b) && RequestsWithin(b, c)
    ensures RequestsWithin(a, c)
  {
    forall i | 0 <= i < |a| ensures PendingWithin(a[i], c[i]) {
      PendingTransitive(a[i], b[i], c[i]);
    }
  }

  lemma MinimizeItemsKeep(items: seq<MessageItem>, b: seq<MessageItem>)
    requires ItemsWithin(items, b)
    ensures ItemsWithin(MinimizeItems(items), b) && ItemsOpen(MinimizeItems(items), b)
  {
    forall i | 0 <= i < |items|
      ensures ItemWithin(MinimizeItems(items)[i], b[i]) && Flagged(MinimizeItems(items)[i].completeness)
    {
      MinimizeItemKeeps(items[i]);
      ContentTransitive(MinimizeItem(items[i]).content, items[i].content, b[i].content);
    }
  }

  lemma BoundTurnKeeps(z: Sizes, v: View, budget: nat)
    ensures TurnWithin(BoundTurn(z, v, budget).turn, v.turn)
  {
    if v.turn.Some? {
      BoundItemsKeep(z, v.turn.value.items, ItemBudget(v, budget), v.turn.value.completeness);
    }
  }

  lemma TrimTitleKeeps(z: Sizes, v: View, budget: nat)
    ensures HeadWithin(TrimTitle(z, TrimWarnings(z, v, budget), budget).codex, v.codex)
  {
    if v.codex.Some? {
      Cuts(v.codex.value.title, Max(budget / 8, 1));
    }
  }

  lemma MinimizeKeeps(z: Sizes, v: View, budget: nat, pendingBudget: nat, original: nat, b: View)
    requires ViewWithin(v, b) && Flagged(v.completeness)
    ensures var v' := Minimize(z, v, budget, pendingBudget, original); ViewWithin(v', b) && Flagged(v'.completeness)
  {
    if z.view(v) > budget {
      BoundAllKeep(z, v.pending, Max(pendingBudget / 2, 1), true, v.completeness);
      RequestsTransitive(BoundRequests(z, v, Max(pendingBudget / 2, 1), true).pending, v.pending, b.pending);
      if v.turn.Some? {
        MinimizeItemsKeep(v.turn.value.items, b.turn.value.items);
      }
    }
  }

  lemma FirstPassKeeps(z: Sizes, v: View, budget: nat, warning: Warning)
    ensures var v2 := FirstPass(z, v, budget, warning); ViewWithin(v2, v) && Flagged(v2.completeness)
  {
    var v0 := MarkView(z, v, warning);
    var v1 := BoundTurn(z, v0, budget);
    BoundTurnKeeps(z, v0, budget);
    BoundAllKeep(z, v.pending, PendingBudget(v, budget), false, v1.completeness);
  }

  lemma SameRequestsWithin(ps: seq<Pending>)
    ensures RequestsWithin(ps, ps)
  {
    forall i | 0 <= i < |ps| ensures PendingWithin(ps[i], ps[i]) {
      SamePendingWithin(ps[i]);
    }
  }

  lemma LastResortKeeps(z: Sizes, v: View, budget: nat, b: View)
    requires ViewWithin(v, b) && Flagged(v.completeness)
    ensures var v' := LastResort(z, v, budget); ViewWithin(v', b) && Flagged(v'.completeness)
  {
  }

  lemma TrimKeeps(z: Sizes, v: View, budget: nat, b: View)
    requires ViewWithin(v, b) && Flagged(v.completeness)
    ensures var v' := TrimTitle(z, TrimWarnings(z, v, budget), budget); ViewWithin(v', b) && Flagged(v'.completeness)
  {
    TrimTitleKeeps(z, v, budget);
  }

  /** However small the budget and whatever the size function, a bounded view has every item and
      every request of the original under its identity, with every question, option and decision,
      and all that shrank is flagged: the view, the turn, and each item. */
  lemma ViewIsBoundedOpenly(z: Sizes, v: View, budget: nat, warning: Warning)
    ensures var v' := BoundView(z, v, budget, warning);
      && RequestsWithin(v'.pending, v.pending)
      && (v' != v ==> ViewWithin(v', v) && Flagged(v'.completeness) && z.view(v) > budget)
  {
    if z.view(v) <= budget {
      SameRequestsWithin(v.pending);
    } else {
      var v2 := FirstPass(z, v, budget, warning);
      FirstPassKeeps(z, v, budget, warning);
      TrimKeeps(z, v2, budget, v);
      var v3 := TrimTitle(z, TrimWarnings(z, v2, budget), budget);
      MinimizeKeeps(z, v3, budget, PendingBudget(v, budget), z.view(v), v);
      LastResortKeeps(z, Minimize(z, v3, budget, PendingBudget(v, budget), z.view(v)), budget, v);
    }
  }
}
