/** Items and pending requests in the CurrentView and in the event that announces them. Both hold the
    same message (upsertItem and upsertPending in internal/codex/manager.go), so what bounding the view
    cuts is also cut from the event that is then published. */
module SharedMessages {
  import opened Common
  import opened Utf8
  import opened Budget
  import opened Shrink
  import opened FrameBudget

  // -------------------------------------------------- a request through the view pass

  function SecondShare(v: View, budget: nat): nat {
    Max(PendingBudget(v, budget) / 2, 1)
  }

  /** What bounding the view makes of one of its requests. */
  function ViewRequest(z: Sizes, v: View, budget: nat, warning: Warning, p: Pending): Pending {
    if z.view(v) <= budget then p
    else
      var p1 := BoundPending(z, p, PendingBudget(v, budget)).0;
      if ComesToMinimizing(z, v, budget, warning)
      then MinimizePending(BoundPending(z, p1, SecondShare(v, budget)).0)
      else p1
  }

  lemma {:induction false} BoundAllAt(
      z: Sizes, ps: seq<Pending>, share: nat, minimize: bool, c: Option<Completeness>, n: nat)
    requires n < |ps|
    ensures var ps' := BoundAll(z, ps, share, minimize, c).0;
      var p := BoundPending(z, ps[n], share).0;
      |ps'| == |ps| && ps'[n] == if minimize then MinimizePending(p) else p
  {
    if |ps| > 1 {
      BoundAllAt(z, ps[..|ps| - 1], share, minimize, c, if n < |ps| - 1 then n else 0);
    }
  }

  lemma TrimKeepsPending(z: Sizes, v: View, budget: nat)
    ensures TrimTitle(z, TrimWarnings(z, v, budget), budget).pending == v.pending
  {
  }

  lemma MinimizePendingOf(z: Sizes, v: View, budget: nat, share: nat, original: nat)
    ensures LastResort(z, Minimize(z, v, budget, share, original), budget).pending ==
            if z.view(v) <= budget then v.pending
            else BoundAll(z, v.pending, Max(share / 2, 1), true, v.completeness).0
  {
  }

  lemma ViewRequestAt(z: Sizes, v: View, budget: nat, warning: Warning, n: nat)
    requires n < |v.pending|
    ensures var ps := BoundView(z, v, budget, warning).pending;
      |ps| == |v.pending| && ps[n] == ViewRequest(z, v, budget, warning, v.pending[n])
  {
    if z.view(v) > budget {
      var share := PendingBudget(v, budget);
      var v2 := FirstPass(z, v, budget, warning);
      var v3 := TrimTitle(z, TrimWarnings(z, v2, budget), budget);
      BoundAllAt(z, v.pending, share, false, BoundTurn(z, MarkView(z, v, warning), budget).completeness, n);
      TrimKeepsPending(z, v2, budget);
      MinimizePendingOf(z, v3, budget, share, z.view(v));
      if z.view(v3) > budget {
        BoundAllAt(z, v3.pending, Max(share / 2, 1), true, v3.completeness, n);
      }
    }
  }

  /** Over its share of the budget in a pass that the view goes through. */
  predicate OverItsShare(z: Sizes, v: View, budget: nat, warning: Warning, p: Pending) {
    && z.view(v) > budget
    && (z.pending(p) > PendingBudget(v, budget) ||
        (ComesToMinimizing(z, v, budget, warning) && z.pending(p) > SecondShare(v, budget)))
  }

  /** A user-input request in a bounded view carries its own flag exactly when it was flagged before or
      was over its share in one of the passes; otherwise only the view says that text was removed. */
  lemma RequestFlaggedIff(z: Sizes, v: View, budget: nat, warning: Warning, n: nat)
    requires n < |v.pending| && v.pending[n].UserInput?
    ensures var ps := BoundView(z, v, budget, warning).pending;
      && |ps| == |v.pending| && ps[n].UserInput?
      && (Flagged(ps[n].completeness) <==>
            Flagged(v.pending[n].completeness) || OverItsShare(z, v, budget, warning, v.pending[n]))
  {
    ViewRequestAt(z, v, budget, warning, n);
    if z.view(v) > budget {
      var p := v.pending[n];
      var p1 := BoundPending(z, p, PendingBudget(v, budget)).0;
      BoundPendingKeeps(z, p, PendingBudget(v, budget));
      BoundPendingKeeps(z, p1, SecondShare(v, budget));
      BoundedTwiceFlaggedIff(z, p, PendingBudget(v, budget), SecondShare(v, budget));
      MinimizePendingKeeps(BoundPending(z, p1, SecondShare(v, budget)).0);
    }
  }

  /** A second bounding adds a flag only to a request that the first left alone. */
  lemma BoundedTwiceFlaggedIff(z: Sizes, p: Pending, first: nat, second: nat)
    requires p.UserInput?
    ensures var p2 := BoundPending(z, BoundPending(z, p, first).0, second).0;
      p2.UserInput? && (Flagged(p2.completeness) <==>
        Flagged(p.completeness) || z.pending(p) > first || z.pending(p) > second)
  {
    var p1 := BoundPending(z, p, first).0;
    BoundPendingKeeps(z, p, first);
    BoundPendingKeeps(z, p1, second);
    if z.pending(p1) > second {
      BoundUserInputKeeps(z, p1, second, BoundPending(z, p1, second).1);
    }
  }

  // ---------------------------------------------------- what a pass takes from a request

  /** An approval that has more than one-byte texts and one argument. */
  predicate Reducible(p: Pending) {
    p.Approval? && (|p.title| > 1 || |p.explanation| > 1 || |p.command| > 1 || (|p.command| == 1 && |p.command[0]| > 1))
  }

  predicate HasWords(q: Question) {
    q.header != [] || q.prompt != [] || exists j :: 0 <= j < |q.options| && q.options[j].description != []
  }

  /** A user-input request with a header, a prompt or an option description. */
  predicate Wordy(p: Pending) {
    p.UserInput? && exists i :: 0 <= i < |p.questions| && HasWords(p.questions[i])
  }

  lemma StubChangesIff(t: Text)
    ensures Stub(t) != t <==> |t| > 1
    ensures |Stub(t)| <= 1
  {
    PrefixFacts(t, Min(|t|, 1));
  }

  lemma {:induction false} SearchStopsBelow<T>(values: seq<T>, low: nat, high: nat, fits: seq<T> -> bool)
    requires low < high <= |values| && !fits(values[..high])
    ensures Search(values, low, high, fits) < high
    decreases high - low
  {
    var mid := low + (high - low + 1) / 2;
    if fits(values[..mid]) {
      SearchStopsBelow(values, mid, high, fits);
    }
  }

  /** A list of two or more entries that does not fit loses some. */
  lemma FittingPrefixDrops<T>(values: seq<T>, fits: seq<T> -> bool)
    requires |values| > 1 && !fits(values)
    ensures |FittingPrefix(values, 1, fits)| < |values|
  {
    assert values[..|values|] == values;
    SearchStopsBelow(values, 1, |values|, fits);
  }

  lemma CutKeepsShort(ts: seq<Text>, per: nat)
    requires forall i :: 0 <= i < |ts| ==> |ts[i]| <= per
    requires per >= 1
    ensures CutTexts(ts, per) == ts
  {
  }

  /** No text of the approval is longer than its share. */
  predicate ShortTexts(p: Pending, per: nat)
    requires p.Approval?
  {
    |p.title| <= per && |p.explanation| <= per && forall i :: 0 <= i < |p.command| ==> |p.command[i]| <= per
  }

  lemma ShortApprovalChangesIff(z: Sizes, p: Pending, budget: nat)
    requires p.Approval? && z.pending(p) > budget && ShortTexts(p, Max(budget / 16, 1))
    ensures BoundApproval(z, p, budget) != p <==> Reducible(p)
  {
    CutKeepsShort(p.command, Max(budget / 16, 1));
    assert p.(title := p.title, explanation := p.explanation) == p && p.(command := p.command) == p;
    StubChangesIff(p.title);
    StubChangesIff(p.explanation);
    if |p.command| > 1 {
      FittingPrefixDrops(p.command, CommandFits(z, p, budget));
    } else if |p.command| == 1 {
      StubChangesIff(p.command[0]);
      assert FittingPrefix(p.command, 1, CommandFits(z, p, budget)) == p.command;
      assert StubFirst(p.command) == [Stub(p.command[0])];
    }
  }

  lemma LongApprovalChanges(z: Sizes, p: Pending, budget: nat)
    requires p.Approval? && z.pending(p) > budget && !ShortTexts(p, Max(budget / 16, 1))
    ensures BoundApproval(z, p, budget) != p && Reducible(p)
  {
    var per := Max(budget / 16, 1);
    var p' := BoundApproval(z, p, budget);
    CutLength(p.title, per);
    CutLength(p.explanation, per);
    StubChangesIff(Cut(p.title, per));
    StubChangesIff(Cut(p.explanation, per));
    var cut := CutTexts(p.command, per);
    var p1 := p.(title := Cut(p.title, per), explanation := Cut(p.explanation, per));
    var kept := FittingPrefix(cut, 1, CommandFits(z, p1, budget));
    if |p.title| <= per && |p.explanation| <= per {
      var i :| 0 <= i < |p.command| && |p.command[i]| > per;
      CutLength(p.command[i], per);
      assert |cut[i]| <= per;
      if i < |kept| {
        StubChangesIff(kept[i]);
        assert kept[i] == cut[i];
      }
    }
  }

  lemma BoundApprovalChangesIff(z: Sizes, p: Pending, budget: nat)
    requires p.Approval? && z.pending(p) > budget
    ensures BoundApproval(z, p, budget) != p <==> Reducible(p)
  {
    if ShortTexts(p, Max(budget / 16, 1)) {
      ShortApprovalChangesIff(z, p, budget);
    } else {
      LongApprovalChanges(z, p, budget);
    }
  }

  lemma MinimizeApproval(p: Pending)
    requires p.Approval?
    ensures MinimizePending(p).Approval? && !Reducible(MinimizePending(p))
    ensures !Reducible(p) ==> MinimizePending(p) == p
  {
    StubChangesIff(p.title);
    StubChangesIff(p.explanation);
    if p.command != [] {
      StubChangesIff(p.command[0]);
    }
  }

  lemma MinimizeInputChangesIff(p: Pending)
    requires p.UserInput?
    ensures MinimizePending(p) != p <==> Wordy(p)
  {
    forall i | 0 <= i < |p.questions|
      ensures BareQuestion(p.questions[i]) != p.questions[i] <==> HasWords(p.questions[i])
    {
      var q := p.questions[i];
      if HasWords(q) && q.header == [] && q.prompt == [] {
        var j :| 0 <= j < |q.options| && q.options[j].description != [];
        assert BareQuestion(q).options[j] != q.options[j];
      }
      if !HasWords(q) {
        assert BareQuestion(q).options == q.options;
      }
    }
    assert BareQuestions(p.questions) == p.questions <==>
      forall i :: 0 <= i < |p.questions| ==> BareQuestion(p.questions[i]) == p.questions[i];
  }

  lemma BoundRequestApproval(z: Sizes, p: Pending, budget: nat)
    requires p.Approval?
    ensures var p' := BoundPending(z, p, budget).0; p'.Approval? && (p' != p <==> z.pending(p) > budget && Reducible(p))
  {
    if z.pending(p) > budget {
      BoundApprovalChangesIff(z, p, budget);
    }
  }

  /** What is left of an approval differs from it exactly when the view did not fit, the approval was over
      its share or the view came to minimising, and there was anything to take. */
  lemma ApprovalCutIff(z: Sizes, v: View, budget: nat, warning: Warning, p: Pending)
    requires p.Approval?
    ensures ViewRequest(z, v, budget, warning, p) != p <==>
      && z.view(v) > budget && Reducible(p)
      && (z.pending(p) > PendingBudget(v, budget) || ComesToMinimizing(z, v, budget, warning))
  {
    var p1 := BoundPending(z, p, PendingBudget(v, budget)).0;
    BoundRequestApproval(z, p, PendingBudget(v, budget));
    BoundRequestApproval(z, p1, SecondShare(v, budget));
    MinimizeApproval(BoundPending(z, p1, SecondShare(v, budget)).0);
  }

  // ------------------------------------------------------- the event and the view

  datatype Published = Published(event: Event, view: View)

  /** The view takes over the completeness of the bounded event. */
  function Noted(v: View, complete: Option<Completeness>, warning: Warning): View {
    if complete.None? then v
    else v.(completeness := Merge(v.completeness, complete),
            codex := if v.codex.None? then None
                     else Some(AddBudgetWarning(v.codex.value, CANONICAL_EVENT, warning)))
  }

  /** What bounding the event leaves in the view that shares its request. */
  function Joined(v: View, n: nat, e: Event, warning: Warning): View
    requires n < |v.pending| && e.payload.PendingUpdated?
  {
    Noted(v.(pending := v.pending[n := e.payload.request]), e.completeness, warning)
  }

  const CANONICAL_EVENT: Text :=
    [0x63, 0x61, 0x6E, 0x6F, 0x6E, 0x69, 0x63, 0x61, 0x6C, 0x5F, 0x65, 0x76, 0x65, 0x6E, 0x74]

  /** The two budgets, and the warnings that going over them adds. */
  datatype Limits = Limits(event: nat, view: nat, eventWarning: Warning, viewWarning: Warning)

  /** Bounding the event, then the view that holds the same request. */
  function PublishRequest(z: Sizes, e: Event, v: View, n: nat, limits: Limits): Published
    requires n < |v.pending| && e.payload.PendingUpdated? && e.payload.request == v.pending[n]
  {
    BoundEventKeepsKind(z, e, limits.event);
    var e1 := BoundEvent(z, e, limits.event);
    var v1 := Joined(v, n, e1, limits.eventWarning);
    ViewRequestAt(z, v1, limits.view, limits.viewWarning, n);
    var v2 := BoundView(z, v1, limits.view, limits.viewWarning);
    Published(e1.(payload := PendingUpdated(v2.pending[n])), v2)
  }

  lemma BoundEventKeepsKind(z: Sizes, e: Event, budget: nat)
    ensures e.payload.PendingUpdated? ==> BoundEvent(z, e, budget).payload.PendingUpdated?
    ensures z.event(e) > budget ==> Flagged(BoundEvent(z, e, budget).completeness)
  {
  }

  /** The event says that something is missing: by its own flag or by the request's. */
  predicate Admits(e: Event) {
    || Flagged(e.completeness)
    || (e.payload.PendingUpdated? && e.payload.request.UserInput? && Flagged(e.payload.request.completeness))
  }

  /** The guards under which the view pass takes something from the request without flagging it: the view
      is over budget, and either it comes to minimising a user-input request within its share that has
      words to lose, or an approval, which cannot be flagged, is cut or minimised. */
  predicate CutInSilence(z: Sizes, v: View, budget: nat, warning: Warning, p: Pending) {
    && z.view(v) > budget
    && if p.UserInput?
       then ComesToMinimizing(z, v, budget, warning) && !OverItsShare(z, v, budget, warning, p) && Wordy(p)
       else && Reducible(p)
            && (z.pending(p) > PendingBudget(v, budget) || ComesToMinimizing(z, v, budget, warning))
  }

  lemma SilentIffUserInput(z: Sizes, v: View, budget: nat, warning: Warning, n: nat)
    requires n < |v.pending| && v.pending[n].UserInput? && !Flagged(v.pending[n].completeness)
    ensures var p := v.pending[n];
      var p' := ViewRequest(z, v, budget, warning, p);
      p'.UserInput? && (p' != p && !Flagged(p'.completeness) <==> CutInSilence(z, v, budget, warning, p))
  {
    ViewRequestAt(z, v, budget, warning, n);
    RequestFlaggedIff(z, v, budget, warning, n);
    MinimizeInputChangesIff(v.pending[n]);
  }

  /** An event that announces a request is published shrunk and without any flag exactly when it fitted
      its own budget, was not flagged before, and the view pass cuts the request in silence. */
  lemma ShrunkInSilenceIff(z: Sizes, e: Event, v: View, n: nat, limits: Limits)
    requires n < |v.pending| && e.payload.PendingUpdated? && e.payload.request == v.pending[n]
    ensures var out := PublishRequest(z, e, v, n, limits);
      // The event and the view tell the same of the request.
      && n < |out.view.pending| && out.event.payload == PendingUpdated(out.view.pending[n])
      && (out.event.payload != e.payload && !Admits(out.event) <==>
            && z.event(e) <= limits.event && !Admits(e)
            && (var joined := Joined(v, n, e, limits.eventWarning);
                CutInSilence(z, joined, limits.view, limits.viewWarning, e.payload.request)))
  {
    BoundEventKeepsKind(z, e, limits.event);
    ViewRequestAt(z, Joined(v, n, BoundEvent(z, e, limits.event), limits.eventWarning),
                  limits.view, limits.viewWarning, n);
    if z.event(e) <= limits.event {
      FittingEventIff(z, e, v, n, limits);
    }
  }

  lemma BoundPendingKind(z: Sizes, p: Pending, budget: nat)
    ensures BoundPending(z, p, budget).0.UserInput? == p.UserInput?
  {
  }

  lemma ViewRequestKind(z: Sizes, v: View, budget: nat, warning: Warning, p: Pending)
    ensures ViewRequest(z, v, budget, warning, p).UserInput? == p.UserInput?
  {
    BoundPendingKind(z, p, PendingBudget(v, budget));
    BoundPendingKind(z, BoundPending(z, p, PendingBudget(v, budget)).0, SecondShare(v, budget));
  }

  /** The request of an event that fitted, as the view pass leaves it. */
  lemma FittingRequestIff(z: Sizes, v: View, n: nat, budget: nat, warning: Warning)
    requires n < |v.pending|
    ensures var p := v.pending[n];
      var p' := ViewRequest(z, v, budget, warning, p);
      && p'.UserInput? == p.UserInput?
      && (p' != p && !(p'.UserInput? && Flagged(p'.completeness)) <==>
            !(p.UserInput? && Flagged(p.completeness)) && CutInSilence(z, v, budget, warning, p))
  {
    ViewRequestKind(z, v, budget, warning, v.pending[n]);
    if v.pending[n].UserInput? {
      if Flagged(v.pending[n].completeness) {
        ViewRequestAt(z, v, budget, warning, n);
        RequestFlaggedIff(z, v, budget, warning, n);
      } else {
        SilentIffUserInput(z, v, budget, warning, n);
      }
    } else if v.pending[n].Approval? {
      ApprovalCutIff(z, v, budget, warning, v.pending[n]);
    }
  }

  lemma FittingEventIff(z: Sizes, e: Event, v: View, n: nat, limits: Limits)
    requires n < |v.pending| && e.payload.PendingUpdated? && e.payload.request == v.pending[n]
    requires z.event(e) <= limits.event
    ensures var out := PublishRequest(z, e, v, n, limits).event;
      var joined := Joined(v, n, e, limits.eventWarning);
      out.payload != e.payload && !Admits(out) <==>
        !Admits(e) && CutInSilence(z, joined, limits.view, limits.viewWarning, e.payload.request)
  {
    var v1 := Joined(v, n, e, limits.eventWarning);
    ViewRequestAt(z, v1, limits.view, limits.viewWarning, n);
    FittingRequestIff(z, v1, n, limits.view, limits.viewWarning);
  }

  // --------------------------------------------------------------- two witnesses

  function SumOf<T>(xs: seq<T>, size: T -> nat): nat {
    if xs == [] then 0 else SumOf(xs[..|xs| - 1], size) + size(xs[|xs| - 1])
  }

  const ENVELOPE := 100

  /** The texts of a message and a fixed number of bytes for each message in it. */
  function ItemSize(m: MessageItem): nat {
    ENVELOPE + if m.content.AgentMessage? then |m.content.text| else 0
  }

  function RequestSize(p: Pending): nat {
    match p
    case Approval(_, _, _, title, explanation, command, _) =>
      ENVELOPE + |title| + |explanation| + SumOf(command, (t: Text) => |t|)
    case UserInput(_, _, _, questions, _, _) =>
      ENVELOPE + SumOf(questions, (q: Question) => |q.header| + |q.prompt|)
    case NoRequest => 0
  }

  function EventSize(e: Event): nat {
    match e.payload
    case ItemChanged(_, item) => ItemSize(item)
    case PendingUpdated(request) => RequestSize(request)
    case _ => 0
  }

  function ViewSize(v: View): nat {
    (if v.turn.Some? then SumOf(v.turn.value.items, ItemSize) else 0) + SumOf(v.pending, RequestSize)
  }

  const ADDITIVE := Sizes(ItemSize, RequestSize, (w: Warning) => |w.message|, (f: Failure) => |f.message|,
                          (c: Codex) => |c.title|, ViewSize, EventSize)

  lemma {:induction false} ItemsWeigh(items: seq<MessageItem>)
    ensures SumOf(items, ItemSize) >= ENVELOPE * |items|
  {
    if items != [] {
      ItemsWeigh(items[..|items| - 1]);
    }
  }

  const ASKED := UserInput([1], [2], [3], [Question([4], [0x41], [], false, false, [])], [], None)

  const EMPTY_WARNING := Warning(0, [], map[])

  /** A turn of ten agent messages and one small request. */
  const CROWDED :=
    View(None, Some(Turn([2], seq(10, _ => MessageItem([5], [2], 0, AgentMessage([]), None)), None)), [ASKED], None)

  /** So many items that their envelopes alone do not fit. */
  predicate Crowded(v: View, budget: nat) {
    v.turn.Some? && ENVELOPE * |v.turn.value.items| > budget
  }

  lemma CrowdedIsTooLarge(v: View, budget: nat)
    requires Crowded(v, budget)
    ensures ADDITIVE.view(v) > budget
  {
    ItemsWeigh(v.turn.value.items);
  }

  lemma TrimKeepsTurn(z: Sizes, v: View, budget: nat)
    ensures TrimTitle(z, TrimWarnings(z, v, budget), budget).turn == v.turn
  {
  }

  /** No shrinking of items helps, so the view comes to minimising. */
  lemma CrowdedIsMinimized(v: View, budget: nat, warning: Warning)
    requires Crowded(v, budget)
    ensures ADDITIVE.view(v) > budget && ComesToMinimizing(ADDITIVE, v, budget, warning)
  {
    var v2 := FirstPass(ADDITIVE, v, budget, warning);
    var v3 := TrimTitle(ADDITIVE, TrimWarnings(ADDITIVE, v2, budget), budget);
    FirstPassKeeps(ADDITIVE, v, budget, warning);
    TrimKeepsTurn(ADDITIVE, v2, budget);
    assert ItemsWithin(v2.turn.value.items, v.turn.value.items);
    CrowdedIsTooLarge(v, budget);
    CrowdedIsTooLarge(v3, budget);
  }

  lemma AskedIsSmall()
    ensures ADDITIVE.pending(ASKED) == ENVELOPE + 1
  {
    var size := (q: Question) => |q.header| + |q.prompt|;
    assert ASKED.questions[..0] == [] && SumOf(ASKED.questions[..0], size) == 0;
    assert SumOf(ASKED.questions, size) == 1;
  }

  /** A request that loses its header with no flag of its own: it fits its share, the view does not fit. */
  lemma SilentlyMinimized()
    ensures var ps := BoundView(ADDITIVE, CROWDED, 500, EMPTY_WARNING).pending;
      && |ps| == 1 && ps[0].UserInput? && ps[0].completeness.None?
      && |ps[0].questions| == 1 && ps[0].questions[0].header == []
  {
    CrowdedIsMinimized(CROWDED, 500, EMPTY_WARNING);
    AskedIsSmall();
    ViewRequestAt(ADDITIVE, CROWDED, 500, EMPTY_WARNING, 0);
  }

  lemma JoinedAsIs(v: View, n: nat, e: Event, warning: Warning)
    requires n < |v.pending| && e.payload == PendingUpdated(v.pending[n]) && e.completeness.None?
    ensures Joined(v, n, e, warning) == v
  {
    assert v.pending[n := v.pending[n]] == v.pending;
  }

  lemma ShrinksInSilence(z: Sizes, e: Event, v: View, n: nat, limits: Limits)
    requires n < |v.pending| && e.payload == PendingUpdated(v.pending[n]) && !Admits(e) && e.completeness.None?
    requires z.event(e) <= limits.event && CutInSilence(z, v, limits.view, limits.viewWarning, v.pending[n])
    ensures var out := PublishRequest(z, e, v, n, limits).event; out.payload != e.payload && !Admits(out)
  {
    JoinedAsIs(v, n, e, limits.eventWarning);
    ShrunkInSilenceIff(z, e, v, n, limits);
  }

  /** A small request with words, next to a crowded turn. */
  lemma CrowdedCutsInSilence(v: View, budget: nat, warning: Warning, p: Pending)
    requires Crowded(v, budget) && Wordy(p)
    requires RequestSize(p) <= PendingBudget(v, budget) && RequestSize(p) <= SecondShare(v, budget)
    ensures CutInSilence(ADDITIVE, v, budget, warning, p)
  {
    CrowdedIsMinimized(v, budget, warning);
  }

  /** An event that is published shrunk and without a flag. */
  lemma ShrunkInSilence()
    ensures var e := Event(7, PendingUpdated(ASKED), None);
      var out := PublishRequest(ADDITIVE, e, CROWDED, 0, Limits(500, 500, EMPTY_WARNING, EMPTY_WARNING)).event;
      out.payload != e.payload && !Admits(out)
  {
    AskedIsSmall();
    assert HasWords(ASKED.questions[0]);
    CrowdedCutsInSilence(CROWDED, 500, EMPTY_WARNING, ASKED);
    ShrinksInSilence(ADDITIVE, Event(7, PendingUpdated(ASKED), None), CROWDED, 0,
                     Limits(500, 500, EMPTY_WARNING, EMPTY_WARNING));
  }

  // --------------------------------------------------------------------- items

  /** Bounding the event, then the view whose active turn holds the same item. */
  function PublishItem(z: Sizes, e: Event, v: View, i: nat, limits: Limits): Published
    requires v.turn.Some? && i < |v.turn.value.items|
    requires e.payload.ItemChanged? && e.payload.item == v.turn.value.items[i]
  {
    BoundEventItem(z, e, limits.event);
    var e1 := BoundEvent(z, e, limits.event);
    var v1 := JoinedItem(v, i, e1, limits.eventWarning);
    var v2 := BoundView(z, v1, limits.view, limits.viewWarning);
    SharedItemAt(z, v1, limits.view, limits.viewWarning, i);
    Published(e1.(payload := e1.payload.(item := v2.turn.value.items[i])), v2)
  }

  function JoinedItem(v: View, i: nat, e: Event, warning: Warning): View
    requires v.turn.Some? && i < |v.turn.value.items| && e.payload.ItemChanged?
  {
    var turn := v.turn.value;
    Noted(v.(turn := Some(turn.(items := turn.items[i := e.payload.item]))), e.completeness, warning)
  }

  predicate OpenlyWithin(a: MessageItem, b: MessageItem) {
    ItemWithin(a, b) && (a == b || Flagged(a.completeness))
  }

  lemma OpenlyTransitive(a: MessageItem, b: MessageItem, c: MessageItem)
    requires OpenlyWithin(a, b) && OpenlyWithin(b, c)
    ensures OpenlyWithin(a, c)
  {
    ContentTransitive(a.content, b.content, c.content);
  }

  /** The same kind of event, about the item or what is left of it. */
  predicate ItemPayloadWithin(a: Payload, b: Payload) {
    a.ItemChanged? && b.ItemChanged? && a.stage == b.stage && OpenlyWithin(a.item, b.item)
  }

  lemma ItemPayloadTransitive(a: Payload, b: Payload, c: Payload)
    requires ItemPayloadWithin(a, b) && ItemPayloadWithin(b, c)
    ensures ItemPayloadWithin(a, c)
  {
    OpenlyTransitive(a.item, b.item, c.item);
  }

  lemma BoundPayloadItem(z: Sizes, p: Payload, target: nat)
    requires p.ItemChanged?
    ensures ItemPayloadWithin(BoundPayload(z, p, target).0, p)
  {
    BoundItemKeeps(z, p.item, target);
  }

  lemma StrictPassItem(z: Sizes, e: Event, p: Payload, c: Option<Completeness>, budget: nat)
    requires p.ItemChanged?
    ensures ItemPayloadWithin(StrictPass(z, e, p, c, budget).0, p)
  {
    BoundPayloadItem(z, p, Max(budget / 4, 1));
    SameContentWithin(p.item.content);
  }

  lemma CutPayloadItem(z: Sizes, e: Event, budget: nat)
    requires e.payload.ItemChanged?
    ensures ItemPayloadWithin(CutPayload(z, e, budget).0, e.payload)
  {
    var (p, c) := BoundPayload(z, e.payload, Max(budget - 512, budget / 2));
    BoundPayloadItem(z, e.payload, Max(budget - 512, budget / 2));
    StrictPassItem(z, e, p, c, budget);
    ItemPayloadTransitive(StrictPass(z, e, p, c, budget).0, p, e.payload);
  }

  lemma BoundEventItem(z: Sizes, e: Event, budget: nat)
    requires e.payload.ItemChanged?
    ensures ItemPayloadWithin(BoundEvent(z, e, budget).payload, e.payload)
  {
    if z.event(e) <= budget {
      SameContentWithin(e.payload.item.content);
    } else {
      CutPayloadItem(z, e, budget);
    }
  }

  lemma SharedItemAt(z: Sizes, v: View, budget: nat, warning: Warning, i: nat)
    requires v.turn.Some? && i < |v.turn.value.items|
    ensures var turn := BoundView(z, v, budget, warning).turn;
      turn.Some? && i < |turn.value.items| && OpenlyWithin(turn.value.items[i], v.turn.value.items[i])
  {
    ViewIsBoundedOpenly(z, v, budget, warning);
    SameContentWithin(v.turn.value.items[i].content);
  }

  /** An item is never cut in silence: the event tells the same of it as the view, in the same kind of
      event, and if the item is not what it was, it carries a flag of its own. */
  lemma SharedItemIsOpen(z: Sizes, e: Event, v: View, i: nat, limits: Limits)
    requires v.turn.Some? && i < |v.turn.value.items|
    requires e.payload.ItemChanged? && e.payload.item == v.turn.value.items[i]
    ensures var out := PublishItem(z, e, v, i, limits);
      && out.event.payload.ItemChanged? && out.view.turn.Some? && i < |out.view.turn.value.items|
      && out.event.payload == e.payload.(item := out.view.turn.value.items[i])
      && OpenlyWithin(out.event.payload.item, e.payload.item)
  {
    BoundEventItem(z, e, limits.event);
    var e1 := BoundEvent(z, e, limits.event);
    var v1 := JoinedItem(v, i, e1, limits.eventWarning);
    SharedItemAt(z, v1, limits.view, limits.viewWarning, i);
    var item := BoundView(z, v1, limits.view, limits.viewWarning).turn.value.items[i];
    OpenlyTransitive(item, e1.payload.item, e.payload.item);
  }
}
