/** The in-place form of boundCurrentView: the fields of one CurrentView are shrunk loop by loop. */
module ViewBudget {
  import opened Common
  import opened Utf8
  import opened Budget
  import opened Shrink
  import opened FrameBudget
  import opened FrameLimits

  /** The loop over the items of the active turn. */
  method ShrinkItems(z: Sizes, items: seq<MessageItem>, budget: nat, c: Option<Completeness>)
    returns (shrunk: seq<MessageItem>, c': Option<Completeness>)
    ensures (shrunk, c') == BoundItems(z, items, budget, c)
  {
    shrunk, c' := [], c;
    for i := 0 to |items|
      invariant (shrunk, c') == BoundItems(z, items[..i], budget, c)
    {
      BoundItemsStep(z, items, i, budget, c);
      var (item, complete) := BoundItem(z, items[i], budget);
      c' := Merge(c', complete);
      shrunk := shrunk + [item];
    }
    assert items[..|items|] == items;
  }

  /** The loops over the pending requests; the second one also minimises. */
  method ShrinkRequests(z: Sizes, ps: seq<Pending>, budget: nat, minimize: bool, c: Option<Completeness>)
    returns (shrunk: seq<Pending>, c': Option<Completeness>)
    ensures (shrunk, c') == BoundAll(z, ps, budget, minimize, c)
  {
    shrunk, c' := [], c;
    for i := 0 to |ps|
      invariant (shrunk, c') == BoundAll(z, ps[..i], budget, minimize, c)
    {
      BoundAllStep(z, ps, i, budget, minimize, c);
      var (p, complete) := BoundPending(z, ps[i], budget);
      c' := Merge(c', complete);
      shrunk := shrunk + [if minimize then MinimizePending(p) else p];
    }
    assert ps[..|ps|] == ps;
  }

  method MinimizeEach(items: seq<MessageItem>) returns (shrunk: seq<MessageItem>)
    ensures shrunk == MinimizeItems(items)
  {
    shrunk := items;
    for i := 0 to |items|
      invariant |shrunk| == |items|
      invariant forall k :: 0 <= k < |items| ==> shrunk[k] == if k < i then MinimizeItem(items[k]) else items[k]
    {
      shrunk := shrunk[i := MinimizeItem(shrunk[i])];
    }
  }

  class CurrentView {
    var codex: Option<Codex>
    var activeTurn: Option<Turn>
    var pendingRequests: seq<Pending>
    var completeness: Option<Completeness>

    function Value(): View
      reads this
    {
      View(codex, activeTurn, pendingRequests, completeness)
    }

    method BoundActiveTurn(z: Sizes, budget: nat)
      modifies this`activeTurn
      ensures Value() == BoundTurn(z, old(Value()), budget)
    {
      if activeTurn.Some? {
        var items, c := ShrinkItems(z, activeTurn.value.items, ItemBudget(Value(), budget),
          activeTurn.value.completeness);
        activeTurn := Some(activeTurn.value.(items := items, completeness := c));
      }
    }

    method BoundPendingRequests(z: Sizes, budget: nat, minimize: bool)
      modifies this`pendingRequests, this`completeness
      ensures Value() == BoundRequests(z, old(Value()), budget, minimize)
    {
      pendingRequests, completeness := ShrinkRequests(z, pendingRequests, budget, minimize, completeness);
    }

    method MarkAndShrink(z: Sizes, budget: nat, warning: Warning)
      modifies this
      ensures Value() == FirstPass(z, old(Value()), budget, warning)
    {
      var pendingBudget := PendingBudget(Value(), budget);
      completeness := Merge(completeness,
        Some(BudgetCompleteness(z.view(Value()), "current view collection exceeds C/S frame budget")));
      if codex.Some? {
        codex := Some(AddBudgetWarning(codex.value, CURRENT_VIEW, warning));
      }
      BoundActiveTurn(z, budget);
      BoundPendingRequests(z, pendingBudget, false);
    }

    method MinimizeAll(z: Sizes, budget: nat, pendingBudget: nat, original: nat)
      modifies this
      ensures Value() == Minimize(z, old(Value()), budget, pendingBudget, original)
    {
      if z.view(Value()) > budget {
        BoundPendingRequests(z, Max(pendingBudget / 2, 1), true);
        if activeTurn.Some? {
          var items := MinimizeEach(activeTurn.value.items);
          var c := Merge(activeTurn.value.completeness, Some(BudgetCompleteness(original, "frame budget")));
          activeTurn := Some(activeTurn.value.(items := items, completeness := c));
        }
      }
    }

    method TrimHead(z: Sizes, budget: nat)
      modifies this`codex
      ensures Value() == TrimTitle(z, TrimWarnings(z, old(Value()), budget), budget)
    {
      if codex.Some? && z.view(Value()) > budget {
        codex := Some(codex.value.(warnings := BudgetWarningsOf(codex.value.warnings)));
      }
      if codex.Some? && z.view(Value()) > budget {
        codex := Some(codex.value.(title := Cut(codex.value.title, Max(budget / 8, 1))));
      }
    }

    method DropWarning(z: Sizes, budget: nat)
      modifies this`codex, this`completeness
      ensures Value() == LastResort(z, old(Value()), budget)
    {
      if codex.Some? && z.view(Value()) > budget {
        codex := Some(codex.value.(warnings := DropLastBudgetWarning(codex.value.warnings)));
      }
      if completeness.Some? && z.view(Value()) > budget {
        completeness := WithReason(completeness, "frame budget");
      }
    }

    /** The view fits afterwards or has nothing left to lose; what it lost is flagged. */
    method BoundCurrentView(z: Sizes, budget: nat, warning: Warning)
      modifies this
      ensures Value() == BoundView(z, old(Value()), budget, warning)
      ensures z.view(Value()) <= budget || ViewLean(Value(), budget)
      ensures Value() != old(Value()) ==> ViewWithin(Value(), old(Value())) && Flagged(completeness)
    {
      ViewFitsOrIsLean(z, Value(), budget, warning);
      ViewIsBoundedOpenly(z, Value(), budget, warning);
      if z.view(Value()) > budget {
        var original := z.view(Value());
        var pendingBudget := PendingBudget(Value(), budget);
        MarkAndShrink(z, budget, warning);
        TrimHead(z, budget);
        MinimizeAll(z, budget, pendingBudget, original);
        DropWarning(z, budget);
      }
    }
  }
}
