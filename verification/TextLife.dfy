/** The life of a text item in a turn (internal/codex/manager.go): deltas arrive, item events replace it
    (upsertItem), and after each event boundCurrentView may cut its text to its share or empty it. */
module TextLife {
  import opened Common
  import opened Utf8
  import B = Budget
  import S = Shrink
  import F = FrameBudget

  /** `Replaced` is upsertItem with an item made anew from the app-server's text; `Bounded` is boundItem,
      which leaves at most `per` bytes; `Minimized` minimizeItemPresentation. The last two flag the item
      whether or not its text loses anything. */
  datatype Moment = Arrives(delta: Text) | Replaced(whole: Text) | Bounded(per: nat, size: nat) | Minimized

  function Happen(item: Item, m: Moment, budget: nat): Item {
    match m
    case Arrives(delta) => ApplyDelta(item, delta, budget)
    case Replaced(whole) => Created(whole, budget)
    case Bounded(per, size) =>
      Item(BoundString(item.text, per).0, true, if size > item.originalSize then size else item.originalSize)
    case Minimized => item.(text := [], truncated := true)
  }

  /** The item that the first delta makes, after the given moments. */
  function Live(first: Text, moments: seq<Moment>, budget: nat): Item {
    if moments == [] then Created(first, budget)
    else Happen(Live(first, moments[..|moments| - 1], budget), moments[|moments| - 1], budget)
  }

  /** Everything that arrived: the whole text of the last replacement and the deltas since. */
  function Arrived(first: Text, moments: seq<Moment>): Text {
    if moments == [] then first else Arriving(Arrived(first, moments[..|moments| - 1]), moments[|moments| - 1])
  }

  function Arriving(arrived: Text, m: Moment): Text {
    match m
    case Arrives(delta) => arrived + delta
    case Replaced(whole) => whole
    case _ => arrived
  }

  ghost predicate AllValid(moments: seq<Moment>) {
    forall i :: 0 <= i < |moments| ==> ValidMoment(moments[i])
  }

  predicate ValidMoment(m: Moment) {
    (m.Arrives? ==> Valid(m.delta)) && (m.Replaced? ==> Valid(m.whole))
  }

  /** A view pass touched the item since it was last replaced. */
  predicate ViewPassed(moments: seq<Moment>) {
    moments != [] && !moments[|moments| - 1].Replaced? &&
    (!moments[|moments| - 1].Arrives? || ViewPassed(moments[..|moments| - 1]))
  }

  // -------------------------------------------------------------- one moment

  /** What one moment does to text and flag, given what has arrived by then. */
  lemma MomentKeeps(item: Item, m: Moment, budget: nat)
    requires Valid(item.text) && |item.text| <= budget && ValidMoment(m) && !m.Replaced?
    ensures var item' := Happen(item, m, budget);
      && Valid(item'.text) && |item'.text| <= budget
      && (item'.truncated <==> item.truncated || !m.Arrives? || |item'.text| < |item.text| + |m.delta|)
      && (!m.Arrives? ==> item'.text <= item.text)
      && (m.Arrives? ==> item'.text <= item.text + m.delta)
  {
    match m
    case Arrives(delta) =>
      DeltaKeeps(item, delta, budget);
      PrefixFacts(delta, budget - |item.text|);
    case Bounded(per, _) => BoundStringFacts(item.text, per);
    case Minimized =>
  }

  lemma CreatedKeeps(first: Text, budget: nat)
    requires budget > 0 && Valid(first)
    ensures var item := Created(first, budget);
      Valid(item.text) && |item.text| <= budget && item.text <= first && (item.truncated <==> item.text != first)
  {
    BoundStringFacts(first, budget);
  }

  // --------------------------------------------------------------- whole lives

  /** Over the whole life of a text item: its text is valid UTF-8 within the budget, and it is flagged
      exactly when it lost something or a view pass touched it, since it was last replaced. */
  lemma {:induction false} LifeIsAccounted(first: Text, moments: seq<Moment>, budget: nat)
    requires budget > 0 && Valid(first) && AllValid(moments)
    ensures var item := Live(first, moments, budget);
      && Valid(item.text) && |item.text| <= budget && |item.text| <= |Arrived(first, moments)|
      && (item.truncated <==> |item.text| < |Arrived(first, moments)| || ViewPassed(moments))
  {
    if moments == [] {
      CreatedKeeps(first, budget);
    } else {
      var earlier, last := moments[..|moments| - 1], moments[|moments| - 1];
      LifeIsAccounted(first, earlier, budget);
      if last.Replaced? {
        CreatedKeeps(last.whole, budget);
      } else {
        MomentKeeps(Live(first, earlier, budget), last, budget);
      }
    }
  }

  /** An item that is not flagged holds everything that arrived. */
  lemma {:induction false} UnflaggedIsWhole(first: Text, moments: seq<Moment>, budget: nat)
    requires budget > 0 && !Live(first, moments, budget).truncated
    ensures Live(first, moments, budget).text == Arrived(first, moments)
  {
    if moments == [] {
      BoundStringFacts(first, budget);
    } else {
      var earlier, last := moments[..|moments| - 1], moments[|moments| - 1];
      if last.Replaced? {
        BoundStringFacts(last.whole, budget);
      } else {
        assert last.Arrives?;
        UnflaggedIsWhole(first, earlier, budget);
      }
    }
  }

  // ------------------------------------------------------------------ prefixes

  /** The text is all that arrived, or has no room. */
  predicate Ready(item: Item, arrived: Text, budget: nat) {
    item.text == arrived || |item.text| == budget
  }

  /** Every delta arrives at an item that is whole or full. */
  ghost predicate ArrivesReady(first: Text, moments: seq<Moment>, budget: nat) {
    forall i :: 0 <= i < |moments| && moments[i].Arrives? ==>
      Ready(Live(first, moments[..i], budget), Arrived(first, moments[..i]), budget)
  }

  lemma ReadyKeepsPrefix(item: Item, arrived: Text, delta: Text, budget: nat)
    requires item.text <= arrived && |item.text| <= budget && Valid(item.text) && Valid(delta) &&
      Ready(item, arrived, budget)
    ensures ApplyDelta(item, delta, budget).text <= arrived + delta
  {
    MomentKeeps(item, Arrives(delta), budget);
    if item.text != arrived {
      assert Appended(item, delta, budget) == [];
    }
  }

  lemma {:induction false} PrefixWhileReady(first: Text, moments: seq<Moment>, budget: nat)
    requires budget > 0 && Valid(first) && AllValid(moments) && ArrivesReady(first, moments, budget)
    ensures Live(first, moments, budget).text <= Arrived(first, moments)
  {
    if moments == [] {
      CreatedKeeps(first, budget);
    } else {
      var earlier, last := moments[..|moments| - 1], moments[|moments| - 1];
      assert forall i :: 0 <= i < |earlier| ==> earlier[..i] == moments[..i];
      PrefixWhileReady(first, earlier, budget);
      LifeIsAccounted(first, earlier, budget);
      if last.Replaced? {
        CreatedKeeps(last.whole, budget);
      } else {
        MomentKeeps(Live(first, earlier, budget), last, budget);
        if last.Arrives? {
          ReadyKeepsPrefix(Live(first, earlier, budget), Arrived(first, earlier), last.delta, budget);
        }
      }
    }
  }

  /** Where bytes are missing and there is room, an ASCII delta goes in after the gap. */
  lemma GapIsFilled(item: Item, arrived: Text, budget: nat) returns (delta: Text)
    requires |item.text| < budget && item.text < arrived
    ensures Valid(delta) && !(ApplyDelta(item, delta, budget).text <= arrived + delta)
  {
    var x: Byte := if arrived[|item.text|] == 0x61 then 0x62 else 0x61;
    delta := [x];
    assert FirstChar(delta) == 1 && delta[1..] == [];
    assert ApplyDelta(item, delta, budget).text == item.text + delta;
    assert (item.text + delta)[|item.text|] == x && (arrived + delta)[|item.text|] == arrived[|item.text|];
  }

  lemma LiveOneMore(first: Text, moments: seq<Moment>, m: Moment, budget: nat)
    ensures Live(first, moments + [m], budget) == Happen(Live(first, moments, budget), m, budget)
    ensures Arrived(first, moments + [m]) == Arriving(Arrived(first, moments), m)
  {
    assert (moments + [m])[..|moments|] == moments;
  }

  /** The text is a beginning of what arrived as long as every delta arrives at an item that is whole or
      full; and that is exact: the text stays a beginning whatever arrives next if and only if it is
      whole or full now. */
  lemma StaysAPrefixIff(first: Text, moments: seq<Moment>, budget: nat)
    requires budget > 0 && Valid(first) && AllValid(moments) && ArrivesReady(first, moments, budget)
    ensures Live(first, moments, budget).text <= Arrived(first, moments)
    ensures (forall delta :: Valid(delta) ==>
               Live(first, moments + [Arrives(delta)], budget).text <= Arrived(first, moments + [Arrives(delta)]))
            <==> Ready(Live(first, moments, budget), Arrived(first, moments), budget)
  {
    PrefixWhileReady(first, moments, budget);
    LifeIsAccounted(first, moments, budget);
    var item, arrived := Live(first, moments, budget), Arrived(first, moments);
    if Ready(item, arrived, budget) {
      forall delta | Valid(delta)
        ensures Live(first, moments + [Arrives(delta)], budget).text <= Arrived(first, moments + [Arrives(delta)])
      {
        LiveOneMore(first, moments, Arrives(delta), budget);
        ReadyKeepsPrefix(item, arrived, delta, budget);
      }
    } else {
      var delta := GapIsFilled(item, arrived, budget);
      LiveOneMore(first, moments, Arrives(delta), budget);
    }
  }

  /** With no failure anywhere: a text that filled the budget exactly is cut by the view pass that
      follows, and the next delta lands after the gap. */
  lemma ViewPassOpensGap(item: Item, arrived: Text, budget: nat, per: nat, size: nat) returns (delta: Text)
    requires |item.text| == budget && item.text <= arrived && 1 <= per < budget
    ensures Valid(delta)
    ensures var cut := Happen(item, Bounded(per, size), budget);
      !(Happen(cut, Arrives(delta), budget).text <= arrived + delta)
  {
    BoundStringFacts(item.text, per);
    delta := GapIsFilled(Happen(item, Bounded(per, size), budget), arrived, budget);
  }

  // ------------------------------------------------- the view pass is such moments

  predicate IsTextItem(c: B.Content) {
    c.AgentMessage? || c.ReasoningSummary? || c.Command? || c.FileChange?
  }

  /** The text that deltas go to, and the item's completeness. */
  function AsItem(m: B.MessageItem): Item
    requires IsTextItem(m.content)
  {
    var text := match m.content
      case AgentMessage(text) => text
      case ReasoningSummary(text) => text
      case Command(_, _, output, _) => output
      case FileChange(diff, _) => diff;
    Item(text, B.Flagged(m.completeness), if m.completeness.Some? then m.completeness.value.originalSize else 0)
  }

  function HappenAll(item: Item, moments: seq<Moment>, budget: nat): Item {
    if moments == [] then item
    else Happen(HappenAll(item, moments[..|moments| - 1], budget), moments[|moments| - 1], budget)
  }

  lemma BoundItemIsMoment(z: B.Sizes, m: B.MessageItem, share: nat, budget: nat)
    requires IsTextItem(m.content)
    ensures var (m', _) := S.BoundItem(z, m, share);
      && IsTextItem(m'.content)
      && AsItem(m') == if z.item(m) <= share then AsItem(m)
        else Happen(AsItem(m), Bounded(B.Max(share / 8, 1), z.item(m)), budget)
  {
  }

  lemma MinimizeItemIsMoment(m: B.MessageItem, budget: nat)
    requires IsTextItem(m.content)
    ensures IsTextItem(S.MinimizeItem(m).content) && AsItem(S.MinimizeItem(m)) == Happen(AsItem(m), Minimized, budget)
  {
  }

  /** What boundCurrentView does to the i-th item of the active turn. */
  function ViewMoments(z: B.Sizes, v: B.View, budget: nat, warning: B.Warning, i: nat): seq<Moment>
    requires v.turn.Some? && i < |v.turn.value.items|
  {
    if z.view(v) <= budget then []
    else
      var item := v.turn.value.items[i];
      var share := F.ItemBudget(v, budget);
      (if z.item(item) > share then [Bounded(B.Max(share / 8, 1), z.item(item))] else [])
      + (if F.ComesToMinimizing(z, v, budget, warning) then [Minimized] else [])
  }

  lemma {:induction false} BoundItemsAt(z: B.Sizes, items: seq<B.MessageItem>, share: nat, c: Option<B.Completeness>,
        i: nat)
    requires i < |items|
    ensures var items' := F.BoundItems(z, items, share, c).0;
      |items'| == |items| && items'[i] == S.BoundItem(z, items[i], share).0
  {
    if |items| > 1 {
      BoundItemsAt(z, items[..|items| - 1], share, c, if i < |items| - 1 then i else 0);
    }
  }

  lemma FirstPassTurn(z: B.Sizes, v: B.View, budget: nat, warning: B.Warning)
    requires v.turn.Some?
    ensures var turn := F.TrimTitle(z, F.TrimWarnings(z, F.FirstPass(z, v, budget, warning), budget), budget).turn;
      turn.Some? &&
      turn.value.items == F.BoundItems(z, v.turn.value.items, F.ItemBudget(v, budget), v.turn.value.completeness).0
  {
  }

  lemma MinimizedTurn(z: B.Sizes, v: B.View, budget: nat, share: nat, original: nat)
    requires v.turn.Some?
    ensures var turn := F.LastResort(z, F.Minimize(z, v, budget, share, original), budget).turn;
      && turn.Some?
      && turn.value.items == if z.view(v) > budget then F.MinimizeItems(v.turn.value.items) else v.turn.value.items
  {
  }

  lemma ViewItem(z: B.Sizes, v: B.View, budget: nat, warning: B.Warning, i: nat)
    requires v.turn.Some? && i < |v.turn.value.items| && z.view(v) > budget
    ensures var v' := F.BoundView(z, v, budget, warning);
      var bounded := S.BoundItem(z, v.turn.value.items[i], F.ItemBudget(v, budget)).0;
      && v'.turn.Some? && i < |v'.turn.value.items|
      && v'.turn.value.items[i] == if F.ComesToMinimizing(z, v, budget, warning) then S.MinimizeItem(bounded)
        else bounded
  {
    var v3 := F.TrimTitle(z, F.TrimWarnings(z, F.FirstPass(z, v, budget, warning), budget), budget);
    FirstPassTurn(z, v, budget, warning);
    BoundItemsAt(z, v.turn.value.items, F.ItemBudget(v, budget), v.turn.value.completeness, i);
    MinimizedTurn(z, v3, budget, F.PendingBudget(v, budget), z.view(v));
  }

  /** A view pass is a stretch of such a life for every text item of the turn. */
  lemma ViewPassIsLife(z: B.Sizes, v: B.View, viewBudget: nat, warning: B.Warning, i: nat, budget: nat)
    requires v.turn.Some? && i < |v.turn.value.items| && IsTextItem(v.turn.value.items[i].content)
    ensures var v' := F.BoundView(z, v, viewBudget, warning);
      && v'.turn.Some? && i < |v'.turn.value.items| && IsTextItem(v'.turn.value.items[i].content)
      && AsItem(v'.turn.value.items[i]) ==
         HappenAll(AsItem(v.turn.value.items[i]), ViewMoments(z, v, viewBudget, warning, i), budget)
  {
    if z.view(v) > viewBudget {
      var item := v.turn.value.items[i];
      var share := F.ItemBudget(v, viewBudget);
      ViewItem(z, v, viewBudget, warning, i);
      BoundItemIsMoment(z, item, share, budget);
      MinimizeItemIsMoment(S.BoundItem(z, item, share).0, budget);
      UpToTwo(AsItem(item), Bounded(B.Max(share / 8, 1), z.item(item)), Minimized, budget);
    }
  }

  lemma UpToTwo(item: Item, a: Moment, b: Moment, budget: nat)
    ensures HappenAll(item, [a] + [b], budget) == Happen(Happen(item, a, budget), b, budget)
    ensures HappenAll(item, [a] + [], budget) == Happen(item, a, budget)
    ensures HappenAll(item, [] + [b], budget) == Happen(item, b, budget)
    ensures HappenAll(item, [] + [], budget) == item
  {
    assert ([a] + [b])[..1] == [a] && [a][..0] == [] && [b][..0] == [];
    assert [a] + [] == [a] && [] + [b] == [b];
    assert HappenAll(item, [], budget) == item && HappenAll(item, [a], budget) == Happen(item, a, budget);
  }
}
