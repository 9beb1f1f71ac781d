/** The in-place form of applyItemDelta (internal/codex/manager.go) on the items of one turn. */
module ItemText {
  import opened Common
  import opened Utf8

  /** `textual` items have a text, output or diff that deltas go to. */
  datatype Entry = Entry(id: Text, textual: bool, item: Item)

  function Find(items: seq<Entry>, id: Text, from: nat): (r: nat)
    requires from <= |items|
    ensures from <= r <= |items| && (r < |items| ==> items[r].id == id)
    ensures forall k :: from <= k < r ==> items[k].id != id
    decreases |items| - from
  {
    if from == |items| || items[from].id == id then from else Find(items, id, from + 1)
  }

  /** A delta goes to the first item with its id, or makes a new one. */
  function ApplyTo(items: seq<Entry>, id: Text, delta: Text, budget: nat): seq<Entry> {
    var i := Find(items, id, 0);
    if i == |items| then items + [Entry(id, true, Created(delta, budget))]
    else if !items[i].textual then items
    else items[i := items[i].(item := ApplyDelta(items[i].item, delta, budget))]
  }

  class TurnSnapshot {
    var items: seq<Entry>

    method ApplyItemDelta(id: Text, delta: Text, budget: nat) returns (eventText: Text)
      modifies this
      ensures items == ApplyTo(old(items), id, delta, budget)
      ensures eventText <= delta && (Valid(delta) ==> Valid(eventText))
    {
      eventText := BoundString(delta, budget).0;
      BoundStringFacts(delta, budget);
      for i := 0 to |items|
        invariant items == old(items) && Find(items, id, 0) == Find(items, id, i)
      {
        if items[i].id == id {
          if !items[i].textual {
            eventText := [];
            return;
          }
          var target := items[i].item.text;
          var original := |target| + |delta|;
          var remaining := if |target| <= budget then budget - |target| else 0;
          var bounded := delta;
          if |bounded| > remaining {
            bounded := ValidUtf8Prefix(bounded, remaining);
          }
          var item := items[i].item.(text := target + bounded);
          if original > budget {
            item := item.(truncated := true, originalSize := original);
          }
          items := items[i := items[i].(item := item)];
          return;
        }
      }
      items := items + [Entry(id, true, Created(delta, budget))];
    }
  }

  /** A delta never touches another item. */
  lemma OtherItemsKept(items: seq<Entry>, id: Text, delta: Text, budget: nat, k: nat)
    requires k < |items| && items[k].id != id
    ensures |ApplyTo(items, id, delta, budget)| >= |items| && ApplyTo(items, id, delta, budget)[k] == items[k]
  {
  }
}
