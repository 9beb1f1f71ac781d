/** Cutting text to a byte budget without breaking characters: validUTF8Prefix, boundString and
    applyItemDelta of internal/codex/manager.go. Validity is the UTF-8 syntax of section 4 of
    RFC 3629, which is what the Go library checks. */
module Utf8 {
  import opened Common

  type Byte = b: int | 0 <= b < 256

  type Text = seq<Byte>

  predicate Tail(b: Byte) {
    0x80 <= b <= 0xBF
  }

  /** The second byte of a three- or four-byte character may be narrower than a tail. */
  predicate Second(first: Byte, b: Byte) {
    (if first == 0xE0 then 0xA0 else if first == 0xF0 then 0x90 else 0x80) <= b
    <= (if first == 0xED then 0x9F else if first == 0xF4 then 0x8F else 0xBF)
  }

  /** How many bytes a character starting with this byte has; 0 if none starts so. */
  function Width(first: Byte): nat {
    if first <= 0x7F then 1
    else if 0xC2 <= first <= 0xDF then 2
    else if 0xE0 <= first <= 0xEF then 3
    else if 0xF0 <= first <= 0xF4 then 4
    else 0
  }

  /** The length of the character at the front of `s`; 0 if there is none. */
  function FirstChar(s: Text): (n: nat)
    ensures n <= 4 && n <= |s|
  {
    if s == [] || Width(s[0]) > |s| then 0
    else
      var n := Width(s[0]);
      if (n >= 2 ==> Second(s[0], s[1])) && (n >= 3 ==> Tail(s[2])) && (n >= 4 ==> Tail(s[3])) then n else 0
  }

  predicate Valid(s: Text) {
    s == [] || (FirstChar(s) > 0 && Valid(s[FirstChar(s)..]))
  }

  lemma FirstCharExtends(s: Text, t: Text)
    requires FirstChar(s) > 0
    ensures FirstChar(s + t) == FirstChar(s)
  {
  }

  lemma {:induction false} ValidConcat(s: Text, t: Text)
    requires Valid(s)
    ensures Valid(s + t) <==> Valid(t)
  {
    if s == [] {
      assert s + t == t;
    } else {
      FirstCharExtends(s, t);
      ValidConcat(s[FirstChar(s)..], t);
      assert (s + t)[FirstChar(s)..] == s[FirstChar(s)..] + t;
    }
  }

  // ------------------------------------------------------------------- cutting

  /** Where the loop of validUTF8Prefix stops, coming down from `end`. */
  function CutPoint(value: Text, end: nat): (e: nat)
    requires end <= |value|
    ensures e <= end && Valid(value[..e])
  {
    if end == 0 || Valid(value[..end]) then end else CutPoint(value, end - 1)
  }

  function Prefix(value: Text, budget: int): Text {
    if budget >= |value| then value else if budget <= 0 then [] else value[..CutPoint(value, budget)]
  }

  lemma {:induction false} CutPointIsLongest(value: Text, end: nat, e: nat)
    requires end <= |value| && e <= end && Valid(value[..e])
    ensures e <= CutPoint(value, end)
  {
    if e < end && !Valid(value[..end]) {
      CutPointIsLongest(value, end - 1, e);
    }
  }

  /** In valid text some character ends within the last three bytes of every budget. */
  lemma {:induction false} BoundaryNearby(value: Text, budget: nat) returns (e: nat)
    requires Valid(value) && budget <= |value|
    ensures budget - 3 <= e <= budget && Valid(value[..e])
  {
    var n := FirstChar(value);
    if value == [] || budget < n {
      e := 0;
    } else {
      var rest := BoundaryNearby(value[n..], budget - n);
      e := n + rest;
      OneCharIsValid(value);
      ValidConcat(value[..n], value[n..][..rest]);
      assert value[..e] == value[..n] + value[n..][..rest];
    }
  }

  lemma OneCharIsValid(value: Text)
    requires FirstChar(value) > 0
    ensures Valid(value[..FirstChar(value)])
  {
    var n := FirstChar(value);
    assert FirstChar(value[..n]) == n;
    assert value[..n][n..] == [];
  }

  /** The longest valid prefix within the budget, which loses at most three bytes of it. */
  method ValidUtf8Prefix(value: Text, budget: int) returns (r: Text)
    ensures r == Prefix(value, budget)
    ensures r <= value
    ensures budget >= |value| ==> r == value
    ensures budget < |value| ==> Valid(r) && |r| <= (if budget > 0 then budget else 0)
    ensures budget < |value| ==> forall e :: |r| < e <= budget ==> !Valid(value[..e])
    ensures Valid(value) ==> Valid(r) && (0 <= budget <= |value| ==> |r| >= budget - 3)
  {
    if budget >= |value| {
      return value;
    }
    if budget <= 0 {
      return [];
    }
    var end := budget;
    while end > 0 && !Valid(value[..end])
      invariant 0 <= end <= budget
      invariant forall e :: end < e <= budget ==> !Valid(value[..e])
      invariant CutPoint(value, budget) == CutPoint(value, end)
    {
      end := end - 1;
    }
    r := value[..end];
    if Valid(value) {
      var e := BoundaryNearby(value, budget);
      assert e <= end;
    }
  }

  /** The result, and whether it was cut. */
  function BoundString(value: Text, budget: int): (Text, bool) {
    var b := if budget <= 0 then 1 else budget;
    if |value| <= b then (value, false) else (Prefix(value, b), true)
  }

  lemma PrefixFacts(value: Text, budget: int)
    ensures Prefix(value, budget) <= value
    ensures 0 <= budget < |value| ==> |Prefix(value, budget)| <= budget
    ensures Valid(value) ==> Valid(Prefix(value, budget))
    ensures Valid(value) && 0 <= budget <= |value| ==> |Prefix(value, budget)| >= budget - 3
  {
    if Valid(value) && 0 < budget < |value| {
      var e := BoundaryNearby(value, budget);
      CutPointIsLongest(value, budget, e);
    }
  }

  /** Cutting shortens a string exactly when it says so, and never lengthens or alters it. */
  lemma BoundStringFacts(value: Text, budget: int)
    ensures var (r, cut) := BoundString(value, budget);
      && r <= value && (cut <==> r != value) && |r| <= (if budget <= 0 then 1 else budget)
      && (Valid(value) ==> Valid(r))
  {
    PrefixFacts(value, if budget <= 0 then 1 else budget);
  }

  // -------------------------------------------------------------------- deltas

  /** The text of an item and its completeness: flagged, and the original size then reported. */
  datatype Item = Item(text: Text, truncated: bool, originalSize: nat)

  function Appended(item: Item, delta: Text, budget: nat): Text {
    var remaining := if |item.text| <= budget then budget - |item.text| else 0;
    if |delta| > remaining then Prefix(delta, remaining) else delta
  }

  /** applyItemDelta on an item the turn already has. */
  function ApplyDelta(item: Item, delta: Text, budget: nat): Item {
    var original := |item.text| + |delta|;
    var text := item.text + Appended(item, delta, budget);
    if original > budget then Item(text, true, original) else item.(text := text)
  }

  function ApplyDeltas(item: Item, deltas: seq<Text>, budget: nat): Item {
    if deltas == [] then item
    else ApplyDelta(ApplyDeltas(item, deltas[..|deltas| - 1], budget), deltas[|deltas| - 1], budget)
  }

  function Concat(deltas: seq<Text>): Text {
    if deltas == [] then [] else Concat(deltas[..|deltas| - 1]) + deltas[|deltas| - 1]
  }

  ghost predicate AllValid(deltas: seq<Text>) {
    forall i :: 0 <= i < |deltas| ==> Valid(deltas[i])
  }

  /** The bytes that applyItemDelta left out. */
  function Dropped(item: Item, deltas: seq<Text>, budget: nat): nat {
    if deltas == [] then 0
    else
      var before := ApplyDeltas(item, deltas[..|deltas| - 1], budget);
      var delta := deltas[|deltas| - 1];
      PrefixFacts(delta, budget - |before.text|);
      PrefixFacts(delta, 0);
      Dropped(item, deltas[..|deltas| - 1], budget) + |delta| - |Appended(before, delta, budget)|
  }

  lemma AppendedFits(item: Item, delta: Text, budget: nat)
    requires |item.text| <= budget && Valid(delta)
    ensures var added := Appended(item, delta, budget);
      && Valid(added) && |added| <= |delta| && |item.text| + |added| <= budget
      && (|added| < |delta| <==> |item.text| + |delta| > budget)
      && (|added| < |delta| ==> |item.text| + |added| >= budget - 3)
  {
    PrefixFacts(delta, budget - |item.text|);
  }

  lemma DeltaKeeps(item: Item, delta: Text, budget: nat)
    requires Valid(item.text) && |item.text| <= budget && Valid(delta)
    ensures var item' := ApplyDelta(item, delta, budget);
      && Valid(item'.text) && |item'.text| <= budget && item.text <= item'.text
      && (item'.truncated <==> item.truncated || |Appended(item, delta, budget)| < |delta|)
      && (|Appended(item, delta, budget)| < |delta| ==> |item'.text| >= budget - 3)
  {
    AppendedFits(item, delta, budget);
    ValidConcat(item.text, Appended(item, delta, budget));
  }

  /** Whatever deltas arrive, the text stays valid UTF-8 within the budget, every byte is kept or
      counted as dropped, the item is newly flagged exactly when a byte was dropped, and bytes are
      only dropped once at most three bytes of the budget are left. */
  lemma {:induction false} DeltasAreAccounted(item: Item, deltas: seq<Text>, budget: nat)
    requires Valid(item.text) && |item.text| <= budget && AllValid(deltas)
    ensures var item' := ApplyDeltas(item, deltas, budget);
      && Valid(item'.text) && |item'.text| <= budget && item.text <= item'.text
      && |item'.text| + Dropped(item, deltas, budget) == |item.text| + |Concat(deltas)|
      && (item'.truncated <==> item.truncated || Dropped(item, deltas, budget) > 0)
      && (Dropped(item, deltas, budget) > 0 ==> |item'.text| >= budget - 3)
  {
    if deltas != [] {
      var earlier := deltas[..|deltas| - 1];
      DeltasAreAccounted(item, earlier, budget);
      DeltaKeeps(ApplyDeltas(item, earlier, budget), deltas[|deltas| - 1], budget);
    }
  }

  /** A text item as its first delta makes it. */
  function Created(first: Text, budget: int): Item {
    var (text, cut) := BoundString(first, budget);
    Item(text, cut, if cut then |first| else 0)
  }
}
