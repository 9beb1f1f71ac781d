/** Child agents of a Codex: the observations applyCollabAgentItem (internal/codex/workspace.go)
    and applyAdapterEvent (internal/codex/manager.go) keep, and the subagents they register with
    the workspace service, whose calls succeed here. */
module Collab {
  import opened Common

  datatype AgentStatus = PendingInit | Running | Interrupted | Completed | Errored | Shutdown | NotFound | OtherStatus

  datatype Tool = ResumeAgent | OtherTool

  datatype Item = Item(id: Id, tool: Tool, sender: Id, receivers: seq<Id>, states: map<Id, AgentStatus>)

  datatype Observation = Observation(itemId: Id, terminal: bool)

  /** A "subagent:" agent registered with the workspace of a Codex. */
  datatype Agent = Agent(codex: Id, child: Id)

  /** `threads` is byThread. */
  datatype State = State(
    threads: map<Id, Id>, childCodex: map<Id, Id>, childState: map<Id, Observation>, agents: set<Agent>)

  datatype Event =
    | ItemEvent(thread: Id, item: Item)
    | TurnEnded(thread: Id)
    | Forgotten(codex: Id)

  predicate AgentActive(s: AgentStatus) {
    s.PendingInit? || s.Running?
  }

  predicate AgentTerminal(s: AgentStatus) {
    s.Interrupted? || s.Completed? || s.Errored? || s.Shutdown? || s.NotFound?
  }

  /** What the item says about a child, after the stickiness rule: started, stopped or nothing. */
  function Verdict(s: State, item: Item, child: Id): Option<bool> {
    if child !in item.states then None
    else if AgentTerminal(item.states[child]) then Some(false)
    else if !AgentActive(item.states[child]) then None
    else if child in s.childState && s.childState[child].terminal &&
      (item.tool != ResumeAgent || s.childState[child].itemId == item.id) then None
    else Some(true)
  }

  function Lookup(m: map<Id, Id>, k: Id): Id {
    if k in m then m[k] else 0
  }

  /** The Codex an item belongs to; 0 if none. */
  function CodexOf(s: State, thread: Id, item: Item): Id {
    var sender := if item.sender == 0 then thread else item.sender;
    var codex := Lookup(s.threads, sender);
    if codex == 0 then Lookup(s.childCodex, sender) else codex
  }

  /** One child of an item: the map updates and, later, the agent call. */
  function ApplyChild(s: State, codex: Id, item: Item, child: Id): State {
    var s' := s.(childCodex := s.childCodex[child := codex]);
    var v := Verdict(s, item, child);
    if v.None? then s'
    else s'.(childState := s.childState[child := Observation(item.id, !v.value)],
             agents := if v.value then s.agents + {Agent(codex, child)} else s.agents - {Agent(codex, child)})
  }

  function ApplyChildren(s: State, codex: Id, item: Item, children: seq<Id>): State {
    if children == [] then s
    else ApplyChild(ApplyChildren(s, codex, item, children[..|children| - 1]), codex, item, children[|children| - 1])
  }

  /** The children an item names. */
  function Named(item: Item): set<Id> {
    (set r | r in item.receivers && r != 0) + (set k | k in item.states && k != 0)
  }

  function Adopted(s: State, codex: Id, children: set<Id>): map<Id, Id> {
    s.childCodex + map k | k in children :: codex
  }

  function Observed(s: State, item: Item, children: set<Id>): map<Id, Observation> {
    s.childState
    + map k | k in children && Verdict(s, item, k).Some? :: Observation(item.id, !Verdict(s, item, k).value)
  }

  function Registered(s: State, codex: Id, item: Item, children: set<Id>): set<Agent> {
    (set a | a in s.agents && !(a.codex == codex && a.child in children && Verdict(s, item, a.child) == Some(false)))
    + (set k | k in children && Verdict(s, item, k) == Some(true) :: Agent(codex, k))
  }

  /** All the given children at once: what every order of them comes to. */
  function ApplyAtOnce(s: State, codex: Id, item: Item, children: set<Id>): State {
    State(s.threads, Adopted(s, codex, children), Observed(s, item, children), Registered(s, codex, item, children))
  }

  function ApplyItem(s: State, codex: Id, item: Item): State {
    ApplyAtOnce(s, codex, item, Named(item))
  }

  function EndTurn(s: State, thread: Id): State {
    var codex := Lookup(s.childCodex, thread);
    if codex == 0 then s
    else
      var itemId := if thread in s.childState then s.childState[thread].itemId else 0;
      s.(childState := s.childState[thread := Observation(itemId, true)], agents := s.agents - {Agent(codex, thread)})
  }

  /** ForgetCodex drops the children of the Codex, and its agent set goes with the workspace. */
  function ForgetCodex(s: State, codex: Id): State {
    var children := set k | k in s.childCodex && s.childCodex[k] == codex;
    State(map t | t in s.threads && s.threads[t] != codex :: s.threads[t],
          s.childCodex - children, s.childState - children, set a | a in s.agents && a.codex != codex)
  }

  function Apply(s: State, e: Event): State {
    match e
    case ItemEvent(thread, item) =>
      var codex := CodexOf(s, thread, item);
      if codex == 0 then s else ApplyItem(s, codex, item)
    case TurnEnded(thread) => EndTurn(s, thread)
    case Forgotten(codex) => if codex == 0 then s else ForgetCodex(s, codex)
  }

  function Run(s: State, events: seq<Event>): State {
    if events == [] then s else Apply(Run(s, events[..|events| - 1]), events[|events| - 1])
  }

  // ------------------------------------------------- the loop, in any order

  function Elements(children: seq<Id>): set<Id> {
    set k | k in children
  }

  ghost predicate Distinct(children: seq<Id>) {
    forall i, j :: 0 <= i < j < |children| ==> children[i] != children[j]
  }

  lemma ObserveOneMore(s: State, s1: State, item: Item, done: set<Id>, child: Id)
    requires child !in done && s1.childState == Observed(s, item, done)
    ensures Verdict(s1, item, child) == Verdict(s, item, child)
    ensures Observed(s, item, done + {child}) ==
            if Verdict(s, item, child).None? then s1.childState
            else s1.childState[child := Observation(item.id, !Verdict(s, item, child).value)]
  {
  }

  lemma RegisterOneMore(s: State, codex: Id, item: Item, done: set<Id>, child: Id)
    requires child !in done
    ensures Registered(s, codex, item, done + {child}) ==
            match Verdict(s, item, child)
            case None => Registered(s, codex, item, done)
            case Some(active) => if active then Registered(s, codex, item, done) + {Agent(codex, child)}
                                 else Registered(s, codex, item, done) - {Agent(codex, child)}
  {
  }

  lemma AdoptOneMore(s: State, codex: Id, done: set<Id>, child: Id)
    ensures Adopted(s, codex, done + {child}) == Adopted(s, codex, done)[child := codex]
  {
  }

  lemma OneMore(s: State, codex: Id, item: Item, done: set<Id>, child: Id)
    requires child !in done
    ensures ApplyChild(ApplyAtOnce(s, codex, item, done), codex, item, child) ==
      ApplyAtOnce(s, codex, item, done + {child})
  {
    ObserveOneMore(s, ApplyAtOnce(s, codex, item, done), item, done, child);
    RegisterOneMore(s, codex, item, done, child);
    AdoptOneMore(s, codex, done, child);
  }

  lemma NoChildren(s: State, codex: Id, item: Item)
    ensures ApplyAtOnce(s, codex, item, {}) == s
  {
    assert Registered(s, codex, item, {}) == s.agents;
    assert Observed(s, item, {}) == s.childState;
  }

  /** The order in which an item's children are gone through does not matter. */
  lemma {:induction false} AnyOrder(s: State, codex: Id, item: Item, children: seq<Id>)
    requires Distinct(children)
    ensures ApplyChildren(s, codex, item, children) == ApplyAtOnce(s, codex, item, Elements(children))
  {
    if children == [] {
      NoChildren(s, codex, item);
      assert Elements(children) == {};
    } else {
      var rest := children[..|children| - 1];
      var child := children[|children| - 1];
      AnyOrder(s, codex, item, rest);
      assert Elements(children) == Elements(rest) + {child};
      OneMore(s, codex, item, Elements(rest), child);
    }
  }

  // --------------------------------------------------------------- invariant

  /** The child has been observed, and its last observation is not an end. */
  predicate Active(s: State, child: Id) {
    child in s.childState && !s.childState[child].terminal
  }

  predicate Belongs(s: State, child: Id, codex: Id) {
    child in s.childCodex && s.childCodex[child] == codex
  }

  /** Exactly the active children are registered, each with its own Codex. */
  ghost predicate Inv(s: State) {
    && (forall k :: k in s.childState ==> k in s.childCodex)
    && (forall k :: k in s.childCodex ==> s.childCodex[k] != 0)
    && (forall c, k :: Agent(c, k) in s.agents <==> Active(s, k) && Belongs(s, k, c))
  }

  /** The item claims an active child of another Codex. */
  ghost predicate Reparents(s: State, codex: Id, item: Item) {
    exists k :: k in Named(item) && Active(s, k) && !Belongs(s, k, codex)
  }

  /** What one item does to one child. */
  lemma ItemFacts(s: State, codex: Id, item: Item, k: Id)
    ensures var s' := ApplyItem(s, codex, item);
      && (k !in Named(item) ==>
            && Active(s', k) == Active(s, k)
            && (forall c ::
                  Belongs(s', k, c) == Belongs(s, k, c) && (Agent(c, k) in s'.agents <==> Agent(c, k) in s.agents)))
      && (k in Named(item) ==>
            && Belongs(s', k, codex)
            && (var v := Verdict(s, item, k); Active(s', k) == if v.Some? then v.value else Active(s, k))
            && (var v := Verdict(s, item, k);
                Agent(codex, k) in s'.agents <==> if v.Some? then v.value else Agent(codex, k) in s.agents)
            && (forall c :: c != codex ==> (Agent(c, k) in s'.agents <==> Agent(c, k) in s.agents)))
  {
  }

  /** An item keeps agents and observations in step exactly when it claims no active child of
      another Codex. */
  lemma ItemKeepsIff(s: State, codex: Id, item: Item)
    requires Inv(s) && codex != 0
    ensures Inv(ApplyItem(s, codex, item)) <==> !Reparents(s, codex, item)
  {
    var s' := ApplyItem(s, codex, item);
    if !Reparents(s, codex, item) {
      forall c, k ensures Agent(c, k) in s'.agents <==> Active(s', k) && Belongs(s', k, c) {
        ItemFacts(s, codex, item, k);
      }
    } else {
      var k :| k in Named(item) && Active(s, k) && !Belongs(s, k, codex);
      ItemFacts(s, codex, item, k);
      assert Belongs(s, k, s.childCodex[k]);
    }
  }

  lemma EndTurnKeeps(s: State, thread: Id)
    requires Inv(s)
    ensures Inv(EndTurn(s, thread))
  {
  }

  lemma ForgetKeeps(s: State, codex: Id)
    requires Inv(s)
    ensures Inv(ForgetCodex(s, codex))
  {
  }

  /** The event is an item of one Codex that names an active child of another. */
  ghost predicate ClaimsOther(s: State, e: Event) {
    e.ItemEvent? && CodexOf(s, e.thread, e.item) != 0 && Reparents(s, CodexOf(s, e.thread, e.item), e.item)
  }

  /** Every event keeps agents and observations in step, exactly unless it claims another Codex's child. */
  lemma StepKeepsIff(s: State, e: Event)
    requires Inv(s)
    ensures Inv(Apply(s, e)) <==> !ClaimsOther(s, e)
  {
    match e
    case ItemEvent(thread, item) =>
      if CodexOf(s, thread, item) != 0 {
        ItemKeepsIff(s, CodexOf(s, thread, item), item);
      }
    case TurnEnded(thread) => EndTurnKeeps(s, thread);
    case Forgotten(c) => ForgetKeeps(s, c);
  }

  // ------------------------------------------------------------- main results

  function Start(threads: map<Id, Id>): State {
    State(threads, map[], map[], {})
  }

  ghost predicate NeverClaimsOther(s: State, events: seq<Event>) {
    events == [] ||
    (var earlier := events[..|events| - 1];
     NeverClaimsOther(s, earlier) && !ClaimsOther(Run(s, earlier), events[|events| - 1]))
  }

  /** After any events of any number of Codexes, none of which claims another's active child, a child is an
      agent of its Codex, and of no other, exactly when its recorded observation is not an end. */
  lemma {:induction false} AgentsAreTheActiveChildren(threads: map<Id, Id>, events: seq<Event>)
    requires NeverClaimsOther(Start(threads), events)
    ensures var s := Run(Start(threads), events);
      Inv(s) && forall c, k :: Agent(c, k) in s.agents <==> Active(s, k) && Belongs(s, k, c)
  {
    if events != [] {
      AgentsAreTheActiveChildren(threads, events[..|events| - 1]);
      StepKeepsIff(Run(Start(threads), events[..|events| - 1]), events[|events| - 1]);
    }
  }

  predicate Ended(s: State, child: Id) {
    child in s.childState && s.childState[child].terminal
  }

  /** The item resumes this child, and is not the item the end was recorded under. */
  predicate Resumes(s: State, e: Event, child: Id) {
    && e.ItemEvent? && CodexOf(s, e.thread, e.item) != 0
    && e.item.tool == ResumeAgent && child != 0
    && child in e.item.states && AgentActive(e.item.states[child])
    && (child in s.childState ==> s.childState[child].itemId != e.item.id)
  }

  /** An ended child becomes active again exactly by a resumeAgent item other than the recorded one. */
  lemma RevivedIffResumed(s: State, e: Event, child: Id)
    requires Ended(s, child)
    ensures Active(Apply(s, e), child) <==> Resumes(s, e, child)
  {
    match e
    case ItemEvent(thread, item) => ItemFacts(s, CodexOf(s, thread, item), item, child);
    case TurnEnded(thread) =>
    case Forgotten(c) =>
  }

  /** An ended child stays inactive through any events in which no resumeAgent item reports it
      active: late spawn and wait snapshots are no evidence. Only forgetting its Codex ends the
      record, so that is left out of `events`. */
  lemma {:induction false} StaysEnded(s: State, events: seq<Event>, child: Id)
    requires Ended(s, child)
    requires forall i :: 0 <= i < |events| ==>
      && !events[i].Forgotten?
      && !(events[i].ItemEvent? && events[i].item.tool == ResumeAgent && child in events[i].item.states &&
        AgentActive(events[i].item.states[child]))
    ensures Ended(Run(s, events), child)
  {
    if events != [] {
      var earlier := events[..|events| - 1];
      StaysEnded(s, earlier, child);
      var s1 := Run(s, earlier);
      var e := events[|events| - 1];
      RevivedIffResumed(s1, e, child);
      assert child in Apply(s1, e).childState;
    }
  }

  /** A repeated notification changes nothing. */
  lemma DuplicateIsNoOp(s: State, thread: Id, item: Item)
    ensures var s1 := Apply(s, ItemEvent(thread, item)); Apply(s1, ItemEvent(thread, item)) == s1
  {
    var codex := CodexOf(s, thread, item);
    if codex != 0 {
      var s1 := ApplyItem(s, codex, item);
      assert CodexOf(s1, thread, item) == codex;
      SecondTime(s, codex, item);
    }
  }

  /** The state already says what the item says of this child. */
  predicate Told(s: State, codex: Id, item: Item, k: Id) {
    && Belongs(s, k, codex)
    && var v := Verdict(s, item, k);
      v.Some? ==>
        && k in s.childState && s.childState[k] == Observation(item.id, !v.value)
        && (Agent(codex, k) in s.agents <==> v.value)
  }

  lemma NothingNew(s: State, codex: Id, item: Item)
    requires forall k :: k in Named(item) ==> Told(s, codex, item, k)
    ensures ApplyItem(s, codex, item) == s
  {
    assert Adopted(s, codex, Named(item)) == s.childCodex;
    assert Observed(s, item, Named(item)) == s.childState;
    assert Registered(s, codex, item, Named(item)) == s.agents;
  }

  lemma SecondTime(s: State, codex: Id, item: Item)
    ensures var s1 := ApplyItem(s, codex, item); ApplyItem(s1, codex, item) == s1
  {
    var s1 := ApplyItem(s, codex, item);
    forall k | k in Named(item) ensures Told(s1, codex, item, k) {
      ItemFacts(s, codex, item, k);
    }
    NothingNew(s1, codex, item);
  }

  /** A second Codex names an active child of the first: the first keeps an agent that no longer is its
      child, and the second has an active child that is not its agent. */
  lemma ReparentedIsMiscounted(c1: Id, c2: Id, r1: Id, r2: Id, child: Id, item: Id)
    requires c1 != 0 && c2 != 0 && c1 != c2 && r1 != 0 && r2 != 0 && r1 != r2 && child != 0
    ensures var spawned := ItemEvent(r1, Item(item, OtherTool, r1, [child], map[child := Running]));
      var claimed := Item(item, OtherTool, r2, [child], map[]);
      var s1 := Apply(Start(map[r1 := c1, r2 := c2]), spawned);
      var s2 := Apply(s1, ItemEvent(r2, claimed));
      && Inv(s1) && Reparents(s1, c2, claimed) && !Inv(s2)
      && Agent(c1, child) in s2.agents && Active(s2, child) && Belongs(s2, child, c2) && Agent(c2, child) !in s2.agents
  {
    var spawned := Item(item, OtherTool, r1, [child], map[child := Running]);
    var claimed := Item(item, OtherTool, r2, [child], map[]);
    var s0 := Start(map[r1 := c1, r2 := c2]);
    var s1 := ApplyItem(s0, c1, spawned);
    assert child in Named(spawned) && child in Named(claimed) && Named(spawned) == {child};
    assert !Reparents(s0, c1, spawned);
    ItemKeepsIff(s0, c1, spawned);
    assert s1.childState[child] == Observation(item, false) && s1.childCodex[child] == c1;
    assert CodexOf(s1, r2, claimed) == c2;
    ItemFacts(s1, c2, claimed, child);
    ItemKeepsIff(s1, c2, claimed);
  }

  /** The recorded item is the last one seen, not every one: a late copy of a resumeAgent item
      revives a child that another item reported ended in between. */
  lemma LateResumeRevives(codex: Id, root: Id, child: Id, resumeId: Id, endId: Id)
    requires codex != 0 && root != 0 && child != 0 && root != child && resumeId != endId
    ensures var resumed := ItemEvent(root, Item(resumeId, ResumeAgent, root, [child], map[child := Running]));
      var ended := ItemEvent(root, Item(endId, OtherTool, root, [child], map[child := Completed]));
      var s := Apply(Apply(Start(map[root := codex]), resumed), ended);
      Ended(s, child) && Active(Apply(s, resumed), child)
  {
    var r := Item(resumeId, ResumeAgent, root, [child], map[child := Running]);
    var t := Item(endId, OtherTool, root, [child], map[child := Completed]);
    var s0 := Start(map[root := codex]);
    var s1 := Apply(s0, ItemEvent(root, r));
    var s2 := Apply(s1, ItemEvent(root, t));
    assert child in Named(r) && child in Named(t);
    assert s2.childState[child] == Observation(endId, true);
    RevivedIffResumed(s2, ItemEvent(root, r), child);
  }
}
