/** The in-place form of applyCollabAgentItem and of the end-of-turn branch of applyAdapterEvent:
    the maps are updated child by child first, and the agent calls are made afterwards. */
module ChildTracker {
  import opened Common
  import C = Collab

  datatype Transition = Transition(child: Id, active: bool)

  function Call(agents: set<C.Agent>, codex: Id, t: Transition): set<C.Agent> {
    if t.active then agents + {C.Agent(codex, t.child)} else agents - {C.Agent(codex, t.child)}
  }

  function CallAll(agents: set<C.Agent>, codex: Id, ts: seq<Transition>): set<C.Agent> {
    if ts == [] then agents else Call(CallAll(agents, codex, ts[..|ts| - 1]), codex, ts[|ts| - 1])
  }

  function AddNew(unique: seq<Id>, k: Id): (r: seq<Id>)
    requires C.Distinct(unique)
    ensures C.Distinct(r) && forall x :: x in r <==> x in unique || (x == k && k != 0)
  {
    if k != 0 && k !in unique then unique + [k] else unique
  }

  lemma AllNamed(item: C.Item, unique: seq<Id>)
    requires forall x :: x in unique <==> x != 0 && (x in item.receivers || x in item.states.Keys)
    ensures C.Elements(unique) == C.Named(item)
  {
    assert forall x :: x in C.Elements(unique) <==> x in C.Named(item);
  }

  /** The children an item names, each once. The source sorts them; any order does. */
  method UniqueChildren(item: C.Item) returns (unique: seq<Id>)
    ensures C.Distinct(unique) && C.Elements(unique) == C.Named(item)
  {
    unique := [];
    for i := 0 to |item.receivers|
      invariant C.Distinct(unique)
      invariant forall x :: x in unique <==> x in item.receivers[..i] && x != 0
    {
      assert item.receivers[..i + 1] == item.receivers[..i] + [item.receivers[i]];
      unique := AddNew(unique, item.receivers[i]);
    }
    assert item.receivers[..|item.receivers|] == item.receivers;
    var rest := item.states.Keys;
    while exists k :: k in rest
      invariant rest <= item.states.Keys
      invariant C.Distinct(unique)
      invariant forall x :: x in unique <==> x != 0 && (x in item.receivers || x in item.states.Keys - rest)
      decreases rest
    {
      var k: Id :| k in rest;
      rest := rest - {k};
      unique := AddNew(unique, k);
    }
    assert item.states.Keys - rest == item.states.Keys;
    AllNamed(item, unique);
  }

  class Tracker {
    var byThread: map<Id, Id>
    var workspaceChildCodex: map<Id, Id>
    var workspaceChildState: map<Id, C.Observation>
    var agents: set<C.Agent>

    function State(): C.State
      reads this
    {
      C.State(byThread, workspaceChildCodex, workspaceChildState, agents)
    }

    /** One turn of the loop over the children. */
    method ObserveChild(codex: Id, item: C.Item, child: Id) returns (t: Option<Transition>)
      modifies this`workspaceChildCodex, this`workspaceChildState
      ensures var s' := C.ApplyChild(old(State()), codex, item, child);
        && workspaceChildCodex == s'.childCodex && workspaceChildState == s'.childState
        && var verdict := C.Verdict(old(State()), item, child);
          t == if verdict.None? then None else Some(Transition(child, verdict.value))
    {
      t := None;
      workspaceChildCodex := workspaceChildCodex[child := codex];
      if child !in item.states {
        return;
      }
      var active, terminal := C.AgentActive(item.states[child]), C.AgentTerminal(item.states[child]);
      if !active && !terminal {
        return;
      }
      var observation := if child in workspaceChildState then workspaceChildState[child] else C.Observation(0, false);
      if observation.terminal && active && (item.tool != C.ResumeAgent || observation.itemId == item.id) {
        return;
      }
      workspaceChildState := workspaceChildState[child := C.Observation(item.id, terminal)];
      t := Some(Transition(child, active));
    }

    /** The loop over the children; the agent calls are only collected. */
    method ObserveChildren(codex: Id, item: C.Item, children: seq<Id>) returns (transitions: seq<Transition>)
      modifies this`workspaceChildCodex, this`workspaceChildState
      ensures var s' := C.ApplyChildren(old(State()), codex, item, children);
        && workspaceChildCodex == s'.childCodex && workspaceChildState == s'.childState
        && CallAll(old(agents), codex, transitions) == s'.agents && byThread == s'.threads
    {
      transitions := [];
      assert children[..0] == [];
      for i := 0 to |children|
        invariant State().(agents := CallAll(agents, codex, transitions)) ==
          C.ApplyChildren(old(State()), codex, item, children[..i])
      {
        assert children[..i + 1][..i] == children[..i] && children[..i + 1][i] == children[i];
        var t := ObserveChild(codex, item, children[i]);
        if t.Some? {
          assert (transitions + [t.value])[..|transitions|] == transitions;
          transitions := transitions + [t.value];
        }
      }
      assert children[..|children|] == children;
    }

    method ApplyCollabAgentItem(thread: Id, item: C.Item)
      modifies this
      ensures State() == C.Apply(old(State()), C.ItemEvent(thread, item))
    {
      var sender := if item.sender == 0 then thread else item.sender;
      var codex := C.Lookup(byThread, sender);
      if codex == 0 {
        codex := C.Lookup(workspaceChildCodex, sender);
      }
      if codex == 0 {
        return;
      }
      var unique := UniqueChildren(item);
      C.AnyOrder(State(), codex, item, unique);
      var transitions := ObserveChildren(codex, item, unique);
      assert transitions[..0] == [];
      for i := 0 to |transitions|
        modifies this`agents
        invariant agents == CallAll(old(agents), codex, transitions[..i])
      {
        assert transitions[..i + 1][..i] == transitions[..i];
        var t := transitions[i];
        if t.active {
          agents := agents + {C.Agent(codex, t.child)};
        } else {
          agents := agents - {C.Agent(codex, t.child)};
        }
      }
      assert transitions[..|transitions|] == transitions;
    }

    /** A terminal turn notification for a thread. */
    method EndChildTurn(thread: Id)
      modifies this`workspaceChildState, this`agents
      ensures State() == C.Apply(old(State()), C.TurnEnded(thread))
    {
      var childCodex := C.Lookup(workspaceChildCodex, thread);
      if childCodex != 0 {
        var observation := if thread in workspaceChildState then workspaceChildState[thread]
          else C.Observation(0, false);
        workspaceChildState := workspaceChildState[thread := observation.(terminal := true)];
        agents := agents - {C.Agent(childCodex, thread)};
      }
    }
  }
}
