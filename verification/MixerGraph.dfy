/**
 The mixer graph: tracks by dense index, each feeding at most one other, put into an order in which
 every track comes before the one it feeds. A routing with a cycle, or without a master, is refused.
 */
module MixerGraphs {
  import opened Routing

  datatype GraphNode = GraphNode(output: int, effects: seq<nat>, trackId: nat)

  predicate HasEdge(nodes: seq<GraphNode>, i: nat) {
    i < |nodes| && 0 <= nodes[i].output < |nodes|
  }

  function Fed(nodes: seq<GraphNode>, i: nat): nat
    requires HasEdge(nodes, i)
  {
    nodes[i].output
  }

  /** Who feeds whom, outputs that name no node left out. */
  function EdgesOf(nodes: seq<GraphNode>): Graph {
    map i: nat | i < |nodes| && HasEdge(nodes, i) :: Fed(nodes, i)
  }

  predicate IsMaster(nodes: seq<GraphNode>, i: nat) {
    i < |nodes| && nodes[i].output < 0
  }

  /** `master` is the last node without an output, or -1. */
  ghost predicate LastMaster(nodes: seq<GraphNode>, master: int) {
    if exists i: nat :: IsMaster(nodes, i)
    then 0 <= master && IsMaster(nodes, master) && forall i: nat | IsMaster(nodes, i) :: i <= master
    else master == -1
  }

  /** Every node exactly once, and before the node it feeds. */
  ghost predicate RenderOrder(nodes: seq<GraphNode>, order: seq<nat>) {
    && |order| == |nodes|
    && (forall a | 0 <= a < |order| :: order[a] < |nodes|)
    && (forall a, b | 0 <= a < b < |order| :: order[a] != order[b])
    && (forall i: nat | i < |nodes| :: i in order)
    && (forall a, b | 0 <= a < |order| && 0 <= b < |order| && HasEdge(nodes, order[a])
          && Fed(nodes, order[a]) == order[b] :: a < b)
  }

  // ----- the depth-first walk ----------------------------------------------

  // Marks: 0 unvisited, 1 on the stack, 2 done.
  predicate Marks(nodes: seq<GraphNode>, state: seq<nat>) {
    |state| == |nodes| && forall i | 0 <= i < |state| :: state[i] <= 2
  }

  function FedBefore(nodes: seq<GraphNode>, reverse: seq<nat>, a: nat): bool
    requires a < |reverse|
  {
    HasEdge(nodes, reverse[a]) ==> Fed(nodes, reverse[a]) in reverse[..a]
  }

  /** The nodes done so far, each after the node it feeds. */
  ghost predicate DoneSoFar(nodes: seq<GraphNode>, state: seq<nat>, reverse: seq<nat>)
    requires Marks(nodes, state)
  {
    && (forall a | 0 <= a < |reverse| :: reverse[a] < |nodes| && state[reverse[a]] == 2)
    && (forall i: nat | i < |state| && state[i] == 2 :: i in reverse)
    && (forall a, b | 0 <= a < b < |reverse| :: reverse[a] != reverse[b])
    && (forall a: nat | a < |reverse| :: FedBefore(nodes, reverse, a))
  }

  /** The stack is a path along outputs; all of it is marked except perhaps its top. */
  ghost predicate OnPath(nodes: seq<GraphNode>, state: seq<nat>, stack: seq<nat>)
    requires Marks(nodes, state)
  {
    && (forall k | 0 <= k < |stack| :: stack[k] < |nodes|)
    && (forall k | 0 <= k < |stack| - 1 ::
          state[stack[k]] == 1 && HasEdge(nodes, stack[k]) && Fed(nodes, stack[k]) == stack[k + 1])
    && (forall i: nat | i < |state| && state[i] == 1 :: i in stack)
    && (forall j, k | 0 <= j < k < |stack| :: stack[j] != stack[k])
  }

  /** The top is new, or everything it feeds is done. */
  ghost predicate TopReady(nodes: seq<GraphNode>, state: seq<nat>, stack: seq<nat>)
    requires Marks(nodes, state) && OnPath(nodes, state, stack) && stack != []
  {
    var top := stack[|stack| - 1];
    || state[top] == 0
    || (state[top] == 1 && (HasEdge(nodes, top) ==> state[Fed(nodes, top)] == 2))
  }

  lemma {:induction false} PathWalk(nodes: seq<GraphNode>, state: seq<nat>, stack: seq<nat>, j: nat, k: nat)
    requires Marks(nodes, state) && OnPath(nodes, state, stack) && j <= k < |stack|
    ensures Walk(EdgesOf(nodes), stack[j], k - j) == stack[k]
    decreases k - j
  {
    if j < k {
      PathWalk(nodes, state, stack, j + 1, k);
    }
  }

  /** An output that leads back onto the stack closes a cycle. */
  lemma {:induction false} BackEdge(nodes: seq<GraphNode>, state: seq<nat>, stack: seq<nat>)
    requires Marks(nodes, state) && OnPath(nodes, state, stack) && stack != []
    requires HasEdge(nodes, stack[|stack| - 1]) && state[Fed(nodes, stack[|stack| - 1])] == 1
    ensures !Acyclic(EdgesOf(nodes))
  {
    var g := EdgesOf(nodes);
    var top := |stack| - 1;
    var back := Fed(nodes, stack[top]);
    var j :| 0 <= j < |stack| && stack[j] == back;
    PathWalk(nodes, state, stack, j, top);
    WalkStep(g, back, top - j);
    assert Walk(g, back, top - j + 1) == back;
    assert back in g;
  }

  /** The state of the walk between two turns of its loop. */
  ghost predicate Walking(nodes: seq<GraphNode>, state: seq<nat>, reverse: seq<nat>, stack: seq<nat>) {
    && Marks(nodes, state) && DoneSoFar(nodes, state, reverse) && OnPath(nodes, state, stack)
    && (stack != [] ==> TopReady(nodes, state, stack))
  }

  /** The top of the stack, with everything it feeds done, joins the nodes that are done. */
  lemma {:induction false} FinishNode(nodes: seq<GraphNode>, state: seq<nat>, reverse: seq<nat>, stack: seq<nat>)
    requires Walking(nodes, state, reverse, stack)
    requires stack != [] && state[stack[|stack| - 1]] == 1
    ensures var current := stack[|stack| - 1];
      Walking(nodes, state[current := 2], reverse + [current], stack[..|stack| - 1])
  {
    var current := stack[|stack| - 1];
    var longer, state' := reverse + [current], state[current := 2];
    assert DoneSoFar(nodes, state', longer) by {
      forall a: nat | a < |longer| ensures FedBefore(nodes, longer, a) {
        if a < |reverse| {
          assert longer[..a] == reverse[..a] && FedBefore(nodes, reverse, a);
        } else {
          assert longer[..a] == reverse;
        }
      }
    }
    assert OnPath(nodes, state', stack[..|stack| - 1]);
  }

  /** A new node at the top is marked; what it feeds, when new itself, goes on top of it. */
  lemma {:induction false} EnterNode(nodes: seq<GraphNode>, state: seq<nat>, reverse: seq<nat>, stack: seq<nat>)
    requires Walking(nodes, state, reverse, stack)
    requires stack != [] && state[stack[|stack| - 1]] == 0
    ensures var current := stack[|stack| - 1]; var state' := state[current := 1];
      && Unvisited(state') == Unvisited(state) - {current} && current in Unvisited(state)
      && Marks(nodes, state') && DoneSoFar(nodes, state', reverse) && OnPath(nodes, state', stack)
      && (!HasEdge(nodes, current) ==> Walking(nodes, state', reverse, stack))
      && (HasEdge(nodes, current) && state'[Fed(nodes, current)] == 2 ==> Walking(nodes, state', reverse, stack))
      && (HasEdge(nodes, current) && state'[Fed(nodes, current)] == 0 ==>
            Walking(nodes, state', reverse, stack + [Fed(nodes, current)]))
  {
    var current := stack[|stack| - 1];
    var state' := state[current := 1];
    assert DoneSoFar(nodes, state', reverse);
    assert OnPath(nodes, state', stack);
  }

  function Unvisited(state: seq<nat>): set<nat> {
    set i: nat | i < |state| && state[i] == 0
  }

  /** Visits everything reachable from `start`, or finds a cycle. */
  method Visit(nodes: seq<GraphNode>, start: nat, state0: seq<nat>, reverse0: seq<nat>)
    returns (ok: bool, state: seq<nat>, reverse: seq<nat>)
    requires Marks(nodes, state0) && DoneSoFar(nodes, state0, reverse0)
    requires start < |nodes| && state0[start] == 0
    requires forall i | 0 <= i < |state0| :: state0[i] != 1
    ensures !ok ==> !Acyclic(EdgesOf(nodes))
    ensures ok ==> Marks(nodes, state) && DoneSoFar(nodes, state, reverse)
    ensures ok ==> state[start] == 2 && forall i | 0 <= i < |state| :: state[i] != 1
    ensures ok ==> forall i | 0 <= i < |state| && state0[i] == 2 :: state[i] == 2
  {
    state, reverse := state0, reverse0;
    var stack: seq<nat> := [start];
    while stack != []
      invariant Walking(nodes, state, reverse, stack)
      invariant start in stack || state[start] == 2
      invariant forall i | 0 <= i < |state| && state0[i] == 2 :: state[i] == 2
      decreases Unvisited(state), |stack|
    {
      var top := |stack| - 1;
      var current := stack[top];
      if state[current] == 2 {
        assert false;  // a node is pushed only while it is new, and processed right away
      }
      if state[current] == 1 {
        FinishNode(nodes, state, reverse, stack);
        SameUnvisited(state, current);
        state := state[current := 2];
        reverse := reverse + [current];
        stack := stack[..top];
        continue;
      }
      EnterNode(nodes, state, reverse, stack);
      state := state[current := 1];
      var output := nodes[current].output;
      if output < 0 || output >= |nodes| {
        continue;
      }
      if state[output] == 1 {
        BackEdge(nodes, state, stack);
        return false, state, reverse;
      }
      if state[output] == 0 {
        stack := stack + [output];
      }
    }
    return true, state, reverse;
  }

  lemma SameUnvisited(state: seq<nat>, current: nat)
    requires current < |state| && state[current] == 1
    ensures Unvisited(state[current := 2]) == Unvisited(state)
  {
  }

  class MixerGraph {
    var nodes: seq<GraphNode>
    var order: seq<nat>
    var master: int
    var effectCount: nat

    constructor (nodes: seq<GraphNode>)
      ensures this.nodes == nodes && order == [] && master == -1 && effectCount == 0
    {
      this.nodes, order, master, effectCount := nodes, [], -1, 0;
    }

    /** The dense index of the track with this identifier, or -1. */
    method IndexOf(trackId: nat) returns (index: int)
      ensures -1 <= index < |nodes|
      ensures 0 <= index ==> nodes[index].trackId == trackId
      ensures forall i | 0 <= i < (if index < 0 then |nodes| else index) :: nodes[i].trackId != trackId
    {
      for i := 0 to |nodes|
        invariant forall j | 0 <= j < i :: nodes[j].trackId != trackId
      {
        if nodes[i].trackId == trackId {
          return i;
        }
      }
      return -1;
    }

    /** Accepts exactly the acyclic routings with a master, and leaves them in render order. */
    method Finalise() returns (ok: bool)
      modifies `order, `master, `effectCount
      ensures ok <==> Acyclic(EdgesOf(nodes)) && exists i: nat :: IsMaster(nodes, i)
      ensures ok ==> RenderOrder(nodes, order)
      ensures LastMaster(nodes, master)
      ensures effectCount == EffectsUpTo(nodes, |nodes|)
    {
      order := [];
      FindMaster();
      var state: seq<nat> := seq(|nodes|, _ => 0);
      var reverse: seq<nat> := [];
      for start := 0 to |nodes|
        invariant unchanged(`nodes) && order == []
        invariant LastMaster(nodes, master)
        invariant effectCount == EffectsUpTo(nodes, |nodes|)
        invariant Marks(nodes, state) && DoneSoFar(nodes, state, reverse)
        invariant forall i | 0 <= i < |state| :: state[i] != 1
        invariant forall i | 0 <= i < start :: state[i] == 2
      {
        if state[start] == 0 {
          ok, state, reverse := Visit(nodes, start, state, reverse);
          if !ok {
            return false;
          }
        }
      }
      AllDone(nodes, state, reverse);
      for i := 0 to |reverse|
        invariant unchanged(`nodes)
        invariant LastMaster(nodes, master)
        invariant effectCount == EffectsUpTo(nodes, |nodes|)
        invariant |order| == i && forall a | 0 <= a < i :: order[a] == reverse[|reverse| - 1 - a]
      {
        order := order + [reverse[|reverse| - 1 - i]];
      }
      ReversedOrder(nodes, reverse, order);
      return master >= 0;
    }

    method FindMaster()
      modifies `master, `effectCount
      ensures LastMaster(nodes, master)
      ensures effectCount == EffectsUpTo(nodes, |nodes|)
    {
      master, effectCount := -1, 0;
      for i := 0 to |nodes|
        invariant -1 <= master < i
        invariant 0 <= master ==> IsMaster(nodes, master)
        invariant forall j: nat | j < i && IsMaster(nodes, j) :: j <= master
        invariant effectCount == EffectsUpTo(nodes, i)
      {
        if nodes[i].output < 0 {
          master := i;
        }
        effectCount := effectCount + |nodes[i].effects|;
      }
    }
  }

  function EffectsUpTo(nodes: seq<GraphNode>, n: nat): nat
    requires n <= |nodes|
  {
    if n == 0 then 0 else EffectsUpTo(nodes, n - 1) + |nodes[n - 1].effects|
  }

  /** With every node done, the position in `reverse` is a rank of the routing. */
  lemma {:induction false} AllDone(nodes: seq<GraphNode>, state: seq<nat>, reverse: seq<nat>)
    requires Marks(nodes, state) && DoneSoFar(nodes, state, reverse)
    requires forall i | 0 <= i < |state| :: state[i] == 2
    ensures Acyclic(EdgesOf(nodes)) && |reverse| == |nodes|
    ensures forall i: nat | i < |nodes| :: i in reverse
  {
    var g := EdgesOf(nodes);
    var rank: nat -> nat := (n: nat) => if n in reverse then Position(reverse, n) else 0;
    forall n | n in g ensures rank(g[n]) < rank(n) {
      var a := Position(reverse, n);
      assert FedBefore(nodes, reverse, a);
    }
    RankedIsAcyclic(g, rank);
    SameSize(reverse, |nodes|);
  }

  function Position(s: seq<nat>, n: nat): (a: nat)
    requires n in s
    ensures a < |s| && s[a] == n
    ensures n !in s[..a]
  {
    if s[0] == n then 0
    else
      assert s == [s[0]] + s[1..];
      1 + Position(s[1..], n)
  }

  lemma {:induction false} SameSize(s: seq<nat>, n: nat)
    requires forall a, b | 0 <= a < b < |s| :: s[a] != s[b]
    requires forall a | 0 <= a < |s| :: s[a] < n
    requires forall i: nat | i < n :: i in s
    requires s != [] ==> s[0] < n
    ensures |s| == n
    decreases n
  {
    if n > 0 {
      var a := Position(s, n - 1);
      var t := s[..a] + s[a + 1..];
      forall i: nat | i < n - 1 ensures i in t {
        var b := Position(s, i);
        assert if b < a then t[b] == i else t[b - 1] == i;
      }
      SameSize(t, n - 1);
    }
  }

  lemma {:induction false} ReversedOrder(nodes: seq<GraphNode>, reverse: seq<nat>, order: seq<nat>)
    requires |reverse| == |nodes| == |order|
    requires forall a | 0 <= a < |reverse| :: reverse[a] < |nodes|
    requires forall a, b | 0 <= a < b < |reverse| :: reverse[a] != reverse[b]
    requires forall i: nat | i < |nodes| :: i in reverse
    requires forall a: nat | a < |reverse| :: FedBefore(nodes, reverse, a)
    requires forall a | 0 <= a < |order| :: order[a] == reverse[|reverse| - 1 - a]
    ensures RenderOrder(nodes, order)
  {
    var n := |nodes|;
    forall i: nat | i < n ensures i in order {
      assert order[n - 1 - Position(reverse, i)] == i;
    }
    forall a, b | 0 <= a < n && 0 <= b < n && HasEdge(nodes, order[a]) && Fed(nodes, order[a]) == order[b]
      ensures a < b
    {
      assert FedBefore(nodes, reverse, n - 1 - a);
      var k :| 0 <= k < n - 1 - a && reverse[k] == order[b];
      assert reverse[n - 1 - b] == order[b];
    }
  }
}
