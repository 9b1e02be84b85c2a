/**
 Routings: every node feeds at most one other node. `g[n]` is the node that `n` feeds; a node
 outside the map feeds nothing in the graph. Mixer tracks of a project and nodes of a mixer
 graph are both routings.
 */
module Routing {

  type Graph = map<nat, nat>

  /** Where following outputs from `n` leads after `k` hops, stopping where there is no output. */
  function Walk(g: Graph, n: nat, k: nat): nat
    decreases k
  {
    if k == 0 || n !in g then n else Walk(g, g[n], k - 1)
  }

  /** No node feeds itself through any number of hops. */
  ghost predicate Acyclic(g: Graph) {
    forall n, k: nat | n in g && 0 < k :: Walk(g, n, k) != n
  }

  /** Following outputs from `n` ends at a node without one. */
  ghost predicate Ends(g: Graph, n: nat) {
    exists k: nat :: Walk(g, n, k) !in g
  }

  /** Following outputs from `n` for at least one hop arrives at `m`. */
  ghost predicate Feeds(g: Graph, n: nat, m: nat) {
    exists k: nat :: 0 < k && Walk(g, n, k) == m
  }

  /** `rank` counts down along every edge. */
  ghost predicate Ranks(g: Graph, rank: nat -> nat) {
    forall n | n in g :: rank(g[n]) < rank(n)
  }

  lemma WalkStep(g: Graph, n: nat, k: nat)
    requires Walk(g, n, k) in g
    ensures Walk(g, n, k + 1) == g[Walk(g, n, k)]
    decreases k
  {
    if k > 0 {
      WalkStep(g, g[n], k - 1);
    }
  }

  lemma WalkSum(g: Graph, n: nat, j: nat, k: nat)
    ensures Walk(g, n, j + k) == Walk(g, Walk(g, n, j), k)
    decreases j
  {
    if j > 0 && n in g {
      WalkSum(g, g[n], j - 1, k);
    }
  }

  lemma WalkDescends(g: Graph, rank: nat -> nat, n: nat, k: nat)
    requires Ranks(g, rank)
    ensures rank(Walk(g, n, k)) <= rank(n)
    ensures 0 < k && n in g ==> rank(Walk(g, n, k)) < rank(n)
    decreases k
  {
    if k > 0 && n in g {
      WalkDescends(g, rank, g[n], k - 1);
    }
  }

  lemma RankedIsAcyclic(g: Graph, rank: nat -> nat)
    requires Ranks(g, rank)
    ensures Acyclic(g)
  {
    forall n, k: nat | n in g && 0 < k ensures Walk(g, n, k) != n {
      WalkDescends(g, rank, n, k);
    }
  }

  lemma FeedsNext(g: Graph, s: nat, n: nat)
    requires n in g
    requires s == n || Feeds(g, s, n)
    ensures Feeds(g, s, g[n])
  {
    if s == n {
      assert Walk(g, n, 1) == g[n];
    } else {
      var k: nat :| 0 < k && Walk(g, s, k) == n;
      WalkStep(g, s, k);
      assert Walk(g, s, k + 1) == g[n];
    }
  }

  /** A walk that has not ended after visiting every node of `seen` has to close a cycle. */
  lemma AcyclicWalkEnds(g: Graph, n: nat, seen: set<nat>) returns (k: nat)
    requires Acyclic(g)
    requires seen <= g.Keys
    requires forall s | s in seen :: Feeds(g, s, n)
    ensures Walk(g, n, k) !in g
    decreases g.Keys - seen
  {
    if n !in g {
      k := 0;
    } else {
      assert n !in seen;
      forall s | s in seen + {n} ensures Feeds(g, s, g[n]) {
        FeedsNext(g, s, n);
      }
      var rest := AcyclicWalkEnds(g, g[n], seen + {n});
      k := rest + 1;
    }
  }

  /** The number of hops from `n` to a node without output, when there is one. */
  ghost function Depth(g: Graph, n: nat): (d: nat)
    requires Ends(g, n)
    ensures Walk(g, n, d) !in g
    ensures forall k: nat | k < d :: Walk(g, n, k) in g
  {
    var k: nat :| Walk(g, n, k) !in g;
    LeastEnd(g, n, k)
  }

  ghost function LeastEnd(g: Graph, n: nat, k: nat): (d: nat)
    requires Walk(g, n, k) !in g
    ensures d <= k && Walk(g, n, d) !in g
    ensures forall j: nat | j < d :: Walk(g, n, j) in g
  {
    if k == 0 then 0
    else if Walk(g, n, k - 1) !in g then LeastEnd(g, n, k - 1)
    else
      assert forall j: nat | j < k :: Walk(g, n, j) in g by { StaysBefore(g, n, k - 1); }
      k
  }

  lemma StaysBefore(g: Graph, n: nat, k: nat)
    requires Walk(g, n, k) in g
    ensures forall j: nat | j <= k :: Walk(g, n, j) in g
  {
    forall j: nat | j <= k ensures Walk(g, n, j) in g {
      WalkSum(g, n, j, k - j);
    }
  }

  lemma DepthStep(g: Graph, n: nat)
    requires n in g && Ends(g, n)
    ensures Ends(g, g[n]) && Depth(g, n) == Depth(g, g[n]) + 1
  {
    var d := Depth(g, n);
    assert Walk(g, n, 0) == n;
    assert Walk(g, g[n], d - 1) == Walk(g, n, d);
    var e := Depth(g, g[n]);
    assert Walk(g, n, e + 1) == Walk(g, g[n], e);
    assert !(e + 1 < d);
    assert !(d - 1 < e);
  }

  lemma EndsOnward(g: Graph, n: nat, k: nat)
    ensures Ends(g, n) <==> Ends(g, Walk(g, n, k))
    ensures Ends(g, n) && n in g && 0 < k ==> Depth(g, Walk(g, n, k)) < Depth(g, n)
    decreases k
  {
    if k > 0 && n in g {
      EndsOnward(g, g[n], k - 1);
      if Ends(g, n) {
        DepthStep(g, n);
      }
      if Ends(g, g[n]) {
        var e: nat :| Walk(g, g[n], e) !in g;
        assert Walk(g, n, e + 1) !in g;
      }
    }
  }

  lemma LoopNeverEnds(g: Graph, n: nat)
    requires n in g && Feeds(g, n, n)
    ensures !Ends(g, n)
  {
    var k: nat :| 0 < k && Walk(g, n, k) == n;
    EndsOnward(g, n, k);
  }

  /** Acyclic, every walk ends, and a rank exists: three ways of saying the same. */
  lemma AcyclicIffEnds(g: Graph)
    ensures Acyclic(g) <==> forall n | n in g :: Ends(g, n)
  {
    if Acyclic(g) {
      forall n | n in g ensures Ends(g, n) {
        var k := AcyclicWalkEnds(g, n, {});
      }
    }
    if forall n | n in g :: Ends(g, n) {
      var rank := RankOf(g);
      RankedIsAcyclic(g, rank);
    }
  }

  lemma RankOf(g: Graph) returns (rank: nat -> nat)
    requires forall n | n in g :: Ends(g, n)
    ensures Ranks(g, rank)
    ensures forall n | n !in g :: rank(n) == 0
  {
    rank := (n: nat) => if n in g && Ends(g, n) then Depth(g, n) else 0;
    forall n | n in g ensures rank(g[n]) < rank(n) {
      DepthStep(g, n);
      assert Walk(g, n, 0) == n;
    }
  }

  lemma AcyclicHasRank(g: Graph) returns (rank: nat -> nat)
    requires Acyclic(g)
    ensures Ranks(g, rank)
    ensures forall n | n !in g :: rank(n) == 0
  {
    AcyclicIffEnds(g);
    rank := RankOf(g);
  }

  // ----- redirected edges ----------------------------------------------------------------------

  /** Going from `n` from output to output, one comes to `l`. */
  ghost predicate ComesTo(g: Graph, n: nat, l: nat) {
    exists k: nat :: Walk(g, n, k) == l
  }

  lemma OneHop(g: Graph, n: nat, l: nat)
    requires n in g && n != l
    ensures ComesTo(g, n, l) <==> ComesTo(g, g[n], l)
  {
    if ComesTo(g, n, l) {
      var k: nat :| Walk(g, n, k) == l;
      assert Walk(g, g[n], k - 1) == l;
    }
    if ComesTo(g, g[n], l) {
      var k: nat :| Walk(g, g[n], k) == l;
      assert Walk(g, n, k + 1) == l;
    }
  }

  /** A node that comes to `l` ranks above the node that `l`, or what feeds it, is sent to, and above all that comes from. */
  ghost function Lifted(g: Graph, rank: nat -> nat, l: nat, group: nat, n: nat): nat {
    if ComesTo(g, n, l) then rank(n) + rank(group) + 1 else rank(n)
  }
}
