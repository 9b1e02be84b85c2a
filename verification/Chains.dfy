/**
 Stacks whose entries stand between states: entry `i` relates state `i` to the next one, and the top
 entry relates the last state to `end`.
 */
module Chains {

  function Next<S>(states: seq<S>, end: S, i: nat): S
    requires i < |states|
  {
    if i + 1 < |states| then states[i + 1] else end
  }

  ghost predicate Chain<C, S>(entries: seq<C>, states: seq<S>, end: S, rel: (C, S, S) -> bool) {
    && |entries| == |states|
    && forall i: nat | i < |states| :: rel(entries[i], states[i], Next(states, end, i))
  }

  lemma Push<C, S>(entries: seq<C>, states: seq<S>, end: S, rel: (C, S, S) -> bool, c: C, end': S)
    requires Chain(entries, states, end, rel) && rel(c, end, end')
    ensures Chain(entries + [c], states + [end], end', rel)
  {
    forall i: nat | i < |states| + 1
      ensures rel((entries + [c])[i], (states + [end])[i], Next(states + [end], end', i))
    {
      if i < |states| {
        assert rel(entries[i], states[i], Next(states, end, i));
      }
    }
  }

  lemma Pop<C, S>(entries: seq<C>, states: seq<S>, end: S, rel: (C, S, S) -> bool)
    requires Chain(entries, states, end, rel) && states != []
    ensures var n := |states| - 1;
      Chain(entries[..n], states[..n], states[n], rel) && rel(entries[n], states[n], end)
  {
    var n := |states| - 1;
    forall i: nat | i < n ensures rel(entries[..n][i], states[..n][i], Next(states[..n], states[n], i)) {
      assert rel(entries[i], states[i], Next(states, end, i));
    }
    assert rel(entries[n], states[n], Next(states, end, n));
  }

  /** The top entry replaced by one that leads to a new end. */
  lemma ReplaceTop<C, S>(entries: seq<C>, states: seq<S>, end: S, rel: (C, S, S) -> bool, c: C, end': S)
    requires Chain(entries, states, end, rel) && states != []
    requires rel(c, states[|states| - 1], end')
    ensures Chain(entries[|states| - 1 := c], states, end', rel)
  {
    var n := |states| - 1;
    Pop(entries, states, end, rel);
    Push(entries[..n], states[..n], states[n], rel, c, end');
    assert entries[..n] + [c] == entries[n := c];
    assert states[..n] + [states[n]] == states;
  }

  /** The two top entries replaced by one that leads over both. */
  lemma MergeTop<C, S>(entries: seq<C>, states: seq<S>, end: S, rel: (C, S, S) -> bool, c: C)
    requires Chain(entries, states, end, rel) && 1 < |states|
    requires rel(c, states[|states| - 2], end)
    ensures Chain(entries[..|states| - 1][|states| - 2 := c], states[..|states| - 1], end, rel)
  {
    var n := |states| - 1;
    Pop(entries, states, end, rel);
    ReplaceTop(entries[..n], states[..n], states[n], rel, c, end);
  }
}
