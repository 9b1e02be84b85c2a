/**
 What a mixer strip, a chain and a routing do to what is heard, said of the frames themselves.
 */
module MixerMeanings {
  import opened Routing
  import opened MixerGraphs
  import opened MixerRender

  // ----- a strip ------------------------------------------------------------------------------------

  /** A frame as its strip lets it through: nothing while muted; otherwise the gain on both sides, less the pan's share on
      the side away from it. */
  predicate LetsThrough(s: Strip, f: Frame, r: Frame) {
    if s.muted then r == Frame(0.0, 0.0)
    else if 0.0 <= s.pan then r.left == (1.0 - s.pan) * (s.gain * f.left) && r.right == s.gain * f.right
    else r.left == s.gain * f.left && r.right == (1.0 + s.pan) * (s.gain * f.right)
  }

  lemma Sides(gain: real, share: real, x: real)
    ensures x * (gain * share) == share * (gain * x) && x * (gain * 1.0) == gain * x && x * (0.0 * share) == 0.0
  {
  }

  lemma StripMeans(s: Strip, f: Frame)
    ensures LetsThrough(s, f, Levelled(s, f))
  {
    Sides(s.gain, 1.0 - s.pan, f.left);
    Sides(s.gain, 1.0 + s.pan, f.right);
    Sides(s.gain, 1.0, f.left);
    Sides(s.gain, 1.0, f.right);
    Sides(0.0, 1.0 - s.pan, f.left);
    Sides(0.0, 1.0 + s.pan, f.right);
  }

  /** In the centre both sides have the gain; at either end the far side is silent and the near one has it. */
  lemma PanMeans(s: Strip, f: Frame)
    requires !s.muted
    ensures s.pan == 0.0 ==> Levelled(s, f) == Frame(s.gain * f.left, s.gain * f.right)
    ensures s.pan == 1.0 ==> Levelled(s, f) == Frame(0.0, s.gain * f.right)
    ensures s.pan == -1.0 ==> Levelled(s, f) == Frame(s.gain * f.left, 0.0)
  {
    StripMeans(s, f);
  }

  lemma MutedIsSilent(s: Strip, f: Frame)
    requires s.muted
    ensures Levelled(s, f) == SILENCE
  {
    StripMeans(s, f);
  }

  // ----- a chain ------------------------------------------------------------------------------------

  /** A chain runs its inserts first to last, each on what the one before it left, and passes over those not hosted. */
  lemma {:induction false} ChainMeans(rack: Rack, front: seq<nat>, effect: nat, b: Buffer)
    requires KeepsLength(rack)
    ensures Chain(rack, [], b) == b
    ensures Chain(rack, [effect] + front, b) ==
            Chain(rack, front, if effect in rack.hosted then rack.process(effect, b) else b)
  {
    if front == [] {
      assert ([effect] + front)[..0] == [];
    } else {
      var n := |front| - 1;
      ChainMeans(rack, front[..n], effect, b);
      assert ([effect] + front)[..|front|] == [effect] + front[..n];
    }
  }

  // ----- a routing ----------------------------------------------------------------------------------

  /** What feeds a bus adds up: nothing comes from tracks that feed another, and one that feeds it adds its frame. */
  lemma {:induction false} FeedOne(nodes: seq<GraphNode>, strips: seq<Strip>, signals: seq<Buffer>, target: int, f: nat,
                                   n: nat, j: nat)
    requires j < n <= |nodes| == |strips| == |signals| && (forall i | 0 <= i < |signals| :: f < |signals[i]|)
    requires forall i: nat | i < n && i != j :: !Reaches(nodes[i], target)
    requires nodes[j].output == target || (nodes[j].output < 0 && target < 0)
    ensures Feed(nodes, strips, signals, Everyone(|nodes|), target, f, n) == Levelled(strips[j], signals[j][f])
  {
    if j == n - 1 {
      FeedNobody(nodes, strips, signals, target, f, j);
    } else {
      FeedOne(nodes, strips, signals, target, f, n - 1, j);
    }
  }

  lemma {:induction false} FeedNobody(nodes: seq<GraphNode>, strips: seq<Strip>, signals: seq<Buffer>, target: int, f: nat,
                                      n: nat)
    requires n <= |nodes| == |strips| == |signals| && (forall i | 0 <= i < |signals| :: f < |signals[i]|)
    requires forall i: nat | i < n :: !Reaches(nodes[i], target)
    ensures Feed(nodes, strips, signals, Everyone(|nodes|), target, f, n) == SILENCE
  {
    if n > 0 {
      FeedNobody(nodes, strips, signals, target, f, n - 1);
    }
  }

  // ----- a muted track ------------------------------------------------------------------------------

  /** An insert is hosted in both racks or in neither, and does the same. */
  ghost predicate SameInsert(rack: Rack, rack': Rack, e: nat) {
    (e in rack.hosted <==> e in rack'.hosted) && forall b :: rack.process(e, b) == rack'.process(e, b)
  }

  /** So are all but those of track `m`. */
  ghost predicate SameRack(nodes: seq<GraphNode>, m: nat, rack: Rack, rack': Rack) {
    forall i, e | 0 <= i < |nodes| && i != m && e in nodes[i].effects :: SameInsert(rack, rack', e)
  }

  lemma {:induction false} SameChain(effects: seq<nat>, rack: Rack, rack': Rack, b: Buffer)
    requires KeepsLength(rack) && KeepsLength(rack')
    requires forall e | e in effects :: SameInsert(rack, rack', e)
    ensures Chain(rack, effects, b) == Chain(rack', effects, b)
  {
    if effects != [] {
      assert SameInsert(rack, rack', effects[|effects| - 1]);
      SameChain(effects[..|effects| - 1], rack, rack', b);
    }
  }

  lemma {:induction false} SameFeed(nodes: seq<GraphNode>, strips: seq<Strip>, s: seq<Buffer>, s': seq<Buffer>, m: nat,
                                    target: int, f: nat, n: nat)
    requires n <= |nodes| == |strips| == |s| == |s'| && m < |nodes| && strips[m].muted
    requires forall i | 0 <= i < |s| :: f < |s[i]|
    requires forall i | 0 <= i < |s'| :: f < |s'[i]|
    requires forall j: nat | j < n && j != m && Reaches(nodes[j], target) :: s[j] == s'[j]
    ensures Feed(nodes, strips, s, Everyone(|nodes|), target, f, n) ==
            Feed(nodes, strips, s', Everyone(|nodes|), target, f, n)
  {
    if n > 0 {
      SameFeed(nodes, strips, s, s', m, target, f, n - 1);
      if n - 1 == m {
        MutedIsSilent(strips[m], s[m][f]);
        MutedIsSilent(strips[m], s'[m][f]);
      }
    }
  }

  /** The two evaluations of the tree. */
  ghost predicate Both(nodes: seq<GraphNode>, strips: seq<Strip>, rack: Rack, rack': Rack, inputs: seq<Buffer>,
                       inputs': seq<Buffer>, frames: nat, s: seq<Buffer>, s': seq<Buffer>)
  {
    && |nodes| == |strips| && Shaped(inputs, |nodes|, frames) && Shaped(inputs', |nodes|, frames)
    && KeepsLength(rack) && KeepsLength(rack')
    && Evaluates(nodes, strips, rack, inputs, frames, s) && Evaluates(nodes, strips, rack', inputs', frames, s')
  }

  lemma {:induction false} SameElsewhere(nodes: seq<GraphNode>, strips: seq<Strip>, rack: Rack, rack': Rack,
                                         inputs: seq<Buffer>, inputs': seq<Buffer>, frames: nat, s: seq<Buffer>,
                                         s': seq<Buffer>, m: nat, rank: nat -> nat, bound: nat, i: nat)
    requires Both(nodes, strips, rack, rack', inputs, inputs', frames, s, s')
    requires m < |nodes| && strips[m].muted && SameRack(nodes, m, rack, rack')
    requires forall j: nat | j < |nodes| && j != m :: inputs[j] == inputs'[j]
    requires Ranks(EdgesOf(nodes), rank) && i < |nodes| && i != m && forall j: nat | j < |nodes| :: rank(j) <= bound
    ensures s[i] == s'[i]
    decreases bound - rank(i)
  {
    forall j: nat | j < |nodes| && j != m && Reaches(nodes[j], i) ensures s[j] == s'[j] {
      assert j in EdgesOf(nodes);
      SameElsewhere(nodes, strips, rack, rack', inputs, inputs', frames, s, s', m, rank, bound, j);
    }
    var x, x' := Mixed(nodes, strips, inputs, s, frames, i), Mixed(nodes, strips, inputs', s', frames, i);
    forall f: nat | f < frames ensures x[f] == x'[f] {
      SameFeed(nodes, strips, s, s', m, i, f, |nodes|);
    }
    assert x == x';
    SameChain(nodes[i].effects, rack, rack', x);
  }

  /** While a track is muted nothing of it is heard: whatever comes into it and whatever its inserts make of that, the
      signal of every other track and what the device holds are the same. */
  lemma {:induction false} MutedIsUnheard(nodes: seq<GraphNode>, strips: seq<Strip>, rack: Rack, rack': Rack,
                                          inputs: seq<Buffer>, inputs': seq<Buffer>, frames: nat, s: seq<Buffer>,
                                          s': seq<Buffer>, m: nat, was: seq<Frame>, device: seq<Frame>,
                                          device': seq<Frame>, stereo: bool, offset: nat)
    requires Both(nodes, strips, rack, rack', inputs, inputs', frames, s, s') && Acyclic(EdgesOf(nodes))
    requires m < |nodes| && strips[m].muted && SameRack(nodes, m, rack, rack')
    requires forall j: nat | j < |nodes| && j != m :: inputs[j] == inputs'[j]
    requires |was| == |device| == |device'| && offset + frames <= |was|
    requires DeviceHolds(nodes, strips, s, Everyone(|nodes|), frames, was, device, stereo, offset)
    requires DeviceHolds(nodes, strips, s', Everyone(|nodes|), frames, was, device', stereo, offset)
    ensures device == device' && forall i: nat | i < |nodes| && i != m :: s[i] == s'[i]
  {
    var rank := AcyclicHasRank(EdgesOf(nodes));
    var bound := RankBound(rank, |nodes|);
    forall i: nat | i < |nodes| && i != m ensures s[i] == s'[i] {
      SameElsewhere(nodes, strips, rack, rack', inputs, inputs', frames, s, s', m, rank, bound, i);
    }
    forall p: nat | p < |device| ensures device[p] == device'[p] {
      if offset <= p < offset + frames {
        SameFeed(nodes, strips, s, s', m, DEVICE, p - offset, |nodes|);
      }
    }
  }

  // ----- the device ---------------------------------------------------------------------------------

  /** The device gets one track's signal, at its strip, if that track alone feeds it; a device of one channel gets the
      left side. */
  lemma {:induction false} DeviceMeans(nodes: seq<GraphNode>, strips: seq<Strip>, s: seq<Buffer>, frames: nat,
                                       was: seq<Frame>, device: seq<Frame>, stereo: bool, offset: nat, j: nat, p: nat)
    requires |nodes| == |strips| && Shaped(s, |nodes|, frames)
    requires |was| == |device| && offset + frames <= |device| && j < |nodes| && offset <= p < offset + frames
    requires DeviceHolds(nodes, strips, s, Everyone(|nodes|), frames, was, device, stereo, offset)
    requires nodes[j].output < 0 && forall i: nat | i < |nodes| && i != j :: 0 <= nodes[i].output
    ensures var r := Levelled(strips[j], s[j][p - offset]);
      && device[p].left == was[p].left + r.left
      && device[p].right == if stereo then was[p].right + r.right else was[p].right
  {
    FeedOne(nodes, strips, s, DEVICE, p - offset, |nodes|, j);
  }
}
