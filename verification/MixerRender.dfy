/**
 Mixing one chunk in place. The loop takes the tracks in render order, runs each bus through its track's
 inserts and adds it, at the track's gains, to the bus or the device it feeds. What comes out is the
 routing tree evaluated recursively: every track hears all of its own input and all that feeds it.
 Samples are exact reals and an insert is any function from the bus it is given to the bus it leaves.
 */
module MixerRender {
  import opened Routing
  import opened MixerGraphs

  datatype Frame = Frame(left: real, right: real)

  type Buffer = seq<Frame>

  const SILENCE := Frame(0.0, 0.0)

  function Plus(a: Frame, b: Frame): Frame {
    Frame(a.left + b.left, a.right + b.right)
  }

  /** The mixer strip of a track. */
  datatype Strip = Strip(gain: real, pan: real, muted: bool)

  function Gain(s: Strip): real {
    if s.muted then 0.0 else s.gain
  }

  function Levelled(s: Strip, f: Frame): Frame {
    Frame(f.left * (Gain(s) * (if s.pan > 0.0 then 1.0 - s.pan else 1.0)),
          f.right * (Gain(s) * (if s.pan < 0.0 then 1.0 + s.pan else 1.0)))
  }

  /** What the inserts of this chunk do: which are hosted at all, and the bus each makes of the bus it gets. */
  datatype Rack = Rack(hosted: set<nat>, process: (nat, Buffer) -> Buffer)

  ghost predicate KeepsLength(rack: Rack) {
    forall e, b :: |rack.process(e, b)| == |b|
  }

  function Insert(rack: Rack, effect: nat, b: Buffer): Buffer {
    if effect in rack.hosted then rack.process(effect, b) else b
  }

  /** A bus after the inserts of a chain, first to last. */
  function Chain(rack: Rack, effects: seq<nat>, b: Buffer): (r: Buffer)
    requires KeepsLength(rack)
    ensures |r| == |b|
  {
    if effects == [] then b
    else Insert(rack, effects[|effects| - 1], Chain(rack, effects[..|effects| - 1], b))
  }

  // ----- the routing tree ----------------------------------------------------

  /** Every output names a node or the device. */
  predicate Resolved(nodes: seq<GraphNode>) {
    forall i | 0 <= i < |nodes| :: nodes[i].output < |nodes|
  }

  predicate Reaches(node: GraphNode, target: int) {
    if target < 0 then node.output < 0 else node.output == target
  }

  /** The signal of every track of `among` below `n` that feeds `target`, at its gains, summed at one frame. */
  ghost function Feed(nodes: seq<GraphNode>, strips: seq<Strip>, signals: seq<Buffer>, among: set<nat>,
                      target: int, f: nat, n: nat): Frame
    requires n <= |nodes| == |strips| == |signals| && forall i | 0 <= i < |signals| :: f < |signals[i]|
  {
    if n == 0 then SILENCE
    else
      var rest := Feed(nodes, strips, signals, among, target, f, n - 1);
      if n - 1 in among && Reaches(nodes[n - 1], target)
      then Plus(rest, Levelled(strips[n - 1], signals[n - 1][f]))
      else rest
  }

  ghost predicate Shaped(signals: seq<Buffer>, tracks: nat, frames: nat) {
    |signals| == tracks && forall i | 0 <= i < tracks :: |signals[i]| == frames
  }

  function Everyone(n: nat): (all: set<nat>)
    ensures forall i: nat :: i in all <==> i < n
  {
    if n == 0 then {} else Everyone(n - 1) + {n - 1}
  }

  /** The bus of a track before its inserts: its own input and everything that feeds it. */
  ghost function Mixed(nodes: seq<GraphNode>, strips: seq<Strip>, inputs: seq<Buffer>, signals: seq<Buffer>,
                       frames: nat, i: nat): Buffer
    requires i < |nodes| == |strips| && Shaped(inputs, |nodes|, frames) && Shaped(signals, |nodes|, frames)
  {
    seq(frames, (f: nat) requires f < frames =>
      Plus(inputs[i][f], Feed(nodes, strips, signals, Everyone(|nodes|), i, f, |nodes|)))
  }

  /** The signals are those of the tree: each track's chain applied to its input plus all that feeds it. */
  ghost predicate Evaluates(nodes: seq<GraphNode>, strips: seq<Strip>, rack: Rack, inputs: seq<Buffer>,
                            frames: nat, signals: seq<Buffer>)
    requires |nodes| == |strips| && Shaped(inputs, |nodes|, frames) && KeepsLength(rack)
  {
    && Shaped(signals, |nodes|, frames)
    && forall i: nat | i < |nodes| ::
         signals[i] == Chain(rack, nodes[i].effects, Mixed(nodes, strips, inputs, signals, frames, i))
  }

  lemma {:induction false} FeedAgrees(nodes: seq<GraphNode>, strips: seq<Strip>, s: seq<Buffer>, s': seq<Buffer>,
                                      among: set<nat>, among': set<nat>, target: int, f: nat, n: nat)
    requires n <= |nodes| == |strips| == |s| == |s'|
    requires forall i | 0 <= i < |s| :: f < |s[i]|
    requires forall i | 0 <= i < |s'| :: f < |s'[i]|
    requires forall j: nat | j < n && Reaches(nodes[j], target) ::
      (j in among <==> j in among') && (j in among ==> s[j] == s'[j])
    ensures Feed(nodes, strips, s, among, target, f, n) == Feed(nodes, strips, s', among', target, f, n)
  {
    if n > 0 {
      FeedAgrees(nodes, strips, s, s', among, among', target, f, n - 1);
    }
  }

  /** A bound on the rank of every node. */
  lemma {:induction false} RankBound(rank: nat -> nat, n: nat) returns (bound: nat)
    ensures forall i: nat | i < n :: rank(i) <= bound
  {
    bound := 0;
    if n > 0 {
      bound := RankBound(rank, n - 1);
      bound := if bound < rank(n - 1) then rank(n - 1) else bound;
    }
  }

  lemma {:induction false} SameSignal(nodes: seq<GraphNode>, strips: seq<Strip>, rack: Rack, inputs: seq<Buffer>,
                                      frames: nat, s: seq<Buffer>, s': seq<Buffer>, rank: nat -> nat, bound: nat,
                                      i: nat)
    requires |nodes| == |strips| && Shaped(inputs, |nodes|, frames) && KeepsLength(rack)
    requires Ranks(EdgesOf(nodes), rank) && i < |nodes| && forall j: nat | j < |nodes| :: rank(j) <= bound
    requires Evaluates(nodes, strips, rack, inputs, frames, s)
    requires Evaluates(nodes, strips, rack, inputs, frames, s')
    ensures s[i] == s'[i]
    decreases bound - rank(i)
  {
    forall j: nat | j < |nodes| && Reaches(nodes[j], i) ensures s[j] == s'[j] {
      assert j in EdgesOf(nodes);
      SameSignal(nodes, strips, rack, inputs, frames, s, s', rank, bound, j);
    }
    var m := Mixed(nodes, strips, inputs, s, frames, i);
    var m' := Mixed(nodes, strips, inputs, s', frames, i);
    forall f: nat | f < frames ensures m[f] == m'[f] {
      FeedAgrees(nodes, strips, s, s', Everyone(|nodes|), Everyone(|nodes|), i, f, |nodes|);
    }
    assert m == m';
  }

  /** A routing without cycles has only one evaluation. */
  lemma {:induction false} OneEvaluation(nodes: seq<GraphNode>, strips: seq<Strip>, rack: Rack, inputs: seq<Buffer>,
                                         frames: nat, s: seq<Buffer>, s': seq<Buffer>)
    requires |nodes| == |strips| && Shaped(inputs, |nodes|, frames) && KeepsLength(rack)
    requires Acyclic(EdgesOf(nodes))
    requires Evaluates(nodes, strips, rack, inputs, frames, s)
    requires Evaluates(nodes, strips, rack, inputs, frames, s')
    ensures s == s'
  {
    var rank := AcyclicHasRank(EdgesOf(nodes));
    var bound := RankBound(rank, |nodes|);
    forall i: nat | i < |nodes| ensures s[i] == s'[i] {
      SameSignal(nodes, strips, rack, inputs, frames, s, s', rank, bound, i);
    }
  }

  // ----- one chunk, in place -------------------------------------------------

  ghost function Row(buses: array2<Frame>, i: nat, frames: nat): (b: Buffer)
    requires i < buses.Length0 && frames <= buses.Length1
    reads buses
    ensures |b| == frames && forall f: nat | f < frames :: b[f] == buses[i, f]
  {
    seq(frames, (f: nat) requires f < frames reads buses => buses[i, f])
  }

  /** The inserts that run, in the order they run, when the tracks of `order` are taken in turn. */
  function Played(nodes: seq<GraphNode>, rack: Rack, order: seq<nat>): seq<nat>
    requires forall a | 0 <= a < |order| :: order[a] < |nodes|
  {
    if order == [] then []
    else
      Played(nodes, rack, order[..|order| - 1]) + HostedOf(rack, nodes[order[|order| - 1]].effects)
  }

  function HostedOf(rack: Rack, effects: seq<nat>): seq<nat> {
    if effects == [] then []
    else
      HostedOf(rack, effects[..|effects| - 1])
      + (if effects[|effects| - 1] in rack.hosted then [effects[|effects| - 1]] else [])
  }

  /** Runs the chain of track `i` over its bus, in place. */
  method RunInserts(buses: array2<Frame>, i: nat, effects: seq<nat>, rack: Rack, frames: nat)
    returns (ghost ran: seq<nat>)
    requires i < buses.Length0 && frames <= buses.Length1 && KeepsLength(rack)
    modifies buses
    ensures Row(buses, i, frames) == Chain(rack, effects, old(Row(buses, i, frames)))
    ensures forall r: nat, f: nat | r < buses.Length0 && f < buses.Length1 && (r != i || frames <= f) ::
      buses[r, f] == old(buses[r, f])
    ensures ran == HostedOf(rack, effects)
  {
    ran := [];
    for k := 0 to |effects|
      invariant Row(buses, i, frames) == Chain(rack, effects[..k], old(Row(buses, i, frames)))
      invariant forall r: nat, f: nat | r < buses.Length0 && f < buses.Length1 && (r != i || frames <= f) ::
        buses[r, f] == old(buses[r, f])
      invariant ran == HostedOf(rack, effects[..k])
    {
      assert effects[..k + 1][..k] == effects[..k];
      if effects[k] in rack.hosted {
        var bus := seq(frames, (f: nat) requires f < frames && i < buses.Length0 && frames <= buses.Length1
                                        reads buses => buses[i, f]);
        assert bus == Row(buses, i, frames);
        WriteBus(buses, i, rack.process(effects[k], bus));
        ran := ran + [effects[k]];
      }
    }
    assert effects[..|effects|] == effects;
  }

  method WriteBus(buses: array2<Frame>, i: nat, b: Buffer)
    requires i < buses.Length0 && |b| <= buses.Length1
    modifies buses
    ensures Row(buses, i, |b|) == b
    ensures forall r: nat, f: nat | r < buses.Length0 && f < buses.Length1 && (r != i || |b| <= f) ::
      buses[r, f] == old(buses[r, f])
  {
    for f := 0 to |b|
      invariant forall g: nat | g < f :: buses[i, g] == b[g]
      invariant forall r: nat, g: nat | r < buses.Length0 && g < buses.Length1 && (r != i || f <= g) ::
        buses[r, g] == old(buses[r, g])
    {
      buses[i, f] := b[f];
    }
  }

  /** Adds the levelled bus of `i` onto the bus of `t`. */
  method AddToBus(buses: array2<Frame>, i: nat, t: nat, strip: Strip, frames: nat)
    requires i < buses.Length0 && t < buses.Length0 && i != t && frames <= buses.Length1
    modifies buses
    ensures forall f: nat | f < frames :: buses[t, f] == Plus(old(buses[t, f]), Levelled(strip, old(buses[i, f])))
    ensures forall r: nat, f: nat | r < buses.Length0 && f < buses.Length1 && (r != t || frames <= f) ::
      buses[r, f] == old(buses[r, f])
  {
    for f := 0 to frames
      invariant forall g: nat | g < f :: buses[t, g] == Plus(old(buses[t, g]), Levelled(strip, old(buses[i, g])))
      invariant forall r: nat, g: nat | r < buses.Length0 && g < buses.Length1 && (r != t || f <= g) ::
        buses[r, g] == old(buses[r, g])
    {
      buses[t, f] := Plus(buses[t, f], Levelled(strip, buses[i, f]));
    }
  }

  /** What a device with this many channels adds of a frame. */
  function Audible(stereo: bool, f: Frame): Frame {
    if stereo then f else Frame(f.left, 0.0)
  }

  method AddToDevice(buses: array2<Frame>, i: nat, device: array<Frame>, stereo: bool, offset: nat, strip: Strip,
                     frames: nat)
    requires i < buses.Length0 && frames <= buses.Length1 && offset + frames <= device.Length
    modifies device
    ensures forall p: nat | offset <= p < offset + frames ::
      device[p] == Plus(old(device[p]), Audible(stereo, Levelled(strip, buses[i, p - offset])))
    ensures forall p: nat | p < device.Length && !(offset <= p < offset + frames) :: device[p] == old(device[p])
  {
    for f := 0 to frames
      invariant forall p: nat | offset <= p < offset + f ::
        device[p] == Plus(old(device[p]), Audible(stereo, Levelled(strip, buses[i, p - offset])))
      invariant forall p: nat | p < device.Length && !(offset <= p < offset + f) :: device[p] == old(device[p])
    {
      device[offset + f] := Plus(device[offset + f], Audible(stereo, Levelled(strip, buses[i, f])));
    }
  }

  /** Adds a processed bus to whatever its track feeds; a silent track is passed over. */
  method Send(node: GraphNode, strip: Strip, buses: array2<Frame>, device: array<Frame>, stereo: bool, offset: nat,
              index: nat, tracks: nat, frames: nat)
    requires index < tracks <= buses.Length0 && node.output < tracks && node.output != index
    requires frames <= buses.Length1 && offset + frames <= device.Length
    modifies buses, device
    ensures forall i: nat, f: nat | i < tracks && f < frames ::
      buses[i, f] == if Reaches(node, i) then Plus(old(buses[i, f]), Levelled(strip, old(buses[index, f])))
                     else old(buses[i, f])
    ensures forall p: nat | offset <= p < offset + frames ::
      device[p] ==
      if Reaches(node, DEVICE)
      then Plus(old(device[p]), Audible(stereo, Levelled(strip, old(buses[index, p - offset]))))
      else old(device[p])
    ensures forall p: nat | p < device.Length && !(offset <= p < offset + frames) :: device[p] == old(device[p])
  {
    if Gain(strip) == 0.0 {
      assert forall f: Frame :: Levelled(strip, f) == SILENCE;
      return;
    }
    if node.output < 0 {
      AddToDevice(buses, index, device, stereo, offset, strip, frames);
    } else {
      AddToBus(buses, index, node.output, strip, frames);
    }
  }

  lemma AddOn(stereo: bool, a: Frame, b: Frame, c: Frame)
    ensures Plus(Plus(a, b), c) == Plus(a, Plus(b, c))
    ensures Plus(Audible(stereo, b), Audible(stereo, c)) == Audible(stereo, Plus(b, c))
  {
  }

  /** The tracks taken so far. */
  ghost function Taken(order: seq<nat>, k: nat): set<nat>
    requires k <= |order|
  {
    set a: nat | a < k :: order[a]
  }

  /** The signals of the tracks taken so far are those of the tree. */
  ghost predicate TakenEvaluate(nodes: seq<GraphNode>, strips: seq<Strip>, rack: Rack, inputs: seq<Buffer>,
                                frames: nat, signals: seq<Buffer>, order: seq<nat>, k: nat)
    requires |nodes| == |strips| && Shaped(inputs, |nodes|, frames) && KeepsLength(rack)
    requires k <= |order| && Shaped(signals, |nodes|, frames) && forall a | 0 <= a < |order| :: order[a] < |nodes|
  {
    forall a: nat | a < k ::
      signals[order[a]] ==
      Chain(rack, nodes[order[a]].effects, Mixed(nodes, strips, inputs, signals, frames, order[a]))
  }

  /** Taking one more track adds its levelled signal to what it feeds, and to nothing else. */
  lemma {:induction false} FeedOneMore(nodes: seq<GraphNode>, strips: seq<Strip>, s: seq<Buffer>, among: set<nat>,
                                       x: nat, b: Buffer, target: int, f: nat, n: nat)
    requires n <= |nodes| == |strips| == |s| && x < |nodes| && x !in among
    requires f < |b| && forall i | 0 <= i < |s| :: f < |s[i]|
    ensures Feed(nodes, strips, s[x := b], among + {x}, target, f, n) ==
            if x < n && Reaches(nodes[x], target)
            then Plus(Feed(nodes, strips, s, among, target, f, n), Levelled(strips[x], b[f]))
            else Feed(nodes, strips, s, among, target, f, n)
  {
    if n > 0 {
      FeedOneMore(nodes, strips, s, among, x, b, target, f, n - 1);
    }
  }

  lemma TakenStep(order: seq<nat>, k: nat)
    requires k < |order| && forall a, b | 0 <= a < b < |order| :: order[a] != order[b]
    ensures Taken(order, k + 1) == Taken(order, k) + {order[k]} && order[k] !in Taken(order, k)
  {
  }

  /** When a track's turn comes, everything that feeds it has been taken, and it feeds none of those taken. */
  lemma {:induction false} TakeTrack(nodes: seq<GraphNode>, strips: seq<Strip>, rack: Rack, inputs: seq<Buffer>,
                                     frames: nat, signals: seq<Buffer>, order: seq<nat>, k: nat, bus: Buffer)
    requires |nodes| == |strips| && Shaped(inputs, |nodes|, frames) && KeepsLength(rack)
    requires RenderOrder(nodes, order) && k < |order| && Shaped(signals, |nodes|, frames)
    requires TakenEvaluate(nodes, strips, rack, inputs, frames, signals, order, k)
    requires |bus| == frames && forall f: nat | f < frames ::
      bus[f] == Plus(inputs[order[k]][f], Feed(nodes, strips, signals, Taken(order, k), order[k], f, |nodes|))
    ensures TakenEvaluate(nodes, strips, rack, inputs, frames,
                          signals[order[k] := Chain(rack, nodes[order[k]].effects, bus)], order, k + 1)
  {
    var x := order[k];
    var signals' := signals[x := Chain(rack, nodes[x].effects, bus)];
    forall a: nat | a <= k
      ensures signals'[order[a]] ==
              Chain(rack, nodes[order[a]].effects, Mixed(nodes, strips, inputs, signals', frames, order[a]))
    {
      var i := order[a];
      forall j: nat | j < |nodes| && Reaches(nodes[j], i) ensures j in Taken(order, k) && j != x {
        assert j in order;
        var c :| 0 <= c < |order| && order[c] == j;
        assert HasEdge(nodes, order[c]) && Fed(nodes, order[c]) == order[a];
      }
      var m := Mixed(nodes, strips, inputs, signals', frames, i);
      var before := if a == k then bus else Mixed(nodes, strips, inputs, signals, frames, i);
      forall f: nat | f < frames ensures m[f] == before[f] {
        FeedAgrees(nodes, strips, signals, signals', if a == k then Taken(order, k) else Everyone(|nodes|),
                   Everyone(|nodes|), i, f, |nodes|);
      }
      assert m == before;
    }
  }

  lemma {:induction false} FeedNone(nodes: seq<GraphNode>, strips: seq<Strip>, s: seq<Buffer>, target: int, f: nat,
                                    n: nat)
    requires n <= |nodes| == |strips| == |s| && forall i | 0 <= i < |s| :: f < |s[i]|
    ensures Feed(nodes, strips, s, {}, target, f, n) == SILENCE
  {
    if n > 0 {
      FeedNone(nodes, strips, s, target, f, n - 1);
    }
  }

  const DEVICE: int := -1

  /** A bus not taken yet holds its own input and what has been sent to it so far. */
  ghost predicate BusesHold(nodes: seq<GraphNode>, strips: seq<Strip>, inputs: seq<Buffer>, signals: seq<Buffer>,
                            taken: set<nat>, frames: nat, buses: array2<Frame>)
    requires Shaped(inputs, |nodes|, frames) && Shaped(signals, |nodes|, frames) && |strips| == |nodes|
    requires |nodes| <= buses.Length0 && frames <= buses.Length1
    reads buses
  {
    forall i: nat, f: nat | i < |nodes| && i !in taken && f < frames ::
      buses[i, f] == Plus(inputs[i][f], Feed(nodes, strips, signals, taken, i, f, |nodes|))
  }

  /** The device holds what was there and what has been sent to it so far. */
  ghost predicate DeviceHolds(nodes: seq<GraphNode>, strips: seq<Strip>, signals: seq<Buffer>, taken: set<nat>,
                              frames: nat, was: seq<Frame>, device: seq<Frame>, stereo: bool, offset: nat)
    requires Shaped(signals, |nodes|, frames) && |strips| == |nodes|
    requires |was| == |device| && offset + frames <= |device|
  {
    forall p: nat | p < |device| ::
      device[p] ==
      if offset <= p < offset + frames
      then Plus(was[p], Audible(stereo, Feed(nodes, strips, signals, taken, DEVICE, p - offset, |nodes|)))
      else was[p]
  }

  /** One turn of the loop: the inserts of the next track in order, then its sum into what it feeds. */
  method TakeTurn(nodes: seq<GraphNode>, strips: seq<Strip>, rack: Rack, order: seq<nat>, k: nat,
                  buses: array2<Frame>, device: array<Frame>, stereo: bool, offset: nat, frames: nat,
                  ghost inputs: seq<Buffer>, ghost before: seq<Buffer>, ghost was: seq<Frame>)
    returns (ghost signals: seq<Buffer>, ghost ran: seq<nat>)
    requires KeepsLength(rack) && RenderOrder(nodes, order) && Resolved(nodes) && k < |order|
    requires |strips| == |nodes| <= buses.Length0 && frames <= buses.Length1
    requires Shaped(inputs, |nodes|, frames) && Shaped(before, |nodes|, frames)
    requires |was| == device.Length && offset + frames <= device.Length
    requires TakenEvaluate(nodes, strips, rack, inputs, frames, before, order, k)
    requires BusesHold(nodes, strips, inputs, before, Taken(order, k), frames, buses)
    requires DeviceHolds(nodes, strips, before, Taken(order, k), frames, was, device[..], stereo, offset)
    modifies buses, device
    ensures Shaped(signals, |nodes|, frames) && ran == HostedOf(rack, nodes[order[k]].effects)
    ensures TakenEvaluate(nodes, strips, rack, inputs, frames, signals, order, k + 1)
    ensures BusesHold(nodes, strips, inputs, signals, Taken(order, k + 1), frames, buses)
    ensures DeviceHolds(nodes, strips, signals, Taken(order, k + 1), frames, was, device[..], stereo, offset)
  {
    var index := order[k];
    ghost var bus := Row(buses, index, frames);
    TakenStep(order, k);
    TakeTrack(nodes, strips, rack, inputs, frames, before, order, k, bus);
    ran := RunInserts(buses, index, nodes[index].effects, rack, frames);
    ghost var out := Row(buses, index, frames);
    signals := before[index := out];
    label L:
    Send(nodes[index], strips[index], buses, device, stereo, offset, index, |nodes|, frames);
    ghost var done := Taken(order, k);
    forall i: nat, f: nat | i < |nodes| && i !in done + {index} && f < frames
      ensures buses[i, f] == Plus(inputs[i][f], Feed(nodes, strips, signals, done + {index}, i, f, |nodes|))
    {
      FeedOneMore(nodes, strips, before, done, index, out, i, f, |nodes|);
      AddOn(stereo, inputs[i][f], Feed(nodes, strips, before, done, i, f, |nodes|), Levelled(strips[index], out[f]));
      assert old@L(buses[index, f]) == out[f];
    }
    forall p: nat | offset <= p < offset + frames
      ensures device[p] ==
              Plus(was[p], Audible(stereo, Feed(nodes, strips, signals, done + {index}, DEVICE, p - offset, |nodes|)))
    {
      var feed, more := Feed(nodes, strips, before, done, DEVICE, p - offset, |nodes|), Levelled(strips[index], out[p - offset]);
      FeedOneMore(nodes, strips, before, done, index, out, DEVICE, p - offset, |nodes|);
      AddOn(stereo, was[p], Audible(stereo, feed), Audible(stereo, more));
      AddOn(stereo, was[p], feed, more);
      assert old@L(buses[index, p - offset]) == out[p - offset];
      assert old(device[..])[p] == old@L(device[p]);
    }
  }

  /** Mixes a chunk: the device gets exactly the levelled signals of the tracks without output. */
  method RenderMixer(graph: MixerGraph?, strips: seq<Strip>, rack: Rack, buses: array2<Frame>,
                     device: array<Frame>, stereo: bool, offset: nat, frames: nat)
    returns (ghost signals: seq<Buffer>, ghost ran: seq<nat>)
    requires KeepsLength(rack)
    requires frames <= buses.Length1 && offset + frames <= device.Length
    requires graph != null && 0 <= graph.master ==>
      && RenderOrder(graph.nodes, graph.order) && Resolved(graph.nodes)
      && |strips| == |graph.nodes| <= buses.Length0
    modifies buses, device
    ensures graph == null || graph.master < 0 ==> device[..] == old(device[..]) && ran == []
    ensures graph != null && 0 <= graph.master ==>
      && Evaluates(graph.nodes, strips, rack, old(Rows(buses, |graph.nodes|, frames)), frames, signals)
      && ran == Played(graph.nodes, rack, graph.order)
      && DeviceHolds(graph.nodes, strips, signals, Everyone(|graph.nodes|), frames,
                     old(device[..]), device[..], stereo, offset)
  {
    signals, ran := [], [];
    if graph == null || graph.master < 0 {
      return;
    }
    var nodes, order := graph.nodes, graph.order;
    ghost var inputs, was := Rows(buses, |nodes|, frames), device[..];
    signals := inputs;
    forall target: int, f: nat | f < frames ensures Feed(nodes, strips, signals, {}, target, f, |nodes|) == SILENCE {
      FeedNone(nodes, strips, signals, target, f, |nodes|);
    }
    assert Taken(order, 0) == {};
    for k := 0 to |order|
      invariant Shaped(signals, |nodes|, frames)
      invariant ran == Played(nodes, rack, order[..k])
      invariant TakenEvaluate(nodes, strips, rack, inputs, frames, signals, order, k)
      invariant BusesHold(nodes, strips, inputs, signals, Taken(order, k), frames, buses)
      invariant DeviceHolds(nodes, strips, signals, Taken(order, k), frames, was, device[..], stereo, offset)
    {
      assert order[..k + 1][..k] == order[..k];
      ghost var more;
      signals, more := TakeTurn(nodes, strips, rack, order, k, buses, device, stereo, offset, frames, inputs,
                                signals, was);
      ran := ran + more;
    }
    assert order[..|order|] == order;
    AllTaken(nodes, strips, rack, inputs, frames, signals, order);
  }

  lemma {:induction false} AllTaken(nodes: seq<GraphNode>, strips: seq<Strip>, rack: Rack, inputs: seq<Buffer>,
                                    frames: nat, signals: seq<Buffer>, order: seq<nat>)
    requires |nodes| == |strips| && Shaped(inputs, |nodes|, frames) && KeepsLength(rack)
    requires RenderOrder(nodes, order) && Shaped(signals, |nodes|, frames)
    requires TakenEvaluate(nodes, strips, rack, inputs, frames, signals, order, |order|)
    ensures Taken(order, |order|) == Everyone(|nodes|)
    ensures Evaluates(nodes, strips, rack, inputs, frames, signals)
  {
    forall i: nat | i < |nodes|
      ensures i in Taken(order, |order|)
      ensures signals[i] == Chain(rack, nodes[i].effects, Mixed(nodes, strips, inputs, signals, frames, i))
    {
      assert i in order;
      var a :| 0 <= a < |order| && order[a] == i;
    }
  }

  ghost function Rows(buses: array2<Frame>, tracks: nat, frames: nat): (rows: seq<Buffer>)
    requires tracks <= buses.Length0 && frames <= buses.Length1
    reads buses
    ensures Shaped(rows, tracks, frames)
    ensures forall i: nat, f: nat | i < tracks && f < frames :: rows[i][f] == buses[i, f]
  {
    seq(tracks, (i: nat) requires i < tracks reads buses => Row(buses, i, frames))
  }

  // ----- every chain once ----------------------------------------------------

  /** How often insert `e` runs when the chain of track `i` does. */
  function Runs(nodes: seq<GraphNode>, rack: Rack, i: nat, e: nat): nat
    requires i < |nodes|
  {
    multiset(HostedOf(rack, nodes[i].effects))[e]
  }

  /** How often insert `e` occurs, hosted, in the chains of the tracks of `among` below `n`. */
  ghost function Hosted(nodes: seq<GraphNode>, rack: Rack, among: set<nat>, e: nat, n: nat): nat
    requires n <= |nodes|
  {
    if n == 0 then 0
    else Hosted(nodes, rack, among, e, n - 1) + if n - 1 in among then Runs(nodes, rack, n - 1, e) else 0
  }

  lemma {:induction false} HostedOneMore(nodes: seq<GraphNode>, rack: Rack, among: set<nat>, x: nat, e: nat, n: nat)
    requires n <= |nodes| && x < |nodes| && x !in among
    ensures Hosted(nodes, rack, among + {x}, e, n) ==
            Hosted(nodes, rack, among, e, n) + if x < n then Runs(nodes, rack, x, e) else 0
  {
    if n > 0 {
      HostedOneMore(nodes, rack, among, x, e, n - 1);
    }
  }

  lemma {:induction false} HostedNone(nodes: seq<GraphNode>, rack: Rack, e: nat, n: nat)
    requires n <= |nodes|
    ensures Hosted(nodes, rack, {}, e, n) == 0
  {
    if n > 0 {
      HostedNone(nodes, rack, e, n - 1);
    }
  }

  lemma {:induction false} PlayedSoFar(nodes: seq<GraphNode>, rack: Rack, order: seq<nat>, e: nat, k: nat)
    requires RenderOrder(nodes, order) && k <= |order|
    ensures multiset(Played(nodes, rack, order[..k]))[e] == Hosted(nodes, rack, Taken(order, k), e, |nodes|)
  {
    if k == 0 {
      assert Taken(order, 0) == {};
      HostedNone(nodes, rack, e, |nodes|);
    } else {
      PlayedSoFar(nodes, rack, order, e, k - 1);
      TakenStep(order, k - 1);
      HostedOneMore(nodes, rack, Taken(order, k - 1), order[k - 1], e, |nodes|);
      assert order[..k][..k - 1] == order[..k - 1];
    }
  }

  /** In any render order, each hosted insert of each track runs once: muted and silent tracks included. */
  lemma {:induction false} EachChainOnce(nodes: seq<GraphNode>, rack: Rack, order: seq<nat>, e: nat)
    requires RenderOrder(nodes, order)
    ensures multiset(Played(nodes, rack, order))[e] == Hosted(nodes, rack, Everyone(|nodes|), e, |nodes|)
  {
    PlayedSoFar(nodes, rack, order, e, |order|);
    assert order[..|order|] == order;
    forall i: nat | i < |nodes| ensures i in Taken(order, |order|) {
      assert i in order;
      var a :| 0 <= a < |order| && order[a] == i;
    }
    assert Taken(order, |order|) == Everyone(|nodes|);
  }
}
