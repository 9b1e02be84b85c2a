/**
 From the model's tracks to the mixer graph: outputs named by identifier become dense indices. A change of levels
 keeps the graph, and with it what its inserts hold; a change of shape builds it anew. A project that passes the
 integrity check, with no more tracks than the mixer holds, yields a graph that is accepted.
 */
module MixerSync {
  import opened Options
  import opened Entities
  import opened Integrity
  import opened Routing
  import opened MixerGraphs

  const MAX_MIXER_TRACKS: nat := 64

  /** A track as the engine is told about it; a number stands for an insert with its plug-in and its index. */
  datatype TrackDesc = TrackDesc(
    trackId: TrackId, outputId: Option<TrackId>, effects: seq<nat>, gain: real, pan: real, muted: bool)

  /** What the audio thread reads of a track in every block. */
  datatype Levels = Levels(gain: real, pan: real, muted: bool)

  function Clamp(x: real, low: real, high: real): real {
    if x < low then low else if high < x then high else x
  }

  function LevelsOf(d: TrackDesc): Levels {
    Levels(Clamp(d.gain, 0.0, 2.0), Clamp(d.pan, -1.0, 1.0), d.muted)
  }

  /** What of a track is built into the graph. */
  predicate ShapedAlike(a: TrackDesc, b: TrackDesc) {
    a.trackId == b.trackId && a.outputId == b.outputId && a.effects == b.effects
  }

  /** As many tracks, and those that fit shaped alike. */
  predicate SameShape(a: seq<TrackDesc>, b: seq<TrackDesc>) {
    && |a| == |b|
    && forall i | 0 <= i < |Fitting(a)| :: ShapedAlike(a[i], b[i])
  }

  function FirstWith(descs: seq<TrackDesc>, id: TrackId): (index: int)
    ensures -1 <= index < |descs|
    ensures 0 <= index ==> descs[index].trackId == id && forall i | 0 <= i < index :: descs[i].trackId != id
    ensures index < 0 ==> forall i | 0 <= i < |descs| :: descs[i].trackId != id
  {
    if descs == [] then -1
    else if descs[0].trackId == id then 0
    else
      var rest := FirstWith(descs[1..], id);
      if rest < 0 then -1 else rest + 1
  }

  /** The output index of a track: none for a track without output, and none for one that is not here. */
  function OutputIndex(descs: seq<TrackDesc>, d: TrackDesc): int {
    if d.outputId.None? then -1 else FirstWith(descs, d.outputId.value)
  }

  function Fitting(tracks: seq<TrackDesc>): seq<TrackDesc> {
    if |tracks| < MAX_MIXER_TRACKS then tracks else tracks[..MAX_MIXER_TRACKS]
  }

  /** Nodes built from a description: the same tracks, outputs resolved among them. */
  ghost predicate BuiltFrom(nodes: seq<GraphNode>, descs: seq<TrackDesc>) {
    && |nodes| == |descs|
    && forall i | 0 <= i < |nodes| ::
         && nodes[i].trackId == descs[i].trackId && nodes[i].effects == descs[i].effects
         && nodes[i].output == OutputIndex(descs, descs[i])
  }

  /** Whether a graph for one description is a graph for the other, track by track and insert by insert. */
  method CompareShapes(a: seq<TrackDesc>, b: seq<TrackDesc>) returns (same: bool)
    ensures same <==> SameShape(a, b)
  {
    if |a| != |b| {
      return false;
    }
    for i := 0 to |Fitting(a)|
      invariant forall j | 0 <= j < i :: ShapedAlike(a[j], b[j])
    {
      if a[i].trackId != b[i].trackId || a[i].outputId != b[i].outputId || |a[i].effects| != |b[i].effects| {
        return false;
      }
      for slot := 0 to |a[i].effects|
        invariant forall j | 0 <= j < slot :: a[i].effects[j] == b[i].effects[j]
      {
        if a[i].effects[slot] != b[i].effects[slot] {
          return false;
        }
      }
    }
    return true;
  }

  /** A track feeds the device, whatever it was to feed, exactly when it names no output or one that is not here. */
  lemma {:induction false} UnknownOutputFeedsDevice(descs: seq<TrackDesc>, nodes: seq<GraphNode>, i: nat)
    requires BuiltFrom(nodes, descs) && i < |nodes|
    ensures IsMaster(nodes, i) <==>
            descs[i].outputId.None? || forall j | 0 <= j < |descs| :: descs[j].trackId != descs[i].outputId.value
    ensures !IsMaster(nodes, i) ==> HasEdge(nodes, i) && Some(descs[Fed(nodes, i)].trackId) == descs[i].outputId
  {
    if descs[i].outputId.Some? {
      var index := FirstWith(descs, descs[i].outputId.value);
      assert nodes[i].output == index;
    }
  }

  lemma {:induction false} FirstAlike(a: seq<TrackDesc>, b: seq<TrackDesc>, id: TrackId)
    requires |a| == |b| && forall i | 0 <= i < |a| :: ShapedAlike(a[i], b[i])
    ensures FirstWith(a, id) == FirstWith(b, id)
  {
    if a != [] {
      FirstAlike(a[1..], b[1..], id);
    }
  }

  /** A graph built for one shape is the graph that would be built for the other. */
  lemma {:induction false} SameShapeSameGraph(a: seq<TrackDesc>, b: seq<TrackDesc>, nodes: seq<GraphNode>)
    requires SameShape(a, b)
    ensures BuiltFrom(nodes, Fitting(a)) <==> BuiltFrom(nodes, Fitting(b))
  {
    var x, y := Fitting(a), Fitting(b);
    forall i | 0 <= i < |x| ensures OutputIndex(x, x[i]) == OutputIndex(y, y[i]) {
      if x[i].outputId.Some? {
        FirstAlike(x, y, x[i].outputId.value);
      }
    }
  }

  /** Keeping a graph loses nothing: it is the one that would be built. */
  lemma KeptIsRebuilt(a: seq<TrackDesc>, b: seq<TrackDesc>, nodes: seq<GraphNode>, others: seq<GraphNode>)
    requires SameShape(a, b) && BuiltFrom(nodes, Fitting(a)) && BuiltFrom(others, Fitting(b))
    ensures nodes == others
  {
    SameShapeSameGraph(a, b, nodes);
    forall i | 0 <= i < |nodes| ensures nodes[i] == others[i] {
    }
  }

  datatype Outcome = Kept | Rebuilt | Refused

  class MixerSlot {
    var published: MixerGraph?
    var live: seq<TrackDesc>
    var levels: seq<Levels>

    /** What is published is the graph of what was last taken over. */
    ghost predicate Valid()
      reads this, published
    {
      && |levels| == MAX_MIXER_TRACKS
      && (published == null ==> live == [])
      && (published != null ==>
            && BuiltFrom(published.nodes, Fitting(live)) && RenderOrder(published.nodes, published.order)
            && LastMaster(published.nodes, published.master) && 0 <= published.master)
    }

    constructor ()
      ensures Valid() && published == null
    {
      published, live, levels := null, [], seq(MAX_MIXER_TRACKS, _ => Levels(1.0, 0.0, false));
    }

    /** Takes over the levels; keeps the graph if its shape is the same; otherwise builds the graph of the tracks that
        fit and publishes it, or keeps the previous one if it is refused. */
    method Apply(tracks: seq<TrackDesc>) returns (outcome: Outcome, ghost nodes: seq<GraphNode>)
      requires Valid()
      modifies this
      ensures Valid()
      ensures forall i | 0 <= i < MAX_MIXER_TRACKS ::
        levels[i] == if i < |Fitting(tracks)| then LevelsOf(tracks[i]) else old(levels)[i]
      ensures outcome.Kept? <==> SameShape(tracks, old(live))
      ensures !outcome.Rebuilt? ==> published == old(published)
      ensures live == if outcome.Refused? then old(live) else tracks
      ensures !outcome.Kept? ==> BuiltFrom(nodes, Fitting(tracks))
      ensures !outcome.Kept? ==>
        (outcome.Rebuilt? <==> Acyclic(EdgesOf(nodes)) && exists i: nat :: IsMaster(nodes, i))
      ensures outcome.Rebuilt? ==> published != null && fresh(published) && published.nodes == nodes
    {
      TakeLevels(tracks);
      nodes := [];
      var same := CompareShapes(tracks, live);
      if same {
        if published != null {
          SameShapeSameGraph(tracks, live, published.nodes);
        }
        live := tracks;
        return Kept, nodes;
      }
      var graph := BuildGraph(Fitting(tracks));
      nodes := graph.nodes;
      var accepted := graph.Finalise();
      if !accepted {
        return Refused, nodes;
      }
      published, live := graph, tracks;
      outcome := Rebuilt;
    }

    method TakeLevels(tracks: seq<TrackDesc>)
      requires |levels| == MAX_MIXER_TRACKS
      modifies `levels
      ensures |levels| == MAX_MIXER_TRACKS
      ensures forall i | 0 <= i < MAX_MIXER_TRACKS ::
        levels[i] == if i < |Fitting(tracks)| then LevelsOf(tracks[i]) else old(levels)[i]
    {
      for index := 0 to |Fitting(tracks)|
        invariant |levels| == MAX_MIXER_TRACKS
        invariant forall i | 0 <= i < MAX_MIXER_TRACKS ::
          levels[i] == if i < index then LevelsOf(tracks[i]) else old(levels)[i]
      {
        levels := levels[index := LevelsOf(tracks[index])];
      }
    }
  }

  /** First every node with its identifier, then every output by identifier. */
  method BuildGraph(descs: seq<TrackDesc>) returns (graph: MixerGraph)
    ensures fresh(graph) && BuiltFrom(graph.nodes, descs)
  {
    var bare := seq(|descs|, i requires 0 <= i < |descs| => GraphNode(-1, descs[i].effects, descs[i].trackId));
    graph := new MixerGraph(bare);
    for i := 0 to |descs|
      invariant fresh(graph) && |graph.nodes| == |descs|
      invariant forall j | 0 <= j < |descs| :: graph.nodes[j].trackId == descs[j].trackId
      invariant forall j | 0 <= j < |descs| :: graph.nodes[j].effects == descs[j].effects
      invariant forall j | 0 <= j < i :: graph.nodes[j].output == OutputIndex(descs, descs[j])
    {
      var output := -1;
      if descs[i].outputId.Some? {
        output := graph.IndexOf(descs[i].outputId.value);
        FirstUnique(descs, descs[i].outputId.value, output);
      }
      graph.nodes := graph.nodes[i := graph.nodes[i].(output := output)];
    }
  }

  lemma FirstUnique(descs: seq<TrackDesc>, id: TrackId, index: int)
    requires -1 <= index < |descs|
    requires 0 <= index ==> descs[index].trackId == id
    requires forall i | 0 <= i < (if index < 0 then |descs| else index) :: descs[i].trackId != id
    ensures index == FirstWith(descs, id)
  {
  }

  /** `descs` describes every track of the project once, in some order. */
  ghost predicate Describes(descs: seq<TrackDesc>, tracks: map<TrackId, MixerTrack>) {
    && (forall i | 0 <= i < |descs| ::
          descs[i].trackId in tracks && descs[i].outputId == tracks[descs[i].trackId].output)
    && (forall i, j | 0 <= i < j < |descs| :: descs[i].trackId != descs[j].trackId)
    && (forall k | k in tracks :: exists i :: 0 <= i < |descs| && descs[i].trackId == k)
  }

  /** What passes the integrity check is accepted by the mixer, with the model's one root as its master. */
  lemma {:induction false} IntegrityMeansAccepted(t: Tables, descs: seq<TrackDesc>, nodes: seq<GraphNode>)
    requires TracksConsistent(t) && Describes(descs, t.tracks) && BuiltFrom(nodes, descs)
    ensures Acyclic(EdgesOf(nodes))
    ensures exists i: nat :: IsMaster(nodes, i) && forall j: nat :: IsMaster(nodes, j) ==> j == i
    ensures forall i: nat | IsMaster(nodes, i) :: t.tracks[descs[i].trackId].output.None?
  {
    EdgesFollow(t.tracks, descs, nodes);
    OneMaster(t, descs, nodes);
  }

  lemma {:induction false} EdgesFollow(tracks: map<TrackId, MixerTrack>, descs: seq<TrackDesc>, nodes: seq<GraphNode>)
    requires Acyclic(RoutingOf(tracks)) && Describes(descs, tracks) && BuiltFrom(nodes, descs)
    ensures Acyclic(EdgesOf(nodes))
  {
    var rank := AcyclicHasRank(RoutingOf(tracks));
    var h := EdgesOf(nodes);
    var rank': nat -> nat := (i: nat) => RankAt(descs, rank, i);
    forall i | i in h ensures rank'(h[i]) < rank'(i) {
      assert HasEdge(nodes, i);
      EdgeFollows(tracks, descs, nodes, i);
    }
    RankedIsAcyclic(h, rank');
  }

  function RankAt(descs: seq<TrackDesc>, rank: nat -> nat, i: nat): nat {
    if i < |descs| then rank(descs[i].trackId) else 0
  }

  /** An edge between nodes is an edge between the tracks they stand for. */
  lemma {:induction false} EdgeFollows(tracks: map<TrackId, MixerTrack>, descs: seq<TrackDesc>,
                                              nodes: seq<GraphNode>, i: nat)
    requires Describes(descs, tracks) && BuiltFrom(nodes, descs) && HasEdge(nodes, i)
    ensures var k := descs[i].trackId;
      k in RoutingOf(tracks) && RoutingOf(tracks)[k] == descs[Fed(nodes, i)].trackId
  {
    assert descs[i].trackId in tracks;
  }

  lemma {:induction false} MasterIff(t: Tables, descs: seq<TrackDesc>, nodes: seq<GraphNode>, i: nat)
    requires TracksConsistent(t) && Describes(descs, t.tracks) && BuiltFrom(nodes, descs) && i < |nodes|
    ensures IsMaster(nodes, i) <==> descs[i].trackId in Roots(t.tracks)
  {
    var k := descs[i].trackId;
    assert OutputConsistent(t, k);
  }

  lemma {:induction false} OneMaster(t: Tables, descs: seq<TrackDesc>, nodes: seq<GraphNode>)
    requires TracksConsistent(t) && Describes(descs, t.tracks) && BuiltFrom(nodes, descs)
    ensures exists i: nat :: IsMaster(nodes, i) && forall j: nat :: IsMaster(nodes, j) ==> j == i
    ensures forall i: nat | IsMaster(nodes, i) :: t.tracks[descs[i].trackId].output.None?
  {
    var root :| root in Roots(t.tracks);
    assert Roots(t.tracks) - {root} == {} by {
      assert |Roots(t.tracks) - {root}| == 0;
    }
    var i: nat :| i < |descs| && descs[i].trackId == root;
    MasterIff(t, descs, nodes, i);
    forall j: nat | IsMaster(nodes, j) ensures j == i && t.tracks[descs[j].trackId].output.None? {
      MasterIff(t, descs, nodes, j);
      assert descs[j].trackId !in Roots(t.tracks) - {root};
    }
  }

  /** Levels are taken as they are between their bounds, and at the bound beyond it: gain from 0 to 2, pan from -1 to 1. */
  lemma LevelsMean(d: TrackDesc)
    ensures var l := LevelsOf(d);
      && l.muted == d.muted && 0.0 <= l.gain <= 2.0 && -1.0 <= l.pan <= 1.0
      && (l.gain == d.gain || (d.gain < 0.0 && l.gain == 0.0) || (2.0 < d.gain && l.gain == 2.0))
      && (l.pan == d.pan || (d.pan < -1.0 && l.pan == -1.0) || (1.0 < d.pan && l.pan == 1.0))
  {
  }
}
