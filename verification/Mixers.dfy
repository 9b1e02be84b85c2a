/**
 The mixer as the engine runs it: what was last taken over and published is what is rendered, at the levels that were
 taken over with it. A project that passes the integrity check is never refused.
 */
module Mixers {
  import opened Entities
  import opened Integrity
  import opened Routing
  import opened MixerGraphs
  import opened MixerSync
  import opened MixerRender

  function StripOf(l: Levels): Strip {
    Strip(l.gain, l.pan, l.muted)
  }

  function StripsOf(levels: seq<Levels>, n: nat): (strips: seq<Strip>)
    requires n <= |levels|
    ensures |strips| == n && forall i | 0 <= i < n :: strips[i] == StripOf(levels[i])
  {
    seq(n, i requires 0 <= i < n => StripOf(levels[i]))
  }

  lemma BuiltIsResolved(nodes: seq<GraphNode>, descs: seq<TrackDesc>)
    requires BuiltFrom(nodes, descs)
    ensures Resolved(nodes)
  {
  }

  /** Tracks that there is room for, and whose graph is accepted. */
  ghost predicate Acceptable(descs: seq<TrackDesc>) {
    && descs != [] && Fitting(descs) == descs
    && forall nodes | BuiltFrom(nodes, descs) :: Acyclic(EdgesOf(nodes)) && exists i: nat :: IsMaster(nodes, i)
  }

  /** The tracks of a project that passes the integrity check are. */
  lemma {:induction false} ProjectIsAcceptable(t: Tables, descs: seq<TrackDesc>)
    requires TracksConsistent(t) && Describes(descs, t.tracks) && |descs| <= MAX_MIXER_TRACKS
    ensures Acceptable(descs)
  {
    forall nodes | BuiltFrom(nodes, descs)
      ensures Acyclic(EdgesOf(nodes)) && exists i: nat :: IsMaster(nodes, i)
    {
      IntegrityMeansAccepted(t, descs, nodes);
    }
  }

  /** Whatever the mixer was before, it then has their graph, at their levels. */
  method Sync(slot: MixerSlot, descs: seq<TrackDesc>)
    requires slot.Valid() && Acceptable(descs)
    modifies slot
    ensures slot.Valid() && slot.live == descs && slot.published != null && BuiltFrom(slot.published.nodes, descs)
    ensures forall i | 0 <= i < |descs| :: slot.levels[i] == LevelsOf(descs[i])
  {
    var outcome, nodes := slot.Apply(descs);
    assert !outcome.Kept? ==> BuiltFrom(nodes, descs);
  }

  /** In it the one track of the project without an output is the one that feeds the device. */
  lemma {:induction false} RootsFeedDevice(t: Tables, descs: seq<TrackDesc>, nodes: seq<GraphNode>)
    requires TracksConsistent(t) && Describes(descs, t.tracks) && BuiltFrom(nodes, descs)
    ensures forall i: nat | i < |descs| :: IsMaster(nodes, i) <==> t.tracks[descs[i].trackId].output.None?
  {
    forall i: nat | i < |descs| ensures IsMaster(nodes, i) <==> t.tracks[descs[i].trackId].output.None? {
      MasterIff(t, descs, nodes, i);
    }
  }

  /** Renders what is published: the evaluation of the graph of the tracks last taken over, at the levels in force. */
  method RenderPublished(slot: MixerSlot, rack: Rack, buses: array2<Frame>, device: array<Frame>, stereo: bool,
                         offset: nat, frames: nat)
    returns (ghost signals: seq<Buffer>, ghost ran: seq<nat>)
    requires slot.Valid() && KeepsLength(rack) && MAX_MIXER_TRACKS <= buses.Length0
    requires frames <= buses.Length1 && offset + frames <= device.Length
    modifies buses, device
    ensures slot.published == null ==> device[..] == old(device[..]) && ran == []
    ensures slot.published != null ==>
      var nodes := slot.published.nodes;
      && BuiltFrom(nodes, Fitting(slot.live)) && |nodes| <= |slot.levels|
      && Evaluates(nodes, StripsOf(slot.levels, |nodes|), rack, old(Rows(buses, |nodes|, frames)), frames, signals)
      && ran == Played(nodes, rack, slot.published.order)
      && DeviceHolds(nodes, StripsOf(slot.levels, |nodes|), signals, Everyone(|nodes|), frames, old(device[..]),
                     device[..], stereo, offset)
  {
    var strips := [];
    if slot.published != null {
      BuiltIsResolved(slot.published.nodes, Fitting(slot.live));
      strips := StripsOf(slot.levels, |slot.published.nodes|);
    }
    signals, ran := RenderMixer(slot.published, strips, rack, buses, device, stereo, offset, frames);
  }
}
