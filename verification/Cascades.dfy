/**
 What each deletion leaves behind, stated over the whole project at once. `Project`'s methods
 reach these states entity by entity; `Integrity` and `Commands` reason about them.
 */
module Cascades {
  import opened Options
  import opened Notes
  import opened Entities

  /** The entries of `m` whose value is not `gone`. */
  function Keep<V>(m: map<nat, V>, gone: V -> bool): map<nat, V> {
    m - (set k | k in m && gone(m[k]))
  }

  function StripSequence(p: Pattern, id: InstrumentId): Pattern {
    p.(sequences := p.sequences - {id})
  }

  function WithoutInstrument(t: Tables, id: InstrumentId): Tables {
    t.(patterns := map p | p in t.patterns :: StripSequence(t.patterns[p], id),
       clips := Keep(t.clips, (c: Clip) => AutomatesInstrument(c, id)),
       instruments := t.instruments - {id})
  }

  function WithoutPattern(t: Tables, id: PatternId): Tables {
    t.(clips := Keep(t.clips, (c: Clip) => UsesPattern(c, id)), patterns := t.patterns - {id})
  }

  /** A lane inside the group `id` is released, not deleted. */
  function Released(l: ArrangementLane, id: LaneId): ArrangementLane {
    if l.groupId == Some(id) then l.(groupId := None) else l
  }

  function WithoutLane(t: Tables, id: LaneId): Tables {
    t.(clips := Keep(t.clips, (c: Clip) => c.lane == id),
       lanes := (map l | l in t.lanes :: Released(t.lanes[l], id)) - {id})
  }

  function WithoutClip(t: Tables, id: ClipId): Tables {
    t.(clips := t.clips - {id})
  }

  function RerouteOne(r: OutputRoute, id: TrackId, master: TrackId): OutputRoute {
    if r.track == id then r.(track := master) else r
  }

  function Rerouted(routing: seq<OutputRoute>, id: TrackId, master: TrackId): (r: seq<OutputRoute>) {
    seq(|routing|, i requires 0 <= i < |routing| => RerouteOne(routing[i], id, master))
  }

  function RerouteInstrument(i: Instrument, id: TrackId, master: TrackId): Instrument {
    i.(routing := Rerouted(i.routing, id, master))
  }

  function RepointTrack(t: MixerTrack, id: TrackId, master: TrackId): MixerTrack {
    if t.output == Some(id) then t.(output := Some(master)) else t
  }

  function RepointClip(c: Clip, id: TrackId, master: TrackId): Clip {
    if PlaysInto(c, id) then c.(source := c.source.(destination := master)) else c
  }

  function RepointedClips(clips: map<ClipId, Clip>, id: TrackId, master: TrackId): map<ClipId, Clip> {
    (map c | c in clips :: RepointClip(clips[c], id, master)) - (set c | c in clips && AutomatesTrack(clips[c], id))
  }

  /** Everything that fed track `id` feeds the master instead; its automation goes with it. */
  function WithoutTrack(t: Tables, id: TrackId): Tables {
    t.(instruments := map i | i in t.instruments :: RerouteInstrument(t.instruments[i], id, t.master),
       tracks := (map k | k in t.tracks :: RepointTrack(t.tracks[k], id, t.master)) - {id},
       clips := RepointedClips(t.clips, id, t.master))
  }

  function WithSequence(p: Pattern, i: InstrumentId, sequence: NoteBag): Pattern {
    p.(sequences := if sequence == multiset{} then p.sequences - {i} else p.sequences[i := sequence])
  }

  function Updated<V>(m: map<nat, V>, id: nat, mutator: V -> V): map<nat, V> {
    if id in m then m[id := mutator(m[id])] else m
  }
}
