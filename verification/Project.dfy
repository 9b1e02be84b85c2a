/**
 The project: five entity maps and the operations that keep them consistent. Loops over a map
 take its keys in any order, which covers the source's identifier order. Change events and the
 identifier generator are not part of this model.
 */
module Projects {
  import opened Options
  import opened Notes
  import opened Entities
  import opened Cascades

  class Project {
    var instruments: map<InstrumentId, Instrument>
    var patterns: map<PatternId, Pattern>
    var lanes: map<LaneId, ArrangementLane>
    var clips: map<ClipId, Clip>
    var tracks: map<TrackId, MixerTrack>
    var master: TrackId
    var transport: TransportState
    var meta: ProjectMeta

    /** The project's whole contents as one value. */
    function Copy(): Tables
      reads this
    {
      Tables(instruments, patterns, lanes, clips, tracks, master, transport, meta)
    }

    /** A new project holds the master track and nothing else. */
    constructor (master: TrackId, transport: TransportState, meta: ProjectMeta)
      requires master != UNSET
      ensures Copy() == Tables(map[], map[], map[], map[],
        map[master := MixerTrack(master, "Master", None, 1.0, 0.0, false, false, [])],
        master, transport, meta)
    {
      instruments, patterns, lanes, clips := map[], map[], map[], map[];
      tracks := map[master := MixerTrack(master, "Master", None, 1.0, 0.0, false, false, [])];
      this.master, this.transport, this.meta := master, transport, meta;
    }

    constructor Adopt(t: Tables)
      ensures Copy() == t
    {
      instruments, patterns, lanes, clips := t.instruments, t.patterns, t.lanes, t.clips;
      tracks, master, transport, meta := t.tracks, t.master, t.transport, t.meta;
    }

    // ----- lookups -----------------------------------------------------------

    method ClipsWhere(wanted: Clip -> bool) returns (found: seq<ClipId>)
      ensures forall c :: c in found <==> c in clips && wanted(clips[c])
      ensures forall i, j | 0 <= i < j < |found| :: found[i] != found[j]
    {
      found := [];
      var todo := clips.Keys;
      while todo != {}
        invariant todo <= clips.Keys
        invariant forall c :: c in found <==> c in clips && c !in todo && wanted(clips[c])
        invariant forall i, j | 0 <= i < j < |found| :: found[i] != found[j]
      {
        var c :| c in todo;
        todo := todo - {c};
        if wanted(clips[c]) {
          found := found + [c];
        }
      }
    }

    // ----- deletion ----------------------------------------------------------

    method DeleteClip(id: ClipId) returns (ok: bool)
      modifies `clips
      ensures ok == (id in old(clips))
      ensures clips == old(clips) - {id}
    {
      if id !in clips {
        return false;
      }
      clips := clips - {id};
      return true;
    }

    /** Deletes the clips of `found` one by one. */
    method DeleteClips(found: seq<ClipId>)
      modifies `clips
      ensures clips == old(clips) - set c | c in found
    {
      for i := 0 to |found|
        invariant clips == old(clips) - set c | c in found[..i]
      {
        var ok := DeleteClip(found[i]);
        assert found[..i + 1] == found[..i] + [found[i]];
      }
      assert found[..|found|] == found;
    }

    method DeleteInstrument(id: InstrumentId) returns (ok: bool)
      modifies this
      ensures ok == (id in old(instruments))
      ensures Copy() == if ok then WithoutInstrument(old(Copy()), id) else old(Copy())
    {
      if id !in instruments {
        return false;
      }
      var todo := patterns.Keys;
      while todo != {}
        invariant todo <= patterns.Keys == old(patterns).Keys
        invariant forall p | p in patterns ::
          patterns[p] == if p in todo then old(patterns)[p] else StripSequence(old(patterns)[p], id)
        invariant Copy() == old(Copy()).(patterns := patterns)
      {
        var p :| p in todo;
        todo := todo - {p};
        patterns := patterns[p := StripSequence(patterns[p], id)];
      }
      var automation := ClipsWhere((c: Clip) => AutomatesInstrument(c, id));
      DeleteClips(automation);
      instruments := instruments - {id};
      return true;
    }

    method DeletePattern(id: PatternId) returns (ok: bool)
      modifies this
      ensures ok == (id in old(patterns))
      ensures Copy() == if ok then WithoutPattern(old(Copy()), id) else old(Copy())
    {
      if id !in patterns {
        return false;
      }
      var placements := ClipsWhere((c: Clip) => UsesPattern(c, id));
      DeleteClips(placements);
      patterns := patterns - {id};
      return true;
    }

    method DeleteLane(id: LaneId) returns (ok: bool)
      modifies this
      ensures ok == (id in old(lanes))
      ensures Copy() == if ok then WithoutLane(old(Copy()), id) else old(Copy())
    {
      if id !in lanes {
        return false;
      }
      var onLane := ClipsWhere((c: Clip) => c.lane == id);
      DeleteClips(onLane);
      var todo := lanes.Keys;
      while todo != {}
        invariant todo <= lanes.Keys == old(lanes).Keys
        invariant forall l | l in lanes ::
          lanes[l] == if l in todo then old(lanes)[l] else Released(old(lanes)[l], id)
        invariant Copy() == old(Copy()).(lanes := lanes, clips := clips)
        invariant clips == Keep(old(clips), (c: Clip) => c.lane == id)
      {
        var l :| l in todo;
        todo := todo - {l};
        if lanes[l].groupId == Some(id) {
          lanes := lanes[l := lanes[l].(groupId := None)];
        }
      }
      lanes := lanes - {id};
      return true;
    }

    /** The master track is the one thing that cannot be deleted. */
    method DeleteMixerTrack(id: TrackId) returns (ok: bool)
      modifies this
      ensures ok == (id != old(master) && id in old(tracks))
      ensures Copy() == if ok then WithoutTrack(old(Copy()), id) else old(Copy())
    {
      if id == master || id !in tracks {
        return false;
      }
      var hit := ClipsWhere((c: Clip) => PlaysInto(c, id) || AutomatesTrack(c, id));
      RerouteInstruments(id);
      RepointInputs(id);
      RepointClips(id, hit);
      tracks := tracks - {id};
      return true;
    }

    method RerouteInstruments(id: TrackId)
      modifies `instruments
      ensures instruments == map i | i in old(instruments) :: RerouteInstrument(old(instruments)[i], id, master)
    {
      var todo := instruments.Keys;
      while todo != {}
        invariant todo <= instruments.Keys == old(instruments).Keys
        invariant forall i | i in instruments ::
          instruments[i] ==
            if i in todo then old(instruments)[i] else RerouteInstrument(old(instruments)[i], id, master)
      {
        var i :| i in todo;
        todo := todo - {i};
        var routing := RerouteRoutes(instruments[i].routing, id, master);
        instruments := instruments[i := instruments[i].(routing := routing)];
      }
    }

    static method RerouteRoutes(routes: seq<OutputRoute>, id: TrackId, master: TrackId)
      returns (routing: seq<OutputRoute>)
      ensures routing == Rerouted(routes, id, master)
    {
      routing := routes;
      for k := 0 to |routes|
        invariant |routing| == |routes|
        invariant forall j | 0 <= j < |routes| ::
          routing[j] == if j < k then RerouteOne(routes[j], id, master) else routes[j]
      {
        if routing[k].track == id {
          routing := routing[k := routing[k].(track := master)];
        }
      }
    }

    method RepointInputs(id: TrackId)
      modifies `tracks
      ensures tracks == map k | k in old(tracks) :: RepointTrack(old(tracks)[k], id, master)
    {
      var todo := tracks.Keys;
      while todo != {}
        invariant todo <= tracks.Keys == old(tracks).Keys
        invariant forall k | k in tracks ::
          tracks[k] == if k in todo then old(tracks)[k] else RepointTrack(old(tracks)[k], id, master)
      {
        var k :| k in todo;
        todo := todo - {k};
        if tracks[k].output == Some(id) {
          tracks := tracks[k := tracks[k].(output := Some(master))];
        }
      }
    }

    /** Audio clips of `hit` are re-pointed at the master; automation clips of it are deleted. */
    method RepointClips(id: TrackId, hit: seq<ClipId>)
      requires forall c :: c in hit <==> c in clips && (PlaysInto(clips[c], id) || AutomatesTrack(clips[c], id))
      modifies `clips
      ensures clips == RepointedClips(old(clips), id, master)
    {
      for i := 0 to |hit|
        invariant clips.Keys == set c | c in old(clips) && (c in hit[..i] ==> !AutomatesTrack(old(clips)[c], id))
        invariant forall c | c in clips ::
          clips[c] == if c in hit[..i] then RepointClip(old(clips)[c], id, master) else old(clips)[c]
      {
        assert hit[..i + 1] == hit[..i] + [hit[i]];
        var c := hit[i];
        if c in clips {
          if clips[c].source.AudioSource? {
            clips := clips[c := clips[c].(source := clips[c].source.(destination := master))];
          } else {
            var ok := DeleteClip(c);
          }
        }
      }
      assert hit[..|hit|] == hit;
    }

    // ----- restore: undo's half of creation ----------------------------------

    method RestoreInstrument(i: Instrument) returns (ok: bool)
      modifies `instruments
      ensures ok == (i.id != UNSET && i.id !in old(instruments))
      ensures instruments == if ok then old(instruments)[i.id := i] else old(instruments)
    {
      if i.id == UNSET || i.id in instruments {
        return false;
      }
      instruments := instruments[i.id := i];
      return true;
    }

    method RestorePattern(p: Pattern) returns (ok: bool)
      modifies `patterns
      ensures ok == (p.id != UNSET && p.id !in old(patterns))
      ensures patterns == if ok then old(patterns)[p.id := p] else old(patterns)
    {
      if p.id == UNSET || p.id in patterns {
        return false;
      }
      patterns := patterns[p.id := p];
      return true;
    }

    method RestoreLane(l: ArrangementLane) returns (ok: bool)
      modifies `lanes
      ensures ok == (l.id != UNSET && l.id !in old(lanes))
      ensures lanes == if ok then old(lanes)[l.id := l] else old(lanes)
    {
      if l.id == UNSET || l.id in lanes {
        return false;
      }
      lanes := lanes[l.id := l];
      return true;
    }

    method RestoreClip(c: Clip) returns (ok: bool)
      modifies `clips
      ensures ok == (c.id != UNSET && c.id !in old(clips))
      ensures clips == if ok then old(clips)[c.id := c] else old(clips)
    {
      if c.id == UNSET || c.id in clips {
        return false;
      }
      clips := clips[c.id := c];
      return true;
    }

    method RestoreMixerTrack(k: MixerTrack) returns (ok: bool)
      modifies `tracks
      ensures ok == (k.id != UNSET && k.id !in old(tracks))
      ensures tracks == if ok then old(tracks)[k.id := k] else old(tracks)
    {
      if k.id == UNSET || k.id in tracks {
        return false;
      }
      tracks := tracks[k.id := k];
      return true;
    }

    /** Replaces, or when `sequence` is empty erases, one instrument's notes in a pattern. */
    method RestoreSequence(p: PatternId, i: InstrumentId, sequence: NoteBag) returns (ok: bool)
      modifies `patterns
      ensures ok == (p in old(patterns) && i in instruments)
      ensures patterns == if ok then old(patterns)[p := WithSequence(old(patterns)[p], i, sequence)]
                          else old(patterns)
    {
      if p !in patterns || i !in instruments {
        return false;
      }
      if sequence == multiset{} {
        patterns := patterns[p := patterns[p].(sequences := patterns[p].sequences - {i})];
      } else {
        patterns := patterns[p := patterns[p].(sequences := patterns[p].sequences[i := sequence])];
      }
      return true;
    }

    // ----- modify ------------------------------------------------------------

    method UpdateInstrument(id: InstrumentId, mutator: Instrument -> Instrument) returns (ok: bool)
      modifies `instruments
      ensures ok == (id in old(instruments))
      ensures instruments == Updated(old(instruments), id, mutator)
    {
      if id !in instruments {
        return false;
      }
      instruments := instruments[id := mutator(instruments[id])];
      return true;
    }

    method UpdatePattern(id: PatternId, mutator: Pattern -> Pattern) returns (ok: bool)
      modifies `patterns
      ensures ok == (id in old(patterns))
      ensures patterns == Updated(old(patterns), id, mutator)
    {
      if id !in patterns {
        return false;
      }
      patterns := patterns[id := mutator(patterns[id])];
      return true;
    }

    method UpdateLane(id: LaneId, mutator: ArrangementLane -> ArrangementLane) returns (ok: bool)
      modifies `lanes
      ensures ok == (id in old(lanes))
      ensures lanes == Updated(old(lanes), id, mutator)
    {
      if id !in lanes {
        return false;
      }
      lanes := lanes[id := mutator(lanes[id])];
      return true;
    }

    method UpdateClip(id: ClipId, mutator: Clip -> Clip) returns (ok: bool)
      modifies `clips
      ensures ok == (id in old(clips))
      ensures clips == Updated(old(clips), id, mutator)
    {
      if id !in clips {
        return false;
      }
      clips := clips[id := mutator(clips[id])];
      return true;
    }

    method UpdateMixerTrack(id: TrackId, mutator: MixerTrack -> MixerTrack) returns (ok: bool)
      modifies `tracks
      ensures ok == (id in old(tracks))
      ensures tracks == Updated(old(tracks), id, mutator)
    {
      if id !in tracks {
        return false;
      }
      tracks := tracks[id := mutator(tracks[id])];
      return true;
    }

    method SetTransport(transport: TransportState)
      modifies `transport
      ensures this.transport == transport
    {
      this.transport := transport;
    }

    method SetMeta(meta: ProjectMeta)
      modifies `meta
      ensures this.meta == meta
    {
      this.meta := meta;
    }

    // ----- derived -----------------------------------------------------------

    /** How long a pattern plays for: its declared length, or the bars its notes need. */
    method EffectiveLengthOf(p: Pattern) returns (length: Ticks)
      ensures length == PatternEffectiveLength(p)
    {
      var end := SequencesEndOf(p.sequences);
      length := EffectiveLength(p.meta.length, end);
    }

    static method SequencesEndOf(sequences: map<InstrumentId, NoteBag>) returns (end: Ticks)
      ensures end == SequencesEnd(sequences)
    {
      end := 0;
      var todo := sequences.Keys;
      ghost var at: InstrumentId := 0;
      while todo != {}
        invariant todo <= sequences.Keys
        invariant 0 <= end
        invariant forall i | i in sequences && i !in todo :: BagEnd(sequences[i]) <= end
        invariant end == 0 || (at in sequences && BagEnd(sequences[at]) == end)
      {
        var i :| i in todo;
        todo := todo - {i};
        var mine := BagEndOf(sequences[i]);
        if end < mine {
          end, at := mine, i;
        }
      }
      assert IsSequencesEnd(sequences, end);
      SequencesEndUnique(sequences, end);
    }

    static method BagEndOf(notes: NoteBag) returns (end: Ticks)
      ensures end == BagEnd(notes)
    {
      end := 0;
      var todo := notes;
      while todo != multiset{}
        invariant todo <= notes
        invariant IsContentEnd(notes - todo, end)
      {
        var n :| n in todo;
        ghost var before := notes - todo;
        todo := todo - multiset{n};
        assert notes - todo == before + multiset{n};
        if end < NoteEnd(n) {
          end := NoteEnd(n);
        }
        assert forall m | m in notes - todo :: m == n || m in before;
      }
      assert notes - multiset{} == notes;
    }
  }
}
