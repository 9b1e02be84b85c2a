/**
 Lanes are only where clips lie. Moving a clip from one audible lane to another changes nothing that is heard: the same
 notes are placed, the same of them sound, and the schedule has the same note events.
 */
module LaneMoves {
  import opened Notes
  import opened Entities
  import opened TimeMaps
  import opened Overlaps
  import opened Schedules
  import opened Addressing
  import opened Flattener
  import opened Flattening

  function OnLaneOf(t: Tables, c: ClipId, lane: LaneId): Tables
    requires c in t.clips
  {
    t.(clips := t.clips[c := t.clips[c].(lane := lane)])
  }

  /** Both lanes are heard. */
  ghost predicate Movable(t: Tables, c: ClipId, lane: LaneId) {
    c in t.clips && LaneAudible(t.lanes, t.clips[c].lane) && LaneAudible(t.lanes, lane)
  }

  lemma SamePlays(t: Tables, c: ClipId, lane: LaneId, d: ClipId)
    requires Movable(t, c, lane)
    ensures ClipPlays(OnLaneOf(t, c, lane), d) == ClipPlays(t, d)
  {
  }

  lemma SamePlaced(t: Tables, a: Addresses, c: ClipId, lane: LaneId, d: ClipId, r: ResolvedNote)
    requires Movable(t, c, lane) && d in t.clips
    ensures PlacedIn(OnLaneOf(t, c, lane), a, OnLaneOf(t, c, lane).clips[d], r) <==> PlacedIn(t, a, t.clips[d], r)
  {
    var x, y := t.clips[d], OnLaneOf(t, c, lane).clips[d];
    assert y == x.(lane := y.lane);
    ElsewherePlaced(t, a, x, y.lane, OnLaneOf(t, c, lane).clips, r);
  }

  lemma ElsewherePlaced(t: Tables, a: Addresses, clip: Clip, lane: LaneId, clips: map<ClipId, Clip>, r: ResolvedNote)
    ensures PlacedIn(t.(clips := clips), a, clip.(lane := lane), r) <==> PlacedIn(t, a, clip, r)
  {
    if PlacedIn(t, a, clip, r) {
      Elsewhere(t, a, clip, lane, clips, r);
    }
    if PlacedIn(t.(clips := clips), a, clip.(lane := lane), r) {
      Elsewhere(t.(clips := clips), a, clip.(lane := lane), clip.lane, t.clips, r);
      assert t.(clips := clips).(clips := t.clips) == t && clip.(lane := lane).(lane := clip.lane) == clip;
    }
  }

  lemma Elsewhere(t: Tables, a: Addresses, clip: Clip, lane: LaneId, clips: map<ClipId, Clip>, r: ResolvedNote)
    requires PlacedIn(t, a, clip, r)
    ensures PlacedIn(t.(clips := clips), a, clip.(lane := lane), r)
  {
    var p := t.patterns[clip.source.pattern];
    var i :| i in p.sequences && PlacedBy(t, a, clip, p, i, r);
    ElsewhereBy(t, a, clip, lane, clips, p, i, r);
  }

  lemma ElsewhereBy(t: Tables, a: Addresses, clip: Clip, lane: LaneId, clips: map<ClipId, Clip>, p: Pattern,
                    i: InstrumentId, r: ResolvedNote)
    requires PlacedBy(t, a, clip, p, i, r)
    ensures PlacedBy(t.(clips := clips), a, clip.(lane := lane), p, i, r)
  {
    var n, swing := PatternEffectiveLength(p), p.meta.swing;
    var settings, channel := t.instruments[i].settings, a.instruments[i];
    var note :| note in p.sequences[i] && PlacedFrom(clip, n, swing, settings, channel, note, r);
    ElsewhereFrom(clip, lane, n, swing, settings, channel, note, r);
  }

  lemma ElsewhereFrom(clip: Clip, lane: LaneId, n: Ticks, swing: real, settings: ChannelSettings, channel: nat,
                      note: Note, r: ResolvedNote)
    requires PlacedFrom(clip, n, swing, settings, channel, note, r)
    ensures PlacedFrom(clip.(lane := lane), n, swing, settings, channel, note, r)
  {
    var iv :| PlacedAt(clip, n, swing, settings, channel, note, iv, r);
    assert PlacedAt(clip.(lane := lane), n, swing, settings, channel, note, iv, r);
  }

  /** The same notes are placed. */
  lemma {:induction false} MovePlacesTheSame(t: Tables, a: Addresses, c: ClipId, lane: LaneId, r: ResolvedNote)
    requires Movable(t, c, lane)
    ensures Placed(OnLaneOf(t, c, lane), a, r) <==> Placed(t, a, r)
  {
    var t' := OnLaneOf(t, c, lane);
    if d :| d in t.clips && ClipPlays(t, d) && PlacedIn(t, a, t.clips[d], r) {
      SamePlays(t, c, lane, d);
      SamePlaced(t, a, c, lane, d, r);
      assert d in t'.clips;
    }
    if d :| d in t'.clips && ClipPlays(t', d) && PlacedIn(t', a, t'.clips[d], r) {
      SamePlays(t, c, lane, d);
      SamePlaced(t, a, c, lane, d, r);
      assert d in t.clips;
    }
  }

  /** The timelines have the same notes, and end together. */
  lemma {:induction false} MoveGathersTheSame(t: Tables, a: Addresses, c: ClipId, lane: LaneId, x: Timeline, end: Ticks,
                                              y: Timeline, end': Ticks)
    requires Movable(t, c, lane) && Gathered(t, a, t.clips.Keys, x, end)
    requires Gathered(OnLaneOf(t, c, lane), a, OnLaneOf(t, c, lane).clips.Keys, y, end')
    ensures (forall r :: r in x.notes <==> r in y.notes) && end == end'
  {
    forall r ensures r in x.notes <==> r in y.notes {
      MovePlacesTheSame(t, a, c, lane, r);
      GatheredNotes(t, a, x, end, r);
      GatheredNotes(OnLaneOf(t, c, lane), a, y, end', r);
    }
    MoveEndsTheSame(t, c, lane, end, end');
  }

  lemma GatheredNotes(t: Tables, a: Addresses, x: Timeline, end: Ticks, r: ResolvedNote)
    requires Gathered(t, a, t.clips.Keys, x, end)
    ensures r in x.notes <==> Placed(t, a, r)
  {
    if d :| d in t.clips.Keys && ClipPlays(t, d) && PlacedIn(t, a, t.clips[d], r) {
      assert d in t.clips;
    }
    if d :| d in t.clips && ClipPlays(t, d) && PlacedIn(t, a, t.clips[d], r) {
      assert d in t.clips.Keys;
    }
  }

  lemma MoveEndsTheSame(t: Tables, c: ClipId, lane: LaneId, end: Ticks, end': Ticks)
    requires Movable(t, c, lane) && IsEnd(t, t.clips.Keys, end)
    requires IsEnd(OnLaneOf(t, c, lane), OnLaneOf(t, c, lane).clips.Keys, end')
    ensures end == end'
  {
    var t' := OnLaneOf(t, c, lane);
    forall d ensures ClipPlays(t', d) == ClipPlays(t, d) {
      SamePlays(t, c, lane, d);
    }
    if end != 0 {
      var d :| d in t.clips.Keys && ClipPlays(t, d) && t.clips[d].start + t.clips[d].length == end;
      assert ClipPlays(t', d) && d in t'.clips.Keys;
    }
    if end' != 0 {
      var d :| d in t'.clips.Keys && ClipPlays(t', d) && t'.clips[d].start + t'.clips[d].length == end';
      assert ClipPlays(t, d) && d in t.clips.Keys;
    }
  }

  /** What sounds depends on which notes there are. */
  lemma {:induction false} SoundsSame(x: seq<ResolvedNote>, y: seq<ResolvedNote>, v: Voice, s: Ticks, f: Ticks)
    requires forall r :: r in x <==> r in y
    ensures SoundsFor(x, v, s, f) <==> SoundsFor(y, v, s, f)
  {
    if n :| CutTo(x, n, f) && VoiceOf(n) == v && n.start == s {
      CutSame(x, y, n, f);
      assert CutTo(y, n, f);
    }
    if n :| CutTo(y, n, f) && VoiceOf(n) == v && n.start == s {
      CutSame(x, y, n, f);
      assert CutTo(x, n, f);
    }
  }

  lemma {:induction false} HeardSame(m: TimeMap, x: seq<ResolvedNote>, y: seq<ResolvedNote>, g: ScheduleEvent)
    requires m.Valid() && forall r :: r in x <==> r in y
    ensures Heard(m, x, g) <==> Heard(m, y, g)
  {
    if v, s, f :| SoundsFor(x, v, s, f) && g in EventsOf(m, ResolvedNote(s, f, v.instrument, v.key, 0.0)) {
      SoundsSame(x, y, v, s, f);
    }
    if v, s, f :| SoundsFor(y, v, s, f) && g in EventsOf(m, ResolvedNote(s, f, v.instrument, v.key, 0.0)) {
      SoundsSame(x, y, v, s, f);
    }
  }

  /** `g` is a note event of the schedule, its velocity aside. */
  ghost predicate Plays(events: seq<ScheduleEvent>, g: ScheduleEvent) {
    exists e | e in events :: e.kind <= NOTE_OFF && Bare(e) == g
  }

  /** Every channel, insert and audio clip keeps its address. */
  lemma MoveAddressesTheSame(t: Tables, a: Addresses, c: ClipId, lane: LaneId)
    requires c in t.clips
    ensures Addressed(OnLaneOf(t, c, lane), a) <==> Addressed(t, a)
  {
    assert AudioClips(OnLaneOf(t, c, lane).clips) == AudioClips(t.clips);
  }

  /** The schedules before and after the move have the same note events, on the same channels. */
  lemma {:induction false} MoveSoundsTheSame(t: Tables, a: Addresses, a': Addresses, c: ClipId, lane: LaneId, m: TimeMap,
                                             x: Timeline, kept: seq<ResolvedNote>, end: Ticks,
                                             events: seq<ScheduleEvent>, length: int,
                                             y: Timeline, kept': seq<ResolvedNote>, end': Ticks,
                                             events': seq<ScheduleEvent>, length': int)
    requires m.Valid() && Movable(t, c, lane)
    requires Flattened(t, a, m, x, kept, end, events, length)
    requires Flattened(OnLaneOf(t, c, lane), a', m, y, kept', end', events', length')
    ensures a == a' && forall g :: Plays(events, g) <==> Plays(events', g)
  {
    MoveAddressesTheSame(t, a, c, lane);
    OneNumbering(OnLaneOf(t, c, lane), a, a');
    MoveGathersTheSame(t, a, c, lane, x, end, y, end');
    forall g ensures Plays(events, g) <==> Plays(events', g) {
      FlattenedNotes(t, a, m, x, kept, end, events, length, g);
      FlattenedNotes(OnLaneOf(t, c, lane), a, m, y, kept', end', events', length', g);
      HeardSame(m, x.notes, y.notes, g);
    }
  }
}
