/**
 What the events of a flattened schedule are: which note, point or clip each stands for, and what it carries.
 */
module ScheduleMeanings {
  import opened Notes
  import opened Entities
  import opened StableSort
  import opened Overlaps
  import opened TimeMaps
  import opened Schedules
  import opened Addressing
  import opened Flattener
  import opened Flattening
  import opened PlacementMeanings

  // ----- notes ----------------------------------------------------------------------------------

  /** A clip that is heard plays a pattern in which the instrument has this note, and it lands as `r`. */
  ghost predicate LandsFrom(t: Tables, a: Addresses, c: ClipId, i: InstrumentId, note: Note, r: ResolvedNote) {
    && c in t.clips && ClipPlays(t, c) && t.clips[c].source.PatternSource?
    && t.clips[c].source.pattern in t.patterns
    && var p := t.patterns[t.clips[c].source.pattern];
       && i in p.sequences && note in p.sequences[i] && InstrumentSounds(t.instruments, i) && i in a.instruments
       && Lands(t.clips[c], PatternEffectiveLength(p), p.meta.swing, t.instruments[i].settings, a.instruments[i], note, r)
  }

  lemma {:induction false} PlacedLands(t: Tables, a: Addresses, r: ResolvedNote)
    requires Placed(t, a, r)
    ensures exists c, i, note :: LandsFrom(t, a, c, i, note, r)
  {
    var c :| c in t.clips && ClipPlays(t, c) && PlacedIn(t, a, t.clips[c], r);
    var p := t.patterns[t.clips[c].source.pattern];
    var i :| i in p.sequences && PlacedBy(t, a, t.clips[c], p, i, r);
    var note :| note in p.sequences[i] && PlacedFrom(t.clips[c], PatternEffectiveLength(p), p.meta.swing,
                                                     t.instruments[i].settings, a.instruments[i], note, r);
    PlacedMeans(t.clips[c], PatternEffectiveLength(p), p.meta.swing, t.instruments[i].settings, a.instruments[i], note, r);
    assert LandsFrom(t, a, c, i, note, r);
  }

  /** The two events of a note that lands as `r` and sounds up to `f`: an on, and an off at least a frame later. */
  ghost predicate OnOf(m: TimeMap, r: ResolvedNote, e: ScheduleEvent)
    requires m.Valid()
  {
    e == ScheduleEvent(m.TicksToFrames(r.start), r.instrument, NOTE_ON, r.key, r.velocity, 0)
  }

  ghost predicate OffOf(m: TimeMap, r: ResolvedNote, f: Ticks, e: ScheduleEvent)
    requires m.Valid()
  {
    var on, off := m.TicksToFrames(r.start), m.TicksToFrames(f);
    e == ScheduleEvent(if on < off then off else on + 1, r.instrument, NOTE_OFF, r.key, 0.0, 0)
  }

  /** `e` is the on or the off of a note of a heard clip, the longest of its onset, up to where it is cut. */
  ghost predicate SoundsOnce(t: Tables, a: Addresses, m: TimeMap, notes: seq<ResolvedNote>, e: ScheduleEvent,
                             r: ResolvedNote, f: Ticks)
    requires m.Valid()
  {
    && (exists c, i, note :: LandsFrom(t, a, c, i, note, r)) && CutTo(notes, r, f)
    && if e.kind == NOTE_ON then OnOf(m, r, e) else OffOf(m, r, f, e)
  }

  /** Every note event of the schedule is one, at its strength. */
  lemma {:induction false} NoteEventMeans(t: Tables, a: Addresses, m: TimeMap, x: Timeline, kept: seq<ResolvedNote>,
                                          end: Ticks, events: seq<ScheduleEvent>, length: int, e: ScheduleEvent)
    requires m.Valid() && Flattened(t, a, m, x, kept, end, events, length)
    requires e in events && e.kind <= NOTE_OFF
    ensures exists r, f :: SoundsOnce(t, a, m, x.notes, e, r, f)
  {
    NoteEventsOfSchedule(t, a, m, x, kept, end, events, length, e);
    NoteEventsAre(m, kept, e);
    var n :| n in kept && e in EventsOf(m, n);
    assert Remains(x.notes, n);
    var r :| CutTo(x.notes, r, n.end) && n == r.(end := n.end);
    assert r in x.notes && Placed(t, a, r);
    PlacedLands(t, a, r);
    OneOfTwo(m, r, n.end, e);
    assert SoundsOnce(t, a, m, x.notes, e, r, n.end);
  }

  lemma OneOfTwo(m: TimeMap, r: ResolvedNote, f: Ticks, e: ScheduleEvent)
    requires m.Valid() && e in EventsOf(m, r.(end := f))
    ensures if e.kind == NOTE_ON then OnOf(m, r, e) else OffOf(m, r, f, e)
  {
  }

  // ----- automation and audio -------------------------------------------------------------------

  /** A clip that is heard owns this curve, or its pattern does. */
  ghost predicate PlaysCurve(t: Tables, c: ClipId, s: AutomationSource) {
    && c in t.clips && ClipPlays(t, c)
    && match t.clips[c].source
       case PatternSource(p) => p in t.patterns && s in t.patterns[p].automation
       case AutomationClip(own) => s == own
       case AudioSource(_, _, _, _, _, _, _, _) => false
  }

  /** A point of the curve inside the clip. */
  predicate PointOf(clip: Clip, s: AutomationSource, p: AutomationPoint) {
    p in s.points && 0 <= p.position < clip.length
  }

  lemma {:induction false} ParamEventIff(m: TimeMap, xs: seq<ResolvedParam>, kind: nat, e: ScheduleEvent)
    requires m.Valid()
    ensures e in ParamEvents(m, xs, kind) <==>
      exists x | x in xs :: e == ScheduleEvent(m.TicksToFrames(x.position), x.index, kind, -1, x.value, x.parameter)
  {
    if xs != [] {
      ParamEventIff(m, xs[..|xs| - 1], kind, e);
      assert xs == xs[..|xs| - 1] + [xs[|xs| - 1]];
    }
  }

  lemma {:induction false} AudioEventIff(m: TimeMap, us: seq<ResolvedAudio>, e: ScheduleEvent)
    requires m.Valid()
    ensures e in AudioEvents(m, us) <==>
      exists u | u in us :: e == ScheduleEvent(m.TicksToFrames(u.start), u.channel, AUDIO_START, -1, 1.0, 0)
  {
    if us != [] {
      AudioEventIff(m, us[..|us| - 1], e);
      assert us == us[..|us| - 1] + [us[|us| - 1]];
    }
  }

  /** Which of the three lists beside the notes an event is of, its kind says. */
  lemma {:induction false} OtherEventsByKind(t: Tables, a: Addresses, m: TimeMap, x: Timeline, kept: seq<ResolvedNote>,
                                             end: Ticks, events: seq<ScheduleEvent>, length: int, e: ScheduleEvent)
    requires m.Valid() && Flattened(t, a, m, x, kept, end, events, length) && NOTE_OFF < e.kind
    ensures e in events <==>
      || (exists p | p in x.params ::
            e == ScheduleEvent(m.TicksToFrames(p.position), p.index, PARAM_VALUE, -1, p.value, p.parameter))
      || (exists p | p in x.effectParams ::
            e == ScheduleEvent(m.TicksToFrames(p.position), p.index, EFFECT_PARAM, -1, p.value, p.parameter))
      || (exists u | u in x.audio :: e == ScheduleEvent(m.TicksToFrames(u.start), u.channel, AUDIO_START, -1, 1.0, 0))
  {
    SortedMembers(AllEventsOf(m, kept) + OtherEvents(m, x));
    NoteEventsAreNotes(m, kept);
    SortedParams(x.params);
    SortedParams(x.effectParams);
    ParamEventIff(m, Sort(x.params, ParamBefore), PARAM_VALUE, e);
    ParamEventIff(m, Sort(x.effectParams, ParamBefore), EFFECT_PARAM, e);
    AudioEventIff(m, x.audio, e);
  }

  /** A point of a curve on an instrument, as an event: its frame, the instrument's channel, the parameter, the value. */
  ghost predicate PointEvent(t: Tables, a: Addresses, m: TimeMap, c: ClipId, s: AutomationSource, p: AutomationPoint,
                             e: ScheduleEvent)
    requires m.Valid()
  {
    && PlaysCurve(t, c, s) && PointOf(t.clips[c], s, p) && s.targetKind.InstrumentTarget? && s.instrument in a.instruments
    && e == ScheduleEvent(m.TicksToFrames(t.clips[c].start + p.position), a.instruments[s.instrument], PARAM_VALUE, -1,
                          p.value, s.parameter)
  }

  ghost predicate InsertEvent(t: Tables, a: Addresses, m: TimeMap, c: ClipId, s: AutomationSource, p: AutomationPoint,
                              e: ScheduleEvent)
    requires m.Valid()
  {
    && PlaysCurve(t, c, s) && PointOf(t.clips[c], s, p)
    && s.targetKind.EffectTarget? && (s.mixerTrack, s.effect) in a.effects
    && e == ScheduleEvent(m.TicksToFrames(t.clips[c].start + p.position), a.effects[(s.mixerTrack, s.effect)],
                          EFFECT_PARAM, -1, p.value, s.parameter)
  }

  ghost predicate StartEvent(t: Tables, a: Addresses, m: TimeMap, c: ClipId, e: ScheduleEvent)
    requires m.Valid()
  {
    && c in t.clips && ClipPlays(t, c) && t.clips[c].source.AudioSource? && c in a.audio
    && e == ScheduleEvent(m.TicksToFrames(t.clips[c].start), a.audio[c], AUDIO_START, -1, 1.0, 0)
  }

  lemma {:induction false} CurvePointIs(t: Tables, a: Addresses, c: ClipId, x: ResolvedParam)
    ensures ClipPlays(t, c) && CurvePoint(t, a, c, x) <==>
      exists s, p :: PlaysCurve(t, c, s) && PointOf(t.clips[c], s, p) && s.targetKind.InstrumentTarget?
        && s.instrument in a.instruments
        && x == ResolvedParam(t.clips[c].start + p.position, a.instruments[s.instrument], s.parameter, p.value)
  {
    if ClipPlays(t, c) && CurvePoint(t, a, c, x) {
      var s :| s in Curves(t, t.clips[c]) && ParamFrom(a, t.clips[c], s, x);
      assert PlaysCurve(t, c, s);
    }
    forall s, p | PlaysCurve(t, c, s) && PointOf(t.clips[c], s, p)
      ensures s in Curves(t, t.clips[c])
      ensures s.targetKind.InstrumentTarget? && s.instrument in a.instruments &&
              x == ResolvedParam(t.clips[c].start + p.position, a.instruments[s.instrument], s.parameter, p.value) ==>
              ParamFrom(a, t.clips[c], s, x)
    {
    }
  }

  lemma {:induction false} EffectPointIs(t: Tables, a: Addresses, c: ClipId, x: ResolvedParam)
    ensures ClipPlays(t, c) && EffectPoint(t, a, c, x) <==>
      exists s, p :: PlaysCurve(t, c, s) && PointOf(t.clips[c], s, p) && s.targetKind.EffectTarget?
        && (s.mixerTrack, s.effect) in a.effects
        && x == ResolvedParam(t.clips[c].start + p.position, a.effects[(s.mixerTrack, s.effect)], s.parameter, p.value)
  {
    if ClipPlays(t, c) && EffectPoint(t, a, c, x) {
      var s :| s in Curves(t, t.clips[c]) && EffectParamFrom(a, t.clips[c], s, x);
      assert PlaysCurve(t, c, s);
    }
    forall s, p | PlaysCurve(t, c, s) && PointOf(t.clips[c], s, p)
      ensures s in Curves(t, t.clips[c])
      ensures s.targetKind.EffectTarget? && (s.mixerTrack, s.effect) in a.effects &&
              x == ResolvedParam(t.clips[c].start + p.position, a.effects[(s.mixerTrack, s.effect)], s.parameter, p.value)
              ==> EffectParamFrom(a, t.clips[c], s, x)
    {
    }
  }

  /** The events of a schedule beside the notes are the points inside heard clips, those of curves on instruments and on
      inserts, and the starts of heard audio clips, each with what it carries; and nothing else. */
  lemma {:induction false} OtherEventMeans(t: Tables, a: Addresses, m: TimeMap, x: Timeline, kept: seq<ResolvedNote>,
                                           end: Ticks, events: seq<ScheduleEvent>, length: int, e: ScheduleEvent)
    requires m.Valid() && Flattened(t, a, m, x, kept, end, events, length) && NOTE_OFF < e.kind
    ensures e in events <==>
      || (exists c, s, p :: PointEvent(t, a, m, c, s, p, e))
      || (exists c, s, p :: InsertEvent(t, a, m, c, s, p, e))
      || (exists c :: StartEvent(t, a, m, c, e))
  {
    OtherEventsByKind(t, a, m, x, kept, end, events, length, e);
    PointEventIff(t, a, m, x, end, e);
    InsertEventIff(t, a, m, x, end, e);
    StartEventIff(t, a, m, x, end, e);
  }

  lemma {:induction false} PointOnTimeline(t: Tables, a: Addresses, x: Timeline, end: Ticks, c: ClipId,
                                           s: AutomationSource, p: AutomationPoint)
    requires Gathered(t, a, t.clips.Keys, x, end) && PlaysCurve(t, c, s) && PointOf(t.clips[c], s, p)
    requires s.targetKind.InstrumentTarget? && s.instrument in a.instruments
    ensures ResolvedParam(t.clips[c].start + p.position, a.instruments[s.instrument], s.parameter, p.value)
            in x.params
  {
    var y := ResolvedParam(t.clips[c].start + p.position, a.instruments[s.instrument], s.parameter, p.value);
    CurvePointIs(t, a, c, y);
    assert c in t.clips.Keys && ClipPlays(t, c) && CurvePoint(t, a, c, y);
  }

  lemma {:induction false} PointFromTimeline(t: Tables, a: Addresses, x: Timeline, end: Ticks, y: ResolvedParam)
    returns (c: ClipId, s: AutomationSource, p: AutomationPoint)
    requires Gathered(t, a, t.clips.Keys, x, end) && y in x.params
    ensures PlaysCurve(t, c, s) && PointOf(t.clips[c], s, p) && s.targetKind.InstrumentTarget?
        && s.instrument in a.instruments
    ensures y == ResolvedParam(t.clips[c].start + p.position, a.instruments[s.instrument], s.parameter, p.value)
  {
    c :| c in t.clips.Keys && ClipPlays(t, c) && CurvePoint(t, a, c, y);
    CurvePointIs(t, a, c, y);
    s, p :| PlaysCurve(t, c, s) && PointOf(t.clips[c], s, p) && s.targetKind.InstrumentTarget?
        && s.instrument in a.instruments
      && y == ResolvedParam(t.clips[c].start + p.position, a.instruments[s.instrument], s.parameter, p.value);
  }

  lemma {:induction false} PointForth(t: Tables, a: Addresses, m: TimeMap, x: Timeline, end: Ticks, c: ClipId,
                                      s: AutomationSource, p: AutomationPoint, e: ScheduleEvent)
    requires m.Valid() && Gathered(t, a, t.clips.Keys, x, end) && PointEvent(t, a, m, c, s, p, e)
    ensures exists y | y in x.params ::
      e == ScheduleEvent(m.TicksToFrames(y.position), y.index, PARAM_VALUE, -1, y.value, y.parameter)
  {
    PointOnTimeline(t, a, x, end, c, s, p);
    assert ResolvedParam(t.clips[c].start + p.position, a.instruments[s.instrument], s.parameter, p.value)
           in x.params;
  }

  lemma {:induction false} PointBack(t: Tables, a: Addresses, m: TimeMap, x: Timeline, end: Ticks, y: ResolvedParam,
                                     e: ScheduleEvent)
    requires m.Valid() && Gathered(t, a, t.clips.Keys, x, end) && y in x.params
    requires e == ScheduleEvent(m.TicksToFrames(y.position), y.index, PARAM_VALUE, -1, y.value, y.parameter)
    ensures exists c, s, p :: PointEvent(t, a, m, c, s, p, e)
  {
    var c, s, p := PointFromTimeline(t, a, x, end, y);
    assert PointEvent(t, a, m, c, s, p, e);
  }

  lemma {:induction false} PointEventIff(t: Tables, a: Addresses, m: TimeMap, x: Timeline, end: Ticks, e: ScheduleEvent)
    requires m.Valid() && Gathered(t, a, t.clips.Keys, x, end)
    ensures (exists c, s, p :: PointEvent(t, a, m, c, s, p, e)) <==>
      exists y | y in x.params ::
        e == ScheduleEvent(m.TicksToFrames(y.position), y.index, PARAM_VALUE, -1, y.value, y.parameter)
  {
    if c, s, p :| PointEvent(t, a, m, c, s, p, e) {
      PointForth(t, a, m, x, end, c, s, p, e);
    }
    if y :| (y in x.params
             && e == ScheduleEvent(m.TicksToFrames(y.position), y.index, PARAM_VALUE, -1, y.value, y.parameter))
    {
      PointBack(t, a, m, x, end, y, e);
    }
  }

  lemma {:induction false} InsertOnTimeline(t: Tables, a: Addresses, x: Timeline, end: Ticks, c: ClipId,
                                            s: AutomationSource, p: AutomationPoint)
    requires Gathered(t, a, t.clips.Keys, x, end) && PlaysCurve(t, c, s) && PointOf(t.clips[c], s, p)
    requires s.targetKind.EffectTarget? && (s.mixerTrack, s.effect) in a.effects
    ensures ResolvedParam(t.clips[c].start + p.position, a.effects[(s.mixerTrack, s.effect)], s.parameter, p.value)
            in x.effectParams
  {
    var y := ResolvedParam(t.clips[c].start + p.position, a.effects[(s.mixerTrack, s.effect)], s.parameter, p.value);
    EffectPointIs(t, a, c, y);
    assert c in t.clips.Keys && ClipPlays(t, c) && EffectPoint(t, a, c, y);
  }

  lemma {:induction false} InsertFromTimeline(t: Tables, a: Addresses, x: Timeline, end: Ticks, y: ResolvedParam)
    returns (c: ClipId, s: AutomationSource, p: AutomationPoint)
    requires Gathered(t, a, t.clips.Keys, x, end) && y in x.effectParams
    ensures PlaysCurve(t, c, s) && PointOf(t.clips[c], s, p) && s.targetKind.EffectTarget?
        && (s.mixerTrack, s.effect) in a.effects
    ensures y == ResolvedParam(t.clips[c].start + p.position, a.effects[(s.mixerTrack, s.effect)], s.parameter, p.value)
  {
    c :| c in t.clips.Keys && ClipPlays(t, c) && EffectPoint(t, a, c, y);
    EffectPointIs(t, a, c, y);
    s, p :| PlaysCurve(t, c, s) && PointOf(t.clips[c], s, p) && s.targetKind.EffectTarget?
        && (s.mixerTrack, s.effect) in a.effects
      && y == ResolvedParam(t.clips[c].start + p.position, a.effects[(s.mixerTrack, s.effect)], s.parameter, p.value);
  }

  lemma {:induction false} InsertForth(t: Tables, a: Addresses, m: TimeMap, x: Timeline, end: Ticks, c: ClipId,
                                      s: AutomationSource, p: AutomationPoint, e: ScheduleEvent)
    requires m.Valid() && Gathered(t, a, t.clips.Keys, x, end) && InsertEvent(t, a, m, c, s, p, e)
    ensures exists y | y in x.effectParams ::
      e == ScheduleEvent(m.TicksToFrames(y.position), y.index, EFFECT_PARAM, -1, y.value, y.parameter)
  {
    InsertOnTimeline(t, a, x, end, c, s, p);
    assert ResolvedParam(t.clips[c].start + p.position, a.effects[(s.mixerTrack, s.effect)], s.parameter, p.value)
           in x.effectParams;
  }

  lemma {:induction false} InsertBack(t: Tables, a: Addresses, m: TimeMap, x: Timeline, end: Ticks, y: ResolvedParam,
                                     e: ScheduleEvent)
    requires m.Valid() && Gathered(t, a, t.clips.Keys, x, end) && y in x.effectParams
    requires e == ScheduleEvent(m.TicksToFrames(y.position), y.index, EFFECT_PARAM, -1, y.value, y.parameter)
    ensures exists c, s, p :: InsertEvent(t, a, m, c, s, p, e)
  {
    var c, s, p := InsertFromTimeline(t, a, x, end, y);
    assert InsertEvent(t, a, m, c, s, p, e);
  }

  lemma {:induction false} InsertEventIff(t: Tables, a: Addresses, m: TimeMap, x: Timeline, end: Ticks, e: ScheduleEvent)
    requires m.Valid() && Gathered(t, a, t.clips.Keys, x, end)
    ensures (exists c, s, p :: InsertEvent(t, a, m, c, s, p, e)) <==>
      exists y | y in x.effectParams ::
        e == ScheduleEvent(m.TicksToFrames(y.position), y.index, EFFECT_PARAM, -1, y.value, y.parameter)
  {
    if c, s, p :| InsertEvent(t, a, m, c, s, p, e) {
      InsertForth(t, a, m, x, end, c, s, p, e);
    }
    if y :| (y in x.effectParams
             && e == ScheduleEvent(m.TicksToFrames(y.position), y.index, EFFECT_PARAM, -1, y.value, y.parameter))
    {
      InsertBack(t, a, m, x, end, y, e);
    }
  }

  lemma {:induction false} StartEventIff(t: Tables, a: Addresses, m: TimeMap, x: Timeline, end: Ticks, e: ScheduleEvent)
    requires m.Valid() && Gathered(t, a, t.clips.Keys, x, end)
    ensures (exists c :: StartEvent(t, a, m, c, e)) <==>
      exists u | u in x.audio :: e == ScheduleEvent(m.TicksToFrames(u.start), u.channel, AUDIO_START, -1, 1.0, 0)
  {
    if exists c :: StartEvent(t, a, m, c, e) {
      var c :| StartEvent(t, a, m, c, e);
      assert AudioAt(t, a, c, ResolvedAudio(t.clips[c].start, a.audio[c]));
      assert c in t.clips.Keys && ResolvedAudio(t.clips[c].start, a.audio[c]) in x.audio;
    }
    if exists u | u in x.audio :: e == ScheduleEvent(m.TicksToFrames(u.start), u.channel, AUDIO_START, -1, 1.0, 0) {
      var u :| u in x.audio && e == ScheduleEvent(m.TicksToFrames(u.start), u.channel, AUDIO_START, -1, 1.0, 0);
      var c :| c in t.clips.Keys && ClipPlays(t, c) && AudioAt(t, a, c, u);
      assert StartEvent(t, a, m, c, e);
    }
  }


  // ----- in what order ------------------------------------------------------------------------------

  /** Events come by frame. Of one frame, the settings of inserts come first, then clips that start, then the settings
      of instruments, then releases, and notes that start come last. */
  lemma {:induction false} EventsInOrder(t: Tables, a: Addresses, m: TimeMap, x: Timeline, kept: seq<ResolvedNote>,
                                         end: Ticks, events: seq<ScheduleEvent>, length: int, i: nat, j: nat)
    requires m.Valid() && Flattened(t, a, m, x, kept, end, events, length) && i < j < |events|
    ensures events[i].frame <= events[j].frame
    ensures events[i].frame == events[j].frame ==> Rank(events[i].kind) <= Rank(events[j].kind)
  {
    SortSorts(AllEventsOf(m, kept) + OtherEvents(m, x), EventBefore);
    KindsOf(t, a, m, x, kept, end, events, length, events[i]);
    KindsOf(t, a, m, x, kept, end, events, length, events[j]);
  }

  function Rank(kind: nat): nat {
    if kind == EFFECT_PARAM then 0
    else if kind == AUDIO_START then 1
    else if kind == PARAM_VALUE then 2
    else if kind == NOTE_OFF then 3
    else 4
  }

  lemma {:induction false} KindsOf(t: Tables, a: Addresses, m: TimeMap, x: Timeline, kept: seq<ResolvedNote>, end: Ticks,
                                   events: seq<ScheduleEvent>, length: int, e: ScheduleEvent)
    requires m.Valid() && Flattened(t, a, m, x, kept, end, events, length) && e in events
    ensures e.kind in {NOTE_ON, NOTE_OFF, PARAM_VALUE, AUDIO_START, EFFECT_PARAM}
  {
    if NOTE_OFF < e.kind {
      OtherEventMeans(t, a, m, x, kept, end, events, length, e);
    }
  }

  lemma {:induction false} KeptAt<T>(s: seq<T>, p: T -> bool, i: nat) returns (k: nat)
    requires i < |s| && p(s[i])
    ensures k < |Filter(s, p)| && Filter(s, p)[k] == s[i] && Filter(s, p)[..k] == Filter(s[..i], p)
  {
    var n := |s| - 1;
    if i == n {
      k := |Filter(s[..n], p)|;
    } else {
      k := KeptAt(s[..n], p, i);
      assert s[..n][..i] == s[..i];
    }
  }

  lemma {:induction false} KeptInOrder<T>(s: seq<T>, p: T -> bool, i: nat, j: nat) returns (k: nat, l: nat)
    requires i < j < |s| && p(s[i]) && p(s[j])
    ensures k < l < |Filter(s, p)| && Filter(s, p)[k] == s[i] && Filter(s, p)[l] == s[j]
  {
    l := KeptAt(s, p, j);
    k := KeptAt(s[..j], p, i);
    assert Filter(s, p)[..l][k] == Filter(s, p)[k];
  }

  lemma {:induction false} CameInOrder<T>(s: seq<T>, p: T -> bool, k: nat, l: nat) returns (i: nat, j: nat)
    requires k < l < |Filter(s, p)|
    ensures i < j < |s| && s[i] == Filter(s, p)[k] && s[j] == Filter(s, p)[l]
  {
    var n := |s| - 1;
    if l < |Filter(s[..n], p)| {
      i, j := CameInOrder(s[..n], p, k, l);
    } else {
      j := n;
      i := CameFrom(s[..n], p, k);
    }
  }

  lemma {:induction false} CameFrom<T>(s: seq<T>, p: T -> bool, k: nat) returns (i: nat)
    requires k < |Filter(s, p)|
    ensures i < |s| && s[i] == Filter(s, p)[k]
  {
    var n := |s| - 1;
    if k < |Filter(s[..n], p)| {
      i := CameFrom(s[..n], p, k);
    } else {
      i := n;
    }
  }

  lemma {:induction false} ParamEventAt(m: TimeMap, xs: seq<ResolvedParam>, kind: nat, i: nat)
    requires m.Valid() && i < |xs|
    ensures |ParamEvents(m, xs, kind)| == |xs|
    ensures ParamEvents(m, xs, kind)[i] ==
            ScheduleEvent(m.TicksToFrames(xs[i].position), xs[i].index, kind, -1, xs[i].value, xs[i].parameter)
  {
    var n := |xs| - 1;
    if 0 < n {
      ParamEventAt(m, xs[..n], kind, if i < n then i else 0);
    }
  }

  /** Elements that neither comes before the other are sorted as they came. */
  lemma {:induction false} TiesInOrder<T(!new)>(s: seq<T>, before: (T, T) -> bool, i: nat, j: nat) returns (c: nat, d: nat)
    requires WeakOrder(before) && i < j < |Sort(s, before)|
    requires var x, y := Sort(s, before)[i], Sort(s, before)[j]; !before(x, y) && !before(y, x)
    ensures c < d < |s| && s[c] == Sort(s, before)[i] && s[d] == Sort(s, before)[j]
  {
    var x := Sort(s, before)[i];
    var tie := y => !before(x, y) && !before(y, x);
    SortKeepsTies(s, before, x);
    var k, l := KeptInOrder(Sort(s, before), tie, i, j);
    assert Ties(Sort(s, before), x, before) == Filter(Sort(s, before), tie);
    assert Ties(s, x, before) == Filter(s, tie);
    c, d := CameInOrder(s, tie, k, l);
  }

  predicate SettingOf(m: TimeMap, p: ResolvedParam, e: ScheduleEvent)
    requires m.Valid()
  {
    e == ScheduleEvent(m.TicksToFrames(p.position), p.index, PARAM_VALUE, -1, p.value, p.parameter)
  }

  /** Of two settings of instruments that come in one frame, the one that lies later on the timeline comes later. */
  lemma {:induction false} LaterPointLater(t: Tables, a: Addresses, m: TimeMap, x: Timeline, kept: seq<ResolvedNote>,
                                           end: Ticks, events: seq<ScheduleEvent>, length: int, i: nat, j: nat)
    returns (p: ResolvedParam, q: ResolvedParam)
    requires m.Valid() && Flattened(t, a, m, x, kept, end, events, length) && i < j < |events|
    requires events[i].kind == events[j].kind == PARAM_VALUE && events[i].frame == events[j].frame
    ensures p in x.params && q in x.params && SettingOf(m, p, events[i]) && SettingOf(m, q, events[j])
    ensures p.position <= q.position
  {
    var all := AllEventsOf(m, kept) + OtherEvents(m, x);
    assert events == Sort(all, EventBefore);
    var c, d := TiesInOrder(all, EventBefore, i, j);
    p, q := TwoPoints(m, x, kept, all, c, d);
  }

  lemma {:induction false} TwoPoints(m: TimeMap, x: Timeline, kept: seq<ResolvedNote>, all: seq<ScheduleEvent>, c: nat,
                                     d: nat)
    returns (p: ResolvedParam, q: ResolvedParam)
    requires m.Valid() && all == AllEventsOf(m, kept) + OtherEvents(m, x) && c < d < |all|
    requires all[c].kind == all[d].kind == PARAM_VALUE
    ensures p in x.params && q in x.params && SettingOf(m, p, all[c]) && SettingOf(m, q, all[d])
    ensures p.position <= q.position
  {
    var xs := Sort(x.params, ParamBefore);
    var i := AmongPoints(m, x, kept, all, c);
    var j := AmongPoints(m, x, kept, all, d);
    SortSorts(x.params, ParamBefore);
    ParamEventAt(m, xs, PARAM_VALUE, i);
    ParamEventAt(m, xs, PARAM_VALUE, j);
    p, q := xs[i], xs[j];
    assert p in multiset(xs) && q in multiset(xs);
    assert p in x.params && q in x.params;
    assert !ParamBefore(q, p);
  }

  /** The events of points stand together, after those of notes. */
  lemma {:induction false} AmongPoints(m: TimeMap, x: Timeline, kept: seq<ResolvedNote>, all: seq<ScheduleEvent>, c: nat)
    returns (i: nat)
    requires m.Valid() && all == AllEventsOf(m, kept) + OtherEvents(m, x) && c < |all| && all[c].kind == PARAM_VALUE
    ensures var xs := Sort(x.params, ParamBefore);
      && |ParamEvents(m, xs, PARAM_VALUE)| == |xs|
      && i < |xs| && ParamEvents(m, xs, PARAM_VALUE)[i] == all[c] && c == |AllEventsOf(m, kept)| + i
  {
    var notes, xs, ys := AllEventsOf(m, kept), Sort(x.params, ParamBefore), Sort(x.effectParams, ParamBefore);
    var points, inserts := ParamEvents(m, xs, PARAM_VALUE), ParamEvents(m, ys, EFFECT_PARAM);
    var audio := AudioEvents(m, x.audio);
    if c < |notes| {
      assert all[c] in notes;
      NoteEventsAre(m, kept, all[c]);
      assert false;
    } else if |notes| + |points| <= c {
      var e := all[c];
      assert e in inserts || e in audio;
      ParamEventIff(m, ys, EFFECT_PARAM, e);
      AudioEventIff(m, x.audio, e);
      assert false;
    } else {
      i := c - |notes|;
      assert points[i] == all[c];
      if xs != [] {
        ParamEventAt(m, xs, PARAM_VALUE, 0);
      }
    }
  }
}
