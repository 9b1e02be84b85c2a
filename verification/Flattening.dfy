/**
 Flattening end to end: the schedule a project is flattened to, and what every schedule so built satisfies.
 The library sort of automation points leaves points of one parameter at one tick in any order; here they
 keep the order they came in.
 */
module Flattening {
  import opened Notes
  import opened Entities
  import opened StableSort
  import opened Overlaps
  import opened TimeMaps
  import opened Schedules
  import opened Projects
  import opened Addressing
  import opened Flattener

  function ParamEvents(m: TimeMap, xs: seq<ResolvedParam>, kind: nat): seq<ScheduleEvent>
    requires m.Valid()
  {
    if xs == [] then []
    else
      var x := xs[|xs| - 1];
      ParamEvents(m, xs[..|xs| - 1], kind)
      + [ScheduleEvent(m.TicksToFrames(x.position), x.index, kind, -1, x.value, x.parameter)]
  }

  function AudioEvents(m: TimeMap, us: seq<ResolvedAudio>): seq<ScheduleEvent>
    requires m.Valid()
  {
    if us == [] then []
    else
      AudioEvents(m, us[..|us| - 1])
      + [ScheduleEvent(m.TicksToFrames(us[|us| - 1].start), us[|us| - 1].channel, AUDIO_START, -1, 1.0, 0)]
  }

  /** Everything scheduled beside the notes. */
  function OtherEvents(m: TimeMap, x: Timeline): seq<ScheduleEvent>
    requires m.Valid()
  {
    ParamEvents(m, Sort(x.params, ParamBefore), PARAM_VALUE)
    + ParamEvents(m, Sort(x.effectParams, ParamBefore), EFFECT_PARAM)
    + AudioEvents(m, x.audio)
  }

  /** `events` and `length` are the schedule of the project, by way of its timeline `x` and the notes kept of it. */
  ghost predicate Flattened(t: Tables, a: Addresses, m: TimeMap, x: Timeline, kept: seq<ResolvedNote>, end: Ticks,
                            events: seq<ScheduleEvent>, length: int)
    requires m.Valid()
  {
    && Addressed(t, a) && Gathered(t, a, t.clips.Keys, x, end)
    && Resolves(x.notes, kept)
    && events == Sort(AllEventsOf(m, kept) + OtherEvents(m, x), EventBefore)
    && (if 0 < m.TicksToFrames(end) then length == m.TicksToFrames(end)
        else forall e | e in events :: e.frame <= length)
  }

  method AddNotes(builder: ScheduleBuilder, m: TimeMap, notes: seq<ResolvedNote>)
    requires m.Valid()
    modifies builder`events
    ensures builder.events == old(builder.events) + AllEventsOf(m, notes)
  {
    for i := 0 to |notes|
      invariant builder.events == old(builder.events) + AllEventsOf(m, notes[..i])
    {
      var n := notes[i];
      var start := m.TicksToFrames(n.start);
      var end := m.TicksToFrames(n.end);
      var duration := if end - start < 1 then 1 else end - start;
      builder.AddNote(n.instrument, n.key, n.velocity, start, duration);
      assert notes[..i + 1][..i] == notes[..i];
    }
    assert notes[..|notes|] == notes;
  }

  method AddParams(builder: ScheduleBuilder, m: TimeMap, xs: seq<ResolvedParam>, kind: nat)
    requires m.Valid() && (kind == PARAM_VALUE || kind == EFFECT_PARAM)
    modifies builder`events
    ensures builder.events == old(builder.events) + ParamEvents(m, xs, kind)
  {
    for i := 0 to |xs|
      invariant builder.events == old(builder.events) + ParamEvents(m, xs[..i], kind)
    {
      var frame := m.TicksToFrames(xs[i].position);
      if kind == PARAM_VALUE {
        builder.AddParamValue(xs[i].index, xs[i].parameter, xs[i].value, frame);
      } else {
        builder.AddEffectParam(xs[i].index, xs[i].parameter, xs[i].value, frame);
      }
      assert xs[..i + 1][..i] == xs[..i];
    }
    assert xs[..|xs|] == xs;
  }

  method AddAudio(builder: ScheduleBuilder, m: TimeMap, us: seq<ResolvedAudio>)
    requires m.Valid()
    modifies builder`events
    ensures builder.events == old(builder.events) + AudioEvents(m, us)
  {
    for i := 0 to |us|
      invariant builder.events == old(builder.events) + AudioEvents(m, us[..i])
    {
      builder.AddAudioStart(us[i].channel, m.TicksToFrames(us[i].start));
      assert us[..i + 1][..i] == us[..i];
    }
    assert us[..|us|] == us;
  }

  method Resolve(placed: seq<ResolvedNote>) returns (kept: seq<ResolvedNote>)
    ensures Resolves(placed, kept)
  {
    var notes := new ResolvedNote[|placed|](i requires 0 <= i < |placed| => placed[i]);
    assert notes[..] == placed;
    var count := ResolveOverlaps(notes);
    kept := notes[..count];
  }

  method AddEvents(builder: ScheduleBuilder, m: TimeMap, kept: seq<ResolvedNote>, x: Timeline)
    requires m.Valid() && builder.events == []
    modifies builder`events
    ensures builder.events == AllEventsOf(m, kept) + OtherEvents(m, x)
  {
    AddNotes(builder, m, kept);
    AddParams(builder, m, Sort(x.params, ParamBefore), PARAM_VALUE);
    AddParams(builder, m, Sort(x.effectParams, ParamBefore), EFFECT_PARAM);
    AddAudio(builder, m, x.audio);
    Joined4(AllEventsOf(m, kept), ParamEvents(m, Sort(x.params, ParamBefore), PARAM_VALUE),
            ParamEvents(m, Sort(x.effectParams, ParamBefore), EFFECT_PARAM), AudioEvents(m, x.audio));
  }

  lemma Joined4(a: seq<ScheduleEvent>, b: seq<ScheduleEvent>, c: seq<ScheduleEvent>, d: seq<ScheduleEvent>)
    ensures [] + a + b + c + d == a + (b + c + d)
  {
  }

  method Flatten(project: Project, sampleRate: real, generation: nat)
    returns (schedule: Schedule, a: Addresses, ghost m: TimeMap, ghost x: Timeline, ghost kept: seq<ResolvedNote>,
             ghost end: Ticks)
    requires 0.0 < sampleRate
    ensures m == TimeMap(sampleRate, ClampTempo(project.transport.tempo))
    ensures Flattened(project.Copy(), a, m, x, kept, end, schedule.events, schedule.lengthFrames)
    ensures fresh(schedule)
  {
    var timeMap := TimeMap(sampleRate, ClampTempo(project.transport.tempo));
    a := AssignAddresses(project.Copy());
    var timeline, endTicks := Gather(project, a);
    var notes := Resolve(timeline.notes);
    var builder := new ScheduleBuilder();
    AddEvents(builder, timeMap, notes, timeline);
    builder.SetLengthFrames(timeMap.TicksToFrames(endTicks));
    m, x, kept, end := timeMap, timeline, notes, endTicks;
    schedule := builder.Build(sampleRate, generation);
  }

  // ----- what the schedule satisfies -------------------------------------------------------

  /** A placed note is not empty and ends with its clip at the latest. */
  lemma {:induction false} PlacedInside(t: Tables, a: Addresses, r: ResolvedNote, end: Ticks)
    requires Placed(t, a, r) && IsEnd(t, t.clips.Keys, end)
    ensures r.start < r.end <= end
  {
    var c :| c in t.clips && ClipPlays(t, c) && PlacedIn(t, a, t.clips[c], r);
    var clip := t.clips[c];
    var p := t.patterns[clip.source.pattern];
    var i :| i in p.sequences && PlacedBy(t, a, clip, p, i, r);
    var note :| note in p.sequences[i] &&
      PlacedFrom(clip, PatternEffectiveLength(p), p.meta.swing, t.instruments[i].settings, a.instruments[i], note, r);
    assert c in t.clips.Keys;
  }

  lemma {:induction false} KeptInside(t: Tables, a: Addresses, x: Timeline, kept: seq<ResolvedNote>, end: Ticks, i: nat)
    requires Gathered(t, a, t.clips.Keys, x, end) && Resolves(x.notes, kept) && i < |kept|
    ensures kept[i].start < kept[i].end <= end
  {
    assert Remains(x.notes, kept[i]);
    var n :| CutTo(x.notes, n, kept[i].end) && kept[i] == n.(end := kept[i].end);
    assert n in x.notes && Placed(t, a, n);
    PlacedInside(t, a, n, end);
  }

  lemma {:induction false} ParamEventsAre(m: TimeMap, xs: seq<ResolvedParam>, kind: nat)
    requires m.Valid()
    ensures forall e | e in ParamEvents(m, xs, kind) ::
      e.kind == kind && exists x | x in xs :: e.frame == m.TicksToFrames(x.position)
  {
    if xs != [] {
      ParamEventsAre(m, xs[..|xs| - 1], kind);
      assert xs == xs[..|xs| - 1] + [xs[|xs| - 1]];
    }
  }

  lemma {:induction false} AudioEventsAre(m: TimeMap, us: seq<ResolvedAudio>)
    requires m.Valid()
    ensures forall e | e in AudioEvents(m, us) ::
      e.kind == AUDIO_START && exists u | u in us :: e.frame == m.TicksToFrames(u.start)
  {
    if us != [] {
      AudioEventsAre(m, us[..|us| - 1]);
      assert us == us[..|us| - 1] + [us[|us| - 1]];
    }
  }

  lemma ParamOrder()
    ensures WeakOrder(ParamBefore)
  {
  }

  lemma {:induction false} SortedParams(xs: seq<ResolvedParam>)
    ensures forall x :: x in Sort(xs, ParamBefore) <==> x in xs
  {
    ParamOrder();
    SortSorts(xs, ParamBefore);
    forall x ensures x in Sort(xs, ParamBefore) <==> x in xs {
      assert x in Sort(xs, ParamBefore) <==> x in multiset(Sort(xs, ParamBefore));
      assert x in xs <==> x in multiset(xs);
    }
  }

  /** Nothing beside the notes is a note event, and nothing lies beyond the last clip. */
  lemma {:induction false} OthersAre(t: Tables, a: Addresses, m: TimeMap, x: Timeline, end: Ticks)
    requires m.Valid() && Gathered(t, a, t.clips.Keys, x, end)
    ensures forall e | e in OtherEvents(m, x) :: e.kind > NOTE_OFF && e.frame <= m.TicksToFrames(end)
  {
    SortedParams(x.params);
    SortedParams(x.effectParams);
    ParamEventsAre(m, Sort(x.params, ParamBefore), PARAM_VALUE);
    ParamEventsAre(m, Sort(x.effectParams, ParamBefore), EFFECT_PARAM);
    AudioEventsAre(m, x.audio);
    forall p | p in x.params || p in x.effectParams ensures m.TicksToFrames(p.position) <= m.TicksToFrames(end) {
      PointInside(t, a, x, end, p);
      TicksOrder(m, p.position, end);
    }
    forall u | u in x.audio ensures m.TicksToFrames(u.start) <= m.TicksToFrames(end) {
      AudioInside(t, a, x, end, u);
      TicksOrder(m, u.start, end);
    }
  }

  lemma {:induction false} PointInside(t: Tables, a: Addresses, x: Timeline, end: Ticks, p: ResolvedParam)
    requires Gathered(t, a, t.clips.Keys, x, end) && (p in x.params || p in x.effectParams)
    ensures p.position <= end
  {
    var c :| c in t.clips.Keys && ClipPlays(t, c) && (CurvePoint(t, a, c, p) || EffectPoint(t, a, c, p));
  }

  lemma {:induction false} AudioInside(t: Tables, a: Addresses, x: Timeline, end: Ticks, u: ResolvedAudio)
    requires Gathered(t, a, t.clips.Keys, x, end) && u in x.audio
    ensures u.start <= end
  {
    var c :| c in t.clips.Keys && ClipPlays(t, c) && AudioAt(t, a, c, u);
  }

  /** Every voice of a flattened project alternates: on, off, on, off, and nothing is left sounding. */
  lemma {:induction false} FlattenedAlternates(t: Tables, a: Addresses, m: TimeMap, x: Timeline,
                                               kept: seq<ResolvedNote>, end: Ticks, events: seq<ScheduleEvent>,
                                               length: int, v: Voice)
    requires m.Valid() && m.TicksLastAFrame() && Flattened(t, a, m, x, kept, end, events, length)
    ensures Alternates(VoiceEvents(events, v))
  {
    forall i | 0 <= i < |kept| ensures kept[i].start < kept[i].end {
      KeptInside(t, a, x, kept, end, i);
    }
    OthersAre(t, a, m, x, end);
    LongTicksAlternate(m, kept, OtherEvents(m, x), v);
  }

  lemma {:induction false} NoteEventsInside(m: TimeMap, notes: seq<ResolvedNote>, end: Ticks)
    requires m.Valid() && m.TicksLastAFrame()
    requires forall i | 0 <= i < |notes| :: notes[i].start < notes[i].end <= end
    ensures forall e | e in AllEventsOf(m, notes) :: e.frame <= m.TicksToFrames(end)
  {
    if notes != [] {
      var last := notes[|notes| - 1];
      NoteEventsInside(m, notes[..|notes| - 1], end);
      TicksOrder(m, last.start, last.end);
      TicksOrder(m, last.end, end);
    }
  }

  /** No event lies beyond the schedule's length. */
  lemma {:induction false} FlattenedFits(t: Tables, a: Addresses, m: TimeMap, x: Timeline, kept: seq<ResolvedNote>,
                                         end: Ticks, events: seq<ScheduleEvent>, length: int)
    requires m.Valid() && m.TicksLastAFrame() && Flattened(t, a, m, x, kept, end, events, length)
    ensures forall e | e in events :: e.frame <= length
  {
    if 0 < m.TicksToFrames(end) {
      forall i | 0 <= i < |kept| ensures kept[i].start < kept[i].end <= end {
        KeptInside(t, a, x, kept, end, i);
      }
      NoteEventsInside(m, kept, end);
      OthersAre(t, a, m, x, end);
      SortedMembers(AllEventsOf(m, kept) + OtherEvents(m, x));
    }
  }

  /** No placed note starts in the frame in which the song ends. */
  ghost predicate StartsBeforeEnd(m: TimeMap, notes: seq<ResolvedNote>, end: Ticks)
    requires m.Valid()
  {
    forall n | n in notes :: m.TicksToFrames(n.start) < m.TicksToFrames(end)
  }

  /** However short a tick is, the events fit exactly when no placed note starts in the last frame, or the song is so
      short that its length is taken from its events. */
  lemma {:induction false} FlattenedFitsIff(t: Tables, a: Addresses, m: TimeMap, x: Timeline,
                                            kept: seq<ResolvedNote>, end: Ticks, events: seq<ScheduleEvent>, length: int)
    requires m.Valid() && Flattened(t, a, m, x, kept, end, events, length)
    ensures (forall e | e in events :: e.frame <= length) <==>
            m.TicksToFrames(end) <= 0 || StartsBeforeEnd(m, x.notes, end)
  {
    if 0 < m.TicksToFrames(end) {
      forall i | 0 <= i < |kept| ensures kept[i].start < kept[i].end <= end {
        KeptInside(t, a, x, kept, end, i);
      }
      OthersAre(t, a, m, x, end);
      SortedMembers(AllEventsOf(m, kept) + OtherEvents(m, x));
      KeptStarts(t, a, m, x, kept, end);
      NoteEventsFitIff(m, kept, end);
    }
  }

  /** The notes that are kept start where the placed ones start. */
  lemma {:induction false} KeptStarts(t: Tables, a: Addresses, m: TimeMap, x: Timeline, kept: seq<ResolvedNote>, end: Ticks)
    requires m.Valid() && Gathered(t, a, t.clips.Keys, x, end) && Resolves(x.notes, kept)
    ensures StartsBeforeEnd(m, kept, end) <==> StartsBeforeEnd(m, x.notes, end)
  {
    forall n | n in kept ensures exists p :: p in x.notes && p.start == n.start {
      assert Remains(x.notes, n);
      var p :| CutTo(x.notes, p, n.end) && n == p.(end := n.end);
      assert p in x.notes && p.start == n.start;
    }
    forall n | n in x.notes ensures n.start < n.end {
      assert Placed(t, a, n);
      PlacedInside(t, a, n, end);
    }
    forall n | n in x.notes ensures exists k :: k in kept && k.start == n.start {
      OnsetsKept(x.notes, VoiceOf(n), n.start);
      assert Onset(x.notes, VoiceOf(n), n.start);
      var f :| SoundsFor(x.notes, VoiceOf(n), n.start, f);
      assert SoundsIn(kept, VoiceOf(n), n.start, f);
    }
  }

  lemma {:induction false} NoteEventsFitIff(m: TimeMap, notes: seq<ResolvedNote>, end: Ticks)
    requires m.Valid() && forall i | 0 <= i < |notes| :: notes[i].start < notes[i].end <= end
    ensures (forall e | e in AllEventsOf(m, notes) :: e.frame <= m.TicksToFrames(end)) <==>
            StartsBeforeEnd(m, notes, end)
  {
    forall n | n in notes
      ensures (forall e | e in EventsOf(m, n) :: e.frame <= m.TicksToFrames(end)) <==>
              m.TicksToFrames(n.start) < m.TicksToFrames(end)
    {
      OneNoteFitsIff(m, n, end);
    }
    forall e ensures e in AllEventsOf(m, notes) <==> exists n | n in notes :: e in EventsOf(m, n) {
      NoteEventsAre(m, notes, e);
    }
  }

  lemma {:induction false} OneNoteFitsIff(m: TimeMap, n: ResolvedNote, end: Ticks)
    requires m.Valid() && n.start < n.end <= end
    ensures (forall e | e in EventsOf(m, n) :: e.frame <= m.TicksToFrames(end)) <==>
            m.TicksToFrames(n.start) < m.TicksToFrames(end)
  {
    TicksOrder(m, n.start, n.end);
    TicksOrder(m, n.end, end);
    assert EventsOf(m, n)[1] in EventsOf(m, n);
  }

  /** Below one frame per tick that can happen: a note of one tick at the end of a song, at 4000 Hz and 999 beats a
      minute, is released in the frame after the last. */
  lemma ShortNoteOverruns()
    ensures var m, n := TimeMap(4000.0, 999.0), ResolvedNote(4, 5, 0, 60, 1.0);
      m.Valid() && m.TicksToFrames(5) == 1 && exists e | e in EventsOf(m, n) :: e.frame == 2
  {
    var m, n := TimeMap(4000.0, 999.0), ResolvedNote(4, 5, 0, 60, 1.0);
    assert m.FramesPerBeat() == 240000.0 / 999.0;
    assert m.TicksToFrames(4) == 1 && m.TicksToFrames(5) == 1;
    assert EventsOf(m, n)[1] in EventsOf(m, n);
  }

  lemma {:induction false} SortedMembers(events: seq<ScheduleEvent>)
    ensures forall e :: e in Sort(events, EventBefore) <==> e in events
  {
    EventOrder();
    SortSorts(events, EventBefore);
    forall e ensures e in Sort(events, EventBefore) <==> e in events {
      assert e in Sort(events, EventBefore) <==> e in multiset(Sort(events, EventBefore));
      assert e in events <==> e in multiset(events);
    }
  }

  lemma {:induction false} NoteEventsAre(m: TimeMap, notes: seq<ResolvedNote>, e: ScheduleEvent)
    requires m.Valid()
    ensures e in AllEventsOf(m, notes) <==> exists n | n in notes :: e in EventsOf(m, n)
  {
    if notes != [] {
      var front, last := notes[..|notes| - 1], notes[|notes| - 1];
      NoteEventsAre(m, front, e);
      assert notes == front + [last];
      assert forall n | n in notes :: n in front || n == last;
      assert last in notes && forall n | n in front :: n in notes;
    }
  }

  /** An event with its velocity left out: notes that tie may differ in it. */
  function Bare(e: ScheduleEvent): ScheduleEvent {
    e.(value := 0.0)
  }

  /** `g` is the on or the off, in frames, of something that should sound. */
  ghost predicate Heard(m: TimeMap, notes: seq<ResolvedNote>, g: ScheduleEvent)
    requires m.Valid()
  {
    exists v, s, f :: SoundsFor(notes, v, s, f) && g in EventsOf(m, ResolvedNote(s, f, v.instrument, v.key, 0.0))
  }

  lemma {:induction false} KeptAreHeard(m: TimeMap, notes: seq<ResolvedNote>, kept: seq<ResolvedNote>, e: ScheduleEvent)
    requires m.Valid() && AllRemain(notes, kept) && e in AllEventsOf(m, kept)
    ensures Heard(m, notes, Bare(e))
  {
    NoteEventsAre(m, kept, e);
    var n :| n in kept && e in EventsOf(m, n);
    assert Remains(notes, n);
    assert SoundsFor(notes, VoiceOf(n), n.start, n.end);
    assert Bare(e) in EventsOf(m, ResolvedNote(n.start, n.end, n.instrument, n.key, 0.0));
  }

  lemma {:induction false} HeardAreKept(m: TimeMap, notes: seq<ResolvedNote>, kept: seq<ResolvedNote>, g: ScheduleEvent)
    returns (e: ScheduleEvent)
    requires m.Valid() && AllSound(notes, kept) && Heard(m, notes, g)
    ensures e in AllEventsOf(m, kept) && Bare(e) == g
  {
    var v, s, f :| SoundsFor(notes, v, s, f) && g in EventsOf(m, ResolvedNote(s, f, v.instrument, v.key, 0.0));
    assert SoundsIn(kept, v, s, f);
    var n :| n in kept && VoiceOf(n) == v && n.start == s && n.end == f;
    var pair := EventsOf(m, n);
    e := if Bare(pair[0]) == g then pair[0] else pair[1];
    NoteEventsAre(m, kept, e);
  }

  lemma {:induction false} NoteEventsOfSchedule(t: Tables, a: Addresses, m: TimeMap, x: Timeline,
                                                kept: seq<ResolvedNote>, end: Ticks, events: seq<ScheduleEvent>,
                                                length: int, e: ScheduleEvent)
    requires m.Valid() && Flattened(t, a, m, x, kept, end, events, length) && e.kind <= NOTE_OFF
    ensures e in events <==> e in AllEventsOf(m, kept)
  {
    SortedMembers(AllEventsOf(m, kept) + OtherEvents(m, x));
    OthersAre(t, a, m, x, end);
  }

  lemma {:induction false} NoteEventsAreNotes(m: TimeMap, notes: seq<ResolvedNote>)
    requires m.Valid()
    ensures forall e | e in AllEventsOf(m, notes) :: e.kind <= NOTE_OFF
  {
    if notes != [] {
      NoteEventsAreNotes(m, notes[..|notes| - 1]);
    }
  }

  /** The note events of the schedule are those of what should sound: for each voice and onset the longest note
      placed there, up to its own end or the next onset, and nothing else. */
  lemma {:induction false} FlattenedNotes(t: Tables, a: Addresses, m: TimeMap, x: Timeline, kept: seq<ResolvedNote>,
                                          end: Ticks, events: seq<ScheduleEvent>, length: int, g: ScheduleEvent)
    requires m.Valid() && Flattened(t, a, m, x, kept, end, events, length)
    ensures (exists e | e in events :: e.kind <= NOTE_OFF && Bare(e) == g) <==> Heard(m, x.notes, g)
  {
    if exists e | e in events :: e.kind <= NOTE_OFF && Bare(e) == g {
      var e :| e in events && e.kind <= NOTE_OFF && Bare(e) == g;
      NoteEventsOfSchedule(t, a, m, x, kept, end, events, length, e);
      KeptAreHeard(m, x.notes, kept, e);
    }
    if Heard(m, x.notes, g) {
      var e := HeardAreKept(m, x.notes, kept, g);
      NoteEventsAreNotes(m, kept);
      NoteEventsOfSchedule(t, a, m, x, kept, end, events, length, e);
    }
  }
}
