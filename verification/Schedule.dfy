/**
 The flattened schedule: absolute events sorted by frame, offs before ons within a frame. The notes of one
 voice, placed one after another, come out of the sort as they went in: on, off, on, off.
 */
module Schedules {
  import opened StableSort
  import opened Overlaps
  import opened TimeMaps

  const NOTE_ON: nat := 0
  const NOTE_OFF: nat := 1
  const TEMPO_CHANGE: nat := 2
  const PARAM_VALUE: nat := 3
  const PARAM_MODULATION: nat := 4
  const AUDIO_START: nat := 5
  const EFFECT_PARAM: nat := 6

  datatype ScheduleEvent = ScheduleEvent(
    frame: int, instrument: nat, kind: nat, note: int, value: real, reserved: nat)

  predicate EventBefore(a: ScheduleEvent, b: ScheduleEvent) {
    if a.frame != b.frame then a.frame < b.frame else a.kind > b.kind
  }

  predicate SortedByFrame(events: seq<ScheduleEvent>) {
    forall i, j | 0 <= i < j < |events| :: events[i].frame <= events[j].frame
  }

  /** Immutable once built. */
  class Schedule {
    const events: seq<ScheduleEvent>
    const lengthFrames: int
    const sampleRate: real
    const generation: nat

    constructor (events: seq<ScheduleEvent>, lengthFrames: int, sampleRate: real, generation: nat)
      ensures this.events == events && this.lengthFrames == lengthFrames
      ensures this.sampleRate == sampleRate && this.generation == generation
    {
      this.events, this.lengthFrames := events, lengthFrames;
      this.sampleRate, this.generation := sampleRate, generation;
    }

    /** Index of the first event at or after `frame`. */
    method LowerBound(frame: int) returns (low: nat)
      requires SortedByFrame(events)
      ensures low <= |events|
      ensures forall i | 0 <= i < |events| :: events[i].frame < frame <==> i < low
    {
      low := 0;
      var high := |events|;
      while low < high
        invariant low <= high <= |events|
        invariant forall i | 0 <= i < low :: events[i].frame < frame
        invariant forall i | high <= i < |events| :: frame <= events[i].frame
      {
        var mid := low + (high - low) / 2;
        if events[mid].frame < frame {
          low := mid + 1;
        } else {
          high := mid;
        }
      }
    }
  }

  class ScheduleBuilder {
    var events: seq<ScheduleEvent>
    var lengthFrames: int

    constructor ()
      ensures events == [] && lengthFrames == 0
    {
      events, lengthFrames := [], 0;
    }

    method AddNote(instrument: nat, note: int, velocity: real, start: int, duration: int)
      modifies `events
      ensures events == old(events) + NoteEvents(instrument, note, velocity, start, duration)
    {
      events := events + [ScheduleEvent(start, instrument, NOTE_ON, note, velocity, 0)];
      events := events + [ScheduleEvent(start + duration, instrument, NOTE_OFF, note, 0.0, 0)];
    }

    method AddParamValue(instrument: nat, param: nat, value: real, frame: int)
      modifies `events
      ensures events == old(events) + [ScheduleEvent(frame, instrument, PARAM_VALUE, -1, value, param)]
    {
      events := events + [ScheduleEvent(frame, instrument, PARAM_VALUE, -1, value, param)];
    }

    method AddEffectParam(effect: nat, param: nat, value: real, frame: int)
      modifies `events
      ensures events == old(events) + [ScheduleEvent(frame, effect, EFFECT_PARAM, -1, value, param)]
    {
      events := events + [ScheduleEvent(frame, effect, EFFECT_PARAM, -1, value, param)];
    }

    method AddAudioStart(instrument: nat, frame: int)
      modifies `events
      ensures events == old(events) + [ScheduleEvent(frame, instrument, AUDIO_START, -1, 1.0, 0)]
    {
      events := events + [ScheduleEvent(frame, instrument, AUDIO_START, -1, 1.0, 0)];
    }

    method SetLengthFrames(frames: int)
      modifies `lengthFrames
      ensures lengthFrames == frames
    {
      lengthFrames := frames;
    }

    /** Sorts stably and hands the events over; the length covers every event when none was set. */
    method Build(sampleRate: real, generation: nat) returns (schedule: Schedule)
      modifies this
      ensures events == []
      ensures fresh(schedule) && schedule.events == Sort(old(events), EventBefore)
      ensures SortedBy(schedule.events, EventBefore) && SortedByFrame(schedule.events)
      ensures multiset(schedule.events) == multiset(old(events))
      ensures 0 < old(lengthFrames) ==> schedule.lengthFrames == old(lengthFrames)
      ensures old(lengthFrames) <= 0 ==>
        forall e | e in schedule.events :: e.frame <= schedule.lengthFrames
    {
      EventOrder();
      SortSorts(events, EventBefore);
      events := Sort(events, EventBefore);
      FramesAscend(events);
      var length := lengthFrames;
      if length <= 0 && events != [] {
        length := events[|events| - 1].frame;
      }
      schedule := new Schedule(events, length, sampleRate, generation);
      events := [];
    }
  }

  lemma EventOrder()
    ensures WeakOrder(EventBefore)
  {
  }

  lemma FramesAscend(events: seq<ScheduleEvent>)
    requires SortedBy(events, EventBefore)
    ensures SortedByFrame(events)
  {
    forall i, j | 0 <= i < j < |events| ensures events[i].frame <= events[j].frame {
      assert !EventBefore(events[j], events[i]);
    }
  }

  function NoteEvents(instrument: nat, note: int, velocity: real, start: int, duration: int): seq<ScheduleEvent> {
    [ScheduleEvent(start, instrument, NOTE_ON, note, velocity, 0),
     ScheduleEvent(start + duration, instrument, NOTE_OFF, note, 0.0, 0)]
  }

  // ----- one voice ----------------------------------------------------------------

  predicate IsNoteOf(e: ScheduleEvent, v: Voice) {
    e.kind <= NOTE_OFF && e.instrument == v.instrument && e.note == v.key
  }

  /** The note events of one voice, in order. */
  function VoiceEvents(events: seq<ScheduleEvent>, v: Voice): seq<ScheduleEvent> {
    Filter(events, OfVoice(v))
  }

  function OfVoice(v: Voice): ScheduleEvent -> bool {
    e => IsNoteOf(e, v)
  }

  /** A resolved note in frames: never shorter than one. */
  function EventsOf(m: TimeMap, n: ResolvedNote): seq<ScheduleEvent>
    requires m.Valid()
  {
    var start, end := m.TicksToFrames(n.start), m.TicksToFrames(n.end);
    NoteEvents(n.instrument, n.key, n.velocity, start, if end - start < 1 then 1 else end - start)
  }

  function AllEventsOf(m: TimeMap, notes: seq<ResolvedNote>): seq<ScheduleEvent>
    requires m.Valid()
  {
    if notes == [] then [] else AllEventsOf(m, notes[..|notes| - 1]) + EventsOf(m, notes[|notes| - 1])
  }

  function NotesOf(notes: seq<ResolvedNote>, v: Voice): seq<ResolvedNote> {
    Filter(notes, n => VoiceOf(n) == v)
  }

  /** On, off, on, off, each pair of positive length and over before the next begins. */
  predicate Alternates(s: seq<ScheduleEvent>) {
    && |s| % 2 == 0
    && (forall i | 0 <= i < |s| :: s[i].kind == if i % 2 == 0 then NOTE_ON else NOTE_OFF)
    && (forall i | 0 <= i < |s| - 1 :: s[i].frame <= s[i + 1].frame)
    && (forall i | 0 <= i < |s| - 1 && i % 2 == 0 :: s[i].frame < s[i + 1].frame)
  }

  lemma {:induction false} FilterConcat<T>(a: seq<T>, b: seq<T>, p: T -> bool)
    ensures Filter(a + b, p) == Filter(a, p) + Filter(b, p)
  {
    if b == [] {
      assert a + b == a;
    } else {
      FilterConcat(a, b[..|b| - 1], p);
      FilterAppend(a + b[..|b| - 1], b[|b| - 1], p);
      assert a + b == a + b[..|b| - 1] + [b[|b| - 1]];
    }
  }

  /** Where `x` comes before an element, it comes before all that follow. */
  ghost predicate SplitBy<T>(s: seq<T>, x: T, before: (T, T) -> bool) {
    forall i, j | 0 <= i < j < |s| && before(x, s[i]) :: before(x, s[j])
  }

  lemma SortedSplits<T(!new)>(s: seq<T>, x: T, before: (T, T) -> bool)
    requires WeakOrder(before) && SortedBy(s, before)
    ensures SplitBy(s, x, before)
  {
  }

  lemma {:induction false} FilterLast<T>(s: seq<T>, p: T -> bool) returns (i: nat)
    requires Filter(s, p) != []
    ensures i < |s| && Filter(s, p)[|Filter(s, p)| - 1] == s[i]
  {
    if p(s[|s| - 1]) {
      i := |s| - 1;
    } else {
      i := FilterLast(s[..|s| - 1], p);
    }
  }

  lemma {:induction false} InsertBelow<T>(s: seq<T>, last: T, x: T, before: (T, T) -> bool)
    requires before(x, last)
    ensures InsertStable(s + [last], x, before) == InsertStable(s, x, before) + [last]
  {
    assert (s + [last])[..|s + [last]| - 1] == s;
  }

  /** Filtering and stable insertion commute. */
  lemma {:induction false} FilterInsert<T>(s: seq<T>, x: T, before: (T, T) -> bool, p: T -> bool)
    requires SplitBy(s, x, before)
    ensures Filter(InsertStable(s, x, before), p) ==
            if p(x) then InsertStable(Filter(s, p), x, before) else Filter(s, p)
  {
    if s != [] && before(x, s[|s| - 1]) {
      var front, last := s[..|s| - 1], s[|s| - 1];
      assert s == front + [last];
      FilterInsert(front, x, before, p);
      InsertBelow(front, last, x, before);
      InsertBelow(Filter(front, p), last, x, before);
      FilterAppend(InsertStable(front, x, before), last, p);
      FilterAppend(front, last, p);
    } else {
      FilterAtEnd(s, x, before, p);
    }
  }

  lemma {:induction false} FilterAtEnd<T>(s: seq<T>, x: T, before: (T, T) -> bool, p: T -> bool)
    requires SplitBy(s, x, before) && (s == [] || !before(x, s[|s| - 1]))
    ensures Filter(s + [x], p) == if p(x) then InsertStable(Filter(s, p), x, before) else Filter(s, p)
  {
    FilterAppend(s, x, p);
    if Filter(s, p) != [] {
      var i := FilterLast(s, p);
    }
  }

  lemma {:induction false} FilterMembers<T>(s: seq<T>, p: T -> bool)
    ensures forall y :: y in Filter(s, p) <==> y in s && p(y)
  {
    if s != [] {
      FilterMembers(s[..|s| - 1], p);
      assert s == s[..|s| - 1] + [s[|s| - 1]];
    }
  }

  lemma {:induction false} FilterSort<T(!new)>(s: seq<T>, before: (T, T) -> bool, p: T -> bool)
    requires WeakOrder(before)
    ensures Filter(Sort(s, before), p) == Sort(Filter(s, p), before)
  {
    if s != [] {
      var front, x := s[..|s| - 1], s[|s| - 1];
      FilterSort(front, before, p);
      assert SplitBy(Sort(front, before), x, before) by {
        SortSorts(front, before);
        SortedSplits(Sort(front, before), x, before);
      }
      FilterInsert(Sort(front, before), x, before, p);
      if p(x) {
        SortAppend(Filter(front, p), x, before);
      }
    }
  }

  lemma {:induction false} SortAppend<T>(s: seq<T>, x: T, before: (T, T) -> bool)
    ensures Sort(s + [x], before) == InsertStable(Sort(s, before), x, before)
  {
    assert (s + [x])[..|s + [x]| - 1] == s;
  }

  lemma {:induction false} FilterPair(a: ScheduleEvent, b: ScheduleEvent, p: ScheduleEvent -> bool)
    requires p(a) == p(b)
    ensures Filter([a, b], p) == if p(a) then [a, b] else []
  {
    FilterAppend([], a, p);
    assert [] + [a] == [a];
    FilterAppend([a], b, p);
    assert [a] + [b] == [a, b];
  }

  lemma {:induction false} AllEventsAppend(m: TimeMap, notes: seq<ResolvedNote>, n: ResolvedNote)
    requires m.Valid()
    ensures AllEventsOf(m, notes + [n]) == AllEventsOf(m, notes) + EventsOf(m, n)
  {
    assert (notes + [n])[..|notes + [n]| - 1] == notes;
  }

  /** The events of one voice before the sort are those of its notes, in order. */
  lemma {:induction false} VoiceOfNotes(m: TimeMap, notes: seq<ResolvedNote>, v: Voice)
    requires m.Valid()
    ensures VoiceEvents(AllEventsOf(m, notes), v) == AllEventsOf(m, NotesOf(notes, v))
  {
    if notes != [] {
      var front, last := notes[..|notes| - 1], notes[|notes| - 1];
      VoiceOfNotes(m, front, v);
      var pair := EventsOf(m, last);
      FilterConcat(AllEventsOf(m, front), pair, OfVoice(v));
      FilterPair(pair[0], pair[1], OfVoice(v));
      assert pair == [pair[0], pair[1]];
      AllEventsAppend(m, NotesOf(front, v), last);
    }
  }

  /** No two of these notes begin in the same frame. */
  predicate OnsetsApart(m: TimeMap, notes: seq<ResolvedNote>)
    requires m.Valid()
  {
    forall i | 0 <= i < |notes| - 1 :: m.TicksToFrames(notes[i].start) < m.TicksToFrames(notes[i + 1].start)
  }

  /** The notes of one voice, none empty, each over before the next begins. */
  predicate OneAfterAnother(notes: seq<ResolvedNote>) {
    && (forall i | 0 <= i < |notes| :: notes[i].start < notes[i].end)
    && (forall i, j | 0 <= i < j < |notes| :: notes[i].end <= notes[j].start)
  }

  /** With onsets in frames of their own, the events of the notes alternate and are in schedule order. */
  lemma {:induction false} OneVoiceAlternates(m: TimeMap, notes: seq<ResolvedNote>)
    requires m.Valid() && OneAfterAnother(notes) && OnsetsApart(m, notes)
    ensures var s := AllEventsOf(m, notes);
      && Alternates(s) && SortedBy(s, EventBefore) && |s| == 2 * |notes|
      && (notes != [] ==> s[|s| - 1] == EventsOf(m, notes[|notes| - 1])[1])
  {
    if notes != [] {
      var front, last := notes[..|notes| - 1], notes[|notes| - 1];
      OneVoiceAlternates(m, front);
      if front != [] {
        TicksOrder(m, front[|front| - 1].end, last.start);
      }
      AppendPair(AllEventsOf(m, front), EventsOf(m, last));
    }
  }

  lemma {:induction false} AppendPair(s: seq<ScheduleEvent>, pair: seq<ScheduleEvent>)
    requires Alternates(s) && SortedBy(s, EventBefore)
    requires |pair| == 2 && pair[0].kind == NOTE_ON && pair[1].kind == NOTE_OFF && pair[0].frame < pair[1].frame
    requires s != [] ==> s[|s| - 1].frame <= pair[0].frame
    ensures Alternates(s + pair) && SortedBy(s + pair, EventBefore)
  {
    forall e | e in s ensures !EventBefore(pair[0], e) && !EventBefore(pair[1], e) {
      var i :| 0 <= i < |s| && s[i] == e;
      FramesClimb(s, i, |s| - 1);
    }
    AppendSorted(s, pair[0], EventBefore);
    AppendSorted(s + [pair[0]], pair[1], EventBefore);
    assert s + [pair[0]] + [pair[1]] == s + pair;
    AppendAlternates(s, pair);
  }

  lemma {:induction false} AppendAlternates(s: seq<ScheduleEvent>, pair: seq<ScheduleEvent>)
    requires Alternates(s)
    requires |pair| == 2 && pair[0].kind == NOTE_ON && pair[1].kind == NOTE_OFF && pair[0].frame < pair[1].frame
    requires s != [] ==> s[|s| - 1].frame <= pair[0].frame
    ensures Alternates(s + pair)
  {
  }

  /** The notes of a voice, from a resolved list in order, are in order and apart. */
  lemma {:induction false} VoiceNotesApart(notes: seq<ResolvedNote>, v: Voice)
    requires InOrder(notes)
    ensures var kept := NotesOf(notes, v);
      && (forall i | 0 <= i < |kept| :: kept[i] in notes && VoiceOf(kept[i]) == v)
      && (forall i, j | 0 <= i < j < |kept| :: kept[i].end <= kept[j].start)
  {
    if notes != [] {
      var front, last := notes[..|notes| - 1], notes[|notes| - 1];
      VoiceNotesApart(front, v);
      var kept := NotesOf(front, v);
      assert forall n | n in front :: n in notes;
      forall i | 0 <= i < |kept| && VoiceOf(last) == v ensures kept[i].end <= last.start {
        var j :| 0 <= j < |front| && front[j] == kept[i];
        assert notes[j] == kept[i] && !VoiceBefore(v, v);
      }
    }
  }

  lemma {:induction false} NoNotesElsewhere(others: seq<ScheduleEvent>, v: Voice)
    requires forall e | e in others :: e.kind > NOTE_OFF
    ensures VoiceEvents(others, v) == []
  {
    if others != [] {
      NoNotesElsewhere(others[..|others| - 1], v);
    }
  }

  /** Sorting does not mix voices up. */
  lemma {:induction false} VoiceOfSorted(events: seq<ScheduleEvent>, v: Voice)
    ensures VoiceEvents(Sort(events, EventBefore), v) == Sort(VoiceEvents(events, v), EventBefore)
  {
    EventOrder();
    FilterSort(events, EventBefore, OfVoice(v));
  }

  function OnAt(frame: int): ScheduleEvent -> bool {
    (e: ScheduleEvent) => e.kind == NOTE_ON && e.frame == frame
  }

  lemma {:induction false} FramesClimb(s: seq<ScheduleEvent>, i: nat, j: nat)
    requires Alternates(s) && i <= j < |s|
    ensures s[i].frame <= s[j].frame
    decreases j
  {
    if i < j {
      FramesClimb(s, i, j - 1);
    }
  }

  lemma {:induction false} TwoKept<T>(s: seq<T>, p: T -> bool) returns (i: nat, j: nat)
    requires 2 <= |Filter(s, p)|
    ensures i < j < |s| && p(s[i]) && p(s[j])
  {
    var front := s[..|s| - 1];
    if p(s[|s| - 1]) {
      i := OneKept(front, p);
      j := |s| - 1;
    } else {
      i, j := TwoKept(front, p);
    }
  }

  lemma {:induction false} OneKept<T>(s: seq<T>, p: T -> bool) returns (i: nat)
    requires Filter(s, p) != []
    ensures i < |s| && p(s[i])
  {
    if p(s[|s| - 1]) {
      i := |s| - 1;
    } else {
      i := OneKept(s[..|s| - 1], p);
    }
  }

  /** In an alternating voice no two notes begin in the same frame. */
  lemma {:induction false} AlternatingOnsApart(s: seq<ScheduleEvent>, frame: int)
    requires Alternates(s)
    ensures |Filter(s, OnAt(frame))| <= 1
  {
    if 2 <= |Filter(s, OnAt(frame))| {
      var i, j := TwoKept(s, OnAt(frame));
      FramesClimb(s, i + 1, j);
      assert false;
    }
  }

  lemma {:induction false} OnOfPair(m: TimeMap, n: ResolvedNote, frame: int)
    requires m.Valid()
    ensures |Filter(EventsOf(m, n), OnAt(frame))| == if m.TicksToFrames(n.start) == frame then 1 else 0
  {
    var pair := EventsOf(m, n);
    FilterAppend([], pair[0], OnAt(frame));
    FilterAppend([] + [pair[0]], pair[1], OnAt(frame));
    assert pair == [] + [pair[0]] + [pair[1]];
  }

  lemma {:induction false} SharedOnsets(m: TimeMap, notes: seq<ResolvedNote>, i: nat, frame: int)
    requires m.Valid() && i + 1 < |notes|
    requires m.TicksToFrames(notes[i].start) == frame && m.TicksToFrames(notes[i + 1].start) == frame
    ensures 2 <= |Filter(AllEventsOf(m, notes), OnAt(frame))|
    decreases |notes|
  {
    var front, last := notes[..|notes| - 1], notes[|notes| - 1];
    FilterConcat(AllEventsOf(m, front), EventsOf(m, last), OnAt(frame));
    if i + 1 < |front| {
      SharedOnsets(m, front, i, frame);
    } else {
      FilterConcat(AllEventsOf(m, front[..i]), EventsOf(m, notes[i]), OnAt(frame));
      OnOfPair(m, notes[i], frame);
      OnOfPair(m, last, frame);
    }
  }

  /** End to end, from resolved notes to the sorted schedule, whatever else is scheduled beside them: the note
      events of a voice alternate exactly when no two of its onsets round to the same frame, and then they are
      the events of its notes in their order. */
  lemma {:induction false} ScheduleAlternatesIff(m: TimeMap, notes: seq<ResolvedNote>, others: seq<ScheduleEvent>, v: Voice)
    requires m.Valid() && InOrder(notes)
    requires forall i | 0 <= i < |notes| :: notes[i].start < notes[i].end
    requires forall e | e in others :: e.kind > NOTE_OFF
    ensures var s := VoiceEvents(Sort(AllEventsOf(m, notes) + others, EventBefore), v);
      var kept := NotesOf(notes, v);
      && (Alternates(s) <==> OnsetsApart(m, kept))
      && (OnsetsApart(m, kept) ==> s == AllEventsOf(m, kept))
  {
    var all, kept := AllEventsOf(m, notes), NotesOf(notes, v);
    VoiceOfSorted(all + others, v);
    FilterConcat(all, others, OfVoice(v));
    NoNotesElsewhere(others, v);
    VoiceOfNotes(m, notes, v);
    assert VoiceEvents(all + others, v) == AllEventsOf(m, kept);
    VoiceNotesApart(notes, v);
    if OnsetsApart(m, kept) {
      OneVoiceAlternates(m, kept);
      SortedIsFixed(AllEventsOf(m, kept), EventBefore);
    } else {
      CrowdedIsNotAlternating(m, kept);
    }
  }

  lemma {:induction false} CrowdedIsNotAlternating(m: TimeMap, notes: seq<ResolvedNote>)
    requires m.Valid() && OneAfterAnother(notes) && !OnsetsApart(m, notes)
    ensures !Alternates(Sort(AllEventsOf(m, notes), EventBefore))
  {
    var i :| 0 <= i < |notes| - 1 && m.TicksToFrames(notes[i].start) >= m.TicksToFrames(notes[i + 1].start);
    var frame := m.TicksToFrames(notes[i].start);
    TicksOrder(m, notes[i].start, notes[i + 1].start);
    SharedOnsets(m, notes, i, frame);
    SortedLength(AllEventsOf(m, notes), OnAt(frame));
    if Alternates(Sort(AllEventsOf(m, notes), EventBefore)) {
      AlternatingOnsApart(Sort(AllEventsOf(m, notes), EventBefore), frame);
    }
  }

  lemma {:induction false} SortedLength(events: seq<ScheduleEvent>, p: ScheduleEvent -> bool)
    ensures |Filter(Sort(events, EventBefore), p)| == |Filter(events, p)|
  {
    EventOrder();
    FilterSort(events, EventBefore, p);
    SortSorts(Filter(events, p), EventBefore);
    assert |multiset(Sort(Filter(events, p), EventBefore))| == |multiset(Filter(events, p))|;
  }

  /** When a tick lasts a frame, every voice of the schedule alternates. */
  lemma {:induction false} LongTicksAlternate(m: TimeMap, notes: seq<ResolvedNote>, others: seq<ScheduleEvent>, v: Voice)
    requires m.Valid() && m.TicksLastAFrame() && InOrder(notes)
    requires forall i | 0 <= i < |notes| :: notes[i].start < notes[i].end
    requires forall e | e in others :: e.kind > NOTE_OFF
    ensures Alternates(VoiceEvents(Sort(AllEventsOf(m, notes) + others, EventBefore), v))
  {
    ScheduleAlternatesIff(m, notes, others, v);
    VoiceNotesApart(notes, v);
    var kept := NotesOf(notes, v);
    forall i | 0 <= i < |kept| - 1
      ensures m.TicksToFrames(kept[i].start) < m.TicksToFrames(kept[i + 1].start)
    {
      TicksOrder(m, kept[i].start, kept[i + 1].start);
    }
  }

  /** Below one frame per tick onsets can share a frame. */
  lemma ShortTicksCollide()
    ensures var m := TimeMap(4000.0, 999.0); m.Valid() && m.TicksToFrames(0) == m.TicksToFrames(1)
  {
    var m := TimeMap(4000.0, 999.0);
    ScaleOrder(0.0, 1.0 / 960.0, m.FramesPerBeat());
    FactorOrder(1.0 / 960.0, m.FramesPerBeat(), 470.0);
  }
}
