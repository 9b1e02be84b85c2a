/**
 What an instrument makes of what it is told: a key is sounding from its note-on to its note-off or to a release
 of all. Playing a flattened schedule, over any number of loop passes and however it is cut into blocks, never
 starts a key that is already sounding, and a key left sounding is one whose note is not over yet.
 */
module Voicing {
  import opened Notes
  import opened Entities
  import opened StableSort
  import opened EventLists
  import opened TimeMaps
  import opened Overlaps
  import opened Addressing
  import opened Flattener
  import opened Flattening
  import Schedules
  import opened Playback

  predicate Starts(d: Delivery, key: int) {
    d.message.kind == NOTE_ON && d.message.key == key
  }

  predicate Releases(d: Delivery, key: int) {
    d.message.kind == NOTE_OFF && (d.message.key == key || d.message.key == ANY_KEY)
  }

  /** Whether the key sounds after all of `s`, if it did `before`. */
  function Sounding(s: seq<Delivery>, key: int, before: bool): bool {
    if s == [] then before
    else if Starts(s[|s| - 1], key) then true
    else if Releases(s[|s| - 1], key) then false
    else Sounding(s[..|s| - 1], key, before)
  }

  /** The key is never started while it sounds. */
  predicate Clean(s: seq<Delivery>, key: int, before: bool) {
    s == [] ||
    (Clean(s[..|s| - 1], key, before) && (Starts(s[|s| - 1], key) ==> !Sounding(s[..|s| - 1], key, before)))
  }

  lemma {:induction false} CleanConcat(a: seq<Delivery>, b: seq<Delivery>, key: int, before: bool)
    ensures Sounding(a + b, key, before) == Sounding(b, key, Sounding(a, key, before))
    ensures Clean(a + b, key, before) <==> Clean(a, key, before) && Clean(b, key, Sounding(a, key, before))
  {
    if b == [] {
      assert a + b == a;
    } else {
      CleanConcat(a, b[..|b| - 1], key, before);
      assert (a + b)[..|a + b| - 1] == a + b[..|b| - 1];
    }
  }

  lemma {:induction false} CleanAppend(a: seq<Delivery>, d: Delivery, key: int, before: bool)
    ensures Sounding(a + [d], key, before) ==
            if Starts(d, key) then true else if Releases(d, key) then false else Sounding(a, key, before)
    ensures Clean(a + [d], key, before) <==>
            Clean(a, key, before) && (Starts(d, key) ==> !Sounding(a, key, before))
  {
    assert (a + [d])[..|a + [d]| - 1] == a;
  }

  // ----- the schedule under the voice ---------------------------------------------------

  /** How many note events of the voice lie before frame `p`. */
  function Passed(events: seq<Event>, v: Voice, p: int): nat {
    if events == [] then 0
    else
      Passed(events[..|events| - 1], v, p)
      + if Schedules.IsNoteOf(events[|events| - 1], v) && events[|events| - 1].frame < p then 1 else 0
  }

  predicate OnOff(s: seq<Event>) {
    forall i | 0 <= i < |s| :: s[i].kind == if i % 2 == 0 then Schedules.NOTE_ON else Schedules.NOTE_OFF
  }

  /** The instrument's channel plays notes, not an audio clip. */
  predicate NoAudio(events: seq<Event>, channel: nat) {
    forall i | 0 <= i < |events| :: events[i].kind == Schedules.AUDIO_START ==> events[i].instrument != channel
  }

  lemma {:induction false} PassedAll(events: seq<Event>, v: Voice, p: int)
    requires forall i | 0 <= i < |events| :: events[i].frame < p
    ensures Passed(events, v, p) == |Schedules.VoiceEvents(events, v)|
  {
    if events != [] {
      PassedAll(events[..|events| - 1], v, p);
    }
  }

  lemma {:induction false} PassedSame(events: seq<Event>, v: Voice, p: int, q: int)
    requires forall i | 0 <= i < |events| :: events[i].frame < p <==> events[i].frame < q
    ensures Passed(events, v, p) == Passed(events, v, q)
  {
    if events != [] {
      PassedSame(events[..|events| - 1], v, p, q);
    }
  }

  lemma {:induction false} VoiceFront(events: seq<Event>, v: Voice)
    requires events != []
    ensures var front, e := events[..|events| - 1], events[|events| - 1];
      Schedules.VoiceEvents(events, v) ==
      if Schedules.IsNoteOf(e, v) then Schedules.VoiceEvents(front, v) + [e] else Schedules.VoiceEvents(front, v)
    ensures OnOff(Schedules.VoiceEvents(events, v)) ==> OnOff(Schedules.VoiceEvents(events[..|events| - 1], v))
  {
    var front := events[..|events| - 1];
    var all, some := Schedules.VoiceEvents(events, v), Schedules.VoiceEvents(front, v);
    assert forall i | 0 <= i < |some| :: some[i] == all[i];
  }

  /** What a schedule promises one voice, event by event. */
  predicate Playable(events: seq<Event>, v: Voice) {
    events == [] ||
    var front, e := events[..|events| - 1], events[|events| - 1];
    && Playable(front, v)
    && (forall i | 0 <= i < |front| :: front[i].frame <= e.frame)
    && (e.kind == Schedules.AUDIO_START ==> e.instrument != v.instrument)
    && (Schedules.IsNoteOf(e, v) ==>
          e.kind == if Odd(|Schedules.VoiceEvents(front, v)|) then Schedules.NOTE_OFF else Schedules.NOTE_ON)
  }

  predicate Odd(n: nat) {
    n % 2 == 1
  }

  lemma {:induction false} AlternatingIsPlayable(events: seq<Event>, v: Voice)
    requires Schedules.SortedByFrame(events) && OnOff(Schedules.VoiceEvents(events, v))
    requires NoAudio(events, v.instrument)
    ensures Playable(events, v)
  {
    if events != [] {
      VoiceFront(events, v);
      AlternatingIsPlayable(events[..|events| - 1], v);
      var all, some := Schedules.VoiceEvents(events, v), Schedules.VoiceEvents(events[..|events| - 1], v);
      if Schedules.IsNoteOf(events[|events| - 1], v) {
        assert all[|some|] == events[|events| - 1];
      }
    }
  }

  /** One more event told: `odd` is whether an on of the voice stands open before it. */
  lemma {:induction false} ToldClean(s: seq<Delivery>, e: Event, v: Voice, frame: int, before: bool, odd: bool)
    requires Clean(s, v.key, before) && (Sounding(s, v.key, before) ==> odd)
    requires Told(e, v.instrument) && e.kind != Schedules.AUDIO_START
    requires Schedules.IsNoteOf(e, v) ==> e.kind == if odd then Schedules.NOTE_OFF else Schedules.NOTE_ON
    ensures var t := s + [Delivery(frame, Message(e, 0))];
      && Clean(t, v.key, before)
      && (Sounding(t, v.key, before) ==> if Schedules.IsNoteOf(e, v) then !odd else odd)
  {
    CleanAppend(s, Delivery(frame, Message(e, 0)), v.key, before);
  }

  /** Through a stretch of the schedule: a key that sounds is one whose last note event was an on. */
  lemma {:induction false} ScanClean(events: seq<Event>, v: Voice, from: int, to: int, out: int, before: bool)
    requires Playable(events, v) && from <= to
    requires before ==> Odd(Passed(events, v, from))
    ensures var s := Scan(events, v.instrument, from, to, out);
      Clean(s, v.key, before) && (Sounding(s, v.key, before) ==> Odd(Passed(events, v, to)))
  {
    if events != [] {
      var front, e := events[..|events| - 1], events[|events| - 1];
      if e.frame < from {
        ScanOutside(events, v.instrument, from, to, out);
        PassedSame(events, v, from, to);
      } else {
        ScanClean(front, v, from, to, out, before);
        ScanCleanNext(events, v, from, to, out, before);
      }
    }
  }

  lemma {:induction false} ScanCleanNext(events: seq<Event>, v: Voice, from: int, to: int, out: int, before: bool)
    requires Playable(events, v) && events != [] && from <= events[|events| - 1].frame
    requires var s := Scan(events[..|events| - 1], v.instrument, from, to, out);
      Clean(s, v.key, before) && (Sounding(s, v.key, before) ==> Odd(Passed(events[..|events| - 1], v, to)))
    ensures var s := Scan(events, v.instrument, from, to, out);
      Clean(s, v.key, before) && (Sounding(s, v.key, before) ==> Odd(Passed(events, v, to)))
  {
    var front, e := events[..|events| - 1], events[|events| - 1];
    if e.frame < to {
      PassedAll(front, v, to);
      if Told(e, v.instrument) {
        ToldClean(Scan(front, v.instrument, from, to, out), e, v, out + e.frame - from, before,
                  Odd(Passed(front, v, to)));
      }
    }
  }

  lemma {:induction false} LeadReleases(l: Listener, out: int, key: int, before: bool)
    requires l.commands == []
    ensures var s := AllAt(out, Lead(l));
      Clean(s, key, before) && Sounding(s, key, before) == (before && !l.reset && !l.clock.release)
  {
    var s := AllAt(out, Lead(l));
    var off := Delivery(out, AllNotesOff(0));
    assert s == if l.reset && l.clock.release then [off, off] else if l.reset || l.clock.release then [off] else [];
    CleanAppend([], off, key, before);
    assert [] + [off] == [off];
    CleanAppend([off], off, key, before);
    assert [off] + [off] == [off, off];
  }

  /** A key that sounds is either about to be released or in the middle of its note. */
  predicate Accounted(events: seq<Event>, v: Voice, clock: Clock, sounding: bool) {
    sounding ==> clock.release || Odd(Passed(events, v, clock.position))
  }

  /** One frame: releases first, then the events of the frame. */
  lemma {:induction false} FrameClean(events: seq<Event>, v: Voice, l: Listener, out: int, before: bool)
    requires Playable(events, v) && l.commands == [] && Accounted(events, v, l.clock, before)
    ensures var p := l.clock.position;
      var s := AllAt(out, Lead(l)) + Scan(events, v.instrument, p, p + 1, out);
      Clean(s, v.key, before) && (Sounding(s, v.key, before) ==> Odd(Passed(events, v, p + 1)))
  {
    var p := l.clock.position;
    var lead, scan := AllAt(out, Lead(l)), Scan(events, v.instrument, p, p + 1, out);
    LeadReleases(l, out, v.key, before);
    ScanClean(events, v, p, p + 1, out, Sounding(lead, v.key, before));
    CleanConcat(lead, scan, v.key, before);
  }

  /** The first frame played, and the rest. */
  lemma {:induction false} FirstFrame(events: seq<Event>, loop: Loop, channel: nat, l: Listener, out: int, n: nat, key: int,
                                      before: bool)
    requires 0 < n && !Stuck(loop, l.clock)
    ensures var here := l.(clock := Enter(loop, l.clock));
      var p := here.clock.position;
      var frame := AllAt(out, Lead(here)) + Scan(events, channel, p, p + 1, out);
      var rest := Play(events, loop, channel, Listener(Tick(loop, l.clock), false, []), out + 1, n - 1);
      var s := Play(events, loop, channel, l, out, n);
      && Sounding(s, key, before) == Sounding(rest, key, Sounding(frame, key, before))
      && (Clean(s, key, before) <==> Clean(frame, key, before) && Clean(rest, key, Sounding(frame, key, before)))
  {
    var here := l.(clock := Enter(loop, l.clock));
    var p := here.clock.position;
    CleanConcat(AllAt(out, Lead(here)) + Scan(events, channel, p, p + 1, out),
                Play(events, loop, channel, Listener(Tick(loop, l.clock), false, []), out + 1, n - 1), key, before);
  }

  /** Playing on keeps it so, frame by frame, pass by pass. */
  lemma {:induction false} PlayClean(events: seq<Event>, loop: Loop, v: Voice, l: Listener, out: int, n: nat, before: bool)
    requires Playable(events, v) && l.commands == [] && Accounted(events, v, l.clock, before)
    ensures var s := Play(events, loop, v.instrument, l, out, n);
      Clean(s, v.key, before) && Accounted(events, v, Onward(loop, l.clock, n), Sounding(s, v.key, before))
    decreases n
  {
    if n > 0 {
      if Stuck(loop, l.clock) {
        PlayClean(events, loop, v, l.(clock := Tick(loop, l.clock)), out + 1, n - 1, before);
      } else {
        var here := l.(clock := Enter(loop, l.clock));
        var p := here.clock.position;
        var frame := AllAt(out, Lead(here)) + Scan(events, v.instrument, p, p + 1, out);
        FrameClean(events, v, here, out, before);
        PlayClean(events, loop, v, Listener(Tick(loop, l.clock), false, []), out + 1, n - 1,
                  Sounding(frame, v.key, before));
        FirstFrame(events, loop, v.instrument, l, out, n, v.key, before);
      }
    }
  }

  // ----- flattened projects ------------------------------------------------------------------

  lemma {:induction false} InstrumentsPlayNotes(t: Tables, a: Addresses, m: TimeMap, x: Timeline,
                                                kept: seq<ResolvedNote>, end: Ticks, events: seq<Event>, length: int,
                                                i: InstrumentId)
    requires m.Valid() && Flattened(t, a, m, x, kept, end, events, length) && i in a.instruments
    ensures NoAudio(events, a.instruments[i])
  {
    SortedMembers(Schedules.AllEventsOf(m, kept) + OtherEvents(m, x));
    NoteEventsAreNotes(m, kept);
    ParamEventsAre(m, Sort(x.params, ParamBefore), Schedules.PARAM_VALUE);
    ParamEventsAre(m, Sort(x.effectParams, ParamBefore), Schedules.EFFECT_PARAM);
    NoAudioOnInstrument(t, a, x, end, i);
    AudioChannels(t, a, m, x.audio, a.instruments[i]);
    forall k | 0 <= k < |events| && events[k].kind == Schedules.AUDIO_START
      ensures events[k].instrument != a.instruments[i]
    {
      assert events[k] in events;
    }
  }

  lemma {:induction false} NoAudioOnInstrument(t: Tables, a: Addresses, x: Timeline, end: Ticks, i: InstrumentId)
    requires Addressed(t, a) && Gathered(t, a, t.clips.Keys, x, end) && i in a.instruments
    ensures forall u | u in x.audio :: u.channel != a.instruments[i]
  {
    AddressesApart(t, a);
  }

  lemma {:induction false} AudioChannels(t: Tables, a: Addresses, m: TimeMap, us: seq<ResolvedAudio>, channel: nat)
    requires m.Valid()
    requires forall u | u in us :: u.channel != channel
    ensures forall e | e in AudioEvents(m, us) :: e.instrument != channel
  {
    if us != [] {
      AudioChannels(t, a, m, us[..|us| - 1], channel);
      assert us[|us| - 1] in us;
    }
  }

  lemma OnOffOfAlternating(s: seq<Event>)
    requires Schedules.Alternates(s)
    ensures OnOff(s) && |s| % 2 == 0
  {
  }

  lemma {:induction false} FlattenedPlayable(t: Tables, a: Addresses, m: TimeMap, x: Timeline,
                                             kept: seq<ResolvedNote>, end: Ticks, events: seq<Event>, length: int,
                                             i: InstrumentId, v: Voice)
    requires m.Valid() && m.TicksLastAFrame() && Flattened(t, a, m, x, kept, end, events, length)
    requires i in a.instruments && v.instrument == a.instruments[i]
    ensures Playable(events, v) && |Schedules.VoiceEvents(events, v)| % 2 == 0
  {
    InstrumentsPlayNotes(t, a, m, x, kept, end, events, length, i);
    FlattenedAlternates(t, a, m, x, kept, end, events, length, v);
    OnOffOfAlternating(Schedules.VoiceEvents(events, v));
    SortedSchedule(Schedules.AllEventsOf(m, kept) + OtherEvents(m, x));
    AlternatingIsPlayable(events, v);
  }

  lemma {:induction false} SortedSchedule(events: seq<Event>)
    ensures Schedules.SortedByFrame(Sort(events, Schedules.EventBefore))
  {
    Schedules.EventOrder();
    SortSorts(events, Schedules.EventBefore);
    Schedules.FramesAscend(Sort(events, Schedules.EventBefore));
  }

  /** Past the last event of a voice whose offs match its ons, nothing sounds. */
  lemma {:induction false} SilentAtTheEnd(events: seq<Event>, v: Voice, loop: Loop, l: Listener, out: int, n: nat)
    requires Playable(events, v) && |Schedules.VoiceEvents(events, v)| % 2 == 0
    requires l.commands == [] && !loop.enabled && 0 < n
    requires forall e | e in events :: e.frame < l.clock.position + n
    ensures !Sounding(Play(events, loop, v.instrument, l, out, n), v.key, false)
  {
    PlayClean(events, loop, v, l, out, n, false);
    OnwardPlain(loop, l.clock, n);
    assert forall k | 0 <= k < |events| :: events[k] in events;
    PassedAll(events, v, l.clock.position + n);
  }

  /** End to end: the channel of an instrument, fed a flattened schedule from silence, never starts a key that
      already sounds, whatever the loop and however long it plays; and played past the schedule's length without
      a loop, it falls silent. */
  lemma {:induction false} FlattenedPlaysClean(t: Tables, a: Addresses, m: TimeMap, x: Timeline,
                                               kept: seq<ResolvedNote>, end: Ticks, events: seq<Event>, length: int,
                                               i: InstrumentId, key: int, loop: Loop, l: Listener, out: int, n: nat)
    requires m.Valid() && m.TicksLastAFrame() && Flattened(t, a, m, x, kept, end, events, length) && i in a.instruments
    requires l.commands == []
    ensures Clean(Play(events, loop, a.instruments[i], l, out, n), key, false)
    ensures !loop.enabled && 0 < n && length < l.clock.position + n ==>
      !Sounding(Play(events, loop, a.instruments[i], l, out, n), key, false)
  {
    var v := Voice(a.instruments[i], key);
    FlattenedPlayable(t, a, m, x, kept, end, events, length, i, v);
    PlayClean(events, loop, v, l, out, n, false);
    if !loop.enabled && 0 < n && length < l.clock.position + n {
      FlattenedFits(t, a, m, x, kept, end, events, length);
      SilentAtTheEnd(events, v, loop, l, out, n);
    }
  }

  lemma {:induction false} OnwardPlain(loop: Loop, clock: Clock, n: nat)
    requires !loop.enabled
    ensures Onward(loop, clock, n) == if n == 0 then clock else Clock(clock.position + n, false)
    decreases n
  {
    if n > 0 {
      OnwardPlain(loop, Tick(loop, clock), n - 1);
    }
  }
}
