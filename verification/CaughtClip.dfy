/**
 A note dragged over the end of its pattern and back, under a clip that has the length the pattern has in between: the
 clip is taken to follow the pattern, and a redo of the whole drag in one step does not take it along.
 */
module CaughtClips {
  import opened Options
  import opened Notes
  import opened Entities
  import opened Cascades
  import opened Commands
  import opened Drags

  function Beat(start: Ticks): Note {
    Note(start, 960, 60, 8192)
  }

  function OneNote(start: Ticks): Pattern {
    Pattern(1, PatternMeta("", "", 3840, 0, 0.0), map[1 := multiset{Beat(start)}], [])
  }

  function OneInstrument(): Instrument {
    Instrument(1, "", "", 0, "", 100, ChannelSettings(100, 0, 0, 127, 1.0), [], false, false, 1.0, 0.0)
  }

  function OfPattern(length: Ticks): Clip {
    Clip(1, 1, 0, length, false, PatternSource(1), ClipTransforms(0, false, 0))
  }

  /** A project with a pattern of one bar, one note in it, and one clip of the pattern. */
  function OneClip(base: Tables, start: Ticks, length: Ticks): Tables {
    base.(instruments := map[1 := OneInstrument()], patterns := map[1 := OneNote(start)],
          clips := map[1 := OfPattern(length)])
  }

  function Dragged(start: Ticks, end: Ticks, resized: map<ClipId, Ticks>): Command {
    NoteEdit(1, 1, [Beat(start)], [Beat(end)], true, resized)
  }

  lemma {:induction false} BagOfOne(n: Note)
    requires 0 <= NoteEnd(n)
    ensures BagEnd(multiset{n}) == NoteEnd(n)
  {
    var end := BagEnd(multiset{n});
    assert n in multiset{n};
  }

  lemma {:induction false} EndOfOne(i: InstrumentId, n: Note)
    requires 0 <= NoteEnd(n)
    ensures SequencesEnd(map[i := multiset{n}]) == NoteEnd(n)
  {
    var m := map[i := multiset{n}];
    BagOfOne(n);
    assert i in m && m[i] == multiset{n};
    SequencesEndUnique(m, NoteEnd(n));
  }

  lemma TwoBars(content: Ticks)
    requires 3840 < content <= 7680
    ensures BarsFor(content) == 7680
  {
  }

  /** One bar as long as the note ends in it, and two after. */
  lemma {:induction false} OneNoteLength(start: Ticks)
    requires 0 <= start <= 6720
    ensures PatternEffectiveLength(OneNote(start)) == if start <= 2880 then 3840 else 7680
  {
    var p := OneNote(start);
    assert SequencesEnd(p.sequences) == start + 960 by { EndOfOne(1, Beat(start)); }
    if 2880 < start {
      TwoBars(start + 960);
    }
    assert EffectiveLength(3840, start + 960) == if start <= 2880 then 3840 else 7680;
  }

  lemma {:induction false} OneForOne(n: Note, m: Note)
    requires IsValidNote(m)
    ensures Edited(multiset{n}, [n], [m]) == Some(multiset{m})
  {
    assert multiset([n]) == multiset{n} && multiset([m]) == multiset{m};
    assert multiset{n} - multiset{n} + multiset{m} == multiset{m};
  }

  lemma {:induction false} OtherNote(start: Ticks, end: Ticks)
    ensures WithSequence(OneNote(start), 1, multiset{Beat(end)}) == OneNote(end)
  {
    assert Beat(end) in multiset{Beat(end)};
    assert OneNote(start).sequences[1 := multiset{Beat(end)}] == OneNote(end).sequences;
  }

  lemma {:induction false} SequenceEdited(t: Tables, take: seq<Note>, give: seq<Note>, notes: NoteBag)
    requires 1 in t.patterns && 1 in t.instruments && Edited(NotesOf(t.patterns[1], 1), take, give) == Some(notes)
    ensures EditSequence(t, 1, 1, take, give) ==
            Some(t.(patterns := t.patterns[1 := WithSequence(t.patterns[1], 1, notes)]))
  {
  }

  lemma {:induction false} NoteMoves(base: Tables, start: Ticks, end: Ticks, length: Ticks)
    requires 0 <= start <= 6720 && 0 <= end <= 6720
    ensures EditSequence(OneClip(base, start, length), 1, 1, [Beat(start)], [Beat(end)]) ==
            Some(OneClip(base, end, length))
  {
    var t := OneClip(base, start, length);
    OneForOne(Beat(start), Beat(end));
    SequenceEdited(t, [Beat(start)], [Beat(end)], multiset{Beat(end)});
    OtherNote(start, end);
    assert t.patterns[1 := OneNote(end)] == map[1 := OneNote(end)];
  }

  lemma {:induction false} OneFollower(r: Tables, length: Ticks, before: Ticks)
    requires r.clips == map[1 := OfPattern(length)]
    ensures Followers(r, 1, before) == if length == before then map[1 := length] else map[]
  {
    var f := Followers(r, 1, before);
    assert r.clips.Keys == {1} && UsesPattern(r.clips[1], 1);
    assert forall c | c in f :: c == 1;
    assert length == before ==> 1 in f && f[1] == length;
    assert length != before ==> 1 !in f;
  }

  lemma {:induction false} OneStretched(clips: map<ClipId, Clip>, length: Ticks, moved: set<ClipId>, after: Ticks)
    requires clips == map[1 := OfPattern(length)]
    ensures Stretched(clips, moved, after) == map[1 := OfPattern(if 1 in moved then after else length)]
  {
    var s := Stretched(clips, moved, after);
    assert s.Keys == {1};
    assert s[1] == OfPattern(if 1 in moved then after else length);
  }

  /** Where its clip had the length the pattern had, it follows. */
  lemma {:induction false} ClipFollows(r: Tables, before: Ticks, after: Ticks)
    requires 1 in r.patterns && PatternEffectiveLength(r.patterns[1]) == after && r.clips == map[1 := OfPattern(before)]
    requires before != after && 0 < after
    ensures Moved(r, 1, before) == map[1 := before]
    ensures Follow(r, 1, before) == r.(clips := map[1 := OfPattern(after)])
  {
    OneFollower(r, before, before);
    var m: map<ClipId, Ticks> := map[1 := before];
    assert MovedTo(r, 1, before, after) == m && 1 in m.Keys;
    OneStretched(r.clips, before, m.Keys, after);
  }

  /** Otherwise it stays. */
  lemma {:induction false} ClipStays(r: Tables, length: Ticks, before: Ticks)
    requires 1 in r.patterns && r.clips == map[1 := OfPattern(length)]
    requires before == PatternEffectiveLength(r.patterns[1]) || length != before
    ensures Moved(r, 1, before) == map[] && Follow(r, 1, before) == r
  {
    var after := PatternEffectiveLength(r.patterns[1]);
    OneFollower(r, length, before);
    var m: map<ClipId, Ticks> := map[];
    assert MovedTo(r, 1, before, after) == m && 1 !in m.Keys;
    OneStretched(r.clips, length, m.Keys, after);
  }

  lemma {:induction false} EditApplies(c: Command, t: Tables, r: Tables, before: Ticks)
    requires c.NoteEdit? && c.patternId in t.patterns && before == PatternEffectiveLength(t.patterns[c.patternId])
    requires EditSequence(t, c.patternId, c.instrumentId, c.removed, c.added) == Some(r)
    ensures Apply(c, t) == Outcome(true, c.(resized := Moved(r, c.patternId, before)), Follow(r, c.patternId, before))
  {
  }

  lemma {:induction false} EditReverts(c: Command, t: Tables, r: Tables)
    requires c.NoteEdit? && EditSequence(t, c.patternId, c.instrumentId, c.added, c.removed) == Some(r)
    ensures Revert(c, t) == Outcome(true, c.(resized := map[]), r.(clips := Resized(r.clips, c.resized)))
  {
  }

  lemma {:induction false} Out(base: Tables)
    ensures Apply(Dragged(0, 3000, map[]), OneClip(base, 0, 7680)) ==
            Outcome(true, Dragged(0, 3000, map[]), OneClip(base, 3000, 7680))
  {
    OneNoteLength(0);
    NoteMoves(base, 0, 3000, 7680);
    EditApplies(Dragged(0, 3000, map[]), OneClip(base, 0, 7680), OneClip(base, 3000, 7680), 3840);
    ClipStays(OneClip(base, 3000, 7680), 7680, 3840);
  }

  lemma {:induction false} AndBack(base: Tables)
    ensures Apply(Dragged(3000, 960, map[]), OneClip(base, 3000, 7680)) ==
            Outcome(true, Dragged(3000, 960, map[1 := 7680]), OneClip(base, 960, 3840))
  {
    OneNoteLength(3000);
    OneNoteLength(960);
    NoteMoves(base, 3000, 960, 7680);
    EditApplies(Dragged(3000, 960, map[]), OneClip(base, 3000, 7680), OneClip(base, 960, 7680), 7680);
    ClipFollows(OneClip(base, 960, 7680), 7680, 3840);
  }

  lemma {:induction false} AtOnce(base: Tables)
    ensures Apply(Dragged(0, 960, map[]), OneClip(base, 0, 7680)) ==
            Outcome(true, Dragged(0, 960, map[]), OneClip(base, 960, 7680))
  {
    OneNoteLength(0);
    NoteMoves(base, 0, 960, 7680);
    EditApplies(Dragged(0, 960, map[]), OneClip(base, 0, 7680), OneClip(base, 960, 7680), 3840);
    ClipStays(OneClip(base, 960, 7680), 7680, 3840);
  }

  lemma {:induction false} OneResized(clips: map<ClipId, Clip>, length: Ticks, lengths: map<ClipId, Ticks>, back: Ticks)
    requires clips == map[1 := OfPattern(length)] && lengths == map[1 := back]
    ensures Resized(clips, lengths) == map[1 := OfPattern(back)]
  {
    var r := Resized(clips, lengths);
    assert r.Keys == {1} && r[1] == OfPattern(back);
  }

  lemma {:induction false} Undone(base: Tables)
    ensures Revert(Dragged(0, 960, map[1 := 7680]), OneClip(base, 960, 3840)) ==
            Outcome(true, Dragged(0, 960, map[]), OneClip(base, 0, 7680))
  {
    NoteMoves(base, 960, 0, 3840);
    EditReverts(Dragged(0, 960, map[1 := 7680]), OneClip(base, 960, 3840), OneClip(base, 0, 3840));
    OneResized(OneClip(base, 0, 3840).clips, 3840, map[1 := 7680], 7680);
  }

  lemma {:induction false} OneEdit(t: Tables, c: Command, o: Outcome)
    requires o == Apply(c, t) && o.ok
    ensures NoteDrag(t, [c]) == Some(Drag(o.command, o.tables))
  {
  }

  lemma {:induction false} OneMoreEdit(t: Tables, c: Command, next: Command)
    ensures NoteDrag(t, [c, next]) == NextEdit(NoteDrag(t, [c]), next)
  {
    assert [c, next][..1] == [c];
  }

  lemma {:induction false} TwoEdits(t: Tables, c: Command, next: Command, o: Outcome, p: Outcome)
    requires o == Apply(c, t) && o.ok && p == Apply(next, o.tables) && p.ok && Coalesce(o.command, p.command).Some?
    ensures NoteDrag(t, [c, next]) == Some(Drag(Coalesce(o.command, p.command).value, p.tables))
  {
    OneEdit(t, c, o);
    OneMoreEdit(t, c, next);
  }

  lemma {:induction false} DraggedOverAndBack(base: Tables)
    ensures NoteDrag(OneClip(base, 0, 7680), [Dragged(0, 3000, map[]), Dragged(3000, 960, map[])]) ==
            Some(Drag(Dragged(0, 960, map[1 := 7680]), OneClip(base, 960, 3840)))
  {
    Out(base);
    AndBack(base);
    Folded();
    TwoEdits(OneClip(base, 0, 7680), Dragged(0, 3000, map[]), Dragged(3000, 960, map[]),
      Outcome(true, Dragged(0, 3000, map[]), OneClip(base, 3000, 7680)),
      Outcome(true, Dragged(3000, 960, map[1 := 7680]), OneClip(base, 960, 3840)));
  }

  lemma Folded()
    ensures Coalesce(Dragged(0, 3000, map[]), Dragged(3000, 960, map[1 := 7680])) ==
            Some(Dragged(0, 960, map[1 := 7680]))
  {
    assert map[1 := 7680] + map[] == map[1 := 7680];
  }

  /** From the first beat over the end of the bar and back to the second, over a clip of two bars. While the pattern has
      two bars the clip is taken to follow it, and shrinks with it to one. Undo makes it two bars again; and it stays two
      when the drag is redone. */
  lemma {:induction false} ClipCaughtInBetween(base: Tables)
    ensures var t, edits := OneClip(base, 0, 7680), [Dragged(0, 3000, map[]), Dragged(3000, 960, map[])];
      NoteDrag(t, edits).Some? &&
      var d := NoteDrag(t, edits).value;
      var u := Revert(d.entry, d.tables);
      && u.ok && u.tables == t && d.tables == OneClip(base, 960, 3840)
      && Apply(u.command, t).tables == OneClip(base, 960, 7680)
  {
    DraggedOverAndBack(base);
    Undone(base);
    AtOnce(base);
  }
}
