/**
 Note edits and transport changes reach beyond what they edit: a note edit drags along the clips that
 are exactly as long as the pattern, a tempo change rescales the audio clips. Undo restores both
 exactly. Coalescing keeps undo exact for notes; redo of a coalesced run needs a condition.
 */
module NoteLaws {
  import opened Options
  import opened Notes
  import opened Entities
  import opened Cascades
  import opened Integrity
  import opened Deletion
  import opened Commands
  import opened Inverses

  // ----- one note edit -----------------------------------------------------

  lemma {:induction false} ValidInBag(notes: seq<Note>, bag: NoteBag)
    requires multiset(notes) <= bag && BagValid(bag)
    ensures AllValid(notes)
  {
    forall i | 0 <= i < |notes| ensures IsValidNote(notes[i]) {
      assert notes[i] in multiset(notes);
    }
  }

  /** Taking back what was given and giving back what was taken restores the notes. */
  lemma {:induction false} EditedBack(current: NoteBag, take: seq<Note>, give: seq<Note>)
    requires BagValid(current) && Edited(current, take, give).Some?
    ensures Edited(Edited(current, take, give).value, give, take) == Some(current)
    ensures BagValid(Edited(current, take, give).value)
  {
    var e := Edited(current, take, give).value;
    ValidInBag(take, current);
    assert e - multiset(give) + multiset(take) == current;
    forall n | n in e ensures IsValidNote(n) {
      if n !in current {
        assert n in multiset(give);
        var i :| 0 <= i < |give| && give[i] == n;
      }
    }
  }

  lemma {:induction false} NotesOfSound(t: Tables, p: PatternId, i: InstrumentId)
    requires Sound(t) && p in t.patterns
    ensures BagValid(NotesOf(t.patterns[p], i))
    ensures WithSequence(t.patterns[p], i, NotesOf(t.patterns[p], i)) == t.patterns[p]
  {
    assert PatternConsistent(t, t.patterns[p]);
    if i in t.patterns[p].sequences {
      assert SequenceConsistent(t, i, t.patterns[p].sequences[i]);
      assert t.patterns[p].sequences[i := t.patterns[p].sequences[i]] == t.patterns[p].sequences;
    } else {
      assert t.patterns[p].sequences - {i} == t.patterns[p].sequences;
    }
  }

  lemma {:induction false} SequenceOverwrites(p: Pattern, i: InstrumentId, a: NoteBag, b: NoteBag)
    ensures WithSequence(WithSequence(p, i, a), i, b) == WithSequence(p, i, b)
    ensures NotesOf(WithSequence(p, i, a), i) == a
  {
    assert WithSequence(WithSequence(p, i, a), i, b).sequences == WithSequence(p, i, b).sequences;
  }

  lemma {:induction false} EditSequenceBack(t: Tables, p: PatternId, i: InstrumentId, take: seq<Note>, give: seq<Note>)
    requires Sound(t) && EditSequence(t, p, i, take, give).Some?
    ensures EditSequence(EditSequence(t, p, i, take, give).value, p, i, give, take) == Some(t)
  {
    var r := EditSequence(t, p, i, take, give).value;
    var current := NotesOf(t.patterns[p], i);
    NotesOfSound(t, p, i);
    EditedBack(current, take, give);
    SequenceOverwrites(t.patterns[p], i, Edited(current, take, give).value, current);
    assert r.patterns[p := t.patterns[p]] == t.patterns;
  }

  lemma {:induction false} StretchedBack(clips: map<ClipId, Clip>, moved: map<ClipId, Ticks>, length: Ticks)
    requires moved.Keys <= clips.Keys && forall c | c in moved :: moved[c] == clips[c].length
    ensures Resized(Stretched(clips, moved.Keys, length), moved) == clips
  {
  }

  /** Applying a note edit settles it: the notes, and every clip length it dragged along. */
  lemma {:induction false} NoteEditSettled(t: Tables, c: Command)
    requires Sound(t) && c.NoteEdit? && Apply(c, t).ok
    ensures Settled(Apply(c, t).command, t, Apply(c, t).tables)
  {
    var p, i := c.patternId, c.instrumentId;
    var before := PatternEffectiveLength(t.patterns[p]);
    var r := EditSequence(t, p, i, c.removed, c.added).value;
    var moved := Moved(r, p, before);
    EditSequenceBack(t, p, i, c.removed, c.added);
    var a := Follow(r, p, before);
    assert a.patterns == r.patterns;
    StretchedBack(t.clips, moved, PatternEffectiveLength(r.patterns[p]));
    var u := Revert(Apply(c, t).command, a);
    assert EditSequence(a, p, i, c.added, c.removed) == Some(t.(clips := a.clips));
    assert u.tables == t;
  }

  lemma {:induction false} NoteEditSound(t: Tables, c: Command)
    requires Sound(t) && c.NoteEdit? && Apply(c, t).ok
    ensures Sound(Apply(c, t).tables)
  {
    var r := EditSequence(t, c.patternId, c.instrumentId, c.removed, c.added).value;
    SequenceEditSound(t, c.patternId, c.instrumentId, c.removed, c.added);
    FollowSound(r, c.patternId, PatternEffectiveLength(t.patterns[c.patternId]));
  }

  lemma {:induction false} FollowSound(t: Tables, p: PatternId, before: Ticks)
    requires Sound(t)
    ensures Sound(Follow(t, p, before))
  {
    if p in t.patterns {
      LengthsSound(t, Follow(t, p, before));
    }
  }

  lemma {:induction false} SequenceEditSound(t: Tables, p: PatternId, i: InstrumentId, take: seq<Note>, give: seq<Note>)
    requires Sound(t) && EditSequence(t, p, i, take, give).Some?
    ensures Sound(EditSequence(t, p, i, take, give).value)
  {
    var r := EditSequence(t, p, i, take, give).value;
    assert PatternsConsistent(r) by { SequenceEditPatterns(t, p, i, take, give); }
    assert LanesConsistent(r) by { LanesStay(t, r); }
    assert TracksConsistent(r);
    assert InstrumentsConsistent(r);
    assert ClipsConsistent(r) by { ResizedClipsConsistent(t, r); }
  }

  lemma {:induction false} SequenceEditPatterns(t: Tables, p: PatternId, i: InstrumentId, take: seq<Note>, give: seq<Note>)
    requires Sound(t) && EditSequence(t, p, i, take, give).Some?
    ensures PatternsConsistent(EditSequence(t, p, i, take, give).value)
  {
    var r := EditSequence(t, p, i, take, give).value;
    NotesOfSound(t, p, i);
    EditedBack(NotesOf(t.patterns[p], i), take, give);
    forall q | q in r.patterns ensures PatternConsistent(r, r.patterns[q]) {
      assert PatternConsistent(t, t.patterns[q]);
      forall j | j in r.patterns[q].sequences ensures SequenceConsistent(r, j, r.patterns[q].sequences[j]) {
        if q != p || j != i {
          assert SequenceConsistent(t, j, t.patterns[q].sequences[j]);
        }
      }
    }
  }

  /** Clips stay consistent when only the lengths of some change, none becoming shorter than a tick. */
  lemma {:induction false} ResizedClipsConsistent(t: Tables, a: Tables)
    requires ClipsConsistent(t)
    requires a.lanes.Keys == t.lanes.Keys && a.patterns.Keys == t.patterns.Keys
    requires a.instruments.Keys == t.instruments.Keys && a.tracks == t.tracks
    requires a.clips.Keys == t.clips.Keys
    requires forall c | c in a.clips ::
      a.clips[c] == t.clips[c] ||
      (0 < a.clips[c].length && a.clips[c] == t.clips[c].(length := a.clips[c].length))
    ensures ClipsConsistent(a)
  {
    forall c | c in a.clips ensures ClipConsistent(a, a.clips[c]) {
      assert ClipConsistent(t, t.clips[c]);
    }
  }

  /** A change of clip lengths and of the transport keeps the project sound. */
  lemma {:induction false} LengthsSound(t: Tables, a: Tables)
    requires Sound(t)
    requires a == t.(clips := a.clips, transport := a.transport)
    requires a.clips.Keys == t.clips.Keys
    requires forall c | c in a.clips ::
      a.clips[c] == t.clips[c] ||
      (0 < a.clips[c].length && a.clips[c] == t.clips[c].(length := a.clips[c].length))
    ensures Sound(a)
  {
    assert PatternsConsistent(a) by { PatternsStay(t, a); }
    assert LanesConsistent(a) by { LanesStay(t, a); }
    assert TracksConsistent(a);
    assert InstrumentsConsistent(a);
    assert ClipsConsistent(a) by { ResizedClipsConsistent(t, a); }
  }

  // ----- one transport change ----------------------------------------------

  lemma {:induction false} TransportSettled(t: Tables, c: Command)
    requires c.SetTransport? && c.from == t.transport
    ensures Settled(Apply(c, t).command, t, Apply(c, t).tables)
  {
    var lengths := OriginalLengths(t.clips, c.from.tempo, c.to.tempo);
    var a := Apply(c, t).tables;
    assert Resized(a.clips, lengths) == t.clips;
  }

  lemma {:induction false} TransportSound(t: Tables, c: Command)
    requires Sound(t) && c.SetTransport?
    ensures Sound(Apply(c, t).tables)
  {
    LengthsSound(t, Apply(c, t).tables);
  }
}
