/**
 A gesture arrives as a stream of small commands, however many, that the history folds into one. The folded command
 should still lead back to where the gesture began, and forward to where it ended. For edits and insert
 parameters it always does. For notes the way back is always exact; the way forward is exact just when every clip
 is as long as following once would make it. For the transport the way back is exact just when the lengths were
 recorded or nothing moved, and the way forward just when rescaling once gives the lengths that rescaling step by
 step gave.
 */
module Coalescing {
  import opened Options
  import opened Notes
  import opened Entities
  import opened Cascades
  import opened Deletion
  import opened Commands
  import opened Inverses
  import opened NoteLaws
  import opened CommandLaws

  lemma {:induction false} ForthThenBack(m: Tables, id: nat, v: Change, w: Change)
    requires v.Join(w).Some? && Write(m, id, v.Before()).Some? && Write(m, id, w.After()).Some?
    ensures Write(Write(m, id, w.After()).value, id, v.Before()) == Write(m, id, v.Before())
  {
    var r := Write(m, id, w.After()).value;
    match v.Before()
    case InstrumentPart(i) => assert r.instruments[id := i] == m.instruments[id := i];
    case PatternPart(x) =>
      assert r.patterns[id := r.patterns[id].(meta := x)] == m.patterns[id := m.patterns[id].(meta := x)];
    case LanePart(l) => assert r.lanes[id := l] == m.lanes[id := l];
    case ClipPart(x) => assert r.clips[id := x] == m.clips[id := x];
    case TrackPart(k) => assert r.tracks[id := k] == m.tracks[id := k];
  }

  lemma {:induction false} JoinMeaning(v: Change, w: Change)
    requires v.Join(w).Some?
    ensures v.Join(w).value.Before() == v.Before() && v.Join(w).value.After() == w.After()
  {
  }

  lemma {:induction false} EditLabelled(c: Command, b: Tables, a: Tables)
    requires c.Edit? && Labels(c, b, a)
    ensures Write(a, c.id, c.change.Before()) == Some(b) && Write(b, c.id, c.change.After()) == Some(a)
  {
  }

  lemma {:induction false} EditFromWrites(c: Command, b: Tables, a: Tables)
    requires c.Edit?
    requires Write(a, c.id, c.change.Before()) == Some(b) && Write(b, c.id, c.change.After()) == Some(a)
    ensures Settled(c, b, a)
  {
  }

  /** Two edits folded into one: the first one's way back, the second one's way forward. */
  lemma {:induction false} EditCoalesces(c: Command, next: Command, b: Tables, m: Tables, a: Tables)
    requires c.Edit? && next.Edit? && Coalesce(c, next).Some?
    requires Labels(c, b, m) && Labels(next, m, a)
    ensures Settled(Coalesce(c, next).value, b, a)
  {
    EditLabelled(c, b, m);
    EditLabelled(next, m, a);
    ForthThenBack(m, c.id, c.change, next.change);
    BackThenForth(m, c.id, c.change, next.change);
    JoinMeaning(c.change, next.change);
    EditFromWrites(Coalesce(c, next).value, b, a);
  }

  lemma {:induction false} BackThenForth(m: Tables, id: nat, v: Change, w: Change)
    requires v.Join(w).Some? && Write(m, id, v.Before()).Some? && Write(m, id, w.After()).Some?
    ensures Write(Write(m, id, v.Before()).value, id, w.After()) == Write(m, id, w.After())
  {
    var r := Write(m, id, v.Before()).value;
    match w.After()
    case InstrumentPart(i) => assert r.instruments[id := i] == m.instruments[id := i];
    case PatternPart(x) =>
      assert r.patterns[id := r.patterns[id].(meta := x)] == m.patterns[id := m.patterns[id].(meta := x)];
    case LanePart(l) => assert r.lanes[id := l] == m.lanes[id := l];
    case ClipPart(x) => assert r.clips[id := x] == m.clips[id := x];
    case TrackPart(k) => assert r.tracks[id := k] == m.tracks[id := k];
  }

  lemma {:induction false} ParamsOverwrite(t: Tables, k: TrackId, e: EffectId, p: ParamId, v: Option<real>, w: Option<real>)
    requires k in t.tracks
    ensures WriteParam(WriteParam(t, k, e, p, v).value, k, e, p, w) == WriteParam(t, k, e, p, w)
  {
    ParamOverwrites(t.tracks[k], e, p, v, w);
    var r := WriteParam(t, k, e, p, v).value;
    assert WriteParam(r, k, e, p, w).value.tracks == WriteParam(t, k, e, p, w).value.tracks;
  }

  lemma {:induction false} EffectParamCoalesces(c: Command, next: Command, b: Tables, m: Tables, a: Tables)
    requires c.EffectParam? && next.EffectParam? && Coalesce(c, next).Some?
    requires Labels(c, b, m) && Labels(next, m, a)
    ensures Settled(Coalesce(c, next).value, b, a)
  {
    ParamsOverwrite(m, c.track_, c.effect, c.parameter, Some(next.now), c.was);
    ParamsOverwrite(m, c.track_, c.effect, c.parameter, c.was, Some(next.now));
    assert WriteParam(m, c.track_, c.effect, c.parameter, c.was) == Some(b);
    assert WriteParam(m, c.track_, c.effect, c.parameter, Some(next.now)) == Some(a);
  }

  // ----- notes -------------------------------------------------------------

  /** What a labelled note edit says about the states on its two sides. */
  lemma {:induction false} NoteLabelled(c: Command, b: Tables, a: Tables)
    requires c.NoteEdit? && Labels(c, b, a)
    ensures var p, i := c.patternId, c.instrumentId;
      && p in b.patterns && p in a.patterns
      && EditSequence(a, p, i, c.added, c.removed) == Some(b.(clips := a.clips))
      && EditSequence(b, p, i, c.removed, c.added) == Some(a.(clips := b.clips))
      && b.clips == Resized(a.clips, c.resized)
      && a == Follow(a.(clips := b.clips), p, PatternEffectiveLength(b.patterns[p]))
  {
    var p, i := c.patternId, c.instrumentId;
    var r := EditSequence(a, p, i, c.added, c.removed).value;
    assert r.clips == a.clips && r.(clips := Resized(r.clips, c.resized)) == b;
    assert r == b.(clips := a.clips);
    var f := EditSequence(b, p, i, c.removed, c.added).value;
    assert f.clips == b.clips && a == Follow(f, p, PatternEffectiveLength(b.patterns[p]));
    assert f == a.(clips := b.clips);
  }

  /** Editing twice is one edit from the first state to the last. */
  lemma {:induction false} EditedTwice(m: NoteBag, x: seq<Note>, y: seq<Note>, z: seq<Note>)
    requires Edited(m, y, x).Some? && Edited(m, y, z).Some?
    ensures Edited(Edited(m, y, z).value, z, x) == Edited(m, y, x)
  {
    var e := Edited(m, y, z).value;
    assert e - multiset(z) + multiset(x) == m - multiset(y) + multiset(x);
  }

  lemma {:induction false} SequencesEditedTwice(t: Tables, p: PatternId, i: InstrumentId,
                                                x: seq<Note>, y: seq<Note>, z: seq<Note>)
    requires EditSequence(t, p, i, y, x).Some? && EditSequence(t, p, i, y, z).Some?
    ensures EditSequence(EditSequence(t, p, i, y, z).value, p, i, z, x) == EditSequence(t, p, i, y, x)
  {
    var current := NotesOf(t.patterns[p], i);
    EditedTwice(current, x, y, z);
    var r := EditSequence(t, p, i, y, z).value;
    SequenceOverwrites(t.patterns[p], i, Edited(current, y, z).value, Edited(current, y, x).value);
    assert r.patterns[p := WithSequence(r.patterns[p], i, Edited(current, y, x).value)]
        == t.patterns[p := WithSequence(t.patterns[p], i, Edited(current, y, x).value)];
  }

  lemma {:induction false} EditSequenceFrame(t: Tables, clips: map<ClipId, Clip>, p: PatternId, i: InstrumentId,
                                             x: seq<Note>, y: seq<Note>)
    ensures EditSequence(t.(clips := clips), p, i, x, y) ==
      match EditSequence(t, p, i, x, y) case None => None case Some(r) => Some(r.(clips := clips))
  {
  }

  /** The clips of pattern `p` that are `from` ticks long become `to` ticks long. */
  function Step(clips: map<ClipId, Clip>, p: PatternId, from: Ticks, to: Ticks): map<ClipId, Clip> {
    map c | c in clips ::
      if from != to && UsesPattern(clips[c], p) && clips[c].length == from
      then clips[c].(length := to) else clips[c]
  }

  lemma {:induction false} FollowIsStep(t: Tables, p: PatternId, before: Ticks)
    requires p in t.patterns
    ensures Follow(t, p, before) == t.(clips := Step(t.clips, p, before, PatternEffectiveLength(t.patterns[p])))
  {
    FollowToIsStep(t, p, before, PatternEffectiveLength(t.patterns[p]));
  }

  lemma {:induction false} FollowToIsStep(t: Tables, p: PatternId, before: Ticks, after: Ticks)
    requires 0 < after
    ensures FollowTo(t, p, before, after) == t.(clips := Step(t.clips, p, before, after))
  {
    if before == after {
      NoStep(t.clips, p, before);
    } else {
      FollowersStep(t, p, before, after);
    }
  }

  lemma {:induction false} NoStep(clips: map<ClipId, Clip>, p: PatternId, length: Ticks)
    ensures Stretched(clips, {}, length) == clips == Step(clips, p, length, length)
  {
  }

  lemma {:induction false} FollowersStep(t: Tables, p: PatternId, before: Ticks, after: Ticks)
    requires before != after
    ensures Stretched(t.clips, Followers(t, p, before).Keys, after) == Step(t.clips, p, before, after)
  {
  }

  /** No clip of the pattern already has the length the pattern had in between. */
  predicate RedoSafe(clips: map<ClipId, Clip>, p: PatternId, first: Ticks, between: Ticks, last: Ticks) {
    || first == between
    || between == last
    || forall c | c in clips :: !(UsesPattern(clips[c], p) && clips[c].length == between)
  }

  lemma {:induction false} StepsCompose(clips: map<ClipId, Clip>, p: PatternId, x: Ticks, y: Ticks, z: Ticks)
    ensures Step(Step(clips, p, x, y), p, y, z) == Step(clips, p, x, z) <==> RedoSafe(clips, p, x, y, z)
  {
    var twice, once := Step(Step(clips, p, x, y), p, y, z), Step(clips, p, x, z);
    if !RedoSafe(clips, p, x, y, z) {
      var c :| c in clips && UsesPattern(clips[c], p) && clips[c].length == y;
      assert twice[c].length == z && once[c].length == y;
    }
  }

  /** The pattern's effective lengths before, between and after two note edits. */
  ghost predicate NoteRedoSafe(p: PatternId, b: Tables, m: Tables, a: Tables) {
    p in b.patterns && p in m.patterns && p in a.patterns &&
    RedoSafe(b.clips, p, PatternEffectiveLength(b.patterns[p]), PatternEffectiveLength(m.patterns[p]),
             PatternEffectiveLength(a.patterns[p]))
  }

  /** What a note edit that undoes exactly says about the states on its two sides. */
  lemma {:induction false} NoteUndone(c: Command, b: Tables, a: Tables)
    requires c.NoteEdit? && Undoes(c, b, a)
    ensures var p, i := c.patternId, c.instrumentId;
      && p in b.patterns && p in a.patterns
      && EditSequence(a, p, i, c.added, c.removed) == Some(b.(clips := a.clips))
      && b.clips == Resized(a.clips, c.resized)
  {
    var r := EditSequence(a, c.patternId, c.instrumentId, c.added, c.removed).value;
    assert r.clips == a.clips && r.(clips := Resized(r.clips, c.resized)) == b;
    assert r == b.(clips := a.clips);
  }

  /** Folded note edits: the notes lead straight back to where the run began. */
  lemma {:induction false} FoldedBack(c: Command, next: Command, b: Tables, m: Tables, a: Tables)
    requires c.NoteEdit? && next.NoteEdit? && Coalesce(c, next).Some?
    requires Undoes(c, b, m) && Labels(next, m, a)
    ensures var p, i := c.patternId, c.instrumentId;
      EditSequence(a, p, i, next.added, c.removed) == Some(b.(clips := a.clips))
  {
    var p, i := c.patternId, c.instrumentId;
    NoteUndone(c, b, m);
    NoteLabelled(next, m, a);
    SequencesEditedTwice(m, p, i, c.removed, c.added, next.added);
    EditSequenceFrame(a.(clips := m.clips), a.clips, p, i, next.added, c.removed);
  }

  /** Lengths recorded first win over lengths recorded later. */
  lemma {:induction false} ResizedTwice(clips: map<ClipId, Clip>, later: map<ClipId, Ticks>, first: map<ClipId, Ticks>)
    ensures Resized(Resized(clips, later), first) == Resized(clips, later + first)
  {
  }

  lemma {:induction false} FoldedLengths(c: Command, next: Command, b: Tables, m: Tables, a: Tables)
    requires c.NoteEdit? && next.NoteEdit? && Undoes(c, b, m) && Labels(next, m, a)
    ensures b.clips == Resized(a.clips, next.resized + c.resized)
  {
    NoteUndone(c, b, m);
    NoteLabelled(next, m, a);
    ResizedTwice(a.clips, next.resized, c.resized);
  }

  lemma {:induction false} RevertNote(d: Command, b: Tables, a: Tables)
    requires d.NoteEdit?
    requires EditSequence(a, d.patternId, d.instrumentId, d.added, d.removed) == Some(b.(clips := a.clips))
    requires b.clips == Resized(a.clips, d.resized)
    ensures Revert(d, a) == Outcome(true, d.(resized := map[]), b)
  {
  }

  /** One more edit folded into a run of any length that undoes exactly: it still does, always. */
  lemma {:induction false} NoteUndoExact(c: Command, next: Command, b: Tables, m: Tables, a: Tables)
    requires c.NoteEdit? && next.NoteEdit? && Coalesce(c, next).Some?
    requires Undoes(c, b, m) && Labels(next, m, a)
    ensures var d := Coalesce(c, next).value;
            Revert(d, a) == Outcome(true, d.(resized := map[]), b)
  {
    FoldedBack(c, next, b, m, a);
    FoldedLengths(c, next, b, m, a);
    RevertNote(Coalesce(c, next).value, b, a);
  }

  /** Every clip is as long after the run as following the pattern's length once would make it. */
  ghost predicate LengthsFollow(p: PatternId, b: Tables, a: Tables) {
    && p in b.patterns && p in a.patterns
    && var once := Step(b.clips, p, PatternEffectiveLength(b.patterns[p]), PatternEffectiveLength(a.patterns[p]));
       forall c | c in b.clips :: c in a.clips && a.clips[c].length == once[c].length
  }

  /** Clips that differ in length at most are the same when their lengths are. */
  lemma LengthsDecide(x: map<ClipId, Clip>, y: map<ClipId, Clip>)
    requires x.Keys == y.Keys && forall c | c in x :: x[c] == y[c].(length := x[c].length)
    ensures x == y <==> forall c | c in y :: x[c].length == y[c].length
  {
  }

  /** A note edit that undoes exactly, and whose notes lead straight back again, is redone exactly when every clip is
      as long as following once makes it. */
  lemma {:induction false} NoteRedoDecides(d: Command, b: Tables, a: Tables)
    requires d.NoteEdit? && Undoes(d, b, a)
    requires EditSequence(b, d.patternId, d.instrumentId, d.removed, d.added) == Some(a.(clips := b.clips))
    ensures var u := Revert(d, a).command;
            Apply(u, b).ok && (Apply(u, b).tables == a <==> LengthsFollow(d.patternId, b, a))
  {
    var p := d.patternId;
    NoteUndone(d, b, a);
    FollowIsStep(a.(clips := b.clips), p, PatternEffectiveLength(b.patterns[p]));
    FollowedDecides(p, b, a, d.resized);
  }

  /** Redoing a folded run of any length leads to the state after it exactly when every clip is as long as following
      once makes it. */
  lemma {:induction false} NoteRunRedoIff(c: Command, next: Command, b: Tables, m: Tables, a: Tables)
    requires c.NoteEdit? && next.NoteEdit? && Coalesce(c, next).Some? && Sound(a)
    requires Undoes(c, b, m) && Labels(next, m, a)
    ensures var u := Revert(Coalesce(c, next).value, a).command;
            Apply(u, b).ok && (Apply(u, b).tables == a <==> LengthsFollow(c.patternId, b, a))
  {
    var p, i := c.patternId, c.instrumentId;
    NoteUndoExact(c, next, b, m, a);
    FoldedBack(c, next, b, m, a);
    EditSequenceBack(a, p, i, next.added, c.removed);
    EditSequenceFrame(b.(clips := a.clips), b.clips, p, i, c.removed, next.added);
    NoteRedoDecides(Coalesce(c, next).value, b, a);
  }

  lemma {:induction false} FollowedDecides(p: PatternId, b: Tables, a: Tables, lengths: map<ClipId, Ticks>)
    requires p in b.patterns && p in a.patterns && b.clips == Resized(a.clips, lengths)
    ensures a.clips == Step(b.clips, p, PatternEffectiveLength(b.patterns[p]), PatternEffectiveLength(a.patterns[p]))
            <==> LengthsFollow(p, b, a)
  {
    var once := Step(b.clips, p, PatternEffectiveLength(b.patterns[p]), PatternEffectiveLength(a.patterns[p]));
    assert a.clips.Keys == once.Keys;
    LengthsDecide(a.clips, once);
  }

  /** Of two edits, that is so exactly when no clip was already as long as the pattern was in between. */
  lemma {:induction false} NoteRedoExactIff(c: Command, next: Command, b: Tables, m: Tables, a: Tables)
    requires c.NoteEdit? && next.NoteEdit? && Coalesce(c, next).Some?
    requires Labels(c, b, m) && Labels(next, m, a)
    ensures var u := Revert(Coalesce(c, next).value, a).command;
            Apply(u, b).ok && (Apply(u, b).tables == a <==> NoteRedoSafe(c.patternId, b, m, a))
  {
    var d := Coalesce(c, next).value;
    NoteUndoExact(c, next, b, m, a);
    FoldedForth(c, next, b, m, a);
    NoteRedoDecides(d, b, a);
    NoteUndone(d, b, a);
    FoldedClips(c, next, b, m, a);
    FollowedDecides(c.patternId, b, a, d.resized);
  }

  lemma {:induction false} FoldedForth(c: Command, next: Command, b: Tables, m: Tables, a: Tables)
    requires c.NoteEdit? && next.NoteEdit? && Coalesce(c, next).Some?
    requires Labels(c, b, m) && Labels(next, m, a)
    ensures EditSequence(b, c.patternId, c.instrumentId, c.removed, next.added) == Some(a.(clips := b.clips))
  {
    var p, i := c.patternId, c.instrumentId;
    NoteLabelled(c, b, m);
    NoteLabelled(next, m, a);
    SequencesEditedTwice(m, p, i, next.added, c.added, c.removed);
    EditSequenceFrame(b.(clips := m.clips), b.clips, p, i, c.removed, next.added);
  }

  lemma {:induction false} FoldedClips(c: Command, next: Command, b: Tables, m: Tables, a: Tables)
    requires c.NoteEdit? && next.NoteEdit? && Coalesce(c, next).Some?
    requires Labels(c, b, m) && Labels(next, m, a)
    ensures var p := c.patternId;
      && p in b.patterns && p in m.patterns && p in a.patterns
      && (a.clips == Step(b.clips, p, PatternEffectiveLength(b.patterns[p]), PatternEffectiveLength(a.patterns[p]))
          <==> NoteRedoSafe(p, b, m, a))
  {
    var p := c.patternId;
    NoteLabelled(c, b, m);
    NoteLabelled(next, m, a);
    FollowIsStep(m.(clips := b.clips), p, PatternEffectiveLength(b.patterns[p]));
    FollowIsStep(a.(clips := m.clips), p, PatternEffectiveLength(m.patterns[p]));
    StepsCompose(b.clips, p, PatternEffectiveLength(b.patterns[p]), PatternEffectiveLength(m.patterns[p]),
                 PatternEffectiveLength(a.patterns[p]));
  }

  /** Under that condition the folded run is a full history entry. */
  lemma {:induction false} NoteCoalesces(c: Command, next: Command, b: Tables, m: Tables, a: Tables)
    requires c.NoteEdit? && next.NoteEdit? && Coalesce(c, next).Some?
    requires Sound(b) && Sound(a) && Undoes(c, b, m) && Labels(next, m, a)
    requires LengthsFollow(c.patternId, b, a)
    ensures Labels(Coalesce(c, next).value, b, a)
  {
    var d := Coalesce(c, next).value;
    var u := d.(resized := map[]);
    NoteUndoExact(c, next, b, m, a);
    NoteRunRedoIff(c, next, b, m, a);
    NoteEditSettled(b, u);
    PendingFromSteps(u, Apply(u, b).command, b, a);
    LabelsFromSteps(d, u, b, a);
  }

  // ----- transport ---------------------------------------------------------

  /** The lengths that a transport command restores are all that a tempo change moves, or none. */
  ghost predicate Keeps(c: Command, b: Tables) {
    c.SetTransport? ==> c.originalLengths == map[] || c.originalLengths == AudioLengths(b.clips)
  }

  /** One more change folded into a run of any length that undoes exactly: it still does exactly when the run recorded
      the lengths, or the change moves no clip. */
  lemma {:induction false} TransportUndoExactIff(c: Command, next: Command, b: Tables, m: Tables)
    requires c.SetTransport? && next.SetTransport? && next.from == m.transport
    requires Undoes(c, b, m) && Keeps(c, b)
    ensures var a := Apply(next, m);
            var d := Coalesce(c, a.command).value;
      && Keeps(d, b)
      && (Undoes(d, b, a.tables) <==>
            c.originalLengths == AudioLengths(b.clips)
            || Rescaled(m.clips, next.from.tempo, next.to.tempo) == m.clips)
  {
    var a := Apply(next, m).tables;
    assert b == m.(transport := c.from, clips := Resized(m.clips, c.originalLengths));
    if c.originalLengths == AudioLengths(b.clips) {
      RecordedComeBack(m.clips, b.clips, next.from.tempo, next.to.tempo);
    } else {
      assert Resized(m.clips, map[]) == m.clips;
      assert Resized(a.clips, map[]) == a.clips;
    }
  }

  lemma {:induction false} RecordedComeBack(m: map<ClipId, Clip>, b: map<ClipId, Clip>, from: real, to: real)
    requires b == Resized(m, AudioLengths(b))
    ensures Resized(Rescaled(m, from, to), AudioLengths(b)) == b
  {
    forall c | c in b && !Rescales(b[c]) ensures m[c] == b[c] && Rescaled(m, from, to)[c] == m[c] {
    }
  }

  /** Every clip is as long after the run as rescaling once would make it. */
  ghost predicate LengthsRescale(from: real, to: real, b: Tables, a: Tables) {
    var once := Rescaled(b.clips, from, to);
    forall c | c in b.clips :: c in a.clips && a.clips[c].length == once[c].length
  }

  /** Redoing a transport entry that undoes exactly leads to the state after it exactly when every clip is as long as
      rescaling once makes it. */
  lemma {:induction false} TransportRedoIff(d: Command, b: Tables, a: Tables)
    requires d.SetTransport? && Undoes(d, b, a) && a.transport == d.to
    ensures var u := Revert(d, a).command;
      Apply(u, b).ok && (Apply(u, b).tables == a <==> LengthsRescale(d.from.tempo, d.to.tempo, b, a))
  {
    var once := Rescaled(b.clips, d.from.tempo, d.to.tempo);
    assert b == a.(transport := d.from, clips := Resized(a.clips, d.originalLengths));
    assert a.clips.Keys == once.Keys;
    LengthsDecide(a.clips, once);
  }

  /** Under that condition the folded run is a full history entry. */
  lemma {:induction false} TransportCoalesces(d: Command, b: Tables, a: Tables)
    requires d.SetTransport? && Undoes(d, b, a) && a.transport == d.to
    requires LengthsRescale(d.from.tempo, d.to.tempo, b, a)
    ensures Labels(d, b, a)
  {
    var u := d.(originalLengths := map[]);
    TransportRedoIff(d, b, a);
    assert Revert(d, a) == Outcome(true, u, b);
    TransportSettled(b, u);
    PendingFromSteps(u, Apply(u, b).command, b, a);
    LabelsFromSteps(d, u, b, a);
  }
}
