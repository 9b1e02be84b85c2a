/**
 Gestures of any length, as they arrive: every step is executed on what the last one left and folded into the entry.
 When such a run is undone and redone exactly, in terms of the lengths and tempi it went through.
 */
module Drags {
  import opened Options
  import opened Notes
  import opened Entities
  import opened Deletion
  import opened Commands
  import opened Inverses
  import opened NoteLaws
  import opened CommandLaws
  import opened Coalescing

  /** The entry a gesture leaves in the history, and the contents it leaves. */
  datatype Drag = Drag(entry: Command, tables: Tables)

  // ----- notes ---------------------------------------------------------------------------------

  /** Note edits executed one after another, each folding into what the ones before it became. */
  ghost function NoteDrag(t: Tables, edits: seq<Command>): Option<Drag>
    requires edits != []
  {
    var n := |edits| - 1;
    if n == 0 then
      var o := Apply(edits[0], t);
      if o.ok then Some(Drag(o.command, o.tables)) else None
    else NextEdit(NoteDrag(t, edits[..n]), edits[n])
  }

  ghost function NextEdit(before: Option<Drag>, edit: Command): Option<Drag> {
    match before
    case None => None
    case Some(d) =>
      var o := Apply(edit, d.tables);
      var folded := Coalesce(d.entry, o.command);
      if o.ok && folded.Some? then Some(Drag(folded.value, o.tables)) else None
  }

  /** An edit as it is executed: it leads back, and leaves sound contents. */
  lemma {:induction false} FreshEdit(t: Tables, c: Command)
    requires Sound(t) && c.NoteEdit? && Apply(c, t).ok
    ensures var o := Apply(c, t); o.command.NoteEdit? && Labels(o.command, t, o.tables) && Sound(o.tables)
  {
    NoteEditSettled(t, c);
    NoteEditSound(t, c);
    SettledLabels(Apply(c, t).command, t, Apply(c, t).tables);
  }

  ghost predicate LeadsBack(d: Drag, t: Tables) {
    d.entry.NoteEdit? && Undoes(d.entry, t, d.tables) && Sound(d.tables)
  }

  lemma {:induction false} NextEditLeadsBack(d: Drag, t: Tables, edit: Command)
    requires LeadsBack(d, t) && edit.NoteEdit? && NextEdit(Some(d), edit).Some?
    ensures LeadsBack(NextEdit(Some(d), edit).value, t)
  {
    FreshEdit(d.tables, edit);
    var o := Apply(edit, d.tables);
    NoteUndoExact(d.entry, o.command, t, d.tables, o.tables);
  }

  /** A gesture of note edits of any length undoes exactly, whatever lengths the pattern and its clips went through. */
  lemma {:induction false} NoteDragUndoes(t: Tables, edits: seq<Command>)
    requires Sound(t) && edits != [] && NoteDrag(t, edits).Some?
    requires forall i | 0 <= i < |edits| :: edits[i].NoteEdit?
    ensures LeadsBack(NoteDrag(t, edits).value, t)
  {
    var n := |edits| - 1;
    if n == 0 {
      FreshEdit(t, edits[0]);
    } else {
      NoteDragUndoes(t, edits[..n]);
      NextEditLeadsBack(NoteDrag(t, edits[..n]).value, t, edits[n]);
    }
  }

  /** And it is redone exactly just when every clip is as long at its end as following once would make it. */
  lemma {:induction false} NoteDragRedoIff(t: Tables, edits: seq<Command>)
    requires Sound(t) && 1 < |edits| && NoteDrag(t, edits).Some?
    requires forall i | 0 <= i < |edits| :: edits[i].NoteEdit?
    ensures var d := NoteDrag(t, edits).value;
      d.entry.NoteEdit? &&
      var u := Revert(d.entry, d.tables).command;
      Apply(u, t).ok && (Apply(u, t).tables == d.tables <==> LengthsFollow(d.entry.patternId, t, d.tables))
  {
    var n := |edits| - 1;
    NoteDragUndoes(t, edits[..n]);
    NextEditRedone(NoteDrag(t, edits[..n]).value, t, edits[n]);
  }

  lemma {:induction false} NextEditRedone(d: Drag, t: Tables, edit: Command)
    requires LeadsBack(d, t) && edit.NoteEdit? && NextEdit(Some(d), edit).Some?
    ensures var e := NextEdit(Some(d), edit).value;
      e.entry.NoteEdit? &&
      var u := Revert(e.entry, e.tables).command;
      Apply(u, t).ok && (Apply(u, t).tables == e.tables <==> LengthsFollow(e.entry.patternId, t, e.tables))
  {
    FreshEdit(d.tables, edit);
    var o := Apply(edit, d.tables);
    NoteRunRedoIff(d.entry, o.command, t, d.tables, o.tables);
  }

  // ----- transport -------------------------------------------------------------------------------

  /** A transport setting after another, from the one in force. */
  ghost function TransportDrag(t: Tables, stops: seq<TransportState>): Drag
    requires 1 < |stops|
  {
    var n := |stops| - 1;
    if n == 1 then
      var o := Apply(SetTransport(stops[0], stops[1], map[]), t);
      Drag(o.command, o.tables)
    else
      var d := TransportDrag(t, stops[..n]);
      var o := Apply(SetTransport(stops[n - 1], stops[n], map[]), d.tables);
      Drag(match Coalesce(d.entry, o.command) case Some(folded) => folded case None => d.entry, o.tables)
  }

  function RescaledOnce(length: Ticks, from: real, to: real): Ticks {
    if TempoMoves(from, to) then Rescale(length, from, to) else length
  }

  /** The length a clip comes to have, tempo by tempo. */
  function RescaledStepwise(length: Ticks, stops: seq<TransportState>): (r: Ticks)
    requires stops != []
    ensures 0 < length ==> 0 < r
  {
    var n := |stops| - 1;
    if n == 0 then length
    else RescaledOnce(RescaledStepwise(length, stops[..n]), stops[n - 1].tempo, stops[n].tempo)
  }

  function Stepwise(clips: map<ClipId, Clip>, stops: seq<TransportState>): map<ClipId, Clip>
    requires stops != []
  {
    map c | c in clips ::
      if Rescales(clips[c]) then clips[c].(length := RescaledStepwise(clips[c].length, stops)) else clips[c]
  }

  lemma {:induction false} StepwiseStep(clips: map<ClipId, Clip>, stops: seq<TransportState>)
    requires 1 < |stops|
    ensures var n := |stops| - 1;
      Rescaled(Stepwise(clips, stops[..n]), stops[n - 1].tempo, stops[n].tempo) == Stepwise(clips, stops)
  {
    var n := |stops| - 1;
    var before := Stepwise(clips, stops[..n]);
    forall c | c in clips
      ensures Rescaled(before, stops[n - 1].tempo, stops[n].tempo)[c] == Stepwise(clips, stops)[c]
    {
      assert Rescales(before[c]) <==> Rescales(clips[c]);
    }
  }

  lemma StepwiseStart(clips: map<ClipId, Clip>, stops: seq<TransportState>)
    requires |stops| == 1
    ensures Stepwise(clips, stops) == clips
  {
  }

  /** What a drag of any length leaves: one command from its first setting to its last, with the lengths that its first
      step recorded, and every clip rescaled step by step. */
  lemma {:induction false} TransportDragIs(t: Tables, stops: seq<TransportState>)
    requires 1 < |stops|
    ensures var d, last := TransportDrag(t, stops), stops[|stops| - 1];
      && d.entry == SetTransport(stops[0], last, OriginalLengths(t.clips, stops[0].tempo, stops[1].tempo))
      && d.tables == t.(transport := last, clips := Stepwise(t.clips, stops))
  {
    var n := |stops| - 1;
    StepwiseStep(t.clips, stops);
    if n == 1 {
      StepwiseStart(t.clips, stops[..1]);
    } else {
      TransportDragIs(t, stops[..n]);
    }
  }

  /** Rescaling step by step gives every audio clip the length that rescaling once gives it. */
  predicate OnceIsEnough(clips: map<ClipId, Clip>, stops: seq<TransportState>)
    requires stops != []
  {
    forall c | c in clips && Rescales(clips[c]) ::
      RescaledStepwise(clips[c].length, stops) == RescaledOnce(clips[c].length, stops[0].tempo, stops[|stops| - 1].tempo)
  }

  /** No audio clip has changed its length. */
  predicate NothingMoved(clips: map<ClipId, Clip>, stops: seq<TransportState>)
    requires stops != []
  {
    forall c | c in clips && Rescales(clips[c]) :: RescaledStepwise(clips[c].length, stops) == clips[c].length
  }

  /** A drag undoes exactly just when its first step moved the tempo, which is when the lengths are recorded, or no clip
      has changed. */
  lemma {:induction false} TransportDragUndoIff(t: Tables, stops: seq<TransportState>)
    requires 1 < |stops| && stops[0] == t.transport
    ensures var d := TransportDrag(t, stops);
      Undoes(d.entry, t, d.tables) <==> TempoMoves(stops[0].tempo, stops[1].tempo) || NothingMoved(t.clips, stops)
  {
    TransportDragIs(t, stops);
    var d := TransportDrag(t, stops);
    var moved := Stepwise(t.clips, stops);
    if TempoMoves(stops[0].tempo, stops[1].tempo) {
      assert Resized(moved, AudioLengths(t.clips)) == t.clips;
    } else {
      assert Resized(moved, map[]) == moved;
      if NothingMoved(t.clips, stops) {
        assert moved == t.clips;
      } else {
        var c :| c in t.clips && Rescales(t.clips[c]) && RescaledStepwise(t.clips[c].length, stops) != t.clips[c].length;
        assert moved[c] != t.clips[c];
      }
    }
  }

  /** What is left of a drag once it is undone is redone exactly just when, for every audio clip, rescaling step by step
      gives the length that rescaling once gives. */
  lemma {:induction false} TransportDragRedoIff(t: Tables, stops: seq<TransportState>)
    requires 1 < |stops| && stops[0] == t.transport
    ensures var d := TransportDrag(t, stops);
      var u := Revert(d.entry, d.tables).command;
      Apply(u, t).ok && (Apply(u, t).tables == d.tables <==> OnceIsEnough(t.clips, stops))
  {
    TransportDragIs(t, stops);
    var last := stops[|stops| - 1];
    var once, stepwise := Rescaled(t.clips, stops[0].tempo, last.tempo), Stepwise(t.clips, stops);
    forall c | c in t.clips && Rescales(t.clips[c])
      ensures once[c].length == RescaledOnce(t.clips[c].length, stops[0].tempo, last.tempo)
      ensures stepwise[c].length == RescaledStepwise(t.clips[c].length, stops)
    {
    }
    if OnceIsEnough(t.clips, stops) {
      assert once == stepwise;
    } else {
      var c :| c in t.clips && Rescales(t.clips[c]) &&
        RescaledStepwise(t.clips[c].length, stops) != RescaledOnce(t.clips[c].length, stops[0].tempo, last.tempo);
      assert once[c] != stepwise[c];
    }
  }

  /** Of two changes: three tempi and every clip's length decide whether redo is exact. */
  lemma {:induction false} TransportRedoExactIff(c: Command, next: Command, b: Tables)
    requires c.SetTransport? && next.SetTransport? && c.from == b.transport && next.from == c.to
    ensures var m := Apply(c, b);
      var a := Apply(next, m.tables).tables;
      var u := Revert(Coalesce(m.command, next).value, a).command;
      Apply(u, b).ok &&
      (Apply(u, b).tables == a <==>
        forall k | k in b.clips && Rescales(b.clips[k]) ::
          RescaledOnce(RescaledOnce(b.clips[k].length, c.from.tempo, c.to.tempo), c.to.tempo, next.to.tempo) ==
          RescaledOnce(b.clips[k].length, c.from.tempo, next.to.tempo))
  {
    var stops := [c.from, c.to, next.to];
    TransportDragRedoIff(b, stops);
    TwoSteps(c, next, b, stops);
    forall k | k in b.clips && Rescales(b.clips[k])
      ensures RescaledStepwise(b.clips[k].length, stops) ==
        RescaledOnce(RescaledOnce(b.clips[k].length, c.from.tempo, c.to.tempo), c.to.tempo, next.to.tempo)
    {
      InTwoSteps(b.clips[k].length, stops);
    }
  }

  lemma InTwoSteps(length: Ticks, stops: seq<TransportState>)
    requires |stops| == 3
    ensures RescaledStepwise(length, stops) ==
      RescaledOnce(RescaledOnce(length, stops[0].tempo, stops[1].tempo), stops[1].tempo, stops[2].tempo)
  {
    var two := stops[..2];
    assert RescaledStepwise(length, two[..1]) == length;
    assert RescaledStepwise(length, two) == RescaledOnce(length, two[0].tempo, two[1].tempo);
  }

  lemma {:induction false} TwoSteps(c: Command, next: Command, b: Tables, stops: seq<TransportState>)
    requires c.SetTransport? && next.SetTransport? && next.from == c.to && stops == [c.from, c.to, next.to]
    ensures var m := Apply(c, b);
      TransportDrag(b, stops) == Drag(Coalesce(m.command, next).value, Apply(next, m.tables).tables)
  {
    assert stops[..2] == [c.from, c.to];
  }

  /** A project with one audio clip of one tick, at 100 beats a minute. */
  function OneTick(base: Tables): Tables {
    var clip := Clip(1, 1, 0, 1, false, AudioSource("", 0, 0, 1.0, false, 1, Off, 100.0), ClipTransforms(0, false, 0));
    base.(clips := map[1 := clip], transport := At(100.0))
  }

  function At(tempo: real): TransportState {
    TransportState(tempo, false, false, 0, 0)
  }

  predicate LengthIs(t: Tables, id: ClipId, length: Ticks) {
    id in t.clips && t.clips[id].length == length
  }

  /** Dragged from 100 over 140 to 200 beats a minute its clip stays one tick long; undone and redone, it is two. */
  lemma TempoDragDrifts(base: Tables)
    ensures var t, stops := OneTick(base), [At(100.0), At(140.0), At(200.0)];
      var d := TransportDrag(t, stops);
      var again := Apply(Revert(d.entry, d.tables).command, t).tables;
      Undoes(d.entry, t, d.tables) && LengthIs(d.tables, 1, 1) && LengthIs(again, 1, 2)
  {
    var t, stops := OneTick(base), [At(100.0), At(140.0), At(200.0)];
    TransportDragIs(t, stops);
    TransportDragUndoIff(t, stops);
    InTwoSteps(1, stops);
    Drift();
    assert Rescales(t.clips[1]);
  }

  lemma Drift()
    ensures RescaledOnce(RescaledOnce(1, 100.0, 140.0), 140.0, 200.0) == 1 && RescaledOnce(1, 100.0, 200.0) == 2
  {
  }
}
