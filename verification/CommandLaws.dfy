/**
 The law of the command layer: a command executed on a sound project either fails and changes nothing,
 or leaves a sound project and is settled between the two states, composites and their rollback included.
 */
module CommandLaws {
  import opened Options
  import opened Entities
  import opened Integrity
  import opened Deletion
  import opened Commands
  import opened Inverses
  import opened NoteLaws

  // ----- chains of commands ------------------------------------------------

  function Front(cs: seq<Command>): seq<Command>
    requires cs != []
  {
    cs[..|cs| - 1]
  }

  function Last(cs: seq<Command>): Command
    requires cs != []
  {
    cs[|cs| - 1]
  }

  /** The commands of `cs` lead from `b` to `a`, each one settled between its two states. */
  ghost predicate SettledAll(cs: seq<Command>, b: Tables, a: Tables) {
    if cs == [] then b == a
    else exists m :: SettledAll(Front(cs), b, m) && Settled(Last(cs), m, a)
  }

  ghost predicate PendingAll(us: seq<Command>, b: Tables, a: Tables) {
    if us == [] then b == a
    else exists m :: PendingAll(Front(us), b, m) && Pending(Last(us), m, a)
  }

  ghost predicate LabelsAll(cs: seq<Command>, b: Tables, a: Tables) {
    if cs == [] then b == a
    else exists m :: LabelsAll(Front(cs), b, m) && Labels(Last(cs), m, a)
  }

  lemma {:induction false} SettledLabels(c: Command, b: Tables, a: Tables)
    requires Settled(c, b, a)
    ensures Labels(c, b, a)
  {
  }

  lemma {:induction false} SettledAllLabels(cs: seq<Command>, b: Tables, a: Tables)
    requires SettledAll(cs, b, a)
    ensures LabelsAll(cs, b, a)
  {
    if cs != [] {
      var m :| SettledAll(Front(cs), b, m) && Settled(Last(cs), m, a);
      SettledAllLabels(Front(cs), b, m);
    }
  }

  lemma {:induction false} LabelsAllAppend(cs: seq<Command>, c: Command, b: Tables, m: Tables, a: Tables)
    requires LabelsAll(cs, b, m) && Labels(c, m, a)
    ensures LabelsAll(cs + [c], b, a)
  {
    assert Front(cs + [c]) == cs;
  }

  lemma {:induction false} SettledAllAppend(cs: seq<Command>, c: Command, b: Tables, m: Tables, a: Tables)
    requires SettledAll(cs, b, m) && Settled(c, m, a)
    ensures SettledAll(cs + [c], b, a)
  {
    assert Front(cs + [c]) == cs;
  }

  lemma {:induction false} PendingAllAppend(us: seq<Command>, u: Command, b: Tables, m: Tables, a: Tables)
    requires PendingAll(us, b, m) && Pending(u, m, a)
    ensures PendingAll(us + [u], b, a)
  {
    assert Front(us + [u]) == us;
  }

  /** Undoing a chain in reverse leads back to its start, and so does a rollback. */
  lemma {:induction false} RevertAllBack(cs: seq<Command>, b: Tables, a: Tables)
    requires LabelsAll(cs, b, a)
    ensures var r := RevertAll(cs, a); r.ok && r.tables == b && PendingAll(r.commands, b, a)
    ensures RollBack(cs, a).tables == b
  {
    if cs != [] {
      var m :| LabelsAll(Front(cs), b, m) && Labels(Last(cs), m, a);
      RevertAllBack(Front(cs), b, m);
      PendingAllAppend(RevertAll(Front(cs), m).commands, Revert(Last(cs), a).command, b, m, a);
    }
  }

  lemma {:induction false} ApplyAllForth(us: seq<Command>, b: Tables, a: Tables)
    requires PendingAll(us, b, a)
    ensures var r := ApplyAll(us, b); r.ok && r.tables == a && SettledAll(r.commands, b, a)
  {
    if us != [] {
      var m :| PendingAll(Front(us), b, m) && Pending(Last(us), m, a);
      ApplyAllForth(Front(us), b, m);
      SettledAllAppend(ApplyAll(Front(us), b).commands, Apply(Last(us), m).command, b, m, a);
    }
  }

  /** A settled chain comes back command for command after an undo and a redo. */
  lemma {:induction false} SettledAllReturns(cs: seq<Command>, b: Tables, a: Tables)
    requires SettledAll(cs, b, a)
    ensures ApplyAll(RevertAll(cs, a).commands, b) == ListOutcome(true, cs, a)
  {
    if cs != [] {
      var m :| SettledAll(Front(cs), b, m) && Settled(Last(cs), m, a);
      SettledAllReturns(Front(cs), b, m);
      SettledAllLabels(Front(cs), b, m);
      RevertAllBack(Front(cs), b, m);
      LastReturns(cs, b, m, a);
    }
  }

  lemma {:induction false} LastReturns(cs: seq<Command>, b: Tables, m: Tables, a: Tables)
    requires cs != []
    requires Revert(Last(cs), a).ok && Revert(Last(cs), a).tables == m
    requires Apply(Revert(Last(cs), a).command, m) == Outcome(true, Last(cs), a)
    requires ApplyAll(RevertAll(Front(cs), m).commands, b) == ListOutcome(true, Front(cs), m)
    ensures ApplyAll(RevertAll(cs, a).commands, b) == ListOutcome(true, cs, a)
  {
    var us := RevertAll(cs, a).commands;
    assert us == RevertAll(Front(cs), m).commands + [Revert(Last(cs), a).command];
    assert Front(us) == RevertAll(Front(cs), m).commands;
    assert cs == Front(cs) + [Last(cs)];
  }

  /** A composite does what its commands do one after the other. */
  lemma {:induction false} CompositeSteps(cs: seq<Command>, t: Tables)
    ensures Revert(Composite(cs), t) ==
      Outcome(RevertAll(cs, t).ok, Composite(RevertAll(cs, t).commands), RevertAll(cs, t).tables)
    ensures Apply(Composite(cs), t) ==
      Outcome(ApplyAll(cs, t).ok, Composite(ApplyAll(cs, t).commands), ApplyAll(cs, t).tables)
  {
  }

  lemma {:induction false} SettledFromSteps(c: Command, u: Command, b: Tables, a: Tables)
    requires Revert(c, a) == Outcome(true, u, b)
    requires Apply(u, b) == Outcome(true, c, a)
    ensures Settled(c, b, a)
  {
  }

  lemma {:induction false} CompositeSettled(cs: seq<Command>, b: Tables, a: Tables)
    requires SettledAll(cs, b, a)
    ensures Settled(Composite(cs), b, a)
  {
    SettledAllLabels(cs, b, a);
    RevertAllBack(cs, b, a);
    SettledAllReturns(cs, b, a);
    var us := RevertAll(cs, a).commands;
    CompositeSteps(cs, a);
    CompositeSteps(us, b);
    SettledFromSteps(Composite(cs), Composite(us), b, a);
  }

  lemma {:induction false} PendingFromSteps(u: Command, c: Command, b: Tables, a: Tables)
    requires Apply(u, b) == Outcome(true, c, a) && Settled(c, b, a)
    ensures Pending(u, b, a)
  {
  }

  lemma {:induction false} CompositePending(us: seq<Command>, b: Tables, a: Tables)
    requires PendingAll(us, b, a)
    ensures Pending(Composite(us), b, a)
  {
    ApplyAllForth(us, b, a);
    var cs := ApplyAll(us, b).commands;
    CompositeSettled(cs, b, a);
    CompositeSteps(us, b);
    PendingFromSteps(Composite(us), Composite(cs), b, a);
  }

  lemma {:induction false} LabelsFromSteps(c: Command, u: Command, b: Tables, a: Tables)
    requires Revert(c, a) == Outcome(true, u, b) && Pending(u, b, a)
    ensures Labels(c, b, a)
  {
  }

  /** A transaction over labelled commands is itself labelled: it undoes and redoes as one. */
  lemma {:induction false} CompositeLabels(cs: seq<Command>, b: Tables, a: Tables)
    requires LabelsAll(cs, b, a)
    ensures Labels(Composite(cs), b, a)
  {
    RevertAllBack(cs, b, a);
    var us := RevertAll(cs, a).commands;
    CompositePending(us, b, a);
    CompositeSteps(cs, a);
    LabelsFromSteps(Composite(cs), Composite(us), b, a);
  }

  // ----- the law -----------------------------------------------------------

  predicate IsRemoval(c: Command) {
    c.RemoveInstrument? || c.RemovePattern? || c.RemoveLane? || c.RemoveClip? || c.RemoveTrack?
  }

  lemma {:induction false} RemovalSettled(c: Command, t: Tables)
    requires Consistent(t) && Keyed(t) && Apply(c, t).ok && IsRemoval(c)
    ensures Settled(Apply(c, t).command, t, Apply(c, t).tables)
  {
    match c
    case RemoveInstrument(_, _, _, _) => InstrumentRemovalSettled(c, t);
    case RemovePattern(_, _, _) => PatternRemovalSettled(c, t);
    case RemoveLane(_, _, _, _) => LaneRemovalSettled(c, t);
    case RemoveClip(_, _) => ClipRemovalSettled(c, t);
    case RemoveTrack(_, _, _, _, _, _) => TrackRemovalSettled(c, t);
  }

  lemma {:induction false} InstrumentRemovalSettled(c: Command, t: Tables)
    requires Consistent(t) && Keyed(t) && Apply(c, t).ok && c.RemoveInstrument?
    ensures Settled(Apply(c, t).command, t, Apply(c, t).tables)
  {
    InstrumentComesBack(t, c.instrumentId);
  }

  lemma {:induction false} PatternRemovalSettled(c: Command, t: Tables)
    requires Consistent(t) && Keyed(t) && Apply(c, t).ok && c.RemovePattern?
    ensures Settled(Apply(c, t).command, t, Apply(c, t).tables)
  {
    PatternComesBack(t, c.patternId);
  }

  lemma {:induction false} LaneRemovalSettled(c: Command, t: Tables)
    requires Consistent(t) && Keyed(t) && Apply(c, t).ok && c.RemoveLane?
    ensures Settled(Apply(c, t).command, t, Apply(c, t).tables)
  {
    LaneComesBack(t, c.laneId);
  }

  lemma {:induction false} ClipRemovalSettled(c: Command, t: Tables)
    requires Keyed(t) && Apply(c, t).ok && c.RemoveClip?
    ensures Settled(Apply(c, t).command, t, Apply(c, t).tables)
  {
    assert (t.clips - {c.clipId})[c.clipId := t.clips[c.clipId]] == t.clips;
  }

  lemma {:induction false} TrackRemovalSettled(c: Command, t: Tables)
    requires Consistent(t) && Keyed(t) && Apply(c, t).ok && c.RemoveTrack?
    ensures Settled(Apply(c, t).command, t, Apply(c, t).tables)
  {
    TrackComesBack(t, c.trackId);
  }

  lemma {:induction false} RemovalSound(c: Command, t: Tables)
    requires Sound(t) && Apply(c, t).ok && IsRemoval(c)
    ensures Sound(Apply(c, t).tables)
  {
    match c
    case RemoveInstrument(id, _, _, _) => WithoutInstrumentSound(t, id);
    case RemovePattern(id, _, _) => WithoutPatternSound(t, id);
    case RemoveLane(id, _, _, _) => WithoutLaneSound(t, id);
    case RemoveClip(id, _) => WithoutClipSound(t, id);
    case RemoveTrack(id, _, _, _, _, _) => WithoutTrackSound(t, id);
  }

  /** Executing a command built for the current contents: nothing happens, or an exact, sound step. */
  lemma {:induction false} ExecuteLaw(c: Command, t: Tables)
    requires Sound(t) && Admissible(c, t)
    ensures var o := Apply(c, t);
            if o.ok then Settled(o.command, t, o.tables) && Sound(o.tables) else o.tables == t
    decreases c
  {
    var o := Apply(c, t);
    match c
    case Add(e) => if o.ok { AddedOnly(t, e); }
    case Edit(_, _, _) => if o.ok { EditSettled(t, c); }
    case EffectParam(k, e, _, _, _) =>
      if o.ok {
        EffectParamSettled(t, c);
        EffectParamSound(t, c);
      }
    case NoteEdit(_, _, _, _, _, _) =>
      if o.ok {
        NoteEditSettled(t, c);
        NoteEditSound(t, c);
      }
    case SetTransport(_, _, _) =>
      TransportSettled(t, c);
      TransportSound(t, c);
    case SetMeta(_, _) => MetaSound(t, o.tables);
    case Composite(cs) => CompositeLaw(cs, t);
    case _ =>
      if o.ok {
        RemovalSettled(c, t);
        RemovalSound(c, t);
      }
  }

  lemma {:induction false} CompositeLaw(cs: seq<Command>, t: Tables)
    requires Sound(t) && AdmissibleAll(cs, t)
    ensures var r := ApplyAll(cs, t);
            if r.ok then SettledAll(r.commands, t, r.tables) && Sound(r.tables) else r.tables == t
    ensures ApplyAll(cs, t).ok ==> Settled(Composite(ApplyAll(cs, t).commands), t, ApplyAll(cs, t).tables)
    decreases cs
  {
    var r := ApplyAll(cs, t);
    if cs != [] {
      var last := |cs| - 1;
      CompositeLaw(cs[..last], t);
      var before := ApplyAll(cs[..last], t);
      if before.ok {
        ExecuteLaw(cs[last], before.tables);
        if r.ok {
          SettledAllAppend(before.commands, Apply(cs[last], before.tables).command, t, before.tables, r.tables);
        } else {
          SettledAllLabels(before.commands, t, before.tables);
          RevertAllBack(before.commands, t, before.tables);
        }
      }
    }
    if r.ok {
      CompositeSettled(r.commands, t, r.tables);
    }
  }

  lemma {:induction false} EffectParamSound(t: Tables, c: Command)
    requires Sound(t) && c.EffectParam? && c.track_ in t.tracks
    ensures Sound(WriteParam(t, c.track_, c.effect, c.parameter, Some(c.now)).value)
  {
    TrackEditSound(t, c.track_, WithParam(t.tracks[c.track_], c.effect, c.parameter, Some(c.now)));
  }

  lemma {:induction false} MetaSound(t: Tables, a: Tables)
    requires Sound(t) && a == t.(meta := a.meta)
    ensures Sound(a)
  {
    LengthsSound(t.(meta := a.meta), a);
  }
}
