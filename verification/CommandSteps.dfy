/**
 Commands on a live project: each step mutates the project entity by entity, with the loops of the
 source, and yields exactly the outcome that `Apply` and `Revert` define.
 */
module CommandSteps {
  import opened Options
  import opened Notes
  import opened Entities
  import opened Commands
  import opened Projects
  import NoteSequences

  /** Clips are filed under their own identifiers, in the project and in what commands captured. */
  predicate FiledClips(clips: map<ClipId, Clip>) {
    forall c | c in clips :: clips[c].id == c
  }

  predicate FiledPart(id: nat, part: Part) {
    part.ClipPart? ==> part.clip.id == id
  }

  predicate Filed(c: Command)
    decreases c
  {
    match c
    case RemoveInstrument(_, _, _, clips) => FiledClips(clips)
    case RemovePattern(_, _, clips) => FiledClips(clips)
    case RemoveLane(_, _, clips, _) => FiledClips(clips)
    case RemoveTrack(_, _, _, _, clips, audioClips) => FiledClips(clips) && FiledClips(audioClips)
    case Edit(id, _, change) => FiledPart(id, change.Before()) && FiledPart(id, change.After())
    case Composite(cs) => forall i | 0 <= i < |cs| :: Filed(cs[i])
    case _ => true
  }

  // ----- loops shared by the commands --------------------------------------

  method SelectClips(p: Project, wanted: Clip -> bool) returns (found: map<ClipId, Clip>)
    ensures found == Select(p.clips, wanted)
  {
    var ids := p.ClipsWhere(wanted);
    found := map[];
    for i := 0 to |ids|
      invariant found.Keys == set j | 0 <= j < i :: ids[j]
      invariant forall c | c in found :: c in p.clips && found[c] == p.clips[c]
    {
      found := found[ids[i] := p.clips[ids[i]]];
    }
  }

  method PutClipsBack(p: Project, captured: map<ClipId, Clip>)
    requires FiledClips(captured) && FiledClips(p.clips)
    modifies p`clips
    ensures p.clips == RestoreClips(old(p.clips), captured) && FiledClips(p.clips)
  {
    var todo := captured.Keys;
    while todo != {}
      invariant todo <= captured.Keys
      invariant p.clips == RestoreClips(old(p.clips), captured - todo)
    {
      var c :| c in todo;
      todo := todo - {c};
      var ok := p.RestoreClip(captured[c]);
    }
  }

  method ResizeClips(p: Project, lengths: map<ClipId, Ticks>)
    requires FiledClips(p.clips)
    modifies p`clips
    ensures p.clips == Resized(old(p.clips), lengths) && FiledClips(p.clips)
  {
    var todo := lengths.Keys;
    while todo != {}
      invariant todo <= lengths.Keys
      invariant p.clips == Resized(old(p.clips), lengths - todo)
    {
      var c :| c in todo;
      todo := todo - {c};
      var length := lengths[c];
      var ok := p.UpdateClip(c, (clip: Clip) => clip.(length := length));
    }
  }

  // ----- removals ----------------------------------------------------------

  method ApplyRemoveInstrument(p: Project, c: Command) returns (ok: bool, c': Command)
    requires c.RemoveInstrument? && FiledClips(p.clips)
    modifies p
    ensures Outcome(ok, c', p.Copy()) == Apply(c, old(p.Copy()))
    ensures FiledClips(p.clips) && (Filed(c) ==> Filed(c'))
  {
    var id := c.instrumentId;
    if id !in p.instruments {
      return false, c;
    }
    var instrument := p.instruments[id];
    var sequences := CaptureSequences(p, id);
    var clips := SelectClips(p, (x: Clip) => AutomatesInstrument(x, id));
    c' := RemoveInstrument(id, Some(instrument), sequences, clips);
    assert c' == CaptureInstrument(p.Copy(), id);
    ok := p.DeleteInstrument(id);
  }

  method CaptureSequences(p: Project, id: InstrumentId) returns (sequences: map<PatternId, NoteBag>)
    ensures sequences == SequencesOf(p.patterns, id)
  {
    sequences := map[];
    var todo := p.patterns.Keys;
    while todo != {}
      invariant todo <= p.patterns.Keys
      invariant sequences.Keys == set q | q in p.patterns && q !in todo && id in p.patterns[q].sequences
      invariant forall q | q in sequences :: sequences[q] == p.patterns[q].sequences[id]
    {
      var q :| q in todo;
      todo := todo - {q};
      if id in p.patterns[q].sequences {
        sequences := sequences[q := p.patterns[q].sequences[id]];
      }
    }
  }

  method RevertRemoveInstrumentOn(p: Project, c: Command) returns (ok: bool)
    requires c.RemoveInstrument? && Filed(c) && FiledClips(p.clips)
    modifies p
    ensures Outcome(ok, c, p.Copy()) == Revert(c, old(p.Copy()))
    ensures FiledClips(p.clips)
  {
    if c.instrument.None? {
      return false;
    }
    ok := p.RestoreInstrument(c.instrument.value);
    if !ok {
      return;
    }
    var todo := c.sequences.Keys;
    while todo != {}
      invariant todo <= c.sequences.Keys
      invariant p.Copy() == old(p.Copy()).(patterns := p.patterns, instruments := p.instruments)
      invariant p.instruments == old(p.instruments)[c.instrument.value.id := c.instrument.value]
      invariant p.patterns ==
        if c.instrumentId in p.instruments
        then PutSequences(old(p.patterns), c.instrumentId, c.sequences - todo) else old(p.patterns)
    {
      var q :| q in todo;
      todo := todo - {q};
      var put := p.RestoreSequence(q, c.instrumentId, c.sequences[q]);
    }
    assert c.sequences - {} == c.sequences;
    PutClipsBack(p, c.clips);
  }

  method PutGroupsBack(p: Project, grouped: set<LaneId>, id: LaneId)
    modifies p`lanes
    ensures p.lanes == Regroup(old(p.lanes), id, grouped)
  {
    var todo := grouped;
    while todo != {}
      invariant todo <= grouped
      invariant p.lanes == Regroup(old(p.lanes), id, grouped - todo)
    {
      var l :| l in todo;
      todo := todo - {l};
      var put := p.UpdateLane(l, (lane: ArrangementLane) => lane.(groupId := Some(id)));
    }
    assert grouped - {} == grouped;
  }

  method RevertRemoveLaneOn(p: Project, c: Command) returns (ok: bool)
    requires c.RemoveLane? && Filed(c) && FiledClips(p.clips)
    modifies p
    ensures Outcome(ok, c, p.Copy()) == Revert(c, old(p.Copy()))
    ensures FiledClips(p.clips)
  {
    if c.lane.None? {
      return false;
    }
    ok := p.RestoreLane(c.lane.value);
    if !ok {
      return;
    }
    PutGroupsBack(p, c.grouped, c.laneId);
    PutClipsBack(p, c.clips);
  }

  method ApplyRemoveLane(p: Project, c: Command) returns (ok: bool, c': Command)
    requires c.RemoveLane? && FiledClips(p.clips)
    modifies p
    ensures Outcome(ok, c', p.Copy()) == Apply(c, old(p.Copy()))
    ensures FiledClips(p.clips) && (Filed(c) ==> Filed(c'))
  {
    var id := c.laneId;
    if id !in p.lanes {
      return false, c;
    }
    var clips := SelectClips(p, (x: Clip) => x.lane == id);
    var grouped: set<LaneId> := {};
    var todo := p.lanes.Keys;
    while todo != {}
      invariant todo <= p.lanes.Keys
      invariant unchanged(p)
      invariant grouped == set l | l in p.lanes && l !in todo && p.lanes[l].groupId == Some(id)
    {
      var l :| l in todo;
      todo := todo - {l};
      if p.lanes[l].groupId == Some(id) {
        grouped := grouped + {l};
      }
    }
    c' := RemoveLane(id, Some(p.lanes[id]), clips, grouped);
    assert c' == CaptureLane(p.Copy(), id);
    ok := p.DeleteLane(id);
  }

  method ApplyRemoveTrack(p: Project, c: Command) returns (ok: bool, c': Command)
    requires c.RemoveTrack? && FiledClips(p.clips)
    modifies p
    ensures Outcome(ok, c', p.Copy()) == Apply(c, old(p.Copy()))
    ensures FiledClips(p.clips) && (Filed(c) ==> Filed(c'))
  {
    var id := c.trackId;
    if id !in p.tracks {
      return false, c;
    }
    var routings := CaptureRoutings(p, id);
    var inputs := CaptureInputs(p, id);
    var clips := SelectClips(p, (x: Clip) => AutomatesTrack(x, id));
    var audioClips := SelectClips(p, (x: Clip) => PlaysInto(x, id));
    c' := RemoveTrack(id, Some(p.tracks[id]), routings, inputs, clips, audioClips);
    assert c' == CaptureTrack(p.Copy(), id);
    ok := p.DeleteMixerTrack(id);
  }

  method CaptureRoutings(p: Project, id: TrackId) returns (routings: map<InstrumentId, seq<OutputRoute>>)
    ensures routings == RoutingsInto(p.instruments, id)
  {
    routings := map[];
    var todo := p.instruments.Keys;
    while todo != {}
      invariant todo <= p.instruments.Keys
      invariant routings.Keys == set i | i in p.instruments && i !in todo && RoutesInto(p.instruments[i], id)
      invariant forall i | i in routings :: routings[i] == p.instruments[i].routing
    {
      var i :| i in todo;
      todo := todo - {i};
      if RoutesInto(p.instruments[i], id) {
        routings := routings[i := p.instruments[i].routing];
      }
    }
  }

  method CaptureInputs(p: Project, id: TrackId) returns (inputs: set<TrackId>)
    ensures inputs == set k | k in p.tracks && p.tracks[k].output == Some(id)
  {
    inputs := {};
    var todo := p.tracks.Keys;
    while todo != {}
      invariant todo <= p.tracks.Keys
      invariant inputs == set k | k in p.tracks && k !in todo && p.tracks[k].output == Some(id)
    {
      var k :| k in todo;
      todo := todo - {k};
      if p.tracks[k].output == Some(id) {
        inputs := inputs + {k};
      }
    }
  }

  method RevertRemoveTrackOn(p: Project, c: Command) returns (ok: bool)
    requires c.RemoveTrack? && Filed(c) && FiledClips(p.clips)
    modifies p
    ensures Outcome(ok, c, p.Copy()) == Revert(c, old(p.Copy()))
    ensures FiledClips(p.clips)
  {
    if c.track.None? {
      return false;
    }
    ok := p.RestoreMixerTrack(c.track.value);
    if !ok {
      return;
    }
    PutRoutingsBack(p, c.routings);
    PutInputsBack(p, c.inputs, c.trackId);
    PutAudioBack(p, c.audioClips);
    PutClipsBack(p, c.clips);
  }

  method PutRoutingsBack(p: Project, routings: map<InstrumentId, seq<OutputRoute>>)
    modifies p`instruments
    ensures p.instruments == PutRoutings(old(p.instruments), routings)
  {
    var todo := routings.Keys;
    while todo != {}
      invariant todo <= routings.Keys
      invariant p.instruments == PutRoutings(old(p.instruments), routings - todo)
    {
      var i :| i in todo;
      todo := todo - {i};
      var routing := routings[i];
      var put := p.UpdateInstrument(i, (x: Instrument) => x.(routing := routing));
    }
    assert routings - {} == routings;
  }

  method PutInputsBack(p: Project, inputs: set<TrackId>, id: TrackId)
    modifies p`tracks
    ensures p.tracks == PutInputs(old(p.tracks), inputs, id)
  {
    var todo := inputs;
    while todo != {}
      invariant todo <= inputs
      invariant p.tracks == PutInputs(old(p.tracks), inputs - todo, id)
    {
      var k :| k in todo;
      todo := todo - {k};
      var put := p.UpdateMixerTrack(k, (x: MixerTrack) => x.(output := Some(id)));
    }
    assert inputs - {} == inputs;
  }

  method PutAudioBack(p: Project, audioClips: map<ClipId, Clip>)
    requires FiledClips(audioClips) && FiledClips(p.clips)
    modifies p`clips
    ensures p.clips == PutClips(old(p.clips), audioClips) && FiledClips(p.clips)
  {
    var todo := audioClips.Keys;
    while todo != {}
      invariant todo <= audioClips.Keys
      invariant p.clips == PutClips(old(p.clips), audioClips - todo)
    {
      var k :| k in todo;
      todo := todo - {k};
      var clip := audioClips[k];
      var put := p.UpdateClip(clip.id, (x: Clip) => clip);
    }
    assert audioClips - {} == audioClips;
  }

  // ----- notes -------------------------------------------------------------

  /** The notes of a bag as a vector, in some order. */
  method Listed(bag: NoteBag) returns (notes: seq<Note>)
    ensures multiset(notes) == bag
  {
    notes := [];
    var todo := bag;
    while todo != multiset{}
      invariant todo <= bag
      invariant multiset(notes) == bag - todo
      decreases |todo|
    {
      var n :| n in todo;
      todo := todo - multiset{n};
      notes := notes + [n];
    }
  }

  method EditSequenceOn(p: Project, pattern: PatternId, instrument: InstrumentId,
                        take: seq<Note>, give: seq<Note>) returns (ok: bool)
    modifies p`patterns
    ensures ok == EditSequence(old(p.Copy()), pattern, instrument, take, give).Some?
    ensures p.Copy() == if ok then EditSequence(old(p.Copy()), pattern, instrument, take, give).value
                        else old(p.Copy())
  {
    if pattern !in p.patterns || instrument !in p.instruments {
      return false;
    }
    var current := Listed(NotesOf(p.patterns[pattern], instrument));
    var edited := NoteSequences.EditSequence(current, take, give);
    if edited.None? {
      return false;
    }
    ok := p.RestoreSequence(pattern, instrument, multiset(edited.value));
  }

  /** Clips exactly as long as the pattern was become as long as it is; returns what they were. */
  method FollowPatternLength(p: Project, pattern: PatternId, before: Ticks) returns (moved: map<ClipId, Ticks>)
    requires FiledClips(p.clips)
    modifies p`clips
    ensures moved == Moved(old(p.Copy()), pattern, before)
    ensures p.Copy() == Follow(old(p.Copy()), pattern, before) && FiledClips(p.clips)
  {
    moved := map[];
    if pattern !in p.patterns {
      return;
    }
    var after := p.EffectiveLengthOf(p.patterns[pattern]);
    moved := FollowLength(p, pattern, before, after);
  }

  method FollowLength(p: Project, pattern: PatternId, before: Ticks, after: Ticks)
    returns (moved: map<ClipId, Ticks>)
    requires FiledClips(p.clips)
    modifies p`clips
    ensures moved == MovedTo(old(p.Copy()), pattern, before, after)
    ensures p.Copy() == FollowTo(old(p.Copy()), pattern, before, after) && FiledClips(p.clips)
  {
    if after == before || after <= 0 {
      assert Stretched(p.clips, {}, after) == p.clips;
      return map[];
    }
    moved := MoveFollowers(p, pattern, before, after);
  }

  method MoveFollowers(p: Project, pattern: PatternId, before: Ticks, after: Ticks)
    returns (moved: map<ClipId, Ticks>)
    requires FiledClips(p.clips) && before != after
    modifies p`clips
    ensures moved == Followers(old(p.Copy()), pattern, before)
    ensures p.clips == Stretched(old(p.clips), moved.Keys, after) && FiledClips(p.clips)
  {
    moved := map[];
    var users := p.ClipsWhere((c: Clip) => UsesPattern(c, pattern));
    for i := 0 to |users|
      invariant p.clips.Keys == old(p.clips).Keys
      invariant moved.Keys == set c | c in users[..i] && old(p.clips)[c].length == before
      invariant forall c | c in moved :: moved[c] == before
      invariant p.clips == Stretched(old(p.clips), moved.Keys, after)
    {
      var c := users[i];
      assert users[..i + 1] == users[..i] + [c] && c !in users[..i];
      if p.clips[c].length == before {
        var put := p.UpdateClip(c, (x: Clip) => x.(length := after));
        moved := moved[c := before];
      }
    }
    assert users[..|users|] == users;
    assert moved.Keys == Followers(old(p.Copy()), pattern, before).Keys;
  }

  method ApplyNoteEdit(p: Project, c: Command) returns (ok: bool, c': Command)
    requires c.NoteEdit? && FiledClips(p.clips)
    modifies p
    ensures Outcome(ok, c', p.Copy()) == Apply(c, old(p.Copy()))
    ensures FiledClips(p.clips)
  {
    c' := c;
    if c.patternId !in p.patterns {
      return false, c;
    }
    var before := p.EffectiveLengthOf(p.patterns[c.patternId]);
    ok := EditSequenceOn(p, c.patternId, c.instrumentId, c.removed, c.added);
    if ok {
      var moved := FollowPatternLength(p, c.patternId, before);
      c' := c.(resized := moved);
    }
  }

  method RevertNoteEdit(p: Project, c: Command) returns (ok: bool, c': Command)
    requires c.NoteEdit? && FiledClips(p.clips)
    modifies p
    ensures Outcome(ok, c', p.Copy()) == Revert(c, old(p.Copy()))
    ensures FiledClips(p.clips)
  {
    c' := c;
    ok := EditSequenceOn(p, c.patternId, c.instrumentId, c.added, c.removed);
    if ok {
      ResizeClips(p, c.resized);
      c' := c.(resized := map[]);
    }
  }

  // ----- transport ---------------------------------------------------------

  method RescaleAudioClips(p: Project, fromTempo: real, toTempo: real) returns (original: map<ClipId, Ticks>)
    requires FiledClips(p.clips)
    modifies p`clips
    ensures original == OriginalLengths(old(p.clips), fromTempo, toTempo)
    ensures p.clips == Rescaled(old(p.clips), fromTempo, toTempo) && FiledClips(p.clips)
  {
    original := map[];
    if fromTempo <= 0.0 || toTempo <= 0.0 || fromTempo == toTempo {
      return;
    }
    var resized: map<ClipId, Ticks> := map[];
    var todo := p.clips.Keys;
    while todo != {}
      invariant todo <= p.clips.Keys
      invariant unchanged(p)
      invariant original.Keys == set c | c in AudioLengths(p.clips) && c !in todo
      invariant forall c | c in original :: original[c] == p.clips[c].length
      invariant resized.Keys <= original.Keys
      invariant forall c | c in original ::
        Rescale(p.clips[c].length, fromTempo, toTempo) ==
          if c in resized then resized[c] else p.clips[c].length
    {
      var c :| c in todo;
      todo := todo - {c};
      if p.clips[c].source.AudioSource? && 0 < p.clips[c].length {
        original := original[c := p.clips[c].length];
        var length := Rescale(p.clips[c].length, fromTempo, toTempo);
        if length != p.clips[c].length {
          resized := resized[c := length];
        }
      }
    }
    ResizeClips(p, resized);
  }

  // ----- one command -------------------------------------------------------

  method InsertEntity(p: Project, e: Entity) returns (ok: bool)
    requires FiledClips(p.clips)
    modifies p
    ensures ok == Insert(old(p.Copy()), e).Some?
    ensures p.Copy() == if ok then Insert(old(p.Copy()), e).value else old(p.Copy())
    ensures FiledClips(p.clips)
  {
    match e {
      case AnInstrument(i) => ok := p.RestoreInstrument(i);
      case APattern(x) => ok := p.RestorePattern(x);
      case ALane(l) => ok := p.RestoreLane(l);
      case AClip(c) => ok := p.RestoreClip(c);
      case ATrack(k) => ok := p.RestoreMixerTrack(k);
    }
  }

  method DeleteEntity(p: Project, e: Entity) returns (ok: bool)
    requires FiledClips(p.clips)
    modifies p
    ensures ok == Delete(old(p.Copy()), e).Some?
    ensures p.Copy() == if ok then Delete(old(p.Copy()), e).value else old(p.Copy())
    ensures FiledClips(p.clips)
  {
    match e {
      case AnInstrument(i) => ok := p.DeleteInstrument(i.id);
      case APattern(x) => ok := p.DeletePattern(x.id);
      case ALane(l) => ok := p.DeleteLane(l.id);
      case AClip(c) => ok := p.DeleteClip(c.id);
      case ATrack(k) => ok := p.DeleteMixerTrack(k.id);
    }
  }

  method WritePart(p: Project, id: nat, part: Part) returns (ok: bool)
    requires FiledClips(p.clips) && FiledPart(id, part)
    modifies p
    ensures ok == Write(old(p.Copy()), id, part).Some?
    ensures p.Copy() == if ok then Write(old(p.Copy()), id, part).value else old(p.Copy())
    ensures FiledClips(p.clips)
  {
    match part {
      case InstrumentPart(i) => ok := p.UpdateInstrument(id, (x: Instrument) => i);
      case PatternPart(m) => ok := p.UpdatePattern(id, (x: Pattern) => x.(meta := m));
      case LanePart(l) => ok := p.UpdateLane(id, (x: ArrangementLane) => l);
      case ClipPart(c) => ok := p.UpdateClip(id, (x: Clip) => c);
      case TrackPart(k) => ok := p.UpdateMixerTrack(id, (x: MixerTrack) => k);
    }
  }

  method WriteParamOn(p: Project, track: TrackId, effect: EffectId, parameter: ParamId, value: Option<real>)
    returns (ok: bool)
    modifies p`tracks
    ensures ok == WriteParam(old(p.Copy()), track, effect, parameter, value).Some?
    ensures p.Copy() ==
      if ok then WriteParam(old(p.Copy()), track, effect, parameter, value).value else old(p.Copy())
  {
    ok := p.UpdateMixerTrack(track, (k: MixerTrack) => WithParam(k, effect, parameter, value));
  }

  method ApplyRemovePattern(p: Project, c: Command) returns (ok: bool, c': Command)
    requires c.RemovePattern? && FiledClips(p.clips)
    modifies p
    ensures Outcome(ok, c', p.Copy()) == Apply(c, old(p.Copy()))
    ensures FiledClips(p.clips) && (Filed(c) ==> Filed(c'))
  {
    var id := c.patternId;
    if id !in p.patterns {
      return false, c;
    }
    var clips := SelectClips(p, (x: Clip) => UsesPattern(x, id));
    c' := RemovePattern(id, Some(p.patterns[id]), clips);
    ok := p.DeletePattern(id);
  }

  method RevertRemovePatternOn(p: Project, c: Command) returns (ok: bool)
    requires c.RemovePattern? && Filed(c) && FiledClips(p.clips)
    modifies p
    ensures Outcome(ok, c, p.Copy()) == Revert(c, old(p.Copy()))
    ensures FiledClips(p.clips)
  {
    if c.pattern.None? {
      return false;
    }
    ok := p.RestorePattern(c.pattern.value);
    if ok {
      PutClipsBack(p, c.clips);
    }
  }

  method RevertCommand(p: Project, c: Command) returns (ok: bool, c': Command)
    requires Filed(c) && FiledClips(p.clips)
    modifies p
    ensures Outcome(ok, c', p.Copy()) == Revert(c, old(p.Copy()))
    ensures Filed(c') && FiledClips(p.clips)
    decreases c
  {
    c' := c;
    match c {
      case Add(e) => ok := DeleteEntity(p, e);
      case RemoveInstrument(_, _, _, _) => ok := RevertRemoveInstrumentOn(p, c);
      case RemovePattern(_, _, _) => ok := RevertRemovePatternOn(p, c);
      case RemoveLane(_, _, _, _) => ok := RevertRemoveLaneOn(p, c);
      case RemoveClip(_, clip) =>
        ok := false;
        if clip.Some? {
          ok := InsertEntity(p, AClip(clip.value));
        }
      case RemoveTrack(_, _, _, _, _, _) => ok := RevertRemoveTrackOn(p, c);
      case Edit(id, _, change) => ok := WritePart(p, id, change.Before());
      case EffectParam(track, effect, parameter, was, _) => ok := WriteParamOn(p, track, effect, parameter, was);
      case NoteEdit(_, _, _, _, _, _) => ok, c' := RevertNoteEdit(p, c);
      case SetTransport(from, _, lengths) =>
        p.SetTransport(from);
        ResizeClips(p, lengths);
        ok, c' := true, c.(originalLengths := map[]);
      case SetMeta(from, _) =>
        p.SetMeta(from);
        ok := true;
      case Composite(cs) =>
        var reverted;
        ok, reverted := RevertCommands(p, cs);
        c' := Composite(reverted);
    }
  }

  /** Reverts in reverse order and stops at a failure. */
  method RevertCommands(p: Project, cs: seq<Command>) returns (ok: bool, reverted: seq<Command>)
    requires FiledClips(p.clips) && forall i | 0 <= i < |cs| :: Filed(cs[i])
    modifies p
    ensures ListOutcome(ok, reverted, p.Copy()) == RevertAll(cs, old(p.Copy()))
    ensures FiledClips(p.clips) && forall i | 0 <= i < |reverted| :: Filed(reverted[i])
    decreases cs
  {
    reverted := [];
    var i := |cs|;
    assert cs[..i] == cs;
    while 0 < i
      invariant 0 <= i <= |cs| && |reverted| == |cs| - i
      invariant FiledClips(p.clips) && forall k | 0 <= k < |reverted| :: Filed(reverted[k])
      invariant RevertAll(cs, old(p.Copy())) == Followed(RevertAll(cs[..i], p.Copy()), reverted)
    {
      var done, c := RevertCommand(p, cs[i - 1]);
      assert cs[..i][..i - 1] == cs[..i - 1];
      if !done {
        return false, cs[..i - 1] + [c] + reverted;
      }
      FollowedStep(RevertAll(cs[..i - 1], p.Copy()), c, reverted);
      reverted := [c] + reverted;
      i := i - 1;
    }
    return true, reverted;
  }

  /** The outcome on the commands before, followed by commands already dealt with. */
  function Followed(r: ListOutcome, rest: seq<Command>): ListOutcome {
    ListOutcome(r.ok, r.commands + rest, r.tables)
  }

  lemma FollowedStep(r: ListOutcome, c: Command, rest: seq<Command>)
    ensures Followed(ListOutcome(r.ok, r.commands + [c], r.tables), rest) == Followed(r, [c] + rest)
  {
    assert (r.commands + [c]) + rest == r.commands + ([c] + rest);
  }

  /** Reverts in reverse order, whatever each command reports. */
  method RollBackCommands(p: Project, cs: seq<Command>) returns (reverted: seq<Command>)
    requires FiledClips(p.clips) && forall i | 0 <= i < |cs| :: Filed(cs[i])
    modifies p
    ensures ListOutcome(true, reverted, p.Copy()) == RollBack(cs, old(p.Copy()))
    ensures FiledClips(p.clips) && forall i | 0 <= i < |reverted| :: Filed(reverted[i])
  {
    reverted := [];
    var i := |cs|;
    assert cs[..i] == cs;
    while 0 < i
      invariant 0 <= i <= |cs| && |reverted| == |cs| - i
      invariant FiledClips(p.clips) && forall k | 0 <= k < |reverted| :: Filed(reverted[k])
      invariant RollBack(cs, old(p.Copy())) == Followed(RollBack(cs[..i], p.Copy()), reverted)
    {
      var done, c := RevertCommand(p, cs[i - 1]);
      assert cs[..i][..i - 1] == cs[..i - 1];
      FollowedStep(RollBack(cs[..i - 1], p.Copy()), c, reverted);
      reverted := [c] + reverted;
      i := i - 1;
    }
  }

  method ApplyCommand(p: Project, c: Command) returns (ok: bool, c': Command)
    requires Filed(c) && FiledClips(p.clips)
    modifies p
    ensures Outcome(ok, c', p.Copy()) == Apply(c, old(p.Copy()))
    ensures Filed(c') && FiledClips(p.clips)
    decreases c
  {
    c' := c;
    match c {
      case Add(e) => ok := InsertEntity(p, e);
      case RemoveInstrument(_, _, _, _) => ok, c' := ApplyRemoveInstrument(p, c);
      case RemovePattern(_, _, _) => ok, c' := ApplyRemovePattern(p, c);
      case RemoveLane(_, _, _, _) => ok, c' := ApplyRemoveLane(p, c);
      case RemoveClip(id, _) =>
        ok := id in p.clips;
        if ok {
          c' := CaptureClip(p.Copy(), id);
          ok := p.DeleteClip(id);
        }
      case RemoveTrack(_, _, _, _, _, _) => ok, c' := ApplyRemoveTrack(p, c);
      case Edit(id, _, change) => ok := WritePart(p, id, change.After());
      case EffectParam(track, effect, parameter, _, now) =>
        ok := WriteParamOn(p, track, effect, parameter, Some(now));
      case NoteEdit(_, _, _, _, _, _) => ok, c' := ApplyNoteEdit(p, c);
      case SetTransport(from, to, _) =>
        p.SetTransport(to);
        var lengths := RescaleAudioClips(p, from.tempo, to.tempo);
        ok, c' := true, c.(originalLengths := lengths);
      case SetMeta(_, to) =>
        p.SetMeta(to);
        ok := true;
      case Composite(cs) =>
        var applied;
        ok, applied := ApplyCommands(p, cs);
        c' := Composite(applied);
    }
  }

  /** Applies in order; a failure rolls back what did apply. */
  method ApplyCommands(p: Project, cs: seq<Command>) returns (ok: bool, applied: seq<Command>)
    requires FiledClips(p.clips) && forall i | 0 <= i < |cs| :: Filed(cs[i])
    modifies p
    ensures ListOutcome(ok, applied, p.Copy()) == ApplyAll(cs, old(p.Copy()))
    ensures FiledClips(p.clips) && forall i | 0 <= i < |applied| :: Filed(applied[i])
    decreases cs
  {
    applied := [];
    for i := 0 to |cs|
      invariant FiledClips(p.clips) && forall k | 0 <= k < |applied| :: Filed(applied[k])
      invariant ApplyAll(cs[..i], old(p.Copy())) == ListOutcome(true, applied, p.Copy())
    {
      var done, c := ApplyCommand(p, cs[i]);
      ApplyAllStep(cs, i, old(p.Copy()));
      if !done {
        var back := RollBackCommands(p, applied);
        FailedStaysFailed(cs, i + 1, old(p.Copy()));
        return false, back + [c] + cs[i + 1..];
      }
      applied := applied + [c];
    }
    assert cs[..|cs|] == cs;
    return true, applied;
  }

  /** What applying one more command means. */
  lemma {:induction false} ApplyAllStep(cs: seq<Command>, i: nat, t: Tables)
    requires i < |cs| && ApplyAll(cs[..i], t).ok
    ensures var r := ApplyAll(cs[..i], t); var o := Apply(cs[i], r.tables);
      ApplyAll(cs[..i + 1], t) ==
        if o.ok then ListOutcome(true, r.commands + [o.command], o.tables)
        else
          var b := RollBack(r.commands, o.tables);
          ListOutcome(false, b.commands + [o.command], b.tables)
  {
    assert cs[..i + 1][..i] == cs[..i];
  }

  lemma {:induction false} FailedStaysFailed(cs: seq<Command>, k: nat, t: Tables)
    requires k <= |cs| && !ApplyAll(cs[..k], t).ok
    ensures ApplyAll(cs, t) == Followed(ApplyAll(cs[..k], t), cs[k..])
    decreases |cs| - k
  {
    if k == |cs| {
      assert cs[..k] == cs;
    } else {
      assert cs[..k + 1][..k] == cs[..k];
      FailedStaysFailed(cs, k + 1, t);
      FollowedStep(ApplyAll(cs[..k], t), cs[k], cs[k + 1..]);
      assert [cs[k]] + cs[k + 1..] == cs[k..];
    }
  }
}
