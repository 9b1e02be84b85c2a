/**
 The commands of the edit history. A command object has one owner and moves between the history's
 stacks, so it is a value here: applying or reverting one yields the command with its newly captured
 inverse, and the new project contents. The methods of `CommandSteps` perform the same steps on a
 live `Project`.
 */
module Commands {
  import opened Options
  import opened Notes
  import opened Entities
  import opened Cascades
  import TimeMaps

  /** What an add command inserts. */
  datatype Entity =
    | AnInstrument(instrument: Instrument)
    | APattern(pattern: Pattern)
    | ALane(lane: ArrangementLane)
    | AClip(clip: Clip)
    | ATrack(track: MixerTrack)

  /** What an edit command writes: a whole entity, except that a pattern keeps its notes. */
  datatype Part =
    | InstrumentPart(instrument: Instrument)
    | PatternPart(meta: PatternMeta)
    | LanePart(lane: ArrangementLane)
    | ClipPart(clip: Clip)
    | TrackPart(track: MixerTrack)

  /** The two values of an edit, of the same kind. */
  datatype Change =
    | InstrumentChange(oldInstrument: Instrument, newInstrument: Instrument)
    | PatternChange(oldMeta: PatternMeta, newMeta: PatternMeta)
    | LaneChange(oldLane: ArrangementLane, newLane: ArrangementLane)
    | ClipChange(oldClip: Clip, newClip: Clip)
    | TrackChange(oldTrack: MixerTrack, newTrack: MixerTrack)
  {
    function Before(): Part {
      match this
      case InstrumentChange(x, _) => InstrumentPart(x)
      case PatternChange(x, _) => PatternPart(x)
      case LaneChange(x, _) => LanePart(x)
      case ClipChange(x, _) => ClipPart(x)
      case TrackChange(x, _) => TrackPart(x)
    }

    function After(): Part {
      match this
      case InstrumentChange(_, x) => InstrumentPart(x)
      case PatternChange(_, x) => PatternPart(x)
      case LaneChange(_, x) => LanePart(x)
      case ClipChange(_, x) => ClipPart(x)
      case TrackChange(_, x) => TrackPart(x)
    }

    /** The change from this one's old value to the new value of `next`, for changes of one kind. */
    function Join(next: Change): Option<Change> {
      match (this, next)
      case (InstrumentChange(x, _), InstrumentChange(_, y)) => Some(InstrumentChange(x, y))
      case (PatternChange(x, _), PatternChange(_, y)) => Some(PatternChange(x, y))
      case (LaneChange(x, _), LaneChange(_, y)) => Some(LaneChange(x, y))
      case (ClipChange(x, _), ClipChange(_, y)) => Some(ClipChange(x, y))
      case (TrackChange(x, _), TrackChange(_, y)) => Some(TrackChange(x, y))
      case _ => None
    }
  }

  datatype Command =
    | Add(entity: Entity)
    | RemoveInstrument(instrumentId: InstrumentId, instrument: Option<Instrument>,
                       sequences: map<PatternId, NoteBag>, clips: map<ClipId, Clip>)
    | RemovePattern(patternId: PatternId, pattern: Option<Pattern>, clips: map<ClipId, Clip>)
    | RemoveLane(laneId: LaneId, lane: Option<ArrangementLane>, clips: map<ClipId, Clip>, grouped: set<LaneId>)
    | RemoveClip(clipId: ClipId, clip: Option<Clip>)
    | RemoveTrack(trackId: TrackId, track: Option<MixerTrack>, routings: map<InstrumentId, seq<OutputRoute>>,
                  inputs: set<TrackId>, clips: map<ClipId, Clip>, audioClips: map<ClipId, Clip>)
    | Edit(id: nat, field: string, change: Change)
    | EffectParam(track_: TrackId, effect: EffectId, parameter: ParamId, was: Option<real>, now: real)
    | NoteEdit(patternId: PatternId, instrumentId: InstrumentId, removed: seq<Note>, added: seq<Note>,
               coalescable: bool, resized: map<ClipId, Ticks>)
    | SetTransport(from: TransportState, to: TransportState, originalLengths: map<ClipId, Ticks>)
    | SetMeta(fromMeta: ProjectMeta, toMeta: ProjectMeta)
    | Composite(commands: seq<Command>)

  datatype Outcome = Outcome(ok: bool, command: Command, tables: Tables)

  datatype ListOutcome = ListOutcome(ok: bool, commands: seq<Command>, tables: Tables)

  // ----- inserting and deleting --------------------------------------------

  function Insert(t: Tables, e: Entity): Option<Tables> {
    match e
    case AnInstrument(i) =>
      if i.id == UNSET || i.id in t.instruments then None
      else Some(t.(instruments := t.instruments[i.id := i]))
    case APattern(p) =>
      if p.id == UNSET || p.id in t.patterns then None
      else Some(t.(patterns := t.patterns[p.id := p]))
    case ALane(l) =>
      if l.id == UNSET || l.id in t.lanes then None
      else Some(t.(lanes := t.lanes[l.id := l]))
    case AClip(c) =>
      if c.id == UNSET || c.id in t.clips then None
      else Some(t.(clips := t.clips[c.id := c]))
    case ATrack(k) =>
      if k.id == UNSET || k.id in t.tracks then None
      else Some(t.(tracks := t.tracks[k.id := k]))
  }

  /** The cascading deletion of an entity of the same kind and identifier. */
  function Delete(t: Tables, e: Entity): Option<Tables> {
    match e
    case AnInstrument(i) => if i.id in t.instruments then Some(WithoutInstrument(t, i.id)) else None
    case APattern(p) => if p.id in t.patterns then Some(WithoutPattern(t, p.id)) else None
    case ALane(l) => if l.id in t.lanes then Some(WithoutLane(t, l.id)) else None
    case AClip(c) => if c.id in t.clips then Some(WithoutClip(t, c.id)) else None
    case ATrack(k) => if k.id != t.master && k.id in t.tracks then Some(WithoutTrack(t, k.id)) else None
  }

  /** Clips come back under the identifiers they had; a live clip is never overwritten. */
  function RestoreClips(live: map<ClipId, Clip>, captured: map<ClipId, Clip>): map<ClipId, Clip> {
    (captured - {UNSET}) + live
  }

  function Select(m: map<ClipId, Clip>, wanted: Clip -> bool): map<ClipId, Clip> {
    m - (set c | c in m && !wanted(m[c]))
  }

  // ----- removals ----------------------------------------------------------

  /** The sequence each pattern holds for an instrument, for the patterns that hold one. */
  function SequencesOf(patterns: map<PatternId, Pattern>, id: InstrumentId): map<PatternId, NoteBag> {
    (map p | p in patterns :: NotesOf(patterns[p], id)) - (set p | p in patterns && id !in patterns[p].sequences)
  }

  function CaptureInstrument(t: Tables, id: InstrumentId): Command
    requires id in t.instruments
  {
    RemoveInstrument(id, Some(t.instruments[id]),
                     SequencesOf(t.patterns, id),
                     Select(t.clips, (c: Clip) => AutomatesInstrument(c, id)))
  }

  function PutSequences(patterns: map<PatternId, Pattern>, id: InstrumentId,
                        sequences: map<PatternId, NoteBag>): map<PatternId, Pattern> {
    map p | p in patterns :: if p in sequences then WithSequence(patterns[p], id, sequences[p]) else patterns[p]
  }

  function RevertRemoveInstrument(t: Tables, c: Command): Option<Tables>
    requires c.RemoveInstrument?
  {
    if c.instrument.None? then None
    else
      match Insert(t, AnInstrument(c.instrument.value))
      case None => None
      case Some(r) =>
        Some(r.(patterns := if c.instrumentId in r.instruments
                            then PutSequences(t.patterns, c.instrumentId, c.sequences) else t.patterns,
                clips := RestoreClips(t.clips, c.clips)))
  }

  function CapturePattern(t: Tables, id: PatternId): Command
    requires id in t.patterns
  {
    RemovePattern(id, Some(t.patterns[id]), Select(t.clips, (c: Clip) => UsesPattern(c, id)))
  }

  function RevertRemovePattern(t: Tables, c: Command): Option<Tables>
    requires c.RemovePattern?
  {
    if c.pattern.None? then None
    else
      match Insert(t, APattern(c.pattern.value))
      case None => None
      case Some(r) => Some(r.(clips := RestoreClips(t.clips, c.clips)))
  }

  function CaptureLane(t: Tables, id: LaneId): Command
    requires id in t.lanes
  {
    RemoveLane(id, Some(t.lanes[id]), Select(t.clips, (c: Clip) => c.lane == id),
               set l | l in t.lanes && t.lanes[l].groupId == Some(id))
  }

  function Regroup(lanes: map<LaneId, ArrangementLane>, id: LaneId, grouped: set<LaneId>):
    map<LaneId, ArrangementLane>
  {
    map l | l in lanes :: if l in grouped then lanes[l].(groupId := Some(id)) else lanes[l]
  }

  function RevertRemoveLane(t: Tables, c: Command): Option<Tables>
    requires c.RemoveLane?
  {
    if c.lane.None? then None
    else
      match Insert(t, ALane(c.lane.value))
      case None => None
      case Some(r) =>
        Some(r.(lanes := Regroup(r.lanes, c.laneId, c.grouped), clips := RestoreClips(t.clips, c.clips)))
  }

  function CaptureClip(t: Tables, id: ClipId): Command
    requires id in t.clips
  {
    RemoveClip(id, Some(t.clips[id]))
  }

  predicate RoutesInto(i: Instrument, id: TrackId) {
    exists k | 0 <= k < |i.routing| :: i.routing[k].track == id
  }

  /** The routing of every instrument that routes into a track. */
  function RoutingsInto(instruments: map<InstrumentId, Instrument>, id: TrackId): map<InstrumentId, seq<OutputRoute>> {
    (map i | i in instruments :: instruments[i].routing) -
      (set i | i in instruments && !RoutesInto(instruments[i], id))
  }

  function CaptureTrack(t: Tables, id: TrackId): Command
    requires id in t.tracks
  {
    RemoveTrack(id, Some(t.tracks[id]),
                RoutingsInto(t.instruments, id),
                (set k | k in t.tracks && t.tracks[k].output == Some(id)),
                Select(t.clips, (c: Clip) => AutomatesTrack(c, id)),
                Select(t.clips, (c: Clip) => PlaysInto(c, id)))
  }

  function PutRoutings(instruments: map<InstrumentId, Instrument>,
                       routings: map<InstrumentId, seq<OutputRoute>>): map<InstrumentId, Instrument> {
    map i | i in instruments :: if i in routings then instruments[i].(routing := routings[i]) else instruments[i]
  }

  function PutInputs(tracks: map<TrackId, MixerTrack>, inputs: set<TrackId>, id: TrackId):
    map<TrackId, MixerTrack>
  {
    map k | k in tracks :: if k in inputs then tracks[k].(output := Some(id)) else tracks[k]
  }

  function PutClips(clips: map<ClipId, Clip>, before: map<ClipId, Clip>): map<ClipId, Clip> {
    map c | c in clips :: if c in before then before[c] else clips[c]
  }

  function RevertRemoveTrack(t: Tables, c: Command): Option<Tables>
    requires c.RemoveTrack?
  {
    if c.track.None? then None
    else
      match Insert(t, ATrack(c.track.value))
      case None => None
      case Some(r) =>
        Some(r.(instruments := PutRoutings(t.instruments, c.routings),
                tracks := PutInputs(r.tracks, c.inputs, c.trackId),
                clips := RestoreClips(PutClips(t.clips, c.audioClips), c.clips)))
  }

  // ----- edits -------------------------------------------------------------

  function Write(t: Tables, id: nat, part: Part): Option<Tables> {
    match part
    case InstrumentPart(i) =>
      if id in t.instruments then Some(t.(instruments := t.instruments[id := i])) else None
    case PatternPart(m) =>
      if id in t.patterns then Some(t.(patterns := t.patterns[id := t.patterns[id].(meta := m)])) else None
    case LanePart(l) =>
      if id in t.lanes then Some(t.(lanes := t.lanes[id := l])) else None
    case ClipPart(c) =>
      if id in t.clips then Some(t.(clips := t.clips[id := c])) else None
    case TrackPart(k) =>
      if id in t.tracks then Some(t.(tracks := t.tracks[id := k])) else None
  }

  function PutParam(params: map<ParamId, real>, parameter: ParamId, value: Option<real>): map<ParamId, real> {
    if value.Some? then params[parameter := value.value] else params - {parameter}
  }

  function WithParam(k: MixerTrack, effect: EffectId, parameter: ParamId, value: Option<real>): MixerTrack {
    var at := IndexOfEffect(k.effects, effect);
    if at == |k.effects| then k
    else
      var slot := k.effects[at].(params := PutParam(k.effects[at].params, parameter, value));
      k.(effects := k.effects[at := slot])
  }

  function WriteParam(t: Tables, track: TrackId, effect: EffectId, parameter: ParamId, value: Option<real>):
    Option<Tables>
  {
    if track in t.tracks
    then Some(t.(tracks := t.tracks[track := WithParam(t.tracks[track], effect, parameter, value)]))
    else None
  }

  // ----- notes -------------------------------------------------------------

  function NotesOf(p: Pattern, i: InstrumentId): NoteBag {
    if i in p.sequences then p.sequences[i] else multiset{}
  }

  /** Takes `take` out and puts `give` in; fails when a note to take is absent or one to give is invalid. */
  function Edited(current: NoteBag, take: seq<Note>, give: seq<Note>): Option<NoteBag> {
    if multiset(take) <= current && AllValid(give)
    then Some(current - multiset(take) + multiset(give))
    else None
  }

  function EditSequence(t: Tables, p: PatternId, i: InstrumentId, take: seq<Note>, give: seq<Note>):
    Option<Tables>
  {
    if p !in t.patterns || i !in t.instruments then None
    else
      match Edited(NotesOf(t.patterns[p], i), take, give)
      case None => None
      case Some(notes) => Some(t.(patterns := t.patterns[p := WithSequence(t.patterns[p], i, notes)]))
  }

  function Lengths(clips: map<ClipId, Clip>): map<ClipId, Ticks> {
    map c | c in clips :: clips[c].length
  }

  /** The clips a length change drags along: those exactly as long as the pattern was. */
  function Followers(t: Tables, p: PatternId, before: Ticks): map<ClipId, Ticks> {
    Lengths(t.clips) - (set c | c in t.clips && !(UsesPattern(t.clips[c], p) && t.clips[c].length == before))
  }

  function MovedTo(t: Tables, p: PatternId, before: Ticks, after: Ticks): map<ClipId, Ticks> {
    if after == before || after <= 0 then map[] else Followers(t, p, before)
  }

  ghost function Moved(t: Tables, p: PatternId, before: Ticks): map<ClipId, Ticks> {
    if p !in t.patterns then map[] else MovedTo(t, p, before, PatternEffectiveLength(t.patterns[p]))
  }

  function Resized(clips: map<ClipId, Clip>, lengths: map<ClipId, Ticks>): map<ClipId, Clip> {
    map c | c in clips :: if c in lengths then clips[c].(length := lengths[c]) else clips[c]
  }

  /** The clips of `moved` become `length` ticks long. */
  function Stretched(clips: map<ClipId, Clip>, moved: set<ClipId>, length: Ticks): map<ClipId, Clip> {
    map c | c in clips :: if c in moved then clips[c].(length := length) else clips[c]
  }

  function FollowTo(t: Tables, p: PatternId, before: Ticks, after: Ticks): Tables {
    t.(clips := Stretched(t.clips, MovedTo(t, p, before, after).Keys, after))
  }

  ghost function Follow(t: Tables, p: PatternId, before: Ticks): Tables {
    if p !in t.patterns then t else FollowTo(t, p, before, PatternEffectiveLength(t.patterns[p]))
  }

  // ----- transport ---------------------------------------------------------

  function Rescale(length: Ticks, fromTempo: real, toTempo: real): Ticks
    requires 0.0 < fromTempo
  {
    var scaled := TimeMaps.Round(length as real * (toTempo / fromTempo));
    if scaled < 1 then 1 else scaled
  }

  predicate TempoMoves(fromTempo: real, toTempo: real) {
    0.0 < fromTempo && 0.0 < toTempo && fromTempo != toTempo
  }

  /** A tempo change rescales the audio clips that take up time. */
  predicate Rescales(c: Clip) {
    c.source.AudioSource? && 0 < c.length
  }

  function RescaleClip(c: Clip, fromTempo: real, toTempo: real): Clip
    requires 0.0 < fromTempo
  {
    if Rescales(c) then c.(length := Rescale(c.length, fromTempo, toTempo)) else c
  }

  function AudioLengths(clips: map<ClipId, Clip>): map<ClipId, Ticks> {
    Lengths(clips) - (set c | c in clips && !Rescales(clips[c]))
  }

  function OriginalLengths(clips: map<ClipId, Clip>, fromTempo: real, toTempo: real): map<ClipId, Ticks> {
    if TempoMoves(fromTempo, toTempo) then AudioLengths(clips) else map[]
  }

  function Rescaled(clips: map<ClipId, Clip>, fromTempo: real, toTempo: real): map<ClipId, Clip> {
    if TempoMoves(fromTempo, toTempo)
    then map c | c in clips :: RescaleClip(clips[c], fromTempo, toTempo)
    else clips
  }

  // ----- one command -------------------------------------------------------

  ghost function Revert(c: Command, t: Tables): Outcome
    decreases c
  {
    match c
    case Add(e) => Done(Delete(t, e), c, c, t)
    case RemoveInstrument(_, _, _, _) => Done(RevertRemoveInstrument(t, c), c, c, t)
    case RemovePattern(_, _, _) => Done(RevertRemovePattern(t, c), c, c, t)
    case RemoveLane(_, _, _, _) => Done(RevertRemoveLane(t, c), c, c, t)
    case RemoveClip(_, clip) => Done(if clip.None? then None else Insert(t, AClip(clip.value)), c, c, t)
    case RemoveTrack(_, _, _, _, _, _) => Done(RevertRemoveTrack(t, c), c, c, t)
    case Edit(id, _, change) => Done(Write(t, id, change.Before()), c, c, t)
    case EffectParam(track, effect, parameter, was, _) => Done(WriteParam(t, track, effect, parameter, was), c, c, t)
    case NoteEdit(p, i, removed, added, _, resized) =>
      (match EditSequence(t, p, i, added, removed)
       case None => Outcome(false, c, t)
       case Some(r) => Outcome(true, c.(resized := map[]), r.(clips := Resized(r.clips, resized))))
    case SetTransport(from, _, lengths) =>
      Outcome(true, c.(originalLengths := map[]), t.(transport := from, clips := Resized(t.clips, lengths)))
    case SetMeta(from, _) => Outcome(true, c, t.(meta := from))
    case Composite(cs) =>
      var r := RevertAll(cs, t);
      Outcome(r.ok, Composite(r.commands), r.tables)
  }

  /** The outcome of a step that either yields new contents or leaves everything alone. */
  function Done(result: Option<Tables>, applied: Command, failed: Command, t: Tables): Outcome {
    match result
    case None => Outcome(false, failed, t)
    case Some(r) => Outcome(true, applied, r)
  }

  /** Reverts from the last command to the first, stopping at a failure. */
  ghost function RevertAll(cs: seq<Command>, t: Tables): (r: ListOutcome)
    ensures |r.commands| == |cs|
    decreases cs
  {
    if cs == [] then ListOutcome(true, [], t)
    else
      var last := |cs| - 1;
      var o := Revert(cs[last], t);
      if !o.ok then ListOutcome(false, cs[..last] + [o.command], o.tables)
      else
        var r := RevertAll(cs[..last], o.tables);
        ListOutcome(r.ok, r.commands + [o.command], r.tables)
  }

  /** Reverts from the last command to the first, whatever each one reports. */
  ghost function RollBack(cs: seq<Command>, t: Tables): (r: ListOutcome)
    ensures |r.commands| == |cs|
  {
    if cs == [] then ListOutcome(true, [], t)
    else
      var last := |cs| - 1;
      var o := Revert(cs[last], t);
      var r := RollBack(cs[..last], o.tables);
      ListOutcome(true, r.commands + [o.command], r.tables)
  }

  ghost function Apply(c: Command, t: Tables): Outcome
    decreases c
  {
    match c
    case Add(e) => Done(Insert(t, e), c, c, t)
    case RemoveInstrument(id, _, _, _) =>
      if id !in t.instruments then Outcome(false, c, t)
      else Outcome(true, CaptureInstrument(t, id), WithoutInstrument(t, id))
    case RemovePattern(id, _, _) =>
      if id !in t.patterns then Outcome(false, c, t)
      else Outcome(true, CapturePattern(t, id), WithoutPattern(t, id))
    case RemoveLane(id, _, _, _) =>
      if id !in t.lanes then Outcome(false, c, t)
      else Outcome(true, CaptureLane(t, id), WithoutLane(t, id))
    case RemoveClip(id, _) =>
      if id !in t.clips then Outcome(false, c, t)
      else Outcome(true, CaptureClip(t, id), WithoutClip(t, id))
    case RemoveTrack(id, _, _, _, _, _) =>
      if id !in t.tracks then Outcome(false, c, t)
      else if id == t.master then Outcome(false, CaptureTrack(t, id), t)
      else Outcome(true, CaptureTrack(t, id), WithoutTrack(t, id))
    case Edit(id, _, change) => Done(Write(t, id, change.After()), c, c, t)
    case EffectParam(track, effect, parameter, _, now) =>
      Done(WriteParam(t, track, effect, parameter, Some(now)), c, c, t)
    case NoteEdit(p, i, removed, added, _, _) =>
      if p !in t.patterns then Outcome(false, c, t)
      else
        var before := PatternEffectiveLength(t.patterns[p]);
        (match EditSequence(t, p, i, removed, added)
         case None => Outcome(false, c, t)
         case Some(r) => Outcome(true, c.(resized := Moved(r, p, before)), Follow(r, p, before)))
    case SetTransport(from, to, _) =>
      Outcome(true, c.(originalLengths := OriginalLengths(t.clips, from.tempo, to.tempo)),
              t.(transport := to, clips := Rescaled(t.clips, from.tempo, to.tempo)))
    case SetMeta(_, to) => Outcome(true, c, t.(meta := to))
    case Composite(cs) =>
      var r := ApplyAll(cs, t);
      Outcome(r.ok, Composite(r.commands), r.tables)
  }

  /** Applies from the first command to the last; a failure rolls back what did apply. */
  ghost function ApplyAll(cs: seq<Command>, t: Tables): (r: ListOutcome)
    ensures |r.commands| == |cs|
    decreases cs
  {
    if cs == [] then ListOutcome(true, [], t)
    else
      var last := |cs| - 1;
      var r := ApplyAll(cs[..last], t);
      if !r.ok then ListOutcome(false, r.commands + [cs[last]], r.tables)
      else
        var o := Apply(cs[last], r.tables);
        if o.ok then ListOutcome(true, r.commands + [o.command], o.tables)
        else
          var b := RollBack(r.commands, o.tables);
          ListOutcome(false, b.commands + [o.command], b.tables)
  }

  // ----- coalescing --------------------------------------------------------

  /** The command that absorbs `next`, for a pair that coalesces. */
  function Coalesce(c: Command, next: Command): Option<Command> {
    match (c, next)
    case (Edit(id, field, change), Edit(id2, field2, change2)) =>
      if id != id2 || field != field2 then None
      else
        (match change.Join(change2)
         case None => None
         case Some(joined) => Some(c.(change := joined)))
    case (EffectParam(k, e, p, was, now), EffectParam(k2, e2, p2, was2, now2)) =>
      if k == k2 && e == e2 && p == p2 then Some(c.(now := now2)) else None
    case (NoteEdit(p, i, removed, added, can, resized), NoteEdit(p2, i2, removed2, added2, can2, resized2)) =>
      if can && can2 && p == p2 && i == i2 && added == removed2
      then Some(c.(added := added2, resized := resized2 + resized)) else None
    case (SetTransport(from, to, lengths), SetTransport(_, to2, _)) => Some(c.(to := to2))
    case _ => None
  }
}
