/**
 The project's entities: two axes, time (pattern, clip, lane) and signal (instrument, mixer
 track), that meet in the instrument. Fields that nothing here reads beyond copying them
 (colours, plug-in descriptors and the like) are gathered into one `look` or `plugin` string.
 */
module Entities {
  import opened Options
  import opened Notes

  // Typed 128-bit identifiers, ordered by value; 0 is the unset identifier.
  type InstrumentId = nat
  type PatternId = nat
  type LaneId = nat
  type ClipId = nat
  type TrackId = nat
  type EffectId = nat
  type ParamId = nat

  const UNSET := 0

  datatype OutputRoute = OutputRoute(port: nat, track: TrackId)

  datatype ChannelSettings = ChannelSettings(
    gatePercent: int, shiftTicks: Ticks, keyLow: int, keyHigh: int, velocityTracking: real)

  datatype Instrument = Instrument(
    id: InstrumentId, name: string, look: string, order: int, plugin: string,
    defaultVelocity: nat, settings: ChannelSettings, routing: seq<OutputRoute>,
    muted: bool, soloed: bool, gain: real, pan: real)

  datatype EffectSlot = EffectSlot(id: EffectId, plugin: string, bypassed: bool, params: map<ParamId, real>)

  datatype MixerTrack = MixerTrack(
    id: TrackId, name: string, output: Option<TrackId>, gain: real, pan: real,
    muted: bool, soloed: bool, effects: seq<EffectSlot>)

  datatype TargetKind = InstrumentTarget | MixerTrackTarget | EffectTarget

  datatype AutomationPoint = AutomationPoint(position: Ticks, value: real)

  datatype AutomationSource = AutomationSource(
    targetKind: TargetKind, instrument: InstrumentId, mixerTrack: TrackId, effect: EffectId,
    parameter: ParamId, points: seq<AutomationPoint>)

  datatype PatternMeta = PatternMeta(name: string, look: string, length: Ticks, order: int, swing: real)

  datatype Pattern = Pattern(
    id: PatternId, meta: PatternMeta, sequences: map<InstrumentId, NoteBag>,
    automation: seq<AutomationSource>)

  datatype ArrangementLane = ArrangementLane(
    id: LaneId, name: string, look: string, order: int, muted: bool, soloed: bool,
    groupId: Option<LaneId>)

  datatype StretchMode = Off | Resample | Stretch

  datatype ClipSource =
    | PatternSource(pattern: PatternId)
    | AudioSource(path: string, sourceOffset: Ticks, sourceLength: Ticks, gain: real, reversed: bool,
                  destination: TrackId, stretchMode: StretchMode, sourceBpm: real)
    | AutomationClip(automation: AutomationSource)

  datatype ClipTransforms = ClipTransforms(transpose: int, loop: bool, windowStart: Ticks)

  datatype Clip = Clip(
    id: ClipId, lane: LaneId, start: Ticks, length: Ticks, muted: bool, source: ClipSource,
    transforms: ClipTransforms)

  datatype TransportState = TransportState(
    tempo: real, metronomeEnabled: bool, loopEnabled: bool, loopStart: Ticks, loopEnd: Ticks)

  datatype ProjectMeta = ProjectMeta(name: string, createdWith: string)

  /** Everything the project holds: what a save writes and a load adopts. */
  datatype Tables = Tables(
    instruments: map<InstrumentId, Instrument>, patterns: map<PatternId, Pattern>,
    lanes: map<LaneId, ArrangementLane>, clips: map<ClipId, Clip>,
    tracks: map<TrackId, MixerTrack>, master: TrackId, transport: TransportState, meta: ProjectMeta)

  predicate UsesPattern(c: Clip, id: PatternId) {
    c.source.PatternSource? && c.source.pattern == id
  }

  predicate AutomatesInstrument(c: Clip, id: InstrumentId) {
    && c.source.AutomationClip?
    && c.source.automation.targetKind.InstrumentTarget?
    && c.source.automation.instrument == id
  }

  /** An audio clip that plays into track `id`: re-pointed when the track goes. */
  predicate PlaysInto(c: Clip, id: TrackId) {
    c.source.AudioSource? && c.source.destination == id
  }

  /** An automation clip on track `id` or on an insert of it: deleted when the track goes. */
  predicate AutomatesTrack(c: Clip, id: TrackId) {
    && c.source.AutomationClip?
    && !c.source.automation.targetKind.InstrumentTarget?
    && c.source.automation.mixerTrack == id
  }

  /** The first slot of a chain with this identity, or the chain's length. */
  function IndexOfEffect(effects: seq<EffectSlot>, effect: EffectId): (at: nat)
    ensures at <= |effects|
    ensures at < |effects| ==> effects[at].id == effect
    ensures forall i | 0 <= i < at :: effects[i].id != effect
  {
    if effects == [] then 0
    else if effects[0].id == effect then 0
    else 1 + IndexOfEffect(effects[1..], effect)
  }

  predicate HasEffect(t: MixerTrack, effect: EffectId) {
    IndexOfEffect(t.effects, effect) < |t.effects|
  }

  // ----- derived pattern lengths -------------------------------------------

  /** `end` is where the last note of any instrument ends, and 0 for no notes. */
  ghost predicate IsSequencesEnd(sequences: map<InstrumentId, NoteBag>, end: Ticks) {
    && 0 <= end
    && (forall i | i in sequences :: BagEnd(sequences[i]) <= end)
    && (end == 0 || exists i | i in sequences :: BagEnd(sequences[i]) == end)
  }

  ghost function SequencesEnd(sequences: map<InstrumentId, NoteBag>): (end: Ticks)
    ensures IsSequencesEnd(sequences, end)
    decreases |sequences|
  {
    if sequences.Keys == {} then 0
    else
      var i :| i in sequences;
      var others := sequences - {i};
      assert |others| < |sequences| by { assert others.Keys == sequences.Keys - {i}; }
      var rest := SequencesEnd(others);
      assert forall j | j in sequences && j != i :: j in others && others[j] == sequences[j];
      if rest < BagEnd(sequences[i]) then BagEnd(sequences[i]) else rest
  }

  lemma SequencesEndUnique(sequences: map<InstrumentId, NoteBag>, end: Ticks)
    requires IsSequencesEnd(sequences, end)
    ensures end == SequencesEnd(sequences)
  {
    var other := SequencesEnd(sequences);
    if end != 0 {
      var i :| i in sequences && BagEnd(sequences[i]) == end;
    }
    if other != 0 {
      var i :| i in sequences && BagEnd(sequences[i]) == other;
    }
  }

  /** Whole bars that hold `content`, and never less than one. */
  function BarsFor(content: Ticks): (bars: Ticks)
    ensures 0 < bars && content <= bars
  {
    if content <= 0 then TICKS_PER_BAR
    else (content + TICKS_PER_BAR - 1) / TICKS_PER_BAR * TICKS_PER_BAR
  }

  /** How long a pattern plays for, given its declared length and where its notes end. */
  function EffectiveLength(declared: Ticks, content: Ticks): (length: Ticks)
    ensures 0 < length && content <= length
  {
    var floor := if declared > 0 then declared else TICKS_PER_BAR;
    if content <= floor then floor else BarsFor(content)
  }

  ghost function PatternEffectiveLength(p: Pattern): (length: Ticks)
    ensures 0 < length
  {
    EffectiveLength(p.meta.length, SequencesEnd(p.sequences))
  }

  /** The effective length is positive, holds every note, and is the declared length whenever
      that is positive and long enough; otherwise it is a whole number of bars, the fewest that do. */
  lemma EffectiveLengthMeaning(declared: Ticks, content: Ticks)
    ensures var r := EffectiveLength(declared, content);
            && 0 < r
            && content <= r
            && (0 < declared && content <= declared ==> r == declared)
            && (declared < content && TICKS_PER_BAR < content ==>
                  r % TICKS_PER_BAR == 0 && r - TICKS_PER_BAR < content)
  {
    if content > 0 {
      var bars := (content + TICKS_PER_BAR - 1) / TICKS_PER_BAR;
      assert bars * TICKS_PER_BAR <= content + TICKS_PER_BAR - 1 < (bars + 1) * TICKS_PER_BAR;
      assert (bars * TICKS_PER_BAR) % TICKS_PER_BAR == 0;
    }
  }
}
