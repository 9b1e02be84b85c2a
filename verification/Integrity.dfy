/**
 Referential integrity: every identifier in the project resolves, and the mixer routing is a
 tree into one track without output. `CheckReferentialIntegrity` is the source's walk over the
 model; `Consistent` says what an empty report means; the lemmas say which edits keep it.
 */
module Integrity {
  import opened Options
  import opened Notes
  import opened Entities
  import opened Routing
  import opened Projects
  import opened Addressing

  // ----- what an empty report means ----------------------------------------

  predicate InstrumentConsistent(t: Tables, i: Instrument) {
    && (forall k | 0 <= k < |i.routing| :: i.routing[k].track in t.tracks)
    && (forall j, k | 0 <= j < k < |i.routing| :: i.routing[j].port != i.routing[k].port)
  }

  ghost predicate SequenceConsistent(t: Tables, i: InstrumentId, notes: NoteBag) {
    i in t.instruments && notes != multiset{} && BagValid(notes)
  }

  ghost predicate PatternConsistent(t: Tables, p: Pattern) {
    forall i | i in p.sequences :: SequenceConsistent(t, i, p.sequences[i])
  }

  predicate GroupConsistent(t: Tables, id: LaneId) {
    id in t.lanes ==>
      t.lanes[id].groupId.Some? ==> t.lanes[id].groupId.value != id && t.lanes[id].groupId.value in t.lanes
  }

  predicate TargetResolves(t: Tables, a: AutomationSource) {
    match a.targetKind
    case InstrumentTarget => a.instrument in t.instruments
    case MixerTrackTarget => a.mixerTrack in t.tracks
    case EffectTarget => a.mixerTrack in t.tracks && HasEffect(t.tracks[a.mixerTrack], a.effect)
  }

  predicate SourceConsistent(t: Tables, c: Clip) {
    match c.source
    case PatternSource(p) => p in t.patterns
    case AudioSource(_, offset, length, _, _, destination, mode, _) =>
      && destination in t.tracks
      && 0 <= offset && 0 <= length
      && !(mode != Off && length <= 0 && c.length <= 0)
    case AutomationClip(a) => TargetResolves(t, a)
  }

  predicate ClipConsistent(t: Tables, c: Clip) {
    c.lane in t.lanes && 0 <= c.length && 0 <= c.start && SourceConsistent(t, c)
  }

  predicate EffectsConsistent(effects: seq<EffectSlot>) {
    && (forall k | 0 <= k < |effects| :: effects[k].id != UNSET)
    && (forall j, k | 0 <= j < k < |effects| :: effects[j].id != effects[k].id)
  }

  predicate OutputConsistent(t: Tables, id: TrackId) {
    id in t.tracks ==>
      t.tracks[id].output.Some? ==> t.tracks[id].output.value != id && t.tracks[id].output.value in t.tracks
  }

  function FedTrack(k: MixerTrack): TrackId {
    match k.output case Some(o) => o case None => UNSET
  }

  /** Who feeds whom: the tracks with an output, and that output. */
  function RoutingOf(tracks: map<TrackId, MixerTrack>): Graph {
    (map k | k in tracks :: FedTrack(tracks[k])) - Roots(tracks)
  }

  function Roots(tracks: map<TrackId, MixerTrack>): set<TrackId> {
    set k | k in tracks && tracks[k].output.None?
  }

  ghost predicate InstrumentsConsistent(t: Tables) {
    forall i | i in t.instruments :: InstrumentConsistent(t, t.instruments[i])
  }

  ghost predicate PatternsConsistent(t: Tables) {
    forall p | p in t.patterns :: PatternConsistent(t, t.patterns[p])
  }

  ghost predicate LanesConsistent(t: Tables) {
    && (forall a, b | a in t.lanes && b in t.lanes && a != b :: t.lanes[a].order != t.lanes[b].order)
    && (forall l | l in t.lanes :: GroupConsistent(t, l))
  }

  ghost predicate ClipsConsistent(t: Tables) {
    forall c | c in t.clips :: ClipConsistent(t, t.clips[c])
  }

  ghost predicate TracksConsistent(t: Tables) {
    && (forall k | k in t.tracks :: EffectsConsistent(t.tracks[k].effects))
    && (forall k | k in t.tracks :: OutputConsistent(t, k))
    && Acyclic(RoutingOf(t.tracks))
    && |Roots(t.tracks)| == 1
    && t.master in t.tracks
  }

  ghost predicate Consistent(t: Tables) {
    && InstrumentsConsistent(t) && PatternsConsistent(t) && LanesConsistent(t)
    && ClipsConsistent(t) && TracksConsistent(t)
  }

  // ----- what may be wrong -------------------------------------------------

  datatype Violation =
    | RoutesToMissing(instrument: InstrumentId, port: nat, track: TrackId)
    | PortTwice(instrument: InstrumentId, port: nat)
    | SequenceForMissing(pattern: PatternId, instrument: InstrumentId)
    | EmptySequence(pattern: PatternId, instrument: InstrumentId)
    | BadNote(pattern: PatternId, instrument: InstrumentId)
    | SharedOrder(lane: LaneId, order: int)
    | OwnGroup(lane: LaneId)
    | MissingGroup(lane: LaneId, group: LaneId)
    | MissingLane(clip: ClipId, lane: LaneId)
    | NegativeSpan(clip: ClipId)
    | MissingPattern(clip: ClipId, pattern: PatternId)
    | MissingDestination(clip: ClipId, track: TrackId)
    | NegativeWindow(clip: ClipId)
    | NothingToStretch(clip: ClipId)
    | MissingTarget(clip: ClipId)
    | UnidentifiedSlot(track: TrackId)
    | SharedSlot(track: TrackId, effect: EffectId)
    | OwnOutput(track: TrackId)
    | MissingOutput(track: TrackId, output: TrackId)
    | RoutingCycle(track: TrackId)
    | MasterCount(count: nat)
    | MasterMissing

  /** The entity a violation is laid on. */
  datatype Subject =
    | InstrumentAt(id: InstrumentId)
    | SequenceAt(pattern: PatternId, instrument: InstrumentId)
    | LaneAt(id: LaneId)
    | ClipAt(id: ClipId)
    | TrackAt(id: TrackId)
    | TheProject

  function SubjectOf(v: Violation): Subject {
    match v
    case RoutesToMissing(i, _, _) => InstrumentAt(i)
    case PortTwice(i, _) => InstrumentAt(i)
    case SequenceForMissing(p, i) => SequenceAt(p, i)
    case EmptySequence(p, i) => SequenceAt(p, i)
    case BadNote(p, i) => SequenceAt(p, i)
    case SharedOrder(l, _) => LaneAt(l)
    case OwnGroup(l) => LaneAt(l)
    case MissingGroup(l, _) => LaneAt(l)
    case MissingLane(c, _) => ClipAt(c)
    case NegativeSpan(c) => ClipAt(c)
    case MissingPattern(c, _) => ClipAt(c)
    case MissingDestination(c, _) => ClipAt(c)
    case NegativeWindow(c) => ClipAt(c)
    case NothingToStretch(c) => ClipAt(c)
    case MissingTarget(c) => ClipAt(c)
    case UnidentifiedSlot(k) => TrackAt(k)
    case SharedSlot(k, _) => TrackAt(k)
    case OwnOutput(k) => TrackAt(k)
    case MissingOutput(k, _) => TrackAt(k)
    case RoutingCycle(k) => TrackAt(k)
    case MasterCount(_) => TheProject
    case MasterMissing => TheProject
  }

  predicate InstrumentBroken(t: Tables, routing: seq<OutputRoute>, v: Violation) {
    match v
    case RoutesToMissing(_, port, track) => OutputRoute(port, track) in routing && track !in t.tracks
    case PortTwice(_, port) => exists j, k | 0 <= j < k < |routing| :: routing[j].port == port == routing[k].port
    case _ => false
  }

  ghost predicate SequenceBroken(t: Tables, instrument: InstrumentId, notes: NoteBag, v: Violation) {
    match v
    case SequenceForMissing(_, _) => instrument !in t.instruments
    case EmptySequence(_, _) => notes == multiset{}
    case BadNote(_, _) => exists n | n in notes :: !IsValidNote(n)
    case _ => false
  }

  /** The order is laid on every lane but the first of those that share it. */
  ghost predicate LaneBroken(t: Tables, id: LaneId, l: ArrangementLane, v: Violation) {
    match v
    case SharedOrder(_, order) => order == l.order && exists k | k in t.lanes && k < id :: t.lanes[k].order == l.order
    case OwnGroup(_) => l.groupId == Some(id)
    case MissingGroup(_, group) => l.groupId == Some(group) && group != id && group !in t.lanes
    case _ => false
  }

  /** Of the target of an insert both ends must be there: the track, and the insert in its chain. */
  predicate TargetMissing(t: Tables, a: AutomationSource) {
    match a.targetKind
    case InstrumentTarget => a.instrument !in t.instruments
    case MixerTrackTarget => a.mixerTrack !in t.tracks
    case EffectTarget =>
      a.mixerTrack !in t.tracks || forall slot | slot in t.tracks[a.mixerTrack].effects :: slot.id != a.effect
  }

  predicate ClipBroken(t: Tables, c: Clip, v: Violation) {
    match v
    case MissingLane(_, lane) => lane == c.lane && lane !in t.lanes
    case NegativeSpan(_) => c.length < 0 || c.start < 0
    case MissingPattern(_, pattern) => c.source == PatternSource(pattern) && pattern !in t.patterns
    case MissingDestination(_, track) => c.source.AudioSource? && track == c.source.destination && track !in t.tracks
    case NegativeWindow(_) => c.source.AudioSource? && (c.source.sourceOffset < 0 || c.source.sourceLength < 0)
    case NothingToStretch(_) =>
      c.source.AudioSource? && c.source.stretchMode != Off && c.source.sourceLength <= 0 && c.length <= 0
    case MissingTarget(_) => c.source.AutomationClip? && TargetMissing(t, c.source.automation)
    case _ => false
  }

  predicate SlotsBroken(effects: seq<EffectSlot>, v: Violation) {
    match v
    case UnidentifiedSlot(_) => exists k | 0 <= k < |effects| :: effects[k].id == UNSET
    case SharedSlot(_, e) => e != UNSET && exists j, k | 0 <= j < k < |effects| :: effects[j].id == e == effects[k].id
    case _ => false
  }

  /** Of a track's output, one thing at most; a cycle is laid on every track whose outputs run into it. */
  ghost predicate OutputBroken(tracks: map<TrackId, MixerTrack>, id: TrackId, output: Option<TrackId>, v: Violation) {
    match v
    case OwnOutput(_) => output == Some(id)
    case MissingOutput(_, k) => output == Some(k) && k != id && k !in tracks
    case RoutingCycle(_) =>
      output.Some? && output.value != id && output.value in tracks && !Ends(RoutingOf(tracks), id)
    case _ => false
  }

  ghost predicate ProjectBroken(t: Tables, v: Violation) {
    match v
    case MasterCount(count) => count == |Roots(t.tracks)| && count != 1
    case MasterMissing => t.master !in t.tracks
    case _ => false
  }

  /** What `v` says is so. */
  ghost predicate Broken(t: Tables, v: Violation) {
    match SubjectOf(v)
    case InstrumentAt(i) => i in t.instruments && InstrumentBroken(t, t.instruments[i].routing, v)
    case SequenceAt(p, i) =>
      p in t.patterns && i in t.patterns[p].sequences && SequenceBroken(t, i, t.patterns[p].sequences[i], v)
    case LaneAt(l) => l in t.lanes && LaneBroken(t, l, t.lanes[l], v)
    case ClipAt(c) => c in t.clips && ClipBroken(t, t.clips[c], v)
    case TrackAt(k) =>
      k in t.tracks && (SlotsBroken(t.tracks[k].effects, v) || OutputBroken(t.tracks, k, t.tracks[k].output, v))
    case TheProject => ProjectBroken(t, v)
  }

  // ----- nothing is wrong with consistent tables only ----------------------

  /** The tables are consistent if and only if nothing is wrong with them. */
  lemma {:induction false} NothingBrokenIff(t: Tables)
    ensures Consistent(t) <==> forall v :: !Broken(t, v)
  {
    if Consistent(t) {
      forall v ensures !Broken(t, v) {
        AcyclicIffEnds(RoutingOf(t.tracks));
        ConsistentUnbroken(t, v);
      }
    } else {
      var v := Culprit(t);
    }
  }

  lemma {:induction false} ConsistentUnbroken(t: Tables, v: Violation)
    requires Consistent(t) && (forall k | k in RoutingOf(t.tracks) :: Ends(RoutingOf(t.tracks), k))
    ensures !Broken(t, v)
  {
    match SubjectOf(v)
    case InstrumentAt(i) => InstrumentUnbroken(t, i, v);
    case SequenceAt(p, i) => SequenceUnbroken(t, p, i, v);
    case LaneAt(l) => LaneUnbroken(t, l, v);
    case ClipAt(c) => ClipUnbroken(t, c, v);
    case TrackAt(k) => TrackUnbroken(t, k, v);
    case TheProject =>
  }

  lemma {:induction false} InstrumentUnbroken(t: Tables, i: InstrumentId, v: Violation)
    requires InstrumentsConsistent(t) && SubjectOf(v) == InstrumentAt(i)
    ensures !Broken(t, v)
  {
    assert i in t.instruments ==> InstrumentConsistent(t, t.instruments[i]);
  }

  lemma {:induction false} SequenceUnbroken(t: Tables, p: PatternId, i: InstrumentId, v: Violation)
    requires PatternsConsistent(t) && SubjectOf(v) == SequenceAt(p, i)
    ensures !Broken(t, v)
  {
    assert p in t.patterns ==> PatternConsistent(t, t.patterns[p]);
  }

  lemma {:induction false} LaneUnbroken(t: Tables, l: LaneId, v: Violation)
    requires LanesConsistent(t) && SubjectOf(v) == LaneAt(l)
    ensures !Broken(t, v)
  {
    assert l in t.lanes ==> GroupConsistent(t, l);
  }

  lemma {:induction false} ClipUnbroken(t: Tables, c: ClipId, v: Violation)
    requires ClipsConsistent(t) && SubjectOf(v) == ClipAt(c)
    ensures !Broken(t, v)
  {
    assert c in t.clips ==> ClipConsistent(t, t.clips[c]);
  }

  lemma {:induction false} TrackUnbroken(t: Tables, k: TrackId, v: Violation)
    requires forall k | k in t.tracks :: EffectsConsistent(t.tracks[k].effects)
    requires forall k | k in t.tracks :: OutputConsistent(t, k)
    requires forall k | k in RoutingOf(t.tracks) :: Ends(RoutingOf(t.tracks), k)
    requires SubjectOf(v) == TrackAt(k)
    ensures !Broken(t, v)
  {
    assert k in t.tracks ==> EffectsConsistent(t.tracks[k].effects) && OutputConsistent(t, k);
  }

  lemma {:induction false} Culprit(t: Tables) returns (v: Violation)
    requires !Consistent(t)
    ensures Broken(t, v)
  {
    if !InstrumentsConsistent(t) {
      var i :| i in t.instruments && !InstrumentConsistent(t, t.instruments[i]);
      v := InstrumentCulprit(t, i);
    } else if !PatternsConsistent(t) {
      var p :| p in t.patterns && !PatternConsistent(t, t.patterns[p]);
      v := PatternCulprit(t, p);
    } else if !LanesConsistent(t) {
      v := LaneCulprit(t);
    } else if !ClipsConsistent(t) {
      var c :| c in t.clips && !ClipConsistent(t, t.clips[c]);
      v := ClipCulprit(t, c);
    } else {
      v := TrackCulprit(t);
    }
  }

  lemma {:induction false} InstrumentCulprit(t: Tables, i: InstrumentId) returns (v: Violation)
    requires i in t.instruments && !InstrumentConsistent(t, t.instruments[i])
    ensures Broken(t, v)
  {
    var routing := t.instruments[i].routing;
    if k :| 0 <= k < |routing| && routing[k].track !in t.tracks {
      v := RoutesToMissing(i, routing[k].port, routing[k].track);
      assert routing[k] == OutputRoute(routing[k].port, routing[k].track);
    } else {
      var j, k :| 0 <= j < k < |routing| && routing[j].port == routing[k].port;
      v := PortTwice(i, routing[k].port);
    }
  }

  lemma {:induction false} PatternCulprit(t: Tables, p: PatternId) returns (v: Violation)
    requires p in t.patterns && !PatternConsistent(t, t.patterns[p])
    ensures Broken(t, v)
  {
    var sequences := t.patterns[p].sequences;
    var i :| i in sequences && !SequenceConsistent(t, i, sequences[i]);
    v := if i !in t.instruments then SequenceForMissing(p, i)
         else if sequences[i] == multiset{} then EmptySequence(p, i)
         else BadNote(p, i);
  }

  lemma {:induction false} LaneCulprit(t: Tables) returns (v: Violation)
    requires !LanesConsistent(t)
    ensures Broken(t, v)
  {
    if a, b :| (a in t.lanes && b in t.lanes && a != b && t.lanes[a].order == t.lanes[b].order) {
      v := SharedOrder(if a < b then b else a, t.lanes[a].order);
    } else {
      var l :| l in t.lanes && !GroupConsistent(t, l);
      v := if t.lanes[l].groupId.value == l then OwnGroup(l) else MissingGroup(l, t.lanes[l].groupId.value);
    }
  }

  lemma {:induction false} ClipCulprit(t: Tables, c: ClipId) returns (v: Violation)
    requires c in t.clips && !ClipConsistent(t, t.clips[c])
    ensures Broken(t, v)
  {
    var clip := t.clips[c];
    if clip.lane !in t.lanes {
      v := MissingLane(c, clip.lane);
    } else if clip.length < 0 || clip.start < 0 {
      v := NegativeSpan(c);
    } else {
      match clip.source {
        case PatternSource(p) => v := MissingPattern(c, p);
        case AudioSource(_, offset, length, _, _, destination, _, _) =>
          v := if destination !in t.tracks then MissingDestination(c, destination)
               else if offset < 0 || length < 0 then NegativeWindow(c)
               else NothingToStretch(c);
        case AutomationClip(_) => v := MissingTarget(c);
      }
    }
  }

  lemma {:induction false} TrackCulprit(t: Tables) returns (v: Violation)
    requires !TracksConsistent(t)
    ensures Broken(t, v)
  {
    if k :| k in t.tracks && !EffectsConsistent(t.tracks[k].effects) {
      v := SlotCulprit(t, k);
    } else if k :| k in t.tracks && !OutputConsistent(t, k) {
      v := if t.tracks[k].output.value == k then OwnOutput(k) else MissingOutput(k, t.tracks[k].output.value);
    } else if !Acyclic(RoutingOf(t.tracks)) {
      v := CycleCulprit(t);
    } else if |Roots(t.tracks)| != 1 {
      v := MasterCount(|Roots(t.tracks)|);
      assert ProjectBroken(t, v);
    } else {
      v := MasterMissing;
      assert ProjectBroken(t, v);
    }
  }

  lemma {:induction false} SlotCulprit(t: Tables, k: TrackId) returns (v: Violation)
    requires k in t.tracks && !EffectsConsistent(t.tracks[k].effects)
    ensures Broken(t, v)
  {
    var slots := t.tracks[k].effects;
    if i :| 0 <= i < |slots| && slots[i].id == UNSET {
      v := UnidentifiedSlot(k);
    } else {
      var i, j :| 0 <= i < j < |slots| && slots[i].id == slots[j].id;
      v := SharedSlot(k, slots[i].id);
    }
    assert SlotsBroken(slots, v);
  }

  lemma {:induction false} CycleCulprit(t: Tables) returns (v: Violation)
    requires forall k | k in t.tracks :: OutputConsistent(t, k)
    requires !Acyclic(RoutingOf(t.tracks))
    ensures Broken(t, v)
  {
    AcyclicIffEnds(RoutingOf(t.tracks));
    var k :| k in RoutingOf(t.tracks) && !Ends(RoutingOf(t.tracks), k);
    assert OutputConsistent(t, k);
    v := RoutingCycle(k);
    assert OutputBroken(t.tracks, k, t.tracks[k].output, v);
  }

  // ----- the check ---------------------------------------------------------

  /** What is reported is what is wrong. */
  method CheckReferentialIntegrity(project: Project) returns (violations: seq<Violation>)
    ensures forall v :: v in violations <==> Broken(project.Copy(), v)
    ensures violations == [] <==> Consistent(project.Copy())
  {
    var t := project.Copy();
    var a := CheckInstruments(t);
    var b := CheckPatterns(t);
    var c := CheckLanes(t);
    var d := CheckClips(t);
    var e := CheckTracks(t);
    var f := CheckMaster(t);
    violations := a + b + c + d + e + f;
    NothingBrokenIff(t);
    assert violations != [] ==> violations[0] in violations;
  }

  method CheckInstruments(t: Tables) returns (violations: seq<Violation>)
    ensures forall v :: v in violations <==> SubjectOf(v).InstrumentAt? && Broken(t, v)
  {
    violations := [];
    var todo := t.instruments.Keys;
    while todo != {}
      invariant todo <= t.instruments.Keys
      invariant forall v :: v in violations <==>
        SubjectOf(v).InstrumentAt? && SubjectOf(v).id !in todo && Broken(t, v)
    {
      var id :| id in todo;
      todo := todo - {id};
      var found := CheckRouting(t, id);
      violations := violations + found;
    }
  }

  method CheckRouting(t: Tables, id: InstrumentId) returns (violations: seq<Violation>)
    requires id in t.instruments
    ensures forall v :: v in violations <==> SubjectOf(v) == InstrumentAt(id) && Broken(t, v)
  {
    violations := [];
    var routing := t.instruments[id].routing;
    var ports: set<nat> := {};
    for k := 0 to |routing|
      invariant ports == set j | 0 <= j < k :: routing[j].port
      invariant forall v :: v in violations <==> SubjectOf(v) == InstrumentAt(id) && InstrumentBroken(t, routing[..k], v)
    {
      RouteAdds(t, routing, k);
      if routing[k].track !in t.tracks {
        violations := violations + [RoutesToMissing(id, routing[k].port, routing[k].track)];
      }
      if routing[k].port in ports {
        violations := violations + [PortTwice(id, routing[k].port)];
      }
      ports := ports + {routing[k].port};
    }
    assert routing[..|routing|] == routing;
  }

  lemma {:induction false} RouteAdds(t: Tables, routing: seq<OutputRoute>, k: nat)
    requires k < |routing|
    ensures forall v :: InstrumentBroken(t, routing[..k + 1], v) <==>
      || InstrumentBroken(t, routing[..k], v)
      || (v.RoutesToMissing? && v.port == routing[k].port && v.track == routing[k].track && v.track !in t.tracks)
      || (v.PortTwice? && v.port == routing[k].port && exists j | 0 <= j < k :: routing[j].port == v.port)
  {
    assert routing[..k + 1] == routing[..k] + [routing[k]];
    forall v: Violation | v.PortTwice?
      ensures InstrumentBroken(t, routing[..k + 1], v) <==>
        || InstrumentBroken(t, routing[..k], v)
        || (v.port == routing[k].port && exists j | 0 <= j < k :: routing[j].port == v.port)
    {
      if j :| 0 <= j < k && routing[j].port == v.port && v.port == routing[k].port {
        assert routing[..k + 1][j].port == v.port == routing[..k + 1][k].port;
      }
      if i, j :| (0 <= i < j < k && routing[..k][i].port == v.port == routing[..k][j].port) {
        assert routing[..k + 1][i].port == v.port == routing[..k + 1][j].port;
      }
    }
  }

  method CheckPatterns(t: Tables) returns (violations: seq<Violation>)
    ensures forall v :: v in violations <==> SubjectOf(v).SequenceAt? && Broken(t, v)
  {
    violations := [];
    var todo := t.patterns.Keys;
    while todo != {}
      invariant todo <= t.patterns.Keys
      invariant forall v :: v in violations <==>
        SubjectOf(v).SequenceAt? && SubjectOf(v).pattern !in todo && Broken(t, v)
    {
      var id :| id in todo;
      todo := todo - {id};
      var found := CheckSequences(t, id);
      violations := violations + found;
    }
  }

  method CheckSequences(t: Tables, id: PatternId) returns (violations: seq<Violation>)
    requires id in t.patterns
    ensures forall v :: v in violations <==>
      SubjectOf(v).SequenceAt? && SubjectOf(v).pattern == id && Broken(t, v)
  {
    violations := [];
    var sequences := t.patterns[id].sequences;
    var todo := sequences.Keys;
    while todo != {}
      invariant todo <= sequences.Keys
      invariant forall v :: v in violations <==>
        SubjectOf(v).SequenceAt? && SubjectOf(v).pattern == id && SubjectOf(v).instrument !in todo && Broken(t, v)
    {
      var i :| i in todo;
      todo := todo - {i};
      var found := CheckSequence(t, id, i);
      violations := violations + found;
    }
  }

  method CheckSequence(t: Tables, id: PatternId, i: InstrumentId) returns (violations: seq<Violation>)
    requires id in t.patterns && i in t.patterns[id].sequences
    ensures forall v :: v in violations <==> SubjectOf(v) == SequenceAt(id, i) && Broken(t, v)
  {
    violations := [];
    var notes := t.patterns[id].sequences[i];
    if i !in t.instruments {
      violations := violations + [SequenceForMissing(id, i)];
    }
    if notes == multiset{} {
      violations := violations + [EmptySequence(id, i)];
    }
    var valid := AllNotesValid(notes);
    if !valid {
      violations := violations + [BadNote(id, i)];
    }
  }

  method AllNotesValid(notes: NoteBag) returns (valid: bool)
    ensures valid <==> BagValid(notes)
  {
    var todo := notes;
    while todo != multiset{}
      invariant todo <= notes
      invariant forall n | n in notes :: n in todo || IsValidNote(n)
    {
      var n :| n in todo;
      if !IsValidNote(n) {
        return false;
      }
      todo := todo[n := 0];
    }
    return true;
  }

  method CheckLanes(t: Tables) returns (violations: seq<Violation>)
    ensures forall v :: v in violations <==> SubjectOf(v).LaneAt? && Broken(t, v)
  {
    violations := [];
    var orders: set<int> := {};
    var ids := Ascending(t.lanes.Keys);
    for k := 0 to |ids|
      invariant orders == set l | l in ids[..k] :: t.lanes[l].order
      invariant forall v :: v in violations <==> SubjectOf(v).LaneAt? && SubjectOf(v).id in ids[..k] && Broken(t, v)
    {
      var id := ids[k];
      assert ids[..k + 1] == ids[..k] + [id];
      assert forall l :: l in ids[..k] <==> l in t.lanes && l < id by { Earlier(t.lanes.Keys, ids, k); }
      var found := CheckLane(t, id, t.lanes[id].order in orders);
      violations := violations + found;
      orders := orders + {t.lanes[id].order};
    }
    assert ids[..|ids|] == ids;
  }

  lemma {:induction false} Earlier(s: set<nat>, ids: seq<nat>, k: nat)
    requires forall x :: x in ids <==> x in s
    requires k < |ids| && forall i, j | 0 <= i < j < |ids| :: ids[i] < ids[j]
    ensures forall x :: x in ids[..k] <==> x in s && x < ids[k]
  {
    forall x | x in s && x < ids[k] ensures x in ids[..k] {
      var i :| 0 <= i < |ids| && ids[i] == x;
      assert i < k;
      assert ids[..k][i] == x;
    }
  }

  method CheckLane(t: Tables, id: LaneId, taken: bool) returns (violations: seq<Violation>)
    requires id in t.lanes
    requires taken <==> exists k | k in t.lanes && k < id :: t.lanes[k].order == t.lanes[id].order
    ensures forall v :: v in violations <==> SubjectOf(v) == LaneAt(id) && Broken(t, v)
  {
    violations := [];
    var lane := t.lanes[id];
    if taken {
      violations := violations + [SharedOrder(id, lane.order)];
    }
    if lane.groupId.Some? {
      if lane.groupId.value == id {
        violations := violations + [OwnGroup(id)];
      } else if lane.groupId.value !in t.lanes {
        violations := violations + [MissingGroup(id, lane.groupId.value)];
      }
    }
  }

  method CheckClips(t: Tables) returns (violations: seq<Violation>)
    ensures forall v :: v in violations <==> SubjectOf(v).ClipAt? && Broken(t, v)
  {
    violations := [];
    var todo := t.clips.Keys;
    while todo != {}
      invariant todo <= t.clips.Keys
      invariant forall v :: v in violations <==> SubjectOf(v).ClipAt? && SubjectOf(v).id !in todo && Broken(t, v)
    {
      var id :| id in todo;
      todo := todo - {id};
      var found := CheckClip(t, id);
      violations := violations + found;
    }
  }

  method CheckClip(t: Tables, id: ClipId) returns (violations: seq<Violation>)
    requires id in t.clips
    ensures forall v :: v in violations <==> SubjectOf(v) == ClipAt(id) && Broken(t, v)
  {
    violations := [];
    var clip := t.clips[id];
    if clip.lane !in t.lanes {
      violations := violations + [MissingLane(id, clip.lane)];
    }
    if clip.length < 0 || clip.start < 0 {
      violations := violations + [NegativeSpan(id)];
    }
    var found := CheckSource(t, id, clip);
    violations := violations + found;
  }

  method CheckSource(t: Tables, id: ClipId, clip: Clip) returns (violations: seq<Violation>)
    ensures forall v :: v in violations <==>
      SubjectOf(v) == ClipAt(id) && !v.MissingLane? && !v.NegativeSpan? && ClipBroken(t, clip, v)
  {
    violations := [];
    match clip.source {
      case PatternSource(pattern) =>
        if pattern !in t.patterns {
          violations := violations + [MissingPattern(id, pattern)];
        }
      case AudioSource(_, offset, length, _, _, destination, mode, _) =>
        if destination !in t.tracks {
          violations := violations + [MissingDestination(id, destination)];
        }
        if offset < 0 || length < 0 {
          violations := violations + [NegativeWindow(id)];
        }
        if mode != Off && length <= 0 && clip.length <= 0 {
          violations := violations + [NothingToStretch(id)];
        }
      case AutomationClip(a) =>
        var resolves := Resolves(t, a);
        if !resolves {
          violations := violations + [MissingTarget(id)];
        }
    }
  }

  method Resolves(t: Tables, a: AutomationSource) returns (resolves: bool)
    ensures resolves <==> !TargetMissing(t, a)
  {
    resolves := false;
    match a.targetKind {
      case InstrumentTarget => resolves := a.instrument in t.instruments;
      case MixerTrackTarget => resolves := a.mixerTrack in t.tracks;
      case EffectTarget => resolves := a.mixerTrack in t.tracks && HasEffect(t.tracks[a.mixerTrack], a.effect);
    }
  }

  method CheckEffects(id: TrackId, effects: seq<EffectSlot>) returns (violations: seq<Violation>)
    ensures forall v :: v in violations <==> SubjectOf(v) == TrackAt(id) && SlotsBroken(effects, v)
  {
    violations := [];
    var ids: set<EffectId> := {};
    for k := 0 to |effects|
      invariant ids == set j | 0 <= j < k && effects[j].id != UNSET :: effects[j].id
      invariant forall v :: v in violations <==> SubjectOf(v) == TrackAt(id) && SlotsBroken(effects[..k], v)
    {
      SlotAdds(effects, k);
      if effects[k].id == UNSET {
        violations := violations + [UnidentifiedSlot(id)];
      } else {
        if effects[k].id in ids {
          violations := violations + [SharedSlot(id, effects[k].id)];
        }
        ids := ids + {effects[k].id};
      }
    }
    assert effects[..|effects|] == effects;
  }

  lemma {:induction false} SlotAdds(effects: seq<EffectSlot>, k: nat)
    requires k < |effects|
    ensures forall v :: SlotsBroken(effects[..k + 1], v) <==>
      || SlotsBroken(effects[..k], v)
      || (v.UnidentifiedSlot? && effects[k].id == UNSET)
      || (v.SharedSlot? && v.effect == effects[k].id != UNSET && exists j | 0 <= j < k :: effects[j].id == v.effect)
  {
    assert effects[..k + 1] == effects[..k] + [effects[k]];
    assert effects[..k + 1][k] == effects[k];
    forall v: Violation | v.SharedSlot?
      ensures SlotsBroken(effects[..k + 1], v) <==>
        || SlotsBroken(effects[..k], v)
        || (v.effect == effects[k].id != UNSET && exists j | 0 <= j < k :: effects[j].id == v.effect)
    {
      if j :| 0 <= j < k && effects[j].id == v.effect && v.effect == effects[k].id {
        assert effects[..k + 1][j].id == v.effect == effects[..k + 1][k].id;
      }
      if i, j :| (0 <= i < j < k && effects[..k][i].id == v.effect == effects[..k][j].id) {
        assert effects[..k + 1][i].id == v.effect == effects[..k + 1][j].id;
      }
    }
  }

  method CheckTracks(t: Tables) returns (violations: seq<Violation>)
    ensures forall v :: v in violations <==> SubjectOf(v).TrackAt? && Broken(t, v)
  {
    violations := [];
    var todo := t.tracks.Keys;
    while todo != {}
      invariant todo <= t.tracks.Keys
      invariant forall v :: v in violations <==> SubjectOf(v).TrackAt? && SubjectOf(v).id !in todo && Broken(t, v)
    {
      var id :| id in todo;
      todo := todo - {id};
      var slots := CheckEffects(id, t.tracks[id].effects);
      var output := CheckOutput(t.tracks, id);
      violations := violations + slots + output;
    }
  }

  method CheckOutput(tracks: map<TrackId, MixerTrack>, id: TrackId) returns (violations: seq<Violation>)
    requires id in tracks
    ensures forall v :: v in violations <==> SubjectOf(v) == TrackAt(id) && OutputBroken(tracks, id, tracks[id].output, v)
  {
    violations := [];
    if tracks[id].output.None? {
    } else if tracks[id].output.value == id {
      violations := [OwnOutput(id)];
    } else if tracks[id].output.value !in tracks {
      violations := [MissingOutput(id, tracks[id].output.value)];
    } else {
      var cycle := WalkToMaster(tracks, id);
      if cycle {
        violations := [RoutingCycle(id)];
      }
    }
  }

  method CheckMaster(t: Tables) returns (violations: seq<Violation>)
    ensures forall v :: v in violations <==> SubjectOf(v).TheProject? && Broken(t, v)
  {
    violations := [];
    var masters := CountMasters(t.tracks);
    if masters != 1 {
      violations := violations + [MasterCount(masters)];
    }
    if t.master !in t.tracks {
      violations := violations + [MasterMissing];
    }
  }

  method CountMasters(tracks: map<TrackId, MixerTrack>) returns (masters: nat)
    ensures masters == |Roots(tracks)|
  {
    masters := 0;
    var todo := tracks.Keys;
    while todo != {}
      invariant todo <= tracks.Keys
      invariant masters == |Roots(tracks - todo)|
    {
      var id :| id in todo;
      RootsGrow(tracks, todo, id);
      todo := todo - {id};
      if tracks[id].output.None? {
        masters := masters + 1;
      }
    }
    assert tracks - {} == tracks;
  }

  lemma RootsGrow(tracks: map<TrackId, MixerTrack>, todo: set<TrackId>, id: TrackId)
    requires id in todo && todo <= tracks.Keys
    ensures |Roots(tracks - (todo - {id}))| ==
      |Roots(tracks - todo)| + if tracks[id].output.None? then 1 else 0
  {
    var before, after := Roots(tracks - todo), Roots(tracks - (todo - {id}));
    assert after == if tracks[id].output.None? then before + {id} else before;
  }

  /** Follows outputs from `id` until a track without one; `cycle` when that never comes. */
  method WalkToMaster(tracks: map<TrackId, MixerTrack>, id: TrackId) returns (cycle: bool)
    requires id in RoutingOf(tracks)
    ensures cycle <==> !Ends(RoutingOf(tracks), id)
  {
    var g := RoutingOf(tracks);
    var seen := {id};
    var walker := tracks[id].output.value;
    ghost var hops := 1;
    assert Walk(g, id, 1) == walker;
    while walker in tracks && tracks[walker].output.Some?
      invariant seen <= g.Keys
      invariant Walk(g, id, hops) == walker
      invariant forall s | s in seen :: Feeds(g, s, walker)
      decreases g.Keys - seen
    {
      if walker in seen {
        LoopNeverEnds(g, walker);
        EndsOnward(g, id, hops);
        return true;
      }
      forall s | s in seen + {walker} ensures Feeds(g, s, g[walker]) {
        FeedsNext(g, s, walker);
      }
      WalkStep(g, id, hops);
      seen := seen + {walker};
      walker := tracks[walker].output.value;
      hops := hops + 1;
    }
    return false;
  }
}
