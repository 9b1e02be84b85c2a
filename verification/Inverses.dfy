/**
 Commands undo and redo exactly. `Settled` ties a command to the states on its two sides: reverting
 leads back, and applying again leads forward to the very same command and contents. `Labels` asks
 for the same contents but lets the first redo re-capture, which is what a coalesced command does.
 */
module Inverses {
  import opened Options
  import opened Entities
  import opened Cascades
  import opened Integrity
  import opened Deletion
  import opened Commands

  ghost predicate Settled(c: Command, b: Tables, a: Tables) {
    var u := Revert(c, a);
    u.ok && u.tables == b && Apply(u.command, b) == Outcome(true, c, a)
  }

  /** `u` has been undone to `b`; applying it leads to `a`, and it is settled from then on. */
  ghost predicate Pending(u: Command, b: Tables, a: Tables) {
    var r := Apply(u, b);
    r.ok && r.tables == a && Settled(r.command, b, a)
  }

  /** `c` stands between `b` and `a`: undo leads from `a` to `b`, and redo back to `a`. */
  ghost predicate Labels(c: Command, b: Tables, a: Tables) {
    var u := Revert(c, a);
    u.ok && u.tables == b && Pending(u.command, b, a)
  }

  /** The half of it that a folded command always keeps: undo leads from `a` back to `b`. */
  ghost predicate Undoes(c: Command, b: Tables, a: Tables) {
    var u := Revert(c, a);
    u.ok && u.tables == b
  }

  /** The stored value an edit command would be built from is `part`. */
  predicate Holds(t: Tables, id: nat, part: Part) {
    match part
    case InstrumentPart(i) => id in t.instruments && t.instruments[id] == i
    case PatternPart(m) => id in t.patterns && t.patterns[id].meta == m
    case LanePart(l) => id in t.lanes && t.lanes[id] == l
    case ClipPart(c) => id in t.clips && t.clips[id] == c
    case TrackPart(k) => id in t.tracks && t.tracks[id] == k
  }

  predicate ParamIs(k: MixerTrack, effect: EffectId, parameter: ParamId, value: Option<real>) {
    var at := IndexOfEffect(k.effects, effect);
    at == |k.effects| ||
    (if parameter in k.effects[at].params then value == Some(k.effects[at].params[parameter]) else value == None)
  }

  /**
   A command as its factory builds it for the contents it is executed on: what it will restore is what
   is there now, and what it puts in passes the integrity check. Removals and note edits need nothing.
   */
  ghost predicate Admissible(c: Command, t: Tables)
    decreases c
  {
    match c
    case Add(e) => Insert(t, e).Some? ==> Sound(Insert(t, e).value)
    case Edit(id, _, change) =>
      Write(t, id, change.After()).Some? ==>
        Holds(t, id, change.Before()) && Sound(Write(t, id, change.After()).value)
    case EffectParam(k, e, p, was, _) => k in t.tracks ==> ParamIs(t.tracks[k], e, p, was)
    case SetTransport(from, _, _) => from == t.transport
    case SetMeta(from, _) => from == t.meta
    case Composite(cs) => AdmissibleAll(cs, t)
    case _ => true
  }

  ghost predicate AdmissibleAll(cs: seq<Command>, t: Tables)
    decreases cs
  {
    cs == [] ||
    var last := |cs| - 1;
    && AdmissibleAll(cs[..last], t)
    && (ApplyAll(cs[..last], t).ok ==> Admissible(cs[last], ApplyAll(cs[..last], t).tables))
  }

  // ----- additions ---------------------------------------------------------

  /** Nothing referred to an entity before it was added, so its cascade removes it and nothing else. */
  lemma {:induction false} AddedOnly(t: Tables, e: Entity)
    requires Consistent(t) && Keyed(t) && Insert(t, e).Some?
    ensures Delete(Insert(t, e).value, e) == Some(t)
  {
    match e
    case AnInstrument(i) => AddedInstrumentOnly(t, i);
    case APattern(p) => AddedPatternOnly(t, p);
    case ALane(l) => AddedLaneOnly(t, l);
    case AClip(c) => AddedClipOnly(t, c);
    case ATrack(k) => AddedTrackOnly(t, k);
  }

  lemma {:induction false} AddedPatternOnly(t: Tables, p: Pattern)
    requires Consistent(t) && Keyed(t) && Insert(t, APattern(p)).Some?
    ensures WithoutPattern(Insert(t, APattern(p)).value, p.id) == t
  {
    var r := WithoutPattern(Insert(t, APattern(p)).value, p.id);
    forall c | c in t.clips ensures !UsesPattern(t.clips[c], p.id) {
      assert ClipConsistent(t, t.clips[c]);
    }
    assert r.patterns == t.patterns;
    assert r.clips == t.clips;
  }

  lemma {:induction false} AddedClipOnly(t: Tables, c: Clip)
    requires Insert(t, AClip(c)).Some?
    ensures WithoutClip(Insert(t, AClip(c)).value, c.id) == t
  {
    assert WithoutClip(Insert(t, AClip(c)).value, c.id).clips == t.clips;
  }

  lemma {:induction false} AddedInstrumentOnly(t: Tables, i: Instrument)
    requires Consistent(t) && Keyed(t) && Insert(t, AnInstrument(i)).Some?
    ensures WithoutInstrument(Insert(t, AnInstrument(i)).value, i.id) == t
  {
    var r := WithoutInstrument(Insert(t, AnInstrument(i)).value, i.id);
    forall p | p in t.patterns ensures StripSequence(t.patterns[p], i.id) == t.patterns[p] {
      assert PatternConsistent(t, t.patterns[p]);
      assert forall j | j in t.patterns[p].sequences :: SequenceConsistent(t, j, t.patterns[p].sequences[j]);
      assert t.patterns[p].sequences - {i.id} == t.patterns[p].sequences;
    }
    assert r.patterns == t.patterns;
    forall c | c in t.clips ensures !AutomatesInstrument(t.clips[c], i.id) {
      assert ClipConsistent(t, t.clips[c]);
    }
    assert r.clips == t.clips;
    assert r.instruments == t.instruments;
  }

  lemma {:induction false} AddedLaneOnly(t: Tables, l: ArrangementLane)
    requires Consistent(t) && Keyed(t) && Insert(t, ALane(l)).Some?
    ensures WithoutLane(Insert(t, ALane(l)).value, l.id) == t
  {
    var r := WithoutLane(Insert(t, ALane(l)).value, l.id);
    forall k | k in t.lanes ensures Released(t.lanes[k], l.id) == t.lanes[k] {
      assert GroupConsistent(t, k);
    }
    assert r.lanes == t.lanes;
    forall c | c in t.clips ensures t.clips[c].lane != l.id {
      assert ClipConsistent(t, t.clips[c]);
    }
    assert r.clips == t.clips;
  }

  lemma {:induction false} AddedTrackOnly(t: Tables, k: MixerTrack)
    requires Consistent(t) && Keyed(t) && Insert(t, ATrack(k)).Some?
    ensures k.id != t.master && WithoutTrack(Insert(t, ATrack(k)).value, k.id) == t
  {
    var r := WithoutTrack(Insert(t, ATrack(k)).value, k.id);
    assert r.instruments == t.instruments by { NothingRoutesInto(t, k.id); }
    assert r.tracks == t.tracks by { NothingFeeds(t, k); }
    assert r.clips == t.clips by { NothingPlaysInto(t, k.id); }
  }

  lemma {:induction false} NothingRoutesInto(t: Tables, id: TrackId)
    requires InstrumentsConsistent(t) && id !in t.tracks
    ensures forall i | i in t.instruments :: RerouteInstrument(t.instruments[i], id, t.master) == t.instruments[i]
  {
    forall i | i in t.instruments ensures RerouteInstrument(t.instruments[i], id, t.master) == t.instruments[i] {
      assert InstrumentConsistent(t, t.instruments[i]);
      assert Rerouted(t.instruments[i].routing, id, t.master) == t.instruments[i].routing;
    }
  }

  lemma {:induction false} NothingFeeds(t: Tables, k: MixerTrack)
    requires TracksConsistent(t) && k.id !in t.tracks
    ensures forall j | j in t.tracks :: RepointTrack(t.tracks[j], k.id, t.master) == t.tracks[j]
  {
    forall j | j in t.tracks ensures RepointTrack(t.tracks[j], k.id, t.master) == t.tracks[j] {
      assert OutputConsistent(t, j);
    }
  }

  lemma {:induction false} NothingPlaysInto(t: Tables, id: TrackId)
    requires ClipsConsistent(t) && id !in t.tracks
    ensures RepointedClips(t.clips, id, t.master) == t.clips
  {
    forall c | c in t.clips
      ensures !AutomatesTrack(t.clips[c], id) && RepointClip(t.clips[c], id, t.master) == t.clips[c]
    {
      assert ClipConsistent(t, t.clips[c]);
    }
  }

  // ----- removals ----------------------------------------------------------

  /** Clips taken out and put back: the same map. */
  lemma {:induction false} ClipsComeBack(clips: map<ClipId, Clip>, gone: Clip -> bool)
    requires UNSET !in clips
    ensures RestoreClips(Keep(clips, gone), Select(clips, gone)) == clips
  {
  }

  lemma {:induction false} InstrumentComesBack(t: Tables, id: InstrumentId)
    requires Consistent(t) && Keyed(t) && id in t.instruments
    ensures RevertRemoveInstrument(WithoutInstrument(t, id), CaptureInstrument(t, id)) == Some(t)
  {
    var a, c := WithoutInstrument(t, id), CaptureInstrument(t, id);
    ClipsComeBack(t.clips, (x: Clip) => AutomatesInstrument(x, id));
    SequencesComeBack(t, id);
    assert a.instruments[id := t.instruments[id]] == t.instruments;
  }

  lemma {:induction false} SequencesComeBack(t: Tables, id: InstrumentId)
    requires PatternsConsistent(t)
    ensures PutSequences(WithoutInstrument(t, id).patterns, id, SequencesOf(t.patterns, id)) == t.patterns
  {
    var back := PutSequences(WithoutInstrument(t, id).patterns, id, SequencesOf(t.patterns, id));
    forall p | p in t.patterns ensures back[p] == t.patterns[p] {
      assert PatternConsistent(t, t.patterns[p]);
      assert id in t.patterns[p].sequences ==> SequenceConsistent(t, id, t.patterns[p].sequences[id]);
      SequenceComesBack(t.patterns[p], id);
    }
  }

  lemma {:induction false} SequenceComesBack(p: Pattern, id: InstrumentId)
    ensures id !in p.sequences ==> StripSequence(p, id) == p
    ensures id in p.sequences && p.sequences[id] != multiset{} ==>
      WithSequence(StripSequence(p, id), id, p.sequences[id]) == p
  {
    if id in p.sequences {
      assert (p.sequences - {id})[id := p.sequences[id]] == p.sequences;
    } else {
      assert p.sequences - {id} == p.sequences;
    }
  }

  lemma {:induction false} PatternComesBack(t: Tables, id: PatternId)
    requires Consistent(t) && Keyed(t) && id in t.patterns
    ensures RevertRemovePattern(WithoutPattern(t, id), CapturePattern(t, id)) == Some(t)
  {
    ClipsComeBack(t.clips, (x: Clip) => UsesPattern(x, id));
    assert (t.patterns - {id})[id := t.patterns[id]] == t.patterns;
  }

  lemma {:induction false} LaneComesBack(t: Tables, id: LaneId)
    requires Consistent(t) && Keyed(t) && id in t.lanes
    ensures RevertRemoveLane(WithoutLane(t, id), CaptureLane(t, id)) == Some(t)
  {
    ClipsComeBack(t.clips, (x: Clip) => x.lane == id);
    GroupsComeBack(t, id);
  }

  lemma {:induction false} GroupsComeBack(t: Tables, id: LaneId)
    requires LanesConsistent(t) && id in t.lanes
    ensures Regroup(WithoutLane(t, id).lanes[id := t.lanes[id]], id, CaptureLane(t, id).grouped) == t.lanes
  {
    assert GroupConsistent(t, id);
  }

  lemma {:induction false} TrackComesBack(t: Tables, id: TrackId)
    requires Consistent(t) && Keyed(t) && id in t.tracks && id != t.master
    ensures RevertRemoveTrack(WithoutTrack(t, id), CaptureTrack(t, id)) == Some(t)
  {
    var a, c := WithoutTrack(t, id), CaptureTrack(t, id);
    RoutingsComeBack(t, id);
    TrackClipsComeBack(t, id);
    InputsComeBack(t, id);
    assert Insert(a, ATrack(t.tracks[id])) == Some(a.(tracks := a.tracks[id := t.tracks[id]]));
  }

  lemma {:induction false} InputsComeBack(t: Tables, id: TrackId)
    requires Consistent(t) && Keyed(t) && id in t.tracks
    ensures PutInputs(WithoutTrack(t, id).tracks[id := t.tracks[id]], CaptureTrack(t, id).inputs, id) == t.tracks
  {
    assert OutputConsistent(t, id);
  }

  lemma {:induction false} RoutingsComeBack(t: Tables, id: TrackId)
    requires id in t.tracks
    ensures PutRoutings(WithoutTrack(t, id).instruments, CaptureTrack(t, id).routings) == t.instruments
  {
    var a, c := WithoutTrack(t, id), CaptureTrack(t, id);
    forall i | i in t.instruments ensures PutRoutings(a.instruments, c.routings)[i] == t.instruments[i] {
      if !RoutesInto(t.instruments[i], id) {
        assert Rerouted(t.instruments[i].routing, id, t.master) == t.instruments[i].routing;
      }
    }
  }

  lemma {:induction false} TrackClipsComeBack(t: Tables, id: TrackId)
    requires id in t.tracks && UNSET !in t.clips
    ensures RestoreClips(PutClips(WithoutTrack(t, id).clips, CaptureTrack(t, id).audioClips),
                         CaptureTrack(t, id).clips) == t.clips
  {
  }

  // ----- edits -------------------------------------------------------------

  lemma {:induction false} EditSettled(t: Tables, c: Command)
    requires c.Edit? && Write(t, c.id, c.change.After()).Some? && Holds(t, c.id, c.change.Before())
    ensures Settled(c, t, Write(t, c.id, c.change.After()).value)
  {
    var a := Write(t, c.id, c.change.After()).value;
    match c.change
    case InstrumentChange(_, _) => assert a.instruments[c.id := t.instruments[c.id]] == t.instruments;
    case PatternChange(_, _) => assert a.patterns[c.id := t.patterns[c.id]] == t.patterns;
    case LaneChange(_, _) => assert a.lanes[c.id := t.lanes[c.id]] == t.lanes;
    case ClipChange(_, _) => assert a.clips[c.id := t.clips[c.id]] == t.clips;
    case TrackChange(_, _) => assert a.tracks[c.id := t.tracks[c.id]] == t.tracks;
  }

  /** Writing a parameter twice is writing it the second time. */
  lemma {:induction false} ParamOverwrites(k: MixerTrack, effect: EffectId, parameter: ParamId, v: Option<real>, w: Option<real>)
    ensures WithParam(WithParam(k, effect, parameter, v), effect, parameter, w) == WithParam(k, effect, parameter, w)
  {
    var at := IndexOfEffect(k.effects, effect);
    var k' := WithParam(k, effect, parameter, v);
    if at < |k.effects| {
      FirstEffect(k'.effects, effect, at);
      assert PutParam(PutParam(k.effects[at].params, parameter, v), parameter, w)
          == PutParam(k.effects[at].params, parameter, w);
      assert k'.effects[at := WithParam(k, effect, parameter, w).effects[at]]
          == WithParam(k, effect, parameter, w).effects;
    }
  }

  lemma {:induction false} FirstEffect(effects: seq<EffectSlot>, effect: EffectId, at: nat)
    requires at < |effects| && effects[at].id == effect
    requires forall i | 0 <= i < at :: effects[i].id != effect
    ensures IndexOfEffect(effects, effect) == at
  {
  }

  lemma {:induction false} ParamRewritten(k: MixerTrack, effect: EffectId, parameter: ParamId, was: Option<real>)
    requires ParamIs(k, effect, parameter, was)
    ensures WithParam(k, effect, parameter, was) == k
  {
    var at := IndexOfEffect(k.effects, effect);
    if at < |k.effects| {
      assert PutParam(k.effects[at].params, parameter, was) == k.effects[at].params;
      assert WithParam(k, effect, parameter, was).effects == k.effects;
    }
  }

  lemma {:induction false} EffectParamSettled(t: Tables, c: Command)
    requires c.EffectParam? && c.track_ in t.tracks
    requires ParamIs(t.tracks[c.track_], c.effect, c.parameter, c.was)
    ensures Settled(c, t, WriteParam(t, c.track_, c.effect, c.parameter, Some(c.now)).value)
  {
    var a := WriteParam(t, c.track_, c.effect, c.parameter, Some(c.now)).value;
    ParamOverwrites(t.tracks[c.track_], c.effect, c.parameter, Some(c.now), c.was);
    ParamRewritten(t.tracks[c.track_], c.effect, c.parameter, c.was);
    assert WriteParam(a, c.track_, c.effect, c.parameter, c.was).value.tracks == t.tracks;
  }

  /** A track may change anything but its identifier, its output and which inserts it holds. */
  lemma {:induction false} TrackEditSound(t: Tables, id: TrackId, k: MixerTrack)
    requires Sound(t) && id in t.tracks
    requires k.id == id && k.output == t.tracks[id].output
    requires |k.effects| == |t.tracks[id].effects|
    requires forall i | 0 <= i < |k.effects| :: k.effects[i].id == t.tracks[id].effects[i].id
    ensures Sound(t.(tracks := t.tracks[id := k]))
  {
    var r := t.(tracks := t.tracks[id := k]);
    assert TracksConsistent(r) by { TrackEditRouting(t, id, k); }
    assert PatternsConsistent(r) by { PatternsStay(t, r); }
    assert LanesConsistent(r) by { LanesStay(t, r); }
    TrackEditReferences(t, id, k);
  }

  lemma {:induction false} TrackEditReferences(t: Tables, id: TrackId, k: MixerTrack)
    requires InstrumentsConsistent(t) && ClipsConsistent(t) && id in t.tracks
    requires |k.effects| == |t.tracks[id].effects|
    requires forall i | 0 <= i < |k.effects| :: k.effects[i].id == t.tracks[id].effects[i].id
    ensures InstrumentsConsistent(t.(tracks := t.tracks[id := k]))
    ensures ClipsConsistent(t.(tracks := t.tracks[id := k]))
  {
    var r := t.(tracks := t.tracks[id := k]);
    forall i | i in r.instruments ensures InstrumentConsistent(r, r.instruments[i]) {
      assert InstrumentConsistent(t, t.instruments[i]);
    }
    SameInserts(t.tracks[id], k);
    forall c | c in r.clips ensures ClipConsistent(r, r.clips[c]) {
      assert ClipConsistent(t, t.clips[c]);
    }
  }

  lemma {:induction false} TrackEditRouting(t: Tables, id: TrackId, k: MixerTrack)
    requires TracksConsistent(t) && id in t.tracks
    requires k.output == t.tracks[id].output
    requires |k.effects| == |t.tracks[id].effects|
    requires forall i | 0 <= i < |k.effects| :: k.effects[i].id == t.tracks[id].effects[i].id
    ensures TracksConsistent(t.(tracks := t.tracks[id := k]))
  {
    var r := t.(tracks := t.tracks[id := k]);
    assert RoutingOf(r.tracks) == RoutingOf(t.tracks) && Roots(r.tracks) == Roots(t.tracks) by {
      SameRouting(t.tracks, id, k);
    }
    forall j | j in r.tracks ensures EffectsConsistent(r.tracks[j].effects) {
      assert EffectsConsistent(t.tracks[j].effects);
    }
    forall j | j in r.tracks ensures OutputConsistent(r, j) {
      assert OutputConsistent(t, j);
    }
  }

  lemma {:induction false} SameRouting(tracks: map<TrackId, MixerTrack>, id: TrackId, k: MixerTrack)
    requires id in tracks && k.output == tracks[id].output
    ensures RoutingOf(tracks[id := k]) == RoutingOf(tracks)
    ensures Roots(tracks[id := k]) == Roots(tracks)
  {
  }

  lemma {:induction false} SameInserts(k: MixerTrack, m: MixerTrack)
    requires |k.effects| == |m.effects|
    requires forall i | 0 <= i < |k.effects| :: k.effects[i].id == m.effects[i].id
    ensures forall e :: HasEffect(k, e) <==> HasEffect(m, e)
  {
    forall e ensures HasEffect(k, e) <==> HasEffect(m, e) {
      var i, j := IndexOfEffect(k.effects, e), IndexOfEffect(m.effects, e);
      assert i < |k.effects| ==> m.effects[i].id == e;
      assert j < |m.effects| ==> k.effects[j].id == e;
    }
  }
}
