/**
 From the project to the schedule: every note of every pattern, placed by every audible clip, resolved onto
 channels, freed of overlaps, and converted to frames. The order in which clips, instruments and notes are
 visited does not show in what is stated here. Hashes, counters and timing are not part of this model.
 */
module Flattener {
  import opened Notes
  import opened Entities
  import opened Occurrences
  import opened Overlaps
  import opened TimeMaps
  import opened Projects
  import opened Addressing

  // ----- what plays ------------------------------------------------------------------

  /** A lane fires unless it is muted or another is soloed: an event gate, not a mixer mute. */
  ghost predicate LaneAudible(lanes: map<LaneId, ArrangementLane>, l: LaneId) {
    && l in lanes && !lanes[l].muted
    && ((exists k | k in lanes :: lanes[k].soloed) ==> lanes[l].soloed)
  }

  ghost predicate InstrumentSounds(instruments: map<InstrumentId, Instrument>, i: InstrumentId) {
    && i in instruments && !instruments[i].muted
    && ((exists k | k in instruments :: instruments[k].soloed) ==> instruments[i].soloed)
  }

  ghost predicate ClipPlays(t: Tables, c: ClipId) {
    c in t.clips && LaneAudible(t.lanes, t.clips[c].lane) && !t.clips[c].muted && 0 < t.clips[c].length
  }

  /** The note as the channel plays it: swung, shifted and gated. */
  function Played(note: Note, swing: real, settings: ChannelSettings): Note {
    var length := Round(note.length as real * settings.gatePercent as real / 100.0);
    note.(start := SwungPosition(note.start, swing) + settings.shiftTicks, length := if length < 1 then 1 else length)
  }

  function Clamped(x: real): real {
    if x < 0.0 then 0.0 else if x > 1.0 then 1.0 else x
  }

  function Loudness(note: Note, settings: ChannelSettings): real {
    Clamped(note.velocity as real / MAX_VELOCITY as real * settings.velocityTracking)
  }

  predicate KeyInRange(key: int, settings: ChannelSettings) {
    0 <= key <= 127 && settings.keyLow <= key <= settings.keyHigh
  }

  /** The note sounds in the clip from `iv.start` to `iv.end`, and `n` is that on the timeline. */
  predicate PlacedAt(clip: Clip, n: Ticks, swing: real, settings: ChannelSettings, channel: nat, note: Note,
                     iv: Interval, r: ResolvedNote) {
    && KeyInRange(note.key + clip.transforms.transpose, settings)
    && OccursAt(Played(note, swing, settings), PlacementOf(clip), n, iv.start, iv.end)
    && r == ResolvedNote(clip.start + iv.start, clip.start + iv.end, channel, note.key + clip.transforms.transpose,
                         Loudness(note, settings))
  }

  ghost predicate PlacedFrom(clip: Clip, n: Ticks, swing: real, settings: ChannelSettings, channel: nat, note: Note,
                             r: ResolvedNote) {
    exists iv :: PlacedAt(clip, n, swing, settings, channel, note, iv, r)
  }

  ghost predicate PlacedBy(t: Tables, a: Addresses, clip: Clip, p: Pattern, i: InstrumentId, r: ResolvedNote) {
    && i in p.sequences && InstrumentSounds(t.instruments, i) && i in a.instruments
    && exists note | note in p.sequences[i] ::
         PlacedFrom(clip, PatternEffectiveLength(p), p.meta.swing, t.instruments[i].settings, a.instruments[i], note, r)
  }

  ghost predicate PlacedIn(t: Tables, a: Addresses, clip: Clip, r: ResolvedNote) {
    && clip.source.PatternSource? && clip.source.pattern in t.patterns
    && var p := t.patterns[clip.source.pattern]; exists i | i in p.sequences :: PlacedBy(t, a, clip, p, i, r)
  }

  /** `r` is a note that some audible clip places on the timeline. */
  ghost predicate Placed(t: Tables, a: Addresses, r: ResolvedNote) {
    exists c | c in t.clips :: ClipPlays(t, c) && PlacedIn(t, a, t.clips[c], r)
  }

  // ----- the passes ------------------------------------------------------------------

  method AudibleLanes(t: Tables) returns (audible: seq<LaneId>)
    ensures forall l :: l in audible <==> LaneAudible(t.lanes, l)
  {
    var ids := Ascending(t.lanes.Keys);
    var anySolo := false;
    for k := 0 to |ids|
      invariant anySolo <==> exists j | 0 <= j < k :: t.lanes[ids[j]].soloed
    {
      if t.lanes[ids[k]].soloed {
        anySolo := true;
      }
    }
    assert anySolo <==> exists k | k in t.lanes :: t.lanes[k].soloed by {
      assert forall k | k in t.lanes :: k in ids;
    }
    audible := [];
    for k := 0 to |ids|
      invariant forall l :: l in audible <==> l in ids[..k] && !t.lanes[l].muted && (anySolo ==> t.lanes[l].soloed)
    {
      assert ids[..k + 1] == ids[..k] + [ids[k]];
      if !t.lanes[ids[k]].muted && (!anySolo || t.lanes[ids[k]].soloed) {
        audible := audible + [ids[k]];
      }
    }
    assert ids[..|ids|] == ids;
  }

  method AnyInstrumentSolo(t: Tables) returns (any: bool)
    ensures any <==> exists i | i in t.instruments :: t.instruments[i].soloed
  {
    any := false;
    var todo := t.instruments.Keys;
    while todo != {}
      invariant todo <= t.instruments.Keys
      invariant any <==> exists i | i in t.instruments && i !in todo :: t.instruments[i].soloed
    {
      var i :| i in todo;
      todo := todo - {i};
      if t.instruments[i].soloed {
        any := true;
        break;
      }
    }
  }

  method PlaceNote(clip: Clip, n: Ticks, swing: real, settings: ChannelSettings, channel: nat, note: Note)
    returns (out: seq<ResolvedNote>)
    ensures forall r :: r in out <==> PlacedFrom(clip, n, swing, settings, channel, note, r)
  {
    out := [];
    var key := note.key + clip.transforms.transpose;
    if key < 0 || key > 127 {
      return;
    }
    if key < settings.keyLow || key > settings.keyHigh {
      return;
    }
    var ivs := CollectOccurrences(Played(note, swing, settings), PlacementOf(clip), n);
    for k := 0 to |ivs|
      invariant forall r :: r in out <==> exists iv | iv in ivs[..k] ::
        r == ResolvedNote(clip.start + iv.start, clip.start + iv.end, channel, key, Loudness(note, settings))
    {
      assert ivs[..k + 1] == ivs[..k] + [ivs[k]];
      out := out + [ResolvedNote(clip.start + ivs[k].start, clip.start + ivs[k].end, channel, key,
                                 Loudness(note, settings))];
    }
    assert ivs[..|ivs|] == ivs;
    forall r ensures r in out <==> PlacedFrom(clip, n, swing, settings, channel, note, r) {
      if r in out {
        var iv :| iv in ivs
          && r == ResolvedNote(clip.start + iv.start, clip.start + iv.end, channel, key, Loudness(note, settings));
        assert Interval(iv.start, iv.end) in ivs;
        assert PlacedAt(clip, n, swing, settings, channel, note, iv, r);
      }
      if PlacedFrom(clip, n, swing, settings, channel, note, r) {
        var iv :| PlacedAt(clip, n, swing, settings, channel, note, iv, r);
        assert Interval(iv.start, iv.end) in ivs;
      }
    }
  }

  method PlaceSequence(clip: Clip, n: Ticks, swing: real, settings: ChannelSettings, channel: nat, notes: NoteBag)
    returns (out: seq<ResolvedNote>)
    ensures forall r :: r in out <==>
      exists note | note in notes :: PlacedFrom(clip, n, swing, settings, channel, note, r)
  {
    out := [];
    var todo := notes;
    while todo != multiset{}
      invariant todo <= notes
      invariant forall r | r in out :: exists note | note in notes :: PlacedFrom(clip, n, swing, settings, channel, note, r)
      invariant forall note, r | note in notes && PlacedFrom(clip, n, swing, settings, channel, note, r) ::
        note in todo || r in out
    {
      var note :| note in todo;
      todo := todo - multiset{note};
      var more := PlaceNote(clip, n, swing, settings, channel, note);
      out := out + more;
    }
  }

  method PlaceInstrument(t: Tables, a: Addresses, anySolo: bool, clip: Clip, p: Pattern, n: Ticks, i: InstrumentId)
    returns (out: seq<ResolvedNote>)
    requires anySolo <==> exists k | k in t.instruments :: t.instruments[k].soloed
    requires n == PatternEffectiveLength(p) && i in p.sequences
    ensures forall r :: r in out <==> PlacedBy(t, a, clip, p, i, r)
  {
    if i !in t.instruments || t.instruments[i].muted || (anySolo && !t.instruments[i].soloed) {
      return [];
    }
    if i !in a.instruments {
      return [];
    }
    out := PlaceSequence(clip, n, p.meta.swing, t.instruments[i].settings, a.instruments[i], p.sequences[i]);
  }

  ghost predicate FromInstruments(t: Tables, a: Addresses, clip: Clip, p: Pattern, ids: seq<InstrumentId>,
                                  out: seq<ResolvedNote>) {
    forall r :: r in out <==> exists i | i in ids :: PlacedBy(t, a, clip, p, i, r)
  }

  lemma {:induction false} FromOneMore(t: Tables, a: Addresses, clip: Clip, p: Pattern, ids: seq<InstrumentId>,
                                       out: seq<ResolvedNote>, i: InstrumentId, more: seq<ResolvedNote>)
    requires FromInstruments(t, a, clip, p, ids, out)
    requires forall r :: r in more <==> PlacedBy(t, a, clip, p, i, r)
    ensures FromInstruments(t, a, clip, p, ids + [i], out + more)
  {
    forall r ensures r in out + more <==> exists k | k in ids + [i] :: PlacedBy(t, a, clip, p, k, r) {
      assert i in ids + [i];
    }
  }

  method PlacePattern(t: Tables, a: Addresses, anySolo: bool, clip: Clip, p: Pattern, n: Ticks)
    returns (out: seq<ResolvedNote>)
    requires anySolo <==> exists i | i in t.instruments :: t.instruments[i].soloed
    requires n == PatternEffectiveLength(p)
    ensures forall r :: r in out <==> exists i | i in p.sequences :: PlacedBy(t, a, clip, p, i, r)
  {
    out := [];
    var ids := Ascending(p.sequences.Keys);
    for k := 0 to |ids|
      invariant FromInstruments(t, a, clip, p, ids[..k], out)
    {
      assert ids[..k + 1] == ids[..k] + [ids[k]];
      assert ids[k] in ids;
      var more := PlaceInstrument(t, a, anySolo, clip, p, n, ids[k]);
      FromOneMore(t, a, clip, p, ids[..k], out, ids[k], more);
      out := out + more;
    }
    assert ids[..|ids|] == ids;
    AllInstruments(t, a, clip, p, ids, out);
  }

  lemma AllInstruments(t: Tables, a: Addresses, clip: Clip, p: Pattern, ids: seq<InstrumentId>, out: seq<ResolvedNote>)
    requires FromInstruments(t, a, clip, p, ids, out) && forall i :: i in ids <==> i in p.sequences
    ensures forall r :: r in out <==> exists i | i in p.sequences :: PlacedBy(t, a, clip, p, i, r)
  {
  }

  // ----- automation and audio ----------------------------------------------------------

  /** An automation point on the timeline, with the index of the channel or insert it is for. */
  datatype ResolvedParam = ResolvedParam(position: Ticks, index: nat, parameter: ParamId, value: real)

  datatype ResolvedAudio = ResolvedAudio(start: Ticks, channel: nat)

  predicate ParamBefore(x: ResolvedParam, y: ResolvedParam) {
    if x.position != y.position then x.position < y.position
    else if x.index != y.index then x.index < y.index
    else x.parameter < y.parameter
  }

  /** Everything that the clips visited so far put on the timeline. */
  datatype Timeline = Timeline(
    notes: seq<ResolvedNote>, params: seq<ResolvedParam>, effectParams: seq<ResolvedParam>, audio: seq<ResolvedAudio>)

  function Joined(x: Timeline, y: Timeline): Timeline {
    Timeline(x.notes + y.notes, x.params + y.params, x.effectParams + y.effectParams, x.audio + y.audio)
  }

  ghost predicate PointPlaced(clip: Clip, s: AutomationSource, index: nat, x: ResolvedParam) {
    exists p | p in s.points ::
      0 <= p.position < clip.length && x == ResolvedParam(clip.start + p.position, index, s.parameter, p.value)
  }

  /** The curves a clip plays: its own, or those its pattern owns. */
  function Curves(t: Tables, clip: Clip): seq<AutomationSource> {
    if clip.source.PatternSource? then
      if clip.source.pattern in t.patterns then t.patterns[clip.source.pattern].automation else []
    else if clip.source.AutomationClip? then [clip.source.automation]
    else []
  }

  ghost predicate ParamFrom(a: Addresses, clip: Clip, s: AutomationSource, x: ResolvedParam) {
    s.targetKind.InstrumentTarget? && s.instrument in a.instruments && PointPlaced(clip, s, a.instruments[s.instrument], x)
  }

  ghost predicate EffectParamFrom(a: Addresses, clip: Clip, s: AutomationSource, x: ResolvedParam) {
    && s.targetKind.EffectTarget? && (s.mixerTrack, s.effect) in a.effects
    && PointPlaced(clip, s, a.effects[(s.mixerTrack, s.effect)], x)
  }

  method PlacePoints(clip: Clip, s: AutomationSource, index: nat) returns (out: seq<ResolvedParam>)
    ensures forall x :: x in out <==> PointPlaced(clip, s, index, x)
  {
    out := [];
    for k := 0 to |s.points|
      invariant forall x :: x in out <==> exists p | p in s.points[..k] ::
        0 <= p.position < clip.length && x == ResolvedParam(clip.start + p.position, index, s.parameter, p.value)
    {
      assert s.points[..k + 1] == s.points[..k] + [s.points[k]];
      var point := s.points[k];
      if point.position < 0 || point.position >= clip.length {
        continue;
      }
      out := out + [ResolvedParam(clip.start + point.position, index, s.parameter, point.value)];
    }
    assert s.points[..|s.points|] == s.points;
  }

  method PlaceCurve(a: Addresses, clip: Clip, s: AutomationSource)
    returns (params: seq<ResolvedParam>, effectParams: seq<ResolvedParam>)
    ensures forall x :: x in params <==> ParamFrom(a, clip, s, x)
    ensures forall x :: x in effectParams <==> EffectParamFrom(a, clip, s, x)
  {
    params, effectParams := [], [];
    if s.targetKind.InstrumentTarget? {
      if s.instrument in a.instruments {
        params := PlacePoints(clip, s, a.instruments[s.instrument]);
      }
    } else if s.targetKind.EffectTarget? {
      if (s.mixerTrack, s.effect) in a.effects {
        effectParams := PlacePoints(clip, s, a.effects[(s.mixerTrack, s.effect)]);
      }
    }
  }

  method PlaceCurves(a: Addresses, clip: Clip, curves: seq<AutomationSource>)
    returns (params: seq<ResolvedParam>, effectParams: seq<ResolvedParam>)
    ensures forall x :: x in params <==> exists s | s in curves :: ParamFrom(a, clip, s, x)
    ensures forall x :: x in effectParams <==> exists s | s in curves :: EffectParamFrom(a, clip, s, x)
  {
    params, effectParams := [], [];
    for k := 0 to |curves|
      invariant forall x :: x in params <==> exists s | s in curves[..k] :: ParamFrom(a, clip, s, x)
      invariant forall x :: x in effectParams <==> exists s | s in curves[..k] :: EffectParamFrom(a, clip, s, x)
    {
      assert curves[..k + 1] == curves[..k] + [curves[k]];
      var more, moreEffects := PlaceCurve(a, clip, curves[k]);
      params, effectParams := params + more, effectParams + moreEffects;
    }
    assert curves[..|curves|] == curves;
  }

  /** What one clip puts on the timeline. */
  ghost predicate ClipOn(t: Tables, a: Addresses, c: ClipId, x: Timeline)
    requires c in t.clips
  {
    var clip := t.clips[c];
    && (forall r :: r in x.notes <==> PlacedIn(t, a, clip, r))
    && (forall p :: p in x.params <==> exists s | s in Curves(t, clip) :: ParamFrom(a, clip, s, p))
    && (forall p :: p in x.effectParams <==> exists s | s in Curves(t, clip) :: EffectParamFrom(a, clip, s, p))
    && (forall u :: u in x.audio <==>
          clip.source.AudioSource? && c in a.audio && u == ResolvedAudio(clip.start, a.audio[c]))
  }

  method PlacePatternClip(project: Project, t: Tables, a: Addresses, anySolo: bool, clip: Clip) returns (x: Timeline)
    requires anySolo <==> exists i | i in t.instruments :: t.instruments[i].soloed
    requires clip.source.PatternSource? && clip.source.pattern in t.patterns
    ensures forall r :: r in x.notes <==> PlacedIn(t, a, clip, r)
    ensures forall p :: p in x.params <==> exists s | s in Curves(t, clip) :: ParamFrom(a, clip, s, p)
    ensures forall p :: p in x.effectParams <==> exists s | s in Curves(t, clip) :: EffectParamFrom(a, clip, s, p)
    ensures x.audio == []
  {
    var p := t.patterns[clip.source.pattern];
    var n := project.EffectiveLengthOf(p);
    var notes := PlacePattern(t, a, anySolo, clip, p, n);
    var params, effectParams := PlaceCurves(a, clip, p.automation);
    x := Timeline(notes, params, effectParams, []);
  }

  method PlaceClip(project: Project, t: Tables, a: Addresses, anySolo: bool, c: ClipId) returns (x: Timeline)
    requires c in t.clips && (anySolo <==> exists i | i in t.instruments :: t.instruments[i].soloed)
    ensures ClipOn(t, a, c, x)
  {
    var clip := t.clips[c];
    if clip.source.PatternSource? {
      if clip.source.pattern !in t.patterns {
        return Timeline([], [], [], []);
      }
      x := PlacePatternClip(project, t, a, anySolo, clip);
      return;
    }
    if clip.source.AudioSource? {
      var starts := if c in a.audio then [ResolvedAudio(clip.start, a.audio[c])] else [];
      return Timeline([], [], [], starts);
    }
    var params, effectParams := PlaceCurves(a, clip, [clip.source.automation]);
    x := Timeline([], params, effectParams, []);
  }

  // ----- the whole project ---------------------------------------------------------------

  /** The timeline holds what the clips of `seen` that play put on it, and nothing else. */
  ghost predicate Holds(t: Tables, a: Addresses, seen: set<ClipId>, x: Timeline) {
    && (forall r :: r in x.notes <==> exists c | c in seen :: ClipPlays(t, c) && PlacedIn(t, a, t.clips[c], r))
    && (forall p :: p in x.params <==> exists c | c in seen :: ClipPlays(t, c) && CurvePoint(t, a, c, p))
    && (forall p :: p in x.effectParams <==> exists c | c in seen :: ClipPlays(t, c) && EffectPoint(t, a, c, p))
    && (forall u :: u in x.audio <==> exists c | c in seen :: ClipPlays(t, c) && AudioAt(t, a, c, u))
  }

  ghost predicate CurvePoint(t: Tables, a: Addresses, c: ClipId, p: ResolvedParam) {
    c in t.clips && exists s | s in Curves(t, t.clips[c]) :: ParamFrom(a, t.clips[c], s, p)
  }

  ghost predicate EffectPoint(t: Tables, a: Addresses, c: ClipId, p: ResolvedParam) {
    c in t.clips && exists s | s in Curves(t, t.clips[c]) :: EffectParamFrom(a, t.clips[c], s, p)
  }

  ghost predicate AudioAt(t: Tables, a: Addresses, c: ClipId, u: ResolvedAudio) {
    && c in t.clips && t.clips[c].source.AudioSource? && c in a.audio
    && u == ResolvedAudio(t.clips[c].start, a.audio[c])
  }

  lemma {:induction false} HoldsMore(t: Tables, a: Addresses, seen: set<ClipId>, x: Timeline, c: ClipId, y: Timeline)
    requires Holds(t, a, seen, x) && ClipPlays(t, c) && ClipOn(t, a, c, y)
    ensures Holds(t, a, seen + {c}, Joined(x, y))
  {
    var z := Joined(x, y);
    forall r ensures r in z.notes <==> exists d | d in seen + {c} :: ClipPlays(t, d) && PlacedIn(t, a, t.clips[d], r) {
      assert r in z.notes <==> r in x.notes || PlacedIn(t, a, t.clips[c], r);
    }
    forall p ensures p in z.params <==> exists d | d in seen + {c} :: ClipPlays(t, d) && CurvePoint(t, a, d, p) {
      assert p in z.params <==> p in x.params || CurvePoint(t, a, c, p);
    }
    forall p ensures p in z.effectParams <==> exists d | d in seen + {c} :: ClipPlays(t, d) && EffectPoint(t, a, d, p) {
      assert p in z.effectParams <==> p in x.effectParams || EffectPoint(t, a, c, p);
    }
    forall u ensures u in z.audio <==> exists d | d in seen + {c} :: ClipPlays(t, d) && AudioAt(t, a, d, u) {
      assert u in z.audio <==> u in x.audio || AudioAt(t, a, c, u);
    }
  }

  lemma {:induction false} HoldsSilent(t: Tables, a: Addresses, seen: set<ClipId>, x: Timeline, c: ClipId)
    requires Holds(t, a, seen, x) && !ClipPlays(t, c)
    ensures Holds(t, a, seen + {c}, x)
  {
  }

  /** `end` is where the last clip that plays ends, and 0 for none. */
  ghost predicate IsEnd(t: Tables, seen: set<ClipId>, end: Ticks) {
    && 0 <= end
    && (forall c | c in seen && ClipPlays(t, c) :: t.clips[c].start + t.clips[c].length <= end)
    && (end == 0 || exists c | c in seen :: ClipPlays(t, c) && t.clips[c].start + t.clips[c].length == end)
  }

  ghost predicate Gathered(t: Tables, a: Addresses, seen: set<ClipId>, x: Timeline, end: Ticks) {
    Holds(t, a, seen, x) && IsEnd(t, seen, end)
  }

  method VisitClip(project: Project, t: Tables, a: Addresses, anySolo: bool, c: ClipId, before: Timeline,
                   endBefore: Ticks, ghost seen: set<ClipId>)
    returns (x: Timeline, end: Ticks)
    requires c in t.clips && LaneAudible(t.lanes, t.clips[c].lane)
    requires anySolo <==> exists i | i in t.instruments :: t.instruments[i].soloed
    requires Gathered(t, a, seen, before, endBefore)
    ensures Gathered(t, a, seen + {c}, x, end)
  {
    x, end := before, endBefore;
    if t.clips[c].muted || t.clips[c].length <= 0 {
      HoldsSilent(t, a, seen, x, c);
      return;
    }
    var reach := t.clips[c].start + t.clips[c].length;
    if end < reach {
      end := reach;
    }
    assert IsEnd(t, seen + {c}, end);
    var more := PlaceClip(project, t, a, anySolo, c);
    HoldsMore(t, a, seen, x, c, more);
    x := Joined(x, more);
  }

  ghost function OnLane(t: Tables, l: LaneId): set<ClipId> {
    set c | c in t.clips && t.clips[c].lane == l
  }

  method VisitLane(project: Project, t: Tables, a: Addresses, anySolo: bool, lane: LaneId, before: Timeline,
                   endBefore: Ticks, ghost seen: set<ClipId>)
    returns (x: Timeline, end: Ticks)
    requires t.clips == project.clips && LaneAudible(t.lanes, lane)
    requires anySolo <==> exists i | i in t.instruments :: t.instruments[i].soloed
    requires Gathered(t, a, seen, before, endBefore)
    ensures Gathered(t, a, seen + OnLane(t, lane), x, end)
  {
    x, end := before, endBefore;
    var clips := project.ClipsWhere((c: Clip) => c.lane == lane);
    ghost var visited := seen;
    for j := 0 to |clips|
      invariant visited == seen + set i | 0 <= i < j :: clips[i]
      invariant Gathered(t, a, visited, x, end)
    {
      assert clips[j] in clips;
      x, end := VisitClip(project, t, a, anySolo, clips[j], x, end, visited);
      visited := visited + {clips[j]};
    }
    assert visited == seen + OnLane(t, lane) by {
      assert (set i | 0 <= i < |clips| :: clips[i]) == OnLane(t, lane);
    }
  }

  /** Visits every clip of every audible lane. */
  method Gather(project: Project, a: Addresses) returns (x: Timeline, end: Ticks)
    ensures Gathered(project.Copy(), a, project.clips.Keys, x, end)
  {
    var t := project.Copy();
    var anySolo := AnyInstrumentSolo(t);
    var lanes := AudibleLanes(t);
    x, end := Timeline([], [], [], []), 0;
    ghost var seen: set<ClipId> := {};
    for k := 0 to |lanes|
      invariant Gathered(t, a, seen, x, end)
      invariant seen <= t.clips.Keys && forall c | c in t.clips && t.clips[c].lane in lanes[..k] :: c in seen
    {
      assert lanes[..k + 1] == lanes[..k] + [lanes[k]];
      assert lanes[k] in lanes;
      x, end := VisitLane(project, t, a, anySolo, lanes[k], x, end, seen);
      seen := seen + OnLane(t, lanes[k]);
    }
    assert lanes[..|lanes|] == lanes;
    AllSeen(t, a, seen, x, end);
  }

  /** Clips on lanes that are not audible do not play. */
  lemma {:induction false} AllSeen(t: Tables, a: Addresses, seen: set<ClipId>, x: Timeline, end: Ticks)
    requires seen <= t.clips.Keys && Gathered(t, a, seen, x, end)
    requires forall c | c in t.clips && LaneAudible(t.lanes, t.clips[c].lane) :: c in seen
    ensures Gathered(t, a, t.clips.Keys, x, end)
  {
  }
}
