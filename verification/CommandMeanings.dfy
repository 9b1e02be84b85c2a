/**
 What a command does to the project, said entry by entry: which entry it writes and with what, which entries the
 deletion of another takes away or re-points, and that every other entry and every other table stays.
 */
module CommandMeanings {
  import opened Options
  import opened Notes
  import opened Entities
  import opened Cascades
  import opened Commands
  import opened Inverses

  /** `after` is `before` with `v` at `id`, and everything else as it was. */
  predicate Put<V(==)>(before: map<nat, V>, after: map<nat, V>, id: nat, v: V) {
    && after.Keys == before.Keys + {id} && after[id] == v
    && forall k | k in before && k != id :: after[k] == before[k]
  }

  /** `after` is `before` without the entries of `gone`. */
  predicate Dropped<V(==)>(before: map<nat, V>, after: map<nat, V>, gone: set<nat>) {
    after.Keys == before.Keys - gone && forall k | k in after :: after[k] == before[k]
  }

  // ----- adding ---------------------------------------------------------------------------------

  predicate Added<V(==)>(ok: bool, before: map<nat, V>, after: map<nat, V>, id: nat, v: V) {
    (ok <==> id != UNSET && id !in before) && if ok then Put(before, after, id, v) else after == before
  }

  /** A new entity comes in under its identifier, if that is set and free. */
  lemma {:induction false} AddMeans(e: Entity, t: Tables)
    ensures var o := Apply(Add(e), t);
      var r := o.tables;
      match e
      case AnInstrument(i) => Added(o.ok, t.instruments, r.instruments, i.id, i) && r == t.(instruments := r.instruments)
      case APattern(p) => Added(o.ok, t.patterns, r.patterns, p.id, p) && r == t.(patterns := r.patterns)
      case ALane(l) => Added(o.ok, t.lanes, r.lanes, l.id, l) && r == t.(lanes := r.lanes)
      case AClip(c) => Added(o.ok, t.clips, r.clips, c.id, c) && r == t.(clips := r.clips)
      case ATrack(k) => Added(o.ok, t.tracks, r.tracks, k.id, k) && r == t.(tracks := r.tracks)
  {
  }

  // ----- editing --------------------------------------------------------------------------------

  predicate Overwritten<V(==)>(ok: bool, before: map<nat, V>, after: map<nat, V>, id: nat, v: V) {
    (ok <==> id in before) && if ok then Put(before, after, id, v) else after == before
  }

  /** An edit leaves its new value where the old one was. A pattern keeps its notes and its automation. */
  lemma {:induction false} EditMeans(id: nat, field: string, change: Change, t: Tables)
    ensures var o := Apply(Edit(id, field, change), t);
      var r := o.tables;
      match change
      case InstrumentChange(_, i) =>
        Overwritten(o.ok, t.instruments, r.instruments, id, i) && r == t.(instruments := r.instruments)
      case PatternChange(_, m) =>
        && (o.ok <==> id in t.patterns) && r == t.(patterns := r.patterns)
        && (o.ok ==> Put(t.patterns, r.patterns, id, t.patterns[id].(meta := m)))
        && (!o.ok ==> r == t)
      case LaneChange(_, l) => Overwritten(o.ok, t.lanes, r.lanes, id, l) && r == t.(lanes := r.lanes)
      case ClipChange(_, c) => Overwritten(o.ok, t.clips, r.clips, id, c) && r == t.(clips := r.clips)
      case TrackChange(_, k) => Overwritten(o.ok, t.tracks, r.tracks, id, k) && r == t.(tracks := r.tracks)
  {
  }

  /** After a successful edit its new value is what is stored. */
  lemma {:induction false} EditHolds(id: nat, field: string, change: Change, t: Tables)
    requires Apply(Edit(id, field, change), t).ok
    ensures Holds(Apply(Edit(id, field, change), t).tables, id, change.After())
  {
    EditMeans(id, field, change, t);
  }

  /** A parameter change sets one parameter of the first insert with that identity, and nothing else. */
  lemma {:induction false} EffectParamMeans(track: TrackId, effect: EffectId, parameter: ParamId, was: Option<real>,
                                            now: real, t: Tables)
    ensures var o := Apply(EffectParam(track, effect, parameter, was, now), t);
      var r := o.tables;
      && (o.ok <==> track in t.tracks) && r == t.(tracks := r.tracks) && r.tracks.Keys == t.tracks.Keys
      && (forall k | k in t.tracks && k != track :: r.tracks[k] == t.tracks[k])
      && (o.ok ==> r.tracks[track] == t.tracks[track].(effects := r.tracks[track].effects)
                   && Turned(t.tracks[track].effects, r.tracks[track].effects, effect, parameter, now))
  {
    if track in t.tracks {
      TurnsOne(t.tracks[track], effect, parameter, now);
    }
  }

  /** The slot is the first with this identity. */
  predicate FirstOf(slots: seq<EffectSlot>, effect: EffectId, i: nat) {
    i < |slots| && slots[i].id == effect && forall j | 0 <= j < i :: slots[j].id != effect
  }

  predicate Turned(before: seq<EffectSlot>, after: seq<EffectSlot>, effect: EffectId, parameter: ParamId, now: real) {
    && |after| == |before|
    && forall i: nat | i < |before| ::
         if FirstOf(before, effect, i)
         then after[i] == before[i].(params := after[i].params) && Put(before[i].params, after[i].params, parameter, now)
         else after[i] == before[i]
  }

  lemma {:induction false} TurnsOne(k: MixerTrack, effect: EffectId, parameter: ParamId, now: real)
    ensures var r := WithParam(k, effect, parameter, Some(now));
      r == k.(effects := r.effects) && Turned(k.effects, r.effects, effect, parameter, now)
  {
    var at := IndexOfEffect(k.effects, effect);
    assert forall i: nat | i < |k.effects| && FirstOf(k.effects, effect, i) :: at == i;
  }

  lemma {:induction false} MetaMeans(from: ProjectMeta, to: ProjectMeta, t: Tables)
    ensures var o := Apply(SetMeta(from, to), t); o.ok && o.tables == t.(meta := to)
  {
  }

  // ----- deleting -----------------------------------------------------------------------------------

  /** An instrument goes with its sequences and with the clips that automate it. */
  lemma {:induction false} RemoveInstrumentMeans(id: InstrumentId, c: Command, t: Tables)
    requires c.RemoveInstrument? && c.instrumentId == id
    ensures var o := Apply(c, t);
      var r := o.tables;
      && (o.ok <==> id in t.instruments) && (!o.ok ==> r == t)
      && (o.ok ==>
            && r == t.(instruments := r.instruments, patterns := r.patterns, clips := r.clips)
            && Dropped(t.instruments, r.instruments, {id})
            && r.patterns.Keys == t.patterns.Keys
            && (forall p | p in t.patterns ::
                  && r.patterns[p] == t.patterns[p].(sequences := r.patterns[p].sequences)
                  && Dropped(t.patterns[p].sequences, r.patterns[p].sequences, {id}))
            && Dropped(t.clips, r.clips, set x | x in t.clips && Automates(t.clips[x], InstrumentTarget)
                                                 && t.clips[x].source.automation.instrument == id))
  {
  }

  predicate Automates(c: Clip, kind: TargetKind) {
    match c.source
    case AutomationClip(a) => a.targetKind == kind
    case _ => false
  }

  /** A pattern goes with the clips that play it. */
  lemma {:induction false} RemovePatternMeans(id: PatternId, c: Command, t: Tables)
    requires c.RemovePattern? && c.patternId == id
    ensures var o := Apply(c, t);
      var r := o.tables;
      && (o.ok <==> id in t.patterns) && (!o.ok ==> r == t)
      && (o.ok ==>
            && r == t.(patterns := r.patterns, clips := r.clips)
            && Dropped(t.patterns, r.patterns, {id})
            && Dropped(t.clips, r.clips, set x | x in t.clips && t.clips[x].source == PatternSource(id)))
  {
  }

  /** A lane goes with its clips; lanes that group under it are released. */
  lemma {:induction false} RemoveLaneMeans(id: LaneId, c: Command, t: Tables)
    requires c.RemoveLane? && c.laneId == id
    ensures var o := Apply(c, t);
      var r := o.tables;
      && (o.ok <==> id in t.lanes) && (!o.ok ==> r == t)
      && (o.ok ==>
            && r == t.(lanes := r.lanes, clips := r.clips)
            && r.lanes.Keys == t.lanes.Keys - {id}
            && (forall l | l in r.lanes ::
                  r.lanes[l] == if t.lanes[l].groupId == Some(id) then t.lanes[l].(groupId := None) else t.lanes[l])
            && Dropped(t.clips, r.clips, set x | x in t.clips && t.clips[x].lane == id))
  {
  }

  lemma {:induction false} RemoveClipMeans(id: ClipId, c: Command, t: Tables)
    requires c.RemoveClip? && c.clipId == id
    ensures var o := Apply(c, t);
      var r := o.tables;
      && (o.ok <==> id in t.clips) && (!o.ok ==> r == t)
      && (o.ok ==> r == t.(clips := r.clips) && Dropped(t.clips, r.clips, {id}))
  {
  }

  /** A mixer track other than the master goes with its automation and that of its inserts. What came into it goes into
      the master: routes of instruments, port by port, outputs of tracks, and audio clips. */
  lemma {:induction false} RemoveTrackMeans(id: TrackId, c: Command, t: Tables)
    requires c.RemoveTrack? && c.trackId == id
    ensures var o := Apply(c, t);
      var r := o.tables;
      && (o.ok <==> id in t.tracks && id != t.master) && (!o.ok ==> r == t)
      && (o.ok ==>
            && r == t.(instruments := r.instruments, tracks := r.tracks, clips := r.clips)
            && RoutesMoved(t, r, id) && OutputsMoved(t, r, id) && ClipsMoved(t, r, id))
  {
    if id in t.tracks && id != t.master {
      RoutesMove(t, id);
      OutputsMove(t, id);
      ClipsMove(t, id);
    }
  }

  ghost predicate RoutesMoved(t: Tables, r: Tables, id: TrackId) {
    && r.instruments.Keys == t.instruments.Keys
    && forall i | i in t.instruments ::
         var before, after := t.instruments[i].routing, r.instruments[i].routing;
         && r.instruments[i] == t.instruments[i].(routing := after) && |after| == |before|
         && forall k | 0 <= k < |before| ::
              && after[k].port == before[k].port
              && after[k].track == if before[k].track == id then t.master else before[k].track
  }

  ghost predicate OutputsMoved(t: Tables, r: Tables, id: TrackId) {
    && r.tracks.Keys == t.tracks.Keys - {id}
    && forall k | k in r.tracks ::
         r.tracks[k] == if t.tracks[k].output == Some(id) then t.tracks[k].(output := Some(t.master)) else t.tracks[k]
  }

  ghost predicate ClipsMoved(t: Tables, r: Tables, id: TrackId) {
    && (forall x :: x in r.clips <==> x in t.clips && !OnTrack(t.clips[x], id))
    && forall x | x in r.clips ::
         match t.clips[x].source
         case AudioSource(_, _, _, _, _, destination, _, _) =>
           r.clips[x] == if destination == id then t.clips[x].(source := t.clips[x].source.(destination := t.master))
                         else t.clips[x]
         case _ => r.clips[x] == t.clips[x]
  }

  predicate OnTrack(c: Clip, id: TrackId) {
    (Automates(c, MixerTrackTarget) || Automates(c, EffectTarget)) && c.source.automation.mixerTrack == id
  }

  lemma {:induction false} RoutesMove(t: Tables, id: TrackId)
    ensures RoutesMoved(t, WithoutTrack(t, id), id)
  {
  }

  lemma {:induction false} OutputsMove(t: Tables, id: TrackId)
    ensures OutputsMoved(t, WithoutTrack(t, id), id)
  {
  }

  lemma {:induction false} ClipsMove(t: Tables, id: TrackId)
    ensures ClipsMoved(t, WithoutTrack(t, id), id)
  {
  }

  // ----- notes --------------------------------------------------------------------------------------

  /** The notes of an instrument in a pattern. */
  function NotesIn(t: Tables, p: PatternId, i: InstrumentId): NoteBag {
    if p in t.patterns && i in t.patterns[p].sequences then t.patterns[p].sequences[i] else multiset{}
  }

  /** A note edit takes its notes out and puts others in, if the ones to go are there and the ones to come are valid. A
      sequence that becomes empty is no more. Of the clips, those of the pattern that were exactly as long as it follow
      it when its length changes. */
  lemma {:induction false} NoteEditMeans(c: Command, t: Tables)
    requires c.NoteEdit?
    ensures var p, i := c.patternId, c.instrumentId;
      var o := Apply(c, t);
      var r := o.tables;
      && (o.ok <==> p in t.patterns && i in t.instruments && multiset(c.removed) <= NotesIn(t, p, i)
                    && forall k | 0 <= k < |c.added| :: IsValidNote(c.added[k]))
      && (!o.ok ==> r == t)
      && (o.ok ==>
            && r == t.(patterns := r.patterns, clips := r.clips)
            && Put(t.patterns, r.patterns, p, t.patterns[p].(sequences := r.patterns[p].sequences))
            && NotesIn(r, p, i) == NotesIn(t, p, i) - multiset(c.removed) + multiset(c.added)
            && (i in r.patterns[p].sequences <==> NotesIn(r, p, i) != multiset{})
            && Dropped(t.patterns[p].sequences - {i}, r.patterns[p].sequences - {i}, {})
            && ClipsFollowed(t, r, p))
  {
    var p, i := c.patternId, c.instrumentId;
    EditsIff(t, p, i, c.removed, c.added);
    if EditSequence(t, p, i, c.removed, c.added).Some? {
      var r := EditSequence(t, p, i, c.removed, c.added).value;
      SequenceMeans(t, p, i, c.removed, c.added);
      FollowMeans(t, r, p);
      assert Apply(c, t).ok && Apply(c, t).tables == Follow(r, p, PatternEffectiveLength(t.patterns[p]));
    }
  }

  lemma EditsIff(t: Tables, p: PatternId, i: InstrumentId, take: seq<Note>, give: seq<Note>)
    ensures EditSequence(t, p, i, take, give).Some? <==>
            p in t.patterns && i in t.instruments && multiset(take) <= NotesIn(t, p, i)
            && forall k | 0 <= k < |give| :: IsValidNote(give[k])
  {
  }

  ghost predicate ClipsFollowed(t: Tables, r: Tables, p: PatternId)
    requires p in t.patterns && p in r.patterns
  {
    var before, after := PatternEffectiveLength(t.patterns[p]), PatternEffectiveLength(r.patterns[p]);
    && r.clips.Keys == t.clips.Keys
    && forall x | x in t.clips ::
         r.clips[x] == if t.clips[x].source == PatternSource(p) && t.clips[x].length == before
                       then t.clips[x].(length := after) else t.clips[x]
  }

  lemma {:induction false} SequenceMeans(t: Tables, p: PatternId, i: InstrumentId, take: seq<Note>, give: seq<Note>)
    requires EditSequence(t, p, i, take, give).Some?
    ensures var r := EditSequence(t, p, i, take, give).value;
      && p in t.patterns && r == t.(patterns := r.patterns)
      && Put(t.patterns, r.patterns, p, t.patterns[p].(sequences := r.patterns[p].sequences))
      && NotesIn(r, p, i) == NotesIn(t, p, i) - multiset(take) + multiset(give)
      && (i in r.patterns[p].sequences <==> NotesIn(r, p, i) != multiset{})
      && Dropped(t.patterns[p].sequences - {i}, r.patterns[p].sequences - {i}, {})
  {
  }

  lemma {:induction false} FollowMeans(t: Tables, r: Tables, p: PatternId)
    requires p in t.patterns && p in r.patterns && r.clips == t.clips
    ensures ClipsFollowed(t, Follow(r, p, PatternEffectiveLength(t.patterns[p])), p)
    ensures Follow(r, p, PatternEffectiveLength(t.patterns[p])) ==
            r.(clips := Follow(r, p, PatternEffectiveLength(t.patterns[p])).clips)
  {
  }

  // ----- transport ----------------------------------------------------------------------------------

  /** `n` is `x` rounded, halves up: the whole number at most half away, the upper of two. */
  predicate Nearest(x: real, n: int) {
    n as real - 0.5 <= x < n as real + 0.5
  }

  /** A transport setting comes into force. If it moves the tempo, every audio clip that takes up time is rescaled by the
      ratio of the tempi to the nearest tick, and to one at least; nothing else changes. */
  lemma {:induction false} TransportMeans(from: TransportState, to: TransportState, lengths: map<ClipId, Ticks>, t: Tables)
    ensures var o := Apply(SetTransport(from, to, lengths), t);
      var r := o.tables;
      && o.ok && r == t.(transport := to, clips := r.clips) && r.clips.Keys == t.clips.Keys
      && forall x | x in t.clips ::
           if 0.0 < from.tempo && 0.0 < to.tempo && from.tempo != to.tempo && t.clips[x].source.AudioSource?
              && 0 < t.clips[x].length
           then r.clips[x] == t.clips[x].(length := r.clips[x].length)
                && Rescaling(t.clips[x].length, r.clips[x].length, to.tempo / from.tempo)
           else r.clips[x] == t.clips[x]
  {
    forall x | x in t.clips && 0.0 < from.tempo && 0.0 < to.tempo && 0 < t.clips[x].length
      ensures Rescaling(t.clips[x].length, Rescale(t.clips[x].length, from.tempo, to.tempo), to.tempo / from.tempo)
    {
      RescaleMeans(t.clips[x].length, from.tempo, to.tempo);
    }
  }

  /** The nearest whole length; 1 stands for all that would round to less. */
  predicate Rescaling(length: Ticks, scaled: Ticks, ratio: real) {
    1 <= scaled && (Nearest(length as real * ratio, scaled) || (scaled == 1 && length as real * ratio < 0.5))
  }

  lemma RescaleMeans(length: Ticks, fromTempo: real, toTempo: real)
    requires 0 < length && 0.0 < fromTempo && 0.0 < toTempo
    ensures Rescaling(length, Rescale(length, fromTempo, toTempo), toTempo / fromTempo)
  {
    assert 0.0 < toTempo / fromTempo by { Quotient(toTempo, fromTempo); }
    assert 0.0 < length as real * (toTempo / fromTempo);
  }

  lemma Quotient(a: real, b: real)
    requires 0.0 < a && 0.0 < b
    ensures 0.0 < a / b
  {
  }

  // ----- several commands ---------------------------------------------------------------------------

  /** The commands apply one after another, from each state to the next. */
  ghost predicate OneByOne(cs: seq<Command>, states: seq<Tables>) {
    && |states| == |cs| + 1
    && forall k | 0 <= k < |cs| :: Apply(cs[k], states[k]).ok && Apply(cs[k], states[k]).tables == states[k + 1]
  }

  /** A composite applies its steps in order, and succeeds if each of them does. */
  lemma {:induction false} CompositeMeans(cs: seq<Command>, t: Tables)
    ensures var o := Apply(Composite(cs), t);
      && (o.ok <==> exists states :: OneByOne(cs, states) && states[0] == t)
      && forall states | OneByOne(cs, states) && states[0] == t :: o.tables == states[|cs|]
  {
    if ApplyAll(cs, t).ok {
      var states := StepsOf(cs, t);
    }
    forall states | OneByOne(cs, states) && states[0] == t
      ensures ApplyAll(cs, t).ok && ApplyAll(cs, t).tables == states[|cs|]
    {
      StepsLead(cs, states);
    }
  }

  lemma {:induction false} StepsOf(cs: seq<Command>, t: Tables) returns (states: seq<Tables>)
    requires ApplyAll(cs, t).ok
    ensures OneByOne(cs, states) && states[0] == t && states[|cs|] == ApplyAll(cs, t).tables
    decreases |cs|
  {
    if cs == [] {
      states := [t];
    } else {
      var n := |cs| - 1;
      states := StepsOf(cs[..n], t);
      states := states + [ApplyAll(cs, t).tables];
    }
  }

  lemma {:induction false} StepsLead(cs: seq<Command>, states: seq<Tables>)
    requires OneByOne(cs, states)
    ensures ApplyAll(cs, states[0]).ok && ApplyAll(cs, states[0]).tables == states[|cs|]
    decreases |cs|
  {
    if cs != [] {
      var n := |cs| - 1;
      assert OneByOne(cs[..n], states[..n + 1]);
      StepsLead(cs[..n], states[..n + 1]);
      assert Apply(cs[n], states[n]).ok;
    }
  }

  // ----- folding ------------------------------------------------------------------------------------

  predicate SameKind(x: Change, y: Change) {
    || (x.InstrumentChange? && y.InstrumentChange?) || (x.PatternChange? && y.PatternChange?)
    || (x.LaneChange? && y.LaneChange?) || (x.ClipChange? && y.ClipChange?) || (x.TrackChange? && y.TrackChange?)
  }

  /** Two edits fold if they write the same field of the same entity, two parameter changes if they turn the same
      parameter, two note edits of one gesture if the second takes out what the first put in, and two transport settings
      always; no others. */
  lemma {:induction false} FoldsIff(c: Command, next: Command)
    ensures Coalesce(c, next).Some? <==>
      || (c.Edit? && next.Edit? && c.id == next.id && c.field == next.field && SameKind(c.change, next.change))
      || (c.EffectParam? && next.EffectParam? && c.track_ == next.track_ && c.effect == next.effect
          && c.parameter == next.parameter)
      || (c.NoteEdit? && next.NoteEdit? && c.coalescable && next.coalescable && c.patternId == next.patternId
          && c.instrumentId == next.instrumentId && c.added == next.removed)
      || (c.SetTransport? && next.SetTransport?)
  {
  }
}
