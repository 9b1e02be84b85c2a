/**
 Two commands that are built from several edits: moving an instrument in the rack, and cutting a clip in two.
 Reordering keeps the orders a numbering and moves nothing else past anything; cutting an automation clip changes
 nothing that plays, and cutting others changes nothing under exact conditions.
 */
module Factories {
  import opened Options
  import opened Notes
  import opened Entities
  import opened Integrity
  import opened Deletion
  import opened Commands
  import opened Inverses
  import opened Overlaps
  import opened Addressing
  import opened Flattener
  import AudioCuts
  import opened Occurrences
  import PatternCuts

  // ----- reordering ------------------------------------------------------------------------------

  function ClampOrder(target: int, maximum: int): int {
    if target < 0 then 0 else if maximum < target then maximum else target
  }

  /** Where an instrument goes when one moves from `source` to `target`. */
  function NewOrder(order: int, moving: bool, source: int, target: int): int {
    if moving then target
    else if source < target && source < order <= target then order - 1
    else if target < source && target <= order < source then order + 1
    else order
  }

  /** The instruments once those in `seen` have their new orders. */
  function Renumbered(m: map<InstrumentId, Instrument>, id: InstrumentId, source: int, target: int,
                      seen: set<InstrumentId>): map<InstrumentId, Instrument>
  {
    map i | i in m :: if i in seen then m[i].(order := NewOrder(m[i].order, i == id, source, target)) else m[i]
  }

  /** The command that moves an instrument, if that changes anything: one edit for each order that changes. */
  method ReorderInstrument(t: Tables, id: InstrumentId, target: int) returns (command: Option<Command>)
    ensures command.Some? <==> id in t.instruments && ClampOrder(target, |t.instruments| - 1) != t.instruments[id].order
    ensures command.Some? ==>
      var m := t.instruments;
      var r := Apply(command.value, t);
      r.ok && r.tables ==
      t.(instruments := Renumbered(m, id, m[id].order, ClampOrder(target, |m| - 1), m.Keys))
    ensures Sound(t) && command.Some? ==> Admissible(command.value, t)
  {
    var m := t.instruments;
    if id !in m {
      return None;
    }
    var goal := ClampOrder(target, |m| - 1);
    var source := m[id].order;
    if source == goal {
      return None;
    }
    var commands: seq<Command> := [];
    var todo := m.Keys;
    assert t.(instruments := Renumbered(m, id, source, goal, {})) == t;
    while todo != {}
      invariant todo <= m.Keys
      invariant Renumbers(t, id, source, goal, m.Keys - todo, commands)
      invariant Sound(t) ==> AdmissibleAll(commands, t)
    {
      var other :| other in todo;
      var next := NewOrder(m[other].order, other == id, source, goal);
      ghost var seen := m.Keys - todo;
      todo := todo - {other};
      assert m.Keys - todo == seen + {other};
      if next == m[other].order {
        SameNumber(m, id, source, goal, seen, other);
        continue;
      }
      var edit := Edit(other, "order", InstrumentChange(m[other], m[other].(order := next)));
      OneMoreEdit(t, id, source, goal, seen, commands, other, edit);
      commands := commands + [edit];
    }
    assert m.Keys - {} == m.Keys;
    return Some(Composite(commands));
  }

  /** The edits so far apply, and renumber just the instruments seen. */
  ghost predicate Renumbers(t: Tables, id: InstrumentId, source: int, target: int, seen: set<InstrumentId>,
                            commands: seq<Command>)
  {
    var r := ApplyAll(commands, t);
    r.ok && r.tables == t.(instruments := Renumbered(t.instruments, id, source, target, seen))
  }

  lemma SameNumber(m: map<InstrumentId, Instrument>, id: InstrumentId, source: int, target: int,
                   seen: set<InstrumentId>, other: InstrumentId)
    requires other in m && NewOrder(m[other].order, other == id, source, target) == m[other].order
    ensures Renumbered(m, id, source, target, seen + {other}) == Renumbered(m, id, source, target, seen)
  {
  }

  lemma OneMoreEdit(t: Tables, id: InstrumentId, source: int, target: int, seen: set<InstrumentId>,
                    commands: seq<Command>, other: InstrumentId, edit: Command)
    requires Renumbers(t, id, source, target, seen, commands) && other in t.instruments && other !in seen
    requires var i := t.instruments[other];
      edit == Edit(other, "order", InstrumentChange(i, i.(order := NewOrder(i.order, other == id, source, target))))
    requires Sound(t) ==> AdmissibleAll(commands, t)
    ensures Renumbers(t, id, source, target, seen + {other}, commands + [edit])
    ensures Sound(t) ==> AdmissibleAll(commands + [edit], t)
  {
    var now := t.(instruments := Renumbered(t.instruments, id, source, target, seen));
    assert (commands + [edit])[..|commands + [edit]| - 1] == commands;
    var after := Renumbered(t.instruments, id, source, target, seen + {other});
    assert now.instruments[other := edit.change.newInstrument] == after;
    if Sound(t) {
      RenumberedSound(t, id, source, target, seen + {other});
    }
  }

  lemma RenumberedSound(t: Tables, id: InstrumentId, source: int, target: int, seen: set<InstrumentId>)
    requires Sound(t)
    ensures Sound(t.(instruments := Renumbered(t.instruments, id, source, target, seen)))
  {
    var r := t.(instruments := Renumbered(t.instruments, id, source, target, seen));
    assert InstrumentsConsistent(r) by {
      forall i | i in r.instruments ensures InstrumentConsistent(r, r.instruments[i]) {
        assert InstrumentConsistent(t, t.instruments[i]);
      }
    }
    assert PatternsConsistent(r) by {
      forall p | p in r.patterns ensures PatternConsistent(r, r.patterns[p]) {
        assert PatternConsistent(t, t.patterns[p]);
        forall i | i in r.patterns[p].sequences ensures SequenceConsistent(r, i, r.patterns[p].sequences[i]) {
          assert SequenceConsistent(t, i, t.patterns[p].sequences[i]);
        }
      }
    }
    assert LanesConsistent(r) by { LanesStay(t, r); }
    assert ClipsConsistent(r) by {
      forall c | c in r.clips ensures ClipConsistent(r, r.clips[c]) {
        assert ClipConsistent(t, t.clips[c]);
      }
    }
    SameTracks(t, r);
  }

  /** No two instruments have the same order, and the orders are below `n`. */
  ghost predicate Numbered(m: map<InstrumentId, Instrument>, n: int) {
    && (forall i | i in m :: 0 <= m[i].order < n)
    && (forall i, j | i in m && j in m && i != j :: m[i].order != m[j].order)
  }

  lemma OrdersShift(a: int, b: int, source: int, target: int, n: int)
    requires 0 <= a < n && 0 <= b < n && 0 <= source < n && 0 <= target < n && a != source && b != source
    ensures 0 <= NewOrder(a, false, source, target) < n && NewOrder(a, false, source, target) != target
    ensures NewOrder(a, false, source, target) < NewOrder(b, false, source, target) <==> a < b
  {
  }

  /** A numbering stays one; the instrument lands where it was sent; and no two others change sides. */
  lemma ReorderKeepsNumbering(m: map<InstrumentId, Instrument>, id: InstrumentId, target: int)
    requires id in m && Numbered(m, |m|)
    ensures var goal := ClampOrder(target, |m| - 1);
      var r := Renumbered(m, id, m[id].order, goal, m.Keys);
      && Numbered(r, |m|) && r[id].order == goal
      && forall i, j | i in m && j in m && i != id && j != id ::
           (r[i].order < r[j].order <==> m[i].order < m[j].order)
  {
    var source, goal := m[id].order, ClampOrder(target, |m| - 1);
    var r := Renumbered(m, id, source, goal, m.Keys);
    assert 0 <= goal < |m| by { assert |m.Keys| == |m| && id in m.Keys; }
    forall i | i in m && i != id
      ensures r[i].order == NewOrder(m[i].order, false, source, goal) && 0 <= r[i].order < |m| && r[i].order != goal
    {
      OrdersShift(m[i].order, m[i].order, source, goal, |m|);
    }
    forall i, j | i in m && j in m && i != id && j != id
      ensures r[i].order < r[j].order <==> m[i].order < m[j].order
    {
      OrdersShift(m[i].order, m[j].order, source, goal, |m|);
    }
  }

  // ----- cutting a clip -----------------------------------------------------------------

  /** The points from `at` on, counted from there. */
  function PointsFrom(points: seq<AutomationPoint>, at: Ticks): seq<AutomationPoint> {
    if points == [] then []
    else
      var rest, p := PointsFrom(points[..|points| - 1], at), points[|points| - 1];
      if p.position < at then rest else rest + [AutomationPoint(p.position - at, p.value)]
  }

  lemma {:induction false} PointKept(points: seq<AutomationPoint>, at: Ticks, q: AutomationPoint)
    ensures q in PointsFrom(points, at) <==> 0 <= q.position && AutomationPoint(q.position + at, q.value) in points
  {
    if points != [] {
      var front, last := points[..|points| - 1], points[|points| - 1];
      PointKept(front, at, q);
      var p := AutomationPoint(q.position + at, q.value);
      assert points == front + [last];
    }
  }

  method KeepPoints(points: seq<AutomationPoint>, at: Ticks) returns (kept: seq<AutomationPoint>)
    ensures kept == PointsFrom(points, at)
  {
    kept := [];
    for k := 0 to |points|
      invariant kept == PointsFrom(points[..k], at)
    {
      assert points[..k + 1][..k] == points[..k];
      if points[k].position < at {
        continue;
      }
      kept := kept + [AutomationPoint(points[k].position - at, points[k].value)];
    }
    assert points[..|points|] == points;
  }

  function LeftPart(clip: Clip, at: Ticks): Clip {
    clip.(length := at - clip.start,
          source := if clip.source.AudioSource? then AudioCuts.FirstSource(clip.source, at - clip.start)
                    else clip.source)
  }

  /** What the part after the cut plays: a curve from the cut on, a file from where the cut falls in it; a pattern from
      where the whole clip began in it. */
  function RightSource(clip: Clip, at: Ticks): ClipSource {
    match clip.source
    case AutomationClip(a) => AutomationClip(a.(points := PointsFrom(a.points, at - clip.start)))
    case AudioSource(_, _, _, _, _, _, _, _) => AudioCuts.SecondSource(clip.source, clip.length, at - clip.start)
    case PatternSource(_) => clip.source
  }

  function RightPart(clip: Clip, at: Ticks, newId: ClipId): Clip {
    clip.(id := newId, start := at, length := clip.start + clip.length - at, source := RightSource(clip, at))
  }

  predicate Inside(clip: Clip, at: Ticks) {
    clip.start < at < clip.start + clip.length
  }

  function Cut(t: Tables, id: ClipId, at: Ticks, newId: ClipId): Tables
    requires id in t.clips
  {
    t.(clips := t.clips[id := LeftPart(t.clips[id], at)][newId := RightPart(t.clips[id], at, newId)])
  }

  /** The command that cuts a clip; a cut on an edge is no cut. The new clip gets a fresh identifier. */
  method SplitClip(t: Tables, id: ClipId, at: Ticks, newId: ClipId) returns (command: Option<Command>)
    requires newId != UNSET && newId !in t.clips
    ensures command.Some? <==> id in t.clips && Inside(t.clips[id], at)
    ensures command.Some? ==> Apply(command.value, t).ok && Apply(command.value, t).tables == Cut(t, id, at, newId)
    ensures Sound(t) && command.Some? ==> Admissible(command.value, t)
  {
    if id !in t.clips {
      return None;
    }
    var clip := t.clips[id];
    if at <= clip.start || at >= clip.start + clip.length {
      return None;
    }
    var left := at - clip.start;
    var source := clip.source;
    var shorter := clip.(length := left);
    if source.AudioSource? {
      source := AudioCuts.SecondSource(source, clip.length, left);
      shorter := shorter.(source := AudioCuts.FirstSource(clip.source, left));
    } else if source.AutomationClip? {
      var kept := KeepPoints(source.automation.points, left);
      source := AutomationClip(source.automation.(points := kept));
    }
    var right := clip.(id := newId, start := at, length := clip.start + clip.length - at, source := source);
    var shorten := Edit(id, "length", ClipChange(clip, shorter));
    assert shorter == LeftPart(clip, at) && right == RightPart(clip, at, newId);
    CutApplies(t, id, at, newId);
    return Some(Composite([shorten, Add(AClip(right))]));
  }

  /** The frames of the source, counted in ticks, that `left` ticks of a clip of `length` take: as many as they are, or
      for a stretched clip with a window their share of it, in whole ticks. */
  predicate Takes(s: ClipSource, length: Ticks, left: Ticks, consumed: Ticks)
    requires s.AudioSource?
  {
    if s.stretchMode.Off? || s.sourceLength <= 0 then consumed == left
    else consumed * length <= left * s.sourceLength < (consumed + 1) * length
  }

  /** What the cut makes of a clip: the first part keeps its identifier, the second one starts at the cut, both are
      otherwise as the clip was, and their sources are windows onto the same file, the same pattern, or the same curve.
      The window of the second part begins where `consumed` ends. */
  lemma {:induction false} CutMeans(t: Tables, id: ClipId, at: Ticks, newId: ClipId) returns (consumed: Ticks)
    requires id in t.clips && newId !in t.clips && Inside(t.clips[id], at)
    ensures var c, r := t.clips[id], Cut(t, id, at, newId);
      var first, second := r.clips[id], r.clips[newId];
      && r == t.(clips := r.clips) && r.clips.Keys == t.clips.Keys + {newId}
      && (forall x | x in t.clips && x != id :: r.clips[x] == t.clips[x])
      && first == c.(length := at - c.start, source := first.source)
      && second == c.(id := newId, start := at, length := c.start + c.length - at, source := second.source)
      && match c.source
         case PatternSource(_) => first.source == c.source == second.source
         case AutomationClip(a) =>
           first.source == c.source && second.source.AutomationClip?
           && second.source.automation == a.(points := second.source.automation.points)
         case AudioSource(_, _, _, _, _, _, _, _) =>
           WindowsCut(c.source, c.length, at - c.start, consumed, first.source, second.source)
  {
    var c := t.clips[id];
    consumed := 0;
    if c.source.AudioSource? {
      consumed := AudioCuts.Consumed(c.source, c.length, at - c.start);
      WindowsAreCut(c.source, c.length, at - c.start);
    }
  }

  predicate WindowsCut(s: ClipSource, length: Ticks, left: Ticks, consumed: Ticks, first: ClipSource, second: ClipSource)
    requires s.AudioSource?
  {
    && Takes(s, length, left, consumed)
    && first == s.(sourceLength := if s.stretchMode.Off? || s.sourceLength <= 0 then left else s.sourceLength)
    && second == s.(sourceOffset := s.sourceOffset + consumed,
         sourceLength := if s.sourceLength <= 0 then s.sourceLength
                         else if consumed < s.sourceLength then s.sourceLength - consumed else 0)
  }

  lemma {:induction false} WindowsAreCut(s: ClipSource, length: Ticks, left: Ticks)
    requires s.AudioSource? && 0 < left < length
    ensures WindowsCut(s, length, left, AudioCuts.Consumed(s, length, left), AudioCuts.FirstSource(s, left),
                       AudioCuts.SecondSource(s, length, left))
  {
    if s.stretchMode.Off? || s.sourceLength <= 0 {
      AudioCuts.SteadyCut(s, length, left);
      assert AudioCuts.Consumed(s, length, left) == left;
    } else {
      StretchedShare(s, length, left);
      AudioCuts.StretchedFirst(s, left);
    }
  }

  lemma StretchedShare(s: ClipSource, length: Ticks, left: Ticks)
    requires s.AudioSource? && !s.stretchMode.Off? && 0 < s.sourceLength && 0 < left < length
    ensures Takes(s, length, left, AudioCuts.Consumed(s, length, left))
  {
    var x := left as real * (s.sourceLength as real / length as real);
    AudioCuts.Quotient(s.sourceLength as real, length as real);
    assert 0.0 <= x;
    Share(left, s.sourceLength, length, x.Floor);
  }

  lemma Share(left: Ticks, span: Ticks, length: Ticks, consumed: Ticks)
    requires 0 < left && 0 < span && 0 < length
    requires consumed == (left as real * (span as real / length as real)).Floor
    ensures consumed * length <= left * span < (consumed + 1) * length
  {
    var x := left as real * (span as real / length as real);
    assert x * length as real == (left * span) as real by {
      assert span as real / length as real * length as real == span as real;
    }
    Times(consumed as real, x, length as real);
    Times(x, (consumed + 1) as real, length as real);
    assert consumed as real * length as real == (consumed * length) as real;
    assert (consumed + 1) as real * length as real == ((consumed + 1) * length) as real;
  }

  lemma Times(a: real, b: real, k: real)
    requires a <= b && 0.0 < k
    ensures a * k <= b * k && (a < b ==> a * k < b * k)
  {
    assert b * k - a * k == (b - a) * k;
  }

  ghost function CutCommands(t: Tables, id: ClipId, at: Ticks, newId: ClipId): seq<Command>
    requires id in t.clips
  {
    [Edit(id, "length", ClipChange(t.clips[id], LeftPart(t.clips[id], at))),
     Add(AClip(RightPart(t.clips[id], at, newId)))]
  }

  lemma CutApplies(t: Tables, id: ClipId, at: Ticks, newId: ClipId)
    requires newId != UNSET && newId !in t.clips && id in t.clips
    requires Inside(t.clips[id], at)
    ensures var r := ApplyAll(CutCommands(t, id, at, newId), t); r.ok && r.tables == Cut(t, id, at, newId)
    ensures Sound(t) ==> AdmissibleAll(CutCommands(t, id, at, newId), t)
  {
    var cs := CutCommands(t, id, at, newId);
    Shortened(t, id, at, newId);
    if Sound(t) {
      CutSound(t, id, at, newId);
    }
  }

  /** The first of the two commands. */
  lemma Shortened(t: Tables, id: ClipId, at: Ticks, newId: ClipId)
    requires id in t.clips && Inside(t.clips[id], at)
    ensures var cs := CutCommands(t, id, at, newId);
      var r := ApplyAll(cs[..1], t);
      && r.ok && r.tables == t.(clips := t.clips[id := LeftPart(t.clips[id], at)])
      && (Sound(t) ==> AdmissibleAll(cs[..1], t))
  {
    var cs := CutCommands(t, id, at, newId);
    assert cs[..1] == [cs[0]] && [cs[0]][..0] == [];
    assert ApplyAll([], t) == ListOutcome(true, [], t);
    if Sound(t) {
      ShortenedSound(t, id, at);
      assert AdmissibleAll([], t);
    }
  }

  lemma ShortenedSound(t: Tables, id: ClipId, at: Ticks)
    requires Sound(t) && id in t.clips && Inside(t.clips[id], at)
    ensures Sound(t.(clips := t.clips[id := LeftPart(t.clips[id], at)]))
  {
    assert ClipConsistent(t, t.clips[id]);
    ClipSound(t, id, LeftPart(t.clips[id], at));
  }

  lemma CutSound(t: Tables, id: ClipId, at: Ticks, newId: ClipId)
    requires Sound(t) && newId != UNSET && newId !in t.clips && id in t.clips
    requires Inside(t.clips[id], at)
    ensures Sound(Cut(t, id, at, newId))
  {
    assert ClipConsistent(t, t.clips[id]);
    ShortenedSound(t, id, at);
    var left := t.(clips := t.clips[id := LeftPart(t.clips[id], at)]);
    ClipSound(left, newId, RightPart(t.clips[id], at, newId));
  }

  lemma ClipSound(t: Tables, id: ClipId, clip: Clip)
    requires Sound(t) && id != UNSET && clip.id == id && ClipConsistent(t, clip)
    ensures Sound(t.(clips := t.clips[id := clip]))
  {
    var r := t.(clips := t.clips[id := clip]);
    assert InstrumentsConsistent(r) by {
      forall i | i in r.instruments ensures InstrumentConsistent(r, r.instruments[i]) {
        assert InstrumentConsistent(t, t.instruments[i]);
      }
    }
    assert PatternsConsistent(r) by { PatternsStay(t, r); }
    assert LanesConsistent(r) by { LanesStay(t, r); }
    assert ClipsConsistent(r) by {
      forall c | c in r.clips ensures ClipConsistent(r, r.clips[c]) {
        assert c != id ==> ClipConsistent(t, t.clips[c]);
      }
    }
    SameTracks(t, r);
  }

  /** A note of a pattern occurs in the parts of a clip as in the whole, or not. */
  lemma CutPatternIff(clip: Clip, at: Ticks, newId: ClipId, note: Note, n: Ticks)
    requires clip.source.PatternSource? && Inside(clip, at) && 0 <= note.start < n && 0 < note.length
    ensures var whole := PlacementOf(clip);
      var left, right := PlacementOf(LeftPart(clip, at)), PlacementOf(RightPart(clip, at, newId));
      PatternCuts.Seamless(note, n, whole, left, right, at - clip.start) <==>
      PatternCuts.PlaysOn(note, whole, n, at - clip.start)
  {
    PatternPlacements(clip, at, newId);
    PatternCuts.PatternCutIff(note, PlacementOf(clip), n, at - clip.start);
  }

  lemma PatternPlacements(clip: Clip, at: Ticks, newId: ClipId)
    requires clip.source.PatternSource?
    ensures PlacementOf(LeftPart(clip, at)) == PatternCuts.Before(PlacementOf(clip), at - clip.start)
    ensures PlacementOf(RightPart(clip, at, newId)) == PatternCuts.After(PlacementOf(clip), at - clip.start)
  {
  }

  /** At every moment the parts of an audio clip sound as the whole did, for a file of this duration. */
  ghost predicate SoundsAsBefore(clip: Clip, at: Ticks, newId: ClipId, duration: Ticks)
    requires clip.source.AudioSource?
  {
    var left, right := LeftPart(clip, at), RightPart(clip, at, newId);
    forall elapsed: real ::
      AudioCuts.Heard(clip.source, clip.length, duration, elapsed) ==
      AudioCuts.Heard(left.source, left.length, duration, elapsed)
      + AudioCuts.Heard(right.source, right.length, duration, elapsed - (at - clip.start) as real)
  }

  lemma CutAudioIff(clip: Clip, at: Ticks, newId: ClipId, duration: Ticks)
    requires clip.source.AudioSource? && Inside(clip, at)
    ensures SoundsAsBefore(clip, at, newId, duration) <==>
            AudioCuts.PlaysOn(clip.source, at - clip.start, duration)
  {
    AudioCuts.SeamlessIff(clip.source, clip.length, at - clip.start, duration);
    assert RightPart(clip, at, newId).length == clip.length - (at - clip.start);
  }

  /** A clip at its start, of eight ticks. */
  function EightTicks(source: ClipSource, loop: bool): Clip {
    Clip(1, 1, 0, 8, false, source, ClipTransforms(0, loop, 0))
  }

  /** A window of four ticks stretched over eight, cut in the middle: the first part keeps the whole window. */
  lemma StretchedCutIsHeard(newId: ClipId)
    ensures var clip := EightTicks(AudioSource("", 0, 4, 1.0, false, 1, Stretch, 0.0), false);
      !SoundsAsBefore(clip, 4, newId, 10) && LeftPart(clip, 4).source.sourceLength == 4
      && RightPart(clip, 4, newId).source.sourceOffset == 2
  {
    var clip := EightTicks(AudioSource("", 0, 4, 1.0, false, 1, Stretch, 0.0), false);
    CutAudioIff(clip, 4, newId, 10);
    HalfSpeed(clip.source);
  }

  lemma HalfSpeed(s: ClipSource)
    requires s.AudioSource? && s.stretchMode.Stretch? && s.sourceLength == 4
    ensures AudioCuts.Consumed(s, 4, 4) == 4 && AudioCuts.Consumed(s, 8, 4) == 2
  {
    assert AudioCuts.StretchRatio(s, 4) == 1.0 && AudioCuts.StretchRatio(s, 8) == 0.5;
  }

  /** A pattern of four ticks looped over eight, cut after two: the second part starts over in the middle of a pass. */
  lemma LoopingCutIsHeard(newId: ClipId, note: Note)
    requires note.start == 0 && note.length == 1
    ensures var clip := EightTicks(PatternSource(1), true);
      var right := PlacementOf(RightPart(clip, 2, newId));
      && !PatternCuts.Seamless(note, 4, PlacementOf(clip), PlacementOf(LeftPart(clip, 2)), right, 2)
      && OccursAt(note, right, 4, 0, 1) && !OccursAt(note, PlacementOf(clip), 4, 2, 3)
  {
    var clip := EightTicks(PatternSource(1), true);
    CutPatternIff(clip, 2, newId, note, 4);
    assert Under(note, PlacementOf(clip), 4, 4);
  }

  /** Each half plays its part of the curve, and together they play the curve. */
  lemma PointsSplit(clip: Clip, at: Ticks, newId: ClipId, index: nat, x: ResolvedParam)
    requires clip.source.AutomationClip? && Inside(clip, at)
    ensures var left, right := LeftPart(clip, at), RightPart(clip, at, newId);
      PointPlaced(clip, clip.source.automation, index, x) <==>
      PointPlaced(left, left.source.automation, index, x) || PointPlaced(right, right.source.automation, index, x)
  {
    var s, left, right := clip.source.automation, LeftPart(clip, at), RightPart(clip, at, newId);
    if PointPlaced(clip, s, index, x) {
      WholeToHalves(clip, at, newId, index, x);
    }
    if PointPlaced(left, s, index, x) {
      var p :| p in s.points && 0 <= p.position < left.length
        && x == ResolvedParam(left.start + p.position, index, s.parameter, p.value);
      assert PointPlaced(clip, s, index, x);
    }
    if PointPlaced(right, right.source.automation, index, x) {
      RightToWhole(clip, at, newId, index, x);
    }
  }

  lemma WholeToHalves(clip: Clip, at: Ticks, newId: ClipId, index: nat, x: ResolvedParam)
    requires clip.source.AutomationClip? && Inside(clip, at) && PointPlaced(clip, clip.source.automation, index, x)
    ensures var left, right := LeftPart(clip, at), RightPart(clip, at, newId);
      PointPlaced(left, left.source.automation, index, x) || PointPlaced(right, right.source.automation, index, x)
  {
    var s, d := clip.source.automation, at - clip.start;
    var p :| p in s.points && 0 <= p.position < clip.length
      && x == ResolvedParam(clip.start + p.position, index, s.parameter, p.value);
    var q := AutomationPoint(p.position - d, p.value);
    PointKept(s.points, d, q);
  }

  lemma RightToWhole(clip: Clip, at: Ticks, newId: ClipId, index: nat, x: ResolvedParam)
    requires clip.source.AutomationClip? && Inside(clip, at)
    requires var right := RightPart(clip, at, newId); PointPlaced(right, right.source.automation, index, x)
    ensures PointPlaced(clip, clip.source.automation, index, x)
  {
    var s, d := clip.source.automation, at - clip.start;
    var right := RightPart(clip, at, newId);
    var q :| q in PointsFrom(s.points, d) && 0 <= q.position < right.length
      && x == ResolvedParam(at + q.position, index, s.parameter, q.value);
    PointKept(s.points, d, q);
  }

  lemma CurveSplit(t: Tables, a: Addresses, id: ClipId, at: Ticks, newId: ClipId, x: ResolvedParam)
    requires id in t.clips && t.clips[id].source.AutomationClip? && Inside(t.clips[id], at) && newId !in t.clips
    ensures var r := Cut(t, id, at, newId);
      && (CurvePoint(t, a, id, x) <==> CurvePoint(r, a, id, x) || CurvePoint(r, a, newId, x))
      && (EffectPoint(t, a, id, x) <==> EffectPoint(r, a, id, x) || EffectPoint(r, a, newId, x))
  {
    var clip, r := t.clips[id], Cut(t, id, at, newId);
    var s := clip.source.automation;
    OneCurve(t, a, id, x);
    OneCurve(r, a, id, x);
    OneCurve(r, a, newId, x);
    if s.targetKind.InstrumentTarget? && s.instrument in a.instruments {
      PointsSplit(clip, at, newId, a.instruments[s.instrument], x);
    }
    if s.targetKind.EffectTarget? && (s.mixerTrack, s.effect) in a.effects {
      PointsSplit(clip, at, newId, a.effects[(s.mixerTrack, s.effect)], x);
    }
  }

  lemma OneCurve(t: Tables, a: Addresses, id: ClipId, x: ResolvedParam)
    requires id in t.clips && t.clips[id].source.AutomationClip?
    ensures CurvePoint(t, a, id, x) <==> ParamFrom(a, t.clips[id], t.clips[id].source.automation, x)
    ensures EffectPoint(t, a, id, x) <==> EffectParamFrom(a, t.clips[id], t.clips[id].source.automation, x)
  {
    assert Curves(t, t.clips[id]) == [t.clips[id].source.automation];
    assert t.clips[id].source.automation in Curves(t, t.clips[id]);
  }

  /** Apart from the clip and its new half, the clips and what they play are the same. */
  lemma OthersTheSame(t: Tables, id: ClipId, at: Ticks, newId: ClipId)
    requires id in t.clips && t.clips[id].source.AutomationClip? && Inside(t.clips[id], at) && newId !in t.clips
    ensures var r := Cut(t, id, at, newId);
      && r.clips.Keys == t.clips.Keys + {newId}
      && ClipPlays(r, id) == ClipPlays(t, id) == ClipPlays(r, newId)
      && forall c | c in t.clips && c != id :: c in r.clips && r.clips[c] == t.clips[c] && ClipPlays(r, c) == ClipPlays(t, c)
  {
  }

  lemma SameEnd(t: Tables, id: ClipId, at: Ticks, newId: ClipId, end: Ticks, end': Ticks)
    requires id in t.clips && t.clips[id].source.AutomationClip? && Inside(t.clips[id], at) && newId !in t.clips
    requires 0 <= t.clips[id].start
    requires IsEnd(t, t.clips.Keys, end) && IsEnd(Cut(t, id, at, newId), Cut(t, id, at, newId).clips.Keys, end')
    ensures end == end'
  {
    OthersTheSame(t, id, at, newId);
    var r := Cut(t, id, at, newId);
    if end != 0 {
      var c :| c in t.clips.Keys && ClipPlays(t, c) && t.clips[c].start + t.clips[c].length == end;
      var d := if c == id then newId else c;
      assert ClipPlays(r, d) && d in r.clips.Keys;
    }
    if end' != 0 {
      var c :| c in r.clips.Keys && ClipPlays(r, c) && r.clips[c].start + r.clips[c].length == end';
      var d := if c == newId then id else c;
      assert ClipPlays(t, d) && d in t.clips.Keys;
    }
  }

  lemma NotesTheSame(t: Tables, a: Addresses, clips: map<ClipId, Clip>, clip: Clip, n: ResolvedNote)
    ensures PlacedIn(t.(clips := clips), a, clip, n) <==> PlacedIn(t, a, clip, n)
  {
  }

  lemma SameNotes(t: Tables, a: Addresses, id: ClipId, at: Ticks, newId: ClipId, n: ResolvedNote)
    requires id in t.clips && t.clips[id].source.AutomationClip? && Inside(t.clips[id], at) && newId !in t.clips
    ensures var r := Cut(t, id, at, newId);
      (exists c | c in t.clips.Keys :: ClipPlays(t, c) && PlacedIn(t, a, t.clips[c], n)) <==>
      (exists c | c in r.clips.Keys :: ClipPlays(r, c) && PlacedIn(r, a, r.clips[c], n))
  {
    OthersTheSame(t, id, at, newId);
    var r := Cut(t, id, at, newId);
    if c :| c in t.clips.Keys && ClipPlays(t, c) && PlacedIn(t, a, t.clips[c], n) {
      NotesTheSame(t, a, r.clips, t.clips[c], n);
      assert ClipPlays(r, c) && PlacedIn(r, a, r.clips[c], n);
    }
    if c :| c in r.clips.Keys && ClipPlays(r, c) && PlacedIn(r, a, r.clips[c], n) {
      NotesTheSame(t, a, r.clips, r.clips[c], n);
      assert ClipPlays(t, c) && PlacedIn(t, a, t.clips[c], n);
    }
  }

  lemma SameAudio(t: Tables, a: Addresses, id: ClipId, at: Ticks, newId: ClipId, u: ResolvedAudio)
    requires id in t.clips && t.clips[id].source.AutomationClip? && Inside(t.clips[id], at) && newId !in t.clips
    ensures var r := Cut(t, id, at, newId);
      (exists c | c in t.clips.Keys :: ClipPlays(t, c) && AudioAt(t, a, c, u)) <==>
      (exists c | c in r.clips.Keys :: ClipPlays(r, c) && AudioAt(r, a, c, u))
  {
    OthersTheSame(t, id, at, newId);
    var r := Cut(t, id, at, newId);
    if c :| c in t.clips.Keys && ClipPlays(t, c) && AudioAt(t, a, c, u) {
      assert ClipPlays(r, c) && AudioAt(r, a, c, u);
    }
    if c :| c in r.clips.Keys && ClipPlays(r, c) && AudioAt(r, a, c, u) {
      assert ClipPlays(t, c) && AudioAt(t, a, c, u);
    }
  }

  lemma OtherCurves(t: Tables, a: Addresses, id: ClipId, at: Ticks, newId: ClipId, c: ClipId, p: ResolvedParam)
    requires id in t.clips && t.clips[id].source.AutomationClip? && c in t.clips && c != id && newId !in t.clips
    ensures CurvePoint(Cut(t, id, at, newId), a, c, p) <==> CurvePoint(t, a, c, p)
    ensures EffectPoint(Cut(t, id, at, newId), a, c, p) <==> EffectPoint(t, a, c, p)
  {
    var r := Cut(t, id, at, newId);
    assert Curves(r, r.clips[c]) == Curves(t, t.clips[c]);
  }

  lemma SamePoints(t: Tables, a: Addresses, id: ClipId, at: Ticks, newId: ClipId, p: ResolvedParam)
    requires id in t.clips && t.clips[id].source.AutomationClip? && Inside(t.clips[id], at) && newId !in t.clips
    ensures var r := Cut(t, id, at, newId);
      && ((exists c | c in t.clips.Keys :: ClipPlays(t, c) && CurvePoint(t, a, c, p)) <==>
          (exists c | c in r.clips.Keys :: ClipPlays(r, c) && CurvePoint(r, a, c, p)))
      && ((exists c | c in t.clips.Keys :: ClipPlays(t, c) && EffectPoint(t, a, c, p)) <==>
          (exists c | c in r.clips.Keys :: ClipPlays(r, c) && EffectPoint(r, a, c, p)))
  {
    OthersTheSame(t, id, at, newId);
    CurveSplit(t, a, id, at, newId, p);
    forall c | c in t.clips && c != id
      ensures CurvePoint(Cut(t, id, at, newId), a, c, p) <==> CurvePoint(t, a, c, p)
      ensures EffectPoint(Cut(t, id, at, newId), a, c, p) <==> EffectPoint(t, a, c, p)
    {
      OtherCurves(t, a, id, at, newId, c, p);
    }
    var r := Cut(t, id, at, newId);
    var curve: ClipId -> bool := (c: ClipId) => ClipPlays(t, c) && CurvePoint(t, a, c, p);
    var curve': ClipId -> bool := (c: ClipId) => ClipPlays(r, c) && CurvePoint(r, a, c, p);
    Swap(t.clips.Keys, r.clips.Keys, id, newId, curve, curve');
    var effect: ClipId -> bool := (c: ClipId) => ClipPlays(t, c) && EffectPoint(t, a, c, p);
    var effect': ClipId -> bool := (c: ClipId) => ClipPlays(r, c) && EffectPoint(r, a, c, p);
    Swap(t.clips.Keys, r.clips.Keys, id, newId, effect, effect');
  }

  lemma Swap(before: set<ClipId>, after: set<ClipId>, id: ClipId, newId: ClipId, p: ClipId -> bool, q: ClipId -> bool)
    requires id in before && newId !in before && after == before + {newId}
    requires forall c | c in before && c != id :: p(c) == q(c)
    requires p(id) == (q(id) || q(newId))
    ensures (exists c | c in before :: p(c)) <==> (exists c | c in after :: q(c))
  {
    if c :| c in before && p(c) {
      assert q(if c != id then c else if q(id) then id else newId);
    }
    if c :| c in after && q(c) {
      assert p(if c == newId then id else c);
    }
  }

  /** What plays after the cut is what played before: the same notes, points and audio, to the same end. */
  lemma CutPlaysTheSame(t: Tables, a: Addresses, id: ClipId, at: Ticks, newId: ClipId, x: Timeline, end: Ticks,
                        y: Timeline, end': Ticks)
    requires id in t.clips && t.clips[id].source.AutomationClip? && Inside(t.clips[id], at) && newId !in t.clips
    requires 0 <= t.clips[id].start
    requires Gathered(t, a, t.clips.Keys, x, end)
    requires Gathered(Cut(t, id, at, newId), a, Cut(t, id, at, newId).clips.Keys, y, end')
    ensures end == end'
    ensures forall n :: n in x.notes <==> n in y.notes
    ensures forall p :: p in x.params <==> p in y.params
    ensures forall p :: p in x.effectParams <==> p in y.effectParams
    ensures forall u :: u in x.audio <==> u in y.audio
  {
    SameEnd(t, id, at, newId, end, end');
    forall n ensures n in x.notes <==> n in y.notes {
      SameNotes(t, a, id, at, newId, n);
    }
    forall p ensures (p in x.params <==> p in y.params) && (p in x.effectParams <==> p in y.effectParams) {
      SamePoints(t, a, id, at, newId, p);
    }
    forall u ensures u in x.audio <==> u in y.audio {
      SameAudio(t, a, id, at, newId, u);
    }
  }
}
