/**
 How a note of a pattern comes to lie on the timeline: delayed by swing, shifted, gated, cut at the ends of pattern and
 clip, transposed, and as loud as it was written times what the channel tracks of that.
 */
module PlacementMeanings {
  import opened Notes
  import opened Entities
  import opened Occurrences
  import opened Overlaps
  import opened TimeMaps
  import opened Flattener

  /** `n` is the whole number nearest to `x`, the one farther from zero of two. */
  predicate Rounded(x: real, n: int) {
    if 0.0 <= x then n as real - 0.5 <= x < n as real + 0.5 else n as real - 0.5 < x <= n as real + 0.5
  }

  lemma RoundMeans(x: real)
    ensures forall n :: Rounded(x, n) <==> n == Round(x)
  {
  }

  // ----- how loud -------------------------------------------------------------------------------

  /** `value` is the share of full scale that `scaled` is, cut to 0..1. */
  predicate Share(scaled: real, value: real) {
    && 0.0 <= value <= 1.0
    && if scaled < 0.0 then value == 0.0
       else if MAX_VELOCITY as real < scaled then value == 1.0
       else value * MAX_VELOCITY as real == scaled
  }

  /** The velocity times what the channel tracks of it, as a share of full velocity. */
  predicate Strength(velocity: nat, tracking: real, value: real) {
    Share(velocity as real * tracking, value)
  }

  lemma Shared(velocity: nat, tracking: real)
    ensures velocity as real / MAX_VELOCITY as real * tracking * MAX_VELOCITY as real == velocity as real * tracking
  {
    var full := MAX_VELOCITY as real;
    assert velocity as real / full * full == velocity as real;
    assert velocity as real / full * tracking * full == velocity as real / full * full * tracking;
  }

  lemma ClampedShare(scaled: real, share: real)
    requires share * MAX_VELOCITY as real == scaled
    ensures forall value :: Share(scaled, value) <==> value == Clamped(share)
  {
  }

  lemma StrengthMeans(note: Note, settings: ChannelSettings)
    ensures forall value ::
      Strength(note.velocity, settings.velocityTracking, value) <==> value == Loudness(note, settings)
  {
    var scaled := note.velocity as real * settings.velocityTracking;
    var share := note.velocity as real / MAX_VELOCITY as real * settings.velocityTracking;
    Shared(note.velocity, settings.velocityTracking);
    ClampedShare(scaled, share);
    forall value ensures Strength(note.velocity, settings.velocityTracking, value) <==> value == Clamped(share) {
      assert Strength(note.velocity, settings.velocityTracking, value) == Share(scaled, value);
    }
  }

  /** At full tracking a valid note is as loud as it was written. */
  lemma FullTracking(note: Note, settings: ChannelSettings)
    requires note.velocity <= MAX_VELOCITY && settings.velocityTracking == 1.0
    ensures Loudness(note, settings) * MAX_VELOCITY as real == note.velocity as real
  {
    StrengthMeans(note, settings);
    assert Strength(note.velocity, 1.0, Loudness(note, settings));
  }

  lemma SharesAscend(a: real, b: real, x: real, y: real)
    requires a <= b && Share(a, x) && Share(b, y)
    ensures x <= y
  {
  }

  lemma Product(a: real, b: real, k: real)
    requires a <= b && 0.0 <= k
    ensures a * k <= b * k
  {
    assert b * k - a * k == (b - a) * k;
  }

  lemma StrengthAscends(v: nat, w: nat, tracking: real, x: real, y: real)
    requires v <= w && 0.0 <= tracking && Strength(v, tracking, x) && Strength(w, tracking, y)
    ensures x <= y
  {
    var a, b := v as real * tracking, w as real * tracking;
    Product(v as real, w as real, tracking);
    SharesAscend(a, b, x, y);
  }

  /** Written louder is never played quieter. */
  lemma LouderIsLouder(note: Note, other: Note, settings: ChannelSettings)
    requires note.velocity <= other.velocity && 0.0 <= settings.velocityTracking
    ensures Loudness(note, settings) <= Loudness(other, settings)
  {
    var x, y := Loudness(note, settings), Loudness(other, settings);
    StrengthIs(note, settings);
    StrengthIs(other, settings);
    StrengthAscends(note.velocity, other.velocity, settings.velocityTracking, x, y);
  }

  lemma StrengthIs(note: Note, settings: ChannelSettings)
    ensures Strength(note.velocity, settings.velocityTracking, Loudness(note, settings))
  {
    StrengthMeans(note, settings);
  }

  // ----- when and for how long -------------------------------------------------------------------

  /** An odd sixteenth: the second of each two, on the grid. */
  ghost predicate OddSixteenth(position: Ticks) {
    exists k: nat :: position == 480 * k + 240
  }

  /** Odd sixteenths start later by the swing's share of half a step, in whole ticks; nothing else is delayed. */
  ghost predicate Delayed(position: Ticks, swing: real, delay: Ticks) {
    if 0.0 < swing && OddSixteenth(position)
    then delay as real <= swing * 120.0 < delay as real + 1.0
    else delay == 0
  }

  lemma SwingMeans(position: Ticks, swing: real)
    ensures forall delay :: Delayed(position, swing, delay) <==> SwungPosition(position, swing) == position + delay
  {
    OddMeans(position);
  }

  lemma OddMeans(position: Ticks)
    ensures OddSixteenth(position) <==> 0 <= position && position % 240 == 0 && position / 240 % 2 == 1
  {
    if OddSixteenth(position) {
      var k: nat :| position == 480 * k + 240;
      assert position == 240 * (2 * k + 1);
    }
    if 0 <= position && position % 240 == 0 && position / 240 % 2 == 1 {
      var k: nat := position / 480;
      assert position == 480 * k + 240;
    }
  }

  /** The gate's share of the length, to the nearest tick, and a tick at least. */
  predicate Gated(length: Ticks, gatePercent: int, gated: Ticks) {
    var share := length as real * gatePercent as real / 100.0;
    1 <= gated && if share < 1.0 then gated == 1 else Rounded(share, gated)
  }

  lemma GateMeans(length: Ticks, gatePercent: int)
    ensures var share := Round(length as real * gatePercent as real / 100.0);
      forall gated :: Gated(length, gatePercent, gated) <==> gated == if share < 1 then 1 else share
  {
    RoundMeans(length as real * gatePercent as real / 100.0);
  }

  /** `played` is `note` swung, shifted and gated; its key and velocity stay. */
  ghost predicate PlayedAs(note: Note, swing: real, settings: ChannelSettings, played: Note) {
    && played.key == note.key && played.velocity == note.velocity
    && Delayed(note.start, swing, played.start - settings.shiftTicks - note.start)
    && Gated(note.length, settings.gatePercent, played.length)
  }

  lemma {:induction false} PlayedMeans(note: Note, swing: real, settings: ChannelSettings)
    ensures forall played :: PlayedAs(note, swing, settings, played) <==> played == Played(note, swing, settings)
  {
    SwingMeans(note.start, swing);
    GateMeans(note.length, settings.gatePercent);
  }

  // ----- where ---------------------------------------------------------------------------------------

  /** It lasts as long as the note, unless the pattern or the clip ends first; then up to there. */
  predicate Lasts(note: Note, clip: Placement, patternLength: Ticks, t: Ticks, end: Ticks) {
    var own, seam := t + note.length, t + patternLength - note.start;
    && end <= own && end <= seam && end <= clip.length && (end == own || end == seam || end == clip.length)
  }

  /** A note occurs at `t` up to `end` in a clip: once, counted from the clip's window, or as often as the pattern goes
      round in a looping clip. */
  ghost predicate Occurs(note: Note, clip: Placement, patternLength: Ticks, t: Ticks, end: Ticks) {
    && 0 < patternLength && 0 < note.length && 0 <= t < end && t < clip.length
    && Lasts(note, clip, patternLength, t, end)
    && (if clip.loop then exists k: int :: clip.window + t == note.start + k * patternLength
        else clip.window + t == note.start)
  }

  lemma OccursMeans(note: Note, clip: Placement, n: Ticks, t: Ticks, end: Ticks)
    ensures OccursAt(note, clip, n, t, end) <==> Occurs(note, clip, n, t, end)
  {
    if 0 < n && clip.loop {
      var d := clip.window + t - note.start;
      if d % n == 0 {
        assert clip.window + t == note.start + d / n * n;
      }
      if k: int :| clip.window + t == note.start + k * n {
        ModUnique(d, n, k, 0);
      }
    }
  }

  /** A note lands on the timeline as `r`. */
  ghost predicate Lands(clip: Clip, patternLength: Ticks, swing: real, settings: ChannelSettings, channel: nat, note: Note,
                        r: ResolvedNote)
  {
    && r.instrument == channel && r.key == note.key + clip.transforms.transpose
    && 0 <= r.key <= 127 && settings.keyLow <= r.key <= settings.keyHigh
    && Strength(note.velocity, settings.velocityTracking, r.velocity)
    && exists played :: PlayedAs(note, swing, settings, played)
         && Occurs(played, Placement(clip.length, clip.transforms.windowStart, clip.transforms.loop), patternLength,
                   r.start - clip.start, r.end - clip.start)
  }

  lemma {:induction false} PlacedMeans(clip: Clip, n: Ticks, swing: real, settings: ChannelSettings, channel: nat,
                                       note: Note, r: ResolvedNote)
    ensures PlacedFrom(clip, n, swing, settings, channel, note, r) <==>
            Lands(clip, n, swing, settings, channel, note, r)
  {
    var played, iv := Played(note, swing, settings), Interval(r.start - clip.start, r.end - clip.start);
    PlayedMeans(note, swing, settings);
    StrengthMeans(note, settings);
    OccursMeans(played, PlacementOf(clip), n, iv.start, iv.end);
    assert PlayedAs(note, swing, settings, played);
    if Lands(clip, n, swing, settings, channel, note, r) {
      assert PlacedAt(clip, n, swing, settings, channel, note, iv, r);
    }
    if PlacedFrom(clip, n, swing, settings, channel, note, r) {
      var jv :| PlacedAt(clip, n, swing, settings, channel, note, jv, r);
      assert jv == iv;
    }
  }

  // ----- in frames -----------------------------------------------------------------------------------

  /** A quarter note lasts 60 / tempo seconds, 960 ticks: the nearest frame to so many ticks. */
  lemma TicksMean(m: TimeMap, ticks: Ticks)
    requires m.Valid()
    ensures Rounded(ticks as real / 960.0 * (60.0 * m.sampleRate / m.tempo), m.TicksToFrames(ticks))
  {
    RoundMeans(ticks as real / 960.0 * (60.0 * m.sampleRate / m.tempo));
  }
}
