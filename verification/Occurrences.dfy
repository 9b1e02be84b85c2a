/**
 Where one note of a pattern sounds inside one clip, in ticks from the clip's start. A looping clip wraps
 the pattern, starting at the clip's window; a note is cut at the end of the pattern and of the clip.
 */
module Occurrences {
  import opened Notes
  import opened Entities
  import opened Division

  datatype Interval = Interval(start: Ticks, end: Ticks)

  /** C++ remainder: truncated towards zero, so it has the sign of `a`. */
  function Rem(a: int, b: int): int
    requires 0 < b
  {
    if 0 <= a then a % b else -((-a) % b)
  }

  /** Euclidean division has one quotient and one remainder. */
  lemma ModUnique(a: int, b: int, q: int, r: int)
    requires 0 < b && a == q * b + r && 0 <= r < b
    ensures a / b == q && a % b == r
  {
    var k := a / b - q;
    assert k * b == r - a % b by {
      assert a == a / b * b + a % b;
      assert k * b == a / b * b - q * b;
    }
    Multiple(k, b);
  }

  function Min(a: int, b: int): int {
    if b < a then b else a
  }

  /** A clip's view of the pattern it plays. */
  datatype Placement = Placement(length: Ticks, window: Ticks, loop: bool)

  function PlacementOf(c: Clip): Placement {
    Placement(c.length, c.transforms.windowStart, c.transforms.loop)
  }

  /** Whether the pattern position under clip tick `t` is where `note` starts. */
  predicate Under(note: Note, clip: Placement, patternLength: Ticks, t: Ticks)
    requires 0 < patternLength
  {
    if clip.loop then (clip.window + t - note.start) % patternLength == 0 else clip.window + t == note.start
  }

  /** How far an occurrence at `t` reaches: its own length, the pattern's end, the clip's end. */
  function Reach(note: Note, clip: Placement, patternLength: Ticks, t: Ticks): Ticks {
    Min(Min(t + note.length, t + patternLength - note.start), clip.length)
  }

  /** `note` starts at clip tick `t` and sounds up to `end`. */
  predicate OccursAt(note: Note, clip: Placement, patternLength: Ticks, t: Ticks, end: Ticks) {
    && 0 < patternLength && 0 < clip.length && 0 < note.length
    && 0 <= t < clip.length && Under(note, clip, patternLength, t)
    && end == Reach(note, clip, patternLength, t) && t < end
  }

  /** Every occurrence of `note` in the clip, in order of time. */
  method CollectOccurrences(note: Note, clip: Placement, patternLength: Ticks) returns (out: seq<Interval>)
    ensures forall t, end :: Interval(t, end) in out <==> OccursAt(note, clip, patternLength, t, end)
    ensures forall i, j | 0 <= i < j < |out| :: out[i].start < out[j].start
  {
    out := [];
    if patternLength <= 0 || clip.length <= 0 || note.length <= 0 {
      return;
    }
    if !clip.loop {
      var offset := note.start - clip.window;
      if offset < 0 || offset >= clip.length {
        return;
      }
      var end := Min(Min(offset + note.length, clip.length), offset + (patternLength - note.start));
      if end > offset {
        out := [Interval(offset, end)];
      }
      return;
    }
    var first := Rem(Rem(note.start - clip.window, patternLength) + patternLength, patternLength);
    Wrapped(note.start - clip.window, patternLength);
    FirstUnder(note, clip, patternLength, first);
    forall t | 0 <= t && Under(note, clip, patternLength, t)
      ensures UnderAgain((u: Ticks) => Under(note, clip, patternLength, u), t, patternLength)
    {
      NextUnder(note, clip, patternLength, t);
    }
    out := CollectLooping(note, clip, patternLength, first, (u: Ticks) => Under(note, clip, patternLength, u));
  }

  /** One pattern length after `t` the start is under the window again, and not in between. */
  ghost predicate UnderAgain(under: Ticks -> bool, t: Ticks, n: Ticks) {
    under(t + n) && forall u | t < u < t + n :: !under(u)
  }

  method CollectLooping(note: Note, clip: Placement, patternLength: Ticks, first: Ticks, ghost under: Ticks -> bool)
    returns (out: seq<Interval>)
    requires 0 < patternLength && 0 <= first && under(first) && forall t | 0 <= t < first :: !under(t)
    requires forall t {:trigger UnderAgain(under, t, patternLength)} ::
      0 <= t && under(t) ==> UnderAgain(under, t, patternLength)
    ensures forall t, end :: Interval(t, end) in out <==>
      0 <= t < clip.length && under(t) && end == Reach(note, clip, patternLength, t) && t < end
    ensures forall i, j | 0 <= i < j < |out| :: out[i].start < out[j].start
  {
    out := [];
    var position := first;
    while position < clip.length
      invariant 0 <= position && under(position)
      invariant forall t, end :: Interval(t, end) in out <==>
        0 <= t < position && t < clip.length && under(t) && end == Reach(note, clip, patternLength, t) && t < end
      invariant forall i, j | 0 <= i < j < |out| :: out[i].start < out[j].start
      decreases clip.length - position
    {
      assert UnderAgain(under, position, patternLength);
      var end := Min(Min(position + note.length, position + (patternLength - note.start)), clip.length);
      forall i | 0 <= i < |out| ensures out[i].start < position {
        assert Interval(out[i].start, out[i].end) in out;
      }
      if end > position {
        out := out + [Interval(position, end)];
      }
      position := position + patternLength;
    }
  }

  lemma RemDivides(d: int, n: int) returns (q: int)
    requires 0 < n
    ensures -n < Rem(d, n) < n && d == q * n + Rem(d, n)
  {
    q := if 0 <= d then d / n else -((-d) / n);
  }

  /** Taking the remainder twice brings any distance into the first pass. */
  lemma Wrapped(d: int, n: int)
    requires 0 < n
    ensures var w := Rem(Rem(d, n) + n, n); 0 <= w < n && (w - d) % n == 0
  {
    var q := RemDivides(d, n);
    var r := Rem(d, n);
    if r < 0 {
      ModUnique(r + n, n, 0, r + n);
      ModUnique(r + n - d, n, 1 - q, 0);
    } else {
      ModUnique(r + n, n, 1, r);
      ModUnique(r - d, n, -q, 0);
    }
  }

  /** The first wrapped position is the least non-negative tick under the note's start. */
  lemma FirstUnder(note: Note, clip: Placement, n: Ticks, first: Ticks)
    requires 0 < n && clip.loop && 0 <= first < n && Under(note, clip, n, first)
    ensures forall t | 0 <= t < first :: !Under(note, clip, n, t)
  {
    var d := note.start - clip.window;
    forall t | 0 <= t < first ensures !Under(note, clip, n, t) {
      Between(t - d, first - d, n);
    }
  }

  /** Two multiples of `n` less than `n` apart are the same. */
  lemma Between(a: int, b: int, n: int)
    requires 0 < n && a < b < a + n && b % n == 0
    ensures a % n != 0
  {
    if a % n == 0 {
      var k := b / n - a / n;
      assert k * n == b - a by {
        assert k * n == b / n * n - a / n * n;
      }
      Multiple(k, n);
    }
  }

  lemma NextUnder(note: Note, clip: Placement, n: Ticks, t: Ticks)
    requires 0 < n && clip.loop && Under(note, clip, n, t)
    ensures Under(note, clip, n, t + n)
    ensures forall u | t < u < t + n :: !Under(note, clip, n, u)
  {
    var d := clip.window + t - note.start;
    ModUnique(d + n, n, d / n + 1, 0);
    forall u | t < u < t + n ensures !Under(note, clip, n, u) {
      Between(clip.window + u - note.start, d + n, n);
    }
  }

  /** What an occurrence promises when its note starts inside the pattern: it is not empty, it stays inside
      the clip, the pattern does not wrap under it, and the next one starts no sooner than it ends. */
  lemma OccurrencesKeepTheSeam(note: Note, clip: Placement, n: Ticks, t: Ticks, end: Ticks)
    requires 0 <= note.start < n && OccursAt(note, clip, n, t, end)
    ensures 0 <= t < end <= clip.length && end - t <= note.length
    ensures clip.loop ==> (clip.window + t) % n == note.start && (clip.window + t) % n + (end - t) <= n
    ensures !clip.loop ==> clip.window + end <= n
    ensures forall t', end' | OccursAt(note, clip, n, t', end') && t < t' :: end <= t'
  {
    if clip.loop {
      WindowAt(note, clip, n, t);
      forall t', end' | OccursAt(note, clip, n, t', end') && t < t' ensures end <= t' {
        if t' < t + n {
          NextUnder(note, clip, n, t);
        }
      }
    }
  }

  lemma WindowAt(note: Note, clip: Placement, n: Ticks, t: Ticks)
    requires 0 <= note.start < n && clip.loop
    ensures Under(note, clip, n, t) <==> (clip.window + t) % n == note.start
  {
    var a := clip.window + t;
    if Under(note, clip, n, t) {
      ModUnique(a, n, (a - note.start) / n, note.start);
    }
    if a % n == note.start {
      ModUnique(a - note.start, n, a / n, 0);
    }
  }

  /** A looping clip sounds the note wherever the wrapped window reaches its start, and nowhere else. */
  lemma LoopingOnsets(note: Note, clip: Placement, n: Ticks, t: Ticks)
    requires 0 <= note.start < n && 0 < note.length && clip.loop
    ensures (exists end :: OccursAt(note, clip, n, t, end)) <==>
            0 <= t < clip.length && (clip.window + t) % n == note.start
  {
    WindowAt(note, clip, n, t);
    if 0 <= t < clip.length && Under(note, clip, n, t) {
      assert OccursAt(note, clip, n, t, Reach(note, clip, n, t));
    }
  }

  // ----- swing -----------------------------------------------------------------

  const GRID: Ticks := TICKS_PER_QUARTER / 4

  /** Odd sixteenths that lie exactly on the grid are delayed; everything else stays. */
  function SwungPosition(position: Ticks, swing: real): Ticks {
    if swing <= 0.0 || position < 0 || position % GRID != 0 then position
    else if (position / GRID) % 2 == 0 then position
    else position + (swing * (GRID as real / 2.0)).Floor
  }

  /** Swing of up to one delays by at most half a step, so steps on the grid keep their order. */
  lemma SwingKeepsOrder(a: Ticks, b: Ticks, swing: real)
    requires 0.0 <= swing <= 1.0
    ensures a <= SwungPosition(a, swing) <= a + GRID / 2
    ensures a < b && a % GRID == 0 && b % GRID == 0 ==> SwungPosition(a, swing) < SwungPosition(b, swing)
  {
    assert swing * (GRID as real / 2.0) <= GRID as real / 2.0;
    if a < b && a % GRID == 0 && b % GRID == 0 {
      assert a + GRID <= b by {
        assert a == a / GRID * GRID && b == b / GRID * GRID;
      }
    }
  }
}
