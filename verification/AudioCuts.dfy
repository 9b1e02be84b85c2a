/**
 Cutting an audio clip in two. A clip shows a window of its file, and a stretched one plays the window at the rate
 that makes it last as long as the clip; a cut has to share the window out so that the second half resumes where the
 first stops. It does so for a clip that plays forwards and is not stretched, as long as its window reaches past the
 cut; all other clips are heard to be cut, unless there is nothing of the file left to hear.
 */
module AudioCuts {
  import opened Notes
  import opened Entities
  import opened TimeStretches

  // ----- the window a clip shows ---------------------------------------------------------------

  /** How much of the source the clip takes; a window without a length is taken to be as long as the clip. */
  function SourceSpan(s: ClipSource, length: Ticks): Ticks
    requires s.AudioSource?
  {
    if 0 < s.sourceLength then s.sourceLength else length
  }

  /** Source time per timeline time. */
  function StretchRatio(s: ClipSource, length: Ticks): (ratio: real)
    requires s.AudioSource?
    ensures 0.0 < ratio
  {
    var span := SourceSpan(s, length);
    if s.stretchMode.Off? || span <= 0 || length <= 0 then 1.0
    else
      Quotient(span as real, length as real);
      span as real / length as real
  }

  lemma Quotient(a: real, b: real)
    requires 0.0 < a && 0.0 < b
    ensures 0.0 < a / b
  {
  }

  /** How far into the source a clip of this length is after its first `left` ticks. */
  function Consumed(s: ClipSource, length: Ticks, left: Ticks): Ticks
    requires s.AudioSource?
  {
    Trunc(left as real * StretchRatio(s, length))
  }

  /** The source of the part before the cut: its window ends where the part does. */
  function FirstSource(s: ClipSource, left: Ticks): (first: ClipSource)
    requires s.AudioSource?
    ensures first.AudioSource? && first.destination == s.destination
  {
    var consumed := Consumed(s, left, left);
    if 0 < consumed then s.(sourceLength := consumed) else s
  }

  /** The source of the part after the cut: its window is what the part before has not used up. */
  function SecondSource(s: ClipSource, length: Ticks, left: Ticks): (second: ClipSource)
    requires s.AudioSource?
    ensures second.AudioSource? && second.destination == s.destination
  {
    var consumed := Consumed(s, length, left);
    s.(sourceOffset := s.sourceOffset + consumed,
       sourceLength := if s.sourceLength <= 0 then s.sourceLength
                       else if consumed < s.sourceLength then s.sourceLength - consumed else 0)
  }

  // ----- what is heard of it -----------------------------------------------------------------------

  /** Where in the file a clip begins. */
  function From(s: ClipSource): (from: Ticks)
    requires s.AudioSource?
    ensures 0 <= from
  {
    if s.sourceOffset < 0 then 0 else s.sourceOffset
  }

  /** How much of a file of this duration its window holds: a length of 0 goes to the end of the file. */
  function Window(s: ClipSource, duration: Ticks): (window: Ticks)
    requires s.AudioSource?
    ensures 0 <= window
  {
    var remaining := if From(s) < duration then duration - From(s) else 0;
    if 0 < s.sourceLength < remaining then s.sourceLength else remaining
  }

  /** The place in the file that sounds when this much of a window has been played, or none. */
  function Sounding(from: Ticks, window: Ticks, reversed: bool, played: real): set<real> {
    if played < 0.0 || window as real <= played then {}
    else if reversed then {(from + window) as real - played}
    else {from as real + played}
  }

  /** The place in a file that a clip of this length, begun `elapsed` ago, makes heard. Once begun a clip plays its
      window through. */
  function Heard(s: ClipSource, length: Ticks, duration: Ticks, elapsed: real): set<real>
    requires s.AudioSource?
  {
    HeardAt(s, duration, StretchRatio(s, length), elapsed)
  }

  function HeardAt(s: ClipSource, duration: Ticks, ratio: real, elapsed: real): set<real>
    requires s.AudioSource?
  {
    Sounding(From(s), Window(s, duration), s.reversed, ratio * elapsed)
  }

  /** The two parts of a cut at `left` are heard as the whole is, at every moment. */
  ghost predicate Seamless(s: ClipSource, length: Ticks, left: Ticks, duration: Ticks)
    requires s.AudioSource?
  {
    forall elapsed: real ::
      Heard(s, length, duration, elapsed) ==
      Heard(FirstSource(s, left), left, duration, elapsed)
      + Heard(SecondSource(s, length, left), length - left, duration, elapsed - left as real)
  }

  // ----- clips that are not stretched ------------------------------------------------------------

  /** One tick of source per tick, however long the clip. */
  predicate Steady(s: ClipSource)
    requires s.AudioSource?
  {
    s.stretchMode.Off? || s.sourceLength <= 0
  }

  lemma SteadyCut(s: ClipSource, length: Ticks, left: Ticks)
    requires s.AudioSource? && Steady(s) && 0 < left < length
    ensures FirstSource(s, left) == s.(sourceLength := left)
    ensures SecondSource(s, length, left).sourceOffset == s.sourceOffset + left
    ensures SecondSource(s, length, left).sourceLength ==
            if s.sourceLength <= 0 then s.sourceLength else if left < s.sourceLength then s.sourceLength - left else 0
    ensures StretchRatio(s, length) == 1.0 && StretchRatio(FirstSource(s, left), left) == 1.0
    ensures StretchRatio(SecondSource(s, length, left), length - left) == 1.0
  {
    SteadyRatio(s, length);
    SteadyRatio(s, left);
    assert (left as real).Floor == left;
  }

  lemma SteadyRatio(s: ClipSource, length: Ticks)
    requires s.AudioSource? && Steady(s)
    ensures StretchRatio(s, length) == 1.0
  {
    if 0 < length {
      assert length as real / length as real == 1.0;
    }
  }

  ghost predicate Covers(from: Ticks, window: Ticks, first: Ticks, from': Ticks, second: Ticks, reversed: bool,
                         left: Ticks)
  {
    forall e: real ::
      Sounding(from, window, reversed, e) ==
      Sounding(from, first, reversed, e) + Sounding(from', second, reversed, e - left as real)
  }

  /** Two windows, the second begun `left` later, play one through: either there is nothing in the second, or they
      meet and neither is reversed. */
  lemma CoversIff(from: Ticks, window: Ticks, first: Ticks, from': Ticks, second: Ticks, reversed: bool, left: Ticks)
    requires 0 <= window && 0 <= first <= left && 0 <= second && 0 < left
    ensures Covers(from, window, first, from', second, reversed, left) <==>
            (second == 0 && window == first)
            || (!reversed && from' == from + left && first == left && window == left + second)
  {
    if Covers(from, window, first, from', second, reversed, left) {
      Within(from, window, first, from', second, reversed, left);
    }
  }

  lemma Within(from: Ticks, window: Ticks, first: Ticks, from': Ticks, second: Ticks, reversed: bool, left: Ticks)
    requires 0 <= window && 0 <= first <= left && 0 <= second && 0 < left
    requires Covers(from, window, first, from', second, reversed, left)
    ensures (second == 0 && window == first)
            || (!reversed && from' == from + left && first == left && window == left + second)
  {
    var at: real -> bool := (e: real) =>
      Sounding(from, window, reversed, e) ==
      Sounding(from, first, reversed, e) + Sounding(from', second, reversed, e - left as real);
    assert at(0.0);
    assert at(first as real);
    assert at(window as real);
    assert at(left as real);
    assert at((left + second) as real);
  }

  lemma SteadyIff(s: ClipSource, length: Ticks, left: Ticks, duration: Ticks)
    requires s.AudioSource? && Steady(s) && 0 < left < length
    ensures Seamless(s, length, left, duration) <==> PlaysOn(s, left, duration)
  {
    SteadyCut(s, length, left);
    var first, second := FirstSource(s, left), SecondSource(s, length, left);
    var window, w, w' := Window(s, duration), Window(first, duration), Window(second, duration);
    CoversIff(From(s), window, w, From(second), w', s.reversed, left);
    assert Covers(From(s), window, w, From(second), w', s.reversed, left) <==> Seamless(s, length, left, duration) by {
      SteadyHeard(s, length, left, duration);
    }
  }

  lemma SteadyHeard(s: ClipSource, length: Ticks, left: Ticks, duration: Ticks)
    requires s.AudioSource? && Steady(s) && 0 < left < length
    ensures Seamless(s, length, left, duration) <==>
            Covers(From(s), Window(s, duration), Window(FirstSource(s, left), duration),
                   From(SecondSource(s, length, left)), Window(SecondSource(s, length, left), duration), s.reversed, left)
  {
    SteadyCut(s, length, left);
    var first, second := FirstSource(s, left), SecondSource(s, length, left);
    forall e: real
      ensures Heard(s, length, duration, e) == Sounding(From(s), Window(s, duration), s.reversed, e)
      ensures Heard(first, left, duration, e) == Sounding(From(s), Window(first, duration), s.reversed, e)
      ensures Heard(second, length - left, duration, e) ==
              Sounding(From(second), Window(second, duration), s.reversed, e)
    {
      AtItsOwnSpeed(s, length, duration, e);
      AtItsOwnSpeed(first, left, duration, e);
      AtItsOwnSpeed(second, length - left, duration, e);
    }
  }

  lemma AtItsOwnSpeed(s: ClipSource, length: Ticks, duration: Ticks, e: real)
    requires s.AudioSource? && StretchRatio(s, length) == 1.0
    ensures Heard(s, length, duration, e) == Sounding(From(s), Window(s, duration), s.reversed, e)
  {
  }

  // ----- clips that are stretched -------------------------------------------------------------------

  lemma Undivided(a: Ticks, b: Ticks)
    requires 0 < b
    ensures b as real * (a as real / b as real) == a as real
  {
  }

  /** The first part of a stretched clip keeps the whole window, and so plays it faster. */
  lemma StretchedFirst(s: ClipSource, left: Ticks)
    requires s.AudioSource? && !Steady(s) && 0 < left
    ensures FirstSource(s, left) == s && StretchRatio(s, left) == s.sourceLength as real / left as real
  {
    Undivided(s.sourceLength, left);
    assert (s.sourceLength as real).Floor == s.sourceLength;
  }

  /** Where two rates are after the time in which the faster one plays half of `window`. */
  lemma Apart(span: Ticks, window: Ticks, left: Ticks, length: Ticks)
    returns (e: real, slow: real, fast: real)
    requires 0 < window <= span && 0 < left < length
    ensures 0.0 < e < left as real
    ensures fast == span as real / left as real && slow == span as real / length as real
    ensures 0.0 <= slow * e < fast * e < window as real
  {
    fast, slow := span as real / left as real, span as real / length as real;
    Undivided(span, left);
    Undivided(span, length);
    Quotient(span as real, left as real);
    Quotient(span as real, length as real);
    e := window as real / 2.0 / fast;
    Quotient(window as real / 2.0, fast);
    assert fast * e == window as real / 2.0;
    Slower(slow, fast, left as real, length as real);
    Less(slow, fast, e);
    if left as real <= e {
      Grows(fast, left as real, e);
    }
  }

  lemma Slower(slow: real, fast: real, left: real, length: real)
    requires 0.0 < fast && 0.0 < left < length && left * fast == length * slow
    ensures slow < fast
  {
  }

  lemma Less(slow: real, fast: real, e: real)
    requires 0.0 <= slow < fast && 0.0 < e
    ensures 0.0 <= slow * e < fast * e
  {
  }

  lemma Grows(fast: real, left: real, e: real)
    requires 0.0 < fast && left <= e
    ensures left * fast <= fast * e
  {
  }

  lemma ConsumesForward(s: ClipSource, length: Ticks, left: Ticks)
    requires s.AudioSource? && 0 < left
    ensures 0 <= Consumed(s, length, left)
  {
    assert 0.0 <= left as real * StretchRatio(s, length);
  }

  lemma {:induction false} StretchedIff(s: ClipSource, length: Ticks, left: Ticks, duration: Ticks)
    requires s.AudioSource? && !Steady(s) && 0 < left < length
    ensures Seamless(s, length, left, duration) <==> duration <= From(s)
  {
    if duration <= From(s) {
      NothingToHear(s, length, left, duration);
    } else {
      StretchedIsHeard(s, length, left, duration);
    }
  }

  lemma NothingToHear(s: ClipSource, length: Ticks, left: Ticks, duration: Ticks)
    requires s.AudioSource? && !Steady(s) && 0 < left < length && duration <= From(s)
    ensures Seamless(s, length, left, duration)
  {
    StretchedFirst(s, left);
    ConsumesForward(s, length, left);
    var second := SecondSource(s, length, left);
    forall e: real
      ensures Heard(s, length, duration, e) == {} && Heard(s, left, duration, e) == {}
      ensures Heard(second, length - left, duration, e) == {}
    {
    }
  }

  /** While the part after the cut is still to come, the part before it is already further on than the clip was. */
  lemma StretchedIsHeard(s: ClipSource, length: Ticks, left: Ticks, duration: Ticks)
    requires s.AudioSource? && !Steady(s) && 0 < left < length && From(s) < duration
    ensures !Seamless(s, length, left, duration)
  {
    var window, second := Window(s, duration), SecondSource(s, length, left);
    var e, slow, fast := Apart(s.sourceLength, window, left, length);
    StretchedFirst(s, left);
    assert StretchRatio(s, length) == slow;
    HeardElsewhere(s, duration, slow, fast, e);
    NotYet(second, length - left, duration, e - left as real);
    Different(Heard(s, length, duration, e), Heard(FirstSource(s, left), left, duration, e),
      Heard(second, length - left, duration, e - left as real));
  }

  lemma Different(whole: set<real>, first: set<real>, second: set<real>)
    requires whole != first && second == {}
    ensures whole != first + second
  {
    assert first + second == first;
  }

  lemma NotYet(s: ClipSource, length: Ticks, duration: Ticks, e: real)
    requires s.AudioSource? && e < 0.0
    ensures Heard(s, length, duration, e) == {}
  {
    Less(0.0, StretchRatio(s, length), -e);
  }

  lemma HeardElsewhere(s: ClipSource, duration: Ticks, slow: real, fast: real, e: real)
    requires s.AudioSource? && 0.0 <= slow * e < fast * e < Window(s, duration) as real
    ensures HeardAt(s, duration, slow, e) != HeardAt(s, duration, fast, e)
  {
    Elsewhere(From(s), Window(s, duration), s.reversed, slow * e, fast * e);
  }

  lemma Elsewhere(from: Ticks, window: Ticks, reversed: bool, slow: real, fast: real)
    requires 0.0 <= slow < fast < window as real
    ensures Sounding(from, window, reversed, slow) != Sounding(from, window, reversed, fast)
  {
    if reversed {
      assert (from + window) as real - slow !in Sounding(from, window, reversed, fast);
    } else {
      assert from as real + slow !in Sounding(from, window, reversed, fast);
    }
  }

  // ----- the two together -----------------------------------------------------------------------------

  /** What can be said of a clip before it is cut at `left`: the file is over before the clip begins; or it is over by
      the cut and the window does not end earlier; or the clip plays forwards from within the file, and its window
      reaches past the cut or as far as the file. Unless the file is over, the clip must not be stretched. */
  predicate PlaysOn(s: ClipSource, left: Ticks, duration: Ticks)
    requires s.AudioSource?
  {
    || duration <= From(s)
    || (Steady(s) && duration <= From(s.(sourceOffset := s.sourceOffset + left))
        && (s.sourceLength <= 0 || duration - From(s) <= s.sourceLength))
    || (Steady(s) && !s.reversed && 0 <= s.sourceOffset
        && (s.sourceLength <= 0 || left < s.sourceLength || duration <= s.sourceOffset + s.sourceLength))
  }

  /** A cut goes unheard exactly then. */
  lemma SeamlessIff(s: ClipSource, length: Ticks, left: Ticks, duration: Ticks)
    requires s.AudioSource? && 0 < left < length
    ensures Seamless(s, length, left, duration) <==> PlaysOn(s, left, duration)
  {
    if Steady(s) {
      SteadyIff(s, length, left, duration);
    } else {
      StretchedIff(s, length, left, duration);
    }
  }
}
