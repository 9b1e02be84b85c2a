/**
 Cutting a pattern clip in two. The part after the cut starts the pattern over from the clip's window, so a cut is heard
 unless it falls a whole number of patterns into a looping clip, or no onset of the pattern is after it.
 */
module PatternCuts {
  import opened Notes
  import opened Occurrences

  /** A placement before a cut and after it: both see the pattern from the same window. */
  function Before(clip: Placement, left: Ticks): Placement {
    clip.(length := left)
  }

  function After(clip: Placement, left: Ticks): Placement {
    clip.(length := clip.length - left)
  }

  /** What two placements play of a note, the second `left` later. */
  predicate OccursInEither(note: Note, first: Placement, second: Placement, n: Ticks, left: Ticks, t: Ticks, end: Ticks)
  {
    OccursAt(note, first, n, t, end) || OccursAt(note, second, n, t - left, end - left)
  }

  /** The note occurs in them as it does in the whole. */
  ghost predicate Seamless(note: Note, n: Ticks, whole: Placement, first: Placement, second: Placement, left: Ticks) {
    forall t, end :: OccursAt(note, whole, n, t, end) <==> OccursInEither(note, first, second, n, left, t, end)
  }

  /** No occurrence that began before the cut sounds past it. */
  predicate NoneHeld(note: Note, clip: Placement, patternLength: Ticks, left: Ticks)
    requires 0 < patternLength
  {
    forall t | 0 <= t < left && Under(note, clip, patternLength, t) :: Reach(note, clip, patternLength, t) <= left
  }

  /** After the cut there are no onsets, neither those of the whole clip nor those of the part, which starts over. */
  predicate NoneAfter(note: Note, clip: Placement, patternLength: Ticks, left: Ticks)
    requires 0 < patternLength
  {
    && (forall t | left <= t < clip.length :: !Under(note, clip, patternLength, t))
    && (forall t | 0 <= t < clip.length - left :: !Under(note, clip, patternLength, t))
  }

  /** What can be said before the cut: no occurrence is held across it, and it falls a whole number of patterns into a
      looping clip or has no onsets after it. */
  predicate PlaysOn(note: Note, clip: Placement, patternLength: Ticks, left: Ticks)
    requires 0 < patternLength
  {
    && NoneHeld(note, clip, patternLength, left)
    && ((clip.loop && left % patternLength == 0) || NoneAfter(note, clip, patternLength, left))
  }

  lemma WholePasses(a: int, left: int, n: int)
    requires 0 < n && a % n == 0
    ensures (a - left) % n == 0 <==> left % n == 0
  {
    var k := a / n;
    assert a == k * n;
    if left % n == 0 {
      ModUnique(a - left, n, k - left / n, 0);
    }
    if (a - left) % n == 0 {
      ModUnique(left, n, k - (a - left) / n, 0);
    }
  }

  lemma PartsOver(a: int, left: int, n: int)
    requires 0 < n && left % n == 0
    ensures (a - left) % n == 0 <==> a % n == 0
  {
    if a % n == 0 {
      WholePasses(a, left, n);
    }
    if (a - left) % n == 0 {
      ModUnique(a, n, (a - left) / n + left / n, 0);
    }
  }

  /** A cut a whole number of patterns in lands where the pattern starts over of itself. */
  lemma UnderParts(note: Note, clip: Placement, n: Ticks, left: Ticks, t: Ticks)
    requires 0 < n && 0 < left
    ensures clip.loop && left % n == 0 ==> (Under(note, clip, n, t) <==> Under(note, clip, n, t - left))
    ensures Under(note, clip, n, t) && Under(note, clip, n, t - left) ==> clip.loop && left % n == 0
  {
    var a := clip.window + t - note.start;
    assert clip.window + (t - left) - note.start == a - left;
    if clip.loop && left % n == 0 {
      PartsOver(a, left, n);
    }
    if clip.loop && a % n == 0 {
      WholePasses(a, left, n);
    }
  }

  /** A cut of a pattern clip goes unheard exactly then. */
  lemma PatternCutIff(note: Note, clip: Placement, n: Ticks, left: Ticks)
    requires 0 <= note.start < n && 0 < note.length && 0 < left < clip.length
    ensures Seamless(note, n, clip, Before(clip, left), After(clip, left), left) <==> PlaysOn(note, clip, n, left)
  {
    if Seamless(note, n, clip, Before(clip, left), After(clip, left), left) {
      HeldIsHeard(note, clip, n, left);
      if !(clip.loop && left % n == 0) {
        AfterIsHeard(note, clip, n, left);
      }
    }
    if PlaysOn(note, clip, n, left) {
      forall t, end
        ensures OccursAt(note, clip, n, t, end) <==>
                OccursInEither(note, Before(clip, left), After(clip, left), n, left, t, end)
      {
        UnderParts(note, clip, n, left, t);
        if t < left {
          SameBefore(note, clip, n, left, t, end);
        } else {
          SameAfter(note, clip, n, left, t, end);
        }
      }
    }
  }

  lemma SameBefore(note: Note, clip: Placement, n: Ticks, left: Ticks, t: Ticks, end: Ticks)
    requires 0 < n && 0 < left < clip.length && t < left && NoneHeld(note, clip, n, left)
    ensures OccursAt(note, clip, n, t, end) <==> OccursAt(note, Before(clip, left), n, t, end)
  {
    assert 0 <= t && Under(note, clip, n, t) ==> Reach(note, clip, n, t) <= left;
  }

  lemma SameAfter(note: Note, clip: Placement, n: Ticks, left: Ticks, t: Ticks, end: Ticks)
    requires 0 < n && 0 < left < clip.length && left <= t
    requires t < clip.length ==> (Under(note, clip, n, t) <==> Under(note, clip, n, t - left))
    ensures OccursAt(note, clip, n, t, end) <==> OccursAt(note, After(clip, left), n, t - left, end - left)
  {
    assert Under(note, After(clip, left), n, t - left) == Under(note, clip, n, t - left);
  }

  lemma HeldIsHeard(note: Note, clip: Placement, n: Ticks, left: Ticks)
    requires 0 <= note.start < n && 0 < note.length && 0 < left < clip.length
    requires Seamless(note, n, clip, Before(clip, left), After(clip, left), left)
    ensures NoneHeld(note, clip, n, left)
  {
    forall t | 0 <= t < left && Under(note, clip, n, t)
      ensures Reach(note, clip, n, t) <= left
    {
      assert OccursAt(note, clip, n, t, Reach(note, clip, n, t));
      assert OccursInEither(note, Before(clip, left), After(clip, left), n, left, t, Reach(note, clip, n, t));
    }
  }

  lemma AfterIsHeard(note: Note, clip: Placement, n: Ticks, left: Ticks)
    requires 0 <= note.start < n && 0 < note.length && 0 < left < clip.length
    requires Seamless(note, n, clip, Before(clip, left), After(clip, left), left)
    requires !(clip.loop && left % n == 0)
    ensures NoneAfter(note, clip, n, left)
  {
    forall t | left <= t < clip.length
      ensures !Under(note, clip, n, t)
    {
      UnderParts(note, clip, n, left, t);
      if Under(note, clip, n, t) {
        assert OccursAt(note, clip, n, t, Reach(note, clip, n, t));
        assert false;
      }
    }
    forall t | 0 <= t < clip.length - left
      ensures !Under(note, clip, n, t)
    {
      UnderParts(note, clip, n, left, t + left);
      if Under(note, clip, n, t) {
        var end := Reach(note, After(clip, left), n, t) + left;
        assert OccursAt(note, After(clip, left), n, t, end - left);
        assert OccursInEither(note, Before(clip, left), After(clip, left), n, left, t + left, end);
      }
    }
  }
}
