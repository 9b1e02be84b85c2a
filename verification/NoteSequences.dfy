/**
 The notes of one instrument in one pattern, as the sorted vector the code keeps, and the note edit of
 the history on such vectors. The vectors stay sorted, and as bags of notes they do what `Commands.Edited`
 says, on the whole-sequence fast path and on the counted-removal path alike.
 */
module NoteSequences {
  import opened Options
  import opened Notes
  import opened Commands
  import opened StableSort

  predicate Sorted(s: seq<Note>) {
    SortedBy(s, NoteOrderBefore)
  }

  lemma NoteOrderIsWeak()
    ensures WeakOrder(NoteOrderBefore)
  {
  }

  class NoteSequence {
    var notes: seq<Note>

    ghost predicate Valid()
      reads this
    {
      Sorted(notes)
    }

    constructor ()
      ensures Valid() && notes == []
    {
      notes := [];
    }

    /** Inserts after every note it does not come before; returns where. */
    method Insert(note: Note) returns (index: nat)
      requires Valid()
      modifies this
      ensures Valid()
      ensures index <= |old(notes)| && notes == old(notes)[..index] + [note] + old(notes)[index..]
      ensures forall i | 0 <= i < index :: !NoteOrderBefore(note, old(notes)[i])
      ensures forall i | index <= i < |old(notes)| :: NoteOrderBefore(note, old(notes)[i])
    {
      var low, high := 0, |notes|;
      while low < high
        invariant 0 <= low <= high <= |notes|
        invariant forall i | 0 <= i < low :: !NoteOrderBefore(note, notes[i])
        invariant forall i | high <= i < |notes| :: NoteOrderBefore(note, notes[i])
      {
        var mid := low + (high - low) / 2;
        if NoteOrderBefore(note, notes[mid]) {
          assert forall i | mid <= i < |notes| :: !NoteOrderBefore(notes[i], notes[mid]);
          high := mid;
        } else {
          assert forall i | 0 <= i <= mid :: !NoteOrderBefore(notes[mid], notes[i]);
          low := mid + 1;
        }
      }
      index := low;
      notes := notes[..index] + [note] + notes[index..];
    }

    method EraseAt(index: nat)
      requires Valid()
      modifies this
      ensures Valid()
      ensures notes == if index < |old(notes)| then old(notes)[..index] + old(notes)[index + 1..] else old(notes)
    {
      if index < |notes| {
        notes := notes[..index] + notes[index + 1..];
      }
    }

    /** Removes one note equal to `note`, the first one, if there is any. */
    method Erase(note: Note) returns (found: bool)
      requires Valid()
      modifies this
      ensures Valid()
      ensures found == (note in old(notes))
      ensures multiset(notes) == if found then multiset(old(notes)) - multiset{note} else multiset(old(notes))
    {
      var position := LowerBound(note);
      while position < |notes| && !NoteOrderBefore(note, notes[position])
        invariant position <= |notes|
        invariant note !in notes[..position]
        invariant unchanged(this)
      {
        if notes[position] == note {
          ghost var before := notes;
          notes := notes[..position] + notes[position + 1..];
          assert before == before[..position] + [note] + before[position + 1..];
          return true;
        }
        assert notes[..position + 1] == notes[..position] + [notes[position]];
        position := position + 1;
      }
      assert forall i | position <= i < |notes| :: NoteOrderBefore(note, notes[i]) by {
        assert position < |notes| ==> forall i | position < i < |notes| :: !NoteOrderBefore(notes[i], notes[position]);
      }
      assert notes == notes[..position] + notes[position..];
      return false;
    }

    method LowerBound(note: Note) returns (position: nat)
      requires Valid()
      ensures position <= |notes|
      ensures forall i | 0 <= i < position :: NoteOrderBefore(notes[i], note)
      ensures forall i | position <= i < |notes| :: !NoteOrderBefore(notes[i], note)
    {
      var low, high := 0, |notes|;
      while low < high
        invariant 0 <= low <= high <= |notes|
        invariant forall i | 0 <= i < low :: NoteOrderBefore(notes[i], note)
        invariant forall i | high <= i < |notes| :: !NoteOrderBefore(notes[i], note)
      {
        var mid := low + (high - low) / 2;
        if NoteOrderBefore(notes[mid], note) {
          assert forall i | 0 <= i <= mid :: !NoteOrderBefore(notes[mid], notes[i]);
          low := mid + 1;
        } else {
          assert forall i | mid <= i < |notes| :: !NoteOrderBefore(notes[i], notes[mid]);
          high := mid;
        }
      }
      position := low;
    }

    /** Adopts any vector, sorting it stably unless it is sorted already. */
    method AssignSorted(given: seq<Note>)
      modifies this
      ensures Valid() && notes == Sort(given, NoteOrderBefore) && multiset(notes) == multiset(given)
    {
      NoteOrderIsWeak();
      SortSorts(given, NoteOrderBefore);
      if Sorted(given) {
        SortedIsFixed(given, NoteOrderBefore);
        notes := given;
      } else {
        notes := Sort(given, NoteOrderBefore);
      }
    }

    /** The notes whose onset lies in [start, end), found by two binary searches. */
    method StartingIn(start: Ticks, end: Ticks) returns (span: seq<Note>)
      requires Valid()
      ensures span == Filter(notes, (n: Note) => start <= n.start < end)
    {
      if end <= start {
        NoneFiltered(notes, (n: Note) => start <= n.start < end);
        return [];
      }
      var first := FirstOnset(0, start);
      var last := FirstOnset(first, end);
      span := notes[first..last];
      SpanIsFilter(notes, first, last, (n: Note) => start <= n.start < end);
    }

    method FirstOnset(low0: nat, tick: Ticks) returns (position: nat)
      requires Valid() && low0 <= |notes| && forall i | 0 <= i < low0 :: notes[i].start < tick
      ensures low0 <= position <= |notes|
      ensures forall i | 0 <= i < position :: notes[i].start < tick
      ensures forall i | position <= i < |notes| :: tick <= notes[i].start
    {
      var low, high: nat := low0, |notes|;
      while low < high
        invariant low0 <= low <= high <= |notes|
        invariant forall i | 0 <= i < low :: notes[i].start < tick
        invariant forall i | high <= i < |notes| :: tick <= notes[i].start
      {
        var mid := low + (high - low) / 2;
        if notes[mid].start < tick {
          assert forall i | 0 <= i <= mid :: !NoteOrderBefore(notes[mid], notes[i]);
          low := mid + 1;
        } else {
          assert forall i | mid <= i < |notes| :: !NoteOrderBefore(notes[i], notes[mid]);
          high := mid;
        }
      }
      position := low;
    }

    method ContentEnd() returns (end: Ticks)
      ensures IsContentEnd(multiset(notes), end)
    {
      end := 0;
      for i := 0 to |notes|
        invariant IsContentEnd(multiset(notes[..i]), end)
      {
        assert notes[..i + 1] == notes[..i] + [notes[i]];
        if end < NoteEnd(notes[i]) {
          end := NoteEnd(notes[i]);
        }
        assert notes[i] in multiset(notes[..i + 1]);
      }
      assert notes[..|notes|] == notes;
    }
  }

  lemma NoneFiltered<T>(s: seq<T>, p: T -> bool)
    requires forall x | x in s :: !p(x)
    ensures Filter(s, p) == []
  {
  }

  /** When just the positions from `first` to `last` pass, the filter is that slice. */
  lemma {:induction false} SpanIsFilter<T>(s: seq<T>, first: nat, last: nat, p: T -> bool)
    requires first <= last <= |s|
    requires forall i | 0 <= i < |s| :: p(s[i]) <==> first <= i < last
    ensures Filter(s, p) == s[first..last]
  {
    if s != [] {
      var n := |s| - 1;
      if last == |s| {
        SpanIsFilter(s[..n], if first < |s| then first else n, n, p);
      } else {
        SpanIsFilter(s[..n], first, last, p);
        assert s[..n][first..last] == s[first..last];
      }
    }
  }

  /**
   The edit of one sequence, on vectors: the fast path when everything is replaced, and otherwise one pass
   that counts removals down. Fails when a note to take is missing or a note to give is invalid. Only the
   bag of current notes matters to the outcome, not the order of notes that tie.
   */
  method EditSequence(current: seq<Note>, take: seq<Note>, give: seq<Note>) returns (edited: Option<seq<Note>>)
    ensures edited.Some? ==> Sorted(edited.value)
    ensures Edited(multiset(current), take, give) ==
      match edited case None => None case Some(notes) => Some(multiset(notes))
  {
    var sequence := new NoteSequence();
    if take == current {
      if !AllValid(give) {
        return None;
      }
      sequence.AssignSorted(give);
      assert multiset(current) - multiset(take) + multiset(give) == multiset(give);
      return Some(sequence.notes);
    }
    var left := TakeOut(current, take);
    if left.None? || !AllValid(give) {
      return None;
    }
    sequence.AssignSorted(left.value + give);
    assert multiset(left.value + give) == multiset(left.value) + multiset(give);
    return Some(sequence.notes);
  }

  /** What is left of `current` without `take`; the counts of notes still to be removed form a bag. */
  method TakeOut(current: seq<Note>, take: seq<Note>) returns (left: Option<seq<Note>>)
    ensures left.Some? <==> multiset(take) <= multiset(current)
    ensures left.Some? ==> multiset(left.value) == multiset(current) - multiset(take)
  {
    var removals: multiset<Note> := multiset{};
    for i := 0 to |take|
      invariant removals == multiset(take[..i])
    {
      assert take[..i + 1] == take[..i] + [take[i]];
      removals := removals + multiset{take[i]};
    }
    assert take[..|take|] == take;
    var result, missing := Subtract(current, removals);
    return if missing == multiset{} then Some(result) else None;
  }

  /** Skips one note of `current` for every one in `removals`; returns the rest and the removals unmet. */
  method Subtract(current: seq<Note>, removals: multiset<Note>) returns (result: seq<Note>, missing: multiset<Note>)
    ensures missing == multiset{} <==> removals <= multiset(current)
    ensures missing == multiset{} ==> multiset(result) == multiset(current) - removals
  {
    result, missing := [], removals;
    ghost var taken: multiset<Note> := multiset{};
    for i := 0 to |current|
      invariant taken + missing == removals
      invariant multiset(current[..i]) == multiset(result) + taken
      invariant forall n | n in multiset(result) :: n !in missing
    {
      assert current[..i + 1] == current[..i] + [current[i]];
      if current[i] !in missing {
        result := result + [current[i]];
      } else {
        missing := missing - multiset{current[i]};
        taken := taken + multiset{current[i]};
      }
    }
    assert current[..|current|] == current;
    if missing != multiset{} {
      ghost var n :| n in missing;
      assert removals[n] > multiset(current)[n];
    }
  }
}
