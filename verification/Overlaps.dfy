/**
 Overlapping notes of one voice are resolved by the later note-on: it cuts the note before it. The in-place
 pass over the sorted notes is held to what a listener hears: at every tick, the longest note of the latest
 onset sounds if it is still going, and nothing else does.
 */
module Overlaps {
  import opened Notes
  import opened StableSort

  /** A note on the timeline, still in ticks, on the channel that plays it. */
  datatype ResolvedNote = ResolvedNote(start: Ticks, end: Ticks, instrument: nat, key: int, velocity: real)

  datatype Voice = Voice(instrument: nat, key: int)

  function VoiceOf(n: ResolvedNote): Voice {
    Voice(n.instrument, n.key)
  }

  predicate VoiceBefore(a: Voice, b: Voice) {
    a.instrument < b.instrument || (a.instrument == b.instrument && a.key < b.key)
  }

  predicate ResolvedBefore(a: ResolvedNote, b: ResolvedNote) {
    if a.instrument != b.instrument then a.instrument < b.instrument
    else if a.key != b.key then a.key < b.key
    else if a.start != b.start then a.start < b.start
    else a.end < b.end
  }

  // ----- what should sound -----------------------------------------------------

  ghost predicate Onset(notes: seq<ResolvedNote>, v: Voice, t: Ticks) {
    exists n | n in notes :: VoiceOf(n) == v && n.start == t
  }

  /** No note of the voice starts after `from` and before `to`. */
  ghost predicate NoOnsetBetween(notes: seq<ResolvedNote>, v: Voice, from: Ticks, to: Ticks) {
    forall n | n in notes && VoiceOf(n) == v :: !(from < n.start < to)
  }

  ghost predicate Longest(notes: seq<ResolvedNote>, n: ResolvedNote) {
    forall m | m in notes && VoiceOf(m) == VoiceOf(n) && m.start == n.start :: m.end <= n.end
  }

  /** `n` is the longest note of its onset, and sounds from there to its own end or the next onset. */
  ghost predicate CutTo(notes: seq<ResolvedNote>, n: ResolvedNote, end: Ticks) {
    && n in notes && n.start < end <= n.end
    && Longest(notes, n) && NoOnsetBetween(notes, VoiceOf(n), n.start, end)
    && (end == n.end || Onset(notes, VoiceOf(n), end))
  }

  ghost predicate SoundsFor(notes: seq<ResolvedNote>, v: Voice, start: Ticks, end: Ticks) {
    exists n :: CutTo(notes, n, end) && VoiceOf(n) == v && n.start == start
  }

  /** The latest onset at or before `t` is that of a note that still goes on at `t`. */
  ghost predicate LatestCovers(notes: seq<ResolvedNote>, v: Voice, t: Ticks) {
    exists n | n in notes :: VoiceOf(n) == v && n.start <= t < n.end && NoOnsetBetween(notes, v, n.start, t + 1)
  }

  // ----- the pass over the sorted notes ------------------------------------------

  function CutOne(s: seq<ResolvedNote>, i: nat): ResolvedNote
    requires i < |s|
  {
    if i + 1 < |s| && VoiceOf(s[i + 1]) == VoiceOf(s[i]) && s[i + 1].start < s[i].end
    then s[i].(end := s[i + 1].start)
    else s[i]
  }

  predicate Survives(s: seq<ResolvedNote>, i: nat)
    requires i < |s|
  {
    CutOne(s, i).start < CutOne(s, i).end
  }

  /** What the pass leaves of the first `k` notes. */
  function Left(s: seq<ResolvedNote>, k: nat): seq<ResolvedNote>
    requires k <= |s|
  {
    if k == 0 then [] else Left(s, k - 1) + if Survives(s, k - 1) then [CutOne(s, k - 1)] else []
  }

  lemma ResolvedOrder()
    ensures WeakOrder(ResolvedBefore)
  {
  }

  /** Any sort will do: notes that tie differ in velocity alone. */
  method SortNotes(notes: array<ResolvedNote>)
    modifies notes
    ensures SortedBy(notes[..], ResolvedBefore) && multiset(notes[..]) == multiset(old(notes[..]))
  {
    ResolvedOrder();
    var sorted := Sort(notes[..], ResolvedBefore);
    SortSorts(notes[..], ResolvedBefore);
    SameLength(sorted, notes[..]);
    Overwrite(notes, sorted);
  }

  lemma SameLength(a: seq<ResolvedNote>, b: seq<ResolvedNote>)
    requires multiset(a) == multiset(b)
    ensures |a| == |b|
  {
    assert |multiset(a)| == |multiset(b)|;
  }

  method Overwrite(notes: array<ResolvedNote>, s: seq<ResolvedNote>)
    requires |s| == notes.Length
    modifies notes
    ensures notes[..] == s
  {
    for i := 0 to notes.Length
      invariant notes[..i] == s[..i]
    {
      notes[i] := s[i];
    }
  }

  /** Cuts each note at the next of its voice. */
  method CutEach(notes: array<ResolvedNote>)
    modifies notes
    ensures forall k: nat | k < notes.Length :: notes[k] == CutOne(old(notes[..]), k)
  {
    var i := 0;
    while i + 1 < notes.Length
      invariant 0 <= i && (i < notes.Length || notes.Length == 0)
      invariant forall k: nat | k < i && k < notes.Length :: notes[k] == CutOne(old(notes[..]), k)
      invariant forall k: nat | i <= k < notes.Length :: notes[k] == old(notes[..])[k]
    {
      var current, next := notes[i], notes[i + 1];
      if VoiceOf(current) == VoiceOf(next) && next.start < current.end {
        notes[i] := current.(end := next.start);
      }
      i := i + 1;
    }
  }

  /** Moves what is not empty to the front, in order. */
  method EraseEmpty(notes: array<ResolvedNote>, ghost s: seq<ResolvedNote>) returns (count: nat)
    requires |s| == notes.Length && forall k: nat | k < notes.Length :: notes[k] == CutOne(s, k)
    modifies notes
    ensures count <= notes.Length && notes[..count] == Left(s, |s|)
  {
    count := 0;
    for j := 0 to notes.Length
      invariant count <= j && notes[..count] == Left(s, j)
      invariant forall k: nat | j <= k < notes.Length :: notes[k] == CutOne(s, k)
    {
      if notes[j].start < notes[j].end {
        notes[count] := notes[j];
        count := count + 1;
      }
    }
  }

  /** Sorts, cuts each note at the next of its voice, and erases what is cut to nothing. */
  method ResolveOverlaps(notes: array<ResolvedNote>) returns (count: nat)
    modifies notes
    ensures count <= notes.Length
    ensures Resolves(old(notes[..]), notes[..count])
  {
    SortNotes(notes);
    ghost var s := notes[..];
    CutEach(notes);
    count := EraseEmpty(notes, s);
    LeftResolves(s, |s|);
    SameMembers(old(notes[..]), s);
    ResolvesSame(old(notes[..]), s, notes[..count]);
  }

  /** A note of the result is one of the notes given, cut to where it should sound. */
  ghost predicate Remains(notes: seq<ResolvedNote>, x: ResolvedNote) {
    exists n :: CutTo(notes, n, x.end) && x == n.(end := x.end)
  }

  /** The result of the pass: exactly what should sound, voice by voice in order of time. */
  ghost predicate Resolves(notes: seq<ResolvedNote>, r: seq<ResolvedNote>) {
    AllRemain(notes, r) && AllSound(notes, r) && InOrder(r)
  }

  ghost predicate AllRemain(notes: seq<ResolvedNote>, r: seq<ResolvedNote>) {
    forall n | n in r :: Remains(notes, n)
  }

  ghost predicate AllSound(notes: seq<ResolvedNote>, r: seq<ResolvedNote>) {
    forall v, start, end | SoundsFor(notes, v, start, end) :: SoundsIn(r, v, start, end)
  }

  predicate SoundsIn(r: seq<ResolvedNote>, v: Voice, start: Ticks, end: Ticks) {
    exists n | n in r :: VoiceOf(n) == v && n.start == start && n.end == end
  }

  predicate InOrder(r: seq<ResolvedNote>) {
    forall i, j | 0 <= i < j < |r| ::
      VoiceBefore(VoiceOf(r[i]), VoiceOf(r[j])) || (VoiceOf(r[i]) == VoiceOf(r[j]) && r[i].end <= r[j].start)
  }

  lemma SameMembers(a: seq<ResolvedNote>, b: seq<ResolvedNote>)
    requires multiset(a) == multiset(b)
    ensures forall n :: n in a <==> n in b
  {
    forall n ensures n in a <==> n in b {
      assert n in a <==> n in multiset(a);
      assert n in b <==> n in multiset(b);
    }
  }

  /** Only which notes there are matters, not their order: stacking clips on other lanes changes nothing. */
  lemma {:induction false} CutSame(a: seq<ResolvedNote>, b: seq<ResolvedNote>, n: ResolvedNote, end: Ticks)
    requires forall m :: m in a <==> m in b
    ensures CutTo(a, n, end) <==> CutTo(b, n, end)
  {
    assert Onset(a, VoiceOf(n), end) <==> Onset(b, VoiceOf(n), end);
  }

  lemma {:induction false} ResolvesSame(a: seq<ResolvedNote>, b: seq<ResolvedNote>, r: seq<ResolvedNote>)
    requires (forall m :: m in a <==> m in b) && Resolves(b, r)
    ensures Resolves(a, r)
  {
    forall x | x in r ensures Remains(a, x) {
      var n :| CutTo(b, n, x.end) && x == n.(end := x.end);
      CutSame(a, b, n, x.end);
    }
    forall v, start, end | SoundsFor(a, v, start, end) ensures SoundsFor(b, v, start, end) {
      var n :| CutTo(a, n, end) && VoiceOf(n) == v && n.start == start;
      CutSame(a, b, n, end);
    }
  }

  lemma {:induction false} SurvivorIsCut(s: seq<ResolvedNote>, i: nat)
    requires SortedBy(s, ResolvedBefore) && i < |s| && Survives(s, i)
    ensures CutTo(s, s[i], CutOne(s, i).end)
  {
    var n, end := s[i], CutOne(s, i).end;
    assert s[i] in s;
    forall m | m in s && VoiceOf(m) == VoiceOf(n) ensures !(n.start < m.start < end) && (m.start == n.start ==> m.end <= n.end) {
      var j: nat :| j < |s| && s[j] == m;
      if j < i {
        assert !ResolvedBefore(s[i], s[j]);
      } else if i + 1 < j {
        assert !ResolvedBefore(s[j], s[i + 1]) && !ResolvedBefore(s[i + 1], s[i]);
      }
    }
    if end != n.end {
      assert s[i + 1] in s;
    }
  }

  /** The last note of the onset of `s[i]`. */
  lemma {:induction false} LastOfOnset(s: seq<ResolvedNote>, i: nat) returns (k: nat)
    requires SortedBy(s, ResolvedBefore) && i < |s|
    ensures i <= k < |s| && VoiceOf(s[k]) == VoiceOf(s[i]) && s[k].start == s[i].start
    ensures k + 1 < |s| ==> !(VoiceOf(s[k + 1]) == VoiceOf(s[k]) && s[k + 1].start == s[k].start)
    decreases |s| - i
  {
    if i + 1 < |s| && VoiceOf(s[i + 1]) == VoiceOf(s[i]) && s[i + 1].start == s[i].start {
      k := LastOfOnset(s, i + 1);
    } else {
      k := i;
    }
  }

  lemma {:induction false} CutSurvives(s: seq<ResolvedNote>, n: ResolvedNote, end: Ticks) returns (k: nat)
    requires SortedBy(s, ResolvedBefore) && CutTo(s, n, end)
    ensures k < |s| && Survives(s, k)
    ensures VoiceOf(s[k]) == VoiceOf(n) && s[k].start == n.start && CutOne(s, k).end == end
  {
    var i: nat :| i < |s| && s[i] == n;
    k := LastOfOnset(s, i);
    assert i < k ==> !ResolvedBefore(s[k], s[i]);
    assert s[k] in s;
    if k + 1 < |s| && VoiceOf(s[k + 1]) == VoiceOf(n) {
      assert s[k + 1] in s && !ResolvedBefore(s[k + 1], s[k]);
    }
    if end != n.end {
      var m :| m in s && VoiceOf(m) == VoiceOf(n) && m.start == end;
      NextInVoice(s, k, m);
    }
  }

  /** A later onset of the voice of `s[k]` means that its next note is of that voice and no later. */
  lemma {:induction false} NextInVoice(s: seq<ResolvedNote>, k: nat, m: ResolvedNote)
    requires SortedBy(s, ResolvedBefore) && k < |s| && m in s && VoiceOf(m) == VoiceOf(s[k]) && s[k].start < m.start
    ensures k + 1 < |s| && VoiceOf(s[k + 1]) == VoiceOf(s[k]) && s[k + 1].start <= m.start
  {
    var j: nat :| j < |s| && s[j] == m;
    if j < k {
      assert ResolvedBefore(s[k], s[j]);
    }
    if k + 1 < j {
      assert !ResolvedBefore(s[j], s[k + 1]) && !ResolvedBefore(s[k + 1], s[k]);
    }
  }

  lemma {:induction false} LeftAt(s: seq<ResolvedNote>, k: nat, i: nat) returns (at: nat)
    requires i < k <= |s| && Survives(s, i)
    ensures at < |Left(s, k)| && Left(s, k)[at] == CutOne(s, i)
    decreases k
  {
    if i == k - 1 {
      at := |Left(s, k - 1)|;
    } else {
      at := LeftAt(s, k - 1, i);
    }
  }

  lemma {:induction false} LeftFrom(s: seq<ResolvedNote>, k: nat, at: nat) returns (i: nat)
    requires k <= |s| && at < |Left(s, k)|
    ensures i < k && Survives(s, i) && Left(s, k)[at] == CutOne(s, i)
    decreases k
  {
    if at < |Left(s, k - 1)| {
      i := LeftFrom(s, k - 1, at);
    } else {
      i := k - 1;
    }
  }

  lemma {:induction false} LeftInOrder(s: seq<ResolvedNote>, k: nat)
    requires SortedBy(s, ResolvedBefore) && k <= |s|
    ensures InOrder(Left(s, k))
    decreases k
  {
    if k > 0 {
      LeftInOrder(s, k - 1);
      if Survives(s, k - 1) {
        var r, last := Left(s, k - 1), s[k - 1];
        forall a: nat | a < |r|
          ensures VoiceBefore(VoiceOf(r[a]), VoiceOf(last)) || (VoiceOf(r[a]) == VoiceOf(last) && r[a].end <= last.start)
        {
          var i := LeftFrom(s, k - 1, a);
          assert !ResolvedBefore(last, s[i]);
          if i + 1 < k - 1 {
            assert !ResolvedBefore(last, s[i + 1]) && !ResolvedBefore(s[i + 1], s[i]);
          }
        }
      }
    }
  }

  lemma {:induction false} LeftResolves(s: seq<ResolvedNote>, k: nat)
    requires SortedBy(s, ResolvedBefore) && k == |s|
    ensures Resolves(s, Left(s, k))
  {
    var r := Left(s, k);
    forall x | x in r ensures Remains(s, x) {
      var a :| 0 <= a < |r| && r[a] == x;
      var i := LeftFrom(s, k, a);
      SurvivorIsCut(s, i);
      assert x == s[i].(end := x.end);
    }
    forall v, start, end | SoundsFor(s, v, start, end) ensures SoundsIn(r, v, start, end) {
      var n :| CutTo(s, n, end) && VoiceOf(n) == v && n.start == start;
      var i := CutSurvives(s, n, end);
      var a := LeftAt(s, k, i);
      assert r[a] in r;
    }
    LeftInOrder(s, k);
  }

  // ----- what the listener hears --------------------------------------------------

  lemma {:induction false} LongestExists(notes: seq<ResolvedNote>, among: seq<ResolvedNote>, n: ResolvedNote)
    returns (l: ResolvedNote)
    requires n in among && forall m | m in among :: m in notes
    ensures l in among && VoiceOf(l) == VoiceOf(n) && l.start == n.start && n.end <= l.end && Longest(among, l)
    decreases |among|
  {
    var last, rest := among[|among| - 1], among[..|among| - 1];
    assert forall m | m in among :: m == last || m in rest;
    if n in rest {
      l := LongestExists(notes, rest, n);
      if VoiceOf(last) == VoiceOf(n) && last.start == n.start && l.end < last.end {
        l := last;
      }
    } else {
      l := n;
      if exists m :: m in rest && VoiceOf(m) == VoiceOf(n) && m.start == n.start {
        var m :| m in rest && VoiceOf(m) == VoiceOf(n) && m.start == n.start;
        var l' := LongestExists(notes, rest, m);
        l := if l'.end <= n.end then n else l';
      }
    }
  }

  /** The first onset of the voice after `from` and before `limit`, or `limit` itself. */
  lemma {:induction false} NextOnset(notes: seq<ResolvedNote>, v: Voice, from: Ticks, limit: Ticks) returns (end: Ticks)
    requires from < limit
    ensures from < end <= limit && NoOnsetBetween(notes, v, from, end) && (end == limit || Onset(notes, v, end))
    decreases limit - from
  {
    if NoOnsetBetween(notes, v, from, limit) {
      end := limit;
    } else {
      var n :| n in notes && VoiceOf(n) == v && from < n.start < limit;
      end := NextOnset(notes, v, from, n.start);
    }
  }

  /** Every note that is not empty leaves something that sounds at its onset. */
  lemma {:induction false} OnsetSounds(notes: seq<ResolvedNote>, n: ResolvedNote) returns (l: ResolvedNote, end: Ticks)
    requires n in notes && n.start < n.end
    ensures CutTo(notes, l, end) && VoiceOf(l) == VoiceOf(n) && l.start == n.start
    ensures n.end <= l.end
  {
    l := LongestExists(notes, notes, n);
    end := NextOnset(notes, VoiceOf(n), n.start, l.end);
  }

  /** The onsets that sound are the onsets there were. */
  lemma {:induction false} OnsetsKept(notes: seq<ResolvedNote>, v: Voice, t: Ticks)
    requires forall n | n in notes :: n.start < n.end
    ensures Onset(notes, v, t) <==> exists end :: SoundsFor(notes, v, t, end)
  {
    if Onset(notes, v, t) {
      var n :| n in notes && VoiceOf(n) == v && n.start == t;
      var l, end := OnsetSounds(notes, n);
      assert SoundsFor(notes, v, t, end);
    }
  }

  /** Last-note priority: a tick sounds exactly when a note of its latest onset covers it. */
  lemma {:induction false} LastNotePriority(notes: seq<ResolvedNote>, v: Voice, t: Ticks)
    ensures (exists start, end :: SoundsFor(notes, v, start, end) && start <= t < end) <==> LatestCovers(notes, v, t)
  {
    if exists start, end :: SoundsFor(notes, v, start, end) && start <= t < end {
      var start, end :| SoundsFor(notes, v, start, end) && start <= t < end;
      var n :| CutTo(notes, n, end) && VoiceOf(n) == v && n.start == start;
      assert n in notes;
    }
    if LatestCovers(notes, v, t) {
      var n :| n in notes && VoiceOf(n) == v && n.start <= t < n.end && NoOnsetBetween(notes, v, n.start, t + 1);
      var l, end := OnsetSounds(notes, n);
      assert t < end;
      assert SoundsFor(notes, v, n.start, end);
    }
  }

  /** What sounds of one voice is disjoint, and an onset has one length. */
  lemma {:induction false} SoundsApart(notes: seq<ResolvedNote>, v: Voice, s: Ticks, e: Ticks, s': Ticks, e': Ticks)
    requires SoundsFor(notes, v, s, e) && SoundsFor(notes, v, s', e')
    ensures s < s' ==> e <= s'
    ensures s == s' ==> e == e'
  {
  }
}
