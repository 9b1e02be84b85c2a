/**
 The edits both note editors make of a selection: moving, resizing and quantising. A move shifts the whole
 selection by one time and one interval, or is refused as a whole; resizing always leaves notes that may be
 there; quantising never moves a note away from its target or past another.
 */
module NoteEdits {
  import opened Options
  import opened Notes
  import opened NoteGrids
  import opened Commands
  import opened StableSort
  import opened NoteSequences
  import opened TimeMaps

  type Semitones = k: int | -0x8000 <= k < 0x8000

  predicate GoodGrid(grid: Option<NoteGrid>) {
    grid.Some? ==> grid.value.Valid() && InRange(grid.value.spacing) && InRange(grid.value.origin)
  }

  // ----- moving -------------------------------------------------------------------------------

  /** No note starts before, and one starts then. */
  ghost predicate IsEarliest(notes: seq<Note>, tick: Ticks) {
    (forall n | n in notes :: tick <= n.start) && exists n | n in notes :: n.start == tick
  }

  predicate KeysFit(notes: seq<Note>, k: int) {
    forall n | n in notes :: 0 <= n.key + k <= 127
  }

  /** The nearest interval to the one asked for that keeps every key in 0..127. */
  ghost predicate IsBoundedTranspose(notes: seq<Note>, requested: int, k: int) {
    && KeysFit(notes, k)
    && forall j | KeysFit(notes, j) :: Distance(k, requested) <= Distance(j, requested)
  }

  /** The time to move by: what was asked for, snapped at the earliest note, and not to before zero. */
  function TimeDelta(earliest: Ticks, delta: Ticks, grid: Option<NoteGrid>): Ticks {
    var wanted :=
      if grid.Some? && grid.value.Valid()
      then SubtractClamped(SnapTick(AddClamped(earliest, delta), grid.value), earliest)
      else delta;
    if wanted < -earliest then -earliest else wanted
  }

  /** One note, moved; the sum saturates. */
  function Pushed(n: Note, delta: Ticks, interval: int): Note {
    n.(start := AddClamped(n.start, delta), key := n.key + interval)
  }

  /** One note, moved, whatever the range. */
  function Shifted(n: Note, delta: Ticks, interval: int): Note {
    n.(start := n.start + delta, key := n.key + interval)
  }

  function PushedAll(notes: seq<Note>, delta: Ticks, interval: int): (r: seq<Note>)
    ensures |r| == |notes|
  {
    seq(|notes|, i requires 0 <= i < |notes| => Pushed(notes[i], delta, interval))
  }

  function ShiftedAll(notes: seq<Note>, delta: Ticks, interval: int): (r: seq<Note>)
    ensures |r| == |notes|
  {
    seq(|notes|, i requires 0 <= i < |notes| => Shifted(notes[i], delta, interval))
  }

  method BoundedTranspose(notes: seq<Note>, requested: Semitones) returns (k: int)
    requires AllValid(notes)
    ensures notes == [] ==> k == 0
    ensures notes != [] ==> IsBoundedTranspose(notes, requested, k)
  {
    if notes == [] {
      return 0;
    }
    var lowest, highest := 127, 0;
    ghost var low: nat, high: nat := 0, 0;
    for i := 0 to |notes|
      invariant 0 <= lowest <= 127 && 0 <= highest <= 127 && (i == 0 ==> lowest == 127 && highest == 0)
      invariant forall n | n in notes[..i] :: lowest <= n.key <= highest
      invariant 0 < i ==> low < |notes| && notes[low].key == lowest && high < |notes| && notes[high].key == highest
    {
      assert notes[..i + 1] == notes[..i] + [notes[i]];
      assert IsValidNote(notes[i]);
      low := if notes[i].key <= lowest then i else low;
      high := if notes[i].key >= highest then i else high;
      lowest := if notes[i].key < lowest then notes[i].key else lowest;
      highest := if notes[i].key > highest then notes[i].key else highest;
    }
    assert notes[..|notes|] == notes;
    var lower, upper := -lowest, 127 - highest;
    assert notes[low] in notes && notes[high] in notes;
    k := if requested < lower then lower else if requested > upper then upper else requested;
  }

  method Earliest(notes: seq<Note>) returns (earliest: Ticks)
    requires notes != []
    ensures IsEarliest(notes, earliest)
  {
    earliest := notes[0].start;
    for i := 0 to |notes|
      invariant (forall n | n in notes[..i] :: earliest <= n.start) && exists n | n in notes :: n.start == earliest
    {
      assert notes[..i + 1] == notes[..i] + [notes[i]];
      if notes[i].start < earliest {
        earliest := notes[i].start;
      }
    }
    assert notes[..|notes|] == notes;
  }

  /** The selection, moved as a group. */
  method Move(notes: seq<Note>, delta: Ticks, semitones: Semitones, grid: Option<NoteGrid>)
      returns (after: seq<Note>, ghost earliest: Ticks, ghost interval: int)
    requires AllValid(notes)
    ensures notes == [] ==> after == []
    ensures notes != [] ==> IsEarliest(notes, earliest) && IsBoundedTranspose(notes, semitones, interval)
    ensures notes != [] ==> after == PushedAll(notes, TimeDelta(earliest, delta, grid), interval)
  {
    after, earliest, interval := notes, 0, 0;
    if notes == [] {
      return;
    }
    var timeDelta := delta;
    if grid.Some? && grid.value.Valid() {
      var anchor := Earliest(notes);
      var proposed := AddClamped(anchor, delta);
      timeDelta := SubtractClamped(SnapTick(proposed, grid.value), anchor);
    }
    var first := Earliest(notes);
    timeDelta := if timeDelta < -first then -first else timeDelta;
    var pitchDelta := BoundedTranspose(notes, semitones);
    for i := 0 to |notes|
      invariant |after| == |notes|
      invariant forall j | 0 <= j < |notes| :: after[j] == if j < i then Pushed(notes[j], timeDelta, pitchDelta) else notes[j]
    {
      after := after[i := after[i].(start := AddClamped(after[i].start, timeDelta))];
      after := after[i := after[i].(key := after[i].key + pitchDelta)];
    }
    earliest, interval := first, pitchDelta;
  }

  /** A selection moves as one or not at all: the moved notes are valid exactly when none ends beyond the last tick,
      and then each is moved by the same time and interval; otherwise the edit is refused. */
  lemma MovesAsOne(notes: seq<Note>, current: NoteBag, delta: Ticks, semitones: Semitones, grid: Option<NoteGrid>,
                   earliest: Ticks, interval: int)
    requires AllValid(notes) && IsEarliest(notes, earliest) && IsBoundedTranspose(notes, semitones, interval)
    requires InRange(delta) && GoodGrid(grid)
    ensures var d := TimeDelta(earliest, delta, grid);
      var fits := forall n | n in notes :: NoteEnd(n) + d <= MAX_TICKS;
      Edited(current, Sort(notes, NoteOrderBefore), Sort(PushedAll(notes, d, interval), NoteOrderBefore)) ==
      if multiset(notes) <= current && fits
      then Some(current - multiset(notes) + multiset(ShiftedAll(notes, d, interval))) else None
  {
    var d := TimeDelta(earliest, delta, grid);
    var after := PushedAll(notes, d, interval);
    DeltaInRange(earliest, delta, grid);
    NoteOrderIsWeak();
    SortSorts(notes, NoteOrderBefore);
    SortSorts(after, NoteOrderBefore);
    SameValidity(after, Sort(after, NoteOrderBefore));
    PushedFits(notes, d, interval);
  }

  lemma SameValidity(a: seq<Note>, b: seq<Note>)
    requires multiset(a) == multiset(b)
    ensures AllValid(a) <==> AllValid(b)
  {
    assert forall n :: n in multiset(a) <==> n in multiset(b);
    assert forall n :: n in a <==> n in multiset(a);
    assert forall n :: n in b <==> n in multiset(b);
    assert AllValid(a) <==> forall n | n in a :: IsValidNote(n);
    assert AllValid(b) <==> forall n | n in b :: IsValidNote(n);
  }

  lemma DeltaInRange(earliest: Ticks, delta: Ticks, grid: Option<NoteGrid>)
    requires 0 <= earliest <= MAX_TICKS && InRange(delta) && GoodGrid(grid)
    ensures InRange(TimeDelta(earliest, delta, grid)) && 0 <= earliest + TimeDelta(earliest, delta, grid)
  {
    if grid.Some? {
      Saturates(earliest, delta);
      SnapIs(AddClamped(earliest, delta), grid.value);
      Saturates(SnapTick(AddClamped(earliest, delta), grid.value), earliest);
    }
  }

  lemma PushedFits(notes: seq<Note>, d: Ticks, interval: int)
    requires AllValid(notes) && InRange(d) && KeysFit(notes, interval)
    requires forall n | n in notes :: 0 <= n.start + d
    ensures AllValid(PushedAll(notes, d, interval)) <==> forall n | n in notes :: NoteEnd(n) + d <= MAX_TICKS
    ensures AllValid(PushedAll(notes, d, interval)) ==> PushedAll(notes, d, interval) == ShiftedAll(notes, d, interval)
  {
    forall i | 0 <= i < |notes|
      ensures IsValidNote(PushedAll(notes, d, interval)[i]) <==> NoteEnd(notes[i]) + d <= MAX_TICKS
      ensures NoteEnd(notes[i]) + d <= MAX_TICKS ==> Pushed(notes[i], d, interval) == Shifted(notes[i], d, interval)
    {
      Saturates(notes[i].start, d);
    }
    forall n | n in notes && AllValid(PushedAll(notes, d, interval))
      ensures NoteEnd(n) + d <= MAX_TICKS
    {
      var i :| 0 <= i < |notes| && notes[i] == n;
      assert IsValidNote(PushedAll(notes, d, interval)[i]);
    }
  }

  /** Nothing starts before zero. Without a grid the selection moves as far as asked, if nothing would; with one its
      earliest note lands on the nearest point, if that is not before zero. */
  lemma WhereItMoves(earliest: Ticks, delta: Ticks, grid: Option<NoteGrid>)
    requires 0 <= earliest <= MAX_TICKS && InRange(delta) && GoodGrid(grid)
    ensures 0 <= earliest + TimeDelta(earliest, delta, grid)
    ensures grid.None? ==> earliest + TimeDelta(earliest, delta, grid) == if earliest + delta < 0 then 0 else earliest + delta
    ensures grid.Some? && Snappable(earliest + delta, grid.value) && 0 <= SnapTick(earliest + delta, grid.value) ==>
              Nearest(earliest + TimeDelta(earliest, delta, grid), earliest + delta, grid.value)
  {
    if grid.Some? {
      Saturates(earliest, delta);
      SnapIs(AddClamped(earliest, delta), grid.value);
      Saturates(SnapTick(AddClamped(earliest, delta), grid.value), earliest);
      if Snappable(earliest + delta, grid.value) {
        SnapNearest(earliest + delta, grid.value);
      }
    }
  }

  // ----- resizing -----------------------------------------------------------------------------

  /** One note with its end moved; a note that would not last lasts one tick. */
  function Stretched(n: Note, delta: Ticks, grid: Option<NoteGrid>): Note {
    var moved := AddClamped(AddClamped(n.start, n.length), delta);
    var end := if grid.Some? then SnapTick(moved, grid.value) else moved;
    n.(length := if end <= n.start then 1 else end - n.start)
  }

  method Resize(notes: seq<Note>, delta: Ticks, grid: Option<NoteGrid>) returns (after: seq<Note>)
    ensures after == seq(|notes|, i requires 0 <= i < |notes| => Stretched(notes[i], delta, grid))
  {
    after := notes;
    for i := 0 to |notes|
      invariant |after| == |notes|
      invariant forall j | 0 <= j < |notes| :: after[j] == if j < i then Stretched(notes[j], delta, grid) else notes[j]
    {
      var end := AddClamped(AddClamped(after[i].start, after[i].length), delta);
      if grid.Some? {
        end := SnapTick(end, grid.value);
      }
      after := after[i := after[i].(length := if end <= after[i].start then 1 else end - after[i].start)];
    }
  }

  /** A resized note is always valid, and keeps its start, key and velocity; on a grid it ends on it or lasts a tick. */
  lemma ResizedIsValid(n: Note, delta: Ticks, grid: Option<NoteGrid>)
    requires IsValidNote(n) && InRange(delta) && GoodGrid(grid)
    ensures IsValidNote(Stretched(n, delta, grid))
    ensures Stretched(n, delta, grid) == n.(length := Stretched(n, delta, grid).length)
    ensures grid.None? && n.length + delta >= 1 && NoteEnd(n) + delta <= MAX_TICKS ==>
              Stretched(n, delta, grid).length == n.length + delta
    ensures grid.Some? && Snappable(NoteEnd(n) + delta, grid.value) ==>
              Stretched(n, delta, grid).length == 1
              || Nearest(NoteEnd(Stretched(n, delta, grid)), NoteEnd(n) + delta, grid.value)
  {
    Saturates(n.start, n.length);
    Saturates(NoteEnd(n), delta);
    if grid.Some? {
      SnapIs(AddClamped(NoteEnd(n), delta), grid.value);
      if Snappable(NoteEnd(n) + delta, grid.value) {
        SnapNearest(NoteEnd(n) + delta, grid.value);
      }
    }
  }

  // ----- quantising ---------------------------------------------------------------------------

  /** How far a note at `start` moves towards `target`. */
  function Adjustment(start: Ticks, target: Ticks, strength: real): Ticks {
    Round(Scale((target - start) as real, strength))
  }

  function Quantised(n: Note, grid: NoteGrid, strength: real): Note {
    var target := SnapTick(n.start, grid);
    var moved := AddClamped(n.start, Round(Scale(SubtractClamped(target, n.start) as real, strength)));
    n.(start := if moved < 0 then 0 else moved)
  }

  method Quantise(notes: seq<Note>, grid: NoteGrid, strength: real) returns (after: seq<Note>)
    ensures after == seq(|notes|, i requires 0 <= i < |notes| => Quantised(notes[i], grid, strength))
  {
    after := notes;
    for i := 0 to |notes|
      invariant |after| == |notes|
      invariant forall j | 0 <= j < |notes| :: after[j] == if j < i then Quantised(notes[j], grid, strength) else notes[j]
    {
      var target := SnapTick(after[i].start, grid);
      var adjustment := Round(Scale(SubtractClamped(target, after[i].start) as real, strength));
      var moved := AddClamped(after[i].start, adjustment);
      after := after[i := after[i].(start := if moved < 0 then 0 else moved)];
    }
  }

  lemma BetweenStartAndTarget(start: Ticks, target: Ticks, strength: real)
    requires 0.0 <= strength <= 1.0
    ensures start <= target ==> 0 <= Adjustment(start, target, strength) <= target - start
    ensures target <= start ==> target - start <= Adjustment(start, target, strength) <= 0
    ensures strength == 0.0 ==> Adjustment(start, target, strength) == 0
    ensures strength == 1.0 ==> Adjustment(start, target, strength) == target - start
  {
    var d := (target - start) as real;
    Part(d, strength);
    RoundMonotone(0.0, Scale(d, strength));
    RoundMonotone(Scale(d, strength), 0.0);
    RoundMonotone(d, Scale(d, strength));
    RoundMonotone(Scale(d, strength), d);
    RoundWhole(target - start);
    RoundWhole(0);
  }

  lemma Part(d: real, strength: real)
    requires 0.0 <= strength <= 1.0
    ensures 0.0 <= d ==> 0.0 <= Scale(d, strength) <= d
    ensures d <= 0.0 ==> d <= Scale(d, strength) <= 0.0
    ensures strength == 0.0 ==> Scale(d, strength) == 0.0
    ensures strength == 1.0 ==> Scale(d, strength) == d
  {
    assert d - Scale(d, strength) == Scale(d, 1.0 - strength);
    NotNegative(d, strength);
    NotNegative(d, 1.0 - strength);
    NotNegative(-d, strength);
    NotNegative(-d, 1.0 - strength);
  }

  lemma NotNegative(a: real, b: real)
    requires 0.0 <= b
    ensures 0.0 <= a ==> 0.0 <= Scale(a, b)
    ensures 0.0 < a && 0.0 < b ==> 0.0 < Scale(a, b)
    ensures Scale(-a, b) == -Scale(a, b)
  {
  }

  /** Quantising moves a note towards its grid point and no further, all the way at full strength and not at all
      at none. */
  lemma QuantisedTowards(n: Note, grid: NoteGrid, strength: real)
    requires IsValidNote(n) && Snappable(n.start, grid) && 0.0 <= strength <= 1.0
    ensures var target, start := SnapTick(n.start, grid), Quantised(n, grid, strength).start;
      && 0 <= start
      && (n.start <= target ==> n.start <= start <= target)
      && (0 <= target <= n.start ==> target <= start <= n.start)
      && (strength == 0.0 ==> start == n.start)
      && (strength == 1.0 ==> start == if target < 0 then 0 else target)
  {
    var target := SnapTick(n.start, grid);
    SnapIs(n.start, grid);
    Saturates(target, n.start);
    if InRange(target - n.start) {
      BetweenStartAndTarget(n.start, target, strength);
      Saturates(n.start, Adjustment(n.start, target, strength));
    } else {
      BetweenStartAndTarget(n.start, n.start + Clamped(target - n.start), strength);
    }
  }

  /** Two starts that move towards two targets in the same order stay in order, rounding and all. */
  lemma OrderSurvives(start: Ticks, target: Ticks, start2: Ticks, target2: Ticks, strength: real)
    requires start <= start2 && target <= target2 && 0.0 <= strength <= 1.0
    ensures start + Adjustment(start, target, strength) <= start2 + Adjustment(start2, target2, strength)
  {
    if strength == 1.0 {
      BetweenStartAndTarget(start, target, strength);
      BetweenStartAndTarget(start2, target2, strength);
      return;
    }
    var x, y := Scale((target - start) as real, strength), Scale((target2 - start2) as real, strength);
    var r, s := (start2 - start) as real, (target2 - target) as real;
    Difference((target2 - start2) as real, (target - start) as real, strength);
    assert (target2 - start2) as real - (target - start) as real == s - r;
    Difference(s, r, strength);
    Part(s, strength);
    Rest(r, strength);
    if start == start2 {
      RoundMonotone(x, y);
    } else {
      assert x < y + r;
      RoundNear(x, y, start2 - start);
    }
  }

  lemma Difference(a: real, b: real, strength: real)
    ensures Scale(a, strength) - Scale(b, strength) == Scale(a - b, strength)
  {
  }

  lemma Rest(r: real, strength: real)
    requires 0.0 <= r && strength < 1.0
    ensures Scale(r, strength) <= r && (0.0 < r ==> Scale(r, strength) < r)
  {
    assert r - Scale(r, strength) == Scale(r, 1.0 - strength);
    NotNegative(r, 1.0 - strength);
  }

  lemma RoundNear(x: real, y: real, d: int)
    requires x < y + d as real
    ensures Round(x) <= Round(y) + d
  {
  }

  lemma QuantisedIs(n: Note, grid: NoteGrid, strength: real)
    requires IsValidNote(n) && Snappable(n.start, grid) && 0.0 <= strength <= 1.0
    ensures var start := n.start + Adjustment(n.start, SnapTick(n.start, grid), strength);
      Quantised(n, grid, strength) == n.(start := if start < 0 then 0 else start)
  {
    var target := SnapTick(n.start, grid);
    SnapIs(n.start, grid);
    SnapWithin(n.start, grid);
    Saturates(target, n.start);
    BetweenStartAndTarget(n.start, target, strength);
    Saturates(n.start, Adjustment(n.start, target, strength));
  }

  /** Notes quantised together keep their order in time. */
  lemma QuantiseKeepsOrder(n: Note, m: Note, grid: NoteGrid, strength: real)
    requires IsValidNote(n) && IsValidNote(m) && n.start <= m.start && 0.0 <= strength <= 1.0
    requires Snappable(n.start, grid) && Snappable(m.start, grid)
    ensures Quantised(n, grid, strength).start <= Quantised(m, grid, strength).start
  {
    SnapMonotone(n.start, m.start, grid);
    OrderSurvives(n.start, SnapTick(n.start, grid), m.start, SnapTick(m.start, grid), strength);
    QuantisedIs(n, grid, strength);
    QuantisedIs(m, grid, strength);
  }

  /** `d` is the whole number nearest to the strength times the way to `target`, the one farther from zero of two. */
  predicate PartOfTheWay(start: Ticks, target: Ticks, strength: real, d: Ticks) {
    var way := strength * (target - start) as real;
    if 0.0 <= way then d as real - 0.5 <= way < d as real + 0.5 else d as real - 0.5 < way <= d as real + 0.5
  }

  /** A quantised note is moved by that much, to zero at least, and is otherwise as it was. */
  lemma QuantisedMeans(n: Note, grid: NoteGrid, strength: real) returns (d: Ticks)
    requires IsValidNote(n) && Snappable(n.start, grid) && 0.0 <= strength <= 1.0
    ensures PartOfTheWay(n.start, SnapTick(n.start, grid), strength, d)
    ensures Quantised(n, grid, strength) == Note(if n.start + d < 0 then 0 else n.start + d, n.length, n.key, n.velocity)
  {
    d := Adjustment(n.start, SnapTick(n.start, grid), strength);
    QuantisedIs(n, grid, strength);
  }

  /** A moved note is as long and as loud as it was. */
  lemma ShiftedMeans(notes: seq<Note>, delta: Ticks, interval: int, i: nat)
    requires i < |notes|
    ensures var n := notes[i];
      ShiftedAll(notes, delta, interval)[i] == Note(n.start + delta, n.length, n.key + interval, n.velocity)
  {
  }
}
