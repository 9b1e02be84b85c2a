/**
 The step view of a note sequence, and selecting by range. A step is a view and no more: toggling it adds or
 removes the notes exactly on its onset and never touches another, and toggling an empty step twice gives back
 the same notes.
 */
module StepCells {
  import opened Options
  import opened Notes
  import opened NoteGrids
  import opened Entities
  import opened Commands
  import opened StableSort
  import opened NoteSequences
  import opened Schedules

  // ----- selecting ------------------------------------------------------------------------------

  datatype NoteRange = NoteRange(start: Ticks, end: Ticks, lowKey: int, highKey: int)

  /** Sounding at some time of the range, on one of its keys. */
  predicate Selects(range: NoteRange, n: Note) {
    && range.start < range.end
    && n.start < range.end && range.start < NoteEnd(n)
    && range.lowKey <= n.key <= range.highKey
  }

  /** The notes of a sorted sequence that a range selects, in order; it stops at the first that starts too late. */
  method SelectNotesInRange(notes: seq<Note>, range: NoteRange) returns (selected: seq<Note>)
    requires Sorted(notes) && AllValid(notes)
    ensures selected == Filter(notes, n => Selects(range, n))
  {
    selected := [];
    var p := n => Selects(range, n);
    if range.end <= range.start || range.highKey < range.lowKey {
      NoneFiltered(notes, p);
      return;
    }
    for i := 0 to |notes|
      invariant selected == Filter(notes[..i], p)
    {
      assert notes[..i + 1] == notes[..i] + [notes[i]];
      FilterAppend(notes[..i], notes[i], p);
      if notes[i].start >= range.end {
        NoneLater(notes, range, i);
        return;
      }
      assert IsValidNote(notes[i]);
      if AddClamped(notes[i].start, notes[i].length) <= range.start {
        continue;
      }
      if notes[i].key < range.lowKey || notes[i].key > range.highKey {
        continue;
      }
      selected := selected + [notes[i]];
    }
    assert notes[..|notes|] == notes;
  }

  lemma NoneLater(notes: seq<Note>, range: NoteRange, i: nat)
    requires Sorted(notes) && i < |notes| && range.end <= notes[i].start
    ensures Filter(notes, n => Selects(range, n)) == Filter(notes[..i], n => Selects(range, n))
  {
    var p := n => Selects(range, n);
    forall j | i <= j < |notes|
      ensures !p(notes[j])
    {
      assert j == i || !NoteOrderBefore(notes[j], notes[i]);
    }
    NoneFiltered(notes[i..], p);
    FilterConcat(notes[..i], notes[i..], p);
    assert notes == notes[..i] + notes[i..];
  }

  // ----- one step -------------------------------------------------------------------------------

  datatype StepCell = StepCell(onGrid: seq<Note>, offGrid: seq<Note>) {
    predicate Active() {
      onGrid != []
    }
  }

  predicate AtOnset(n: Note, key: int, onset: Ticks) {
    n.key == key && n.start == onset
  }

  /** In the cell, on its key, but not at its onset. */
  predicate InsideCell(n: Note, key: int, onset: Ticks, grid: NoteGrid) {
    n.key == key && onset < n.start < AddClamped(onset, grid.spacing)
  }

  function OnGridNotes(notes: seq<Note>, key: int, onset: Ticks): seq<Note> {
    Filter(notes, n => AtOnset(n, key, onset))
  }

  function OffGridNotes(notes: seq<Note>, key: int, onset: Ticks, grid: NoteGrid): seq<Note> {
    Filter(notes, n => InsideCell(n, key, onset, grid))
  }

  function StepAt(key: int, index: int, grid: NoteGrid): Option<Ticks> {
    if key < 0 || key > 127 then None else StepOnset(index, grid)
  }

  /** What a step shows: the notes at its onset, and the others that start inside it. */
  method InspectStep(sequence: NoteSequence, key: int, index: int, grid: NoteGrid) returns (cell: StepCell)
    requires sequence.Valid() && AllValid(sequence.notes) && InRange(grid.origin) && InRange(grid.spacing)
    ensures StepAt(key, index, grid) == None ==> cell == StepCell([], [])
    ensures StepAt(key, index, grid) != None ==>
      var onset := StepAt(key, index, grid).value;
      cell == StepCell(OnGridNotes(sequence.notes, key, onset), OffGridNotes(sequence.notes, key, onset, grid))
  {
    cell := StepCell([], []);
    var step := StepOnset(index, grid);
    if key < 0 || key > 127 || step == None {
      return;
    }
    var start := step.value;
    StepOnsets(index, grid);
    var end := AddClamped(start, grid.spacing);
    var span := sequence.StartingIn(start, end);
    FilterMembers(sequence.notes, (n: Note) => start <= n.start < end);
    cell := Partition(span, key, start, end);
    FilterTwice(sequence.notes, (n: Note) => start <= n.start < end, n => AtOnset(n, key, start));
    FilterTwice(sequence.notes, (n: Note) => start <= n.start < end, n => InsideCell(n, key, start, grid));
    SameFilter(span, n => Inside(n, key, start, end), n => InsideCell(n, key, start, grid));
  }

  predicate Inside(n: Note, key: int, start: Ticks, end: Ticks) {
    n.key == key && start < n.start < end
  }

  lemma SameFilter<T>(s: seq<T>, p: T -> bool, q: T -> bool)
    requires forall x :: p(x) == q(x)
    ensures Filter(s, p) == Filter(s, q)
  {
  }

  method Partition(span: seq<Note>, key: int, start: Ticks, end: Ticks) returns (cell: StepCell)
    requires forall n | n in span :: start <= n.start < end
    ensures cell.onGrid == OnGridNotes(span, key, start)
    ensures cell.offGrid == Filter(span, n => Inside(n, key, start, end))
  {
    var on, off := n => AtOnset(n, key, start), n => Inside(n, key, start, end);
    cell := StepCell([], []);
    for i := 0 to |span|
      invariant cell == StepCell(Filter(span[..i], on), Filter(span[..i], off))
    {
      assert span[..i + 1] == span[..i] + [span[i]];
      FilterAppend(span[..i], span[i], on);
      FilterAppend(span[..i], span[i], off);
      assert span[i] in span;
      if span[i].key != key {
        continue;
      }
      if span[i].start == start {
        cell := cell.(onGrid := cell.onGrid + [span[i]]);
      } else {
        cell := cell.(offGrid := cell.offGrid + [span[i]]);
      }
    }
    assert span[..|span|] == span;
  }

  /** Filtering by less first makes no difference to what passes more. */
  lemma {:induction false} FilterTwice<T>(s: seq<T>, wide: T -> bool, narrow: T -> bool)
    requires forall x | x in s && narrow(x) :: wide(x)
    ensures Filter(Filter(s, wide), narrow) == Filter(s, narrow)
  {
    if s != [] {
      FilterTwice(s[..|s| - 1], wide, narrow);
      FilterAppend(Filter(s[..|s| - 1], wide), s[|s| - 1], narrow);
    }
  }

  // ----- toggling -------------------------------------------------------------------------------

  /** The note a step gets: as long as the step, and at the instrument's own velocity. */
  function StepNote(key: int, onset: Ticks, grid: NoteGrid, velocity: nat): Note {
    Note(onset, grid.spacing, key, velocity)
  }

  /** The command that toggles a step, if there is one: it needs the pattern, the instrument, a step that exists and,
      to add a note, a note that may be there. */
  method ToggleStep(found: bool, sequence: NoteSequence?, p: PatternId, i: InstrumentId, velocity: nat, key: int,
                    index: int, grid: NoteGrid) returns (command: Option<Command>)
    requires sequence != null ==> sequence.Valid() && AllValid(sequence.notes)
    requires InRange(grid.origin) && InRange(grid.spacing)
    ensures !found ==> command == None
    ensures found ==> command == Toggling(NotesIn(sequence), p, i, velocity, key, index, grid)
  {
    var step := StepOnset(index, grid);
    if !found || key < 0 || key > 127 || step == None {
      return None;
    }
    if sequence != null {
      var cell := InspectStep(sequence, key, index, grid);
      if cell.Active() {
        return Some(NoteEdit(p, i, cell.onGrid, [], false, map[]));
      }
    }
    var note := StepNote(key, step.value, grid, velocity);
    if !IsValidNote(note) {
      return None;
    }
    return Some(NoteEdit(p, i, [], [note], false, map[]));
  }

  function NotesIn(sequence: NoteSequence?): seq<Note>
    reads if sequence == null then {} else {sequence}
  {
    if sequence == null then [] else sequence.notes
  }

  function Toggling(notes: seq<Note>, p: PatternId, i: InstrumentId, velocity: nat, key: int, index: int,
                    grid: NoteGrid): Option<Command>
  {
    var step := StepAt(key, index, grid);
    if step == None then None
    else
      var on := OnGridNotes(notes, key, step.value);
      var note := StepNote(key, step.value, grid, velocity);
      if on != [] then Some(NoteEdit(p, i, on, [], false, map[]))
      else if IsValidNote(note) then Some(NoteEdit(p, i, [], [note], false, map[]))
      else None
  }

  /** The notes once the command, if there is one, is executed. */
  function Toggled(notes: seq<Note>, velocity: nat, key: int, index: int, grid: NoteGrid): NoteBag {
    match Toggling(notes, 0, 0, velocity, key, index, grid)
    case Some(NoteEdit(_, _, take, give, _, _)) =>
      (match Edited(multiset(notes), take, give)
       case Some(result) => result
       case None => multiset(notes))
    case _ => multiset(notes)
  }

  lemma {:induction false} FilterBag<T>(s: seq<T>, p: T -> bool, x: T)
    ensures multiset(Filter(s, p))[x] == if p(x) then multiset(s)[x] else 0
  {
    if s != [] {
      FilterBag(s[..|s| - 1], p, x);
      assert s == s[..|s| - 1] + [s[|s| - 1]];
    }
  }

  lemma FilterWithin<T>(s: seq<T>, p: T -> bool)
    ensures multiset(Filter(s, p)) <= multiset(s)
  {
    forall x
      ensures multiset(Filter(s, p))[x] <= multiset(s)[x]
    {
      FilterBag(s, p, x);
    }
  }

  lemma {:induction false} EmptyByBag<T>(s: seq<T>, p: T -> bool)
    ensures Filter(s, p) == [] <==> forall x | x in multiset(s) :: !p(x)
  {
    if forall x | x in multiset(s) :: !p(x) {
      NoneFiltered(s, p);
    }
    FilterMembers(s, p);
    if Filter(s, p) != [] {
      assert Filter(s, p)[0] in Filter(s, p);
    }
  }

  /** What toggling does to the notes: all at the onset go, or one comes; whatever is not at the onset stays. */
  lemma ToggleMeaning(notes: seq<Note>, velocity: nat, key: int, index: int, grid: NoteGrid)
    requires AllValid(notes)
    ensures var step, after := StepAt(key, index, grid), Toggled(notes, velocity, key, index, grid);
      if step == None then after == multiset(notes)
      else if OnGridNotes(notes, key, step.value) != [] then
        forall n :: after[n] == if n.key == key && n.start == step.value then 0 else multiset(notes)[n]
      else
        var note := Note(step.value, grid.spacing, key, velocity);
        after == if IsValidNote(note) then multiset(notes) + multiset{note} else multiset(notes)
  {
    var step := StepAt(key, index, grid);
    if step != None {
      var p := n => AtOnset(n, key, step.value);
      FilterWithin(notes, p);
      TakenOut(notes, p);
    }
  }

  /** Taking all that pass leaves the rest. */
  lemma TakenOut(notes: seq<Note>, p: Note -> bool)
    ensures Edited(multiset(notes), Filter(notes, p), []) == Some(multiset(notes) - multiset(Filter(notes, p)))
    ensures forall n :: (multiset(notes) - multiset(Filter(notes, p)))[n] == if p(n) then 0 else multiset(notes)[n]
  {
    FilterWithin(notes, p);
    forall n
      ensures (multiset(notes) - multiset(Filter(notes, p)))[n] == if p(n) then 0 else multiset(notes)[n]
    {
      FilterBag(notes, p, n);
    }
    assert multiset(notes) - multiset(Filter(notes, p)) + multiset{} == multiset(notes) - multiset(Filter(notes, p));
  }

  /** Notes of other keys, and notes that are not on the onset, are never added or removed. */
  lemma OthersStay(notes: seq<Note>, velocity: nat, key: int, index: int, grid: NoteGrid, n: Note)
    requires AllValid(notes)
    requires StepAt(key, index, grid) == None || !AtOnset(n, key, StepAt(key, index, grid).value)
    ensures Toggled(notes, velocity, key, index, grid)[n] == multiset(notes)[n]
  {
    ToggleMeaning(notes, velocity, key, index, grid);
  }

  /** Toggling twice gives back the same notes exactly when the step was empty or held just the note it would get. */
  lemma ToggleTwice(notes: seq<Note>, between: seq<Note>, velocity: nat, key: int, index: int, grid: NoteGrid)
    requires AllValid(notes) && multiset(between) == Toggled(notes, velocity, key, index, grid)
    ensures Toggled(between, velocity, key, index, grid) == multiset(notes) <==>
      var step := StepAt(key, index, grid);
      step == None || OnGridNotes(notes, key, step.value) == []
      || OnGridNotes(notes, key, step.value) == [StepNote(key, step.value, grid, velocity)]
  {
    ToggleMeaning(notes, velocity, key, index, grid);
    SameBagValid(notes, between, velocity, key, index, grid);
    ToggleMeaning(between, velocity, key, index, grid);
    var step := StepAt(key, index, grid);
    if step == None {
      return;
    }
    var note := StepNote(key, step.value, grid, velocity);
    var p := n => AtOnset(n, key, step.value);
    var on := OnGridNotes(notes, key, step.value);
    EmptyByBag(notes, p);
    EmptyByBag(between, p);
    if on == [] {
      if IsValidNote(note) {
        FromEmpty(notes, between, note, p, Toggled(between, velocity, key, index, grid));
      }
    } else {
      FromActive(notes, between, note, p, Toggled(between, velocity, key, index, grid));
    }
  }

  lemma SameBagValid(notes: seq<Note>, between: seq<Note>, velocity: nat, key: int, index: int, grid: NoteGrid)
    requires AllValid(notes) && multiset(between) == Toggled(notes, velocity, key, index, grid)
    ensures AllValid(between)
  {
    ToggleMeaning(notes, velocity, key, index, grid);
    forall i | 0 <= i < |between|
      ensures IsValidNote(between[i])
    {
      assert multiset(between)[between[i]] > 0;
      var step := StepAt(key, index, grid);
      if between[i] in multiset(notes) {
        assert between[i] in notes;
      }
    }
  }

  lemma FromEmpty(notes: seq<Note>, between: seq<Note>, note: Note, p: Note -> bool, after: NoteBag)
    requires p(note) && (forall n | n in multiset(notes) :: !p(n))
    requires multiset(between) == multiset(notes) + multiset{note}
    requires forall n :: after[n] == if p(n) then 0 else multiset(between)[n]
    ensures after == multiset(notes)
  {
    forall n ensures after[n] == multiset(notes)[n] {
      if p(n) {
        assert n !in multiset(notes);
      }
    }
  }

  lemma FromActive(notes: seq<Note>, between: seq<Note>, note: Note, p: Note -> bool, after: NoteBag)
    requires p(note) && Filter(notes, p) != [] && AllValid(notes)
    requires forall n :: multiset(between)[n] == if p(n) then 0 else multiset(notes)[n]
    requires after == if IsValidNote(note) then multiset(between) + multiset{note} else multiset(between)
    ensures after == multiset(notes) <==> Filter(notes, p) == [note]
  {
    var on := Filter(notes, p);
    forall n ensures multiset(on)[n] == if p(n) then multiset(notes)[n] else 0 {
      FilterBag(notes, p, n);
    }
    Members(notes, p);
    if after == multiset(notes) {
      OnlyOne(on, note, p, after);
    } else if on == [note] {
      BackAgain(notes, note, p, after, multiset(between));
    }
  }

  lemma Members(notes: seq<Note>, p: Note -> bool)
    requires AllValid(notes)
    ensures forall n | n in multiset(Filter(notes, p)) :: p(n) && IsValidNote(n)
  {
    FilterMembers(notes, p);
  }

  lemma OnlyOne(on: seq<Note>, note: Note, p: Note -> bool, after: NoteBag)
    requires on != [] && (forall n | n in multiset(on) :: p(n))
    requires forall n | p(n) :: multiset(on)[n] == after[n]
    requires forall n | p(n) :: after[n] <= multiset{note}[n]
    ensures on == [note]
  {
    assert on[0] in multiset(on);
    assert multiset(on) <= multiset{note};
    var rest := on[1..];
    assert on == [on[0]] + rest;
    assert multiset(on) == multiset{on[0]} + multiset(rest);
    assert multiset(rest) == multiset{};
    assert |multiset(rest)| == |rest|;
  }

  lemma BackAgain(notes: seq<Note>, note: Note, p: Note -> bool, after: NoteBag, between: NoteBag)
    requires p(note) && (forall n | p(n) :: multiset(notes)[n] == multiset{note}[n])
    requires (forall n :: between[n] == if p(n) then 0 else multiset(notes)[n]) && after == between + multiset{note}
    ensures after == multiset(notes)
  {
    forall n ensures after[n] == multiset(notes)[n] {
    }
  }

  /** The notes of a cell start at its onset, or after it and before the next one, on its key. */
  lemma CellMeans(notes: seq<Note>, key: int, onset: Ticks, grid: NoteGrid, n: Note)
    requires 0 <= onset <= MAX_TICKS && 0 < grid.spacing <= MAX_TICKS
    ensures n in OnGridNotes(notes, key, onset) <==> n in notes && n.key == key && n.start == onset
    ensures var next := if MAX_TICKS < onset + grid.spacing then MAX_TICKS else onset + grid.spacing;
      n in OffGridNotes(notes, key, onset, grid) <==> n in notes && n.key == key && onset < n.start < next
  {
    FilterMembers(notes, m => AtOnset(m, key, onset));
    FilterMembers(notes, m => InsideCell(m, key, onset, grid));
  }
}
