/**
 Musical time and the one note representation. A tick count is an `int` here; the source's
 `int64_t` bound appears where the source checks it, in `IsValidNote`.
 */
module Notes {

  type Ticks = int

  const TICKS_PER_QUARTER: Ticks := 960
  const TICKS_PER_BAR: Ticks := TICKS_PER_QUARTER * 4
  const MAX_TICKS: Ticks := 0x7FFF_FFFF_FFFF_FFFF
  const MIN_TICKS: Ticks := -0x8000_0000_0000_0000
  const MAX_VELOCITY: nat := 16383

  datatype Note = Note(start: Ticks, length: Ticks, key: int, velocity: nat)

  predicate IsValidNote(n: Note) {
    && 0 <= n.start
    && 0 < n.length
    && 0 <= n.key <= 127
    && n.velocity <= MAX_VELOCITY
    && n.length <= MAX_TICKS - n.start
  }

  function NoteEnd(n: Note): Ticks {
    n.start + n.length
  }

  /** The canonical order: start, then key, then length. Velocity does not take part. */
  predicate NoteOrderBefore(a: Note, b: Note) {
    if a.start != b.start then a.start < b.start
    else if a.key != b.key then a.key < b.key
    else a.length < b.length
  }

  /** The notes of one sequence, up to the order of notes that tie in the canonical order. */
  type NoteBag = multiset<Note>

  predicate AllValid(notes: seq<Note>) {
    forall i | 0 <= i < |notes| :: IsValidNote(notes[i])
  }

  ghost predicate BagValid(notes: NoteBag) {
    forall n | n in notes :: IsValidNote(n)
  }

  /** `end` is where the last note of `notes` ends, and 0 for no notes. */
  ghost predicate IsContentEnd(notes: NoteBag, end: Ticks) {
    && 0 <= end
    && (forall n | n in notes :: NoteEnd(n) <= end)
    && (end == 0 || exists n | n in notes :: NoteEnd(n) == end)
  }

  ghost function BagEnd(notes: NoteBag): (end: Ticks)
    ensures IsContentEnd(notes, end)
  {
    if notes == multiset{} then 0
    else
      var n :| n in notes;
      var rest := BagEnd(notes - multiset{n});
      assert forall m | m in notes :: m == n || m in notes - multiset{n};
      assert forall m | m in notes - multiset{n} :: m in notes;
      if rest < NoteEnd(n) then NoteEnd(n) else rest
  }
}
