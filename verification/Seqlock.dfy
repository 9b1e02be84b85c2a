/**
 The snapshot slot: one writer, a reader, and no lock. Every load and every store is a step of its own, and
 the steps of the two interleave in any order, seen in one order by both. The counter is unbounded here; in
 the source it has 32 bits. Readers change nothing, so what holds of one holds of each of many.
 */
module Seqlock {
  import opened Options

  type Word = int

  const ATTEMPTS: nat := 6

  type Snapshot = seq<Word>

  /** Where the writer stands. */
  datatype Writer =
    | Resting
    | Loaded(snapshot: Snapshot, start: nat)
    | Storing(snapshot: Snapshot, start: nat, index: nat)

  /** Where the reader stands. `since` is how many writes were complete when its read began. */
  datatype Reader =
    | Idle
    | Trying(since: nat, attempt: nat)
    | Copying(since: nat, attempt: nat, before: nat, copy: seq<Word>)
    | Done(since: nat, result: Option<Snapshot>)

  /** The shared memory, the two threads, and the writes completed so far. */
  datatype State = State(sequence: nat, words: seq<Word>, writer: Writer, reader: Reader, published: seq<Snapshot>)

  datatype Action = Write(snapshot: Snapshot) | Read

  predicate Fits(action: Action, count: nat) {
    action.Write? ==> |action.snapshot| == count
  }

  /** The writer's next step; a resting writer begins to write the snapshot it is given. */
  function WriterStep(s: State, snapshot: Snapshot): State {
    match s.writer
    case Resting => s.(writer := Loaded(snapshot, s.sequence))
    case Loaded(x, start) => s.(sequence := start + 1, writer := Storing(x, start, 0))
    case Storing(x, start, index) =>
      if index < |s.words| && index < |x| then
        s.(words := s.words[index := x[index]], writer := Storing(x, start, index + 1))
      else s.(sequence := start + 2, writer := Resting, published := s.published + [x])
  }

  /** The reader's next step; an idle or finished reader begins a new read. */
  function ReaderStep(s: State): State {
    match s.reader
    case Trying(since, attempt) =>
      if attempt >= ATTEMPTS then s.(reader := Done(since, None))
      else if s.sequence == 0 then s.(reader := Done(since, None))
      else if s.sequence % 2 != 0 then s.(reader := Trying(since, attempt + 1))
      else s.(reader := Copying(since, attempt, s.sequence, []))
    case Copying(since, attempt, before, copy) =>
      if |copy| < |s.words| then s.(reader := Copying(since, attempt, before, copy + [s.words[|copy|]]))
      else if s.sequence == before then s.(reader := Done(since, Some(copy)))
      else s.(reader := Trying(since, attempt + 1))
    case _ => s.(reader := Trying(|s.published|, 0))
  }

  function Step(s: State, action: Action): State {
    match action
    case Write(snapshot) => WriterStep(s, snapshot)
    case Read => ReaderStep(s)
  }

  function Run(s: State, actions: seq<Action>): State {
    if actions == [] then s else Step(Run(s, actions[..|actions| - 1]), actions[|actions| - 1])
  }

  function Initial(count: nat): State {
    State(0, seq(count, _ => 0), Resting, Idle, [])
  }

  // ----- the invariant --------------------------------------------------------------------

  /** The counter counts the writes: even between them, odd while one is under way. */
  predicate Counts(s: State) {
    match s.writer
    case Resting => s.sequence == 2 * |s.published|
    case Loaded(_, start) => s.sequence == start == 2 * |s.published|
    case Storing(_, start, _) => start == 2 * |s.published| && s.sequence == start + 1
  }

  /** The words hold the last snapshot, or as much of the next as has been stored. */
  predicate Holds(s: State) {
    && (forall i | 0 <= i < |s.published| :: |s.published[i]| == |s.words|)
    && match s.writer
       case Storing(x, _, index) => |x| == |s.words| && index <= |x| && s.words[..index] == x[..index]
       case Loaded(x, _) => |x| == |s.words| && LastIsStored(s)
       case Resting => LastIsStored(s)
  }

  predicate LastIsStored(s: State) {
    s.published == [] || s.words == s.published[|s.published| - 1]
  }

  /** A copy whose counter has not moved is a piece of one snapshot; a result is a whole one. */
  predicate Reads(s: State)
    requires Counts(s) && Holds(s)
  {
    match s.reader
    case Idle => true
    case Trying(since, _) => since <= |s.published|
    case Copying(since, _, before, copy) =>
      && since <= |s.published| && 0 < before <= s.sequence && before % 2 == 0 && since <= before / 2
      && |copy| <= |s.words|
      && (s.sequence == before ==> copy == s.published[before / 2 - 1][..|copy|])
    case Done(since, result) =>
      result.Some? ==> Current(s.published, since, result.value)
  }

  /** A snapshot that was complete when the read began, and then the last, or that was completed later. */
  predicate Current(published: seq<Snapshot>, since: nat, snapshot: Snapshot) {
    exists i :: 0 <= i < |published| && since <= i + 1 && published[i] == snapshot
  }

  predicate Inv(s: State) {
    Counts(s) && Holds(s) && Reads(s)
  }

  lemma {:induction false} WriterKeeps(s: State, snapshot: Snapshot)
    requires Inv(s) && |snapshot| == |s.words|
    ensures Inv(WriterStep(s, snapshot))
  {
    var t := WriterStep(s, snapshot);
    if s.reader.Done? && s.reader.result.Some? {
      var i :| 0 <= i < |s.published| && s.reader.since <= i + 1 && s.published[i] == s.reader.result.value;
      assert t.published[i] == s.published[i];
    }
  }

  lemma {:induction false} ReaderKeeps(s: State)
    requires Inv(s)
    ensures Inv(ReaderStep(s))
  {
    if s.reader.Copying? && |s.reader.copy| == |s.words| && s.sequence == s.reader.before {
      var i := s.reader.before / 2 - 1;
      assert s.published[i] == s.reader.copy;
    }
  }

  lemma {:induction false} RunKeeps(count: nat, actions: seq<Action>)
    requires forall i | 0 <= i < |actions| :: Fits(actions[i], count)
    ensures Inv(Run(Initial(count), actions)) && |Run(Initial(count), actions).words| == count
  {
    if actions != [] {
      var before := Run(Initial(count), actions[..|actions| - 1]);
      RunKeeps(count, actions[..|actions| - 1]);
      match actions[|actions| - 1] {
        case Write(snapshot) => WriterKeeps(before, snapshot);
        case Read => ReaderKeeps(before);
      }
    }
  }

  /** However writer and reader interleave, what a read returns is one snapshot, whole: one completed while it
      was reading, or the last completed before. Nothing is returned before the first is complete. */
  lemma {:induction false} NeverTorn(count: nat, actions: seq<Action>)
    requires forall i | 0 <= i < |actions| :: Fits(actions[i], count)
    ensures var s := Run(Initial(count), actions);
      s.reader.Done? && s.reader.result.Some? ==>
        |s.reader.result.value| == count && Current(s.published, s.reader.since, s.reader.result.value)
    ensures var s := Run(Initial(count), actions);
      s.reader.Done? && s.published == [] ==> s.reader.result.None?
  {
    RunKeeps(count, actions);
  }

  // ----- a read that nobody disturbs -----------------------------------------------------------

  function ReadOn(s: State, steps: nat): State
    decreases steps
  {
    if steps == 0 then s else ReadOn(ReaderStep(s), steps - 1)
  }

  lemma {:induction false} CopiesOn(s: State, since: nat, attempt: nat, copy: seq<Word>)
    requires s.reader == Copying(since, attempt, s.sequence, copy)
    requires |copy| <= |s.words| && copy == s.words[..|copy|]
    ensures ReadOn(s, |s.words| - |copy| + 1) == s.(reader := Done(since, Some(s.words)))
    decreases |s.words| - |copy|
  {
    if |copy| < |s.words| {
      CopiesOn(ReaderStep(s), since, attempt, copy + [s.words[|copy|]]);
    } else {
      assert copy == s.words;
      assert ReadOn(ReaderStep(s), 0) == ReaderStep(s);
    }
  }

  /** While the writer rests, a read returns the last snapshot at the first try. */
  lemma {:induction false} QuietReadSucceeds(s: State, since: nat, attempt: nat)
    requires Inv(s) && s.writer.Resting? && s.published != []
    requires s.reader == Trying(since, attempt) && attempt < ATTEMPTS
    ensures ReadOn(s, |s.words| + 2).reader == Done(since, Some(s.published[|s.published| - 1]))
  {
    CopiesOn(ReaderStep(s), since, attempt, []);
  }
}
