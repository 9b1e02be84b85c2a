/**
 Undo history. The command bus records commands that carry their own inverses; the reference it is
 measured against keeps a snapshot of the whole project before every entry. The main theorem: over any
 run, the two hold the same project contents after every step.
 */
module History {
  import opened Options
  import opened Entities
  import opened Deletion
  import opened Commands
  import opened Inverses
  import opened CommandLaws
  import opened Coalescing
  import opened Chains

  /** The bus together with the project it edits. The last element of a stack is its top. */
  datatype Bus = Bus(tables: Tables, undoStack: seq<Command>, redoStack: seq<Command>,
                     open: seq<seq<Command>>, coalescable: bool)

  datatype Op = Execute(command: Command) | Undo | Redo | Begin | Commit | Abort | Seal | Clear

  datatype Reply = Reply(ok: bool, bus: Bus)

  // ----- the bus -----------------------------------------------------------

  /** Whether a command executed now would be folded into the last entry. */
  function Absorbs(bus: Bus, c: Command): Option<Command> {
    if bus.open == [] && bus.coalescable && bus.undoStack != []
    then Coalesce(bus.undoStack[|bus.undoStack| - 1], c)
    else None
  }

  function Record(bus: Bus, c: Command): Bus {
    if bus.open != [] then
      var top := |bus.open| - 1;
      bus.(open := bus.open[top := bus.open[top] + [c]])
    else
      match Absorbs(bus, c)
      case Some(d) => bus.(redoStack := [], undoStack := bus.undoStack[..|bus.undoStack| - 1] + [d])
      case None => bus.(redoStack := [], undoStack := bus.undoStack + [c], coalescable := true)
  }

  ghost function ExecuteOn(bus: Bus, c: Command): Reply {
    var o := Apply(c, bus.tables);
    if !o.ok then Reply(false, bus.(tables := o.tables))
    else Reply(true, Record(bus.(tables := o.tables), o.command))
  }

  ghost function UndoOn(bus: Bus): Reply {
    if bus.undoStack == [] then Reply(false, bus)
    else
      var rest := bus.undoStack[..|bus.undoStack| - 1];
      var o := Revert(bus.undoStack[|bus.undoStack| - 1], bus.tables);
      if !o.ok then Reply(false, bus.(tables := o.tables, undoStack := rest + [o.command]))
      else Reply(true, bus.(tables := o.tables, undoStack := rest,
                            redoStack := bus.redoStack + [o.command], coalescable := false))
  }

  ghost function RedoOn(bus: Bus): Reply {
    if bus.redoStack == [] then Reply(false, bus)
    else
      var rest := bus.redoStack[..|bus.redoStack| - 1];
      var o := Apply(bus.redoStack[|bus.redoStack| - 1], bus.tables);
      if !o.ok then Reply(false, bus.(tables := o.tables, redoStack := rest + [o.command]))
      else Reply(true, bus.(tables := o.tables, redoStack := rest,
                            undoStack := bus.undoStack + [o.command], coalescable := false))
  }

  function CommitOn(bus: Bus): Bus {
    if bus.open == [] then bus
    else
      var top := |bus.open| - 1;
      var outer := bus.open[..top];
      if bus.open[top] == [] then bus.(open := outer)
      else if outer != [] then
        bus.(open := outer[top - 1 := outer[top - 1] + [Composite(bus.open[top])]])
      else
        bus.(open := [], redoStack := [], undoStack := bus.undoStack + [Composite(bus.open[top])],
             coalescable := false)
  }

  ghost function AbortOn(bus: Bus): Bus {
    if bus.open == [] then bus
    else
      var top := |bus.open| - 1;
      bus.(open := bus.open[..top], tables := RevertAll(bus.open[top], bus.tables).tables)
  }

  ghost function StepOn(bus: Bus, op: Op): Reply {
    match op
    case Execute(c) => ExecuteOn(bus, c)
    case Undo => UndoOn(bus)
    case Redo => RedoOn(bus)
    case Begin => Reply(true, bus.(open := bus.open + [[]]))
    case Commit => Reply(true, CommitOn(bus))
    case Abort => Reply(true, AbortOn(bus))
    case Seal => Reply(true, bus.(coalescable := false))
    case Clear => Reply(true, Bus(bus.tables, [], [], [], false))
  }

  // ----- the snapshot history ----------------------------------------------

  /**
   `past` and `future` are whole projects, nearest last; `begins` one per open transaction. Beside each project of the
   past and of the future stands whether the entry between it and the next leads forth as exactly as it leads back.
   */
  datatype Snapshots = Snapshots(past: seq<Tables>, pastExact: seq<bool>, future: seq<Tables>, futureExact: seq<bool>,
                                 begins: seq<Tables>, current: Tables)

  /**
   What a step means for a history of snapshots. `after` is the contents a successful execution leaves;
   `folds` says that it belongs to the entry before it, and `exact` that the entry is then redone exactly; `empty`
   that the closing transaction did nothing.
   */
  function SnapshotStep(s: Snapshots, op: Op, after: Option<Tables>, folds: bool, exact: bool, empty: bool): Snapshots {
    match op
    case Execute(_) =>
      if after.None? then s
      else if s.begins != [] then s.(current := after.value)
      else if folds then s.(pastExact := FrontOf(s.pastExact) + [exact], current := after.value, future := [], futureExact := [])
      else s.(past := s.past + [s.current], pastExact := s.pastExact + [true], current := after.value, future := [],
              futureExact := [])
    case Undo =>
      if s.past == [] || s.pastExact == [] then s
      else s.(past := s.past[..|s.past| - 1], pastExact := FrontOf(s.pastExact), current := s.past[|s.past| - 1],
              future := s.future + [s.current], futureExact := s.futureExact + [s.pastExact[|s.pastExact| - 1]])
    case Redo =>
      if s.future == [] || s.futureExact == [] then s
      else s.(future := s.future[..|s.future| - 1], futureExact := FrontOf(s.futureExact),
              current := s.future[|s.future| - 1],
              past := s.past + [s.current], pastExact := s.pastExact + [s.futureExact[|s.futureExact| - 1]])
    case Begin => s.(begins := s.begins + [s.current])
    case Commit =>
      if s.begins == [] then s
      else if empty || 1 < |s.begins| then s.(begins := s.begins[..|s.begins| - 1])
      else s.(past := s.past + s.begins, pastExact := s.pastExact + [true], begins := [], future := [], futureExact := [])
    case Abort =>
      if s.begins == [] then s
      else s.(current := s.begins[|s.begins| - 1], begins := s.begins[..|s.begins| - 1])
    case Seal => s
    case Clear => Snapshots([], [], [], [], [], s.current)
  }

  function FrontOf<T>(s: seq<T>): seq<T> {
    if s == [] then [] else s[..|s| - 1]
  }

  ghost function SnapshotOf(bus: Bus, s: Snapshots, op: Op): Snapshots {
    match op
    case Execute(c) =>
      var o := Apply(c, bus.tables);
      var folded := Absorbs(bus, o.command);
      SnapshotStep(s, op, if o.ok then Some(o.tables) else None, folded.Some?,
                   folded.Some? && s.past != [] && RedoExact(folded.value, s.past[|s.past| - 1], o.tables), false)
    case _ => SnapshotStep(s, op, None, false, false, bus.open != [] && bus.open[|bus.open| - 1] == [])
  }

  // ----- the runs the theorem covers ---------------------------------------

  /** When a folded entry is redone exactly, told from the lengths of the clips before and after it. */
  ghost predicate RedoExact(d: Command, b: Tables, a: Tables) {
    match d
    case NoteEdit(p, _, _, _, _, _) => LengthsFollow(p, b, a)
    case SetTransport(from, to, _) => LengthsRescale(from.tempo, to.tempo, b, a)
    case _ => true
  }

  /** A transport change that moves clips folds only into an entry that recorded their lengths. */
  ghost predicate FoldUndoes(bus: Bus, s: Snapshots, c: Command)
    requires bus.undoStack != []
  {
    var top := bus.undoStack[|bus.undoStack| - 1];
    Absorbs(bus, c).Some? && c.SetTransport? && top.SetTransport? && s.past != [] ==>
      || top.originalLengths == AudioLengths(s.past[|s.past| - 1].clips)
      || Rescaled(bus.tables.clips, c.from.tempo, c.to.tempo) == bus.tables.clips
  }

  /** Commands are built for the current contents; undo and redo happen outside transactions, and redo only of
      entries that are redone exactly. */
  ghost predicate Legal(bus: Bus, s: Snapshots, op: Op) {
    match op
    case Execute(c) =>
      && Admissible(c, bus.tables)
      && (Apply(c, bus.tables).ok && bus.undoStack != [] ==> FoldUndoes(bus, s, Apply(c, bus.tables).command))
    case Undo => bus.open == []
    case Redo => bus.open == [] && (s.futureExact != [] ==> s.futureExact[|s.futureExact| - 1])
    case _ => true
  }

  // ----- the simulation ----------------------------------------------------

  /** Where the outermost open transaction began, or the current contents. */
  function Base(s: Snapshots): Tables {
    if s.begins == [] then s.current else s.begins[0]
  }

  /** An entry of a stack, and whether it is redone exactly. */
  datatype Marked = Marked(command: Command, exact: bool)

  function Marks(commands: seq<Command>, exact: seq<bool>): (marked: seq<Marked>)
    requires |commands| == |exact|
    ensures |marked| == |commands| && forall i | 0 <= i < |marked| :: marked[i] == Marked(commands[i], exact[i])
  {
    seq(|commands|, i requires 0 <= i < |commands| => Marked(commands[i], exact[i]))
  }

  /** What the three stacks promise about the states around their entries, and what every state is. */
  datatype Laws = Laws(undoes: (Marked, Tables, Tables) -> bool,
                       redoes: (Marked, Tables, Tables) -> bool,
                       undoesAll: (seq<Command>, Tables, Tables) -> bool,
                       sound: Tables -> bool)

  ghost predicate Satisfies(bus: Bus, s: Snapshots, laws: Laws) {
    && bus.tables == s.current
    && |bus.undoStack| == |s.pastExact| && |bus.redoStack| == |s.futureExact|
    && Chain(Marks(bus.undoStack, s.pastExact), s.past, Base(s), laws.undoes)
    && Chain(Marks(bus.redoStack, s.futureExact), s.future, Base(s), laws.redoes)
    && Chain(bus.open, s.begins, s.current, laws.undoesAll)
    && laws.sound(s.current)
    && (forall i | 0 <= i < |s.past| :: laws.sound(s.past[i]))
    && (forall i | 0 <= i < |s.future| :: laws.sound(s.future[i]))
    && (forall i | 0 <= i < |s.begins| :: laws.sound(s.begins[i]))
  }

  /** An entry leads back from `a` to `b`; an exact one forth again, and any other not. */
  ghost predicate UndoesEntry(e: Marked, b: Tables, a: Tables) {
    && Undoes(e.command, b, a) && Keeps(e.command, b)
    && if e.exact then Labels(e.command, b, a)
       else (e.command.NoteEdit? || e.command.SetTransport?) && Apply(Revert(e.command, a).command, b).tables != a
  }

  /** An entry that was undone to `b` leads forth to `a` when it is exact, and otherwise not. */
  ghost predicate RedoesEntry(e: Marked, b: Tables, a: Tables) {
    if e.exact then Pending(e.command, b, a) else Apply(e.command, b).tables != a
  }

  // The laws are looked at one entry or one state at a time; these terms say which.
  ghost predicate Entry(e: Marked, b: Tables, a: Tables) { true }
  ghost predicate Transaction(cs: seq<Command>, b: Tables, a: Tables) { true }
  ghost predicate State(t: Tables) { true }

  /** Undo entries lead back, pending ones (read the other way round) lead forth, every state is sound. */
  ghost predicate CommandLawsHold(laws: Laws) {
    && (forall e, b, a {:trigger Entry(e, b, a)} :: Entry(e, b, a) ==> (laws.undoes(e, b, a) <==> UndoesEntry(e, b, a)))
    && (forall u, b, a {:trigger Entry(u, b, a)} :: Entry(u, b, a) ==> (laws.redoes(u, a, b) <==> RedoesEntry(u, b, a)))
    && (forall cs, b, a {:trigger Transaction(cs, b, a)} ::
          Transaction(cs, b, a) ==> (laws.undoesAll(cs, b, a) <==> LabelsAll(cs, b, a)))
    && (forall t {:trigger State(t)} :: State(t) ==> (laws.sound(t) <==> Sound(t)))
  }

  /** The stacks label the snapshots: every entry leads between the two snapshots around it. */
  ghost predicate Agrees(bus: Bus, s: Snapshots, laws: Laws) {
    CommandLawsHold(laws) && Satisfies(bus, s, laws)
  }
}
