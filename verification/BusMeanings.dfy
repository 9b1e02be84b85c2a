/**
 When the bus folds a command into the entry before it, and what keeps it from doing so.
 */
module BusMeanings {
  import opened Commands
  import opened History

  /** Outside transactions a command that applied either joins the last entry, which must have come just before it and
      fold with it, or becomes an entry of its own; there is nothing to redo then. Inside one it joins the innermost,
      and both stacks stay. A command that failed leaves no trace. */
  lemma {:induction false} RecordedHow(bus: Bus, c: Command)
    ensures var o, r := Apply(c, bus.tables), StepOn(bus, Execute(c));
      && r.ok == o.ok && r.bus.tables == o.tables
      && (!o.ok ==> r.bus == bus.(tables := o.tables))
      && (o.ok && bus.open == [] ==>
            && r.bus.redoStack == [] && r.bus.open == [] && r.bus.coalescable
            && var n := |bus.undoStack|;
               if bus.coalescable && 0 < n && Coalesce(bus.undoStack[n - 1], o.command).Some?
               then r.bus.undoStack == bus.undoStack[..n - 1] + [Coalesce(bus.undoStack[n - 1], o.command).value]
               else r.bus.undoStack == bus.undoStack + [o.command])
      && (o.ok && bus.open != [] ==>
            var n := |bus.open| - 1;
            r.bus == bus.(tables := o.tables, open := bus.open[..n] + [bus.open[n] + [o.command]]))
  {
  }

  /** What ends a gesture: undo, redo, a transaction that did something, sealing and clearing. */
  predicate EndsGesture(bus: Bus, op: Op) {
    match op
    case Undo => true
    case Redo => true
    case Commit => |bus.open| == 1 && bus.open[0] != []
    case Seal => true
    case Clear => true
    case _ => false
  }

  /** The next command is then an entry of its own, however alike it is. */
  lemma {:induction false} NewEntryAfter(bus: Bus, op: Op, c: Command)
    requires EndsGesture(bus, op) && StepOn(bus, op).ok
    ensures var b := StepOn(bus, op).bus;
      var o, r := Apply(c, b.tables), StepOn(b, Execute(c));
      o.ok && b.open == [] ==> r.bus.undoStack == b.undoStack + [o.command]
  {
    RecordedHow(StepOn(bus, op).bus, c);
  }

  /** Two changes of the tempo in a row are one entry; sealed in between, they are two. */
  lemma {:induction false} SealedIsTwo(bus: Bus, c: Command, next: Command)
    requires bus.open == [] && !bus.coalescable && c.SetTransport? && next.SetTransport?
    ensures var b := StepOn(bus, Execute(c)).bus;
      && |b.undoStack| == |bus.undoStack| + 1
      && |StepOn(b, Execute(next)).bus.undoStack| == |bus.undoStack| + 1
      && |StepOn(StepOn(b, Seal).bus, Execute(next)).bus.undoStack| == |bus.undoStack| + 2
  {
    var b := StepOn(bus, Execute(c)).bus;
    RecordedHow(bus, c);
    RecordedHow(b, next);
    RecordedHow(StepOn(b, Seal).bus, next);
  }
}
