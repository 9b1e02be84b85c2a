/**
 The command bus agrees with the snapshot history, step by step and over whole runs; what the user
 relies on follows from what snapshots obviously do.
 */
module HistoryLaws {
  import opened Options
  import opened Entities
  import opened Deletion
  import opened Commands
  import opened Inverses
  import opened NoteLaws
  import opened CommandLaws
  import opened Coalescing
  import opened Chains
  import opened History

  // ----- what each step does to the stacks ---------------------------------

  lemma MarksPush(commands: seq<Command>, exact: seq<bool>, c: Command, x: bool)
    requires |commands| == |exact|
    ensures Marks(commands + [c], exact + [x]) == Marks(commands, exact) + [Marked(c, x)]
  {
  }

  lemma MarksPop(commands: seq<Command>, exact: seq<bool>)
    requires |commands| == |exact| && commands != []
    ensures var n := |commands| - 1;
      && FrontOf(exact) == exact[..n]
      && Marks(commands[..n], exact[..n]) == Marks(commands, exact)[..n]
      && Marks(commands, exact)[n] == Marked(commands[n], exact[n])
  {
  }

  lemma MarksFold(commands: seq<Command>, exact: seq<bool>, d: Command, x: bool)
    requires |commands| == |exact| && commands != []
    ensures var n := |commands| - 1;
      && |commands[..n] + [d]| == |FrontOf(exact) + [x]|
      && Marks(commands[..n] + [d], FrontOf(exact) + [x]) == Marks(commands, exact)[n := Marked(d, x)]
  {
  }

  lemma {:induction false} UndoStacks(bus: Bus, s: Snapshots, laws: Laws, u: Command)
    requires Satisfies(bus, s, laws) && s.begins == [] && s.past != []
    requires laws.redoes(Marked(u, s.pastExact[|s.past| - 1]), s.current, s.past[|s.past| - 1])
    ensures Satisfies(bus.(tables := s.past[|s.past| - 1], undoStack := bus.undoStack[..|s.past| - 1],
                           redoStack := bus.redoStack + [u], coalescable := false),
                      SnapshotStep(s, Undo, None, false, false, false), laws)
  {
    var marked := s.pastExact[|s.past| - 1];
    Pop(Marks(bus.undoStack, s.pastExact), s.past, s.current, laws.undoes);
    MarksPop(bus.undoStack, s.pastExact);
    Push(Marks(bus.redoStack, s.futureExact), s.future, s.current, laws.redoes, Marked(u, marked), s.past[|s.past| - 1]);
    MarksPush(bus.redoStack, s.futureExact, u, marked);
  }

  lemma {:induction false} RedoStacks(bus: Bus, s: Snapshots, laws: Laws, c: Command)
    requires Satisfies(bus, s, laws) && s.begins == [] && s.future != []
    requires laws.undoes(Marked(c, s.futureExact[|s.future| - 1]), s.current, s.future[|s.future| - 1])
    ensures Satisfies(bus.(tables := s.future[|s.future| - 1], redoStack := bus.redoStack[..|s.future| - 1],
                           undoStack := bus.undoStack + [c], coalescable := false),
                      SnapshotStep(s, Redo, None, false, false, false), laws)
  {
    var marked := s.futureExact[|s.future| - 1];
    Pop(Marks(bus.redoStack, s.futureExact), s.future, s.current, laws.redoes);
    MarksPop(bus.redoStack, s.futureExact);
    Push(Marks(bus.undoStack, s.pastExact), s.past, s.current, laws.undoes, Marked(c, marked), s.future[|s.future| - 1]);
    MarksPush(bus.undoStack, s.pastExact, c, marked);
  }

  /** A new entry on top of the undo stack, leading to `a`. */
  lemma {:induction false} EntryStacks(bus: Bus, s: Snapshots, laws: Laws, c: Command, a: Tables, coalescable: bool)
    requires Satisfies(bus, s, laws) && s.begins == [] && laws.undoes(Marked(c, true), s.current, a) && laws.sound(a)
    ensures Satisfies(bus.(tables := a, redoStack := [], undoStack := bus.undoStack + [c], coalescable := coalescable),
                      s.(past := s.past + [s.current], pastExact := s.pastExact + [true], current := a, future := [],
                         futureExact := []), laws)
  {
    Push(Marks(bus.undoStack, s.pastExact), s.past, s.current, laws.undoes, Marked(c, true), a);
    MarksPush(bus.undoStack, s.pastExact, c, true);
  }

  /** The last entry replaced by one that leads to `a`. */
  lemma {:induction false} FoldStacks(bus: Bus, s: Snapshots, laws: Laws, d: Command, exact: bool, a: Tables)
    requires Satisfies(bus, s, laws) && s.begins == [] && s.past != []
    requires laws.undoes(Marked(d, exact), s.past[|s.past| - 1], a) && laws.sound(a)
    ensures Satisfies(bus.(tables := a, redoStack := [], undoStack := bus.undoStack[..|s.past| - 1] + [d]),
                      s.(pastExact := FrontOf(s.pastExact) + [exact], current := a, future := [], futureExact := []), laws)
  {
    ReplaceTop(Marks(bus.undoStack, s.pastExact), s.past, s.current, laws.undoes, Marked(d, exact), a);
    MarksFold(bus.undoStack, s.pastExact, d, exact);
  }

  /** The innermost transaction extended to lead to `a`. */
  lemma {:induction false} OpenStacks(bus: Bus, s: Snapshots, laws: Laws, inner: seq<Command>, a: Tables)
    requires Satisfies(bus, s, laws) && s.begins != []
    requires laws.undoesAll(inner, s.begins[|s.begins| - 1], a) && laws.sound(a)
    ensures Satisfies(bus.(tables := a, open := bus.open[|s.begins| - 1 := inner]), s.(current := a), laws)
  {
    ReplaceTop(bus.open, s.begins, s.current, laws.undoesAll, inner, a);
  }

  lemma {:induction false} BeginStacks(bus: Bus, s: Snapshots, laws: Laws)
    requires Satisfies(bus, s, laws) && laws.undoesAll([], s.current, s.current)
    ensures Satisfies(bus.(open := bus.open + [[]]), s.(begins := s.begins + [s.current]), laws)
  {
    Push(bus.open, s.begins, s.current, laws.undoesAll, [], s.current);
  }

  /** The innermost transaction dropped, its begin state being current. */
  lemma {:induction false} DropStacks(bus: Bus, s: Snapshots, laws: Laws)
    requires Satisfies(bus, s, laws) && s.begins != []
    ensures Satisfies(bus.(open := bus.open[..|s.begins| - 1], tables := s.begins[|s.begins| - 1]),
                      s.(begins := s.begins[..|s.begins| - 1], current := s.begins[|s.begins| - 1]), laws)
  {
    Pop(bus.open, s.begins, s.current, laws.undoesAll);
  }

  /** The innermost transaction closed into the one around it, which now leads to the current state. */
  lemma {:induction false} MergeStacks(bus: Bus, s: Snapshots, laws: Laws, inner: seq<Command>)
    requires Satisfies(bus, s, laws) && 1 < |s.begins|
    requires laws.undoesAll(inner, s.begins[|s.begins| - 2], s.current)
    ensures Satisfies(bus.(open := bus.open[..|s.begins| - 1][|s.begins| - 2 := inner]),
                      s.(begins := s.begins[..|s.begins| - 1]), laws)
  {
    MergeTop(bus.open, s.begins, s.current, laws.undoesAll, inner);
  }

  /** The outermost transaction closed into one entry. */
  lemma {:induction false} CommitStacks(bus: Bus, s: Snapshots, laws: Laws, c: Command)
    requires Satisfies(bus, s, laws) && |s.begins| == 1 && laws.undoes(Marked(c, true), s.begins[0], s.current)
    ensures Satisfies(bus.(open := [], redoStack := [], undoStack := bus.undoStack + [c], coalescable := false),
                      s.(past := s.past + s.begins, pastExact := s.pastExact + [true], begins := [], future := [],
                         futureExact := []), laws)
  {
    Push(Marks(bus.undoStack, s.pastExact), s.past, s.begins[0], laws.undoes, Marked(c, true), s.current);
    MarksPush(bus.undoStack, s.pastExact, c, true);
    assert s.past + [s.begins[0]] == s.past + s.begins;
  }

  lemma {:induction false} ClearStacks(bus: Bus, s: Snapshots, laws: Laws)
    requires Satisfies(bus, s, laws)
    ensures Satisfies(Bus(bus.tables, [], [], [], false), Snapshots([], [], [], [], [], s.current), laws)
  {
  }

  lemma {:induction false} TopEntry(bus: Bus, s: Snapshots, laws: Laws)
    requires Satisfies(bus, s, laws) && s.begins == []
    ensures s.past != [] ==> var n := |s.past| - 1;
      laws.undoes(Marked(bus.undoStack[n], s.pastExact[n]), s.past[n], s.current) && laws.sound(s.past[n])
    ensures s.future != [] ==> var n := |s.future| - 1;
      laws.redoes(Marked(bus.redoStack[n], s.futureExact[n]), s.future[n], s.current)
  {
    if s.past != [] {
      Pop(Marks(bus.undoStack, s.pastExact), s.past, s.current, laws.undoes);
    }
    if s.future != [] {
      Pop(Marks(bus.redoStack, s.futureExact), s.future, s.current, laws.redoes);
    }
  }

  lemma {:induction false} TopOpen(bus: Bus, s: Snapshots, laws: Laws)
    requires Satisfies(bus, s, laws) && s.begins != []
    ensures laws.undoesAll(bus.open[|s.begins| - 1], s.begins[|s.begins| - 1], s.current)
    ensures 1 < |s.begins| ==>
      laws.undoesAll(bus.open[|s.begins| - 2], s.begins[|s.begins| - 2], s.begins[|s.begins| - 1])
  {
    Pop(bus.open, s.begins, s.current, laws.undoesAll);
    if 1 < |s.begins| {
      Pop(bus.open[..|s.begins| - 1], s.begins[..|s.begins| - 1], s.begins[|s.begins| - 1], laws.undoesAll);
    }
  }

  // ----- one step ----------------------------------------------------------

  lemma {:induction false} UndoLeads(bus: Bus, s: Snapshots, laws: Laws)
    requires Agrees(bus, s, laws) && s.begins == [] && s.past != []
    ensures var n := |s.past| - 1; var u := Revert(bus.undoStack[n], s.current);
      u.ok && u.tables == s.past[n] && laws.redoes(Marked(u.command, s.pastExact[n]), s.current, s.past[n])
  {
    var n := |s.past| - 1;
    TopEntry(bus, s, laws);
    assert Entry(Marked(bus.undoStack[n], s.pastExact[n]), s.past[n], s.current);
    assert Entry(Marked(Revert(bus.undoStack[n], s.current).command, s.pastExact[n]), s.past[n], s.current);
  }

  lemma {:induction false} UndoAgrees(bus: Bus, s: Snapshots, laws: Laws)
    requires Agrees(bus, s, laws) && bus.open == []
    ensures UndoOn(bus).ok <==> bus.undoStack != []
    ensures Agrees(UndoOn(bus).bus, SnapshotOf(bus, s, Undo), laws)
  {
    if s.past != [] {
      UndoLeads(bus, s, laws);
      UndoStacks(bus, s, laws, Revert(bus.undoStack[|s.past| - 1], bus.tables).command);
    }
  }

  /** What an applied command will restore is what its contents ask for. */
  lemma {:induction false} AppliedKeeps(c: Command, t: Tables)
    ensures Keeps(Apply(c, t).command, t) || !Apply(c, t).ok
  {
  }

  lemma {:induction false} RedoLeads(bus: Bus, s: Snapshots, laws: Laws)
    requires Agrees(bus, s, laws) && s.begins == [] && s.future != [] && s.futureExact[|s.future| - 1]
    ensures var n := |s.future| - 1; var r := Apply(bus.redoStack[n], s.current);
      r.ok && r.tables == s.future[n] && laws.undoes(Marked(r.command, true), s.current, s.future[n])
  {
    var n := |s.future| - 1;
    TopEntry(bus, s, laws);
    assert Entry(Marked(bus.redoStack[n], true), s.current, s.future[n]);
    var c := Apply(bus.redoStack[n], s.current).command;
    AppliedKeeps(bus.redoStack[n], s.current);
    SettledLabels(c, s.current, s.future[n]);
    assert Entry(Marked(c, true), s.current, s.future[n]);
  }

  lemma {:induction false} RedoAgrees(bus: Bus, s: Snapshots, laws: Laws)
    requires Agrees(bus, s, laws) && Legal(bus, s, Redo)
    ensures RedoOn(bus).ok <==> bus.redoStack != []
    ensures Agrees(RedoOn(bus).bus, SnapshotOf(bus, s, Redo), laws)
  {
    if s.future != [] {
      RedoLeads(bus, s, laws);
      RedoStacks(bus, s, laws, Apply(bus.redoStack[|s.future| - 1], bus.tables).command);
    }
  }

  /** The mark tells: redo leads to where the entry was undone from exactly when the entry is marked exact. */
  lemma {:induction false} RedoReturnsIff(bus: Bus, s: Snapshots, laws: Laws)
    requires Agrees(bus, s, laws) && bus.open == [] && s.future != []
    ensures RedoOn(bus).bus.tables == s.future[|s.future| - 1] <==> s.futureExact[|s.future| - 1]
  {
    var n := |s.future| - 1;
    TopEntry(bus, s, laws);
    assert Entry(Marked(bus.redoStack[n], s.futureExact[n]), s.current, s.future[n]);
  }

  lemma {:induction false} AbortLeads(bus: Bus, s: Snapshots, laws: Laws)
    requires Agrees(bus, s, laws) && s.begins != []
    ensures AbortOn(bus) == bus.(open := bus.open[..|s.begins| - 1], tables := s.begins[|s.begins| - 1])
  {
    var top := |s.begins| - 1;
    TopOpen(bus, s, laws);
    assert Transaction(bus.open[top], s.begins[top], s.current);
    RevertAllBack(bus.open[top], s.begins[top], s.current);
  }

  lemma {:induction false} AbortAgrees(bus: Bus, s: Snapshots, laws: Laws)
    requires Agrees(bus, s, laws)
    ensures Agrees(AbortOn(bus), SnapshotOf(bus, s, Abort), laws)
  {
    if s.begins != [] {
      AbortLeads(bus, s, laws);
      DropStacks(bus, s, laws);
    }
  }

  lemma {:induction false} EmptyLeads(bus: Bus, s: Snapshots, laws: Laws)
    requires Agrees(bus, s, laws) && s.begins != [] && bus.open[|s.begins| - 1] == []
    ensures s.begins[|s.begins| - 1] == s.current
  {
    TopOpen(bus, s, laws);
    assert Transaction([], s.begins[|s.begins| - 1], s.current);
  }

  lemma {:induction false} OutermostLeads(bus: Bus, s: Snapshots, laws: Laws)
    requires Agrees(bus, s, laws) && |s.begins| == 1
    ensures laws.undoes(Marked(Composite(bus.open[0]), true), s.begins[0], s.current)
  {
    TopOpen(bus, s, laws);
    assert Transaction(bus.open[0], s.begins[0], s.current);
    CompositeLabels(bus.open[0], s.begins[0], s.current);
    assert Entry(Marked(Composite(bus.open[0]), true), s.begins[0], s.current);
  }

  lemma {:induction false} NestedLeads(bus: Bus, s: Snapshots, laws: Laws)
    requires Agrees(bus, s, laws) && 1 < |s.begins|
    ensures var top := |s.begins| - 1;
      laws.undoesAll(bus.open[top - 1] + [Composite(bus.open[top])], s.begins[top - 1], s.current)
  {
    var top := |s.begins| - 1;
    TopOpen(bus, s, laws);
    assert Transaction(bus.open[top], s.begins[top], s.current);
    assert Transaction(bus.open[top - 1], s.begins[top - 1], s.begins[top]);
    CompositeLabels(bus.open[top], s.begins[top], s.current);
    LabelsAllAppend(bus.open[top - 1], Composite(bus.open[top]), s.begins[top - 1], s.begins[top], s.current);
    assert Transaction(bus.open[top - 1] + [Composite(bus.open[top])], s.begins[top - 1], s.current);
  }

  lemma {:induction false} CommitAgrees(bus: Bus, s: Snapshots, laws: Laws)
    requires Agrees(bus, s, laws)
    ensures Agrees(CommitOn(bus), SnapshotOf(bus, s, Commit), laws)
  {
    if s.begins != [] {
      var top := |s.begins| - 1;
      if bus.open[top] == [] {
        EmptyLeads(bus, s, laws);
        DropStacks(bus, s, laws);
      } else if top > 0 {
        NestedLeads(bus, s, laws);
        MergeStacks(bus, s, laws, bus.open[top - 1] + [Composite(bus.open[top])]);
      } else {
        OutermostLeads(bus, s, laws);
        CommitStacks(bus, s, laws, Composite(bus.open[0]));
      }
    }
  }

  /** An executed command leaves a sound state and leads back from it. */
  lemma {:induction false} ExecuteLeads(bus: Bus, s: Snapshots, laws: Laws, c: Command)
    requires Agrees(bus, s, laws) && Admissible(c, s.current)
    ensures var o := Apply(c, s.current);
      if o.ok then laws.undoes(Marked(o.command, true), s.current, o.tables) && laws.sound(o.tables)
      else o.tables == s.current
    ensures Apply(c, s.current).ok ==> Labels(Apply(c, s.current).command, s.current, Apply(c, s.current).tables)
  {
    assert State(s.current);
    ExecuteLaw(c, s.current);
    var o := Apply(c, s.current);
    if o.ok {
      AppliedKeeps(c, s.current);
      SettledLabels(o.command, s.current, o.tables);
      assert Entry(Marked(o.command, true), s.current, o.tables) && State(o.tables);
    }
  }

  lemma {:induction false} RecordedLeads(bus: Bus, s: Snapshots, laws: Laws, c: Command, a: Tables)
    requires Agrees(bus, s, laws) && s.begins != [] && laws.undoes(Marked(c, true), s.current, a)
    ensures laws.undoesAll(bus.open[|s.begins| - 1] + [c], s.begins[|s.begins| - 1], a)
  {
    var top := |s.begins| - 1;
    TopOpen(bus, s, laws);
    assert Entry(Marked(c, true), s.current, a) && Transaction(bus.open[top], s.begins[top], s.current);
    LabelsAllAppend(bus.open[top], c, s.begins[top], s.current, a);
    assert Transaction(bus.open[top] + [c], s.begins[top], a);
  }

  /** The entry that a command folds into, looked at. */
  lemma {:induction false} FoldedInto(bus: Bus, s: Snapshots, laws: Laws)
    requires Agrees(bus, s, laws) && bus.open == [] && bus.undoStack != []
    ensures var n := |s.past| - 1;
      0 <= n && UndoesEntry(Marked(bus.undoStack[n], s.pastExact[n]), s.past[n], s.current) && Sound(s.past[n])
  {
    var n := |s.past| - 1;
    TopEntry(bus, s, laws);
    assert Entry(Marked(bus.undoStack[n], s.pastExact[n]), s.past[n], s.current) && State(s.past[n]);
  }

  /** A folded entry leads back, and forth exactly when the lengths say so. */
  lemma {:induction false} FoldedLeads(bus: Bus, s: Snapshots, laws: Laws, next: Command, a: Tables)
    requires Agrees(bus, s, laws) && bus.open == [] && bus.undoStack != [] && Absorbs(bus, next).Some?
    requires Labels(next, s.current, a) && laws.sound(a) && !next.SetTransport?
    ensures var d := Absorbs(bus, next).value;
      s.past != [] && laws.undoes(Marked(d, RedoExact(d, s.past[|s.past| - 1], a)), s.past[|s.past| - 1], a)
  {
    var n := |s.past| - 1;
    FoldedInto(bus, s, laws);
    assert State(a);
    FoldLabels(Marked(bus.undoStack[n], s.pastExact[n]), next, s.past[n], s.current, a);
    var d := Absorbs(bus, next).value;
    assert Entry(Marked(d, RedoExact(d, s.past[n], a)), s.past[n], a);
  }

  lemma {:induction false} FoldedChangeLeads(bus: Bus, s: Snapshots, laws: Laws, change: Command, next: Command, a: Tables)
    requires Agrees(bus, s, laws) && bus.open == [] && bus.undoStack != [] && Absorbs(bus, next).Some?
    requires next.SetTransport? && change.SetTransport? && change.from == s.current.transport
    requires next.from == change.from && next.to == change.to
    requires Apply(change, s.current) == Outcome(true, next, a) && FoldUndoes(bus, s, next)
    ensures var d := Absorbs(bus, next).value;
      s.past != [] && laws.undoes(Marked(d, RedoExact(d, s.past[|s.past| - 1], a)), s.past[|s.past| - 1], a)
  {
    var n := |s.past| - 1;
    FoldedInto(bus, s, laws);
    TransportFolds(bus.undoStack[n], change, next, s.past[n], s.current, a);
    var d := Absorbs(bus, next).value;
    assert Entry(Marked(d, RedoExact(d, s.past[n], a)), s.past[n], a);
  }

  lemma {:induction false} EitherLeads(bus: Bus, s: Snapshots, laws: Laws, c: Command)
    requires Agrees(bus, s, laws) && bus.open == [] && Legal(bus, s, Execute(c)) && bus.undoStack != []
    requires var o := Apply(c, bus.tables);
      o.ok && Absorbs(bus, o.command).Some? && Labels(o.command, s.current, o.tables) && laws.sound(o.tables)
    ensures var o := Apply(c, bus.tables);
      var d := Absorbs(bus, o.command).value;
      s.past != [] && laws.undoes(Marked(d, RedoExact(d, s.past[|s.past| - 1], o.tables)), s.past[|s.past| - 1], o.tables)
  {
    var o := Apply(c, bus.tables);
    ApplyKeeps(c, bus.tables);
    if o.command.SetTransport? {
      FoldedChangeLeads(bus, s, laws, c, o.command, o.tables);
    } else {
      FoldedLeads(bus, s, laws, o.command, o.tables);
    }
  }

  lemma {:induction false} ExecuteAgrees(bus: Bus, s: Snapshots, laws: Laws, c: Command)
    requires Agrees(bus, s, laws) && Legal(bus, s, Execute(c))
    ensures Agrees(ExecuteOn(bus, c).bus, SnapshotOf(bus, s, Execute(c)), laws)
  {
    ExecuteLeads(bus, s, laws, c);
    var o := Apply(c, bus.tables);
    if o.ok {
      if bus.open != [] {
        RecordedLeads(bus, s, laws, o.command, o.tables);
        OpenStacks(bus, s, laws, bus.open[|s.begins| - 1] + [o.command], o.tables);
      } else if Absorbs(bus, o.command).Some? {
        EitherLeads(bus, s, laws, c);
        var d := Absorbs(bus, o.command).value;
        FoldStacks(bus, s, laws, d, RedoExact(d, s.past[|s.past| - 1], o.tables), o.tables);
      } else {
        EntryStacks(bus, s, laws, o.command, o.tables, true);
      }
    }
  }

  /** A command changes only what it captured when it is applied. */
  lemma {:induction false} ApplyKeeps(c: Command, t: Tables)
    ensures var d := Apply(c, t).command;
      && (d.NoteEdit? <==> c.NoteEdit?) && (d.SetTransport? <==> c.SetTransport?)
      && (c.NoteEdit? ==> d.patternId == c.patternId)
      && (c.SetTransport? ==> d.from == c.from && d.to == c.to)
  {
  }

  /** Every pair that coalesces, transport changes aside, folds into an entry that leads back, and forth exactly when
      the lengths say so. */
  lemma {:induction false} FoldLabels(top: Marked, next: Command, b: Tables, m: Tables, a: Tables)
    requires Sound(b) && Sound(a) && UndoesEntry(top, b, m) && Labels(next, m, a)
    requires Coalesce(top.command, next).Some? && !top.command.SetTransport?
    ensures var d := Coalesce(top.command, next).value; UndoesEntry(Marked(d, RedoExact(d, b, a)), b, a)
  {
    if top.command.Edit? {
      EditFolds(top.command, next, b, m, a);
    } else if top.command.EffectParam? {
      ParamFolds(top.command, next, b, m, a);
    } else {
      NoteFolds(top.command, next, b, m, a);
    }
  }

  lemma {:induction false} EditFolds(c: Command, next: Command, b: Tables, m: Tables, a: Tables)
    requires c.Edit? && Coalesce(c, next).Some? && Labels(c, b, m) && Labels(next, m, a)
    ensures var d := Coalesce(c, next).value; d.Edit? && UndoesEntry(Marked(d, true), b, a)
  {
    EditCoalesces(c, next, b, m, a);
    SettledLabels(Coalesce(c, next).value, b, a);
  }

  lemma {:induction false} ParamFolds(c: Command, next: Command, b: Tables, m: Tables, a: Tables)
    requires c.EffectParam? && Coalesce(c, next).Some? && Labels(c, b, m) && Labels(next, m, a)
    ensures var d := Coalesce(c, next).value; d.EffectParam? && UndoesEntry(Marked(d, true), b, a)
  {
    EffectParamCoalesces(c, next, b, m, a);
    SettledLabels(Coalesce(c, next).value, b, a);
  }

  lemma {:induction false} NoteFolds(c: Command, next: Command, b: Tables, m: Tables, a: Tables)
    requires c.NoteEdit? && next.NoteEdit? && Coalesce(c, next).Some?
    requires Sound(b) && Sound(a) && Undoes(c, b, m) && Labels(next, m, a)
    ensures var d := Coalesce(c, next).value; UndoesEntry(Marked(d, RedoExact(d, b, a)), b, a)
  {
    NoteUndoExact(c, next, b, m, a);
    NoteRunRedoIff(c, next, b, m, a);
    if LengthsFollow(c.patternId, b, a) {
      NoteCoalesces(c, next, b, m, a);
    }
  }

  lemma {:induction false} TransportFolds(c: Command, change: Command, next: Command, b: Tables, m: Tables, a: Tables)
    requires c.SetTransport? && change.SetTransport? && change.from == m.transport && Undoes(c, b, m) && Keeps(c, b)
    requires c.originalLengths == AudioLengths(b.clips) || Rescaled(m.clips, change.from.tempo, change.to.tempo) == m.clips
    requires Apply(change, m) == Outcome(true, next, a)
    ensures var d := Coalesce(c, next).value; UndoesEntry(Marked(d, RedoExact(d, b, a)), b, a)
  {
    var d := Coalesce(c, next).value;
    TransportUndoExactIff(c, change, b, m);
    TransportRedoIff(d, b, a);
    if LengthsRescale(d.from.tempo, d.to.tempo, b, a) {
      TransportCoalesces(d, b, a);
    }
  }

  lemma {:induction false} StepAgrees(bus: Bus, s: Snapshots, laws: Laws, op: Op)
    requires Agrees(bus, s, laws) && Legal(bus, s, op)
    ensures Agrees(StepOn(bus, op).bus, SnapshotOf(bus, s, op), laws)
  {
    match op
    case Execute(c) => ExecuteAgrees(bus, s, laws, c);
    case Undo => UndoAgrees(bus, s, laws);
    case Redo => RedoAgrees(bus, s, laws);
    case Begin =>
      assert Transaction([], s.current, s.current);
      BeginStacks(bus, s, laws);
    case Commit => CommitAgrees(bus, s, laws);
    case Abort => AbortAgrees(bus, s, laws);
    case Seal =>
    case Clear => ClearStacks(bus, s, laws);
  }

  // ----- whole runs --------------------------------------------------------

  ghost function RunOn(bus: Bus, ops: seq<Op>): Bus
    decreases |ops|
  {
    if ops == [] then bus else RunOn(StepOn(bus, ops[0]).bus, ops[1..])
  }

  ghost predicate LegalRun(bus: Bus, s: Snapshots, ops: seq<Op>)
    decreases |ops|
  {
    ops == [] || (Legal(bus, s, ops[0]) && LegalRun(StepOn(bus, ops[0]).bus, SnapshotOf(bus, s, ops[0]), ops[1..]))
  }

  ghost function SnapshotRun(bus: Bus, s: Snapshots, ops: seq<Op>): Snapshots
    decreases |ops|
  {
    if ops == [] then s else SnapshotRun(StepOn(bus, ops[0]).bus, SnapshotOf(bus, s, ops[0]), ops[1..])
  }

  /** Over any legal run the bus, which keeps only inverses, agrees with the history of whole snapshots. */
  lemma {:induction false} RunAgrees(bus: Bus, s: Snapshots, laws: Laws, ops: seq<Op>)
    requires Agrees(bus, s, laws) && LegalRun(bus, s, ops)
    ensures Agrees(RunOn(bus, ops), SnapshotRun(bus, s, ops), laws)
    decreases |ops|
  {
    if ops != [] {
      StepAgrees(bus, s, laws, ops[0]);
      RunAgrees(StepOn(bus, ops[0]).bus, SnapshotOf(bus, s, ops[0]), laws, ops[1..]);
    }
  }

  /** The history of a project that was just opened. */
  function NewBus(t: Tables): Bus {
    Bus(t, [], [], [], false)
  }

  function NewSnapshots(t: Tables): Snapshots {
    Snapshots([], [], [], [], [], t)
  }

  lemma {:induction false} NewBusAgrees(t: Tables) returns (laws: Laws)
    requires Sound(t)
    ensures Agrees(NewBus(t), NewSnapshots(t), laws)
  {
    laws := Laws((e: Marked, b: Tables, a: Tables) => UndoesEntry(e, b, a),
                 (u: Marked, a: Tables, b: Tables) => RedoesEntry(u, b, a),
                 (cs: seq<Command>, b: Tables, a: Tables) => LabelsAll(cs, b, a),
                 (x: Tables) => Sound(x));
  }

  lemma {:induction false} NewRunAgrees(t: Tables, ops: seq<Op>) returns (laws: Laws)
    requires Sound(t) && LegalRun(NewBus(t), NewSnapshots(t), ops)
    ensures Agrees(RunOn(NewBus(t), ops), SnapshotRun(NewBus(t), NewSnapshots(t), ops), laws)
  {
    laws := NewBusAgrees(t);
    RunAgrees(NewBus(t), NewSnapshots(t), laws, ops);
  }

  /** From an empty history, every run holds the contents its snapshots hold, and stays sound. */
  lemma {:induction false} HistoryIsSnapshots(t: Tables, ops: seq<Op>)
    requires Sound(t) && LegalRun(NewBus(t), NewSnapshots(t), ops)
    ensures var r, s := RunOn(NewBus(t), ops), SnapshotRun(NewBus(t), NewSnapshots(t), ops);
      && r.tables == s.current && Sound(r.tables)
      && |r.undoStack| == |s.past| && |r.redoStack| == |s.future| && |r.open| == |s.begins|
  {
    var laws := NewRunAgrees(t, ops);
    assert State(RunOn(NewBus(t), ops).tables);
  }

  // ----- what users rely on ------------------------------------------------

  function Times(op: Op, n: nat): seq<Op> {
    if n == 0 then [] else [op] + Times(op, n - 1)
  }

  function UndoneBy(s: Snapshots, n: nat): Snapshots
    decreases n
  {
    if n == 0 then s else UndoneBy(SnapshotStep(s, Undo, None, false, false, false), n - 1)
  }

  function RedoneBy(s: Snapshots, n: nat): Snapshots
    decreases n
  {
    if n == 0 then s else RedoneBy(SnapshotStep(s, Redo, None, false, false, false), n - 1)
  }

  lemma RedoneLast(s: Snapshots, n: nat)
    ensures RedoneBy(s, n + 1) == SnapshotStep(RedoneBy(s, n), Redo, None, false, false, false)
    decreases n
  {
    if n > 0 {
      RedoneLast(SnapshotStep(s, Redo, None, false, false, false), n - 1);
    }
  }

  lemma {:induction false} UndoneMeaning(s: Snapshots, n: nat)
    requires n <= |s.past| == |s.pastExact| && |s.future| == |s.futureExact|
    ensures var r := UndoneBy(s, n);
      && r.current == (if n == 0 then s.current else s.past[|s.past| - n])
      && |r.future| == |r.futureExact| == |s.future| + n && r.begins == s.begins
    ensures RedoneBy(UndoneBy(s, n), n) == s
    decreases n
  {
    if n > 0 {
      var u := SnapshotStep(s, Undo, None, false, false, false);
      UndoneMeaning(u, n - 1);
      RedoneLast(UndoneBy(u, n - 1), n - 1);
      UndoneOnce(s);
    }
  }

  lemma UndoneOnce(s: Snapshots)
    requires s.past != [] && |s.past| == |s.pastExact| && |s.future| == |s.futureExact|
    ensures SnapshotStep(SnapshotStep(s, Undo, None, false, false, false), Redo, None, false, false, false) == s
  {
  }

  /** Undoing more does not touch what was undone before. */
  lemma {:induction false} FutureGrows(s: Snapshots, n: nat)
    ensures s.futureExact <= UndoneBy(s, n).futureExact
    decreases n
  {
    if n > 0 {
      FutureGrows(SnapshotStep(s, Undo, None, false, false, false), n - 1);
    }
  }

  lemma {:induction false} OneRun(bus: Bus, op: Op, n: nat)
    requires 0 < n
    ensures RunOn(bus, Times(op, n)) == RunOn(StepOn(bus, op).bus, Times(op, n - 1))
  {
    assert Times(op, n)[1..] == Times(op, n - 1) && Times(op, n)[0] == op;
  }

  lemma {:induction false} OneSnapshot(bus: Bus, s: Snapshots, op: Op, n: nat)
    requires 0 < n
    ensures SnapshotRun(bus, s, Times(op, n)) == SnapshotRun(StepOn(bus, op).bus, SnapshotOf(bus, s, op), Times(op, n - 1))
  {
    assert Times(op, n)[1..] == Times(op, n - 1) && Times(op, n)[0] == op;
  }

  lemma {:induction false} OneLegal(bus: Bus, s: Snapshots, op: Op, n: nat)
    requires 0 < n && Legal(bus, s, op)
    requires LegalRun(StepOn(bus, op).bus, SnapshotOf(bus, s, op), Times(op, n - 1))
    ensures LegalRun(bus, s, Times(op, n))
  {
    assert Times(op, n)[1..] == Times(op, n - 1) && Times(op, n)[0] == op;
  }

  /** The buses and snapshots that one operation after another leads through. */
  ghost predicate Leads(buses: seq<Bus>, snaps: seq<Snapshots>, op: Op, n: nat) {
    && |buses| == |snaps| == n + 1
    && forall i: nat | i < n ::
         Legal(buses[i], snaps[i], op) && StepOn(buses[i], op).bus == buses[i + 1]
         && SnapshotOf(buses[i], snaps[i], op) == snaps[i + 1]
  }

  lemma {:induction false} LeadsRun(buses: seq<Bus>, snaps: seq<Snapshots>, op: Op, n: nat)
    requires Leads(buses, snaps, op, n)
    ensures RunOn(buses[0], Times(op, n)) == buses[n]
    ensures SnapshotRun(buses[0], snaps[0], Times(op, n)) == snaps[n]
    ensures LegalRun(buses[0], snaps[0], Times(op, n))
    decreases n
  {
    if n > 0 {
      LeadsRun(buses[1..], snaps[1..], op, n - 1);
      OneRun(buses[0], op, n);
      OneSnapshot(buses[0], snaps[0], op, n);
      OneLegal(buses[0], snaps[0], op, n);
    }
  }

  /** One step before those that lead on. */
  lemma LeadsOneMore(bus: Bus, s: Snapshots, op: Op, buses: seq<Bus>, snaps: seq<Snapshots>, n: nat)
    requires Leads(buses, snaps, op, n)
    requires Legal(bus, s, op) && StepOn(bus, op).bus == buses[0] && SnapshotOf(bus, s, op) == snaps[0]
    ensures Leads([bus] + buses, [s] + snaps, op, n + 1)
  {
    forall i: nat | 0 < i < n + 1
      ensures ([bus] + buses)[i] == buses[i - 1] && ([s] + snaps)[i] == snaps[i - 1]
    {
    }
  }

  /** An operation that is legal, and leads to a bus that agrees with the snapshots. */
  ghost predicate LegallyTo(bus: Bus, s: Snapshots, op: Op, next: Bus, after: Snapshots) {
    Legal(bus, s, op) && StepOn(bus, op).bus == next && SnapshotOf(bus, s, op) == after
  }

  lemma {:induction false} LeadsStep(bus: Bus, s: Snapshots, op: Op, next: Bus, after: Snapshots, buses: seq<Bus>,
                                     snaps: seq<Snapshots>, n: nat)
    requires Leads(buses, snaps, op, n) && buses[0] == next && snaps[0] == after && LegallyTo(bus, s, op, next, after)
    ensures Leads([bus] + buses, [s] + snaps, op, n + 1)
  {
    LeadsOneMore(bus, s, op, buses, snaps, n);
  }

  lemma {:induction false} UndoStep(bus: Bus, s: Snapshots, laws: Laws) returns (next: Bus)
    requires Agrees(bus, s, laws) && bus.open == []
    ensures LegallyTo(bus, s, Undo, next, SnapshotStep(s, Undo, None, false, false, false))
    ensures next.open == [] && Agrees(next, SnapshotStep(s, Undo, None, false, false, false), laws)
  {
    UndoAgrees(bus, s, laws);
    next := UndoOn(bus).bus;
  }

  lemma {:induction false} UndosLead(bus: Bus, s: Snapshots, laws: Laws, n: nat)
    returns (buses: seq<Bus>, snaps: seq<Snapshots>)
    requires Agrees(bus, s, laws) && bus.open == []
    ensures Leads(buses, snaps, Undo, n) && buses[0] == bus && snaps[0] == s
    ensures snaps[n] == UndoneBy(s, n) && buses[n].open == [] && Agrees(buses[n], snaps[n], laws)
    decreases n
  {
    if n == 0 {
      buses, snaps := [bus], [s];
    } else {
      var after := SnapshotStep(s, Undo, None, false, false, false);
      var next := UndoStep(bus, s, laws);
      var later, laterSnaps := UndosLead(next, after, laws, n - 1);
      LeadsStep(bus, s, Undo, next, after, later, laterSnaps, n - 1);
      buses, snaps := [bus] + later, [s] + laterSnaps;
    }
  }

  lemma {:induction false} UndosRun(bus: Bus, s: Snapshots, laws: Laws, n: nat)
    requires Agrees(bus, s, laws) && bus.open == []
    ensures LegalRun(bus, s, Times(Undo, n)) && RunOn(bus, Times(Undo, n)).open == []
    ensures SnapshotRun(bus, s, Times(Undo, n)) == UndoneBy(s, n)
    ensures Agrees(RunOn(bus, Times(Undo, n)), UndoneBy(s, n), laws)
  {
    var buses, snaps := UndosLead(bus, s, laws, n);
    LeadsRun(buses, snaps, Undo, n);
  }

  /** The last `n` entries of the future are redone exactly. */
  predicate ExactAhead(s: Snapshots, n: nat) {
    n <= |s.futureExact| && forall i | |s.futureExact| - n <= i < |s.futureExact| :: s.futureExact[i]
  }

  lemma {:induction false} RedoStep(bus: Bus, s: Snapshots, laws: Laws) returns (next: Bus)
    requires Agrees(bus, s, laws) && bus.open == [] && ExactAhead(s, 1)
    ensures LegallyTo(bus, s, Redo, next, SnapshotStep(s, Redo, None, false, false, false))
    ensures next.open == [] && Agrees(next, SnapshotStep(s, Redo, None, false, false, false), laws)
  {
    RedoAgrees(bus, s, laws);
    next := RedoOn(bus).bus;
  }

  lemma AheadStep(s: Snapshots, n: nat)
    requires 0 < n && ExactAhead(s, n) && |s.future| == |s.futureExact|
    ensures ExactAhead(s, 1) && ExactAhead(SnapshotStep(s, Redo, None, false, false, false), n - 1)
  {
  }

  lemma {:induction false} RedosLead(bus: Bus, s: Snapshots, laws: Laws, n: nat)
    returns (buses: seq<Bus>, snaps: seq<Snapshots>)
    requires Agrees(bus, s, laws) && bus.open == [] && ExactAhead(s, n)
    ensures Leads(buses, snaps, Redo, n) && buses[0] == bus && snaps[0] == s
    ensures snaps[n] == RedoneBy(s, n) && buses[n].open == [] && Agrees(buses[n], snaps[n], laws)
    decreases n
  {
    if n == 0 {
      buses, snaps := [bus], [s];
    } else {
      var after := SnapshotStep(s, Redo, None, false, false, false);
      AheadStep(s, n);
      var next := RedoStep(bus, s, laws);
      var later, laterSnaps := RedosLead(next, after, laws, n - 1);
      LeadsStep(bus, s, Redo, next, after, later, laterSnaps, n - 1);
      buses, snaps := [bus] + later, [s] + laterSnaps;
    }
  }

  lemma {:induction false} RedosRun(bus: Bus, s: Snapshots, laws: Laws, n: nat)
    requires Agrees(bus, s, laws) && bus.open == [] && ExactAhead(s, n)
    ensures LegalRun(bus, s, Times(Redo, n)) && RunOn(bus, Times(Redo, n)).open == []
    ensures Agrees(RunOn(bus, Times(Redo, n)), RedoneBy(s, n), laws)
  {
    var buses, snaps := RedosLead(bus, s, laws, n);
    LeadsRun(buses, snaps, Redo, n);
  }

  /** `n` undos succeed and lead to the last but `n` of the contents in the past. */
  ghost predicate GoesBack(bus: Bus, s: Snapshots, n: nat) {
    && n <= |s.past| && LegalRun(bus, s, Times(Undo, n))
    && (0 < n ==> RunOn(bus, Times(Undo, n)).tables == s.past[|s.past| - n])
  }

  /** After them, `n` redos succeed and lead back. */
  ghost predicate Returns(bus: Bus, s: Snapshots, n: nat) {
    var u := RunOn(bus, Times(Undo, n));
    && LegalRun(u, SnapshotRun(bus, s, Times(Undo, n)), Times(Redo, n))
    && RunOn(u, Times(Redo, n)).tables == bus.tables
  }

  /** The last `n` entries of the past are redone exactly. */
  predicate ExactBehind(s: Snapshots, n: nat) {
    n <= |s.pastExact| && forall i | |s.pastExact| - n <= i < |s.pastExact| :: s.pastExact[i]
  }

  /** After any run, `n` undos lead to the snapshot before the last `n` entries, folded or not; and `n` redos lead back
      if those entries are redone exactly. */
  lemma {:induction false} UndoRedoReturns(t: Tables, ops: seq<Op>, n: nat)
    requires Sound(t) && LegalRun(NewBus(t), NewSnapshots(t), ops)
    requires var r := RunOn(NewBus(t), ops); r.open == [] && n <= |r.undoStack|
    ensures var r, s := RunOn(NewBus(t), ops), SnapshotRun(NewBus(t), NewSnapshots(t), ops);
      GoesBack(r, s, n) && (ExactBehind(s, n) ==> Returns(r, s, n))
  {
    var laws := NewRunAgrees(t, ops);
    var r, s := RunOn(NewBus(t), ops), SnapshotRun(NewBus(t), NewSnapshots(t), ops);
    assert |s.past| == |r.undoStack| by { HistoryIsSnapshots(t, ops); }
    UndosRedosRun(r, s, laws, n);
  }

  lemma {:induction false} UndosRedosRun(bus: Bus, s: Snapshots, laws: Laws, n: nat)
    requires Agrees(bus, s, laws) && bus.open == [] && n <= |s.past|
    ensures GoesBack(bus, s, n) && (ExactBehind(s, n) ==> Returns(bus, s, n))
  {
    UndosRun(bus, s, laws, n);
    UndoneMeaning(s, n);
    if ExactBehind(s, n) {
      AheadOnceUndone(s, n);
      RedosRun(RunOn(bus, Times(Undo, n)), UndoneBy(s, n), laws, n);
    }
  }

  lemma {:induction false} AheadOnceUndone(s: Snapshots, n: nat)
    requires n <= |s.past| == |s.pastExact| && |s.future| == |s.futureExact| && ExactBehind(s, n)
    ensures ExactAhead(UndoneBy(s, n), n)
    decreases n
  {
    if n > 0 {
      var u := SnapshotStep(s, Undo, None, false, false, false);
      AheadOnceUndone(u, n - 1);
      FutureGrows(u, n - 1);
      UndoneMeaning(u, n - 1);
    }
  }

  lemma {:induction false} UndoneAndRedone(bus: Bus, s: Snapshots, laws: Laws)
    requires Agrees(bus, s, laws) && bus.open == [] && s.past != []
    ensures s.pastExact != []
    ensures RedoOn(UndoOn(bus).bus).bus.tables == bus.tables <==> s.pastExact[|s.pastExact| - 1]
  {
    var next := UndoStep(bus, s, laws);
    RedoReturnsIff(next, SnapshotStep(s, Undo, None, false, false, false), laws);
  }

  /** After any run and one undo, redo leads back exactly when the entry is marked so; for a folded entry, when the
      clips' lengths before and after it say so. */
  lemma {:induction false} RedoLeadsBackIff(t: Tables, ops: seq<Op>)
    requires Sound(t) && LegalRun(NewBus(t), NewSnapshots(t), ops)
    requires var r := RunOn(NewBus(t), ops); r.open == [] && r.undoStack != []
    ensures var r, s := RunOn(NewBus(t), ops), SnapshotRun(NewBus(t), NewSnapshots(t), ops);
      s.pastExact != [] &&
      (RedoOn(UndoOn(r).bus).bus.tables == r.tables <==> s.pastExact[|s.pastExact| - 1])
  {
    var laws := NewRunAgrees(t, ops);
    var r, s := RunOn(NewBus(t), ops), SnapshotRun(NewBus(t), NewSnapshots(t), ops);
    assert |s.past| == |r.undoStack| by { HistoryIsSnapshots(t, ops); }
    UndoneAndRedone(r, s, laws);
  }

  /** Redone exactly or not, an entry that was undone and redone leads back again. */
  lemma {:induction false} RedoneLeadsBack(e: Marked, b: Tables, a: Tables)
    requires UndoesEntry(e, b, a) && Sound(b)
    ensures var f := Apply(Revert(e.command, a).command, b); f.ok ==> Undoes(f.command, b, f.tables)
  {
    var u := Revert(e.command, a).command;
    if !e.exact && Apply(u, b).ok {
      if e.command.NoteEdit? {
        NoteEditSettled(b, u);
      } else {
        TransportSettled(b, u);
      }
    }
  }

  lemma {:induction false} RedoneIsUndone(bus: Bus, s: Snapshots, laws: Laws)
    requires Agrees(bus, s, laws) && bus.open == [] && s.past != []
    ensures var u := UndoOn(bus).bus;
      var f := RedoOn(u);
      f.ok ==> UndoOn(f.bus).ok && UndoOn(f.bus).bus.tables == u.tables
  {
    var n := |s.past| - 1;
    var e := Marked(bus.undoStack[n], s.pastExact[n]);
    TopEntry(bus, s, laws);
    assert Entry(e, s.past[n], s.current) && State(s.past[n]);
    RedoneLeadsBack(e, s.past[n], s.current);
  }

  /** After any run, what was undone and redone is undone again, to the same contents: exact redo is not needed. */
  lemma {:induction false} UndoAfterRedo(t: Tables, ops: seq<Op>)
    requires Sound(t) && LegalRun(NewBus(t), NewSnapshots(t), ops)
    requires var r := RunOn(NewBus(t), ops); r.open == [] && r.undoStack != []
    ensures var u := UndoOn(RunOn(NewBus(t), ops)).bus;
      var f := RedoOn(u);
      f.ok ==> UndoOn(f.bus).ok && UndoOn(f.bus).bus.tables == u.tables
  {
    var laws := NewRunAgrees(t, ops);
    var r, s := RunOn(NewBus(t), ops), SnapshotRun(NewBus(t), NewSnapshots(t), ops);
    assert |s.past| == |r.undoStack| by { HistoryIsSnapshots(t, ops); }
    RedoneIsUndone(r, s, laws);
  }

  /** At least `depth` transactions stay open through the run. */
  ghost predicate StaysInside(bus: Bus, ops: seq<Op>, depth: nat)
    decreases |ops|
  {
    depth <= |bus.open| && (ops == [] || StaysInside(StepOn(bus, ops[0]).bus, ops[1..], depth))
  }

  /** While a transaction is open, the state it began from is remembered. */
  lemma {:induction false} BeginRemembered(bus: Bus, s: Snapshots, laws: Laws, ops: seq<Op>, depth: nat)
    requires Agrees(bus, s, laws) && LegalRun(bus, s, ops) && StaysInside(bus, ops, depth + 1)
    ensures |s.begins| >= depth + 1 && |SnapshotRun(bus, s, ops).begins| >= depth + 1
    ensures SnapshotRun(bus, s, ops).begins[depth] == s.begins[depth]
    decreases |ops|
  {
    if ops != [] {
      StepAgrees(bus, s, laws, ops[0]);
      BeginRemembered(StepOn(bus, ops[0]).bus, SnapshotOf(bus, s, ops[0]), laws, ops[1..], depth);
    }
  }

  lemma {:induction false} AbortRun(bus: Bus, s: Snapshots, laws: Laws, ops: seq<Op>)
    requires Agrees(bus, s, laws) && s.begins != []
    requires LegalRun(bus, s, ops) && StaysInside(bus, ops, |s.begins|)
    requires |RunOn(bus, ops).open| == |s.begins|
    ensures AbortOn(RunOn(bus, ops)).tables == s.begins[|s.begins| - 1]
  {
    BeginRemembered(bus, s, laws, ops, |s.begins| - 1);
    RunAgrees(bus, s, laws, ops);
    AbortLeads(RunOn(bus, ops), SnapshotRun(bus, s, ops), laws);
  }

  /** Whatever happened since a transaction began, aborting it restores the state it began from. */
  lemma {:induction false} AbortRestores(t: Tables, before: seq<Op>, during: seq<Op>)
    requires Sound(t) && LegalRun(NewBus(t), NewSnapshots(t), before)
    requires var r, s := RunOn(NewBus(t), before), SnapshotRun(NewBus(t), NewSnapshots(t), before);
      var b := StepOn(r, Begin).bus;
      LegalRun(b, SnapshotOf(r, s, Begin), during) && StaysInside(b, during, |b.open|) && |RunOn(b, during).open| == |b.open|
    ensures var r := RunOn(NewBus(t), before);
      AbortOn(RunOn(StepOn(r, Begin).bus, during)).tables == r.tables
  {
    var laws := NewRunAgrees(t, before);
    var r, s := RunOn(NewBus(t), before), SnapshotRun(NewBus(t), NewSnapshots(t), before);
    StepAgrees(r, s, laws, Begin);
    AbortRun(StepOn(r, Begin).bus, SnapshotOf(r, s, Begin), laws, during);
  }

  /** Opening and committing a transaction that did nothing leaves the history exactly as it was. */
  lemma EmptyCommit(bus: Bus)
    ensures CommitOn(StepOn(bus, Begin).bus) == bus
  {
    assert (bus.open + [[]])[..|bus.open|] == bus.open;
  }

  /** Why undo waits for transactions to close: undone inside one that is then aborted, an edit leaves an empty
      history and contents that are not where the history began. */
  lemma UndoInsideTransaction(t: Tables, first: ProjectMeta, second: ProjectMeta, s: Snapshots)
    requires first != t.meta
    ensures var executed := StepOn(NewBus(t), Execute(SetMeta(t.meta, first))).bus;
      var inside := StepOn(StepOn(executed, Begin).bus, Execute(SetMeta(first, second))).bus;
      var undone := StepOn(inside, Undo).bus;
      var aborted := StepOn(undone, Abort).bus;
      && undone.tables == t && !Legal(inside, s, Undo)
      && aborted.undoStack == [] && aborted.open == [] && aborted.tables != t
  {
    EditInside(t, first, second);
    UndoneInside(t, first, second);
  }

  lemma EditInside(t: Tables, first: ProjectMeta, second: ProjectMeta)
    ensures var executed := StepOn(NewBus(t), Execute(SetMeta(t.meta, first))).bus;
      StepOn(StepOn(executed, Begin).bus, Execute(SetMeta(first, second))).bus ==
      Bus(t.(meta := second), [SetMeta(t.meta, first)], [], [[SetMeta(first, second)]], true)
  {
    var c, d := SetMeta(t.meta, first), SetMeta(first, second);
    MetaChanges(t, t.meta, first);
    MetaChanges(t.(meta := first), first, second);
    var executed := Bus(t.(meta := first), [c], [], [], true);
    assert StepOn(NewBus(t), Execute(c)) == Reply(true, executed);
    var begun := executed.(open := [[]]);
    assert StepOn(executed, Begin).bus == begun;
    assert begun.open[0] + [d] == [d] && begun.open[0 := [d]] == [[d]];
  }

  lemma UndoneInside(t: Tables, first: ProjectMeta, second: ProjectMeta)
    ensures var inside := Bus(t.(meta := second), [SetMeta(t.meta, first)], [], [[SetMeta(first, second)]], true);
      var undone := StepOn(inside, Undo).bus;
      var aborted := StepOn(undone, Abort).bus;
      && undone.tables == t
      && aborted.undoStack == [] && aborted.open == [] && aborted.tables == t.(meta := first)
  {
    var c, d := SetMeta(t.meta, first), SetMeta(first, second);
    MetaChanges(t, t.meta, first);
    MetaChanges(t, first, second);
    var inside := Bus(t.(meta := second), [c], [], [[d]], true);
    var undone := Bus(t, [], [c], [[d]], false);
    assert [c][..0] == [] && [] + [c] == [c];
    assert StepOn(inside, Undo) == Reply(true, undone);
    assert [d][..0] == [] && [[d]][..0] == [];
    assert RevertAll([d], t).tables == t.(meta := first);
  }

  lemma MetaChanges(t: Tables, from: ProjectMeta, to: ProjectMeta)
    ensures Apply(SetMeta(from, to), t) == Outcome(true, SetMeta(from, to), t.(meta := to))
    ensures forall x: ProjectMeta :: Revert(SetMeta(from, to), t.(meta := x)) == Outcome(true, SetMeta(from, to), t.(meta := from))
  {
  }
}
