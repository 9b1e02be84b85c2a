/** The single mutation path: the command bus over a live project. Each method is one step of `History`. */
module CommandBuses {
  import opened Projects
  import opened Commands
  import opened CommandSteps
  import opened History

  class CommandBus {
    const project: Project
    var undoStack: seq<Command>
    var redoStack: seq<Command>
    var open: seq<seq<Command>>
    var coalescable: bool

    ghost predicate Valid()
      reads this, project
    {
      && FiledClips(project.clips)
      && (forall i | 0 <= i < |undoStack| :: Filed(undoStack[i]))
      && (forall i | 0 <= i < |redoStack| :: Filed(redoStack[i]))
      && (forall i, j | 0 <= i < |open| && 0 <= j < |open[i]| :: Filed(open[i][j]))
    }

    ghost function State(): Bus
      reads this, project
    {
      Bus(project.Copy(), undoStack, redoStack, open, coalescable)
    }

    constructor (project: Project)
      requires FiledClips(project.clips)
      ensures this.project == project && Valid()
      ensures State() == Bus(project.Copy(), [], [], [], false)
    {
      this.project := project;
      undoStack, redoStack, open, coalescable := [], [], [], false;
    }

    /** Applies and records; a command that fails to apply is not recorded. */
    method Execute(command: Command) returns (ok: bool)
      requires Valid() && Filed(command)
      modifies this, project
      ensures Valid() && Reply(ok, State()) == StepOn(old(State()), Op.Execute(command))
    {
      var applied;
      ok, applied := ApplyCommand(project, command);
      if ok {
        Record(applied);
      }
    }

    method Record(command: Command)
      requires Valid() && Filed(command)
      modifies this
      ensures Valid() && State() == History.Record(old(State()), command)
    {
      if open != [] {
        var top := |open| - 1;
        open := open[top := open[top] + [command]];
        return;
      }
      redoStack := [];
      if coalescable && undoStack != [] {
        var folded := Coalesce(undoStack[|undoStack| - 1], command);
        if folded.Some? {
          FoldedFiled(undoStack[|undoStack| - 1], command);
          undoStack := undoStack[..|undoStack| - 1] + [folded.value];
          return;
        }
      }
      undoStack := undoStack + [command];
      coalescable := true;
    }

    /** Undoes the last entry; an entry that fails to revert stays where it was. */
    method Undo() returns (ok: bool)
      requires Valid()
      modifies this, project
      ensures Valid() && Reply(ok, State()) == StepOn(old(State()), Op.Undo)
    {
      if undoStack == [] {
        return false;
      }
      var command := undoStack[|undoStack| - 1];
      undoStack := undoStack[..|undoStack| - 1];
      ok, command := RevertCommand(project, command);
      if !ok {
        undoStack := undoStack + [command];
        return;
      }
      redoStack := redoStack + [command];
      coalescable := false;
    }

    method Redo() returns (ok: bool)
      requires Valid()
      modifies this, project
      ensures Valid() && Reply(ok, State()) == StepOn(old(State()), Op.Redo)
    {
      if redoStack == [] {
        return false;
      }
      var command := redoStack[|redoStack| - 1];
      redoStack := redoStack[..|redoStack| - 1];
      ok, command := ApplyCommand(project, command);
      if !ok {
        redoStack := redoStack + [command];
        return;
      }
      undoStack := undoStack + [command];
      coalescable := false;
    }

    method BeginTransaction()
      requires Valid()
      modifies this
      ensures Valid() && State() == StepOn(old(State()), Begin).bus
    {
      open := open + [[]];
    }

    /** Closes the innermost transaction into the one around it, or into one history entry. */
    method CommitTransaction()
      requires Valid()
      modifies this
      ensures Valid() && State() == StepOn(old(State()), Commit).bus
    {
      if open == [] {
        return;
      }
      var top := |open| - 1;
      var transaction := open[top];
      open := open[..top];
      if transaction == [] {
        return;
      }
      if open != [] {
        open := open[top - 1 := open[top - 1] + [Composite(transaction)]];
        return;
      }
      redoStack := [];
      undoStack := undoStack + [Composite(transaction)];
      coalescable := false;
    }

    /** Reverts everything in the innermost transaction. */
    method AbortTransaction()
      requires Valid()
      modifies this, project
      ensures Valid() && State() == StepOn(old(State()), Abort).bus
    {
      if open == [] {
        return;
      }
      var transaction := open[|open| - 1];
      open := open[..|open| - 1];
      var ok, reverted := RevertCommands(project, transaction);
    }

    method Seal()
      requires Valid()
      modifies this
      ensures Valid() && State() == StepOn(old(State()), Op.Seal).bus
    {
      coalescable := false;
    }

    method Clear()
      requires Valid()
      modifies this
      ensures Valid() && State() == StepOn(old(State()), Op.Clear).bus
    {
      undoStack, redoStack, open, coalescable := [], [], [], false;
    }
  }

  lemma {:induction false} FoldedFiled(c: Command, next: Command)
    requires Filed(c) && Filed(next) && Coalesce(c, next).Some?
    ensures Filed(Coalesce(c, next).value)
  {
  }
}
