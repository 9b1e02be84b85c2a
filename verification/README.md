# OneBeat, modelled and proved

OneBeat is the engine of a digital audio workstation. It keeps a project of instruments, patterns, arrangement
lanes, clips and mixer tracks, changed only by commands with an undo history; compiles the arrangement into a
schedule of events; plays the schedule block by block through a mixer; and saves projects as JSON and songs as
audio files. This project models that logic in Dafny and proves what it promises. `dafny verify dfyconfig.toml`
checks everything.

The model follows the program's own form. What the program changes in place is a class, a field or an array here,
and each such method is proved against a function or predicate about which the real theorems are. What those
functions mean is stated again in other terms than their bodies: the modules `CommandMeanings`, `BusMeanings`,
`PlacementMeanings`, `ScheduleMeanings`, `EngineMeanings`, `MixerMeanings`, `StretchMeanings`, `ResamplerMeanings`,
`JsonMeanings` and `JsonLayout` say what a command leaves in each table, where and how loud a note lands, which event
reaches which channel as what, what a strip lets through, which grain the search takes, and how a file is spelled.

**Edit history.** `Project` and `CommandBus` are classes; a command is a value holding what it captured, as the bus
owns it alone. The main theorem compares the bus with a history that keeps whole snapshots, over every run
(`HistoryIsSnapshots`, `UndoRedoReturns`, `AbortRestores`). It rests on exact inverses of all five delete cascades
under referential integrity and on the laws of coalescing, over gestures of any length. A *legal* run undoes and
redoes only outside an open transaction, executes commands built for the current contents, and redoes only entries
that are redone exactly; folded entries that are not are undone exactly all the same, and the lemmas named `...Iff` say
which they are. The one fold that is not even undone exactly, a tempo move onto an entry that recorded no clip lengths,
is outside legal runs (`Coalescing.TransportUndoExactIff`). *Sound* is the referential integrity that the checker
decides, with the master as the track without an output and table keys equal to identifiers.

**Flattening and playback.** From clips, patterns and notes to sorted frame events, and from those to what each
channel hears. Playback is specified frame by frame, as a listener that wraps and is released at the loop end, and
the engine's chunked loops are proved equal to it, as far as the event lists hold the chunks. `FlattenedPlaysClean`
joins both halves.

**Mixer.** The depth-first order and the in-place summing loop, equal to the one evaluation of the routing tree; and
the agreement of the model's integrity check with what the mixer accepts, and of a kept graph with a new one.

**JSON.** The canonical writer and the recursive-descent parser, with the round trip. What the parser accepts is exactly
the texts of the syntax trees of RFC 8259, with few liberties that `JsonSyntax` names (`JsonSyntax.ReadsIff`).

**Streams.** The snapshot slot as interleaved steps, the sinc resampler, the time stretcher and the audio file writer
with an independent chunk reader. **Note editing.** Snapping, moving, resizing, quantising and the step view.

Findings where the code does less than its comments, or has a condition that they do not name:

- Recording the length of every audio clip (engine/src/model/commands.cpp:588-591) makes a drag of the tempo undo
  exactly, from its first move on (`Drags.TransportDragUndoIff`). It is redone exactly only if rescaling every clip once
  gives what rescaling it step by step gave (`Drags.TransportDragRedoIff`); `Drags.TempoDragDrifts` is a project where
  it does not. Redo of a run of note edits has a condition of the same kind (`Coalescing.NoteRedoExactIff`).
- A real is formatted in a buffer of 64 bytes and taken out by the length it would have without that limit. From
  10^56, and from -10^55 downwards, the file then holds a zero byte and cannot be read back
  (`JsonRoundTrip.FileRoundTrip`, `JsonNumbers.ShortRealIff`, `JsonRoundTrip.LongRealIsLost`).
- Cutting a clip is meant to go unheard. For audio it does if and only if the clip is neither stretched nor reversed
  and its window reaches past the cut, apart from files that are over by then (`Factories.CutAudioIff`): the first part
  of a stretched clip keeps the whole window, and a reversed clip is cut in the wrong order. The second part of a
  pattern clip starts the pattern over (`Factories.CutPatternIff`).
- An output that names no track becomes "no output" in the mixer graph (engine/src/core/engine.cpp:1411-1417,
  `MixerSync.UnknownOutputFeedsDevice`); the comment there says that it falls back to the master. The model follows the
  code.
- The integrity check accepts a master that feeds another track. Deleting a track then breaks integrity if and only if
  the master comes to it (`Deletion.MasterMustBeRoot`, `Deletion.WithoutTrackConsistentIff`).
- A comment says that lane groups do not cycle (engine/src/model/invariants.cpp:66); the check looks for a lane that
  groups under itself only, and accepts two lanes that group each other (`LaneGroups.GroupCycleInAProject`). Setting a
  group keeps groups acyclic if and only if the walk from it does not come to the lane
  (`LaneGroups.GroupingKeepsAcyclicIff`).
- Trimming the resampler's history erases no more than it holds, for every input, if and only if the ratio is at most
  33 (`Resampler.SafeIff`); the model marks the call that erases more, and promises nothing after it.
- Below one frame per tick two onsets can share a frame, and a voice then no longer alternates
  (`Schedules.ShortTicksCollide`, `Schedules.ScheduleAlternatesIff`), and an event can lie beyond the schedule's length
  (`Flattening.ShortNoteOverruns`, `Flattening.FlattenedFitsIff`).
- A RIFF file is consistent only if 36 + 6 n and six times the sample rate fit 32 bits (`AudioFormats.FileReads`).
- `AudioFileWriter.abandon` after `close` deletes the finished file (`AudioFiles.ExportAndAbandon`).
- After the escape of a high surrogate, with an escape after it that is no low one, the parser steps back by position but
  leaves the column where it was. The column of an error, meant to count bytes from 1 (engine/src/model/json.h:97), is
  exact if and only if there is no such escape on its line before it (`JsonParser.Parse`, `JsonPlaces.NoUnpairsIff`);
  `JsonPlaces.WrongColumn` is a text where it is not. Lines stay exact.

## Model

| member | source | states |
|---|---|---|
| `HistoryLaws.HistoryIsSnapshots` | engine/src/model/command.cpp:7-95 | Over every legal run of execute, undo, redo, begin, commit, abort, seal and clear, folds that are not redone exactly included, the bus, which stores only commands, holds the contents that a history of whole snapshots holds; its stacks have the same depths, and the contents stay sound |
| `HistoryLaws.UndoRedoReturns` | engine/src/model/command.cpp:35-61 | After any legal run, n undos succeed and lead to the snapshot before the last n entries, folded or not; n redos lead back to the same contents when those entries are redone exactly |
| `HistoryLaws.RedoLeadsBackIff` | engine/src/model/command.cpp:35-61 | After any legal run and one undo, redo leads back to the same contents if and only if the entry is marked exact, which a folded entry is by the clip lengths before and after it |
| `HistoryLaws.UndoAfterRedo` | engine/src/model/command.cpp:35-61 | After any legal run, an entry that was undone and redone, exactly or not, is undone again to the same contents |
| `HistoryLaws.AbortRestores` | engine/src/model/command.cpp:84-89 | Whatever ran before and inside a transaction, folds and nested transactions included, aborting it restores the contents it began from |
| `HistoryLaws.EmptyCommit` | engine/src/model/command.cpp:67-74 | Opening and committing a transaction that did nothing leaves the bus exactly as it was, redo stack included |
| `HistoryLaws.StepAgrees` | engine/src/model/command.cpp:7-95 | One step of the bus keeps every entry undoing exactly through the snapshots, and redoing exactly where it is marked so; the invariant behind the results over runs |
| `HistoryLaws.RunAgrees` | engine/src/model/command.cpp:7-95 | The same invariant over a whole run, from any state that has it |
| `CommandLaws.ExecuteLaw` | engine/src/model/command.h:31-47 | A command built for the current contents either fails and changes nothing, or is undone and redone exactly, captures included, and keeps the contents sound; for every kind of command, composites of any depth included |
| `CommandLaws.CompositeLaw` | engine/src/model/command.h:64-80 | A composite either applies every step and is exact as one, or rolls back to where it began |
| `CommandLaws.CompositeLabels` | engine/src/model/command.h:64-80 | Commands that lead from state to state make a composite that undoes and redoes as one step |
| `CommandLaws.RemovalSettled` | engine/src/model/commands.cpp:107-300 | Every removal, once applied, is undone and redone exactly |
| `CommandLaws.RemovalSound` | engine/src/model/project.cpp:307-418 | Every removal that succeeds keeps the project sound |
| `Inverses.AddedOnly` | engine/src/model/commands.cpp:64-104 | Undoing an addition runs the cascading delete, and it removes the added entity and nothing else, because nothing can refer to it |
| `Inverses.InstrumentComesBack` | engine/src/model/commands.cpp:109-147 | Deleting an instrument strips its sequences from every pattern and deletes its automation clips; reverting gives the identical five tables |
| `Inverses.PatternComesBack` | engine/src/model/commands.cpp:150-177 | Deleting a pattern deletes the clips that play it; reverting gives the identical tables |
| `Inverses.LaneComesBack` | engine/src/model/commands.cpp:180-218 | Deleting a lane deletes its clips and releases its group; reverting gives the identical tables, grouping included |
| `Inverses.TrackComesBack` | engine/src/model/commands.cpp:242-300 | Deleting a mixer track re-routes instruments, re-points inputs and audio clips and deletes automation of its inserts; reverting gives the identical tables |
| `Inverses.EditSettled` | engine/src/model/commands.cpp:310-342 | A field edit built from what the entity holds is exact both ways |
| `Inverses.EffectParamSettled` | engine/src/model/commands.cpp:1147-1199 | A parameter change is exact both ways, also where the parameter was not set before |
| `NoteLaws.EditedBack` | engine/src/model/commands.cpp:478-536 | Taking back what a note edit gave and giving back what it took restores the bag of notes, and validity |
| `NoteLaws.NoteEditSettled` | engine/src/model/commands.cpp:413-460 | Undoing a note edit restores the notes and every clip length, though pattern length and matching clips followed the edit; redo is exact too |
| `NoteLaws.NoteEditSound` | engine/src/model/commands.cpp:431-460 | A note edit keeps the project sound |
| `NoteLaws.TransportSettled` | engine/src/model/commands.cpp:549-617 | A transport change, with the audio clips a tempo change rescales, is exact both ways |
| `Coalescing.EditCoalesces` | engine/src/model/commands.cpp:327-335 | Two edits of one field folded into one keep the first way back and the second way forward, exactly |
| `Coalescing.EffectParamCoalesces` | engine/src/model/commands.cpp:1167-1176 | Two changes of one parameter folded into one are exact both ways |
| `Coalescing.NoteUndoExact` | engine/src/model/commands.cpp:462-476 | One more note edit folded into a run of any length that undoes exactly: undo still restores the state before the whole run, always |
| `Coalescing.NoteRunRedoIff` | engine/src/model/commands.cpp:413-476 | Redo of a run of any length leads to the state after it if and only if every clip is as long as following the pattern once makes it |
| `Coalescing.NoteRedoExactIff` | engine/src/model/commands.cpp:413-476 | Of two edits that is so if and only if no clip had the length the pattern had in between; a checkable condition on the lengths before, between and after |
| `CaughtClips.ClipCaughtInBetween` | engine/src/model/commands.cpp:413-476 | A concrete drag of a note over the end of its pattern and back: a clip as long as the pattern is in between shrinks with it, comes back with undo, and stays long with redo |
| `Coalescing.NoteCoalesces` | engine/src/model/commands.cpp:462-476 | Under the condition on the clips the folded run, of any length, is a full history entry again |
| `Coalescing.TransportUndoExactIff` | engine/src/model/commands.cpp:565-617 | One more transport change folded into a run of any length that undoes exactly: it still does if and only if the run recorded the clip lengths or the change moves no clip |
| `Coalescing.TransportRedoIff` | engine/src/model/commands.cpp:580-617 | Redo of a folded transport entry of any length leads to the state after it if and only if every clip is as long as rescaling once makes it |
| `Coalescing.TransportCoalesces` | engine/src/model/commands.cpp:565-604 | Under that condition the folded entry, tempo moves included, is exact both ways |
| `Drags.NoteDragUndoes` | engine/src/model/commands.cpp:462-476 | A gesture of any number of note edits, executed one by one and folded, undoes exactly |
| `Drags.NoteDragRedoIff` | engine/src/model/commands.cpp:413-476 | It is redone exactly if and only if every clip is as long at its end as following the pattern once makes it |
| `Drags.TransportDragUndoIff` | engine/src/model/commands.cpp:565-617 | A drag through any number of transport settings undoes exactly if and only if its first step moved the tempo or no clip changed |
| `Drags.TransportDragRedoIff` | engine/src/model/commands.cpp:580-617 | It is redone exactly if and only if, for every audio clip, rescaling step by step gives the length that rescaling once gives |
| `Drags.TransportRedoExactIff` | engine/src/model/commands.cpp:565-617 | For two changes: redo is exact if and only if three tempi and the length of each audio clip say so |
| `Drags.TempoDragDrifts` | engine/src/model/commands.cpp:580-604 | In a project with one audio clip of one tick, dragging the tempo over 100, 140 and 200 leaves one tick, undo is exact, and redo makes two ticks of it |
| `CommandSteps.ApplyCommand` | engine/src/model/commands.cpp:51-640 | Applying any command to the mutable project, loops and captures and all, is the function Apply on its contents; the lemmas of CommandMeanings say, table by table and entry by entry, what contents that leaves |
| `CommandSteps.RevertCommand` | engine/src/model/commands.cpp:51-640 | Reverting likewise |
| `CommandSteps.ApplyCommands` | engine/src/model/command.h:64-73 | The composite loop applies in order and rolls back in reverse at the first failure |
| `CommandSteps.RevertCommands` | engine/src/model/command.h:75-80 | The composite reverts in reverse and stops at a failure |
| `CommandMeanings.AddMeans` | engine/src/model/commands.cpp:64-104 | An addition succeeds if and only if the identifier is set and free; then the new entity stands under it, and every other entry and table is as it was |
| `CommandMeanings.EditMeans` | engine/src/model/commands.cpp:310-411 | An edit of any of the five kinds succeeds if and only if the entity is there; then its new value stands under the identifier, every other key and table is as it was, and a pattern keeps its sequences and automation |
| `CommandMeanings.EditHolds` | engine/src/model/commands.cpp:320-325 | After an edit that succeeds, what is stored is its new value |
| `CommandMeanings.EffectParamMeans` | engine/src/model/commands.cpp:1158-1199 | Exactly one parameter of the first insert with the identity is set to the new value; all other parameters, inserts, tracks and tables stay |
| `CommandMeanings.MetaMeans` | engine/src/model/commands.cpp:619-640 | The project gets the new name and nothing else changes |
| `CommandMeanings.RemoveInstrumentMeans` | engine/src/model/project.cpp:307-326 | The instrument, its sequence in every pattern and the clips that automate it go, and nothing else does |
| `CommandMeanings.RemovePatternMeans` | engine/src/model/project.cpp:328-337 | The pattern and the clips that play it go, and nothing else does |
| `CommandMeanings.RemoveLaneMeans` | engine/src/model/project.cpp:339-359 | The lane and its clips go, lanes that group under it are released, and nothing else changes |
| `CommandMeanings.RemoveClipMeans` | engine/src/model/project.cpp:361-370 | The clip goes, and nothing else does |
| `CommandMeanings.RemoveTrackMeans` | engine/src/model/project.cpp:372-418 | A track other than the master goes with its automation; each route, port by port, each output and each audio clip that went to it goes to the master, and all that did not stay as they were |
| `CommandMeanings.NoteEditMeans` | engine/src/model/commands.cpp:413-536 | A note edit succeeds if and only if pattern and instrument exist, the notes to go are there and those to come are valid; then the bag has exactly those exchanged, an empty one is no more, and of the clips those of the pattern with its old length get its new one |
| `CommandMeanings.TransportMeans` | engine/src/model/commands.cpp:549-617 | The transport is set, and if the tempo moved, every audio clip with a length gets it times the ratio of the tempi, to the nearest tick and one at least; nothing else changes |
| `CommandMeanings.CompositeMeans` | engine/src/model/command.h:64-80 | A composite succeeds if and only if its steps can be applied one after another, and leaves what the last of them leaves |
| `CommandMeanings.FoldsIff` | engine/src/model/commands.cpp:327-335 | Two commands fold if and only if they are edits of the same field of the same entity, changes of the same parameter, note edits of one gesture where the second takes out what the first put in, or transport settings |
| `BusMeanings.RecordedHow` | engine/src/model/command.cpp:13-33 | Outside transactions a command that applied is folded into the entry just before it or becomes an entry of its own, and there is nothing to redo; inside it joins the innermost; one that failed leaves no trace |
| `BusMeanings.NewEntryAfter` | engine/src/model/command.cpp:35-95 | After undo, redo, a commit, sealing and clearing the next command is an entry of its own |
| `BusMeanings.SealedIsTwo` | engine/src/model/command.cpp:13-33 | Two tempo changes in a row are one entry; sealed in between, they are two |
| `CommandBuses.CommandBus.Execute` | engine/src/model/command.cpp:7-33 | Applies, then records: into the open transaction, or by folding into the last entry, or as a new one; a failure is not recorded and leaves the redo stack |
| `CommandBuses.CommandBus.Undo` | engine/src/model/command.cpp:35-48 | Moves the last entry to the redo stack, or puts it back when reverting fails |
| `CommandBuses.CommandBus.Redo` | engine/src/model/command.cpp:50-61 | Moves the last undone entry back, or puts it back when applying fails |
| `CommandBuses.CommandBus.BeginTransaction` | engine/src/model/command.cpp:63-65 | Opens an empty transaction on top of those that are open, and changes nothing else |
| `CommandBuses.CommandBus.CommitTransaction` | engine/src/model/command.cpp:67-82 | Drops an empty transaction, adds an inner one to its parent, and makes the outermost one history entry |
| `CommandBuses.CommandBus.AbortTransaction` | engine/src/model/command.cpp:84-89 | Reverts the innermost transaction and forgets it |
| `Projects.Project.DeleteInstrument` | engine/src/model/project.cpp:307-326 | The loops over patterns and clips do exactly what the specification of the cascade says |
| `Projects.Project.DeletePattern` | engine/src/model/project.cpp:328-337 | Likewise for patterns |
| `Projects.Project.DeleteLane` | engine/src/model/project.cpp:339-359 | Likewise for lanes and their groups |
| `Projects.Project.DeleteMixerTrack` | engine/src/model/project.cpp:372-418 | Likewise for mixer tracks; the master is refused |
| `Projects.Project.RestoreSequence` | engine/src/model/project.cpp:474-489 | Replaces, or erases when empty, one sequence; refuses unknown patterns and instruments |
| `Projects.Project.EffectiveLengthOf` | engine/src/model/entities.h:379-416 | The declared length, or whole bars to cover the notes when they run past it |
| `Entities.EffectiveLengthMeaning` | engine/src/model/entities.h:396-416 | The effective length covers the declared length and every note, and is the declared one or the fewest whole bars that do |
| `Deletion.WithoutInstrumentSound` | engine/src/model/project.cpp:307-326 | Deleting an instrument keeps referential integrity |
| `Deletion.WithoutPatternSound` | engine/src/model/project.cpp:328-337 | Deleting a pattern keeps it |
| `Deletion.WithoutLaneSound` | engine/src/model/project.cpp:339-359 | Deleting a lane keeps it |
| `Deletion.WithoutTrackConsistentIff` | engine/src/model/project.cpp:372-418 | In any project that the integrity check accepts, deleting a track other than the master keeps integrity if and only if the master does not come to that track when outputs are followed |
| `Deletion.OneRoot` | engine/src/model/invariants.cpp:147-180 | With the master a root, one root means that every other track has an output |
| `Deletion.MasterMustBeRoot` | engine/src/model/project.cpp:372-418 | A concrete project that the checker accepts, with a master that feeds another track: deleting that track breaks integrity, so the extra condition is needed |
| `LaneGroups.GroupCycleInAProject` | engine/src/model/invariants.cpp:66-83 | A concrete project with two lanes that group each other, which the integrity check accepts |
| `LaneGroups.GroupCycleAccepted` | engine/src/model/invariants.cpp:66-83 | Any consistent project without clips stays accepted with those lanes |
| `LaneGroups.GroupingKeepsAcyclicIff` | engine/src/model/invariants.cpp:66-83 | Setting the group of a lane keeps groups acyclic if and only if the walk from the new group does not come to the lane |
| `LaneGroups.DeletingKeepsAcyclic` | engine/src/model/project.cpp:339-359 | Deleting a lane keeps them acyclic |
| `HistoryLaws.UndoInsideTransaction` | engine/src/model/command.cpp:35-48 | Undoing inside a transaction that is then aborted leaves an empty history and other contents, so undo must wait |
| `Factories.ReorderInstrument` | engine/src/model/commands.cpp:700-727 | One edit per order that changes, in any order of visiting, amounts to renumbering; the command is built for the current contents, so it undoes exactly |
| `Factories.ReorderKeepsNumbering` | engine/src/model/commands.cpp:700-727 | Orders stay a numbering, the instrument lands where it was sent, and no two others change sides |
| `Factories.SplitClip` | engine/src/model/commands.cpp:954-1012 | Cutting a clip of any kind strictly inside applies as one command built for the current contents, and gives the two parts with their windows, curves and sources; a cut on an edge is none |
| `Factories.CutMeans` | engine/src/model/commands.cpp:954-1012 | After a cut both parts are as the clip was but for start, length and source; sources stay the same pattern, curve or file, and an audio window begins in the second part where the share that the first part takes ends |
| `Factories.CutPlaysTheSame` | engine/src/model/commands.cpp:983-992 | After cutting an automation clip the project plays the same notes, parameter points and audio, to the same end |
| `Factories.CutAudioIff` | engine/src/model/commands.cpp:969-1004 | A cut audio clip is heard, at every moment and for a file of any length, as the whole was, if and only if the clip is not stretched, plays forwards from within the file and its window reaches past the cut or as far as the file; or the file is over by the cut |
| `Factories.StretchedCutIsHeard` | engine/src/model/commands.cpp:969-1004 | A concrete stretched clip whose cut is heard: its first part keeps the whole window |
| `Factories.CutPatternIff` | engine/src/model/commands.cpp:954-1012 | A note of a cut pattern clip occurs as in the whole if and only if no occurrence is held across the cut, and the cut is a whole number of patterns into a looping clip or no onset, of the whole or of the part that starts over, comes after it |
| `Factories.LoopingCutIsHeard` | engine/src/model/commands.cpp:954-1012 | A concrete looping clip cut inside a pass: its second part plays a note where the whole did not |
| `Integrity.CheckReferentialIntegrity` | engine/src/model/invariants.cpp:18-183 | What the checker reports is exactly what is wrong, violation by violation, and it reports nothing if and only if the tables are consistent |
| `Integrity.NothingBrokenIff` | engine/src/model/invariants.cpp:26-180 | The tables are consistent if and only if none of the twenty-two violations is the case |
| `Integrity.CheckLanes` | engine/src/model/invariants.cpp:66-81 | A shared order is laid on every lane but the first that has it, a group on the lane that names itself or one that is missing |
| `Integrity.CheckClip` | engine/src/model/invariants.cpp:83-131 | Of a clip exactly what is wrong is reported: lane, span, and what its kind of source refers to |
| `Integrity.WalkToMaster` | engine/src/model/invariants.cpp:161-174 | The walk with its growing set of seen tracks reports a cycle if and only if the outputs from there never end |
| `Routing.AcyclicIffEnds` | engine/src/model/invariants.cpp:161-174 | No track feeds itself through others if and only if every walk along outputs ends |
| `NoteSequences.EditSequence` | engine/src/model/commands.cpp:478-536 | The whole-sequence fast path and the counted-removal path give the same bag of notes, sorted, and fail in the same cases |
| `NoteSequences.NoteSequence.Insert` | engine/src/model/note_sequence.h:72-77 | Inserts after every note it does not come before, and stays sorted |
| `NoteSequences.NoteSequence.EraseAt` | engine/src/model/note_sequence.h:79-81 | Removes the note at an index, and stays sorted |
| `NoteSequences.NoteSequence.Erase` | engine/src/model/note_sequence.h:85-95 | Removes one equal note if there is one, whatever ties with it |
| `NoteSequences.NoteSequence.AssignSorted` | engine/src/model/note_sequence.h:102-107 | Any vector becomes its stable sort |
| `NoteSequences.NoteSequence.StartingIn` | engine/src/model/note_sequence.h:115-124 | Two binary searches give exactly the notes whose onset lies in the half-open range, in order |
| `NoteSequences.NoteSequence.ContentEnd` | engine/src/model/note_sequence.h:127-131 | The latest end of any note, or zero |
| `MixerGraphs.MixerGraph.Finalise` | engine/src/core/mixer_graph.cpp:14-69 | Terminates and accepts exactly the routings that are acyclic and have a node without output; the order is then a permutation with every node before the one it feeds |
| `MixerGraphs.Visit` | engine/src/core/mixer_graph.cpp:37-65 | The depth-first worklist marks all it can reach, or has found a cycle |
| `MixerGraphs.MixerGraph.IndexOf` | engine/src/core/mixer_graph.cpp:7-12 | The first index with the identifier, or -1 |
| `MixerSync.MixerSlot.Apply` | engine/src/core/engine.cpp:1372-1456 | The levels are taken over, clamped; a graph of unchanged shape stays the very same graph; otherwise one is resolved by identifier and published only when it is accepted. What is published is always the graph of what was last taken over |
| `MixerSync.KeptIsRebuilt` | engine/src/core/engine.cpp:1375-1403 | A graph that is kept because the shape is the same is the graph that would be built |
| `MixerSync.LevelsMean` | engine/src/core/engine.cpp:1393-1398 | Gain is kept between 0 and 2 and pan between -1 and 1, unchanged within and at the bound beyond |
| `MixerSync.UnknownOutputFeedsDevice` | engine/src/core/engine.cpp:1408-1417 | A track feeds the device if and only if it names no output or one that is not in the list; otherwise it feeds the track it names |
| `MixerSync.IntegrityMeansAccepted` | engine/src/core/engine.cpp:1405-1454 | What passes the referential integrity check with at most 64 tracks is accepted by the mixer, and its master is the one track without an output |
| `Mixers.ProjectIsAcceptable` | engine/src/core/engine.cpp:1405-1454 | The tracks of a project that passes the integrity check are never refused |
| `Mixers.RootsFeedDevice` | engine/src/core/engine.cpp:1405-1417 | In the graph of a project that passes the integrity check, the tracks that feed the device are those without an output |
| `Mixers.Sync` | engine/src/core/engine.cpp:1372-1456 | After such tracks are taken over the mixer has their graph and their levels, whatever it was before |
| `MixerRender.RenderMixer` | engine/src/core/engine.cpp:589-687 | The in-place loop in render order adds to the device exactly the levelled signals of the tracks without output, each the tree value of its chain over its input and what feeds it |
| `MixerMeanings.StripMeans` | engine/src/core/engine.cpp:662-668 | A strip gives silence while muted; otherwise each side times the gain, the side away from the pan less the share of the pan |
| `MixerMeanings.PanMeans` | engine/src/core/engine.cpp:666-667 | In the centre both sides get the gain; at either end the far side alone is silent |
| `MixerMeanings.MutedIsUnheard` | engine/src/core/engine.cpp:662-684 | While a track is muted, the device and the signals of all other tracks are the same whatever its input and its inserts give |
| `MixerMeanings.ChainMeans` | engine/src/core/engine.cpp:609-660 | A chain runs its inserts first to last, each on what the one before it left, and passes over those not hosted |
| `MixerMeanings.FeedOne` | engine/src/core/engine.cpp:670-684 | Where one track alone feeds another, what is added is that track at its strip, frame by frame |
| `MixerMeanings.DeviceMeans` | engine/src/core/engine.cpp:673-684 | Where one track alone feeds the device, each frame of it gains that track at its strip; a device of one channel gets the left side |
| `MixerRender.OneEvaluation` | engine/src/core/engine.cpp:605-684 | An acyclic routing has one evaluation, so the loop has one possible result |
| `MixerRender.EachChainOnce` | engine/src/core/engine.cpp:605-660 | Each hosted insert of each track is processed exactly once, muted tracks included |
| `Mixers.RenderPublished` | engine/src/core/engine.cpp:589-687 | What is rendered is the evaluation of the graph last taken over, at the levels in force; before any, nothing |
| `TimeMaps.TicksOrder` | engine/src/core/time_map.h:51-59 | Later ticks are no earlier in frames, and strictly later when a tick lasts at least one frame |
| `TimeMaps.UsualRatesSuffice` | engine/src/core/time_map.h:35-46 | At 15984 Hz and above a tick lasts a frame at every tempo the clamp allows |
| `TimeMaps.FramesRoundTrip` | engine/src/core/time_map.h:53-59 | A frame in beats and back is the same frame |
| `TimeMaps.ClampTempo` | engine/src/core/time_map.h:35-40 | Every tempo lands in 20..999, and those already there stay |
| `Occurrences.CollectOccurrences` | engine/src/model/flattener.cpp:80-106 | The loop lists exactly the intervals at which the note sounds in the clip, in order of time |
| `Occurrences.LoopingOnsets` | engine/src/model/flattener.cpp:97-105 | A looping clip sounds the note at t if and only if t lies in the clip and (window + t) mod length is the note start |
| `Occurrences.OccurrencesKeepTheSeam` | engine/src/model/flattener.cpp:80-106 | Occurrences are not empty, lie in the clip, never cross a pattern seam and do not overlap; without looping there is one unwrapped pass |
| `Occurrences.SwingKeepsOrder` | engine/src/model/flattener.cpp:47-54 | Swing delays by at most half a step and keeps grid positions in order |
| `Overlaps.ResolveOverlaps` | engine/src/model/flattener.cpp:114-134 | The in-place sort, cut and erase leave exactly the notes that should sound, in order |
| `Overlaps.LastNotePriority` | engine/src/model/flattener.cpp:108-134 | A tick of a voice sounds if and only if some note at the latest onset up to that tick covers it |
| `Overlaps.OnsetsKept` | engine/src/model/flattener.cpp:114-134 | The onsets that sound are the onsets there were |
| `Overlaps.SoundsApart` | engine/src/model/flattener.cpp:114-134 | What sounds of one voice is disjoint, and an onset has one length |
| `Overlaps.ResolvesSame` | engine/src/model/flattener.cpp:114-134 | What sounds depends only on which notes there are, not on their order |
| `LaneMoves.MovePlacesTheSame` | engine/src/model/flattener.cpp:219-274 | Moving a clip to another audible lane leaves every placed note |
| `Addressing.AssignAddresses` | engine/src/model/flattener.cpp:166-187 | The three loops number instruments by identifier, then audio clips by theirs, and inserts by track and place in the chain |
| `Addressing.OneNumbering` | engine/src/model/flattener.cpp:166-187 | The numbering is a function of the project |
| `Addressing.AddressesApart` | engine/src/model/flattener.cpp:166-187 | No two instruments, audio clips or inserts share an index, and instruments come before audio clips |
| `Addressing.AddressesAscend` | engine/src/model/flattener.cpp:166-178 | Indices ascend with identifiers and are the first so many numbers, audio clips after instruments |
| `Addressing.InsertsAscend` | engine/src/model/flattener.cpp:179-187 | Inserts are numbered by track, and within a chain in its order |
| `LaneMoves.MoveAddressesTheSame` | engine/src/model/flattener.cpp:166-187 | Every channel, insert and audio clip keeps its address |
| `LaneMoves.MoveSoundsTheSame` | engine/src/model/flattener.cpp:161-392 | The schedules compiled before and after the move, each with its own numbering, have the same numbering and the same note events |
| `Flattener.Gather` | engine/src/model/flattener.cpp:219-345 | The walk over audible lanes and their clips gathers exactly the notes, parameters, effect parameters and audio that the project places, and the end of the song |
| `Flattener.AudibleLanes` | engine/src/model/flattener.cpp:58-76 | The lanes that are heard: not muted, and soloed if any is |
| `Flattener.PlaceNote` | engine/src/model/flattener.cpp:252-274 | Every occurrence of a note, gated, swung and cut, becomes exactly one resolved note; PlacementMeanings.PlacedMeans says which that is |
| `PlacementMeanings.PlacedMeans` | engine/src/model/flattener.cpp:241-274 | A resolved note is placed if and only if its key is in range, its strength is the velocity times the tracking, and the note, swung, shifted and gated, occurs there in the clip; said in the numbers of the note alone |
| `PlacementMeanings.StrengthMeans` | engine/src/model/flattener.cpp:269-270 | The strength times full velocity is the velocity times the tracking, cut to 0..1 |
| `PlacementMeanings.FullTracking` | engine/src/model/flattener.cpp:269-270 | At tracking 1.0 the strength times 16383 is the velocity |
| `PlacementMeanings.LouderIsLouder` | engine/src/model/flattener.cpp:269-270 | A note written louder is never played quieter |
| `PlacementMeanings.SwingMeans` | engine/src/model/flattener.cpp:47-53 | Odd sixteenths on the grid are delayed by that share of half a step which the swing is, in whole ticks; no other note is |
| `PlacementMeanings.GateMeans` | engine/src/model/flattener.cpp:259-261 | The gate scales the length to the nearest tick, and to one tick at least |
| `PlacementMeanings.OccursMeans` | engine/src/model/flattener.cpp:80-105 | A note occurs once, counted from the window, or as often as the pattern goes round in a looping clip, up to its own end, the end of the pattern or that of the clip |
| `ScheduleMeanings.NoteEventMeans` | engine/src/model/flattener.cpp:343-356 | Every note event of the schedule is the on, at its strength, or the off of a note of an audible clip, the longest of its onset, up to where it is cut |
| `ScheduleMeanings.OtherEventMeans` | engine/src/model/flattener.cpp:357-383 | All other events are exactly the points of audible curves inside their clips, each with its value, parameter and index, and the starts of audible audio clips |
| `ScheduleMeanings.EventsInOrder` | engine/src/core/schedule.cpp:11-17 | Events come by frame; of one frame insert settings come first, then audio starts, instrument settings, releases and notes |
| `ScheduleMeanings.LaterPointLater` | engine/src/model/flattener.cpp:357-364 | Of two instrument settings in one frame, the one later on the timeline comes later |
| `PlacementMeanings.TicksMean` | engine/src/core/time_map.h:51-59 | Ticks become the frame nearest to them at 960 ticks for 60 / tempo seconds |
| `Schedules.ScheduleBuilder.Build` | engine/src/core/schedule.cpp:7-24 | A stable sort, off before on in a frame; the length covers every event when none was set |
| `Schedules.Schedule.LowerBound` | engine/src/core/schedule.h:68-83 | The binary search finds the first event at or after the frame |
| `Schedules.ScheduleAlternatesIff` | engine/src/core/schedule.cpp:7-24 | From resolved notes to the sorted schedule, among any other events, a voice alternates on and off if and only if no two of its onsets round to one frame; then its events are those of its notes, in order |
| `Schedules.LongTicksAlternate` | engine/src/core/schedule.cpp:7-24 | With at least one frame per tick every voice alternates, from on to off |
| `Schedules.ShortTicksCollide` | engine/src/core/time_map.h:57-59 | A concrete rate and tempo at which two ticks share a frame, so the bound is needed |
| `Flattening.Flatten` | engine/src/model/flattener.cpp:161-392 | The whole compiler, loops and builder and all, yields what its specification describes |
| `Flattening.FlattenedAlternates` | engine/src/model/flattener.cpp:161-392 | Every voice of a flattened project alternates on, off, on, off, beginning with on and ending with off, when a tick lasts a frame |
| `Flattening.FlattenedFits` | engine/src/model/flattener.cpp:345-383 | No event lies beyond the length of the schedule, when a tick lasts a frame |
| `Flattening.FlattenedFitsIff` | engine/src/model/flattener.cpp:345-383 | At every rate and tempo: that is so if and only if every placed note starts in an earlier frame than the song ends in, or the length is taken from the events |
| `Flattening.ShortNoteOverruns` | engine/src/model/flattener.cpp:349-356 | A concrete rate, tempo and note whose release lies beyond the length |
| `Flattening.FlattenedNotes` | engine/src/model/flattener.cpp:219-356 | The note events are those of what should sound, and nothing else: for each voice and onset the longest note placed there, up to its end or the next onset |
| `EventLists.EventList.SortByTime` | engine/src/plugin/event.h:366-390 | The in-place insertion sort is the stable sort by time |
| `EventLists.EventList.Push` | engine/src/plugin/event.h:338-346 | Appends, or counts an overflow and changes nothing else |
| `Transports.Transport.FramesUntilLoopWrap` | engine/src/core/transport.h:73-85 | Never past the loop end, up to it when the block is longer, and nothing at or beyond it |
| `Transports.Transport.SetTempo` | engine/src/core/transport.h:51-56 | The musical position is kept to half a frame, and exactly when the tempo does not change |
| `Transports.Transport.SetLoop` | engine/src/core/transport.h:63-69 | A region that is empty or begins before zero is ignored; the switch is not |
| `Engines.Engine.RenderChannel` | engine/src/core/engine.cpp:713-800 | One channel gets exactly its release, its own events of the chunk and the commands meant for it, stably sorted by time; the lemmas of EngineMeanings say which those are |
| `EngineMeanings.HandedCommands` | engine/src/core/engine.cpp:735-753 | With no schedule and nothing pending, a channel is handed the releases of all, in order, and the audition channel also every command that is no preview, as far as the list holds them |
| `EngineMeanings.CommandsFor` | engine/src/core/engine.cpp:740-753 | The same of the commands addressed to the audition channel and to any other |
| `EngineMeanings.NotForOthers` | engine/src/core/engine.cpp:740-753 | No channel gets a preview that is no release, and none but the audition channel a command that is no release |
| `EngineMeanings.MessagesMean` | engine/src/core/engine.cpp:762-805 | A channel gets a message if and only if an event of its own in the chunk calls for it: note, audio start, parameter or modulation, at its frame from the start of the chunk |
| `EngineMeanings.MessagesInOrder` | engine/src/core/engine.cpp:762-805 | The messages come in the order of the events |
| `EngineMeanings.ScanMeans` | engine/src/core/engine.cpp:762-805 | Playing delivers each event once, at the output frame that falls to it |
| `EngineMeanings.LeadMeans` | engine/src/core/engine.cpp:720-733 | A release for the reset and one for the seam come before the commands |
| `EngineMeanings.DeliveredAt` | engine/src/core/engine.cpp:713-718 | A message of a list goes out at its time from where the chunk lies in the output |
| `EngineMeanings.OnlyActive` | engine/src/core/engine.cpp:560-585 | A channel that takes no part hears nothing and keeps its reset; one that does has it done with after the chunk |
| `Engines.Engine.ProcessChunk` | engine/src/core/engine.cpp:511-582 | Every active channel gets a pending release once, and then it is done with; of what a chunk brings a channel, it hears as much as the list holds |
| `Engines.Engine.RunSchedule` | engine/src/core/engine.cpp:931-969 | A block cut at loop seams delivers to every channel the chunks of frame-by-frame playing, each as far as its list holds it, and leaves the position that playing leaves; after eight empty turns the rest is silent |
| `Engines.Engine.Process` | engine/src/core/engine.cpp:427-509 | The same for a callback; while stopped only commands and releases are delivered |
| `Engines.RoomyIsExact` | engine/src/core/engine.cpp:931-969 | With lists that hold what is due, that is what frame-by-frame playing delivers |
| `Capacity.CappedIsPlayIff` | engine/src/plugin/event.h:338-346 | A channel hears exactly what frame-by-frame playing delivers if and only if every chunk fits its list |
| `Capacity.ExactBeforeLoss` | engine/src/plugin/event.h:338-346 | However small the list, up to the first event that does not fit nothing is lost and nothing added |
| `Playback.BlocksSplit` | engine/src/core/engine.cpp:931-969 | Playing n and then m frames delivers the stream that playing n + m delivers: the same events at the same output frames |
| `Playback.PlayChunk` | engine/src/core/engine.cpp:729-797 | A chunk that ends no later than the seam delivers what its frames deliver one by one |
| `Playback.OnePass` | engine/src/core/engine.cpp:931-969 | From the seam, one pass is the release first and then each event of the region once, in order; then it is the seam again |
| `Playback.PassesRepeat` | engine/src/core/engine.cpp:931-969 | Every pass delivers the same, shifted by the loop length |
| `Playback.StaysInside` | engine/src/core/transport.h:73-85 | In a loop with frames in it, every block ends below the loop end |
| `Voicing.FlattenedPlaysClean` | engine/src/model/flattener.cpp:161-392 | End to end: an instrument fed a flattened schedule from silence never starts a key that already sounds, whatever the loop and however long it plays; past the end without a loop it is silent |
| `JsonRoundTrip.FileRoundTrip` | engine/src/model/json.cpp:32-651 | What is written is read back if and only if it nests no deeper than 64 and each of its reals fits the 64-byte buffer it is formatted in; it is then the value written with its reals kept to six decimals; for any hoisted keys and both array layouts |
| `JsonRoundTrip.FixedPointRoundTrip` | engine/src/model/json.cpp:638-688 | The value itself comes back if and only if, besides, its reals are whole millionths; integers and reals stay apart |
| `JsonRoundTrip.RewritingIsStable` | engine/src/model/json.cpp:404-651 | Reading a canonical file and writing it again gives the same bytes, whenever the file can be read: exactly under those two conditions |
| `JsonRoundTrip.LongRealIsLost` | engine/src/model/json.cpp:638-642 | A file with ten to the sixtieth anywhere in it cannot be read back |
| `JsonRoundTrip.StringReadsBack` | engine/src/model/json.cpp:653-679 | Every byte string survives escaping, control characters and quotes and all |
| `JsonNumbers.IntReadsBack` | engine/src/model/json.cpp:293-342 | Every 64-bit integer is read back as itself and as an integer |
| `JsonNumbers.ShortRealIff` | engine/src/model/json.cpp:638-642 | A real fits the buffer if and only if, as far as six decimals tell, it lies between minus ten to the 55th and ten to the 56th |
| `JsonNumbers.RealReadsBack` | engine/src/model/json.cpp:638-651 | Every real that fits the buffer is read back as what six decimals keep, and as a real |
| `JsonNumbers.LongRealStops` | engine/src/model/json.cpp:638-642 | Of one that does not fit, nothing after the zero byte is read |
| `Json.RoundedIsFixedPoint` | engine/src/model/json.cpp:638-651 | Keeping six decimals once is enough |
| `JsonParser.Parse` | engine/src/model/json.cpp:36-51 | The parser over position, line and column, which ends because it advances, accepts exactly the files of the reading functions and gives their value, which JsonSyntax.ReadsIff ties to the productions of RFC 8259. A failure is reported on the line where reading stops, by those functions; its column is right if and only if no high-surrogate escape on that line before it is followed by an escape that is no low one, and otherwise six too many for each |
| `JsonSyntax.ReadsIff` | engine/src/model/json.cpp:36-342 | A text is read if and only if it is the text of a syntax tree of RFC 8259, nested 64 deep at most, with space and perhaps a byte order mark around it; what is read is what the tree stands for |
| `JsonSyntax.OneMeaning` | engine/src/model/json.cpp:36-342 | However a text is taken apart, it stands for one value |
| `JsonPieces.StringReads` | engine/src/model/json.cpp:170-290 | A string made of plain characters, letter escapes, code points and surrogate pairs is read as the bytes of each |
| `JsonPieces.PiecesOf` | engine/src/model/json.cpp:170-290 | Every string that is read is made of such pieces, and two halves of a pair in a row are read as the pair |
| `JsonMeanings.LetterReads` | engine/src/model/json.cpp:186-215 | Each of the eight letter escapes is read as its byte, and no other character but u may follow a backslash |
| `JsonMeanings.FourOrNone` | engine/src/model/json.cpp:248-272 | Four hex digits of either case are a code, and nothing else is |
| `JsonMeanings.FourMean` | engine/src/model/json.cpp:248-272 | Their value counts the first digit most |
| `JsonMeanings.Utf8Means` | engine/src/model/json.cpp:274-291 | A code point becomes its bytes of RFC 3629, as few as it takes |
| `JsonMeanings.PairReads` | engine/src/model/json.cpp:216-233 | Two escapes that are the halves of a pair are the one code point beyond 16 bits |
| `JsonMeanings.NumberScans` | engine/src/model/json.cpp:293-342 | A number is taken apart into sign, digits, fraction and exponent as it was spelled |
| `JsonMeanings.DecimalMeans` | engine/src/model/json.cpp:293-342 | Its value is its digits as one number, shifted by the places of the fraction and by the exponent |
| `JsonMeanings.DecimalReads` | engine/src/model/json.cpp:293-342 | A number with a point or an exponent is read as the real of that value, or refused when it has no digit where it needs one |
| `JsonMeanings.SpaceMeans` | engine/src/model/json.cpp:344-350 | Exactly four characters are skipped between tokens |
| `JsonMeanings.LastKeyCounts` | engine/src/model/json.cpp:92-137 | Of a key that comes twice the last value counts |
| `JsonPlaces.NoUnpairsIff` | engine/src/model/json.cpp:217-231 | The count of such escapes on the line of a place, as the parser comes by it, is zero if and only if there is none |
| `JsonPlaces.WrongColumn` | engine/src/model/json.cpp:217-231 | A concrete text of thirteen characters that cannot be read past column 14, for which the error says 20 |
| `JsonPlaces.OnePlace` | engine/src/model/json.h:95-97 | A line and a column belong to one place of a text |
| `JsonParser.Parser.ParseValue` | engine/src/model/json.cpp:53-81 | One value of any kind is read as the grammar reads it, or refused with an error |
| `JsonParser.Parser.ParseString` | engine/src/model/json.cpp:170-247 | A string is read as the grammar reads it, escapes and surrogate pairs included, always advancing |
| `JsonParser.Parser.ParseNumber` | engine/src/model/json.cpp:293-342 | A number is read as the grammar reads it: which texts are integers, which reals, which neither |
| `JsonWriter.WriteCanonical` | engine/src/model/json.cpp:404-535 | The appending writer yields the canonical file, or nothing when a number is not finite |
| `JsonLayout.ArrayLines` | engine/src/model/json.cpp:477-499 | An array takes a line for each element, two spaces deeper than its brackets, with commas after all but the last |
| `JsonLayout.ObjectLines` | engine/src/model/json.cpp:501-530 | So does an object for each key, escaped and followed by a colon and a space |
| `JsonLayout.OneLineMeans` | engine/src/model/json.cpp:385-400 | Only arrays of numbers, with one object at most at their end, stay on one line |
| `JsonLayout.EntriesInOrder` | engine/src/model/json.cpp:506-520 | Keys of the given order come first and in that order; the others ascend byte by byte |
| `JsonLayout.EscapedMeans` | engine/src/model/json.cpp:653-681 | Quotes and backslashes are escaped by a backslash, control characters by four small hex digits, all else goes through |
| `JsonMeanings.NearestMeans` | engine/src/model/json.cpp:638-650 | A real is written as the nearest number of millionths, the even one of two as near |
| `Seqlock.NeverTorn` | engine/src/core/engine.cpp:40-75 | In every interleaving of the writer and a reader, word by word, a read that succeeds returns one whole snapshot, completed during the read or the last before it; and fails before the first is complete |
| `Seqlock.QuietReadSucceeds` | engine/src/core/engine.cpp:52-75 | While the writer rests a read succeeds at once with the last snapshot |
| `Seqlock.RunKeeps` | engine/src/core/engine.cpp:40-75 | The invariant of every reachable state of writer, words and reader |
| `Resampler.SincResampler.Process` | engine/src/core/audio_export.cpp:244-257 | Whatever the blocks and the ratio were, all output is what one pass over all input gives, and it is all that can be finished, up to and including the call that erases more history than there is; exactly when a call does so |
| `Resampler.SincResampler.Flush` | engine/src/core/audio_export.cpp:259-263 | Flushing is processing seventeen frames of silence, with the same promises; a bypassed resampler adds none |
| `Resampler.SincResampler.Trim` | engine/src/core/audio_export.cpp:288-298 | Dropping history keeps every sample a later window needs, and erases more than there is exactly when the position has run past the input; at ratios up to 33 never |
| `Resampler.SameInputSameOutput` | engine/src/core/audio_export.cpp:244-286 | How the input is cut does not matter: the same input has the same output |
| `Resampler.OutputsStand` | engine/src/core/audio_export.cpp:265-286 | Finished output does not change when more input comes |
| `Resampler.SafeIff` | engine/src/core/audio_export.cpp:288-298 | What is dropped is there to drop, for every amount of input, if and only if at most 33 input frames are consumed per output frame |
| `ResamplerMeanings.ImpulseResponse` | engine/src/core/audio_export.cpp:271-286 | A single frame of input shows in each output by the weight of its distance from the place of the output, and in none from which it is more than sixteen frames away |
| `ResamplerMeanings.OutputMeans` | engine/src/core/audio_export.cpp:271-286 | An output is the cutoff times the weighed sum of the 32 frames around its place |
| `ResamplerMeanings.StillOpen` | engine/src/core/audio_export.cpp:265-270 | No output comes too soon or too late: it is complete with the sixteenth frame after its place, and while that is missing the next frame still changes it |
| `Stretchers.TimeStretch.Render` | engine/src/core/time_stretch.h:117-145 | The buffer machine writes exactly the next frames of the frame-by-frame stream to every output channel, leaves the state after them, and keeps every index in its buffer; unprepared, or asked for nothing, it changes nothing |
| `Stretchers.TimeStretch.ProduceHop` | engine/src/core/time_stretch.h:171-220 | The in-place overlap-add makes the hop and the tail that the specification makes |
| `Stretchers.TimeStretch.FindBest` | engine/src/core/time_stretch.h:171-192 | The search finds the offset that the function Best gives; StretchMeanings.BestMeans says which one that is |
| `StretchMeanings.BestMeans` | engine/src/core/time_stretch.h:171-190 | At the very start it is the nominal place; later it scores at least as well as the nominal place and each of the 65 around it, four apart, that fit, and if it is not the nominal one it is the first to score so well |
| `StretchMeanings.ChosenOnce` | engine/src/core/time_stretch.h:176-190 | Those conditions leave one choice |
| `StretchMeanings.ScoreMeans` | engine/src/core/time_stretch.h:159-167 | The score is the sum of products of every second frame of the tail with the source, on the first channel |
| `StretchMeanings.HopMeans` | engine/src/core/time_stretch.h:192-212 | A frame of a hop is what the grain before left there plus the first half of the new grain, each shaped by the window |
| `StretchMeanings.HeadMoves` | engine/src/core/time_stretch.h:215-221 | The read head moves by the hop times the ratio, wherever the search landed, and the source is used up when no grain is left in it |
| `StretchMeanings.HopComesWhole` | engine/src/core/time_stretch.h:100-145 | With nothing left over, the next 256 frames are those of one hop in order, and then the next hop is due |
| `Stretchers.TimeStretch.Prepare` | engine/src/core/time_stretch.cpp:12-28 | Keeps one or two channels and starts from silence |
| `Stretchers.TimeStretch.SetReadPosition` | engine/src/core/time_stretch.h:105-108 | Moves the head and no more: what is ready and the tail stay |
| `TimeStretches.RenderSplit` | engine/src/core/time_stretch.h:117-145 | At a constant ratio, rendering n and then m frames is rendering n + m, in frames and in the state left |
| `TimeStretches.TotalFrames` | engine/src/core/time_stretch.h:211-220 | A source that is not empty yields 256 k frames and no more, for the least k of at least 1 with 256 k ratio + 512 at or past its length |
| `TimeStretches.LastHopExists` | engine/src/core/time_stretch.h:211-220 | At every positive ratio there is such a k |
| `SourceWindows.ReadsMirror` | engine/src/core/time_stretch.h:60-82 | Reading a reversed window at any position from its first to its last frame is reading it forwards at the mirror image, between frames too |
| `SourceWindows.FramesMirror` | engine/src/core/time_stretch.h:60-67 | Reversal reflects the window onto itself |
| `SourceWindows.OnlyTheWindow` | engine/src/core/time_stretch.h:60-82 | What lies outside the window in the file changes no read |
| `SourceWindows.ReadsFrames` | engine/src/core/time_stretch.h:60-82 | At a whole offset a read gives the frame there, forwards or backwards, and in between the line from one frame to the next |
| `AudioFormats.FileReads` | engine/src/core/audio_export.cpp:85-216 | A closed file is read back by the formats alone, as its rate and its quantised samples, if and only if its sizes and byte rate fit 32 bits; otherwise it is refused |
| `AudioFormats.OuterSize` | engine/src/core/audio_export.cpp:178-216 | The outer size is the length of the file less eight if and only if it fits |
| `AudioBytes.SamplesRead` | engine/src/core/audio_export.cpp:19-29 | Every 24-bit sample survives both byte orders |
| `AudioBytes.RatesRead` | engine/src/core/audio_export.cpp:37-51 | Every positive whole rate is written normalised and is worth itself by section 3.3 of IEEE 754-1985 |
| `AudioBytes.Quantised` | engine/src/core/audio_export.cpp:53-57 | Quantising is within half a step, clips at full scale, is odd, and keeps order |
| `AudioBytes.LittleReads` | engine/src/core/audio_export.cpp:19-23 | A little-endian field holds its value modulo its range |
| `AudioBytes.BigReads` | engine/src/core/audio_export.cpp:25-29 | A big-endian field likewise |
| `AudioFiles.AudioFileWriter.Open` | engine/src/core/audio_export.cpp:85-147 | Refuses a second file and a rate that is not positive; otherwise writes a header with placeholders |
| `AudioFiles.AudioFileWriter.Write` | engine/src/core/audio_export.cpp:149-176 | Appends exactly the quantised, interleaved samples of the block, to this file only |
| `AudioFiles.AudioFileWriter.Close` | engine/src/core/audio_export.cpp:178-216 | Patching the sizes in place makes the file the finished file of all that was written; its path is kept |
| `AudioFiles.AudioFileWriter.Abandon` | engine/src/core/audio_export.cpp:218-228 | Deletes the file of the path, a closed one too, and leaves every other one; the disk is spared if and only if no file was opened since the last time |
| `AudioFiles.Export` | engine/src/core/audio_export.cpp:304-400 | From opening over any blocks to closing: the file on disk reads back as all the samples in order, exactly when it fits, and no other file is touched |
| `AudioFiles.ExportAndAbandon` | engine/src/core/audio_export.cpp:178-228 | Opened, written, closed and then abandoned, the finished file is gone and nothing else is |
| `AudioFiles.QuantiseJoin` | engine/src/core/audio_export.cpp:149-176 | How a stream is cut into writes makes no difference |
| `NoteGrids.SnapNearest` | engine/src/model/note_edit.cpp:90-109 | Away from saturation a tick snaps to the one nearest grid point, the later of two |
| `NoteGrids.SnapFixed` | engine/src/model/note_edit.cpp:90-109 | Exactly the grid points stay, and snapping twice is snapping once |
| `NoteGrids.SnapMonotone` | engine/src/model/note_edit.cpp:90-109 | Snapping keeps order |
| `NoteGrids.SnapIs` | engine/src/model/note_edit.cpp:90-109 | What snapping gives for every 64-bit tick and grid, saturated or not |
| `NoteGrids.UsuallySnappable` | engine/src/model/note_edit.cpp:90-109 | From the origin of the grid on, only the last half space before the largest tick saturates |
| `NoteGrids.Saturates` | engine/src/model/note_edit.cpp:15-33 | The guarded sums are the true ones clamped to 64 bits, and their guards do not overflow |
| `NoteGrids.StepOnsets` | engine/src/model/note_edit.cpp:39-50 | A step has an onset if and only if its tick exists and is not negative |
| `NoteEdits.Move` | engine/src/model/note_edit.cpp:65-86 | The loops move the selection as a group, by the time of its earliest note and the bounded interval |
| `NoteEdits.MovesAsOne` | engine/src/model/note_edit.cpp:145-150 | A move is refused, or shifts every note by the same time and interval; it is refused exactly when a note is missing or would end beyond the last tick |
| `NoteEdits.ShiftedMeans` | engine/src/model/note_edit.cpp:65-86 | A moved note is as long and as loud as it was |
| `NoteEdits.WhereItMoves` | engine/src/model/note_edit.cpp:65-86 | Nothing starts before zero; without a grid the selection moves as asked if it can, and with one its earliest note lands on the nearest point |
| `NoteEdits.Resize` | engine/src/model/note_edit.cpp:152-162 | The loop stretches or shortens every note of the selection by the same time, each by its own rule |
| `NoteEdits.BoundedTranspose` | engine/src/model/note_edit.cpp:52-63 | The interval nearest to the one asked for that keeps every key in 0..127 |
| `NoteEdits.ResizedIsValid` | engine/src/model/note_edit.cpp:152-162 | A resized note is always valid, keeps its start, key and velocity, and ends on the grid or lasts one tick |
| `NoteEdits.QuantisedTowards` | engine/src/model/note_edit.cpp:184-198 | Quantising moves a note towards its grid point and no further, all the way at full strength |
| `NoteEdits.QuantisedMeans` | engine/src/model/note_edit.cpp:184-198 | A quantised note moves by the nearest whole part of the way to its grid point that the strength is, to zero at least, and is otherwise as it was |
| `NoteEdits.QuantiseKeepsOrder` | engine/src/model/note_edit.cpp:184-198 | Notes quantised together keep their order in time, rounding included |
| `StepCells.SelectNotesInRange` | engine/src/model/note_edit.cpp:111-121 | The loop that stops early selects exactly the notes that sound in the range on its keys, in order |
| `StepCells.InspectStep` | engine/src/model/note_edit.cpp:212-224 | A cell shows exactly the notes of its key on its onset, and those that start inside it |
| `StepCells.CellMeans` | engine/src/model/note_edit.cpp:212-224 | The notes of a cell start at its onset, or after it and before the next one, on its key |
| `StepCells.ToggleStep` | engine/src/model/note_edit.cpp:226-240 | The command, or none, that the state of the step calls for |
| `StepCells.ToggleMeaning` | engine/src/model/note_edit.cpp:226-240 | Toggling removes all notes on the onset, or adds one; nothing else |
| `StepCells.OthersStay` | engine/src/model/note_edit.cpp:226-240 | Notes of other keys or off the onset are never added or removed |
| `StepCells.ToggleTwice` | engine/src/model/note_edit.cpp:226-240 | Toggling twice gives back the same notes if and only if the step was empty or held just the note it would get |

## Left out

- Floating point: samples, gains, tempi, positions and strengths are exact reals, and rounding to whole numbers is
  halves away from zero. JSON reals are exact, and what six decimals keep of them is part of the theorem.
- JsonNumbers: a text that overruns the 64-byte buffer is cut and followed by one zero byte; the stray bytes that the
  source may copy after it are not modelled, and the reader stops at the zero byte whatever they are.
- Integer width: ticks, frames and counters are unbounded except where the source itself guards or truncates them
  (note validity, saturating grid arithmetic, step onsets, 64-bit JSON integers, 32-bit file sizes).
- NoteSequences: the history model keeps notes as a multiset, so the order of notes that tie in start, key and length
  is not part of it; `NoteSequences` shows that the sorted vectors do the same.
- Project: change events, identifier generation, creation factories and impact reports are left out; identifiers are
  natural numbers with 0 unset, and loops over maps visit entries in any order.
- Commands: names and colours of commands are left out; automation of a pattern's own parameters is not checked for
  references, as in the source.
- Factories: of the functions that build commands only reordering and splitting are here.
- AudioCuts: time is a real number of ticks; that the last frame of a window is not played, and the rounding of windows
  to frames, are left out. PatternCuts is about one note, before swing.
- HistoryLaws: outside legal runs are undo and redo inside an open transaction, redo of an entry that is not redone
  exactly, and a fold of a tempo move onto an entry that recorded no clip lengths; each has its own lemma.
- Integrity.CheckReferentialIntegrity: does not look at the order of a sequence's notes, because the project keeps them
  as a multiset here; `NoteSequences` is about the sorted vectors. Violations are values rather than texts, and their
  order and how often one is repeated are left out.
- Overlaps: the sort is unstable and ignores velocity, so which velocity survives among equal intervals is not stated.
- Flattener: the reserve estimate and the dirty-flag scheduler are left out; parameters with equal keys are taken in the
  order they were gathered.
- Flattening.Flatten: does not compute the hash of the events, the event count and the time taken, which nothing here
  depends on.
- Engines: tempo events in a schedule, metronome, clip windows, metering, hosted plug-in processing and the mixing of
  channel audio are left out.
- Engines.Engine.RenderChannel: does not model one-shot voices deferred to a later block and the preview voice, which
  depend on what has been decoded and on the file browser.
- MixerSync: creation of inserts and their failure are left out; a missing insert is a hole in the chain, which the
  renderer skips.
- MixerRender.RenderMixer: does not model the parameter events of inserts; an insert is any function of its bus.
- Seqlock: memory is sequentially consistent and the counter unbounded.
- Resampler: the two planes are one sequence of stereo frames, and the filter weight is any function.
- TimeStretches: the ratio is constant over a run; per call it may be any positive real. The window is any function.
- AudioFiles: disk failures, and the rendering, cancelling and device handling of an export, are left out.
- JsonParser: error messages are kinds rather than texts, and the decimal point of the locale is left out.
- NoteEdits: velocity edits and predicates given by a lasso are left out; selections hold valid notes, as sequences do.
- Publishing of graphs and schedules to the audio thread, reclamation, project loading, effects, plug-in hosting and
  the user interface are not part of this model.
