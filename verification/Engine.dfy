/**
 The event half of the renderer: blocks cut into chunks at loop seams, and for each chunk a list of events per
 channel, filled from the schedule and sorted in place. What each channel hears is what frame-by-frame
 playback brings it, however the frames are cut, as far as the lists hold it.
 */
module Engines {
  import opened StableSort
  import opened EventLists
  import Schedules
  import opened Transports
  import opened Playback
  import opened Capacity

  /** A rack channel: whether it takes part, and whether it was asked to fall silent on its own. */
  datatype Channel = Channel(active: bool, resetRequested: bool)

  /** Releases go to every channel; other commands to the audition channel, unless they are for the preview. */
  predicate Receives(command: PluginEvent, audition: bool) {
    (command.kind == NOTE_OFF && command.key == ANY_KEY) || (!command.preview && audition)
  }

  function Addressed(commands: seq<PluginEvent>, audition: bool): seq<PluginEvent> {
    Filter(commands, (c: PluginEvent) => Receives(c, audition))
  }

  /** The channel's events of a chunk, with times from the chunk's start. */
  function Messages(events: seq<Event>, channel: nat, from: int, to: int): seq<PluginEvent> {
    if events == [] then []
    else
      var e := events[|events| - 1];
      var rest := Messages(events[..|events| - 1], channel, from, to);
      if from <= e.frame < to && Told(e, channel) then rest + [Message(e, e.frame - from)] else rest
  }

  function EventsIn(schedule: Schedules.Schedule?): seq<Event> {
    if schedule == null then [] else schedule.events
  }

  ghost predicate Sound(schedule: Schedules.Schedule?) {
    schedule != null ==> Schedules.SortedByFrame(schedule.events)
  }

  predicate AtZero(commands: seq<PluginEvent>) {
    forall i | 0 <= i < |commands| :: commands[i].time == 0
  }

  // ----- the list of a chunk is sorted as it is filled ---------------------------------------

  lemma {:induction false} MessagesAscend(events: seq<Event>, channel: nat, from: int, to: int)
    requires Schedules.SortedByFrame(events)
    ensures SortedBy(Messages(events, channel, from, to), TimeBefore)
    ensures forall m | m in Messages(events, channel, from, to) ::
      events != [] && m.time <= events[|events| - 1].frame - from
  {
    if events != [] {
      var front, e := events[..|events| - 1], events[|events| - 1];
      MessagesAscend(front, channel, from, to);
      if from <= e.frame < to && Told(e, channel) {
        AppendSorted(Messages(front, channel, from, to), Message(e, e.frame - from), TimeBefore);
      }
    }
  }

  lemma {:induction false} LeadFirst(lead: seq<PluginEvent>, rest: seq<PluginEvent>)
    requires AtZero(lead) && SortedBy(rest, TimeBefore)
    ensures SortedBy(lead + rest, TimeBefore)
  {
  }

  lemma {:induction false} LeadAtZero(l: Listener)
    requires AtZero(l.commands)
    ensures AtZero(Lead(l))
  {
  }

  lemma AllAtConcat(out: int, a: seq<PluginEvent>, b: seq<PluginEvent>)
    ensures AllAt(out, a + b) == AllAt(out, a) + AllAt(out, b)
  {
  }

  lemma {:induction false} MessagesAreScan(events: seq<Event>, channel: nat, from: int, to: int, out: int)
    ensures AllAt(out, Messages(events, channel, from, to)) == Scan(events, channel, from, to, out)
  {
    if events != [] {
      var front, e := events[..|events| - 1], events[|events| - 1];
      MessagesAreScan(front, channel, from, to, out);
      if from <= e.frame < to && Told(e, channel) {
        AllAtConcat(out, Messages(front, channel, from, to), [Message(e, e.frame - from)]);
      }
    }
  }

  lemma {:induction false} AddressedAtZero(commands: seq<PluginEvent>, audition: bool)
    requires AtZero(commands)
    ensures AtZero(Addressed(commands, audition)) && |Addressed(commands, audition)| <= |commands|
  {
    if commands != [] {
      AddressedAtZero(commands[..|commands| - 1], audition);
    }
  }

  lemma {:induction false} DueInOrder(events: seq<Event>, channel: nat, l: Listener, to: int)
    requires Schedules.SortedByFrame(events) && AtZero(l.commands)
    ensures SortedBy(Lead(l) + Messages(events, channel, l.clock.position, to), TimeBefore)
  {
    MessagesAscend(events, channel, l.clock.position, to);
    LeadAtZero(l);
    LeadFirst(Lead(l), Messages(events, channel, l.clock.position, to));
  }

  /** As much of a chunk's list as there is room for, sorted, is the beginning of the chunk of the reference. */
  lemma {:induction false} ListIsFirst(events: seq<Event>, channel: nat, l: Listener, out: int, n: nat, capacity: nat)
    requires Schedules.SortedByFrame(events) && AtZero(l.commands)
    ensures AllAt(out, Sort(Fit(Lead(l) + Messages(events, channel, l.clock.position, l.clock.position + n), capacity),
                            TimeBefore))
            == First(Chunk(events, channel, l, out, n), capacity)
  {
    var due := Lead(l) + Messages(events, channel, l.clock.position, l.clock.position + n);
    DueInOrder(events, channel, l, l.clock.position + n);
    DueIsChunk(events, channel, l, out, n);
    SortedIsFixed(Fit(due, capacity), TimeBefore);
    FitIsFirst(out, due, capacity);
  }

  lemma {:induction false} FitIsFirst(out: int, due: seq<PluginEvent>, capacity: nat)
    ensures AllAt(out, Fit(due, capacity)) == First(AllAt(out, due), capacity)
  {
  }

  lemma {:induction false} DueIsChunk(events: seq<Event>, channel: nat, l: Listener, out: int, n: nat)
    ensures AllAt(out, Lead(l) + Messages(events, channel, l.clock.position, l.clock.position + n)) ==
            Chunk(events, channel, l, out, n)
  {
    AllAtConcat(out, Lead(l), Messages(events, channel, l.clock.position, l.clock.position + n));
    MessagesAreScan(events, channel, l.clock.position, l.clock.position + n, out);
  }

  // ----- scanning from the lower bound ----------------------------------------------------------

  lemma {:induction false} MessagesBelow(events: seq<Event>, channel: nat, from: int, to: int)
    requires forall i | 0 <= i < |events| :: events[i].frame < from
    ensures Messages(events, channel, from, to) == []
  {
    if events != [] {
      MessagesBelow(events[..|events| - 1], channel, from, to);
    }
  }

  lemma {:induction false} MessagesAbove(events: seq<Event>, channel: nat, from: int, to: int, k: nat)
    requires k <= |events| && forall i | k <= i < |events| :: to <= events[i].frame
    ensures Messages(events, channel, from, to) == Messages(events[..k], channel, from, to)
  {
    if k < |events| {
      MessagesAbove(events[..|events| - 1], channel, from, to, k);
      assert events[..|events| - 1][..k] == events[..k];
    } else {
      assert events[..k] == events;
    }
  }

  lemma {:induction false} MessagesNext(events: seq<Event>, channel: nat, from: int, to: int, k: nat)
    requires k < |events|
    ensures Messages(events[..k + 1], channel, from, to) ==
            if from <= events[k].frame < to && Told(events[k], channel)
            then Messages(events[..k], channel, from, to) + [Message(events[k], events[k].frame - from)]
            else Messages(events[..k], channel, from, to)
  {
    assert events[..k + 1][..k] == events[..k];
  }

  method PushOne(list: EventList, e: PluginEvent, ghost pushed: seq<PluginEvent>) returns (ghost more: seq<PluginEvent>)
    requires list.Valid() && list.Contents() == Fit(pushed, list.events.Length)
    modifies list, list.events
    ensures list.Valid() && more == pushed + [e] && list.Contents() == Fit(more, list.events.Length)
  {
    var ok := list.Push(e);
    more := pushed + [e];
  }

  method PushCommands(list: EventList, commands: seq<PluginEvent>, audition: bool, ghost pushed: seq<PluginEvent>)
    returns (ghost more: seq<PluginEvent>)
    requires list.Valid() && list.Contents() == Fit(pushed, list.events.Length)
    modifies list, list.events
    ensures list.Valid() && more == pushed + Addressed(commands, audition)
    ensures list.Contents() == Fit(more, list.events.Length)
  {
    more := pushed;
    for i := 0 to |commands|
      invariant list.Valid() && more == pushed + Addressed(commands[..i], audition)
      invariant list.Contents() == Fit(more, list.events.Length)
    {
      assert commands[..i + 1][..i] == commands[..i];
      if Receives(commands[i], audition) {
        more := PushOne(list, commands[i], more);
      }
    }
    assert commands[..|commands|] == commands;
  }

  /** From the first event of the chunk to its end, the events addressed to the channel. */
  method PushScheduled(list: EventList, schedule: Schedules.Schedule, channel: nat, start: int, n: nat,
                       ghost pushed: seq<PluginEvent>)
    returns (ghost more: seq<PluginEvent>)
    requires Schedules.SortedByFrame(schedule.events)
    requires list.Valid() && list.Contents() == Fit(pushed, list.events.Length)
    modifies list, list.events
    ensures list.Valid() && more == pushed + Messages(schedule.events, channel, start, start + n)
    ensures list.Contents() == Fit(more, list.events.Length)
  {
    more := pushed;
    var events := schedule.events;
    var cursor := schedule.LowerBound(start);
    ghost var scanned: seq<PluginEvent> := [];
    MessagesBelow(events[..cursor], channel, start, start + n);
    while cursor < |events| && events[cursor].frame < start + n
      invariant cursor <= |events| && forall i | cursor <= i < |events| :: start <= events[i].frame
      invariant scanned == Messages(events[..cursor], channel, start, start + n)
      invariant list.Valid() && more == pushed + scanned && list.Contents() == Fit(more, list.events.Length)
    {
      MessagesNext(events, channel, start, start + n, cursor);
      if Told(events[cursor], channel) {
        var e := Message(events[cursor], events[cursor].frame - start);
        Appended(pushed, scanned, e);
        more := PushOne(list, e, more);
        scanned := scanned + [e];
      }
      cursor := cursor + 1;
    }
    MessagesAbove(events, channel, start, start + n, cursor);
  }

  lemma Appended(a: seq<PluginEvent>, b: seq<PluginEvent>, e: PluginEvent)
    ensures a + b + [e] == a + (b + [e])
  {
  }

  /** The reset, the release and the commands, in that order. */
  method PushLead(list: EventList, reset: bool, release: bool, commands: seq<PluginEvent>, audition: bool,
                  ghost position: int)
    returns (ghost pushed: seq<PluginEvent>)
    requires list.Valid() && list.Contents() == []
    modifies list, list.events
    ensures list.Valid() && list.Contents() == Fit(pushed, list.events.Length)
    ensures pushed == Lead(Listener(Clock(position, release), reset, Addressed(commands, audition)))
  {
    pushed := [];
    if reset {
      pushed := PushOne(list, AllNotesOff(0), pushed);
    }
    if release {
      pushed := PushOne(list, AllNotesOff(0), pushed);
    }
    pushed := PushCommands(list, commands, audition, pushed);
  }

  method FillList(list: EventList, reset: bool, release: bool, commands: seq<PluginEvent>, audition: bool,
                  schedule: Schedules.Schedule?, channel: nat, start: int, n: nat)
    returns (ghost l: Listener)
    requires Sound(schedule) && list.Valid() && list.Contents() == []
    modifies list, list.events
    ensures list.Valid() && l == Listener(Clock(start, release), reset, Addressed(commands, audition))
    ensures list.Contents() ==
            Fit(Lead(l) + Messages(EventsIn(schedule), channel, start, start + n), list.events.Length)
  {
    l := Listener(Clock(start, release), reset, Addressed(commands, audition));
    ghost var pushed := PushLead(list, reset, release, commands, audition, start);
    if schedule != null {
      pushed := PushScheduled(list, schedule, channel, start, n, pushed);
    } else {
      assert Lead(l) + [] == Lead(l);
    }
  }

  /** Everything one channel is due in a chunk, in the order it is due, as far as the storage holds it. */
  function ChunkList(schedule: Schedules.Schedule?, channel: nat, l: Listener, n: nat, capacity: nat): seq<PluginEvent> {
    Sort(Fit(Lead(l) + Messages(EventsIn(schedule), channel, l.clock.position, l.clock.position + n), capacity),
         TimeBefore)
  }

  method ListFor(storage: array<PluginEvent>, reset: bool, release: bool, commands: seq<PluginEvent>, audition: bool,
                 schedule: Schedules.Schedule?, channel: nat, start: int, n: nat)
    returns (told: seq<PluginEvent>, ghost l: Listener)
    requires Sound(schedule)
    modifies storage
    ensures l == Listener(Clock(start, release), reset, Addressed(commands, audition))
    ensures told == ChunkList(schedule, channel, l, n, storage.Length)
  {
    var list := new EventList(storage);
    l := FillList(list, reset, release, commands, audition, schedule, channel, start, n);
    told := Sorted(list);
  }

  method Sorted(list: EventList) returns (told: seq<PluginEvent>)
    requires list.Valid()
    modifies list.events
    ensures told == Sort(old(list.Contents()), TimeBefore)
  {
    list.SortByTime();
    told := list.events[..list.count];
  }

  // ----- the engine ---------------------------------------------------------------------------

  /** No chunk of up to `n` frames, with its releases and commands, is too long for the list. */
  ghost predicate Roomy(events: seq<Event>, n: nat, commands: seq<PluginEvent>, capacity: nat) {
    forall channel: nat, from, to | from <= to <= from + n ::
      2 + |commands| + |Messages(events, channel, from, to)| <= capacity
  }

  class Engine {
    const transport: Transport
    const storage: array<PluginEvent>
    var pendingAllNotesOff: bool
    var channels: seq<Channel>
    var auditionChannel: int
    var heard: seq<seq<Delivery>>

    ghost predicate Valid()
      reads this, transport
    {
      transport.Valid() && |heard| == |channels|
    }

    constructor (transport: Transport, storage: array<PluginEvent>, channels: seq<Channel>)
      requires transport.Valid()
      ensures this.transport == transport && this.storage == storage && this.channels == channels
      ensures Valid() && !pendingAllNotesOff && auditionChannel == 0
    {
      this.transport, this.storage, this.channels := transport, storage, channels;
      pendingAllNotesOff, auditionChannel := false, 0;
      heard := seq(|channels|, _ => []);
    }

    function LoopNow(): Loop
      requires transport.Valid()
      reads transport
    {
      Loop(transport.loopEnabled, transport.LoopStartFrames(), transport.LoopEndFrames())
    }

    function Now(): Clock
      reads this, transport
    {
      Clock(transport.positionFrames, pendingAllNotesOff)
    }

    /** Fills the list of one channel for one chunk, sorts it, and hands it to the channel's instrument. */
    method RenderChannel(index: nat, offset: int, n: nat, schedule: Schedules.Schedule?, start: int,
                         commands: seq<PluginEvent>, releaseAll: bool)
      returns (ghost handed: seq<PluginEvent>)
      requires index < |channels| == |heard| && Sound(schedule)
      modifies `channels, `heard, storage
      ensures channels == old(channels)[index := old(channels)[index].(resetRequested := false)]
      ensures var l := Listener(Clock(start, releaseAll), old(channels)[index].resetRequested,
                                Addressed(commands, index == auditionChannel));
        handed == ChunkList(schedule, index, l, n, storage.Length)
      ensures heard == old(heard)[index := old(heard)[index] + AllAt(offset, handed)]
    {
      var reset := channels[index].resetRequested;
      channels := channels[index := channels[index].(resetRequested := false)];
      var told, l := ListFor(storage, reset, releaseAll, commands, index == auditionChannel, schedule, index, start, n);
      heard := heard[index := heard[index] + AllAt(offset, told)];
      handed := told;
    }

    /** One channel of a chunk: the channels that are not active hear nothing and keep their reset. */
    method RenderIfActive(index: nat, offset: int, n: nat, schedule: Schedules.Schedule?, start: int,
                          commands: seq<PluginEvent>, releaseAll: bool)
      requires index < |channels| == |heard| && Sound(schedule) && AtZero(commands)
      modifies `channels, `heard, storage
      ensures channels == old(channels)[index := AfterChunk(old(channels)[index])]
      ensures heard == old(heard)[index := HeardAfter(old(channels)[index], old(heard)[index], EventsIn(schedule), index,
                Clock(start, releaseAll), Addressed(commands, index == auditionChannel), offset, n, storage.Length)]
    {
      if channels[index].active {
        ghost var l := Listener(Clock(start, releaseAll), channels[index].resetRequested,
                                Addressed(commands, index == auditionChannel));
        ghost var told := RenderChannel(index, offset, n, schedule, start, commands, releaseAll);
        assert AllAt(offset, told) == First(Chunk(EventsIn(schedule), index, l, offset, n), storage.Length) by {
          AddressedAtZero(commands, index == auditionChannel);
          ListIsFirst(EventsIn(schedule), index, l, offset, n, storage.Length);
        }
      }
    }

    /** One chunk: the release, if one is due, goes to every active channel, and is then done with. */
    method ProcessChunk(offset: int, n: int, schedule: Schedules.Schedule?, start: int, commands: seq<PluginEvent>)
      requires Valid() && Sound(schedule) && AtZero(commands)
      modifies `pendingAllNotesOff, `channels, `heard, storage
      ensures Valid() && |channels| == old(|channels|)
      ensures n <= 0 ==>
        pendingAllNotesOff == old(pendingAllNotesOff) && channels == old(channels) && heard == old(heard)
      ensures 0 < n ==> !pendingAllNotesOff && channels == AllAfter(old(channels))
      ensures 0 < n ==>
        heard == HeardOf(old(channels), old(heard), EventsIn(schedule), Clock(start, old(pendingAllNotesOff)),
                         commands, auditionChannel, offset, n, storage.Length)
    {
      if n <= 0 {
        return;
      }
      var releaseAll := pendingAllNotesOff;
      pendingAllNotesOff := false;
      for index := 0 to |channels|
        invariant |channels| == |heard| == old(|channels|) && !pendingAllNotesOff
        invariant forall c: nat | index <= c < |channels| :: channels[c] == old(channels)[c] && heard[c] == old(heard)[c]
        invariant forall c: nat | c < index :: channels[c] == AfterChunk(old(channels)[c])
        invariant forall c: nat | c < index ::
          heard[c] == HeardAfter(old(channels)[c], old(heard)[c], EventsIn(schedule), c,
            Clock(start, releaseAll), Addressed(commands, c == auditionChannel), offset, n, storage.Length)
      {
        RenderIfActive(index, offset, n, schedule, start, commands, releaseAll);
      }
    }

    /** The end of the loop is reached: a release is due, and the loop start is next. */
    method WrapAround()
      requires Valid()
      modifies `pendingAllNotesOff, transport`positionFrames
      ensures Valid() && Now() == Clock(transport.LoopStartFrames(), true)
    {
      pendingAllNotesOff := true;
      transport.SeekFrames(transport.LoopStartFrames());
    }

    /** After a chunk: on, and round as soon as the loop end is reached. */
    method MoveOn(chunk: nat)
      requires Valid()
      modifies `pendingAllNotesOff, transport`positionFrames
      ensures Valid() && Now() == if Wraps(LoopNow(), old(transport.positionFrames) + chunk)
                                  then Clock(LoopNow().start, true)
                                  else Clock(old(transport.positionFrames) + chunk, old(pendingAllNotesOff))
    {
      transport.Advance(chunk);
      if transport.loopEnabled && transport.positionFrames >= transport.LoopEndFrames() {
        WrapAround();
      }
    }

    /** The transport's answer is the length of the next chunk; at the seam it is 0. */
    lemma {:induction false} UntilWrap(remaining: nat)
      requires Valid() && 0 < remaining
      ensures transport.FramesUntilLoopWrap(remaining) ==
              if Wraps(LoopNow(), transport.positionFrames) then 0 else ChunkLength(LoopNow(), Now(), remaining)
    {
    }

    /** A chunk that stops at the seam: what is left to be heard of the block stays what it was. */
    method RunChunk(offset: int, chunk: nat, ghost remaining: nat, schedule: Schedules.Schedule?,
                    commands: seq<PluginEvent>)
      requires Valid() && Sound(schedule) && AtZero(commands)
      requires 0 < remaining && !Wraps(LoopNow(), transport.positionFrames)
      requires chunk == ChunkLength(LoopNow(), Now(), remaining)
      modifies `pendingAllNotesOff, `channels, `heard, storage, transport`positionFrames
      ensures Valid() && channels == AllAfter(old(channels))
      ensures Onward(LoopNow(), Now(), remaining - chunk) == Onward(LoopNow(), old(Now()), remaining)
      ensures RestOf(channels, heard, EventsIn(schedule), LoopNow(), Now(), [], auditionChannel, offset + chunk,
                     remaining - chunk, storage.Length)
              == old(RestOf(channels, heard, EventsIn(schedule), LoopNow(), Now(), commands, auditionChannel, offset,
                            remaining, storage.Length))
    {
      RestAdvances(channels, heard, EventsIn(schedule), LoopNow(), Now(), commands, auditionChannel, offset, chunk,
                   remaining, storage.Length);
      ProcessChunk(offset, chunk, schedule, transport.positionFrames, commands);
      MoveOn(chunk);
    }

    /** At the seam: what is left to be heard is the same from the start of the loop. */
    method TurnRound(ghost offset: int, ghost remaining: nat, ghost schedule: Schedules.Schedule?,
                     ghost commands: seq<PluginEvent>)
      requires Valid() && 0 < remaining && Wraps(LoopNow(), transport.positionFrames)
      modifies `pendingAllNotesOff, transport`positionFrames
      ensures Valid() && Now() == Clock(LoopNow().start, true)
      ensures Onward(LoopNow(), Now(), remaining) == Onward(LoopNow(), old(Now()), remaining)
      ensures RestOf(channels, heard, EventsIn(schedule), LoopNow(), Now(), commands, auditionChannel, offset, remaining,
                     storage.Length)
              == old(RestOf(channels, heard, EventsIn(schedule), LoopNow(), Now(), commands, auditionChannel, offset,
                            remaining, storage.Length))
    {
      RestEnters(channels, heard, EventsIn(schedule), LoopNow(), Now(), commands, auditionChannel, offset, remaining,
                 storage.Length);
      WrapAround();
    }

    /** A block while playing: chunks up to the loop end, and round again. A loop region with no frames in it
        would turn on the spot for ever; after eight turns the rest of the block stays silent. */
    method RunSchedule(blockOffset: int, n: nat, schedule: Schedules.Schedule?, commands: seq<PluginEvent>)
      requires Valid() && Sound(schedule) && AtZero(commands)
      modifies `pendingAllNotesOff, `channels, `heard, storage, transport`positionFrames
      ensures Valid() && LoopNow() == old(LoopNow()) && |channels| == old(|channels|)
      ensures Now() == Onward(LoopNow(), old(Now()), n)
      ensures heard == old(RestOf(channels, heard, EventsIn(schedule), LoopNow(), Now(), commands, auditionChannel,
                                  blockOffset, n, storage.Length))
      ensures channels == if n == 0 || Stuck(LoopNow(), old(Now())) then old(channels) else AllAfter(old(channels))
    {
      ghost var events, loop, began := EventsIn(schedule), LoopNow(), Now();
      ghost var all := RestOf(channels, heard, events, loop, began, commands, auditionChannel, blockOffset, n,
                              storage.Length);
      ghost var was, after := channels, AllAfter(channels);
      AfterTwice(was);
      var remaining: nat := n;
      var offset := blockOffset;
      var wrapGuard := 0;
      var firstChunk := true;
      var given := commands;
      while remaining > 0
        invariant Valid() && LoopNow() == loop && remaining <= n
        invariant 0 <= wrapGuard <= 8 && (wrapGuard > 0 ==> Now() == Clock(loop.start, true))
        invariant Onward(loop, Now(), remaining) == Onward(loop, began, n)
        invariant firstChunk ==> channels == was && remaining == n
        invariant firstChunk ==> Now() == began || (Now() == Clock(loop.start, true) && Wraps(loop, began.position))
        invariant !firstChunk ==> 0 < n && !Stuck(loop, began) && channels == after
        invariant AtZero(given)
        invariant RestOf(channels, heard, events, loop, Now(), given, auditionChannel, offset, remaining,
                         storage.Length) == all
        decreases remaining, 8 - wrapGuard
      {
        var chunk := transport.FramesUntilLoopWrap(remaining);
        UntilWrap(remaining);
        if chunk <= 0 {
          TurnRound(offset, remaining, schedule, given);
          wrapGuard := wrapGuard + 1;
          if wrapGuard > 8 {
            break;
          }
          continue;
        }
        wrapGuard := 0;
        RunChunk(offset, chunk, remaining, schedule, given);
        firstChunk, given := false, [];
        offset := offset + chunk;
        remaining := remaining - chunk;
      }
      RestEnds(channels, heard, events, loop, Now(), given, auditionChannel, offset, remaining, storage.Length);
    }

    /** One callback's frames: the schedule while playing; only commands and releases while stopped. */
    method Process(n: nat, schedule: Schedules.Schedule?, commands: seq<PluginEvent>)
      requires Valid() && Sound(schedule) && AtZero(commands)
      modifies `pendingAllNotesOff, `channels, `heard, storage, transport`positionFrames
      ensures Valid() && LoopNow() == old(LoopNow()) && |channels| == old(|channels|)
      ensures transport.playing ==>
        && Now() == Onward(LoopNow(), old(Now()), n)
        && heard == old(RestOf(channels, heard, EventsIn(schedule), LoopNow(), Now(), commands, auditionChannel, 0, n,
                             storage.Length))
      ensures !transport.playing ==>
        && Now() == (if n == 0 then old(Now()) else Clock(old(transport.positionFrames), false))
        && heard == if n == 0 then old(heard)
                    else old(HeardOf(channels, heard, [], Clock(0, pendingAllNotesOff), commands, auditionChannel, 0, n,
                                     storage.Length))
    {
      if transport.playing {
        RunSchedule(0, n, schedule, commands);
      } else {
        ProcessChunk(0, n, null, 0, commands);
      }
    }
  }

  lemma AfterTwice(channels: seq<Channel>)
    ensures AllAfter(AllAfter(channels)) == AllAfter(channels)
  {
  }

  function AfterChunk(c: Channel): Channel {
    if c.active then c.(resetRequested := false) else c
  }

  /** What a channel has heard after a chunk, from what it had heard before. */
  function HeardAfter(channel: Channel, before: seq<Delivery>, events: seq<Event>, c: nat, clock: Clock,
                      commands: seq<PluginEvent>, offset: int, n: nat, capacity: nat): seq<Delivery> {
    if channel.active
    then before + First(Chunk(events, c, Listener(clock, channel.resetRequested, commands), offset, n), capacity)
    else before
  }

  // ----- what is still to be heard of a block ---------------------------------------------------

  /** What a channel will have heard by the end of the block. */
  ghost function Rest(channel: Channel, before: seq<Delivery>, events: seq<Event>, loop: Loop, c: nat, clock: Clock,
                      commands: seq<PluginEvent>, offset: int, remaining: nat, capacity: nat): seq<Delivery> {
    if channel.active
    then before
         + Capped(Chunks(events, loop, c, Listener(clock, channel.resetRequested, commands), offset, remaining), capacity)
    else before
  }

  /** The same for every channel, with the commands each is to be given. */
  ghost function RestOf(channels: seq<Channel>, heard: seq<seq<Delivery>>, events: seq<Event>, loop: Loop,
                        clock: Clock, due: seq<PluginEvent>, audition: int, offset: int, remaining: nat, capacity: nat)
    : (rest: seq<seq<Delivery>>)
    requires |heard| == |channels|
    ensures |rest| == |channels|
  {
    seq(|channels|, (c: nat) requires c < |channels| =>
      Rest(channels[c], heard[c], events, loop, c, clock, Addressed(due, c == audition), offset, remaining, capacity))
  }

  function AllAfter(channels: seq<Channel>): (after: seq<Channel>)
    ensures |after| == |channels|
  {
    seq(|channels|, (c: nat) requires c < |channels| => AfterChunk(channels[c]))
  }

  ghost function HeardOf(channels: seq<Channel>, heard: seq<seq<Delivery>>, events: seq<Event>, clock: Clock,
                         due: seq<PluginEvent>, audition: int, offset: int, n: nat, capacity: nat)
    : (after: seq<seq<Delivery>>)
    requires |heard| == |channels|
    ensures |after| == |channels| && forall c: nat | c < |channels| ::
      after[c] == HeardAfter(channels[c], heard[c], events, c, clock, Addressed(due, c == audition), offset, n, capacity)
  {
    seq(|channels|, (c: nat) requires c < |channels| =>
      HeardAfter(channels[c], heard[c], events, c, clock, Addressed(due, c == audition), offset, n, capacity))
  }

  lemma {:induction false} RestEnters(channels: seq<Channel>, heard: seq<seq<Delivery>>, events: seq<Event>, loop: Loop,
                                      clock: Clock, due: seq<PluginEvent>, audition: int, offset: int, remaining: nat,
                                      capacity: nat)
    requires |heard| == |channels| && 0 < remaining
    ensures Onward(loop, Enter(loop, clock), remaining) == Onward(loop, clock, remaining)
    ensures RestOf(channels, heard, events, loop, Enter(loop, clock), due, audition, offset, remaining, capacity) ==
            RestOf(channels, heard, events, loop, clock, due, audition, offset, remaining, capacity)
  {
    PlayEnter(events, loop, 0, Listener(clock, false, []), offset, remaining);
    forall c: nat | c < |channels|
      ensures Rest(channels[c], heard[c], events, loop, c, Enter(loop, clock), Addressed(due, c == audition), offset,
                   remaining, capacity)
              == Rest(channels[c], heard[c], events, loop, c, clock, Addressed(due, c == audition), offset, remaining,
                      capacity)
    {
      ChunksEnter(events, loop, c, Listener(clock, channels[c].resetRequested, Addressed(due, c == audition)), offset,
                  remaining);
    }
  }

  lemma {:induction false} RestAdvancesOne(channel: Channel, heard: seq<Delivery>, events: seq<Event>, loop: Loop,
                                           c: nat, clock: Clock, due: seq<PluginEvent>, offset: int, chunk: nat,
                                           remaining: nat, capacity: nat)
    requires 0 < remaining && !Wraps(loop, clock.position) && chunk == ChunkLength(loop, clock, remaining)
    ensures Rest(AfterChunk(channel), HeardAfter(channel, heard, events, c, clock, due, offset, chunk, capacity),
                 events, loop, c, Landed(loop, clock, chunk), [], offset + chunk, remaining - chunk, capacity)
            == Rest(channel, heard, events, loop, c, clock, due, offset, remaining, capacity)
  {
    var l := Listener(clock, channel.resetRequested, due);
    CappedNext(events, loop, c, l, offset, remaining, capacity);
    HeardInParts(heard, First(Chunk(events, c, l, offset, chunk), capacity),
      Capped(Chunks(events, loop, c, Past(loop, clock, chunk), offset + chunk, remaining - chunk), capacity));
  }

  lemma HeardInParts(heard: seq<Delivery>, first: seq<Delivery>, rest: seq<Delivery>)
    ensures heard + first + rest == heard + (first + rest)
  {
  }

  lemma {:induction false} NoChunks(events: seq<Event>, loop: Loop, channel: nat, l: Listener, out: int, n: nat,
                                    capacity: nat)
    requires n == 0 || Stuck(loop, l.clock)
    ensures Capped(Chunks(events, loop, channel, l, out, n), capacity) == []
  {
  }

  lemma {:induction false} RestAdvances(channels: seq<Channel>, heard: seq<seq<Delivery>>, events: seq<Event>,
                                        loop: Loop, clock: Clock, due: seq<PluginEvent>, audition: int, offset: int,
                                        chunk: nat, remaining: nat, capacity: nat)
    requires |heard| == |channels| && Schedules.SortedByFrame(events)
    requires 0 < remaining && !Wraps(loop, clock.position) && chunk == ChunkLength(loop, clock, remaining)
    ensures Onward(loop, Landed(loop, clock, chunk), remaining - chunk) == Onward(loop, clock, remaining)
    ensures RestOf(AllAfter(channels), HeardOf(channels, heard, events, clock, due, audition, offset, chunk, capacity),
                   events, loop, Landed(loop, clock, chunk), [], audition, offset + chunk, remaining - chunk, capacity)
            == RestOf(channels, heard, events, loop, clock, due, audition, offset, remaining, capacity)
  {
    PlayChunk(events, loop, 0, Listener(clock, false, []), offset, chunk);
    OnwardSplit(loop, clock, chunk, remaining - chunk);
    var next := Landed(loop, clock, chunk);
    var after := HeardOf(channels, heard, events, clock, due, audition, offset, chunk, capacity);
    forall c: nat | c < |channels|
      ensures Rest(AfterChunk(channels[c]), after[c], events, loop, c, next, Addressed([], c == audition),
                   offset + chunk, remaining - chunk, capacity)
              == Rest(channels[c], heard[c], events, loop, c, clock, Addressed(due, c == audition), offset, remaining,
                      capacity)
    {
      RestAdvancesOne(channels[c], heard[c], events, loop, c, clock, Addressed(due, c == audition), offset, chunk,
                      remaining, capacity);
    }
  }

  lemma {:induction false} RestEnds(channels: seq<Channel>, heard: seq<seq<Delivery>>, events: seq<Event>, loop: Loop,
                                    clock: Clock, due: seq<PluginEvent>, audition: int, offset: int, remaining: nat,
                                    capacity: nat)
    requires |heard| == |channels| && (remaining == 0 || Stuck(loop, clock))
    requires 0 < remaining ==> clock == Clock(loop.start, true)
    ensures Onward(loop, clock, remaining) == clock
    ensures RestOf(channels, heard, events, loop, clock, due, audition, offset, remaining, capacity) == heard
  {
    StillStuck(loop, clock, remaining);
    forall c: nat | c < |channels|
      ensures Rest(channels[c], heard[c], events, loop, c, clock, Addressed(due, c == audition), offset, remaining,
                   capacity)
              == heard[c]
    {
      NoChunks(events, loop, c, Listener(clock, channels[c].resetRequested, Addressed(due, c == audition)), offset,
               remaining, capacity);
    }
  }

  lemma {:induction false} StillStuck(loop: Loop, clock: Clock, n: nat)
    requires 0 < n ==> Stuck(loop, clock) && clock == Clock(loop.start, true)
    ensures Onward(loop, clock, n) == clock
    decreases n
  {
    if 0 < n {
      StillStuck(loop, Tick(loop, clock), n - 1);
    }
  }

  // ----- lists that hold every chunk -------------------------------------------------------------

  lemma {:induction false} RoomForAll(events: seq<Event>, loop: Loop, channel: nat, l: Listener, out: int, n: nat,
                                      commands: seq<PluginEvent>, capacity: nat)
    requires Roomy(events, n, commands, capacity) && |l.commands| <= |commands|
    ensures AllFit(Chunks(events, loop, channel, l, out, n), capacity)
    decreases n
  {
    if 0 < n && !Stuck(loop, l.clock) {
      var here := l.(clock := Enter(loop, l.clock));
      var k := ChunkLength(loop, here.clock, n);
      DueIsChunk(events, channel, here, out, k);
      assert Roomy(events, n - k, commands, capacity);
      RoomForAll(events, loop, channel, Past(loop, here.clock, k), out + k, n - k, commands, capacity);
    }
  }

  /** With such lists a channel hears its frames one by one. */
  lemma {:induction false} RoomyIsExact(events: seq<Event>, loop: Loop, channel: nat, l: Listener, out: int, n: nat,
                                        commands: seq<PluginEvent>, capacity: nat)
    requires Schedules.SortedByFrame(events) && Roomy(events, n, commands, capacity) && |l.commands| <= |commands|
    ensures Capped(Chunks(events, loop, channel, l, out, n), capacity) == Play(events, loop, channel, l, out, n)
  {
    RoomForAll(events, loop, channel, l, out, n, commands, capacity);
    CappedIsPlayIff(events, loop, channel, l, out, n, capacity);
  }
}
