/**
 What reaches a channel's instrument, message by message: of the commands those that are for it, of the schedule the
 events addressed to it, each as the message that its kind calls for, at its frame.
 */
module EngineMeanings {
  import opened StableSort
  import opened EventLists
  import Schedules
  import opened Playback
  import opened Engines

  // ----- commands -------------------------------------------------------------------------------

  /** The release of everything, which a stop or a seek sends. */
  predicate IsRelease(c: PluginEvent) {
    c.kind == 2 && c.key == -1
  }

  lemma {:induction false} SameFilter<T>(s: seq<T>, p: T -> bool, q: T -> bool)
    requires forall x | x in s :: p(x) == q(x)
    ensures Filter(s, p) == Filter(s, q)
  {
    if s != [] {
      var front, last := s[..|s| - 1], s[|s| - 1];
      assert last in s && forall x | x in front :: x in s;
      SameFilter(front, p, q);
    }
  }

  /** To the audition channel go the releases and all commands that are not for the preview; to any other the releases
      alone; in the order they came. */
  lemma {:induction false} CommandsFor(commands: seq<PluginEvent>, audition: bool)
    ensures Addressed(commands, true) == Filter(commands, (c: PluginEvent) => IsRelease(c) || !c.preview)
    ensures Addressed(commands, false) == Filter(commands, (c: PluginEvent) => IsRelease(c))
  {
    SameFilter(commands, (c: PluginEvent) => Receives(c, true), (c: PluginEvent) => IsRelease(c) || !c.preview);
    SameFilter(commands, (c: PluginEvent) => Receives(c, false), (c: PluginEvent) => IsRelease(c));
  }

  /** The first `capacity` of them. */
  function UpTo(s: seq<PluginEvent>, capacity: nat): seq<PluginEvent> {
    if |s| <= capacity then s else s[..capacity]
  }

  /** With no schedule and nothing pending, those are what `RenderChannel` hands over, as far as the list holds them. */
  lemma {:induction false} HandedCommands(channel: nat, position: int, commands: seq<PluginEvent>, audition: bool, n: nat,
                                          capacity: nat)
    requires AtZero(commands)
    ensures var l := Listener(Clock(position, false), false, Addressed(commands, audition));
      ChunkList(null, channel, l, n, capacity) ==
      UpTo(Filter(commands, (c: PluginEvent) => IsRelease(c) || (audition && !c.preview)), capacity)
  {
    var l := Listener(Clock(position, false), false, Addressed(commands, audition));
    SameFilter(commands, (c: PluginEvent) => Receives(c, audition),
      (c: PluginEvent) => IsRelease(c) || (audition && !c.preview));
    AddressedAtZero(commands, audition);
    var due := Lead(l) + Messages([], channel, position, position + n);
    assert due == l.commands;
    assert SortedBy(Fit(due, capacity), TimeBefore);
    SortedIsFixed(Fit(due, capacity), TimeBefore);
  }

  /** No channel of the rack is handed a preview that is not a release, and none but the audition channel a command that
      is not one. */
  lemma {:induction false} NotForOthers(commands: seq<PluginEvent>, audition: bool, c: PluginEvent)
    requires c in Addressed(commands, audition)
    ensures c in commands && (IsRelease(c) || (audition && !c.preview))
  {
    if c != commands[|commands| - 1] || !Receives(c, audition) {
      NotForOthers(commands[..|commands| - 1], audition, c);
    }
  }

  // ----- the schedule ---------------------------------------------------------------------------

  /** The message an event of the schedule calls for, if it is one for a channel: a note, the start of an audio clip as
      the neutral note, a parameter's value or its modulation. */
  predicate Tells(e: Event, time: nat, x: PluginEvent) {
    match e.kind
    case 0 => x == PluginEvent(time, 1, false, e.note, 0, e.value)
    case 1 => x == PluginEvent(time, 2, false, e.note, 0, 0.0)
    case 3 => x == PluginEvent(time, 6, false, -1, e.reserved, e.value)
    case 4 => x == PluginEvent(time, 7, false, -1, e.reserved, e.value)
    case 5 => x == PluginEvent(time, 1, false, 60, 0, e.value)
    case _ => false
  }

  /** Which events tell a channel something, and what. */
  lemma ToldMeans(e: Event, channel: nat, time: nat)
    ensures Told(e, channel) <==> e.instrument == channel && exists x :: Tells(e, time, x)
    ensures Told(e, channel) ==> forall x :: Tells(e, time, x) <==> x == Message(e, time)
  {
    assert Told(e, channel) ==> Tells(e, time, Message(e, time));
  }

  /** A channel's messages of a chunk are those of its events in it, at the frames from the chunk's start. */
  lemma {:induction false} MessagesMean(events: seq<Event>, channel: nat, from: int, to: int, x: PluginEvent)
    ensures x in Messages(events, channel, from, to) <==>
      exists e | e in events :: from <= e.frame < to && e.instrument == channel && Tells(e, e.frame - from, x)
  {
    if events != [] {
      var front, last := events[..|events| - 1], events[|events| - 1];
      MessagesMean(front, channel, from, to, x);
      if from <= last.frame {
        ToldMeans(last, channel, last.frame - from);
      }
      assert events == front + [last];
    }
  }

  /** And in their order. */
  lemma {:induction false} MessagesInOrder(a: seq<Event>, b: seq<Event>, channel: nat, from: int, to: int)
    ensures Messages(a + b, channel, from, to) == Messages(a, channel, from, to) + Messages(b, channel, from, to)
  {
    if b == [] {
      assert a + b == a;
    } else {
      var front := b[..|b| - 1];
      MessagesInOrder(a, front, channel, from, to);
      assert (a + b)[..|a + b| - 1] == a + front;
    }
  }

  /** What frame-by-frame playing brings from the schedule: each event once, at the output frame that falls to it. */
  lemma {:induction false} ScanMeans(events: seq<Event>, channel: nat, from: int, to: int, out: int, d: Delivery)
    ensures d in Scan(events, channel, from, to, out) <==>
      exists e | e in events :: from <= e.frame < to && e.instrument == channel && d.frame == out + e.frame - from
                                && Tells(e, 0, d.message)
  {
    if events != [] {
      var front, last := events[..|events| - 1], events[|events| - 1];
      ScanMeans(front, channel, from, to, out, d);
      ToldMeans(last, channel, 0);
      assert events == front + [last];
    }
  }

  /** Before that, at the start of a chunk, a release each for the channel's reset and for the seam, then the commands. */
  lemma LeadMeans(l: Listener)
    ensures var release := PluginEvent(0, 2, false, -1, 0, 0.0);
      Lead(l) == (if l.reset && l.clock.release then [release, release]
                  else if l.reset || l.clock.release then [release] else []) + l.commands
  {
  }

  /** A message of a list goes out at its time from where the chunk lies in the output. */
  lemma DeliveredAt(out: int, messages: seq<PluginEvent>, k: nat)
    requires k < |messages|
    ensures |AllAt(out, messages)| == |messages|
    ensures AllAt(out, messages)[k].frame == out + messages[k].time
    ensures AllAt(out, messages)[k].message == messages[k].(time := 0)
  {
  }

  // ----- channels ---------------------------------------------------------------------------------

  /** A channel that takes no part hears nothing and keeps its reset; one that does has it done with after a chunk. */
  lemma OnlyActive(c: Channel, before: seq<Delivery>, events: seq<Event>, index: nat, clock: Clock,
                   commands: seq<PluginEvent>, offset: int, n: nat, capacity: nat)
    ensures var after := HeardAfter(c, before, events, index, clock, commands, offset, n, capacity);
      && (!c.active ==> after == before && AfterChunk(c) == c)
      && (c.active ==> before <= after && |after| - |before| <= capacity && AfterChunk(c) == Channel(true, false))
  {
  }
}
