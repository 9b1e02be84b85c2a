/**
 What a channel hears, frame by frame: the reference that block rendering is held to. Played one frame at a
 time, the schedule cannot depend on how the frames are cut into blocks.
 */
module Playback {
  import opened EventLists
  import Schedules

  type Event = Schedules.ScheduleEvent

  const ROOT_NOTE: int := 60

  /** A message at a frame of the output; the time inside the message is 0. */
  datatype Delivery = Delivery(frame: int, message: PluginEvent)

  datatype Loop = Loop(enabled: bool, start: int, end: int)

  /** Where the engine stands, and whether a release is due before the next frame. */
  datatype Clock = Clock(position: int, release: bool)

  /** What one channel is to be told: the clock, its own reset, and the commands of this block meant for it. */
  datatype Listener = Listener(clock: Clock, reset: bool, commands: seq<PluginEvent>)

  predicate Wraps(loop: Loop, position: int) {
    loop.enabled && loop.end <= position
  }

  /** A loop region with no frames in it: playback cannot leave it. */
  predicate Stuck(loop: Loop, clock: Clock) {
    Wraps(loop, clock.position) && Wraps(loop, loop.start)
  }

  /** A position at the end of the loop is at its start, with a release due. */
  function Enter(loop: Loop, clock: Clock): Clock {
    if Wraps(loop, clock.position) then Clock(loop.start, true) else clock
  }

  /** The clock one frame later. */
  function Tick(loop: Loop, clock: Clock): Clock {
    if Stuck(loop, clock) then Clock(loop.start, true)
    else Enter(loop, Clock(Enter(loop, clock).position + 1, false))
  }

  function Onward(loop: Loop, clock: Clock, n: nat): Clock
    decreases n
  {
    if n == 0 then clock else Onward(loop, Tick(loop, clock), n - 1)
  }

  /** A channel as it is after `n` frames. */
  function Later(loop: Loop, l: Listener, n: nat): Listener {
    if n == 0 || Stuck(loop, l.clock) then l.(clock := Onward(loop, l.clock, n))
    else Listener(Onward(loop, l.clock, n), false, [])
  }

  // ----- what a frame brings -----------------------------------------------------------

  /** A schedule event as the channel's instrument is told it, and whether it is told it at all. */
  predicate Told(e: Event, channel: nat) {
    && e.instrument == channel
    && e.kind in {Schedules.NOTE_ON, Schedules.NOTE_OFF, Schedules.AUDIO_START, Schedules.PARAM_VALUE,
                  Schedules.PARAM_MODULATION}
  }

  function Message(e: Event, time: nat): PluginEvent {
    if e.kind == Schedules.NOTE_ON then NoteOn(time, e.note, e.value)
    else if e.kind == Schedules.NOTE_OFF then NoteOff(time, e.note)
    else if e.kind == Schedules.AUDIO_START then NoteOn(time, ROOT_NOTE, e.value)
    else if e.kind == Schedules.PARAM_VALUE then PluginEvent(time, PARAM_VALUE, false, ANY_KEY, e.reserved, e.value)
    else PluginEvent(time, PARAM_MODULATION, false, ANY_KEY, e.reserved, e.value)
  }

  /** The channel's events from frame `from` up to `to`, delivered from output frame `out` on. */
  function Scan(events: seq<Event>, channel: nat, from: int, to: int, out: int): seq<Delivery> {
    if events == [] then []
    else
      var e := events[|events| - 1];
      var rest := Scan(events[..|events| - 1], channel, from, to, out);
      if from <= e.frame < to && Told(e, channel) then rest + [Delivery(out + e.frame - from, Message(e, 0))] else rest
  }

  /** What goes before the schedule: the channel's reset, the release of a loop seam, the block's commands. */
  function Lead(l: Listener): seq<PluginEvent> {
    (if l.reset then [AllNotesOff(0)] else []) + (if l.clock.release then [AllNotesOff(0)] else []) + l.commands
  }

  function AllAt(out: int, messages: seq<PluginEvent>): seq<Delivery> {
    seq(|messages|, i requires 0 <= i < |messages| => Delivery(out + messages[i].time, messages[i].(time := 0)))
  }

  /** `n` frames played one by one. */
  function Play(events: seq<Event>, loop: Loop, channel: nat, l: Listener, out: int, n: nat): seq<Delivery>
    decreases n
  {
    if n == 0 then []
    else if Stuck(loop, l.clock) then Play(events, loop, channel, l.(clock := Tick(loop, l.clock)), out + 1, n - 1)
    else
      var here := l.(clock := Enter(loop, l.clock));
      AllAt(out, Lead(here)) + Scan(events, channel, here.clock.position, here.clock.position + 1, out)
      + Play(events, loop, channel, Listener(Tick(loop, l.clock), false, []), out + 1, n - 1)
  }

  /** `n` frames as one chunk. */
  function Chunk(events: seq<Event>, channel: nat, l: Listener, out: int, n: nat): seq<Delivery> {
    AllAt(out, Lead(l)) + Scan(events, channel, l.clock.position, l.clock.position + n, out)
  }

  // ----- splitting -----------------------------------------------------------------------

  lemma {:induction false} OnwardSplit(loop: Loop, clock: Clock, n: nat, m: nat)
    ensures Onward(loop, clock, n + m) == Onward(loop, Onward(loop, clock, n), m)
    decreases n
  {
    if n > 0 {
      OnwardSplit(loop, Tick(loop, clock), n - 1, m);
    }
  }

  lemma {:induction false} StuckStays(events: seq<Event>, loop: Loop, channel: nat, l: Listener, out: int, n: nat)
    requires Stuck(loop, l.clock)
    ensures Play(events, loop, channel, l, out, n) == []
    ensures Stuck(loop, Onward(loop, l.clock, n))
    decreases n
  {
    if n > 0 {
      StuckStays(events, loop, channel, l.(clock := Tick(loop, l.clock)), out + 1, n - 1);
    }
  }

  /** Playing `n + m` frames is playing `n`, then `m` from where that left the channel. */
  lemma {:induction false} PlaySplit(events: seq<Event>, loop: Loop, channel: nat, l: Listener, out: int, n: nat, m: nat)
    ensures Play(events, loop, channel, l, out, n + m) ==
            Play(events, loop, channel, l, out, n)
            + Play(events, loop, channel, Later(loop, l, n), out + n, m)
    decreases n
  {
    if n == 0 {
      assert Later(loop, l, 0) == l;
    } else if Stuck(loop, l.clock) {
      StuckStays(events, loop, channel, l, out, n + m);
      StuckStays(events, loop, channel, l, out, n);
      StuckStays(events, loop, channel, Later(loop, l, n), out + n, m);
    } else {
      var next := Listener(Tick(loop, l.clock), false, []);
      PlaySplit(events, loop, channel, next, out + 1, n - 1, m);
      assert Later(loop, next, n - 1) == Later(loop, l, n);
    }
  }

  /** Two blocks hear what one block of their length hears: the commands belong to the first. */
  lemma {:induction false} BlocksSplit(events: seq<Event>, loop: Loop, channel: nat, l: Listener, out: int, n: nat, m: nat)
    requires 0 < n
    ensures Play(events, loop, channel, l, out, n + m) ==
            Play(events, loop, channel, l, out, n)
            + Play(events, loop, channel, Later(loop, l, n).(commands := []), out + n, m)
  {
    PlaySplit(events, loop, channel, l, out, n, m);
    if Stuck(loop, l.clock) {
      StuckStays(events, loop, channel, l, out, n);
      StuckStays(events, loop, channel, Later(loop, l, n), out + n, m);
      StuckStays(events, loop, channel, Later(loop, l, n).(commands := []), out + n, m);
    }
  }

  // ----- a chunk is its frames -------------------------------------------------------------

  lemma {:induction false} ScanOutside(events: seq<Event>, channel: nat, from: int, to: int, out: int)
    requires forall i | 0 <= i < |events| :: !(from <= events[i].frame < to)
    ensures Scan(events, channel, from, to, out) == []
  {
    if events != [] {
      ScanOutside(events[..|events| - 1], channel, from, to, out);
    }
  }

  lemma {:induction false} ScanSplit(events: seq<Event>, channel: nat, from: int, mid: int, to: int, out: int)
    requires Schedules.SortedByFrame(events) && from <= mid <= to
    ensures Scan(events, channel, from, to, out) ==
            Scan(events, channel, from, mid, out) + Scan(events, channel, mid, to, out + mid - from)
  {
    if events != [] {
      var front, e := events[..|events| - 1], events[|events| - 1];
      ScanSplit(front, channel, from, mid, to, out);
      if e.frame < mid {
        ScanOutside(front, channel, mid, to, out + mid - from);
      }
    }
  }

  /** Where a chunk that does not cross the seam leaves the clock. */
  function Landed(loop: Loop, clock: Clock, n: nat): Clock {
    Enter(loop, Clock(clock.position + n, false))
  }

  /** The first of several frames, short of the seam. */
  lemma {:induction false} OneFrame(events: seq<Event>, loop: Loop, channel: nat, l: Listener, out: int, n: nat)
    requires 0 < n && !Wraps(loop, l.clock.position)
    ensures var next := Listener(Landed(loop, l.clock, 1), false, []);
      && Tick(loop, l.clock) == next.clock
      && Play(events, loop, channel, l, out, n) ==
         Chunk(events, channel, l, out, 1) + Play(events, loop, channel, next, out + 1, n - 1)
      && Onward(loop, l.clock, n) == Onward(loop, next.clock, n - 1)
  {
  }

  /** A chunk that stops at the seam delivers what its frames deliver one by one. */
  lemma {:induction false} PlayChunk(events: seq<Event>, loop: Loop, channel: nat, l: Listener, out: int, n: nat)
    requires Schedules.SortedByFrame(events) && 0 < n
    requires loop.enabled ==> l.clock.position + n <= loop.end
    ensures Play(events, loop, channel, l, out, n) == Chunk(events, channel, l, out, n)
    ensures Onward(loop, l.clock, n) == Landed(loop, l.clock, n)
    decreases n
  {
    var next := Listener(Landed(loop, l.clock, 1), false, []);
    OneFrame(events, loop, channel, l, out, n);
    if 1 < n {
      PlayChunk(events, loop, channel, next, out + 1, n - 1);
      ChunkSplit(events, channel, l, out, n);
    }
  }

  /** A chunk is its first frame and the rest. */
  lemma {:induction false} ChunkSplit(events: seq<Event>, channel: nat, l: Listener, out: int, n: nat)
    requires Schedules.SortedByFrame(events) && 0 < n
    ensures var next := Listener(Clock(l.clock.position + 1, false), false, []);
      Chunk(events, channel, l, out, n) == Chunk(events, channel, l, out, 1) + Chunk(events, channel, next, out + 1, n - 1)
  {
    ScanSplit(events, channel, l.clock.position, l.clock.position + 1, l.clock.position + n, out);
    assert AllAt(out + 1, Lead(Listener(Clock(l.clock.position + 1, false), false, []))) == [];
  }

  /** Wrapping first changes nothing: the next frame would have wrapped. */
  lemma {:induction false} PlayEnter(events: seq<Event>, loop: Loop, channel: nat, l: Listener, out: int, n: nat)
    ensures Play(events, loop, channel, l.(clock := Enter(loop, l.clock)), out, n) ==
            Play(events, loop, channel, l, out, n)
    ensures 0 < n ==> Onward(loop, Enter(loop, l.clock), n) == Onward(loop, l.clock, n)
  {
  }

  /** Playing on from inside a sound loop, the position is always inside it. */
  lemma {:induction false} StaysInside(loop: Loop, clock: Clock, n: nat)
    requires loop.enabled && loop.start < loop.end && 0 < n
    ensures Onward(loop, clock, n).position < loop.end
    decreases n
  {
    if n > 1 {
      StaysInside(loop, Tick(loop, clock), n - 1);
    }
  }

  function Repeated(s: seq<Delivery>, passes: nat, length: nat): seq<Delivery>
    decreases passes
  {
    if passes == 0 then [] else s + Moved(Repeated(s, passes - 1, length), length)
  }

  function Moved(s: seq<Delivery>, shift: int): seq<Delivery> {
    seq(|s|, i requires 0 <= i < |s| => s[i].(frame := s[i].frame + shift))
  }

  lemma {:induction false} ScanMoved(events: seq<Event>, channel: nat, from: int, to: int, out: int, shift: int)
    ensures Scan(events, channel, from, to, out + shift) == Moved(Scan(events, channel, from, to, out), shift)
  {
    if events != [] {
      ScanMoved(events[..|events| - 1], channel, from, to, out, shift);
    }
  }

  /** From the seam, one pass is the release and each event of the region once, in order; then it is the seam
      again. */
  lemma {:induction false} OnePass(events: seq<Event>, loop: Loop, channel: nat, out: int, n: nat)
    requires Schedules.SortedByFrame(events) && loop.enabled && loop.start < loop.end
    ensures var length, l := loop.end - loop.start, Listener(Clock(loop.start, true), false, []);
      Play(events, loop, channel, l, out, length + n) ==
      [Delivery(out, AllNotesOff(0))] + Scan(events, channel, loop.start, loop.end, out)
      + Moved(Play(events, loop, channel, l, out, n), length)
  {
    var length, l := loop.end - loop.start, Listener(Clock(loop.start, true), false, []);
    FirstPass(events, loop, channel, out);
    PlaySplit(events, loop, channel, l, out, length, n);
    PlayMoved(events, loop, channel, l, out, length, n);
  }

  /** The pass itself, and that it ends where it began. */
  lemma {:induction false} FirstPass(events: seq<Event>, loop: Loop, channel: nat, out: int)
    requires Schedules.SortedByFrame(events) && loop.enabled && loop.start < loop.end
    ensures var length, l := loop.end - loop.start, Listener(Clock(loop.start, true), false, []);
      && Later(loop, l, length) == l
      && Play(events, loop, channel, l, out, length) ==
         [Delivery(out, AllNotesOff(0))] + Scan(events, channel, loop.start, loop.end, out)
  {
    var length, l := loop.end - loop.start, Listener(Clock(loop.start, true), false, []);
    PlayChunk(events, loop, channel, l, out, length);
    assert AllAt(out, Lead(l)) == [Delivery(out, AllNotesOff(0))];
  }

  lemma OneMore(passes: nat, length: int)
    requires 0 < passes
    ensures passes * length == length + (passes - 1) * length
  {
  }

  lemma NonNegative(passes: nat, length: nat)
    ensures 0 <= passes * length
  {
  }

  /** Every pass of the loop delivers the same. */
  lemma {:induction false} PassesRepeat(events: seq<Event>, loop: Loop, channel: nat, out: int, passes: nat, n: nat)
    requires Schedules.SortedByFrame(events) && loop.enabled && loop.start < loop.end
    requires n == passes * (loop.end - loop.start)
    ensures Play(events, loop, channel, Listener(Clock(loop.start, true), false, []), out, n) ==
            Repeated([Delivery(out, AllNotesOff(0))] + Scan(events, channel, loop.start, loop.end, out),
                     passes, loop.end - loop.start)
    decreases passes
  {
    if passes > 0 {
      var length := loop.end - loop.start;
      OneMore(passes, length);
      NonNegative(passes - 1, length);
      OnePass(events, loop, channel, out, n - length);
      PassesRepeat(events, loop, channel, out, passes - 1, n - length);
    }
  }

  lemma MovedConcat(s: seq<Delivery>, t: seq<Delivery>, shift: int)
    ensures Moved(s + t, shift) == Moved(s, shift) + Moved(t, shift)
  {
  }

  lemma AllAtMoved(out: int, messages: seq<PluginEvent>, shift: int)
    ensures AllAt(out + shift, messages) == Moved(AllAt(out, messages), shift)
  {
  }

  /** Moving the output moves every delivery. */
  lemma {:induction false} PlayMoved(events: seq<Event>, loop: Loop, channel: nat, l: Listener, out: int, shift: int, n: nat)
    ensures Play(events, loop, channel, l, out + shift, n) == Moved(Play(events, loop, channel, l, out, n), shift)
    decreases n
  {
    if n > 0 {
      if Stuck(loop, l.clock) {
        PlayMoved(events, loop, channel, l.(clock := Tick(loop, l.clock)), out + 1, shift, n - 1);
      } else {
        var here := l.(clock := Enter(loop, l.clock));
        var position := here.clock.position;
        var next := Listener(Tick(loop, l.clock), false, []);
        var lead, scan := AllAt(out, Lead(here)), Scan(events, channel, position, position + 1, out);
        PlayMoved(events, loop, channel, next, out + 1, shift, n - 1);
        ScanMoved(events, channel, position, position + 1, out, shift);
        AllAtMoved(out, Lead(here), shift);
        MovedConcat(lead, scan, shift);
        MovedConcat(lead + scan, Play(events, loop, channel, next, out + 1, n - 1), shift);
      }
    }
  }
}
