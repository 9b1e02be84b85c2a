/**
 What a channel hears when the list of a chunk holds only so many events: of each chunk the first that fit. That is
 what is to be heard exactly when every chunk fits, and up to the first that does not it is so in any case.
 */
module Capacity {
  import Schedules
  import opened Playback

  function First(s: seq<Delivery>, capacity: nat): (first: seq<Delivery>)
    ensures first <= s && |first| <= capacity && (|s| <= capacity ==> first == s)
  {
    if |s| <= capacity then s else s[..capacity]
  }

  // ----- a block as the chunks it is cut into --------------------------------------------

  /** How far a chunk goes: to the end of the block or to the seam. */
  function ChunkLength(loop: Loop, clock: Clock, n: nat): (k: nat)
    requires 0 < n && !Wraps(loop, clock.position)
    ensures 0 < k <= n && (loop.enabled ==> clock.position + k <= loop.end)
  {
    if loop.enabled && loop.end - clock.position < n then loop.end - clock.position else n
  }

  /** A channel once it has heard a chunk of `k` frames from where it stands. */
  function Past(loop: Loop, clock: Clock, k: nat): Listener {
    Listener(Landed(loop, clock, k), false, [])
  }

  /** The chunks of `n` frames, each with everything that is due in it. */
  function Chunks(events: seq<Event>, loop: Loop, channel: nat, l: Listener, out: int, n: nat): seq<seq<Delivery>>
    decreases n
  {
    if n == 0 || Stuck(loop, l.clock) then []
    else
      var here := l.(clock := Enter(loop, l.clock));
      var k := ChunkLength(loop, here.clock, n);
      [Chunk(events, channel, here, out, k)] + Chunks(events, loop, channel, Past(loop, here.clock, k), out + k, n - k)
  }

  /** What is heard of them: of each as much as its list holds. */
  function Capped(chunks: seq<seq<Delivery>>, capacity: nat): seq<Delivery> {
    if chunks == [] then [] else First(chunks[0], capacity) + Capped(chunks[1..], capacity)
  }

  function Joined(chunks: seq<seq<Delivery>>): seq<Delivery> {
    if chunks == [] then [] else chunks[0] + Joined(chunks[1..])
  }

  /** What comes before the first loss: the chunks that fit, and of the first that does not what fits. */
  function BeforeLoss(chunks: seq<seq<Delivery>>, capacity: nat): seq<Delivery> {
    if chunks == [] then []
    else if capacity < |chunks[0]| then chunks[0][..capacity]
    else chunks[0] + BeforeLoss(chunks[1..], capacity)
  }

  predicate AllFit(chunks: seq<seq<Delivery>>, capacity: nat) {
    forall i | 0 <= i < |chunks| :: |chunks[i]| <= capacity
  }

  /** The reference, a chunk at a time. */
  lemma {:induction false} PlayByChunk(events: seq<Event>, loop: Loop, channel: nat, l: Listener, out: int, n: nat)
    requires Schedules.SortedByFrame(events) && 0 < n && !Stuck(loop, l.clock)
    ensures var here := l.(clock := Enter(loop, l.clock));
      !Wraps(loop, here.clock.position) &&
      var k := ChunkLength(loop, here.clock, n);
      Play(events, loop, channel, l, out, n) ==
      Chunk(events, channel, here, out, k) + Play(events, loop, channel, Past(loop, here.clock, k), out + k, n - k)
  {
    var here := l.(clock := Enter(loop, l.clock));
    var k := ChunkLength(loop, here.clock, n);
    PlayEnter(events, loop, channel, l, out, n);
    PlayChunk(events, loop, channel, here, out, k);
    PlaySplit(events, loop, channel, here, out, k, n - k);
    assert Later(loop, here, k) == Past(loop, here.clock, k);
  }

  /** Joined, the chunks of a block are its frames played one by one. */
  lemma {:induction false} ChunksArePlay(events: seq<Event>, loop: Loop, channel: nat, l: Listener, out: int, n: nat)
    requires Schedules.SortedByFrame(events)
    ensures Joined(Chunks(events, loop, channel, l, out, n)) == Play(events, loop, channel, l, out, n)
    decreases n
  {
    if 0 < n && Stuck(loop, l.clock) {
      StuckStays(events, loop, channel, l, out, n);
    } else if 0 < n {
      var here := l.(clock := Enter(loop, l.clock));
      var k := ChunkLength(loop, here.clock, n);
      PlayByChunk(events, loop, channel, l, out, n);
      ChunksArePlay(events, loop, channel, Past(loop, here.clock, k), out + k, n - k);
    }
  }

  // ----- what is lost ------------------------------------------------------------------------

  lemma {:induction false} CappedIsNoLonger(chunks: seq<seq<Delivery>>, capacity: nat)
    ensures |Capped(chunks, capacity)| <= |Joined(chunks)|
  {
    if chunks != [] {
      CappedIsNoLonger(chunks[1..], capacity);
    }
  }

  lemma {:induction false} NothingIsLostIff(chunks: seq<seq<Delivery>>, capacity: nat)
    ensures Capped(chunks, capacity) == Joined(chunks) <==> AllFit(chunks, capacity)
  {
    if chunks != [] {
      var first, rest, capped := First(chunks[0], capacity), Joined(chunks[1..]), Capped(chunks[1..], capacity);
      NothingIsLostIff(chunks[1..], capacity);
      CappedIsNoLonger(chunks[1..], capacity);
      if first + capped == chunks[0] + rest {
        assert |first| == |chunks[0]|;
        assert (first + capped)[|first|..] == capped && (chunks[0] + rest)[|first|..] == rest;
      }
      assert AllFit(chunks, capacity) <==> |chunks[0]| <= capacity && AllFit(chunks[1..], capacity);
    }
  }

  lemma {:induction false} LossIsKept(chunks: seq<seq<Delivery>>, capacity: nat)
    ensures BeforeLoss(chunks, capacity) <= Joined(chunks) && BeforeLoss(chunks, capacity) <= Capped(chunks, capacity)
  {
    if chunks != [] {
      LossIsKept(chunks[1..], capacity);
    }
  }

  /** What is heard is what is to be heard exactly when every chunk fits. */
  lemma {:induction false} CappedIsPlayIff(events: seq<Event>, loop: Loop, channel: nat, l: Listener, out: int, n: nat,
                                           capacity: nat)
    requires Schedules.SortedByFrame(events)
    ensures var chunks := Chunks(events, loop, channel, l, out, n);
      Capped(chunks, capacity) == Play(events, loop, channel, l, out, n) <==> AllFit(chunks, capacity)
  {
    ChunksArePlay(events, loop, channel, l, out, n);
    NothingIsLostIff(Chunks(events, loop, channel, l, out, n), capacity);
  }

  /** Up to the first overflow nothing is lost and nothing is added. */
  lemma {:induction false} ExactBeforeLoss(events: seq<Event>, loop: Loop, channel: nat, l: Listener, out: int, n: nat,
                                           capacity: nat)
    requires Schedules.SortedByFrame(events)
    ensures var chunks := Chunks(events, loop, channel, l, out, n);
      && BeforeLoss(chunks, capacity) <= Play(events, loop, channel, l, out, n)
      && BeforeLoss(chunks, capacity) <= Capped(chunks, capacity)
  {
    ChunksArePlay(events, loop, channel, l, out, n);
    LossIsKept(Chunks(events, loop, channel, l, out, n), capacity);
  }

  // ----- as the engine goes through them -----------------------------------------------------

  /** Wrapping first changes nothing here either. */
  lemma {:induction false} ChunksEnter(events: seq<Event>, loop: Loop, channel: nat, l: Listener, out: int, n: nat)
    ensures Chunks(events, loop, channel, l.(clock := Enter(loop, l.clock)), out, n) ==
            Chunks(events, loop, channel, l, out, n)
  {
    var here := l.(clock := Enter(loop, l.clock));
    assert Stuck(loop, here.clock) <==> Stuck(loop, l.clock);
    assert !Stuck(loop, l.clock) ==> Enter(loop, here.clock) == here.clock;
  }

  /** What is heard of a block that does not begin at the seam: its first chunk, and what is heard of the rest. */
  lemma {:induction false} CappedNext(events: seq<Event>, loop: Loop, channel: nat, l: Listener, out: int, n: nat,
                                      capacity: nat)
    requires 0 < n && !Wraps(loop, l.clock.position)
    ensures var k := ChunkLength(loop, l.clock, n);
      Capped(Chunks(events, loop, channel, l, out, n), capacity) ==
      First(Chunk(events, channel, l, out, k), capacity)
      + Capped(Chunks(events, loop, channel, Past(loop, l.clock, k), out + k, n - k), capacity)
  {
    var k := ChunkLength(loop, l.clock, n);
    ChunksNext(events, loop, channel, l, out, n);
    CappedFirst(Chunk(events, channel, l, out, k), Chunks(events, loop, channel, Past(loop, l.clock, k), out + k, n - k),
      capacity);
  }

  lemma {:induction false} ChunksNext(events: seq<Event>, loop: Loop, channel: nat, l: Listener, out: int, n: nat)
    requires 0 < n && !Wraps(loop, l.clock.position)
    ensures var k := ChunkLength(loop, l.clock, n);
      Chunks(events, loop, channel, l, out, n) ==
      [Chunk(events, channel, l, out, k)] + Chunks(events, loop, channel, Past(loop, l.clock, k), out + k, n - k)
  {
    assert l.(clock := Enter(loop, l.clock)) == l;
  }

  lemma {:induction false} CappedFirst(chunk: seq<Delivery>, rest: seq<seq<Delivery>>, capacity: nat)
    ensures Capped([chunk] + rest, capacity) == First(chunk, capacity) + Capped(rest, capacity)
  {
    assert ([chunk] + rest)[1..] == rest;
  }
}
