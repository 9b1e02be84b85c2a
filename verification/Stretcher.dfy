/**
 The stretcher's buffers: what `Render` writes, however often and for however little it is called, is the
 frame-by-frame stream of `TimeStretches`, and no index leaves its buffer. And the window it reads a file
 through: trimmed, and reversed by reflection.
 */
module Stretchers {
  import opened TimeStretches
  import opened Division

  const MAX_CHANNELS: nat := 2

  /** The ready frames from `first` to `last`, out of one plane per channel. */
  function ReadyColumns(ready: seq<real>, channels: nat, first: nat, last: nat): (columns: seq<Column>)
    requires first <= last <= GRAIN && |ready| == channels * GRAIN
    ensures |columns| == last - first
    ensures forall i | 0 <= i < last - first :: columns[i] == ReadyColumn(ready, channels, first + i)
  {
    seq(last - first, i requires 0 <= i < last - first => ReadyColumn(ready, channels, first + i))
  }

  function ReadyColumn(ready: seq<real>, channels: nat, i: nat): (column: Column)
    requires i < GRAIN && |ready| == channels * GRAIN
    ensures |column| == channels
    ensures forall c: nat | c < channels :: Slot(c, i) < |ready| && column[c] == ready[Slot(c, i)]
  {
    SlotsFit(channels, i);
    seq(channels, c requires 0 <= c < channels => ready[Slot(c, i)])
  }

  function Slot(channel: nat, i: nat): nat {
    channel * GRAIN + i
  }

  lemma SlotsFit(channels: nat, i: nat)
    requires i < GRAIN
    ensures forall c: nat | c < channels :: Slot(c, i) < channels * GRAIN
  {
  }

  /** What a hop leaves at place `k` of the ready frames. */
  function Made(src: Source, u: Setup, h: Hop, k: nat): real
    requires HopFits(u, h) && k < u.channels * GRAIN && k % GRAIN < HOP
  {
    ColumnOf(src, u, h, k % GRAIN)[k / GRAIN]
  }

  /** One channel's part of the next tail. */
  lemma TailPart(src: Source, u: Setup, h: Hop, channel: nat, i: nat)
    requires HopFits(u, h) && channel < u.channels && i < HOP
    ensures channel * HOP + i < |h.tail|
    ensures NextTail(src, u, h)[channel * HOP + i] ==
            src.read((Best(src, h) + i + HOP) as real, channel) * u.shape[i + HOP]
  {
    InPlane(u.channels, channel, i);
    Divided(channel, HOP, i);
  }

  /** One channel's part of the frames a hop makes. */
  lemma MadePart(src: Source, u: Setup, h: Hop, channel: nat, i: nat)
    requires HopFits(u, h) && channel < u.channels && i < HOP
    ensures Slot(channel, i) < u.channels * GRAIN && Slot(channel, i) % GRAIN == i && At(channel, i) < |h.tail|
    ensures Made(src, u, h, Slot(channel, i)) == ColumnOf(src, u, h, i)[channel]
    ensures Made(src, u, h, Slot(channel, i)) ==
            h.tail[At(channel, i)] + src.read((Best(src, h) + i) as real, channel) * u.shape[i]
  {
    InPlane(u.channels, channel, i);
    SlotsFit(u.channels, i);
    Divided(channel, GRAIN, i);
  }

  // ----- channel by channel ------------------------------------------------------------------

  /** The tails of the channels before `channel` are the next ones. */
  predicate TailTo(src: Source, u: Setup, h: Hop, channel: nat, tail: seq<real>)
    requires HopFits(u, h)
  {
    |tail| == |h.tail|
    && forall k | 0 <= k < |tail| :: tail[k] == if k < channel * HOP then NextTail(src, u, h)[k] else h.tail[k]
  }

  /** The frames of the channels before `channel` are made. */
  predicate MadeTo(src: Source, u: Setup, h: Hop, channel: nat, ready: seq<real>)
    requires HopFits(u, h)
  {
    |ready| == u.channels * GRAIN
    && forall k | 0 <= k < |ready| && k < channel * GRAIN && k % GRAIN < HOP :: ready[k] == Made(src, u, h, k)
  }

  function FadedIn(src: Source, u: Setup, best: int, channel: nat, i: nat, over: real): real
    requires |u.shape| == GRAIN && i < HOP
  {
    over + src.read((best + i) as real, channel) * u.shape[i]
  }

  function FadedOut(src: Source, u: Setup, best: int, channel: nat, i: nat): real
    requires |u.shape| == GRAIN && i < HOP
  {
    src.read((best + i + HOP) as real, channel) * u.shape[i + HOP]
  }

  /** The first `count` places of one channel's tail, from `base` on, faded out. */
  predicate TailStep(src: Source, u: Setup, best: int, channel: nat, base: nat, count: nat, before: seq<real>,
                     after: seq<real>)
    requires |u.shape| == GRAIN && count <= HOP
  {
    |after| == |before|
    && forall k | 0 <= k < |after| ::
         after[k] == if 0 <= k - base < count then FadedOut(src, u, best, channel, k - base) else before[k]
  }

  /** The first `count` of one channel's frames, from `base` on, faded in over its tail. */
  predicate MadeStep(src: Source, u: Setup, best: int, channel: nat, base: nat, count: nat, tail: seq<real>,
                     before: seq<real>, after: seq<real>)
    requires |u.shape| == GRAIN && count <= HOP <= |tail|
  {
    |after| == |before|
    && forall k | 0 <= k < |after| ::
         after[k] == if 0 <= k - base < count then FadedIn(src, u, best, channel, k - base, tail[k - base])
                     else before[k]
  }

  lemma FadeOutStep(src: Source, u: Setup, best: int, channel: nat, base: nat, i: nat, before: seq<real>, after: seq<real>)
    requires |u.shape| == GRAIN && i < HOP && base + HOP <= |before|
    requires TailStep(src, u, best, channel, base, i, before, after)
    ensures TailStep(src, u, best, channel, base, i + 1, before, after[base + i := FadedOut(src, u, best, channel, i)])
  {
  }

  lemma FadeInStep(src: Source, u: Setup, best: int, channel: nat, base: nat, i: nat, tail: seq<real>,
                   before: seq<real>, after: seq<real>)
    requires |u.shape| == GRAIN && i < HOP <= |tail| && base + HOP <= |before|
    requires MadeStep(src, u, best, channel, base, i, tail, before, after)
    ensures MadeStep(src, u, best, channel, base, i + 1, tail, before,
              after[base + i := FadedIn(src, u, best, channel, i, tail[i])])
  {
  }

  lemma TailNext(src: Source, u: Setup, h: Hop, channel: nat, before: seq<real>, after: seq<real>)
    requires HopFits(u, h) && channel < u.channels && TailTo(src, u, h, channel, before)
    requires TailStep(src, u, Best(src, h), channel, channel * HOP, HOP, before, after)
    ensures TailTo(src, u, h, channel + 1, after)
  {
    var base := channel * HOP;
    forall k | 0 <= k < |after|
      ensures after[k] == if k < base + HOP then NextTail(src, u, h)[k] else h.tail[k]
    {
      if base <= k < base + HOP {
        TailPart(src, u, h, channel, k - base);
      }
    }
  }

  lemma MadeNext(src: Source, u: Setup, h: Hop, channel: nat, before: seq<real>, after: seq<real>)
    requires HopFits(u, h) && channel < u.channels && channel * HOP + HOP <= |h.tail|
    requires MadeTo(src, u, h, channel, before)
    requires MadeStep(src, u, Best(src, h), channel, channel * GRAIN, HOP, h.tail[channel * HOP..], before, after)
    ensures MadeTo(src, u, h, channel + 1, after)
  {
    var base := channel * GRAIN;
    forall k | 0 <= k < |after| && base <= k < base + GRAIN && k % GRAIN < HOP
      ensures after[k] == Made(src, u, h, k)
    {
      MadeIn(src, u, h, channel, k);
    }
  }

  lemma MadeIn(src: Source, u: Setup, h: Hop, channel: nat, k: nat)
    requires HopFits(u, h) && channel < u.channels && channel * HOP + HOP <= |h.tail|
    requires 0 <= k - channel * GRAIN < GRAIN && k % GRAIN < HOP && k < u.channels * GRAIN
    ensures k - channel * GRAIN == k % GRAIN
    ensures Made(src, u, h, k) ==
            FadedIn(src, u, Best(src, h), channel, k % GRAIN, h.tail[channel * HOP..][k % GRAIN])
  {
    var i := k - channel * GRAIN;
    Divided(channel, GRAIN, i);
    MadePart(src, u, h, channel, i);
    assert Slot(channel, i) == k;
    assert h.tail[channel * HOP..][i] == h.tail[At(channel, i)];
  }

  lemma SamePlane(src: Source, u: Setup, h: Hop, channel: nat, tail: seq<real>)
    requires HopFits(u, h) && TailTo(src, u, h, channel, tail) && channel * HOP + HOP <= |h.tail|
    ensures tail[channel * HOP..] == h.tail[channel * HOP..]
  {
  }

  lemma AllMade(src: Source, u: Setup, h: Hop, tail: seq<real>, ready: seq<real>)
    requires HopFits(u, h) && TailTo(src, u, h, u.channels, tail) && MadeTo(src, u, h, u.channels, ready)
    ensures tail == NextTail(src, u, h) && ReadyColumns(ready, u.channels, 0, HOP) == Columns(src, u, h)
  {
    forall i: nat | i < HOP
      ensures ReadyColumn(ready, u.channels, i) == ColumnOf(src, u, h, i)
    {
      forall c: nat | c < u.channels
        ensures ReadyColumn(ready, u.channels, i)[c] == ColumnOf(src, u, h, i)[c]
      {
        MadePart(src, u, h, c, i);
        assert Slot(c, i) < u.channels * GRAIN;
      }
    }
  }

  /** An output channel beyond the last kept one hears the last. */
  function PlaneFor(channel: nat, channels: nat): (plane: nat)
    requires 0 < channels
    ensures plane < channels
  {
    if channel < channels then channel else channels - 1
  }

  ghost function Rows(out: array2<real>): (rows: seq<seq<real>>)
    reads out
    ensures |rows| == out.Length0
    ensures forall c: nat, i: nat | c < out.Length0 && i < out.Length1 :: |rows[c]| == out.Length1 && rows[c][i] == out[c, i]
  {
    seq(out.Length0, c requires 0 <= c < out.Length0 reads out =>
      seq(out.Length1, i requires 0 <= i < out.Length1 reads out => out[c, i]))
  }

  /** The first `written` frames are in every output channel, and the rest is as it was. */
  ghost predicate Shows(out: array2<real>, frames: seq<Column>, written: nat, channels: nat, was: seq<seq<real>>)
    requires 0 < channels && written <= |frames| && Whole(frames, channels)
    reads out
  {
    && |was| == out.Length0
    && (forall c | 0 <= c < |was| :: |was[c]| == out.Length1)
    && forall c: nat, i: nat | c < out.Length0 && i < out.Length1 ::
         out[c, i] == if i < written then frames[i][PlaneFor(c, channels)] else was[c][i]
  }

  class TimeStretch {
    var channels: nat
    var prepared: bool
    var finished: bool
    var readPosition: real
    var tail: array<real>
    var ready: array<real>
    var readyFrames: nat
    var readyRead: nat
    var windowShape: seq<real>

    ghost predicate Sized()
      reads this
    {
      && tail != ready
      && (prepared ==>
            && 1 <= channels <= MAX_CHANNELS && |windowShape| == GRAIN
            && tail.Length == channels * HOP && ready.Length == channels * GRAIN)
    }

    ghost predicate Valid()
      reads this
    {
      Sized() && (prepared ==> readyRead <= readyFrames <= HOP)
    }

    ghost function Setting(): Setup
      reads this
    {
      Setup(channels, windowShape)
    }

    ghost function NextToMake(): (h: Hop)
      reads this, tail
    {
      Hop(readPosition, tail[..], finished)
    }

    /** The machine the buffers stand for. */
    ghost function State(): (m: Machine)
      requires Valid() && prepared
      reads this, tail, ready
      ensures HopFits(Setting(), m.hop)
    {
      Machine(NextToMake(), ReadyColumns(ready[..], channels, readyRead, readyFrames))
    }

    constructor ()
      ensures Valid() && !prepared && fresh(tail) && fresh(ready)
    {
      channels, prepared, finished, readPosition := 0, false, false, 0.0;
      tail, ready := new real[0], new real[0];
      readyFrames, readyRead, windowShape := 0, 0, [];
    }

    /** Everything is allocated here; one or two channels are kept. */
    method Prepare(wanted: int, shape: seq<real>)
      requires |shape| == GRAIN
      modifies this
      ensures Valid() && prepared && fresh(tail) && fresh(ready)
      ensures channels == (if wanted < 1 then 1 else if wanted > MAX_CHANNELS then MAX_CHANNELS else wanted)
      ensures windowShape == shape && State() == Fresh(Setting())
    {
      channels := if wanted < 1 then 1 else if wanted > MAX_CHANNELS then MAX_CHANNELS else wanted;
      tail := new real[channels * HOP];
      ready := new real[channels * GRAIN];
      windowShape := shape;
      prepared := true;
      Reset();
    }

    method Reset()
      requires Sized() && prepared
      modifies this`readPosition, this`readyFrames, this`readyRead, this`finished, tail
      ensures Valid() && State() == Fresh(Setting())
    {
      readPosition, readyFrames, readyRead, finished := 0.0, 0, 0, false;
      for i := 0 to tail.Length
        invariant Valid() && readPosition == 0.0 && readyFrames == 0 && readyRead == 0 && !finished
        invariant forall k | 0 <= k < i :: tail[k] == 0.0
      {
        tail[i] := 0.0;
      }
    }

    /** A resync moves the head; what is ready and the tail stay. */
    method SetReadPosition(position: real)
      requires Valid() && prepared
      modifies this`readPosition, this`finished
      ensures Valid() && State() == old(State()).(hop := Hop(position, old(tail[..]), false))
    {
      readPosition, finished := position, false;
    }

    method FindSimilarity(src: Source, offset: int) returns (score: real)
      requires Sized() && prepared
      ensures score == Score(src, tail[..], offset)
    {
      score := 0.0;
      var i := 0;
      while i < HOP
        invariant i % 2 == 0 && 0 <= i <= HOP && score == Similarity(src, tail[..], offset, i / 2)
      {
        score := score + tail[i] * src.read((offset + i) as real, 0);
        i := i + 2;
      }
    }

    method FindBest(src: Source) returns (best: int)
      requires Sized() && prepared
      ensures best == Best(src, NextToMake())
    {
      var nominal := Trunc(readPosition);
      best := nominal;
      if readPosition > 0.0 {
        var bestScore := FindSimilarity(src, nominal);
        ghost var k := 0;
        var offset := -SEARCH;
        while offset <= SEARCH
          invariant 0 <= k <= STEPS && offset == 4 * k - SEARCH
          invariant best == Search(src, tail[..], nominal, k) && bestScore == Score(src, tail[..], best)
          decreases SEARCH - offset
        {
          var candidate := nominal + offset;
          k := k + 1;
          offset := offset + 4;
          if candidate < 0 || candidate + GRAIN >= src.frames {
            continue;
          }
          var score := FindSimilarity(src, candidate);
          if score > bestScore {
            bestScore, best := score, candidate;
          }
        }
      }
    }

    /** Fades one channel's grain in over its tail, and keeps the rest of it as the new tail. */
    method ProduceChannel(src: Source, best: int, channel: nat, tailBase: nat, readyBase: nat)
      requires Sized() && prepared && readyFrames == 0
      requires tailBase + HOP <= tail.Length && readyBase + GRAIN <= ready.Length
      modifies tail, ready
      ensures TailStep(src, Setting(), best, channel, tailBase, HOP, old(tail[..]), tail[..])
      ensures MadeStep(src, Setting(), best, channel, readyBase, HOP, old(tail[tailBase..]), old(ready[..]), ready[..])
    {
      ghost var u, lastTail, lastReady := Setting(), tail[..], ready[..];
      for i := 0 to HOP
        invariant TailStep(src, u, best, channel, tailBase, i, lastTail, tail[..])
        invariant MadeStep(src, u, best, channel, readyBase, i, lastTail[tailBase..], lastReady, ready[..])
      {
        var grainIn := src.read((best + i) as real, channel);
        var grainOut := src.read((best + i + HOP) as real, channel);
        FadeOutStep(src, u, best, channel, tailBase, i, lastTail, tail[..]);
        FadeInStep(src, u, best, channel, readyBase, i, lastTail[tailBase..], lastReady, ready[..]);
        assert tail[tailBase + i] == tail[..][tailBase + i] == lastTail[tailBase..][i];
        ready[readyBase + readyFrames + i] := tail[tailBase + i] + grainIn * windowShape[i];
        tail[tailBase + i] := grainOut * windowShape[i + HOP];
      }
    }

    /** Every channel's next frames, and its next tail. */
    method ProduceChannels(src: Source)
      requires Sized() && prepared && readyFrames == 0
      modifies tail, ready
      ensures tail[..] == NextTail(src, Setting(), old(NextToMake()))
      ensures ReadyColumns(ready[..], channels, 0, HOP) == Columns(src, Setting(), old(NextToMake()))
    {
      ghost var u, h := Setting(), NextToMake();
      var best := FindBest(src);
      for channel := 0 to channels
        invariant TailTo(src, u, h, channel, tail[..]) && MadeTo(src, u, h, channel, ready[..])
      {
        ghost var lastTail, lastReady := tail[..], ready[..];
        InPlane(channels, channel, 0);
        assert channel * GRAIN + GRAIN <= channels * GRAIN;
        SamePlane(src, u, h, channel, lastTail);
        ProduceChannel(src, best, channel, channel * HOP, channel * GRAIN);
        TailNext(src, u, h, channel, lastTail, tail[..]);
        MadeNext(src, u, h, channel, lastReady, ready[..]);
      }
      AllMade(src, u, h, tail[..], ready[..]);
    }

    /** One hop's frames made ready. */
    method ProduceHop(src: Source, ratio: real)
      requires Sized() && prepared && readyFrames == 0 && readyRead == 0
      modifies this`readPosition, this`readyFrames, this`finished, tail, ready
      ensures Valid() && State() ==
        Machine(NextHop(src, Setting(), ratio, old(NextToMake())), Columns(src, Setting(), old(NextToMake())))
    {
      ghost var h := NextToMake();
      ProduceChannels(src);
      readyFrames := readyFrames + HOP;
      readPosition := readPosition + HOP as real * ratio;
      if 0 < src.frames && readPosition + GRAIN as real >= src.frames as real {
        finished := true;
      }
      assert NextToMake() == NextHop(src, Setting(), ratio, h);
    }

    /** What asking for `n` more frames would give, and leave. */
    ghost predicate Leaves(src: Source, ratio: real, n: nat, frames: seq<Column>, end: Machine)
      requires Valid() && prepared
      reads this, tail, ready
    {
      Rendered(src, Setting(), ratio, State(), n) == frames && After(src, Setting(), ratio, State(), n) == end
    }

    /** Empties the ready frames that have all been handed out; there are no more. */
    method Clear(src: Source, ratio: real, ghost n: nat, ghost frames: seq<Column>, ghost end: Machine)
      requires Valid() && prepared && readyRead >= readyFrames && finished && Leaves(src, ratio, n, frames, end)
      modifies this`readyRead, this`readyFrames
      ensures Valid() && frames == [] && Leaves(src, ratio, 0, [], end)
    {
      NothingLeft(src, Setting(), ratio, State(), n);
      readyRead, readyFrames := 0, 0;
      assert State() == old(State());
    }

    lemma AllOut(src: Source, ratio: real, frames: seq<Column>, written: nat, end: Machine)
      requires Valid() && prepared && written <= |frames| && Leaves(src, ratio, 0, frames[written..], end)
      ensures written == |frames| && frames[written..] == []
    {
    }

    /** Makes sure that frames are ready; the stream to come is the same. */
    method Refill(src: Source, ratio: real, ghost n: nat, ghost frames: seq<Column>, ghost end: Machine)
      requires Valid() && prepared && 0 < n && (readyRead < readyFrames || !finished)
      requires Leaves(src, ratio, n, frames, end)
      modifies this`readPosition, this`readyFrames, this`readyRead, this`finished, tail, ready
      ensures Valid() && readyRead < readyFrames && Leaves(src, ratio, n, frames, end)
    {
      if readyRead >= readyFrames {
        readyRead, readyFrames := 0, 0;
        assert State() == old(State());
        HopFirst(src, Setting(), ratio, State(), n);
        ProduceHop(src, ratio);
      }
    }

    /** Hands `take` ready frames to every output channel; they are the stream's from `written` on. */
    method HandOut(out: array2<real>, written: nat, take: nat, ghost frames: seq<Column>)
      requires Valid() && prepared && readyRead + take <= readyFrames && written + take <= out.Length1
      requires written + take <= |frames| && Whole(frames, channels)
      requires forall i | written <= i < written + take :: frames[i] == ReadyColumn(ready[..], channels, readyRead + (i - written))
      modifies out
      ensures forall c: nat, i: nat | c < out.Length0 && i < out.Length1 :: out[c, i] ==
                if written <= i < written + take then frames[i][PlaneFor(c, channels)] else old(out[c, i])
    {
      for channel := 0 to out.Length0
        invariant forall c: nat, i: nat | c < out.Length0 && i < out.Length1 :: out[c, i] ==
                    if c < channel && written <= i < written + take
                    then frames[i][PlaneFor(c, channels)] else old(out[c, i])
      {
        var plane := PlaneFor(channel, channels);
        var base := plane * GRAIN;
        for i := 0 to take
          invariant forall c: nat, j: nat | c < out.Length0 && j < out.Length1 :: out[c, j] ==
                      if written <= j && (if c == channel then j < written + i else c < channel && j < written + take)
                      then frames[j][PlaneFor(c, channels)] else old(out[c, j])
        {
          SlotsFit(channels, readyRead + i);
          assert frames[written + i] == ReadyColumn(ready[..], channels, readyRead + (written + i - written));
          out[channel, written + i] := ready[base + readyRead + i];
        }
      }
    }

    /** Hands out what is ready, up to `most` frames. */
    method Deal(src: Source, ratio: real, out: array2<real>, written: nat, most: nat, ghost frames: seq<Column>,
                ghost end: Machine, ghost was: seq<seq<real>>) returns (take: nat)
      requires Valid() && prepared && 0 < most && written + most <= out.Length1 && readyRead < readyFrames
      requires written <= |frames| && Whole(frames, channels) && Leaves(src, ratio, most, frames[written..], end)
      requires Shows(out, frames, written, channels, was)
      modifies this`readyRead, out
      ensures Valid() && 0 < take <= most && written + take <= |frames|
      ensures Leaves(src, ratio, most - take, frames[written + take..], end)
      ensures Shows(out, frames, written + take, channels, was)
    {
      var available := readyFrames - readyRead;
      take := if available < most then available else most;
      Taken(src, ratio, written, most, frames, take);
      HandOut(out, written, take, frames);
      readyRead := readyRead + take;
    }

    /** The machine once `take` frames are taken. */
    lemma Taken(src: Source, ratio: real, written: nat, most: nat, frames: seq<Column>, take: nat)
      requires Valid() && prepared && take <= most && readyRead + take <= readyFrames && written <= |frames|
      requires frames[written..] == Rendered(src, Setting(), ratio, State(), most)
      ensures written + take <= |frames|
      ensures forall i | written <= i < written + take ::
                frames[i] == ReadyColumn(ready[..], channels, readyRead + (i - written))
      ensures var rest := Machine(NextToMake(), ReadyColumns(ready[..], channels, readyRead + take, readyFrames));
        && frames[written + take..] == Rendered(src, Setting(), ratio, rest, most - take)
        && After(src, Setting(), ratio, rest, most - take) == After(src, Setting(), ratio, State(), most)
    {
      var m := State();
      var rest := ReadyColumns(ready[..], channels, readyRead + take, readyFrames);
      assert m.ready[take..] == rest;
      assert m.(ready := rest) == Machine(m.hop, rest);
      TakeReady(src, Setting(), ratio, m, take, most);
      FromTheReady(frames, written, m.ready, take, Rendered(src, Setting(), ratio, Machine(m.hop, rest), most - take));
    }

    /** The next `n` frames of the stream, or all that are left. */
    method Render(src: Source, ratio: real, out: array2<real>, n: int) returns (written: nat)
      requires Valid() && n <= out.Length1
      modifies this`readPosition, this`readyFrames, this`readyRead, this`finished, tail, ready, out
      ensures Valid()
      ensures old(!prepared || n <= 0 || ratio <= 0.0) ==>
                written == 0 && unchanged(this) && unchanged(tail) && unchanged(ready) && unchanged(out)
      ensures old(prepared && 0 < n && 0.0 < ratio) ==>
        var frames := Rendered(src, Setting(), ratio, old(State()), n);
        && written == |frames| && Whole(frames, channels) && State() == After(src, Setting(), ratio, old(State()), n)
        && forall c: nat, i: nat | c < out.Length0 && i < out.Length1 ::
             out[c, i] == if i < written then frames[i][PlaneFor(c, channels)] else old(out[c, i])
    {
      written := 0;
      if !prepared || n <= 0 || ratio <= 0.0 {
        return;
      }
      WholeRendered(src, Setting(), ratio, State(), n);
      written := Run(src, ratio, out, n, Rendered(src, Setting(), ratio, State(), n));
    }

    /** One turn of the loop: a fresh hop if one is needed, and what is ready handed out. */
    method Turn(src: Source, ratio: real, out: array2<real>, written: nat, left: nat, ghost frames: seq<Column>,
                ghost end: Machine, ghost was: seq<seq<real>>) returns (take: nat)
      requires Valid() && prepared && 0 < left && written + left <= out.Length1
      requires written <= |frames| && Whole(frames, channels) && Leaves(src, ratio, left, frames[written..], end)
      requires Shows(out, frames, written, channels, was)
      modifies this`readPosition, this`readyFrames, this`readyRead, this`finished, tail, ready, out
      ensures Valid() && take <= left && written + take <= |frames|
      ensures take == 0 ==> written == |frames| && Leaves(src, ratio, 0, [], end)
      ensures 0 < take ==> Leaves(src, ratio, left - take, frames[written + take..], end)
      ensures Shows(out, frames, written + take, channels, was)
    {
      if readyRead >= readyFrames && finished {
        Clear(src, ratio, left, frames[written..], end);
        take := 0;
      } else {
        Refill(src, ratio, left, frames[written..], end);
        take := Deal(src, ratio, out, written, left, frames, end, was);
      }
    }

    method Run(src: Source, ratio: real, out: array2<real>, n: nat, ghost frames: seq<Column>) returns (written: nat)
      requires Valid() && prepared && n <= out.Length1
      requires frames == Rendered(src, Setting(), ratio, State(), n) && Whole(frames, channels)
      modifies this`readPosition, this`readyFrames, this`readyRead, this`finished, tail, ready, out
      ensures Valid() && written == |frames| && Leaves(src, ratio, 0, [], old(After(src, Setting(), ratio, State(), n)))
      ensures Shows(out, frames, written, channels, old(Rows(out)))
    {
      written := 0;
      ghost var end, was := After(src, Setting(), ratio, State(), n), Rows(out);
      var left := n;
      while 0 < left
        invariant Valid() && prepared && left == n - written && written <= |frames|
        invariant Leaves(src, ratio, left, frames[written..], end)
        invariant Shows(out, frames, written, channels, was)
        decreases left
      {
        var take := Turn(src, ratio, out, written, left, frames, end, was);
        if take == 0 {
          return;
        }
        written, left := written + take, left - take;
      }
      AllOut(src, ratio, frames, written, end);
    }
  }

  lemma FromTheReady(frames: seq<Column>, written: nat, ready: seq<Column>, take: nat, rest: seq<Column>)
    requires written <= |frames| && take <= |ready| && frames[written..] == ready[..take] + rest
    ensures written + take <= |frames| && frames[written + take..] == rest
    ensures forall i | written <= i < written + take :: frames[i] == ready[i - written]
  {
    assert frames[written..][take..] == frames[written + take..];
    forall i | written <= i < written + take
      ensures frames[i] == ready[i - written]
    {
      assert frames[written..][i - written] == ready[..take][i - written];
    }
  }
}
