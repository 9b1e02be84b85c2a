/**
 Pitch-preserving stretching: hops of overlapped grains, handed out as they are asked for. How the output is
 asked for makes no difference to what it is, and how much there is of it can be told in advance. The source
 and the window's shape are any functions; samples are exact reals.
 */
module TimeStretches {
  import opened TimeMaps

  const HOP: nat := 256
  const GRAIN: nat := 512
  const SEARCH: int := 128

  /** What is stretched: its length in frames, and its value at any offset of any channel. */
  datatype Source = Source(frames: int, read: (real, int) -> real)

  /** What the stretcher is set up with: the channels it keeps, and the two halves of its window. */
  datatype Setup = Setup(channels: nat, shape: seq<real>)

  predicate Prepared(u: Setup) {
    1 <= u.channels && |u.shape| == GRAIN
  }

  /** Where the read head is, what the last grain left to fade over, and whether the source is used up. */
  datatype Hop = Hop(position: real, tail: seq<real>, finished: bool)

  type Column = seq<real>

  // ----- one hop ---------------------------------------------------------------------------

  function Trunc(x: real): int {
    if x < 0.0 then -((-x).Floor) else x.Floor
  }

  /** How well the grain at `offset` continues the tail, over every second frame before `i`. */
  function Similarity(src: Source, tail: seq<real>, offset: int, i: nat): real
    requires HOP <= |tail| && i <= HOP / 2
  {
    if i == 0 then 0.0
    else
      Similarity(src, tail, offset, i - 1) + tail[2 * (i - 1)] * src.read((offset + 2 * (i - 1)) as real, 0)
  }

  function Score(src: Source, tail: seq<real>, offset: int): real
    requires HOP <= |tail|
  {
    Similarity(src, tail, offset, HOP / 2)
  }

  predicate Candidate(src: Source, offset: int) {
    0 <= offset && offset + GRAIN < src.frames
  }

  /** The best of the nominal offset and the first `k` around it that fit; the earliest of equals. */
  function Search(src: Source, tail: seq<real>, nominal: int, k: nat): int
    requires HOP <= |tail|
  {
    if k == 0 then nominal
    else
      var best := Search(src, tail, nominal, k - 1);
      var candidate := nominal - SEARCH + 4 * (k - 1);
      if Candidate(src, candidate) && Score(src, tail, candidate) > Score(src, tail, best) then candidate else best
  }

  const STEPS: nat := 65

  function Best(src: Source, h: Hop): int
    requires HOP <= |h.tail|
  {
    var nominal := Trunc(h.position);
    if h.position > 0.0 then Search(src, h.tail, nominal, STEPS) else nominal
  }

  predicate HopFits(u: Setup, h: Hop) {
    Prepared(u) && |h.tail| == u.channels * HOP && HOP <= |h.tail|
  }

  function At(channel: nat, i: nat): nat {
    channel * HOP + i
  }

  lemma InPlane(channels: nat, channel: nat, i: nat)
    requires channel < channels && i < HOP
    ensures At(channel, i) < channels * HOP && At(channel, i) + channel * HOP + HOP <= channels * GRAIN
  {
    assert channel * HOP + HOP <= channels * HOP;
  }

  /** Frame `i` of the hop: the tail, with the new grain faded in over it. */
  function ColumnOf(src: Source, u: Setup, h: Hop, i: nat): (column: Column)
    requires HopFits(u, h) && i < HOP
    ensures |column| == u.channels
  {
    var best := Best(src, h);
    seq(u.channels, c requires 0 <= c < u.channels =>
      InPlane(u.channels, c, i); h.tail[At(c, i)] + src.read((best + i) as real, c) * u.shape[i])
  }

  function Columns(src: Source, u: Setup, h: Hop): (columns: seq<Column>)
    requires HopFits(u, h)
    ensures |columns| == HOP && forall i | 0 <= i < HOP :: columns[i] == ColumnOf(src, u, h, i)
  {
    seq(HOP, i requires 0 <= i < HOP => ColumnOf(src, u, h, i))
  }

  /** The second half of the grain, faded out: the next hop's tail. */
  function NextTail(src: Source, u: Setup, h: Hop): (tail: seq<real>)
    requires HopFits(u, h)
    ensures |tail| == |h.tail|
  {
    var best := Best(src, h);
    seq(|h.tail|, k requires 0 <= k < |h.tail| =>
      src.read((best + k % HOP + HOP) as real, k / HOP) * u.shape[k % HOP + HOP])
  }

  /** The read head moves by the nominal hop, wherever the search landed. */
  function NextHop(src: Source, u: Setup, ratio: real, h: Hop): (next: Hop)
    requires HopFits(u, h)
    ensures HopFits(u, next)
  {
    var position := h.position + HOP as real * ratio;
    Hop(position, NextTail(src, u, h),
        h.finished || (0 < src.frames && position + GRAIN as real >= src.frames as real))
  }

  // ----- frame by frame ----------------------------------------------------------------------

  /** The next hop to be made, and the frames of the last that have not been handed out. */
  datatype Machine = Machine(hop: Hop, ready: seq<Column>)

  predicate Whole(columns: seq<Column>, channels: nat) {
    forall i | 0 <= i < |columns| :: |columns[i]| == channels
  }

  /** Up to `n` frames, one by one. */
  function Rendered(src: Source, u: Setup, ratio: real, m: Machine, n: nat): (out: seq<Column>)
    requires HopFits(u, m.hop)
    ensures |out| <= n
    decreases n
  {
    if n == 0 then []
    else if m.ready != [] then [m.ready[0]] + Rendered(src, u, ratio, m.(ready := m.ready[1..]), n - 1)
    else if m.hop.finished then []
    else
      var columns := Columns(src, u, m.hop);
      [columns[0]] + Rendered(src, u, ratio, Machine(NextHop(src, u, ratio, m.hop), columns[1..]), n - 1)
  }

  function After(src: Source, u: Setup, ratio: real, m: Machine, n: nat): (after: Machine)
    requires HopFits(u, m.hop)
    ensures HopFits(u, after.hop)
    decreases n
  {
    if n == 0 then m
    else if m.ready != [] then After(src, u, ratio, m.(ready := m.ready[1..]), n - 1)
    else if m.hop.finished then m
    else After(src, u, ratio, Machine(NextHop(src, u, ratio, m.hop), Columns(src, u, m.hop)[1..]), n - 1)
  }

  /** Every frame that is handed out has all the kept channels. */
  lemma {:induction false} WholeRendered(src: Source, u: Setup, ratio: real, m: Machine, n: nat)
    requires HopFits(u, m.hop) && Whole(m.ready, u.channels)
    ensures Whole(Rendered(src, u, ratio, m, n), u.channels)
    decreases n
  {
    if n == 0 {
    } else if m.ready != [] {
      WholeRendered(src, u, ratio, m.(ready := m.ready[1..]), n - 1);
    } else if !m.hop.finished {
      WholeRendered(src, u, ratio, Machine(NextHop(src, u, ratio, m.hop), Columns(src, u, m.hop)[1..]), n - 1);
    }
  }

  /** Asking for `n` frames and then for `k` is asking for `n + k`. */
  lemma {:induction false} RenderSplit(src: Source, u: Setup, ratio: real, m: Machine, n: nat, k: nat)
    requires HopFits(u, m.hop)
    ensures Rendered(src, u, ratio, m, n + k) ==
            Rendered(src, u, ratio, m, n) + Rendered(src, u, ratio, After(src, u, ratio, m, n), k)
    ensures After(src, u, ratio, m, n + k) == After(src, u, ratio, After(src, u, ratio, m, n), k)
    decreases n
  {
    if n == 0 {
    } else if m.ready != [] {
      var rest := m.(ready := m.ready[1..]);
      RenderSplit(src, u, ratio, rest, n - 1, k);
      Front(m.ready[0], Rendered(src, u, ratio, rest, n - 1), Rendered(src, u, ratio, After(src, u, ratio, m, n), k));
    } else if m.hop.finished {
      NothingLeft(src, u, ratio, m, n + k);
      NothingLeft(src, u, ratio, m, k);
    } else {
      var columns := Columns(src, u, m.hop);
      var rest := Machine(NextHop(src, u, ratio, m.hop), columns[1..]);
      RenderSplit(src, u, ratio, rest, n - 1, k);
      Front(columns[0], Rendered(src, u, ratio, rest, n - 1), Rendered(src, u, ratio, After(src, u, ratio, m, n), k));
    }
  }

  lemma Front(x: Column, a: seq<Column>, b: seq<Column>)
    ensures [x] + (a + b) == [x] + a + b
  {
  }

  lemma NothingLeft(src: Source, u: Setup, ratio: real, m: Machine, n: nat)
    requires HopFits(u, m.hop) && m.hop.finished && m.ready == []
    ensures Rendered(src, u, ratio, m, n) == [] && After(src, u, ratio, m, n) == m
  {
  }

  /** Frames that are ready are handed out as they are. */
  lemma {:induction false} ReadyFirst(src: Source, u: Setup, ratio: real, m: Machine, n: nat)
    requires HopFits(u, m.hop) && n <= |m.ready|
    ensures Rendered(src, u, ratio, m, n) == m.ready[..n]
    ensures After(src, u, ratio, m, n) == m.(ready := m.ready[n..])
    decreases n
  {
    if 0 < n {
      ReadyFirst(src, u, ratio, m.(ready := m.ready[1..]), n - 1);
      assert m.ready[..n] == [m.ready[0]] + m.ready[1..][..n - 1];
      assert m.ready[1..][n - 1..] == m.ready[n..];
    }
  }

  lemma {:induction false} TakeReady(src: Source, u: Setup, ratio: real, m: Machine, take: nat, n: nat)
    requires HopFits(u, m.hop) && take <= |m.ready| && take <= n
    ensures var rest := m.(ready := m.ready[take..]);
      Rendered(src, u, ratio, m, n) == m.ready[..take] + Rendered(src, u, ratio, rest, n - take)
      && After(src, u, ratio, m, n) == After(src, u, ratio, rest, n - take)
  {
    ReadyFirst(src, u, ratio, m, take);
    RenderSplit(src, u, ratio, m, take, n - take);
  }

  /** Making a hop first changes nothing: the next frame would have made it. */
  lemma {:induction false} HopFirst(src: Source, u: Setup, ratio: real, m: Machine, n: nat)
    requires HopFits(u, m.hop) && m.ready == [] && !m.hop.finished && 0 < n
    ensures var made := Machine(NextHop(src, u, ratio, m.hop), Columns(src, u, m.hop));
      Rendered(src, u, ratio, m, n) == Rendered(src, u, ratio, made, n)
      && After(src, u, ratio, m, n) == After(src, u, ratio, made, n)
  {
  }

  // ----- how much there is ---------------------------------------------------------------------

  function Fresh(u: Setup): (m: Machine)
    requires Prepared(u)
    ensures HopFits(u, m.hop)
  {
    Machine(Hop(0.0, seq(u.channels * HOP, _ => 0.0), false), [])
  }

  function Reach(ratio: real, k: nat): real {
    (HOP * k) as real * ratio
  }

  /** The hop after which the source is used up. */
  predicate LastHop(src: Source, ratio: real, k: nat) {
    && 1 <= k && Reach(ratio, k) + GRAIN as real >= src.frames as real
    && forall j: nat | 1 <= j < k :: Reach(ratio, j) + GRAIN as real < src.frames as real
  }

  lemma ReachNext(ratio: real, k: nat)
    ensures Reach(ratio, k) + HOP as real * ratio == Reach(ratio, k + 1)
  {
  }

  /** Once the ready frames are out, the rest follows from the hop alone. */
  lemma {:induction false} ReadyThenRest(src: Source, u: Setup, ratio: real, m: Machine, n: nat)
    requires HopFits(u, m.hop) && |m.ready| <= n
    ensures Rendered(src, u, ratio, m, n) == m.ready + Rendered(src, u, ratio, Machine(m.hop, []), n - |m.ready|)
    ensures After(src, u, ratio, m, n) == After(src, u, ratio, Machine(m.hop, []), n - |m.ready|)
    decreases |m.ready|
  {
    if m.ready == [] {
      assert m == Machine(m.hop, []);
    } else {
      var rest := m.(ready := m.ready[1..]);
      ReadyThenRest(src, u, ratio, rest, n - 1);
      assert m.ready == [m.ready[0]] + rest.ready;
    }
  }

  /** One hop is whole, and the rest follows from the next. */
  lemma {:induction false} OneHop(src: Source, u: Setup, ratio: real, h: Hop, n: nat)
    requires HopFits(u, h) && !h.finished
    ensures |Rendered(src, u, ratio, Machine(h, []), n)| ==
            if n <= HOP then n else HOP + |Rendered(src, u, ratio, Machine(NextHop(src, u, ratio, h), []), n - HOP)|
  {
    if 0 < n {
      var made := Machine(NextHop(src, u, ratio, h), Columns(src, u, h));
      HopFirst(src, u, ratio, Machine(h, []), n);
      if n <= HOP {
        ReadyFirst(src, u, ratio, made, n);
      } else {
        ReadyThenRest(src, u, ratio, made, n);
      }
    }
  }

  lemma NextReach(src: Source, u: Setup, ratio: real, h: Hop, j: nat, k: nat)
    requires HopFits(u, h) && 0 < src.frames && LastHop(src, ratio, k) && j < k
    requires h.position == Reach(ratio, j) && !h.finished
    ensures NextHop(src, u, ratio, h).position == Reach(ratio, j + 1)
    ensures NextHop(src, u, ratio, h).finished == (j + 1 == k)
  {
    ReachNext(ratio, j);
  }

  /** From any hop before the last, what is left is whole hops up to it. */
  lemma {:induction false} HopsLeft(src: Source, u: Setup, ratio: real, h: Hop, j: nat, k: nat, n: nat)
    requires HopFits(u, h) && 0 < src.frames && LastHop(src, ratio, k) && j <= k
    requires h.position == Reach(ratio, j) && h.finished == (j == k)
    ensures |Rendered(src, u, ratio, Machine(h, []), n)| == if n < HOP * (k - j) then n else HOP * (k - j)
    decreases k - j
  {
    if j == k {
      NothingLeft(src, u, ratio, Machine(h, []), n);
    } else {
      OneHop(src, u, ratio, h, n);
      if HOP < n {
        NextReach(src, u, ratio, h, j, k);
        HopsLeft(src, u, ratio, NextHop(src, u, ratio, h), j + 1, k, n - HOP);
      }
    }
  }

  /** A source that is not empty yields whole hops and nothing more: 256 frames for each, up to the first after
      which the read head is within a grain of the end. */
  lemma {:induction false} TotalFrames(src: Source, u: Setup, ratio: real, k: nat, n: nat)
    requires Prepared(u) && 0 < src.frames && LastHop(src, ratio, k)
    ensures |Rendered(src, u, ratio, Fresh(u), n)| == if n < HOP * k then n else HOP * k
  {
    HopsLeft(src, u, ratio, Fresh(u).hop, 0, k, n);
  }

  /** At every positive ratio there is such a hop. */
  lemma {:induction false} LastHopExists(src: Source, ratio: real) returns (k: nat)
    requires 0.0 < ratio
    ensures LastHop(src, ratio, k)
  {
    var far := EnoughHops(src, ratio);
    k := 1;
    while k < far && Reach(ratio, k) + GRAIN as real < src.frames as real
      invariant 1 <= k <= far
      invariant forall j: nat | 1 <= j < k :: Reach(ratio, j) + GRAIN as real < src.frames as real
    {
      k := k + 1;
    }
  }

  lemma EnoughHops(src: Source, ratio: real) returns (k: nat)
    requires 0.0 < ratio
    ensures 1 <= k && Reach(ratio, k) + GRAIN as real >= src.frames as real
  {
    var frames := if src.frames < 1 then 1 else src.frames;
    Positive(frames as real, ratio);
    var x := frames as real / ratio;
    assert Scale(x, ratio) == frames as real;
    k := x.Floor + 1;
    ScaleOrder(x, (HOP * k) as real, ratio);
  }
}
