/**
 Where a grain is taken from and how grains make up the output. The search maximises: nothing that fits matches better,
 and nothing earlier matches as well. Each frame of the output is the end of one grain faded into the start of the next.
 */
module StretchMeanings {
  import opened TimeStretches

  // ----- the search -----------------------------------------------------------------------------

  /** The sum of every second product of the tail and the source from `offset` on, up to frame `i` of the hop. */
  ghost predicate Correlates(src: Source, tail: seq<real>, offset: int, sums: seq<real>) {
    && 256 <= |tail| && |sums| == 129 && sums[0] == 0.0
    && forall i | 0 <= i < 128 :: sums[i + 1] == sums[i] + tail[2 * i] * src.read((offset + 2 * i) as real, 0)
  }

  /** The score is that sum over the whole hop, of the first channel. */
  lemma {:induction false} ScoreMeans(src: Source, tail: seq<real>, offset: int, sums: seq<real>)
    requires Correlates(src, tail, offset, sums)
    ensures Score(src, tail, offset) == sums[128]
  {
    PartMeans(src, tail, offset, sums, 128);
  }

  lemma {:induction false} PartMeans(src: Source, tail: seq<real>, offset: int, sums: seq<real>, i: nat)
    requires Correlates(src, tail, offset, sums) && i <= 128
    ensures Similarity(src, tail, offset, i) == sums[i]
  {
    if 0 < i {
      PartMeans(src, tail, offset, sums, i - 1);
      assert sums[(i - 1) + 1] == sums[i - 1] + tail[2 * (i - 1)] * src.read((offset + 2 * (i - 1)) as real, 0);
    }
  }

  /** The `j`th place around the nominal one, every fourth frame from half a hop before to half a hop after; it fits if a
      whole grain and a frame lie in the source from there. */
  function Place(nominal: int, j: nat): int {
    nominal - 128 + 4 * j
  }

  predicate Fits(src: Source, offset: int) {
    0 <= offset && offset + 512 < src.frames
  }

  /** `best` is the nominal place, or one of the first `k` that fits and matches better than the nominal one and every
      earlier one that fits. None of those matches better. */
  ghost predicate Chosen(src: Source, tail: seq<real>, nominal: int, k: nat, best: int)
    requires 256 <= |tail|
  {
    && Score(src, tail, nominal) <= Score(src, tail, best)
    && (forall j: nat | j < k && Fits(src, Place(nominal, j)) ::
          Score(src, tail, Place(nominal, j)) <= Score(src, tail, best))
    && (best == nominal || exists j: nat :: j < k && FirstBest(src, tail, nominal, j, best))
  }

  ghost predicate FirstBest(src: Source, tail: seq<real>, nominal: int, j: nat, best: int)
    requires 256 <= |tail|
  {
    && best == Place(nominal, j) && Fits(src, best)
    && Score(src, tail, nominal) < Score(src, tail, best)
    && forall i: nat | i < j && Fits(src, Place(nominal, i)) ::
         Score(src, tail, Place(nominal, i)) < Score(src, tail, best)
  }

  lemma {:induction false} SearchMeans(src: Source, tail: seq<real>, nominal: int, k: nat)
    requires 256 <= |tail|
    ensures Chosen(src, tail, nominal, k, Search(src, tail, nominal, k))
  {
    if 0 < k {
      var before, after := Search(src, tail, nominal, k - 1), Search(src, tail, nominal, k);
      SearchMeans(src, tail, nominal, k - 1);
      if after == Place(nominal, k - 1) && Score(src, tail, before) < Score(src, tail, after) {
        assert FirstBest(src, tail, nominal, k - 1, after);
      }
    }
  }

  /** Where the next grain is taken from: at the very start the nominal place, and from then on the chosen one of all 65
      around it. */
  lemma {:induction false} BestMeans(src: Source, h: Hop)
    requires 256 <= |h.tail|
    ensures h.position <= 0.0 ==> Best(src, h) == Trunc(h.position)
    ensures 0.0 < h.position ==> Chosen(src, h.tail, Trunc(h.position), 65, Best(src, h))
    ensures 0.0 < h.position ==> Trunc(h.position) as real <= h.position < Trunc(h.position) as real + 1.0
  {
    if 0.0 < h.position {
      SearchMeans(src, h.tail, Trunc(h.position), 65);
    }
  }

  /** The choice is one place. */
  lemma {:induction false} ChosenOnce(src: Source, tail: seq<real>, nominal: int, k: nat, best: int, other: int)
    requires 256 <= |tail| && Chosen(src, tail, nominal, k, best) && Chosen(src, tail, nominal, k, other)
    ensures best == other
  {
  }

  // ----- overlapped grains ------------------------------------------------------------------------

  /** Frame `i` of a channel in the grain that is taken from `offset`, shaped by the window. */
  function Shaped(src: Source, u: Setup, offset: int, c: nat, i: nat): real
    requires Prepared(u) && i < 512
  {
    src.read((offset + i) as real, c) * u.shape[i]
  }

  /** Frame `i` of a hop is what the last grain left there and the first half of the new one; after a hop, the second half
      of its grain and the first half of the next. */
  lemma {:induction false} HopMeans(src: Source, u: Setup, ratio: real, h: Hop, c: nat, i: nat)
    requires HopFits(u, h) && c < u.channels && i < 256
    ensures At(c, i) < |h.tail| && Columns(src, u, h)[i][c] == h.tail[At(c, i)] + Shaped(src, u, Best(src, h), c, i)
    ensures var next := NextHop(src, u, ratio, h);
      Columns(src, u, next)[i][c] == Shaped(src, u, Best(src, h), c, i + 256) + Shaped(src, u, Best(src, next), c, i)
  {
    var next := NextHop(src, u, ratio, h);
    InPlane(u.channels, c, i);
    assert At(c, i) % HOP == i && At(c, i) / HOP == c;
    assert next.tail[At(c, i)] == src.read((Best(src, h) + i + HOP) as real, c) * u.shape[i + HOP];
  }

  /** The read head moves by the hop's share of the source, and the source is used up once no grain is left in it. */
  lemma HeadMoves(src: Source, u: Setup, ratio: real, h: Hop)
    requires HopFits(u, h)
    ensures var next := NextHop(src, u, ratio, h);
      && next.position == h.position + 256.0 * ratio
      && (next.finished <==> h.finished || (0 < src.frames && src.frames as real - 512.0 <= next.position))
  {
  }


  /** With nothing left over, the next 256 frames are those of the hop, in order, and then the next hop is due. */
  lemma {:induction false} HopComesWhole(src: Source, u: Setup, ratio: real, h: Hop)
    requires HopFits(u, h) && !h.finished
    ensures Rendered(src, u, ratio, Machine(h, []), 256) == Columns(src, u, h)
    ensures After(src, u, ratio, Machine(h, []), 256) == Machine(NextHop(src, u, ratio, h), [])
  {
    var columns, next := Columns(src, u, h), NextHop(src, u, ratio, h);
    ReadyFirst(src, u, ratio, Machine(next, columns[1..]));
    assert columns == [columns[0]] + columns[1..];
  }

  lemma {:induction false} ReadyFirst(src: Source, u: Setup, ratio: real, m: Machine)
    requires HopFits(u, m.hop)
    ensures Rendered(src, u, ratio, m, |m.ready|) == m.ready
    ensures After(src, u, ratio, m, |m.ready|) == m.(ready := [])
    decreases |m.ready|
  {
    if m.ready != [] {
      ReadyFirst(src, u, ratio, m.(ready := m.ready[1..]));
      assert m.ready == [m.ready[0]] + m.ready[1..];
    }
  }
}
