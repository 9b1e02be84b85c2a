/**
 Streaming sample-rate conversion. However the input is cut into blocks, the output is the one a single pass
 over the whole input gives; the history that is kept always covers what later windows need; and what is
 dropped is always there to drop exactly when at most 33 input frames are consumed per output frame. The
 filter's weights are any function; both channels are kept as one sequence of frames.
 */
module Resampler {
  import opened TimeMaps
  import opened MixerRender

  const TAPS: int := 16
  const SLACK: int := 4096

  function Times(x: real, f: Frame): Frame {
    Frame(x * f.left, x * f.right)
  }

  // ----- one pass over the whole input ---------------------------------------------------------

  /** The window's sum over the taps before `tap`; frames outside the input are silent. */
  function WindowSum(weight: real -> real, x: seq<Frame>, centre: int, fraction: real, tap: int): Frame
    decreases tap + TAPS
  {
    if tap <= -TAPS + 1 then SILENCE
    else
      var rest := WindowSum(weight, x, centre, fraction, tap - 1);
      var index := centre + tap - 1;
      if 0 <= index < |x| then Plus(rest, Times(weight((tap - 1) as real - fraction), x[index])) else rest
  }

  function Position(ratio: real, k: nat): real {
    k as real * ratio
  }

  function Centre(ratio: real, k: nat): int {
    Position(ratio, k).Floor
  }

  function Output(weight: real -> real, cutoff: real, ratio: real, x: seq<Frame>, k: nat): Frame {
    var centre := Centre(ratio, k);
    Times(cutoff, WindowSum(weight, x, centre, Position(ratio, k) - centre as real, TAPS + 1))
  }

  function Outputs(weight: real -> real, cutoff: real, ratio: real, x: seq<Frame>, n: nat): seq<Frame> {
    seq(n, k requires 0 <= k < n => Output(weight, cutoff, ratio, x, k))
  }

  /** Output `k` can be finished once this much input has come. */
  predicate Complete(ratio: real, k: nat, received: int) {
    Centre(ratio, k) + TAPS < received
  }

  /** The first `n` outputs can be finished. */
  predicate Reached(ratio: real, n: nat, received: int) {
    n == 0 || Complete(ratio, n - 1, received)
  }

  /** `n` is how many outputs can be finished. */
  predicate Finished(ratio: real, n: nat, received: int) {
    Reached(ratio, n, received) && !Complete(ratio, n, received)
  }

  lemma {:induction false} WindowLocal(weight: real -> real, x: seq<Frame>, y: seq<Frame>, centre: int,
                                       fraction: real, tap: int)
    requires tap <= TAPS + 1 && centre + TAPS < |x|
    ensures WindowSum(weight, x + y, centre, fraction, tap) == WindowSum(weight, x, centre, fraction, tap)
    decreases tap + TAPS
  {
    if -TAPS + 1 < tap {
      WindowLocal(weight, x, y, centre, fraction, tap - 1);
    }
  }

  /** A finished output does not change with more input. */
  lemma {:induction false} OutputStands(weight: real -> real, cutoff: real, ratio: real, x: seq<Frame>, y: seq<Frame>,
                                        k: nat)
    requires Complete(ratio, k, |x|)
    ensures Output(weight, cutoff, ratio, x + y, k) == Output(weight, cutoff, ratio, x, k)
  {
    WindowLocal(weight, x, y, Centre(ratio, k), Position(ratio, k) - Centre(ratio, k) as real, TAPS + 1);
  }

  lemma {:induction false} OutputsStand(weight: real -> real, cutoff: real, ratio: real, x: seq<Frame>, y: seq<Frame>,
                                        n: nat)
    requires 0.0 < ratio && Reached(ratio, n, |x|)
    ensures Outputs(weight, cutoff, ratio, x + y, n) == Outputs(weight, cutoff, ratio, x, n)
  {
    forall k: nat | k < n
      ensures Output(weight, cutoff, ratio, x + y, k) == Output(weight, cutoff, ratio, x, k)
    {
      CentresAscend(ratio, k, n - 1);
      OutputStands(weight, cutoff, ratio, x, y, k);
    }
  }

  lemma CentresAscend(ratio: real, j: nat, k: nat)
    requires 0.0 < ratio && j <= k
    ensures Centre(ratio, j) <= Centre(ratio, k)
  {
    ScaleOrder(j as real, k as real + 1.0, ratio);
    assert (k - j) as real * ratio >= 0.0;
  }

  lemma PositionNext(ratio: real, k: nat)
    ensures Position(ratio, k) + ratio == Position(ratio, k + 1)
  {
  }

  /** The count of finished outputs is one number. */
  lemma {:induction false} FinishedOnce(ratio: real, n: nat, m: nat, received: int)
    requires 0.0 < ratio && Finished(ratio, n, received) && Finished(ratio, m, received)
    ensures n == m
  {
    if n < m {
      CentresAscend(ratio, n, m - 1);
    } else if m < n {
      CentresAscend(ratio, m, n - 1);
    }
  }

  // ----- what may be dropped ----------------------------------------------------------------------

  /** Nothing is dropped yet, or what is dropped is there to drop. */
  predicate SafeToDrop(position: real, origin: int, received: int) {
    position.Floor - TAPS <= origin + SLACK || position.Floor - TAPS <= received
  }

  /** At up to 33 input frames per output frame, what has been finished never runs past what may be dropped. */
  lemma DropIsSafe(ratio: real, n: nat, origin: int, received: int)
    requires 0.0 < ratio <= 33.0 && 0 <= origin && 0 <= received
    requires Reached(ratio, n, received)
    ensures SafeToDrop(Position(ratio, n), origin, received)
  {
    if 0 < n {
      PositionNext(ratio, n - 1);
    }
  }

  lemma Linear(ratio: real, k: nat, m: nat)
    ensures Position(ratio, k + m) - Position(ratio, k) == 33.0 * m as real + m as real * (ratio - 33.0)
  {
  }

  /** If every step from `k` on moved the centre by at most 33, the centres would fall behind. */
  lemma {:induction false} CentresCreep(ratio: real, k: nat, m: nat)
    requires forall j: nat | k <= j < k + m :: Centre(ratio, j + 1) - Centre(ratio, j) <= 33
    ensures Centre(ratio, k + m) <= Centre(ratio, k) + 33 * m
    decreases m
  {
    if 0 < m {
      CentresCreep(ratio, k, m - 1);
      assert Centre(ratio, k + m - 1 + 1) - Centre(ratio, k + m - 1) <= 33;
    }
  }

  lemma TooMany(excess: real) returns (m: nat)
    requires 0.0 < excess
    ensures m as real * excess >= 1.0
  {
    var x := 1.0 / excess;
    assert x * excess == 1.0;
    m := x.Floor + 1;
    ScaleOrder(x, m as real, excess);
  }

  /** Above 33 some step moves the centre by more, and does so after any number of outputs. */
  lemma {:induction false} LongStep(ratio: real, k: nat) returns (j: nat)
    requires 33.0 < ratio
    ensures k <= j && Centre(ratio, j + 1) - Centre(ratio, j) > 33
  {
    var m := TooMany(ratio - 33.0);
    if forall j: nat | k <= j < k + m :: Centre(ratio, j + 1) - Centre(ratio, j) <= 33 {
      CentresCreep(ratio, k, m);
      Linear(ratio, k, m);
      assert false;
    }
    j :| k <= j < k + m && Centre(ratio, j + 1) - Centre(ratio, j) > 33;
  }

  /** The bound is exact: dropping is safe for every input exactly when the ratio is at most 33. */
  lemma {:induction false} SafeIff(ratio: real)
    requires 0.0 < ratio
    ensures ratio <= 33.0 <==>
            forall n: nat, received: nat | 0 < n && Finished(ratio, n, received) ::
              SafeToDrop(Position(ratio, n), 0, received)
  {
    if ratio <= 33.0 {
      forall n: nat, received: nat | 0 < n && Finished(ratio, n, received)
        ensures SafeToDrop(Position(ratio, n), 0, received)
      {
        DropIsSafe(ratio, n, 0, received);
      }
    } else {
      var j := LongStep(ratio, 4096);
      var received := Centre(ratio, j) + TAPS + 1;
      CentresAscend(ratio, 4096, j);
      Linear(ratio, 0, 4096);
      assert Finished(ratio, j + 1, received);
      assert !SafeToDrop(Position(ratio, j + 1), 0, received);
    }
  }

  // ----- streaming ------------------------------------------------------------------------------------

  class SincResampler {
    const weight: real -> real
    var bypassed: bool
    var ratio: real
    var cutoff: real
    var history: seq<Frame>
    var origin: int
    var received: int
    var position: real
    var strayed: bool              // more was erased from the history than it held: from there on anything may come out
    ghost var stream: seq<Frame>   // all the input so far
    ghost var emitted: seq<Frame>  // all the output so far
    ghost var made: nat            // how many outputs

    /** What has come out is what one pass over what went in gives; the history is the end of what went in. */
    ghost predicate Valid()
      reads this
    {
      if bypassed then emitted == stream && !strayed
      else
        !strayed ==>
        && 0.0 < ratio && received == |stream| && position == Position(ratio, made)
        && 0 <= origin <= received && history == stream[origin..]
        && (origin == 0 || origin <= position.Floor - TAPS)
        && emitted == Outputs(weight, cutoff, ratio, stream, made)
        && Reached(ratio, made, received)
    }

    /** All that can be finished is. */
    ghost predicate CaughtUp()
      reads this
    {
      !bypassed && !strayed ==> !Complete(ratio, made, received)
    }

    constructor (inputRate: real, outputRate: real, weight: real -> real)
      ensures Valid() && CaughtUp() && stream == [] && !strayed && this.weight == weight
      ensures bypassed <==> inputRate <= 0.0 || outputRate <= 0.0 || -0.000000001 < inputRate - outputRate < 0.000000001
      ensures !bypassed ==> ratio == inputRate / outputRate
      ensures !bypassed ==> cutoff == if inputRate <= outputRate then 1.0 else outputRate / inputRate
    {
      this.weight := weight;
      bypassed, ratio, cutoff := true, 1.0, 1.0;
      history, origin, received, position, strayed := [], 0, 0, 0.0, false;
      stream, emitted, made := [], [], 0;
      if 0.0 < inputRate && 0.0 < outputRate
        && !(-0.000000001 < inputRate - outputRate < 0.000000001)
      {
        bypassed := false;
        Positive(inputRate, outputRate);
        ratio := inputRate / outputRate;
        cutoff := if outputRate / inputRate < 1.0 then outputRate / inputRate else 1.0;
      }
    }

    /** One block in, and every output that it completes out. The last step is the one that can stray. */
    method Process(frames: seq<Frame>, out: seq<Frame>) returns (more: seq<Frame>)
      requires Valid() && CaughtUp()
      modifies this
      ensures Valid() && CaughtUp() && stream == old(stream) + frames
      ensures bypassed == old(bypassed) && ratio == old(ratio) && cutoff == old(cutoff)
      ensures !old(strayed) ==> old(emitted) <= emitted && more == out + emitted[|old(emitted)|..]
      ensures !old(strayed) && !bypassed ==>
        emitted == Outputs(weight, cutoff, ratio, stream, made) && Finished(ratio, made, |stream|)
      ensures strayed <==>
        (old(strayed) || (frames != [] && !bypassed && !SafeToDrop(Position(ratio, made), old(origin), |stream|)))
      ensures ratio <= 33.0 ==> strayed == old(strayed)
    {
      if frames == [] || strayed {  // once it has strayed this stands for whatever the source would do
        assert stream + [] == stream;
        assert emitted[|emitted|..] == [] && out + [] == out;
        stream := stream + frames;
        return out;
      }
      if bypassed {
        stream, emitted := stream + frames, emitted + frames;
        return out + frames;
      }
      OutputsStand(weight, cutoff, ratio, stream, frames, made);
      history := history + frames;
      received := received + |frames|;
      stream := stream + frames;
      more := Produce(out);
      Trim();
    }

    /** Pushes silence through, so that the last frames come out. */
    method Flush(out: seq<Frame>) returns (more: seq<Frame>)
      requires Valid() && CaughtUp()
      modifies this
      ensures Valid() && CaughtUp()
      ensures bypassed ==> more == out && stream == old(stream)
      ensures !bypassed ==> stream == old(stream) + seq(TAPS + 1, _ => SILENCE)
      ensures !old(strayed) ==> old(emitted) <= emitted && more == out + emitted[|old(emitted)|..]
      ensures !old(strayed) && !bypassed ==>
        emitted == Outputs(weight, cutoff, ratio, stream, made) && Finished(ratio, made, |stream|)
      ensures ratio <= 33.0 ==> strayed == old(strayed)
    {
      if bypassed {
        assert emitted[|emitted|..] == [] && out + [] == out;
        return out;
      }
      more := Process(seq(TAPS + 1, _ => SILENCE), out);
    }

    method Produce(out: seq<Frame>) returns (more: seq<Frame>)
      requires Valid() && !bypassed && !strayed
      modifies `position, `emitted, `made
      ensures Valid() && CaughtUp()
      ensures old(emitted) <= emitted && more == out + emitted[|old(emitted)|..]
    {
      more := out;
      ghost var before := emitted;
      ghost var bound := EnoughOutputs(ratio, received);
      if 0 < made {
        BelowBound(ratio, received, made - 1, bound);
      }
      while position.Floor + TAPS < received
        invariant Valid() && !bypassed && made <= bound
        invariant before <= emitted && more == out + emitted[|before|..]
        decreases bound - made
      {
        BelowBound(ratio, received, made, bound);
        var frame := ProduceOne();
        more := more + [frame];
      }
    }

    /** The next output, whose window is complete. */
    method ProduceOne() returns (frame: Frame)
      requires Valid() && !bypassed && !strayed && Complete(ratio, made, received)
      modifies `position, `emitted, `made
      ensures Valid() && made == old(made) + 1 && emitted == old(emitted) + [frame]
    {
      var centre := position.Floor;
      var sum := SumWindow(centre, position - centre as real);
      frame := Times(cutoff, sum);
      NextOutput(weight, cutoff, ratio, stream, made);
      PositionNext(ratio, made);
      emitted, made := emitted + [frame], made + 1;
      position := position + ratio;
    }

    method SumWindow(centre: int, fraction: real) returns (sum: Frame)
      requires Valid() && !bypassed && !strayed && centre == position.Floor
      ensures sum == WindowSum(weight, stream, centre, fraction, TAPS + 1)
    {
      sum := SILENCE;
      for tap := -TAPS + 1 to TAPS + 1
        invariant sum == WindowSum(weight, stream, centre, fraction, tap)
      {
        var index := centre + tap;
        if index < origin || index >= received {
          continue;
        }
        var slot := index - origin;
        sum := Plus(sum, Times(weight(tap as real - fraction), history[slot]));
      }
    }

    /** Drops what no later window needs, once enough of it has gathered. */
    method Trim()
      requires Valid() && CaughtUp() && !bypassed && !strayed
      modifies `history, `origin, `strayed
      ensures Valid() && CaughtUp()
      ensures strayed <==> !SafeToDrop(position, old(origin), received)
      ensures ratio <= 33.0 ==> !strayed
      ensures !strayed ==> position.Floor - TAPS <= origin + SLACK
    {
      if ratio <= 33.0 {
        DropIsSafe(ratio, made, origin, received);
      }
      var keepFrom := position.Floor - TAPS;
      if keepFrom <= origin + SLACK {
        return;
      }
      var drop := keepFrom - origin;
      if |history| < drop {
        strayed := true;
        return;
      }
      history := history[drop..];
      origin := keepFrom;
    }
  }

  lemma {:induction false} NextOutput(weight: real -> real, cutoff: real, ratio: real, x: seq<Frame>, n: nat)
    ensures Outputs(weight, cutoff, ratio, x, n + 1) ==
            Outputs(weight, cutoff, ratio, x, n) + [Output(weight, cutoff, ratio, x, n)]
  {
  }

  lemma EnoughOutputs(ratio: real, received: int) returns (bound: nat)
    requires 0.0 < ratio && 0 <= received
    ensures received as real <= Position(ratio, bound)
  {
    var x := received as real / ratio;
    assert x * ratio == received as real;
    Ratio0(received as real, ratio);
    bound := x.Floor + 1;
    ScaleOrder(x, bound as real, ratio);
  }

  lemma Ratio0(a: real, b: real)
    requires 0.0 <= a && 0.0 < b
    ensures 0.0 <= a / b
  {
  }

  lemma BelowBound(ratio: real, received: int, k: nat, bound: nat)
    requires 0.0 < ratio && Complete(ratio, k, received) && received as real <= Position(ratio, bound)
    ensures k < bound
  {
    if bound <= k {
      CentresAscend(ratio, bound, k);
    }
  }

  /** Two runs over the same input, however it was cut, have put out the same. */
  lemma {:induction false} SameInputSameOutput(weight: real -> real, cutoff: real, ratio: real, x: seq<Frame>, n: nat,
                                               m: nat)
    requires 0.0 < ratio && Finished(ratio, n, |x|) && Finished(ratio, m, |x|)
    ensures Outputs(weight, cutoff, ratio, x, n) == Outputs(weight, cutoff, ratio, x, m)
  {
    FinishedOnce(ratio, n, m, |x|);
  }
}
