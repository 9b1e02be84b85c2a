/**
 The resampler's filter, told from what it makes of single frames and of sums of inputs.
 */
module ResamplerMeanings {
  import opened MixerRender
  import opened Resampler

  /** All silence but one frame. */
  predicate Impulse(x: seq<Frame>, i: nat, f: Frame) {
    i < |x| && x[i] == f && forall j | 0 <= j < |x| && j != i :: x[j] == SILENCE
  }

  lemma Nothing(a: real)
    ensures Times(a, SILENCE) == SILENCE
  {
  }

  lemma {:induction false} WindowOfImpulse(weight: real -> real, x: seq<Frame>, i: nat, f: Frame, centre: int,
                                           fraction: real, tap: int)
    requires Impulse(x, i, f)
    ensures WindowSum(weight, x, centre, fraction, tap) ==
            if -TAPS < i - centre < tap then Times(weight((i - centre) as real - fraction), f) else SILENCE
    decreases tap + TAPS
  {
    if -TAPS + 1 < tap {
      WindowOfImpulse(weight, x, i, f, centre, fraction, tap - 1);
      Nothing(weight((tap - 1) as real - fraction));
    }
  }

  /** The filter, seen by what it makes of a single frame: output `k` weighs input `i` by its distance from the place
      the output falls on, and takes no input from more than sixteen frames before or after. */
  lemma {:induction false} ImpulseResponse(weight: real -> real, cutoff: real, ratio: real, x: seq<Frame>, i: nat,
                                           f: Frame, k: nat)
    requires Impulse(x, i, f)
    ensures var place := k as real * ratio;
      Output(weight, cutoff, ratio, x, k) ==
      if place.Floor - 16 < i <= place.Floor + 16 then Times(cutoff, Times(weight(i as real - place), f)) else SILENCE
  {
    var place := Position(ratio, k);
    WindowOfImpulse(weight, x, i, f, place.Floor, place - place.Floor as real, TAPS + 1);
    assert (i - place.Floor) as real - (place - place.Floor as real) == i as real - place;
    Nothing(cutoff);
  }

  /** The sums of the 32 frames around `place`, each weighed by its distance from it; there is silence beyond the input. */
  ghost predicate TapSums(weight: real -> real, x: seq<Frame>, place: real, sums: seq<Frame>) {
    && |sums| == 33 && sums[0] == Frame(0.0, 0.0)
    && forall t | 0 <= t < 32 :: TapSum(weight, x, place, place.Floor - 15 + t, sums[t], sums[t + 1])
  }

  predicate TapSum(weight: real -> real, x: seq<Frame>, place: real, i: int, before: Frame, after: Frame) {
    if 0 <= i < |x| then
      var w := weight(i as real - place);
      after == Frame(before.left + w * x[i].left, before.right + w * x[i].right)
    else after == before
  }

  lemma {:induction false} WindowMeans(weight: real -> real, x: seq<Frame>, place: real, sums: seq<Frame>, t: nat)
    requires TapSums(weight, x, place, sums) && t <= 32
    ensures WindowSum(weight, x, place.Floor, place - place.Floor as real, t - 15) == sums[t]
  {
    if 0 < t {
      WindowMeans(weight, x, place, sums, t - 1);
      var i := place.Floor - 15 + (t - 1);
      assert TapSum(weight, x, place, i, sums[t - 1], sums[(t - 1) + 1]);
      assert (t - 16) as real - (place - place.Floor as real) == i as real - place;
    }
  }

  /** Output `k` is the cutoff times all of them, around where it falls in the input. */
  lemma {:induction false} OutputMeans(weight: real -> real, cutoff: real, ratio: real, x: seq<Frame>, k: nat,
                                       sums: seq<Frame>)
    requires TapSums(weight, x, k as real * ratio, sums)
    ensures Output(weight, cutoff, ratio, x, k) == Frame(cutoff * sums[32].left, cutoff * sums[32].right)
  {
    WindowMeans(weight, x, k as real * ratio, sums, 32);
  }


  lemma {:induction false} WindowGrows(weight: real -> real, x: seq<Frame>, f: Frame, centre: int, fraction: real,
                                       tap: int)
    ensures WindowSum(weight, x + [f], centre, fraction, tap) ==
            var rest := WindowSum(weight, x, centre, fraction, tap);
            if -TAPS < |x| - centre < tap then Plus(rest, Times(weight((|x| - centre) as real - fraction), f)) else rest
    decreases tap + TAPS
  {
    if -TAPS + 1 < tap {
      WindowGrows(weight, x, f, centre, fraction, tap - 1);
    }
  }

  lemma NotNothing(a: real, b: real, f: Frame)
    requires a != 0.0 && b != 0.0 && f != SILENCE
    ensures Times(a, Times(b, f)) != SILENCE
  {
    var x := if f.left != 0.0 then f.left else f.right;
    assert b * x != 0.0;
    assert a * (b * x) != 0.0;
  }

  lemma Spread(c: real, a: Frame, b: Frame)
    ensures Times(c, Plus(a, b)) == Plus(Times(c, a), Times(c, b))
  {
  }

  /** No output is given too late or too soon: it is complete when its last input, the sixteenth after its place, has come;
      while any is missing, the next one still changes it, unless it has no weight there. */
  lemma {:induction false} StillOpen(weight: real -> real, cutoff: real, ratio: real, x: seq<Frame>, f: Frame, k: nat)
    requires cutoff != 0.0 && f != SILENCE
    ensures var place := k as real * ratio;
      && (Complete(ratio, k, |x|) <==> place.Floor + 16 < |x|)
      && (!Complete(ratio, k, |x|) && place.Floor - 16 < |x| && weight(|x| as real - place) != 0.0 ==>
            Output(weight, cutoff, ratio, x + [f], k) != Output(weight, cutoff, ratio, x, k))
  {
    var place := Position(ratio, k);
    var w := weight(|x| as real - place);
    if !Complete(ratio, k, |x|) && place.Floor - 16 < |x| && w != 0.0 {
      WindowGrows(weight, x, f, place.Floor, place - place.Floor as real, TAPS + 1);
      assert (|x| - place.Floor) as real - (place - place.Floor as real) == |x| as real - place;
      var before := WindowSum(weight, x, place.Floor, place - place.Floor as real, TAPS + 1);
      Spread(cutoff, before, Times(w, f));
      NotNothing(cutoff, w, f);
    }
  }
}
