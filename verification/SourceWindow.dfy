/**
 A clip's view of a file: trimmed to a window, and perhaps reversed. Whatever is asked for, only frames of the
 window are read; and reading backwards at any position is reading forwards at its mirror image, between frames too.
 */
module SourceWindows {
  import opened TimeStretches

  datatype SourceWindow = SourceWindow(start: int, length: int, reversed: bool, channels: int, sampleAt: (int, int) -> real)
  {
    predicate Valid() {
      0 < length && 0 < channels
    }

    /** The frame of the file at an offset into the window; beyond either end it is the frame at that end. */
    function FrameAt(offset: int): (frame: int)
      requires Valid()
      ensures start <= frame < start + length
    {
      var clamped := if offset < 0 then 0 else if offset >= length then length - 1 else offset;
      if reversed then start + (length - 1 - clamped) else start + clamped
    }

    /** Between two frames that follow one another in playback order. */
    function Read(offset: real, channel: int): real
      requires Valid()
    {
      var index := Trunc(offset);
      var channel := if channel < channels then channel else channels - 1;
      var a, b := sampleAt(FrameAt(index), channel), sampleAt(FrameAt(index + 1), channel);
      Between(a, b, offset - index as real)
    }
  }

  function Between(a: real, b: real, fraction: real): real {
    a + (b - a) * fraction
  }

  /** Reversal reflects the window onto itself, frame by frame. */
  lemma FramesMirror(w: SourceWindow, offset: int)
    requires w.Valid()
    ensures w.(reversed := !w.reversed).FrameAt(offset) == w.FrameAt(w.length - 1 - offset)
  {
  }

  /** And between frames. */
  lemma ReadsMirror(w: SourceWindow, offset: real, channel: int)
    requires w.Valid() && 0.0 <= offset <= (w.length - 1) as real
    ensures w.(reversed := !w.reversed).Read(offset, channel) == w.Read((w.length - 1) as real - offset, channel)
  {
    var back := w.(reversed := !w.reversed);
    var k := offset.Floor;
    var fraction := offset - k as real;
    FramesMirror(w, k);
    FramesMirror(w, k + 1);
    var channel := if channel < w.channels then channel else w.channels - 1;
    var a, b := w.sampleAt(back.FrameAt(k), channel), w.sampleAt(back.FrameAt(k + 1), channel);
    if fraction == 0.0 {
      assert Trunc((w.length - 1) as real - offset) == w.length - 1 - k;
      NoFraction(a, b);
      NoFraction(a, w.sampleAt(w.FrameAt(w.length - k), channel));
    } else {
      assert Trunc((w.length - 1) as real - offset) == w.length - 2 - k;
      EitherWay(a, b, fraction);
    }
  }

  lemma NoFraction(a: real, b: real)
    ensures Between(a, b, 0.0) == a
  {
  }

  lemma EitherWay(a: real, b: real, fraction: real)
    ensures Between(a, b, fraction) == Between(b, a, 1.0 - fraction)
  {
    assert (b - a) * fraction + (a - b) * (fraction - 1.0) == (b - a) * 1.0;
  }

  /** At a whole position the frame itself is read, at either end of the window the last one there; between two positions
      the value goes straight from the one to the other. */
  lemma ReadsFrames(w: SourceWindow, k: int, fraction: real, channel: int)
    requires w.Valid() && 0 <= k && 0.0 <= fraction < 1.0
    ensures var c := if channel < w.channels then channel else w.channels - 1;
      w.Read(k as real, channel) == w.sampleAt(w.FrameAt(k), c)
    ensures w.Read(k as real + fraction, channel) - w.Read(k as real, channel) ==
            fraction * (w.Read((k + 1) as real, channel) - w.Read(k as real, channel))
    ensures k < w.length ==> w.FrameAt(k) == if w.reversed then w.start + w.length - 1 - k else w.start + k
    ensures w.length <= k ==> w.FrameAt(k) == w.FrameAt(w.length - 1)
  {
    assert (k as real + fraction).Floor == k && (k as real).Floor == k && ((k + 1) as real).Floor == k + 1;
    var c := if channel < w.channels then channel else w.channels - 1;
    var a, b := w.sampleAt(w.FrameAt(k), c), w.sampleAt(w.FrameAt(k + 1), c);
    NoFraction(a, b);
    NoFraction(b, w.sampleAt(w.FrameAt(k + 2), c));
    Part(a, b, fraction);
  }

  lemma Part(a: real, b: real, fraction: real)
    ensures Between(a, b, fraction) - a == fraction * (b - a)
  {
  }

  /** Only the window counts: what lies outside it in the file changes nothing. */
  lemma OnlyTheWindow(w: SourceWindow, other: (int, int) -> real, offset: real, channel: int)
    requires w.Valid()
    requires forall f, c | w.start <= f < w.start + w.length :: other(f, c) == w.sampleAt(f, c)
    ensures w.(sampleAt := other).Read(offset, channel) == w.Read(offset, channel)
  {
    var v := w.(sampleAt := other);
    var index := Trunc(offset);
    assert v.FrameAt(index) == w.FrameAt(index) && v.FrameAt(index + 1) == w.FrameAt(index + 1);
  }
}
