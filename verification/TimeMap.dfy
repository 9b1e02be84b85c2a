/**
 Musical time and frames, in exact arithmetic. Frames are rounded halves away from zero. When a tick is at
 least one frame long, different ticks never share a frame.
 */
module TimeMaps {
  import opened Notes

  const MIN_TEMPO: real := 20.0
  const MAX_TEMPO: real := 999.0

  /** Every tempo lands inside 20..999. */
  function ClampTempo(bpm: real): (tempo: real)
    ensures MIN_TEMPO <= tempo <= MAX_TEMPO
    ensures MIN_TEMPO <= bpm <= MAX_TEMPO ==> tempo == bpm
  {
    if !(bpm > MIN_TEMPO) then MIN_TEMPO else if bpm > MAX_TEMPO then MAX_TEMPO else bpm
  }

  /** The nearest whole number, halves away from zero. */
  function Round(x: real): int {
    if x >= 0.0 then (x + 0.5).Floor else -((-x + 0.5).Floor)
  }

  function Scale(x: real, factor: real): real {
    x * factor
  }

  datatype TimeMap = TimeMap(sampleRate: real, tempo: real) {
    predicate Valid() {
      0.0 < sampleRate && 0.0 < tempo
    }

    function FramesPerBeat(): (f: real)
      requires Valid()
      ensures 0.0 < f
    {
      Positive(sampleRate * 60.0, tempo);
      sampleRate * 60.0 / tempo
    }

    function FramesToBeats(frames: int): real
      requires Valid()
    {
      frames as real / FramesPerBeat()
    }

    function BeatsToFrames(beats: real): int
      requires Valid()
    {
      Round(Scale(beats, FramesPerBeat()))
    }

    function TicksToFrames(ticks: Ticks): int
      requires Valid()
    {
      BeatsToFrames(ticks as real / TICKS_PER_QUARTER as real)
    }

    /** A tick lasts at least one frame. */
    predicate TicksLastAFrame() {
      sampleRate * 60.0 >= tempo * TICKS_PER_QUARTER as real
    }
  }

  lemma Positive(a: real, b: real)
    requires 0.0 < a && 0.0 < b
    ensures 0.0 < a / b
  {
  }

  lemma RoundMonotone(x: real, y: real)
    ensures x <= y ==> Round(x) <= Round(y)
    ensures x + 1.0 <= y ==> Round(x) + 1 <= Round(y)
    ensures -0.5 <= Round(x) as real - x <= 0.5
  {
  }

  lemma RoundWhole(n: int)
    ensures Round(n as real) == n
  {
  }

  lemma ScaleOrder(x: real, y: real, factor: real)
    requires x <= y && 0.0 < factor
    ensures Scale(x, factor) <= Scale(y, factor)
    ensures x < y ==> Scale(x, factor) < Scale(y, factor)
    ensures Scale(y, factor) - Scale(x, factor) == Scale(y - x, factor)
  {
    assert y * factor - x * factor == (y - x) * factor;
  }

  lemma FactorOrder(x: real, a: real, b: real)
    requires 0.0 < x && a <= b
    ensures Scale(x, a) <= Scale(x, b)
  {
    assert x * b - x * a == x * (b - a);
  }

  /** Later ticks are no earlier in frames; when a tick lasts a frame, they are strictly later. */
  lemma TicksOrder(m: TimeMap, a: Ticks, b: Ticks)
    requires m.Valid() && a <= b
    ensures m.TicksToFrames(a) <= m.TicksToFrames(b)
    ensures a < b && m.TicksLastAFrame() ==> m.TicksToFrames(a) < m.TicksToFrames(b)
  {
    var f := m.FramesPerBeat();
    var x, y := a as real / TICKS_PER_QUARTER as real, b as real / TICKS_PER_QUARTER as real;
    ScaleOrder(x, y, f);
    RoundMonotone(Scale(x, f), Scale(y, f));
    if a < b && m.TicksLastAFrame() {
      FrameEnough(m.sampleRate * 60.0, m.tempo);
      ScaleOrder(1.0 / 960.0, y - x, f);
      FactorOrder(1.0 / 960.0, 960.0, f);
    }
  }

  lemma FrameEnough(frames: real, tempo: real)
    requires 0.0 < tempo && tempo * 960.0 <= frames
    ensures 960.0 <= frames / tempo
  {
    var q := frames / tempo;
    assert Scale(q, tempo) == frames;
    if q < 960.0 {
      ScaleOrder(q, 960.0, tempo);
      assert false;
    }
  }

  /** From 15 984 Hz up, a tick lasts a frame at every tempo the clamp allows. */
  lemma UsualRatesSuffice(rate: real, bpm: real)
    requires rate >= 15984.0
    ensures TimeMap(rate, ClampTempo(bpm)).Valid() && TimeMap(rate, ClampTempo(bpm)).TicksLastAFrame()
  {
  }

  /** A frame converted to beats and back is the same frame. */
  lemma FramesRoundTrip(m: TimeMap, frames: int)
    requires m.Valid()
    ensures m.BeatsToFrames(m.FramesToBeats(frames)) == frames
  {
    var f := m.FramesPerBeat();
    assert Scale(frames as real / f, f) == frames as real;
    RoundWhole(frames);
  }
}
