/**
 The engine clock. The position in frames is canonical; the loop is kept in beats and read in frames.
 */
module Transports {
  import opened TimeMaps

  class Transport {
    var timeMap: TimeMap
    var positionFrames: int
    var playing: bool
    var loopStartBeats: real
    var loopEndBeats: real
    var loopEnabled: bool

    ghost predicate Valid()
      reads this
    {
      timeMap.Valid() && 0 <= positionFrames && 0.0 <= loopStartBeats < loopEndBeats
    }

    constructor (sampleRate: real, bpm: real)
      requires 0.0 < sampleRate
      ensures Valid() && timeMap == TimeMap(sampleRate, ClampTempo(bpm)) && positionFrames == 0 && !playing
      ensures loopStartBeats == 0.0 && loopEndBeats == 16.0 && loopEnabled
    {
      timeMap := TimeMap(sampleRate, ClampTempo(bpm));
      positionFrames, playing := 0, false;
      loopStartBeats, loopEndBeats, loopEnabled := 0.0, 16.0, true;
    }

    function LoopStartFrames(): (frame: int)
      requires Valid()
      reads this
      ensures 0 <= frame <= timeMap.BeatsToFrames(loopEndBeats)
    {
      LoopOrder(timeMap, 0.0, loopStartBeats);
      LoopOrder(timeMap, loopStartBeats, loopEndBeats);
      timeMap.BeatsToFrames(loopStartBeats)
    }

    function LoopEndFrames(): int
      requires Valid()
      reads this
    {
      timeMap.BeatsToFrames(loopEndBeats)
    }

    method SeekFrames(frames: int)
      requires Valid()
      modifies `positionFrames
      ensures Valid() && positionFrames == if frames < 0 then 0 else frames
    {
      positionFrames := if frames < 0 then 0 else frames;
    }

    /** Keeps the musical position, to within half a frame of the new tempo. */
    method SetTempo(bpm: real)
      requires Valid()
      modifies `timeMap, `positionFrames
      ensures Valid() && timeMap == old(timeMap).(tempo := ClampTempo(bpm))
      ensures var beats := old(timeMap.FramesToBeats(positionFrames));
        -0.5 <= positionFrames as real - Scale(beats, timeMap.FramesPerBeat()) <= 0.5
      ensures ClampTempo(bpm) == old(timeMap.tempo) ==> positionFrames == old(positionFrames)
    {
      var beats := timeMap.FramesToBeats(positionFrames);
      FramesRoundTrip(timeMap, positionFrames);
      Ratio(positionFrames as real, timeMap.FramesPerBeat());
      timeMap := timeMap.(tempo := ClampTempo(bpm));
      RoundMonotone(Scale(beats, timeMap.FramesPerBeat()), 0.0);
      LoopOrder(timeMap, 0.0, beats);
      positionFrames := timeMap.BeatsToFrames(beats);
    }

    /** A region that is empty or begins before zero is ignored; the switch is not. */
    method SetLoop(startBeats: real, endBeats: real, enabled: bool)
      requires Valid()
      modifies `loopStartBeats, `loopEndBeats, `loopEnabled
      ensures Valid() && loopEnabled == enabled
      ensures if endBeats > startBeats && startBeats >= 0.0
              then loopStartBeats == startBeats && loopEndBeats == endBeats
              else loopStartBeats == old(loopStartBeats) && loopEndBeats == old(loopEndBeats)
    {
      if endBeats > startBeats && startBeats >= 0.0 {
        loopStartBeats := startBeats;
        loopEndBeats := endBeats;
      }
      loopEnabled := enabled;
    }

    method Advance(frames: nat)
      requires Valid()
      modifies `positionFrames
      ensures Valid() && positionFrames == old(positionFrames) + frames
    {
      positionFrames := positionFrames + frames;
    }

    /** How many of `frames` can be rendered before the loop wraps. */
    function FramesUntilLoopWrap(frames: int): (chunk: int)
      requires Valid()
      reads this
      ensures chunk <= frames || chunk == 0
      ensures !loopEnabled ==> chunk == frames
      ensures loopEnabled && positionFrames < LoopEndFrames() ==>
        positionFrames + chunk <= LoopEndFrames() && (chunk < frames ==> positionFrames + chunk == LoopEndFrames())
      ensures loopEnabled && LoopEndFrames() <= positionFrames ==> chunk == 0
    {
      if !loopEnabled then frames
      else
        var end := LoopEndFrames();
        if positionFrames >= end then 0
        else
          var remaining := end - positionFrames;
          if remaining < frames then remaining else frames
    }
  }

  lemma LoopOrder(m: TimeMap, a: real, b: real)
    requires m.Valid() && a <= b
    ensures m.BeatsToFrames(a) <= m.BeatsToFrames(b)
    ensures a == 0.0 ==> m.BeatsToFrames(a) == 0
  {
    ScaleOrder(a, b, m.FramesPerBeat());
    RoundMonotone(Scale(a, m.FramesPerBeat()), Scale(b, m.FramesPerBeat()));
  }

  lemma Ratio(a: real, b: real)
    requires 0.0 <= a && 0.0 < b
    ensures 0.0 <= a / b
  {
  }
}
