/**
 The writer of audio files. The sizes are only known at the end, so they are patched into the header; until then
 the samples that were written follow a header with placeholders. A closed file is read back by
 `AudioFormats.Read` as exactly the samples of every write, in order. Disk failures are left out.
 */
module AudioFiles {
  import opened Options
  import opened AudioBytes
  import opened AudioFormats
  import opened AudioLayout

  /** The samples of a block, quantised. */
  function Quantise(left: seq<real>, right: seq<real>): (frames: seq<Pcm>)
    requires |left| == |right|
    ensures |frames| == |left|
  {
    seq(|left|, i requires 0 <= i < |left| => Pcm(ToPcm24(left[i]), ToPcm24(right[i])))
  }

  /** How a stream is cut into writes makes no difference. */
  lemma QuantiseJoin(left: seq<real>, right: seq<real>, l: seq<real>, r: seq<real>)
    requires |left| == |right| && |l| == |r|
    ensures Quantise(left + l, right + r) == Quantise(left, right) + Quantise(l, r)
  {
  }

  /** A header with placeholders, and samples after it. */
  function Unfinished(format: Format, rate: nat, pcm: Bytes): Bytes
    requires GoodRate(rate)
  {
    if format == Wav then WavLaid(HeadBody(Wav, rate, 0), Little(0, 4), Little(0, 4), pcm)
    else AiffLaid(Extended80(rate), Big(0, 4), Big(0, 4), Big(8, 4), DataStart(Aiff) + pcm)
  }

  lemma Grows(format: Format, rate: nat, pcm: Bytes, more: Bytes)
    requires GoodRate(rate)
    ensures Unfinished(format, rate, pcm) + more == Unfinished(format, rate, pcm + more)
  {
    if format == Wav {
      var head := HeadBody(Wav, rate, 0);
      Joined(Tag("RIFF") + Little(0, 4) + WavMiddle(head) + Little(0, 4), pcm, more);
    } else {
      Joined(Tag("FORM") + Big(0, 4) + AiffMiddle() + Big(0, 4) + AiffTail(Extended80(rate)) + Big(8, 4),
        DataStart(Aiff) + pcm, more);
      Joined(DataStart(Aiff), pcm, more);
    }
  }

  lemma Joined(a: Bytes, b: Bytes, c: Bytes)
    ensures a + b + c == a + (b + c)
  {
  }

  lemma WavCloses(rate: nat, frames: seq<Pcm>, pcm: Bytes)
    requires GoodRate(rate) && pcm == PcmBytes(Wav, frames)
    ensures Patch(Patch(Unfinished(Wav, rate, pcm), 4, Little((36 + |pcm|) % WORD, 4)), 40, Little(|pcm| % WORD, 4)) ==
            FileBytes(Wav, rate, frames)
  {
    var head := HeadBody(Wav, rate, |frames|);
    assert DataBody(Wav, frames) == pcm;
    HeadWithoutCount(rate, |frames|, 0);
    WavPatched(head, Little(0, 4), Little(0, 4), pcm, Little((36 + |pcm|) % WORD, 4), Little(|pcm| % WORD, 4));
    WavWhole(rate, frames, head, pcm);
  }

  lemma AiffCloses(rate: nat, frames: seq<Pcm>, pcm: Bytes)
    requires GoodRate(rate) && pcm == PcmBytes(Aiff, frames)
    ensures Patch(Patch(Patch(Unfinished(Aiff, rate, pcm), 4, Big((46 + |pcm|) % WORD, 4)), 22, Big(|frames| % WORD, 4)),
              42, Big((8 + |pcm|) % WORD, 4)) == FileBytes(Aiff, rate, frames)
  {
    var ten, data, count := Extended80(rate), DataStart(Aiff) + pcm, Big(|frames| % WORD, 4);
    AiffPatched(ten, Big(0, 4), Big(0, 4), Big(8, 4), data, Big((46 + |pcm|) % WORD, 4), count,
      Big((8 + |pcm|) % WORD, 4));
    AiffWhole(rate, frames, count, ten, data);
  }

  class AudioFileWriter {
    var disk: map<string, Bytes>   // every file, by path
    var open: bool
    var path: string
    var format: Format
    var sampleRate: nat
    var framesWritten: nat
    ghost var played: seq<Pcm>     // what was written since the file was opened
    ghost var begun: bool         // whether a file was opened since the last one was abandoned

    /** A path is kept as long as its file may still be abandoned. */
    ghost predicate Valid()
      reads this
    {
      && (begun <==> path != "") && (begun ==> path in disk)
      && (open ==>
            && begun && 0 < sampleRate < 0x8000_0000 && GoodRate(sampleRate) && framesWritten == |played|
            && disk[path] == Unfinished(format, sampleRate, PcmBytes(format, played)))
    }

    constructor (disk: map<string, Bytes>)
      ensures Valid() && !open && !begun && this.disk == disk && path == ""
    {
      this.disk, open, path, format, sampleRate, framesWritten := disk, false, "", Wav, 48000, 0;
      played, begun := [], false;
    }

    /** Starts a file with a header of placeholders; an older file of that name is overwritten. There is no file without
        a name. */
    method Open(path: string, format: Format, sampleRate: Int32) returns (ok: bool)
      requires Valid()
      modifies this
      ensures Valid()
      ensures ok <==> !old(open) && 0 < sampleRate && path != ""
      ensures !ok ==> unchanged(this)
      ensures ok ==> open && begun && played == [] && this.path == path && this.format == format && this.sampleRate == sampleRate
      ensures ok ==> disk == old(disk)[path := Unfinished(format, sampleRate, [])]
    {
      if open || sampleRate <= 0 || path == "" {
        return false;
      }
      Int32Fits(sampleRate);
      open, this.path, this.format, this.sampleRate, framesWritten, played := true, path, format, sampleRate, 0, [];
      var header := Header(format, sampleRate);
      disk := disk[path := header];
      begun := true;
      return true;
    }

    static method Header(format: Format, rate: nat) returns (header: Bytes)
      requires GoodRate(rate)
      ensures header == Unfinished(format, rate, [])
    {
      if format == Wav {
        header := WavHeader(rate);
      } else {
        header := AiffHeader(rate);
      }
    }

    static method WavHeader(rate: nat) returns (header: Bytes)
      requires GoodRate(rate)
      ensures header == Unfinished(Wav, rate, [])
    {
      var byteRate := rate * 6 % WORD;
      header := Tag("RIFF");
      header := AppendLittle(header, 0, 4);
      ghost var outer := header;
      header := header + Tag("WAVE");
      header := header + Tag("fmt ");
      header := AppendLittle(header, 16, 4);
      ghost var start := header;
      header := AppendLittle(header, 1, 2);
      header := AppendLittle(header, 2, 2);
      header := AppendLittle(header, rate % WORD, 4);
      header := AppendLittle(header, byteRate, 4);
      header := AppendLittle(header, 6, 2);
      header := AppendLittle(header, 24, 2);
      SixAppended(start, Little(1, 2), Little(2, 2), Little(rate % WORD, 4), Little(byteRate, 4), Little(6, 2),
        Little(24, 2));
      header := header + Tag("data");
      MiddleAppended(outer, Tag("WAVE"), Tag("fmt "), Little(16, 4), HeadBody(Wav, rate, 0), Tag("data"));
      header := AppendLittle(header, 0, 4);
      Joined(header, [], []);
    }

    static method AiffHeader(rate: nat) returns (header: Bytes)
      requires GoodRate(rate)
      ensures header == Unfinished(Aiff, rate, [])
    {
      header := Tag("FORM");
      header := AppendBig(header, 0, 4);
      ghost var outer := header;
      header := header + Tag("AIFF");
      header := header + Tag("COMM");
      header := AppendBig(header, 18, 4);
      header := AppendBig(header, 2, 2);
      FourAppended(outer, Tag("AIFF"), Tag("COMM"), Big(18, 4), Big(2, 2));
      header := AppendBig(header, 0, 4);
      ghost var counted := header;
      header := AppendBig(header, 24, 2);
      header := AppendExtended80(header, rate);
      header := header + Tag("SSND");
      ThreeAppended(counted, Big(24, 2), Extended80(rate), Tag("SSND"));
      header := AppendBig(header, 8, 4);
      ghost var sized := header;
      header := AppendBig(header, 0, 4);
      header := AppendBig(header, 0, 4);
      TwoAppended(sized, Big(0, 4), Big(0, 4));
    }

    /** Appends the block's samples; they are clipped, not wrapped. */
    method Write(left: seq<real>, right: seq<real>, frames: int) returns (ok: bool)
      requires Valid() && frames <= |left| && frames <= |right|
      modifies this
      ensures Valid() && ok == old(open) && open == old(open) && begun == old(begun)
      ensures path == old(path) && format == old(format) && sampleRate == old(sampleRate)
      ensures !ok || frames <= 0 ==> unchanged(this)
      ensures ok && 0 < frames ==>
        && played == old(played) + Quantise(left[..frames], right[..frames])
        && disk == old(disk)[path := old(disk[path]) + PcmBytes(format, Quantise(left[..frames], right[..frames]))]
    {
      if !open {
        return false;
      }
      if frames <= 0 {
        return true;
      }
      ghost var block := Quantise(left[..frames], right[..frames]);
      var bytes := Interleave(format, left, right, frames);
      Grows(format, sampleRate, PcmBytes(format, played), bytes);
      PcmJoin(format, played, block);
      disk := disk[path := disk[path] + bytes];
      framesWritten := framesWritten + frames;
      played := played + block;
      return true;
    }

    static method Interleave(format: Format, left: seq<real>, right: seq<real>, frames: nat) returns (bytes: Bytes)
      requires frames <= |left| && frames <= |right|
      ensures bytes == PcmBytes(format, Quantise(left[..frames], right[..frames]))
    {
      ghost var block := Quantise(left[..frames], right[..frames]);
      bytes := [];
      for frame := 0 to frames
        invariant bytes == PcmBytes(format, block[..frame])
      {
        bytes := AppendSample(bytes, format, ToPcm24(left[frame]));
        bytes := AppendSample(bytes, format, ToPcm24(right[frame]));
        OneFrame(format, block, frame);
      }
      assert block[..frames] == block;
    }

    static method AppendSample(bytes: Bytes, format: Format, sample: Sample24) returns (more: Bytes)
      ensures more == bytes + Field(format, Bits(sample), 3)
    {
      if format == Wav {
        more := AppendLittle(bytes, Bits(sample), 3);
      } else {
        more := AppendBig(bytes, Bits(sample), 3);
      }
    }

    /** Patches the sizes; the file is finished. */
    method Close() returns (ok: bool)
      requires Valid()
      modifies this
      ensures Valid() && ok == old(open) && !open && begun == old(begun) && path == old(path) && played == old(played)
      ensures !ok ==> disk == old(disk)
      ensures ok ==> 0 < old(sampleRate) < 0x8000_0000 && GoodRate(old(sampleRate))
      ensures ok ==> disk == old(disk)[old(path) := FileBytes(old(format), old(sampleRate), old(played))]
    {
      if !open {
        return false;
      }
      var dataBytes := framesWritten * 6 % WORD;
      if format == Wav {
        PatchWav(dataBytes);
      } else {
        PatchAiff(dataBytes);
      }
      open := false;
      return true;
    }

    method PatchWav(dataBytes: nat)
      requires Valid() && open && format == Wav && dataBytes == framesWritten * 6 % WORD
      modifies this`disk
      ensures disk == old(disk)[path := FileBytes(Wav, sampleRate, played)]
    {
      ghost var pcm := PcmBytes(Wav, played);
      Wraps(36, |pcm|);
      WavCloses(sampleRate, played, pcm);
      var patch := AppendLittle([], (36 + dataBytes) % WORD, 4);
      assert patch == Little((36 + |pcm|) % WORD, 4);
      WriteAt(4, patch);
      patch := AppendLittle([], dataBytes, 4);
      assert patch == Little(|pcm| % WORD, 4);
      WriteAt(40, patch);
    }

    method PatchAiff(dataBytes: nat)
      requires Valid() && open && format == Aiff && dataBytes == framesWritten * 6 % WORD
      modifies this`disk
      ensures disk == old(disk)[path := FileBytes(Aiff, sampleRate, played)]
    {
      ghost var pcm := PcmBytes(Aiff, played);
      Wraps(46, |pcm|);
      Wraps(8, |pcm|);
      AiffCloses(sampleRate, played, pcm);
      var outer := AppendBig([], (46 + dataBytes) % WORD, 4);
      assert outer == Big((46 + |pcm|) % WORD, 4);
      var count := AppendBig([], framesWritten % WORD, 4);
      assert count == Big(|played| % WORD, 4);
      var inner := AppendBig([], (8 + dataBytes) % WORD, 4);
      assert inner == Big((8 + |pcm|) % WORD, 4);
      PatchThree(outer, count, inner);
    }

    method PatchThree(outer: Bytes, count: Bytes, inner: Bytes)
      requires path in disk && 46 <= |disk[path]| && |outer| == |count| == |inner| == 4
      modifies this`disk
      ensures disk == old(disk)[path := Patch(Patch(Patch(old(disk[path]), 4, outer), 22, count), 42, inner)]
    {
      WriteAt(4, outer);
      WriteAt(22, count);
      WriteAt(42, inner);
    }

    method WriteAt(at: nat, patch: Bytes)
      requires path in disk && at + |patch| <= |disk[path]|
      modifies this`disk
      ensures path in disk && disk == old(disk)[path := Patch(old(disk[path]), at, patch)]
    {
      disk := disk[path := disk[path][..at] + patch + disk[path][at + |patch|..]];
    }

    /** Closes the file and deletes it; a file that was closed before is deleted too. The disk is spared exactly when no
        file was opened since the last time. */
    method Abandon()
      requires Valid()
      modifies this
      ensures Valid() && !open && !begun && path == ""
      ensures disk == if old(begun) then old(disk) - {old(path)} else old(disk)
      ensures disk == old(disk) <==> !old(begun)
    {
      open := false;
      if path == "" {
        return;
      }
      disk := disk - {path};
      path := "";
      framesWritten := 0;
      begun := false;
    }
  }

  /** What was exported and closed is gone again if it is then abandoned, and nothing else is. */
  method ExportAndAbandon(writer: AudioFileWriter, path: string, format: Format, sampleRate: Int32,
                          blocks: seq<(seq<real>, seq<real>)>)
    requires writer.Valid() && !writer.begun && 0 < sampleRate && path != "" && Paired(blocks)
    modifies writer
    ensures writer.Valid() && writer.disk == old(writer.disk) - {path}
  {
    var ok := Export(writer, path, format, sampleRate, blocks);
    assert path in writer.disk;
    writer.Abandon();
    assert writer.disk == old(writer.disk) - {path};
  }

  lemma Wraps(k: nat, x: nat)
    ensures (k + x % WORD) % WORD == (k + x) % WORD
  {
  }

  lemma OneFrame(format: Format, block: seq<Pcm>, i: nat)
    requires i < |block|
    ensures PcmBytes(format, block[..i]) + Field(format, Bits(block[i].left), 3) + Field(format, Bits(block[i].right), 3) ==
            PcmBytes(format, block[..i + 1])
  {
    assert block[..i + 1][..i] == block[..i];
    Joined(PcmBytes(format, block[..i]), Field(format, Bits(block[i].left), 3), Field(format, Bits(block[i].right), 3));
  }

  lemma SixAppended(s: Bytes, a: Bytes, b: Bytes, c: Bytes, d: Bytes, e: Bytes, f: Bytes)
    ensures s + a + b + c + d + e + f == s + (a + b + c + d + e + f)
  {
  }

  lemma MiddleAppended(s: Bytes, a: Bytes, b: Bytes, c: Bytes, d: Bytes, e: Bytes)
    ensures s + a + b + c + d + e == s + (a + b + c + d + e)
  {
  }

  lemma FourAppended(s: Bytes, a: Bytes, b: Bytes, c: Bytes, d: Bytes)
    ensures s + a + b + c + d == s + (a + b + c + d)
  {
  }

  lemma ThreeAppended(s: Bytes, a: Bytes, b: Bytes, c: Bytes)
    ensures s + a + b + c == s + (a + b + c)
  {
  }

  lemma TwoAppended(s: Bytes, a: Bytes, b: Bytes)
    ensures s + a + b == s + (a + b + [])
  {
  }

  /** From opening to closing, whatever the blocks: the file on disk reads back as all the samples written, exactly
      when it fits. */
  method Export(writer: AudioFileWriter, path: string, format: Format, sampleRate: Int32,
                blocks: seq<(seq<real>, seq<real>)>) returns (ok: bool)
    requires writer.Valid() && !writer.open && Paired(blocks)
    modifies writer
    ensures writer.Valid() && !writer.open && ok == (0 < sampleRate && path != "")
    ensures if ok then writer.begun && writer.path == path else unchanged(writer)
    ensures ok ==> path in writer.disk && forall other | other != path ::
              other in writer.disk <==> other in old(writer.disk)
    ensures ok ==> forall other | other != path && other in writer.disk :: writer.disk[other] == old(writer.disk)[other]
    ensures ok ==>
      var frames := AllFrames(blocks);
      Read(format, writer.disk[path]) == if Fits(format, sampleRate, |frames|) then Some(Audio(sampleRate as real, frames)) else None
  {
    ok := writer.Open(path, format, sampleRate);
    if !ok {
      return;
    }
    WriteAll(writer, blocks);
    var closed := writer.Close();
    FileReads(format, sampleRate, AllFrames(blocks));
  }

  method WriteAll(writer: AudioFileWriter, blocks: seq<(seq<real>, seq<real>)>)
    requires writer.Valid() && writer.open && writer.played == [] && Paired(blocks)
    modifies writer
    ensures writer.Valid() && writer.open && writer.played == AllFrames(blocks)
    ensures writer.path == old(writer.path) && writer.format == old(writer.format)
    ensures writer.sampleRate == old(writer.sampleRate)
    ensures forall other | other != writer.path :: other in writer.disk <==> other in old(writer.disk)
    ensures forall other | other != writer.path && other in writer.disk ::
              writer.disk[other] == old(writer.disk)[other]
  {
    for i := 0 to |blocks|
      invariant writer.Valid() && writer.open && writer.played == AllFrames(blocks[..i])
      invariant writer.path == old(writer.path) && writer.format == old(writer.format)
      invariant writer.sampleRate == old(writer.sampleRate)
      invariant forall other | other != writer.path :: other in writer.disk <==> other in old(writer.disk)
      invariant forall other | other != writer.path && other in writer.disk ::
                  writer.disk[other] == old(writer.disk)[other]
    {
      var written := writer.Write(blocks[i].0, blocks[i].1, |blocks[i].0|);
      assert blocks[i].0[..|blocks[i].0|] == blocks[i].0 && blocks[i].1[..|blocks[i].0|] == blocks[i].1;
      assert blocks[..i + 1][..i] == blocks[..i];
    }
    assert blocks[..|blocks|] == blocks;
  }

  predicate Paired(blocks: seq<(seq<real>, seq<real>)>) {
    forall i | 0 <= i < |blocks| :: |blocks[i].0| == |blocks[i].1|
  }

  function AllFrames(blocks: seq<(seq<real>, seq<real>)>): seq<Pcm>
    requires Paired(blocks)
  {
    if blocks == [] then []
    else AllFrames(blocks[..|blocks| - 1]) + Quantise(blocks[|blocks| - 1].0, blocks[|blocks| - 1].1)
  }
}
