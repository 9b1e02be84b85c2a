/** Where the sizes of an audio file lie, and that patching them in place makes a header with placeholders whole. */
module AudioLayout {
  import opened AudioBytes
  import opened AudioFormats

  /** Overwrites part of a file. */
  function Patch(bytes: Bytes, at: nat, field: Bytes): (patched: Bytes)
    requires at + |field| <= |bytes|
    ensures |patched| == |bytes|
  {
    bytes[..at] + field + bytes[at + |field|..]
  }

  lemma PatchOne(a: Bytes, was: Bytes, now: Bytes, b: Bytes)
    requires |was| == |now|
    ensures Patch(a + was + b, |a|, now) == a + now + b
  {
  }

  // ----- RIFF --------------------------------------------------------------------------------------

  function WavMiddle(head: Bytes): (bytes: Bytes)
    ensures |bytes| == 16 + |head|
  {
    Tag("WAVE") + Tag("fmt ") + Little(16, 4) + head + Tag("data")
  }

  /** A RIFF file with this format chunk and these two sizes. */
  function WavLaid(head: Bytes, outer: Bytes, inner: Bytes, pcm: Bytes): (bytes: Bytes)
    requires |head| == 16 && |outer| == |inner| == 4
    ensures |bytes| == 44 + |pcm|
  {
    Tag("RIFF") + outer + WavMiddle(head) + inner + pcm
  }

  lemma WavPatched(head: Bytes, outer: Bytes, inner: Bytes, pcm: Bytes, newOuter: Bytes, newInner: Bytes)
    requires |head| == 16 && |outer| == |inner| == |newOuter| == |newInner| == 4
    ensures Patch(Patch(WavLaid(head, outer, inner, pcm), 4, newOuter), 40, newInner) ==
            WavLaid(head, newOuter, newInner, pcm)
  {
    TwoPatches(Tag("RIFF"), outer, WavMiddle(head), inner, pcm, newOuter, newInner);
  }

  lemma TwoPatches(a: Bytes, x: Bytes, b: Bytes, y: Bytes, c: Bytes, x': Bytes, y': Bytes)
    requires |x| == |x'| && |y| == |y'|
    ensures Patch(Patch(a + x + b + y + c, |a|, x'), |a| + |x| + |b|, y') == a + x' + b + y' + c
  {
    assert a + x + b + y + c == a + x + (b + y + c);
    PatchOne(a, x, x', b + y + c);
    assert a + x' + (b + y + c) == (a + x' + b) + y + c;
    PatchOne(a + x' + b, y, y', c);
  }

  lemma FiveJoined(a: Bytes, b: Bytes, c: Bytes, d: Bytes, e: Bytes, f: Bytes, g: Bytes, h: Bytes, i: Bytes)
    ensures a + b + (c + (d + e + f + (g + h + i))) == a + b + (c + d + e + f + g) + h + i
  {
  }

  lemma WavPieces(head: Bytes, pcm: Bytes)
    requires |head| == 16
    ensures FormBytes(Wav, Payload(Wav, head, pcm)) ==
            Tag("RIFF") + Little((36 + |pcm|) % WORD, 4)
            + (Tag("WAVE") + (Tag("fmt ") + Little(16, 4) + head + (Tag("data") + Little(|pcm| % WORD, 4) + pcm)))
  {
  }

  lemma WavShape(head: Bytes, pcm: Bytes)
    requires |head| == 16
    ensures FormBytes(Wav, Payload(Wav, head, pcm)) ==
            WavLaid(head, Little((36 + |pcm|) % WORD, 4), Little(|pcm| % WORD, 4), pcm)
  {
    WavPieces(head, pcm);
    FiveJoined(Tag("RIFF"), Little((36 + |pcm|) % WORD, 4), Tag("WAVE"), Tag("fmt "), Little(16, 4), head, Tag("data"),
      Little(|pcm| % WORD, 4), pcm);
  }

  /** A RIFF file's format chunk does not depend on the number of frames. */
  lemma HeadWithoutCount(rate: nat, n: nat, k: nat)
    requires GoodRate(rate)
    ensures HeadBody(Wav, rate, n) == HeadBody(Wav, rate, k)
  {
  }

  /** Where everything lies in a finished RIFF file. */
  lemma WavWhole(rate: nat, frames: seq<Pcm>, head: Bytes, data: Bytes)
    requires GoodRate(rate) && head == HeadBody(Wav, rate, |frames|) && data == DataBody(Wav, frames)
    ensures FileBytes(Wav, rate, frames) ==
            WavLaid(head, Little((36 + |data|) % WORD, 4), Little(|data| % WORD, 4), data)
  {
    WavShape(head, data);
  }

  // ----- AIFF ----------------------------------------------------------------------------------------

  function AiffMiddle(): (bytes: Bytes)
    ensures |bytes| == 14
  {
    Tag("AIFF") + Tag("COMM") + Big(18, 4) + Big(2, 2)
  }

  function AiffTail(rate: Bytes): (bytes: Bytes)
    ensures |bytes| == 6 + |rate|
  {
    Big(24, 2) + rate + Tag("SSND")
  }

  /** An AIFF file with this rate, these two sizes and this many frames. */
  function AiffLaid(rate: Bytes, outer: Bytes, count: Bytes, inner: Bytes, data: Bytes): (bytes: Bytes)
    requires |rate| == 10 && |outer| == |count| == |inner| == 4
    ensures |bytes| == 46 + |data|
  {
    Tag("FORM") + outer + AiffMiddle() + count + AiffTail(rate) + inner + data
  }

  lemma AiffPatched(rate: Bytes, outer: Bytes, count: Bytes, inner: Bytes, data: Bytes, newOuter: Bytes, newCount: Bytes,
                    newInner: Bytes)
    requires |rate| == 10 && |outer| == |count| == |inner| == |newOuter| == |newCount| == |newInner| == 4
    ensures Patch(Patch(Patch(AiffLaid(rate, outer, count, inner, data), 4, newOuter), 22, newCount), 42, newInner) ==
            AiffLaid(rate, newOuter, newCount, newInner, data)
  {
    ThreePatches(Tag("FORM"), outer, AiffMiddle(), count, AiffTail(rate), inner, data, newOuter, newCount, newInner);
  }

  lemma ThreePatches(a: Bytes, x: Bytes, b: Bytes, y: Bytes, c: Bytes, z: Bytes, d: Bytes, x': Bytes, y': Bytes, z': Bytes)
    requires |x| == |x'| && |y| == |y'| && |z| == |z'|
    ensures Patch(Patch(Patch(a + x + b + y + c + z + d, |a|, x'), |a| + |x| + |b|, y'),
              |a| + |x| + |b| + |y| + |c|, z') == a + x' + b + y' + c + z' + d
  {
    assert a + x + b + y + c + z + d == a + x + b + y + (c + z + d);
    TwoPatches(a, x, b, y, c + z + d, x', y');
    assert a + x' + b + y' + (c + z + d) == (a + x' + b + y' + c) + z + d;
    PatchOne(a + x' + b + y' + c, z, z', d);
  }

  lemma ManyJoined(a: Bytes, b: Bytes, c: Bytes, d: Bytes, e: Bytes, f: Bytes, g: Bytes, h: Bytes, i: Bytes, j: Bytes,
                   k: Bytes, l: Bytes)
    ensures a + b + (c + (d + e + (f + g + h + i) + (j + k + l))) ==
            a + b + (c + d + e + f) + g + (h + i + j) + k + l
  {
  }

  lemma AiffPieces(head: Bytes, data: Bytes)
    requires |head| == 18
    ensures FormBytes(Aiff, Payload(Aiff, head, data)) ==
            Tag("FORM") + Big((38 + |data|) % WORD, 4)
            + (Tag("AIFF") + (Tag("COMM") + Big(18, 4) + head + (Tag("SSND") + Big(|data| % WORD, 4) + data)))
  {
  }

  lemma AiffShape(count: Bytes, rate: Bytes, data: Bytes)
    requires |rate| == 10 && |count| == 4
    ensures FormBytes(Aiff, Payload(Aiff, Big(2, 2) + count + Big(24, 2) + rate, data)) ==
            AiffLaid(rate, Big((38 + |data|) % WORD, 4), count, Big(|data| % WORD, 4), data)
  {
    AiffPieces(Big(2, 2) + count + Big(24, 2) + rate, data);
    ManyJoined(Tag("FORM"), Big((38 + |data|) % WORD, 4), Tag("AIFF"), Tag("COMM"), Big(18, 4), Big(2, 2), count,
      Big(24, 2), rate, Tag("SSND"), Big(|data| % WORD, 4), data);
  }

  /** Where everything lies in a finished AIFF file. */
  lemma AiffWhole(rate: nat, frames: seq<Pcm>, count: Bytes, ten: Bytes, data: Bytes)
    requires GoodRate(rate) && count == Big(|frames| % WORD, 4) && ten == Extended80(rate)
    requires data == DataBody(Aiff, frames)
    ensures FileBytes(Aiff, rate, frames) ==
            AiffLaid(ten, Big((38 + |data|) % WORD, 4), count, Big(|data| % WORD, 4), data)
  {
    AiffShape(count, ten, data);
  }
}
