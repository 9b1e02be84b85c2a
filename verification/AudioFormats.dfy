/**
 Stereo 24-bit audio files of either kind: what a finished file holds, and a reader that goes by the formats
 alone, chunk by chunk. A finished file is read back, rate and samples and all, exactly when its sizes fit their
 fields; otherwise it is not taken for a good file.
 */
module AudioFormats {
  import opened Options
  import opened AudioBytes

  datatype Format = Wav | Aiff

  datatype Pcm = Pcm(left: Sample24, right: Sample24)

  datatype Audio = Audio(rate: real, frames: seq<Pcm>)

  function Tag(tag: string): (bytes: Bytes)
    ensures |bytes| == |tag|
  {
    seq(|tag|, i requires 0 <= i < |tag| => tag[i] as int % 256)
  }

  function Field(format: Format, value: nat, width: nat): (bytes: Bytes)
    ensures |bytes| == width
  {
    if format == Wav then Little(value, width) else Big(value, width)
  }

  function ValueOf(format: Format, bytes: Bytes): nat {
    if format == Wav then FromLittle(bytes) else FromBig(bytes)
  }

  lemma FieldReads(format: Format, value: nat, width: nat)
    ensures ValueOf(format, Field(format, value, width)) == value % Power(256, width)
  {
    LittleReads(value, width);
    BigReads(value, width);
  }

  lemma FourBytes(format: Format, value: nat)
    ensures ValueOf(format, Field(format, value % WORD, 4)) == value % WORD
  {
    FieldReads(format, value % WORD, 4);
    SmallPowers();
  }

  lemma TwoBytes(format: Format, value: nat)
    requires value < 0x1_0000
    ensures ValueOf(format, Field(format, value, 2)) == value
  {
    FieldReads(format, value, 2);
    SmallPowers();
  }

  // ----- samples --------------------------------------------------------------------------------

  function FrameBytes(format: Format, frame: Pcm): (bytes: Bytes)
    ensures |bytes| == 6
  {
    Field(format, Bits(frame.left), 3) + Field(format, Bits(frame.right), 3)
  }

  function PcmBytes(format: Format, frames: seq<Pcm>): (bytes: Bytes)
    ensures |bytes| == 6 * |frames|
  {
    if frames == [] then [] else PcmBytes(format, frames[..|frames| - 1]) + FrameBytes(format, frames[|frames| - 1])
  }

  lemma {:induction false} PcmJoin(format: Format, a: seq<Pcm>, b: seq<Pcm>)
    ensures PcmBytes(format, a + b) == PcmBytes(format, a) + PcmBytes(format, b)
  {
    if b == [] {
      assert a + b == a;
    } else {
      var front, last := b[..|b| - 1], b[|b| - 1];
      PcmJoin(format, a, front);
      assert (a + b)[..|a + b| - 1] == a + front;
    }
  }

  lemma {:induction false} PcmAt(format: Format, frames: seq<Pcm>, i: nat)
    requires i < |frames|
    ensures PcmBytes(format, frames)[6 * i..6 * i + 6] == FrameBytes(format, frames[i])
  {
    if i < |frames| - 1 {
      PcmAt(format, frames[..|frames| - 1], i);
    }
  }

  function FrameOf(format: Format, bytes: Bytes): (frame: Option<Pcm>) {
    if |bytes| != 6 then None
    else
    var left, right := SignExtend(ValueOf(format, bytes[..3])), SignExtend(ValueOf(format, bytes[3..]));
    if -0x80_0000 <= left < 0x80_0000 && -0x80_0000 <= right < 0x80_0000 then Some(Pcm(left, right)) else None
  }

  lemma FrameReads(format: Format, frame: Pcm)
    ensures FrameOf(format, FrameBytes(format, frame)) == Some(frame)
  {
    SamplesRead(frame.left);
    SamplesRead(frame.right);
    Slices(Field(format, Bits(frame.left), 3), Field(format, Bits(frame.right), 3));
  }

  function Decoder(format: Format): Bytes -> Option<Pcm> {
    bytes => FrameOf(format, bytes)
  }

  /** Six bytes a frame, each by `decode`. */
  function ReadPcm(decode: Bytes -> Option<Pcm>, data: Bytes): Option<seq<Pcm>> {
    if data == [] then Some([])
    else if |data| < 6 then None
    else AddFrame(ReadPcm(decode, data[..|data| - 6]), decode(data[|data| - 6..]))
  }

  function AddFrame(frames: Option<seq<Pcm>>, frame: Option<Pcm>): Option<seq<Pcm>> {
    if frames == None || frame == None then None else Some(frames.value + [frame.value])
  }

  lemma PcmStep(decode: Bytes -> Option<Pcm>, front: Bytes, last: Bytes)
    requires |last| == 6
    ensures ReadPcm(decode, front + last) == AddFrame(ReadPcm(decode, front), decode(last))
  {
    Slices(front, last);
  }

  lemma {:induction false} FramesRead(format: Format, decode: Bytes -> Option<Pcm>, frames: seq<Pcm>)
    requires forall frame: Pcm :: decode(FrameBytes(format, frame)) == Some(frame)
    ensures ReadPcm(decode, PcmBytes(format, frames)) == Some(frames)
  {
    if frames != [] {
      var front, last := frames[..|frames| - 1], frames[|frames| - 1];
      FramesRead(format, decode, front);
      PcmStep(decode, PcmBytes(format, front), FrameBytes(format, last));
      assert frames == front + [last];
    }
  }

  lemma PcmReads(format: Format, frames: seq<Pcm>)
    ensures ReadPcm(Decoder(format), PcmBytes(format, frames)) == Some(frames)
  {
    forall frame: Pcm
      ensures Decoder(format)(FrameBytes(format, frame)) == Some(frame)
    {
      FrameReads(format, frame);
    }
    FramesRead(format, Decoder(format), frames);
  }

  // ----- chunks -----------------------------------------------------------------------------------

  datatype Chunk = Chunk(tag: Bytes, body: Bytes)

  /** Tag, size and body, one after another; an odd body is padded. */
  function Chunks(format: Format, bytes: Bytes): Option<seq<Chunk>>
    decreases |bytes|
  {
    if bytes == [] then Some([])
    else if |bytes| < 8 then None
    else
      var size := ValueOf(format, bytes[4..8]);
      var next := 8 + size + size % 2;
      if |bytes| < next then None
      else AddChunk(Chunk(bytes[..4], bytes[8..8 + size]), Chunks(format, bytes[next..]))
  }

  function AddChunk(chunk: Chunk, rest: Option<seq<Chunk>>): Option<seq<Chunk>> {
    match rest
    case Some(chunks) => Some([chunk] + chunks)
    case None => None
  }

  function ChunkBytes(format: Format, tag: string, body: Bytes): Bytes {
    Tag(tag) + Field(format, |body| % WORD, 4) + body
  }

  lemma ChunkStep(format: Format, tag: Bytes, size: Bytes, body: Bytes, rest: Bytes)
    requires |tag| == |size| == 4 && ValueOf(format, size) == |body| && |body| % 2 == 0
    ensures Chunks(format, tag + size + body + rest) == AddChunk(Chunk(tag, body), Chunks(format, rest))
  {
    ThreeParts(tag, size, body, rest);
  }

  lemma ChunkFirst(format: Format, tag: string, body: Bytes, rest: Bytes)
    requires |tag| == 4 && |body| < WORD && |body| % 2 == 0
    ensures Chunks(format, ChunkBytes(format, tag, body) + rest) == AddChunk(Chunk(Tag(tag), body), Chunks(format, rest))
  {
    FourBytes(format, |body|);
    ChunkStep(format, Tag(tag), Field(format, |body| % WORD, 4), body, rest);
  }

  lemma ThreeParts(tag: Bytes, size: Bytes, body: Bytes, rest: Bytes)
    requires |tag| == 4 && |size| == 4
    ensures var bytes := tag + size + body + rest;
      bytes[..4] == tag && bytes[4..8] == size && bytes[8..8 + |body|] == body && bytes[8 + |body|..] == rest
  {
  }

  // ----- files --------------------------------------------------------------------------------------

  function FormTag(format: Format): string {
    if format == Wav then "RIFF" else "FORM"
  }

  function KindTag(format: Format): string {
    if format == Wav then "WAVE" else "AIFF"
  }

  function HeadTag(format: Format): string {
    if format == Wav then "fmt " else "COMM"
  }

  function DataTag(format: Format): string {
    if format == Wav then "data" else "SSND"
  }

  predicate GoodRate(rate: int) {
    0 < rate && BitLength(rate) <= 64
  }

  function HeadBody(format: Format, rate: nat, count: nat): (body: Bytes)
    requires GoodRate(rate)
    ensures |body| == if format == Wav then 16 else 18
  {
    if format == Wav
    then Little(1, 2) + Little(2, 2) + Little(rate % WORD, 4) + Little(rate * 6 % WORD, 4) + Little(6, 2) + Little(24, 2)
    else Big(2, 2) + Big(count % WORD, 4) + Big(24, 2) + Extended80(rate)
  }

  /** What comes before the samples in their chunk. */
  function DataStart(format: Format): (bytes: Bytes)
    ensures |bytes| == if format == Wav then 0 else 8
  {
    if format == Wav then [] else Big(0, 4) + Big(0, 4)
  }

  /** The samples' chunk. */
  function DataBody(format: Format, frames: seq<Pcm>): (body: Bytes)
    ensures |body| == (if format == Wav then 0 else 8) + 6 * |frames|
  {
    DataStart(format) + PcmBytes(format, frames)
  }

  /** The two chunks. */
  function Payload(format: Format, head: Bytes, data: Bytes): (payload: Bytes)
    ensures |payload| == 16 + |head| + |data|
  {
    ChunkBytes(format, HeadTag(format), head) + ChunkBytes(format, DataTag(format), data)
  }

  /** A finished file. Every size is kept modulo two to the 32nd. */
  function FileBytes(format: Format, rate: nat, frames: seq<Pcm>): (bytes: Bytes)
    requires GoodRate(rate)
    ensures |bytes| == 8 + Overhead(format) + 6 * |frames|
  {
    FormBytes(format, Payload(format, HeadBody(format, rate, |frames|), DataBody(format, frames)))
  }

  function FormBytes(format: Format, payload: Bytes): (bytes: Bytes)
    ensures |bytes| == 12 + |payload|
  {
    Tag(FormTag(format)) + Field(format, (4 + |payload|) % WORD, 4) + (Tag(KindTag(format)) + payload)
  }

  /** All that is not samples, but for the outer tag and size. */
  function Overhead(format: Format): nat {
    if format == Wav then 36 else 46
  }

  // ----- reading --------------------------------------------------------------------------------------

  /** What follows the outer tag and size, in a file of this kind whose outer size is right. */
  function ReadForm(format: Format, bytes: Bytes): Option<Bytes> {
    if |bytes| < 12 || bytes[..4] != Tag(FormTag(format)) || ValueOf(format, bytes[4..8]) != |bytes| - 8
       || bytes[8..12] != Tag(KindTag(format)) then None
    else Some(bytes[12..])
  }

  /** Sample rate, and how many frames are declared; for a RIFF file the data says how many. */
  datatype Head = Head(rate: real, count: Option<nat>)

  function ReadHead(format: Format, body: Bytes): Option<Head> {
    if format == Wav then
      if |body| == 16 then
        WavHeadOf(FromLittle(body[..2]), FromLittle(body[2..4]), FromLittle(body[4..8]), FromLittle(body[8..12]),
          FromLittle(body[12..14]), FromLittle(body[14..]))
      else None
    else
      if |body| == 18 then
        AiffHeadOf(FromBig(body[..2]), FromBig(body[2..6]), FromBig(body[6..8]), FromExtended80(body[8..]))
      else None
  }

  /** Stereo PCM of 24 bits, at a byte rate that follows from that. */
  function WavHeadOf(kind: nat, channels: nat, rate: nat, byteRate: nat, align: nat, bits: nat): Option<Head> {
    if kind == 1 && channels == 2 && byteRate == 6 * rate && align == 6 && bits == 24 then Some(Head(rate as real, None))
    else None
  }

  function AiffHeadOf(channels: nat, count: nat, bits: nat, rate: real): Option<Head> {
    if channels == 2 && bits == 24 then Some(Head(rate, Some(count))) else None
  }

  function ReadData(format: Format, head: Head, body: Bytes): Option<Audio> {
    if format == Wav then AudioOf(head, ReadPcm(Decoder(format), body))
    else if |body| < 8 then None
    else AiffAudioOf(head, FromBig(body[..4]), FromBig(body[4..8]), ReadPcm(Decoder(format), body[8..]))
  }

  function AudioOf(head: Head, frames: Option<seq<Pcm>>): Option<Audio> {
    if frames == None || (head.count != None && head.count.value != |frames.value|) then None
    else Some(Audio(head.rate, frames.value))
  }

  /** Without an offset and without blocks. */
  function AiffAudioOf(head: Head, offset: nat, block: nat, frames: Option<seq<Pcm>>): Option<Audio> {
    if offset == 0 && block == 0 then AudioOf(head, frames) else None
  }

  function ReadChunks(format: Format, chunks: Option<seq<Chunk>>): Option<Audio> {
    if chunks == None || |chunks.value| != 2 then None
    else ReadBoth(format, chunks.value[0], chunks.value[1])
  }

  function ReadBoth(format: Format, head: Chunk, data: Chunk): Option<Audio> {
    if head.tag != Tag(HeadTag(format)) || data.tag != Tag(DataTag(format)) then None
    else ReadWith(format, ReadHead(format, head.body), data.body)
  }

  function ReadWith(format: Format, head: Option<Head>, data: Bytes): Option<Audio> {
    if head == None then None else ReadData(format, head.value, data)
  }

  /** The audio in a file, if it is a good one. */
  function Read(format: Format, bytes: Bytes): Option<Audio> {
    ReadPayload(format, ReadForm(format, bytes))
  }

  function ReadPayload(format: Format, payload: Option<Bytes>): Option<Audio> {
    if payload == None then None else ReadChunks(format, Chunks(format, payload.value))
  }

  // ----- a finished file reads back -----------------------------------------------------------------------

  /** The sizes fit their fields, and so does the byte rate that a RIFF file declares. */
  predicate Fits(format: Format, rate: nat, n: nat) {
    Overhead(format) + 6 * n < WORD && (format == Wav ==> 6 * rate < WORD)
  }

  lemma SixParts(a: Bytes, b: Bytes, c: Bytes, d: Bytes, e: Bytes, f: Bytes)
    requires |a| == |b| == |e| == |f| == 2 && |c| == |d| == 4
    ensures var s := a + b + c + d + e + f;
      s[..2] == a && s[2..4] == b && s[4..8] == c && s[8..12] == d && s[12..14] == e && s[14..] == f
  {
  }

  lemma FourParts(a: Bytes, b: Bytes, c: Bytes, d: Bytes)
    requires |a| == |c| == 2 && |b| == 4
    ensures var s := a + b + c + d; s[..2] == a && s[2..6] == b && s[6..8] == c && s[8..] == d
  {
  }

  lemma WavFields(a: Bytes, b: Bytes, c: Bytes, d: Bytes, e: Bytes, f: Bytes)
    requires |a| == |b| == |e| == |f| == 2 && |c| == |d| == 4
    ensures ReadHead(Wav, a + b + c + d + e + f) ==
            WavHeadOf(FromLittle(a), FromLittle(b), FromLittle(c), FromLittle(d), FromLittle(e), FromLittle(f))
  {
    SixParts(a, b, c, d, e, f);
  }

  lemma LittleTwo(value: nat)
    requires value < 0x1_0000
    ensures FromLittle(Little(value, 2)) == value
  {
    TwoBytes(Wav, value);
  }

  lemma LittleFour(value: nat)
    ensures FromLittle(Little(value % WORD, 4)) == value % WORD
  {
    FourBytes(Wav, value);
  }

  lemma FixedFields()
    ensures FromLittle(Little(1, 2)) == 1 && FromLittle(Little(2, 2)) == 2
    ensures FromLittle(Little(6, 2)) == 6 && FromLittle(Little(24, 2)) == 24
    ensures FromBig(Big(2, 2)) == 2 && FromBig(Big(24, 2)) == 24
  {
    LittleTwo(1);
    LittleTwo(2);
    LittleTwo(6);
    LittleTwo(24);
    TwoBytes(Aiff, 2);
    TwoBytes(Aiff, 24);
  }

  lemma WavNumbers(rate: nat)
    requires rate < WORD
    ensures WavHeadOf(FromLittle(Little(1, 2)), FromLittle(Little(2, 2)), FromLittle(Little(rate % WORD, 4)),
              FromLittle(Little(rate * 6 % WORD, 4)), FromLittle(Little(6, 2)), FromLittle(Little(24, 2))) ==
            if 6 * rate < WORD then Some(Head(rate as real, None)) else None
  {
    assert FromLittle(Little(1, 2)) == 1 && FromLittle(Little(2, 2)) == 2 && FromLittle(Little(6, 2)) == 6
           && FromLittle(Little(24, 2)) == 24 by { FixedFields(); }
    assert FromLittle(Little(rate % WORD, 4)) == rate by { LittleFour(rate); }
    assert FromLittle(Little(rate * 6 % WORD, 4)) == rate * 6 % WORD by { LittleFour(rate * 6); }
  }

  lemma WavHead(rate: nat, count: nat)
    requires GoodRate(rate) && rate < WORD
    ensures ReadHead(Wav, HeadBody(Wav, rate, count)) == if 6 * rate < WORD then Some(Head(rate as real, None)) else None
  {
    WavNumbers(rate);
    WavFields(Little(1, 2), Little(2, 2), Little(rate % WORD, 4), Little(rate * 6 % WORD, 4), Little(6, 2),
      Little(24, 2));
  }

  lemma AiffHead(rate: nat, count: nat)
    requires GoodRate(rate) && count < WORD
    ensures ReadHead(Aiff, HeadBody(Aiff, rate, count)) == Some(Head(rate as real, Some(count)))
  {
    AiffFields(Big(2, 2), Big(count % WORD, 4), Big(24, 2), Extended80(rate));
    AiffNumbers(rate, count);
  }

  lemma AiffNumbers(rate: nat, count: nat)
    requires GoodRate(rate) && count < WORD
    ensures AiffHeadOf(FromBig(Big(2, 2)), FromBig(Big(count % WORD, 4)), FromBig(Big(24, 2)),
              FromExtended80(Extended80(rate))) == Some(Head(rate as real, Some(count)))
  {
    assert FromBig(Big(2, 2)) == 2 && FromBig(Big(24, 2)) == 24 by { FixedFields(); }
    assert FromBig(Big(count % WORD, 4)) == count by { FourBytes(Aiff, count); }
    assert FromExtended80(Extended80(rate)) == rate as real by { RatesRead(rate); }
  }

  lemma AiffFields(a: Bytes, b: Bytes, c: Bytes, d: Bytes)
    requires |a| == |c| == 2 && |b| == 4 && |d| == 10
    ensures ReadHead(Aiff, a + b + c + d) == AiffHeadOf(FromBig(a), FromBig(b), FromBig(c), FromExtended80(d))
  {
    FourParts(a, b, c, d);
  }

  lemma TwoAndRest(a: Bytes, b: Bytes, rest: Bytes)
    requires |a| == |b| == 4
    ensures (a + b + rest)[..4] == a && (a + b + rest)[4..8] == b && (a + b + rest)[8..] == rest
  {
  }

  lemma AiffData(head: Head, offset: Bytes, block: Bytes, pcm: Bytes)
    requires |offset| == |block| == 4
    ensures ReadData(Aiff, head, offset + block + pcm) ==
            AiffAudioOf(head, FromBig(offset), FromBig(block), ReadPcm(Decoder(Aiff), pcm))
  {
    TwoAndRest(offset, block, pcm);
  }

  lemma WavData(head: Head, pcm: Bytes)
    ensures ReadData(Wav, head, [] + pcm) == AudioOf(head, ReadPcm(Decoder(Wav), pcm))
  {
    assert [] + pcm == pcm;
  }

  lemma DataReads(format: Format, head: Head, frames: seq<Pcm>)
    requires head.count == None || head.count == Some(|frames|)
    ensures ReadData(format, head, DataBody(format, frames)) == Some(Audio(head.rate, frames))
  {
    PcmReads(format, frames);
    if format == Aiff {
      FourBytes(format, 0);
      AiffData(head, Big(0, 4), Big(0, 4), PcmBytes(format, frames));
    } else {
      WavData(head, PcmBytes(format, frames));
    }
  }

  lemma FormParts(form: Bytes, size: Bytes, kind: Bytes, rest: Bytes)
    requires |form| == |size| == |kind| == 4
    ensures var bytes := form + size + (kind + rest);
      bytes[..4] == form && bytes[4..8] == size && bytes[8..12] == kind && bytes[12..] == rest
  {
  }

  lemma FormReads(format: Format, payload: Bytes)
    ensures ReadForm(format, FormBytes(format, payload)) == if 4 + |payload| < WORD then Some(payload) else None
    ensures ValueOf(format, FormBytes(format, payload)[4..8]) == (4 + |payload|) % WORD
  {
    FourBytes(format, 4 + |payload|);
    FormBody(format, Field(format, (4 + |payload|) % WORD, 4), payload);
  }

  lemma FormBody(format: Format, size: Bytes, payload: Bytes)
    requires |size| == 4
    ensures var bytes := Tag(FormTag(format)) + size + (Tag(KindTag(format)) + payload);
      && bytes[4..8] == size
      && ReadForm(format, bytes) == if ValueOf(format, size) == 4 + |payload| then Some(payload) else None
  {
    FormParts(Tag(FormTag(format)), size, Tag(KindTag(format)), payload);
  }

  lemma NoRest(bytes: Bytes)
    ensures bytes + [] == bytes
  {
  }

  lemma ChunkLast(format: Format, tag: string, body: Bytes)
    requires |tag| == 4 && |body| < WORD && |body| % 2 == 0
    ensures Chunks(format, ChunkBytes(format, tag, body)) == Some([Chunk(Tag(tag), body)])
  {
    ChunkFirst(format, tag, body, []);
    NoRest(ChunkBytes(format, tag, body));
    Added(Chunk(Tag(tag), body), []);
  }

  lemma Added(chunk: Chunk, rest: seq<Chunk>)
    ensures AddChunk(chunk, Some(rest)) == Some([chunk] + rest)
    ensures [chunk] + [] == [chunk]
    ensures |rest| == 1 ==> [chunk] + rest == [chunk, rest[0]]
  {
  }

  lemma TwoChunks(format: Format, tag: string, body: Bytes, other: string, data: Bytes)
    requires |tag| == |other| == 4 && |body| < WORD && |data| < WORD && |body| % 2 == |data| % 2 == 0
    ensures Chunks(format, ChunkBytes(format, tag, body) + ChunkBytes(format, other, data)) ==
            Some([Chunk(Tag(tag), body), Chunk(Tag(other), data)])
  {
    ChunkLast(format, other, data);
    ChunkFirst(format, tag, body, ChunkBytes(format, other, data));
    Added(Chunk(Tag(tag), body), [Chunk(Tag(other), data)]);
  }

  lemma With(format: Format, head: Option<Head>, data: Bytes, audio: Audio)
    requires head != None ==> ReadData(format, head.value, data) == Some(audio)
    ensures ReadWith(format, head, data) == if head == None then None else Some(audio)
  {
  }

  lemma WavRead(rate: nat, frames: seq<Pcm>, head: Option<Head>)
    requires GoodRate(rate) && rate < WORD && head == ReadHead(Wav, HeadBody(Wav, rate, |frames|))
    ensures ReadWith(Wav, head, DataBody(Wav, frames)) ==
            if 6 * rate < WORD then Some(Audio(rate as real, frames)) else None
  {
    WavHead(rate, |frames|);
    DataReads(Wav, Head(rate as real, None), frames);
    With(Wav, head, DataBody(Wav, frames), Audio(rate as real, frames));
  }

  lemma AiffRead(rate: nat, frames: seq<Pcm>, head: Option<Head>)
    requires GoodRate(rate) && |frames| < WORD && head == ReadHead(Aiff, HeadBody(Aiff, rate, |frames|))
    ensures ReadWith(Aiff, head, DataBody(Aiff, frames)) == Some(Audio(rate as real, frames))
  {
    AiffHead(rate, |frames|);
    DataReads(Aiff, Head(rate as real, Some(|frames|)), frames);
    With(Aiff, head, DataBody(Aiff, frames), Audio(rate as real, frames));
  }

  lemma Pair(format: Format, head: Bytes, data: Bytes)
    ensures ReadChunks(format, Some([Chunk(Tag(HeadTag(format)), head), Chunk(Tag(DataTag(format)), data)])) ==
            ReadWith(format, ReadHead(format, head), data)
  {
  }

  /** Whatever the two chunks say is what the file says, if the sizes fit. */
  lemma BothRead(format: Format, head: Bytes, data: Bytes)
    requires |head| % 2 == |data| % 2 == 0
    ensures Read(format, FormBytes(format, Payload(format, head, data))) ==
            if 20 + |head| + |data| < WORD then ReadWith(format, ReadHead(format, head), data) else None
  {
    FormReads(format, Payload(format, head, data));
    if 20 + |head| + |data| < WORD {
      TwoChunks(format, HeadTag(format), head, DataTag(format), data);
      Pair(format, head, data);
    }
  }

  /** A finished file is read back whole exactly when it fits, and is refused when it does not. */
  lemma {:induction false} FileReads(format: Format, rate: nat, frames: seq<Pcm>)
    requires GoodRate(rate) && rate < WORD
    ensures Read(format, FileBytes(format, rate, frames)) ==
            if Fits(format, rate, |frames|) then Some(Audio(rate as real, frames)) else None
  {
    BothRead(format, HeadBody(format, rate, |frames|), DataBody(format, frames));
    if Overhead(format) + 6 * |frames| < WORD {
      if format == Wav {
        WavRead(rate, frames, ReadHead(Wav, HeadBody(Wav, rate, |frames|)));
      } else {
        AiffRead(rate, frames, ReadHead(Aiff, HeadBody(Aiff, rate, |frames|)));
      }
    }
  }

  /** The outer size is the length of the file less eight exactly when it fits. */
  lemma OuterSize(format: Format, rate: nat, frames: seq<Pcm>)
    requires GoodRate(rate)
    ensures var bytes := FileBytes(format, rate, frames);
      ValueOf(format, bytes[4..8]) == |bytes| - 8 <==> Overhead(format) + 6 * |frames| < WORD
  {
    FormReads(format, Payload(format, HeadBody(format, rate, |frames|), DataBody(format, frames)));
  }
}
