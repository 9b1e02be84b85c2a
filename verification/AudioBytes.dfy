/**
 Whole numbers, samples and sample rates as bytes: little- and big-endian fields, 24-bit samples, and rates as
 80-bit extended floats. Each is read back as it was written, as far as its field can hold it.
 */
module AudioBytes {
  import opened TimeMaps
  import opened Division

  type Byte = b: int | 0 <= b < 256
  type Int32 = n: int | -0x8000_0000 <= n < 0x8000_0000
  type Bytes = seq<Byte>

  const WORD: nat := 0x1_0000_0000

  function Power(base: nat, k: nat): (p: nat)
    ensures 0 < base ==> 0 < p
  {
    if k == 0 then 1 else base * Power(base, k - 1)
  }

  // ----- fields ---------------------------------------------------------------------------------

  /** The `index`th byte from the low end. */
  function ByteOf(value: nat, index: nat): Byte {
    if index == 0 then value % 256 else ByteOf(value / 256, index - 1)
  }

  function Little(value: nat, width: nat): (bytes: Bytes)
    ensures |bytes| == width
  {
    seq(width, i requires 0 <= i < width => ByteOf(value, i))
  }

  function Big(value: nat, width: nat): (bytes: Bytes)
    ensures |bytes| == width
  {
    seq(width, i requires 0 <= i < width => ByteOf(value, width - 1 - i))
  }

  function FromLittle(bytes: Bytes): nat {
    if bytes == [] then 0 else bytes[0] + 256 * FromLittle(bytes[1..])
  }

  function FromBig(bytes: Bytes): nat {
    if bytes == [] then 0 else FromBig(bytes[..|bytes| - 1]) * 256 + bytes[|bytes| - 1]
  }

  /** A field holds a value modulo its range, whichever end comes first. */
  lemma {:induction false} LittleReads(value: nat, width: nat)
    ensures FromLittle(Little(value, width)) == value % Power(256, width)
  {
    if 0 < width {
      var rest := Little(value, width)[1..];
      assert rest == Little(value / 256, width - 1) by {
        forall i | 0 <= i < width - 1
          ensures rest[i] == Little(value / 256, width - 1)[i]
        {
          assert ByteOf(value, i + 1) == ByteOf(value / 256, i);
        }
      }
      LittleReads(value / 256, width - 1);
      assert ByteOf(value, 0) == value % 256;
      Remainder(value, Power(256, width - 1));
    }
  }

  lemma {:induction false} BigReads(value: nat, width: nat)
    ensures FromBig(Big(value, width)) == value % Power(256, width)
  {
    if 0 < width {
      var rest := Big(value, width)[..width - 1];
      assert rest == Big(value / 256, width - 1) by {
        forall i | 0 <= i < width - 1
          ensures rest[i] == Big(value / 256, width - 1)[i]
        {
          assert ByteOf(value, width - 1 - i) == ByteOf(value / 256, width - 2 - i);
        }
      }
      BigReads(value / 256, width - 1);
      assert ByteOf(value, 0) == value % 256;
      Remainder(value, Power(256, width - 1));
    }
  }

  lemma Remainder(value: nat, p: nat)
    requires 0 < p
    ensures value % 256 + 256 * (value / 256 % p) == value % (256 * p)
  {
    var high, low := value / 256, value % 256;
    var q, r := high / p, high % p;
    assert high == q * p + r;
    Regrouped(q, r, low, 256, p);
    assert value == q * (256 * p) + (r * 256 + low);
    Divided(q, 256 * p, r * 256 + low);
  }

  // ----- 24-bit samples ---------------------------------------------------------------------------

  const FULL_SCALE: int := 8388607

  type Sample24 = s: int | -0x80_0000 <= s < 0x80_0000

  function Clamp(sample: real): real {
    if sample < -1.0 then -1.0 else if 1.0 < sample then 1.0 else sample
  }

  function ToPcm24(sample: real): (pcm: Sample24)
    ensures -FULL_SCALE <= pcm <= FULL_SCALE
  {
    Round(Scale(Clamp(sample), FULL_SCALE as real))
  }

  /** Within half a step of the sample, if it is in range; and nothing is turned round or over. */
  lemma Quantised(sample: real, other: real)
    ensures -1.0 <= sample <= 1.0 ==> -0.5 <= ToPcm24(sample) as real - sample * 8388607.0 <= 0.5
    ensures sample >= 1.0 ==> ToPcm24(sample) == FULL_SCALE
    ensures ToPcm24(-sample) == -ToPcm24(sample)
    ensures sample <= other ==> ToPcm24(sample) <= ToPcm24(other)
  {
    assert Scale(Clamp(-sample), 8388607.0) == -Scale(Clamp(sample), 8388607.0);
  }

  /** Two's complement in 32 bits, of which the low 24 are written. */
  function Bits(pcm: Sample24): nat {
    pcm % WORD
  }

  function SignExtend(bits: nat): int {
    if bits < 0x80_0000 then bits else bits - 0x100_0000
  }

  /** A sample survives both byte orders. */
  lemma SamplesRead(pcm: Sample24)
    ensures SignExtend(FromLittle(Little(Bits(pcm), 3))) == pcm
    ensures SignExtend(FromBig(Big(Bits(pcm), 3))) == pcm
  {
    LittleReads(Bits(pcm), 3);
    BigReads(Bits(pcm), 3);
    SmallPowers();
  }

  // ----- 80-bit floats ------------------------------------------------------------------------------

  /** The exponent that brings a positive whole number into one half up to one. */
  function BitLength(n: nat): (e: nat)
    ensures 0 < n ==> 0 < e
  {
    if n == 0 then 0 else 1 + BitLength(n / 2)
  }

  lemma {:induction false} BitLengthBounds(n: nat)
    requires 0 < n
    ensures Power(2, BitLength(n) - 1) <= n < Power(2, BitLength(n))
  {
    if 1 < n {
      BitLengthBounds(n / 2);
    }
  }

  lemma {:induction false} BitLengthFits(n: nat, k: nat)
    requires n < Power(2, k)
    ensures BitLength(n) <= k
  {
    if 0 < n && 0 < k {
      BitLengthFits(n / 2, k - 1);
    }
  }

  lemma {:induction false} PowerAdds(base: nat, a: nat, b: nat)
    ensures Power(base, a) * Power(base, b) == Power(base, a + b)
  {
    if 0 < a {
      PowerAdds(base, a - 1, b);
      assert base * (Power(base, a - 1) * Power(base, b)) == base * Power(base, a - 1) * Power(base, b);
    }
  }

  /** The mantissa, scaled by two to the 64th; the leading bit is written out. */
  function Fraction(n: nat): (f: nat)
    requires BitLength(n) <= 64
  {
    n * Power(2, 64 - BitLength(n))
  }

  function Extended80(n: nat): (bytes: Bytes)
    requires 0 < n && BitLength(n) <= 64
    ensures |bytes| == 10
  {
    Big(BitLength(n) - 1 + 16383, 2) + Big(Fraction(n), 8)
  }

  function TwoTo(k: int): real {
    if 0 <= k then Power(2, k) as real else 1.0 / Power(2, -k) as real
  }

  function Worth80(head: nat, fraction: nat): real {
    var magnitude := Scale(fraction as real, TwoTo(head % 0x8000 - 16383 - 63));
    if head < 0x8000 then magnitude else -magnitude
  }

  /** What ten bytes of extended precision are worth, by section 3.3 of IEEE 754-1985. */
  function FromExtended80(bytes: Bytes): real
    requires |bytes| == 10
  {
    Worth80(FromBig(bytes[..2]), FromBig(bytes[2..]))
  }

  lemma {:induction false} FractionNormal(n: nat)
    requires 0 < n && BitLength(n) <= 64
    ensures Power(2, 63) <= Fraction(n) < Power(2, 64)
  {
    var e := BitLength(n);
    BitLengthBounds(n);
    PowerAdds(2, e - 1, 64 - e);
    PowerAdds(2, e, 64 - e);
    Between(Power(2, e - 1), n, Power(2, e), Power(2, 64 - e));
  }

  lemma Between(low: nat, n: nat, high: nat, factor: nat)
    requires low <= n < high && 0 < factor
    ensures low * factor <= n * factor < high * factor
  {
  }

  lemma {:induction false} BytesAreBits(k: nat)
    ensures Power(256, k) == Power(2, 8 * k)
  {
    if 0 < k {
      BytesAreBits(k - 1);
      PowerAdds(2, 8, 8 * (k - 1));
      Eight();
    }
  }

  lemma Eight()
    ensures Power(2, 8) == 256
  {
    assert Power(2, 2) == 4 && Power(2, 4) == 16 && Power(2, 6) == 64;
  }

  lemma Undone(n: nat, p: nat)
    requires 0 < p
    ensures (n * p) as real * (1.0 / p as real) == n as real
  {
    var x := 1.0 / p as real;
    assert p as real * x == 1.0;
    assert (n * p) as real * x == n as real * (p as real * x);
  }

  lemma BigFits(value: nat, width: nat)
    requires value < Power(256, width)
    ensures FromBig(Big(value, width)) == value
  {
    BigReads(value, width);
    Divided(0, Power(256, width), value);
  }

  lemma Slices(a: Bytes, b: Bytes)
    ensures (a + b)[..|a|] == a && (a + b)[|a|..] == b
  {
  }

  /** The two fields of the ten bytes. */
  lemma {:induction false} Halves(n: nat, head: nat, fraction: nat)
    requires 0 < n && BitLength(n) <= 64 && head == BitLength(n) - 1 + 16383 && fraction == Fraction(n)
    requires fraction < Power(256, 8)
    ensures FromBig(Extended80(n)[..2]) == head && FromBig(Extended80(n)[2..]) == fraction
  {
    Slices(Big(head, 2), Big(fraction, 8));
    SmallPowers();
    BigFits(head, 2);
    BigFits(fraction, 8);
  }

  lemma SmallPowers()
    ensures Power(256, 2) == 0x1_0000 && Power(256, 3) == 0x100_0000 && Power(256, 4) == WORD
  {
    assert Power(256, 1) == 256;
    assert Power(256, 2) == 0x1_0000;
    assert Power(256, 3) == 0x100_0000;
  }

  /** Every positive whole number of up to 64 bits is written normalised, and is worth itself. */
  lemma {:induction false} RatesRead(n: nat)
    requires 0 < n && BitLength(n) <= 64
    ensures FromExtended80(Extended80(n)) == n as real
    ensures Power(2, 63) <= FromBig(Extended80(n)[2..])
  {
    FractionNormal(n);
    BytesAreBits(8);
    Halves(n, BitLength(n) - 1 + 16383, Fraction(n));
    Worth(n, BitLength(n));
  }

  lemma Worth(n: nat, e: nat)
    requires 1 <= e <= 64
    ensures Worth80(e + 16382, n * Power(2, 64 - e)) == n as real
  {
    Undone(n, Power(2, 64 - e));
    if e == 64 {
      assert Power(2, 0) == 1;
    }
  }

  /** Every rate that can be asked for has few enough bits. */
  lemma Int32Fits(n: Int32)
    requires 0 < n
    ensures BitLength(n) <= 64
  {
    BytesAreBits(4);
    SmallPowers();
    BitLengthFits(n, 32);
  }

  // ----- appending ------------------------------------------------------------------------------------

  method AppendLittle(bytes: Bytes, value: nat, width: nat) returns (more: Bytes)
    ensures more == bytes + Little(value, width)
  {
    more := bytes;
    for index := 0 to width
      invariant more == bytes + Little(value, width)[..index]
    {
      more := more + [ByteOf(value, index)];
    }
  }

  method AppendBig(bytes: Bytes, value: nat, width: nat) returns (more: Bytes)
    ensures more == bytes + Big(value, width)
  {
    more := bytes;
    var index := width - 1;
    while 0 <= index
      invariant -1 <= index < width && more == bytes + Big(value, width)[..width - 1 - index]
    {
      more := more + [ByteOf(value, index)];
      index := index - 1;
    }
  }

  method AppendExtended80(bytes: Bytes, n: nat) returns (more: Bytes)
    requires 0 < n && BitLength(n) <= 64
    ensures more == bytes + Extended80(n)
  {
    var biased := BitLength(n) - 1 + 16383;
    more := bytes + [ByteOf(biased, 1), ByteOf(biased, 0)];
    assert more == bytes + Big(biased, 2);
    more := AppendBig(more, Fraction(n), 8);
  }
}
