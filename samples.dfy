/** The sample unpacker: raw little-endian audio samples of 1, 2, 3 or 4
    bytes scaled to the daemon's working range around [-1, +1].

    The scaling follows the code exactly, including the 24-bit path, which
    masks the low 24 bits of a machine word and does not sign-extend: a
    negative 24-bit sample lands in [1, 2) rather than in [-1, 0). */
module Samples {
  import opened Basics

  /** Width 1: an unsigned byte centred on 127. */
  function Sample8(b: byte): (f: real)
    ensures -127.0 / 128.0 <= f <= 1.0
    ensures f == 0.0 <==> b == 127
  {
    (b as real - 127.0) / 128.0
  }

  /** A signed 16-bit little-endian value (a short read from the buffer). */
  function Raw16(lo: byte, hi: byte): (v: int)
    ensures -32768 <= v < 32768
    ensures v < 0 <==> hi >= 128
  {
    var u := lo + 256 * hi;
    if u >= 32768 then u - 65536 else u
  }

  /** The two bytes a 16-bit value is stored as, low byte first. */
  function Bytes16(v: int): (b: (byte, byte))
    requires -32768 <= v < 32768
  {
    var u := if v < 0 then v + 65536 else v;
    (u % 256, u / 256)
  }

  /** Raw16 reads back every 16-bit value, and every byte pair is the
      encoding of the value read from it. */
  lemma Raw16RoundTrip(v: int, lo: byte, hi: byte)
    requires -32768 <= v < 32768
    ensures Raw16(Bytes16(v).0, Bytes16(v).1) == v
    ensures Bytes16(Raw16(lo, hi)) == (lo, hi)
  {
  }

  /** Width 2: value / 32768. */
  function Sample16(lo: byte, hi: byte): (f: real)
    ensures -1.0 <= f < 1.0
    ensures f * 32768.0 == Raw16(lo, hi) as real
  {
    Raw16(lo, hi) as real / 32768.0
  }

  /** The low 24 bits of a little-endian word: three bytes, no sign extension. */
  function Raw24(b0: byte, b1: byte, b2: byte): (v: int)
    ensures 0 <= v < 0x100_0000
  {
    b0 + 256 * b1 + 65536 * b2
  }

  /** Width 3: the masked value / 8388608, in [0, 2). */
  function Sample24(b0: byte, b1: byte, b2: byte): (f: real)
    ensures 0.0 <= f < 2.0
    ensures f * 8388608.0 == Raw24(b0, b1, b2) as real
  {
    Raw24(b0, b1, b2) as real / 8388608.0
  }

  /** Without sign extension, exactly the samples whose sign bit is set (the
      negative ones of the 24-bit two's complement format) come out at 1 or
      above; -1 (FF FF FF) comes out just below 2 instead of just below 0. */
  lemma Sample24SignBit(b0: byte, b1: byte, b2: byte)
    ensures Sample24(b0, b1, b2) >= 1.0 <==> b2 >= 128
    ensures Sample24(255, 255, 255) == 16777215.0 / 8388608.0
  {
  }

  /** A signed 32-bit little-endian value. */
  function Raw32(b0: byte, b1: byte, b2: byte, b3: byte): (v: int)
    ensures -0x8000_0000 <= v < 0x8000_0000
    ensures v < 0 <==> b3 >= 128
  {
    var u := b0 + 256 * b1 + 65536 * b2 + 16777216 * b3;
    if u >= 0x8000_0000 then u - 0x1_0000_0000 else u
  }

  /** Width 4: value / 2147483648. */
  function Sample32(b0: byte, b1: byte, b2: byte, b3: byte): (f: real)
    ensures -1.0 <= f < 1.0
    ensures f * 2147483648.0 == Raw32(b0, b1, b2, b3) as real
  {
    Raw32(b0, b1, b2, b3) as real / 2147483648.0
  }

  predicate ValidWidth(width: int) {
    1 <= width <= 4
  }

  /** The k-th sample of an interleaved buffer of samples `width` bytes wide. */
  function SampleAt(buff: seq<byte>, width: int, k: nat): (f: real)
    requires ValidWidth(width) && (k + 1) * width <= |buff|
    ensures width == 3 ==> 0.0 <= f < 2.0
    ensures width != 3 ==> -1.0 <= f <= 1.0
  {
    var p := k * width;
    if width == 1 then Sample8(buff[p])
    else if width == 2 then Sample16(buff[p], buff[p + 1])
    else if width == 3 then Sample24(buff[p], buff[p + 1], buff[p + 2])
    else Sample32(buff[p], buff[p + 1], buff[p + 2], buff[p + 3])
  }

  /** The position, counted in samples, of channel c's sample in period k
      of an interleaved buffer. */
  function Slot(k: nat, chans: nat, c: nat): (p: nat)
    requires c < chans
    ensures k * chans <= p < (k + 1) * chans
  {
    k * chans + c
  }

  /** The last sample of channel c in n periods lies inside a buffer
      holding n periods. */
  lemma LastSlotFits(n: nat, chans: nat, c: nat, width: nat, size: nat)
    requires n >= 1 && c < chans && n * chans * width <= size
    ensures (Slot(n - 1, chans, c) + 1) * width <= size
  {
    MulMono(Slot(n - 1, chans, c) + 1, n * chans, width);
  }

  /** A buffer holding q sample periods holds every shorter prefix of them. */
  lemma PrefixFits(i: nat, q: nat, chans: nat, width: nat, size: nat)
    requires i <= q && q * chans * width <= size
    ensures i * chans * width <= size
  {
    MulMono(i, q, chans);
    MulMono(i * chans, q * chans, width);
  }

  /** Channel c of an interleaved buffer of n sample periods, each period
      holding one sample per channel, period by period. */
  function ChannelSamples(buff: seq<byte>, width: int, chans: nat, c: nat, n: nat): (s: seq<real>)
    requires ValidWidth(width) && c < chans && n * chans * width <= |buff|
    ensures |s| == n
  {
    if n == 0 then []
    else
      PrefixFits(n - 1, n, chans, width, |buff|);
      LastSlotFits(n, chans, c, width, |buff|);
      ChannelSamples(buff, width, chans, c, n - 1) + [SampleAt(buff, width, Slot(n - 1, chans, c))]
  }

  /** The k-th sample of a channel is the one at its Slot k of the buffer. */
  lemma {:induction false} ChannelSamplesAt(buff: seq<byte>, width: int, chans: nat, c: nat, n: nat, k: nat)
    requires ValidWidth(width) && c < chans && n * chans * width <= |buff| && k < n
    ensures (Slot(k, chans, c) + 1) * width <= |buff|
    ensures ChannelSamples(buff, width, chans, c, n)[k] == SampleAt(buff, width, Slot(k, chans, c))
  {
    PrefixFits(n - 1, n, chans, width, |buff|);
    if k < n - 1 {
      ChannelSamplesAt(buff, width, chans, c, n - 1, k);
    } else {
      LastSlotFits(n, chans, c, width, |buff|);
    }
  }

  /** The sample of channel c in period i: taking it in after the first i
      periods gives the first i + 1. */
  function PeriodSample(buff: seq<byte>, width: int, chans: nat, c: nat, i: nat): (x: real)
    requires ValidWidth(width) && c < chans && (i + 1) * chans * width <= |buff|
    ensures i * chans * width <= |buff|
    ensures ChannelSamples(buff, width, chans, c, i + 1) == ChannelSamples(buff, width, chans, c, i) + [x]
  {
    PrefixFits(i, i + 1, chans, width, |buff|);
    LastSlotFits(i + 1, chans, c, width, |buff|);
    SampleAt(buff, width, Slot(i, chans, c))
  }

  /** Channels of a stereo buffer interleave: period k holds the left sample
      and then the right one, side by side, and the periods follow one
      another without gaps. */
  lemma SlotsInterleave(k: nat)
    ensures Slot(k, 2, 0) == 2 * k && Slot(k, 2, 1) == 2 * k + 1
    ensures Slot(k + 1, 2, 0) == Slot(k, 2, 1) + 1
  {
  }
}
