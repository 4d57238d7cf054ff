/** 16-bit PCM: the bytes a chunk of audio is made of, and the samples those bytes spell. */
module Pcm {

  newtype byte = x: int | 0 <= x < 256
  newtype sample = x: int | -32768 <= x < 32768

  function ToSample(lo: byte, hi: byte): sample {
    var u := lo as int + 256 * hi as int;
    if u < 32768 then u as sample else (u - 65536) as sample
  }

  function Unsigned(s: sample): (u: int)
    ensures 0 <= u < 65536
  {
    if s < 0 then s as int + 65536 else s as int
  }

  function Lo(s: sample): byte { (Unsigned(s) % 256) as byte }

  function Hi(s: sample): byte { (Unsigned(s) / 256) as byte }

  /** The whole samples of `bs`, low byte first; a part sample at the end is not one of them. */
  function Decode(bs: seq<byte>): (xs: seq<sample>)
    ensures |xs| == |bs| / 2
  {
    seq(|bs| / 2, i requires 0 <= i < |bs| / 2 => ToSample(bs[2 * i], bs[2 * i + 1]))
  }

  function Encode(xs: seq<sample>): (bs: seq<byte>)
    ensures |bs| == 2 * |xs|
  {
    seq(2 * |xs|, i requires 0 <= i < 2 * |xs| => if i % 2 == 0 then Lo(xs[i / 2]) else Hi(xs[i / 2]))
  }

  lemma DecodeEncode(xs: seq<sample>)
    ensures Decode(Encode(xs)) == xs
  {
  }

  lemma EncodeDecode(bs: seq<byte>)
    requires |bs| % 2 == 0
    ensures Encode(Decode(bs)) == bs
  {
  }

  lemma DecodeConcat(a: seq<byte>, b: seq<byte>)
    requires |a| % 2 == 0
    ensures Decode(a + b) == Decode(a) + Decode(b)
  {
  }

  lemma EncodeConcat(xs: seq<sample>, ys: seq<sample>)
    ensures Encode(xs + ys) == Encode(xs) + Encode(ys)
  {
  }

  /** Two bytes a sample, the low one first; what is 32768 or more is that much less than 65536 below zero. */
  lemma SampleAt(bs: seq<byte>, i: nat)
    requires 2 * i + 1 < |bs|
    ensures var u := bs[2 * i] as int + 256 * bs[2 * i + 1] as int;
            Decode(bs)[i] as int == if u < 32768 then u else u - 65536
  {
  }
}
