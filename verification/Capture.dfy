/** The worker's audio sink: the engine's chunks, re-aligned to whole sample frames and scaled, and
    what becomes of them when the SAPI side re-aligns them again. */
module Capture {
  import opened Pcm
  import opened Seqs
  import opened Trim
  import opened SpeakAudio

  /** Bytes per sample and channels as the engine chose them; `scale` is apply_gain on one sample's
      bytes, whose arithmetic is floating point and stays abstract but keeps the length. */
  datatype Format = Format(sampleBytes: nat, channels: nat, scale: seq<byte> -> seq<byte>) {
    ghost predicate Valid() {
      && sampleBytes > 0 && channels > 0
      && forall bs | |bs| == sampleBytes :: |scale(bs)| == sampleBytes
    }

    function Block(): (n: nat)
      requires sampleBytes > 0 && channels > 0
      ensures n > 0
    {
      PositiveProduct(sampleBytes, channels);
      sampleBytes * channels
    }
  }

  lemma PositiveProduct(a: nat, b: nat)
    requires a > 0 && b > 0
    ensures a * b > 0
  {
  }

  /** apply_gain: every sample scaled where it lies. */
  function Scaled(f: Format, bs: seq<byte>): (r: seq<byte>)
    requires f.Valid()
    ensures |r| == |bs|
  {
    if |bs| < f.sampleBytes then bs
    else f.scale(bs[..f.sampleBytes]) + Scaled(f, bs[f.sampleBytes..])
  }

  /** The longest front part of `bs` made of whole frames. */
  function WholeBlocks(f: Format, bs: seq<byte>): (n: nat)
    requires f.Valid()
    ensures n <= |bs| && n % f.Block() == 0 && |bs| - n < f.Block()
  {
    ModRemoved(|bs|, f.Block());
    |bs| - |bs| % f.Block()
  }

  /** The longest front part that holds a whole number of frames, a frame being a sample of every channel. */
  lemma WholeFrames(f: Format, bs: seq<byte>)
    requires f.Valid()
    ensures var frame := f.sampleBytes * f.channels;
            frame > 0 && WholeBlocks(f, bs) % frame == 0 && 0 <= |bs| - WholeBlocks(f, bs) < frame
  {
    PositiveProduct(f.sampleBytes, f.channels);
  }

  lemma ModRemoved(n: nat, d: nat)
    requires d > 0
    ensures n % d < d && (n - n % d) % d == 0
  {
    assert n - n % d == d * (n / d);
    MulMod(n / d, d);
  }

  lemma {:induction false} MulMod(k: nat, d: nat)
    requires d > 0
    ensures (d * k) % d == 0
  {
    if k > 0 {
      MulMod(k - 1, d);
      assert d * k == d * (k - 1) + d;
      ModAdd(d * (k - 1), d);
    }
  }

  lemma ModAdd(n: nat, d: nat)
    requires d > 0
    ensures (n + d) % d == n % d
  {
    var q := n / d;
    assert n + d == d * (q + 1) + n % d;
    ModUnique(n + d, d, q + 1, n % d);
  }

  lemma ModUnique(n: nat, d: nat, q: nat, r: nat)
    requires d > 0 && r < d && n == d * q + r
    ensures n % d == r
  {
    assert n == d * (n / d) + n % d;
    assert d * (q - n / d) == n % d - r;
    OutOfReach(d, q - n / d);
  }

  lemma OutOfReach(d: int, k: int)
    requires d > 0
    ensures k >= 1 ==> d * k >= d
    ensures k <= -1 ==> d * k <= -d
  {
  }

  lemma {:induction false} ScaledConcat(f: Format, k: nat, a: seq<byte>, b: seq<byte>)
    requires f.Valid() && |a| == f.sampleBytes * k
    ensures Scaled(f, a + b) == Scaled(f, a) + Scaled(f, b)
  {
    if k == 0 {
      assert a == [] && a + b == b;
    } else {
      var n := f.sampleBytes;
      assert n * k == n + n * (k - 1);
      SliceLeft(a, b, n);
      ScaledConcat(f, k - 1, a[n..], b);
      Assoc(f.scale(a[..n]), Scaled(f, a[n..]), Scaled(f, b));
    }
  }

  /** Whatever stands before and after it, every sample goes through the gain, on its own and once. */
  lemma EverySampleIsScaled(f: Format, k: nat, a: seq<byte>, x: seq<byte>, b: seq<byte>)
    requires f.Valid() && |a| == f.sampleBytes * k && |x| == f.sampleBytes
    ensures Scaled(f, a + x + b) == Scaled(f, a) + f.scale(x) + Scaled(f, b)
  {
    Assoc(a, x, b);
    ScaledConcat(f, k, a, x + b);
    SliceLeft(x, b, |x|);
    assert x[..|x|] == x && x[|x|..] == [] && [] + b == b;
    assert Scaled(f, x + b) == f.scale(x) + Scaled(f, b);
    Assoc(Scaled(f, a), f.scale(x), Scaled(f, b));
  }

  /** A whole number of frames is a whole number of samples. */
  lemma BlocksAreSamples(f: Format, n: nat) returns (k: nat)
    requires f.Valid() && n % f.Block() == 0
    ensures n == f.sampleBytes * k
  {
    k := f.channels * (n / f.Block());
    assert n == f.Block() * (n / f.Block());
    MulAssoc(f.sampleBytes, f.channels, n / f.Block());
  }

  lemma MulAssoc(a: nat, b: nat, c: nat)
    ensures a * b * c == a * (b * c)
  {
  }

  /** What reaches the listener over an utterance in which the engine produced `all`. */
  function Emitted(f: Format, all: seq<byte>): seq<byte>
    requires f.Valid()
  {
    Scaled(f, all[..WholeBlocks(f, all)])
  }

  /** Taking `data` after `all`: what is held becomes part of the next block, and nothing that was
      passed on before would have been passed on differently. */
  lemma EmittedGrows(f: Format, all: seq<byte>, data: seq<byte>)
    requires f.Valid()
    ensures var m := WholeBlocks(f, all);
            var joined := all[m..] + data;
            var n := WholeBlocks(f, joined);
            && WholeBlocks(f, all + data) == m + n
            && (all + data)[m + n..] == joined[n..]
            && Emitted(f, all + data) == Emitted(f, all) + Scaled(f, joined[..n])
  {
    var m := WholeBlocks(f, all);
    var joined := all[m..] + data;
    var n := WholeBlocks(f, joined);
    Split(all, m);
    Assoc(all[..m], all[m..], data);
    SliceRight(all[..m], joined, n);
    var d := f.Block();
    var p, q := m / d, |joined| / d;
    assert m == d * p && n == d * q;
    assert |all + data| == d * (p + q) + |joined| % d;
    ModUnique(|all + data|, d, p + q, |joined| % d);
    var k := BlocksAreSamples(f, m);
    ScaledConcat(f, k, all[..m], joined[..n]);
  }

  lemma NothingEmitted(f: Format)
    requires f.Valid()
    ensures Emitted(f, []) == [] && WholeBlocks(f, []) == 0
  {
  }

  class CaptureAudio {
    const format: Format
    var carry: seq<byte>
    var written: nat
    var consumerGone: bool
    /** The blocks handed to the sink since begin(), each one frame on the wire. */
    var blocks: seq<seq<byte>>
    /** Everything the engine handed over since begin(). */
    ghost var raw: seq<byte>

    ghost predicate Valid()
      reads this
    {
      && format.Valid()
      && carry == raw[WholeBlocks(format, raw)..]
      && written == |raw|
      && Flatten(blocks) == Emitted(format, raw)
      && forall b <- blocks :: |b| > 0 && |b| % format.Block() == 0
    }

    constructor (format: Format)
      requires format.Valid()
      ensures Valid() && raw == [] && this.format == format
    {
      this.format := format;
      carry, written, consumerGone, blocks, raw := [], 0, false, [], [];
      NothingEmitted(format);
    }

    /** The start of an utterance: whatever the last one left behind, nothing of it is kept. */
    method Begin()
      requires format.Valid()
      modifies this
      ensures Valid() && raw == []
    {
      hide Scaled, Emitted, WholeBlocks;
      NothingEmitted(format);
      carry, written, consumerGone, blocks, raw := [], 0, false, [], [];
    }

    /** One chunk from the engine, of any length: it adds to what was passed on the scaled whole
        frames it completes, and to what is held the part frame at its end. */
    method DataSet(data: seq<byte>)
      requires Valid()
      modifies this
      ensures Valid() && raw == old(raw) + data
      ensures old(blocks) <= blocks
    {
      if data == [] {
        assert raw + data == raw;
        return;
      }
      hide Scaled, Emitted, Flatten, Format.Block, WholeBlocks;
      EmittedGrows(format, raw, data);
      assert carry + data == data || carry != [];
      var joined, size := data, |data|;
      if carry != [] || WholeBlocks(format, data) != |data| {
        joined := carry + data;
        size := WholeBlocks(format, joined);
        carry := joined[size..];
      }
      written := written + |data|;
      raw := raw + data;
      Pass(joined[..size]);
    }

    /** The sink's share of DataSet: nothing for an empty block, else one scaled block. */
    method Pass(whole: seq<byte>)
      requires format.Valid() && |whole| % format.Block() == 0
      requires forall b <- blocks :: |b| > 0 && |b| % format.Block() == 0
      modifies this`blocks, this`consumerGone
      ensures Flatten(blocks) == old(Flatten(blocks)) + Scaled(format, whole)
      ensures old(blocks) <= blocks
      ensures forall b <- blocks :: |b| > 0 && |b| % format.Block() == 0
    {
      if whole == [] {
        return;
      }
      var out := Scaled(format, whole);
      FlattenConcat(blocks, [out]);
      assert Flatten([out]) == out + Flatten([]) == out;
      blocks := blocks + [out];
      var accepted: bool := *;
      if !accepted {
        consumerGone := true;
      }
    }
  }

  // ------------------------------------------------------------------------------------------
  // The worker and the SAPI engine together
  // ------------------------------------------------------------------------------------------

  lemma {:induction false} EvenParts(parts: seq<seq<byte>>)
    requires forall b <- parts :: |b| % 2 == 0
    ensures |Flatten(parts)| % 2 == 0
  {
    if parts != [] {
      EvenParts(parts[1..]);
    }
  }

  /** From the engine's raw output to the host, for 16-bit mono: the blocks the worker sends leave no
      part sample on the SAPI side, so no utterance shifts the next by a byte, and what the host is
      given is the one-shot meaning of the scaled whole samples of the raw output. */
  lemma EndToEnd(f: Format, c: Config, a: Audio, fade: nat, raw: seq<byte>, blocks: seq<seq<byte>>)
    requires f.Valid() && f.sampleBytes == 2 && f.channels == 1
    requires Flatten(blocks) == Emitted(f, raw) && forall b <- blocks :: |b| % f.Block() == 0
    requires a.Valid() && a.speech.Holding(c) && a.partial == []
    ensures var all := a.speech.quiet + Spoken(c, fade, Decode(Scaled(f, raw[..Whole(|raw|)])));
            var r := Run(c, a, Piece(fade, blocks));
            && r.partial == []
            && r.speech.written == a.speech.written + all[..Kept(c, all)]
            && r.speech.quiet == all[Kept(c, all)..]
  {
    hide SpeakAudio.Run, Meant, Spoken, Decode, Scaled, Kept, Emitted, Format.Block, Flatten;
    RunMeaning(c, a, Piece(fade, blocks));
    MonoBlock(f);
    EvenParts(blocks);
    MeantWhole(c, Result(a), fade, blocks);
    EmittedMono(f, raw);
  }

  lemma MonoBlock(f: Format)
    requires f.Valid() && f.sampleBytes == 2 && f.channels == 1
    ensures f.Block() == 2
  {
  }

  lemma EmittedMono(f: Format, raw: seq<byte>)
    requires f.Valid() && f.sampleBytes == 2 && f.channels == 1
    ensures Emitted(f, raw) == Scaled(f, raw[..Whole(|raw|)])
  {
  }

  lemma MeantWhole(c: Config, m: Outcome, fade: nat, chunks: seq<seq<byte>>)
    requires m.part == [] && |Flatten(chunks)| % 2 == 0
    ensures var all := m.held + Spoken(c, fade, Decode(Flatten(chunks)));
            Meant(c, m, Piece(fade, chunks)) == Outcome(m.host + all[..Kept(c, all)], all[Kept(c, all)..], [])
  {
    hide Spoken, Decode, Kept, Flatten;
    var joined := Flatten(chunks);
    Front(joined);
    assert joined[..|joined|] == joined && joined[|joined|..] == [];
  }

  // ------------------------------------------------------------------------------------------
  // Event positions
  // ------------------------------------------------------------------------------------------

  function Later(a: nat, b: nat): nat { if a < b then b else a }

  /** The offset made of what the engine reports: a position within the window of audio being produced. */
  function OffsetOf(window: nat, last: nat, qts: nat, written: nat): nat
    requires window > 0
  {
    Later(last, if qts >= window then written else written / window * window + qts)
  }

  /** A position reported within its window comes out exactly when that is the window being produced; or,
      being the position reported last, when an earlier one is. */
  lemma OffsetIsExactWhen(window: nat, last: nat, at: nat, written: nat)
    requires window > 0 && last <= at
    ensures OffsetOf(window, last, at % window, written) == at <==>
            written / window == at / window || (last == at && written / window < at / window)
  {
  }

  /** An event: where in the engine's output it belongs, and how much had been produced when it came. */
  datatype Event = Event(at: nat, written: nat)

  class BufNotifySink {
    const window: nat
    var lastOffset: nat
    var reported: seq<nat>

    constructor (bytesPerSec: nat)
      ensures window == (if bytesPerSec > 0 then bytesPerSec else 32000) && lastOffset == 0 && reported == []
    {
      window := if bytesPerSec > 0 then bytesPerSec else 32000;
      lastOffset, reported := 0, [];
    }

    /** emit: positions never go backwards. */
    method Emit(qts: nat, written: nat)
      requires window > 0
      modifies this
      ensures lastOffset == OffsetOf(window, old(lastOffset), qts, written) >= old(lastOffset)
      ensures reported == old(reported) + [lastOffset]
    {
      var offset := written / window * window + qts;
      if qts >= window {
        offset := written;
      }
      lastOffset := Later(offset, lastOffset);
      reported := reported + [lastOffset];
    }

    /** The events of an utterance, each reported while its own window is being produced and none before
        the one in front of it, are reported where they are. */
    method EmitAll(events: seq<Event>)
      requires window > 0
      requires forall i | 0 <= i < |events| ::
                 events[i].at / window == events[i].written / window && lastOffset <= events[i].at
      requires forall i, j | 0 <= i < j < |events| :: events[i].at <= events[j].at
      modifies this
      ensures reported == old(reported) + seq(|events|, i requires 0 <= i < |events| => events[i].at)
    {
      ghost var wanted := seq(|events|, i requires 0 <= i < |events| => events[i].at);
      for i := 0 to |events|
        invariant reported == old(reported) + wanted[..i]
        invariant forall k | i <= k < |events| :: lastOffset <= events[k].at
      {
        OffsetIsExactWhen(window, lastOffset, events[i].at, events[i].written);
        Emit(events[i].at % window, events[i].written);
        assert wanted[..i + 1] == wanted[..i] + [events[i].at];
      }
      assert wanted[..|events|] == wanted;
    }
  }
}
