/**
 What feed_audio means, on values.

 Feed is one call of feed_audio. Spoken and Kept are the one-shot reference: all the audio of a
 piece looked at once, with no chunks in sight. The lemmas say that the first is the second however
 the audio was cut into chunks.
 */
module Trim {
  import opened Pcm
  import opened Seqs

  /** The settings feed_audio reads. `fade(done, total, x)` is sample x at position `done` of a fade
      `total` samples long; its arithmetic is floating point and stays abstract. */
  datatype Config = Config(trimLeading: bool, trimTrailing: bool, level: int,
                           fade: (nat, nat, sample) -> sample)
  {
    predicate Trims() { trimLeading || trimTrailing }
  }

  predicate Loud(c: Config, x: sample) {
    (if x < 0 then -(x as int) else x as int) > c.level
  }

  ghost predicate AllQuiet(c: Config, xs: seq<sample>) {
    forall i | 0 <= i < |xs| :: !Loud(c, xs[i])
  }

  /** The number of samples before the first loud one. */
  function QuietPrefix(c: Config, xs: seq<sample>): (n: nat)
    ensures n <= |xs| && AllQuiet(c, xs[..n])
    ensures n < |xs| ==> Loud(c, xs[n])
  {
    if xs == [] || Loud(c, xs[0]) then 0 else 1 + QuietPrefix(c, xs[1..])
  }

  /** The length up to and including the last loud sample; 0 when there is none. */
  function LoudLength(c: Config, xs: seq<sample>): (n: nat)
    ensures n <= |xs| && AllQuiet(c, xs[n..])
    ensures n > 0 ==> Loud(c, xs[n - 1])
  {
    if xs == [] then 0
    else if Loud(c, xs[|xs| - 1]) then |xs|
    else
      var n := LoudLength(c, xs[..|xs| - 1]);
      assert xs[n..] == xs[..|xs| - 1][n..] + [xs[|xs| - 1]];
      n
  }

  /** How much of `xs` can be handed over now: all but the quiet run at its end. */
  function Kept(c: Config, xs: seq<sample>): (k: nat)
    ensures k <= |xs|
  {
    if c.trimTrailing then LoudLength(c, xs) else |xs|
  }

  /** `xs` with the fade applied, when `left` samples of a fade of `total` are still to come. */
  function Faded(c: Config, total: nat, left: nat, xs: seq<sample>): (ys: seq<sample>)
    requires left <= total
    ensures |ys| == |xs|
  {
    seq(|xs|, i requires 0 <= i < |xs| => if i < left then c.fade(total - left + i, total, xs[i]) else xs[i])
  }

  function Rest(left: nat, used: nat): (r: nat)
    ensures r <= left
  {
    if used <= left then left - used else 0
  }

  // ------------------------------------------------------------------------------------------
  // One call
  // ------------------------------------------------------------------------------------------

  /** The samples side of the engine object. `written` is everything the host has been given. */
  datatype Speech = Speech(written: seq<sample>, quiet: seq<sample>, leading: bool,
                           leadDropped: nat, fadeTotal: nat, fadeLeft: nat)
  {
    predicate Valid() { fadeLeft <= fadeTotal }

    /** Held back audio is quiet, and nothing is held when trailing silence is not trimmed. */
    ghost predicate Holding(c: Config) {
      AllQuiet(c, quiet) && (!c.trimTrailing ==> quiet == [])
    }
  }

  /** Hands over what can be and holds the quiet run at the end; `ys` are past lead-in and fade. */
  function Settle(c: Config, s: Speech, ys: seq<sample>): (r: Speech)
    ensures s.Holding(c) ==> r.Holding(c)
  {
    var n := Kept(c, ys);
    if n == 0 then s.(quiet := s.quiet + ys)
    else s.(written := s.written + s.quiet + ys[..n], quiet := ys[n..])
  }

  /** What becomes of `xs` once `skip` samples before them have been dropped as lead-in. */
  function AfterLead(c: Config, s: Speech, skip: nat, xs: seq<sample>): (r: Speech)
    requires s.Valid()
    ensures r.Valid() && r.fadeTotal == s.fadeTotal && r.leadDropped == s.leadDropped + 2 * skip
    ensures s.Holding(c) ==> r.Holding(c)
  {
    var t := s.(leadDropped := s.leadDropped + 2 * skip, leading := s.leading && !c.trimLeading,
                fadeLeft := Rest(s.fadeLeft, |xs|));
    Settle(c, t, Faded(c, s.fadeTotal, s.fadeLeft, xs))
  }

  function FeedSamples(c: Config, s: Speech, xs: seq<sample>): (r: Speech)
    requires s.Valid()
    ensures r.Valid() && r.fadeTotal == s.fadeTotal && s.leadDropped <= r.leadDropped
    ensures s.Holding(c) ==> r.Holding(c)
  {
    if xs == [] then s
    else if !c.Trims() then s.(written := s.written + s.quiet + xs, quiet := [])
    else
      var skip := if s.leading && c.trimLeading then QuietPrefix(c, xs) else 0;
      if skip == |xs| then s.(leadDropped := s.leadDropped + 2 * skip)
      else AfterLead(c, s, skip, xs[skip..])
  }

  /** `leadTotal`, `generated`, `received`: the running totals Speak checks at its end, in bytes.
      `discarded` counts what write_silence throws away, which Speak does not count. */
  datatype Audio = Audio(speech: Speech, partial: seq<byte>, received: nat, leadTotal: nat,
                         generated: nat, discarded: nat)
  {
    predicate Valid() { speech.Valid() && |partial| < 2 }
  }

  function Whole(n: nat): (k: nat)
    ensures k <= n && k % 2 == 0 && n - k < 2
  {
    n - n % 2
  }

  function Feed(c: Config, a: Audio, chunk: seq<byte>): (r: Audio)
    requires a.Valid()
    ensures r.Valid()
  {
    var joined := a.partial + chunk;
    var n := Whole(|joined|);
    var speech := FeedSamples(c, a.speech, Decode(joined[..n]));
    a.(speech := speech, partial := joined[n..], received := a.received + |chunk|,
       leadTotal := a.leadTotal + speech.leadDropped - a.speech.leadDropped)
  }

  function FeedAll(c: Config, a: Audio, chunks: seq<seq<byte>>): (r: Audio)
    requires a.Valid()
    ensures r.Valid()
    decreases |chunks|
  {
    if chunks == [] then a else FeedAll(c, Feed(c, a, chunks[0]), chunks[1..])
  }

  // ------------------------------------------------------------------------------------------
  // Chunk independence
  // ------------------------------------------------------------------------------------------

  lemma {:induction false} QuietPrefixConcat(c: Config, x: seq<sample>, y: seq<sample>)
    ensures QuietPrefix(c, x + y) == if QuietPrefix(c, x) < |x| then QuietPrefix(c, x) else |x| + QuietPrefix(c, y)
  {
    if x == [] {
      assert x + y == y;
    } else if !Loud(c, x[0]) {
      assert (x + y)[1..] == x[1..] + y;
      QuietPrefixConcat(c, x[1..], y);
    }
  }

  lemma {:induction false} LoudLengthConcat(c: Config, x: seq<sample>, y: seq<sample>)
    ensures LoudLength(c, x + y) == if LoudLength(c, y) > 0 then |x| + LoudLength(c, y) else LoudLength(c, x)
  {
    if y == [] {
      assert x + y == x;
    } else if !Loud(c, y[|y| - 1]) {
      assert (x + y)[..|x + y| - 1] == x + y[..|y| - 1];
      LoudLengthConcat(c, x, y[..|y| - 1]);
    }
  }

  lemma FadedConcat(c: Config, total: nat, left: nat, x: seq<sample>, y: seq<sample>)
    requires left <= total
    ensures Faded(c, total, left, x + y) == Faded(c, total, left, x) + Faded(c, total, Rest(left, |x|), y)
  {
  }

  lemma SettleTwice(c: Config, s: Speech, x: seq<sample>, y: seq<sample>)
    ensures Settle(c, Settle(c, s, x), y) == Settle(c, s, x + y)
  {
    LoudLengthConcat(c, x, y);
    if Kept(c, y) > 0 {
      SettleLoud(c, s, x, y);
    } else if Kept(c, x) == 0 {
      Assoc(s.quiet, x, y);
    } else {
      SliceLeft(x, y, Kept(c, x));
      assert !c.trimTrailing ==> y == [] && x + y == x;
    }
  }

  lemma SettleLoud(c: Config, s: Speech, x: seq<sample>, y: seq<sample>)
    requires Kept(c, y) > 0 && Kept(c, x + y) == |x| + Kept(c, y)
    ensures Settle(c, Settle(c, s, x), y) == Settle(c, s, x + y)
  {
    var m, n := Kept(c, x), Kept(c, y);
    var w := s.written + s.quiet;
    SliceRight(x, y, n);
    Assoc(w, x, y[..n]);
    if m == 0 {
      Assoc(s.written, s.quiet, x);
    } else {
      Split(x, m);
      Assoc(w, x[..m], x[m..]);
    }
  }

  lemma AfterLeadTwice(c: Config, s: Speech, skip: nat, x: seq<sample>, y: seq<sample>)
    requires s.Valid()
    ensures AfterLead(c, AfterLead(c, s, skip, x), 0, y) == AfterLead(c, s, skip, x + y)
  {
    hide Faded, Settle;
    FadedConcat(c, s.fadeTotal, s.fadeLeft, x, y);
    var t := s.(leadDropped := s.leadDropped + 2 * skip, leading := s.leading && !c.trimLeading,
                fadeLeft := Rest(s.fadeLeft, |x + y|));
    var fx, fy := Faded(c, s.fadeTotal, s.fadeLeft, x), Faded(c, s.fadeTotal, Rest(s.fadeLeft, |x|), y);
    SettleTwice(c, t, fx, fy);
    var u := t.(fadeLeft := Rest(s.fadeLeft, |x|));
    SettleKeeps(c, u, fx, t.fadeLeft);
  }

  /** Where the fade stands makes no difference to settling. */
  lemma SettleKeeps(c: Config, s: Speech, xs: seq<sample>, left: nat)
    ensures Settle(c, s.(fadeLeft := left), xs) == Settle(c, s, xs).(fadeLeft := left)
    ensures Settle(c, s, xs).leading == s.leading && Settle(c, s, xs).fadeLeft == s.fadeLeft
    ensures Settle(c, s, xs).fadeTotal == s.fadeTotal && Settle(c, s, xs).leadDropped == s.leadDropped
  {
  }

  /** FeedSamples, case by case. */
  lemma FeedCases(c: Config, s: Speech, xs: seq<sample>)
    requires s.Valid() && xs != []
    ensures !c.Trims() ==> FeedSamples(c, s, xs) == s.(written := s.written + s.quiet + xs, quiet := [])
    ensures c.Trims() ==>
              var skip := if s.leading && c.trimLeading then QuietPrefix(c, xs) else 0;
              FeedSamples(c, s, xs) == if skip == |xs| then s.(leadDropped := s.leadDropped + 2 * skip)
                                       else AfterLead(c, s, skip, xs[skip..])
  {
  }

  lemma AfterLeadMore(c: Config, s: Speech, a: nat, b: nat, xs: seq<sample>)
    requires s.Valid()
    ensures AfterLead(c, s.(leadDropped := s.leadDropped + 2 * a), b, xs) == AfterLead(c, s, a + b, xs)
  {
  }

  /** Feeding twice is feeding once with both. */
  lemma FeedSamplesTwice(c: Config, s: Speech, x: seq<sample>, y: seq<sample>)
    requires s.Valid()
    ensures FeedSamples(c, FeedSamples(c, s, x), y) == FeedSamples(c, s, x + y)
  {
    if x == [] {
      assert x + y == y;
    } else if y == [] {
      assert x + y == x;
    } else if !c.Trims() {
      FeedUntrimmedTwice(c, s, x, y);
    } else {
      FeedTrimmedTwice(c, s, x, y);
    }
  }

  lemma FeedTrimmedTwice(c: Config, s: Speech, x: seq<sample>, y: seq<sample>)
    requires s.Valid() && c.Trims() && x != [] && y != []
    ensures FeedSamples(c, FeedSamples(c, s, x), y) == FeedSamples(c, s, x + y)
  {
    hide FeedSamples, AfterLead, QuietPrefix;
    FeedCases(c, s, x);
    FeedCases(c, s, x + y);
    QuietPrefixConcat(c, x, y);
    var skip := if s.leading && c.trimLeading then QuietPrefix(c, x) else 0;
    if skip == |x| {
      var t := s.(leadDropped := s.leadDropped + 2 * |x|);
      FeedCases(c, t, y);
      SliceRight(x, y, QuietPrefix(c, y));
      AfterLeadMore(c, s, |x|, QuietPrefix(c, y), y[QuietPrefix(c, y)..]);
    } else {
      SliceLeft(x, y, skip);
      FeedPastLead(c, s, skip, x[skip..], y);
    }
  }

  lemma FeedUntrimmedTwice(c: Config, s: Speech, x: seq<sample>, y: seq<sample>)
    requires s.Valid() && !c.Trims() && x != [] && y != []
    ensures FeedSamples(c, FeedSamples(c, s, x), y) == FeedSamples(c, s, x + y)
  {
  }

  lemma FeedPastLead(c: Config, s: Speech, skip: nat, x: seq<sample>, y: seq<sample>)
    requires s.Valid() && c.Trims() && y != []
    ensures FeedSamples(c, AfterLead(c, s, skip, x), y) == AfterLead(c, s, skip, x + y)
  {
    AfterLeadTwice(c, s, skip, x, y);
    assert y[0..] == y;
  }

  /** Cutting whole samples off `p`, then off what is left and `y`, is cutting them off both. */
  lemma WholeTwice(p: seq<byte>, y: seq<byte>)
    ensures var q := p[Whole(|p|)..] + y;
            var cut := Whole(|p + y|);
            && (p + y)[cut..] == q[Whole(|q|)..]
            && Decode((p + y)[..cut]) == Decode(p[..Whole(|p|)]) + Decode(q[..Whole(|q|)])
  {
    var m := Whole(|p|);
    var q := p[m..] + y;
    Split(p, m);
    Assoc(p[..m], p[m..], y);
    assert |p + y| == m + |q|;
    SliceRight(p[..m], q, Whole(|q|));
    DecodeConcat(p[..m], q[..Whole(|q|)]);
  }

  lemma FeedTwice(c: Config, a: Audio, x: seq<byte>, y: seq<byte>)
    requires a.Valid()
    ensures Feed(c, Feed(c, a, x), y) == Feed(c, a, x + y)
  {
    var p := a.partial + x;
    var q := p[Whole(|p|)..] + y;
    WholeTwice(p, y);
    Assoc(a.partial, x, y);
    FeedSamplesTwice(c, a.speech, Decode(p[..Whole(|p|)]), Decode(q[..Whole(|q|)]));
  }

  /** However the engine cuts its audio up, the outcome is that of the whole of it in one chunk. */
  lemma {:induction false} ChunkIndependence(c: Config, a: Audio, chunks: seq<seq<byte>>)
    requires a.Valid()
    ensures FeedAll(c, a, chunks) == Feed(c, a, Flatten(chunks))
    decreases |chunks|
  {
    if chunks == [] {
      assert a.partial + [] == a.partial;
      assert a.partial[..0] == [];
    } else {
      ChunkIndependence(c, Feed(c, a, chunks[0]), chunks[1..]);
      FeedTwice(c, a, chunks[0], Flatten(chunks[1..]));
    }
  }

  // ------------------------------------------------------------------------------------------
  // The one-shot meaning of a piece
  // ------------------------------------------------------------------------------------------

  /** run_action's preparation: every piece has its own lead-in and its own fade. */
  function Begin(a: Audio, fade: nat): (r: Audio)
    ensures a.Valid() ==> r.Valid()
  {
    a.(speech := a.speech.(leading := true, leadDropped := 0, fadeTotal := fade, fadeLeft := fade))
  }

  function LeadIn(c: Config, xs: seq<sample>): nat {
    if c.trimLeading then QuietPrefix(c, xs) else 0
  }

  /** What of a piece's samples is to be heard, or would be if more speech followed: everything after
      the lead-in, the fade going by a sample's distance from where the lead-in ended. */
  function Spoken(c: Config, fade: nat, xs: seq<sample>): (ys: seq<sample>)
    ensures |ys| == |xs| - LeadIn(c, xs)
  {
    var k := LeadIn(c, xs);
    seq(|xs| - k, i requires 0 <= i < |xs| - k =>
        if c.Trims() && i < fade then c.fade(i, fade, xs[k + i]) else xs[k + i])
  }

  lemma NoneLoud(c: Config, xs: seq<sample>)
    requires AllQuiet(c, xs)
    ensures LoudLength(c, xs) == 0
  {
  }

  /** A quiet run in front is kept or held with what follows it. */
  lemma KeptBoth(c: Config, quiet: seq<sample>, ys: seq<sample>)
    requires AllQuiet(c, quiet) && (!c.trimTrailing ==> quiet == [])
    ensures Kept(c, quiet + ys) == if Kept(c, ys) > 0 then |quiet| + Kept(c, ys) else 0
  {
    if c.trimTrailing {
      LoudLengthConcat(c, quiet, ys);
      NoneLoud(c, quiet);
    }
  }

  /** Settling after a quiet run is keeping all but the quiet run at the end of both. */
  lemma SettleMeaning(c: Config, s: Speech, ys: seq<sample>)
    requires s.Holding(c)
    ensures var all := s.quiet + ys;
            Settle(c, s, ys) == s.(written := s.written + all[..Kept(c, all)], quiet := all[Kept(c, all)..])
  {
    hide Kept, AllQuiet;
    KeptBoth(c, s.quiet, ys);
    var n := Kept(c, ys);
    if n > 0 {
      SliceRight(s.quiet, ys, n);
      Assoc(s.written, s.quiet, ys[..n]);
    }
  }

  lemma SamplesMeaning(c: Config, s: Speech, xs: seq<sample>)
    requires s.Holding(c) && s.leading && s.leadDropped == 0 && s.fadeLeft == s.fadeTotal
    ensures var all := s.quiet + Spoken(c, s.fadeTotal, xs);
            var r := FeedSamples(c, s, xs);
            && r.written == s.written + all[..Kept(c, all)]
            && r.quiet == all[Kept(c, all)..]
            && r.leadDropped == 2 * LeadIn(c, xs)
            && r.leading == !(c.trimLeading && LeadIn(c, xs) < |xs|)
  {
    var k := LeadIn(c, xs);
    var ys := Spoken(c, s.fadeTotal, xs);
    if xs != [] && !c.Trims() {
      assert ys == xs && s.quiet + ys == ys;
      Assoc(s.written, s.quiet, xs);
    } else if k < |xs| {
      SpokenSamplesMeaning(c, s, xs);
    } else {
      SettleMeaning(c, s, ys);
      assert ys == [] && s.quiet + ys == s.quiet;
      SettleNothing(c, s);
    }
  }

  lemma SettleNothing(c: Config, s: Speech)
    ensures Settle(c, s, []) == s
  {
  }

  lemma SpokenSamplesMeaning(c: Config, s: Speech, xs: seq<sample>)
    requires s.Holding(c) && s.leading && s.leadDropped == 0 && s.fadeLeft == s.fadeTotal
    requires c.Trims() && LeadIn(c, xs) < |xs|
    ensures var all := s.quiet + Spoken(c, s.fadeTotal, xs);
            var r := FeedSamples(c, s, xs);
            && r.written == s.written + all[..Kept(c, all)]
            && r.quiet == all[Kept(c, all)..]
            && r.leadDropped == 2 * LeadIn(c, xs)
            && r.leading == !c.trimLeading
  {
    hide Settle, Kept, Loud, QuietPrefix;
    var k := LeadIn(c, xs);
    var ys := Spoken(c, s.fadeTotal, xs);
    assert ys == Faded(c, s.fadeTotal, s.fadeTotal, xs[k..]);
    var t := s.(leadDropped := 2 * k, leading := !c.trimLeading, fadeLeft := Rest(s.fadeLeft, |xs[k..]|));
    SettleMeaning(c, t, ys);
  }

  /** After a whole piece the host has been given, on top of what it had, all that is to be heard
      but the quiet run at its end; that run is what is held, and one byte more if the audio ended
      inside a sample. */
  lemma PieceMeaning(c: Config, a: Audio, fade: nat, bytes: seq<byte>)
    requires a.Valid() && a.speech.Holding(c)
    ensures var joined := a.partial + bytes;
            var xs := Decode(joined[..Whole(|joined|)]);
            var all := a.speech.quiet + Spoken(c, fade, xs);
            var r := Feed(c, Begin(a, fade), bytes);
            && r.speech.written == a.speech.written + all[..Kept(c, all)]
            && r.speech.quiet == all[Kept(c, all)..]
            && r.speech.leadDropped == 2 * LeadIn(c, xs)
            && r.partial == joined[Whole(|joined|)..]
            && r.leadTotal == a.leadTotal + r.speech.leadDropped
            && r.speech.Holding(c)
  {
    var joined := a.partial + bytes;
    SamplesMeaning(c, Begin(a, fade).speech, Decode(joined[..Whole(|joined|)]));
  }

  // ------------------------------------------------------------------------------------------
  // Loud and quiet, in numbers
  // ------------------------------------------------------------------------------------------

  /** No further from zero than the level, on either side. */
  predicate InLevel(c: Config, x: sample) { -c.level <= x as int <= c.level }

  /** What is dropped as lead-in is within the level, and the first sample after it is not. */
  lemma LeadInIsWithin(c: Config, xs: seq<sample>)
    ensures forall i | 0 <= i < LeadIn(c, xs) :: InLevel(c, xs[i])
    ensures c.trimLeading && LeadIn(c, xs) < |xs| ==> !InLevel(c, xs[LeadIn(c, xs)])
    ensures !c.trimLeading ==> LeadIn(c, xs) == 0
  {
    forall i | 0 <= i < LeadIn(c, xs) ensures InLevel(c, xs[i]) {
      assert !Loud(c, xs[..LeadIn(c, xs)][i]);
    }
  }

  /** What is held back is within the level, and the last sample in front of it is not. */
  lemma HeldIsWithin(c: Config, ys: seq<sample>)
    ensures forall i | Kept(c, ys) <= i < |ys| :: InLevel(c, ys[i])
    ensures c.trimTrailing && Kept(c, ys) > 0 ==> !InLevel(c, ys[Kept(c, ys) - 1])
    ensures !c.trimTrailing ==> Kept(c, ys) == |ys|
  {
    forall i | Kept(c, ys) <= i < |ys| ensures InLevel(c, ys[i]) {
      assert c.trimTrailing && !Loud(c, ys[LoudLength(c, ys)..][i - LoudLength(c, ys)]);
    }
  }

  /** A whole piece, in numbers: the samples dropped as lead-in are its first, all within the level, and
      the one after them is not; what is held afterwards is within the level, and what was handed over
      last, as it was handed over, is not. */
  lemma PieceInNumbers(c: Config, a: Audio, fade: nat, bytes: seq<byte>)
    requires a.Valid() && a.speech.Holding(c)
    ensures var joined := a.partial + bytes;
            var xs := Decode(joined[..Whole(|joined|)]);
            var r := Feed(c, Begin(a, fade), bytes).speech;
            var n := r.leadDropped / 2;
            && r.leadDropped == 2 * n && n <= |xs|
            && (forall i | 0 <= i < n :: InLevel(c, xs[i]))
            && (c.trimLeading && n < |xs| ==> !InLevel(c, xs[n]))
            && (!c.trimLeading ==> n == 0)
            && (forall x <- r.quiet :: InLevel(c, x))
            && a.speech.written <= r.written
            && (c.trimTrailing && |r.written| > |a.speech.written| ==> !InLevel(c, r.written[|r.written| - 1]))
            && (!c.trimTrailing ==> r.quiet == [])
            && |r.written| + |r.quiet| == |a.speech.written| + |a.speech.quiet| + |xs| - n
  {
    hide Kept, Spoken, Feed, Decode, Loud, InLevel, LeadIn;
    PieceMeaning(c, a, fade, bytes);
    var joined := a.partial + bytes;
    var xs := Decode(joined[..Whole(|joined|)]);
    LeadInIsWithin(c, xs);
    var all := a.speech.quiet + Spoken(c, fade, xs);
    HeldIsWithin(c, all);
    var k := Kept(c, all);
    assert forall i | 0 <= i < |all| - k :: all[k..][i] == all[k + i];
    if k > 0 {
      assert (a.speech.written + all[..k])[|a.speech.written| + k - 1] == all[k - 1];
    }
  }

  /** What came out of a chunk, a sample at a time: the faded sample while the fade lasts, and then the
      sample itself. */
  lemma SpokenAt(c: Config, fade: nat, xs: seq<sample>, i: nat)
    requires LeadIn(c, xs) + i < |xs|
    ensures var x := xs[LeadIn(c, xs) + i];
            Spoken(c, fade, xs)[i] == if (c.trimLeading || c.trimTrailing) && i < fade then c.fade(i, fade, x) else x
  {
  }
}
