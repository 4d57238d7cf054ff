/** The audio of a whole Speak call: its pieces and silences, its accounting, and the positions
    at which events are reported. */
module SpeakAudio {
  import opened Pcm
  import opened Seqs
  import opened Trim

  /** One action of the plan as the audio side sees it. */
  datatype Step =
    | Piece(fade: nat, chunks: seq<seq<byte>>)
    | Silence(samples: nat)

  /** write_silence's length: whole 16-bit samples, rounded down. */
  function SilenceSamples(bytesPerSec: nat, milliseconds: nat): nat {
    bytesPerSec * milliseconds / 1000 / 2
  }

  /** As many whole samples as the time has room for. */
  lemma SilenceFills(bytesPerSec: nat, milliseconds: nat)
    ensures var n := SilenceSamples(bytesPerSec, milliseconds);
            1000 * (2 * n) <= bytesPerSec * milliseconds < 1000 * (2 * n + 2)
  {
  }

  function Zeros(n: nat): (zs: seq<sample>)
    ensures |zs| == n
  {
    seq(n, i => 0)
  }

  /** A Speak call begins with every counter at zero and nothing held. */
  const START: Audio := Audio(Speech([], [], true, 0, 0, 0), [], 0, 0, 0, 0)

  function WriteSilence(a: Audio, n: nat): Audio {
    a.(speech := a.speech.(written := a.speech.written + Zeros(n), quiet := []),
       generated := a.generated + 2 * n, discarded := a.discarded + 2 * |a.speech.quiet|)
  }

  function Run(c: Config, a: Audio, step: Step): (r: Audio)
    requires a.Valid()
    ensures r.Valid()
  {
    match step
    case Piece(fade, chunks) => FeedAll(c, Begin(a, fade), chunks)
    case Silence(n) => WriteSilence(a, n)
  }

  function RunAll(c: Config, a: Audio, steps: seq<Step>): (r: Audio)
    requires a.Valid()
    ensures r.Valid()
    decreases |steps|
  {
    if steps == [] then a else RunAll(c, Run(c, a, steps[0]), steps[1..])
  }

  // ------------------------------------------------------------------------------------------
  // What the host hears
  // ------------------------------------------------------------------------------------------

  /** `host` has been given out, `held` waits for more speech, `part` is the odd byte. */
  datatype Outcome = Outcome(host: seq<sample>, held: seq<sample>, part: seq<byte>)

  function Result(a: Audio): Outcome { Outcome(a.speech.written, a.speech.quiet, a.partial) }

  /** The reference: a piece adds its spoken samples, all but the quiet run at their end; a silence
      drops what is held and adds zeros. */
  function Meant(c: Config, m: Outcome, step: Step): Outcome {
    match step
    case Piece(fade, chunks) =>
      var joined := m.part + Flatten(chunks);
      var whole := Whole(|joined|);
      var all := m.held + Spoken(c, fade, Decode(joined[..whole]));
      Outcome(m.host + all[..Kept(c, all)], all[Kept(c, all)..], joined[whole..])
    case Silence(n) => Outcome(m.host + Zeros(n), [], m.part)
  }

  function MeantAll(c: Config, m: Outcome, steps: seq<Step>): Outcome
    decreases |steps|
  {
    if steps == [] then m else MeantAll(c, Meant(c, m, steps[0]), steps[1..])
  }

  lemma RunMeaning(c: Config, a: Audio, step: Step)
    requires a.Valid() && a.speech.Holding(c)
    ensures Result(Run(c, a, step)) == Meant(c, Result(a), step)
    ensures Run(c, a, step).speech.Holding(c)
  {
    match step
    case Piece(fade, chunks) =>
      ChunkIndependence(c, Begin(a, fade), chunks);
      PieceMeaning(c, a, fade, Flatten(chunks));
    case Silence(_) =>
  }

  /** Over every plan, and every way the engine cuts up every piece, the host hears the reference. */
  lemma {:induction false} SpeakMeaning(c: Config, a: Audio, steps: seq<Step>)
    requires a.Valid() && a.speech.Holding(c)
    ensures Result(RunAll(c, a, steps)) == MeantAll(c, Result(a), steps)
    decreases |steps|
  {
    if steps != [] {
      RunMeaning(c, a, steps[0]);
      SpeakMeaning(c, Run(c, a, steps[0]), steps[1..]);
    }
  }

  // ------------------------------------------------------------------------------------------
  // Conservation, and Speak's own accounting
  // ------------------------------------------------------------------------------------------

  /** Every byte received was written once, dropped as lead-in, thrown away, or is still held. */
  ghost predicate Conserved(a: Audio) {
    a.received + a.generated ==
    2 * |a.speech.written| + a.leadTotal + a.discarded + 2 * |a.speech.quiet| + |a.partial|
  }

  lemma FeedSamplesConserves(c: Config, s: Speech, xs: seq<sample>)
    requires s.Valid()
    ensures var r := FeedSamples(c, s, xs);
            2 * (|r.written| + |r.quiet|) + r.leadDropped == 2 * (|s.written| + |s.quiet| + |xs|) + s.leadDropped
  {
  }

  lemma {:induction false} FeedAllConserves(c: Config, a: Audio, chunks: seq<seq<byte>>)
    requires a.Valid() && Conserved(a)
    ensures Conserved(FeedAll(c, a, chunks))
    ensures FeedAll(c, a, chunks).discarded == a.discarded
    decreases |chunks|
  {
    if chunks != [] {
      var joined := a.partial + chunks[0];
      FeedSamplesConserves(c, a.speech, Decode(joined[..Whole(|joined|)]));
      FeedAllConserves(c, Feed(c, a, chunks[0]), chunks[1..]);
    }
  }

  lemma {:induction false} Conservation(c: Config, a: Audio, steps: seq<Step>)
    requires a.Valid() && Conserved(a)
    ensures Conserved(RunAll(c, a, steps))
    decreases |steps|
  {
    if steps != [] {
      if steps[0].Piece? {
        FeedAllConserves(c, Begin(a, steps[0].fade), steps[0].chunks);
      }
      Conservation(c, Run(c, a, steps[0]), steps[1..]);
    }
  }

  /** The sum Speak compares with received_ at its end. */
  function Accounted(a: Audio): int {
    2 * |a.speech.written| - a.generated + a.leadTotal + 2 * |a.speech.quiet| + |a.partial|
  }

  /** At every silence of the plan, what was spoken since the last one ends loud, or trailing quiet is
      not trimmed. `part` is an odd byte from before, `spoken` what was spoken since the last silence. */
  ghost predicate PausesFollowSpeech(c: Config, steps: seq<Step>, part: seq<byte>, spoken: seq<sample>)
    decreases |steps|
  {
    steps == [] ||
    match steps[0]
    case Piece(fade, chunks) =>
      var joined := part + Flatten(chunks);
      var whole := Whole(|joined|);
      PausesFollowSpeech(c, steps[1..], joined[whole..], spoken + Spoken(c, fade, Decode(joined[..whole])))
    case Silence(_) =>
      && (!c.trimTrailing || spoken == [] || Loud(c, spoken[|spoken| - 1]))
      && PausesFollowSpeech(c, steps[1..], part, [])
  }

  /** What is held is the quiet end of all that was spoken since the last silence. */
  ghost predicate HoldsEndOf(c: Config, a: Audio, spoken: seq<sample>) {
    a.speech.quiet == spoken[Kept(c, spoken)..]
  }

  lemma HeldSince(c: Config, x: seq<sample>, y: seq<sample>)
    ensures var all := x[Kept(c, x)..] + y; all[Kept(c, all)..] == (x + y)[Kept(c, x + y)..]
  {
    var k := Kept(c, x);
    Split(x, k);
    Assoc(x[..k], x[k..], y);
    LoudLengthConcat(c, x[..k], x[k..] + y);
    LoudLengthConcat(c, x, y);
    LoudLengthConcat(c, x[k..], y);
    if c.trimTrailing {
      NoneLoud(c, x[k..]);
    }
  }

  lemma NothingHeld(c: Config, spoken: seq<sample>)
    ensures spoken[Kept(c, spoken)..] == [] <==> !c.trimTrailing || spoken == [] || Loud(c, spoken[|spoken| - 1])
  {
  }

  lemma {:induction false} DiscardedGrows(c: Config, a: Audio, steps: seq<Step>, spoken: seq<sample>)
    requires a.Valid() && a.speech.Holding(c) && HoldsEndOf(c, a, spoken)
    ensures RunAll(c, a, steps).discarded >= a.discarded
    ensures RunAll(c, a, steps).discarded == a.discarded <==> PausesFollowSpeech(c, steps, a.partial, spoken)
    decreases |steps|
  {
    hide Spoken, Kept, Decode, FeedAll;
    if steps != [] {
      RunMeaning(c, a, steps[0]);
      var r := Run(c, a, steps[0]);
      match steps[0]
      case Piece(fade, chunks) =>
        FeedAllDiscards(c, Begin(a, fade), chunks);
        var joined := a.partial + Flatten(chunks);
        var ys := Spoken(c, fade, Decode(joined[..Whole(|joined|)]));
        HeldSince(c, spoken, ys);
        DiscardedGrows(c, r, steps[1..], spoken + ys);
      case Silence(n) =>
        NothingHeld(c, spoken);
        NothingHeld(c, []);
        DiscardedGrows(c, r, steps[1..], []);
    }
  }

  lemma {:induction false} FeedAllDiscards(c: Config, a: Audio, chunks: seq<seq<byte>>)
    requires a.Valid()
    ensures FeedAll(c, a, chunks).discarded == a.discarded
    decreases |chunks|
  {
    hide Feed;
    if chunks != [] {
      FeedDiscards(c, a, chunks[0]);
      FeedAllDiscards(c, Feed(c, a, chunks[0]), chunks[1..]);
    }
  }

  lemma FeedDiscards(c: Config, a: Audio, chunk: seq<byte>)
    requires a.Valid()
    ensures Feed(c, a, chunk).discarded == a.discarded
  {
    hide FeedSamples, Decode;
  }

  /** The comparison at the end of Speak, said there to be exact, comes out even exactly when every
      silence of the plan follows speech that ends loud. */
  lemma AccountingIsExactWhen(c: Config, steps: seq<Step>)
    ensures var r := RunAll(c, START, steps);
            Accounted(r) == r.received <==> PausesFollowSpeech(c, steps, [], [])
  {
    hide PausesFollowSpeech, RunAll;
    Conservation(c, START, steps);
    DiscardedGrows(c, START, steps, []);
  }

  lemma {:induction false} AllReceived(c: Config, a: Audio, chunks: seq<seq<byte>>)
    requires a.Valid()
    ensures FeedAll(c, a, chunks).received == a.received + |Flatten(chunks)|
    decreases |chunks|
  {
    hide FeedSamples;
    if chunks != [] {
      AllReceived(c, Feed(c, a, chunks[0]), chunks[1..]);
    }
  }

  /** A loud sample, then a quiet one, then a pause, and two bytes are reported as missing. */
  lemma AccountingMissesDiscardedQuiet(c: Config, loud: sample, quiet: sample)
    requires c.trimTrailing && Loud(c, loud) && !Loud(c, quiet)
    ensures var r := RunAll(c, START, [Piece(0, [Encode([loud, quiet])]), Silence(0)]);
            r.received == 4 && Accounted(r) == 2
  {
    hide FeedAll, Meant, Loud, Encode;
    var chunks := [Encode([loud, quiet])];
    var a := Run(c, START, Piece(0, chunks));
    LoudThenQuiet(c, loud, quiet);
    RunMeaning(c, START, Piece(0, chunks));
    FeedAllConserves(c, Begin(START, 0), chunks);
    AllReceived(c, Begin(START, 0), chunks);
    FlattenOne(Encode([loud, quiet]));
    RunBoth(c, Piece(0, chunks), 0);
  }

  lemma RunBoth(c: Config, piece: Step, n: nat)
    ensures RunAll(c, START, [piece, Silence(n)]) == WriteSilence(Run(c, START, piece), n)
  {
    hide FeedAll;
    var steps := [piece, Silence(n)];
    assert steps[1..] == [Silence(n)] && steps[1..][1..] == [];
    assert RunAll(c, Run(c, START, piece), steps[1..]) == RunAll(c, WriteSilence(Run(c, START, piece), n), []);
  }

  lemma FlattenOne(bytes: seq<byte>)
    ensures Flatten([bytes]) == bytes
  {
  }

  lemma LoudThenQuiet(c: Config, loud: sample, quiet: sample)
    requires c.trimTrailing && Loud(c, loud) && !Loud(c, quiet)
    ensures Meant(c, Outcome([], [], []), Piece(0, [Encode([loud, quiet])])) == Outcome([loud], [quiet], [])
  {
    hide Kept, Spoken, Encode, Decode, Meant;
    var xs := [loud, quiet];
    DecodeEncode(xs);
    MeantFromNothing(c, Encode(xs));
    SpokenUnchanged(c, xs);
    KeptOne(c, loud, quiet);
    assert xs[..1] == [loud] && xs[1..] == [quiet];
  }

  lemma MeantFromNothing(c: Config, bytes: seq<byte>)
    requires |bytes| % 2 == 0
    ensures var all := Spoken(c, 0, Decode(bytes));
            Meant(c, Outcome([], [], []), Piece(0, [bytes])) == Outcome(all[..Kept(c, all)], all[Kept(c, all)..], [])
  {
    hide Spoken, Kept, Decode, Flatten;
    FlattenOne(bytes);
    Front(bytes);
    assert [] + bytes == bytes && bytes[..|bytes|] == bytes && bytes[|bytes|..] == [];
    var all := Spoken(c, 0, Decode(bytes));
    Front(all);
    Front(all[..Kept(c, all)]);
  }

  lemma Front<T>(xs: seq<T>)
    ensures [] + xs == xs
  {
  }

  lemma SpokenUnchanged(c: Config, xs: seq<sample>)
    requires xs != [] && Loud(c, xs[0])
    ensures Spoken(c, 0, xs) == xs
  {
  }

  lemma KeptOne(c: Config, loud: sample, quiet: sample)
    requires c.trimTrailing && Loud(c, loud) && !Loud(c, quiet)
    ensures Kept(c, [loud, quiet]) == 1
  {
    var xs := [loud, quiet];
    assert !Loud(c, xs[1]) && xs[..|xs| - 1] == [loud];
    assert LoudLength(c, [loud]) == 1;
  }

  // ------------------------------------------------------------------------------------------
  // Positions
  // ------------------------------------------------------------------------------------------

  /** Where on_event reports something the engine placed at byte `offset` of its own output. */
  function Reported(base: nat, leadDropped: nat, offset: nat): nat {
    base + if offset > leadDropped then offset - leadDropped else 0
  }

  /** Everything a piece has put in front of the host or may yet: written, then held. */
  function Stream(a: Audio): seq<sample> { a.speech.written + a.speech.quiet }

  lemma StreamMeaning(c: Config, a: Audio, fade: nat, bytes: seq<byte>)
    requires a.Valid() && a.speech.Holding(c) && a.partial == []
    ensures var xs := Decode(bytes[..Whole(|bytes|)]);
            var r := Feed(c, Begin(a, fade), bytes);
            Stream(r) == Stream(a) + Spoken(c, fade, xs) && r.speech.leadDropped == 2 * LeadIn(c, xs)
  {
    PieceMeaning(c, a, fade, bytes);
    assert [] + bytes == bytes;
    var ys := Spoken(c, fade, Decode(bytes[..Whole(|bytes|)]));
    var all := a.speech.quiet + ys;
    Split(all, Kept(c, all));
    Assoc(a.speech.written, all[..Kept(c, all)], all[Kept(c, all)..]);
    Assoc(a.speech.written, a.speech.quiet, ys);
  }

  /** The lead-in is over: how much of it was dropped will not change in this piece. */
  predicate LeadSettled(c: Config, a: Audio) {
    !c.trimLeading || !a.speech.leading
  }

  lemma LeadStays(c: Config, a: Audio, soFar: seq<byte>, later: seq<byte>)
    requires a.Valid() && LeadSettled(c, Feed(c, a, soFar))
    ensures Feed(c, a, soFar + later).speech.leadDropped == Feed(c, a, soFar).speech.leadDropped
  {
    FeedTwice(c, a, soFar, later);
  }

  /** An event reported once the lead-in is over, for a piece begun with no part sample. `soFar` is
      what the engine has produced by then and `later` what it produces afterwards. An offset inside
      the lead-in is reported at the piece's start. Any other offset's sample, faded, sits in the
      host's stream at the reported position plus whatever quiet was carried into the piece, which
      base_offset does not count; so the position is exact just when nothing was carried in. */
  lemma EventPosition(c: Config, a: Audio, fade: nat, soFar: seq<byte>, later: seq<byte>, offset: nat)
    requires a.Valid() && a.speech.Holding(c) && a.partial == []
    requires LeadSettled(c, Feed(c, Begin(a, fade), soFar))
    requires offset < Whole(|soFar + later|)
    ensures var lead := Feed(c, Begin(a, fade), soFar).speech.leadDropped;
            var at := Reported(2 * |a.speech.written|, lead, offset);
            var xs := Decode((soFar + later)[..Whole(|soFar + later|)]);
            var stream := Stream(Feed(c, Begin(a, fade), soFar + later));
            var index := |Stream(a)| + (offset - lead) / 2;
            && lead == 2 * LeadIn(c, xs)
            && (offset < lead ==> at == 2 * |a.speech.written|)
            && (offset >= lead ==>
                  && at % 2 == offset % 2
                  && index < |stream|
                  && stream[index] == Spoken(c, fade, xs)[(offset - lead) / 2]
                  && (at / 2 == index <==> a.speech.quiet == []))
  {
    hide Feed, Decode, Spoken;
    LeadStays(c, Begin(a, fade), soFar, later);
    StreamMeaning(c, a, fade, soFar + later);
    var xs := Decode((soFar + later)[..Whole(|soFar + later|)]);
    ReportedIndex(|a.speech.written|, LeadIn(c, xs), offset);
    if offset >= 2 * LeadIn(c, xs) {
      InConcat(Stream(a), Spoken(c, fade, xs), (offset - 2 * LeadIn(c, xs)) / 2);
    }
  }

  lemma ReportedIndex(base: nat, lead: nat, offset: nat)
    ensures var at := Reported(2 * base, 2 * lead, offset);
            if offset < 2 * lead then at == 2 * base
            else at % 2 == offset % 2 && at / 2 == base + (offset - 2 * lead) / 2
  {
  }

  lemma InConcat<T>(x: seq<T>, y: seq<T>, i: nat)
    requires i < |y|
    ensures (x + y)[|x| + i] == y[i]
  {
  }

  /** The whole samples that come after those of `soFar`. */
  function NextSamples(soFar: seq<byte>, later: seq<byte>): seq<sample> {
    var p := soFar[Whole(|soFar|)..] + later;
    Decode(p[..Whole(|p|)])
  }

  /** Reported while the lead-in is still being dropped, a position is final exactly when the event
      lies in what had been dropped by then, or the next sample there is, if there is one, is loud. */
  lemma EarlyPosition(c: Config, a: Audio, fade: nat, soFar: seq<byte>, later: seq<byte>, offset: nat)
    requires a.Valid() && a.speech.Holding(c) && a.partial == [] && c.trimLeading
    requires Feed(c, Begin(a, fade), soFar).speech.leading
    ensures var base := 2 * |a.speech.written|;
            var now := Feed(c, Begin(a, fade), soFar).speech.leadDropped;
            var finally := Feed(c, Begin(a, fade), soFar + later).speech.leadDropped;
            var next := NextSamples(soFar, later);
            && now == Whole(|soFar|) <= finally
            && (Reported(base, now, offset) == Reported(base, finally, offset)
                <==> offset <= now || next == [] || Loud(c, next[0]))
  {
    hide Decode, FeedSamples, Loud;
    var s := Feed(c, Begin(a, fade), soFar);
    FeedTwice(c, Begin(a, fade), soFar, later);
    assert [] + soFar == soFar;
    LeadSoFar(c, Begin(a, fade).speech, Decode(soFar[..Whole(|soFar|)]));
    LeadGoesOn(c, s.speech, NextSamples(soFar, later));
  }

  lemma LeadSoFar(c: Config, s: Speech, xs: seq<sample>)
    requires s.Valid() && s.leadDropped == 0 && c.trimLeading && FeedSamples(c, s, xs).leading
    ensures FeedSamples(c, s, xs).leadDropped == 2 * |xs|
  {
  }

  lemma LeadGoesOn(c: Config, s: Speech, next: seq<sample>)
    requires s.Valid() && s.leading && c.trimLeading
    ensures FeedSamples(c, s, next).leadDropped >= s.leadDropped
    ensures FeedSamples(c, s, next).leadDropped == s.leadDropped <==> next == [] || Loud(c, next[0])
  {
  }

  /** A piece that ends quiet, and one of a single loud sample after it: the event at the start of the
      second is reported one sample early, at the quiet one that was carried in. */
  lemma PositionMissesCarriedQuiet(c: Config, loud: sample, quiet: sample)
    requires c.trimTrailing && Loud(c, loud) && !Loud(c, quiet)
    ensures var a := Run(c, START, Piece(0, [Encode([loud, quiet])]));
            var r := Feed(c, Begin(a, 0), Encode([loud]));
            && a.speech.quiet == [quiet] && r.speech.written == [loud, quiet, loud]
            && Reported(2 * |a.speech.written|, r.speech.leadDropped, 0) == 2
  {
    hide FeedAll, Feed, Meant, Loud, Encode, Decode, Spoken, Kept;
    var a := Run(c, START, Piece(0, [Encode([loud, quiet])]));
    LoudThenQuiet(c, loud, quiet);
    RunMeaning(c, START, Piece(0, [Encode([loud, quiet])]));
    DecodeEncode([loud]);
    assert a.partial + Encode([loud]) == Encode([loud]);
    assert Encode([loud])[..2] == Encode([loud]);
    PieceMeaning(c, a, 0, Encode([loud]));
    SpokenUnchanged(c, [loud]);
    NoLeadIn(c, loud);
    KeptAll(c, [quiet], loud);
    assert [loud] + [quiet, loud] == [loud, quiet, loud] && [quiet] + [loud] == [quiet, loud];
    assert [quiet, loud][..2] == [quiet, loud];
  }

  lemma NoLeadIn(c: Config, loud: sample)
    requires Loud(c, loud)
    ensures LeadIn(c, [loud]) == 0
  {
  }

  lemma KeptAll(c: Config, xs: seq<sample>, loud: sample)
    requires Loud(c, loud)
    ensures Kept(c, xs + [loud]) == |xs| + 1
  {
  }
}
