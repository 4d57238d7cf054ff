/** The audio half of the SAPI5 engine object: what each chunk from the worker does to its fields
    and to the host. */
module TtsEngine {
  import opened Pcm
  import opened Seqs
  import opened Trim
  import opened SpeakAudio

  /** How much of an offer the engine believes the host took: pcbWritten is not to be trusted. */
  function Took(asked: nat, reported: nat): (n: nat)
    ensures n <= asked && (asked > 0 ==> n > 0)
  {
    if reported == 0 || reported > asked then asked else reported
  }

  /** What a host may report when it took `n` of what was offered: the count, or, when it took everything,
      nothing at all or something impossible. */
  predicate Reports(asked: nat, n: nat, reported: nat) {
    reported == n || (n == asked && (reported == 0 || reported > asked))
  }

  /** An action of the plan: a piece of text, which the engine answers with audio in chunks, or a silence. */
  datatype Act = Say(fade: nat, chunks: seq<seq<byte>>) | Wait(milliseconds: nat)

  function StepOf(perSec: nat, act: Act): Step {
    match act
    case Say(fade, chunks) => Piece(fade, chunks)
    case Wait(ms) => Silence(SilenceSamples(perSec, ms))
  }

  function StepsOf(perSec: nat, acts: seq<Act>): seq<Step> {
    if acts == [] then [] else [StepOf(perSec, acts[0])] + StepsOf(perSec, acts[1..])
  }

  /** The SAPI site. It may ask for an end, fail a write, or report any count at any time. */
  class Host {
    var heard: seq<byte>
    /** The most it was ever offered at once. */
    ghost var most: nat
    /** A host that never takes part of a sample. */
    const wholeSamples: bool

    constructor (wholeSamples: bool)
      ensures heard == [] && this.wholeSamples == wholeSamples
    {
      this.heard, this.wholeSamples := [], wholeSamples;
      most := 0;
    }

    method GetActions() returns (stop: bool)
    {
      stop := *;
    }

    method Write(data: seq<byte>) returns (ok: bool, reported: nat)
      requires data != []
      modifies this
      ensures ok ==> exists n: nat ::
                0 < n <= |data| && heard == old(heard) + data[..n] && Reports(|data|, n, reported)
                && (wholeSamples && |data| % 2 == 0 ==> n % 2 == 0)
      ensures !ok ==> heard == old(heard)
      ensures most == if |data| > old(most) then |data| else old(most)
    {
      ok := *;
      reported := *;
      var n: nat :| 0 < n <= |data|;
      if wholeSamples && n % 2 == 1 {
        n := |data|;
      }
      if n < |data| || reported < |data| {
        reported := n;
      }
      most := if |data| > most then |data| else most;
      if ok {
        heard := heard + data[..n];
      }
    }
  }

  class TtsEngine {
    const cfg: Config
    const host: Host
    var bytesPerSec: nat
    var quiet: seq<byte>
    var leading: bool
    var leadDropped: nat
    var fadeRemaining: nat
    var fadeTotal: nat
    var received: nat
    var leadTotal: nat
    var generated: nat
    var partial: seq<byte>
    var streamOffset: nat
    var aborted: bool
    /** The state this object stands for. */
    ghost var audio: Audio

    ghost predicate Valid()
      reads this, host
    {
      && audio.Valid()
      && host.heard == Encode(audio.speech.written) && quiet == Encode(audio.speech.quiet)
      && leading == audio.speech.leading && leadDropped == audio.speech.leadDropped
      && fadeTotal == audio.speech.fadeTotal && fadeRemaining == audio.speech.fadeLeft
      && partial == audio.partial && received == audio.received
      && leadTotal == audio.leadTotal && generated == audio.generated
      && streamOffset == |host.heard|
      && host.wholeSamples
    }

    /** Speak's resets; the host starts a stream of its own for every call. */
    constructor (cfg: Config, host: Host)
      requires host.heard == [] && host.wholeSamples
      ensures Valid() && audio == START && !aborted
      ensures this.cfg == cfg && this.host == host && bytesPerSec == 32000
    {
      this.cfg, this.host := cfg, host;
      bytesPerSec := 32000;
      quiet, partial := [], [];
      leading, leadDropped, fadeRemaining, fadeTotal := true, 0, 0, 0;
      received, leadTotal, generated, streamOffset := 0, 0, 0, 0;
      aborted := false;
      audio := START;
    }

    /** The rate the engine reported, or the one assumed before it has. */
    function PerSecond(): nat
      reads this`bytesPerSec
    {
      if bytesPerSec != 0 then bytesPerSec else 32000
    }

    /** How many bytes the host is offered at a time: 30 ms of them, and a whole number of samples. */
    function PieceSize(): (n: nat)
      reads this
      ensures n >= 256 && n % 2 == 0 && (n > 256 ==> 1000 * n <= 30 * PerSecond())
    {
      var n := PerSecond() * 30 / 1000;
      if n - n % 2 < 256 then 256 else n - n % 2
    }

    /** The next piece of `rest` offered to the host, unless it asks for an end first: whole samples
        only, so nothing when less than one is left. */
    method Offer(rest: seq<byte>, piece: nat) returns (ok: bool, took: nat)
      requires piece > 1 && streamOffset == |host.heard|
      modifies this`aborted, this`streamOffset, host
      ensures streamOffset == |host.heard|
      ensures host.most <= if piece > old(host.most) then piece else old(host.most)
      ensures ok ==> took <= |rest| && (took == 0 <==> |rest| < 2) && aborted == old(aborted)
      ensures ok ==> host.heard == old(host.heard) + rest[..took]
      ensures ok && host.wholeSamples ==> took % 2 == 0
      ensures !ok ==> aborted && host.heard == old(host.heard)
    {
      took := 0;
      var stop := host.GetActions();
      if stop {
        aborted := true;
        return false, took;
      }
      var ask := if |rest| < piece then |rest| else piece;
      ask := ask - ask % 2;
      if ask == 0 {
        return true, took;
      }
      var taken, reported := host.Write(rest[..ask]);
      if !taken {
        aborted := true;
        return false, took;
      }
      took := Took(ask, reported);
      assert rest[..ask][..took] == rest[..took];
      assert host.heard == old(host.heard) + rest[..ask][..took];
      streamOffset := streamOffset + took;
      return true, took;
    }

    /** Hands `data` over in bounded pieces. All of it arrives but for a byte at most, which stays behind
        only when it is no whole sample, or was made to be none by a host that took part of one; unless
        the host stops the utterance, in which case what arrived is a front part of it. */
    method WriteBytes(data: seq<byte>) returns (ok: bool)
      requires streamOffset == |host.heard|
      modifies this`aborted, this`streamOffset, host
      ensures streamOffset == |host.heard|
      ensures host.most <= if old(PieceSize()) > old(host.most) then old(PieceSize()) else old(host.most)
      ensures old(host.heard) <= host.heard <= old(host.heard) + data
      ensures ok ==> |old(host.heard) + data| <= |host.heard| + 1 && aborted == old(aborted)
      ensures ok && host.wholeSamples && |data| % 2 == 0 ==> host.heard == old(host.heard) + data
      ensures !ok ==> aborted
    {
      var piece := PieceSize();
      var p := 0;
      while p < |data|
        invariant 0 <= p <= |data| && (host.wholeSamples ==> p % 2 == 0)
        invariant host.heard == old(host.heard) + data[..p]
        invariant streamOffset == |host.heard| && aborted == old(aborted)
        invariant host.most <= if piece > old(host.most) then piece else old(host.most)
      {
        var took: nat;
        ok, took := Offer(data[p..], piece);
        if !ok {
          return;
        }
        if took == 0 {
          break;
        }
        Stretch(data, p, |data| - p, took);
        Assoc(old(host.heard), data[..p], data[p..p + took]);
        assert data[p..][..took] == data[p..p + took];
        p := p + took;
      }
      assert data[..|data|] == data;
      return true;
    }

    method FlushQuiet() returns (ok: bool)
      requires streamOffset == |host.heard|
      modifies this`quiet, this`aborted, this`streamOffset, host
      ensures streamOffset == |host.heard| && quiet == []
      ensures old(host.heard) <= host.heard <= old(host.heard) + old(quiet)
      ensures ok ==> |old(host.heard) + old(quiet)| <= |host.heard| + 1 && aborted == old(aborted)
      ensures ok && host.wholeSamples && |old(quiet)| % 2 == 0 ==> host.heard == old(host.heard) + old(quiet)
      ensures !ok ==> aborted
    {
      if quiet == [] {
        return true;
      }
      var held := quiet;
      quiet := [];
      ok := WriteBytes(held);
    }

    /** The opening samples of a piece, scaled up from nothing. */
    method ApplyOnsetFade(samples: seq<sample>) returns (scratch: seq<sample>)
      requires fadeRemaining <= fadeTotal
      modifies this`fadeRemaining
      ensures scratch == Faded(cfg, fadeTotal, old(fadeRemaining), samples)
      ensures fadeRemaining == Rest(old(fadeRemaining), |samples|)
    {
      scratch := samples;
      var n := if |samples| < fadeRemaining then |samples| else fadeRemaining;
      for i := 0 to n
        invariant |scratch| == |samples|
        invariant scratch[..i] == Faded(cfg, fadeTotal, fadeRemaining, samples)[..i]
        invariant scratch[i..] == samples[i..]
      {
        var done := fadeTotal - fadeRemaining + i;
        scratch := scratch[i := cfg.fade(done, fadeTotal, scratch[i])];
      }
      fadeRemaining := fadeRemaining - n;
    }

    method FirstLoud(samples: seq<sample>) returns (n: nat)
      ensures n == QuietPrefix(cfg, samples)
    {
      n := |samples|;
      for i := 0 to |samples|
        invariant n == |samples| && AllQuiet(cfg, samples[..i])
      {
        if Loud(cfg, samples[i]) {
          PrefixIsFirstLoud(cfg, samples, i);
          return i;
        }
      }
      PrefixIsFirstLoud(cfg, samples, |samples|);
    }

    /** The position after the last loud sample, 0 when there is none. */
    method AfterLastLoud(samples: seq<sample>) returns (n: nat)
      ensures n == LoudLength(cfg, samples)
    {
      hide LoudLength;
      assert samples[..|samples|] == samples;
      for i := |samples| downto 0
        invariant LoudLength(cfg, samples) == LoudLength(cfg, samples[..i])
      {
        LoudLengthTo(cfg, samples, i);
        if Loud(cfg, samples[i]) {
          return i + 1;
        }
      }
      LoudLengthTo(cfg, samples, 0);
      return 0;
    }

    /** What is held, then `samples`, on top of what the host has been given. */
    method Deliver(samples: seq<sample>, ghost written: seq<sample>, ghost held: seq<sample>) returns (ok: bool)
      requires host.heard == Encode(written) && quiet == Encode(held)
      requires host.wholeSamples && streamOffset == |host.heard|
      modifies this`quiet, this`aborted, this`streamOffset, host
      ensures streamOffset == |host.heard| && quiet == []
      ensures ok ==> host.heard == Encode(written + held + samples) && aborted == old(aborted)
      ensures !ok ==> aborted && host.heard <= Encode(written + held + samples)
      ensures old(host.heard) <= host.heard
    {
      hide Encode, PieceSize;
      EncodeConcat(written, held);
      EncodeConcat(written + held, samples);
      WholeSamples(held);
      WholeSamples(samples);
      ok := FlushQuiet();
      if ok {
        ok := WriteBytes(Encode(samples));
      }
    }

    /** The end of feed_audio: `samples` are past the lead-in and the fade. */
    method SettleSamples(samples: seq<sample>) returns (ok: bool)
      requires Valid()
      modifies this`quiet, this`aborted, this`streamOffset, this`audio, host
      ensures audio == old(audio).(speech := Settle(cfg, old(audio.speech), samples))
      ensures ok ==> Valid() && aborted == old(aborted)
      ensures !ok ==> aborted && host.heard <= Encode(audio.speech.written)
      ensures old(host.heard) <= host.heard
    {
      ghost var s := audio.speech;
      audio := audio.(speech := Settle(cfg, s, samples));
      var loud := |samples|;
      if cfg.trimTrailing {
        loud := AfterLastLoud(samples);
        if loud == 0 {
          EncodeConcat(s.quiet, samples);
          quiet := quiet + Encode(samples);
          return true;
        }
      } else if samples == [] {
        return true;
      }
      ok := Deliver(samples[..loud], s.written, s.quiet);
      if ok {
        quiet := Encode(samples[loud..]);
      }
    }

    /** Leaves the lead-in out, and out of the positions; speech has begun once there is a loud sample. */
    method SkipLeadIn(samples: seq<sample>) returns (n: nat)
      modifies this`leadDropped, this`leadTotal, this`leading
      ensures n == if old(leading) && cfg.trimLeading then QuietPrefix(cfg, samples) else 0
      ensures leadDropped == old(leadDropped) + 2 * n && leadTotal == old(leadTotal) + 2 * n
      ensures leading == (old(leading) && (!cfg.trimLeading || n == |samples|))
    {
      n := 0;
      if leading && cfg.trimLeading {
        n := FirstLoud(samples);
        leadDropped := leadDropped + 2 * n;
        leadTotal := leadTotal + 2 * n;
        if n < |samples| {
          leading := false;
        }
      }
    }

    /** feed_audio from where the part sample has been put aside. */
    method FeedWhole(chunk: seq<sample>) returns (ok: bool)
      requires Valid() && chunk != []
      modifies this`leadDropped, this`leadTotal, this`leading, this`fadeRemaining,
               this`quiet, this`aborted, this`streamOffset, this`audio, host
      ensures audio == WithSpeech(old(audio), FeedSamples(cfg, old(audio.speech), chunk))
      ensures ok ==> Valid() && aborted == old(aborted)
      ensures !ok ==> aborted && host.heard <= Encode(audio.speech.written)
      ensures old(host.heard) <= host.heard
    {
      hide FeedSamples, Settle, Encode, Faded, QuietPrefix, Rest;
      ghost var s := audio.speech;
      FeedCases(cfg, s, chunk);
      if !cfg.trimTrailing && !cfg.trimLeading {
        audio := WithSpeech(audio, FeedSamples(cfg, s, chunk));
        ok := Deliver(chunk, s.written, s.quiet);
        return;
      }
      var firstLoud := SkipLeadIn(chunk);
      if firstLoud == |chunk| {
        audio := WithSpeech(audio, FeedSamples(cfg, s, chunk));
        return true;
      }
      var samples := chunk[firstLoud..];
      if fadeRemaining > 0 {
        samples := ApplyOnsetFade(samples);
      }
      FadedNone(cfg, s.fadeTotal, chunk[firstLoud..]);
      audio := WithSpeech(audio, s.(leadDropped := leadDropped, leading := leading, fadeLeft := fadeRemaining));
      ok := SettleSamples(samples);
    }

    /** One chunk from the worker, of any length. What reached the host if it stopped the utterance is
        a front part of what would have. */
    method FeedAudio(data: seq<byte>) returns (ok: bool)
      requires Valid()
      modifies this, host
      ensures audio == Feed(cfg, old(audio), data) && bytesPerSec == old(bytesPerSec)
      ensures ok ==> Valid() && aborted == old(aborted)
      ensures !ok ==> aborted && host.heard <= Encode(audio.speech.written)
      ensures old(host.heard) <= host.heard
    {
      hide FeedSamples;
      received := received + |data|;
      var joined := partial + data;
      var n := |joined| - |joined| % 2;
      partial := joined[n..];
      FeedNothing(cfg, audio.speech);
      audio := audio.(received := received, partial := partial);
      if n == 0 {
        assert Decode(joined[..0]) == [];
        return true;
      }
      ok := FeedWhole(Decode(joined[..n]));
    }

    method WriteZeros(total: nat) returns (failed: bool)
      requires streamOffset == |host.heard| && !aborted
      modifies this`streamOffset, this`generated, this`aborted, host
      ensures streamOffset == |host.heard|
      ensures !failed && !aborted ==>
                host.heard == old(host.heard) + NoSound(total) && generated == old(generated) + total
      ensures old(host.heard) <= host.heard <= old(host.heard) + NoSound(total)
    {
      var remaining := total;
      assert host.heard == old(host.heard) + NoSound(0);
      while remaining > 0 && !aborted
        invariant 0 <= remaining <= total && streamOffset == |host.heard|
        invariant host.heard == old(host.heard) + NoSound(total - remaining)
        invariant generated == old(generated) + total - remaining
        invariant host.heard <= old(host.heard) + NoSound(total)
        decreases remaining, !aborted
      {
        assert NoSound(total)[..total - remaining] == NoSound(total - remaining);
        var stop := host.GetActions();
        if stop {
          aborted := true;
          break;
        }
        var chunk := if remaining < 4096 then remaining else 4096;
        var ok, reported := host.Write(NoSound(chunk));
        if !ok {
          return true;
        }
        var took := Took(chunk, reported);
        assert host.heard == old(host.heard) + NoSound(total - remaining) + NoSound(chunk)[..took];
        assert NoSound(chunk)[..took] == NoSound(took);
        assert NoSound(total - remaining) + NoSound(took) == NoSound(total - remaining + took);
        streamOffset := streamOffset + took;
        generated := generated + took;
        remaining := remaining - took;
        assert NoSound(total)[..total - remaining] == NoSound(total - remaining);
      }
      return false;
    }

    /** Silence between pieces: what the last piece left held is thrown away, then zeros are written. */
    method WriteSilence(milliseconds: nat) returns (failed: bool)
      requires Valid() && !aborted
      modifies this, host
      ensures var perSec := if bytesPerSec == 0 then 32000 else bytesPerSec;
              audio == SpeakAudio.WriteSilence(old(audio), SilenceSamples(perSec, milliseconds))
      ensures !failed && !aborted ==> Valid()
      ensures bytesPerSec == old(bytesPerSec)
      ensures old(host.heard) <= host.heard <= Encode(audio.speech.written)
    {
      hide Encode, Zeros, SilenceSamples;
      var perSec := PerSecond();
      var samples := SilenceLength(perSec, milliseconds);
      quiet := [];
      SilenceEncoded(audio.speech.written, samples);
      audio := SpeakAudio.WriteSilence(audio, samples);
      failed := WriteZeros(2 * samples);
    }

    /** run_action's preparation for a piece; `fade` is the fade's length in samples. */
    method BeginPiece(fade: nat)
      requires Valid()
      modifies this`leading, this`leadDropped, this`fadeTotal, this`fadeRemaining, this`audio
      ensures Valid() && audio == Begin(old(audio), fade)
    {
      leading, leadDropped := true, 0;
      fadeTotal, fadeRemaining := fade, fade;
      audio := Begin(audio, fade);
    }

    /** The on_audio callback over a whole piece: every chunk, until the host stops it. */
    method SpeakPiece(fade: nat, chunks: seq<seq<byte>>) returns (ok: bool)
      requires Valid() && !aborted
      modifies this, host
      ensures bytesPerSec == old(bytesPerSec)
      ensures ok ==> Valid() && !aborted && audio == Run(cfg, old(audio), Piece(fade, chunks))
      ensures old(host.heard) <= host.heard
      ensures !ok ==> aborted && host.heard <= Encode(Run(cfg, old(audio), Piece(fade, chunks)).speech.written)
    {
      hide Feed;
      ghost var goal := FeedAll(cfg, Begin(audio, fade), chunks);
      BeginPiece(fade);
      assert chunks[0..] == chunks;
      for i := 0 to |chunks|
        invariant Valid() && !aborted && old(host.heard) <= host.heard && bytesPerSec == old(bytesPerSec)
        invariant FeedAll(cfg, audio, chunks[i..]) == goal
      {
        assert chunks[i..][0] == chunks[i] && chunks[i..][1..] == chunks[i + 1..];
        ok := FeedAudio(chunks[i]);
        if !ok {
          WrittenGrows(cfg, audio, chunks[i + 1..]);
          EncodePrefix(audio.speech.written, goal.speech.written);
          return;
        }
      }
      return true;
    }

    /** One action of the plan. */
    method RunAction(act: Act) returns (failed: bool)
      requires Valid() && !aborted
      modifies this, host
      ensures bytesPerSec == old(bytesPerSec) && old(host.heard) <= host.heard
      ensures !failed && !aborted ==> Valid() && audio == Run(cfg, old(audio), StepOf(PerSecond(), act))
      ensures host.heard <= Encode(Run(cfg, old(audio), StepOf(PerSecond(), act)).speech.written)
    {
      hide Run, FeedAll, Encode, SilenceSamples, SpeakAudio.WriteSilence;
      failed := false;
      match act
      case Say(fade, chunks) =>
        var ok := SpeakPiece(fade, chunks);
      case Wait(milliseconds) =>
        RunSilence(cfg, audio, SilenceSamples(PerSecond(), milliseconds));
        failed := WriteSilence(milliseconds);
    }

    /** Speak's loop over its plan. `through` when it came to the end of the plan, unstopped. */
    method RunPlan(acts: seq<Act>) returns (through: bool)
      requires Valid() && !aborted
      modifies this, host
      ensures bytesPerSec == old(bytesPerSec) && old(host.heard) <= host.heard
      ensures through ==> Valid() && !aborted && audio == RunAll(cfg, old(audio), StepsOf(PerSecond(), acts))
      ensures host.heard <= Encode(RunAll(cfg, old(audio), StepsOf(PerSecond(), acts)).speech.written)
    {
      hide Run, StepOf, Encode;
      ghost var n := PerSecond();
      ghost var goal := RunAll(cfg, audio, StepsOf(n, acts));
      assert acts[0..] == acts;
      for i := 0 to |acts|
        invariant Valid() && !aborted && old(host.heard) <= host.heard && bytesPerSec == old(bytesPerSec)
        invariant RunAll(cfg, audio, StepsOf(n, acts[i..])) == goal
      {
        NextStep(cfg, audio, n, acts, i);
        var stop := host.GetActions();
        if stop {
          HeardOnly(cfg, audio, StepsOf(n, acts[i..]));
          return false;
        }
        ghost var next := Run(cfg, audio, StepOf(n, acts[i]));
        var failed := RunAction(acts[i]);
        HeardOnly(cfg, next, StepsOf(n, acts[i + 1..]));
        if failed || aborted {
          return false;
        }
      }
      assert acts[|acts|..] == [];
      return true;
    }

    /** The audio of a whole Speak call, up to the comparison at its end: what is held is dropped, and
        the sum of what became of every byte is compared with what was received. */
    method Speak(acts: seq<Act>) returns (through: bool, even: bool)
      requires Valid() && audio == START && !aborted
      modifies this, host
      ensures through ==>
                quiet == [] && host.heard == Encode(RunAll(cfg, START, StepsOf(PerSecond(), acts)).speech.written)
      ensures through ==> (even <==> PausesFollowSpeech(cfg, StepsOf(PerSecond(), acts), [], []))
      ensures host.heard <= Encode(RunAll(cfg, START, StepsOf(PerSecond(), acts)).speech.written)
    {
      hide RunAll, PausesFollowSpeech, StepsOf, Encode;
      ghost var steps := StepsOf(PerSecond(), acts);
      through := RunPlan(acts);
      var trimmed := |quiet|;
      quiet := [];
      even := streamOffset - generated + leadTotal + trimmed + |partial| == received;
      if through {
        AccountingIsExactWhen(cfg, steps);
        EncodeLength(audio.speech.written);
        EncodeLength(audio.speech.quiet);
      }
    }
  }

  /** A feed's effect on the audio state, the part sample aside. */
  function WithSpeech(a: Audio, s: Speech): Audio
    requires a.speech.leadDropped <= s.leadDropped
  {
    a.(speech := s, leadTotal := a.leadTotal + s.leadDropped - a.speech.leadDropped)
  }

  function NoSound(n: nat): (zs: seq<byte>)
    ensures |zs| == n
  {
    seq(n, i => 0)
  }

  lemma {:induction false} PrefixIsFirstLoud(c: Config, xs: seq<sample>, n: nat)
    requires n <= |xs| && AllQuiet(c, xs[..n]) && (n < |xs| ==> Loud(c, xs[n]))
    ensures QuietPrefix(c, xs) == n
  {
  }

  lemma FeedNothing(c: Config, s: Speech)
    requires s.Valid()
    ensures FeedSamples(c, s, []) == s
  {
  }

  lemma LoudLengthTo(c: Config, xs: seq<sample>, i: nat)
    requires i <= |xs|
    ensures LoudLength(c, xs[..0]) == 0
    ensures i < |xs| ==> LoudLength(c, xs[..i + 1]) == if Loud(c, xs[i]) then i + 1 else LoudLength(c, xs[..i])
  {
    if i < |xs| {
      assert xs[..i + 1][..i] == xs[..i];
    }
  }

  lemma FadedNone(c: Config, total: nat, xs: seq<sample>)
    ensures Faded(c, total, 0, xs) == xs && Rest(0, |xs|) == 0
  {
  }

  lemma FedGrows(c: Config, s: Speech, xs: seq<sample>)
    requires s.Valid()
    ensures s.written <= FeedSamples(c, s, xs).written
  {
  }

  lemma {:induction false} WrittenGrows(c: Config, a: Audio, chunks: seq<seq<byte>>)
    requires a.Valid()
    ensures a.speech.written <= FeedAll(c, a, chunks).speech.written
    decreases |chunks|
  {
    if chunks != [] {
      var joined := a.partial + chunks[0];
      FedGrows(c, a.speech, Decode(joined[..Whole(|joined|)]));
      WrittenGrows(c, Feed(c, a, chunks[0]), chunks[1..]);
    }
  }

  /** Whole samples: half the bytes, the odd one left off. */
  method SilenceLength(perSec: nat, milliseconds: nat) returns (samples: nat)
    ensures samples == SilenceSamples(perSec, milliseconds)
  {
    var remaining := perSec * milliseconds / 1000;
    remaining := remaining - remaining % 2;
    samples := remaining / 2;
  }

  lemma SilenceEncoded(written: seq<sample>, n: nat)
    ensures Encode(written + Zeros(n)) == Encode(written) + NoSound(2 * n)
  {
  }

  lemma EncodePrefix(xs: seq<sample>, ys: seq<sample>)
    requires xs <= ys
    ensures Encode(xs) <= Encode(ys)
  {
  }

  lemma RunSilence(c: Config, a: Audio, n: nat)
    requires a.Valid()
    ensures Run(c, a, Silence(n)) == WriteSilence(a, n)
  {
  }

  lemma EncodeLength(xs: seq<sample>)
    ensures |Encode(xs)| == 2 * |xs|
  {
  }

  lemma WholeSamples(xs: seq<sample>)
    ensures |Encode(xs)| % 2 == 0
  {
    EncodeLength(xs);
  }

  lemma NextStep(c: Config, a: Audio, perSec: nat, acts: seq<Act>, i: nat)
    requires i < |acts| && a.Valid()
    ensures RunAll(c, a, StepsOf(perSec, acts[i..]))
            == RunAll(c, Run(c, a, StepOf(perSec, acts[i])), StepsOf(perSec, acts[i + 1..]))
  {
    hide Run, StepOf;
    assert acts[i..][0] == acts[i] && acts[i..][1..] == acts[i + 1..];
    assert StepsOf(perSec, acts[i..])[1..] == StepsOf(perSec, acts[i + 1..]);
  }

  lemma {:induction false} RunGrows(c: Config, a: Audio, steps: seq<Step>)
    requires a.Valid()
    ensures a.speech.written <= RunAll(c, a, steps).speech.written
    decreases |steps|
  {
    hide FeedAll;
    if steps != [] {
      if steps[0].Piece? {
        WrittenGrows(c, Begin(a, steps[0].fade), steps[0].chunks);
      }
      RunGrows(c, Run(c, a, steps[0]), steps[1..]);
    }
  }

  lemma HeardOnly(c: Config, a: Audio, steps: seq<Step>)
    requires a.Valid()
    ensures Encode(a.speech.written) <= Encode(RunAll(c, a, steps).speech.written)
  {
    RunGrows(c, a, steps);
    EncodePrefix(a.speech.written, RunAll(c, a, steps).speech.written);
  }
}
