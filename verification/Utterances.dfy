/** The worker's engine thread, one job after another: which voice and which settings everything is
    spoken under, given that a control tag changes the engine for good. */
module Utterances {
  import opened Chars
  import opened Seqs
  import opened Tags
  import opened Runs

  /** A setting of the engine: the selected voice's own, or what a tag last made it. */
  datatype Value = Own | Told(tag: string)

  datatype Values = Values(pitch: Value, rate: Value, volume: Value, voiceParams: Value)

  const OWN_VALUES: Values := Values(Own, Own, Own, Own)

  predicate Resets(name: string) { SameName(name, "rst") }

  /** A tag sets what it has an effect on; \rst\ gives it back to the voice. */
  function Obey(v: Values, tag: string): Values {
    var fx := EffectsNamed(NameIn(tag));
    var to := if Resets(NameIn(tag)) then Own else Told(tag);
    Values(if Pitch in fx then to else v.pitch, if Rate in fx then to else v.rate,
           if Volume in fx then to else v.volume, if VoiceParams in fx then to else v.voiceParams)
  }

  /** A character and what it was spoken under. */
  datatype Uttered = Uttered(ch: char, voice: string, values: Values)

  /** What is heard of a text, and what the engine is left at. */
  function Utter(ps: seq<Piece>, voice: string, v: Values): (seq<Uttered>, Values) {
    if ps == [] then ([], v)
    else if ps[0].Plain? then
      var rest := Utter(ps[1..], voice, v);
      ([Uttered(ps[0].ch, voice, v)] + rest.0, rest.1)
    else
      Utter(ps[1..], voice, Obey(v, ps[0].tag))
  }

  // ------------------------------------------------------------------------------------------
  // The prologue
  // ------------------------------------------------------------------------------------------

  /** How the worker turns a voice and a SAPI step into a rate and into a \Pit= value. The limits come
      from the voice and the settings; the scaling is floating point and stays abstract. */
  datatype Scale = Scale(rateFor: (string, int) -> nat, pitchTagFor: (string, int) -> nat)

  function Level(volumePct: int): nat {
    var clamped := if volumePct < 0 then 0 else if volumePct > 100 then 100 else volumePct;
    (clamped * 0xFFFF + 50) / 100 % 0x1_0000
  }

  function NumberTag(name: string, n: nat): string { "\\" + name + "=" + Dec(n) + "\\" }

  /** Three numbers, as the prologue states them: words a minute, \Pit= value, and the level of both
      channels packed into one number. */
  datatype Stating = Stating(rate: nat, pitch: nat, stereo: nat)

  function StatingOf(w: Scale, voice: string, job: Job): Stating
    requires job.Speak?
  {
    Stating(w.rateFor(voice, job.rateStep), w.pitchTagFor(voice, job.pitchStep),
            Level(job.volumePct) * 0x1_0000 + Level(job.volumePct))
  }

  function FormatPrologue(p: Stating): string {
    NumberTag("Spd", p.rate) + NumberTag("Pit", p.pitch) + NumberTag("Vol", p.stereo)
  }

  lemma NumberTagIsTag(name: string, n: nat)
    requires '\\' !in name && '=' !in name
    ensures IsTag(NumberTag(name, n)) && NameIn(NumberTag(name, n)) == name
  {
    var t := NumberTag(name, n);
    forall k | 0 < k < |t| - 1 ensures t[k] != '\\' {
      if k > |name| + 1 {
        assert t[k] == Dec(n)[k - |name| - 2] && Digit(Dec(n)[k - |name| - 2]);
      } else if k <= |name| {
        assert t[k] == name[k - 1];
      }
    }
    var inner := t[1..|t| - 1];
    assert inner == name + "=" + Dec(n);
    UntilIs(inner, 0, {'='}, |name|);
    assert inner[..|name|] == name;
  }

  lemma SpecOf(name: string, k: nat)
    requires k < 3 && Lowered(name) == SPECS[k].name
    requires forall j | 0 <= j < k :: Lowered(name) != SPECS[j].name
    ensures EffectsNamed(name) == SPECS[k].effects
  {
    assert Lowered("pit") == "pit" && Lowered("spd") == "spd" && Lowered("vol") == "vol";
    assert SpecNamed(name, k) == k;
    if k > 0 {
      assert SpecNamed(name, 1) == k;
    }
  }

  lemma PrologueNames()
    ensures EffectsNamed("Spd") == {Rate} && EffectsNamed("Pit") == {Pitch} && EffectsNamed("Vol") == {Volume}
    ensures !Resets("Spd") && !Resets("Pit") && !Resets("Vol")
  {
    hide EffectsNamed;
    assert Lowered("Pit") == "pit" && Lowered("Spd") == "spd" && Lowered("Vol") == "vol";
    SpecOf("Pit", 0);
    SpecOf("Spd", 1);
    SpecOf("Vol", 2);
    assert Lowered("rst")[0] == 'r';
  }

  /** The prologue's own values of rate, pitch and volume, and the voice parameters as they were. */
  function Stated(v: Values, p: Stating): Values {
    Values(Told(NumberTag("Pit", p.pitch)), Told(NumberTag("Spd", p.rate)), Told(NumberTag("Vol", p.stereo)),
           v.voiceParams)
  }

  lemma ObeyStates(v: Values, p: Stating)
    ensures Obey(Obey(Obey(v, NumberTag("Spd", p.rate)), NumberTag("Pit", p.pitch)), NumberTag("Vol", p.stereo))
              == Stated(v, p)
  {
    hide EffectsNamed, Resets, NumberTag, NameIn;
    PrologueNames();
    NumberTagIsTag("Spd", p.rate);
    NumberTagIsTag("Pit", p.pitch);
    NumberTagIsTag("Vol", p.stereo);
  }

  function PrologueTags(p: Stating): seq<Piece> {
    [Control(NumberTag("Spd", p.rate)), Control(NumberTag("Pit", p.pitch)), Control(NumberTag("Vol", p.stereo))]
  }

  lemma ParsePrologue(p: Stating, text: string)
    ensures Parse(FormatPrologue(p) + text) == PrologueTags(p) + Parse(text)
  {
    hide Parse, NumberTag, NameIn, IsTag;
    var spd, pit, vol := NumberTag("Spd", p.rate), NumberTag("Pit", p.pitch), NumberTag("Vol", p.stereo);
    NumberTagIsTag("Spd", p.rate);
    NumberTagIsTag("Pit", p.pitch);
    NumberTagIsTag("Vol", p.stereo);
    Assoc(spd + pit, vol, text);
    Assoc(spd, pit, vol + text);
    ParseTag(spd, pit + (vol + text));
    ParseTag(pit, vol + text);
    ParseTag(vol, text);
  }

  lemma UtterControl(tag: string, rest: seq<Piece>, voice: string, v: Values)
    ensures Utter([Control(tag)] + rest, voice, v) == Utter(rest, voice, Obey(v, tag))
  {
  }

  /** Whatever the engine was left at, the prologue is silent and states the three values it is for. */
  lemma PrologueStates(p: Stating, rest: seq<Piece>, voice: string, v: Values)
    ensures Utter(PrologueTags(p) + rest, voice, v) == Utter(rest, voice, Stated(v, p))
  {
    hide Utter, Obey, NumberTag, Stated;
    var spd, pit := Control(NumberTag("Spd", p.rate)), Control(NumberTag("Pit", p.pitch));
    var vol := Control(NumberTag("Vol", p.stereo));
    assert PrologueTags(p) + rest == [spd] + ([pit] + ([vol] + rest));
    UtterControl(spd.tag, [pit] + ([vol] + rest), voice, v);
    UtterControl(pit.tag, [vol] + rest, voice, Obey(v, spd.tag));
    UtterControl(vol.tag, rest, voice, Obey(Obey(v, spd.tag), pit.tag));
    ObeyStates(v, p);
  }

  // ------------------------------------------------------------------------------------------
  // Jobs
  // ------------------------------------------------------------------------------------------

  datatype Job =
    | Speak(mode: string, text: string, rateStep: int, pitchStep: int, volumePct: int)
    | Phonemes(mode: string, text: string)
    | ListVoices

  /** What select() does: the voice, fresh; or nothing, for an id it cannot read; or no voice at all. */
  datatype Selecting = Selected | BadId | Lost

  /** What reading the voice files again does: nothing; a new table, with no voice selected; or an
      engine that does not come back. */
  datatype Rereading = Kept | Renewed | Broken

  /** Everything outside the worker's hands in one job. The engine obeys and speaks a text only as far
      as `heard` pieces when a cancellation or the deadline cuts it short, and on a second attempt as far
      as `heardAgain`. */
  datatype Chance = Chance(atStart: Rereading, ready: bool, first: Selecting, reread: Rereading, second: Selecting,
                           formatSent: bool, heard: nat, silent: bool, recycled: bool, heardAgain: nat,
                           reselected: bool)

  /** `selected` is "" when no voice is. */
  datatype State = State(selected: string, values: Values)

  const NO_SELECTION: State := State("", OWN_VALUES)

  /** What every job may rely on: the voice parameters are the selected voice's own. */
  predicate Clean(s: State) { s.values.voiceParams == Own }

  function Select(s: State, mode: string, outcome: Selecting): State {
    match outcome
    case Selected => State(mode, OWN_VALUES)
    case BadId => s
    case Lost => NO_SELECTION
  }

  /** Selecting again an id that was good before. */
  function Reselect(s: State, good: bool): State { if good then State(s.selected, OWN_VALUES) else NO_SELECTION }

  datatype Outcome = Outcome(state: State, spoke: bool, uttered: seq<Uttered>)

  function Failed(s: State): Outcome { Outcome(s, false, []) }

  /** The voice for the job, tried again on a freshly read table; false if it cannot be had. */
  function Choose(s: State, mode: string, c: Chance): (State, bool) {
    if mode == "" || mode == s.selected then (s, true)
    else if c.first == Selected then (State(mode, OWN_VALUES), true)
    else
      match c.reread
      case Kept => (Select(s, mode, c.first), false)
      case Renewed => (Select(NO_SELECTION, mode, c.second), c.second == Selected)
      case Broken => (NO_SELECTION, false)
  }

  function RunJob(w: Scale, s: State, job: Job, c: Chance): Outcome {
    var s0 := if c.atStart == Kept then s else NO_SELECTION;
    if job.ListVoices? || !c.ready then Failed(s0)
    else
      var (s1, ok) := Choose(s0, job.mode, c);
      if !ok || !c.formatSent || s1.selected == "" then Failed(s1)
      else if job.Phonemes? then RunPhonemes(s1, job, c)
      else RunSpeak(w, s1, job, c)
  }

  function Cut<T>(xs: seq<T>, n: nat): seq<T> { if n < |xs| then xs[..n] else xs }

  /** Phonemes go to the engine untagged and with no prologue. */
  function PlainText(text: string): seq<Piece> {
    seq(|text|, i requires 0 <= i < |text| => Plain(text[i]))
  }

  function RunPhonemes(s: State, job: Job, c: Chance): Outcome
    requires job.Phonemes?
  {
    var r := Utter(Cut(PlainText(job.text), c.heard), s.selected, s.values);
    Outcome(s.(values := r.1), true, r.0)
  }

  function Tagged(w: Scale, voice: string, job: Job): string
    requires job.Speak?
  {
    FormatPrologue(StatingOf(w, voice, job)) + job.text
  }

  function RunSpeak(w: Scale, s: State, job: Job, c: Chance): Outcome
    requires job.Speak?
  {
    var tagged := Parse(Tagged(w, s.selected, job));
    var first := Utter(Cut(tagged, c.heard), s.selected, s.values);
    var s1 := s.(values := first.1);
    var recycle := c.silent && HasPiece(Parse(job.text), SaysSomething);
    var s2 := if recycle then Reselect(s1, c.recycled) else s1;
    var retry := Utter(Cut(tagged, c.heardAgain), s.selected, s2.values);
    var s3 := if recycle && c.recycled then s2.(values := retry.1) else s2;
    var uttered := if !c.silent then first.0 else if recycle && c.recycled then retry.0 else [];
    var reselect := HasPiece(Parse(job.text), ChangesVoice) && s3.selected != "";
    Outcome(if reselect then Reselect(s3, c.reselected) else s3, true, uttered)
  }

  /** What a request means: its own text, spoken by `voice` at the request's own rate, pitch and volume
      and with that voice's own parameters. */
  function Meant(w: Scale, voice: string, job: Job): seq<Uttered>
    requires job.Speak?
  {
    Utter(Parse(job.text), voice, Stated(OWN_VALUES, StatingOf(w, voice, job))).0
  }

  // ------------------------------------------------------------------------------------------
  // The engine thread's own steps
  // ------------------------------------------------------------------------------------------

  /** The engine thread and its engine. What the engine and the files do is in a job's `Chance`. */
  class Worker {
    const scale: Scale
    var selected: string
    var values: Values

    constructor (scale: Scale)
      ensures this.scale == scale && Now() == NO_SELECTION
    {
      this.scale := scale;
      selected := "";
      values := OWN_VALUES;
    }

    function Now(): State
      reads this
    {
      State(selected, values)
    }

    method Refresh(r: Rereading)
      modifies this
      ensures Now() == if r == Kept then old(Now()) else NO_SELECTION
    {
      if r != Kept {
        selected, values := "", OWN_VALUES;
      }
    }

    method SelectVoice(mode: string, outcome: Selecting) returns (ok: bool)
      modifies this
      ensures Now() == Select(old(Now()), mode, outcome) && (ok <==> outcome == Selected)
    {
      if outcome == BadId {
        return false;
      }
      selected, values := "", OWN_VALUES;
      if outcome == Lost {
        return false;
      }
      selected := mode;
      return true;
    }

    /** What the engine makes of a text, as far as it gets. */
    method TextData(pieces: seq<Piece>, heard: nat) returns (uttered: seq<Uttered>)
      modifies this`values
      ensures var r := Utter(Cut(pieces, heard), selected, old(values)); uttered == r.0 && values == r.1
    {
      var r := Utter(Cut(pieces, heard), selected, values);
      uttered, values := r.0, r.1;
    }

    method ChooseVoice(mode: string, c: Chance) returns (ok: bool)
      modifies this
      ensures (Now(), ok) == Choose(old(Now()), mode, c)
    {
      if mode == "" || mode == selected {
        return true;
      }
      ok := SelectVoice(mode, c.first);
      if !ok {
        Refresh(c.reread);
        if c.reread != Renewed {
          return false;
        }
        ok := SelectVoice(mode, c.second);
      }
    }

    method SpeakTagged(job: Job, c: Chance) returns (uttered: seq<Uttered>)
      requires job.Speak?
      modifies this
      ensures Outcome(Now(), true, uttered) == RunSpeak(scale, old(Now()), job, c)
    {
      hide Parse, Utter, HasPiece, FormatPrologue;
      var tagged := Tagged(scale, selected, job);
      var heard := TextData(Parse(tagged), c.heard);
      uttered := if c.silent then [] else heard;
      var wants := WantsAudio(job.text);
      if c.silent && wants {
        var ok := SelectVoice(selected, if c.recycled then Selected else Lost);
        if ok {
          uttered := TextData(Parse(tagged), c.heardAgain);
        }
      }
      var changes := ChangesVoiceIn(job.text);
      if changes && selected != "" {
        var _ := SelectVoice(selected, if c.reselected then Selected else Lost);
      }
    }

    /** run_job. */
    method Run(job: Job, c: Chance) returns (spoke: bool, uttered: seq<Uttered>)
      modifies this
      ensures Outcome(Now(), spoke, uttered) == RunJob(scale, old(Now()), job, c)
    {
      hide RunSpeak, Utter;
      Refresh(c.atStart);
      if job.ListVoices? || !c.ready {
        return false, [];
      }
      var ok := ChooseVoice(job.mode, c);
      if !ok || !c.formatSent || selected == "" {
        return false, [];
      }
      spoke := true;
      if job.Phonemes? {
        uttered := TextData(PlainText(job.text), c.heard);
      } else {
        uttered := SpeakTagged(job, c);
      }
    }
  }

  // ------------------------------------------------------------------------------------------
  // Nothing leaks
  // ------------------------------------------------------------------------------------------

  /** Only \rst\ and a voice tag have an effect on the voice parameters. */
  lemma ParamsByName(name: string)
    ensures VoiceParams in EffectsNamed(name) ==> Resets(name) || SameName(name, "vce")
  {
    hide SpecNamed, SameName;
    var k := SpecNamed(name, 0);
    if k < |SPECS| && VoiceParams in EffectsNamed(name) {
      ParamsSpecs(k);
    }
  }

  lemma ParamsSpecs(k: nat)
    requires k < |SPECS| && (SPECS[k].kind == Voice || VoiceParams in SPECS[k].effects)
    ensures SPECS[k].name == "rst" || SPECS[k].name == "vce"
  {
  }

  lemma {:induction false} OnlyVoiceTagsChangeVoice(ps: seq<Piece>, voice: string, v: Values)
    requires v.voiceParams == Own && !HasPiece(ps, ChangesVoice)
    ensures Utter(ps, voice, v).1.voiceParams == Own
  {
    hide EffectsNamed, Resets, SameName, NameOf;
    if ps != [] {
      if ps[0].Control? {
        ParamsByName(NameIn(ps[0].tag));
        NoNameNoVoice();
        OnlyVoiceTagsChangeVoice(ps[1..], voice, Obey(v, ps[0].tag));
      } else {
        OnlyVoiceTagsChangeVoice(ps[1..], voice, v);
      }
    }
  }

  lemma NoNameNoVoice()
    ensures !SameName("", "vce")
  {
  }

  lemma {:induction false} CutHasNoMore(ps: seq<Piece>, n: nat, holds: Piece -> bool)
    requires !HasPiece(ps, holds)
    ensures !HasPiece(Cut(ps, n), holds)
  {
    HasPieceIs(ps, holds);
    HasPieceIs(Cut(ps, n), holds);
  }

  lemma NotInFront(p: Piece, rest: seq<Piece>, holds: Piece -> bool)
    requires !holds(p) && !HasPiece(rest, holds)
    ensures !HasPiece([p] + rest, holds)
  {
  }

  lemma PrologueHasNoVoice(p: Stating, rest: seq<Piece>)
    requires !HasPiece(rest, ChangesVoice)
    ensures !HasPiece(PrologueTags(p) + rest, ChangesVoice)
  {
    hide NumberTag, SameName, NameOf, HasPiece;
    var spd, pit := Control(NumberTag("Spd", p.rate)), Control(NumberTag("Pit", p.pitch));
    var vol := Control(NumberTag("Vol", p.stereo));
    NumberTagIsTag("Spd", p.rate);
    NumberTagIsTag("Pit", p.pitch);
    NumberTagIsTag("Vol", p.stereo);
    NotVoiceNames();
    NotInFront(vol, rest, ChangesVoice);
    NotInFront(pit, [vol] + rest, ChangesVoice);
    NotInFront(spd, [pit] + ([vol] + rest), ChangesVoice);
    assert PrologueTags(p) + rest == [spd] + ([pit] + ([vol] + rest));
  }

  lemma NotVoiceNames()
    ensures !SameName("Spd", "vce") && !SameName("Pit", "vce") && !SameName("Vol", "vce")
  {
    assert Lowered("Spd")[0] == 's' && Lowered("Pit")[0] == 'p' && Lowered("Vol")[1] == 'o';
    assert Lowered("vce")[0] == 'v' && Lowered("vce")[1] == 'c';
  }

  /** A text that leaves no voice tag leaves the voice's own parameters, however far it got. */
  lemma PlainJobKeepsVoice(w: Scale, voice: string, job: Job, n: nat, v: Values)
    requires job.Speak? && v.voiceParams == Own && !HasPiece(Parse(job.text), ChangesVoice)
    ensures Utter(Cut(Parse(Tagged(w, voice, job)), n), voice, v).1.voiceParams == Own
  {
    hide Parse, Utter, HasPiece, FormatPrologue, PrologueTags, Cut;
    var p := StatingOf(w, voice, job);
    ParsePrologue(p, job.text);
    PrologueHasNoVoice(p, Parse(job.text));
    CutHasNoMore(PrologueTags(p) + Parse(job.text), n, ChangesVoice);
    OnlyVoiceTagsChangeVoice(Cut(PrologueTags(p) + Parse(job.text), n), voice, v);
  }

  lemma SpeakStaysClean(w: Scale, s: State, job: Job, c: Chance)
    requires job.Speak? && Clean(s) && s.selected != ""
    ensures Clean(RunSpeak(w, s, job, c).state)
  {
    hide Parse, Utter, HasPiece, FormatPrologue, Tagged, Cut;
    if !HasPiece(Parse(job.text), ChangesVoice) {
      PlainJobKeepsVoice(w, s.selected, job, c.heard, s.values);
      PlainJobKeepsVoice(w, s.selected, job, c.heardAgain, OWN_VALUES);
    }
  }

  lemma {:induction false} NoControls(ps: seq<Piece>, voice: string, v: Values)
    requires forall i | 0 <= i < |ps| :: ps[i].Plain?
    ensures Utter(ps, voice, v).1 == v && |Utter(ps, voice, v).0| == |ps|
    ensures forall i | 0 <= i < |ps| :: Utter(ps, voice, v).0[i] == Uttered(ps[i].ch, voice, v)
  {
    if ps != [] {
      NoControls(ps[1..], voice, v);
    }
  }

  /** The selected voice's own parameters are back in place at the end of every job, whatever its text
      did, however far it got and whatever went wrong on the way. */
  lemma StaysClean(w: Scale, s: State, job: Job, c: Chance)
    requires Clean(s)
    ensures Clean(RunJob(w, s, job, c).state)
  {
    hide Parse, RunSpeak, Utter;
    var s0 := if c.atStart == Kept then s else NO_SELECTION;
    if !job.ListVoices? && c.ready {
      var (s1, ok) := Choose(s0, job.mode, c);
      if job.Phonemes? {
        NoControls(Cut(PlainText(job.text), c.heard), s1.selected, s1.values);
      } else if s1.selected != "" {
        SpeakStaysClean(w, s1, job, c);
      }
    }
  }

  lemma {:induction false} CutUtters(ps: seq<Piece>, n: nat, voice: string, v: Values)
    ensures Utter(Cut(ps, n), voice, v).0 <= Utter(ps, voice, v).0
  {
    if 0 < n < |ps| {
      assert Cut(ps, n)[1..] == Cut(ps[1..], n - 1);
      CutUtters(ps[1..], n - 1, voice, if ps[0].Plain? then v else Obey(v, ps[0].tag));
    }
  }

  lemma AttemptMeans(w: Scale, voice: string, job: Job, n: nat, v: Values)
    requires job.Speak? && v.voiceParams == Own
    ensures Utter(Cut(Parse(Tagged(w, voice, job)), n), voice, v).0 <= Meant(w, voice, job)
    ensures n >= |Tagged(w, voice, job)| ==>
              Utter(Cut(Parse(Tagged(w, voice, job)), n), voice, v).0 == Meant(w, voice, job)
  {
    hide Parse, Utter, FormatPrologue, PrologueTags;
    var p := StatingOf(w, voice, job);
    ParsePrologue(p, job.text);
    PrologueStates(p, Parse(job.text), voice, v);
    CutUtters(Parse(Tagged(w, voice, job)), n, voice, v);
    ParseNoLonger(Tagged(w, voice, job));
  }

  lemma {:induction false} ParseNoLonger(s: string)
    ensures |Parse(s)| <= |s|
    decreases |s|
  {
    if s != "" {
      if s[0] != '\\' {
        ParseNoLonger(s[1..]);
      } else if |s| > 1 && s[1] == '\\' {
        ParseNoLonger(s[2..]);
      } else if Until(s, 1, {'\\'}) < |s| {
        ParseNoLonger(s[Until(s, 1, {'\\'}) + 1..]);
      }
    }
  }

  /** The voice a request is for: the one it names, or whichever is selected. */
  function VoiceOf(s: State, job: Job): string
    requires !job.ListVoices?
  {
    if job.mode == "" then s.selected else job.mode
  }

  /** Whether anything cut the job short. */
  predicate HeardOut(w: Scale, s: State, job: Job, c: Chance)
    requires job.Speak?
  {
    var all := |Tagged(w, VoiceOf(s, job), job)|;
    if c.silent then HasPiece(Parse(job.text), SaysSomething) && c.recycled && c.heardAgain >= all else c.heard >= all
  }

  lemma SpeakMeans(w: Scale, s: State, job: Job, c: Chance)
    requires job.Speak? && Clean(s) && VoiceOf(s, job) == s.selected
    ensures RunSpeak(w, s, job, c).uttered <= Meant(w, s.selected, job)
    ensures HeardOut(w, s, job, c) ==> RunSpeak(w, s, job, c).uttered == Meant(w, s.selected, job)
  {
    hide Parse, Utter, HasPiece, Meant, Tagged, Cut;
    AttemptMeans(w, s.selected, job, c.heard, s.values);
    AttemptMeans(w, s.selected, job, c.heardAgain, OWN_VALUES);
  }

  /** No leak, one job: from any state jobs can leave behind, what is spoken of a request is what the
      request means, and all of it unless it was cut short. */
  lemma NoLeak(w: Scale, s: State, job: Job, c: Chance)
    requires Clean(s) && job.Speak? && RunJob(w, s, job, c).spoke
    ensures RunJob(w, s, job, c).uttered <= Meant(w, VoiceOf(s, job), job)
    ensures HeardOut(w, s, job, c) ==> RunJob(w, s, job, c).uttered == Meant(w, VoiceOf(s, job), job)
  {
    hide RunSpeak, Meant, HeardOut;
    var s0 := if c.atStart == Kept then s else NO_SELECTION;
    var (s1, ok) := Choose(s0, job.mode, c);
    SpeakMeans(w, s1, job, c);
    HeardOutDepends(w, s, s1, job, c);
  }

  lemma HeardOutDepends(w: Scale, s: State, t: State, job: Job, c: Chance)
    requires job.Speak? && VoiceOf(s, job) == VoiceOf(t, job)
    ensures HeardOut(w, s, job, c) == HeardOut(w, t, job, c)
  {
  }

  /** The state before each job of a run, started with no voice selected. */
  function Before(w: Scale, jobs: seq<(Job, Chance)>): State {
    if jobs == [] then NO_SELECTION
    else RunJob(w, Before(w, jobs[..|jobs| - 1]), jobs[|jobs| - 1].0, jobs[|jobs| - 1].1).state
  }

  lemma {:induction false} EveryJobStartsClean(w: Scale, jobs: seq<(Job, Chance)>)
    ensures Clean(Before(w, jobs))
  {
    if jobs != [] {
      var n := |jobs| - 1;
      EveryJobStartsClean(w, jobs[..n]);
      StaysClean(w, Before(w, jobs[..n]), jobs[n].0, jobs[n].1);
    }
  }

  /** No leak between utterances: after any two histories at all, a request that names its voice and is
      heard out is spoken the same. */
  lemma NoLeakBetweenUtterances(w: Scale, one: seq<(Job, Chance)>, other: seq<(Job, Chance)>, job: Job, c: Chance,
                                d: Chance)
    requires job.Speak? && job.mode != ""
    requires RunJob(w, Before(w, one), job, c).spoke && HeardOut(w, Before(w, one), job, c)
    requires RunJob(w, Before(w, other), job, d).spoke && HeardOut(w, Before(w, other), job, d)
    ensures RunJob(w, Before(w, one), job, c).uttered
              == RunJob(w, Before(w, other), job, d).uttered == Meant(w, job.mode, job)
  {
    hide RunJob, Meant, HeardOut;
    EveryJobStartsClean(w, one);
    EveryJobStartsClean(w, other);
    NoLeak(w, Before(w, one), job, c);
    NoLeak(w, Before(w, other), job, d);
  }

  // ------------------------------------------------------------------------------------------
  // Phonemes have no prologue
  // ------------------------------------------------------------------------------------------

  /** Whether the job selects its voice afresh. */
  predicate SelectsAfresh(s: State, job: Job, c: Chance)
    requires !job.ListVoices?
  {
    c.atStart != Kept || (job.mode != "" && job.mode != s.selected)
  }

  /** Phonemes are spoken under the voice's own settings exactly when the voice is selected afresh or
      nothing had changed them. */
  lemma PhonemesOwnWhen(w: Scale, s: State, job: Job, c: Chance)
    requires job.Phonemes? && job.text != "" && c.heard > 0 && RunJob(w, s, job, c).spoke
    ensures (forall u <- RunJob(w, s, job, c).uttered :: u.values == OWN_VALUES) <==>
            SelectsAfresh(s, job, c) || s.values == OWN_VALUES
  {
    hide RunSpeak, Utter;
    var s0 := if c.atStart == Kept then s else NO_SELECTION;
    var (s1, ok) := Choose(s0, job.mode, c);
    var ps := Cut(PlainText(job.text), c.heard);
    NoControls(ps, s1.selected, s1.values);
    assert Utter(ps, s1.selected, s1.values).0[0] == Uttered(ps[0].ch, s1.selected, s1.values);
  }

  /** And they are spoken as they stand, backslashes and all, up to where the client gives up, by the voice
      that is selected then. */
  lemma PhonemesAreSpoken(w: Scale, s: State, job: Job, c: Chance, i: nat)
    requires job.Phonemes? && RunJob(w, s, job, c).spoke && i < |job.text| && i < c.heard
    ensures var r := RunJob(w, s, job, c);
            && |r.uttered| == (if c.heard < |job.text| then c.heard else |job.text|)
            && r.uttered[i].ch == job.text[i] && r.uttered[i].voice == r.state.selected
            && (job.mode != "" ==> r.state.selected == job.mode)
  {
    hide RunSpeak, Utter;
    var s0 := if c.atStart == Kept then s else NO_SELECTION;
    var (s1, ok) := Choose(s0, job.mode, c);
    NoControls(Cut(PlainText(job.text), c.heard), s1.selected, s1.values);
  }

  /** So phonemes take up the rate of whatever text was spoken before them in the same voice. */
  lemma PhonemesTakeUpTheRate(w: Scale, s: State, before: Job, c: Chance, job: Job, d: Chance)
    requires Clean(s) && before.Speak? && before.mode != "" && '\\' !in before.text
    requires RunJob(w, s, before, c).spoke && !c.silent && c.heard >= |Tagged(w, before.mode, before)|
    requires job.Phonemes? && job.mode == before.mode && d.atStart == Kept && d.ready && d.formatSent
    ensures forall u <- RunJob(w, RunJob(w, s, before, c).state, job, d).uttered ::
              u.values.rate == Told(NumberTag("Spd", w.rateFor(before.mode, before.rateStep)))
  {
    hide RunSpeak, Utter, NumberTag;
    var s0 := if c.atStart == Kept then s else NO_SELECTION;
    var (s1, ok) := Choose(s0, before.mode, c);
    LeftStated(w, s1, before, c);
    var after := RunJob(w, s, before, c).state;
    NoControls(Cut(PlainText(job.text), d.heard), after.selected, after.values);
  }

  lemma {:induction false} ParsePlain(text: string)
    requires '\\' !in text
    ensures Parse(text) == PlainText(text)
  {
    if text != "" {
      ParsePlain(text[1..]);
    }
  }

  lemma LeftStated(w: Scale, s: State, job: Job, c: Chance)
    requires job.Speak? && '\\' !in job.text && !c.silent && c.heard >= |Tagged(w, s.selected, job)|
    ensures RunSpeak(w, s, job, c).state == State(s.selected, Stated(s.values, StatingOf(w, s.selected, job)))
  {
    hide Parse, FormatPrologue, PrologueTags, Stated, Utter;
    var p := StatingOf(w, s.selected, job);
    ParsePlain(job.text);
    ParsePrologue(p, job.text);
    PrologueStates(p, PlainText(job.text), s.selected, s.values);
    NoControls(PlainText(job.text), s.selected, Stated(s.values, p));
    ParseNoLonger(Tagged(w, s.selected, job));
    HasPieceIs(PlainText(job.text), ChangesVoice);
  }

  // ------------------------------------------------------------------------------------------
  // What a request asks for
  // ------------------------------------------------------------------------------------------

  /** A volume in per cent as the level of one channel: nothing at 0, all of 16 bits at 100, and the nearest
      whole number between. */
  ghost predicate LevelOf(pct: int, level: nat) {
    && (pct <= 0 ==> level == 0) && (pct >= 100 ==> level == 0xFFFF)
    && (0 <= pct <= 100 ==> -50 <= 0xFFFF * pct - 100 * level <= 50)
  }

  lemma LevelIsNearest(pct: int)
    ensures LevelOf(pct, Level(pct)) && Level(pct) <= 0xFFFF
  {
  }

  /** Text without tags is spoken as it stands, by the voice asked for: at the rate its rate step stands
      for, the pitch its pitch step stands for, and both channels at the level of its volume. */
  lemma PlainTextIsSpoken(w: Scale, voice: string, job: Job, i: nat)
    requires job.Speak? && '\\' !in job.text && i < |job.text|
    ensures var all := Meant(w, voice, job);
            && |all| == |job.text| && all[i].ch == job.text[i] && all[i].voice == voice
            && all[i].values.rate == Told("\\Spd=" + Dec(w.rateFor(voice, job.rateStep)) + "\\")
            && all[i].values.pitch == Told("\\Pit=" + Dec(w.pitchTagFor(voice, job.pitchStep)) + "\\")
            && all[i].values.voiceParams == Own
            && exists level: nat :: LevelOf(job.volumePct, level)
                 && all[i].values.volume == Told("\\Vol=" + Dec(level * 0x1_0000 + level) + "\\")
  {
    hide Parse, Utter, Dec, Level, LevelOf;
    ParsePlain(job.text);
    var v := Stated(OWN_VALUES, StatingOf(w, voice, job));
    NoControls(PlainText(job.text), voice, v);
    LevelIsNearest(job.volumePct);
    TagSpelling("Spd", w.rateFor(voice, job.rateStep));
    TagSpelling("Pit", w.pitchTagFor(voice, job.pitchStep));
    var level := Level(job.volumePct);
    TagSpelling("Vol", level * 0x1_0000 + level);
    assert LevelOf(job.volumePct, level);
  }

  lemma TagSpelling(name: string, n: nat)
    ensures NumberTag(name, n) == ("\\" + name + "=") + Dec(n) + "\\"
  {
  }

  /** Spoken from settings that agree in one of them, a text is spoken with settings that agree in it. */
  lemma {:induction false} UtteredAlike(ps: seq<Piece>, voice: string, v: Values, w: Values, i: nat)
    requires i < |Utter(ps, voice, v).0|
    ensures i < |Utter(ps, voice, w).0|
    ensures var x, y := Utter(ps, voice, v).0[i], Utter(ps, voice, w).0[i];
            && x.ch == y.ch && x.voice == y.voice
            && (v.rate == w.rate ==> x.values.rate == y.values.rate)
            && (v.pitch == w.pitch ==> x.values.pitch == y.values.pitch)
            && (v.volume == w.volume ==> x.values.volume == y.values.volume)
  {
    hide EffectsNamed, Resets, NameIn;
    if ps[0].Control? {
      UtteredAlike(ps[1..], voice, Obey(v, ps[0].tag), Obey(w, ps[0].tag), i);
    } else if i > 0 {
      UtteredAlike(ps[1..], voice, v, w, i - 1);
    }
  }

  /** The three steps of a request do not touch one another, whatever tags its text has: where two
      requests for the same text ask for the same rate, or pitch, or volume, they are spoken with it alike. */
  lemma StepsAreApart(w: Scale, voice: string, one: Job, other: Job, i: nat)
    requires one.Speak? && other.Speak? && one.text == other.text && i < |Meant(w, voice, one)|
    ensures i < |Meant(w, voice, other)|
    ensures var x, y := Meant(w, voice, one)[i], Meant(w, voice, other)[i];
            && x.ch == y.ch
            && (one.rateStep == other.rateStep ==> x.values.rate == y.values.rate)
            && (one.pitchStep == other.pitchStep ==> x.values.pitch == y.values.pitch)
            && (one.volumePct == other.volumePct ==> x.values.volume == y.values.volume)
  {
    hide Parse, Utter, NumberTag, Level;
    UtteredAlike(Parse(one.text), voice, Stated(OWN_VALUES, StatingOf(w, voice, one)),
                 Stated(OWN_VALUES, StatingOf(w, voice, other)), i);
  }

  /** Whether a job is spoken at all: the engine is ready, its format is known, and the voice is there:
      selected already, or selected now, or on a second try after the table was read again. */
  lemma SpokenWhen(w: Scale, s: State, job: Job, c: Chance)
    ensures var had := if c.atStart == Kept then s.selected else "";
            RunJob(w, s, job, c).spoke <==>
              && !job.ListVoices? && c.ready && c.formatSent
              && if job.mode == "" then had != ""
                 else job.mode == had || c.first == Selected || (c.reread == Renewed && c.second == Selected)
  {
    hide Utter, HasPiece, Parse, Tagged;
  }

  /** The voice left selected by a job that was spoken: its own, unless the engine was lost on the way. */
  lemma VoiceIsLeft(w: Scale, s: State, job: Job, c: Chance)
    requires !job.ListVoices? && RunJob(w, s, job, c).spoke
    ensures RunJob(w, s, job, c).state.selected in {VoiceOf(s, job), ""}
    ensures c.recycled && c.reselected ==> RunJob(w, s, job, c).state.selected == VoiceOf(s, job)
  {
    hide Utter, HasPiece, Parse, Tagged;
  }

  /** A job whose voice cannot be had says nothing. The voice selected before, with its settings, is left
      only when the id could not be read and the voice files had nothing new; otherwise there is none. */
  lemma NoVoiceIsLeft(w: Scale, s: State, job: Job, c: Chance)
    requires !job.ListVoices? && c.atStart == Kept && c.ready && job.mode !in {"", s.selected} && c.first != Selected
    requires c.reread == Renewed ==> c.second != Selected
    ensures var r := RunJob(w, s, job, c);
            && !r.spoke && r.uttered == []
            && if c.first == BadId && c.reread == Kept then r.state == s else r.state.selected == ""
  {
    hide Utter, HasPiece, Parse, Tagged;
  }
}
