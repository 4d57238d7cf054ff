/** The plan Speak makes of the application's fragments before anything is spoken. */
module Plan {
  import opened Wrappers
  import opened Chars
  import opened Seqs
  import opened Tags
  import opened Runs
  import opened Words
  import opened CarriedTags

  datatype Prosody = Prosody(rate: int, pitch: int, volume: int)

  datatype Act = Speak | SpellOut | Silence | Pronounce | Bookmark | Other

  datatype Fragment = Fragment(act: Act, text: string, offset: nat, rateAdj: int, pitchAdj: int,
                               volume: nat, silenceMs: nat)

  /** `voiceFor` answers a voice request for a text being spoken by some voice; "" is nobody. */
  datatype Config = Config(controlTags: bool, collapse: bool, baseRate: int, baseVolume: nat,
                           voiceFor: (VoiceRequest, string) -> string)

  const LONGEST_TAG_PAUSE_MS: nat := 60000

  function Clamp(v: int, lo: int, hi: int): int { if v < lo then lo else if v > hi then hi else v }

  function ProsodyOf(c: Config, f: Fragment): Prosody {
    Prosody(Clamp(c.baseRate + f.rateAdj, -10, 10), Clamp(f.pitchAdj, -10, 10),
            Clamp(c.baseVolume * f.volume / 100, 0, 100))
  }

  // ------------------------------------------------------------------------------------------
  // What is meant: no pieces, no restating
  // ------------------------------------------------------------------------------------------

  /** Something heard, in order: a character under a voice, a prosody and the tags in force; a
      bookmark; a tag that changes no setting; a silence; phonemes. */
  datatype Said =
    | Say(ch: char, origin: Origin, voice: string, prosody: Prosody, settings: Settings)
    | Passed(number: nat)
    | Control(tag: string)
    | Pause(milliseconds: nat)
    | Phonemes(text: string, voice: string, prosody: Prosody)

  /** What has been said so far; the names of the bookmarks; the voice and the tags in force; the
      prosody something was last said with. */
  datatype Intent = Intent(said: seq<Said>, names: seq<string>, voice: string, entries: seq<Entry>,
                           last: Option<Prosody>)

  function Changed(a: Prosody, b: Prosody): set<Effect> {
    (if a.rate != b.rate then {Rate} else {}) + (if a.pitch != b.pitch then {Pitch} else {})
    + (if a.volume != b.volume then {Volume} else {})
  }

  /** The application's prosody takes over from tags that set what it changes. */
  function Turn(i: Intent, p: Prosody): Intent {
    i.(entries := if i.last.Some? then Yielded(i.entries, Changed(i.last.value, p)) else i.entries, last := Some(p))
  }

  function CharsSaid(items: seq<Item>, voice: string, p: Prosody, s: Settings): seq<Said>
    requires forall k | 0 <= k < |items| :: items[k].Ch?
  {
    if items == [] then []
    else
      var last := items[|items| - 1];
      CharsSaid(items[..|items| - 1], voice, p, s) + [Say(last.ch, last.origin, voice, p, s)]
  }

  function SayItems(i: Intent, items: seq<Item>, p: Prosody): Intent
    requires forall k | 0 <= k < |items| :: items[k].Ch?
  {
    var j := Turn(i, p);
    j.(said := j.said + CharsSaid(items, j.voice, p, Force(j.entries)))
  }

  function SayTag(i: Intent, tag: string, effects: set<Effect>, p: Prosody): Intent {
    var j := Turn(i, p);
    j.(said := j.said + (if effects == {} then [Said.Control(tag)] else []), entries := Noted(j.entries, effects, tag))
  }

  function SayMark(i: Intent, name: string, p: Prosody): Intent {
    var j := Turn(i, p);
    j.(said := j.said + [Passed(|j.names| + 1)], names := j.names + [name])
  }

  function Spelled(text: string, offset: nat): (items: seq<Item>)
    ensures forall k | 0 <= k < |items| :: items[k].Ch?
    decreases |text|
  {
    if text == "" then []
    else TextItems(text[..1], offset, false, false) + [Ch(' ', NotFromSource)] + Spelled(text[1..], offset + 1)
  }

  function Chosen(c: Config, v: VoiceRequest, voice: string): string {
    if v.speaker == "" && v.language == "" then "" else c.voiceFor(v, voice)
  }

  function TakeVoice(c: Config, i: Intent, v: VoiceRequest): Intent {
    var chosen := Chosen(c, v, i.voice);
    if chosen == "" || SameName(chosen, i.voice) then i
    else i.(voice := chosen, entries := Forgotten(i.entries, {Pitch, VoiceParams}))
  }

  function Min(a: nat, b: nat): nat { if a < b then a else b }

  function SayToken(c: Config, i: Intent, f: Fragment, t: Token): Intent
    requires t.begin + t.length <= |f.text|
  {
    var p := ProsodyOf(c, f);
    match t.kind
    case Text => SayItems(i, TextItems(f.text[t.begin..t.begin + t.length], f.offset + t.begin, c.collapse, false), p)
    case Engine => SayTag(i, t.tag, t.effects, p)
    case Voice =>
      var j := TakeVoice(c, i, t.voice);
      if t.tag == "" then j else SayTag(j, t.tag, t.effects, p)
    case Bookmark => SayMark(i, t.value, p)
    case Pause => i.(said := i.said + [Said.Pause(Min(t.number, LONGEST_TAG_PAUSE_MS))])
  }

  function SayTokens(c: Config, i: Intent, f: Fragment, ts: seq<Token>): Intent
    requires forall k | 0 <= k < |ts| :: ts[k].begin + ts[k].length <= |f.text|
    decreases |ts|
  {
    if ts == [] then i else SayTokens(c, SayToken(c, i, f, ts[0]), f, ts[1..])
  }

  /** What a token hands on to the engine is a tag. */
  ghost predicate TagsWellFormed(t: Token) {
    && (t.kind == Engine ==> EngineTag(t.tag, t.effects))
    && (t.kind == Voice && t.tag != "" ==> EngineTag(t.tag, t.effects))
  }

  ghost predicate TokensFit(text: string) {
    forall t <- Scan(text) :: t.begin + t.length <= |text| && TagsWellFormed(t)
  }

  lemma ScanFits(text: string)
    ensures TokensFit(text)
  {
    hide ReadTag, ScanFrom;
    ScanTiles(text);
    TokensInside(text, 0, Scan(text), false);
  }

  lemma {:induction false} TokensInside(text: string, at: nat, ts: seq<Token>, after: bool)
    requires at <= |text| && IsScan(text, at, ts, after)
    ensures forall t <- ts :: t.begin + t.length <= |text| && TagsWellFormed(t)
    decreases |ts|
  {
    hide ReadTag, EngineTag, IsTag;
    if ts != [] {
      TokensInside(text, at + ts[0].length, ts[1..], ts[0].kind == Text);
      if ts[0].kind != Text {
        TagShape(text, at);
        EffectsAreHad(text, at);
        assert ts[0].kind == Engine ==> ts[0].tag != "";
      }
      assert ts == [ts[0]] + ts[1..];
    }
  }

  function SayFragment(c: Config, i: Intent, f: Fragment): Intent {
    var p := ProsodyOf(c, f);
    match f.act
    case Silence => i.(said := i.said + [Said.Pause(f.silenceMs)])
    case Pronounce => if f.text == "" then i else i.(said := i.said + [Said.Phonemes(f.text, i.voice, p)])
    case Bookmark => SayMark(i, f.text, p)
    case Other => i
    case Speak =>
      if f.text == "" then i
      else if !c.controlTags then SayItems(i, TextItems(f.text, f.offset, c.collapse, false), p)
      else
        ScanFits(f.text);
        SayTokens(c, i, f, Scan(f.text))
    case SpellOut => if f.text == "" then i else SayItems(i, Spelled(f.text, f.offset), p)
  }

  function SayAll(c: Config, i: Intent, fs: seq<Fragment>): Intent
    decreases |fs|
  {
    if fs == [] then i else SayAll(c, SayFragment(c, i, fs[0]), fs[1..])
  }

  // ------------------------------------------------------------------------------------------
  // What a plan says
  // ------------------------------------------------------------------------------------------

  datatype Run = Run(tagged: string, source: seq<Origin>, voice: string, prosody: Prosody)

  datatype Action = SpeakText(run: Run) | Silent(milliseconds: nat) | Phonetic(text: string, voice: string,
                                                                               prosody: Prosody)

  /** The tags among `items` that change settings. */
  function TagsIn(items: seq<Item>): seq<Entry> {
    if items == [] then []
    else
      var last := items[|items| - 1];
      TagsIn(items[..|items| - 1]) + if last.Tag? && last.effects != {} then [Entry(last.effects, last.text)] else []
  }

  function OneSays(item: Item, before: seq<Entry>, voice: string, p: Prosody): seq<Said> {
    match item
    case Ch(c, o) => [Say(c, o, voice, p, Force(before))]
    case Tag(t, effects) => if effects == {} then [Said.Control(t)] else []
    case Mark(n) => [Passed(n)]
  }

  /** A run is spoken by its voice after a prologue stating its prosody: each tag in it changes its
      settings for what follows in the run. */
  function RunSays(items: seq<Item>, voice: string, p: Prosody): seq<Said> {
    if items == [] then []
    else
      var front := items[..|items| - 1];
      RunSays(front, voice, p) + OneSays(items[|items| - 1], TagsIn(front), voice, p)
  }

  ghost predicate IsRun(run: Run, items: seq<Item>) {
    && run.tagged == Encode(items) && run.source == Sources(items)
    && forall k | 0 <= k < |items| :: items[k].Valid()
  }

  function ActionSays(a: Action, items: seq<Item>): seq<Said> {
    match a
    case SpeakText(run) => RunSays(items, run.voice, run.prosody)
    case Silent(ms) => [Said.Pause(ms)]
    case Phonetic(text, voice, p) => [Said.Phonemes(text, voice, p)]
  }

  ghost predicate IsPlan(plan: seq<Action>, items: seq<seq<Item>>) {
    |items| == |plan| && forall k | 0 <= k < |plan| && plan[k].SpeakText? :: IsRun(plan[k].run, items[k])
  }

  function PlanSays(plan: seq<Action>, items: seq<seq<Item>>): seq<Said>
    requires |items| == |plan|
  {
    if plan == [] then []
    else PlanSays(plan[..|plan| - 1], items[..|plan| - 1]) + ActionSays(plan[|plan| - 1], items[|plan| - 1])
  }

  lemma OneMore(items: seq<Item>, item: Item, voice: string, p: Prosody)
    ensures RunSays(items + [item], voice, p) == RunSays(items, voice, p) + OneSays(item, TagsIn(items), voice, p)
    ensures TagsIn(items + [item])
              == TagsIn(items) + if item.Tag? && item.effects != {} then [Entry(item.effects, item.text)] else []
  {
  }

  lemma {:induction false} MoreText(items: seq<Item>, text: seq<Item>, voice: string, p: Prosody)
    requires forall k | 0 <= k < |text| :: text[k].Ch?
    ensures RunSays(items + text, voice, p)
              == RunSays(items, voice, p) + CharsSaid(text, voice, p, Force(TagsIn(items)))
    ensures TagsIn(items + text) == TagsIn(items)
    decreases |text|
  {
    hide Force, RunSays, TagsIn;
    if text == [] {
      assert items + text == items;
    } else {
      var front, last := text[..|text| - 1], text[|text| - 1];
      MoreText(items, front, voice, p);
      OneMore(items + front, last, voice, p);
      Split(text, |text| - 1);
      assert text[|text| - 1..] == [last];
      Assoc(items, front, [last]);
      Assoc(RunSays(items, voice, p), CharsSaid(front, voice, p, Force(TagsIn(items))),
            OneSays(last, TagsIn(items), voice, p));
    }
  }

  lemma {:induction false} RestatedSaysNothing(es: seq<Entry>, voice: string, p: Prosody)
    requires forall e <- es :: e.effects != {}
    ensures RunSays(EntryItems(es), voice, p) == []
    ensures TagsIn(EntryItems(es)) == es
  {
    hide Force, RunSays, TagsIn;
    if es == [] {
      NothingSaid(voice, p);
    } else {
      var front, last := es[..|es| - 1], es[|es| - 1];
      RestatedSaysNothing(front, voice, p);
      OneMore(EntryItems(front), Tag(last.tag, last.effects), voice, p);
      assert EntryItems(es) == EntryItems(front) + [Tag(last.tag, last.effects)];
      assert es == front + [last];
    }
  }

  /** The settings of a run and the carried ones still agree after a tag has gone to both. */
  lemma NotedKeeps(es: seq<Entry>, inRun: seq<Entry>, effects: set<Effect>, tag: string)
    requires Force(inRun) == Force(es) && EngineTag(tag, effects)
    requires forall e <- es :: EngineTag(e.tag, e.effects) && e.effects != {}
    ensures Force(Noted(es, effects, tag)) == Force(inRun + if effects != {} then [Entry(effects, tag)] else [])
    ensures forall e <- Noted(es, effects, tag) :: EngineTag(e.tag, e.effects) && e.effects != {}
  {
    if effects == {} {
      assert inRun + [] == inRun;
    } else {
      NoteMeaning(es, effects, tag);
      ForceAppend(inRun, Entry(effects, tag));
      FilterIs(es, (e: Entry) => e.effects - effects != {});
    }
  }

  lemma {:induction false} CharsSaidConcat(a: seq<Item>, b: seq<Item>, voice: string, p: Prosody, s: Settings)
    requires (forall k | 0 <= k < |a| :: a[k].Ch?) && (forall k | 0 <= k < |b| :: b[k].Ch?)
    ensures CharsSaid(a + b, voice, p, s) == CharsSaid(a, voice, p, s) + CharsSaid(b, voice, p, s)
    decreases |b|
  {
    if b == [] {
      assert a + b == a;
    } else {
      assert (a + b)[..|a + b| - 1] == a + b[..|b| - 1];
      CharsSaidConcat(a, b[..|b| - 1], voice, p, s);
    }
  }

  lemma SaidTogether(i: Intent, a: seq<Item>, b: seq<Item>, p: Prosody)
    requires (forall k | 0 <= k < |a| :: a[k].Ch?) && (forall k | 0 <= k < |b| :: b[k].Ch?)
    ensures SayItems(SayItems(i, a, p), b, p) == SayItems(i, a + b, p)
  {
    var j := Turn(i, p);
    TurnAgain(SayItems(i, a, p), p);
    CharsSaidConcat(a, b, j.voice, p, Force(j.entries));
  }

  lemma SpelledNext(i: Intent, text: string, offset: nat, p: Prosody)
    requires text != ""
    ensures var j := SayItems(i, TextItems(text[..1], offset, false, false), p);
            j.last == Option.Some(p) &&
            SayItems(SayItems(j, [Ch(' ', NotFromSource)], p), Spelled(text[1..], offset + 1), p)
              == SayItems(i, Spelled(text, offset), p)
    ensures SayItems(SayItems(i, TextItems(text[..1], offset, false, false), p), [Ch(' ', NotFromSource)], p).last
              == Option.Some(p)
  {
    var first, space := TextItems(text[..1], offset, false, false), [Ch(' ', NotFromSource)];
    var rest := Spelled(text[1..], offset + 1);
    SaidTogether(i, first, space, p);
    SaidTogether(i, first + space, rest, p);
  }

  lemma NothingSaidYet(i: Intent, p: Prosody)
    requires i.last == Option.Some(p)
    ensures SayItems(i, [], p) == i
  {
    TurnAgain(i, p);
  }

  lemma TurnAgain(i: Intent, p: Prosody)
    requires i.last == Option.Some(p)
    ensures Turn(i, p) == i
  {
    YieldNothing(i.entries);
    assert Changed(p, p) == {};
  }

  lemma ForgottenAreEntries(es: seq<Entry>, gone: set<Effect>)
    ensures forall e <- Forgotten(es, gone) :: e in es
  {
    FilterIs(es, (e: Entry) => e.effects - gone != {});
  }

  lemma YieldedAreEntries(es: seq<Entry>, changed: set<Effect>)
    ensures forall e <- Yielded(es, changed) :: e in es
  {
    FilterIs(es, (e: Entry) => e.effects * changed == {});
  }

  lemma NothingSaid(voice: string, p: Prosody)
    ensures RunSays([], voice, p) == [] && TagsIn([]) == []
  {
  }

  lemma NothingSpelt(items: seq<Item>)
    requires Encode(items) == "" && forall k | 0 <= k < |items| :: items[k].Valid()
    ensures items == []
  {
  }

  lemma {:induction false} TagsHaveNoSource(items: seq<Item>)
    requires forall k | 0 <= k < |items| :: items[k].Tag?
    ensures Sources(items) == seq(|Encode(items)|, _ => NotFromSource)
  {
    if items != [] {
      TagsHaveNoSource(items[1..]);
    }
  }

  lemma Extended(plan: seq<Action>, items: seq<seq<Item>>, a: Action, more: seq<Item>)
    requires IsPlan(plan, items) && (a.SpeakText? ==> IsRun(a.run, more))
    ensures IsPlan(plan + [a], items + [more])
    ensures PlanSays(plan + [a], items + [more]) == PlanSays(plan, items) + ActionSays(a, more)
  {
  }
}
