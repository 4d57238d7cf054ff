/** What a fragment comes to, spelt out: which rate, pitch and volume it is spoken at, which of its
    characters, by which voice, and in how many pieces. */
module Fragments {
  import opened Wrappers
  import opened Seqs
  import opened Tags
  import opened Runs
  import opened Words
  import opened CarriedTags
  import opened Plan
  import opened PlanFacts
  import opened Drafts

  // ------------------------------------------------------------------------------------------
  // Rate, pitch and volume
  // ------------------------------------------------------------------------------------------

  /** `got` is `wanted` where that lies in lo..hi, and the nearer end where it does not. */
  ghost predicate Nearest(wanted: int, lo: int, hi: int, got: int) {
    && (lo <= wanted <= hi ==> got == wanted) && (wanted < lo ==> got == lo) && (wanted > hi ==> got == hi)
  }

  /** The fragment's own rate on top of the call's, its own pitch, and its share of the call's volume. */
  ghost predicate OwnProsody(c: Config, f: Fragment, p: Prosody) {
    && Nearest(c.baseRate + f.rateAdj, -10, 10, p.rate)
    && Nearest(f.pitchAdj, -10, 10, p.pitch)
    && Nearest(c.baseVolume * f.volume / 100, 0, 100, p.volume)
  }

  lemma ProsodyIsOwn(c: Config, f: Fragment)
    ensures OwnProsody(c, f, ProsodyOf(c, f))
  {
  }

  /** Heard at a rate, a pitch and a volume: characters and phonemes. */
  predicate HasProsody(x: Said) { x.Say? || x.Phonemes? }

  ghost predicate SaidUnder(c: Config, f: Fragment, x: Said) {
    && (HasProsody(x) ==> OwnProsody(c, f, x.prosody))
    && (x.Phonemes? ==> f.act == Pronounce && x.text == f.text)
  }

  /** Whatever is heard of a fragment is heard at that fragment's own rate, pitch and volume. */
  lemma FragmentIsOwn(c: Config, i: Intent, f: Fragment)
    ensures i.said <= SayFragment(c, i, f).said
    ensures forall x <- SayFragment(c, i, f).said[|i.said|..] :: SaidUnder(c, f, x)
  {
    hide SayFragment, ProsodyOf, OwnProsody;
    FragmentSaysItsOwn(c, i, f);
    ProsodyIsOwn(c, f);
    PhonemesAreOwn(c, i, f);
  }

  lemma PhonemesAreOwn(c: Config, i: Intent, f: Fragment)
    ensures i.said <= SayFragment(c, i, f).said
    ensures forall x <- SayFragment(c, i, f).said[|i.said|..] | x.Phonemes? ::
              f.act == Pronounce && x.text == f.text && x.prosody == ProsodyOf(c, f) && x.voice == i.voice
  {
    hide ProsodyOf, SayItems, SayTokens;
    var p := ProsodyOf(c, f);
    match f.act
    case Speak =>
      if f.text != "" && c.controlTags {
        ScanFits(f.text);
        TokensAdd(c, i, f, Scan(f.text));
        NoPhonemesInTokens(c, i, f, Scan(f.text));
      } else if f.text != "" {
        ItemsSaid(i, TextItems(f.text, f.offset, c.collapse, false), p);
      }
    case SpellOut => ItemsSaid(i, Spelled(f.text, f.offset), p);
    case _ =>
  }

  lemma ItemsSaid(i: Intent, items: seq<Item>, p: Prosody)
    requires forall k | 0 <= k < |items| :: items[k].Ch?
    ensures var j := SayItems(i, items, p);
            && i.said <= j.said && Letters(j.said[|i.said|..]) == items
            && (forall x <- j.said[|i.said|..] :: x.Say? && x.voice == i.voice)
  {
    var j := Turn(i, p);
    CharsAre(items, j.voice, p, Force(j.entries));
    assert (i.said + CharsSaid(items, j.voice, p, Force(j.entries)))[|i.said|..]
        == CharsSaid(items, j.voice, p, Force(j.entries));
  }

  /** The characters said, in order, and where each came from. */
  function Letters(said: seq<Said>): seq<Item> {
    if said == [] then []
    else
      var last := said[|said| - 1];
      Letters(said[..|said| - 1]) + if last.Say? then [Ch(last.ch, last.origin)] else []
  }

  lemma {:induction false} LettersConcat(a: seq<Said>, b: seq<Said>)
    ensures Letters(a + b) == Letters(a) + Letters(b)
    decreases |b|
  {
    if b == [] {
      assert a + b == a;
    } else {
      assert (a + b)[..|a + b| - 1] == a + b[..|b| - 1];
      LettersConcat(a, b[..|b| - 1]);
    }
  }

  lemma {:induction false} CharsAre(items: seq<Item>, voice: string, p: Prosody, s: Settings)
    requires forall k | 0 <= k < |items| :: items[k].Ch?
    ensures Letters(CharsSaid(items, voice, p, s)) == items
    ensures forall x <- CharsSaid(items, voice, p, s) :: x.Say? && x.voice == voice
  {
    if items != [] {
      CharsAre(items[..|items| - 1], voice, p, s);
      assert items == items[..|items| - 1] + [items[|items| - 1]];
    }
  }

  lemma {:induction false} NoPhonemesInTokens(c: Config, i: Intent, f: Fragment, ts: seq<Token>)
    requires forall k | 0 <= k < |ts| :: ts[k].begin + ts[k].length <= |f.text|
    ensures forall x <- SayTokens(c, Fresh(i), f, ts).said :: !x.Phonemes?
    decreases |ts|
  {
    hide SayToken;
    if ts != [] {
      NoPhonemesInToken(c, i, f, ts[0]);
      var j := SayToken(c, Fresh(i), f, ts[0]);
      NoPhonemesInTokens(c, j, f, ts[1..]);
      TokensAdd(c, j, f, ts[1..]);
    }
  }

  lemma NoPhonemesInToken(c: Config, i: Intent, f: Fragment, t: Token)
    requires t.begin + t.length <= |f.text|
    ensures forall x <- SayToken(c, Fresh(i), f, t).said :: !x.Phonemes?
  {
    hide SayItems, ProsodyOf, TextItems;
    if t.kind == Text {
      ItemsSaid(Fresh(i), TextItems(f.text[t.begin..t.begin + t.length], f.offset + t.begin, c.collapse, false),
                ProsodyOf(c, f));
    }
  }

  /** Over a whole call: everything heard is heard at the rate, pitch and volume of one of its fragments. */
  lemma {:induction false} AllAreOwn(c: Config, i: Intent, fs: seq<Fragment>)
    ensures i.said <= SayAll(c, i, fs).said
    ensures forall x <- SayAll(c, i, fs).said[|i.said|..] :: exists f <- fs :: SaidUnder(c, f, x)
    decreases |fs|
  {
    hide SayFragment, SaidUnder;
    if fs != [] {
      FragmentIsOwn(c, i, fs[0]);
      var j := SayFragment(c, i, fs[0]);
      AllAreOwn(c, j, fs[1..]);
      var all := SayAll(c, i, fs).said;
      forall x <- all[|i.said|..] ensures exists f <- fs :: SaidUnder(c, f, x) {
        var k :| 0 <= k < |all| - |i.said| && all[|i.said|..][k] == x;
        if |i.said| + k < |j.said| {
          assert j.said[|i.said|..][k] == x && fs[0] in fs;
        } else {
          var rest := SayAll(c, j, fs[1..]).said[|j.said|..];
          assert rest[|i.said| + k - |j.said|] == x && x in rest;
          var f :| f in fs[1..] && SaidUnder(c, f, x);
          assert f in fs;
        }
      }
    }
  }

  /** So is every run of the plan that has a character in it. */
  lemma RunsAreOwn(c: Config, i: Intent, fs: seq<Fragment>, plan: seq<Action>, items: seq<seq<Item>>, k: nat, n: nat)
    requires i.said == [] && IsPlan(plan, items) && PlanSays(plan, items) == SayAll(c, i, fs).said
    requires k < |plan| && plan[k].SpeakText? && n < |items[k]| && items[k][n].Ch?
    ensures exists f <- fs :: OwnProsody(c, f, plan[k].run.prosody)
  {
    hide SayAll, OwnProsody, RunSays;
    AllAreOwn(c, i, fs);
    var run := plan[k].run;
    var said := SayAll(c, i, fs).said;
    assert said[|i.said|..] == said;
    var x := CharIsSaid(items[k], n, run.voice, run.prosody);
    PlanSaysAll(plan, items, k, x);
    var f :| f in fs && SaidUnder(c, f, x);
    assert OwnProsody(c, f, run.prosody);
  }

  lemma {:induction false} CharIsSaid(items: seq<Item>, n: nat, voice: string, p: Prosody) returns (x: Said)
    requires n < |items| && items[n].Ch?
    ensures x in RunSays(items, voice, p) && x.Say? && x.prosody == p
  {
    var front := items[..|items| - 1];
    if n == |front| {
      x := Say(items[n].ch, items[n].origin, voice, p, Force(TagsIn(front)));
      assert x in OneSays(items[n], TagsIn(front), voice, p);
    } else {
      x := CharIsSaid(front, n, voice, p);
    }
  }

  lemma {:induction false} PlanSaysAll(plan: seq<Action>, items: seq<seq<Item>>, k: nat, x: Said)
    requires |items| == |plan| && k < |plan| && x in ActionSays(plan[k], items[k])
    ensures x in PlanSays(plan, items)
    decreases |plan|
  {
    if k < |plan| - 1 {
      PlanSaysAll(plan[..|plan| - 1], items[..|plan| - 1], k, x);
    }
  }

  // ------------------------------------------------------------------------------------------
  // All of the text
  // ------------------------------------------------------------------------------------------

  /** The characters a list of tokens has in it: those of its text, and nothing of its tags. */
  function LettersOf(c: Config, f: Fragment, ts: seq<Token>): seq<Item>
    requires forall k | 0 <= k < |ts| :: ts[k].begin + ts[k].length <= |f.text|
    decreases |ts|
  {
    if ts == [] then []
    else
      (if ts[0].kind != Text then []
       else TextItems(f.text[ts[0].begin..ts[0].begin + ts[0].length], f.offset + ts[0].begin, c.collapse, false))
      + LettersOf(c, f, ts[1..])
  }

  lemma {:induction false} TokensSayAll(c: Config, i: Intent, f: Fragment, ts: seq<Token>)
    requires forall k | 0 <= k < |ts| :: ts[k].begin + ts[k].length <= |f.text|
    ensures Letters(SayTokens(c, Fresh(i), f, ts).said) == LettersOf(c, f, ts)
    decreases |ts|
  {
    hide SayToken, TextItems;
    if ts != [] {
      TokenSaysAll(c, i, f, ts[0]);
      var j := SayToken(c, Fresh(i), f, ts[0]);
      TokensAdd(c, j, f, ts[1..]);
      TokensSayAll(c, j, f, ts[1..]);
      LettersConcat(j.said, SayTokens(c, Fresh(j), f, ts[1..]).said);
    }
  }

  lemma TokenSaysAll(c: Config, i: Intent, f: Fragment, t: Token)
    requires t.begin + t.length <= |f.text|
    ensures Letters(SayToken(c, Fresh(i), f, t).said)
         == if t.kind != Text then []
            else TextItems(f.text[t.begin..t.begin + t.length], f.offset + t.begin, c.collapse, false)
  {
    hide SayItems, ProsodyOf, TextItems, Yielded, Changed, Noted, Forgotten, Chosen;
    NoLetters();
    if t.kind == Text {
      ItemsSaid(Fresh(i), TextItems(f.text[t.begin..t.begin + t.length], f.offset + t.begin, c.collapse, false),
                ProsodyOf(c, f));
      FromNothing(SayToken(c, Fresh(i), f, t).said);
    } else {
      OneLetter(SayToken(c, Fresh(i), f, t).said);
    }
  }

  lemma FromNothing(said: seq<Said>)
    ensures said[0..] == said
  {
  }

  lemma NoLetters()
    ensures Letters([]) == []
  {
  }

  lemma OneLetter(said: seq<Said>)
    requires |said| <= 1 && forall x <- said :: !x.Say?
    ensures Letters(said) == []
  {
    if |said| == 1 {
      assert said[..0] == [] && said[0] in said;
    }
  }

  /** A fragment is said whole: spoken, its text but for its tags; spelt out, its characters with a space
      after each; and otherwise a silence of just its length, its phonemes as they stand, or nothing. */
  lemma FragmentSaysAll(c: Config, i: Intent, f: Fragment)
    ensures i.said <= SayFragment(c, i, f).said && TokensFit(f.text)
    ensures var more := SayFragment(c, i, f).said[|i.said|..];
            match f.act
            case Speak =>
              Letters(more) == if f.text == "" then []
                               else if c.controlTags then LettersOf(c, f, Scan(f.text))
                               else TextItems(f.text, f.offset, c.collapse, false)
            case SpellOut => Letters(more) == if f.text == "" then [] else Spelled(f.text, f.offset)
            case Silence => more == [Said.Pause(f.silenceMs)]
            case Bookmark => more == [Passed(|i.names| + 1)]
            case Pronounce => more == if f.text == "" then [] else [Said.Phonemes(f.text, i.voice, ProsodyOf(c, f))]
            case Other => more == []
  {
    hide ProsodyOf, SayItems, SayTokens, TextItems, Spelled, Yielded, Changed;
    NoLetters();
    ScanFits(f.text);
    FragmentSaysItsOwn(c, i, f);
    var p := ProsodyOf(c, f);
    match f.act
    case Speak =>
      if f.text != "" && c.controlTags {
        TokensAdd(c, i, f, Scan(f.text));
        TokensSayAll(c, i, f, Scan(f.text));
        assert SayFragment(c, i, f).said[|i.said|..] == SayTokens(c, Fresh(i), f, Scan(f.text)).said;
      } else if f.text != "" {
        ItemsSaid(i, TextItems(f.text, f.offset, c.collapse, false), p);
      }
    case SpellOut =>
      if f.text != "" {
        ItemsSaid(i, Spelled(f.text, f.offset), p);
      }
    case _ =>
  }

  // ------------------------------------------------------------------------------------------
  // What is carried on
  // ------------------------------------------------------------------------------------------

  /** When the application changes a rate, a pitch or a volume, just the tags that set that one are carried
      no further. */
  lemma TurnDrops(i: Intent, p: Prosody, e: Entry)
    requires i.last.Some?
    ensures var q := i.last.value;
            e in Turn(i, p).entries <==>
              && e in i.entries
              && (p.rate != q.rate ==> Rate !in e.effects) && (p.pitch != q.pitch ==> Pitch !in e.effects)
              && (p.volume != q.volume ==> Volume !in e.effects)
  {
    var changed := Changed(i.last.value, p);
    FilterIs(i.entries, (e: Entry) => e.effects * changed == {});
    if e.effects * changed != {} {
      var x :| x in e.effects * changed;
    } else {
      assert forall x <- changed :: x !in e.effects * changed;
    }
  }

  /** A \Vce= tag that names someone or some language turns to whoever answers, if that is another voice;
      then what tags made of pitch and voice parameters, and nothing else, is carried no further. */
  lemma VoiceTurns(c: Config, i: Intent, v: VoiceRequest, e: Entry)
    ensures var answer := c.voiceFor(v, i.voice);
            var j := TakeVoice(c, i, v);
            && j.said == i.said && j.names == i.names && j.last == i.last
            && if (v.speaker == "" && v.language == "") || answer == "" || Chars.SameName(answer, i.voice) then j == i
               else j.voice == answer
                    && (e in j.entries <==> e in i.entries && exists x <- e.effects :: x == Rate || x == Volume)
  {
    hide Chars.SameName;
    FilterIs(i.entries, (e: Entry) => e.effects - {Pitch, VoiceParams} != {});
    if e.effects - {Pitch, VoiceParams} != {} {
      var x :| x in e.effects - {Pitch, VoiceParams};
      assert x == Rate || x == Volume;
    } else {
      assert forall x <- e.effects :: x !in e.effects - {Pitch, VoiceParams};
    }
  }

  // ------------------------------------------------------------------------------------------
  // In how many pieces
  // ------------------------------------------------------------------------------------------

  /** A token that no piece has to end for. */
  predicate Stays(c: Config, voice: string, t: Token) {
    && t.kind != Kind.Pause
    && (t.kind == Voice ==> Chosen(c, t.voice, voice) == "" || Chars.SameName(Chosen(c, t.voice, voice), voice))
  }

  ghost predicate StaysWhole(c: Config, voice: string, p: Prosody, f: Fragment) {
    && f.act in {Speak, SpellOut, Act.Bookmark, Other}
    && (f.act != Other ==> OwnProsody(c, f, p))
    && (f.act == Speak && c.controlTags ==> forall t <- Scan(f.text) :: Stays(c, voice, t))
  }

  /** An open piece with more in it. */
  ghost predicate Longer(d: Draft, e: Draft, p: Prosody) {
    e.runs == d.runs && (d.open ==> e.open && e.prosody == p && d.items <= e.items)
    && (!d.open && e.open ==> e.prosody == p)
  }

  lemma OneProsody(c: Config, f: Fragment, p: Prosody)
    requires OwnProsody(c, f, p)
    ensures p == ProsodyOf(c, f)
  {
  }

  lemma PuttingIsLonger(i: Intent, d: Draft, items: seq<Item>, p: Prosody)
    requires d.open ==> d.prosody == p
    ensures Longer(d, ItemsPut(i, d, items, p), p)
  {
  }

  lemma TokenIsLonger(c: Config, i: Intent, d: Draft, f: Fragment, t: Token)
    requires t.begin + t.length <= |f.text| && Stays(c, i.voice, t) && (d.open ==> d.prosody == ProsodyOf(c, f))
    ensures Longer(d, TokenPut(c, i, d, f, t), ProsodyOf(c, f)) && SayToken(c, i, f, t).voice == i.voice
  {
    hide ProsodyOf, TextItems, ItemsPut, Force, CharsSaid, Noted, Yielded, Changed;
    var p := ProsodyOf(c, f);
    match t.kind
    case Text =>
      PuttingIsLonger(i, d, TextItems(f.text[t.begin..t.begin + t.length], f.offset + t.begin, c.collapse, false), p);
    case Engine => PuttingIsLonger(i, d, [Item.Tag(t.tag, t.effects)], p);
    case Voice => PuttingIsLonger(i, d, [Item.Tag(t.tag, t.effects)], p);
    case Bookmark => PuttingIsLonger(i, d, [Mark(|i.names| + 1)], p);
  }

  lemma {:induction false} TokensAreLonger(c: Config, i: Intent, d: Draft, f: Fragment, ts: seq<Token>)
    requires forall k | 0 <= k < |ts| :: ts[k].begin + ts[k].length <= |f.text|
    requires (forall t <- ts :: Stays(c, i.voice, t)) && (d.open ==> d.prosody == ProsodyOf(c, f))
    ensures Longer(d, TokensPut(c, i, d, f, ts), ProsodyOf(c, f)) && SayTokens(c, i, f, ts).voice == i.voice
    decreases |ts|
  {
    hide TokenPut, SayToken, Stays, ProsodyOf;
    if ts != [] {
      TokenIsLonger(c, i, d, f, ts[0]);
      TokensAreLonger(c, SayToken(c, i, f, ts[0]), TokenPut(c, i, d, f, ts[0]), f, ts[1..]);
    }
  }

  lemma FragmentIsLonger(c: Config, i: Intent, d: Draft, f: Fragment, p: Prosody)
    requires StaysWhole(c, i.voice, p, f) && (d.open ==> d.prosody == p)
    ensures Longer(d, FragmentPut(c, i, d, f), p) && SayFragment(c, i, f).voice == i.voice
  {
    hide ProsodyOf, TextItems, Spelled, ItemsPut, TokensPut, SayTokens, OwnProsody, Stays, CharsSaid, Force, Yielded,
         Changed;
    if f.act != Other {
      OneProsody(c, f, p);
    }
    match f.act
    case Speak =>
      if f.text != "" && c.controlTags {
        ScanFits(f.text);
        TokensAreLonger(c, i, d, f, Scan(f.text));
      } else if f.text != "" {
        PuttingIsLonger(i, d, TextItems(f.text, f.offset, c.collapse, false), p);
      }
    case SpellOut => PuttingIsLonger(i, d, Spelled(f.text, f.offset), p);
    case Bookmark => PuttingIsLonger(i, d, [Mark(|i.names| + 1)], p);
    case Other =>
  }

  lemma {:induction false} AllAreLonger(c: Config, i: Intent, d: Draft, fs: seq<Fragment>, p: Prosody)
    requires (forall f <- fs :: StaysWhole(c, i.voice, p, f)) && (d.open ==> d.prosody == p)
    ensures Longer(d, AllPut(c, i, d, fs), p)
    decreases |fs|
  {
    hide FragmentPut, SayFragment, StaysWhole;
    if fs != [] {
      FragmentIsLonger(c, i, d, fs[0], p);
      AllAreLonger(c, SayFragment(c, i, fs[0]), FragmentPut(c, i, d, fs[0]), fs[1..], p);
    }
  }

  /** Fragments of one rate, pitch and volume, with no silence, no phonemes and no other voice between
      them, stay one piece, bookmarks and tags included, for the engine to phrase as a whole. */
  lemma OnePiece(c: Config, i: Intent, fs: seq<Fragment>, p: Prosody)
    requires forall f <- fs :: StaysWhole(c, i.voice, p, f)
    ensures |RunsOf(c, i, fs)| <= 1
  {
    hide AllPut, StaysWhole;
    AllAreLonger(c, i, BLANK, fs, p);
  }
}
