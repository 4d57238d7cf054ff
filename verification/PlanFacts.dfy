/** What follows from a plan saying what its fragments mean. */
module PlanFacts {
  import opened Wrappers
  import opened Seqs
  import opened Tags
  import opened Runs
  import opened Words
  import opened CarriedTags
  import opened Plan

  // ------------------------------------------------------------------------------------------
  // Every step only adds to what has been said
  // ------------------------------------------------------------------------------------------

  /** The same intent with nothing said yet. */
  function Fresh(i: Intent): Intent { i.(said := []) }

  /** `j` is `i` after a step that, from nothing said, gives `k`. */
  predicate Adds(i: Intent, j: Intent, k: Intent) { j == k.(said := i.said + k.said) }

  lemma TokenAdds(c: Config, i: Intent, f: Fragment, t: Token)
    requires t.begin + t.length <= |f.text|
    ensures Adds(i, SayToken(c, i, f, t), SayToken(c, Fresh(i), f, t))
  {
    hide SayItems, SayTag, SayMark, TakeVoice, ProsodyOf, TextItems;
    var p := ProsodyOf(c, f);
    match t.kind
    case Text =>
      ItemsAdd(i, TextItems(f.text[t.begin..t.begin + t.length], f.offset + t.begin, c.collapse, false), p);
    case Engine =>
      TagAdds(i, t.tag, t.effects, p);
    case Voice =>
      VoiceAdds(c, i, t.voice);
      TagAdds(TakeVoice(c, i, t.voice), t.tag, t.effects, p);
    case Bookmark =>
      MarkAdds(i, t.value, p);
    case Pause =>
  }

  lemma ItemsAdd(i: Intent, items: seq<Item>, p: Prosody)
    requires forall k | 0 <= k < |items| :: items[k].Ch?
    ensures Adds(i, SayItems(i, items, p), SayItems(Fresh(i), items, p))
  {
    hide CharsSaid, Force, Yielded, Changed;
  }

  lemma TagAdds(i: Intent, tag: string, effects: set<Effect>, p: Prosody)
    ensures Adds(i, SayTag(i, tag, effects, p), SayTag(Fresh(i), tag, effects, p))
  {
    hide Noted, Yielded, Changed;
  }

  lemma MarkAdds(i: Intent, name: string, p: Prosody)
    ensures Adds(i, SayMark(i, name, p), SayMark(Fresh(i), name, p))
  {
    hide Yielded, Changed;
  }

  lemma VoiceAdds(c: Config, i: Intent, v: VoiceRequest)
    ensures TakeVoice(c, Fresh(i), v) == Fresh(TakeVoice(c, i, v)) && TakeVoice(c, i, v).said == i.said
  {
    hide Forgotten;
  }

  lemma {:induction false} TokensAdd(c: Config, i: Intent, f: Fragment, ts: seq<Token>)
    requires forall k | 0 <= k < |ts| :: ts[k].begin + ts[k].length <= |f.text|
    ensures Adds(i, SayTokens(c, i, f, ts), SayTokens(c, Fresh(i), f, ts))
    decreases |ts|
  {
    hide SayToken;
    if ts != [] {
      TokenAdds(c, i, f, ts[0]);
      var j, k := SayToken(c, i, f, ts[0]), SayToken(c, Fresh(i), f, ts[0]);
      TokensAdd(c, j, f, ts[1..]);
      TokensAdd(c, k, f, ts[1..]);
      assert Fresh(j) == Fresh(k);
      Assoc(i.said, k.said, SayTokens(c, Fresh(k), f, ts[1..]).said);
    }
  }

  lemma {:induction false} TokensConcat(c: Config, i: Intent, f: Fragment, a: seq<Token>, b: seq<Token>)
    requires forall k | 0 <= k < |a| :: a[k].begin + a[k].length <= |f.text|
    requires forall k | 0 <= k < |b| :: b[k].begin + b[k].length <= |f.text|
    ensures SayTokens(c, i, f, a + b) == SayTokens(c, SayTokens(c, i, f, a), f, b)
    decreases |a|
  {
    hide SayToken;
    if a == [] {
      assert a + b == b;
    } else {
      assert (a + b)[1..] == a[1..] + b;
      TokensConcat(c, SayToken(c, i, f, a[0]), f, a[1..], b);
    }
  }

  /** A pause splits the text in two, and that is all it does: what is said before it and after it is
      what would have been said without it, under the same voice and the same settings. */
  lemma PauseOnlyPauses(c: Config, i: Intent, f: Fragment, a: seq<Token>, pause: Token, b: seq<Token>)
    requires forall k | 0 <= k < |a| :: a[k].begin + a[k].length <= |f.text|
    requires forall k | 0 <= k < |b| :: b[k].begin + b[k].length <= |f.text|
    requires pause.kind == Kind.Pause && pause.begin + pause.length <= |f.text|
    ensures var before := SayTokens(c, i, f, a);
            var whole := SayTokens(c, i, f, a + b);
            var split := SayTokens(c, i, f, a + [pause] + b);
            && before.said <= whole.said
            && split == whole.(said := before.said + [Said.Pause(if pause.number < 60000 then pause.number else 60000)]
                                       + whole.said[|before.said|..])
  {
    TokensConcat(c, i, f, a, b);
    TokensConcat(c, i, f, a, [pause]);
    TokensConcat(c, i, f, a + [pause], b);
    var before := SayTokens(c, i, f, a);
    assert [pause][1..] == [];
    var paused := before.(said := before.said + [Said.Pause(Min(pause.number, LONGEST_TAG_PAUSE_MS))]);
    assert SayTokens(c, before, f, [pause]) == SayTokens(c, paused, f, []) == paused;
    TokensAdd(c, before, f, b);
    TokensAdd(c, paused, f, b);
    assert Fresh(before) == Fresh(paused);
  }

  // ------------------------------------------------------------------------------------------
  // Settings in force
  // ------------------------------------------------------------------------------------------

  function TagsOf(ts: seq<Token>): seq<Entry> {
    if ts == [] then []
    else TagsOf(ts[..|ts| - 1]) + if ts[|ts| - 1].tag == "" || ts[|ts| - 1].kind !in {Engine, Voice} then []
                                  else [Entry(ts[|ts| - 1].effects, ts[|ts| - 1].tag)]
  }

  /** No token asks for another voice. */
  ghost predicate KeepsVoice(c: Config, voice: string, ts: seq<Token>) {
    forall t <- ts | t.kind == Voice ::
      Chosen(c, t.voice, voice) == "" || Chars.SameName(Chosen(c, t.voice, voice), voice)
  }

  /** Within a fragment, while the voice stays the same, the settings anything is said under are those
      that obeying every tag so far gives, however the text has been split up and tags restated. */
  lemma {:induction false} SettingsAreAllTags(c: Config, i: Intent, f: Fragment, ts: seq<Token>)
    requires forall k | 0 <= k < |ts| :: ts[k].begin + ts[k].length <= |f.text|
    requires i.last == Option.Some(ProsodyOf(c, f)) && KeepsVoice(c, i.voice, ts)
    ensures var j := SayTokens(c, i, f, ts);
            Force(j.entries) == Force(i.entries + TagsOf(ts)) && j.last == i.last && j.voice == i.voice
    decreases |ts|
  {
    if ts == [] {
      assert i.entries + [] == i.entries;
    } else {
      var front, t := ts[..|ts| - 1], ts[|ts| - 1];
      Split(ts, |ts| - 1);
      assert ts == front + [t];
      TokensConcat(c, i, f, front, [t]);
      SettingsAreAllTags(c, i, f, front);
      var j := SayTokens(c, i, f, front);
      assert SayTokens(c, j, f, [t]) == SayTokens(c, SayToken(c, j, f, t), f, []);
      OneTokenSettings(c, j, f, t, i.entries + TagsOf(front));
      Assoc(i.entries, TagsOf(front), TagsOf(ts)[|TagsOf(front)|..]);
      assert t in ts;
    }
  }

  lemma OneTokenSettings(c: Config, j: Intent, f: Fragment, t: Token, all: seq<Entry>)
    requires t.begin + t.length <= |f.text| && j.last == Option.Some(ProsodyOf(c, f)) && Force(j.entries) == Force(all)
    requires t.kind == Voice ==>
               Chosen(c, t.voice, j.voice) == "" || Chars.SameName(Chosen(c, t.voice, j.voice), j.voice)
    ensures var k := SayToken(c, j, f, t);
            && k.last == j.last && k.voice == j.voice
            && Force(k.entries)
                 == Force(all + if t.tag == "" || t.kind !in {Engine, Voice} then [] else [Entry(t.effects, t.tag)])
  {
    TurnAgain(j, ProsodyOf(c, f));
    if t.tag == "" || t.kind !in {Engine, Voice} {
      assert all + [] == all;
    } else if t.effects == {} {
      ForceAppend(all, Entry(t.effects, t.tag));
    } else {
      NoteMeaning(j.entries, t.effects, t.tag);
      ForceAppend(all, Entry(t.effects, t.tag));
    }
  }

  // ------------------------------------------------------------------------------------------
  // Characters
  // ------------------------------------------------------------------------------------------

  /** A character said for fragment `f`: under that fragment's prosody, and, unless it is the space that
      spelling out puts in, the character of the fragment it claims to be. */
  ghost predicate SaidFor(c: Config, f: Fragment, s: Said) {
    s.Say? ==>
      && s.prosody == ProsodyOf(c, f)
      && (s.origin.At? ==>
            && f.offset <= s.origin.offset < f.offset + |f.text|
            && (s.ch == f.text[s.origin.offset - f.offset] || s.ch == Given(f.text[s.origin.offset - f.offset], true)))
  }

  ghost predicate ItemsOf(f: Fragment, items: seq<Item>) {
    forall k | 0 <= k < |items| ::
      && items[k].Ch?
      && (items[k].origin.At? ==>
            && f.offset <= items[k].origin.offset < f.offset + |f.text|
            && (items[k].ch == f.text[items[k].origin.offset - f.offset]
                || items[k].ch == Given(f.text[items[k].origin.offset - f.offset], true)))
  }

  lemma {:induction false} CharsSaidFor(c: Config, f: Fragment, items: seq<Item>, voice: string, s: Settings)
    requires ItemsOf(f, items)
    ensures forall x <- CharsSaid(items, voice, ProsodyOf(c, f), s) ::
              x.Say? && x.voice == voice && x.settings == s && SaidFor(c, f, x)
    decreases |items|
  {
    if items != [] {
      CharsSaidFor(c, f, items[..|items| - 1], voice, s);
    }
  }

  lemma TextItemsOf(f: Fragment, from: nat, to: nat, collapse: bool)
    requires from <= to <= |f.text|
    ensures ItemsOf(f, TextItems(f.text[from..to], f.offset + from, collapse, false))
  {
    hide TextItems;
    var text := f.text[from..to];
    var items := TextItems(text, f.offset + from, collapse, false);
    TextItemsAre(text, f.offset + from, collapse, false);
    forall k | 0 <= k < |items| ensures items[k].Ch? && items[k].origin.At?
      ensures f.offset + from <= items[k].origin.offset < f.offset + to
      ensures items[k].ch == Given(f.text[items[k].origin.offset - f.offset], collapse)
    {
      assert items[k] in items;
      var p :| 0 <= p < |text| && items[k] == ItemAt(text, p, f.offset + from, collapse);
      assert text[p] == f.text[from + p];
    }
  }

  lemma {:induction false} SpelledOf(f: Fragment, from: nat)
    requires from <= |f.text|
    ensures ItemsOf(f, Spelled(f.text[from..], f.offset + from))
    decreases |f.text| - from
  {
    if from < |f.text| {
      var text := f.text[from..];
      assert text[..1] == f.text[from..from + 1] && text[1..] == f.text[from + 1..];
      TextItemsOf(f, from, from + 1, false);
      SpelledOf(f, from + 1);
    }
  }

  lemma TokenSaidFor(c: Config, i: Intent, f: Fragment, t: Token)
    requires t.begin + t.length <= |f.text|
    ensures forall x <- SayToken(c, Fresh(i), f, t).said :: SaidFor(c, f, x)
  {
    if t.kind == Text {
      TextItemsOf(f, t.begin, t.begin + t.length, c.collapse);
      var j := Turn(Fresh(i), ProsodyOf(c, f));
      CharsSaidFor(c, f, TextItems(f.text[t.begin..t.begin + t.length], f.offset + t.begin, c.collapse, false),
                   j.voice, Force(j.entries));
    }
  }

  lemma {:induction false} TokensSaidFor(c: Config, i: Intent, f: Fragment, ts: seq<Token>)
    requires forall k | 0 <= k < |ts| :: ts[k].begin + ts[k].length <= |f.text|
    ensures forall x <- SayTokens(c, Fresh(i), f, ts).said :: SaidFor(c, f, x)
    decreases |ts|
  {
    hide SayToken, SaidFor;
    if ts != [] {
      TokenSaidFor(c, i, f, ts[0]);
      var j := SayToken(c, Fresh(i), f, ts[0]);
      TokensSaidFor(c, j, f, ts[1..]);
      TokensAdd(c, j, f, ts[1..]);
    }
  }

  /** Whatever a fragment adds is added at the end, and every character of it is the fragment's own,
      under the fragment's own rate, pitch and volume. */
  lemma FragmentSaysItsOwn(c: Config, i: Intent, f: Fragment)
    ensures i.said <= SayFragment(c, i, f).said
    ensures forall x <- SayFragment(c, i, f).said[|i.said|..] :: SaidFor(c, f, x)
  {
    var j := Turn(i, ProsodyOf(c, f));
    match f.act
    case Speak =>
      if f.text != "" && c.controlTags {
        ScanFits(f.text);
        TokensAdd(c, i, f, Scan(f.text));
        TokensSaidFor(c, i, f, Scan(f.text));
      } else if f.text != "" {
        assert f.text[0..|f.text|] == f.text;
        TextItemsOf(f, 0, |f.text|, c.collapse);
        CharsSaidFor(c, f, TextItems(f.text, f.offset, c.collapse, false), j.voice, Force(j.entries));
      }
    case SpellOut =>
      assert f.text[0..] == f.text;
      SpelledOf(f, 0);
      CharsSaidFor(c, f, Spelled(f.text, f.offset), j.voice, Force(j.entries));
    case _ =>
  }

  // ------------------------------------------------------------------------------------------
  // Bookmarks
  // ------------------------------------------------------------------------------------------

  function Marks(said: seq<Said>): seq<nat> {
    if said == [] then []
    else Marks(said[..|said| - 1]) + if said[|said| - 1].Passed? then [said[|said| - 1].number] else []
  }

  lemma {:induction false} MarksConcat(a: seq<Said>, b: seq<Said>)
    ensures Marks(a + b) == Marks(a) + Marks(b)
    decreases |b|
  {
    if b == [] {
      assert a + b == a;
    } else {
      assert (a + b)[..|a + b| - 1] == a + b[..|b| - 1];
      MarksConcat(a, b[..|b| - 1]);
    }
  }

  /** Bookmarks are numbered from one, in order, each once. */
  ghost predicate Numbered(i: Intent) {
    Marks(i.said) == seq(|i.names|, k => k + 1)
  }

  lemma {:induction false} NoMarks(said: seq<Said>)
    requires forall x <- said :: !x.Passed?
    ensures Marks(said) == []
  {
    if said != [] {
      assert forall x <- said[..|said| - 1] :: x in said;
      NoMarks(said[..|said| - 1]);
    }
  }

  lemma ItemsNumbered(i: Intent, items: seq<Item>, p: Prosody)
    requires Numbered(i) && forall k | 0 <= k < |items| :: items[k].Ch?
    ensures Numbered(SayItems(i, items, p))
  {
    var j := Turn(i, p);
    var more := CharsSaid(items, j.voice, p, Force(j.entries));
    CharsAreNoMarks(items, j.voice, p, Force(j.entries));
    NoMarks(more);
    MarksConcat(i.said, more);
  }

  lemma {:induction false} CharsAreNoMarks(items: seq<Item>, voice: string, p: Prosody, s: Settings)
    requires forall k | 0 <= k < |items| :: items[k].Ch?
    ensures forall x <- CharsSaid(items, voice, p, s) :: x.Say?
    decreases |items|
  {
    if items != [] {
      CharsAreNoMarks(items[..|items| - 1], voice, p, s);
    }
  }

  lemma OneMoreMark(said: seq<Said>, s: Said)
    ensures Marks(said + [s]) == Marks(said) + if s.Passed? then [s.number] else []
  {
  }

  /** Anything that is no bookmark, and leaves the names alone. */
  lemma OneNumbered(i: Intent, j: Intent, s: Said)
    requires Numbered(i) && !s.Passed? && j.names == i.names && (j.said == i.said || j.said == i.said + [s])
    ensures Numbered(j)
  {
    hide Marks;
    OneMoreMark(i.said, s);
    assert Marks(i.said) + [] == Marks(i.said);
  }

  lemma TagNumbered(i: Intent, tag: string, effects: set<Effect>, p: Prosody)
    requires Numbered(i)
    ensures Numbered(SayTag(i, tag, effects, p))
  {
    hide Numbered, Marks, Noted, Yielded, Changed;
    assert i.said + [] == i.said;
    OneNumbered(i, SayTag(i, tag, effects, p), Said.Control(tag));
  }

  lemma MarkNumbered(i: Intent, name: string, p: Prosody)
    requires Numbered(i)
    ensures Numbered(SayMark(i, name, p))
  {
    hide Marks, Yielded, Changed;
    var n := |i.names|;
    OneMoreMark(i.said, Passed(n + 1));
    assert seq(n, k => k + 1) + [n + 1] == seq(n + 1, k => k + 1);
  }

  lemma VoiceNumbered(c: Config, i: Intent, v: VoiceRequest)
    requires Numbered(i)
    ensures Numbered(TakeVoice(c, i, v))
  {
    hide Marks, Forgotten, Chosen, Chars.SameName;
  }

  lemma TokenNumbered(c: Config, i: Intent, f: Fragment, t: Token)
    requires t.begin + t.length <= |f.text| && Numbered(i)
    ensures Numbered(SayToken(c, i, f, t))
  {
    hide TextItems, SayItems, SayTag, SayMark, TakeVoice, Numbered, Marks, ProsodyOf;
    var p := ProsodyOf(c, f);
    match t.kind
    case Text =>
      ItemsNumbered(i, TextItems(f.text[t.begin..t.begin + t.length], f.offset + t.begin, c.collapse, false), p);
    case Engine =>
      TagNumbered(i, t.tag, t.effects, p);
    case Voice =>
      VoiceNumbered(c, i, t.voice);
      TagNumbered(TakeVoice(c, i, t.voice), t.tag, t.effects, p);
    case Bookmark =>
      MarkNumbered(i, t.value, p);
    case Pause =>
      OneNumbered(i, SayToken(c, i, f, t), Said.Pause(Min(t.number, LONGEST_TAG_PAUSE_MS)));
  }

  lemma {:induction false} TokensNumbered(c: Config, i: Intent, f: Fragment, ts: seq<Token>)
    requires (forall k | 0 <= k < |ts| :: ts[k].begin + ts[k].length <= |f.text|) && Numbered(i)
    ensures Numbered(SayTokens(c, i, f, ts))
    decreases |ts|
  {
    hide SayToken, Numbered;
    if ts != [] {
      TokenNumbered(c, i, f, ts[0]);
      TokensNumbered(c, SayToken(c, i, f, ts[0]), f, ts[1..]);
    }
  }

  lemma FragmentNumbered(c: Config, i: Intent, f: Fragment)
    requires Numbered(i)
    ensures Numbered(SayFragment(c, i, f))
  {
    hide TextItems, Spelled, SayItems, SayMark, SayTokens, Numbered, Marks, ProsodyOf;
    var p := ProsodyOf(c, f);
    match f.act
    case Speak =>
      if f.text != "" && c.controlTags {
        ScanFits(f.text);
        TokensNumbered(c, i, f, Scan(f.text));
      } else if f.text != "" {
        ItemsNumbered(i, TextItems(f.text, f.offset, c.collapse, false), p);
      }
    case SpellOut => ItemsNumbered(i, Spelled(f.text, f.offset), p);
    case Bookmark => MarkNumbered(i, f.text, p);
    case Silence => OneNumbered(i, SayFragment(c, i, f), Said.Pause(f.silenceMs));
    case Pronounce => OneNumbered(i, SayFragment(c, i, f), Said.Phonemes(f.text, i.voice, p));
    case Other =>
  }

  /** Over every list of fragments: the bookmarks passed are 1 to n, in order, each exactly once, where
      n is the number of bookmark names. */
  lemma {:induction false} BookmarksNumbered(c: Config, i: Intent, fs: seq<Fragment>)
    requires Numbered(i)
    ensures Numbered(SayAll(c, i, fs))
    decreases |fs|
  {
    hide SayFragment, Numbered;
    if fs != [] {
      FragmentNumbered(c, i, fs[0]);
      BookmarksNumbered(c, SayFragment(c, i, fs[0]), fs[1..]);
    }
  }

  /** The names of a call's bookmarks: those the application sets, and those its text has tags for. */
  function NamesGiven(c: Config, fs: seq<Fragment>): seq<string>
    decreases |fs|
  {
    if fs == [] then []
    else
      (if fs[0].act.Bookmark? then [fs[0].text]
       else if fs[0].act.Speak? && c.controlTags then TagNames(Scan(fs[0].text))
       else [])
      + NamesGiven(c, fs[1..])
  }

  function TagNames(ts: seq<Token>): seq<string>
    decreases |ts|
  {
    if ts == [] then [] else (if ts[0].kind == Kind.Bookmark then [ts[0].value] else []) + TagNames(ts[1..])
  }

  /** The n-th name is that of the n-th bookmark. */
  lemma {:induction false} BookmarksAreNamed(c: Config, i: Intent, fs: seq<Fragment>)
    ensures SayAll(c, i, fs).names == i.names + NamesGiven(c, fs)
    decreases |fs|
  {
    hide SayFragment, TagNames, Scan;
    if fs != [] {
      FragmentIsNamed(c, i, fs[0]);
      BookmarksAreNamed(c, SayFragment(c, i, fs[0]), fs[1..]);
    }
  }

  lemma FragmentIsNamed(c: Config, i: Intent, f: Fragment)
    ensures SayFragment(c, i, f).names
         == i.names + if f.act.Bookmark? then [f.text]
                      else if f.act.Speak? && c.controlTags then TagNames(Scan(f.text))
                      else []
  {
    hide TextItems, Spelled, SayTokens, ProsodyOf, CharsSaid, Yielded, Changed;
    if f.act.Speak? && c.controlTags {
      ScanFits(f.text);
      if f.text == "" {
        assert Scan("") == [];
      } else {
        TokensAreNamed(c, i, f, Scan(f.text));
      }
    }
  }

  lemma {:induction false} TokensAreNamed(c: Config, i: Intent, f: Fragment, ts: seq<Token>)
    requires forall k | 0 <= k < |ts| :: ts[k].begin + ts[k].length <= |f.text|
    ensures SayTokens(c, i, f, ts).names == i.names + TagNames(ts)
    decreases |ts|
  {
    hide SayToken, TagNames;
    if ts != [] {
      TokenIsNamed(c, i, f, ts[0]);
      TokensAreNamed(c, SayToken(c, i, f, ts[0]), f, ts[1..]);
      TagNamesFirst(ts);
      Assoc(i.names, if ts[0].kind == Kind.Bookmark then [ts[0].value] else [], TagNames(ts[1..]));
    } else {
      NoTagNames();
    }
  }

  lemma NoTagNames()
    ensures TagNames([]) == []
  {
  }

  lemma TagNamesFirst(ts: seq<Token>)
    requires ts != []
    ensures TagNames(ts) == (if ts[0].kind == Kind.Bookmark then [ts[0].value] else []) + TagNames(ts[1..])
  {
  }

  lemma TokenIsNamed(c: Config, i: Intent, f: Fragment, t: Token)
    requires t.begin + t.length <= |f.text|
    ensures SayToken(c, i, f, t).names == i.names + if t.kind == Kind.Bookmark then [t.value] else []
  {
    hide TextItems, ProsodyOf, CharsSaid, Yielded, Changed, Noted, Chosen;
  }
}
