/** A tag that leaves nothing behind: a \Vce= tag that nobody answers to, or the voice already
    speaking, in the middle of a word. From the fragment to the run, and to what is reported of it. */
module SwallowedTag {
  import opened Wrappers
  import opened Chars
  import opened Tags
  import opened Runs
  import opened Words
  import opened CarriedTags
  import opened Plan
  import opened Drafts
  import opened WordReports

  function VoiceTag(name: string): string { "\\" + "Vce=Speaker=" + name + "\\" }

  function Asking(name: string): VoiceRequest { NO_VOICE.(speaker := name) }

  /** Nobody answers to the request, or the voice already speaking. */
  ghost predicate Stays(c: Config, v: VoiceRequest, voice: string) {
    Chosen(c, v, voice) == "" || SameName(Chosen(c, v, voice), voice)
  }

  /** A name that can stand bare in a \Vce= tag. */
  ghost predicate Bare(name: string) {
    && 0 < |name| <= LONGEST_TAG - 12 && !Blank(name[0]) && !Blank(name[|name| - 1])
    && forall k | 0 <= k < |name| :: name[k] !in {'\\', '"', ','}
  }

  lemma TrimmedIs(text: string)
    requires text != "" && !Blank(text[0]) && !Blank(text[|text| - 1])
    ensures Trimmed(text) == text
  {
    assert text[0..] == text;
  }

  lemma SpeakerIsFirst()
    ensures KeyNamed(Trimmed("Speaker"), 0) == 0
  {
    TrimmedIs("Speaker");
  }

  /** The value stands bare up to the end. */
  lemma ReadsName(name: string)
    requires Bare(name)
    ensures var text := "Speaker=" + name; PastBlanks(text, 8) == 8 && ValueAt(text, 8) == Some((name, |text|))
  {
    hide Trimmed;
    var text := "Speaker=" + name;
    assert text[8] == name[0];
    forall k | 8 <= k < |text| ensures text[k] !in {',', '"'} {
      assert text[k] == name[k - 8];
    }
    UntilIs(text, 8, {',', '"'}, |text|);
    assert text[8..|text|] == name;
    TrimmedIs(name);
  }

  lemma ReadsSpeaker(name: string)
    requires Bare(name)
    ensures ReadVoice("Speaker=" + name, 0, NO_VOICE) == Some(Asking(name))
  {
    hide KeyNamed, Trimmed, ValueAt, PastBlanks;
    var text := "Speaker=" + name;
    UntilIs(text, 0, {'=', ',', '"'}, 7);
    assert text[0..7] == "Speaker";
    SpeakerIsFirst();
    ReadsName(name);
  }

  lemma ReadsVoiceTag(name: string)
    requires Bare(name)
    ensures var r := ReadInner("Vce=Speaker=" + name);
            && r.Some? && r.value.kind == Voice && r.value.tag == "" && r.value.voice == Asking(name)
  {
    hide ReadVoice, SpecNamed, Bare, EffectsNamed;
    var inner := "Vce=Speaker=" + name;
    UntilIs(inner, 0, {'='}, 3);
    assert inner[..3] == "Vce" && inner[4..] == "Speaker=" + name;
    VceIsVoice();
    ReadsSpeaker(name);
  }

  /** One word with such a tag in the middle of it. */
  function Interrupting(one: string, name: string, other: string): string { one + VoiceTag(name) + other }

  /** The token a scan makes of the tag. */
  lemma TagBetween(one: string, name: string, other: string)
    requires Bare(name)
    ensures var text, at := Interrupting(one, name, other), |one|;
            && TagAt(text, at)
            && var t := ReadTag(text, at).value;
            && t.kind == Voice && t.length == |VoiceTag(name)| && t.tag == "" && t.voice == Asking(name)
  {
    hide ReadInner;
    var text, at, inner := Interrupting(one, name, other), |one|, "Vce=Speaker=" + name;
    var close := at + 1 + |inner|;
    assert text[at] == VoiceTag(name)[0];
    assert text[at + 1..close] == inner;
    forall k | at + 1 <= k < close ensures text[k] !in {'\\'} {
      assert text[k] == inner[k - at - 1];
      assert k - at - 1 >= 12 ==> text[k] == name[k - at - 13];
    }
    assert text[close] == VoiceTag(name)[|VoiceTag(name)| - 1];
    UntilIs(text, at + 1, {'\\'}, close);
    ReadsVoiceTag(name);
  }

  function TokensAround(one: string, name: string, other: string): seq<Token>
    requires Bare(name)
  {
    TagBetween(one, name, other);
    [TextToken(0, |one|), ReadTag(Interrupting(one, name, other), |one|).value,
     TextToken(|one| + |VoiceTag(name)|, |other|)]
  }

  lemma ScansAround(one: string, name: string, other: string)
    requires Bare(name) && one != "" && other != "" && '\\' !in one && '\\' !in other
    ensures Scan(Interrupting(one, name, other)) == TokensAround(one, name, other)
  {
    hide ReadTag, Scan, VoiceTag;
    var text, ts := Interrupting(one, name, other), TokensAround(one, name, other);
    TagBetween(one, name, other);
    NoTagIn(text, 0, one, VoiceTag(name) + other);
    NoTagIn(text, |one| + |VoiceTag(name)|, other, "");
    assert ts[1..][1..] == [ts[2]] && ts[2..] == [ts[2]] && ts[1..][0] == ts[1] && [ts[2]][1..] == [];
    assert IsScan(text, |text|, [], true);
    IsScanCons(text, ts[2], [], false);
    IsScanCons(text, ts[1], [ts[2]], true);
    IsScanCons(text, ts[0], [ts[1]] + [ts[2]], false);
    assert ts == [ts[0]] + ([ts[1]] + [ts[2]]) && [ts[2]] + [] == [ts[2]];
    ScanTiles(text);
    ScanIsUnique(text, 0, Scan(text), ts, false);
  }

  /** Without a backslash there is no tag. */
  lemma NoTagIn(text: string, at: nat, part: string, rest: string)
    requires at <= |text| && text[at..] == part + rest && '\\' !in part
    ensures forall p | at <= p < at + |part| :: !TagAt(text, p)
  {
    forall p | at <= p < at + |part| ensures !TagAt(text, p) {
      assert text[p] == text[at..][p - at] == part[p - at];
    }
  }

  /** What a fragment with such a word and nothing else is planned as: one run, in which the two parts
      meet, when nobody or the voice already speaking answers to the name. */
  lemma OneRunOf(c: Config, voice: string, f: Fragment, one: string, name: string, other: string)
    requires Bare(name) && one != "" && other != "" && '\\' !in one && '\\' !in other
    requires f.act == Speak && f.text == Interrupting(one, name, other) && c.controlTags
    requires Stays(c, Asking(name), voice)
    requires TextItems(one, f.offset, c.collapse, false) != []
    ensures RunsOf(c, Intent([], [], voice, [], Option.None), [f])
            == [TextItems(one, f.offset, c.collapse, false)
                + TextItems(other, f.offset + |one| + |VoiceTag(name)|, c.collapse, false)]
  {
    hide *;
    var i := Intent([], [], voice, [], Option.None);
    var t, u, v := ThreeTokens(one, name, other);
    PartsOf(one, name, other);
    var next := |one| + |VoiceTag(name)|;
    var a, b := TextItems(one, f.offset, c.collapse, false), TextItems(other, f.offset + next, c.collapse, false);
    var d := Draft([], true, a, ProsodyOf(c, f));
    FirstPut(c, i, f, one, t);
    SaidByVoice(c, i, f, t);
    VoicePut(c, SayToken(c, i, f, t), d, f, u);
    MorePut(c, SayToken(c, i, f, t), d, f, next, other, v);
    PutTogether(c, i, f, t, u, v, d, b);
  }

  lemma PutTogether(c: Config, i: Intent, f: Fragment, t: Token, u: Token, v: Token, d: Draft, more: seq<Item>)
    requires f.act == Speak && f.text != "" && c.controlTags && Scan(f.text) == [t, u, v]
    requires t.begin + t.length <= |f.text| && u.begin + u.length <= |f.text| && v.begin + v.length <= |f.text|
    requires d.runs == [] && d.open && d.items != [] && TokenPut(c, i, BLANK, f, t) == d
    requires var j := SayToken(c, i, f, t);
             && SayToken(c, j, f, u) == j && TokenPut(c, j, d, f, u) == d
             && TokenPut(c, j, d, f, v) == d.(items := d.items + more)
    ensures RunsOf(c, i, [f]) == [d.items + more]
  {
    hide Scan, SayToken, TokenPut, TokensPut, RunsOf;
    ScanFits(f.text);
    ThreePut(c, i, BLANK, f, t, u, v);
    WholeFragment(c, i, f, d.(items := d.items + more));
  }

  lemma ThreeTokens(one: string, name: string, other: string) returns (t: Token, u: Token, v: Token)
    requires Bare(name) && one != "" && other != "" && '\\' !in one && '\\' !in other
    ensures Scan(Interrupting(one, name, other)) == [t, u, v]
    ensures t.kind == Text && t.begin == 0 && t.length == |one|
    ensures u.kind == Voice && u.tag == "" && u.voice == Asking(name)
    ensures u.begin == |one| && u.length == |VoiceTag(name)|
    ensures v.kind == Text && v.begin == |one| + |VoiceTag(name)| && v.length == |other|
  {
    hide ReadTag, Bare, VoiceTag, Scan;
    TagBetween(one, name, other);
    ScansAround(one, name, other);
    var ts := TokensAround(one, name, other);
    t, u, v := ts[0], ts[1], ts[2];
  }

  lemma PartsOf(one: string, name: string, other: string)
    ensures var text, next := Interrupting(one, name, other), |one| + |VoiceTag(name)|;
            |text| == next + |other| && text[0..|one|] == one && text[next..next + |other|] == other
  {
    hide VoiceTag;
  }

  lemma FirstPut(c: Config, i: Intent, f: Fragment, text: string, t: Token)
    requires t.kind == Text && t.begin == 0 && t.length == |text|
    requires i.entries == [] && i.last == None && |text| <= |f.text| && f.text[0..|text|] == text
    ensures TokenPut(c, i, BLANK, f, t)
            == Draft([], true, TextItems(text, f.offset, c.collapse, false), ProsodyOf(c, f))
  {
    hide TextItems, ProsodyOf, Yielded, Changed;
    assert EntryItems([]) == [];
    assert [] + TextItems(text, f.offset, c.collapse, false) == TextItems(text, f.offset, c.collapse, false);
  }

  lemma SaidByVoice(c: Config, i: Intent, f: Fragment, t: Token)
    requires t.kind == Text && t.begin + t.length <= |f.text|
    ensures SayToken(c, i, f, t).voice == i.voice
  {
    hide TextItems, ProsodyOf, CharsSaid, Force, Yielded, Changed;
  }

  lemma VoicePut(c: Config, i: Intent, d: Draft, f: Fragment, t: Token)
    requires t.kind == Voice && t.tag == "" && t.begin + t.length <= |f.text|
    requires Stays(c, t.voice, i.voice)
    ensures TokenPut(c, i, d, f, t) == d && SayToken(c, i, f, t) == i
  {
  }

  lemma MorePut(c: Config, i: Intent, d: Draft, f: Fragment, begin: nat, text: string, t: Token)
    requires t.kind == Text && t.begin == begin && t.length == |text|
    requires d.open && begin + |text| <= |f.text| && f.text[begin..begin + |text|] == text
    ensures TokenPut(c, i, d, f, t)
            == d.(items := d.items + TextItems(text, f.offset + begin, c.collapse, false))
  {
    hide TextItems, ProsodyOf;
  }

  /** One fragment whose text is planned as one open piece. */
  lemma WholeFragment(c: Config, i: Intent, f: Fragment, e: Draft)
    requires f.act == Speak && f.text != "" && c.controlTags && TokensFit(f.text)
    requires TokensPut(c, i, BLANK, f, Scan(f.text)) == e && e.runs == [] && e.open && e.items != []
    ensures RunsOf(c, i, [f]) == [e.items]
  {
    hide TokensPut, Scan, SayFragment, TokensFit;
    assert FragmentPut(c, i, BLANK, f) == e;
    assert [f][1..] == [];
    assert AllPut(c, i, BLANK, [f]) == AllPut(c, SayFragment(c, i, f), e, []) == e;
  }

  lemma ThreePut(c: Config, i: Intent, d: Draft, f: Fragment, t: Token, u: Token, v: Token)
    requires t.begin + t.length <= |f.text| && u.begin + u.length <= |f.text| && v.begin + v.length <= |f.text|
    ensures var j, e := SayToken(c, i, f, t), TokenPut(c, i, d, f, t);
            TokensPut(c, i, d, f, [t, u, v]) == TokenPut(c, SayToken(c, j, f, u), TokenPut(c, j, e, f, u), f, v)
  {
    hide TokenPut, SayToken;
    assert [t, u, v][1..] == [u, v] && [u, v][1..] == [v] && [v][1..] == [];
    var j, e := SayToken(c, i, f, t), TokenPut(c, i, d, f, t);
    assert TokensPut(c, i, d, f, [t, u, v]) == TokensPut(c, j, e, f, [u, v]);
    assert TokensPut(c, j, e, f, [u, v]) == TokensPut(c, SayToken(c, j, f, u), TokenPut(c, j, e, f, u), f, [v]);
  }

  /** So no matter where in `app` the fragment stands: a report at the start of the word covers the tag
      as well, and is not the word. */
  lemma WordAcross(app: string, c: Config, voice: string, f: Fragment, one: string, name: string, other: string,
                   isWord: char -> bool)
    requires WordChars(isWord) && Bare(name) && one != "" && other != ""
    requires (forall x <- one :: isWord(x)) && (forall x <- other :: isWord(x))
    requires f.act == Speak && f.text == Interrupting(one, name, other) && c.controlTags && LaidOut(app, [f], 0)
    requires Stays(c, Asking(name), voice)
    ensures var runs := RunsOf(c, Intent([], [], voice, [], Option.None), [f]);
            && |runs| == 1
            && var tagged, source := Encode(runs[0]), Sources(runs[0]);
            && tagged == one + other && source[0].At? && WordEnd(tagged, source, 0, isWord) == |tagged|
            && var span := SpanOf(source, 0, |tagged|);
            && span == Span(f.offset, |f.text|) && app[span.start..span.start + span.length] == f.text != tagged
  {
    hide TextItems, Encode, Sources, Bare, RunsOf, ReadTag, VoiceTag;
    var next := f.offset + |one| + |VoiceTag(name)|;
    var a, b := TextItems(one, f.offset, c.collapse, false), TextItems(other, next, c.collapse, false);
    SpeltPlainly(one, f.offset, c.collapse, isWord);
    SpeltPlainly(other, next, c.collapse, isWord);
    NothingIsSpelt(a);
    OneRunOf(c, voice, f, one, name, other);
    EncodeConcat(a, b);
    assert Encode(a + b) == one + other;
    AllWord(one + other, Sources(a + b), 0, isWord);
    TagIsSomething(name);
  }

  lemma TagIsSomething(name: string)
    ensures |VoiceTag(name)| > 0
  {
  }

  lemma NothingIsSpelt(items: seq<Item>)
    ensures items == [] ==> Encode(items) == ""
  {
  }

  lemma {:induction false} SpeltPlainly(text: string, base: nat, collapse: bool, isWord: char -> bool)
    requires WordChars(isWord) && forall c <- text :: isWord(c)
    ensures var items := TextItems(text, base, collapse, false);
            Encode(items) == text && forall j | 0 <= j < |text| :: Sources(items)[j] == At(base + j)
    decreases |text|
  {
    hide Encode, Sources;
    if text == "" {
      NothingIsSpelt([]);
    } else {
      SpeltPlainly(text[1..], base + 1, collapse, isWord);
      assert text[0] in text && isWord(text[0]);
      var item, rest := Ch(text[0], At(base)), TextItems(text[1..], base + 1, collapse, false);
      assert TextItems(text, base, collapse, false) == [item] + rest;
      EncodeConcat([item], rest);
      EncodeOne(item);
    }
  }

  lemma {:induction false} AllWord(tagged: string, source: seq<Origin>, i: nat, isWord: char -> bool)
    requires |source| == |tagged| && i <= |tagged|
    requires forall j | i <= j < |tagged| :: source[j].At? && isWord(tagged[j])
    ensures WordEnd(tagged, source, i, isWord) == |tagged|
    decreases |tagged| - i
  {
  }
}
