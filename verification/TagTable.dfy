/** The control tags there are, one by one: what each is read as, and what a \Vce= tag asks for. */
module TagTable {
  import opened Wrappers
  import opened Chars
  import opened Seqs
  import opened Tags

  // ------------------------------------------------------------------------------------------
  // Where a tag is
  // ------------------------------------------------------------------------------------------

  /** A tag stands where a backslash does, when another closes it with at most 256 characters and no
      backslash in between, and what is between can be read. */
  lemma TagStandsWhere(text: string, at: nat)
    requires at < |text|
    ensures TagAt(text, at) <==>
              && text[at] == '\\'
              && exists close: nat :: at < close < |text| && close - at <= 257 && text[close] == '\\'
                   && '\\' !in text[at + 1..close] && ReadInner(text[at + 1..close]).Some?
  {
    hide ReadInner;
    var found := Until(text, at + 1, {'\\'});
    assert forall k | at + 1 <= k < found :: text[k] != '\\';
    var inner := text[at + 1..found];
    assert forall k | 0 <= k < |inner| :: inner[k] != '\\';
    forall close: nat | at < close < |text| && text[close] == '\\' && '\\' !in text[at + 1..close]
      ensures close == found
    {
      forall k | at + 1 <= k < close ensures text[k] !in {'\\'} {
        assert text[at + 1..close][k - at - 1] == text[k];
      }
      UntilIs(text, at + 1, {'\\'}, close);
    }
  }

  // ------------------------------------------------------------------------------------------
  // What each is
  // ------------------------------------------------------------------------------------------

  /** A whole number of 32 bits, of up to ten digits. */
  predicate IsWhole(value: string) {
    0 < |value| <= 10 && (forall i | 0 <= i < |value| :: '0' <= value[i] <= '9') && NumberOf(value) <= 0xFFFF_FFFF
  }

  ghost predicate AsNumber(r: Option<Token>, inner: string, value: string, kind: Kind, effects: set<Effect>) {
    if IsWhole(value) then
      r == Some(Token(kind, 0, |inner| + 2, effects, NumberOf(value), value, "\\" + inner + "\\", NO_VOICE))
    else r == None
  }

  ghost predicate AsFlag(r: Option<Token>, inner: string, bare: bool, effects: set<Effect>) {
    if bare then r == Some(Token(Engine, 0, |inner| + 2, effects, 0, "", "\\" + inner + "\\", NO_VOICE)) else r == None
  }

  ghost predicate AsAny(r: Option<Token>, inner: string, value: string) {
    if value != "" then r == Some(Token(Engine, 0, |inner| + 2, {}, 0, value, "\\" + inner + "\\", NO_VOICE))
    else r == None
  }

  /** A voice request: what of it goes on to the engine is its gender and age. */
  ghost predicate AsVoice(r: Option<Token>, inner: string, value: string) {
    var v := ReadVoice(value, 0, NO_VOICE);
    if v == None then r == None
    else
      && r.Some? && r.value.kind == Voice && r.value.length == |inner| + 2 && r.value.voice == v.value
      && r.value.tag == (if v.value.shape == "" then "" else "\\Vce=" + v.value.shape + "\\")
      && r.value.effects == if v.value.shape == "" then {} else {VoiceParams}
  }

  /** Whether there is no '=' in a tag, and what stands behind the first. */
  predicate IsBare(inner: string) { Until(inner, 0, {'='}) == |inner| }

  function ValueIn(inner: string): string {
    if IsBare(inner) then "" else inner[Until(inner, 0, {'='}) + 1..]
  }

  function TagNames(): seq<string> {
    ["pit", "spd", "vol", "rst", "vce", "pau", "mrk", "emp", "chr", "com", "ctx", "prn", "pro", "prt"]
  }

  /** What a tag of the k-th name is read as. */
  ghost predicate RowHolds(k: nat, r: Option<Token>, inner: string, bare: bool, value: string) {
    match k
    case 0 => AsNumber(r, inner, value, Engine, {Pitch})
    case 1 => AsNumber(r, inner, value, Engine, {Rate})
    case 2 => AsNumber(r, inner, value, Engine, {Volume})
    case 3 => AsFlag(r, inner, bare, {Pitch, Rate, VoiceParams})
    case 4 => AsVoice(r, inner, value)
    case 5 => AsNumber(r, inner, value, Pause, {})
    case 6 => AsNumber(r, inner, value, Bookmark, {})
    case 7 => AsFlag(r, inner, bare, {})
    case _ => AsAny(r, inner, value)
  }

  /** Every tag, by its name in any case ... */
  lemma EveryTag(inner: string, k: nat)
    requires k < 14 && Lowered(NameOf(inner)) == TagNames()[k]
    ensures RowHolds(k, ReadInner(inner), inner, IsBare(inner), ValueIn(inner))
  {
    hide *;
    NamesAre(k);
    SpecFrom(NameOf(inner), k, 0);
    InnerIs(inner, k);
    SpecIsRow(k);
    RowIsRead(SPECS[k], inner, k);
  }

  lemma InnerIs(inner: string, k: nat)
    requires k < |SPECS| && SpecNamed(NameOf(inner), 0) == k
    ensures SPECS[k].kind != Text && ReadInner(inner) == ReadAs(SPECS[k], inner)
  {
    hide SpecNamed, ReadAs, NameOf;
    SpecsAreTags(k);
  }

  /** ... and there are no others. */
  lemma NoOtherTag(inner: string)
    requires forall k: nat | k < 14 :: Lowered(NameOf(inner)) != TagNames()[k]
    ensures ReadInner(inner) == None
  {
    hide SpecNamed, ReadAs, Lowered;
    var k := SpecNamed(NameOf(inner), 0);
    if k < |SPECS| {
      NamesAre(k);
      SpecIsLow(k);
    }
  }

  lemma NamesAre(k: nat)
    ensures |SPECS| == 14 == |TagNames()| && (k < 14 ==> SPECS[k].name == TagNames()[k])
  {
  }

  lemma SpecIsLow(k: nat)
    requires k < 14
    ensures Lowered(SPECS[k].name) == SPECS[k].name
  {
    var s := SPECS[k].name;
    assert |s| == 3 && 'a' <= s[0] <= 'z' && 'a' <= s[1] <= 'z' && 'a' <= s[2] <= 'z';
  }

  lemma SpecsApart(j: nat, k: nat)
    requires j < k < 14
    ensures SPECS[j].name != SPECS[k].name
  {
    var a, b := SPECS[j].name, SPECS[k].name;
    assert a[0] != b[0] || a[1] != b[1] || a[2] != b[2];
  }

  lemma {:induction false} SpecFrom(name: string, k: nat, from: nat)
    requires from <= k < 14 && Lowered(name) == SPECS[k].name
    ensures SpecNamed(name, from) == k
    decreases k - from
  {
    hide Lowered;
    SpecIsLow(from);
    if from < k {
      SpecsApart(from, k);
      SpecFrom(name, k, from + 1);
    }
  }

  /** The kinds of the tags, and what they have an effect on. */
  ghost predicate IsRow(spec: Spec, k: nat) {
    && (spec.value == Number <==> k in {0, 1, 2, 5, 6}) && (spec.value == NoValue <==> k in {3, 7})
    && (spec.value == VoiceValue <==> k == 4) && (spec.value == Any <==> k >= 8)
    && spec.kind == (if k == 4 then Voice else if k == 5 then Pause else if k == 6 then Bookmark else Engine)
    && spec.effects == (if k == 0 then {Pitch} else if k == 1 then {Rate} else if k == 2 then {Volume}
                        else if k == 3 then {Pitch, Rate, VoiceParams} else {})
  }

  lemma SpecIsRow(k: nat)
    requires k < 14
    ensures IsRow(SPECS[k], k)
  {
  }

  lemma RowIsRead(spec: Spec, inner: string, k: nat)
    requires k < 14 && IsRow(spec, k)
    ensures RowHolds(k, ReadAs(spec, inner), inner, IsBare(inner), ValueIn(inner))
  {
    hide ReadAs, AsNumber, AsFlag, AsAny, AsVoice, IsBare, ValueIn;
    match spec.value
    case Number => NumberIsRead(spec, inner);
    case NoValue => FlagIsRead(spec, inner);
    case Any => AnyIsRead(spec, inner);
    case VoiceValue => VoiceIsRead(spec, inner);
  }

  lemma NumberIsRead(spec: Spec, inner: string)
    requires spec.value == Number && spec.kind != Text
    ensures AsNumber(ReadAs(spec, inner), inner, ValueIn(inner), spec.kind, spec.effects)
  {
    hide NumberOf, Until, WholeNumber, IsWhole, ReadVoice;
    WholeIs(ValueIn(inner));
    NotWhole();
  }

  lemma NotWhole()
    ensures !IsWhole("")
  {
  }

  lemma FlagIsRead(spec: Spec, inner: string)
    requires spec.value == NoValue && spec.kind == Engine
    ensures AsFlag(ReadAs(spec, inner), inner, IsBare(inner), spec.effects)
  {
    hide Until, WholeNumber, ReadVoice;
  }

  lemma AnyIsRead(spec: Spec, inner: string)
    requires spec.value == Any && spec.kind == Engine && spec.effects == {}
    ensures AsAny(ReadAs(spec, inner), inner, ValueIn(inner))
  {
    hide Until, WholeNumber, ReadVoice;
  }

  lemma VoiceIsRead(spec: Spec, inner: string)
    requires spec.value == VoiceValue && spec.kind == Voice
    ensures AsVoice(ReadAs(spec, inner), inner, ValueIn(inner))
  {
    hide ReadVoice, Until, WholeNumber;
    NothingAsked();
  }

  lemma WholeIs(value: string)
    ensures WholeNumber(value) == if IsWhole(value) then Some(NumberOf(value)) else None
  {
  }

  lemma NothingAsked()
    ensures ReadVoice("", 0, NO_VOICE) == None
  {
  }

  // ------------------------------------------------------------------------------------------
  // What a voice request says
  // ------------------------------------------------------------------------------------------

  /** One thing asked for: the key in any case, the value bare or in quotes, blanks around either. */
  datatype Asked = Asked(key: string, value: string, quoted: bool, cased: string, front: string, back: string,
                         gap: string, end: string)
  {
    predicate Valid() {
      && key in {"Speaker", "Language", "Accent", "Gender", "Age"} && value != "" && SameName(cased, key)
      && AllBlank(front) && AllBlank(back) && AllBlank(gap) && AllBlank(end)
      && if quoted then '"' !in value
         else !Blank(value[0]) && !Blank(value[|value| - 1]) && '"' !in value && ',' !in value
    }

    function Name(): string { front + (cased + back) }

    function Given(): string { (if quoted then "\"" + value + "\"" else value) + end }

    function Spelt(): string { Name() + "=" + (gap + Given()) }
  }

  function SpeltOut(all: seq<Asked>): string
    decreases |all|
  {
    if all == [] then "" else all[0].Spelt() + if |all| == 1 then "" else "," + SpeltOut(all[1..])
  }

  /** What was asked for last under a key. */
  function LastOf(all: seq<Asked>, key: string, before: string): string
    decreases |all|
  {
    if all == [] then before else LastOf(all[1..], key, if all[0].key == key then all[0].value else before)
  }

  /** All the genders and ages asked for, in order, in quotes, with commas between them. */
  function ShapeOf(all: seq<Asked>, before: string): string
    decreases |all|
  {
    if all == [] then before
    else if all[0].key !in {"Gender", "Age"} then ShapeOf(all[1..], before)
    else ShapeOf(all[1..], before + (if before == "" then "" else ",") + all[0].key + "=\"" + all[0].value + "\"")
  }

  function Request(all: seq<Asked>, v: VoiceRequest): VoiceRequest {
    VoiceRequest(LastOf(all, "Speaker", v.speaker), LastOf(all, "Language", v.language),
                 LastOf(all, "Accent", v.accent), ShapeOf(all, v.shape))
  }

  /** Whatever is asked for, in whatever order and however it is quoted, is read as just that. */
  lemma RequestReadsBack(all: seq<Asked>)
    requires all != [] && forall k | 0 <= k < |all| :: all[k].Valid()
    ensures ReadVoice(SpeltOut(all), 0, NO_VOICE)
         == Some(VoiceRequest(LastOf(all, "Speaker", ""), LastOf(all, "Language", ""), LastOf(all, "Accent", ""),
                              ShapeOf(all, "")))
  {
    assert SpeltOut(all)[0..] == SpeltOut(all);
    ReadsFrom(SpeltOut(all), 0, all, NO_VOICE);
  }

  lemma {:induction false} ReadsFrom(text: string, i: nat, all: seq<Asked>, v: VoiceRequest)
    requires all != [] && (forall k | 0 <= k < |all| :: all[k].Valid()) && i <= |text| && text[i..] == SpeltOut(all)
    ensures ReadVoice(text, i, v) == Some(Request(all, v))
    decreases |all|
  {
    hide *;
    var w, next := FirstIsRead(text, i, all, v);
    if |all| == 1 {
      NoMore(w);
      assert all[1..] == [];
    } else {
      ReadsFrom(text, next, all[1..], w);
    }
  }

  /** The first thing asked for, and where the next one begins. */
  lemma FirstIsRead(text: string, i: nat, all: seq<Asked>, v: VoiceRequest) returns (w: VoiceRequest, next: nat)
    requires all != [] && all[0].Valid() && i <= |text| && text[i..] == SpeltOut(all)
    ensures Request(all, v) == Request(all[1..], w)
    ensures |all| == 1 ==> ReadVoice(text, i, v) == Some(w)
    ensures |all| > 1 ==>
              next <= |text| && text[next..] == SpeltOut(all[1..]) && ReadVoice(text, i, v) == ReadVoice(text, next, w)
  {
    hide *;
    var rest := if |all| == 1 then "" else "," + SpeltOut(all[1..]);
    SpeltFirst(all, rest);
    FiveKeys();
    var key := OneIsRead(text, i, all[0], rest);
    next := |text| - |rest|;
    w := Put(v, key, all[0].value);
    StepIsRead(text, i, v, key, all[0].value, next);
    RequestOf(all, v, key);
    if |all| > 1 {
      Here(text, next, ",", SpeltOut(all[1..]));
      next := next + 1;
    }
  }

  lemma FiveKeys()
    ensures |VOICE_KEYS| == 5
  {
  }

  lemma SpeltFirst(all: seq<Asked>, rest: string)
    requires all != [] && rest == if |all| == 1 then "" else "," + SpeltOut(all[1..])
    ensures SpeltOut(all) == all[0].Spelt() + rest && (rest == "" || rest[0] == ',')
  {
  }

  /** A key and a value stand at `i`, and what follows them at `next`. */
  ghost predicate OneStands(text: string, i: nat, key: nat, value: string, next: nat)
    requires i <= |text|
  {
    var eq := Until(text, i, {'=', ',', '"'});
    && eq < |text| && text[eq] == '=' && KeyNamed(Trimmed(text[i..eq]), 0) == key
    && ValueAt(text, PastBlanks(text, eq + 1)) == Some((value, next))
  }

  lemma StepIsRead(text: string, i: nat, v: VoiceRequest, key: nat, value: string, next: nat)
    requires i <= |text| && key < |VOICE_KEYS| && value != "" && next <= |text|
    requires OneStands(text, i, key, value, next)
    ensures next == |text| ==> ReadVoice(text, i, v) == Some(Put(v, key, value))
    ensures next < |text| && text[next] == ',' && i <= next ==>
              ReadVoice(text, i, v) == ReadVoice(text, next + 1, Put(v, key, value))
  {
    hide Put, ReadVoice, ValueAt, Until, PastBlanks, Trimmed, KeyNamed;
    ReadVoiceStep(text, i, v);
  }

  lemma NoMore(v: VoiceRequest)
    ensures Request([], v) == v
  {
  }

  lemma RequestOf(all: seq<Asked>, v: VoiceRequest, key: nat)
    requires all != [] && all[0].Valid() && key < 5 && VOICE_KEYS[key] == all[0].key
    ensures Request(all, v) == Request(all[1..], Put(v, key, all[0].value))
  {
    hide LastOf, ShapeOf;
    var a := all[0];
    OneLast(all, "Speaker", v.speaker);
    OneLast(all, "Language", v.language);
    OneLast(all, "Accent", v.accent);
    OneShape(all, v.shape);
    assert VOICE_KEYS[0] == "Speaker" && VOICE_KEYS[1] == "Language" && VOICE_KEYS[2] == "Accent";
    assert VOICE_KEYS[3] == "Gender" && VOICE_KEYS[4] == "Age";
    KeyNamesApart();
  }

  lemma OneLast(all: seq<Asked>, key: string, before: string)
    requires all != []
    ensures LastOf(all, key, before) == LastOf(all[1..], key, if all[0].key == key then all[0].value else before)
  {
  }

  lemma OneShape(all: seq<Asked>, before: string)
    requires all != []
    ensures ShapeOf(all, before)
         == if all[0].key !in {"Gender", "Age"} then ShapeOf(all[1..], before)
            else ShapeOf(all[1..], before + (if before == "" then "" else ",") + all[0].key + "=\"" + all[0].value
                                   + "\"")
  {
  }

  lemma KeyNamesApart()
    ensures "Speaker" !in {"Language", "Accent", "Gender", "Age"} && "Language" !in {"Accent", "Gender", "Age"}
    ensures "Accent" !in {"Gender", "Age"} && "Gender" != "Age"
  {
    assert |"Speaker"| == 7 && |"Language"| == 8 && |"Accent"| == 6 && |"Gender"| == 6 && |"Age"| == 3;
    assert "Accent"[0] == 'A' && "Gender"[0] == 'G';
  }

  /** What stands at `i` of a text, and what after it. */
  lemma Here(text: string, i: nat, part: string, rest: string)
    requires i <= |text| && text[i..] == part + rest
    ensures i + |part| <= |text| && text[i..i + |part|] == part && text[i + |part|..] == rest
    ensures rest != "" ==> i + |part| < |text| && text[i + |part|] == rest[0]
    ensures |text| - |rest| == i + |part|
  {
    var tail := text[i..];
    assert |tail| == |part| + |rest|;
    assert tail[..|part|] == part && tail[|part|..] == rest;
  }

  lemma UntilAfter(text: string, i: nat, part: string, stops: set<char>)
    requires i + |part| <= |text| && text[i..i + |part|] == part && forall k | 0 <= k < |part| :: part[k] !in stops
    requires i + |part| == |text| || text[i + |part|] in stops
    ensures Until(text, i, stops) == i + |part|
  {
    forall k | i <= k < i + |part| ensures text[k] !in stops {
      assert text[i..i + |part|][k - i] == text[k];
    }
    UntilIs(text, i, stops, i + |part|);
  }

  /** One key and its value, at `i` of a text that goes on with `rest`. */
  lemma OneIsRead(text: string, i: nat, a: Asked, rest: string) returns (key: nat)
    requires i <= |text| && a.Valid() && text[i..] == a.Spelt() + rest && (rest == "" || rest[0] == ',')
    ensures key < 5 && VOICE_KEYS[key] == a.key && a.value != ""
    ensures i <= |text| - |rest| && text[|text| - |rest|..] == rest
    ensures OneStands(text, i, key, a.value, |text| - |rest|)
  {
    hide *;
    ValidIs(a);
    Spelling(a, rest);
    key := KeyIsRead(text, i, a, a.gap + (a.Given() + rest));
    ValueIsRead(text, i + |a.Name()| + 1, a, rest);
    Stands(text, i, key, i + |a.Name()|, a.value, |text| - |rest|);
  }

  lemma Stands(text: string, i: nat, key: nat, eq: nat, value: string, next: nat)
    requires i <= |text| && eq == Until(text, i, {'=', ',', '"'}) < |text| && text[eq] == '='
    requires KeyNamed(Trimmed(text[i..eq]), 0) == key
    requires ValueAt(text, PastBlanks(text, eq + 1)) == Some((value, next))
    ensures OneStands(text, i, key, value, next)
  {
  }

  lemma ValueIsRead(text: string, i: nat, a: Asked, rest: string)
    requires i <= |text| && a.Valid() && (rest == "" || rest[0] == ',') && text[i..] == a.gap + (a.Given() + rest)
    ensures ValueAt(text, PastBlanks(text, i)) == Some((a.value, |text| - |rest|))
    ensures i <= |text| - |rest| && text[|text| - |rest|..] == rest
  {
    hide Blank, Until, PastBlanks, ValueAt, SameName;
    ValidIs(a);
    Here(text, i, a.gap, a.Given() + rest);
    var p := i + |a.gap|;
    Here(text, p, a.Given(), rest);
    GivenStarts(a, rest);
    BlanksPassed(text, i, a.gap);
    if a.quoted {
      QuotedIsRead(text, p, a.value, a.end, rest);
    } else {
      BareIsRead(text, p, a.value, a.end, rest);
    }
  }

  lemma GivenStarts(a: Asked, rest: string)
    requires a.Valid()
    ensures a.Given() != "" && !Blank((a.Given() + rest)[0])
  {
  }

  lemma ValidIs(a: Asked)
    requires a.Valid()
    ensures a.key in {"Speaker", "Language", "Accent", "Gender", "Age"} && a.value != "" && SameName(a.cased, a.key)
    ensures AllBlank(a.front) && AllBlank(a.back) && AllBlank(a.gap) && AllBlank(a.end)
    ensures if a.quoted then '"' !in a.value
            else !Blank(a.value[0]) && !Blank(a.value[|a.value| - 1]) && '"' !in a.value && ',' !in a.value
  {
  }

  lemma KeyIsRead(text: string, i: nat, a: Asked, rest: string) returns (k: nat)
    requires i <= |text| && text[i..] == a.Name() + ("=" + rest) && a.Valid()
    ensures k < 5 && VOICE_KEYS[k] == a.key
    ensures var eq := Until(text, i, {'=', ',', '"'});
            && eq == i + |a.Name()| < |text| && text[eq] == '=' && KeyNamed(Trimmed(text[i..eq]), 0) == k
            && text[eq + 1..] == rest
  {
    hide Trimmed, KeyNamed, Until, SameName, Blank;
    Here(text, i, a.Name(), "=" + rest);
    Here(text, i + |a.Name()|, "=", rest);
    CasedChars(a.cased, a.key);
    NameChars(a);
    UntilAfter(text, i, a.Name(), {'=', ',', '"'});
    k := KeyIs(a.key, a.cased);
    TrimmedWithin(a.front, a.cased, a.back);
  }

  lemma Spelling(a: Asked, rest: string)
    ensures a.Spelt() + rest == a.Name() + ("=" + (a.gap + (a.Given() + rest)))
  {
    hide *;
    SpeltIs(a);
    Assoc(a.Name(), "=", a.gap + a.Given());
    Assoc(a.Name(), "=" + (a.gap + a.Given()), rest);
    Assoc("=", a.gap + a.Given(), rest);
    Assoc(a.gap, a.Given(), rest);
  }

  lemma SpeltIs(a: Asked)
    ensures a.Spelt() == a.Name() + "=" + (a.gap + a.Given())
  {
  }

  lemma NameChars(a: Asked)
    requires AllBlank(a.front) && AllBlank(a.back)
    requires forall k | 0 <= k < |a.cased| :: a.cased[k] !in {'=', ',', '"'}
    ensures forall k | 0 <= k < |a.Name()| :: a.Name()[k] !in {'=', ',', '"'}
  {
    BlankIsNoStop(a.front);
    BlankIsNoStop(a.back);
  }

  lemma BlankIsNoStop(text: string)
    requires AllBlank(text)
    ensures forall k | 0 <= k < |text| :: text[k] !in {'=', ',', '"'}
  {
  }

  lemma KeyChars(key: string)
    requires key in {"Speaker", "Language", "Accent", "Gender", "Age"}
    ensures key != "" && forall k | 0 <= k < |key| :: 'A' <= key[k] <= 'Z' || 'a' <= key[k] <= 'z'
  {
  }

  lemma CasedChars(cased: string, key: string)
    requires key in {"Speaker", "Language", "Accent", "Gender", "Age"} && SameName(cased, key)
    ensures cased != ""
    ensures forall k | 0 <= k < |cased| :: cased[k] !in {'=', ',', '"'} && !Blank(cased[k])
  {
    KeyChars(key);
    assert |Lowered(cased)| == |Lowered(key)|;
    forall k | 0 <= k < |cased| ensures cased[k] !in {'=', ',', '"'} && !Blank(cased[k]) {
      assert Lowered(cased)[k] == Lowered(key)[k];
    }
  }

  lemma TrimmedWithin(front: string, text: string, back: string)
    requires AllBlank(front) && AllBlank(back) && text != "" && !Blank(text[0]) && !Blank(text[|text| - 1])
    ensures Trimmed(front + (text + back)) == text
  {
    hide Blank;
    var all := front + (text + back);
    assert all[0..0 + |front|] == front && all[|front|] == text[0] && all[|front|..] == text + back;
    BlanksPassed(all, 0, front);
    EndTrimmed(text, back);
  }

  lemma {:induction false} EndTrimmed(text: string, back: string)
    requires AllBlank(back) && text != "" && !Blank(text[|text| - 1])
    ensures TrimEnd(text + back) == text
    decreases |back|
  {
    hide Blank;
    if back == "" {
      assert text + back == text;
    } else {
      var n := |back| - 1;
      assert (text + back)[..|text + back| - 1] == text + back[..n];
      EndTrimmed(text, back[..n]);
    }
  }

  lemma KeyIs(key: string, cased: string) returns (k: nat)
    requires key in {"Speaker", "Language", "Accent", "Gender", "Age"} && SameName(cased, key)
    ensures k < 5 && VOICE_KEYS[k] == key && KeyNamed(cased, 0) == k
  {
    hide Lowered;
    k := if key == "Speaker" then 0 else if key == "Language" then 1 else if key == "Accent" then 2
         else if key == "Gender" then 3 else 4;
    assert VOICE_KEYS[0] == "Speaker" && VOICE_KEYS[1] == "Language" && VOICE_KEYS[2] == "Accent";
    assert VOICE_KEYS[3] == "Gender" && VOICE_KEYS[4] == "Age";
    forall j | 0 <= j < k ensures !SameName(cased, VOICE_KEYS[j]) {
      KeysDiffer(j, k);
    }
    KeyFrom(cased, 0, k);
  }

  lemma KeysDiffer(j: nat, k: nat)
    requires j < k < 5
    ensures !SameName(VOICE_KEYS[k], VOICE_KEYS[j])
  {
    var a, b := VOICE_KEYS[k], VOICE_KEYS[j];
    assert |a| != |b| || Lowered(a)[0] != Lowered(b)[0];
  }

  lemma {:induction false} KeyFrom(key: string, from: nat, k: nat)
    requires from <= k < 5 && SameName(key, VOICE_KEYS[k]) && forall j | from <= j < k :: !SameName(key, VOICE_KEYS[j])
    ensures KeyNamed(key, from) == k
    decreases k - from
  {
    hide Lowered;
    if from < k {
      KeyFrom(key, from + 1, k);
    }
  }

  lemma QuotedIsRead(text: string, i: nat, value: string, end: string, rest: string)
    requires i <= |text| && '"' !in value && AllBlank(end) && (rest == "" || rest[0] == ',')
    requires text[i..] == "\"" + value + "\"" + end + rest
    ensures ValueAt(text, i) == Some((value, |text| - |rest|))
  {
    hide *;
    var close := i + 1 + |value|;
    InQuotes(value, end, rest);
    Here(text, i, "\"", value + ("\"" + (end + rest)));
    Here(text, i + 1, value, "\"" + (end + rest));
    Closing(text, close, end, rest);
    UntilAfter(text, i + 1, value, {'"'});
    QuotedAt(text, i);
  }

  /** The quote that closes a value, and the blanks after it. */
  lemma Closing(text: string, close: nat, end: string, rest: string)
    requires close <= |text| && text[close..] == "\"" + (end + rest) && AllBlank(end) && (rest == "" || rest[0] == ',')
    ensures close < |text| && text[close] == '"' && PastBlanks(text, close + 1) == |text| - |rest|
  {
    hide PastBlanks, Blank;
    Here(text, close, "\"", end + rest);
    Here(text, close + 1, end, rest);
    CommaIsNoBlank();
    BlanksPassed(text, close + 1, end);
  }

  lemma CommaIsNoBlank()
    ensures !Blank(',')
  {
  }

  lemma InQuotes(value: string, end: string, rest: string)
    ensures "\"" + value + "\"" + end + rest == "\"" + (value + ("\"" + (end + rest)))
  {
  }

  lemma QuotedAt(text: string, i: nat)
    requires i < |text| && text[i] == '"'
    ensures var close := Until(text, i + 1, {'"'});
            ValueAt(text, i)
              == if close == |text| then None else Some((text[i + 1..close], PastBlanks(text, close + 1)))
  {
    hide Until, PastBlanks;
  }

  lemma BareIsRead(text: string, i: nat, value: string, end: string, rest: string)
    requires i <= |text| && AllBlank(end) && (rest == "" || rest[0] == ',') && text[i..] == (value + end) + rest
    requires value != "" && !Blank(value[0]) && !Blank(value[|value| - 1]) && '"' !in value && ',' !in value
    ensures ValueAt(text, i) == Some((value, |text| - |rest|))
  {
    hide Until, Trimmed, Blank;
    Here(text, i, value + end, rest);
    BlankIsNoStop(end);
    UntilAfter(text, i, value + end, {',', '"'});
    TrimmedWithin("", value, end);
    assert "" + (value + end) == value + end;
    assert text[i] == value[0];
  }
}
