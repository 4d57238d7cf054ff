/** Control tags in an application's text: which there are, how one is read, and how a text is
    scanned into tags and the text between them. */
module Tags {
  import opened Wrappers
  import opened Chars

  datatype Effect = Pitch | Rate | Volume | VoiceParams

  datatype Kind = Text | Engine | Pause | Bookmark | Voice

  datatype ValueKind = NoValue | Number | Any | VoiceValue

  datatype Spec = Spec(name: string, value: ValueKind, kind: Kind, effects: set<Effect>)

  const SPECS: seq<Spec> := [
    Spec("pit", Number, Engine, {Pitch}),
    Spec("spd", Number, Engine, {Rate}),
    Spec("vol", Number, Engine, {Volume}),
    Spec("rst", NoValue, Engine, {Pitch, Rate, VoiceParams}),
    Spec("vce", VoiceValue, Voice, {}),
    Spec("pau", Number, Pause, {}),
    Spec("mrk", Number, Bookmark, {}),
    Spec("emp", NoValue, Engine, {}),
    Spec("chr", Any, Engine, {}),
    Spec("com", Any, Engine, {}),
    Spec("ctx", Any, Engine, {}),
    Spec("prn", Any, Engine, {}),
    Spec("pro", Any, Engine, {}),
    Spec("prt", Any, Engine, {})]

  const VOICE_KEYS: seq<string> := ["Speaker", "Language", "Accent", "Gender", "Age"]

  const LONGEST_TAG: nat := 256

  datatype Token = Token(kind: Kind, begin: nat, length: nat, effects: set<Effect>, number: nat,
                         value: string, tag: string, voice: VoiceRequest)

  /** What a \Vce= tag asks for: a voice by name, language and accent, which are carried out by
      splitting the text, and `shape`, the rest, which goes on to the engine. */
  datatype VoiceRequest = VoiceRequest(speaker: string, language: string, accent: string, shape: string)

  const NO_VOICE: VoiceRequest := VoiceRequest("", "", "", "")

  // ------------------------------------------------------------------------------------------
  // Values
  // ------------------------------------------------------------------------------------------

  function WholeNumber(text: string): Option<nat> {
    if |text| == 0 || |text| > 10 || exists i :: 0 <= i < |text| && !Digit(text[i]) then None
    else if NumberOf(text) > 0xFFFF_FFFF then None
    else Some(NumberOf(text))
  }

  function KeyNamed(key: string, from: nat): (k: nat)
    requires from <= |VOICE_KEYS|
    ensures from <= k <= |VOICE_KEYS| && (k < |VOICE_KEYS| ==> SameName(key, VOICE_KEYS[k]))
    decreases |VOICE_KEYS| - from
  {
    if from == |VOICE_KEYS| || SameName(key, VOICE_KEYS[from]) then from else KeyNamed(key, from + 1)
  }

  /** A value and where reading goes on: quoted, with white space allowed after it, or bare. */
  function ValueAt(text: string, i: nat): (r: Option<(string, nat)>)
    requires i <= |text|
    ensures r.Some? ==> i <= r.value.1 <= |text|
  {
    if i < |text| && text[i] == '"' then
      var close := Until(text, i + 1, {'"'});
      if close == |text| then None
      else Some((text[i + 1..close], PastBlanks(text, close + 1)))
    else
      var end := Until(text, i, {',', '"'});
      if end < |text| && text[end] == '"' then None else Some((Trimmed(text[i..end]), end))
  }

  function Put(v: VoiceRequest, key: nat, value: string): VoiceRequest
    requires key < |VOICE_KEYS|
  {
    if key == 0 then v.(speaker := value)
    else if key == 1 then v.(language := value)
    else if key == 2 then v.(accent := value)
    else v.(shape := v.shape + (if v.shape == "" then "" else ",") + VOICE_KEYS[key] + "=\"" + value + "\"")
  }

  /** Key=value, key=value, ... from `i` on, added to `v`. */
  function ReadVoice(text: string, i: nat, v: VoiceRequest): Option<VoiceRequest>
    requires i <= |text|
    decreases |text| - i
  {
    var eq := Until(text, i, {'=', ',', '"'});
    if eq == |text| || text[eq] != '=' then None
    else
      var key := KeyNamed(Trimmed(text[i..eq]), 0);
      if key == |VOICE_KEYS| then None
      else
        match ValueAt(text, PastBlanks(text, eq + 1))
        case None => None
        case Some((value, next)) =>
          if value == "" then None
          else if next == |text| then Some(Put(v, key, value))
          else if text[next] != ',' then None
          else ReadVoice(text, next + 1, Put(v, key, value))
  }

  // ------------------------------------------------------------------------------------------
  // One tag
  // ------------------------------------------------------------------------------------------

  function SpecNamed(name: string, from: nat): (k: nat)
    requires from <= |SPECS|
    ensures from <= k <= |SPECS| && (k < |SPECS| ==> SameName(name, SPECS[k].name))
    decreases |SPECS| - from
  {
    if from == |SPECS| || SameName(name, SPECS[from].name) then from else SpecNamed(name, from + 1)
  }

  /** The name in front of the first '=', or the whole. */
  function NameOf(inner: string): string {
    inner[..Until(inner, 0, {'='})]
  }

  /** The inside of a tag, read the way its name calls for. */
  function ReadAs(spec: Spec, inner: string): (r: Option<Token>)
    requires spec.kind != Text
    ensures r.Some? ==> r.value.kind == spec.kind
  {
    var eq := Until(inner, 0, {'='});
    var hasValue := eq < |inner|;
    var value := if hasValue then inner[eq + 1..] else "";
    var plain := Token(spec.kind, 0, |inner| + 2, spec.effects, 0, value, "\\" + inner + "\\", NO_VOICE);
    match spec.value
    case NoValue => if hasValue then None else Some(plain)
    case Any => if value == "" then None else Some(plain)
    case Number =>
      if !hasValue || WholeNumber(value).None? then None
      else Some(plain.(number := WholeNumber(value).value))
    case VoiceValue =>
      if !hasValue then None
      else
        match ReadVoice(value, 0, NO_VOICE)
        case None => None
        case Some(v) =>
          Some(plain.(tag := if v.shape == "" then "" else "\\Vce=" + v.shape + "\\",
                      effects := if v.shape == "" then {} else {VoiceParams}, voice := v))
  }

  function ReadInner(inner: string): (r: Option<Token>)
    ensures r.Some? ==> r.value.kind != Text
  {
    var k := SpecNamed(NameOf(inner), 0);
    if k == |SPECS| then None else SpecsAreTags(k); ReadAs(SPECS[k], inner)
  }

  lemma SpecsAreTags(k: nat)
    requires k < |SPECS|
    ensures SPECS[k].kind != Text
  {
  }

  /** The tag whose opening backslash is at `at`: it closes at the next backslash, if that leaves at
      most 256 characters between the two. */
  function ReadTag(text: string, at: nat): (r: Option<Token>)
    requires at < |text|
    ensures r.Some? ==> 2 <= r.value.length && at + r.value.length <= |text|
    ensures r.Some? ==> r.value.begin == at && r.value.kind != Text
  {
    var close := Until(text, at + 1, {'\\'});
    if close == |text| || close - at - 1 > LONGEST_TAG then None
    else
      match ReadInner(text[at + 1..close])
      case None => None
      case Some(t) => Some(t.(begin := at, length := close - at + 1))
  }

  predicate TagAt(text: string, at: nat)
    requires at < |text|
  {
    text[at] == '\\' && ReadTag(text, at).Some?
  }

  // ------------------------------------------------------------------------------------------
  // The scanner
  // ------------------------------------------------------------------------------------------

  function TextToken(begin: nat, length: nat): Token {
    Token(Text, begin, length, {}, 0, "", "", NO_VOICE)
  }

  function CloseText(begin: nat, end: nat): seq<Token> {
    if end > begin then [TextToken(begin, end - begin)] else []
  }

  /** The tokens from `begin` on, when no tag starts in [begin, i). */
  function ScanFrom(text: string, begin: nat, i: nat): seq<Token>
    requires begin <= i <= |text|
    decreases |text| - i
  {
    if i == |text| then CloseText(begin, i)
    else if TagAt(text, i) then
      var t := ReadTag(text, i).value;
      CloseText(begin, i) + [t] + ScanFrom(text, i + t.length, i + t.length)
    else ScanFrom(text, begin, i + 1)
  }

  function Scan(text: string): seq<Token> { ScanFrom(text, 0, 0) }

  /** A tag token is what ReadTag finds where it begins; a text token is not empty, holds no position
      at which a tag could be read, and does not follow another. */
  ghost predicate IsToken(text: string, t: Token, afterText: bool) {
    && 0 < t.length && t.begin + t.length <= |text|
    && (if t.kind == Text then
          && !afterText && t == TextToken(t.begin, t.length)
          && forall p | t.begin <= p < t.begin + t.length :: !TagAt(text, p)
        else TagAt(text, t.begin) && t == ReadTag(text, t.begin).value)
  }

  /** Tokens that tile the text from `at` to its end. */
  ghost predicate IsScan(text: string, at: nat, tokens: seq<Token>, afterText: bool)
    requires at <= |text|
    decreases |tokens|
  {
    if tokens == [] then at == |text|
    else
      && tokens[0].begin == at && IsToken(text, tokens[0], afterText)
      && IsScan(text, at + tokens[0].length, tokens[1..], tokens[0].kind == Text)
  }

  lemma IsScanCons(text: string, t: Token, tokens: seq<Token>, afterText: bool)
    requires IsToken(text, t, afterText)
    requires IsScan(text, t.begin + t.length, tokens, t.kind == Text)
    ensures IsScan(text, t.begin, [t] + tokens, afterText)
  {
    hide ReadTag;
    assert ([t] + tokens)[1..] == tokens;
  }

  lemma {:induction false} ScanFromIsScan(text: string, begin: nat, i: nat, afterText: bool)
    requires begin <= i <= |text| && forall p | begin <= p < i :: !TagAt(text, p)
    requires afterText ==> begin == |text| || TagAt(text, begin)
    ensures IsScan(text, begin, ScanFrom(text, begin, i), afterText)
    decreases |text| - i, begin < i
  {
    hide ReadTag;
    if i == |text| {
      if begin < i {
        IsScanCons(text, TextToken(begin, i - begin), [], false);
      }
    } else if !TagAt(text, i) {
      ScanFromIsScan(text, begin, i + 1, false);
    } else if begin < i {
      ScanFromIsScan(text, i, i, true);
      var rest := ScanFrom(text, i, i);
      IsScanCons(text, TextToken(begin, i - begin), rest, false);
      var t := ReadTag(text, i).value;
      var more := ScanFrom(text, i + t.length, i + t.length);
      assert rest == [] + [t] + more;
      assert [TextToken(begin, i - begin)] + rest == [TextToken(begin, i - begin)] + [t] + more;
    } else {
      var t := ReadTag(text, i).value;
      ScanFromIsScan(text, i + t.length, i + t.length, false);
      IsScanCons(text, t, ScanFrom(text, i + t.length, i + t.length), afterText);
    }
  }

  /** Scan does tile the text that way ... */
  lemma ScanTiles(text: string)
    ensures IsScan(text, 0, Scan(text), false)
  {
    ScanFromIsScan(text, 0, 0, false);
  }

  /** ... and nothing else does. */
  lemma {:induction false} ScanIsUnique(text: string, at: nat, a: seq<Token>, b: seq<Token>, afterText: bool)
    requires at <= |text| && IsScan(text, at, a, afterText) && IsScan(text, at, b, afterText)
    ensures a == b
    decreases |a|
  {
    hide ReadTag;
    if a != [] && b != [] {
      FirstTokenIsUnique(text, at, a, b, afterText);
      ScanIsUnique(text, at + a[0].length, a[1..], b[1..], a[0].kind == Text);
      assert a == [a[0]] + a[1..] && b == [b[0]] + b[1..];
    }
  }

  lemma FirstTokenIsUnique(text: string, at: nat, a: seq<Token>, b: seq<Token>, afterText: bool)
    requires at < |text| && IsScan(text, at, a, afterText) && IsScan(text, at, b, afterText)
    ensures a[0] == b[0]
  {
    hide ReadTag;
    if !TagAt(text, at) {
      TextEnds(text, at, a, afterText);
      TextEnds(text, at, b, afterText);
    }
  }

  /** A text token goes on up to the next tag or the end. */
  lemma TextEnds(text: string, at: nat, a: seq<Token>, afterText: bool)
    requires at < |text| && IsScan(text, at, a, afterText) && !TagAt(text, at)
    ensures var end := at + a[0].length;
            && a[0] == TextToken(at, end - at)
            && (end < |text| ==> TagAt(text, end))
            && forall p | at <= p < end :: !TagAt(text, p)
  {
    hide ReadTag;
    assert IsScan(text, at + a[0].length, a[1..], true);
  }

  /** A tag as it stands in a text: at least one character and at most 256 between two backslashes,
      none of them a backslash. */
  predicate IsTag(s: string) {
    |s| >= 3 && s[0] == '\\' && s[|s| - 1] == '\\' && forall k | 0 < k < |s| - 1 :: s[k] != '\\'
  }

  lemma TagShape(text: string, at: nat)
    requires at < |text| && TagAt(text, at)
    ensures var t := ReadTag(text, at).value;
            && IsTag(text[at..at + t.length]) && t.length <= LONGEST_TAG + 2
            && (t.kind != Voice ==> t.tag == text[at..at + t.length])
            && (t.kind == Voice && t.tag != "" ==> IsVoiceTag(t.tag))
  {
    hide ReadInner, IsVoiceTag;
    var close := Until(text, at + 1, {'\\'});
    var inner := text[at + 1..close];
    assert text[at..close + 1] == "\\" + inner + "\\";
    InnerShape(inner);
  }

  predicate IsVoiceTag(s: string) {
    IsTag(s) && SameName(NameOf(s[1..|s| - 1]), "vce")
  }

  lemma InnerShape(inner: string)
    requires '\\' !in inner && ReadInner(inner).Some?
    ensures var t := ReadInner(inner).value;
            && inner != ""
            && (t.kind != Voice ==> t.tag == "\\" + inner + "\\")
            && (t.kind == Voice && t.tag != "" ==> IsVoiceTag(t.tag))
  {
    hide SpecNamed, ReadAs, IsVoiceTag;
    NoEmptyName();
    var k := SpecNamed(NameOf(inner), 0);
    AsShape(SPECS[k], inner);
  }

  lemma AsShape(spec: Spec, inner: string)
    requires spec.kind != Text && '\\' !in inner && ReadAs(spec, inner).Some?
    requires spec.value == VoiceValue <==> spec.kind == Voice
    ensures var t := ReadAs(spec, inner).value;
            && (t.kind != Voice ==> t.tag == "\\" + inner + "\\")
            && (t.kind == Voice && t.tag != "" ==> IsVoiceTag(t.tag))
  {
    hide IsVoiceTag, ReadVoice, WholeNumber;
    var t := ReadAs(spec, inner).value;
    if t.kind == Voice && t.tag != "" {
      var value := inner[Until(inner, 0, {'='}) + 1..];
      assert ReadVoice(value, 0, NO_VOICE).Some?;
      ShapeHasNoBackslash(value, 0, NO_VOICE);
      VoiceTagShape(t.voice.shape);
    }
  }

  lemma VoiceTagShape(shape: string)
    requires '\\' !in shape
    ensures IsVoiceTag("\\Vce=" + shape + "\\")
  {
    var mid := "Vce=" + shape;
    var tag := "\\Vce=" + shape + "\\";
    assert tag[1..|tag| - 1] == mid;
    UntilIs(mid, 0, {'='}, 3);
    assert mid[..3] == "Vce";
    assert Lowered("Vce") == "vce" == Lowered("vce");
  }

  lemma NoEmptyName()
    ensures SpecNamed("", 0) == |SPECS|
    ensures forall k | 0 <= k < |SPECS| :: SPECS[k].value == VoiceValue <==> SPECS[k].kind == Voice
  {
    NoMatch("", 0);
  }

  lemma {:induction false} NoMatch(name: string, from: nat)
    requires from <= |SPECS| && forall k | from <= k < |SPECS| :: |SPECS[k].name| != |name|
    ensures SpecNamed(name, from) == |SPECS|
    decreases |SPECS| - from
  {
  }

  lemma {:induction false} ShapeHasNoBackslash(text: string, i: nat, v: VoiceRequest)
    requires i <= |text| && '\\' !in text && '\\' !in v.shape && ReadVoice(text, i, v).Some?
    ensures '\\' !in ReadVoice(text, i, v).value.shape
    decreases |text| - i
  {
    hide ValueAt, Put, Trimmed;
    var eq := Until(text, i, {'=', ',', '"'});
    var key := KeyNamed(Trimmed(text[i..eq]), 0);
    var start := PastBlanks(text, eq + 1);
    var (value, next) := ValueAt(text, start).value;
    ValueIsFromText(text, start);
    PutHasNoBackslash(v, key, value);
    if next < |text| {
      ShapeHasNoBackslash(text, next + 1, Put(v, key, value));
    }
  }

  lemma ValueIsFromText(text: string, i: nat)
    requires i <= |text| && ValueAt(text, i).Some?
    ensures forall c <- ValueAt(text, i).value.0 :: c in text
  {
  }

  lemma PutHasNoBackslash(v: VoiceRequest, key: nat, value: string)
    requires key < |VOICE_KEYS| && '\\' !in value && '\\' !in v.shape
    ensures '\\' !in Put(v, key, value).shape
  {
    assert '\\' !in VOICE_KEYS[3] && '\\' !in VOICE_KEYS[4];
  }

  // ------------------------------------------------------------------------------------------
  // What the engine makes of a tag
  // ------------------------------------------------------------------------------------------

  function NameIn(tag: string): string {
    if |tag| < 2 then "" else NameOf(tag[1..|tag| - 1])
  }

  /** What a tag of this name has an effect on. */
  function EffectsNamed(name: string): set<Effect> {
    var k := SpecNamed(name, 0);
    if k == |SPECS| then {} else if SPECS[k].kind == Voice then {VoiceParams} else SPECS[k].effects
  }

  /** A tag for the engine, with the effects it has there. */
  predicate EngineTag(tag: string, effects: set<Effect>) { IsTag(tag) && EffectsNamed(NameIn(tag)) == effects }

  /** Every tag that is passed on to the engine is recorded with just the effects the engine gives it. */
  lemma EffectsAreHad(text: string, at: nat)
    requires at < |text| && TagAt(text, at)
    ensures var t := ReadTag(text, at).value;
            (t.kind == Engine || t.kind == Voice) && t.tag != "" ==> EngineTag(t.tag, t.effects)
  {
    hide ReadInner, IsTag, EffectsNamed, NameIn, IsVoiceTag;
    TagShape(text, at);
    InnerEffects(text[at + 1..Until(text, at + 1, {'\\'})]);
    VoiceTagsAreTags(ReadTag(text, at).value.tag);
  }

  lemma VoiceTagsAreTags(tag: string)
    ensures IsVoiceTag(tag) ==> IsTag(tag)
  {
  }

  lemma InnerEffects(inner: string)
    requires ReadInner(inner).Some?
    ensures var t := ReadInner(inner).value;
            (t.kind == Engine || t.kind == Voice) && t.tag != "" ==> EffectsNamed(NameIn(t.tag)) == t.effects
  {
    hide ReadAs, SpecNamed, NameIn, NameOf;
    var k := SpecNamed(NameOf(inner), 0);
    VoicesAreVoices(k);
    AsEffects(SPECS[k], inner);
    InsideIs(inner);
    VceIsVoice();
  }

  lemma VoicesAreVoices(k: nat)
    requires k < |SPECS|
    ensures SPECS[k].value == VoiceValue <==> SPECS[k].kind == Voice
  {
  }

  lemma InsideIs(inner: string)
    ensures NameIn("\\" + inner + "\\") == NameOf(inner)
  {
  }

  /** What a tag is read as, and under which name it is passed on. */
  lemma AsEffects(spec: Spec, inner: string)
    requires spec.kind != Text && ReadAs(spec, inner).Some? && (spec.value == VoiceValue <==> spec.kind == Voice)
    ensures var t := ReadAs(spec, inner).value;
            && (t.kind != Voice ==> t.tag == "\\" + inner + "\\" && t.effects == spec.effects)
            && (t.kind == Voice && t.tag != "" ==> NameIn(t.tag) == "Vce" && t.effects == {VoiceParams})
  {
    hide ReadVoice, WholeNumber, NameIn;
    var t := ReadAs(spec, inner).value;
    if t.kind == Voice && t.tag != "" {
      VceIn(t.voice.shape);
    }
  }

  lemma VceIn(shape: string)
    ensures NameIn("\\Vce=" + shape + "\\") == "Vce"
  {
    var mid := "Vce=" + shape;
    assert "\\Vce=" + shape + "\\" == "\\" + mid + "\\";
    InsideIs(mid);
    UntilIs(mid, 0, {'='}, 3);
    assert mid[..3] == "Vce";
  }

  lemma VceIsVoice()
    ensures EffectsNamed("Vce") == {VoiceParams} && SpecNamed("Vce", 0) == 4
  {
    hide Lowered;
    LoweredVce();
    forall k | 0 <= k < 4 ensures !SameName("Vce", SPECS[k].name) {
      NotVce(k);
    }
    assert SpecNamed("Vce", 0) == SpecNamed("Vce", 1) == SpecNamed("Vce", 2) == SpecNamed("Vce", 3);
    assert SpecNamed("Vce", 3) == SpecNamed("Vce", 4) == 4;
  }

  lemma LoweredVce()
    ensures Lowered("Vce") == "vce" == Lowered("vce")
  {
  }

  lemma NotVce(k: nat)
    requires k < 4
    ensures !SameName("Vce", SPECS[k].name)
  {
    assert Lowered("Vce")[1] == 'c';
    assert Lowered(SPECS[k].name)[1] == SPECS[k].name[1] != 'c';
  }

  // ------------------------------------------------------------------------------------------
  // The readers
  // ------------------------------------------------------------------------------------------

  method FindAny(text: string, from: nat, stops: set<char>) returns (i: nat)
    requires from <= |text|
    ensures i == Until(text, from, stops)
  {
    i := from;
    while i < |text| && text[i] !in stops
      invariant from <= i <= |text| && Until(text, from, stops) == Until(text, i, stops)
    {
      i := i + 1;
    }
  }

  method SkipBlanks(text: string, from: nat) returns (i: nat)
    requires from <= |text|
    ensures i == PastBlanks(text, from)
  {
    i := from;
    while i < |text| && Blank(text[i])
      invariant from <= i <= |text| && PastBlanks(text, from) == PastBlanks(text, i)
    {
      i := i + 1;
    }
  }

  method ReadVoiceValue(text: string, from: nat) returns (ok: bool, value: string, i: nat)
    requires from <= |text|
    ensures ok == ValueAt(text, from).Some?
    ensures ok ==> (value, i) == ValueAt(text, from).value
  {
    i, value := from, "";
    if i < |text| && text[i] == '"' {
      var open := i + 1;
      i := FindAny(text, open, {'"'});
      if i == |text| {
        return false, value, i;
      }
      value := text[open..i];
      i := SkipBlanks(text, i + 1);
    } else {
      var open := i;
      i := FindAny(text, open, {',', '"'});
      if i < |text| && text[i] == '"' {
        return false, value, i;
      }
      value := Trimmed(text[open..i]);
    }
    ok := true;
  }

  /** read_voice: key by key, the request built up as it goes. */
  method ReadVoiceTag(text: string) returns (r: Option<VoiceRequest>)
    ensures r == ReadVoice(text, 0, NO_VOICE)
  {
    r := Some(NO_VOICE);
    var i, more := 0, true;
    while more
      invariant 0 <= i <= |text|
      invariant more ==> r.Some? && ReadVoice(text, 0, NO_VOICE) == ReadVoice(text, i, r.value)
      invariant !more ==> r == ReadVoice(text, 0, NO_VOICE)
      decreases more, |text| - i
    {
      r, i, more := ReadKey(text, i, r.value);
    }
  }

  lemma ReadVoiceStep(text: string, i: nat, v: VoiceRequest)
    requires i <= |text|
    ensures var eq := Until(text, i, {'=', ',', '"'});
            ReadVoice(text, i, v) ==
              if eq == |text| || text[eq] != '=' then None
              else
                var key := KeyNamed(Trimmed(text[i..eq]), 0);
                if key == |VOICE_KEYS| then None
                else
                  match ValueAt(text, PastBlanks(text, eq + 1))
                  case None => None
                  case Some((value, next)) =>
                    if value == "" then None
                    else if next == |text| then Some(Put(v, key, value))
                    else if text[next] != ',' then None
                    else ReadVoice(text, next + 1, Put(v, key, value))
  {
    hide ValueAt, Put, Trimmed, KeyNamed, Until, PastBlanks;
  }

  /** One key and its value; `more` when a comma follows. */
  method ReadKey(text: string, from: nat, voice: VoiceRequest) returns (r: Option<VoiceRequest>, i: nat, more: bool)
    requires from <= |text|
    ensures i <= |text|
    ensures more ==> from < i && r.Some? && ReadVoice(text, from, voice) == ReadVoice(text, i, r.value)
    ensures !more ==> r == ReadVoice(text, from, voice)
  {
    hide ValueAt, Put, Trimmed, ReadVoice, KeyNamed, Until, PastBlanks;
    ReadVoiceStep(text, from, voice);
    r, more := None, false;
    i := FindAny(text, from, {'=', ',', '"'});
    if i == |text| || text[i] != '=' {
      return;
    }
    var known := KeyNamed(Trimmed(text[from..i]), 0);
    if known == |VOICE_KEYS| {
      return;
    }
    i := SkipBlanks(text, i + 1);
    var good, value, next := ReadVoiceValue(text, i);
    if !good || value == "" {
      return;
    }
    i := next;
    if i < |text| && text[i] != ',' {
      return;
    }
    r := Some(Put(voice, known, value));
    if i < |text| {
      i, more := i + 1, true;
    }
  }

  /** read_tag: the close is looked for no further than the longest tag allows. */
  method ReadTagAt(text: string, at: nat) returns (r: Option<Token>)
    requires at < |text|
    ensures r == ReadTag(text, at)
  {
    hide ReadInner;
    var close := at + 1;
    while close < |text| && text[close] != '\\' && close - at <= LONGEST_TAG
      invariant at < close <= |text| && close - at <= LONGEST_TAG + 1
      invariant Until(text, at + 1, {'\\'}) == Until(text, close, {'\\'})
    {
      close := close + 1;
    }
    if close >= |text| || text[close] != '\\' {
      return None;
    }
    var inner := text[at + 1..close];
    match ReadInner(inner)
    case None => return None;
    case Some(t) => return Some(t.(begin := at, length := close - at + 1));
  }

  method ScanText(text: string) returns (tokens: seq<Token>)
    ensures tokens == Scan(text)
    ensures IsScan(text, 0, tokens, false)
  {
    ScanTiles(text);
    hide ReadTag, IsScan;
    tokens := [];
    var textBegin, i := 0, 0;
    while i < |text|
      invariant 0 <= textBegin <= i <= |text|
      invariant tokens + ScanFrom(text, textBegin, i) == Scan(text)
    {
      var tag := None;
      if text[i] == '\\' {
        tag := ReadTagAt(text, i);
      }
      if tag.Some? {
        tokens := tokens + CloseText(textBegin, i) + [tag.value];
        i := i + tag.value.length;
        textBegin := i;
      } else {
        i := i + 1;
      }
    }
    tokens := tokens + CloseText(textBegin, |text|);
  }
}
