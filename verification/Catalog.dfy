/** The voices: the built-in ones, and those the voice files add to them or change, section by section. */
module Catalog {
  import opened Chars
  import opened Names

  datatype Voice = Voice(modeKey: string, displayName: string, languageName: string, modeGuid: string,
                         languageId: string, lcid: nat, languageFile: string, libraryFile: string, phsymFile: string,
                         speakerName: string, speakerStyle: string, gender: string, age: string, pitch: string,
                         dynamic: string, aspiration: string, formantNo: string,
                         userDefined: bool, namedByUser: bool)

  /** A section of a voice file, its name and values trimmed. */
  datatype Section = Section(name: string, basedOn: string, values: map<string, string>)

  function DigitValue(c: char): nat {
    if Digit(c) then c as int - '0' as int
    else if 'a' <= c <= 'f' then c as int - 'a' as int + 10
    else if 'A' <= c <= 'F' then c as int - 'A' as int + 10
    else 16
  }

  /** The digits a text begins with, read on from `n`. */
  function Leading(text: string, base: nat, n: nat): nat
    decreases |text|
  {
    if text == "" || DigitValue(text[0]) >= base then n else Leading(text[1..], base, n * base + DigitValue(text[0]))
  }

  /** strtoul, for bases 10 and 16 and 32 bits. */
  function StrToUl(text: string, base: nat): nat {
    var t := text[PastBlanks(text, 0)..];
    var u := if t != "" && t[0] in {'-', '+'} then t[1..] else t;
    var digits := if base == 16 && |u| > 1 && u[0] == '0' && u[1] in {'x', 'X'} then u[2..] else u;
    var n := Leading(digits, base, 0);
    if n > 0xFFFF_FFFF then 0xFFFF_FFFF
    else if t != "" && t[0] == '-' then (0x1_0000_0000 - n) % 0x1_0000_0000
    else n
  }

  function HexDigit(d: nat): char
    requires d < 16
  {
    if d < 10 then ('0' as int + d) as char else ('a' as int + d - 10) as char
  }

  /** sapi_language: an LCID as the voice's token has it. */
  function HexText(n: nat): (s: string)
    ensures |s| > 0 && forall i | 0 <= i < |s| :: DigitValue(s[i]) < 16
  {
    if n < 16 then [HexDigit(n)] else HexText(n / 16) + [HexDigit(n % 16)]
  }

  lemma {:induction false} LeadingMore(text: string, c: char, n: nat)
    requires (forall i | 0 <= i < |text| :: DigitValue(text[i]) < 16) && DigitValue(c) < 16
    ensures Leading(text + [c], 16, n) == Leading(text, 16, n) * 16 + DigitValue(c)
    decreases |text|
  {
    if text == "" {
      assert [c][1..] == "";
    } else {
      assert (text + [c])[1..] == text[1..] + [c];
      LeadingMore(text[1..], c, n * 16 + DigitValue(text[0]));
    }
  }

  lemma {:induction false} LeadingHex(n: nat)
    ensures Leading(HexText(n), 16, 0) == n
  {
    if n >= 16 {
      LeadingHex(n / 16);
      LeadingMore(HexText(n / 16), HexDigit(n % 16), 0);
    }
  }

  lemma {:induction false} LeadingAlike(a: string, b: string, base: nat, n: nat)
    requires SameName(a, b)
    ensures Leading(a, base, n) == Leading(b, base, n)
    decreases |a|
  {
    hide DigitValue, Lower;
    assert |Lowered(a)| == |Lowered(b)|;
    if a != "" {
      assert Lowered(a)[0] == Lowered(b)[0];
      SameDigit(a[0], b[0]);
      assert a == a[..1] + a[1..] && b == b[..1] + b[1..];
      RestAlike(a[..1], b[..1], a[1..], b[1..]);
      LeadingAlike(a[1..], b[1..], base, n * base + DigitValue(a[0]));
    }
  }

  lemma SameDigit(a: char, b: char)
    requires Lower(a) == Lower(b)
    ensures DigitValue(a) == DigitValue(b)
  {
  }

  lemma RestAlike(a: string, b: string, x: string, y: string)
    requires |a| == |b| && SameName(a + x, b + y)
    ensures SameName(x, y)
  {
    LoweredRest(a, x);
    LoweredRest(b, y);
  }

  lemma LoweredRest(a: string, x: string)
    ensures Lowered(a + x)[|a|..] == Lowered(x)
  {
  }

  lemma {:induction false} LeadingStops(text: string, rest: string, base: nat, n: nat)
    requires (forall i | 0 <= i < |text| :: DigitValue(text[i]) < base) && (rest == "" || DigitValue(rest[0]) >= base)
    ensures Leading(text + rest, base, n) == Leading(text, base, n)
    decreases |text|
  {
    if text == "" {
      assert text + rest == rest;
    } else {
      assert (text + rest)[1..] == text[1..] + rest;
      LeadingStops(text[1..], rest, base, n * base + DigitValue(text[0]));
    }
  }

  lemma {:induction false} LeadingZeros(zeros: string, text: string, base: nat)
    requires base > 0 && forall i | 0 <= i < |zeros| :: zeros[i] == '0'
    ensures Leading(zeros + text, base, 0) == Leading(text, base, 0)
    decreases |zeros|
  {
    if zeros == "" {
      assert zeros + text == text;
    } else {
      assert (zeros + text)[1..] == zeros[1..] + text;
      LeadingZeros(zeros[1..], text, base);
    }
  }

  /** A number as someone may have written it in base 16: after blanks and perhaps a sign, with 0x in front or
      not, with noughts in front, in any case, and with something after it that is no digit. */
  ghost predicate IsHex(text: string, sign: string, n: nat) {
    exists blanks, prefix, zeros, hex, rest ::
      && text == blanks + (sign + (prefix + (zeros + (hex + rest))))
      && sign in {"", "+", "-"} && prefix in {"", "0x", "0X"} && AllBlank(blanks)
      && (forall i | 0 <= i < |zeros| :: zeros[i] == '0') && SameName(hex, HexText(n))
      && (rest == "" || (DigitValue(rest[0]) >= 16 && rest[0] !in {'x', 'X'}))
  }

  /** What 32 bits hold of it. */
  function InWord(sign: string, n: nat): nat {
    if n > 0xFFFF_FFFF then 0xFFFF_FFFF else if sign == "-" && n > 0 then 0x1_0000_0000 - n else n
  }

  lemma HexReadsBack(text: string, sign: string, n: nat)
    requires IsHex(text, sign, n)
    ensures text != "" && StrToUl(text, 16) == InWord(sign, n)
  {
    hide *;
    var blanks, prefix, zeros, hex, rest := PartsOfHex(text, sign, n);
    var digits := zeros + (hex + rest);
    HexDigits(hex, n);
    LeadingHex(n);
    LeadingAlike(hex, HexText(n), 16, 0);
    LeadingStops(hex, rest, 16, 0);
    LeadingZeros(zeros, hex + rest, 16);
    FirstOfDigits(zeros, hex, rest);
    FrontIsNoBlank(sign, prefix, digits);
    AfterBlanks(blanks, sign + (prefix + digits));
    FrontOff(text, sign, prefix, digits);
  }

  lemma PartsOfHex(text: string, sign: string, n: nat)
    returns (blanks: string, prefix: string, zeros: string, hex: string, rest: string)
    requires IsHex(text, sign, n)
    ensures text == blanks + (sign + (prefix + (zeros + (hex + rest))))
    ensures sign in {"", "+", "-"} && prefix in {"", "0x", "0X"} && AllBlank(blanks)
    ensures (forall i | 0 <= i < |zeros| :: zeros[i] == '0') && SameName(hex, HexText(n))
    ensures rest == "" || (DigitValue(rest[0]) >= 16 && rest[0] !in {'x', 'X'})
  {
    hide HexText, DigitValue, SameName, AllBlank;
    blanks, prefix, zeros, hex, rest :|
      && text == blanks + (sign + (prefix + (zeros + (hex + rest))))
      && sign in {"", "+", "-"} && prefix in {"", "0x", "0X"} && AllBlank(blanks)
      && (forall i | 0 <= i < |zeros| :: zeros[i] == '0') && SameName(hex, HexText(n))
      && (rest == "" || (DigitValue(rest[0]) >= 16 && rest[0] !in {'x', 'X'}));
  }

  lemma HexDigits(hex: string, n: nat)
    requires SameName(hex, HexText(n))
    ensures hex != "" && forall i | 0 <= i < |hex| :: DigitValue(hex[i]) < 16
  {
    hide HexText, DigitValue;
    var s := HexText(n);
    assert |Lowered(hex)| == |Lowered(s)|;
    forall i | 0 <= i < |hex| ensures DigitValue(hex[i]) < 16 {
      assert Lowered(hex)[i] == Lowered(s)[i];
      SameDigit(hex[i], s[i]);
    }
  }

  /** Digits begin neither as a blank nor as a sign, and not as 0x does. */
  lemma FirstOfDigits(zeros: string, hex: string, rest: string)
    requires hex != "" && (forall i | 0 <= i < |hex| :: DigitValue(hex[i]) < 16)
    requires forall i | 0 <= i < |zeros| :: zeros[i] == '0'
    requires rest == "" || rest[0] !in {'x', 'X'}
    ensures var digits := zeros + (hex + rest);
            && digits != "" && !Blank(digits[0]) && digits[0] !in {'-', '+'}
            && (|digits| > 1 ==> digits[1] !in {'x', 'X'})
  {
    var digits := zeros + (hex + rest);
    assert digits[0] == if zeros == "" then hex[0] else zeros[0];
    if |digits| > 1 {
      assert digits[1] == if |zeros| > 1 then zeros[1] else if |zeros| == 1 then hex[0]
                          else if |hex| > 1 then hex[1] else rest[0];
    }
  }

  lemma AfterBlanks(blanks: string, text: string)
    requires AllBlank(blanks) && (text == "" || !Blank(text[0]))
    ensures PastBlanks(blanks + text, 0) == |blanks| && (blanks + text)[|blanks|..] == text
  {
    hide Blank;
    assert (blanks + text)[0..0 + |blanks|] == blanks;
    BlanksPassed(blanks + text, 0, blanks);
  }

  lemma FrontIsNoBlank(sign: string, prefix: string, digits: string)
    requires sign in {"", "+", "-"} && prefix in {"", "0x", "0X"} && digits != "" && !Blank(digits[0])
    ensures var text := sign + (prefix + digits); text != "" && !Blank(text[0])
  {
  }

  lemma FrontOff(text: string, sign: string, prefix: string, digits: string)
    requires text[PastBlanks(text, 0)..] == sign + (prefix + digits)
    requires sign in {"", "+", "-"} && prefix in {"", "0x", "0X"}
    requires digits != "" && digits[0] !in {'-', '+'} && (|digits| > 1 ==> digits[1] !in {'x', 'X'})
    ensures StrToUl(text, 16) == InWord(sign, Leading(digits, 16, 0))
  {
    hide Leading, PastBlanks;
    var t := sign + (prefix + digits);
    assert (prefix + digits)[0] !in {'-', '+'};
    if sign == "" {
      assert t == prefix + digits;
    } else {
      assert t[1..] == prefix + digits;
    }
    if prefix == "" {
      assert prefix + digits == digits;
    } else {
      assert (prefix + digits)[2..] == digits;
    }
  }

  /** A section's LCID is the number it gives in base 16, however it is written, in 16 bits. */
  lemma LcidReadsBack(v: Voice, values: map<string, string>, sign: string, n: nat)
    requires "LCID" in values && IsHex(values["LCID"], sign, n)
    ensures WithValues(v, values).lcid == InWord(sign, n) % 0x1_0000
  {
    hide StrToUl, HexText, IsHex, InWord;
    HexReadsBack(values["LCID"], sign, n);
  }

  /** The language a voice's token names, given as a section's LCID, is that voice's LCID. */
  lemma TokenLcidReadsBack(v: Voice, values: map<string, string>, n: nat)
    requires n < 0x1_0000 && "LCID" in values && values["LCID"] == HexText(n)
    ensures WithValues(v, values).lcid == n
  {
    hide WithValues, HexText;
    TokenIsHex(n);
    LcidReadsBack(v, values, "", n);
  }

  lemma TokenIsHex(n: nat)
    ensures IsHex(HexText(n), "", n)
  {
    hide HexText, DigitValue;
    var s := HexText(n);
    SpeltSo(s, "", n, "", "", "", s, "");
  }

  lemma SpeltSo(text: string, sign: string, n: nat, blanks: string, prefix: string, zeros: string, hex: string,
                rest: string)
    requires text == blanks + (sign + (prefix + (zeros + (hex + rest))))
    requires sign in {"", "+", "-"} && prefix in {"", "0x", "0X"} && AllBlank(blanks)
    requires (forall i | 0 <= i < |zeros| :: zeros[i] == '0') && SameName(hex, HexText(n))
    requires rest == "" || (DigitValue(rest[0]) >= 16 && rest[0] !in {'x', 'X'})
    ensures IsHex(text, sign, n)
  {
    hide HexText, DigitValue, SameName, AllBlank;
  }

  lemma {:induction false} LeadingDecimal(n: nat)
    ensures Leading(Dec(n), 10, 0) == n
  {
    hide DigitValue;
    DigitIs(n % 10);
    if n < 10 {
      assert Dec(n)[1..] == "";
    } else {
      LeadingDecimal(n / 10);
      OneMoreDigit(Dec(n / 10), ('0' as int + n % 10) as char, 0);
    }
  }

  lemma DigitIs(d: nat)
    requires d < 10
    ensures DigitValue(('0' as int + d) as char) == d
  {
  }

  lemma {:induction false} OneMoreDigit(text: string, c: char, n: nat)
    requires (forall i | 0 <= i < |text| :: Digit(text[i])) && Digit(c)
    ensures Leading(text + [c], 10, n) == Leading(text, 10, n) * 10 + DigitValue(c)
    decreases |text|
  {
    if text == "" {
      assert [c][1..] == "";
    } else {
      assert (text + [c])[1..] == text[1..] + [c];
      OneMoreDigit(text[1..], c, n * 10 + DigitValue(text[0]));
    }
  }

  lemma DecimalReadsBack(n: nat)
    ensures StrToUl(Dec(n), 10) == if n > 0xFFFF_FFFF then 0xFFFF_FFFF else n
  {
    LeadingDecimal(n);
    hide Dec, Leading;
    var s := Dec(n);
    assert Digit(s[0]) && s[0..] == s;
  }

  /** A section that gives no LCID has the one its language number stands for: itself above 1023, and with
      the default sublanguage up to that. */
  lemma LcidFromLanguage(v: Voice, values: map<string, string>, n: nat)
    requires "LCID" !in values && (if "LanguageID" in values then values["LanguageID"] else v.languageId) == Dec(n)
    ensures WithValues(v, values).lcid
         == if n > 0xFFFF_FFFF then 0xFFFF else if n > 1023 then n % 0x1_0000 else 1024 + n
  {
    hide StrToUl, Dec;
    DecimalReadsBack(n);
  }

  function ValueOr(values: map<string, string>, key: string, otherwise: string): string {
    if key in values then values[key] else otherwise
  }

  /** The voice's LCID: the one a section gives, or the one its language number stands for. */
  function Lcid(v: Voice, values: map<string, string>): nat {
    var given, id := ValueOr(values, "LCID", ""), ValueOr(values, "LanguageID", v.languageId);
    if given != "" then StrToUl(given, 16) % 0x1_0000
    else if id == "" then v.lcid
    else
      var n := StrToUl(id, 10);
      if n > 0x3FF then n % 0x1_0000 else 0x400 + n
  }

  function WithValues(v: Voice, values: map<string, string>): Voice {
    v.(lcid := Lcid(v, values),
       languageId := ValueOr(values, "LanguageID", v.languageId),
       languageFile := ValueOr(values, "LanguageFile", v.languageFile),
       libraryFile := ValueOr(values, "LibraryFile", v.libraryFile),
       phsymFile := ValueOr(values, "PhSymFile", v.phsymFile),
       speakerName := ValueOr(values, "SpeakerName", v.speakerName),
       speakerStyle := ValueOr(values, "SpeakerStyle", v.speakerStyle),
       gender := ValueOr(values, "Gender", v.gender),
       age := ValueOr(values, "Age", v.age),
       pitch := ValueOr(values, "Pitch", v.pitch),
       dynamic := ValueOr(values, "Dynamic", v.dynamic),
       aspiration := ValueOr(values, "Aspiration", v.aspiration),
       formantNo := ValueOr(values, "FormantNo", v.formantNo))
  }

  // ------------------------------------------------------------------------------------------
  // Ids
  // ------------------------------------------------------------------------------------------

  const GUID_FRONT := "{c9c5eda0-7c89-11d0-03ff-"
  const GUID_BACK := "0000000000}"

  function Hex2(slot: nat): string { [HexDigit(slot % 256 / 16), HexDigit(slot % 16)] }

  /** A slot's two digits are the slot in base 16. */
  lemma SlotReadsBack(slot: nat)
    ensures SynthGuid(slot) == "{c9c5eda0-7c89-11d0-03ff-" + Hex2(slot) + "0000000000}"
    ensures |Hex2(slot)| == 2 && 16 * DigitValue(Hex2(slot)[0]) + DigitValue(Hex2(slot)[1]) == slot % 256
    ensures forall i | 0 <= i < 2 :: Digit(Hex2(slot)[i]) || 'a' <= Hex2(slot)[i] <= 'f'
  {
    var low := slot % 256;
    LowDigit(slot / 256, low);
    assert slot == 256 * (slot / 256) + low;
    assert low == 16 * (low / 16) + low % 16 && low / 16 < 16;
  }

  /** synth_mode_guid: the id in one of 256 slots. */
  function SynthGuid(slot: nat): string { GUID_FRONT + Hex2(slot) + GUID_BACK }

  predicate IsSynth(guid: string) {
    |guid| == |GUID_FRONT| + 2 + |GUID_BACK| && SameName(guid[..|GUID_FRONT|], GUID_FRONT)
  }

  lemma SynthIs(slot: nat)
    ensures IsSynth(SynthGuid(slot)) && SynthGuid(slot) == SynthGuid(slot % 256)
  {
    hide Hex2, Lowered;
    FrontOf(GUID_FRONT, Hex2(slot), GUID_BACK);
    Hex2Wraps(slot);
  }

  lemma FrontOf(front: string, middle: string, back: string)
    ensures (front + middle + back)[..|front|] == front
  {
  }

  lemma LowDigit(q: nat, r: nat)
    requires r < 256
    ensures (256 * q + r) % 16 == r % 16
  {
    assert 256 * q + r == 16 * (16 * q + r / 16) + r % 16;
  }

  lemma Hex2Wraps(slot: nat)
    ensures |Hex2(slot)| == 2 && Hex2(slot) == Hex2(slot % 256)
  {
    hide HexDigit;
    var low := slot % 256;
    LowDigit(slot / 256, low);
    assert slot == 256 * (slot / 256) + low && low % 256 == low;
    assert slot % 16 == low % 16;
  }

  lemma MiddlesApart(front: string, a: string, b: string, back: string)
    requires |a| == |b| && SameName(front + a + back, front + b + back)
    ensures SameName(a, b)
  {
    hide Lowered;
    LoweredIs(front + a + back);
    LoweredIs(front + b + back);
    LoweredIs(a);
    LoweredIs(b);
    forall i | 0 <= i < |a| ensures Lowered(a)[i] == Lowered(b)[i] {
      assert (front + a + back)[|front| + i] == a[i] && (front + b + back)[|front| + i] == b[i];
      assert Lowered(front + a + back)[|front| + i] == Lowered(front + b + back)[|front| + i];
    }
  }

  /** Different slots, different ids, whatever the case. */
  lemma SlotsApart(a: nat, b: nat)
    requires a < 256 && b < 256 && SameName(SynthGuid(a), SynthGuid(b))
    ensures a == b
  {
    hide Lowered, Hex2;
    MiddlesApart(GUID_FRONT, Hex2(a), Hex2(b), GUID_BACK);
    Hex2Apart(a, b);
  }

  lemma Hex2Apart(a: nat, b: nat)
    requires a < 256 && b < 256 && SameName(Hex2(a), Hex2(b))
    ensures a == b
  {
    hide Lowered, HexDigit;
    LoweredIs(Hex2(a));
    LoweredIs(Hex2(b));
    assert Lowered(Hex2(a))[0] == Lowered(Hex2(b))[0] && Lowered(Hex2(a))[1] == Lowered(Hex2(b))[1];
    HexApart(a / 16, b / 16);
    HexApart(a % 16, b % 16);
  }

  lemma HexApart(a: nat, b: nat)
    requires a < 16 && b < 16 && Lower(HexDigit(a)) == Lower(HexDigit(b))
    ensures a == b
  {
  }

  // ------------------------------------------------------------------------------------------
  // What a catalogue is
  // ------------------------------------------------------------------------------------------

  ghost predicate NamesApart(vs: seq<Voice>) {
    forall i, j | 0 <= i < j < |vs| :: !SameName(vs[i].displayName, vs[j].displayName)
  }

  ghost predicate KeysApart(vs: seq<Voice>) {
    forall i, j | 0 <= i < j < |vs| :: !SameName(vs[i].modeKey, vs[j].modeKey)
  }

  ghost predicate IdsApart(vs: seq<Voice>) {
    forall i, j | 0 <= i < j < |vs| :: !SameName(vs[i].modeGuid, vs[j].modeGuid)
  }

  /** Something the registry can have a key of its own for. */
  predicate IsKeyName(key: string) { key != "" && '\\' !in key }

  ghost predicate Sound(vs: seq<Voice>) {
    forall v <- vs :: IsKeyName(v.modeKey) && '\\' !in v.languageName
                      && (v.userDefined ==> exists k: nat :: k < 256 && v.modeGuid == SynthGuid(k))
                      && (!v.userDefined ==> !IsSynth(v.modeGuid))
  }

  ghost predicate Good(vs: seq<Voice>) {
    vs != [] && NamesApart(vs) && KeysApart(vs) && Sound(vs)
  }

  /** How many voices are the user's own. */
  function UserCount(vs: seq<Voice>): nat {
    if vs == [] then 0 else UserCount(vs[..|vs| - 1]) + if vs[|vs| - 1].userDefined then 1 else 0
  }

  lemma {:induction false} UserCountMore(vs: seq<Voice>, v: Voice)
    ensures UserCount(vs + [v]) == UserCount(vs) + if v.userDefined then 1 else 0
  {
  }

  ghost function SlotOf(guid: string): (k: nat)
    requires exists k: nat :: k < 256 && guid == SynthGuid(k)
    ensures k < 256 && guid == SynthGuid(k)
  {
    var k: nat :| k < 256 && guid == SynthGuid(k);
    k
  }

  /** The slots the user's voices have. */
  ghost function Slots(vs: seq<Voice>): (r: set<nat>)
    requires Sound(vs)
    ensures |r| <= UserCount(vs)
    ensures forall k <- r :: k < 256
  {
    if vs == [] then {}
    else
      var n := |vs| - 1;
      Slots(vs[..n]) + if vs[n].userDefined then {SlotOf(vs[n].modeGuid)} else {}
  }

  lemma {:induction false} SlotsHave(vs: seq<Voice>, j: nat)
    requires Sound(vs) && j < |vs| && vs[j].userDefined
    ensures SlotOf(vs[j].modeGuid) in Slots(vs)
  {
    var n := |vs| - 1;
    if j < n {
      SlotsHave(vs[..n], j);
    }
  }

  lemma {:induction false} SlotsFrom(vs: seq<Voice>, k: nat) returns (j: nat)
    requires Sound(vs) && k in Slots(vs)
    ensures j < |vs| && vs[j].userDefined && SlotOf(vs[j].modeGuid) == k
  {
    var n := |vs| - 1;
    if vs[n].userDefined && SlotOf(vs[n].modeGuid) == k {
      j := n;
    } else {
      j := SlotsFrom(vs[..n], k);
    }
  }

  lemma SynthKept(guid: string, k: nat)
    requires SameName(guid, SynthGuid(k))
    ensures IsSynth(guid)
  {
    hide Lowered, Hex2;
    SynthIs(k);
    LoweredIs(guid);
    LoweredIs(SynthGuid(k));
    var n := |GUID_FRONT|;
    LoweredIs(guid[..n]);
    LoweredIs(SynthGuid(k)[..n]);
    forall i | 0 <= i < n ensures Lowered(guid[..n])[i] == Lowered(SynthGuid(k)[..n])[i] {
      assert Lowered(guid)[i] == Lowered(SynthGuid(k))[i];
    }
    assert SynthGuid(k)[..n] == GUID_FRONT;
  }

  /** A slot nobody has is an id nobody has, and the other way round. */
  lemma SlotTaken(vs: seq<Voice>, k: nat)
    requires Sound(vs) && k < 256
    ensures HasId(vs, -1, SynthGuid(k)) <==> k in Slots(vs)
  {
    hide SynthGuid, IsSynth;
    if HasId(vs, -1, SynthGuid(k)) {
      var j :| 0 <= j < |vs| && SameName(vs[j].modeGuid, SynthGuid(k));
      SynthKept(vs[j].modeGuid, k);
      assert vs[j] in vs;
      SlotsApart(SlotOf(vs[j].modeGuid), k);
      SlotsHave(vs, j);
    }
    if k in Slots(vs) {
      var j := SlotsFrom(vs, k);
      assert SameName(vs[j].modeGuid, SynthGuid(k));
    }
  }

  function UpTo(n: nat): (r: set<nat>)
    ensures |r| == n && forall k: nat :: k in r <==> k < n
  {
    if n == 0 then {} else UpTo(n - 1) + {n - 1}
  }

  lemma Fits(s: set<nat>, n: nat)
    requires forall k <- s :: k < n
    ensures |s| <= n
    ensures |s| < n ==> exists k: nat :: k < n && k !in s
  {
    Larger(s, UpTo(n));
    if forall k: nat | k < n :: k in s {
      assert s == UpTo(n);
    }
  }

  lemma {:induction false} Larger<T>(s: set<T>, t: set<T>)
    requires s <= t
    ensures |s| <= |t|
  {
    if s != {} {
      var x :| x in s;
      Larger(s - {x}, t - {x});
    }
  }

  /** With fewer than 256 voices of the user's there is a free id ... */
  lemma SomeIdFree(vs: seq<Voice>)
    requires Sound(vs) && UserCount(vs) < 256
    ensures exists k: nat :: k < 256 && !HasId(vs, -1, SynthGuid(k))
  {
    hide SynthGuid, HasId;
    Fits(Slots(vs), 256);
    var k: nat :| k < 256 && k !in Slots(vs);
    SlotTaken(vs, k);
  }

  /** ... and with more than 256 two of them share one. */
  lemma TooManyShareIds(vs: seq<Voice>)
    requires Sound(vs) && IdsApart(vs)
    ensures UserCount(vs) <= 256
  {
    AllSlotsApart(vs);
    Fits(Slots(vs), 256);
  }

  lemma {:induction false} AllSlotsApart(vs: seq<Voice>)
    requires Sound(vs) && IdsApart(vs)
    ensures |Slots(vs)| == UserCount(vs)
  {
    if vs != [] {
      var n := |vs| - 1;
      AllSlotsApart(vs[..n]);
      if vs[n].userDefined && SlotOf(vs[n].modeGuid) in Slots(vs[..n]) {
        var j := SlotsFrom(vs[..n], SlotOf(vs[n].modeGuid));
        assert false;
      }
    }
  }

  /** A section changes nothing of what tells voices apart. */
  predicate SameIdentity(v: Voice, w: Voice) {
    v.modeKey == w.modeKey && v.displayName == w.displayName && v.languageName == w.languageName
    && v.modeGuid == w.modeGuid && v.userDefined == w.userDefined
  }

  /** What is taken off the front of a display name, before the names of the languages. */
  const FRONTS: seq<string> := ["Infovox230 1.12", "Infovox 1.12", "Infovox230", "Infovox"]

  /** What follows the language in a mode's name. */
  function SuffixFor(display: string, language: string, languages: seq<string>): string {
    SuffixOf(StrippedAll(display, FRONTS + [language] + languages))
  }

  lemma SuffixForIsPlain(display: string, language: string, languages: seq<string>)
    ensures Plain(SuffixFor(display, language, languages))
  {
    SuffixIsPlain(StrippedAll(display, FRONTS + [language] + languages));
  }

  /** Nothing is taken off the front of a name. */
  ghost predicate IsBare(text: string, prefixes: seq<string>) {
    && !Leads(text, "1.12")
    && (forall p <- {"Infovox230 1.12", "Infovox 1.12", "Infovox230", "Infovox"} :: !Leads(text, p))
    && (forall p <- prefixes :: !Leads(text, p))
  }

  /** A display name's suffix is the same with the product's name in front of it, with the name of a
      language, or with both, each in any case. */
  lemma SuffixOfDisplay(front: string, product: string, spoken: string, k: nat, rest: string, language: string,
                        languages: seq<string>)
    requires product in {"Infovox230 1.12", "Infovox 1.12", "Infovox230", "Infovox"} && SameName(front, product)
    requires k < |[language] + languages| && spoken != "" && SameName(spoken, ([language] + languages)[k])
    requires IsBare(rest, [language] + languages)
    requires IsBare(spoken + " " + rest, ([language] + languages)[..k])
    ensures SuffixFor(rest, language, languages) == SuffixOf(rest)
    ensures SuffixFor(front + " " + rest, language, languages) == SuffixOf(rest)
    ensures SuffixFor(spoken + " " + rest, language, languages) == SuffixOf(rest)
    ensures SuffixFor(front + " " + (spoken + " " + rest), language, languages) == SuffixOf(rest)
  {
    hide *;
    var ps, mid := [language] + languages, spoken + " " + rest;
    BareStays(rest, ps, ps);
    BareStays(mid, ps[..k], ps[..k]);
    FrontTaken(front, product, rest, ps);
    FrontTaken(front, product, mid, ps[..k]);
    LanguageTaken(spoken, k, rest, ps);
    SuffixInTurn(rest, language, languages);
    SuffixInTurn(front + " " + rest, language, languages);
    SuffixInTurn(mid, language, languages);
    SuffixInTurn(front + " " + mid, language, languages);
  }

  lemma SuffixInTurn(display: string, language: string, languages: seq<string>)
    ensures SuffixFor(display, language, languages)
         == SuffixOf(StrippedAll(StrippedAll(display, FRONTS), [language] + languages))
  {
    hide StrippedAll, SuffixOf;
    assert FRONTS + [language] + languages == FRONTS + ([language] + languages);
    StrippedInTurn(display, FRONTS, [language] + languages);
  }

  lemma BareStays(text: string, prefixes: seq<string>, among: seq<string>)
    requires IsBare(text, prefixes) && forall p <- among :: p in prefixes
    ensures StrippedAll(text, FRONTS) == text && StrippedAll(text, among) == text
  {
    hide StrippedAll, Leads, Stripped;
    forall j | 0 <= j < 4 ensures Stripped(text, FRONTS[j]) == text {
      StrippedIs(text, FRONTS[j]);
    }
    forall j | 0 <= j < |among| ensures Stripped(text, among[j]) == text {
      assert among[j] in among;
      StrippedIs(text, among[j]);
    }
    NothingStripped(text, FRONTS);
    NothingStripped(text, among);
  }

  lemma FrontTaken(front: string, product: string, rest: string, prefixes: seq<string>)
    requires product in {"Infovox230 1.12", "Infovox 1.12", "Infovox230", "Infovox"} && SameName(front, product)
    requires IsBare(rest, prefixes)
    ensures StrippedAll(front + " " + rest, FRONTS) == rest
  {
    hide StrippedAll, Leads, Stripped, SameName;
    var k := if product == "Infovox230 1.12" then 0 else if product == "Infovox 1.12" then 1
             else if product == "Infovox230" then 2 else 3;
    assert FRONTS[k] == product;
    forall j | 0 <= j < k ensures Stripped(front + " " + rest, FRONTS[j]) == front + " " + rest {
      FrontsApart(j, k, front, rest);
    }
    Led(front, product, rest);
    forall j | 0 <= j < 4 ensures Stripped(rest, FRONTS[j]) == rest {
      StrippedIs(rest, FRONTS[j]);
    }
    TakenOnce(front + " " + rest, FRONTS, k, rest);
  }

  lemma LanguageTaken(spoken: string, k: nat, rest: string, prefixes: seq<string>)
    requires k < |prefixes| && spoken != "" && SameName(spoken, prefixes[k])
    requires IsBare(rest, prefixes) && IsBare(spoken + " " + rest, prefixes[..k])
    ensures StrippedAll(spoken + " " + rest, prefixes) == rest
  {
    hide StrippedAll, Leads, Stripped;
    forall j | 0 <= j < k ensures Stripped(spoken + " " + rest, prefixes[j]) == spoken + " " + rest {
      assert prefixes[j] == prefixes[..k][j] && prefixes[j] in prefixes[..k];
      StrippedIs(spoken + " " + rest, prefixes[j]);
    }
    assert |Lowered(spoken)| == |Lowered(prefixes[k])|;
    Led(spoken, prefixes[k], rest);
    forall j | 0 <= j < |prefixes| ensures Stripped(rest, prefixes[j]) == rest {
      assert prefixes[j] in prefixes;
      StrippedIs(rest, prefixes[j]);
    }
    TakenOnce(spoken + " " + rest, prefixes, k, rest);
  }

  lemma TakenOnce(text: string, prefixes: seq<string>, k: nat, rest: string)
    requires k < |prefixes| && Stripped(text, prefixes[k]) == rest
    requires forall j | 0 <= j < k :: Stripped(text, prefixes[j]) == text
    requires forall j | 0 <= j < |prefixes| :: Stripped(rest, prefixes[j]) == rest
    ensures StrippedAll(text, prefixes) == rest
  {
    hide Stripped, StrippedAll;
    var before, after := prefixes[..k], prefixes[k + 1..];
    assert prefixes == before + prefixes[k..];
    StrippedInTurn(text, before, prefixes[k..]);
    forall j | 0 <= j < k ensures Stripped(text, before[j]) == text {
      assert before[j] == prefixes[j];
    }
    NothingStripped(text, before);
    OneStripped(text, prefixes[k..]);
    assert prefixes[k..][0] == prefixes[k] && prefixes[k..][1..] == after;
    forall j | 0 <= j < |after| ensures Stripped(rest, after[j]) == rest {
      assert after[j] == prefixes[k + 1 + j];
    }
    NothingStripped(rest, after);
  }

  lemma OneStripped(text: string, prefixes: seq<string>)
    requires prefixes != []
    ensures StrippedAll(text, prefixes) == StrippedAll(Stripped(text, prefixes[0]), prefixes[1..])
  {
  }

  /** No product name is an earlier one with something after it, unless "1.12" is what follows. */
  lemma FrontsApart(j: nat, k: nat, front: string, rest: string)
    requires j < k < 4 && SameName(front, FRONTS[k]) && !Leads(rest, "1.12")
    ensures Stripped(front + " " + rest, FRONTS[j]) == front + " " + rest
  {
    hide Stripped, SameName, Leads;
    SameLength(front, FRONTS[k]);
    if j == 0 && k == 2 {
      FrontsAre();
      Followed(front, "Infovox230", rest, "1.12");
    } else if j == 1 && k == 3 {
      FrontsAre();
      Followed(front, "Infovox", rest, "1.12");
    } else {
      SeventhDiffers(j, k, front, rest);
    }
  }

  lemma FrontsAre()
    ensures FRONTS[0] == "Infovox230" + " " + "1.12" && FRONTS[1] == "Infovox" + " " + "1.12"
  {
  }

  lemma SameLength(a: string, b: string)
    requires SameName(a, b)
    ensures |a| == |b| && forall i | 0 <= i < |a| :: Lower(a[i]) == Lower(b[i])
  {
    assert |Lowered(a)| == |Lowered(b)|;
    forall i | 0 <= i < |a| ensures Lower(a[i]) == Lower(b[i]) {
      assert Lowered(a)[i] == Lowered(b)[i];
    }
  }

  lemma Followed(front: string, product: string, rest: string, more: string)
    requires |front| == |product| && !Leads(rest, more)
    ensures Stripped(front + " " + rest, product + " " + more) == front + " " + rest
  {
    hide Stripped, SameName;
    var text, p := front + " " + rest, product + " " + more;
    StrippedIs(text, p);
    if Leads(text, p) {
      var n := |more| + 1;
      assert text[..|p| + 1] == (front + " ") + rest[..n] && p + " " == (product + " ") + (more + " ");
      RestAlike(front + " ", product + " ", rest[..n], more + " ");
    }
  }

  lemma SeventhDiffers(j: nat, k: nat, front: string, rest: string)
    requires j < k < 4 && !(j == 0 && k == 2) && !(j == 1 && k == 3) && |front| == |FRONTS[k]|
    requires forall i | 0 <= i < |front| :: Lower(front[i]) == Lower(FRONTS[k][i])
    ensures Stripped(front + " " + rest, FRONTS[j]) == front + " " + rest
  {
    var text, p := front + " " + rest, FRONTS[j];
    assert text[7] == if k == 3 then ' ' else front[7];
    DiffersAt(text, p, 7);
  }

  lemma DiffersAt(text: string, p: string, i: nat)
    requires i < |text| && i < |p| && Lower(text[i]) != Lower(p[i])
    ensures Stripped(text, p) == text
  {
    if |p| <= |text| {
      assert Lowered(text[..|p|])[i] != Lowered(p)[i];
    }
  }

  /** The speaker name as it is, if the engine will take it, or one made of the language and the voice's own
      name. */
  function Fixed(vs: seq<Voice>, index: nat, languages: seq<string>): string
    requires index < |vs|
  {
    var language := Language(vs, index);
    if NamesLanguage(vs[index].speakerName, language) then vs[index].speakerName
    else language + " " + SuffixFor(vs[index].displayName, language, languages)
  }

  /** The language of the rule file a voice is for, by some other built-in voice of that file. */
  function Language(vs: seq<Voice>, index: nat): string
    requires index < |vs|
  {
    var lang := LanguageAt(vs, vs[index].languageFile, index, 0);
    if lang >= 0 then vs[lang].languageName else ""
  }

  predicate HasId(vs: seq<Voice>, except: int, guid: string) {
    exists j :: 0 <= j < |vs| && j != except && SameName(vs[j].modeGuid, guid)
  }

  predicate HasKey(vs: seq<Voice>, except: int, key: string) {
    exists j :: 0 <= j < |vs| && j != except && SameName(vs[j].modeKey, key)
  }

  /** The language of a voice's rule file, or the one its template had when no other voice has that file. */
  function LanguageOr(vs: seq<Voice>, index: nat): string
    requires index < |vs|
  {
    if LanguageAt(vs, vs[index].languageFile, index, 0) >= 0 then Language(vs, index) else vs[index].languageName
  }

  /** The first of the numbered names that no voice has. */
  ghost predicate IsFreeKey(vs: seq<Voice>, name: string, key: string) {
    !HasKey(vs, -1, key) &&
    exists attempt: nat :: attempt >= 1 && key == Numbered(name, attempt)
                           && forall a | 1 <= a < attempt :: HasKey(vs, -1, Numbered(name, a))
  }

  /** Slot k is the first tried, from `start` on, that nobody has; or the last of all when each is taken. */
  ghost predicate FirstFree(vs: seq<Voice>, except: int, start: nat, k: nat) {
    && k < 256
    && (forall j: nat | j < 256 && Probe(start, j) < Probe(start, k) :: HasId(vs, except, SynthGuid(j)))
    && (HasId(vs, except, SynthGuid(k)) ==> Probe(start, k) == 255)
  }

  ghost predicate IsFreeGuid(vs: seq<Voice>, start: nat, guid: string) {
    exists k: nat :: k < 256 && guid == SynthGuid(k) && FirstFree(vs, -1, start, k)
  }

  /** How many slots after `start` a slot is tried. */
  function Probe(start: nat, k: nat): (p: nat)
    requires k < 256
    ensures p < 256 && (start + p) % 256 == k
  {
    (k + 256 - start % 256) % 256
  }

  /** The names tried before an attempt, in lower case. */
  function Tried(name: string, attempt: nat): set<string> {
    if attempt < 2 then {} else Tried(name, attempt - 1) + {Lowered(Numbered(name, attempt - 1))}
  }

  lemma {:induction false} NotTriedYet(name: string, before: nat, attempt: nat)
    requires 1 <= before <= attempt
    ensures Lowered(Numbered(name, attempt)) !in Tried(name, before)
  {
    hide Lowered, Numbered;
    if before > 1 {
      NotTriedYet(name, before - 1, attempt);
      NumberedApart(name, before - 1, attempt);
    }
  }

  lemma ProbeIs(start: nat, p: nat)
    requires p < 256
    ensures Probe(start, (start + p) % 256) == p
  {
    var low := start % 256;
    var k := (start + p) % 256;
    assert k == (low + p) % 256;
    assert k == if low + p < 256 then low + p else low + p - 256;
  }

  class Voices {
    var voices: seq<Voice>
    const languages: seq<string>
    const slotFor: string -> nat

    constructor (builtin: seq<Voice>, languages: seq<string>, slotFor: string -> nat)
      ensures voices == builtin && this.languages == languages && this.slotFor == slotFor
    {
      voices := builtin;
      this.languages := languages;
      this.slotFor := slotFor;
    }

    /** find_by_name: by what the voice list shows or, for a built-in one, by what it used to show. */
    method FindByName(name: string) returns (i: int)
      ensures i == AnswerAt(voices, name, 0)
    {
      i := 0;
      while i < |voices|
        invariant 0 <= i <= |voices| && AnswerAt(voices, name, i) == AnswerAt(voices, name, 0)
      {
        if Answers(voices[i], name) {
          return i;
        }
        i := i + 1;
      }
      return -1;
    }

    method FindByModeKey(key: string, except: int) returns (i: int)
      ensures -1 <= i < |voices|
      ensures i == -1 <==> !HasKey(voices, except, key)
      ensures i >= 0 ==> i != except && SameName(voices[i].modeKey, key)
    {
      i := 0;
      while i < |voices|
        invariant 0 <= i <= |voices| && forall j | 0 <= j < i && j != except :: !SameName(voices[j].modeKey, key)
      {
        if i != except && SameName(voices[i].modeKey, key) {
          return i;
        }
        i := i + 1;
      }
      return -1;
    }

    method FindByModeGuid(guid: string, except: int) returns (i: int)
      ensures -1 <= i < |voices|
      ensures i == -1 <==> !HasId(voices, except, guid)
    {
      i := 0;
      while i < |voices|
        invariant 0 <= i <= |voices| && forall j | 0 <= j < i && j != except :: !SameName(voices[j].modeGuid, guid)
      {
        if i != except && SameName(voices[i].modeGuid, guid) {
          return i;
        }
        i := i + 1;
      }
      return -1;
    }

    /** find_by_language_file: a built-in voice of that rule file, other than the one asked about. */
    method FindByLanguageFile(file: string, except: int) returns (i: int)
      ensures i == LanguageAt(voices, file, except, 0)
    {
      i := 0;
      while i < |voices|
        invariant 0 <= i <= |voices| && LanguageAt(voices, file, except, i) == LanguageAt(voices, file, except, 0)
      {
        if i != except && !voices[i].userDefined && SameName(voices[i].languageFile, file) {
          return i;
        }
        i := i + 1;
      }
      return -1;
    }

    /** A name for the mode that no other voice has: tried plain, then with 2, 3 and so on after it. There
        are only so many other voices, so one is free. */
    method FreeModeKey(name: string, except: nat) returns (key: string, attempt: nat)
      ensures attempt >= 1 && key == Numbered(name, attempt) && !HasKey(voices, except, key)
      ensures forall a | 1 <= a < attempt :: HasKey(voices, except, Numbered(name, a))
    {
      hide Lowered, Dec, HasKey;
      ghost var taken := set v | v in voices :: Lowered(v.modeKey);
      attempt := 1;
      key := name;
      var found := FindByModeKey(key, except);
      while found >= 0
        invariant attempt >= 1 && key == Numbered(name, attempt)
        invariant Tried(name, attempt) <= taken
        invariant -1 <= found < |voices| && (found >= 0 <==> HasKey(voices, except, key))
        invariant found >= 0 ==> SameName(voices[found].modeKey, key)
        invariant forall a | 1 <= a < attempt :: HasKey(voices, except, Numbered(name, a))
        decreases taken - Tried(name, attempt)
      {
        assert voices[found] in voices && Lowered(key) in taken;
        NotTriedYet(name, attempt, attempt);
        attempt := attempt + 1;
        key := name + " " + Dec(attempt);
        found := FindByModeKey(key, except);
      }
    }

    /** An id no other voice has: the slot the name hashes to, or the next free one after it; the last one
        tried when all 256 are taken. */
    method FreeModeGuid(start: nat, except: nat) returns (guid: string)
      ensures exists k: nat :: k < 256 && guid == SynthGuid(k) && FirstFree(voices, except, start, k)
    {
      hide SynthGuid, HasId, Probe;
      guid := "";
      ghost var slot: nat := 0;
      var probe: nat := 0;
      while probe < 256
        invariant probe <= 256 && slot < 256
        invariant probe > 0 ==> guid == SynthGuid(slot) && Probe(start, slot) == probe - 1
        invariant forall k: nat | k < 256 && Probe(start, k) < probe :: HasId(voices, except, SynthGuid(k))
      {
        guid := SynthGuid(start + probe);
        SynthIs(start + probe);
        slot := (start + probe) % 256;
        ProbeIs(start, probe);
        var other := FindByModeGuid(guid, except);
        if other < 0 {
          return;
        }
        probe := probe + 1;
      }
    }

    /** Whether the engine would take the voice's speaker name; a name it would drop is replaced. */
    method FixSpeakerName(index: nat)
      requires index < |voices|
      modifies this
      ensures |voices| == |old(voices)| && forall j | 0 <= j < |voices| && j != index :: voices[j] == old(voices)[j]
      ensures voices[index] == old(voices)[index].(speakerName := Fixed(old(voices), index, languages))
      ensures NamesLanguage(voices[index].speakerName, Language(voices, index))
    {
      hide SuffixFor, StartsLike, LanguageAt, NamesLanguage;
      var v := voices[index];
      var lang := FindByLanguageFile(v.languageFile, index);
      var language := if lang >= 0 then voices[lang].languageName else "";
      if !NamesLanguage(v.speakerName, language) {
        var suffix := ModeSuffix(v.displayName, language);
        LanguageFirst(language, suffix);
        ghost var before := voices;
        voices := voices[index := v.(speakerName := language + " " + suffix)];
        LanguageUnchanged(before, voices, index, v.languageFile, 0);
      }
    }

    method ModeSuffix(display: string, language: string) returns (out: string)
      ensures out == SuffixFor(display, language, languages)
    {
      out := Suffix(StrippedAll(display, FRONTS + [language] + languages));
    }

    /** A new voice begins as a copy of its template, under its section's name and with its values. */
    method PushCopy(s: Section)
      requires voices != []
      modifies this
      ensures voices == old(voices) + [WithValues(Copied(Template(old(voices), s.basedOn), s.name), s.values)]
    {
      hide WithValues, AnswerAt;
      var base := -1;
      if s.basedOn != "" {
        base := FindByName(s.basedOn);
      }
      var v := voices[if base >= 0 then base else 0];
      voices := voices + [WithValues(Copied(v, s.name), s.values)];
    }

    /** Gives the last voice, the new one, the name and the id the engine is to know it by. */
    method NameIt(n: nat, section: string)
      requires n + 1 == |voices| && Sound(voices[..n]) && '\\' !in voices[n].languageName
      modifies this
      ensures |voices| == n + 1 && voices[..n] == old(voices)[..n]
      ensures var v, was := voices[n], old(voices)[n];
              && v == was.(languageName := LanguageOr(old(voices), n), modeKey := v.modeKey, speakerName := v.modeKey,
                           modeGuid := v.modeGuid)
              && IsFreeKey(voices[..n], v.languageName + " " + SuffixFor(v.displayName, v.languageName, languages),
                           v.modeKey)
              && '\\' !in v.languageName && IsKeyName(v.modeKey) && NamesLanguage(v.modeKey, v.languageName)
              && IsFreeGuid(voices[..n], slotFor(section), v.modeGuid)
              && (UserCount(voices[..n]) < 256 ==> !HasId(voices[..n], -1, v.modeGuid))
    {
      hide Plain, Lowered, SynthGuid, IsSynth, HasId, IsKeyName, LanguageAt, SuffixFor, NamesLanguage, Numbered, Probe;
      ghost var before := voices[..n];
      assert voices == before + [voices[n]];
      var v := voices[n];
      var lang := FindByLanguageFile(v.languageFile, n);
      if lang >= 0 {
        assert voices[lang] == before[lang] && voices[lang] in before;
        v := v.(languageName := voices[lang].languageName);
      }
      var suffix := ModeSuffix(v.displayName, v.languageName);
      SuffixForIsPlain(v.displayName, v.languageName, languages);
      var key, attempt := FreeModeKey(v.languageName + " " + suffix, n);
      KeyIsName(v.languageName, suffix, attempt);
      KeyIsFree(before, voices[n], v.languageName + " " + suffix, attempt);
      var guid := FreeModeGuid(slotFor(section), n);
      GuidIsFree(before, voices[n], slotFor(section), guid);
      voices := voices[n := v.(modeKey := key, speakerName := key, modeGuid := guid)];
      assert voices[..n] == before;
    }

    /** A section that names no voice there is adds one, made from a template. */
    method AddVoice(s: Section)
      requires Good(voices) && forall v <- voices :: !Answers(v, s.name)
      modifies this
      ensures Good(voices) && |voices| == |old(voices)| + 1 && voices[..|old(voices)|] == old(voices)
      ensures IsAdded(old(voices), s, voices, languages, slotFor)
      ensures IdsApart(old(voices)) && UserCount(old(voices)) < 256 ==> IdsApart(voices)
    {
      hide Good, SynthGuid, HasId, IdsApart, IsKeyName, Language, LanguageOr, NamesLanguage, UserCount, WithValues,
           Template,
           IsFreeKey, IsFreeGuid, SuffixFor, Fixed, Answers, SameIdentity;
      var n := |voices|;
      ghost var before := voices;
      GoodIsSome(before);
      ghost var w := WithValues(Copied(Template(before, s.basedOn), s.name), s.values);
      TemplateIsOne(before, s.basedOn);
      CopyIsSound(before, Template(before, s.basedOn), s);
      PushCopy(s);
      assert voices[..n] == before;
      NameIt(n, s.name);
      ghost var named := voices;
      assert named == before + [named[n]];
      ghost var language := named[n].languageName;
      NewIsGood(before, named[n], s.name, language + " " + SuffixFor(s.name, language, languages), slotFor(s.name));
      LanguageStays(before + [w], named, n);
      NamedAlready(named, n, languages);
      FixSpeakerName(n);
      assert voices == named;
    }

    /** A section that names a voice there is changes that voice, but nothing that tells voices apart. */
    method ChangeVoice(s: Section, index: nat)
      requires Good(voices) && index < |voices|
      modifies this
      ensures Good(voices) && |voices| == |old(voices)| && UserCount(voices) == UserCount(old(voices))
      ensures IdsApart(old(voices)) ==> IdsApart(voices)
      ensures IsChanged(old(voices), s, voices, index, languages)
    {
      hide Good, IdsApart, LanguageAt, NamesLanguage, Language;
      ghost var before := voices;
      voices := voices[index := WithValues(voices[index].(namedByUser := true), s.values)];
      FixSpeakerName(index);
      IdentityKeeps(before, voices);
    }

    /** One section: skipped, or another voice, or changes to one there is. */
    method ReadSection(s: Section)
      requires InOrder(voices)
      modifies this
      ensures InOrder(voices) && Keeps(old(voices), voices)
      ensures IsVoiceSection(s) ==> exists v <- voices :: Answers(v, s.name)
      ensures IsRead(old(voices), s, voices, languages, slotFor)
    {
      hide Good, IdsApart, NamesLanguage, Language, WithValues, SameName, Template, Answers;
      ghost var before := voices;
      if IsVoiceSection(s) {
        var index := FindByName(s.name);
        if index < 0 {
          NoneAnswers(voices, s.name);
          AddVoice(s);
          Added(before, voices, s);
        } else {
          ChangeVoice(s, index);
          Changed(before, voices, index, s);
        }
      }
    }

    /** Reads one file's sections on top of what there is, each in its turn. */
    method LoadUserVoices(sections: seq<Section>) returns (ghost states: seq<seq<Voice>>)
      requires InOrder(voices)
      modifies this
      ensures InOrder(voices) && Keeps(old(voices), voices)
      ensures forall s <- sections | IsVoiceSection(s) :: exists v <- voices :: Answers(v, s.name)
      ensures |states| == |sections| + 1 && states[0] == old(voices) && states[|sections|] == voices
      ensures forall k | 0 <= k < |sections| :: IsRead(states[k], sections[k], states[k + 1], languages, slotFor)
    {
      KeepsItself(voices);
      hide InOrder, SameIdentity, SameName, Keeps, IsRead;
      states := [voices];
      var i := 0;
      while i < |sections|
        invariant 0 <= i <= |sections|
        invariant InOrder(voices) && Keeps(old(voices), voices)
        invariant |states| == i + 1 && states[0] == old(voices) && states[i] == voices
        invariant forall k | 0 <= k < i :: IsRead(states[k], sections[k], states[k + 1], languages, slotFor)
        invariant forall k | 0 <= k < i && IsVoiceSection(sections[k]) ::
                    exists v <- voices :: Answers(v, sections[k].name)
      {
        ghost var before := voices;
        ReadSection(sections[i]);
        KeepsTwice(old(voices), before, voices);
        forall k | 0 <= k < i && IsVoiceSection(sections[k])
          ensures exists v <- voices :: Answers(v, sections[k].name)
        {
          StillAnswers(before, voices, sections[k].name);
        }
        states := states + [voices];
        i := i + 1;
      }
    }
  }

  /** A catalogue in order; the ids are apart exactly as long as there are no more than 256 voices of the
      user's own. */
  ghost predicate InOrder(vs: seq<Voice>) {
    Good(vs) && (IdsApart(vs) <==> UserCount(vs) <= 256)
  }

  /** Every voice there was is still there, in its place and under its names and id. */
  predicate Keeps(vs: seq<Voice>, ws: seq<Voice>) {
    |vs| <= |ws| && forall j | 0 <= j < |vs| :: SameIdentity(vs[j], ws[j])
  }

  lemma KeepsItself(vs: seq<Voice>)
    ensures Keeps(vs, vs)
  {
  }

  lemma KeepsTwice(us: seq<Voice>, vs: seq<Voice>, ws: seq<Voice>)
    requires Keeps(us, vs) && Keeps(vs, ws)
    ensures Keeps(us, ws)
  {
  }

  lemma StillAnswers(vs: seq<Voice>, ws: seq<Voice>, name: string)
    requires Keeps(vs, ws) && exists v <- vs :: Answers(v, name)
    ensures exists v <- ws :: Answers(v, name)
  {
    hide SameName;
    var v :| v in vs && Answers(v, name);
    var j :| 0 <= j < |vs| && vs[j] == v;
    assert SameIdentity(vs[j], ws[j]) && ws[j] in ws && Answers(ws[j], name);
  }

  lemma NoneAnswers(vs: seq<Voice>, name: string)
    requires AnswerAt(vs, name, 0) == -1
    ensures forall v <- vs :: !Answers(v, name)
  {
  }

  /** [Settings] is not a voice, nor is a section without a name. */
  predicate IsVoiceSection(s: Section) { s.name != "" && !SameName(s.name, "Settings") }

  /** A voice more, as its section asks for. */
  ghost predicate IsAdded(vs: seq<Voice>, s: Section, ws: seq<Voice>, languages: seq<string>, slotFor: string -> nat) {
    vs != [] && |ws| == |vs| + 1 && ws[..|vs|] == vs &&
    var v, w := ws[|vs|], WithValues(Copied(Template(vs, s.basedOn), s.name), s.values);
    && v == w.(languageName := LanguageOr(vs + [w], |vs|), modeKey := v.modeKey, modeGuid := v.modeGuid,
               speakerName := v.modeKey)
    && v.userDefined && v.displayName == s.name
    && IsFreeKey(vs, v.languageName + " " + SuffixFor(s.name, v.languageName, languages), v.modeKey)
    && IsFreeGuid(vs, slotFor(s.name), v.modeGuid)
    && NamesLanguage(v.modeKey, v.languageName) && NamesLanguage(v.speakerName, Language(ws, |vs|))
  }

  /** One voice changed, as its section asks for. */
  predicate IsChanged(vs: seq<Voice>, s: Section, ws: seq<Voice>, index: nat, languages: seq<string>) {
    index < |vs| == |ws| && (forall j | 0 <= j < |vs| && j != index :: ws[j] == vs[j]) &&
    var v := WithValues(vs[index].(namedByUser := true), s.values);
    && ws[index] == v.(speakerName := Fixed(vs[index := v], index, languages))
    && NamesLanguage(ws[index].speakerName, Language(ws, index))
  }

  /** What a section comes to: nothing without a name or under "Settings"; changes to the first voice that
      answers to its name; or a voice more. */
  ghost predicate IsRead(vs: seq<Voice>, s: Section, ws: seq<Voice>, languages: seq<string>, slotFor: string -> nat) {
    if s.name == "" || SameName(s.name, "Settings") then ws == vs
    else
      var index := AnswerAt(vs, s.name, 0);
      if index >= 0 then IsChanged(vs, s, ws, index, languages) else IsAdded(vs, s, ws, languages, slotFor)
  }

  /** The rule file's language is that of the first built-in voice of the file, other than the voice itself;
      there is none when no such voice is there. */
  lemma LanguageIsFound(vs: seq<Voice>, index: nat)
    requires index < |vs|
    ensures var file, i := vs[index].languageFile, LanguageAt(vs, vs[index].languageFile, index, 0);
            && (i == -1 <==> forall j | 0 <= j < |vs| && j != index ::
                  vs[j].userDefined || !SameName(vs[j].languageFile, file))
            && (i >= 0 ==> forall j | 0 <= j < i && j != index ::
                  vs[j].userDefined || !SameName(vs[j].languageFile, file))
            && Language(vs, index) == (if i == -1 then "" else vs[i].languageName)
            && LanguageOr(vs, index) == (if i == -1 then vs[index].languageName else vs[i].languageName)
  {
    hide SameName;
    FirstLanguage(vs, vs[index].languageFile, index, 0);
  }

  lemma {:induction false} FirstLanguage(vs: seq<Voice>, file: string, except: nat, from: nat)
    requires from <= |vs|
    ensures var i := LanguageAt(vs, file, except, from);
            && (i == -1 ==> forall j | from <= j < |vs| && j != except ::
                  vs[j].userDefined || !SameName(vs[j].languageFile, file))
            && (i >= 0 ==> from <= i && forall j | from <= j < i && j != except ::
                  vs[j].userDefined || !SameName(vs[j].languageFile, file))
    decreases |vs| - from
  {
    hide SameName;
    if from < |vs| {
      FirstLanguage(vs, file, except, from + 1);
    }
  }

  /** A speaker name that is the language, or the language and then more after a space, stays as it is; so
      does any where the language is not known. Another is made of the language and the voice's own name. */
  lemma SpeakerNameIs(vs: seq<Voice>, index: nat, languages: seq<string>)
    requires index < |vs|
    ensures var language, name := Language(vs, index), vs[index].speakerName;
            Fixed(vs, index, languages) ==
              if language == "" || SameName(name, language) || StartsLike(name, language + " ") then name
              else language + " " + SuffixFor(vs[index].displayName, language, languages)
  {
    hide SuffixFor, Language;
    var language, name := Language(vs, index), vs[index].speakerName;
    if SameName(name, language) {
      assert |Lowered(name)| == |Lowered(language)| && name[..|language|] == name;
    }
    LeadsIs(name, language);
    if |name| == |language| {
      assert name[..|language|] == name;
    }
  }

  lemma Added(vs: seq<Voice>, ws: seq<Voice>, s: Section)
    requires Good(ws) && |ws| == |vs| + 1 && ws[..|vs|] == vs && ws[|vs|].userDefined && ws[|vs|].displayName == s.name
    requires IdsApart(vs) <==> UserCount(vs) <= 256
    requires IdsApart(vs) && UserCount(vs) < 256 ==> IdsApart(ws)
    ensures InOrder(ws) && Keeps(vs, ws)
    ensures exists v <- ws :: Answers(v, s.name)
  {
    hide Good, IdsApart, SameName, UserCount, Sound, Keeps;
    var w := ws[|vs|];
    assert Answers(w, s.name) by {
      SameAsItself(s.name);
    }
    assert w in ws;
    StillThere(vs, ws);
    assert ws == vs + [w];
    UserCountMore(vs, w);
    if IdsApart(ws) {
      GoodIsSound(ws);
      TooManyShareIds(ws);
    }
  }

  lemma SameAsItself(name: string)
    ensures SameName(name, name)
  {
  }

  lemma GoodIsSound(vs: seq<Voice>)
    requires Good(vs)
    ensures Sound(vs)
  {
  }

  lemma StillThere(vs: seq<Voice>, ws: seq<Voice>)
    requires |vs| <= |ws| && ws[..|vs|] == vs
    ensures Keeps(vs, ws)
  {
  }

  lemma Changed(vs: seq<Voice>, ws: seq<Voice>, index: nat, s: Section)
    requires |vs| == |ws| && index < |vs| && forall j | 0 <= j < |vs| && j != index :: vs[j] == ws[j]
    requires ws[index] == WithValues(vs[index].(namedByUser := true), s.values).(speakerName := ws[index].speakerName)
    requires IdsApart(vs) <==> UserCount(vs) <= 256
    requires Good(ws) && (IdsApart(vs) ==> IdsApart(ws)) && UserCount(ws) == UserCount(vs)
    requires Answers(vs[index], s.name)
    ensures InOrder(ws) && Keeps(vs, ws)
    ensures exists v <- ws :: Answers(v, s.name)
  {
    hide Sound, KeysApart, NamesApart, IdsApart, SameName, ValueOr;
    assert Answers(ws[index], s.name) && ws[index] in ws;
    if IdsApart(ws) {
      assert Sound(ws);
      TooManyShareIds(ws);
    }
  }

  predicate Answers(v: Voice, name: string) {
    SameName(v.displayName, name) || (!v.userDefined && SameName("Infovox 1.12 " + v.modeKey, name))
  }

  /** The first voice that answers to a name. */
  function AnswerAt(vs: seq<Voice>, name: string, from: nat): (i: int)
    requires from <= |vs|
    ensures -1 <= i < |vs|
    ensures i >= 0 ==> Answers(vs[i], name)
    ensures i == -1 ==> forall j | from <= j < |vs| :: !Answers(vs[j], name)
    decreases |vs| - from
  {
    if from == |vs| then -1 else if Answers(vs[from], name) then from else AnswerAt(vs, name, from + 1)
  }

  /** What a new voice starts from: the voice its section names, or the first. */
  function Template(vs: seq<Voice>, basedOn: string): Voice
    requires vs != []
  {
    var base := if basedOn == "" then -1 else AnswerAt(vs, basedOn, 0);
    vs[if base >= 0 then base else 0]
  }

  /** A name finds the first voice that is shown under it, or is a built-in one and used to be; there is
      none when nothing is. */
  lemma NameIsFound(vs: seq<Voice>, name: string)
    ensures var i := AnswerAt(vs, name, 0);
            && (i == -1 <==> forall v <- vs ::
                  !SameName(v.displayName, name) && (v.userDefined || !SameName("Infovox 1.12 " + v.modeKey, name)))
            && (i >= 0 ==> forall j | 0 <= j < i ::
                  !SameName(vs[j].displayName, name)
                  && (vs[j].userDefined || !SameName("Infovox 1.12 " + vs[j].modeKey, name)))
  {
    hide SameName;
    FirstAnswers(vs, name, 0);
    var i := AnswerAt(vs, name, 0);
    if i >= 0 {
      assert vs[i] in vs;
    }
  }

  lemma {:induction false} FirstAnswers(vs: seq<Voice>, name: string, from: nat)
    requires from <= |vs|
    ensures var i := AnswerAt(vs, name, from); i >= 0 ==> forall j | from <= j < i :: !Answers(vs[j], name)
    decreases |vs| - from
  {
    hide SameName;
    if from < |vs| && !Answers(vs[from], name) {
      FirstAnswers(vs, name, from + 1);
    }
  }

  /** A new voice starts from the voice its section names, or from the first of all when it names none that
      is there. */
  lemma TemplateIs(vs: seq<Voice>, basedOn: string)
    requires vs != []
    ensures var i := AnswerAt(vs, basedOn, 0);
            Template(vs, basedOn) == if basedOn == "" || i == -1 then vs[0] else vs[i]
  {
  }

  lemma TemplateIsOne(vs: seq<Voice>, basedOn: string)
    requires vs != []
    ensures Template(vs, basedOn) in vs
  {
  }

  lemma CopyIsSound(vs: seq<Voice>, template: Voice, s: Section)
    requires Good(vs) && template in vs
    ensures Sound(vs) && '\\' !in WithValues(Copied(template, s.name), s.values).languageName
    ensures var w := WithValues(Copied(template, s.name), s.values); w.userDefined && w.displayName == s.name
  {
  }

  lemma NewIsGood(vs: seq<Voice>, v: Voice, name: string, key: string, start: nat)
    requires Good(vs) && v.userDefined && v.displayName == name && IsKeyName(v.modeKey) && '\\' !in v.languageName
    requires IsFreeKey(vs, key, v.modeKey) && IsFreeGuid(vs, start, v.modeGuid)
    requires forall w <- vs :: !Answers(w, name)
    ensures Good(vs + [v])
    ensures IdsApart(vs) && !HasId(vs, -1, v.modeGuid) ==> IdsApart(vs + [v])
  {
    hide Lowered, SynthGuid, NamesApart, KeysApart, Sound, Numbered, IdsApart, HasId, IsKeyName;
    forall j | 0 <= j < |vs|
      ensures !SameName(vs[j].displayName, v.displayName) && !SameName(vs[j].modeKey, v.modeKey)
    {
      assert vs[j] in vs && !Answers(vs[j], name);
    }
    AddedIsGood(vs, v);
  }

  lemma GoodIsSome(vs: seq<Voice>)
    requires Good(vs)
    ensures vs != []
  {
  }

  lemma LanguageStays(us: seq<Voice>, vs: seq<Voice>, n: nat)
    requires |us| == n + 1 == |vs| && us[..n] == vs[..n] && us[n].languageFile == vs[n].languageFile
    requires vs[n].languageName == LanguageOr(us, n)
    ensures LanguageOr(vs, n) == vs[n].languageName
  {
    hide LanguageAt;
    forall j | 0 <= j < n ensures us[j] == vs[j] {
      assert us[..n][j] == vs[..n][j];
    }
    LanguageUnchanged(us, vs, n, us[n].languageFile, 0);
  }

  /** A voice named after its own language needs no other name. */
  lemma NamedAlready(vs: seq<Voice>, n: nat, languages: seq<string>)
    requires n + 1 == |vs| && vs[n].speakerName == vs[n].modeKey && NamesLanguage(vs[n].modeKey, vs[n].languageName)
    requires vs[n].languageName == LanguageOr(vs, n)
    ensures Fixed(vs, n, languages) == vs[n].speakerName
  {
  }

  function Copied(template: Voice, name: string): Voice {
    template.(userDefined := true, displayName := name, speakerName := name)
  }

  lemma {:induction false} LanguageUnchanged(vs: seq<Voice>, ws: seq<Voice>, index: nat, file: string, from: nat)
    requires |vs| == |ws| && from <= |vs| && index < |vs|
    requires forall j | 0 <= j < |vs| && j != index :: vs[j] == ws[j]
    ensures LanguageAt(vs, file, index, from) == LanguageAt(ws, file, index, from)
    decreases |vs| - from
  {
    if from < |vs| {
      LanguageUnchanged(vs, ws, index, file, from + 1);
    }
  }

  /** What tells voices apart is all there is to a catalogue's being in order. */
  lemma IdentityKeeps(vs: seq<Voice>, ws: seq<Voice>)
    requires |vs| == |ws| && forall j | 0 <= j < |vs| :: SameIdentity(vs[j], ws[j])
    ensures Good(vs) ==> Good(ws)
    ensures IdsApart(vs) ==> IdsApart(ws)
    ensures UserCount(vs) == UserCount(ws)
  {
    hide Lowered, SynthGuid, IsSynth, IsKeyName;
    SameCount(vs, ws);
    if Good(vs) {
      forall w <- ws ensures IsKeyName(w.modeKey) && '\\' !in w.languageName
                             && (w.userDefined ==> exists k: nat :: k < 256 && w.modeGuid == SynthGuid(k))
                             && (!w.userDefined ==> !IsSynth(w.modeGuid)) {
        var j :| 0 <= j < |ws| && ws[j] == w;
        assert vs[j] in vs && SameIdentity(vs[j], w);
      }
    }
  }

  lemma {:induction false} SameCount(vs: seq<Voice>, ws: seq<Voice>)
    requires |vs| == |ws| && forall j | 0 <= j < |vs| :: vs[j].userDefined == ws[j].userDefined
    ensures UserCount(vs) == UserCount(ws)
  {
    if vs != [] {
      SameCount(vs[..|vs| - 1], ws[..|ws| - 1]);
    }
  }

  lemma KeyIsName(language: string, suffix: string, attempt: nat)
    requires '\\' !in language && Plain(suffix)
    ensures IsKeyName(Numbered(language + " " + suffix, attempt))
    ensures NamesLanguage(Numbered(language + " " + suffix, attempt), language)
  {
  }

  lemma AddedIsGood(vs: seq<Voice>, v: Voice)
    requires Good(vs) && v.userDefined && IsKeyName(v.modeKey) && '\\' !in v.languageName
    requires exists k: nat :: k < 256 && v.modeGuid == SynthGuid(k)
    requires forall j | 0 <= j < |vs| ::
               !SameName(vs[j].displayName, v.displayName) && !SameName(vs[j].modeKey, v.modeKey)
    ensures Good(vs + [v])
    ensures IdsApart(vs) && !HasId(vs, -1, v.modeGuid) ==> IdsApart(vs + [v])
  {
    hide Lowered, SynthGuid, IsSynth;
  }

  lemma KeyIsFree(vs: seq<Voice>, v: Voice, name: string, attempt: nat)
    requires attempt >= 1 && !HasKey(vs + [v], |vs|, Numbered(name, attempt))
    requires forall a | 1 <= a < attempt :: HasKey(vs + [v], |vs|, Numbered(name, a))
    ensures IsFreeKey(vs, name, Numbered(name, attempt))
  {
    hide HasKey, Numbered;
    KeysOfOthers(vs, v, Numbered(name, attempt));
    forall a | 1 <= a < attempt ensures HasKey(vs, -1, Numbered(name, a)) {
      KeysOfOthers(vs, v, Numbered(name, a));
    }
  }

  lemma KeysOfOthers(vs: seq<Voice>, v: Voice, key: string)
    ensures HasKey(vs + [v], |vs|, key) <==> HasKey(vs, -1, key)
  {
    if HasKey(vs, -1, key) {
      var j :| 0 <= j < |vs| && SameName(vs[j].modeKey, key);
      assert (vs + [v])[j] == vs[j];
    }
  }

  /** If there is a free id, a new voice's is one. */
  lemma GuidIsFree(vs: seq<Voice>, v: Voice, start: nat, guid: string)
    requires Sound(vs)
    requires exists k: nat :: k < 256 && guid == SynthGuid(k) && FirstFree(vs + [v], |vs|, start, k)
    ensures IsFreeGuid(vs, start, guid)
    ensures UserCount(vs) < 256 ==> !HasId(vs, -1, guid)
  {
    hide SynthGuid, HasId, Probe, FirstFree, Sound, UserCount;
    var k: nat :| k < 256 && guid == SynthGuid(k) && FirstFree(vs + [v], |vs|, start, k);
    FirstFreeOfOthers(vs, v, start, k);
    if UserCount(vs) < 256 {
      SomeIdFree(vs);
      FreeIsFound(vs, start, k);
    }
  }

  lemma FirstFreeOfOthers(vs: seq<Voice>, v: Voice, start: nat, k: nat)
    requires FirstFree(vs + [v], |vs|, start, k)
    ensures FirstFree(vs, -1, start, k)
  {
    hide SynthGuid, HasId, Probe;
    forall j: nat | j < 256 ensures HasId(vs + [v], |vs|, SynthGuid(j)) <==> HasId(vs, -1, SynthGuid(j)) {
      IdsOfOthers(vs, v, SynthGuid(j));
    }
  }

  lemma FreeIsFound(vs: seq<Voice>, start: nat, k: nat)
    requires FirstFree(vs, -1, start, k) && exists j: nat :: j < 256 && !HasId(vs, -1, SynthGuid(j))
    ensures !HasId(vs, -1, SynthGuid(k))
  {
  }

  lemma IdsOfOthers(vs: seq<Voice>, v: Voice, guid: string)
    ensures HasId(vs + [v], |vs|, guid) <==> HasId(vs, -1, guid)
  {
    if HasId(vs, -1, guid) {
      var j :| 0 <= j < |vs| && SameName(vs[j].modeGuid, guid);
      assert (vs + [v])[j] == vs[j];
    }
  }

  function LanguageAt(vs: seq<Voice>, file: string, except: int, from: nat): (i: int)
    requires from <= |vs|
    ensures -1 <= i < |vs|
    ensures i >= 0 ==> i != except && !vs[i].userDefined && SameName(vs[i].languageFile, file)
    decreases |vs| - from
  {
    if from == |vs| then -1
    else if from != except && !vs[from].userDefined && SameName(vs[from].languageFile, file) then from
    else LanguageAt(vs, file, except, from + 1)
  }
}
