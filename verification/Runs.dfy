/** Runs of tagged text: how the SAPI side spells characters, tags and bookmarks for the engine and
    where each spelt character came from, and how the worker reads the spelling back. */
module Runs {
  import opened Chars
  import opened Seqs
  import opened Tags

  /** Where a character of a run came from: a position in the application's text, or a tag. */
  datatype Origin = NotFromSource | At(offset: nat)

  /** What a run is made of. `effects` are the settings a tag changes. */
  datatype Item =
    | Ch(ch: char, origin: Origin)
    | Tag(text: string, effects: set<Effect>)
    | Mark(number: nat)
  {
    predicate Valid() { Tag? ==> EngineTag(text, effects) }
  }

  function MarkTag(n: nat): string { "\\mrk=" + Dec(n) + "\\" }

  function Spell(item: Item): (s: string)
    ensures item.Valid() ==> |s| > 0
  {
    match item
    case Ch(c, _) => if c == '\\' then "\\\\" else [c]
    case Tag(t, _) => t
    case Mark(n) => MarkTag(n)
  }

  function OriginOf(item: Item): Origin {
    if item.Ch? then item.origin else NotFromSource
  }

  function Encode(items: seq<Item>): string {
    if items == [] then "" else Spell(items[0]) + Encode(items[1..])
  }

  /** One origin for every character of the spelling. */
  function Sources(items: seq<Item>): (r: seq<Origin>)
    ensures |r| == |Encode(items)|
  {
    if items == [] then []
    else seq(|Spell(items[0])|, i => OriginOf(items[0])) + Sources(items[1..])
  }

  lemma {:induction false} EncodeConcat(a: seq<Item>, b: seq<Item>)
    ensures Encode(a + b) == Encode(a) + Encode(b)
    ensures Sources(a + b) == Sources(a) + Sources(b)
  {
    hide Spell, OriginOf;
    if a == [] {
      assert a + b == b;
    } else {
      assert (a + b)[1..] == a[1..] + b;
      EncodeConcat(a[1..], b);
      Assoc(Spell(a[0]), Encode(a[1..]), Encode(b));
      Assoc(seq(|Spell(a[0])|, i => OriginOf(a[0])), Sources(a[1..]), Sources(b));
    }
  }

  lemma EncodeOne(item: Item)
    ensures Encode([item]) == Spell(item)
    ensures Sources([item]) == seq(|Spell(item)|, i => OriginOf(item))
  {
  }

  // ------------------------------------------------------------------------------------------
  // Reading a spelling back
  // ------------------------------------------------------------------------------------------

  datatype Piece = Plain(ch: char) | Control(tag: string)

  /** Any string at all, read as characters and tags; a tag that never closes ends it. */
  function Parse(s: string): seq<Piece>
    decreases |s|
  {
    if s == "" then []
    else if s[0] != '\\' then [Plain(s[0])] + Parse(s[1..])
    else if |s| > 1 && s[1] == '\\' then [Plain('\\')] + Parse(s[2..])
    else
      var close := Until(s, 1, {'\\'});
      if close == |s| then [] else [Control(s[..close + 1])] + Parse(s[close + 1..])
  }

  function PieceOf(item: Item): Piece {
    match item
    case Ch(c, _) => Plain(c)
    case Tag(t, _) => Control(t)
    case Mark(n) => Control(MarkTag(n))
  }

  function PiecesOf(items: seq<Item>): seq<Piece> {
    seq(|items|, i requires 0 <= i < |items| => PieceOf(items[i]))
  }

  lemma MarkTagIsTag(n: nat)
    ensures IsTag(MarkTag(n))
  {
  }

  lemma ParseTag(t: string, rest: string)
    requires IsTag(t)
    ensures Parse(t + rest) == [Control(t)] + Parse(rest)
  {
    var s := t + rest;
    assert s[1] == t[1] != '\\';
    forall k | 1 <= k < |t| - 1 ensures s[k] !in {'\\'} {
      assert s[k] == t[k];
    }
    UntilIs(s, 1, {'\\'}, |t| - 1);
    assert s[..|t|] == t && s[|t|..] == rest;
  }

  /** Every reader stays on item boundaries: a run reads back as exactly what it was made of. */
  lemma {:induction false} ParseEncode(items: seq<Item>)
    requires forall i | 0 <= i < |items| :: items[i].Valid()
    ensures Parse(Encode(items)) == PiecesOf(items)
  {
    if items != [] {
      var rest := Encode(items[1..]);
      ParseEncode(items[1..]);
      assert PiecesOf(items) == [PieceOf(items[0])] + PiecesOf(items[1..]);
      match items[0]
      case Ch(c, _) =>
        assert (Spell(items[0]) + rest)[|Spell(items[0])|..] == rest;
      case Tag(t, _) =>
        ParseTag(t, rest);
      case Mark(n) =>
        MarkTagIsTag(n);
        ParseTag(MarkTag(n), rest);
    }
  }

  /** A bookmark's tag is read as that bookmark. */
  lemma MarkReadsBack(n: nat)
    requires 1 <= n <= 0xFFFF_FFFF
    ensures ReadTag(MarkTag(n), 0).Some? && ReadTag(MarkTag(n), 0).value.kind == Bookmark
    ensures ReadTag(MarkTag(n), 0).value.number == n
  {
    hide ReadInner;
    var t := MarkTag(n);
    MarkTagIsTag(n);
    UntilIs(t, 1, {'\\'}, |t| - 1);
    DecLength(n, 10);
    assert t[1..|t| - 1] == "mrk=" + Dec(n);
    MarkInner(n);
  }

  lemma MarkInner(n: nat)
    requires n <= 0xFFFF_FFFF
    ensures var r := ReadInner("mrk=" + Dec(n)); r.Some? && r.value.kind == Bookmark && r.value.number == n
  {
    hide ReadAs, SpecNamed;
    var inner := "mrk=" + Dec(n);
    UntilIs(inner, 0, {'='}, 3);
    assert inner[..3] == "mrk" && inner[4..] == Dec(n);
    MrkIsSixth();
    NumberAs(SPECS[6], inner, 3, n);
  }

  lemma NumberAs(spec: Spec, inner: string, eq: nat, n: nat)
    requires spec.kind != Text && spec.value == Number && n <= 0xFFFF_FFFF
    requires eq < |inner| && Until(inner, 0, {'='}) == eq && inner[eq + 1..] == Dec(n)
    ensures ReadAs(spec, inner).Some? && ReadAs(spec, inner).value.number == n
  {
    hide NumberOf, Dec, ReadVoice;
    NumberOfDec(n);
    DecLength(n, 10);
  }

  lemma MrkIsSixth()
    ensures SpecNamed("mrk", 0) == 6
  {
    forall k | 0 <= k < 6 ensures !SameName("mrk", SPECS[k].name) {
      assert Lowered(SPECS[k].name)[0] != 'm' == Lowered("mrk")[0];
    }
    assert SpecNamed("mrk", 0) == SpecNamed("mrk", 1) == SpecNamed("mrk", 2) == SpecNamed("mrk", 3);
    assert SpecNamed("mrk", 3) == SpecNamed("mrk", 4) == SpecNamed("mrk", 5) == SpecNamed("mrk", 6);
  }

  // ------------------------------------------------------------------------------------------
  // The worker's two readers
  // ------------------------------------------------------------------------------------------

  predicate SaysSomething(p: Piece) { p.Plain? && !Blank(p.ch) }

  predicate ChangesVoice(p: Piece) {
    p.Control? && |p.tag| >= 2 && SameName(NameOf(p.tag[1..|p.tag| - 1]), "vce")
  }

  function HasPiece(ps: seq<Piece>, holds: Piece -> bool): bool {
    ps != [] && (holds(ps[0]) || HasPiece(ps[1..], holds))
  }

  lemma {:induction false} HasPieceIs(ps: seq<Piece>, holds: Piece -> bool)
    ensures HasPiece(ps, holds) <==> exists i :: 0 <= i < |ps| && holds(ps[i])
  {
    if ps != [] {
      HasPieceIs(ps[1..], holds);
      forall i | 0 <= i < |ps| && holds(ps[i]) ensures HasPiece(ps, holds) {
        assert i > 0 ==> ps[1..][i - 1] == ps[i];
      }
      if HasPiece(ps[1..], holds) {
        var i :| 0 <= i < |ps| - 1 && holds(ps[1..][i]);
        assert ps[i + 1] == ps[1..][i];
      }
    }
  }

  /** Parse from position `i` of a text, by what stands there. */
  lemma ParseAt(s: string, i: nat)
    requires i < |s|
    ensures s[i] != '\\' ==> Parse(s[i..]) == [Plain(s[i])] + Parse(s[i + 1..])
    ensures s[i] == '\\' && i + 1 < |s| && s[i + 1] == '\\' ==> Parse(s[i..]) == [Plain('\\')] + Parse(s[i + 2..])
    ensures s[i] == '\\' && (i + 1 == |s| || s[i + 1] != '\\') ==>
              var close := Until(s, i + 1, {'\\'});
              Parse(s[i..]) == if close == |s| then [] else [Control(s[i..close + 1])] + Parse(s[close + 1..])
  {
    var t := s[i..];
    assert t[1..] == s[i + 1..];
    if s[i] == '\\' {
      if i + 1 < |s| && s[i + 1] == '\\' {
        assert t[2..] == s[i + 2..];
      } else {
        ParseTagAt(s, i);
      }
    }
  }

  lemma ParseTagFirst(s: string)
    requires s != "" && s[0] == '\\' && (|s| == 1 || s[1] != '\\')
    ensures var close := Until(s, 1, {'\\'});
            Parse(s) == if close == |s| then [] else [Control(s[..close + 1])] + Parse(s[close + 1..])
  {
  }

  lemma ParseTagAt(s: string, i: nat)
    requires i < |s| && s[i] == '\\' && (i + 1 == |s| || s[i + 1] != '\\')
    ensures var close := Until(s, i + 1, {'\\'});
            Parse(s[i..]) == if close == |s| then [] else [Control(s[i..close + 1])] + Parse(s[close + 1..])
  {
    hide Parse;
    var t, close := s[i..], Until(s, i + 1, {'\\'});
    UntilIs(t, 1, {'\\'}, close - i);
    ParseTagFirst(t);
    if close < |s| {
      assert t[..close - i + 1] == s[i..close + 1] && t[close - i + 1..] == s[close + 1..];
    }
  }

  lemma HasFirst(p: Piece, rest: seq<Piece>, holds: Piece -> bool)
    ensures HasPiece([p] + rest, holds) <==> holds(p) || HasPiece(rest, holds)
  {
  }

  /** What is left to look for from position `i` of a text on. */
  lemma HasPieceAt(s: string, i: nat, holds: Piece -> bool)
    requires i < |s|
    ensures s[i] != '\\' ==>
              (HasPiece(Parse(s[i..]), holds) <==> holds(Plain(s[i])) || HasPiece(Parse(s[i + 1..]), holds))
    ensures s[i] == '\\' && i + 1 < |s| && s[i + 1] == '\\' ==>
              (HasPiece(Parse(s[i..]), holds) <==> holds(Plain('\\')) || HasPiece(Parse(s[i + 2..]), holds))
    ensures s[i] == '\\' && (i + 1 == |s| || s[i + 1] != '\\') ==>
              var close := Until(s, i + 1, {'\\'});
              (HasPiece(Parse(s[i..]), holds) <==>
                 close < |s| && (holds(Control(s[i..close + 1])) || HasPiece(Parse(s[close + 1..]), holds)))
  {
    hide Parse, HasPiece, Until;
    ParseAt(s, i);
    HasNone(holds);
    if s[i] != '\\' {
      HasFirst(Plain(s[i]), Parse(s[i + 1..]), holds);
    } else if i + 1 < |s| && s[i + 1] == '\\' {
      HasFirst(Plain('\\'), Parse(s[i + 2..]), holds);
    } else {
      var close := Until(s, i + 1, {'\\'});
      if close < |s| {
        HasFirst(Control(s[i..close + 1]), Parse(s[close + 1..]), holds);
      }
    }
  }

  lemma HasNone(holds: Piece -> bool)
    ensures !HasPiece([], holds)
  {
  }

  /** wants_audio: whether anything in the text would be heard. */
  method WantsAudio(tagged: string) returns (r: bool)
    ensures r <==> HasPiece(Parse(tagged), SaysSomething)
  {
    hide Parse, HasPiece;
    var i := 0;
    assert tagged[0..] == tagged;
    while i < |tagged|
      invariant 0 <= i <= |tagged|
      invariant HasPiece(Parse(tagged), SaysSomething) <==> HasPiece(Parse(tagged[i..]), SaysSomething)
    {
      HasPieceAt(tagged, i, SaysSomething);
      if tagged[i] == '\\' {
        if i + 1 < |tagged| && tagged[i + 1] == '\\' {
          return true;
        }
        var end := FindAny(tagged, i + 1, {'\\'});
        if end == |tagged| {
          return false;
        }
        i := end + 1;
      } else {
        if !Blank(tagged[i]) {
          return true;
        }
        i := i + 1;
      }
    }
    assert tagged[i..] == "";
    ParseNothing();
    HasNone(SaysSomething);
    return false;
  }

  lemma ParseNothing()
    ensures Parse("") == []
  {
  }

  lemma InsideTag(text: string, i: nat, close: nat)
    requires i < close < |text|
    ensures |text[i..close + 1]| == close - i + 1
    ensures text[i..close + 1][1..|text[i..close + 1]| - 1] == text[i + 1..close]
  {
    var tag, inner := text[i..close + 1], text[i + 1..close];
    assert |tag| == |inner| + 2;
    forall k | 0 <= k < |inner| ensures tag[1..|tag| - 1][k] == inner[k] {
      assert tag[k + 1] == text[i + 1 + k];
    }
    assert tag[1..|tag| - 1] == inner;
  }

  /** changes_voice: whether a voice tag is left in the text for the engine to obey. */
  method ChangesVoiceIn(tagged: string) returns (r: bool)
    ensures r <==> HasPiece(Parse(tagged), ChangesVoice)
  {
    hide Parse, HasPiece, SameName;
    var i := 0;
    assert tagged[0..] == tagged;
    while i < |tagged|
      invariant 0 <= i <= |tagged|
      invariant HasPiece(Parse(tagged), ChangesVoice) <==> HasPiece(Parse(tagged[i..]), ChangesVoice)
    {
      HasPieceAt(tagged, i, ChangesVoice);
      if tagged[i] != '\\' {
        i := i + 1;
        continue;
      }
      if i + 1 < |tagged| && tagged[i + 1] == '\\' {
        i := i + 2;
        continue;
      }
      var close := FindAny(tagged, i + 1, {'\\'});
      if close == |tagged| {
        return false;
      }
      var inner := tagged[i + 1..close];
      InsideTag(tagged, i, close);
      var nameEnd := FindAny(inner, 0, {'='});
      if SameName(inner[..nameEnd], "vce") {
        return true;
      }
      i := close + 1;
    }
    assert tagged[i..] == "";
    ParseNothing();
    HasNone(ChangesVoice);
    return false;
  }

  predicate IsVoiceItem(item: Item) { item.Tag? && IsVoiceTag(item.text) }

  /** On a run the two readers answer for the items themselves: wants_audio for a character that is
      not blank, changes_voice for a voice tag. */
  lemma ReadersAgree(items: seq<Item>)
    requires forall i | 0 <= i < |items| :: items[i].Valid()
    ensures HasPiece(Parse(Encode(items)), SaysSomething) <==>
            exists i :: 0 <= i < |items| && IsSpoken(items[i])
    ensures HasPiece(Parse(Encode(items)), ChangesVoice) <==>
            exists i :: 0 <= i < |items| && IsVoiceItem(items[i])
  {
    hide Parse, Encode, SaysSomething, ChangesVoice, IsVoiceItem, IsSpoken;
    ParseEncode(items);
    var ps := PiecesOf(items);
    HasPieceIs(ps, SaysSomething);
    HasPieceIs(ps, ChangesVoice);
    forall i | 0 <= i < |items|
      ensures SaysSomething(ps[i]) <==> IsSpoken(items[i])
      ensures ChangesVoice(ps[i]) <==> IsVoiceItem(items[i])
    {
      PieceAgrees(items[i]);
    }
  }

  predicate IsSpoken(item: Item) { item.Ch? && !Blank(item.ch) }

  lemma PieceAgrees(item: Item)
    requires item.Valid()
    ensures SaysSomething(PieceOf(item)) <==> IsSpoken(item)
    ensures ChangesVoice(PieceOf(item)) <==> IsVoiceItem(item)
  {
    if item.Mark? {
      MarkIsNotVoice(item.number);
    }
  }

  lemma MarkIsNotVoice(n: nat)
    ensures !ChangesVoice(Control(MarkTag(n)))
  {
    var t := MarkTag(n);
    var inner := t[1..|t| - 1];
    assert inner == "mrk=" + Dec(n);
    UntilIs(inner, 0, {'='}, 3);
    assert Lowered(NameOf(inner))[0] == 'm' != Lowered("vce")[0];
  }
}
