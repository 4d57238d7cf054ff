/** Names the engine accepts for a mode: how one is made from a voice's own name, and numbered. */
module Names {
  import opened Chars
  import opened Seqs

  predicate Alnum(c: char) { Digit(c) || 'a' <= c <= 'z' || 'A' <= c <= 'Z' }

  predicate StartsLike(text: string, prefix: string) {
    |prefix| <= |text| && SameName(text[..|prefix|], prefix)
  }

  /** One prefix taken off, with the space after it, when something follows it. */
  function Stripped(text: string, prefix: string): (r: string)
    ensures |r| <= |text| && r == text[|text| - |r|..]
  {
    if prefix != "" && |prefix| < |text| && StartsLike(text, prefix) && text[|prefix|] == ' ' then text[|prefix| + 1..]
    else text
  }

  function StrippedAll(text: string, prefixes: seq<string>): (r: string)
    ensures |r| <= |text| && r == text[|text| - |r|..]
    decreases |prefixes|
  {
    if prefixes == [] then text else StrippedAll(Stripped(text, prefixes[0]), prefixes[1..])
  }

  predicate Leads(text: string, prefix: string) { StartsLike(text, prefix + " ") }

  lemma LeadsIs(text: string, prefix: string)
    ensures Leads(text, prefix) <==> |prefix| < |text| && StartsLike(text, prefix) && text[|prefix|] == ' '
  {
    if |prefix| < |text| {
      var both := text[..|prefix| + 1];
      assert Lowered(both)[..|prefix|] == Lowered(text[..|prefix|]);
      assert Lowered(prefix + " ") == Lowered(prefix) + " ";
      assert Lowered(both) == Lowered(text[..|prefix|]) + [Lower(text[|prefix|])];
    }
  }

  lemma StrippedIs(text: string, prefix: string)
    ensures Stripped(text, prefix) == if prefix != "" && Leads(text, prefix) then text[|prefix| + 1..] else text
  {
    hide StartsLike, Leads;
    LeadsIs(text, prefix);
  }

  lemma Led(front: string, prefix: string, rest: string)
    requires SameName(front, prefix) && prefix != ""
    ensures Stripped(front + " " + rest, prefix) == rest
  {
    var text := front + " " + rest;
    assert |Lowered(front)| == |Lowered(prefix)|;
    assert text[..|prefix|] == front && text[|prefix|] == ' ' && text[|prefix| + 1..] == rest;
  }

  lemma {:induction false} NothingStripped(text: string, prefixes: seq<string>)
    requires forall j | 0 <= j < |prefixes| :: Stripped(text, prefixes[j]) == text
    ensures StrippedAll(text, prefixes) == text
    decreases |prefixes|
  {
    hide Stripped;
    if prefixes != [] {
      NothingStripped(text, prefixes[1..]);
    }
  }

  lemma {:induction false} StrippedInTurn(text: string, ps: seq<string>, qs: seq<string>)
    ensures StrippedAll(text, ps + qs) == StrippedAll(StrippedAll(text, ps), qs)
    decreases |ps|
  {
    hide Stripped;
    if ps == [] {
      assert ps + qs == qs;
    } else {
      assert (ps + qs)[0] == ps[0] && (ps + qs)[1..] == ps[1..] + qs;
      StrippedInTurn(Stripped(text, ps[0]), ps[1..], qs);
    }
  }

  predicate IsWord(w: string) { w != "" && forall i | 0 <= i < |w| :: Alnum(w[i]) }

  predicate AreWords(ws: seq<string>) { forall i | 0 <= i < |ws| :: IsWord(ws[i]) }

  /** The words of a text: its longest runs of letters and digits. */
  function Words(text: string): (ws: seq<string>)
    ensures AreWords(ws)
  {
    if text == "" then []
    else
      var n := |text| - 1;
      var before := Words(text[..n]);
      if !Alnum(text[n]) then before
      else if n > 0 && Alnum(text[n - 1]) && before != [] then before[|before| - 1 := before[|before| - 1] + [text[n]]]
      else before + [[text[n]]]
  }

  /** The letters and digits of a text. */
  function Alnums(text: string): string {
    if text == "" then ""
    else Alnums(text[..|text| - 1]) + if Alnum(text[|text| - 1]) then [text[|text| - 1]] else ""
  }

  /** How many runs of letters and digits it has. */
  function Runs(text: string): nat {
    if text == "" then 0
    else
      var n := |text| - 1;
      Runs(text[..n]) + if Alnum(text[n]) && (n == 0 || !Alnum(text[n - 1])) then 1 else 0
  }

  lemma AlnumIs(c: char)
    ensures Alnum(c) <==> '0' <= c <= '9' || 'a' <= c <= 'z' || 'A' <= c <= 'Z'
  {
  }

  lemma {:induction false} FlattenLonger(words: seq<string>, ch: char)
    requires words != []
    ensures Flatten(words[|words| - 1 := words[|words| - 1] + [ch]]) == Flatten(words) + [ch]
  {
    var longer := words[|words| - 1 := words[|words| - 1] + [ch]];
    if |words| == 1 {
      assert longer[1..] == [] == words[1..];
    } else {
      assert longer[1..] == words[1..][|words| - 2 := words[1..][|words| - 2] + [ch]];
      FlattenLonger(words[1..], ch);
      Assoc(words[0], Flatten(words[1..]), [ch]);
    }
  }

  /** The words have all the text's letters and digits in them, in order, and there is one for every run
      of them. */
  lemma {:induction false} WordsAreRuns(text: string)
    ensures Flatten(Words(text)) == Alnums(text) && |Words(text)| == Runs(text)
    ensures text != "" && Alnum(text[|text| - 1]) ==> Words(text) != []
  {
    hide Alnum, AreWords;
    if text != "" {
      var n := |text| - 1;
      var before := Words(text[..n]);
      WordsAreRuns(text[..n]);
      if Alnum(text[n]) {
        assert n > 0 ==> text[..n][|text[..n]| - 1] == text[n - 1];
        if n > 0 && Alnum(text[n - 1]) {
          FlattenLonger(before, text[n]);
        } else {
          FlattenConcat(before, [[text[n]]]);
          assert Flatten([[text[n]]]) == [text[n]] + Flatten([]) == [text[n]];
        }
      } else {
        assert Alnums(text) == Alnums(text[..n]) + "";
      }
    }
  }

  /** Words with one space between each and the next. */
  function Joined(words: seq<string>): string {
    if words == [] then ""
    else if |words| == 1 then words[0]
    else Joined(words[..|words| - 1]) + " " + words[|words| - 1]
  }

  function SuffixOf(text: string): string {
    if Words(text) == [] then "Custom" else Joined(Words(text))
  }

  /** mode_suffix, after the prefixes are off: the words of the text, one space apart. */
  method Suffix(text: string) returns (out: string)
    ensures out == SuffixOf(text)
  {
    hide Words, Joined, Alnum;
    out := "";
    var spacePending := false;
    var i := 0;
    NoWords();
    while i < |text|
      invariant 0 <= i <= |text| && out == Joined(Words(text[..i]))
      invariant out == "" <==> Words(text[..i]) == []
      invariant out != "" ==> (spacePending <==> !Alnum(text[i - 1]))
    {
      var ch := text[i];
      OneMoreWord(text, i);
      if Alnum(ch) {
        if spacePending && out != "" {
          out := out + " ";
        }
        out := out + [ch];
        spacePending := false;
      } else {
        spacePending := true;
      }
      i := i + 1;
    }
    assert text[..|text|] == text;
    if out == "" {
      out := "Custom";
    }
  }

  lemma NoWords()
    ensures Joined(Words("")) == "" && Words("") == []
  {
  }

  /** What one more character does to the words so far, joined. */
  lemma OneMoreWord(text: string, i: nat)
    requires i < |text|
    ensures var before, after := Words(text[..i]), Words(text[..i + 1]);
            && (!Alnum(text[i]) ==> after == before)
            && (Alnum(text[i]) ==> after != [] && Joined(after) != "")
            && (Alnum(text[i]) && before == [] ==> Joined(after) == [text[i]])
            && (Alnum(text[i]) && before != [] ==>
                  Joined(after) == Joined(before) + (if Alnum(text[i - 1]) then "" else " ") + [text[i]])
  {
    hide Alnum, Words, Joined;
    var before := Words(text[..i]);
    WordsNext(text, i);
    if Alnum(text[i]) {
      NoWords();
      if before == [] {
        assert [] + [[text[i]]] == [[text[i]]];
        JoinedOne(text[i]);
      } else if Alnum(text[i - 1]) {
        JoinedLonger(before, text[i]);
      } else {
        JoinedMore(before, [text[i]]);
      }
    }
  }

  lemma WordsNext(text: string, i: nat)
    requires i < |text|
    ensures var before := Words(text[..i]);
            && (before != [] ==> i > 0)
            && Words(text[..i + 1]) ==
                 if !Alnum(text[i]) then before
                 else if i > 0 && Alnum(text[i - 1]) && before != [] then
                   before[|before| - 1 := before[|before| - 1] + [text[i]]]
                 else before + [[text[i]]]
  {
    hide Alnum;
    assert text[..i + 1][..i] == text[..i];
  }

  lemma JoinedOne(ch: char)
    ensures Joined([[ch]]) == [ch]
  {
  }

  lemma JoinedMore(words: seq<string>, word: string)
    requires words != []
    ensures Joined(words + [word]) == Joined(words) + " " + word
  {
    assert (words + [word])[..|words|] == words;
  }

  lemma JoinedLonger(words: seq<string>, ch: char)
    requires words != []
    ensures Joined(words[|words| - 1 := words[|words| - 1] + [ch]]) == Joined(words) + [ch]
  {
  }

  /** A name without a letter or a digit in it has a suffix all the same. */
  lemma {:induction false} SuffixOfNothing(text: string)
    requires forall c <- text :: !('0' <= c <= '9' || 'a' <= c <= 'z' || 'A' <= c <= 'Z')
    ensures Words(text) == [] && SuffixOf(text) == "Custom"
  {
    if text != "" {
      var n := |text| - 1;
      assert text[n] in text && forall c <- text[..n] :: c in text;
      SuffixOfNothing(text[..n]);
    }
  }

  /** Letters, digits and single spaces, with neither end a space. */
  predicate Plain(text: string) {
    && (forall i | 0 <= i < |text| :: Alnum(text[i]) || text[i] == ' ')
    && (forall i | 0 <= i < |text| :: text[i] == ' ' ==> 0 < i < |text| - 1 && text[i - 1] != ' ')
  }

  lemma {:induction false} JoinedIsPlain(words: seq<string>)
    requires AreWords(words)
    ensures Plain(Joined(words)) && (words != [] ==> Joined(words) != "")
  {
    hide Alnum, Plain, IsWord;
    if |words| > 1 {
      var n := |words| - 1;
      assert AreWords(words[..n]);
      JoinedIsPlain(words[..n]);
      PlainThenWord(Joined(words[..n]), words[n]);
    } else if |words| == 1 {
      WordIsPlain(words[0]);
    } else {
      EmptyIsPlain();
    }
  }

  lemma EmptyIsPlain()
    ensures Plain("")
  {
  }

  lemma WordIsPlain(w: string)
    requires IsWord(w)
    ensures Plain(w) && w != ""
  {
  }

  lemma PlainThenWord(front: string, w: string)
    requires Plain(front) && front != "" && IsWord(w)
    ensures Plain(front + " " + w)
  {
  }

  lemma NoAlnumSpace()
    ensures !Alnum(' ')
  {
  }

  /** A plain text is its words joined: nothing else about it can vary. */
  lemma {:induction false} PlainIsItsWords(text: string)
    requires Plain(text)
    ensures Joined(Words(text)) == text
    decreases |text|
  {
    hide Alnum, Plain, Words, Joined;
    NoAlnumSpace();
    var n := |text| - 1;
    if n < 0 {
      NoWords();
    } else {
      PlainEnds(text);
      OneMoreWord(text, n);
      assert text[..n + 1] == text;
      if n > 0 && text[n - 1] == ' ' {
        OneMoreWord(text, n - 1);
        PlainFront(text, n - 1);
        PlainIsItsWords(text[..n - 1]);
        assert text == text[..n - 1] + " " + [text[n]];
        WordsOfSome(text[..n - 1]);
      } else if n > 0 {
        PlainFront(text, n);
        PlainIsItsWords(text[..n]);
        assert text == text[..n] + [text[n]];
        WordsOfSome(text[..n]);
      }
    }
  }

  lemma PlainEnds(text: string)
    requires Plain(text) && text != ""
    ensures Alnum(text[|text| - 1])
    ensures |text| > 1 ==> Alnum(text[|text| - 2]) || (text[|text| - 2] == ' ' && |text| > 2 && Alnum(text[|text| - 3]))
    ensures |text| == 1 ==> Words(text[..0]) == []
  {
  }

  lemma PlainFront(text: string, n: nat)
    requires Plain(text) && 0 < n < |text| && text[n - 1] != ' '
    ensures Plain(text[..n])
  {
  }

  lemma WordsOfSome(text: string)
    requires text != "" && Alnum(text[|text| - 1])
    ensures Words(text) != []
  {
  }

  lemma SuffixIsPlain(text: string)
    ensures Plain(SuffixOf(text)) && SuffixOf(text) != ""
  {
    JoinedIsPlain(Words(text));
  }

  /** names_language: whether the engine takes a speaker name for a language. */
  predicate NamesLanguage(speakerName: string, language: string) {
    || language == ""
    || (StartsLike(speakerName, language) && (|speakerName| == |language| || speakerName[|language|] == ' '))
  }

  lemma LanguageFirst(language: string, rest: string)
    ensures NamesLanguage(language + " " + rest, language)
  {
  }

  // ------------------------------------------------------------------------------------------
  // Numbered names
  // ------------------------------------------------------------------------------------------

  /** The name as it is first tried, and then with 2, 3, ... after it. */
  function Numbered(name: string, attempt: nat): string {
    if attempt < 2 then name else name + " " + Dec(attempt)
  }

  /** Two numbered names never come to the same, whatever the case. */
  lemma NumberedApart(name: string, a: nat, b: nat)
    requires 1 <= a < b
    ensures !SameName(Numbered(name, a), Numbered(name, b))
  {
    hide Dec, NumberOf, Lowered;
    NumberOfDec(b);
    if a == 1 {
      LoweredIs(name);
      LoweredIs(Numbered(name, b));
      assert |Numbered(name, b)| > |name|;
    } else {
      NumberOfDec(a);
      if Dec(a) != Dec(b) {
        TailsApart(name + " ", Dec(a), Dec(b));
      }
    }
  }

  lemma LoweredIs(s: string)
    ensures |Lowered(s)| == |s|
    ensures forall i | 0 <= i < |s| :: Lowered(s)[i] == Lower(s[i])
  {
  }

  lemma TailsApart(front: string, a: string, b: string)
    requires a != b
    requires (forall i | 0 <= i < |a| :: Digit(a[i])) && (forall i | 0 <= i < |b| :: Digit(b[i]))
    ensures !SameName(front + a, front + b)
  {
    hide Lowered;
    LoweredIs(front + a);
    LoweredIs(front + b);
    if Lowered(front + a) == Lowered(front + b) {
      assert |a| == |b|;
      forall i | 0 <= i < |a| ensures a[i] == b[i] {
        assert (front + a)[|front| + i] == a[i] && (front + b)[|front| + i] == b[i];
        assert Lowered(front + a)[|front| + i] == Lowered(front + b)[|front| + i];
      }
      assert false;
    }
  }
}
