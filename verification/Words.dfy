/** From the application's text to a run and back: append_text, and the span of the application's
    text that a word report of the engine stands for. */
module Words {
  import opened Wrappers
  import opened Chars
  import opened Seqs
  import opened Tags
  import opened Runs

  const ELLIPSIS: char := '\U{2026}'

  predicate IsSentenceEnd(c: char) { c == '.' || c == '?' || c == '!' }

  /** A character as the engine is given it. */
  function Given(c: char, collapse: bool): char {
    if collapse && c == ELLIPSIS then '.' else c
  }

  predicate Ends(c: char, collapse: bool) { collapse && IsSentenceEnd(Given(c, collapse)) }

  /** The items append_text makes of `text`, which stands at `base` in the application's text;
      `after` when the character before was a sentence end. */
  function TextItems(text: string, base: nat, collapse: bool, after: bool): (items: seq<Item>)
    ensures forall i | 0 <= i < |items| :: items[i].Ch?
    decreases |text|
  {
    if text == "" then []
    else
      var end := Ends(text[0], collapse);
      (if end && after then [] else [Ch(Given(text[0], collapse), At(base))])
      + TextItems(text[1..], base + 1, collapse, end)
  }

  /** append_text: the run's text and its source map, grown character by character. */
  method AppendText(tagged: string, source: seq<Origin>, text: string, base: nat, collapse: bool)
    returns (tagged': string, source': seq<Origin>)
    ensures tagged' == tagged + Encode(TextItems(text, base, collapse, false))
    ensures source' == source + Sources(TextItems(text, base, collapse, false))
  {
    hide TextItems, Encode, Sources;
    tagged', source' := tagged, source;
    var after := false;
    ghost var goal := TextItems(text, base, collapse, false);
    assert text[0..] == text;
    for i := 0 to |text|
      invariant tagged' + Encode(TextItems(text[i..], base + i, collapse, after)) == tagged + Encode(goal)
      invariant source' + Sources(TextItems(text[i..], base + i, collapse, after)) == source + Sources(goal)
    {
      NextItem(tagged', source', text, i, base, collapse, after);
      var ch := text[i];
      if collapse && ch == ELLIPSIS {
        ch := '.';
      }
      if collapse && IsSentenceEnd(ch) {
        if after {
          continue;
        }
        after := true;
      } else {
        after := false;
      }
      if ch == '\\' {
        tagged' := tagged' + "\\\\";
        source' := source' + [At(base + i), At(base + i)];
      } else {
        tagged' := tagged' + [ch];
        source' := source' + [At(base + i)];
      }
    }
    NoMoreItems(base + |text|, collapse, after);
    assert tagged' + "" == tagged' && source' + [] == source' && text[|text|..] == "";
  }

  lemma NoMoreItems(base: nat, collapse: bool, after: bool)
    ensures Encode(TextItems("", base, collapse, after)) == "" && Sources(TextItems("", base, collapse, after)) == []
  {
  }

  /** What the character at `i` adds to `tagged` and `source`, and what is left to add after it. */
  lemma NextItem(tagged: string, source: seq<Origin>, text: string, i: nat, base: nat, collapse: bool, after: bool)
    requires i < |text|
    ensures var ch := Given(text[i], collapse);
            var end := Ends(text[i], collapse);
            var now := TextItems(text[i..], base + i, collapse, after);
            var rest := TextItems(text[i + 1..], base + i + 1, collapse, end);
            var spelt := if end && after then "" else if ch == '\\' then "\\\\" else [ch];
            var from := if end && after then [] else if ch == '\\' then [At(base + i), At(base + i)]
                        else [At(base + i)];
            && tagged + Encode(now) == tagged + spelt + Encode(rest)
            && source + Sources(now) == source + from + Sources(rest)
  {
    hide TextItems, Encode, Sources;
    FirstItem(text[i..], base + i, collapse, after);
    assert text[i..][1..] == text[i + 1..];
    var ch := Given(text[i], collapse);
    var end := Ends(text[i], collapse);
    var rest := TextItems(text[i + 1..], base + i + 1, collapse, end);
    Assoc(tagged, if end && after then "" else if ch == '\\' then "\\\\" else [ch], Encode(rest));
    Assoc(source, if end && after then [] else if ch == '\\' then [At(base + i), At(base + i)] else [At(base + i)],
          Sources(rest));
  }

  lemma FirstItem(text: string, base: nat, collapse: bool, after: bool)
    requires text != ""
    ensures var ch := Given(text[0], collapse);
            var end := Ends(text[0], collapse);
            var now := TextItems(text, base, collapse, after);
            var rest := TextItems(text[1..], base + 1, collapse, end);
            && Encode(now) == (if end && after then "" else if ch == '\\' then "\\\\" else [ch]) + Encode(rest)
            && Sources(now)
               == (if end && after then [] else if ch == '\\' then [At(base), At(base)] else [At(base)]) + Sources(rest)
  {
    hide Encode, Sources;
    var end := Ends(text[0], collapse);
    var rest := TextItems(text[1..], base + 1, collapse, end);
    if end && after {
      assert [] + rest == rest && "" + Encode(rest) == Encode(rest) && [] + Sources(rest) == Sources(rest);
    } else {
      var item := Ch(Given(text[0], collapse), At(base));
      EncodeConcat([item], rest);
      SpeltOnceOrTwice(item);
    }
  }

  lemma SpeltOnceOrTwice(item: Item)
    requires item.Ch?
    ensures Encode([item]) == if item.ch == '\\' then "\\\\" else [item.ch]
    ensures Sources([item]) == if item.ch == '\\' then [item.origin, item.origin] else [item.origin]
  {
  }

  // ------------------------------------------------------------------------------------------
  // What append_text keeps
  // ------------------------------------------------------------------------------------------

  /** Whether the character at `p` is left out: it ends a sentence that had ended already. */
  predicate Folded(text: string, p: nat, collapse: bool, after: bool)
    requires p < |text|
  {
    && collapse && text[p] in {'.', '?', '!', '\U{2026}'}
    && if p == 0 then after else text[p - 1] in {'.', '?', '!', '\U{2026}'}
  }

  /** The character at `p` as an item: itself (or, an ellipsis, a full stop), with its own position. */
  function ItemAt(text: string, p: nat, base: nat, collapse: bool): Item
    requires p < |text|
  {
    Ch(if collapse && text[p] == '\U{2026}' then '.' else text[p], At(base + p))
  }

  /** The items are the characters that are not left out, and nothing else ... */
  lemma {:induction false} TextItemsAre(text: string, base: nat, collapse: bool, after: bool)
    ensures forall item <- TextItems(text, base, collapse, after) ::
              exists p | 0 <= p < |text| :: item == ItemAt(text, p, base, collapse)
    ensures forall p | 0 <= p < |text| ::
              ItemAt(text, p, base, collapse) in TextItems(text, base, collapse, after) <==>
                !Folded(text, p, collapse, after)
    decreases |text|
  {
    if text != "" {
      var end := Ends(text[0], collapse);
      var items, rest := TextItems(text, base, collapse, after), TextItems(text[1..], base + 1, collapse, end);
      TextItemsAre(text[1..], base + 1, collapse, end);
      forall item <- items ensures exists p | 0 <= p < |text| :: item == ItemAt(text, p, base, collapse) {
        if item in rest {
          var p :| 0 <= p < |text| - 1 && item == ItemAt(text[1..], p, base + 1, collapse);
          assert item == ItemAt(text, p + 1, base, collapse);
        } else {
          assert item == ItemAt(text, 0, base, collapse);
        }
      }
      forall p | 0 <= p < |text|
        ensures ItemAt(text, p, base, collapse) in items <==> !Folded(text, p, collapse, after)
      {
        if p > 0 {
          assert ItemAt(text, p, base, collapse) == ItemAt(text[1..], p - 1, base + 1, collapse);
          assert Folded(text, p, collapse, after) == Folded(text[1..], p - 1, collapse, end);
        } else {
          NotBefore(text[1..], base + 1, collapse, end);
        }
      }
    }
  }

  ghost predicate InOrder(items: seq<Item>) {
    && (forall k | 0 <= k < |items| :: items[k].Ch? && items[k].origin.At?)
    && (forall j, k | 0 <= j < k < |items| :: items[j].origin.offset < items[k].origin.offset)
  }

  /** ... in the order of the text, each once. */
  lemma {:induction false} TextItemsInOrder(text: string, base: nat, collapse: bool, after: bool)
    ensures InOrder(TextItems(text, base, collapse, after))
    decreases |text|
  {
    if text != "" {
      var end := Ends(text[0], collapse);
      var rest := TextItems(text[1..], base + 1, collapse, end);
      NotBefore(text[1..], base + 1, collapse, end);
      TextItemsInOrder(text[1..], base + 1, collapse, end);
      if end && after {
        assert [] + rest == rest;
      } else {
        forall k | 0 <= k < |rest| ensures rest[k].origin.offset > base {
          assert rest[k] in rest;
        }
      }
    }
  }

  lemma {:induction false} NotBefore(text: string, base: nat, collapse: bool, after: bool)
    ensures forall item <- TextItems(text, base, collapse, after) :: item.origin.At? && item.origin.offset >= base
    decreases |text|
  {
    if text != "" {
      NotBefore(text[1..], base + 1, collapse, Ends(text[0], collapse));
    }
  }

  /** Without folding, what the engine reads is the text, character for character. */
  lemma {:induction false} TextReadsBack(text: string, base: nat)
    ensures Parse(Encode(TextItems(text, base, false, false)))
              == seq(|text|, i requires 0 <= i < |text| => Plain(text[i]))
  {
    var items := TextItems(text, base, false, false);
    ParseEncode(items);
    PlainItems(text, base);
  }

  lemma {:induction false} PlainItems(text: string, base: nat)
    ensures TextItems(text, base, false, false) == seq(|text|, i requires 0 <= i < |text| => Ch(text[i], At(base + i)))
    decreases |text|
  {
    if text != "" {
      PlainItems(text[1..], base + 1);
    }
  }

  // ------------------------------------------------------------------------------------------
  // Word reports
  // ------------------------------------------------------------------------------------------

  /** The end of the word that begins at `i`: up to the next tag or character that is no part of one. */
  function WordEnd(tagged: string, source: seq<Origin>, i: nat, isWord: char -> bool): (e: nat)
    requires |source| == |tagged| && i <= |tagged|
    ensures i <= e <= |tagged|
    ensures forall j | i <= j < e :: source[j].At? && isWord(tagged[j])
    ensures e < |tagged| ==> source[e] == NotFromSource || !isWord(tagged[e])
    decreases |tagged| - i
  {
    if i < |tagged| && source[i].At? && isWord(tagged[i]) then WordEnd(tagged, source, i + 1, isWord) else i
  }

  datatype Span = Span(start: nat, length: nat)

  function SpanOf(source: seq<Origin>, i: nat, e: nat): Span
    requires i <= e <= |source| && i < |source| && source[i].At? && (e > i ==> source[e - 1].At?)
  {
    var start := source[i].offset;
    var last := if e > i then source[e - 1].offset else start;
    Span(start, if last >= start then last - start + 1 else 1)
  }

  /** emit_word: the span of the application's text reported for the character at `index`. */
  method EmitWord(tagged: string, source: seq<Origin>, index: nat, isWord: char -> bool) returns (r: Option<Span>)
    requires |source| == |tagged|
    ensures r.Some? <==> index < |source| && source[index].At?
    ensures r.Some? ==> r.value == SpanOf(source, index, WordEnd(tagged, source, index, isWord))
  {
    if index >= |source| || source[index] == NotFromSource {
      return None;
    }
    var end := index;
    while end < |tagged| && source[end] != NotFromSource && isWord(tagged[end])
      invariant index <= end <= |tagged|
      invariant forall j | index <= j < end :: source[j].At?
      invariant WordEnd(tagged, source, index, isWord) == WordEnd(tagged, source, end, isWord)
    {
      end := end + 1;
    }
    return Some(SpanOf(source, index, end));
  }

  /** Neighbouring characters of a word that are not neighbours in the application's text. */
  ghost predicate Seam(source: seq<Origin>, j: nat) {
    j + 1 < |source| && source[j].At? && source[j + 1].At? && source[j + 1].offset != source[j].offset + 1
  }

  ghost predicate Increasing(source: seq<Origin>, i: nat, e: nat)
    requires i <= e <= |source|
  {
    && (forall j | i <= j < e :: source[j].At?)
    && (forall j | i <= j && j + 1 < e :: source[j].offset < source[j + 1].offset)
  }

  /** Every character of [i, e) is the one at its own position in the application's text. */
  ghost predicate Mapped(app: string, tagged: string, source: seq<Origin>, i: nat, e: nat)
    requires |source| == |tagged| && i <= e <= |tagged|
  {
    forall j | i <= j < e :: source[j].At? && source[j].offset < |app| && app[source[j].offset] == tagged[j]
  }

  /** A word's span is as long as the word exactly when the word has no seam, and then it is, character
      for character, the word. */
  lemma SpanIsWord(app: string, tagged: string, source: seq<Origin>, i: nat, isWord: char -> bool)
    requires |source| == |tagged| && i < |tagged| && source[i].At? && isWord(tagged[i])
    requires var e := WordEnd(tagged, source, i, isWord);
             Increasing(source, i, e) && Mapped(app, tagged, source, i, e)
    ensures var e := WordEnd(tagged, source, i, isWord);
            var span := SpanOf(source, i, e);
            && span.start + span.length <= |app|
            && (span.length == e - i <==> forall j | i <= j < e - 1 :: !Seam(source, j))
            && (span.length == e - i ==> app[span.start..span.start + span.length] == tagged[i..e])
  {
    var e := WordEnd(tagged, source, i, isWord);
    assert i < e;
    SpanOfStretch(app, tagged, source, i, e);
  }

  lemma SpanOfStretch(app: string, tagged: string, source: seq<Origin>, i: nat, e: nat)
    requires |source| == |tagged| && i < e <= |tagged| && Increasing(source, i, e) && Mapped(app, tagged, source, i, e)
    ensures var span := SpanOf(source, i, e);
            && span.start + span.length <= |app|
            && (span.length == e - i <==> forall j | i <= j < e - 1 :: !Seam(source, j))
            && (span.length == e - i ==> app[span.start..span.start + span.length] == tagged[i..e])
  {
    hide Seam;
    Spread(source, i, e);
    assert source[e - 1].offset < |app|;
    if SpanOf(source, i, e).length == e - i {
      SpanReads(app, tagged, source, i, e);
    }
  }

  lemma {:induction false} SpanReads(app: string, tagged: string, source: seq<Origin>, i: nat, e: nat)
    requires |source| == |tagged| && i < e <= |tagged| && Increasing(source, i, e) && Mapped(app, tagged, source, i, e)
    requires forall j | i <= j < e - 1 :: !Seam(source, j)
    ensures source[i].offset + (e - i) <= |app|
    ensures app[source[i].offset..source[i].offset + (e - i)] == tagged[i..e]
    decreases e - i
  {
    var start := source[i].offset;
    Spread(source, i, e);
    assert app[source[e - 1].offset] == tagged[e - 1];
    if i + 1 < e {
      SpanReads(app, tagged, source, i, e - 1);
      assert tagged[i..e] == tagged[i..e - 1] + [tagged[e - 1]];
      assert app[start..start + (e - i)] == app[start..start + (e - 1 - i)] + [app[start + (e - 1 - i)]];
    }
  }

  lemma {:induction false} Spread(source: seq<Origin>, i: nat, e: nat)
    requires i < e <= |source| && Increasing(source, i, e)
    ensures source[e - 1].offset >= source[i].offset + (e - 1 - i)
    ensures source[e - 1].offset == source[i].offset + (e - 1 - i) <==> forall j | i <= j < e - 1 :: !Seam(source, j)
    decreases e - i
  {
    if i + 1 < e {
      Spread(source, i, e - 1);
      assert source[e - 2].offset < source[e - 1].offset;
      assert Seam(source, e - 2) <==> source[e - 1].offset != source[e - 2].offset + 1;
    }
  }

  /** Characters the worker's reader never folds and never doubles. */
  ghost predicate WordChars(isWord: char -> bool) {
    !isWord('\\') && !isWord('.') && !isWord('?') && !isWord('!') && !isWord(ELLIPSIS)
  }

  /** One call of append_text puts no seam inside a word, whatever it folds or doubles on the way, and
      every character of a word is the application's own. */
  lemma {:induction false} TextHasNoSeam(text: string, base: nat, collapse: bool, after: bool, isWord: char -> bool)
    requires WordChars(isWord)
    ensures var items := TextItems(text, base, collapse, after);
            && NoSeam(text, base, Encode(items), Sources(items), isWord)
            && (text != "" && !(after && Ends(text[0], collapse)) ==>
                  |Sources(items)| > 0 && Sources(items)[0] == At(base))
    decreases |text|
  {
    hide NoSeam, Encode, Sources;
    if text == "" {
      EmptyHasNoSeam(base, isWord);
    } else {
      var end := Ends(text[0], collapse);
      TextHasNoSeam(text[1..], base + 1, collapse, end, isWord);
      var rest := TextItems(text[1..], base + 1, collapse, end);
      if !(end && after) {
        SpellingInFront(text, base, collapse, isWord, rest);
      } else {
        assert [] + rest == rest;
        FoldedInFront(text, base, Encode(rest), Sources(rest), isWord);
      }
    }
  }

  lemma EmptyHasNoSeam(base: nat, isWord: char -> bool)
    ensures NoSeam("", base, Encode([]), Sources([]), isWord)
  {
  }

  lemma FoldedInFront(text: string, base: nat, tagged: string, source: seq<Origin>, isWord: char -> bool)
    requires text != "" && |source| == |tagged| && NoSeam(text[1..], base + 1, tagged, source, isWord)
    ensures NoSeam(text, base, tagged, source, isWord)
  {
  }

  /** Every origin lies in the text, a word's characters are the text's own and in its order, neighbours
      in a word are neighbours in the text, and a word that ends the spelling ends the text. */
  ghost predicate NoSeam(text: string, base: nat, tagged: string, source: seq<Origin>, isWord: char -> bool)
    requires |source| == |tagged|
  {
    && (forall j | 0 <= j < |source| :: source[j].At? && base <= source[j].offset < base + |text|)
    && (forall j | 0 <= j < |source| && isWord(tagged[j]) :: text[source[j].offset - base] == tagged[j])
    && (forall j | 0 <= j && j + 1 < |source| && isWord(tagged[j]) && isWord(tagged[j + 1]) ::
          source[j + 1].offset == source[j].offset + 1)
    && (forall j, k | 0 <= j < k < |source| && isWord(tagged[j]) && isWord(tagged[k]) ::
          source[j].offset < source[k].offset)
    && (source != [] && isWord(tagged[|tagged| - 1]) ==> source[|source| - 1].offset + 1 == base + |text|)
  }

  lemma SpellingInFront(text: string, base: nat, collapse: bool, isWord: char -> bool, rest: seq<Item>)
    requires WordChars(isWord) && text != ""
    requires NoSeam(text[1..], base + 1, Encode(rest), Sources(rest), isWord)
    requires |text| > 1 && !(Ends(text[0], collapse) && Ends(text[1], collapse)) ==>
               |Sources(rest)| > 0 && Sources(rest)[0] == At(base + 1)
    ensures var items := [Ch(Given(text[0], collapse), At(base))] + rest;
            && NoSeam(text, base, Encode(items), Sources(items), isWord)
            && |Sources(items)| > 0 && Sources(items)[0] == At(base)
  {
    hide NoSeam, Encode, Sources;
    var item := Ch(Given(text[0], collapse), At(base));
    EncodeConcat([item], rest);
    EncodeOne(item);
    WithinText(text[1..], base + 1, Encode(rest), Sources(rest), isWord);
    if item.ch == '\\' {
      CharInFront(text, base, '\\', true, Encode(rest), Sources(rest), isWord);
    } else {
      CharInFront(text, base, item.ch, false, Encode(rest), Sources(rest), isWord);
    }
  }

  lemma WithinText(text: string, base: nat, tagged: string, source: seq<Origin>, isWord: char -> bool)
    requires |source| == |tagged| && NoSeam(text, base, tagged, source, isWord)
    ensures text == "" ==> source == []
  {
    if source != [] {
      assert base <= source[0].offset < base + |text|;
    }
  }

  /** One character in front, spelt once or twice. */
  lemma CharInFront(text: string, base: nat, ch: char, twice: bool, tagged: string, source: seq<Origin>,
                    isWord: char -> bool)
    requires text != "" && |source| == |tagged| && NoSeam(text[1..], base + 1, tagged, source, isWord)
    requires isWord(ch) ==> !twice && ch == text[0]
    requires isWord(ch) && |tagged| > 0 && isWord(tagged[0]) ==> source[0] == At(base + 1)
    requires isWord(ch) && tagged == "" ==> |text| == 1
    ensures var front := if twice then [ch, ch] else [ch];
            NoSeam(text, base, front + tagged, seq(|front|, i => At(base)) + source, isWord)
  {
  }
}
