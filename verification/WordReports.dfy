/** A word the engine reports, on its way back to the application: through the worker, which takes the
    prologue off again, and through the run's source map, to a span of the application's own text. */
module WordReports {
  import opened Wrappers
  import opened Chars
  import opened Seqs
  import opened Tags
  import opened Runs
  import opened Words
  import opened CarriedTags
  import opened Plan
  import opened Drafts
  import opened Planning

  /** The worker: positions count from one, from the start of prologue and text together. */
  method Relay(value: nat, prologueChars: nat) returns (r: Option<nat>)
    ensures r.Some? <==> value > prologueChars
    ensures r.Some? ==> r.value > 0 && r.value + prologueChars == value
  {
    if value <= prologueChars {
      return None;
    }
    return Some(value - prologueChars);
  }

  /** A report from the engine to the host: nothing for a position in the prologue, in a tag or past the
      end, and otherwise the span of the word that stands at that position of what the engine was given. */
  method Deliver(prologue: string, tagged: string, source: seq<Origin>, value: nat, isWord: char -> bool)
      returns (r: Option<Span>)
    requires |source| == |tagged|
    ensures r.Some? <==> |prologue| < value <= |prologue + tagged| && source[value - 1 - |prologue|].At?
    ensures r.Some? ==>
              var i := value - 1 - |prologue|;
              && (prologue + tagged)[value - 1] == tagged[i]
              && r.value == SpanOf(source, i, WordEnd(tagged, source, i, isWord))
  {
    var relayed := Relay(value, |prologue|);
    if relayed == None {
      return None;
    }
    r := EmitWord(tagged, source, relayed.value - 1, isWord);
  }

  /** A word runs past a position exactly when everything up to it, and what stands at it, is of a word. */
  lemma {:induction false} WordEndsWithText(tagged: string, source: seq<Origin>, i: nat, stop: nat,
                                            isWord: char -> bool)
    requires |source| == |tagged| && i <= stop <= |tagged|
    ensures WordEnd(tagged, source, i, isWord) <= stop <==>
            stop == |tagged| || source[stop] == NotFromSource || !isWord(tagged[stop])
            || exists j | i <= j < stop :: source[j] == NotFromSource || !isWord(tagged[j])
    decreases stop - i
  {
  }

  // ------------------------------------------------------------------------------------------
  // What append_text is handed
  // ------------------------------------------------------------------------------------------

  /** A stretch of the application's text. */
  datatype Stretch = Stretch(from: nat, to: nat)

  function Single(k: nat): Stretch { Stretch(k, k + 1) }

  /** The stretches of a fragment that are handed to append_text one by one. */
  function StretchesOf(c: Config, f: Fragment): set<Stretch> {
    if f.text == "" then {}
    else if f.act == SpellOut then set k: nat | f.offset <= k < f.offset + |f.text| :: Single(k)
    else if f.act != Speak then {}
    else if !c.controlTags then {Stretch(f.offset, f.offset + |f.text|)}
    else set t | t in Scan(f.text) && t.kind == Text :: Stretch(f.offset + t.begin, f.offset + t.begin + t.length)
  }

  function Stretches(c: Config, fs: seq<Fragment>): set<Stretch> {
    if fs == [] then {} else StretchesOf(c, fs[0]) + Stretches(c, fs[1..])
  }

  predicate Spoken(f: Fragment) { f.act in {Speak, SpellOut} && f.text != "" }

  /** The fragment's text is a stretch of `app`. */
  ghost predicate StandsIn(app: string, f: Fragment) {
    f.offset + |f.text| <= |app| && app[f.offset..f.offset + |f.text|] == f.text
  }

  /** The fragments' texts are stretches of `app`, one after the other, from `from` on. */
  ghost predicate LaidOut(app: string, fs: seq<Fragment>, from: nat) {
    if fs == [] then true
    else if !Spoken(fs[0]) then LaidOut(app, fs[1..], from)
    else
      var f := fs[0];
      && from <= f.offset && StandsIn(app, f)
      && LaidOut(app, fs[1..], f.offset + |f.text|)
  }

  ghost predicate EndsAt(cuts: set<Stretch>, p: nat) { exists s <- cuts :: s.to == p }

  ghost predicate StartsAt(cuts: set<Stretch>, p: nat) { exists s <- cuts :: s.from == p }

  /** A stretch ends at `p`, another begins at `q`, and there is something between the two. */
  ghost predicate Apart(cuts: set<Stretch>, p: nat, q: nat) { p < q && EndsAt(cuts, p) && StartsAt(cuts, q) }

  // ------------------------------------------------------------------------------------------
  // A run over the application's text
  // ------------------------------------------------------------------------------------------

  predicate InWord(tagged: string, source: seq<Origin>, j: int, isWord: char -> bool)
    requires |source| == |tagged| && 0 <= j < |tagged|
  {
    source[j].At? && isWord(tagged[j])
  }

  /** Every position is one of the application's text in [lo, hi). */
  ghost predicate Within(app: string, source: seq<Origin>, lo: nat, hi: nat) {
    forall j | 0 <= j < |source| && source[j].At? :: lo <= source[j].offset < hi && source[j].offset < |app|
  }

  /** A word's characters are the application's own ... */
  ghost predicate Own(app: string, tagged: string, source: seq<Origin>, isWord: char -> bool)
    requires |source| == |tagged|
  {
    forall j | 0 <= j < |source| && InWord(tagged, source, j, isWord) ::
      source[j].offset < |app| && app[source[j].offset] == tagged[j]
  }

  /** ... in its order. */
  ghost predicate Ordered(tagged: string, source: seq<Origin>, isWord: char -> bool)
    requires |source| == |tagged|
  {
    forall j, k | 0 <= j < k < |source| && InWord(tagged, source, j, isWord) && InWord(tagged, source, k, isWord) ::
      source[j].offset < source[k].offset
  }

  /** Two neighbours in a word are neighbours in the application's text, or one ends a stretch and the
      other begins one. */
  ghost predicate Joined(cuts: set<Stretch>, tagged: string, source: seq<Origin>, isWord: char -> bool)
    requires |source| == |tagged|
  {
    forall j, k | 0 <= j && k == j + 1 < |source|
                  && InWord(tagged, source, j, isWord) && InWord(tagged, source, k, isWord) ::
      source[k].offset == source[j].offset + 1 || Apart(cuts, source[j].offset + 1, source[k].offset)
  }

  /** A word at the end ends a stretch. */
  ghost predicate EndsCut(cuts: set<Stretch>, tagged: string, source: seq<Origin>, isWord: char -> bool)
    requires |source| == |tagged|
  {
    source != [] && InWord(tagged, source, |source| - 1, isWord) ==> EndsAt(cuts, source[|source| - 1].offset + 1)
  }

  ghost predicate Placed(app: string, cuts: set<Stretch>, tagged: string, source: seq<Origin>, lo: nat, hi: nat,
                         isWord: char -> bool)
    requires |source| == |tagged|
  {
    && Within(app, source, lo, hi) && Own(app, tagged, source, isWord) && Ordered(tagged, source, isWord)
    && Joined(cuts, tagged, source, isWord) && EndsCut(cuts, tagged, source, isWord)
  }

  ghost predicate ItemsPlaced(app: string, cuts: set<Stretch>, items: seq<Item>, lo: nat, hi: nat,
                              isWord: char -> bool) {
    Placed(app, cuts, Encode(items), Sources(items), lo, hi, isWord)
  }

  /** What opens with a word opens where a stretch begins. */
  ghost predicate OpensCut(cuts: set<Stretch>, items: seq<Item>, isWord: char -> bool) {
    Sources(items) != [] && InWord(Encode(items), Sources(items), 0, isWord) ==>
      StartsAt(cuts, Sources(items)[0].offset)
  }

  lemma InWordConcat(a: string, s: seq<Origin>, b: string, t: seq<Origin>, j: nat, isWord: char -> bool)
    requires |s| == |a| && |t| == |b| && j < |a + b|
    ensures InWord(a + b, s + t, j, isWord) <==>
              if j < |a| then InWord(a, s, j, isWord) else InWord(b, t, j - |a|, isWord)
  {
  }

  lemma OrderedConcat(app: string, a: string, s: seq<Origin>, lo: nat, mid: nat, b: string, t: seq<Origin>, hi: nat,
                      isWord: char -> bool)
    requires |s| == |a| && |t| == |b| && Within(app, s, lo, mid) && Within(app, t, mid, hi)
    requires Ordered(a, s, isWord) && Ordered(b, t, isWord)
    ensures Ordered(a + b, s + t, isWord)
  {
    forall j, k | 0 <= j < k < |s + t| && InWord(a + b, s + t, j, isWord) && InWord(a + b, s + t, k, isWord)
      ensures (s + t)[j].offset < (s + t)[k].offset
    {
      InWordConcat(a, s, b, t, j, isWord);
      InWordConcat(a, s, b, t, k, isWord);
    }
  }

  lemma OwnConcat(app: string, a: string, s: seq<Origin>, b: string, t: seq<Origin>, isWord: char -> bool)
    requires |s| == |a| && |t| == |b| && Own(app, a, s, isWord) && Own(app, b, t, isWord)
    ensures Own(app, a + b, s + t, isWord)
  {
    forall j | 0 <= j < |s + t| && InWord(a + b, s + t, j, isWord)
      ensures (s + t)[j].offset < |app| && app[(s + t)[j].offset] == (a + b)[j]
    {
      InWordConcat(a, s, b, t, j, isWord);
    }
  }

  lemma JoinedConcat(cuts: set<Stretch>, a: string, s: seq<Origin>, b: string, t: seq<Origin>, isWord: char -> bool)
    requires |s| == |a| && |t| == |b| && Joined(cuts, a, s, isWord) && Joined(cuts, b, t, isWord)
    requires EndsCut(cuts, a, s, isWord) && Ordered(a + b, s + t, isWord)
    requires t != [] && InWord(b, t, 0, isWord) ==> StartsAt(cuts, t[0].offset)
    ensures Joined(cuts, a + b, s + t, isWord)
  {
    hide EndsAt, StartsAt;
    forall j, k | 0 <= j && k == j + 1 < |s + t| && InWord(a + b, s + t, j, isWord) && InWord(a + b, s + t, k, isWord)
      ensures (s + t)[k].offset == (s + t)[j].offset + 1 || Apart(cuts, (s + t)[j].offset + 1, (s + t)[k].offset)
    {
      InWordConcat(a, s, b, t, j, isWord);
      InWordConcat(a, s, b, t, k, isWord);
    }
  }

  lemma EndsConcat(cuts: set<Stretch>, a: string, s: seq<Origin>, b: string, t: seq<Origin>, isWord: char -> bool)
    requires |s| == |a| && |t| == |b| && EndsCut(cuts, a, s, isWord) && EndsCut(cuts, b, t, isWord)
    ensures EndsCut(cuts, a + b, s + t, isWord)
  {
    if t == [] {
      assert a + b == a && s + t == s;
    } else {
      InWordConcat(a, s, b, t, |s + t| - 1, isWord);
    }
  }

  lemma PlacedConcat(app: string, cuts: set<Stretch>, a: string, s: seq<Origin>, lo: nat, mid: nat,
                     b: string, t: seq<Origin>, mid': nat, hi: nat, isWord: char -> bool)
    requires |s| == |a| && |t| == |b| && lo <= mid <= mid' <= hi
    requires Placed(app, cuts, a, s, lo, mid, isWord) && Placed(app, cuts, b, t, mid', hi, isWord)
    requires t != [] && InWord(b, t, 0, isWord) ==> StartsAt(cuts, t[0].offset)
    ensures Placed(app, cuts, a + b, s + t, lo, hi, isWord)
  {
    assert Within(app, s + t, lo, hi);
    hide Own, Ordered, Joined, EndsCut, InWord;
    OwnConcat(app, a, s, b, t, isWord);
    OrderedConcat(app, a, s, lo, mid, b, t, hi, isWord);
    JoinedConcat(cuts, a, s, b, t, isWord);
    EndsConcat(cuts, a, s, b, t, isWord);
  }

  lemma ItemsConcat(app: string, cuts: set<Stretch>, a: seq<Item>, lo: nat, mid: nat, b: seq<Item>, mid': nat, hi: nat,
                    isWord: char -> bool)
    requires lo <= mid <= mid' <= hi && ItemsPlaced(app, cuts, a, lo, mid, isWord)
    requires ItemsPlaced(app, cuts, b, mid', hi, isWord)
    requires OpensCut(cuts, b, isWord)
    ensures ItemsPlaced(app, cuts, a + b, lo, hi, isWord)
  {
    hide Encode, Sources, Placed;
    EncodeConcat(a, b);
    PlacedConcat(app, cuts, Encode(a), Sources(a), lo, mid, Encode(b), Sources(b), mid', hi, isWord);
  }

  /** Tags, bookmarks and the spaces of spelling out come from nowhere. */
  lemma NowhereIsPlaced(app: string, cuts: set<Stretch>, items: seq<Item>, lo: nat, hi: nat, isWord: char -> bool)
    requires Sources(items) == seq(|Encode(items)|, _ => NotFromSource)
    ensures ItemsPlaced(app, cuts, items, lo, hi, isWord) && OpensCut(cuts, items, isWord)
  {
  }

  lemma OneFromNowhere(item: Item)
    requires item.Ch? ==> item.origin == NotFromSource
    ensures Sources([item]) == seq(|Encode([item])|, _ => NotFromSource)
  {
    EncodeOne(item);
  }

  /** One call of append_text. */
  lemma TextIsPlaced(app: string, cuts: set<Stretch>, text: string, base: nat, collapse: bool, isWord: char -> bool)
    requires WordChars(isWord) && base + |text| <= |app| && app[base..base + |text|] == text
    requires text != "" ==> Stretch(base, base + |text|) in cuts
    ensures ItemsPlaced(app, cuts, TextItems(text, base, collapse, false), base, base + |text|, isWord)
    ensures OpensCut(cuts, TextItems(text, base, collapse, false), isWord)
  {
    hide Encode, Sources, TextItems;
    TextHasNoSeam(text, base, collapse, false, isWord);
    var items := TextItems(text, base, collapse, false);
    WithinText(text, base, Encode(items), Sources(items), isWord);
    forall p | 0 <= p < |text| ensures app[base + p] == text[p] {
      assert app[base..base + |text|][p] == app[base + p];
    }
    forall j | 0 <= j < |Sources(items)|
      ensures Sources(items)[j].At? && base <= Sources(items)[j].offset < base + |text|
    {
    }
  }

  lemma {:induction false} SpelledIsPlaced(app: string, cuts: set<Stretch>, text: string, base: nat,
                                           isWord: char -> bool)
    requires WordChars(isWord) && base + |text| <= |app| && app[base..base + |text|] == text
    requires forall k: nat | base <= k < base + |text| :: Single(k) in cuts
    ensures ItemsPlaced(app, cuts, Spelled(text, base), base, base + |text|, isWord)
    ensures OpensCut(cuts, Spelled(text, base), isWord)
    decreases |text|
  {
    hide Encode, Sources, TextItems, ItemsPlaced, OpensCut;
    if text == "" {
      NoItems(app, cuts, base, base, isWord);
    } else {
      assert app[base..base + |text|][..1] == app[base..base + 1];
      assert app[base..base + |text|][1..] == app[base + 1..base + 1 + |text[1..]|];
      var first, space := TextItems(text[..1], base, false, false), [Ch(' ', NotFromSource)];
      var rest := Spelled(text[1..], base + 1);
      assert Single(base) in cuts;
      TextIsPlaced(app, cuts, text[..1], base, false, isWord);
      OneFromNowhere(space[0]);
      NowhereIsPlaced(app, cuts, space, base + 1, base + 1, isWord);
      SpelledIsPlaced(app, cuts, text[1..], base + 1, isWord);
      ItemsConcat(app, cuts, first, base, base + 1, space, base + 1, base + 1, isWord);
      ItemsConcat(app, cuts, first + space, base, base + 1, rest, base + 1, base + |text|, isWord);
      OpensSame(cuts, first, space, isWord);
      OpensSame(cuts, first + space, rest, isWord);
    }
  }

  lemma NoItems(app: string, cuts: set<Stretch>, lo: nat, hi: nat, isWord: char -> bool)
    ensures ItemsPlaced(app, cuts, [], lo, hi, isWord) && OpensCut(cuts, [], isWord)
  {
  }

  lemma OpensSame(cuts: set<Stretch>, a: seq<Item>, b: seq<Item>, isWord: char -> bool)
    requires OpensCut(cuts, a, isWord) && OpensCut(cuts, b, isWord)
    ensures OpensCut(cuts, a + b, isWord)
  {
    hide Encode, Sources;
    EncodeConcat(a, b);
  }

  // ------------------------------------------------------------------------------------------
  // Every run of every plan
  // ------------------------------------------------------------------------------------------

  ghost predicate DraftPlaced(app: string, cuts: set<Stretch>, d: Draft, hi: nat, isWord: char -> bool) {
    && (forall k | 0 <= k < |d.runs| :: ItemsPlaced(app, cuts, d.runs[k], 0, hi, isWord))
    && ItemsPlaced(app, cuts, d.items, 0, hi, isWord)
  }

  lemma Further(app: string, cuts: set<Stretch>, items: seq<Item>, lo: nat, hi: nat, hi': nat, isWord: char -> bool)
    requires ItemsPlaced(app, cuts, items, lo, hi, isWord) && hi <= hi'
    ensures ItemsPlaced(app, cuts, items, lo, hi', isWord)
  {
  }

  lemma DraftFurther(app: string, cuts: set<Stretch>, d: Draft, hi: nat, hi': nat, isWord: char -> bool)
    requires DraftPlaced(app, cuts, d, hi, isWord) && hi <= hi'
    ensures DraftPlaced(app, cuts, d, hi', isWord)
  {
    hide ItemsPlaced;
    forall k | 0 <= k < |d.runs| ensures ItemsPlaced(app, cuts, d.runs[k], 0, hi', isWord) {
      Further(app, cuts, d.runs[k], 0, hi, hi', isWord);
    }
    Further(app, cuts, d.items, 0, hi, hi', isWord);
  }

  lemma ClosingKeeps(app: string, cuts: set<Stretch>, d: Draft, hi: nat, isWord: char -> bool)
    requires DraftPlaced(app, cuts, d, hi, isWord)
    ensures DraftPlaced(app, cuts, Closed(d), hi, isWord) && DraftPlaced(app, cuts, Interrupted(d), hi, isWord)
  {
    hide ItemsPlaced;
    NoItems(app, cuts, 0, hi, isWord);
  }

  lemma OpeningKeeps(app: string, cuts: set<Stretch>, i: Intent, d: Draft, p: Prosody, hi: nat, isWord: char -> bool)
    requires DraftPlaced(app, cuts, d, hi, isWord)
    ensures DraftPlaced(app, cuts, Opened(i, d, p), hi, isWord)
  {
    hide ItemsPlaced;
    var again := EntryItems(Turn(i, p).entries);
    TagsHaveNoSource(again);
    NowhereIsPlaced(app, cuts, again, 0, hi, isWord);
  }

  /** More items, of text beyond all there was, or from nowhere. */
  lemma PuttingKeeps(app: string, cuts: set<Stretch>, i: Intent, d: Draft, more: seq<Item>, p: Prosody, hi: nat,
                     lo: nat, hi': nat, isWord: char -> bool)
    requires DraftPlaced(app, cuts, d, hi, isWord) && hi <= lo <= hi'
    requires ItemsPlaced(app, cuts, more, lo, hi', isWord) && OpensCut(cuts, more, isWord)
    ensures DraftPlaced(app, cuts, ItemsPut(i, d, more, p), hi', isWord)
  {
    hide ItemsPlaced, OpensCut, Opened;
    OpeningKeeps(app, cuts, i, d, p, hi, isWord);
    var e := Opened(i, d, p);
    ItemsConcat(app, cuts, e.items, 0, hi, more, lo, hi', isWord);
    DraftFurther(app, cuts, e, hi, hi', isWord);
  }

  lemma OnePutKeeps(app: string, cuts: set<Stretch>, i: Intent, d: Draft, item: Item, p: Prosody, hi: nat,
                    isWord: char -> bool)
    requires DraftPlaced(app, cuts, d, hi, isWord) && !item.Ch?
    ensures DraftPlaced(app, cuts, ItemsPut(i, d, [item], p), hi, isWord)
  {
    hide ItemsPlaced, OpensCut, ItemsPut, DraftPlaced;
    OneFromNowhere(item);
    NowhereIsPlaced(app, cuts, [item], hi, hi, isWord);
    PuttingKeeps(app, cuts, i, d, [item], p, hi, hi, hi, isWord);
  }

  lemma TokenKeeps(app: string, cuts: set<Stretch>, c: Config, i: Intent, d: Draft, f: Fragment, t: Token,
                   isWord: char -> bool)
    requires WordChars(isWord) && t.begin + t.length <= |f.text|
    requires StandsIn(app, f)
    requires t.kind == Text && t.length > 0 ==> Stretch(f.offset + t.begin, f.offset + t.begin + t.length) in cuts
    requires DraftPlaced(app, cuts, d, f.offset + t.begin, isWord)
    ensures DraftPlaced(app, cuts, TokenPut(c, i, d, f, t), f.offset + t.begin + t.length, isWord)
  {
    hide DraftPlaced, ItemsPut, Closed, Interrupted, ItemsPlaced, OpensCut, TextItems, ProsodyOf, TakeVoice;
    var p, hi := ProsodyOf(c, f), f.offset + t.begin;
    match t.kind
    case Text =>
      var text := f.text[t.begin..t.begin + t.length];
      Inside(app, f, t.begin, t.length);
      TextIsPlaced(app, cuts, text, hi, c.collapse, isWord);
      PuttingKeeps(app, cuts, i, d, TextItems(text, hi, c.collapse, false), p, hi, hi, hi + t.length, isWord);
    case Engine =>
      OnePutKeeps(app, cuts, i, d, Item.Tag(t.tag, t.effects), p, hi, isWord);
      DraftFurther(app, cuts, TokenPut(c, i, d, f, t), hi, hi + t.length, isWord);
    case Voice =>
      ClosingKeeps(app, cuts, d, hi, isWord);
      OnePutKeeps(app, cuts, TakeVoice(c, i, t.voice), VoiceTaken(c, i, d, t.voice), Item.Tag(t.tag, t.effects), p, hi,
                  isWord);
      DraftFurther(app, cuts, TokenPut(c, i, d, f, t), hi, hi + t.length, isWord);
    case Bookmark =>
      OnePutKeeps(app, cuts, i, d, Mark(|i.names| + 1), p, hi, isWord);
      DraftFurther(app, cuts, TokenPut(c, i, d, f, t), hi, hi + t.length, isWord);
    case Pause =>
      ClosingKeeps(app, cuts, d, hi, isWord);
      DraftFurther(app, cuts, TokenPut(c, i, d, f, t), hi, hi + t.length, isWord);
  }

  lemma Inside(app: string, f: Fragment, begin: nat, length: nat)
    requires begin + length <= |f.text| && StandsIn(app, f)
    ensures var text := f.text[begin..begin + length];
            |text| == length && app[f.offset + begin..f.offset + begin + length] == text
  {
    var text, here := f.text[begin..begin + length], app[f.offset + begin..f.offset + begin + length];
    forall k | 0 <= k < length ensures here[k] == text[k] {
      assert app[f.offset..f.offset + |f.text|][begin + k] == here[k];
    }
  }

  lemma {:induction false} TokensKeep(app: string, cuts: set<Stretch>, c: Config, i: Intent, d: Draft, f: Fragment,
                                      at: nat, ts: seq<Token>, after: bool, isWord: char -> bool)
    requires WordChars(isWord) && at <= |f.text| && IsScan(f.text, at, ts, after)
    requires forall k | 0 <= k < |ts| :: ts[k].begin + ts[k].length <= |f.text|
    requires StandsIn(app, f)
    requires forall t <- ts | t.kind == Text :: Stretch(f.offset + t.begin, f.offset + t.begin + t.length) in cuts
    requires DraftPlaced(app, cuts, d, f.offset + at, isWord)
    ensures DraftPlaced(app, cuts, TokensPut(c, i, d, f, ts), f.offset + |f.text|, isWord)
    decreases |ts|
  {
    hide DraftPlaced, TokenPut, SayToken, ReadTag;
    if ts != [] {
      var t := ts[0];
      TokenKeeps(app, cuts, c, i, d, f, t, isWord);
      TokensKeep(app, cuts, c, SayToken(c, i, f, t), TokenPut(c, i, d, f, t), f, at + t.length, ts[1..],
                 t.kind == Text, isWord);
    }
  }

  lemma FragmentKeeps(app: string, cuts: set<Stretch>, c: Config, i: Intent, d: Draft, f: Fragment, from: nat,
                      isWord: char -> bool)
    requires WordChars(isWord) && StretchesOf(c, f) <= cuts && DraftPlaced(app, cuts, d, from, isWord)
    requires Spoken(f) ==> from <= f.offset && StandsIn(app, f)
    ensures DraftPlaced(app, cuts, FragmentPut(c, i, d, f), if Spoken(f) then f.offset + |f.text| else from, isWord)
  {
    hide DraftPlaced, ItemsPut, Closed, Interrupted, ItemsPlaced, OpensCut, TextItems, ProsodyOf, TokensPut, Scan,
         Spelled, ScanFrom, IsScan, ReadTag;
    var p := ProsodyOf(c, f);
    var e := Parted(d, p);
    ClosingKeeps(app, cuts, d, from, isWord);
    assert DraftPlaced(app, cuts, e, from, isWord);
    match f.act
    case Speak =>
      if f.text != "" {
        SpeakingKeeps(app, cuts, c, i, e, f, from, isWord);
      }
    case SpellOut =>
      if f.text != "" {
        assert forall k: nat | f.offset <= k < f.offset + |f.text| :: Single(k) in StretchesOf(c, f);
        SpelledIsPlaced(app, cuts, f.text, f.offset, isWord);
        PuttingKeeps(app, cuts, i, e, Spelled(f.text, f.offset), p, from, f.offset, f.offset + |f.text|, isWord);
      }
    case Bookmark =>
      OnePutKeeps(app, cuts, i, e, Mark(|i.names| + 1), p, from, isWord);
    case _ =>
  }

  lemma SpeakingKeeps(app: string, cuts: set<Stretch>, c: Config, i: Intent, e: Draft, f: Fragment, from: nat,
                      isWord: char -> bool)
    requires WordChars(isWord) && f.act == Speak && f.text != "" && StretchesOf(c, f) <= cuts
    requires from <= f.offset && StandsIn(app, f)
    requires DraftPlaced(app, cuts, e, from, isWord)
    ensures !c.controlTags ==>
              DraftPlaced(app, cuts, ItemsPut(i, e, TextItems(f.text, f.offset, c.collapse, false), ProsodyOf(c, f)),
                          f.offset + |f.text|, isWord)
    ensures TokensFit(f.text)
    ensures c.controlTags ==> DraftPlaced(app, cuts, TokensPut(c, i, e, f, Scan(f.text)), f.offset + |f.text|, isWord)
  {
    hide DraftPlaced, ItemsPut, ItemsPlaced, OpensCut, TextItems, ProsodyOf, TokensPut, ScanFrom, ReadTag;
    ScanFits(f.text);
    if c.controlTags {
      ScanTiles(f.text);
      DraftFurther(app, cuts, e, from, f.offset, isWord);
      forall t <- Scan(f.text) | t.kind == Text
        ensures Stretch(f.offset + t.begin, f.offset + t.begin + t.length) in cuts
      {
        assert Stretch(f.offset + t.begin, f.offset + t.begin + t.length) in StretchesOf(c, f);
      }
      TokensKeep(app, cuts, c, i, e, f, 0, Scan(f.text), false, isWord);
    } else {
      TextIsPlaced(app, cuts, f.text, f.offset, c.collapse, isWord);
      PuttingKeeps(app, cuts, i, e, TextItems(f.text, f.offset, c.collapse, false), ProsodyOf(c, f), from, f.offset,
                   f.offset + |f.text|, isWord);
    }
  }

  lemma {:induction false} FragmentsKeep(app: string, cuts: set<Stretch>, c: Config, i: Intent, d: Draft,
                                         fs: seq<Fragment>, from: nat, isWord: char -> bool) returns (hi: nat)
    requires WordChars(isWord) && Stretches(c, fs) <= cuts && LaidOut(app, fs, from)
    requires DraftPlaced(app, cuts, d, from, isWord)
    ensures DraftPlaced(app, cuts, AllPut(c, i, d, fs), hi, isWord)
    decreases |fs|
  {
    hide DraftPlaced, FragmentPut, SayFragment, StretchesOf;
    hi := from;
    if fs != [] {
      FragmentKeeps(app, cuts, c, i, d, fs[0], from, isWord);
      var next := if Spoken(fs[0]) then fs[0].offset + |fs[0].text| else from;
      hi := FragmentsKeep(app, cuts, c, SayFragment(c, i, fs[0]), FragmentPut(c, i, d, fs[0]), fs[1..], next, isWord);
    }
  }

  /** Every run a plan has is placed over the application's text. */
  lemma RunsArePlaced(app: string, c: Config, i: Intent, fs: seq<Fragment>, k: nat,
                      isWord: char -> bool) returns (hi: nat)
    requires WordChars(isWord) && LaidOut(app, fs, 0) && k < |RunsOf(c, i, fs)|
    ensures ItemsPlaced(app, Stretches(c, fs), RunsOf(c, i, fs)[k], 0, hi, isWord)
  {
    hide ItemsPlaced, AllPut, Closed;
    var cuts := Stretches(c, fs);
    NoItems(app, cuts, 0, 0, isWord);
    hi := FragmentsKeep(app, cuts, c, i, BLANK, fs, 0, isWord);
    ClosingKeeps(app, cuts, AllPut(c, i, BLANK, fs), hi, isWord);
  }

  /** What a report at position `at` of a run tells the application. A character of no word is reported
      as itself. A word's characters are the application's own, and the span reads exactly the word if and
      only if the word has no seam; and a seam stands exactly where one stretch handed to append_text ends,
      another begins, and the application's text has something between the two. */
  ghost predicate WellReported(app: string, cuts: set<Stretch>, tagged: string, source: seq<Origin>, at: nat,
                               isWord: char -> bool)
    requires |source| == |tagged| && at < |tagged| && source[at].At?
  {
    var e := WordEnd(tagged, source, at, isWord);
    var span := SpanOf(source, at, e);
    && span.start == source[at].offset && span.start + span.length <= |app|
    && (!isWord(tagged[at]) ==> span.length == 1)
    && (forall j | at <= j < e :: source[j].offset < |app| && app[source[j].offset] == tagged[j])
    && (isWord(tagged[at]) ==>
          (app[span.start..span.start + span.length] == tagged[at..e] <==>
           forall j: nat | at <= j && j + 1 < e :: !Seam(source, j)))
    && (forall j: nat | at <= j && j + 1 < e ::
          Seam(source, j) <==> Apart(cuts, source[j].offset + 1, source[j + 1].offset))
  }

  lemma PlacedIsReported(app: string, cuts: set<Stretch>, tagged: string, source: seq<Origin>, hi: nat, at: nat,
                         isWord: char -> bool)
    requires |source| == |tagged| && at < |tagged| && source[at].At?
    requires Placed(app, cuts, tagged, source, 0, hi, isWord)
    ensures WellReported(app, cuts, tagged, source, at, isWord)
  {
    hide EndsAt, StartsAt;
    var e := WordEnd(tagged, source, at, isWord);
    forall j | at <= j < e
      ensures InWord(tagged, source, j, isWord) && source[j].offset < |app| && app[source[j].offset] == tagged[j]
    {
    }
    if isWord(tagged[at]) {
      SpanIsWord(app, tagged, source, at, isWord);
    }
    forall j: nat | at <= j && j + 1 < e
      ensures Seam(source, j) <==> Apart(cuts, source[j].offset + 1, source[j + 1].offset)
    {
      assert InWord(tagged, source, j, isWord) && InWord(tagged, source, j + 1, isWord);
    }
  }

  /** From the engine's position to the application's text: every position of every run of every plan. */
  lemma WordIsItsSpan(app: string, c: Config, i: Intent, fs: seq<Fragment>, k: nat, at: nat, isWord: char -> bool)
    requires WordChars(isWord) && LaidOut(app, fs, 0) && k < |RunsOf(c, i, fs)|
    requires at < |Encode(RunsOf(c, i, fs)[k])| && Sources(RunsOf(c, i, fs)[k])[at].At?
    ensures var run := RunsOf(c, i, fs)[k];
            WellReported(app, Stretches(c, fs), Encode(run), Sources(run), at, isWord)
  {
    hide Placed, WellReported, RunsOf, Encode, Sources;
    var hi := RunsArePlaced(app, c, i, fs, k, isWord);
    var run := RunsOf(c, i, fs)[k];
    PlacedIsReported(app, Stretches(c, fs), Encode(run), Sources(run), hi, at, isWord);
  }

  /** Planning a text and delivering a report of the engine on one of its runs. */
  method PlanAndDeliver(c: Config, voice: string, fs: seq<Fragment>, k: nat, prologue: string, value: nat,
                        isWord: char -> bool,
                        ghost app: string)
      returns (plan: seq<Action>, r: Option<Span>)
    requires WordChars(isWord) && LaidOut(app, fs, 0)
    ensures k < |plan| && plan[k].SpeakText? ==>
              var run := plan[k].run;
              && |run.source| == |run.tagged|
              && (r.Some? <==> |prologue| < value <= |prologue + run.tagged| && run.source[value - 1 - |prologue|].At?)
              && (r.Some? ==>
                    var at := value - 1 - |prologue|;
                    && r.value == SpanOf(run.source, at, WordEnd(run.tagged, run.source, at, isWord))
                    && WellReported(app, Stretches(c, fs), run.tagged, run.source, at, isWord))
  {
    hide WellReported, Closed, LaidOut, Encode, Sources, AllPut, SayAll, PlanSays, WordChars;
    r := None;
    var p := new Planner(c, voice);
    ghost var i := Intent([], [], voice, [], Option.None);
    ghost var j := p.PlanAll(fs, i);
    plan := p.plan;
    if k < |plan| && plan[k].SpeakText? {
      var run := plan[k].run;
      r := Deliver(prologue, run.tagged, run.source, value, isWord);
      if r.Some? {
        WordIsItsSpan(app, c, i, fs, k, value - 1 - |prologue|, isWord);
      }
    }
  }
}
