/** Speak's plan builder: piece by piece, each piece opened with the tags that still hold. */
module Planning {
  import opened Wrappers
  import opened Chars
  import opened Seqs
  import opened Tags
  import opened Runs
  import opened Words
  import opened CarriedTags
  import opened Plan
  import opened Drafts

  class Planner {
    const c: Config
    const carried: Carried
    var plan: seq<Action>
    var bookmarks: seq<string>
    var current: Run
    var currentStarted: bool
    var voice: string
    var haveLast: bool
    var last: Prosody
    /** What the runs of the plan, and the current one, are made of. */
    ghost var planItems: seq<seq<Item>>
    ghost var items: seq<Item>

    /** The plan so far says what is meant so far. */
    ghost predicate Means(i: Intent)
      reads this, carried
    {
      && IsPlan(plan, planItems) && IsRun(current, items)
      && i.said == PlanSays(plan, planItems) + RunSays(items, current.voice, current.prosody)
      && i.names == bookmarks && i.voice == voice && i.entries == carried.entries
      && i.last == (if haveLast then Option.Some(last) else Option.None)
      && (forall e <- carried.entries :: EngineTag(e.tag, e.effects) && e.effects != {})
      && (if currentStarted then
            haveLast && last == current.prosody && current.voice == voice
            && Force(TagsIn(items)) == Force(carried.entries)
          else items == [])
    }

    ghost function Now(): Draft
      reads this
    {
      Draft(planItems, currentStarted, items, current.prosody)
    }

    constructor (c: Config, voice: string)
      ensures Now() == BLANK
      ensures Means(Intent([], [], voice, [], Option.None)) && fresh(carried) && !currentStarted
      ensures this.c == c
    {
      this.c, this.voice := c, voice;
      plan, planItems, items, bookmarks := [], [], [], [];
      current := Run("", [], voice, Prosody(0, 0, 0));
      currentStarted, haveLast, last := false, false, Prosody(0, 0, 0);
      carried := new Carried();
    }

    /** Closes the current piece. */
    method Flush(ghost i: Intent)
      requires Means(i)
      modifies this`plan, this`current, this`currentStarted, this`planItems, this`items
      ensures Means(i) && Now() == Closed(old(Now()))
    {
      hide RunSays, PlanSays, TagsIn, Force, EngineTag;
      NothingSaid(current.voice, current.prosody);
      NothingSaid(voice, Prosody(0, 0, 0));
      if currentStarted && current.tagged != "" {
        Extended(plan, planItems, SpeakText(current), items);
        plan := plan + [SpeakText(current)];
        planItems := planItems + [items];
      } else {
        NothingSpelt(items);
      }
      assert PlanSays(plan, planItems) + [] == PlanSays(plan, planItems);
      current := Run("", [], voice, Prosody(0, 0, 0));
      currentStarted, items := false, [];
    }

    method Push(a: Action, ghost i: Intent) returns (ghost j: Intent)
      requires Means(i) && !currentStarted && !a.SpeakText?
      modifies this`plan, this`planItems
      ensures j == i.(said := i.said + ActionSays(a, [])) && Means(j)
      ensures Now() == old(Now()).(runs := old(planItems) + [[]])
    {
      Extended(plan, planItems, a, []);
      assert PlanSays(plan, planItems) + [] == PlanSays(plan, planItems);
      plan := plan + [a];
      planItems := planItems + [[]];
      assert PlanSays(plan, planItems) + [] == PlanSays(plan, planItems);
      j := i.(said := i.said + ActionSays(a, []));
    }

    /** Opens a piece, unless one is open, with the carried tags that still hold restated. */
    method BeginPiece(p: Prosody, ghost i: Intent)
      requires Means(i) && (currentStarted ==> current.prosody == p)
      modifies this`current, this`currentStarted, this`haveLast, this`last, this`items, carried
      ensures Means(Turn(i, p)) && currentStarted && current.prosody == p
      ensures Now() == Opened(i, old(Now()), p)
    {
      if currentStarted {
        TurnAgain(i, p);
        return;
      }
      Yield(p, i);
      Restate(Turn(i, p));
    }

    method Yield(p: Prosody, ghost i: Intent)
      requires Means(i) && !currentStarted
      modifies this`haveLast, this`last, carried
      ensures Means(Turn(i, p)) && haveLast && last == p
    {
      hide RunSays, PlanSays, IsRun, IsPlan, Force, TagsIn, EngineTag;
      if haveLast {
        YieldedAreEntries(carried.entries, Changed(last, p));
        carried.YieldTo(Changed(last, p));
      }
      haveLast, last := true, p;
    }

    method Restate(ghost i: Intent)
      requires Means(i) && !currentStarted && haveLast
      modifies this`current, this`currentStarted, this`items
      ensures Means(i) && Now() == Draft(old(planItems), true, EntryItems(i.entries), last)
    {
      hide RunSays, PlanSays, IsPlan, Encode, Sources, Force, TagsIn, EngineTag;
      NothingSaid(current.voice, current.prosody);
      var again := carried.Tags();
      items := EntryItems(carried.entries);
      current := Run(again, seq(|again|, _ => NotFromSource), voice, last);
      currentStarted := true;
      RestatedSaysNothing(carried.entries, voice, last);
      TagsHaveNoSource(items);
      assert forall k | 0 <= k < |items| :: carried.entries[k] in carried.entries;
    }

    /** Puts characters at the end of the current piece. */
    method AddText(text: string, offset: nat, collapse: bool, ghost i: Intent) returns (ghost j: Intent)
      requires Means(i) && currentStarted && i.last == Option.Some(current.prosody)
      modifies this`current, this`items
      ensures j == SayItems(i, TextItems(text, offset, collapse, false), current.prosody) && Means(j)
      ensures Now() == WithItems(old(Now()), TextItems(text, offset, collapse, false))
    {
      hide RunSays, PlanSays, Encode, Sources, TagsIn, EngineTag, TextItems, CharsSaid;
      ghost var more := TextItems(text, offset, collapse, false);
      var tagged, source := AppendText(current.tagged, current.source, text, offset, collapse);
      Runs.EncodeConcat(items, more);
      MoreText(items, more, current.voice, current.prosody);
      Assoc(PlanSays(plan, planItems), RunSays(items, current.voice, current.prosody),
            CharsSaid(more, current.voice, current.prosody, Force(TagsIn(items))));
      TurnAgain(i, current.prosody);
      j := SayItems(i, more, current.prosody);
      current := current.(tagged := tagged, source := source);
      items := items + more;
    }

    /** The space that keeps spelt-out characters apart. */
    method AddSpace(ghost i: Intent) returns (ghost j: Intent)
      requires Means(i) && currentStarted && i.last == Option.Some(current.prosody)
      modifies this`current, this`items
      ensures j == SayItems(i, [Ch(' ', NotFromSource)], current.prosody) && Means(j)
      ensures Now() == WithItems(old(Now()), [Ch(' ', NotFromSource)])
    {
      hide RunSays, PlanSays, Encode, Sources, TagsIn, EngineTag, CharsSaid;
      ghost var more := [Ch(' ', NotFromSource)];
      Runs.EncodeConcat(items, more);
      EncodeOne(more[0]);
      MoreText(items, more, current.voice, current.prosody);
      Assoc(PlanSays(plan, planItems), RunSays(items, current.voice, current.prosody),
            CharsSaid(more, current.voice, current.prosody, Force(TagsIn(items))));
      TurnAgain(i, current.prosody);
      j := SayItems(i, more, current.prosody);
      current := current.(tagged := current.tagged + " ", source := current.source + [NotFromSource]);
      items := items + more;
    }

    /** Spelling out: every character on its own, a space after each. */
    method AddSpelled(text: string, offset: nat, ghost i: Intent) returns (ghost j: Intent)
      requires Means(i) && currentStarted && i.last == Option.Some(current.prosody)
      modifies this`current, this`items
      ensures j == SayItems(i, Spelled(text, offset), current.prosody) && Means(j)
      ensures Now() == WithItems(old(Now()), Spelled(text, offset))
    {
      hide Means, SayItems, TextItems;
      hide WithItems;
      j := i;
      var p := current.prosody;
      NothingSaidYet(i, p);
      assert text[0..] == text;
      for n := 0 to |text|
        invariant Means(j) && currentStarted && current.prosody == p && j.last == Option.Some(p)
        invariant SayItems(j, Spelled(text[n..], offset + n), p) == SayItems(i, Spelled(text, offset), p)
        invariant WithItems(Now(), Spelled(text[n..], offset + n)) == WithItems(old(Now()), Spelled(text, offset))
      {
        SpelledNext(j, text[n..], offset + n, p);
        SpelledPut(Now(), text[n..], offset + n);
        assert text[n..][..1] == text[n..n + 1] && text[n..][1..] == text[n + 1..];
        j := AddText(text[n..n + 1], offset + n, false, j);
        j := AddSpace(j);
      }
      NothingSaidYet(j, p);
      NothingPut(Now());
      assert text[|text|..] == "";
    }

    /** append_tag, then carried.note. */
    method AddTag(tag: string, effects: set<Effect>, ghost i: Intent) returns (ghost j: Intent)
      requires Means(i) && currentStarted && i.last == Option.Some(current.prosody) && EngineTag(tag, effects)
      modifies this`current, this`items, carried
      ensures j == SayTag(i, tag, effects, current.prosody) && Means(j)
      ensures Now() == WithItems(old(Now()), [Item.Tag(tag, effects)])
    {
      hide RunSays, PlanSays, Encode, Sources, TagsIn, EngineTag, Force, Noted;
      ghost var item := Item.Tag(tag, effects);
      Runs.EncodeConcat(items, [item]);
      EncodeOne(item);
      OneMore(items, item, current.voice, current.prosody);
      Assoc(PlanSays(plan, planItems), RunSays(items, current.voice, current.prosody),
            if effects == {} then [Said.Control(tag)] else []);
      TurnAgain(i, current.prosody);
      NotedKeeps(carried.entries, TagsIn(items), effects, tag);
      j := SayTag(i, tag, effects, current.prosody);
      current := current.(tagged := current.tagged + tag, source := current.source + seq(|tag|, _ => NotFromSource));
      items := items + [item];
      carried.Note(effects, tag);
    }

    /** A bookmark, numbered from one in the order they come. */
    method AddBookmark(name: string, ghost i: Intent) returns (ghost j: Intent)
      requires Means(i) && currentStarted && i.last == Option.Some(current.prosody)
      modifies this`current, this`items, this`bookmarks
      ensures j == SayMark(i, name, current.prosody) && Means(j)
      ensures Now() == WithItems(old(Now()), [Mark(|i.names| + 1)])
    {
      hide RunSays, PlanSays, Encode, Sources, TagsIn, EngineTag, Force, Yielded, Changed, MarkTag;
      bookmarks := bookmarks + [name];
      var tag := MarkTag(|bookmarks|);
      ghost var item := Item.Mark(|bookmarks|);
      Runs.EncodeConcat(items, [item]);
      EncodeOne(item);
      OneMore(items, item, current.voice, current.prosody);
      Assoc(PlanSays(plan, planItems), RunSays(items, current.voice, current.prosody), [Passed(|bookmarks|)]);
      TurnAgain(i, current.prosody);
      j := SayMark(i, name, current.prosody);
      assert TagsIn(items) + [] == TagsIn(items);
      current := current.(tagged := current.tagged + tag, source := current.source + seq(|tag|, _ => NotFromSource));
      items := items + [item];
    }

    /** A \\Vce= that names another voice closes the piece and carries no pitch and no voice parameters on. */
    method TakeVoiceOf(v: VoiceRequest, ghost i: Intent) returns (ghost j: Intent)
      requires Means(i)
      modifies this, carried
      ensures j == TakeVoice(c, i, v) && Means(j)
      ensures Now() == VoiceTaken(c, i, old(Now()), v)
    {
      var chosen := Chosen(c, v, voice);
      j := TakeVoice(c, i, v);
      if chosen == "" || SameName(chosen, voice) {
        return;
      }
      Flush(i);
      ForgottenAreEntries(carried.entries, {Pitch, VoiceParams});
      SetVoice(chosen, i);
    }

    method SetVoice(chosen: string, ghost i: Intent)
      requires Means(i) && !currentStarted
      modifies this`voice, carried
      ensures Means(i.(voice := chosen, entries := Forgotten(i.entries, {Pitch, VoiceParams})))
    {
      hide RunSays, PlanSays, IsRun, IsPlan, Force, TagsIn, EngineTag;
      ForgottenAreEntries(carried.entries, {Pitch, VoiceParams});
      voice := chosen;
      carried.Forget({Pitch, VoiceParams});
    }

    /** One token of a fragment's text. */
    method AddToken(f: Fragment, t: Token, ghost i: Intent) returns (ghost j: Intent)
      requires Means(i) && (currentStarted ==> current.prosody == ProsodyOf(c, f))
      requires t.begin + t.length <= |f.text| && TagsWellFormed(t)
      modifies this, carried
      ensures j == SayToken(c, i, f, t) && Means(j)
      ensures Now() == TokenPut(c, i, old(Now()), f, t)
      ensures currentStarted ==> current.prosody == ProsodyOf(c, f)
    {
      hide Means, SayItems, SayTag, SayMark, TakeVoice, ProsodyOf, EngineTag;
      var p := ProsodyOf(c, f);
      match t.kind
      case Text =>
        j := AddTextAt(f.text[t.begin..t.begin + t.length], f.offset + t.begin, p, i);
      case Engine =>
        j := AddTagAt(t.tag, t.effects, p, i);
      case Voice =>
        j := TakeVoiceOf(t.voice, i);
        if t.tag != "" {
          j := AddTagAt(t.tag, t.effects, p, j);
        }
      case Bookmark =>
        j := AddBookmarkAt(t.value, p, i);
      case Pause =>
        Flush(i);
        j := Push(Silent(Min(t.number, LONGEST_TAG_PAUSE_MS)), i);
    }

    method AddTextAt(text: string, offset: nat, p: Prosody, ghost i: Intent) returns (ghost j: Intent)
      requires Means(i) && (currentStarted ==> current.prosody == p)
      modifies this, carried
      ensures j == SayItems(i, TextItems(text, offset, c.collapse, false), p) && Means(j)
      ensures Now() == ItemsPut(i, old(Now()), TextItems(text, offset, c.collapse, false), p)
    {
      hide Means, TextItems;
      BeginPiece(p, i);
      TurnAgain(Turn(i, p), p);
      j := AddText(text, offset, c.collapse, Turn(i, p));
    }

    method AddTagAt(tag: string, effects: set<Effect>, p: Prosody, ghost i: Intent) returns (ghost j: Intent)
      requires Means(i) && (currentStarted ==> current.prosody == p) && EngineTag(tag, effects)
      modifies this, carried
      ensures j == SayTag(i, tag, effects, p) && Means(j)
      ensures Now() == ItemsPut(i, old(Now()), [Item.Tag(tag, effects)], p)
    {
      hide Means, EngineTag;
      BeginPiece(p, i);
      TurnAgain(Turn(i, p), p);
      j := AddTag(tag, effects, Turn(i, p));
    }

    method AddBookmarkAt(name: string, p: Prosody, ghost i: Intent) returns (ghost j: Intent)
      requires Means(i) && (currentStarted ==> current.prosody == p)
      modifies this, carried
      ensures j == SayMark(i, name, p) && Means(j)
      ensures Now() == ItemsPut(i, old(Now()), [Mark(|i.names| + 1)], p)
    {
      hide Means;
      BeginPiece(p, i);
      TurnAgain(Turn(i, p), p);
      j := AddBookmark(name, Turn(i, p));
    }

    method AddTokens(f: Fragment, ghost i: Intent) returns (ghost j: Intent)
      requires Means(i) && (currentStarted ==> current.prosody == ProsodyOf(c, f))
      modifies this, carried
      ensures TokensFit(f.text) && j == SayTokens(c, i, f, Scan(f.text)) && Means(j)
      ensures Now() == TokensPut(c, i, old(Now()), f, Scan(f.text))
    {
      hide Means, SayToken, ProsodyOf, ReadTag, IsScan, ScanFrom;
      var tokens := ScanText(f.text);
      ScanFits(f.text);
      j := i;
      assert tokens[0..] == tokens;
      for n := 0 to |tokens|
        invariant Means(j) && (currentStarted ==> current.prosody == ProsodyOf(c, f))
        invariant SayTokens(c, j, f, tokens[n..]) == SayTokens(c, i, f, tokens)
        invariant TokensPut(c, j, Now(), f, tokens[n..]) == TokensPut(c, i, old(Now()), f, tokens)
      {
        assert tokens[n..][0] == tokens[n] && tokens[n..][1..] == tokens[n + 1..];
        j := AddToken(f, tokens[n], j);
      }
    }

    /** One fragment, as the application handed it over. */
    method AddFragment(f: Fragment, ghost i: Intent) returns (ghost j: Intent)
      requires Means(i)
      modifies this, carried
      ensures j == SayFragment(c, i, f) && Means(j)
      ensures Now() == FragmentPut(c, i, old(Now()), f)
    {
      hide Means, SayItems, SayMark, SayTokens, TextItems, Spelled;
      var p := ProsodyOf(c, f);
      var prosodyChanged := currentStarted && current.prosody != p;
      j := i;
      match f.act
      case Silence =>
        Flush(i);
        j := Push(Silent(f.silenceMs), i);
      case Pronounce =>
        Flush(i);
        if f.text != "" {
          VoiceIs(i);
          j := Push(Phonetic(f.text, voice, p), i);
        }
      case Bookmark =>
        if prosodyChanged {
          Flush(i);
        }
        j := AddBookmarkAt(f.text, p, i);
      case Other =>
      case Speak =>
        if f.text != "" {
          if prosodyChanged {
            Flush(i);
          }
          if c.controlTags {
            j := AddTokens(f, i);
          } else {
            j := AddTextAt(f.text, f.offset, p, i);
          }
        }
      case SpellOut =>
        if f.text != "" {
          if prosodyChanged {
            Flush(i);
          }
          j := AddSpelledAt(f.text, f.offset, p, i);
        }
    }

    lemma VoiceIs(i: Intent)
      requires Means(i)
      ensures i.voice == voice
    {
    }

    method AddSpelledAt(text: string, offset: nat, p: Prosody, ghost i: Intent) returns (ghost j: Intent)
      requires Means(i) && (currentStarted ==> current.prosody == p)
      modifies this, carried
      ensures j == SayItems(i, Spelled(text, offset), p) && Means(j)
      ensures Now() == ItemsPut(i, old(Now()), Spelled(text, offset), p)
    {
      hide Means, Spelled;
      BeginPiece(p, i);
      TurnAgain(Turn(i, p), p);
      j := AddSpelled(text, offset, Turn(i, p));
    }

    /** Speak's planning: the plan says exactly what the fragments mean, and bookmark n of a run is the
        n-th name. */
    method PlanAll(fs: seq<Fragment>, ghost i: Intent) returns (ghost j: Intent)
      requires Means(i)
      modifies this, carried
      ensures j == SayAll(c, i, fs)
      ensures IsPlan(plan, planItems) && PlanSays(plan, planItems) == j.said && bookmarks == j.names
      ensures planItems == Closed(AllPut(c, i, old(Now()), fs)).runs
    {
      hide Means, SayFragment;
      j := i;
      assert fs[0..] == fs;
      for n := 0 to |fs|
        invariant Means(j)
        invariant SayAll(c, j, fs[n..]) == SayAll(c, i, fs)
        invariant AllPut(c, j, Now(), fs[n..]) == AllPut(c, i, old(Now()), fs)
      {
        assert fs[n..][0] == fs[n] && fs[n..][1..] == fs[n + 1..];
        j := AddFragment(fs[n], j);
      }
      Flush(j);
      AllSaid(j);
    }

    lemma AllSaid(i: Intent)
      requires Means(i) && !currentStarted
      ensures IsPlan(plan, planItems) && PlanSays(plan, planItems) == i.said && bookmarks == i.names
    {
    }
  }
}
