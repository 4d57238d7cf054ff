/** A text that has been split is spoken as it would have been whole: the carried tags, restated behind a
    fresh prologue, put the engine where all the tags before the split would have put it. */
module Splitting {
  import opened Wrappers
  import opened Chars
  import opened Seqs
  import opened Tags
  import opened Runs
  import opened CarriedTags
  import opened Utterances
  import opened Plan

  /** The effects on record for a tag are those the engine gives it. */
  predicate Honest(e: Entry) { EngineTag(e.tag, e.effects) }

  /** The engine's settings once tags have been obeyed in order. */
  function ObeyAll(v: Values, es: seq<Entry>): Values {
    if es == [] then v else Obey(ObeyAll(v, es[..|es| - 1]), es[|es| - 1].tag)
  }

  function Decided(v: Value, tag: Option<Entry>): Value {
    match tag
    case None => v
    case Some(e) => if Resets(NameIn(e.tag)) then Own else Told(e.tag)
  }

  function Under(v: Values, s: Settings): Values {
    Values(Decided(v.pitch, s.pitch), Decided(v.rate, s.rate), Decided(v.volume, s.volume),
           Decided(v.voiceParams, s.voiceParams))
  }

  lemma {:induction false} ObeyAllIs(v: Values, es: seq<Entry>)
    requires forall e <- es :: Honest(e)
    ensures ObeyAll(v, es) == Under(v, Force(es))
  {
    hide EffectsNamed, NameIn, Resets;
    if es != [] {
      var front, last := es[..|es| - 1], es[|es| - 1];
      assert es == front + [last];
      ObeyAllIs(v, front);
      ForceAppend(front, last);
      assert last in es;
    }
  }

  lemma {:induction false} NotedAreTags(tags: seq<Entry>)
    ensures forall e <- NotedAll(tags) :: e in tags
  {
    if tags != [] {
      var front, last := tags[..|tags| - 1], tags[|tags| - 1];
      NotedAreTags(front);
      FilterIs(NotedAll(front), (e: Entry) => e.effects - last.effects != {});
      assert tags == front + [last];
    }
  }

  /** Whatever the engine was left at, a prologue and the carried tags put it where the prologue and every
      tag there has been would put it. */
  lemma RestatedInFull(p: Stating, tags: seq<Entry>, v: Values, w: Values)
    requires v.voiceParams == w.voiceParams && forall e <- tags :: Honest(e)
    ensures ObeyAll(Stated(v, p), NotedAll(tags)) == ObeyAll(Stated(w, p), tags)
  {
    hide Honest, NumberTag;
    NotedAreTags(tags);
    forall e <- tags ensures e.tag != "" {
      HonestIsTag(e);
    }
    RestatingIsReplaying(tags);
    ObeyAllIs(Stated(v, p), NotedAll(tags));
    ObeyAllIs(Stated(w, p), tags);
  }

  // ------------------------------------------------------------------------------------------
  // As text
  // ------------------------------------------------------------------------------------------

  function TagText(es: seq<Entry>): string {
    if es == [] then "" else TagText(es[..|es| - 1]) + es[|es| - 1].tag
  }

  lemma {:induction false} TagTextIs(es: seq<Entry>)
    ensures TagText(es) == Encode(EntryItems(es))
  {
    if es != [] {
      var front, last := es[..|es| - 1], es[|es| - 1];
      TagTextIs(front);
      assert EntryItems(es) == EntryItems(front) + [Tag(last.tag, last.effects)];
      EncodeConcat(EntryItems(front), [Tag(last.tag, last.effects)]);
      EncodeOne(Tag(last.tag, last.effects));
    }
  }

  lemma {:induction false} UtterTags(es: seq<Entry>, rest: string, voice: string, v: Values)
    requires forall e <- es :: IsTag(e.tag)
    ensures Utter(Parse(TagText(es) + rest), voice, v) == Utter(Parse(rest), voice, ObeyAll(v, es))
  {
    hide Parse, IsTag, Obey, Utter;
    if es == [] {
      assert TagText(es) + rest == rest;
    } else {
      var front, last := es[..|es| - 1], es[|es| - 1];
      assert es == front + [last] && last in es;
      Assoc(TagText(front), last.tag, rest);
      UtterTags(front, last.tag + rest, voice, v);
      ParseTag(last.tag, rest);
      UtterControl(last.tag, Parse(rest), voice, ObeyAll(v, front));
    }
  }

  /** What follows a split is spoken, whatever the engine was left at, exactly as it would be if every tag
      before the split stood in front of it. */
  lemma SplitIsSpokenTheSame(p: Stating, tags: seq<Entry>, rest: string, voice: string, v: Values, w: Values)
    requires v.voiceParams == w.voiceParams && forall e <- tags :: Honest(e)
    ensures Utter(Parse(FormatPrologue(p) + (Encode(EntryItems(NotedAll(tags))) + rest)), voice, v)
         == Utter(Parse(FormatPrologue(p) + (TagText(tags) + rest)), voice, w)
  {
    hide Parse, Honest, IsTag, Utter, FormatPrologue, PrologueTags, Encode;
    NotedAreTags(tags);
    TagTextIs(NotedAll(tags));
    forall e <- tags ensures IsTag(e.tag) {
      HonestIsTag(e);
    }
    RestatedInFull(p, tags, v, w);
    OnePrologue(p, NotedAll(tags), rest, voice, v);
    OnePrologue(p, tags, rest, voice, w);
  }

  lemma HonestIsTag(e: Entry)
    requires Honest(e)
    ensures e.tag != "" && IsTag(e.tag)
  {
  }

  lemma OnePrologue(p: Stating, es: seq<Entry>, rest: string, voice: string, v: Values)
    requires forall e <- es :: IsTag(e.tag)
    ensures Utter(Parse(FormatPrologue(p) + (TagText(es) + rest)), voice, v)
              == Utter(Parse(rest), voice, ObeyAll(Stated(v, p), es))
  {
    hide Parse, IsTag, Utter, FormatPrologue, PrologueTags, Stated;
    ParsePrologue(p, TagText(es) + rest);
    PrologueStates(p, Parse(TagText(es) + rest), voice, v);
    UtterTags(es, rest, voice, Stated(v, p));
  }

  // ------------------------------------------------------------------------------------------
  // A run of the plan, as it is heard
  // ------------------------------------------------------------------------------------------

  /** What is heard of what is said: the characters, each under its voice and under the prologue's values as
      far as no tag in force decides them. */
  function Heard(said: seq<Said>, from: Values): seq<Uttered> {
    if said == [] then []
    else
      var last := said[|said| - 1];
      Heard(said[..|said| - 1], from)
      + if last.Say? then [Uttered(last.ch, last.voice, Under(from, last.settings))] else []
  }

  lemma {:induction false} UtterConcat(a: seq<Piece>, b: seq<Piece>, voice: string, v: Values)
    ensures Utter(a + b, voice, v).0 == Utter(a, voice, v).0 + Utter(b, voice, Utter(a, voice, v).1).0
    ensures Utter(a + b, voice, v).1 == Utter(b, voice, Utter(a, voice, v).1).1
  {
    hide Obey;
    if a == [] {
      assert a + b == b;
    } else {
      assert (a + b)[1..] == a[1..] + b;
      UtterConcat(a[1..], b, voice, if a[0].Plain? then v else Obey(v, a[0].tag));
    }
  }

  /** The engine, obeying a run's tags as it comes to them, speaks what the plan means by the run. */
  lemma {:induction false} ItemsAreHeard(items: seq<Item>, voice: string, p: Prosody, v: Values)
    requires forall k | 0 <= k < |items| :: items[k].Valid()
    ensures var r := Utter(PiecesOf(items), voice, v);
            r.0 == Heard(RunSays(items, voice, p), v) && r.1 == Under(v, Force(TagsIn(items)))
  {
    hide Obey, Item.Valid, Force, Under, PieceOf;
    if items == [] {
      NothingInForce(v);
    } else {
      var front, last := items[..|items| - 1], items[|items| - 1];
      ItemsAreHeard(front, voice, p, v);
      assert PiecesOf(items) == PiecesOf(front) + [PieceOf(last)];
      UtterConcat(PiecesOf(front), [PieceOf(last)], voice, v);
      OneIsHeard(last, TagsIn(front), voice, p, v);
      HeardConcat(RunSays(front, voice, p), OneSays(last, TagsIn(front), voice, p), v);
    }
  }

  lemma NothingInForce(v: Values)
    ensures Under(v, Force([])) == v
  {
  }

  lemma OneIsHeard(item: Item, before: seq<Entry>, voice: string, p: Prosody, v: Values)
    requires item.Valid()
    ensures var r := Utter([PieceOf(item)], voice, Under(v, Force(before)));
            var now := before + if item.Tag? && item.effects != {} then [Entry(item.effects, item.text)] else [];
            r.0 == Heard(OneSays(item, before, voice, p), v) && r.1 == Under(v, Force(now))
  {
    hide Force, Under, Obey, EffectsNamed, IsTag;
    assert before + [] == before;
    match item
    case Ch(c, o) =>
      OneHeard(Say(c, o, voice, p, Force(before)), v);
      OneUttered(Plain(c), voice, Under(v, Force(before)));
    case Tag(t, effects) =>
      ForceAppend(before, Entry(effects, t));
      OneHeard(Said.Control(t), v);
      OneUttered(Piece.Control(t), voice, Under(v, Force(before)));
      TagIsObeyed(Force(before), Entry(effects, t), v);
    case Mark(n) =>
      MarkHasNoEffect(n);
      OneHeard(Passed(n), v);
      OneUttered(Piece.Control(MarkTag(n)), voice, Under(v, Force(before)));
      NoEffect(Under(v, Force(before)), MarkTag(n));
  }

  lemma OneUttered(piece: Piece, voice: string, v: Values)
    ensures Utter([piece], voice, v).0 == if piece.Plain? then [Uttered(piece.ch, voice, v)] else []
    ensures Utter([piece], voice, v).1 == if piece.Plain? then v else Obey(v, piece.tag)
  {
    hide Obey;
    assert [piece][1..] == [];
    var w := if piece.Plain? then v else Obey(v, piece.tag);
    assert Utter([], voice, w) == ([], w);
    assert Utter([piece][1..], voice, w) == ([], w);
  }

  lemma TagIsObeyed(s: Settings, e: Entry, v: Values)
    requires Honest(e)
    ensures Obey(Under(v, s), e.tag) == Under(v, With(s, e))
  {
    hide EffectsNamed, Resets, NameIn, IsTag;
  }

  lemma NoEffect(v: Values, tag: string)
    requires EffectsNamed(NameIn(tag)) == {}
    ensures Obey(v, tag) == v
  {
    hide EffectsNamed, Resets, NameIn;
  }

  lemma OneHeard(s: Said, v: Values)
    ensures Heard([s], v) == if s.Say? then [Uttered(s.ch, s.voice, Under(v, s.settings))] else []
    ensures Heard([], v) == []
  {
    assert [s][..0] == [];
  }

  lemma MarkHasNoEffect(n: nat)
    ensures EffectsNamed(NameIn(MarkTag(n))) == {}
  {
    InsideIs("mrk=" + Dec(n));
    assert MarkTag(n) == "\\" + ("mrk=" + Dec(n)) + "\\";
    var inner := "mrk=" + Dec(n);
    UntilIs(inner, 0, {'='}, 3);
    assert inner[..3] == "mrk";
    MrkIsSixth();
  }

  lemma {:induction false} HeardConcat(a: seq<Said>, b: seq<Said>, v: Values)
    ensures Heard(a + b, v) == Heard(a, v) + Heard(b, v)
  {
    hide Under;
    if b == [] {
      assert a + b == a;
    } else {
      var front := b[..|b| - 1];
      assert (a + b)[..|a + b| - 1] == a + front;
      HeardConcat(a, front, v);
      var last := b[|b| - 1];
      Assoc(Heard(a, v), Heard(front, v),
            if last.Say? then [Uttered(last.ch, last.voice, Under(v, last.settings))] else []);
    }
  }

  /** From plan to speech: a run of a plan, sent to the worker as a request, is spoken as the plan means it:
      the same characters in the same order, by the run's voice, each under the tags in force for it and,
      where no tag decides, at the rate, pitch and volume the request states. */
  lemma RunIsSpokenAsMeant(w: Scale, run: Run, items: seq<Item>, job: Job)
    requires IsRun(run, items)
    requires job == Job.Speak(run.voice, run.tagged, run.prosody.rate, run.prosody.pitch, run.prosody.volume)
    ensures Meant(w, run.voice, job)
         == Heard(RunSays(items, run.voice, run.prosody), Stated(OWN_VALUES, StatingOf(w, run.voice, job)))
  {
    hide Parse, Encode, Utter, Heard, RunSays, Stated, StatingOf, Item.Valid;
    ParseEncode(items);
    ItemsAreHeard(items, run.voice, run.prosody, Stated(OWN_VALUES, StatingOf(w, run.voice, job)));
  }
}
