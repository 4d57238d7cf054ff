/** The tags a run must restate when the text before it has been split off. */
module CarriedTags {
  import opened Wrappers
  import opened Seqs
  import opened Tags
  import opened Runs

  datatype Entry = Entry(effects: set<Effect>, tag: string)

  function Filter(es: seq<Entry>, keep: Entry -> bool): seq<Entry> {
    if es == [] then []
    else Filter(es[..|es| - 1], keep) + if keep(es[|es| - 1]) then [es[|es| - 1]] else []
  }

  /** Entries all of whose effects are in `gone` are dropped. */
  function Forgotten(es: seq<Entry>, gone: set<Effect>): seq<Entry> {
    Filter(es, (e: Entry) => e.effects - gone != {})
  }

  /** Entries any of whose effects is in `changed` are dropped. */
  function Yielded(es: seq<Entry>, changed: set<Effect>): seq<Entry> {
    Filter(es, (e: Entry) => e.effects * changed == {})
  }

  function Noted(es: seq<Entry>, effects: set<Effect>, tag: string): seq<Entry> {
    if effects == {} || tag == "" then es else Forgotten(es, effects) + [Entry(effects, tag)]
  }

  // ------------------------------------------------------------------------------------------
  // What the entries mean
  // ------------------------------------------------------------------------------------------

  /** The tag that decides setting `f` once `es` have been obeyed in order; None leaves it to the
      prologue. A tag replaces the settings it has an effect on and leaves the others alone. */
  function InForce(es: seq<Entry>, f: Effect): Option<Entry> {
    if es == [] then None
    else if f in es[|es| - 1].effects then Some(es[|es| - 1])
    else InForce(es[..|es| - 1], f)
  }

  /** All four settings. */
  datatype Settings = Settings(pitch: Option<Entry>, rate: Option<Entry>, volume: Option<Entry>,
                               voiceParams: Option<Entry>)

  function Force(es: seq<Entry>): Settings {
    Settings(InForce(es, Pitch), InForce(es, Rate), InForce(es, Volume), InForce(es, VoiceParams))
  }

  function With(s: Settings, e: Entry): Settings {
    Settings(if Pitch in e.effects then Some(e) else s.pitch, if Rate in e.effects then Some(e) else s.rate,
             if Volume in e.effects then Some(e) else s.volume,
             if VoiceParams in e.effects then Some(e) else s.voiceParams)
  }

  lemma ForceAppend(es: seq<Entry>, e: Entry)
    ensures Force(es + [e]) == With(Force(es), e)
  {
  }

  lemma {:induction false} InForceIsEntry(es: seq<Entry>, f: Effect)
    ensures InForce(es, f).Some? ==> InForce(es, f).value in es && f in InForce(es, f).value.effects
    ensures InForce(es, f).None? ==> forall e <- es :: f !in e.effects
  {
    if es != [] {
      InForceIsEntry(es[..|es| - 1], f);
      assert es == es[..|es| - 1] + [es[|es| - 1]];
    }
  }

  lemma {:induction false} FilterIs(es: seq<Entry>, keep: Entry -> bool)
    ensures forall e :: e in Filter(es, keep) <==> e in es && keep(e)
  {
    if es != [] {
      FilterIs(es[..|es| - 1], keep);
      assert es == es[..|es| - 1] + [es[|es| - 1]];
    }
  }

  /** If whatever decides `f` is kept, it still does. */
  lemma {:induction false} FilterKeepsDecider(es: seq<Entry>, keep: Entry -> bool, f: Effect)
    requires InForce(es, f).Some? ==> keep(InForce(es, f).value)
    ensures InForce(Filter(es, keep), f) == InForce(es, f)
  {
    if es != [] {
      var front, last := es[..|es| - 1], es[|es| - 1];
      if f in last.effects {
        assert (Filter(front, keep) + [last])[|Filter(front, keep)|] == last;
      } else {
        FilterKeepsDecider(front, keep, f);
        assert (Filter(front, keep) + [last])[..|Filter(front, keep)|] == Filter(front, keep);
        assert Filter(front, keep) + [] == Filter(front, keep);
      }
    }
  }

  /** Noting a tag gives it its settings and leaves every other setting as it was, although entries
      that no longer decide anything are dropped. */
  lemma NoteMeaning(es: seq<Entry>, effects: set<Effect>, tag: string)
    requires effects != {} && tag != ""
    ensures Force(Noted(es, effects, tag)) == With(Force(es), Entry(effects, tag))
  {
    ForceAppend(Forgotten(es, effects), Entry(effects, tag));
    forall f | f !in effects ensures InForce(Forgotten(es, effects), f) == InForce(es, f) {
      ForgetKeepsOthers(es, effects, f);
    }
  }

  lemma ForgetKeepsOthers(es: seq<Entry>, gone: set<Effect>, f: Effect)
    requires f !in gone
    ensures InForce(Forgotten(es, gone), f) == InForce(es, f)
  {
    InForceIsEntry(es, f);
    if InForce(es, f).Some? {
      assert f in InForce(es, f).value.effects - gone;
    }
    FilterKeepsDecider(es, (e: Entry) => e.effects - gone != {}, f);
  }

  function NotedAll(tags: seq<Entry>): seq<Entry> {
    if tags == [] then []
    else Noted(NotedAll(tags[..|tags| - 1]), tags[|tags| - 1].effects, tags[|tags| - 1].tag)
  }

  /** Restating the carried tags after a fresh prologue gives the settings that obeying every tag so
      far gives. */
  lemma {:induction false} RestatingIsReplaying(tags: seq<Entry>)
    requires forall t <- tags :: t.tag != ""
    ensures Force(NotedAll(tags)) == Force(tags)
  {
    if tags != [] {
      var front, last := tags[..|tags| - 1], tags[|tags| - 1];
      assert tags == front + [last];
      RestatingIsReplaying(front);
      ForceAppend(front, last);
      if last.effects != {} {
        NoteMeaning(NotedAll(front), last.effects, last.tag);
      }
    }
  }

  /** After a change of prosody no carried tag touches what changed. A setting that did not change is
      still decided as it was exactly when the tag that decides it touches nothing that changed. */
  lemma YieldMeaning(es: seq<Entry>, changed: set<Effect>, f: Effect)
    ensures forall e <- Yielded(es, changed) :: e.effects * changed == {}
    ensures f in changed ==> InForce(Yielded(es, changed), f) == None
    ensures InForce(Yielded(es, changed), f) == InForce(es, f) <==>
            (InForce(es, f).Some? ==> InForce(es, f).value.effects * changed == {})
  {
    var keep := (e: Entry) => e.effects * changed == {};
    FilterIs(es, keep);
    InForceIsEntry(Yielded(es, changed), f);
    forall e <- Yielded(es, changed) ensures f in changed ==> f !in e.effects {
      assert f in e.effects * changed <==> f in e.effects && f in changed;
    }
    if InForce(es, f).Some? ==> keep(InForce(es, f).value) {
      FilterKeepsDecider(es, keep, f);
    }
  }

  /** After a change of voice every other setting is decided as it was; a forgotten one is left to the
      prologue exactly when no carried tag that sets it also sets something that is kept. */
  lemma ForgetMeaning(es: seq<Entry>, gone: set<Effect>, f: Effect)
    ensures f !in gone ==> InForce(Forgotten(es, gone), f) == InForce(es, f)
    ensures f in gone ==> (InForce(Forgotten(es, gone), f) == None <==>
                           forall e <- es :: f in e.effects ==> e.effects <= gone)
  {
    if f !in gone {
      ForgetKeepsOthers(es, gone, f);
    } else {
      FilterIs(es, (e: Entry) => e.effects - gone != {});
      InForceIsEntry(Forgotten(es, gone), f);
      if forall e <- es :: f in e.effects ==> e.effects <= gone {
        assert forall e <- Forgotten(es, gone) :: e in es;
      } else {
        var e :| e in es && f in e.effects && !(e.effects <= gone);
        var other :| other in e.effects && other !in gone;
        assert other in e.effects - gone;
        assert e in Forgotten(es, gone);
      }
    }
  }

  /** The one tag that does several things at once: after a change of voice it still decides the pitch,
      which was to be forgotten, and after a change of pitch it no longer decides the rate, which did not
      change. */
  lemma RestoreStraddles()
    ensures var rst := Entry({Pitch, Rate, VoiceParams}, "\\rst\\");
            && InForce(Forgotten([rst], {Pitch, VoiceParams}), Pitch) == Some(rst)
            && InForce([rst], Rate) == Some(rst) && InForce(Yielded([rst], {Pitch}), Rate) == None
  {
    var rst := Entry({Pitch, Rate, VoiceParams}, "\\rst\\");
    assert [rst][..0] == [];
    assert Rate in rst.effects - {Pitch, VoiceParams} && Pitch in rst.effects * {Pitch};
    ForgetMeaning([rst], {Pitch, VoiceParams}, Pitch);
    assert Forgotten([rst], {Pitch, VoiceParams}) == Forgotten([], {Pitch, VoiceParams}) + [rst] == [rst];
    assert Yielded([rst], {Pitch}) == Yielded([], {Pitch}) + [] == [];
  }

  /** No entry is made pointless by a later one; in particular no two have the same effects. */
  ghost predicate Irredundant(es: seq<Entry>) {
    && (forall e <- es :: e.effects != {})
    && (forall i, j | 0 <= i < j < |es| :: !(es[i].effects <= es[j].effects))
  }

  lemma {:induction false} FilterIrredundant(es: seq<Entry>, keep: Entry -> bool)
    requires Irredundant(es)
    ensures Irredundant(Filter(es, keep))
  {
    if es != [] {
      var front := es[..|es| - 1];
      FilterIrredundant(front, keep);
      FilterIs(front, keep);
      forall i | 0 <= i < |Filter(front, keep)| ensures !(Filter(front, keep)[i].effects <= es[|es| - 1].effects) {
        assert Filter(front, keep)[i] in front;
      }
    }
  }

  /** Kept by every operation on the list. */
  lemma StaysIrredundant(es: seq<Entry>, effects: set<Effect>, tag: string)
    requires Irredundant(es)
    ensures Irredundant(Forgotten(es, effects)) && Irredundant(Yielded(es, effects))
    ensures Irredundant(Noted(es, effects, tag))
  {
    FilterIrredundant(es, (e: Entry) => e.effects - effects != {});
    FilterIrredundant(es, (e: Entry) => e.effects * effects == {});
    FilterIs(es, (e: Entry) => e.effects - effects != {});
    var kept := Forgotten(es, effects);
    forall i | 0 <= i < |kept| ensures !(kept[i].effects <= effects) {
      assert kept[i] in kept;
    }
  }

  lemma {:induction false} YieldNothing(es: seq<Entry>)
    ensures Yielded(es, {}) == es
  {
    if es != [] {
      YieldNothing(es[..|es| - 1]);
      assert es == es[..|es| - 1] + [es[|es| - 1]];
    }
  }

  function EntryItems(es: seq<Entry>): seq<Item> {
    seq(|es|, i requires 0 <= i < |es| => Tag(es[i].tag, es[i].effects))
  }

  class Carried {
    var entries: seq<Entry>

    constructor ()
      ensures entries == []
    {
      entries := [];
    }

    method KeepIf(keep: Entry -> bool)
      modifies this
      ensures entries == Filter(old(entries), keep)
    {
      var kept: seq<Entry> := [];
      assert entries[..0] == [];
      for i := 0 to |entries|
        invariant kept == Filter(entries[..i], keep) && entries == old(entries)
      {
        assert entries[..i + 1][..i] == entries[..i];
        if keep(entries[i]) {
          kept := kept + [entries[i]];
        }
      }
      assert entries[..|entries|] == entries;
      entries := kept;
    }

    method Forget(effects: set<Effect>)
      modifies this
      ensures entries == Forgotten(old(entries), effects)
    {
      KeepIf((e: Entry) => e.effects - effects != {});
    }

    method YieldTo(changed: set<Effect>)
      modifies this
      ensures entries == Yielded(old(entries), changed)
    {
      KeepIf((e: Entry) => e.effects * changed == {});
    }

    method Note(effects: set<Effect>, tag: string)
      modifies this
      ensures entries == Noted(old(entries), effects, tag)
    {
      if effects == {} || tag == "" {
        return;
      }
      Forget(effects);
      entries := entries + [Entry(effects, tag)];
    }

    method Tags() returns (all: string)
      ensures all == Encode(EntryItems(entries))
    {
      all := "";
      for i := 0 to |entries|
        invariant all == Encode(EntryItems(entries[..i]))
      {
        var item := Tag(entries[i].tag, entries[i].effects);
        assert EntryItems(entries[..i + 1]) == EntryItems(entries[..i]) + [item];
        EncodeConcat(EntryItems(entries[..i]), [item]);
        EncodeOne(item);
        all := all + entries[i].tag;
      }
      assert entries[..|entries|] == entries;
    }
  }
}
