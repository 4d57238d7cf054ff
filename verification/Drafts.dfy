/** The runs a plan is going to have, item by item: what Speak's planning comes to when nothing is
    spelt yet. */
module Drafts {
  import opened Wrappers
  import opened Seqs
  import opened Tags
  import opened Runs
  import opened Words
  import opened CarriedTags
  import opened Plan

  /** The items of every action planned, none for silences and phonemes; whether a piece is open, what
      is in it, and the prosody it was opened with. */
  datatype Draft = Draft(runs: seq<seq<Item>>, open: bool, items: seq<Item>, prosody: Prosody)

  const BLANK: Draft := Draft([], false, [], Prosody(0, 0, 0))

  function Closed(d: Draft): Draft {
    Draft(if d.open && d.items != [] then d.runs + [d.items] else d.runs, false, [], Prosody(0, 0, 0))
  }

  /** A silence, or phonemes, which no piece runs across. */
  function Interrupted(d: Draft): Draft {
    var e := Closed(d);
    e.(runs := e.runs + [[]])
  }

  function Parted(d: Draft, p: Prosody): Draft { if d.open && d.prosody != p then Closed(d) else d }

  function Opened(i: Intent, d: Draft, p: Prosody): Draft {
    if d.open then d else Draft(d.runs, true, EntryItems(Turn(i, p).entries), p)
  }

  function WithItems(d: Draft, more: seq<Item>): (e: Draft)
    ensures e.runs == d.runs && e.open == d.open && e.prosody == d.prosody
  {
    d.(items := d.items + more)
  }

  function ItemsPut(i: Intent, d: Draft, more: seq<Item>, p: Prosody): Draft { WithItems(Opened(i, d, p), more) }

  function VoiceTaken(c: Config, i: Intent, d: Draft, v: VoiceRequest): Draft {
    var chosen := Chosen(c, v, i.voice);
    if chosen == "" || Chars.SameName(chosen, i.voice) then d else Closed(d)
  }

  function TokenPut(c: Config, i: Intent, d: Draft, f: Fragment, t: Token): Draft
    requires t.begin + t.length <= |f.text|
  {
    var p := ProsodyOf(c, f);
    match t.kind
    case Text =>
      ItemsPut(i, d, TextItems(f.text[t.begin..t.begin + t.length], f.offset + t.begin, c.collapse, false), p)
    case Engine => ItemsPut(i, d, [Item.Tag(t.tag, t.effects)], p)
    case Voice =>
      var e := VoiceTaken(c, i, d, t.voice);
      if t.tag == "" then e else ItemsPut(TakeVoice(c, i, t.voice), e, [Item.Tag(t.tag, t.effects)], p)
    case Bookmark => ItemsPut(i, d, [Mark(|i.names| + 1)], p)
    case Pause => Interrupted(d)
  }

  function TokensPut(c: Config, i: Intent, d: Draft, f: Fragment, ts: seq<Token>): Draft
    requires forall k | 0 <= k < |ts| :: ts[k].begin + ts[k].length <= |f.text|
    decreases |ts|
  {
    if ts == [] then d else TokensPut(c, SayToken(c, i, f, ts[0]), TokenPut(c, i, d, f, ts[0]), f, ts[1..])
  }

  function FragmentPut(c: Config, i: Intent, d: Draft, f: Fragment): Draft {
    var p := ProsodyOf(c, f);
    match f.act
    case Silence => Interrupted(d)
    case Pronounce => if f.text == "" then Closed(d) else Interrupted(d)
    case Bookmark => ItemsPut(i, Parted(d, p), [Mark(|i.names| + 1)], p)
    case Other => d
    case Speak =>
      if f.text == "" then d
      else if !c.controlTags then ItemsPut(i, Parted(d, p), TextItems(f.text, f.offset, c.collapse, false), p)
      else
        ScanFits(f.text);
        TokensPut(c, i, Parted(d, p), f, Scan(f.text))
    case SpellOut => if f.text == "" then d else ItemsPut(i, Parted(d, p), Spelled(f.text, f.offset), p)
  }

  function AllPut(c: Config, i: Intent, d: Draft, fs: seq<Fragment>): Draft
    decreases |fs|
  {
    if fs == [] then d else AllPut(c, SayFragment(c, i, fs[0]), FragmentPut(c, i, d, fs[0]), fs[1..])
  }

  /** The items of the plan made of `fs`. */
  function RunsOf(c: Config, i: Intent, fs: seq<Fragment>): seq<seq<Item>> {
    Closed(AllPut(c, i, BLANK, fs)).runs
  }

  lemma SpelledPut(d: Draft, text: string, offset: nat)
    requires text != ""
    ensures var e := WithItems(WithItems(d, TextItems(text[..1], offset, false, false)), [Ch(' ', NotFromSource)]);
            WithItems(e, Spelled(text[1..], offset + 1)) == WithItems(d, Spelled(text, offset))
  {
    hide TextItems;
    var first, rest := TextItems(text[..1], offset, false, false), Spelled(text[1..], offset + 1);
    Assoc(d.items, first, [Ch(' ', NotFromSource)]);
    Assoc(d.items, first + [Ch(' ', NotFromSource)], rest);
  }

  lemma NothingPut(d: Draft)
    ensures WithItems(d, []) == d
  {
    assert d.items + [] == d.items;
  }
}
