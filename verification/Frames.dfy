/** Frames on the pipe between client and worker: a type and a size, four bytes each, and a payload. */
module Frames {
  import opened Pcm
  import opened Seqs

  const LIMIT: nat := 0x1_0000_0000

  datatype Frame = Frame(kind: nat, payload: seq<byte>)
  {
    predicate Fits() { kind < LIMIT && |payload| < LIMIT }
  }

  function Word(n: nat): (b: seq<byte>)
    requires n < LIMIT
    ensures |b| == 4
  {
    [(n % 0x100) as byte, (n / 0x100 % 0x100) as byte, (n / 0x1_0000 % 0x100) as byte, (n / 0x100_0000) as byte]
  }

  function NumberIn(b: seq<byte>): (n: nat)
    requires |b| == 4
    ensures n < LIMIT
  {
    b[0] as nat + 0x100 * b[1] as nat + 0x1_0000 * b[2] as nat + 0x100_0000 * b[3] as nat
  }

  lemma WordReadsBack(n: nat)
    requires n < LIMIT
    ensures NumberIn(Word(n)) == n
  {
    var a := n / 0x100;
    var b := a / 0x100;
    var c := b / 0x100;
    assert n / 0x1_0000 == b && n / 0x100_0000 == c;
    assert n == 0x100 * a + n % 0x100 && a == 0x100 * b + a % 0x100 && b == 0x100 * c + b % 0x100;
  }

  lemma NumberSpellsBack(b: seq<byte>)
    requires |b| == 4
    ensures Word(NumberIn(b)) == b
  {
    hide Word, NumberIn;
    BytesOf(b[0] as nat, b[1] as nat, b[2] as nat, b[3] as nat);
    WordOf(b);
    assert b == [b[0], b[1], b[2], b[3]];
  }

  lemma BytesOf(p: nat, q: nat, r: nat, s: nat)
    requires p < 0x100 && q < 0x100 && r < 0x100 && s < 0x100
    ensures var n := p + 0x100 * q + 0x1_0000 * r + 0x100_0000 * s;
            n % 0x100 == p && n / 0x100 % 0x100 == q && n / 0x1_0000 % 0x100 == r && n / 0x100_0000 == s
  {
    var n := p + 0x100 * q + 0x1_0000 * r + 0x100_0000 * s;
    assert n / 0x1_0000 == r + 0x100 * s;
    assert n / 0x100 == q + 0x100 * (r + 0x100 * s);
  }

  lemma WordOf(b: seq<byte>)
    requires |b| == 4
    ensures var n := b[0] as nat + 0x100 * b[1] as nat + 0x1_0000 * b[2] as nat + 0x100_0000 * b[3] as nat;
            && NumberIn(b) == n < LIMIT
            && Word(n) == [(n % 0x100) as byte, (n / 0x100 % 0x100) as byte, (n / 0x1_0000 % 0x100) as byte,
                           (n / 0x100_0000) as byte]
  {
  }

  function Header(f: Frame): (h: seq<byte>)
    requires f.Fits()
    ensures |h| == 8
  {
    Word(f.kind) + Word(|f.payload|)
  }

  function Spell(f: Frame): (s: seq<byte>)
    requires f.Fits()
    ensures |s| == 8 + |f.payload|
  {
    Header(f) + f.payload
  }

  datatype Reading = Whole(frame: Frame, rest: seq<byte>) | Short

  /** The frame a stream begins with, or Short when the stream ends inside it. */
  function ReadOne(s: seq<byte>): (r: Reading)
    ensures r.Whole? ==> |r.rest| + 8 <= |s| && r.frame.Fits()
  {
    if |s| < 8 then Short
    else
      var size := NumberIn(s[4..8]);
      if |s| < 8 + size then Short
      else Whole(Frame(NumberIn(s[..4]), s[8..8 + size]), s[8 + size..])
  }

  /** A frame reads back as itself and leaves what follows it ... */
  lemma ReadsBack(f: Frame, rest: seq<byte>)
    requires f.Fits()
    ensures ReadOne(Spell(f) + rest) == Whole(f, rest)
  {
    hide Word, NumberIn;
    var s := Spell(f) + rest;
    WordReadsBack(f.kind);
    WordReadsBack(|f.payload|);
    assert s[..4] == Word(f.kind) && s[4..8] == Word(|f.payload|);
    assert s[8..8 + |f.payload|] == f.payload;
    assert s[8 + |f.payload|..] == rest;
  }

  /** ... and nothing reads as a frame but its own spelling. */
  lemma ReadsOnlySpellings(s: seq<byte>)
    requires ReadOne(s).Whole?
    ensures s == Spell(ReadOne(s).frame) + ReadOne(s).rest
  {
    hide Word, NumberIn;
    var f := ReadOne(s).frame;
    NumberSpellsBack(s[..4]);
    NumberSpellsBack(s[4..8]);
    Split(s, 4);
    Split(s[4..], 4);
    assert s[4..][..4] == s[4..8] && s[4..][4..] == s[8..];
    Split(s[8..], |f.payload|);
  }

  /** On the pipe: the kind, then the payload's length, four bytes each with the lowest first, then the
      payload. */
  lemma OnThePipe(f: Frame)
    requires f.Fits()
    ensures var s := Spell(f);
            && s[0] as nat + 0x100 * s[1] as nat + 0x1_0000 * s[2] as nat + 0x100_0000 * s[3] as nat == f.kind
            && s[4] as nat + 0x100 * s[5] as nat + 0x1_0000 * s[6] as nat + 0x100_0000 * s[7] as nat == |f.payload|
            && s[8..] == f.payload
  {
    hide Word;
    WordReadsBack(f.kind);
    WordReadsBack(|f.payload|);
    assert Spell(f)[..4] == Word(f.kind) && Spell(f)[4..8] == Word(|f.payload|);
  }

  lemma ReadsNothingShort(f: Frame, n: nat)
    requires f.Fits() && n < |Spell(f)|
    ensures ReadOne(Spell(f)[..n]) == Short
  {
    hide Word, NumberIn;
    var s := Spell(f)[..n];
    WordReadsBack(|f.payload|);
    if n >= 8 {
      assert s[4..8] == Word(|f.payload|);
    }
  }

  // ------------------------------------------------------------------------------------------
  // The answer to a request
  // ------------------------------------------------------------------------------------------

  const FORMAT_KIND: nat := 103
  const AUDIO_KIND: nat := 104
  const EVENT_KIND: nat := 105
  const DONE_KIND: nat := 106
  const ERROR_KIND: nat := 107

  datatype Ending = Finished(payload: seq<byte>) | Refused | Died

  /** The frames before the one that ends the answer, how it ended, and what is still on the pipe. */
  datatype Answer = Answer(frames: seq<Frame>, ending: Ending, rest: seq<byte>)

  function AnswerIn(s: seq<byte>): Answer
    decreases |s|
  {
    match ReadOne(s)
    case Short => Answer([], Died, [])
    case Whole(f, rest) =>
      if f.kind == DONE_KIND then Answer([], Finished(f.payload), rest)
      else if f.kind == ERROR_KIND then Answer([], Refused, rest)
      else
        var later := AnswerIn(rest);
        later.(frames := [f] + later.frames)
  }

  predicate Middle(fs: seq<Frame>) {
    forall i | 0 <= i < |fs| :: fs[i].Fits() && fs[i].kind != DONE_KIND && fs[i].kind != ERROR_KIND
  }

  function SpellAll(fs: seq<Frame>): seq<byte>
    requires Middle(fs)
  {
    if fs == [] then [] else Spell(fs[0]) + SpellAll(fs[1..])
  }

  /** What the worker writes for one request comes back as one answer, and the next answer begins right
      after it. */
  lemma {:induction false} AnswerReadsBack(fs: seq<Frame>, last: Frame, more: seq<byte>)
    requires Middle(fs) && last.Fits() && last.kind in {106, 107}
    ensures AnswerIn(SpellAll(fs) + Spell(last) + more)
         == Answer(fs, if last.kind == 106 then Finished(last.payload) else Refused, more)
  {
    hide ReadOne, Spell;
    if fs == [] {
      assert SpellAll(fs) + Spell(last) + more == Spell(last) + more;
      ReadsBack(last, more);
    } else {
      var later := SpellAll(fs[1..]) + Spell(last) + more;
      assert SpellAll(fs) + Spell(last) + more == Spell(fs[0]) + later;
      ReadsBack(fs[0], later);
      AnswerReadsBack(fs[1..], last, more);
    }
  }

  /** A connection lost anywhere inside it is seen as lost, and what was read before is what was sent. */
  lemma {:induction false} CutAnswerDied(fs: seq<Frame>, last: Frame, n: nat)
    requires Middle(fs) && last.Fits() && last.kind in {106, 107}
    requires n < |SpellAll(fs) + Spell(last)|
    ensures var a := AnswerIn((SpellAll(fs) + Spell(last))[..n]);
            a.ending == Died && a.rest == [] && a.frames <= fs
  {
    hide ReadOne, Spell;
    var all := SpellAll(fs) + Spell(last);
    if fs == [] {
      assert all == Spell(last);
      ReadsNothingShort(last, n);
    } else {
      var first, later := Spell(fs[0]), SpellAll(fs[1..]) + Spell(last);
      Assoc(first, SpellAll(fs[1..]), Spell(last));
      if n < |first| {
        SliceLeft(first, later, n);
        ReadsNothingShort(fs[0], n);
      } else {
        SliceRight(first, later, n - |first|);
        ReadsBack(fs[0], later[..n - |first|]);
        CutAnswerDied(fs[1..], last, n - |first|);
      }
    }
  }
}
