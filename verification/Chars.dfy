/** Character classes and names, as the tag readers see them. */
module Chars {

  function Lower(c: char): char {
    if 'A' <= c <= 'Z' then (c as int + 32) as char else c
  }

  function Lowered(s: string): (r: string)
    ensures |r| == |s|
  {
    seq(|s|, i requires 0 <= i < |s| => Lower(s[i]))
  }

  /** Equal without regard to case. */
  predicate SameName(a: string, b: string) {
    Lowered(a) == Lowered(b)
  }

  predicate Blank(c: char) {
    c == ' ' || '\t' <= c <= '\r'
  }

  /** White space: a space, a tab, and the four that end a line or a page. */
  lemma BlankIs(c: char)
    ensures Blank(c) <==> c in {' ', '\t', '\n', '\U{000B}', '\U{000C}', '\r'}
  {
  }

  predicate Digit(c: char) { '0' <= c <= '9' }

  /** The first position from `i` on that holds one of `stops`, or the end of the text. */
  function Until(text: string, i: nat, stops: set<char>): (j: nat)
    requires i <= |text|
    ensures i <= j <= |text| && (j < |text| ==> text[j] in stops)
    ensures forall k | i <= k < j :: text[k] !in stops
    decreases |text| - i
  {
    if i == |text| || text[i] in stops then i else Until(text, i + 1, stops)
  }

  /** The first position from `i` on that holds something other than white space. */
  function PastBlanks(text: string, i: nat): (j: nat)
    requires i <= |text|
    ensures i <= j <= |text| && (j < |text| ==> !Blank(text[j]))
    ensures forall k | i <= k < j :: Blank(text[k])
    decreases |text| - i
  {
    if i == |text| || !Blank(text[i]) then i else PastBlanks(text, i + 1)
  }

  function TrimEnd(text: string): (r: string)
    ensures r <= text && (r != [] ==> !Blank(r[|r| - 1]))
  {
    if text == [] || !Blank(text[|text| - 1]) then text else TrimEnd(text[..|text| - 1])
  }

  function Trimmed(text: string): string {
    TrimEnd(text[PastBlanks(text, 0)..])
  }

  lemma {:induction false} UntilIs(text: string, i: nat, stops: set<char>, j: nat)
    requires i <= j <= |text| && (j < |text| ==> text[j] in stops)
    requires forall k | i <= k < j :: text[k] !in stops
    ensures Until(text, i, stops) == j
    decreases j - i
  {
  }

  predicate AllBlank(text: string) { forall k | 0 <= k < |text| :: Blank(text[k]) }

  /** Blanks are skipped up to what is not one. */
  lemma BlanksPassed(text: string, i: nat, blanks: string)
    requires i + |blanks| <= |text| && text[i..i + |blanks|] == blanks && AllBlank(blanks)
    requires i + |blanks| < |text| ==> !Blank(text[i + |blanks|])
    ensures PastBlanks(text, i) == i + |blanks|
  {
    hide Blank;
    forall k | i <= k < i + |blanks| ensures Blank(text[k]) {
      assert text[i..i + |blanks|][k - i] == text[k];
    }
  }

  /** The number a string of digits spells. */
  function NumberOf(text: string): (n: nat)
    requires forall i | 0 <= i < |text| :: Digit(text[i])
  {
    if text == [] then 0
    else assert Digit(text[|text| - 1]); NumberOf(text[..|text| - 1]) * 10 + (text[|text| - 1] as int - '0' as int)
  }

  /** `n` in decimal, as %u and %d print it. */
  function Dec(n: nat): (s: string)
    ensures |s| > 0 && forall i | 0 <= i < |s| :: Digit(s[i])
  {
    if n < 10 then [('0' as int + n) as char] else Dec(n / 10) + [('0' as int + n % 10) as char]
  }

  lemma {:induction false} NumberOfDec(n: nat)
    ensures NumberOf(Dec(n)) == n
  {
    var s := Dec(n);
    if n < 10 {
      assert s[..0] == "";
    } else {
      NumberOfDec(n / 10);
      assert s[..|s| - 1] == Dec(n / 10);
    }
  }

  lemma {:induction false} DecLength(n: nat, k: nat)
    requires n < Power10(k) && k > 0
    ensures |Dec(n)| <= k
  {
    if n >= 10 {
      DecLength(n / 10, k - 1);
    }
  }

  function Power10(k: nat): nat { if k == 0 then 1 else 10 * Power10(k - 1) }
}
