/** Facts about sequences that proofs elsewhere name instead of rediscovering. */
module Seqs {

  function Flatten<T>(parts: seq<seq<T>>): seq<T> {
    if parts == [] then [] else parts[0] + Flatten(parts[1..])
  }

  lemma Assoc<T>(a: seq<T>, b: seq<T>, c: seq<T>)
    ensures a + b + c == a + (b + c)
  {
  }

  lemma SliceLeft<T>(x: seq<T>, y: seq<T>, k: nat)
    requires k <= |x|
    ensures (x + y)[..k] == x[..k]
    ensures (x + y)[k..] == x[k..] + y
  {
  }

  lemma SliceRight<T>(x: seq<T>, y: seq<T>, k: nat)
    requires k <= |y|
    ensures (x + y)[..|x| + k] == x + y[..k]
    ensures (x + y)[|x| + k..] == y[k..]
  {
  }

  lemma Split<T>(x: seq<T>, k: nat)
    requires k <= |x|
    ensures x[..k] + x[k..] == x
  {
  }

  /** One more stretch of a sequence. */
  lemma Stretch<T>(x: seq<T>, p: nat, most: nat, n: nat)
    requires n <= most && p + most <= |x|
    ensures x[p..p + most][..n] == x[p..p + n]
    ensures x[..p] + x[p..p + n] == x[..p + n]
  {
  }

  lemma {:induction false} FlattenConcat<T>(a: seq<seq<T>>, b: seq<seq<T>>)
    ensures Flatten(a + b) == Flatten(a) + Flatten(b)
  {
    if a == [] {
      assert a + b == b;
    } else {
      assert (a + b)[1..] == a[1..] + b;
      FlattenConcat(a[1..], b);
    }
  }
}
