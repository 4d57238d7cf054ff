/** The engine module's import table, and the log that puts it back. */
module Redirects {
  import opened Seqs

  /** One slot that was overwritten, and what it held. */
  datatype Patched = Patched(slot: nat, original: nat)

  /** The log undone, newest first. */
  function Undone(slots: map<nat, nat>, log: seq<Patched>): map<nat, nat>
    decreases |log|
  {
    if log == [] then slots
    else
      var last := log[|log| - 1];
      Undone(slots[last.slot := last.original], log[..|log| - 1])
  }

  /** What a slot that held `held` holds once every redirection has been made. */
  function Redirected(held: nat, redirects: seq<(nat, nat)>, slot: nat): nat
    decreases |redirects|
  {
    if redirects == [] then held
    else
      var n := |redirects| - 1;
      if redirects[n].0 == slot then redirects[n].1 else Redirected(held, redirects[..n], slot)
  }

  /** A slot's own log alone decides what it is put back to. */
  lemma {:induction false} UndoneAt(a: map<nat, nat>, b: map<nat, nat>, log: seq<Patched>, slot: nat)
    requires slot in a && slot in b && a[slot] == b[slot]
    ensures slot in Undone(a, log) && slot in Undone(b, log) && Undone(a, log)[slot] == Undone(b, log)[slot]
    decreases |log|
  {
    if log != [] {
      var last := log[|log| - 1];
      UndoneAt(a[last.slot := last.original], b[last.slot := last.original], log[..|log| - 1], slot);
    }
  }

  class ImportTable {
    var slots: map<nat, nat>
    var patched: seq<Patched>
    var installed: bool

    ghost predicate Valid()
      reads this
    {
      forall p <- patched :: p.slot in slots
    }

    /** What the table would be again if everything were undone. */
    ghost function Before(): map<nat, nat>
      reads this
    {
      Undone(slots, patched)
    }

    constructor (slots: map<nat, nat>)
      ensures this.slots == slots && Before() == slots && !installed && Valid()
    {
      this.slots, patched, installed := slots, [], false;
    }

    method Patch(slot: nat, replacement: nat)
      requires Valid() && slot in slots
      modifies this`slots, this`patched
      ensures Valid() && slots == old(slots)[slot := replacement] && Before() == old(Before())
    {
      patched := patched + [Patched(slot, slots[slot])];
      slots := slots[slot := replacement];
      assert patched[..|patched| - 1] == old(patched);
      assert slots[slot := old(slots)[slot]] == old(slots);
    }

    /** install: every import that is there and can be written is redirected, in order; all of them, or
        the caller is told. However often it is done, what the table was stays on record. `sealed` are
        the slots the system does not let be written this time. */
    method Install(redirects: seq<(nat, nat)>, sealed: set<nat>) returns (all: bool)
      requires Valid()
      modifies this
      ensures Valid() && installed == all && slots.Keys == old(slots).Keys && Before() == old(Before())
      ensures all <==> forall i | 0 <= i < |redirects| :: redirects[i].0 in old(slots) && redirects[i].0 !in sealed
      ensures forall s <- slots ::
                slots[s] == if s in sealed then old(slots)[s] else Redirected(old(slots)[s], redirects, s)
    {
      all := true;
      for i := 0 to |redirects|
        invariant Valid() && slots.Keys == old(slots).Keys && Before() == old(Before())
        invariant all <==> forall k | 0 <= k < i :: redirects[k].0 in old(slots) && redirects[k].0 !in sealed
        invariant forall s <- slots ::
                    slots[s] == if s in sealed then old(slots)[s] else Redirected(old(slots)[s], redirects[..i], s)
      {
        assert redirects[..i + 1][..i] == redirects[..i];
        if redirects[i].0 in slots && redirects[i].0 !in sealed {
          Patch(redirects[i].0, redirects[i].1);
        } else {
          all := false;
        }
      }
      installed := all;
      assert redirects[..|redirects|] == redirects;
    }

    /** uninstall: newest first, so a slot redirected twice ends with what it held at first. A slot that
        cannot be written keeps what it holds, and is forgotten. */
    method Uninstall(sealed: set<nat>)
      requires Valid()
      modifies this
      ensures Valid() && patched == [] && !installed && slots.Keys == old(slots).Keys
      ensures forall s <- slots ::
                s in old(Before()) && slots[s] == if s in sealed then old(slots)[s] else old(Before())[s]
    {
      var n := |patched|;
      assert patched[..n] == patched;
      forall s <- slots ensures s in Before() {
        UndoneAt(slots, slots, patched, s);
      }
      while n > 0
        invariant 0 <= n <= |patched| && patched == old(patched) && slots.Keys == old(slots).Keys
        invariant forall s <- slots | s in sealed :: slots[s] == old(slots)[s]
        invariant forall s <- slots | s !in sealed ::
                    s in Undone(slots, patched[..n]) && Undone(slots, patched[..n])[s] == old(Before())[s]
      {
        n := n - 1;
        var last := patched[n];
        assert patched[..n + 1][..n] == patched[..n] && last in patched;
        if last.slot !in sealed {
          slots := slots[last.slot := last.original];
        } else {
          forall s <- slots | s !in sealed ensures s in Undone(slots, patched[..n])
            ensures Undone(slots, patched[..n])[s] == Undone(slots, patched[..n + 1])[s]
          {
            UndoneAt(slots, slots[last.slot := last.original], patched[..n], s);
          }
        }
      }
      patched, installed := [], false;
    }
  }
}
