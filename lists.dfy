/** The in-memory record list every script loads, grows and writes back:
    `words.append(w)` and `words.extend(new)` change it in place, while
    `existing + new` builds a fresh list. Also the concatenation of group
    tables that the nested generation loops walk through. */
module Lists {
  import opened Stats

  /** A Python list of records that is mutated in place. */
  class RecordList<R> {
    var items: seq<R>

    constructor (loaded: seq<R>)
      ensures items == loaded
    {
      items := loaded;
    }

    /** `list.append(r)`. */
    method Append(r: R)
      modifies this
      ensures items == old(items) + [r]
    {
      items := items + [r];
    }

    /** `list.extend(rs)`. */
    method Extend(rs: seq<R>)
      modifies this
      ensures items == old(items) + rs
    {
      items := items + rs;
    }
  }

  /** `existing + added`: the existing records, unchanged and in order, then
      the added ones in the order they were built. */
  function Merge<R>(existing: seq<R>, added: seq<R>): (all: seq<R>)
    ensures |all| == |existing| + |added|
    ensures all[..|existing|] == existing && all[|existing|..] == added
  {
    existing + added
  }

  /** The groups' entries one after another: group order, then table order. */
  function Flatten<T>(gs: seq<seq<T>>): seq<T> {
    if gs == [] then [] else Flatten(gs[..|gs| - 1]) + gs[|gs| - 1]
  }

  function Lengths<T>(gs: seq<seq<T>>): (ns: seq<nat>)
    ensures |ns| == |gs| && forall i :: 0 <= i < |gs| ==> ns[i] == |gs[i]|
  {
    seq(|gs|, i requires 0 <= i < |gs| => |gs[i]|)
  }

  lemma FlattenSnoc<T>(gs: seq<seq<T>>, g: nat)
    requires g < |gs|
    ensures Flatten(gs[..g + 1]) == Flatten(gs[..g]) + gs[g]
  {
    assert gs[..g + 1][..g] == gs[..g];
  }

  lemma {:induction false} FlattenAppend<T>(a: seq<seq<T>>, b: seq<seq<T>>)
    ensures Flatten(a + b) == Flatten(a) + Flatten(b)
  {
    if b == [] {
      assert a + b == a;
    } else {
      assert (a + b)[..|a + b| - 1] == a + b[..|b| - 1];
      FlattenAppend(a, b[..|b| - 1]);
    }
  }

  /** As many entries as the group sizes add up to. */
  lemma {:induction false} FlattenLength<T>(gs: seq<seq<T>>)
    ensures |Flatten(gs)| == Sum(Lengths(gs))
  {
    if gs != [] {
      FlattenLength(gs[..|gs| - 1]);
      assert Lengths(gs)[..|gs| - 1] == Lengths(gs[..|gs| - 1]);
    }
  }

  /** Entry `j` of group `g` sits after all entries of the earlier groups. */
  lemma FlattenIndex<T>(gs: seq<seq<T>>, g: nat, j: nat)
    requires g < |gs| && j < |gs[g]|
    ensures |Flatten(gs[..g])| + j < |Flatten(gs)|
    ensures Flatten(gs)[|Flatten(gs[..g])| + j] == gs[g][j]
  {
    assert gs == gs[..g + 1] + gs[g + 1..];
    FlattenAppend(gs[..g + 1], gs[g + 1..]);
    FlattenSnoc(gs, g);
  }
}
