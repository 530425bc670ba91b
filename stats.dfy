/** The summary figures the scripts compute: filtered counts
    (`len([w for w in ws if w.get('level') == l])`), integer sums
    (`sum([p['wordCount'] for p in ps])`) and dictionary tallies
    (`d[k] = d.get(k, 0) + 1` in a loop). */
module Stats {

  /** How many elements of `xs` equal `x`. */
  function Occurrences<T(==)>(xs: seq<T>, x: T): (n: nat)
    ensures n <= |xs|
    ensures n > 0 <==> x in xs
  {
    if xs == [] then 0
    else Occurrences(xs[..|xs| - 1], x) + (if xs[|xs| - 1] == x then 1 else 0)
  }

  /** Counting distributes over concatenation. */
  lemma {:induction false} OccurrencesAppend<T>(a: seq<T>, b: seq<T>, x: T)
    ensures Occurrences(a + b, x) == Occurrences(a, x) + Occurrences(b, x)
  {
    if b != [] {
      assert (a + b)[..|a + b| - 1] == a + b[..|b| - 1];
      OccurrencesAppend(a, b[..|b| - 1], x);
    } else {
      assert a + b == a;
    }
  }

  lemma OccurrencesSnoc<T>(xs: seq<T>, y: T, x: T)
    ensures Occurrences(xs + [y], x) == Occurrences(xs, x) + (if y == x then 1 else 0)
  {
    assert (xs + [y])[..|xs|] == xs;
  }

  /** A sequence made only of `x` has all its elements counted. */
  lemma {:induction false} OccurrencesAll<T>(xs: seq<T>, x: T)
    requires forall i :: 0 <= i < |xs| ==> xs[i] == x
    ensures Occurrences(xs, x) == |xs|
  {
    if xs != [] {
      OccurrencesAll(xs[..|xs| - 1], x);
    }
  }

  /** When every element is one of two distinct values, their counts add up
      to the length. */
  lemma {:induction false} OccurrencesPair<T>(xs: seq<T>, a: T, b: T)
    requires a != b
    requires forall i :: 0 <= i < |xs| ==> xs[i] == a || xs[i] == b
    ensures Occurrences(xs, a) + Occurrences(xs, b) == |xs|
  {
    if xs != [] {
      OccurrencesPair(xs[..|xs| - 1], a, b);
    }
  }

  function Sum(xs: seq<nat>): nat {
    if xs == [] then 0 else Sum(xs[..|xs| - 1]) + xs[|xs| - 1]
  }

  /** A sum of naturals is at least each of its terms. */
  lemma {:induction false} SumBounds(xs: seq<nat>)
    ensures forall i :: 0 <= i < |xs| ==> xs[i] <= Sum(xs)
  {
    if xs != [] {
      SumBounds(xs[..|xs| - 1]);
      assert forall i :: 0 <= i < |xs| - 1 ==> xs[i] == xs[..|xs| - 1][i];
    }
  }

  /** A sum splits over concatenation. */
  lemma {:induction false} SumAppend(a: seq<nat>, b: seq<nat>)
    ensures Sum(a + b) == Sum(a) + Sum(b)
  {
    if b != [] {
      assert (a + b)[..|a + b| - 1] == a + b[..|b| - 1];
      SumAppend(a, b[..|b| - 1]);
    } else {
      assert a + b == a;
    }
  }

  /** The sum of `n` copies of `c`. */
  lemma {:induction false} SumConstant(xs: seq<nat>, c: nat)
    requires forall i :: 0 <= i < |xs| ==> xs[i] == c
    ensures Sum(xs) == |xs| * c
  {
    if xs != [] {
      SumConstant(xs[..|xs| - 1], c);
    }
  }

  /** The sum of all values of a dictionary of counts. */
  ghost function MapSum<K>(m: map<K, nat>): nat
    decreases |m|
  {
    if |m| == 0 then 0
    else
      var k :| k in m;
      m[k] + MapSum(m - {k})
  }

  /** Names the key MapSum takes out first. */
  lemma MapSumUnfold<K>(m: map<K, nat>) returns (j: K)
    requires |m| > 0
    ensures j in m && MapSum(m) == m[j] + MapSum(m - {j})
  {
    j :| j in m && MapSum(m) == m[j] + MapSum(m - {j});
  }

  /** MapSum does not depend on which key it takes out first. */
  lemma {:induction false} MapSumRemove<K>(m: map<K, nat>, k: K)
    requires k in m
    ensures MapSum(m) == m[k] + MapSum(m - {k})
    decreases |m|
  {
    var j := MapSumUnfold(m);
    if j != k {
      var mj, mk := m - {j}, m - {k};
      assert k in mj && j in mk;
      assert mj - {k} == mk - {j};
      MapSumRemove(mj, k);
      MapSumRemove(mk, j);
    }
  }

  /** The effect on MapSum of `d[k] = d.get(k, 0) + 1`. */
  lemma MapSumIncrement<K>(m: map<K, nat>, k: K)
    ensures MapSum(m[k := (if k in m then m[k] else 0) + 1]) == MapSum(m) + 1
  {
    var m' := m[k := (if k in m then m[k] else 0) + 1];
    MapSumRemove(m', k);
    assert m' - {k} == m - {k};
    if k in m {
      MapSumRemove(m, k);
    } else {
      assert m - {k} == m;
    }
  }

  /** `m` is the tally of `keys`: exactly the keys that occur are present,
      each with its number of occurrences. */
  ghost predicate Counts<K(!new)>(m: map<K, nat>, keys: seq<K>) {
    && (forall k :: k in m <==> k in keys)
    && (forall k :: k in m ==> m[k] == Occurrences(keys, k))
  }

  /** The tally with the last key's count taken back. */
  function Untally<K>(m: map<K, nat>, y: K): map<K, nat>
    requires y in m
  {
    if m[y] <= 1 then m - {y} else m[y := m[y] - 1]
  }

  lemma UntallyCounts<K(!new)>(m: map<K, nat>, init: seq<K>, y: K)
    requires Counts(m, init + [y])
    ensures y in m && m[y] >= 1 && Counts(Untally(m, y), init)
  {
    forall x ensures Occurrences(init + [y], x) == Occurrences(init, x) + (if y == x then 1 else 0) {
      OccurrencesSnoc(init, y, x);
    }
    assert y in init + [y];
  }

  lemma UntallySum<K>(m: map<K, nat>, y: K)
    requires y in m && m[y] >= 1
    ensures MapSum(m) == MapSum(Untally(m, y)) + 1
  {
    var u := Untally(m, y);
    assert m == u[y := (if y in u then u[y] else 0) + 1];
    MapSumIncrement(u, y);
  }

  /** The counts of a tally add up to the number of keys tallied. */
  lemma {:induction false} CountsSum<K(!new)>(m: map<K, nat>, keys: seq<K>)
    requires Counts(m, keys)
    ensures MapSum(m) == |keys|
  {
    if keys == [] {
      assert m == map[];
    } else {
      var init, y := keys[..|keys| - 1], keys[|keys| - 1];
      assert keys == init + [y];
      UntallyCounts(m, init, y);
      CountsSum(Untally(m, y), init);
      UntallySum(m, y);
    }
  }

  /** The dictionary-tally loop `d[k] = d.get(k, 0) + 1`: each key maps to the
      number of times it occurs, only keys that occur are present, and the
      counts add up to the number of keys tallied. */
  method Tally<K(==,!new)>(keys: seq<K>) returns (m: map<K, nat>)
    ensures forall k :: k in m <==> k in keys
    ensures forall k :: k in m ==> m[k] == Occurrences(keys, k)
    ensures MapSum(m) == |keys|
  {
    m := map[];
    for i := 0 to |keys|
      invariant Counts(m, keys[..i])
    {
      var k := keys[i];
      assert keys[..i + 1] == keys[..i] + [k];
      forall x ensures Occurrences(keys[..i + 1], x) == Occurrences(keys[..i], x) + (if k == x then 1 else 0) {
        OccurrencesSnoc(keys[..i], k, x);
      }
      m := m[k := (if k in m then m[k] else 0) + 1];
    }
    assert keys[..|keys|] == keys;
    CountsSum(m, keys);
  }
}
