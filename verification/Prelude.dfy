/** Small shared vocabulary: optional values, insertion-ordered dictionaries and
    stable sorting, the three built-ins the modelled programs lean on. */
module Prelude {

  datatype Option<+T> = None | Some(value: T)

  ghost predicate Distinct<T(!new)>(xs: seq<T>) {
    forall i, j :: 0 <= i < j < |xs| ==> xs[i] != xs[j]
  }

  lemma DistinctConcat<T(!new)>(a: seq<T>, b: seq<T>)
    requires Distinct(a) && Distinct(b) && forall x :: x in b ==> x !in a
    ensures Distinct(a + b)
  {
    forall i, j | 0 <= i < j < |a + b| ensures (a + b)[i] != (a + b)[j] {
      if i < |a| <= j { assert b[j - |a|] in b; }
    }
  }

  function Elems<T>(xs: seq<T>): set<T> {
    set x | x in xs
  }

  // ---- insertion-ordered dictionary -------------------------------------

  /** A Python `dict`: keys in insertion order beside the table itself. */
  datatype Dict<K(==, !new), V> = Dict(keys: seq<K>, table: map<K, V>) {

    ghost predicate Valid() {
      && (forall i, j :: 0 <= i < j < |keys| ==> keys[i] != keys[j])
      && (forall k :: k in keys <==> k in table)
    }

    /** Assigning to an existing key keeps its position. */
    function Put(k: K, v: V): (d: Dict<K, V>)
      requires Valid()
      ensures d.Valid()
      ensures d.table == table[k := v]
      ensures keys <= d.keys
    {
      Dict(if k in table then keys else keys + [k], table[k := v])
    }
  }

  // ---- maps to sets, without empty sets ----------------------------------------

  predicate In<K, V(==)>(m: map<K, set<V>>, k: K, v: V) {
    k in m && v in m[k]
  }

  ghost predicate NoEmpty<K(!new), V>(m: map<K, set<V>>) {
    forall k :: k in m ==> m[k] != {}
  }

  function Link<K, V>(m: map<K, set<V>>, k: K, v: V): map<K, set<V>> {
    m[k := (if k in m then m[k] else {}) + {v}]
  }

  /** Delete `v` under `k`, and `k` itself once nothing is left under it. */
  function Unlink<K, V(==)>(m: map<K, set<V>>, k: K, v: V): map<K, set<V>> {
    if k !in m then m
    else if m[k] - {v} == {} then m - {k}
    else m[k := m[k] - {v}]
  }

  lemma LinkIn<K(!new), V(!new)>(m: map<K, set<V>>, k: K, v: V)
    requires NoEmpty(m)
    ensures NoEmpty(Link(m, k, v))
    ensures forall a, b :: In(Link(m, k, v), a, b) <==> In(m, a, b) || (a == k && b == v)
  {
  }

  lemma UnlinkIn<K(!new), V(!new)>(m: map<K, set<V>>, k: K, v: V)
    requires NoEmpty(m)
    ensures NoEmpty(Unlink(m, k, v))
    ensures forall a, b :: In(Unlink(m, k, v), a, b) <==> In(m, a, b) && !(a == k && b == v)
  {
    if k in m && m[k] - {v} == {} {
      assert forall b :: b in m[k] ==> b in (m[k] - {v}) || b == v;
    }
  }

  // ---- stable sort ---------------------------------------------------------

  ghost predicate SortedBy<T(!new)>(key: T -> real, xs: seq<T>) {
    forall i, j :: 0 <= i < j < |xs| ==> key(xs[i]) <= key(xs[j])
  }

  /** Insert after every element whose key does not exceed the new one. */
  function InsertBy<T>(key: T -> real, x: T, xs: seq<T>): (r: seq<T>)
    ensures multiset(r) == multiset(xs) + multiset{x}
    ensures |r| == |xs| + 1
  {
    if xs == [] then [x]
    else if key(x) < key(xs[|xs| - 1]) then
      assert xs == xs[..|xs| - 1] + [xs[|xs| - 1]];
      InsertBy(key, x, xs[..|xs| - 1]) + [xs[|xs| - 1]]
    else xs + [x]
  }

  /** `sorted(xs, key=key)`. */
  function SortBy<T>(key: T -> real, xs: seq<T>): (r: seq<T>)
    ensures multiset(r) == multiset(xs)
    ensures |r| == |xs|
  {
    if xs == [] then []
    else
      assert xs == xs[..|xs| - 1] + [xs[|xs| - 1]];
      InsertBy(key, xs[|xs| - 1], SortBy(key, xs[..|xs| - 1]))
  }

  lemma {:induction false} InsertBySorted<T(!new)>(key: T -> real, x: T, xs: seq<T>)
    requires SortedBy(key, xs)
    ensures SortedBy(key, InsertBy(key, x, xs))
  {
    if xs != [] && key(x) < key(xs[|xs| - 1]) {
      var init, last := xs[..|xs| - 1], xs[|xs| - 1];
      InsertBySorted(key, x, init);
      var r := InsertBy(key, x, init);
      assert InsertBy(key, x, xs) == r + [last];
      forall i | 0 <= i < |r| ensures key(r[i]) <= key(last) {
        assert r[i] in multiset(r);
        assert r[i] == x || r[i] in init;
      }
    }
  }

  lemma {:induction false} SortBySorted<T(!new)>(key: T -> real, xs: seq<T>)
    ensures SortedBy(key, SortBy(key, xs))
  {
    if xs != [] {
      SortBySorted(key, xs[..|xs| - 1]);
      InsertBySorted(key, xs[|xs| - 1], SortBy(key, xs[..|xs| - 1]));
    }
  }

  /** Sorting neither loses nor invents elements, and keeps distinct elements distinct. */
  lemma SortByElements<T(!new)>(key: T -> real, xs: seq<T>)
    ensures forall x :: x in SortBy(key, xs) <==> x in xs
    ensures Distinct(xs) ==> Distinct(SortBy(key, xs))
  {
    var r := SortBy(key, xs);
    forall x ensures x in r <==> x in xs {
      assert x in r <==> x in multiset(r);
      assert x in xs <==> x in multiset(xs);
    }
    if Distinct(xs) {
      DistinctIffSingle(xs);
      DistinctIffSingle(r);
    }
  }

  lemma DistinctIffSingle<T(!new)>(xs: seq<T>)
    ensures Distinct(xs) <==> forall x :: multiset(xs)[x] <= 1
  {
    if xs != [] {
      var init, last := xs[..|xs| - 1], xs[|xs| - 1];
      assert xs == init + [last];
      DistinctIffSingle(init);
      if Distinct(xs) {
        assert last !in init;
        assert multiset(init)[last] == 0;
      }
      if forall x :: multiset(xs)[x] <= 1 {
        assert multiset(xs)[last] == multiset(init)[last] + 1;
        assert last !in init;
        forall x ensures multiset(init)[x] <= 1 { assert multiset(xs)[x] >= multiset(init)[x]; }
      }
    }
  }
}
