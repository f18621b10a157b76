/** JavaScript `Map` objects, which iterate their entries in insertion order,
    and the counting idiom `m.set(k, (m.get(k) || 0) + 1)` used throughout the
    dashboard. The maps in the source are local to one computation and never
    shared, so they are modelled as values that the loops reassign. */
module OrderedMaps {
  import opened Seqs

  /** A `Map`: `keys` in insertion order, `vals` the entries. */
  datatype OMap<K(==,!new), V> = OMap(keys: seq<K>, vals: map<K, V>)
  {
    ghost predicate Valid()
    {
      NoDup(keys) && forall k :: k in vals <==> k in keys
    }

    /** `m.set(k, v)`: a new key goes last, a present key keeps its place. */
    function Set(k: K, v: V): (m: OMap<K, V>)
      requires Valid()
      ensures m.Valid()
      ensures m.vals == vals[k := v]
      ensures m.keys == if k in vals then keys else keys + [k]
    {
      assert forall j :: 0 <= j < |keys| ==> keys[j] in vals;
      OMap(if k in vals then keys else keys + [k], vals[k := v])
    }

    /** `[...m.entries()]`. */
    function Entries(): (es: seq<(K, V)>)
      requires Valid()
      ensures |es| == |keys|
      ensures forall i :: 0 <= i < |es| ==> es[i] == (keys[i], vals[keys[i]])
    {
      seq(|keys|, i requires 0 <= i < |keys| => (keys[i], vals[keys[i]]))
    }
  }

  /** Setting a key twice is setting it to the second value. */
  lemma SetTwice<K(!new), V>(m: OMap<K, V>, k: K, a: V, b: V)
    requires m.Valid()
    ensures m.Set(k, a).Set(k, b) == m.Set(k, b)
  {
    assert m.vals[k := a][k := b] == m.vals[k := b];
  }

  function Empty<K(==,!new), V>(): (m: OMap<K, V>)
    ensures m.Valid() && m.keys == []
  {
    OMap([], map[])
  }

  /** `m.get(k) || 0` on a map of counters. */
  function Count<K(==,!new)>(m: OMap<K, nat>, k: K): nat
  {
    if k in m.vals then m.vals[k] else 0
  }

  /** `bump(m, k)`: add one to the counter of `k`, creating it if needed. */
  function Bump<K(==,!new)>(m: OMap<K, nat>, k: K): (m': OMap<K, nat>)
    requires m.Valid()
    ensures m'.Valid()
    ensures Count(m', k) == Count(m, k) + 1
    ensures forall j :: j != k ==> Count(m', j) == Count(m, j)
    ensures m'.keys == if k in m.vals then m.keys else m.keys + [k]
  {
    m.Set(k, Count(m, k) + 1)
  }

  /** Bumping every element of `s` in turn, starting from `m`. */
  function BumpAll<K(==,!new)>(m: OMap<K, nat>, s: seq<K>): (m': OMap<K, nat>)
    requires m.Valid()
    ensures m'.Valid()
  {
    if s == [] then m else Bump(BumpAll(m, s[..|s| - 1]), s[|s| - 1])
  }

  /** Counting one more key bumps its counter once more. */
  lemma BumpAllSnoc<K(!new)>(m: OMap<K, nat>, s: seq<K>, x: K)
    requires m.Valid()
    ensures BumpAll(m, s + [x]) == Bump(BumpAll(m, s), x)
  {
    assert (s + [x])[..|s|] == s;
  }

  /** Bumping `a` and then `b` is bumping `a + b`. */
  lemma {:induction false} BumpAllConcat<K(!new)>(m: OMap<K, nat>, a: seq<K>, b: seq<K>)
    requires m.Valid()
    ensures BumpAll(m, a + b) == BumpAll(BumpAll(m, a), b)
  {
    if b == [] {
      assert a + b == a;
    } else {
      assert (a + b)[..|a + b| - 1] == a + b[..|b| - 1];
      BumpAllConcat(m, a, b[..|b| - 1]);
    }
  }

  /** Counting into a fresh map: one key per distinct element, in order of
      first occurrence, whose counter is its number of occurrences. */
  lemma {:induction false} CountFresh<K(!new)>(s: seq<K>)
    ensures BumpAll(Empty(), s).keys == Distinct(s)
    ensures forall k :: Count(BumpAll(Empty(), s), k) == multiset(s)[k]
  {
    if s != [] {
      var s' := s[..|s| - 1];
      assert s == s' + [s[|s| - 1]];
      CountFresh(s');
      var m := BumpAll(Empty(), s');
      assert forall k :: k in m.vals <==> k in s';
      assert s[|s| - 1] in m.vals <==> s[|s| - 1] in Distinct(s');
    }
  }

  /** Counting elements that are all keys already: the key order is kept and
      each counter grows by the element's number of occurrences. */
  lemma {:induction false} CountPresent<K(!new)>(m: OMap<K, nat>, s: seq<K>)
    requires m.Valid()
    requires forall i :: 0 <= i < |s| ==> s[i] in m.vals
    ensures BumpAll(m, s).keys == m.keys
    ensures forall k :: k in BumpAll(m, s).vals <==> k in m.vals
    ensures forall k :: Count(BumpAll(m, s), k) == Count(m, k) + multiset(s)[k]
  {
    if s != [] {
      var s' := s[..|s| - 1];
      assert s == s' + [s[|s| - 1]];
      CountPresent(m, s');
    }
  }

  /** `new Map(ks.map(k => [k, v]))`: a duplicate key keeps its first place. */
  function Seed<K(==,!new), V>(ks: seq<K>, v: V): (m: OMap<K, V>)
    ensures m.Valid()
    ensures m.keys == Distinct(ks)
    ensures forall k :: k in m.vals ==> m.vals[k] == v
  {
    if ks == [] then Empty() else Seed(ks[..|ks| - 1], v).Set(ks[|ks| - 1], v)
  }
}
