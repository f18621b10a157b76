/** Array helpers the dashboard relies on: `filter`, first-occurrence
    de-duplication (`[...new Set(xs)]` and the key order of a `Map`),
    sums and occurrence counts. All folds walk their sequence from the
    end, so `s[..i+1]` unfolds to `s[..i]` plus one element, which is
    what the loops of the model need. */
module Seqs {

  /** `s.filter(p)`: the elements satisfying `p`, in their original order. */
  function Filter<T(!new)>(s: seq<T>, p: T -> bool): (r: seq<T>)
    ensures |r| <= |s|
    ensures forall x :: x in r <==> x in s && p(x)
  {
    if s == [] then []
    else Filter(s[..|s| - 1], p) + (if p(s[|s| - 1]) then [s[|s| - 1]] else [])
  }

  lemma {:induction false} FilterConcat<T(!new)>(a: seq<T>, b: seq<T>, p: T -> bool)
    ensures Filter(a + b, p) == Filter(a, p) + Filter(b, p)
  {
    if b == [] {
      assert a + b == a;
    } else {
      var b' := b[..|b| - 1];
      assert (a + b)[..|a + b| - 1] == a + b';
      FilterConcat(a, b', p);
    }
  }

  /** `a` occurs in `b` in order, possibly with gaps. */
  ghost predicate IsSubsequence<T>(a: seq<T>, b: seq<T>)
    decreases |b|
  {
    if a == [] then true
    else if b == [] then false
    else (a[|a| - 1] == b[|b| - 1] && IsSubsequence(a[..|a| - 1], b[..|b| - 1]))
         || IsSubsequence(a, b[..|b| - 1])
  }

  lemma {:induction false} FilterIsSubsequence<T(!new)>(s: seq<T>, p: T -> bool)
    ensures IsSubsequence(Filter(s, p), s)
  {
    if s != [] {
      var s' := s[..|s| - 1];
      FilterIsSubsequence(s', p);
      var f := Filter(s, p);
      if p(s[|s| - 1]) {
        assert f == Filter(s', p) + [s[|s| - 1]];
        assert f[..|f| - 1] == Filter(s', p);
        assert f[|f| - 1] == s[|s| - 1];
      } else {
        assert f == Filter(s', p);
      }
    }
  }

  /** Counting by a predicate that holds exactly when one of two exclusive
      predicates does adds up their counts. */
  lemma {:induction false} FilterUnion<T(!new)>(s: seq<T>, p: T -> bool, q: T -> bool, r: T -> bool)
    requires forall x :: r(x) <==> p(x) || q(x)
    requires forall x :: !(p(x) && q(x))
    ensures |Filter(s, r)| == |Filter(s, p)| + |Filter(s, q)|
  {
    if s != [] {
      FilterUnion(s[..|s| - 1], p, q, r);
    }
  }

  /** A predicate no element satisfies filters everything out. */
  lemma {:induction false} FilterNone<T(!new)>(s: seq<T>, p: T -> bool)
    requires forall x :: !p(x)
    ensures Filter(s, p) == []
  {
    if s != [] {
      FilterNone(s[..|s| - 1], p);
    }
  }

  /** A predicate that every element satisfies filters nothing out. */
  lemma {:induction false} FilterAll<T(!new)>(s: seq<T>, p: T -> bool)
    requires forall x :: x in s ==> p(x)
    ensures Filter(s, p) == s
  {
    if s != [] {
      assert s[..|s| - 1] + [s[|s| - 1]] == s;
      FilterAll(s[..|s| - 1], p);
    }
  }

  /** `s.map(f)`. */
  function Map<T, U>(s: seq<T>, f: T -> U): (r: seq<U>)
    ensures |r| == |s|
    ensures forall i :: 0 <= i < |s| ==> r[i] == f(s[i])
  {
    if s == [] then [] else Map(s[..|s| - 1], f) + [f(s[|s| - 1])]
  }

  /** No element occurs twice. */
  predicate NoDup<T(==)>(s: seq<T>)
  {
    forall i, j :: 0 <= i < j < |s| ==> s[i] != s[j]
  }

  /** The elements of `s` in order of first occurrence: what `[...new Set(s)]`
      yields, and the key order of a `Map` filled from `s`. */
  function Distinct<T(==,!new)>(s: seq<T>): (r: seq<T>)
    ensures NoDup(r)
    ensures forall x :: x in r <==> x in s
    ensures |r| <= |s|
  {
    if s == [] then []
    else
      var d := Distinct(s[..|s| - 1]);
      assert forall x :: x in s <==> x in s[..|s| - 1] || x == s[|s| - 1];
      if s[|s| - 1] in d then d else d + [s[|s| - 1]]
  }

  /** Appends the elements of `b` that are not yet present, in order: how
      the key order of a `Map` grows as `b` is set into it. */
  function Extend<T(==)>(d: seq<T>, b: seq<T>): seq<T>
  {
    if b == [] then d
    else
      var e := Extend(d, b[..|b| - 1]);
      if b[|b| - 1] in e then e else e + [b[|b| - 1]]
  }

  /** De-duplicating `a + b` extends the de-duplication of `a` by `b`. */
  lemma {:induction false} DistinctConcat<T(!new)>(a: seq<T>, b: seq<T>)
    ensures Distinct(a + b) == Extend(Distinct(a), b)
  {
    if b == [] {
      assert a + b == a;
    } else {
      assert (a + b)[..|a + b| - 1] == a + b[..|b| - 1];
      DistinctConcat(a, b[..|b| - 1]);
    }
  }

  /** A duplicate-free sequence is its own de-duplication. */
  lemma {:induction false} DistinctOfNoDup<T(!new)>(s: seq<T>)
    requires NoDup(s)
    ensures Distinct(s) == s
  {
    if s != [] {
      var s' := s[..|s| - 1];
      assert NoDup(s');
      DistinctOfNoDup(s');
      assert s[|s| - 1] !in s';
      assert s' + [s[|s| - 1]] == s;
    }
  }

  /** An element of a duplicate-free sequence occurs in it exactly once. */
  lemma {:induction false} NoDupOccursOnce<T>(s: seq<T>, x: T)
    requires NoDup(s)
    ensures multiset(s)[x] == if x in s then 1 else 0
  {
    if s != [] {
      var s' := s[..|s| - 1];
      assert s == s' + [s[|s| - 1]];
      assert NoDup(s');
      NoDupOccursOnce(s', x);
      assert multiset(s) == multiset(s') + multiset{s[|s| - 1]};
      assert s[|s| - 1] !in s';
    }
  }

  /** Duplicate-free sequences with the same elements have the same length. */
  lemma {:induction false} NoDupSameElementsLength<T>(a: seq<T>, b: seq<T>)
    requires NoDup(a) && NoDup(b)
    requires forall x :: x in a <==> x in b
    ensures |a| == |b|
  {
    NoDupCard(a);
    NoDupCard(b);
    assert (set x | x in a) == (set x | x in b);
  }

  lemma {:induction false} NoDupCard<T>(s: seq<T>)
    requires NoDup(s)
    ensures |set x | x in s| == |s|
  {
    if s != [] {
      var s' := s[..|s| - 1];
      var last := s[|s| - 1];
      assert NoDup(s');
      NoDupCard(s');
      assert last !in s';
      assert (set x | x in s) == (set x | x in s') + {last} by {
        assert s == s' + [last];
      }
    }
  }

  /** `Σ f(x)` over `s`. */
  function SumBy<T>(s: seq<T>, f: T -> int): int
  {
    if s == [] then 0 else SumBy(s[..|s| - 1], f) + f(s[|s| - 1])
  }

  lemma {:induction false} SumByConcat<T>(a: seq<T>, b: seq<T>, f: T -> int)
    ensures SumBy(a + b, f) == SumBy(a, f) + SumBy(b, f)
  {
    if b == [] {
      assert a + b == a;
    } else {
      assert (a + b)[..|a + b| - 1] == a + b[..|b| - 1];
      SumByConcat(a, b[..|b| - 1], f);
    }
  }

  /** `Σ m[k]` over the keys `ks`: the total of the counters listed in `ks`. */
  function SumOf<K>(ks: seq<K>, m: multiset<K>): nat
  {
    if ks == [] then 0 else SumOf(ks[..|ks| - 1], m) + m[ks[|ks| - 1]]
  }

  lemma {:induction false} SumOfAdd<K>(ks: seq<K>, m: multiset<K>, x: K)
    ensures SumOf(ks, m + multiset{x}) == SumOf(ks, m) + multiset(ks)[x]
  {
    if ks != [] {
      var ks' := ks[..|ks| - 1];
      assert ks == ks' + [ks[|ks| - 1]];
      SumOfAdd(ks', m, x);
    }
  }

  /** Counting every element once per occurrence, over the distinct elements,
      gives back the length: per-key counters sum to the number of items. */
  lemma {:induction false} SumOfDistinct<K(!new)>(s: seq<K>)
    ensures SumOf(Distinct(s), multiset(s)) == |s|
  {
    if s != [] {
      var s' := s[..|s| - 1];
      var x := s[|s| - 1];
      assert s == s' + [x];
      SumOfDistinct(s');
      var d := Distinct(s');
      SumOfAdd(d, multiset(s'), x);
      NoDupOccursOnce(d, x);
      if x !in d {
        assert Distinct(s) == d + [x];
        assert Distinct(s)[..|Distinct(s)| - 1] == d;
        assert multiset(s')[x] == 0;
      }
    }
  }

  /** Sum of counters over keys whose counters all vanish. */
  lemma {:induction false} SumOfAbsent<K>(ks: seq<K>, m: multiset<K>)
    requires forall k :: k in ks ==> m[k] == 0
    ensures SumOf(ks, m) == 0
  {
    if ks != [] {
      SumOfAbsent(ks[..|ks| - 1], m);
    }
  }

  function Min(a: int, b: int): int { if a <= b then a else b }

  /** Dropping the last element removes one occurrence of it. */
  lemma MultisetLast<T>(s: seq<T>, v: T)
    requires s != []
    ensures multiset(s)[v] == multiset(s[..|s| - 1])[v] + (if s[|s| - 1] == v then 1 else 0)
  {
    assert s == s[..|s| - 1] + [s[|s| - 1]];
  }

  /** Every element of `Distinct(s)` occurs in `s`. */
  lemma DistinctMember<T(!new)>(s: seq<T>, i: nat)
    requires i < |Distinct(s)|
    ensures Distinct(s)[i] in s && multiset(s)[Distinct(s)[i]] > 0
  {
    assert Distinct(s)[i] in Distinct(s);
  }

  /** Sequences equal element by element are equal. */
  lemma SameElements<T>(a: seq<T>, b: seq<T>)
    requires |a| == |b| && forall i :: 0 <= i < |a| ==> a[i] == b[i]
    ensures a == b
  {
  }

  lemma AppendAssoc<T>(a: seq<T>, b: seq<T>, c: seq<T>)
    ensures (a + b) + c == a + (b + c)
  {
  }

  /** Mapping over a non-empty sequence: its head's image, then the rest's. */
  lemma MapCons<T, U>(s: seq<T>, f: T -> U)
    requires s != []
    ensures Map(s, f) == [f(s[0])] + Map(s[1..], f)
  {
    assert forall i :: 1 <= i < |s| ==> s[1..][i - 1] == s[i];
  }

  lemma DropConcat<T>(a: seq<T>, b: seq<T>)
    requires a != []
    ensures (a + b)[1..] == a[1..] + b
  {
  }

  lemma IndexCons<T>(x: T, s: seq<T>, i: nat)
    requires i < |s|
    ensures ([x] + s)[i + 1] == s[i]
  {
  }

  lemma DropCons<T>(x: T, s: seq<T>)
    ensures ([x] + s)[1..] == s
  {
  }

  lemma AppendNil<T>(a: seq<T>)
    ensures a + [] == a && [] + a == a
  {
  }

  lemma LastSplit<T>(s: seq<T>)
    requires s != []
    ensures forall x :: x in s <==> x in s[..|s| - 1] || x == s[|s| - 1]
  {
    assert s == s[..|s| - 1] + [s[|s| - 1]];
  }

  /** Counters of items that all lie among the duplicate-free keys `ks`
      add up, over `ks`, to the number of items. */
  lemma {:induction false} SumOfCovered<K>(ks: seq<K>, s: seq<K>)
    requires NoDup(ks)
    requires forall i :: 0 <= i < |s| ==> s[i] in ks
    ensures SumOf(ks, multiset(s)) == |s|
  {
    if s == [] {
      SumOfAbsent(ks, multiset(s));
    } else {
      var s' := s[..|s| - 1];
      var x := s[|s| - 1];
      assert s == s' + [x];
      SumOfCovered(ks, s');
      SumOfAdd(ks, multiset(s'), x);
      NoDupOccursOnce(ks, x);
    }
  }

  /** An element found at two places occurs at least twice. */
  lemma TwoOccurrences<T>(s: seq<T>, i: nat, j: nat)
    requires i < j < |s| && s[i] == s[j]
    ensures multiset(s)[s[i]] >= 2
  {
    assert s == s[..j] + [s[j]] + s[j + 1..];
    assert s[i] in s[..j];
  }

  /** Rearranging elements whose keys are pairwise distinct keeps the keys
      pairwise distinct. */
  lemma KeysStayDistinct<T, K>(s: seq<T>, t: seq<T>, key: T -> K)
    requires multiset(t) == multiset(s)
    requires forall i, j :: 0 <= i < j < |s| ==> key(s[i]) != key(s[j])
    ensures forall i, j :: 0 <= i < j < |t| ==> key(t[i]) != key(t[j])
  {
    forall i, j | 0 <= i < j < |t| ensures key(t[i]) != key(t[j]) {
      assert t[i] in multiset(s) && t[j] in multiset(s);
      var p :| 0 <= p < |s| && s[p] == t[i];
      var q :| 0 <= q < |s| && s[q] == t[j];
      if p == q {
        TwoOccurrences(t, i, j);
        assert NoDup(s);
        NoDupOccursOnce(s, s[p]);
      }
    }
  }
}
