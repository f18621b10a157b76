/** `Array.prototype.sort` with a comparator. ECMAScript requires the sort to
    be stable and reads a NaN comparator result as +0 (SortCompare, section
    23.1.3.30.2 of ECMA-262). For a comparator that is consistent on the
    array, every stable sort produces the same order, so the stable insertion
    sort below stands for the engine's sort. */
module Sorting {
  import opened Seqs
  import opened Strings

  /** The JavaScript numbers a comparator returns here: an integer or NaN
      (what `undefined - undefined` gives). */
  datatype JsNumber = Number(value: int) | NaN

  /** `a - b` on JavaScript numbers. */
  function Minus(a: JsNumber, b: JsNumber): JsNumber
  {
    if a.NaN? || b.NaN? then NaN else Number(a.value - b.value)
  }

  /** How the sort reads a comparator result: NaN counts as 0, "equal". */
  function CompareResult(n: JsNumber): int
  {
    if n.NaN? then 0 else n.value
  }

  /** Inserts `x`, which came before every element of `r` in the input, in
      front of the first element it does not sort after. */
  function Insert<T>(x: T, r: seq<T>, cmp: (T, T) -> JsNumber): (out: seq<T>)
    ensures |out| == |r| + 1
    ensures multiset(out) == multiset(r) + multiset{x}
  {
    if r == [] then [x]
    else if CompareResult(cmp(x, r[0])) > 0 then
      assert r == [r[0]] + r[1..];
      [r[0]] + Insert(x, r[1..], cmp)
    else [x] + r
  }

  /** `s.sort(cmp)`. */
  function Sort<T>(s: seq<T>, cmp: (T, T) -> JsNumber): (out: seq<T>)
    ensures |out| == |s|
    ensures multiset(out) == multiset(s)
  {
    if s == [] then []
    else
      assert s == [s[0]] + s[1..];
      Insert(s[0], Sort(s[1..], cmp), cmp)
  }

  /** The comparator `(a, b) => key(b) - key(a)`: largest key first. */
  function DescBy<T>(key: T -> int): (T, T) -> JsNumber
  {
    (a: T, b: T) => Number(key(b) - key(a))
  }

  ghost predicate SortedDesc<T>(s: seq<T>, key: T -> int)
  {
    forall i, j :: 0 <= i < j < |s| ==> key(s[i]) >= key(s[j])
  }

  /** In a sequence sorted by non-increasing key, the first key is the largest. */
  lemma SortedDescFirst<T>(s: seq<T>, key: T -> int)
    requires SortedDesc(s, key) && s != []
    ensures forall x :: x in s ==> key(x) <= key(s[0])
  {
    forall x | x in s ensures key(x) <= key(s[0]) {
      var j :| 0 <= j < |s| && s[j] == x;
      if j > 0 {
        assert key(s[0]) >= key(s[j]);
      }
    }
  }

  /** The elements whose key is `v`, in order: used to state stability. */
  function WithKey<T>(s: seq<T>, key: T -> int, v: int): seq<T>
  {
    if s == [] then [] else (if key(s[0]) == v then [s[0]] else []) + WithKey(s[1..], key, v)
  }

  /** An element no smaller than every element of a sorted sequence can go in front of it. */
  lemma ConsSorted<T>(a: T, r: seq<T>, key: T -> int)
    requires SortedDesc(r, key)
    requires forall y :: y in r ==> key(y) <= key(a)
    ensures SortedDesc([a] + r, key)
  {
    var out := [a] + r;
    forall i, j | 0 <= i < j < |out| ensures key(out[i]) >= key(out[j]) {
      assert out[j] == r[j - 1];
      if i > 0 {
        assert out[i] == r[i - 1];
      }
    }
  }

  lemma {:induction false} InsertDescSorted<T>(x: T, r: seq<T>, key: T -> int)
    requires SortedDesc(r, key)
    ensures SortedDesc(Insert(x, r, DescBy(key)), key)
  {
    if r != [] {
      SortedDescFirst(r, key);
      if key(r[0]) > key(x) {
        assert CompareResult(DescBy(key)(x, r[0])) > 0;
        var rest := Insert(x, r[1..], DescBy(key));
        assert SortedDesc(r[1..], key);
        InsertDescSorted(x, r[1..], key);
        forall y | y in rest ensures key(y) <= key(r[0]) {
          assert y in multiset(rest);
          assert y == x || y in multiset(r[1..]);
          assert y == x || y in r;
        }
        ConsSorted(r[0], rest, key);
      } else {
        assert CompareResult(DescBy(key)(x, r[0])) <= 0;
        ConsSorted(x, r, key);
      }
    }
  }

  /** The sort orders by non-increasing key. */
  lemma {:induction false} SortDescSorted<T>(s: seq<T>, key: T -> int)
    ensures SortedDesc(Sort(s, DescBy(key)), key)
  {
    if s != [] {
      SortDescSorted(s[1..], key);
      InsertDescSorted(s[0], Sort(s[1..], DescBy(key)), key);
    }
  }

  lemma WithKeyCons<T>(a: T, s: seq<T>, key: T -> int, v: int)
    ensures WithKey([a] + s, key, v) == (if key(a) == v then [a] else []) + WithKey(s, key, v)
  {
    assert ([a] + s)[0] == a;
    assert ([a] + s)[1..] == s;
  }

  lemma {:induction false} InsertDescWithKey<T>(x: T, r: seq<T>, key: T -> int, v: int)
    ensures WithKey(Insert(x, r, DescBy(key)), key, v)
            == (if key(x) == v then [x] else []) + WithKey(r, key, v)
  {
    if r == [] {
      WithKeyCons(x, r, key, v);
      assert Insert(x, r, DescBy(key)) == [x] + r;
    } else if key(r[0]) > key(x) {
      assert CompareResult(DescBy(key)(x, r[0])) > 0;
      assert Insert(x, r, DescBy(key)) == [r[0]] + Insert(x, r[1..], DescBy(key));
      InsertDescWithKey(x, r[1..], key, v);
      PassWithKey(x, r, Insert(x, r[1..], DescBy(key)), key, v);
    } else {
      assert CompareResult(DescBy(key)(x, r[0])) <= 0;
      assert Insert(x, r, DescBy(key)) == [x] + r;
      WithKeyCons(x, r, key, v);
    }
  }

  /** `x` moving past a larger `r[0]` does not reorder the elements with key `v`. */
  lemma PassWithKey<T>(x: T, r: seq<T>, rest: seq<T>, key: T -> int, v: int)
    requires r != [] && key(r[0]) > key(x)
    requires WithKey(rest, key, v) == (if key(x) == v then [x] else []) + WithKey(r[1..], key, v)
    ensures WithKey([r[0]] + rest, key, v) == (if key(x) == v then [x] else []) + WithKey(r, key, v)
  {
    WithKeyCons(r[0], rest, key, v);
    WithKeyCons(r[0], r[1..], key, v);
    assert [r[0]] + r[1..] == r;
  }

  /** Stability: the elements with any given key keep their input order. */
  lemma {:induction false} SortDescStable<T>(s: seq<T>, key: T -> int, v: int)
    ensures WithKey(Sort(s, DescBy(key)), key, v) == WithKey(s, key, v)
  {
    if s != [] {
      SortDescStable(s[1..], key, v);
      InsertDescWithKey(s[0], Sort(s[1..], DescBy(key)), key, v);
    }
  }

  /** `x` occurs in `s` somewhere before `y`. */
  ghost predicate Before<T>(s: seq<T>, x: T, y: T)
  {
    exists a, b :: 0 <= a < b < |s| && s[a] == x && s[b] == y
  }

  lemma BeforeCons<T>(h: T, t: seq<T>, x: T, y: T)
    ensures Before([h] + t, x, y) <==> (h == x && y in t) || Before(t, x, y)
  {
    var s := [h] + t;
    if Before(s, x, y) {
      var a, b :| 0 <= a < b < |s| && s[a] == x && s[b] == y;
      assert s[b] == t[b - 1];
      if a > 0 {
        assert s[a] == t[a - 1];
      }
    }
    if h == x && y in t {
      var b :| 0 <= b < |t| && t[b] == y;
      assert s[0] == x && s[b + 1] == y;
    }
    if Before(t, x, y) {
      var a, b :| 0 <= a < b < |t| && t[a] == x && t[b] == y;
      assert s[a + 1] == x && s[b + 1] == y;
    }
  }

  lemma {:induction false} WithKeyIn<T>(s: seq<T>, key: T -> int, v: int, y: T)
    requires key(y) == v
    ensures y in WithKey(s, key, v) <==> y in s
  {
    if s != [] {
      WithKeyIn(s[1..], key, v, y);
      assert s == [s[0]] + s[1..];
    }
  }

  /** Keeping only the elements with key `v` keeps the order of any two of them. */
  lemma {:induction false} WithKeyBefore<T>(s: seq<T>, key: T -> int, v: int, x: T, y: T)
    requires key(x) == v && key(y) == v
    ensures Before(WithKey(s, key, v), x, y) <==> Before(s, x, y)
  {
    if s != [] {
      var t := WithKey(s[1..], key, v);
      WithKeyBefore(s[1..], key, v, x, y);
      WithKeyIn(s[1..], key, v, y);
      BeforeCons(s[0], s[1..], x, y);
      assert s == [s[0]] + s[1..];
      if key(s[0]) == v {
        BeforeCons(s[0], t, x, y);
      } else {
        AppendNil(t);
      }
    }
  }

  /** Sorting by a key keeps the order of any two elements with the same key. */
  lemma SortDescKeepsTies<T>(s: seq<T>, key: T -> int, x: T, y: T)
    requires key(x) == key(y)
    ensures Before(Sort(s, DescBy(key)), x, y) <==> Before(s, x, y)
  {
    SortDescStable(s, key, key(x));
    WithKeyBefore(Sort(s, DescBy(key)), key, key(x), x, y);
    WithKeyBefore(s, key, key(x), x, y);
  }

  lemma {:induction false} InsertSum<T>(x: T, r: seq<T>, cmp: (T, T) -> JsNumber, f: T -> int)
    ensures SumBy(Insert(x, r, cmp), f) == f(x) + SumBy(r, f)
  {
    if r == [] {
      assert [x][..0] == [];
    } else if CompareResult(cmp(x, r[0])) > 0 {
      InsertSum(x, r[1..], cmp, f);
      SumByConcat([r[0]], Insert(x, r[1..], cmp), f);
      SumByConcat([r[0]], r[1..], f);
      assert [r[0]] + r[1..] == r;
    } else {
      SumByConcat([x], r, f);
      assert [x][..0] == [];
    }
  }

  /** Sorting does not change a sum over the elements. */
  lemma {:induction false} SortSum<T>(s: seq<T>, cmp: (T, T) -> JsNumber, f: T -> int)
    ensures SumBy(Sort(s, cmp), f) == SumBy(s, f)
  {
    if s != [] {
      SortSum(s[1..], cmp, f);
      InsertSum(s[0], Sort(s[1..], cmp), cmp, f);
      SumByConcat([s[0]], s[1..], f);
      assert [s[0]] + s[1..] == s;
      assert [s[0]][..0] == [];
    }
  }

  /** A comparator that never orders two elements (every result 0 or NaN)
      leaves the array as it was. */
  lemma {:induction false} SortNeutral<T>(s: seq<T>, cmp: (T, T) -> JsNumber)
    requires forall a, b :: CompareResult(cmp(a, b)) == 0
    ensures Sort(s, cmp) == s
  {
    if s != [] {
      SortNeutral(s[1..], cmp);
      assert [s[0]] + s[1..] == s;
    }
  }

  /** The comparator `(a, b) => (key(a) > key(b) ? 1 : -1)` over string keys.
      It never answers "equal", so it is consistent only on distinct keys. */
  function AscByString<T>(key: T -> string): (T, T) -> JsNumber
  {
    (a: T, b: T) => if Less(key(b), key(a)) then Number(1) else Number(-1)
  }

  ghost predicate StrictlyAscending<T>(s: seq<T>, key: T -> string)
  {
    forall i, j :: 0 <= i < j < |s| ==> Less(key(s[i]), key(s[j]))
  }

  lemma {:induction false} InsertAscStrict<T>(x: T, r: seq<T>, key: T -> string)
    requires StrictlyAscending(r, key)
    requires forall y :: y in r ==> key(y) != key(x)
    ensures StrictlyAscending(Insert(x, r, AscByString(key)), key)
  {
    if r != [] {
      if Less(key(r[0]), key(x)) {
        var rest := Insert(x, r[1..], AscByString(key));
        InsertAscStrict(x, r[1..], key);
        forall y | y in rest ensures Less(key(r[0]), key(y)) {
          assert y in multiset(rest);
          assert y == x || y in r[1..];
        }
        assert Insert(x, r, AscByString(key)) == [r[0]] + rest;
      } else {
        LessTotal(key(x), key(r[0]));
        forall j | 0 <= j < |r| ensures Less(key(x), key(r[j])) {
          if j > 0 {
            LessTransitive(key(x), key(r[0]), key(r[j]));
          }
        }
        assert Insert(x, r, AscByString(key)) == [x] + r;
      }
    }
  }

  /** On distinct keys the month comparator sorts strictly ascending. */
  lemma {:induction false} SortAscStrict<T>(s: seq<T>, key: T -> string)
    requires forall i, j :: 0 <= i < j < |s| ==> key(s[i]) != key(s[j])
    ensures StrictlyAscending(Sort(s, AscByString(key)), key)
  {
    if s != [] {
      SortAscStrict(s[1..], key);
      var r := Sort(s[1..], AscByString(key));
      forall y | y in r ensures key(y) != key(s[0]) {
        assert y in multiset(s[1..]);
        var j :| 0 <= j < |s[1..]| && s[1..][j] == y;
        assert s[j + 1] == y;
      }
      InsertAscStrict(s[0], r, key);
    }
  }
}
