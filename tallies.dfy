/** The shape every ranking in the dashboard shares: counters kept in a
    `Map`, read back with `[...m.entries()].map(([id, count]) => row)`, then
    sorted. The row builder `mk` stands for the `.map` callback. */
module Tallies {
  import opened Seqs
  import opened Sorting
  import opened OrderedMaps

  /** One row per key of `ks`, built from the key and its counter. */
  function RowsOf<R>(ks: seq<string>, counts: multiset<string>, mk: (string, nat) -> R): (rows: seq<R>)
    ensures |rows| == |ks|
    ensures forall i :: 0 <= i < |ks| ==> rows[i] == mk(ks[i], counts[ks[i]])
  {
    if ks == [] then []
    else
      var k := ks[|ks| - 1];
      RowsOf(ks[..|ks| - 1], counts, mk) + [mk(k, counts[k])]
  }

  /** `entries.map(([id, count]) => mk(id, count))`. */
  function RowsOfEntries<R>(es: seq<(string, nat)>, mk: (string, nat) -> R): (rows: seq<R>)
    ensures |rows| == |es|
    ensures forall i :: 0 <= i < |es| ==> rows[i] == mk(es[i].0, es[i].1)
  {
    seq(|es|, i requires 0 <= i < |es| => mk(es[i].0, es[i].1))
  }

  /** Reading back the counters filled from `ids` gives one row per distinct
      id, in order of first occurrence, carrying its number of occurrences. */
  lemma CountedRows<R>(ids: seq<string>, mk: (string, nat) -> R)
    ensures RowsOfEntries(BumpAll(Empty(), ids).Entries(), mk) == RowsOf(Distinct(ids), multiset(ids), mk)
  {
    CountFresh(ids);
    var acc := BumpAll(Empty(), ids);
    var es := acc.Entries();
    forall i | 0 <= i < |es| ensures es[i] == (Distinct(ids)[i], multiset(ids)[Distinct(ids)[i]]) {
      assert acc.keys[i] in acc.vals;
      assert Count(acc, acc.keys[i]) == acc.vals[acc.keys[i]];
    }
  }

  /** The counters shown in the rows add up to the counters of their keys. */
  lemma {:induction false} RowsSum<R>(ks: seq<string>, counts: multiset<string>, mk: (string, nat) -> R, key: R -> int)
    requires forall k, n :: key(mk(k, n)) == n
    ensures SumBy(RowsOf(ks, counts, mk), key) == SumOf(ks, counts)
  {
    if ks != [] {
      var rows := RowsOf(ks, counts, mk);
      assert rows[..|rows| - 1] == RowsOf(ks[..|ks| - 1], counts, mk);
      RowsSum(ks[..|ks| - 1], counts, mk, key);
    }
  }

  /** Sorting keeps exactly the rows there were. */
  lemma SortedRowsMembers<R>(ks: seq<string>, counts: multiset<string>, mk: (string, nat) -> R,
                             cmp: (R, R) -> JsNumber, r: R)
    ensures r in Sort(RowsOf(ks, counts, mk), cmp) <==> exists i :: 0 <= i < |ks| && r == mk(ks[i], counts[ks[i]])
  {
    var unsorted := RowsOf(ks, counts, mk);
    var rows := Sort(unsorted, cmp);
    assert r in rows <==> r in multiset(rows);
    assert r in unsorted <==> r in multiset(unsorted);
    if exists i :: 0 <= i < |ks| && r == mk(ks[i], counts[ks[i]]) {
      var i :| 0 <= i < |ks| && r == mk(ks[i], counts[ks[i]]);
      assert unsorted[i] == r;
    }
  }
}
