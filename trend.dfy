/** `trend14`: for the last fourteen days, how many filtered cards of each of
    the three busiest lists had their last activity on that day. Days are
    day numbers (the local calendar day `toISOString().slice(0, 10)` names);
    a card carries the day of its last activity in its `Instant`. */
module Trend {
  import opened Seqs
  import opened Sorting
  import opened OrderedMaps
  import opened Board
  import opened Aggregates

  const WindowLength: nat := 14
  const TopCount: nat := 3

  /** The dashboard's chart palette, in order. */
  const Palette: seq<string> := [
    "#3B82F6", "#22C55E", "#F59E0B", "#EF4444", "#06B6D4",
    "#A855F7", "#10B981", "#F97316", "#E11D48", "#84CC16",
    "#14B8A6", "#6366F1", "#F43F5E", "#F472B6", "#0EA5E9"]

  /** A cell of a data row: the `day` key or a list's counter. */
  datatype TrendValue = DayValue(day: int) | CountValue(count: nat)

  /** One entry of `series`: the row key of a list and its line colour. */
  datatype SeriesEntry = SeriesEntry(key: string, color: string)

  /** The `n` days ending today, oldest first. */
  function Window(n: nat, today: int): (ds: seq<int>)
    ensures |ds| == n
    ensures n > 0 ==> ds[n - 1] == today
    ensures forall i :: 0 <= i < n - 1 ==> ds[i + 1] == ds[i] + 1
    ensures NoDup(ds)
  {
    seq(n, (i: int) => today - (n - 1) + i)
  }

  /** `daysBack(n)`: the loop `for (let i = n - 1; i >= 0; i--)` yielding
      today minus `i` days. */
  method DaysBack(n: nat, today: int) returns (days: seq<int>)
    ensures days == Window(n, today)
  {
    days := [];
    var i: int := n - 1;
    while i >= 0
      invariant -1 <= i <= n - 1
      invariant days == Window(n, today)[..n - 1 - i]
    {
      days := days + [today - i];
      i := i - 1;
    }
  }

  /** The card's last activity fell on day `d`. */
  predicate ActiveOn(c: Card, d: int)
  {
    c.dateLastActivity.Some? && c.dateLastActivity.value.day == d
  }

  function OnDay(d: int, k: string): Card -> bool
  {
    (c: Card) => ActiveOn(c, d) && c.idList == k
  }

  /** The number of cards of list `k` last active on day `d`. */
  function Hits(cards: seq<Card>, d: int, k: string): nat
  {
    if cards == [] then 0
    else
      var c := cards[|cards| - 1];
      Hits(cards[..|cards| - 1], d, k) + (if ActiveOn(c, d) && c.idList == k then 1 else 0)
  }

  lemma HitsStep(cards: seq<Card>, i: nat, d: int, k: string)
    requires i < |cards|
    ensures Hits(cards[..i + 1], d, k) == Hits(cards[..i], d, k) + (if ActiveOn(cards[i], d) && cards[i].idList == k then 1 else 0)
  {
    assert cards[..i + 1][..i] == cards[..i];
  }

  /** `Hits` counts exactly the cards of list `k` last active on day `d`. */
  lemma {:induction false} HitsFilter(cards: seq<Card>, d: int, k: string)
    ensures Hits(cards, d, k) == |Filter(cards, OnDay(d, k))|
  {
    if cards != [] {
      HitsFilter(cards[..|cards| - 1], d, k);
    }
  }

  /** The per-list counters of one day, keyed by `ids` in order. */
  function DayMap(cards: seq<Card>, d: int, ids: seq<string>): (m: OMap<string, nat>)
    requires NoDup(ids)
    ensures m.Valid() && m.keys == ids
  {
    OMap(ids, map k | k in ids :: Hits(cards, d, k))
  }

  /** `new Map(listIds.map(id => [id, 0]))` on duplicate-free ids. */
  lemma SeedZero(ids: seq<string>)
    requires NoDup(ids)
    ensures Seed(ids, 0) == OMap(ids, map k | k in ids :: 0)
  {
    DistinctOfNoDup(ids);
    var m := Seed(ids, 0);
    assert m.vals == map k | k in ids :: 0;
  }

  lemma DayMapEmpty(cards: seq<Card>, d: int, ids: seq<string>)
    requires NoDup(ids) && cards == []
    ensures Seed(ids, 0) == DayMap(cards, d, ids)
  {
    assert DayMap(cards, d, ids).vals == map k | k in ids :: 0 by {
      var vals := DayMap(cards, d, ids).vals;
      assert forall k :: k in vals ==> vals[k] == 0;
    }
    SeedZero(ids);
  }

  /** A card not active on `d` in list of `ids` leaves day `d` as it was. */
  lemma DayMapSkip(cards: seq<Card>, i: nat, d: int, ids: seq<string>)
    requires i < |cards| && NoDup(ids)
    requires !ActiveOn(cards[i], d)
    ensures DayMap(cards[..i + 1], d, ids) == DayMap(cards[..i], d, ids)
  {
    forall k | k in ids ensures Hits(cards[..i + 1], d, k) == Hits(cards[..i], d, k) {
      HitsStep(cards, i, d, k);
    }
  }

  /** A card active on `d` bumps its list's counter of day `d`. */
  lemma DayMapBump(cards: seq<Card>, i: nat, d: int, ids: seq<string>)
    requires i < |cards| && NoDup(ids)
    requires ActiveOn(cards[i], d) && cards[i].idList in ids
    ensures Bump(DayMap(cards[..i], d, ids), cards[i].idList) == DayMap(cards[..i + 1], d, ids)
  {
    var m := DayMap(cards[..i], d, ids);
    var m' := DayMap(cards[..i + 1], d, ids);
    forall k | k in ids ensures Count(Bump(m, cards[i].idList), k) == Hits(cards[..i + 1], d, k) {
      HitsStep(cards, i, d, k);
    }
    assert Bump(m, cards[i].idList).vals == m'.vals;
  }

  /** The activity of list `k` summed over the days `ds`. */
  function WindowHits(cards: seq<Card>, ds: seq<int>, k: string): nat
  {
    if ds == [] then 0 else WindowHits(cards, ds[..|ds| - 1], k) + Hits(cards, ds[|ds| - 1], k)
  }

  /** The `totals` map after the days `ds`. */
  function TotalsMap(cards: seq<Card>, ds: seq<int>, ids: seq<string>): (m: OMap<string, nat>)
    requires NoDup(ids)
    ensures m.Valid() && m.keys == ids
  {
    OMap(ids, map k | k in ids :: WindowHits(cards, ds, k))
  }

  lemma WindowHitsStep(cards: seq<Card>, ds: seq<int>, j: nat, k: string)
    requires j < |ds|
    ensures WindowHits(cards, ds[..j + 1], k) == WindowHits(cards, ds[..j], k) + Hits(cards, ds[j], k)
  {
    assert ds[..j + 1][..j] == ds[..j];
  }

  function Total(e: (string, nat)): int { e.1 }

  function IdOf(e: (string, nat)): string { e.0 }

  /** The entries of `totals`, largest total first. */
  function RankedTotals(cards: seq<Card>, ds: seq<int>): seq<(string, nat)>
  {
    Sort(TotalsMap(cards, ds, Distinct(ListIds(cards))).Entries(), DescBy(Total))
  }

  /** Entries with equal totals keep the order in which their lists were
      first met. */
  lemma RankedTotalsStable(cards: seq<Card>, ds: seq<int>, v: int)
    ensures WithKey(RankedTotals(cards, ds), Total, v)
            == WithKey(TotalsMap(cards, ds, Distinct(ListIds(cards))).Entries(), Total, v)
  {
    SortDescStable(TotalsMap(cards, ds, Distinct(ListIds(cards))).Entries(), Total, v);
  }

  /** `topIds`: the ids of the first three ranked entries. */
  function TopIds(cards: seq<Card>, ds: seq<int>): (top: seq<string>)
    ensures |top| == Min(TopCount, |Distinct(ListIds(cards))|)
  {
    var ranked := RankedTotals(cards, ds);
    var n := Min(TopCount, |ranked|);
    seq(n, (i: int) requires 0 <= i < n => ranked[i].0)
  }

  /** The ranked entries are exactly the lists with their totals over `ds`. */
  lemma RankedEntries(cards: seq<Card>, ds: seq<int>)
    ensures var ranked := RankedTotals(cards, ds);
            forall i :: 0 <= i < |ranked| ==> ranked[i].0 in Distinct(ListIds(cards)) && ranked[i].1 == WindowHits(cards, ds, ranked[i].0)
    ensures forall k :: k in Distinct(ListIds(cards)) ==> (k, WindowHits(cards, ds, k)) in RankedTotals(cards, ds)
  {
    var ids := Distinct(ListIds(cards));
    var es := TotalsMap(cards, ds, ids).Entries();
    var ranked := RankedTotals(cards, ds);
    forall i | 0 <= i < |ranked| ensures ranked[i].0 in ids && ranked[i].1 == WindowHits(cards, ds, ranked[i].0) {
      assert ranked[i] in multiset(es);
    }
    forall k | k in ids ensures (k, WindowHits(cards, ds, k)) in ranked {
      var p :| 0 <= p < |ids| && ids[p] == k;
      assert es[p] == (k, WindowHits(cards, ds, k));
      assert es[p] in multiset(ranked);
    }
  }

  /** Every top id is a list of some filtered card. */
  lemma TopIdsAreLists(cards: seq<Card>, ds: seq<int>)
    ensures forall k :: k in TopIds(cards, ds) ==> k in Distinct(ListIds(cards))
  {
    RankedEntries(cards, ds);
    var ranked := RankedTotals(cards, ds);
    var top := TopIds(cards, ds);
    forall k | k in top ensures k in Distinct(ListIds(cards)) {
      var i :| 0 <= i < |top| && top[i] == k;
      assert top[i] == ranked[i].0;
    }
  }

  /** The top lists come in order of their totals. */
  lemma TopIdsOrdered(cards: seq<Card>, ds: seq<int>)
    ensures var top := TopIds(cards, ds);
            forall i, j :: 0 <= i < j < |top| ==> WindowHits(cards, ds, top[i]) >= WindowHits(cards, ds, top[j])
  {
    var ranked := RankedTotals(cards, ds);
    var top := TopIds(cards, ds);
    RankedEntries(cards, ds);
    SortDescSorted(TotalsMap(cards, ds, Distinct(ListIds(cards))).Entries(), Total);
    forall i, j | 0 <= i < j < |top| ensures WindowHits(cards, ds, top[i]) >= WindowHits(cards, ds, top[j]) {
      assert top[i] == ranked[i].0 && top[j] == ranked[j].0;
      assert Total(ranked[i]) >= Total(ranked[j]);
    }
  }

  /** No list left out of the top has a larger total than a top list. */
  lemma TopIdsBusiest(cards: seq<Card>, ds: seq<int>, k: string, j: nat)
    requires k in ListIds(cards) && k !in TopIds(cards, ds) && j < |TopIds(cards, ds)|
    ensures WindowHits(cards, ds, k) <= WindowHits(cards, ds, TopIds(cards, ds)[j])
  {
    var ranked := RankedTotals(cards, ds);
    var top := TopIds(cards, ds);
    var e := (k, WindowHits(cards, ds, k));
    assert e in ranked by {
      RankedEntries(cards, ds);
    }
    assert SortedDesc(ranked, Total) by {
      SortDescSorted(TotalsMap(cards, ds, Distinct(ListIds(cards))).Entries(), Total);
    }
    assert |top| <= |ranked| && forall i :: 0 <= i < |top| ==> top[i] == ranked[i].0;
    PrefixBusiest(ranked, top, e, j);
    assert ranked[j].1 == WindowHits(cards, ds, top[j]) by {
      RankedEntries(cards, ds);
    }
  }

  /** A list left out of the top three with the same total as a chosen one
      was met after it: ties keep the order of first appearance. `a` and `b`
      are where the two lists stand among the lists in order of first
      appearance. */
  lemma TopIdsTies(cards: seq<Card>, ds: seq<int>, k: string, j: nat) returns (a: nat, b: nat)
    requires k in ListIds(cards) && k !in TopIds(cards, ds) && j < |TopIds(cards, ds)|
    requires WindowHits(cards, ds, k) == WindowHits(cards, ds, TopIds(cards, ds)[j])
    ensures a < b < |Distinct(ListIds(cards))|
    ensures Distinct(ListIds(cards))[a] == TopIds(cards, ds)[j] && Distinct(ListIds(cards))[b] == k
  {
    var d := Distinct(ListIds(cards));
    var es := TotalsMap(cards, ds, d).Entries();
    var ranked := RankedTotals(cards, ds);
    var top := TopIds(cards, ds);
    var e := (k, WindowHits(cards, ds, k));
    assert Before(es, ranked[j], e) by {
      assert e in ranked && Total(ranked[j]) == Total(e) by {
        RankedEntries(cards, ds);
      }
      assert |top| <= |ranked| && forall i :: 0 <= i < |top| ==> top[i] == ranked[i].0;
      PrefixBefore(ranked, top, e, j);
      SortDescKeepsTies(es, Total, ranked[j], e);
    }
    a, b := KeysBefore(es, d, ranked[j], e, top[j], k);
  }

  /** Two entries in order carry two ids in order. */
  lemma KeysBefore(es: seq<(string, nat)>, ids: seq<string>, x: (string, nat), y: (string, nat), u: string, w: string)
    returns (a: nat, b: nat)
    requires |es| == |ids| && forall i :: 0 <= i < |es| ==> es[i].0 == ids[i]
    requires Before(es, x, y) && x.0 == u && y.0 == w
    ensures a < b < |ids| && ids[a] == u && ids[b] == w
  {
    a, b :| 0 <= a < b < |es| && es[a] == x && es[b] == y;
  }

  /** An entry whose id is not among the ids of a prefix comes after every
      entry of that prefix. */
  lemma PrefixBefore(ranked: seq<(string, nat)>, top: seq<string>, e: (string, nat), j: nat)
    requires |top| <= |ranked| && forall i :: 0 <= i < |top| ==> top[i] == ranked[i].0
    requires e in ranked && e.0 !in top && j < |top|
    ensures Before(ranked, ranked[j], e)
  {
    var q :| 0 <= q < |ranked| && ranked[q] == e;
    assert q >= |top|;
  }

  /** In entries sorted by total, an entry whose id is not among the ids of
      a prefix has a total no larger than any entry of that prefix. */
  lemma PrefixBusiest(ranked: seq<(string, nat)>, top: seq<string>, e: (string, nat), j: nat)
    requires SortedDesc(ranked, Total)
    requires |top| <= |ranked| && forall i :: 0 <= i < |top| ==> top[i] == ranked[i].0
    requires e in ranked && e.0 !in top && j < |top|
    ensures e.1 <= ranked[j].1
  {
    var q :| 0 <= q < |ranked| && ranked[q] == e;
    assert q >= |top|;
    assert Total(ranked[j]) >= Total(ranked[q]);
  }

  /** The data row of day `d`: `{ day: d }`, then one key per top list (its
      name, or its id when it has none), later keys overwriting earlier ones. */
  function RowFor(cards: seq<Card>, d: int, top: seq<string>, names: map<string, string>): map<string, TrendValue>
  {
    if top == [] then map["day" := DayValue(d)]
    else
      var k := top[|top| - 1];
      RowFor(cards, d, top[..|top| - 1], names)[NameOr(names, k, k) := CountValue(Hits(cards, d, k))]
  }

  /** `data`: one row per day of the window. */
  function TrendData(cards: seq<Card>, today: int, names: map<string, string>): (data: seq<map<string, TrendValue>>)
    ensures |data| == WindowLength
  {
    var ds := Window(WindowLength, today);
    var top := TopIds(cards, ds);
    seq(WindowLength, (i: int) requires 0 <= i < WindowLength => RowFor(cards, ds[i], top, names))
  }

  /** `series`: one entry per top list, coloured from the palette in turn. */
  function TrendSeries(cards: seq<Card>, today: int, names: map<string, string>): (series: seq<SeriesEntry>)
    ensures |series| == Min(TopCount, |Distinct(ListIds(cards))|)
  {
    var top := TopIds(cards, Window(WindowLength, today));
    seq(|top|, (i: int) requires 0 <= i < |top| => SeriesEntry(NameOr(names, top[i], top[i]), Palette[i % |Palette|]))
  }

  /** The counting loop: a card without a last activity, or whose day is
      not in the window, is skipped; otherwise its list's counter of that
      day goes up. */
  method CountDays(filtered: seq<Card>, days: seq<int>, ids: seq<string>) returns (byDay: map<int, OMap<string, nat>>)
    requires NoDup(ids)
    requires forall i :: 0 <= i < |filtered| ==> filtered[i].idList in ids
    ensures forall d :: d in byDay <==> d in days
    ensures forall d :: d in byDay ==> byDay[d] == DayMap(filtered, d, ids)
  {
    byDay := SeedDays(days, ids);
    StartEmpty(filtered, ids);
    for i := 0 to |filtered|
      invariant forall d :: d in byDay <==> d in days
      invariant forall d :: d in byDay ==> byDay[d] == DayMap(filtered[..i], d, ids)
    {
      byDay := CountCard(filtered, i, ids, byDay);
    }
    assert filtered[..|filtered|] == filtered;
  }

  /** Before the counting loop, every day's counters are those of no card. */
  lemma StartEmpty(filtered: seq<Card>, ids: seq<string>)
    requires NoDup(ids)
    ensures forall d :: Seed(ids, 0) == DayMap(filtered[..0], d, ids)
  {
    forall d ensures Seed(ids, 0) == DayMap(filtered[..0], d, ids) {
      DayMapEmpty(filtered[..0], d, ids);
    }
  }

  /** The first loop of the window: every day starts with a zero counter per list. */
  method SeedDays(days: seq<int>, ids: seq<string>) returns (byDay: map<int, OMap<string, nat>>)
    ensures forall d :: d in byDay <==> d in days
    ensures forall d :: d in byDay ==> byDay[d] == Seed(ids, 0)
  {
    byDay := map[];
    for j := 0 to |days|
      invariant forall d :: d in byDay <==> d in days[..j]
      invariant forall d :: d in byDay ==> byDay[d] == Seed(ids, 0)
    {
      byDay := byDay[days[j] := Seed(ids, 0)];
      assert forall d :: d in days[..j + 1] <==> d in days[..j] || d == days[j] by {
        assert days[..j + 1] == days[..j] + [days[j]];
      }
    }
    assert days[..|days|] == days;
  }

  /** One pass of the counting loop, over card `filtered[i]`. */
  method CountCard(filtered: seq<Card>, i: nat, ids: seq<string>, byDay: map<int, OMap<string, nat>>)
    returns (byDay': map<int, OMap<string, nat>>)
    requires i < |filtered| && NoDup(ids) && filtered[i].idList in ids
    requires forall d :: d in byDay ==> byDay[d] == DayMap(filtered[..i], d, ids)
    ensures byDay'.Keys == byDay.Keys
    ensures forall d :: d in byDay' ==> byDay'[d] == DayMap(filtered[..i + 1], d, ids)
  {
    var c := filtered[i];
    if c.dateLastActivity.None? || c.dateLastActivity.value.day !in byDay {
      forall d | d in byDay ensures DayMap(filtered[..i + 1], d, ids) == DayMap(filtered[..i], d, ids) {
        DayMapSkip(filtered, i, d, ids);
      }
      return byDay;
    }
    var k := c.dateLastActivity.value.day;
    forall d | d in byDay && d != k ensures DayMap(filtered[..i + 1], d, ids) == DayMap(filtered[..i], d, ids) {
      DayMapSkip(filtered, i, d, ids);
    }
    DayMapBump(filtered, i, k, ids);
    byDay' := byDay[k := Bump(byDay[k], c.idList)];
  }

  /** The `totals` loop: every day's counters are added to their list's total. */
  method SumTotals(filtered: seq<Card>, days: seq<int>, ids: seq<string>, byDay: map<int, OMap<string, nat>>)
    returns (totals: OMap<string, nat>)
    requires NoDup(ids)
    requires forall j :: 0 <= j < |days| ==> days[j] in byDay && byDay[days[j]] == DayMap(filtered, days[j], ids)
    ensures totals == TotalsMap(filtered, days, ids)
  {
    SeedZero(ids);
    totals := Seed(ids, 0);
    assert days[..0] == [];
    for j := 0 to |days|
      invariant totals.Valid() && totals.keys == ids
      invariant forall k :: k in totals.vals ==> totals.vals[k] == WindowHits(filtered, days[..j], k)
    {
      totals := AddDay(filtered, days, j, ids, byDay[days[j]], totals);
    }
    assert days[..|days|] == days;
    TotalsMapEqual(filtered, days, ids, totals);
  }

  lemma TotalsMapEqual(cards: seq<Card>, ds: seq<int>, ids: seq<string>, totals: OMap<string, nat>)
    requires NoDup(ids) && totals.Valid() && totals.keys == ids
    requires forall k :: k in totals.vals ==> totals.vals[k] == WindowHits(cards, ds, k)
    ensures totals == TotalsMap(cards, ds, ids)
  {
    assert totals.vals == TotalsMap(cards, ds, ids).vals;
  }

  /** The inner loop `for (const [id, v] of m) totals.set(id, (totals.get(id) || 0) + v)`
      over the counters `m` of day `days[j]`. */
  method AddDay(filtered: seq<Card>, days: seq<int>, j: nat, ids: seq<string>, m: OMap<string, nat>, totals: OMap<string, nat>)
    returns (totals': OMap<string, nat>)
    requires j < |days| && NoDup(ids) && m == DayMap(filtered, days[j], ids)
    requires totals.Valid() && totals.keys == ids
    requires forall k :: k in totals.vals ==> totals.vals[k] == WindowHits(filtered, days[..j], k)
    ensures totals'.Valid() && totals'.keys == ids
    ensures forall k :: k in totals'.vals ==> totals'.vals[k] == WindowHits(filtered, days[..j + 1], k)
  {
    var ds, d := days[..j], days[j];
    totals' := totals;
    for t := 0 to |m.keys|
      invariant totals'.Valid() && totals'.keys == ids
      invariant forall s :: 0 <= s < |ids| ==>
                  totals'.vals[ids[s]] == WindowHits(filtered, ds, ids[s]) + (if s < t then Hits(filtered, d, ids[s]) else 0)
    {
      var id := m.keys[t];
      assert id == ids[t] && m.vals[id] == Hits(filtered, d, id);
      totals' := totals'.Set(id, Count(totals', id) + m.vals[id]);
    }
    forall k | k in totals'.vals ensures totals'.vals[k] == WindowHits(filtered, days[..j + 1], k) {
      WindowHitsStep(filtered, days, j, k);
    }
  }

  /** The row loop of one day: `row[name] = m.get(id) || 0` for every top id. */
  method BuildRow(filtered: seq<Card>, d: int, ids: seq<string>, m: OMap<string, nat>, top: seq<string>, names: map<string, string>)
    returns (row: map<string, TrendValue>)
    requires NoDup(ids) && m == DayMap(filtered, d, ids)
    requires forall k :: k in top ==> k in ids
    ensures row == RowFor(filtered, d, top, names)
  {
    row := map["day" := DayValue(d)];
    for j := 0 to |top|
      invariant row == RowFor(filtered, d, top[..j], names)
    {
      var id := top[j];
      assert top[..j + 1][..j] == top[..j];
      row := row[NameOr(names, id, id) := CountValue(Count(m, id))];
    }
    assert top[..|top|] == top;
  }

  /** `days.map(d => row)`: the row of every day of the window. */
  method BuildData(filtered: seq<Card>, days: seq<int>, ids: seq<string>, byDay: map<int, OMap<string, nat>>,
                   top: seq<string>, names: map<string, string>)
    returns (data: seq<map<string, TrendValue>>)
    requires NoDup(ids)
    requires forall j :: 0 <= j < |days| ==> days[j] in byDay && byDay[days[j]] == DayMap(filtered, days[j], ids)
    requires forall k :: k in top ==> k in ids
    ensures |data| == |days|
    ensures forall j :: 0 <= j < |days| ==> data[j] == RowFor(filtered, days[j], top, names)
  {
    data := [];
    for i := 0 to |days|
      invariant |data| == i
      invariant forall j :: 0 <= j < i ==> data[j] == RowFor(filtered, days[j], top, names)
    {
      var row := BuildRow(filtered, days[i], ids, byDay[days[i]], top, names);
      data := data + [row];
    }
  }

  lemma TrendDataRows(cards: seq<Card>, today: int, names: map<string, string>, days: seq<int>, top: seq<string>,
                      data: seq<map<string, TrendValue>>)
    requires days == Window(WindowLength, today) && top == TopIds(cards, days)
    requires |data| == |days|
    requires forall j :: 0 <= j < |days| ==> data[j] == RowFor(cards, days[j], top, names)
    ensures data == TrendData(cards, today, names)
  {
  }

  /** `topIds`: `[...totals.entries()].sort((a, b) => b[1] - a[1]).slice(0, 3).map(([id]) => id)`. */
  method TopIdsOf(filtered: seq<Card>, days: seq<int>, totals: OMap<string, nat>) returns (topIds: seq<string>)
    requires totals == TotalsMap(filtered, days, Distinct(ListIds(filtered)))
    ensures topIds == TopIds(filtered, days)
    ensures forall k :: k in topIds ==> k in Distinct(ListIds(filtered))
  {
    var ranked := Sort(totals.Entries(), DescBy(Total));
    var n := Min(TopCount, |ranked|);
    topIds := seq(n, (i: int) requires 0 <= i < n => ranked[i].0);
    TopIdsAreLists(filtered, days);
  }

  /** The counting half of `trend14`: the window, the per-day counters and
      the three busiest lists. */
  method CountWindow(filtered: seq<Card>, today: int)
    returns (days: seq<int>, ids: seq<string>, byDay: map<int, OMap<string, nat>>, topIds: seq<string>)
    ensures days == Window(WindowLength, today) && ids == Distinct(ListIds(filtered))
    ensures forall j :: 0 <= j < |days| ==> days[j] in byDay && byDay[days[j]] == DayMap(filtered, days[j], ids)
    ensures topIds == TopIds(filtered, days)
    ensures forall k :: k in topIds ==> k in ids
  {
    days := DaysBack(WindowLength, today);
    ids := Distinct(ListIds(filtered));
    assert forall i :: 0 <= i < |filtered| ==> filtered[i].idList in ListIds(filtered);
    byDay := CountDays(filtered, days, ids);
    assert forall j :: 0 <= j < |days| ==> days[j] in byDay;
    var totals := SumTotals(filtered, days, ids, byDay);
    topIds := TopIdsOf(filtered, days, totals);
  }

  /** `trend14`. */
  method Trend14(filtered: seq<Card>, today: int, listNames: map<string, string>)
    returns (data: seq<map<string, TrendValue>>, series: seq<SeriesEntry>)
    ensures data == TrendData(filtered, today, listNames)
    ensures series == TrendSeries(filtered, today, listNames)
  {
    var days, ids, byDay, topIds := CountWindow(filtered, today);
    data := BuildData(filtered, days, ids, byDay, topIds, listNames);
    TrendDataRows(filtered, today, listNames, days, topIds, data);
    series := seq(|topIds|, (i: int) requires 0 <= i < |topIds| =>
                SeriesEntry(NameOr(listNames, topIds[i], topIds[i]), Palette[i % |Palette|]));
  }

  /** Every row holds a counter under the key of every top list, and its
      `day`, unless a list is named `day`. */
  lemma {:induction false} RowKeys(cards: seq<Card>, d: int, top: seq<string>, names: map<string, string>)
    ensures "day" in RowFor(cards, d, top, names)
    ensures forall j :: 0 <= j < |top| ==>
              NameOr(names, top[j], top[j]) in RowFor(cards, d, top, names)
              && RowFor(cards, d, top, names)[NameOr(names, top[j], top[j])].CountValue?
    ensures (forall j :: 0 <= j < |top| ==> NameOr(names, top[j], top[j]) != "day") ==>
              RowFor(cards, d, top, names)["day"] == DayValue(d)
  {
    if top != [] {
      var top' := top[..|top| - 1];
      RowKeys(cards, d, top', names);
      assert forall j :: 0 <= j < |top'| ==> top'[j] == top[j];
    }
  }

  /** When the top lists have distinct keys, each key holds that list's
      count for the day. */
  lemma {:induction false} RowCells(cards: seq<Card>, d: int, top: seq<string>, names: map<string, string>)
    requires forall i, j :: 0 <= i < j < |top| ==> NameOr(names, top[i], top[i]) != NameOr(names, top[j], top[j])
    ensures forall j :: 0 <= j < |top| ==>
              NameOr(names, top[j], top[j]) in RowFor(cards, d, top, names)
              && RowFor(cards, d, top, names)[NameOr(names, top[j], top[j])] == CountValue(Hits(cards, d, top[j]))
  {
    if top != [] {
      var top' := top[..|top| - 1];
      RowCells(cards, d, top', names);
      assert forall j :: 0 <= j < |top'| ==> top'[j] == top[j];
    }
  }

  /** Row `i` of the chart holds a counter under the key of every series. */
  lemma TrendKeys(cards: seq<Card>, today: int, names: map<string, string>, i: nat, j: nat)
    requires i < WindowLength && j < |TrendSeries(cards, today, names)|
    ensures TrendSeries(cards, today, names)[j].key in TrendData(cards, today, names)[i]
    ensures TrendData(cards, today, names)[i][TrendSeries(cards, today, names)[j].key].CountValue?
  {
    var ds := Window(WindowLength, today);
    RowKeys(cards, ds[i], TopIds(cards, ds), names);
  }

  /** Row `i` of the chart is labelled with the `i`-th day of the window;
      a list whose display name is `day` overwrites that label with its
      counter. */
  lemma TrendDays(cards: seq<Card>, today: int, names: map<string, string>, i: nat)
    requires i < WindowLength
    ensures "day" in TrendData(cards, today, names)[i]
    ensures var series := TrendSeries(cards, today, names);
            (forall j :: 0 <= j < |series| ==> series[j].key != "day") ==>
              TrendData(cards, today, names)[i]["day"] == DayValue(Window(WindowLength, today)[i])
    ensures var series := TrendSeries(cards, today, names);
            (exists j :: 0 <= j < |series| && series[j].key == "day") ==>
              TrendData(cards, today, names)[i]["day"].CountValue?
  {
    var ds := Window(WindowLength, today);
    var top := TopIds(cards, ds);
    var series := TrendSeries(cards, today, names);
    RowKeys(cards, ds[i], top, names);
    assert TrendData(cards, today, names)[i] == RowFor(cards, ds[i], top, names);
    assert forall j :: 0 <= j < |series| ==> series[j].key == NameOr(names, top[j], top[j]);
  }

  /** With distinct series keys, the counter of series `j` in row `i` is the
      number of cards of that list last active on the `i`-th day of the
      window (`HitsFilter`). */
  lemma TrendCounts(cards: seq<Card>, today: int, names: map<string, string>, i: nat, j: nat)
    requires i < WindowLength && j < |TrendSeries(cards, today, names)|
    requires var series := TrendSeries(cards, today, names);
             forall a, b :: 0 <= a < b < |series| ==> series[a].key != series[b].key
    ensures var ds := Window(WindowLength, today);
            var row := TrendData(cards, today, names)[i];
            var key := TrendSeries(cards, today, names)[j].key;
            key in row && row[key] == CountValue(Hits(cards, ds[i], TopIds(cards, ds)[j]))
  {
    var ds := Window(WindowLength, today);
    var top := TopIds(cards, ds);
    var series := TrendSeries(cards, today, names);
    forall a, b | 0 <= a < b < |top| ensures NameOr(names, top[a], top[a]) != NameOr(names, top[b], top[b]) {
      assert series[a].key != series[b].key;
    }
    RowCells(cards, ds[i], top, names);
    var row := TrendData(cards, today, names)[i];
    assert row == RowFor(cards, ds[i], top, names);
    assert series[j].key == NameOr(names, top[j], top[j]);
    assert series[j].key in row && row[series[j].key] == CountValue(Hits(cards, ds[i], top[j]));
  }

  function InWindow(ds: seq<int>, k: string): Card -> bool
  {
    (c: Card) => c.dateLastActivity.Some? && c.dateLastActivity.value.day in ds && c.idList == k
  }

  /** A list's total counts each of its cards whose last activity fell within
      the days once, and ignores all others. */
  lemma {:induction false} WindowHitsCount(cards: seq<Card>, ds: seq<int>, k: string)
    requires NoDup(ds)
    ensures WindowHits(cards, ds, k) == |Filter(cards, InWindow(ds, k))|
  {
    if ds == [] {
      FilterNone(cards, InWindow(ds, k));
    } else {
      var ds' := ds[..|ds| - 1];
      var d := ds[|ds| - 1];
      assert NoDup(ds');
      WindowHitsCount(cards, ds', k);
      HitsFilter(cards, d, k);
      assert forall x :: x in ds <==> x in ds' || x == d by {
        assert ds == ds' + [d];
      }
      assert d !in ds';
      FilterUnion(cards, InWindow(ds', k), OnDay(d, k), InWindow(ds, k));
    }
  }
}
