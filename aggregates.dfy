/** The dashboard's headline numbers and its two rankings: cards per list
    (open cards only) and cards per owner (every filtered card, once per
    member, or once under `"none"`), plus the per-list chart data. */
module Aggregates {
  import opened Seqs
  import opened Sorting
  import opened OrderedMaps
  import opened Board
  import opened Initials
  import opened Tallies

  /** `kpis`, computed over the whole snapshot rather than the filtered cards. */
  datatype Kpis = Kpis(total: nat, unassigned: nat, listsCount: nat, membersCount: nat)

  function Unassigned(c: Card): bool { |c.idMembers| == 0 }

  function Assigned(c: Card): bool { |c.idMembers| > 0 }

  function KpisOf(cards: seq<Card>, lists: seq<BoardList>, members: seq<Member>): (k: Kpis)
    ensures k.total == |cards| && k.listsCount == |lists| && k.membersCount == |members|
    ensures k.unassigned + |Filter(cards, Assigned)| == k.total
    ensures forall c :: c in cards && |c.idMembers| == 0 ==> k.unassigned > 0
  {
    FilterSplit(cards, Unassigned, Assigned);
    Kpis(|cards|, |Filter(cards, Unassigned)|, |lists|, |members|)
  }

  /** Filtering by a predicate and by its negation splits a sequence. */
  lemma {:induction false} FilterSplit(s: seq<Card>, p: Card -> bool, q: Card -> bool)
    requires forall c :: q(c) == !p(c)
    ensures |Filter(s, p)| + |Filter(s, q)| == |s|
  {
    if s != [] {
      FilterSplit(s[..|s| - 1], p, q);
    }
  }

  // ---------------------------------------------------------------- lists

  function IsOpen(c: Card): bool { !c.closed }

  /** The list of every open card, in card order: what `listsAgg` counts. */
  function OpenListIds(cards: seq<Card>): seq<string>
  {
    if cards == [] then []
    else
      var c := cards[|cards| - 1];
      OpenListIds(cards[..|cards| - 1]) + (if c.closed then [] else [c.idList])
  }

  function OpenInList(k: string): Card -> bool
  {
    (c: Card) => !c.closed && c.idList == k
  }

  /** One id per open card: the counter of a list is its number of open cards. */
  lemma {:induction false} OpenListIdsFacts(cards: seq<Card>, k: string)
    ensures |OpenListIds(cards)| == |Filter(cards, IsOpen)|
    ensures multiset(OpenListIds(cards))[k] == |Filter(cards, OpenInList(k))|
  {
    if cards != [] {
      OpenListIdsFacts(cards[..|cards| - 1], k);
    }
  }

  lemma OpenListIdsStep(cards: seq<Card>, i: nat)
    requires i < |cards|
    ensures cards[i].closed ==> OpenListIds(cards[..i + 1]) == OpenListIds(cards[..i])
    ensures !cards[i].closed ==> OpenListIds(cards[..i + 1]) == OpenListIds(cards[..i]) + [cards[i].idList]
  {
    assert cards[..i + 1][..i] == cards[..i];
  }

  datatype ListRow = ListRow(id: string, name: string, count: nat)

  function ListCount(r: ListRow): int { r.count }

  /** `([id, count]) => ({ id, name: listNameById[id] || id, count })`. */
  function ListRowMaker(listNames: map<string, string>): (string, nat) -> ListRow
  {
    (id: string, n: nat) => ListRow(id, NameOr(listNames, id, id), n)
  }

  /** The ranking `listsAgg` shows: the list rows in first-encountered
      order, sorted by descending count. */
  function ListsRanking(filtered: seq<Card>, listNames: map<string, string>): seq<ListRow>
  {
    var ids := OpenListIds(filtered);
    Sort(RowsOf(Distinct(ids), multiset(ids), ListRowMaker(listNames)), DescBy(ListCount))
  }

  /** The counting loop of `listsAgg`: closed cards are skipped. */
  method CountOpenLists(filtered: seq<Card>) returns (acc: OMap<string, nat>)
    ensures acc == BumpAll(Empty(), OpenListIds(filtered))
  {
    acc := Empty();
    for i := 0 to |filtered|
      invariant acc == BumpAll(Empty(), OpenListIds(filtered[..i]))
    {
      var c := filtered[i];
      OpenListIdsStep(filtered, i);
      if !c.closed {
        BumpAllSnoc(Empty(), OpenListIds(filtered[..i]), c.idList);
        acc := Bump(acc, c.idList);
      }
    }
    assert filtered[..|filtered|] == filtered;
  }

  /** `listsAgg`: the ranked rows and the top count. */
  method ListsAgg(filtered: seq<Card>, listNames: map<string, string>) returns (rows: seq<ListRow>, max: nat)
    ensures rows == ListsRanking(filtered, listNames)
    ensures max == if rows == [] then 0 else rows[0].count
    ensures forall r :: r in rows ==> r.count <= max
  {
    var acc := CountOpenLists(filtered);
    CountedRows(OpenListIds(filtered), ListRowMaker(listNames));
    rows := RowsOfEntries(acc.Entries(), ListRowMaker(listNames));
    SortDescSorted(rows, ListCount);
    rows := Sort(rows, DescBy(ListCount));
    max := if |rows| > 0 then rows[0].count else 0;
    if rows != [] {
      SortedDescFirst(rows, ListCount);
    }
  }

  /** Every row of the ranking is a list holding open filtered cards, with
      the number of those cards and the list's display name. */
  lemma ListsRankingRows(filtered: seq<Card>, listNames: map<string, string>, r: ListRow)
    requires r in ListsRanking(filtered, listNames)
    ensures r.count == |Filter(filtered, OpenInList(r.id))| > 0
    ensures r.name == NameOr(listNames, r.id, r.id)
  {
    var ids := OpenListIds(filtered);
    var d := Distinct(ids);
    SortedRowsMembers(d, multiset(ids), ListRowMaker(listNames), DescBy(ListCount), r);
    var i :| 0 <= i < |d| && r == ListRowMaker(listNames)(d[i], multiset(ids)[d[i]]);
    DistinctMember(ids, i);
    OpenListIdsFacts(filtered, r.id);
  }

  /** Every list holding an open filtered card has a row, and only one. */
  lemma ListsRankingCovers(filtered: seq<Card>, listNames: map<string, string>, k: string)
    requires k in OpenListIds(filtered)
    ensures exists r :: r in ListsRanking(filtered, listNames) && r.id == k
    ensures |ListsRanking(filtered, listNames)| == |Distinct(OpenListIds(filtered))|
  {
    var ids := OpenListIds(filtered);
    var d := Distinct(ids);
    var i :| 0 <= i < |d| && d[i] == k;
    SortedRowsMembers(d, multiset(ids), ListRowMaker(listNames), DescBy(ListCount), ListRowMaker(listNames)(k, multiset(ids)[k]));
  }

  /** The counts add up to the number of open filtered cards, and they are
      ranked from the highest down. */
  lemma ListsRankingTotal(filtered: seq<Card>, listNames: map<string, string>)
    ensures SumBy(ListsRanking(filtered, listNames), ListCount) == |Filter(filtered, IsOpen)|
    ensures SortedDesc(ListsRanking(filtered, listNames), ListCount)
  {
    var ids := OpenListIds(filtered);
    var d := Distinct(ids);
    var mk := ListRowMaker(listNames);
    SortDescSorted(RowsOf(d, multiset(ids), mk), ListCount);
    SortSum(RowsOf(d, multiset(ids), mk), DescBy(ListCount), ListCount);
    RowsSum(d, multiset(ids), mk, ListCount);
    SumOfDistinct(ids);
    OpenListIdsFacts(filtered, "");
  }

  /** Rows with equal counts keep the order in which their lists were first met. */
  lemma ListsRankingStable(filtered: seq<Card>, listNames: map<string, string>, v: int)
    ensures var ids := OpenListIds(filtered);
            WithKey(ListsRanking(filtered, listNames), ListCount, v)
            == WithKey(RowsOf(Distinct(ids), multiset(ids), ListRowMaker(listNames)), ListCount, v)
  {
    var ids := OpenListIds(filtered);
    SortDescStable(RowsOf(Distinct(ids), multiset(ids), ListRowMaker(listNames)), ListCount, v);
  }

  // --------------------------------------------------------------- owners

  /** The number of owners a card is counted under: `max(1, |idMembers|)`. */
  function OwnerWeight(c: Card): int { |Owners(c)| }

  /** Every owner of every card, in card order: what `ownersAgg` counts. */
  function OwnerKeys(cards: seq<Card>): (ks: seq<string>)
    ensures |ks| == SumBy(cards, OwnerWeight)
  {
    if cards == [] then [] else OwnerKeys(cards[..|cards| - 1]) + Owners(cards[|cards| - 1])
  }

  /** The `"none"` counter is the number of cards without members, as long
      as no member is literally called `"none"`. */
  lemma {:induction false} NoOwnerCount(cards: seq<Card>)
    requires forall c :: c in cards ==> NoOwner !in c.idMembers
    ensures multiset(OwnerKeys(cards))[NoOwner] == |Filter(cards, Unassigned)|
  {
    if cards != [] {
      var c := cards[|cards| - 1];
      assert forall x :: x in cards[..|cards| - 1] ==> x in cards;
      NoOwnerCount(cards[..|cards| - 1]);
      assert multiset(OwnerKeys(cards)) == multiset(OwnerKeys(cards[..|cards| - 1])) + multiset(Owners(c));
      assert NoOwner !in multiset(c.idMembers);
    }
  }

  /** A member's counter is the number of times it is listed on the cards. */
  lemma {:induction false} MemberCount(cards: seq<Card>, m: string)
    requires m != NoOwner
    ensures multiset(OwnerKeys(cards))[m] == SumBy(cards, (c: Card) => multiset(c.idMembers)[m])
  {
    if cards != [] {
      var c := cards[|cards| - 1];
      MemberCount(cards[..|cards| - 1], m);
      assert multiset(OwnerKeys(cards)) == multiset(OwnerKeys(cards[..|cards| - 1])) + multiset(Owners(c));
    }
  }

  lemma OwnerKeysStep(cards: seq<Card>, i: nat)
    requires i < |cards|
    ensures OwnerKeys(cards[..i + 1]) == OwnerKeys(cards[..i]) + Owners(cards[i])
  {
    assert cards[..i + 1][..i] == cards[..i];
  }

  /** The inner loop of `ownersAgg`: one bump per owner of a card. */
  method BumpEach(acc: OMap<string, nat>, mids: seq<string>) returns (acc': OMap<string, nat>)
    requires acc.Valid()
    ensures acc' == BumpAll(acc, mids)
  {
    acc' := acc;
    for j := 0 to |mids|
      invariant acc' == BumpAll(acc, mids[..j])
    {
      assert mids[..j + 1][..j] == mids[..j];
      acc' := Bump(acc', mids[j]);
    }
    assert mids[..|mids|] == mids;
  }

  /** The counting loop of `ownersAgg`: one bump per owner of every card. */
  method CountOwners(filtered: seq<Card>) returns (acc: OMap<string, nat>)
    ensures acc == BumpAll(Empty(), OwnerKeys(filtered))
  {
    acc := Empty();
    for i := 0 to |filtered|
      invariant acc == BumpAll(Empty(), OwnerKeys(filtered[..i]))
    {
      OwnerKeysStep(filtered, i);
      BumpAllConcat(Empty(), OwnerKeys(filtered[..i]), Owners(filtered[i]));
      acc := BumpEach(acc, Owners(filtered[i]));
    }
    assert filtered[..|filtered|] == filtered;
  }

  datatype OwnerRow = OwnerRow(id: string, count: nat, name: string, initials: string)

  function OwnerCount(r: OwnerRow): int { r.count }

  /** The owner row callback of `ownersAgg`. */
  function OwnerRowMaker(memberNames: map<string, string>): (string, nat) -> OwnerRow
  {
    (id: string, n: nat) =>
      OwnerRow(id, n,
               if id == NoOwner then "Sem responsável" else NameOr(memberNames, id, "Responsável"),
               if id == NoOwner then "—" else InitialsOf(NameOr(memberNames, id, "")))
  }

  function OwnersRanking(filtered: seq<Card>, memberNames: map<string, string>): seq<OwnerRow>
  {
    var ks := OwnerKeys(filtered);
    Sort(RowsOf(Distinct(ks), multiset(ks), OwnerRowMaker(memberNames)), DescBy(OwnerCount))
  }

  /** Owner rows with equal counts keep the order in which their owners were
      first met. */
  lemma OwnersRankingStable(filtered: seq<Card>, memberNames: map<string, string>, v: int)
    ensures var ks := OwnerKeys(filtered);
            WithKey(OwnersRanking(filtered, memberNames), OwnerCount, v)
            == WithKey(RowsOf(Distinct(ks), multiset(ks), OwnerRowMaker(memberNames)), OwnerCount, v)
  {
    var ks := OwnerKeys(filtered);
    SortDescStable(RowsOf(Distinct(ks), multiset(ks), OwnerRowMaker(memberNames)), OwnerCount, v);
  }

  /** `ownersAgg`: the ranked owner rows and the top count. */
  method OwnersAgg(filtered: seq<Card>, memberNames: map<string, string>) returns (rows: seq<OwnerRow>, max: nat)
    ensures rows == OwnersRanking(filtered, memberNames)
    ensures max == if rows == [] then 0 else rows[0].count
    ensures forall r :: r in rows ==> r.count <= max
  {
    var acc := CountOwners(filtered);
    CountedRows(OwnerKeys(filtered), OwnerRowMaker(memberNames));
    rows := RowsOfEntries(acc.Entries(), OwnerRowMaker(memberNames));
    SortDescSorted(rows, OwnerCount);
    rows := Sort(rows, DescBy(OwnerCount));
    max := if |rows| > 0 then rows[0].count else 0;
    if rows != [] {
      SortedDescFirst(rows, OwnerCount);
    }
  }

  /** Every owner row carries its number of occurrences among the owners of
      the filtered cards, and the `"none"` row its fixed labels. */
  lemma OwnersRankingRows(filtered: seq<Card>, memberNames: map<string, string>, r: OwnerRow)
    requires r in OwnersRanking(filtered, memberNames)
    ensures r.count == multiset(OwnerKeys(filtered))[r.id] > 0
    ensures r.id == NoOwner ==> r.name == "Sem responsável" && r.initials == "—"
    ensures r.id != NoOwner ==> r.initials == InitialsOf(NameOr(memberNames, r.id, ""))
    ensures r.id != NoOwner ==> r.name == NameOr(memberNames, r.id, "Responsável")
  {
    var ks := OwnerKeys(filtered);
    var d := Distinct(ks);
    SortedRowsMembers(d, multiset(ks), OwnerRowMaker(memberNames), DescBy(OwnerCount), r);
    var i :| 0 <= i < |d| && r == OwnerRowMaker(memberNames)(d[i], multiset(ks)[d[i]]);
    OwnerRowFields(memberNames, d[i], multiset(ks)[d[i]], r);
    DistinctMember(ks, i);
  }

  lemma OwnerRowFields(memberNames: map<string, string>, id: string, n: nat, r: OwnerRow)
    requires r == OwnerRowMaker(memberNames)(id, n)
    ensures r.id == id && r.count == n
    ensures id == NoOwner ==> r.name == "Sem responsável" && r.initials == "—"
    ensures id != NoOwner ==> r.initials == InitialsOf(NameOr(memberNames, id, ""))
    ensures id != NoOwner ==> r.name == NameOr(memberNames, id, "Responsável")
  {
  }

  /** Every owner of a filtered card has a row, and only one. */
  lemma OwnersRankingCovers(filtered: seq<Card>, memberNames: map<string, string>, k: string)
    requires k in OwnerKeys(filtered)
    ensures exists r :: r in OwnersRanking(filtered, memberNames) && r.id == k
    ensures |OwnersRanking(filtered, memberNames)| == |Distinct(OwnerKeys(filtered))|
  {
    var ks := OwnerKeys(filtered);
    var d := Distinct(ks);
    var i :| 0 <= i < |d| && d[i] == k;
    SortedRowsMembers(d, multiset(ks), OwnerRowMaker(memberNames), DescBy(OwnerCount),
                      OwnerRowMaker(memberNames)(k, multiset(ks)[k]));
  }

  /** The counts add up to Σ max(1, |idMembers|) over the filtered cards,
      closed ones included, and they are ranked from the highest down. */
  lemma OwnersRankingTotal(filtered: seq<Card>, memberNames: map<string, string>)
    ensures SumBy(OwnersRanking(filtered, memberNames), OwnerCount) == SumBy(filtered, OwnerWeight)
    ensures SortedDesc(OwnersRanking(filtered, memberNames), OwnerCount)
  {
    var ks := OwnerKeys(filtered);
    var d := Distinct(ks);
    var mk := OwnerRowMaker(memberNames);
    SortDescSorted(RowsOf(d, multiset(ks), mk), OwnerCount);
    SortSum(RowsOf(d, multiset(ks), mk), DescBy(OwnerCount), OwnerCount);
    RowsSum(d, multiset(ks), mk, OwnerCount);
    SumOfDistinct(ks);
  }

  /** The owner counts never fall short of the number of cards, and equal it
      exactly when no card has more than one member. */
  lemma {:induction false} OwnerFanOut(cards: seq<Card>)
    ensures SumBy(cards, OwnerWeight) >= |cards|
    ensures SumBy(cards, OwnerWeight) == |cards| <==> forall c :: c in cards ==> |c.idMembers| <= 1
  {
    if cards != [] {
      var init, c := cards[..|cards| - 1], cards[|cards| - 1];
      OwnerFanOut(init);
      assert forall x :: x in cards <==> x in init || x == c by {
        assert cards == init + [c];
      }
    }
  }

  // ---------------------------------------------------------------- chart

  /** The list of every filtered card, closed ones included. */
  function ListIds(cards: seq<Card>): (ids: seq<string>)
    ensures |ids| == |cards|
    ensures forall i :: 0 <= i < |cards| ==> ids[i] == cards[i].idList
  {
    if cards == [] then [] else ListIds(cards[..|cards| - 1]) + [cards[|cards| - 1].idList]
  }

  function InList(k: string): Card -> bool
  {
    (c: Card) => c.idList == k
  }

  /** A list's counter in the chart is its number of filtered cards. */
  lemma {:induction false} ListIdsCount(cards: seq<Card>, k: string)
    ensures multiset(ListIds(cards))[k] == |Filter(cards, InList(k))|
  {
    if cards != [] {
      ListIdsCount(cards[..|cards| - 1], k);
      assert ListIds(cards) == ListIds(cards[..|cards| - 1]) + [cards[|cards| - 1].idList];
    }
  }

  lemma ListIdsStep(cards: seq<Card>, i: nat)
    requires i < |cards|
    ensures ListIds(cards[..i + 1]) == ListIds(cards[..i]) + [cards[i].idList]
  {
    assert cards[..i + 1][..i] == cards[..i];
  }

  datatype ChartRow = ChartRow(name: string, value: nat)

  function ChartValue(r: ChartRow): int { r.value }

  function ChartRowMaker(listNames: map<string, string>): (string, nat) -> ChartRow
  {
    (id: string, n: nat) => ChartRow(NameOr(listNames, id, id), n)
  }

  /** The counting loop of `chartByList`, over every filtered card. */
  method CountLists(filtered: seq<Card>) returns (acc: OMap<string, nat>)
    ensures acc == BumpAll(Empty(), ListIds(filtered))
  {
    acc := Empty();
    for i := 0 to |filtered|
      invariant acc == BumpAll(Empty(), ListIds(filtered[..i]))
    {
      ListIdsStep(filtered, i);
      BumpAllConcat(Empty(), ListIds(filtered[..i]), [filtered[i].idList]);
      acc := Bump(acc, filtered[i].idList);
    }
    assert filtered[..|filtered|] == filtered;
  }

  /** `chartByList`: one bar per list of the filtered cards, in order of
      first occurrence, whose value is that list's number of filtered cards. */
  method ChartByList(filtered: seq<Card>, listNames: map<string, string>) returns (rows: seq<ChartRow>)
    ensures var ids := ListIds(filtered);
            rows == RowsOf(Distinct(ids), multiset(ids), ChartRowMaker(listNames))
  {
    var acc := CountLists(filtered);
    CountedRows(ListIds(filtered), ChartRowMaker(listNames));
    rows := RowsOfEntries(acc.Entries(), ChartRowMaker(listNames));
  }

  /** The chart has one bar per distinct list and its values add up to the
      number of filtered cards. */
  lemma ChartTotal(filtered: seq<Card>, listNames: map<string, string>)
    ensures var ids := ListIds(filtered);
            var rows := RowsOf(Distinct(ids), multiset(ids), ChartRowMaker(listNames));
            |rows| == |Distinct(ids)| && SumBy(rows, ChartValue) == |filtered|
  {
    var ids := ListIds(filtered);
    RowsSum(Distinct(ids), multiset(ids), ChartRowMaker(listNames), ChartValue);
    SumOfDistinct(ids);
  }

  /** `chartByListSorted`: the same bars, highest first, ties in place. */
  function ChartByListSorted(chart: seq<ChartRow>): (sorted: seq<ChartRow>)
    ensures multiset(sorted) == multiset(chart)
    ensures SortedDesc(sorted, ChartValue)
    ensures forall v :: WithKey(sorted, ChartValue, v) == WithKey(chart, ChartValue, v)
  {
    SortDescSorted(chart, ChartValue);
    ChartStable(chart);
    Sort(chart, DescBy(ChartValue))
  }

  lemma ChartStable(chart: seq<ChartRow>)
    ensures forall v :: WithKey(Sort(chart, DescBy(ChartValue)), ChartValue, v) == WithKey(chart, ChartValue, v)
  {
    forall v ensures WithKey(Sort(chart, DescBy(ChartValue)), ChartValue, v) == WithKey(chart, ChartValue, v) {
      SortDescStable(chart, ChartValue, v);
    }
  }
}
