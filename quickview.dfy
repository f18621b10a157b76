/** The `data` memo of the mobile quick view: over the open cards, counters
    per open list, per owner and per (list, owner) pair, read back as ranked
    list rows, owner rows, a dense heat map and a few totals. */
module QuickView {
  import opened Seqs
  import opened Sorting
  import opened OrderedMaps
  import opened Board
  import opened Initials
  import opened Tallies
  import opened Aggregates

  const DefaultListName := "Lista"
  const NoOwnerName := "Sem responsável"
  const NoOwnerInitials := "—"
  const DefaultOwnerName := "Responsável"

  function IsOpenList(l: BoardList): bool { !l.closed }

  /** `lists.filter(l => !l.closed)`. */
  function OpenLists(lists: seq<BoardList>): seq<BoardList>
  {
    Filter(lists, IsOpenList)
  }

  /** `cards.filter(c => !c.closed)`. */
  function OpenCards(cards: seq<Card>): seq<Card>
  {
    Filter(cards, IsOpen)
  }

  function ListIdsOf(ls: seq<BoardList>): (ids: seq<string>)
    ensures |ids| == |ls|
    ensures forall i :: 0 <= i < |ls| ==> ids[i] == ls[i].id
  {
    if ls == [] then [] else ListIdsOf(ls[..|ls| - 1]) + [ls[|ls| - 1].id]
  }

  /** `Object.fromEntries(ls.map(l => [l.id, l]))`: a repeated id keeps its
      last list (`ListByIdLast`). */
  function ListById(ls: seq<BoardList>): (m: map<string, BoardList>)
    ensures forall k :: k in m <==> k in ListIdsOf(ls)
  {
    if ls == [] then map[]
    else
      var m := ListById(ls[..|ls| - 1]);
      assert ListIdsOf(ls) == ListIdsOf(ls[..|ls| - 1]) + [ls[|ls| - 1].id];
      m[ls[|ls| - 1].id := ls[|ls| - 1]]
  }

  /** Under the id of a list that no later list shares, `ListById` holds
      that list. */
  lemma {:induction false} ListByIdLast(ls: seq<BoardList>, i: nat)
    requires i < |ls| && forall j :: i < j < |ls| ==> ls[j].id != ls[i].id
    ensures ls[i].id in ListById(ls) && ListById(ls)[ls[i].id] == ls[i]
  {
    if i < |ls| - 1 {
      var p := ls[..|ls| - 1];
      assert p[i] == ls[i];
      forall j | i < j < |p| ensures p[j].id != p[i].id { assert p[j] == ls[j]; }
      ListByIdLast(p, i);
      assert ls[|ls| - 1].id != ls[i].id;
    }
  }

  /** `Object.fromEntries(members.map(m => [m.id, m]))`: a repeated id keeps
      its last member (`MemberByIdLast`). */
  function MemberById(ms: seq<Member>): (m: map<string, Member>)
    ensures forall i :: 0 <= i < |ms| ==> ms[i].id in m
    ensures forall k :: k in m ==> exists i :: 0 <= i < |ms| && ms[i].id == k
  {
    if ms == [] then map[] else MemberById(ms[..|ms| - 1])[ms[|ms| - 1].id := ms[|ms| - 1]]
  }

  /** Under the id of a member that no later member shares, `MemberById`
      holds that member. */
  lemma {:induction false} MemberByIdLast(ms: seq<Member>, i: nat)
    requires i < |ms| && forall j :: i < j < |ms| ==> ms[j].id != ms[i].id
    ensures ms[i].id in MemberById(ms) && MemberById(ms)[ms[i].id] == ms[i]
  {
    if i < |ms| - 1 {
      var p := ms[..|ms| - 1];
      assert p[i] == ms[i];
      forall j | i < j < |p| ensures p[j].id != p[i].id { assert p[j] == ms[j]; }
      MemberByIdLast(p, i);
      assert ms[|ms| - 1].id != ms[i].id;
    }
  }

  /** `c.idList && listById[c.idList]`: a card counted towards its list. */
  function Counted(listById: map<string, BoardList>, c: Card): bool
  {
    c.idList != "" && c.idList in listById
  }

  /** The list of every counted card, in card order. */
  function ListHits(listById: map<string, BoardList>, cards: seq<Card>): (hits: seq<string>)
    ensures forall i :: 0 <= i < |hits| ==> hits[i] in listById
  {
    if cards == [] then []
    else
      var c := cards[|cards| - 1];
      ListHits(listById, cards[..|cards| - 1]) + (if Counted(listById, c) then [c.idList] else [])
  }

  lemma ListHitsStep(listById: map<string, BoardList>, cards: seq<Card>, i: nat)
    requires i < |cards|
    ensures ListHits(listById, cards[..i + 1])
            == ListHits(listById, cards[..i]) + (if Counted(listById, cards[i]) then [cards[i].idList] else [])
  {
    assert cards[..i + 1][..i] == cards[..i];
  }

  // ---------------------------------------------------------------- matrix

  /** `matrix`: list id to owner id to counter. */
  type Matrix = OMap<string, OMap<string, nat>>

  ghost predicate MatrixValid(m: Matrix)
  {
    m.Valid() && forall l :: l in m.vals ==> m.vals[l].Valid()
  }

  /** `if (!matrix.has(l)) matrix.set(l, new Map()); bump(matrix.get(l), o)`. */
  function MatrixBump(m: Matrix, l: string, o: string): (m': Matrix)
    requires MatrixValid(m)
    ensures MatrixValid(m')
  {
    var row := if l in m.vals then m.vals[l] else Empty();
    m.Set(l, Bump(row, o))
  }

  function MatrixBumpAll(m: Matrix, l: string, os: seq<string>): (m': Matrix)
    requires MatrixValid(m)
    ensures MatrixValid(m')
  {
    if os == [] then m else MatrixBump(MatrixBumpAll(m, l, os[..|os| - 1]), l, os[|os| - 1])
  }

  /** The matrix after the cards `cards`. */
  function MatrixOf(cards: seq<Card>): (m: Matrix)
    ensures MatrixValid(m)
  {
    if cards == [] then Empty()
    else
      var c := cards[|cards| - 1];
      MatrixBumpAll(MatrixOf(cards[..|cards| - 1]), c.idList, Owners(c))
  }

  /** `(matrix.get(l) || new Map()).get(o) || 0`. */
  function Cell(m: Matrix, l: string, o: string): nat
  {
    if l in m.vals then Count(m.vals[l], o) else 0
  }

  /** The number of times `o` is an owner of a card in list `l`. */
  function PairCount(cards: seq<Card>, l: string, o: string): nat
  {
    if cards == [] then 0
    else
      var c := cards[|cards| - 1];
      PairCount(cards[..|cards| - 1], l, o) + (if c.idList == l then multiset(Owners(c))[o] else 0)
  }

  lemma MatrixBumpCell(m: Matrix, l: string, o: string, l': string, o': string)
    requires MatrixValid(m)
    ensures Cell(MatrixBump(m, l, o), l', o') == Cell(m, l', o') + (if l == l' && o == o' then 1 else 0)
  {
  }

  lemma {:induction false} MatrixBumpAllCell(m: Matrix, l: string, os: seq<string>, l': string, o': string)
    requires MatrixValid(m)
    ensures Cell(MatrixBumpAll(m, l, os), l', o') == Cell(m, l', o') + (if l == l' then multiset(os)[o'] else 0)
  {
    if os != [] {
      var init, x := os[..|os| - 1], os[|os| - 1];
      var before := Cell(MatrixBumpAll(m, l, init), l', o');
      MultisetLast(os, o');
      assert before == Cell(m, l', o') + (if l == l' then multiset(init)[o'] else 0) by {
        MatrixBumpAllCell(m, l, init, l', o');
      }
      assert Cell(MatrixBumpAll(m, l, os), l', o') == before + (if l == l' && x == o' then 1 else 0) by {
        MatrixBumpCell(MatrixBumpAll(m, l, init), l, x, l', o');
      }
    }
  }

  /** Every cell of the matrix counts the cards of its list that have its
      owner, so a pair with no card reads 0. */
  lemma {:induction false} MatrixCells(cards: seq<Card>, l: string, o: string)
    ensures Cell(MatrixOf(cards), l, o) == PairCount(cards, l, o)
  {
    if cards != [] {
      var c := cards[|cards| - 1];
      MatrixCells(cards[..|cards| - 1], l, o);
      MatrixBumpAllCell(MatrixOf(cards[..|cards| - 1]), c.idList, Owners(c), l, o);
    }
  }

  // --------------------------------------------------------- counting loop

  /** The inner loop over a card's owners. */
  method BumpOwners(memberCounts: OMap<string, nat>, matrix: Matrix, l: string, owners: seq<string>)
    returns (memberCounts': OMap<string, nat>, matrix': Matrix)
    requires memberCounts.Valid() && MatrixValid(matrix)
    ensures memberCounts' == BumpAll(memberCounts, owners)
    ensures matrix' == MatrixBumpAll(matrix, l, owners)
  {
    memberCounts', matrix' := memberCounts, matrix;
    for j := 0 to |owners|
      invariant memberCounts' == BumpAll(memberCounts, owners[..j])
      invariant matrix' == MatrixBumpAll(matrix, l, owners[..j])
    {
      var mid := owners[j];
      assert owners[..j + 1][..j] == owners[..j];
      memberCounts' := Bump(memberCounts', mid);
      ghost var before := matrix';
      if l !in matrix'.vals {
        matrix' := matrix'.Set(l, Empty());
      }
      matrix' := matrix'.Set(l, Bump(matrix'.vals[l], mid));
      if l !in before.vals {
        SetTwice(before, l, Empty(), Bump(Empty(), mid));
      }
    }
    assert owners[..|owners|] == owners;
  }

  /** One card of the counting loop. */
  method CountCard(c: Card, listById: map<string, BoardList>, listCounts: OMap<string, nat>,
                   memberCounts: OMap<string, nat>, matrix: Matrix)
    returns (listCounts': OMap<string, nat>, memberCounts': OMap<string, nat>, matrix': Matrix)
    requires listCounts.Valid() && memberCounts.Valid() && MatrixValid(matrix)
    ensures listCounts' == if Counted(listById, c) then Bump(listCounts, c.idList) else listCounts
    ensures memberCounts' == BumpAll(memberCounts, Owners(c))
    ensures matrix' == MatrixBumpAll(matrix, c.idList, Owners(c))
  {
    listCounts' := listCounts;
    if c.idList != "" && c.idList in listById {
      listCounts' := Bump(listCounts, c.idList);
    }
    memberCounts', matrix' := BumpOwners(memberCounts, matrix, c.idList, Owners(c));
  }

  lemma CountStep(listSeed: OMap<string, nat>, listById: map<string, BoardList>, cards: seq<Card>, i: nat)
    requires listSeed.Valid() && i < |cards|
    ensures var c := cards[i];
            var before := BumpAll(listSeed, ListHits(listById, cards[..i]));
            BumpAll(listSeed, ListHits(listById, cards[..i + 1]))
            == if Counted(listById, c) then Bump(before, c.idList) else before
    ensures BumpAll(Empty(), OwnerKeys(cards[..i + 1])) == BumpAll(BumpAll(Empty(), OwnerKeys(cards[..i])), Owners(cards[i]))
    ensures MatrixOf(cards[..i + 1]) == MatrixBumpAll(MatrixOf(cards[..i]), cards[i].idList, Owners(cards[i]))
  {
    var c := cards[i];
    ListHitsStep(listById, cards, i);
    OwnerKeysStep(cards, i);
    assert cards[..i + 1][..i] == cards[..i];
    var hits := ListHits(listById, cards[..i]);
    if Counted(listById, c) {
      BumpAllConcat(listSeed, hits, [c.idList]);
    } else {
      assert hits + [] == hits;
    }
    BumpAllConcat(Empty(), OwnerKeys(cards[..i]), Owners(c));
  }

  /** `for (const c of openCards)`: the list counter when the card's list is
      open and known, then a bump per owner in `memberCounts` and `matrix`. */
  method CountOpen(openCards: seq<Card>, listById: map<string, BoardList>, listSeed: OMap<string, nat>)
    returns (listCounts: OMap<string, nat>, memberCounts: OMap<string, nat>, matrix: Matrix)
    requires listSeed.Valid()
    ensures listCounts == BumpAll(listSeed, ListHits(listById, openCards))
    ensures memberCounts == BumpAll(Empty(), OwnerKeys(openCards))
    ensures matrix == MatrixOf(openCards)
  {
    listCounts, memberCounts, matrix := listSeed, Empty(), Empty();
    for i := 0 to |openCards|
      invariant listCounts == BumpAll(listSeed, ListHits(listById, openCards[..i]))
      invariant memberCounts == BumpAll(Empty(), OwnerKeys(openCards[..i]))
      invariant matrix == MatrixOf(openCards[..i])
    {
      CountStep(listSeed, listById, openCards, i);
      listCounts, memberCounts, matrix := CountCard(openCards[i], listById, listCounts, memberCounts, matrix);
    }
    assert openCards[..|openCards|] == openCards;
  }

  // ------------------------------------------------------------------ rows

  datatype QuickListRow = QuickListRow(id: string, name: string, count: nat)

  function QuickListCount(r: QuickListRow): int { r.count }

  /** `([id, count]) => ({ id, name: listById[id]?.name || "Lista", count })`. */
  function QuickListRowMaker(listById: map<string, BoardList>): (string, nat) -> QuickListRow
  {
    (id: string, n: nat) =>
      QuickListRow(id, if id in listById && listById[id].name != "" then listById[id].name else DefaultListName, n)
  }

  /** An owner row: no `count` field. */
  datatype QuickOwnerRow = QuickOwnerRow(id: string, name: string, initials: string)

  /** `memberById[id]?.fullName || memberById[id]?.username`, with a missing
      member or an empty name read as `""`. */
  function MemberText(memberById: map<string, Member>, id: string): string
  {
    if id !in memberById then ""
    else if memberById[id].fullName != "" then memberById[id].fullName
    else memberById[id].username
  }

  function OwnerName(memberById: map<string, Member>, id: string): string
  {
    if id == NoOwner then NoOwnerName
    else if MemberText(memberById, id) != "" then MemberText(memberById, id)
    else DefaultOwnerName
  }

  function OwnerInitials(memberById: map<string, Member>, id: string): string
  {
    if id == NoOwner then NoOwnerInitials else QuickInitialsOf(MemberText(memberById, id))
  }

  /** `([id, count]) => ({ id, name, initials })`: the count is dropped. */
  function QuickOwnerRowMaker(memberById: map<string, Member>): (string, nat) -> QuickOwnerRow
  {
    (id: string, n: nat) => QuickOwnerRow(id, OwnerName(memberById, id), OwnerInitials(memberById, id))
  }

  /** `r.count` on an owner row: `undefined`, which arithmetic turns into NaN. */
  function MissingCount(r: QuickOwnerRow): JsNumber { NaN }

  /** `(a, b) => b.count - a.count` on owner rows. */
  function OwnerComparator(): (QuickOwnerRow, QuickOwnerRow) -> JsNumber
  {
    (a: QuickOwnerRow, b: QuickOwnerRow) => Minus(MissingCount(b), MissingCount(a))
  }

  /** `listRows`: one row per open list id, with its number of counted
      cards, sorted by descending count. */
  function ListRowsOf(lists: seq<BoardList>, cards: seq<Card>): seq<QuickListRow>
  {
    var open := OpenLists(lists);
    var byId := ListById(open);
    var hits := ListHits(byId, OpenCards(cards));
    Sort(RowsOf(Distinct(ListIdsOf(open)), multiset(hits), QuickListRowMaker(byId)), DescBy(QuickListCount))
  }

  /** List rows with equal counts keep the order of the open lists. */
  lemma ListRowsStable(lists: seq<BoardList>, cards: seq<Card>, v: int)
    ensures var open := OpenLists(lists);
            var byId := ListById(open);
            var hits := ListHits(byId, OpenCards(cards));
            WithKey(ListRowsOf(lists, cards), QuickListCount, v)
            == WithKey(RowsOf(Distinct(ListIdsOf(open)), multiset(hits), QuickListRowMaker(byId)), QuickListCount, v)
  {
    var open := OpenLists(lists);
    var byId := ListById(open);
    var hits := ListHits(byId, OpenCards(cards));
    SortDescStable(RowsOf(Distinct(ListIdsOf(open)), multiset(hits), QuickListRowMaker(byId)), QuickListCount, v);
  }

  /** `ownerRows`: one row per owner of an open card, sorted by a comparator
      that always yields NaN. */
  function OwnerRowsOf(cards: seq<Card>, members: seq<Member>): seq<QuickOwnerRow>
  {
    var ks := OwnerKeys(OpenCards(cards));
    Sort(RowsOf(Distinct(ks), multiset(ks), QuickOwnerRowMaker(MemberById(members))), OwnerComparator())
  }

  function ListRowIds(rows: seq<QuickListRow>): (ids: seq<string>)
    ensures |ids| == |rows|
    ensures forall i :: 0 <= i < |rows| ==> ids[i] == rows[i].id
  {
    if rows == [] then [] else ListRowIds(rows[..|rows| - 1]) + [rows[|rows| - 1].id]
  }

  function OwnerRowIds(rows: seq<QuickOwnerRow>): (ids: seq<string>)
    ensures |ids| == |rows|
    ensures forall i :: 0 <= i < |rows| ==> ids[i] == rows[i].id
  {
    if rows == [] then [] else OwnerRowIds(rows[..|rows| - 1]) + [rows[|rows| - 1].id]
  }

  /** `heat`: a row per list of `heatLists`, a column per owner of
      `heatOwners`, every entry a matrix cell. */
  function HeatOf(matrix: Matrix, heatLists: seq<string>, heatOwners: seq<string>): (heat: seq<seq<nat>>)
    ensures |heat| == |heatLists|
    ensures forall i :: 0 <= i < |heat| ==> |heat[i]| == |heatOwners|
    ensures forall i, j :: 0 <= i < |heatLists| && 0 <= j < |heatOwners| ==>
              heat[i][j] == Cell(matrix, heatLists[i], heatOwners[j])
  {
    seq(|heatLists|, (i: int) requires 0 <= i < |heatLists| =>
      seq(|heatOwners|, (j: int) requires 0 <= j < |heatOwners| => Cell(matrix, heatLists[i], heatOwners[j])))
  }

  datatype Totals = Totals(cards: nat, lists: nat, owners: nat, maxList: nat, maxOwner: int)

  datatype QuickData = QuickData(
    listRows: seq<QuickListRow>,
    ownerRows: seq<QuickOwnerRow>,
    heat: seq<seq<nat>>,
    heatLists: seq<string>,
    heatOwners: seq<string>,
    listById: map<string, BoardList>,
    memberById: map<string, Member>,
    totals: Totals)

  /** `listRows[0]?.count || 0`. */
  function MaxList(rows: seq<QuickListRow>): nat
  {
    if rows == [] then 0 else rows[0].count
  }

  /** `x || 0` on a number: NaN and 0 are falsy. */
  function OrZero(x: JsNumber): int
  {
    if x.NaN? || x.value == 0 then 0 else x.value
  }

  /** `ownerRows[0]?.count || 0`: the count is missing on an owner row, and
      so is the row of an empty list; both read as NaN here. */
  function MaxOwner(rows: seq<QuickOwnerRow>): int
  {
    OrZero(if rows == [] then NaN else MissingCount(rows[0]))
  }

  /** `totals.maxOwner` is always 0. */
  lemma MaxOwnerZero(rows: seq<QuickOwnerRow>)
    ensures MaxOwner(rows) == 0
  {
  }

  /** Reading back seeded counters that only ever bumped seeded keys. */
  lemma SeededRows<R>(ids: seq<string>, hits: seq<string>, mk: (string, nat) -> R)
    requires forall i :: 0 <= i < |hits| ==> hits[i] in ids
    ensures RowsOfEntries(BumpAll(Seed(ids, 0), hits).Entries(), mk) == RowsOf(Distinct(ids), multiset(hits), mk)
  {
    var seed := Seed(ids, 0);
    SeedHolds(ids, hits);
    CountPresent(seed, hits);
    var acc := BumpAll(seed, hits);
    var d := Distinct(ids);
    forall k | k in d ensures k in acc.vals && acc.vals[k] == multiset(hits)[k] {
      SeedCount(ids, k);
      assert Count(acc, k) == Count(seed, k) + multiset(hits)[k];
    }
    EntriesRows(acc, d, multiset(hits), mk);
  }

  /** Rows read from a map whose keys are `d` and whose counters are `counts`. */
  lemma EntriesRows<R>(acc: OMap<string, nat>, d: seq<string>, counts: multiset<string>, mk: (string, nat) -> R)
    requires acc.Valid() && acc.keys == d
    requires forall k :: k in d ==> k in acc.vals && acc.vals[k] == counts[k]
    ensures RowsOfEntries(acc.Entries(), mk) == RowsOf(d, counts, mk)
  {
    var es := acc.Entries();
    forall i | 0 <= i < |es| ensures es[i] == (d[i], counts[d[i]]) {
      assert d[i] in d;
    }
  }

  lemma SeedHolds(ids: seq<string>, hits: seq<string>)
    requires forall i :: 0 <= i < |hits| ==> hits[i] in ids
    ensures forall i :: 0 <= i < |hits| ==> hits[i] in Seed(ids, 0).vals
  {
    var seed := Seed(ids, 0);
    forall i | 0 <= i < |hits| ensures hits[i] in seed.vals {
      assert hits[i] in Distinct(ids);
    }
  }

  lemma SeedCount(ids: seq<string>, k: string)
    requires k in Distinct(ids)
    ensures k in Seed(ids, 0).vals && Count(Seed(ids, 0), k) == 0
  {
  }

  /** `listRows` read back from the seeded list counters. */
  lemma ListRowsRead(lists: seq<BoardList>, cards: seq<Card>)
    ensures var open := OpenLists(lists);
            var byId := ListById(open);
            var acc := BumpAll(Seed(ListIdsOf(open), 0), ListHits(byId, OpenCards(cards)));
            Sort(RowsOfEntries(acc.Entries(), QuickListRowMaker(byId)), DescBy(QuickListCount)) == ListRowsOf(lists, cards)
  {
    var open := OpenLists(lists);
    var byId := ListById(open);
    SeededRows(ListIdsOf(open), ListHits(byId, OpenCards(cards)), QuickListRowMaker(byId));
  }

  /** `ownerRows` read back from the owner counters. */
  lemma OwnerRowsRead(cards: seq<Card>, members: seq<Member>)
    ensures var acc := BumpAll(Empty(), OwnerKeys(OpenCards(cards)));
            Sort(RowsOfEntries(acc.Entries(), QuickOwnerRowMaker(MemberById(members))), OwnerComparator())
              == OwnerRowsOf(cards, members)
  {
    CountedRows(OwnerKeys(OpenCards(cards)), QuickOwnerRowMaker(MemberById(members)));
  }

  /** The `data` memo. */
  method Data(lists: seq<BoardList>, cards: seq<Card>, members: seq<Member>) returns (d: QuickData)
    ensures d.listRows == ListRowsOf(lists, cards)
    ensures d.ownerRows == OwnerRowsOf(cards, members)
    ensures d.heatLists == ListRowIds(d.listRows) && d.heatOwners == OwnerRowIds(d.ownerRows)
    ensures d.heat == HeatOf(MatrixOf(OpenCards(cards)), d.heatLists, d.heatOwners)
    ensures d.listById == ListById(OpenLists(lists)) && d.memberById == MemberById(members)
    ensures d.totals == Totals(|OpenCards(cards)|, |OpenLists(lists)|, |d.ownerRows|,
                               MaxList(d.listRows), MaxOwner(d.ownerRows))
  {
    var openLists := OpenLists(lists);
    var listById := ListById(openLists);
    var memberById := MemberById(members);
    var openCards := OpenCards(cards);
    var listCounts, memberCounts, matrix := CountOpen(openCards, listById, Seed(ListIdsOf(openLists), 0));
    ListRowsRead(lists, cards);
    var listRows := Sort(RowsOfEntries(listCounts.Entries(), QuickListRowMaker(listById)), DescBy(QuickListCount));
    OwnerRowsRead(cards, members);
    var ownerRows := Sort(RowsOfEntries(memberCounts.Entries(), QuickOwnerRowMaker(memberById)), OwnerComparator());
    var heatLists := ListRowIds(listRows);
    var heatOwners := OwnerRowIds(ownerRows);
    var heat := HeatOf(matrix, heatLists, heatOwners);
    var totals := Totals(|openCards|, |openLists|, |ownerRows|, MaxList(listRows), MaxOwner(ownerRows));
    d := QuickData(listRows, ownerRows, heat, heatLists, heatOwners, listById, memberById, totals);
  }

  // ---------------------------------------------------------- what it means

  /** A card's list is counted: the predicate form of `Counted`. */
  function CountedIn(listById: map<string, BoardList>): Card -> bool
  {
    (c: Card) => Counted(listById, c)
  }

  /** The counted cards, one hit each. */
  lemma {:induction false} ListHitsLength(listById: map<string, BoardList>, cards: seq<Card>)
    ensures |ListHits(listById, cards)| == |Filter(cards, CountedIn(listById))|
  {
    if cards != [] {
      ListHitsLength(listById, cards[..|cards| - 1]);
    }
  }

  /** A list's hits are its cards, provided it can be counted at all. */
  lemma {:induction false} ListHitsCount(listById: map<string, BoardList>, cards: seq<Card>, k: string)
    ensures multiset(ListHits(listById, cards))[k]
            == if k != "" && k in listById then |Filter(cards, InList(k))| else 0
  {
    if cards != [] {
      var c := cards[|cards| - 1];
      ListHitsCount(listById, cards[..|cards| - 1], k);
      assert multiset(ListHits(listById, cards))
             == multiset(ListHits(listById, cards[..|cards| - 1])) + multiset(if Counted(listById, c) then [c.idList] else []);
    }
  }

  lemma ListRowIdsOf(d: seq<string>, counts: multiset<string>, listById: map<string, BoardList>)
    ensures ListRowIds(RowsOf(d, counts, QuickListRowMaker(listById))) == d
  {
  }

  /** Rearranged rows keep their ids, each as often as before. */
  lemma RearrangedRowIds(u: seq<QuickListRow>, rows: seq<QuickListRow>)
    requires multiset(rows) == multiset(u)
    requires NoDup(ListRowIds(u))
    ensures NoDup(ListRowIds(rows))
    ensures forall k :: k in ListRowIds(rows) <==> k in ListRowIds(u)
  {
    KeysStayDistinct(u, rows, (r: QuickListRow) => r.id);
    var ids, uids := ListRowIds(rows), ListRowIds(u);
    forall k ensures k in ids <==> k in uids {
      if k in ids {
        var i :| 0 <= i < |ids| && ids[i] == k;
        assert rows[i] in multiset(u);
        var j :| 0 <= j < |u| && u[j] == rows[i];
        assert uids[j] == k;
      }
      if k in uids {
        var j :| 0 <= j < |uids| && uids[j] == k;
        assert u[j] in multiset(rows);
        var i :| 0 <= i < |rows| && rows[i] == u[j];
        assert ids[i] == k;
      }
    }
  }

  /** There is exactly one row per open list id, however many cards it has:
      the row ids are pairwise distinct and are the open lists' ids. */
  lemma ListRowsOnePerList(lists: seq<BoardList>, cards: seq<Card>)
    ensures var ids := ListRowIds(ListRowsOf(lists, cards));
            && NoDup(ids)
            && (forall k :: k in ids <==> k in ListIdsOf(OpenLists(lists)))
            && |ids| == |Distinct(ListIdsOf(OpenLists(lists)))|
  {
    var open := OpenLists(lists);
    var byId := ListById(open);
    var d := Distinct(ListIdsOf(open));
    var hits := multiset(ListHits(byId, OpenCards(cards)));
    var u := RowsOf(d, hits, QuickListRowMaker(byId));
    ListRowIdsOf(d, hits, byId);
    RearrangedRowIds(u, ListRowsOf(lists, cards));
  }

  /** Every list row counts the open cards of its list, whatever their
      filters, and only when the id is not empty; its name is the list's
      name, or "Lista" when that is empty. */
  lemma ListRowsCount(lists: seq<BoardList>, cards: seq<Card>, r: QuickListRow)
    requires r in ListRowsOf(lists, cards)
    ensures r.id in ListById(OpenLists(lists))
    ensures r.count == if r.id != "" then |Filter(OpenCards(cards), InList(r.id))| else 0
    ensures r.name == if ListById(OpenLists(lists))[r.id].name != "" then ListById(OpenLists(lists))[r.id].name
                      else DefaultListName
  {
    var open := OpenLists(lists);
    var byId := ListById(open);
    var d := Distinct(ListIdsOf(open));
    var hits := ListHits(byId, OpenCards(cards));
    SortedRowsMembers(d, multiset(hits), QuickListRowMaker(byId), DescBy(QuickListCount), r);
    var i :| 0 <= i < |d| && r == QuickListRowMaker(byId)(d[i], multiset(hits)[d[i]]);
    DistinctMember(ListIdsOf(open), i);
    ListHitsCount(byId, OpenCards(cards), d[i]);
  }

  /** The rows run from the fullest list down, `maxList` is the largest
      count, and the counts add up to the number of open cards whose list is
      an open one. */
  lemma ListRowsRanked(lists: seq<BoardList>, cards: seq<Card>)
    ensures SortedDesc(ListRowsOf(lists, cards), QuickListCount)
    ensures forall r :: r in ListRowsOf(lists, cards) ==> r.count <= MaxList(ListRowsOf(lists, cards))
    ensures SumBy(ListRowsOf(lists, cards), QuickListCount)
            == |Filter(OpenCards(cards), CountedIn(ListById(OpenLists(lists))))|
  {
    var open := OpenLists(lists);
    var byId := ListById(open);
    var ids := ListIdsOf(open);
    var d := Distinct(ids);
    var hits := ListHits(byId, OpenCards(cards));
    var u := RowsOf(d, multiset(hits), QuickListRowMaker(byId));
    var rows := ListRowsOf(lists, cards);
    SortDescSorted(u, QuickListCount);
    if rows != [] {
      SortedDescFirst(rows, QuickListCount);
    }
    SortSum(u, DescBy(QuickListCount), QuickListCount);
    RowsSum(d, multiset(hits), QuickListRowMaker(byId), QuickListCount);
    forall i | 0 <= i < |hits| ensures hits[i] in d {
      assert hits[i] in ids;
    }
    SumOfCovered(d, hits);
    ListHitsLength(byId, OpenCards(cards));
  }

  lemma OwnerRowIdsOf(d: seq<string>, counts: multiset<string>, memberById: map<string, Member>)
    ensures OwnerRowIds(RowsOf(d, counts, QuickOwnerRowMaker(memberById))) == d
  {
  }

  /** The owner comparator always yields NaN, so the sort leaves the rows
      where they were: one per owner of an open card, in order of first
      occurrence. */
  lemma OwnerRowsUnsorted(cards: seq<Card>, members: seq<Member>)
    ensures var ks := OwnerKeys(OpenCards(cards));
            OwnerRowsOf(cards, members) == RowsOf(Distinct(ks), multiset(ks), QuickOwnerRowMaker(MemberById(members)))
    ensures OwnerRowIds(OwnerRowsOf(cards, members)) == Distinct(OwnerKeys(OpenCards(cards)))
  {
    var ks := OwnerKeys(OpenCards(cards));
    var mk := QuickOwnerRowMaker(MemberById(members));
    SortNeutral(RowsOf(Distinct(ks), multiset(ks), mk), OwnerComparator());
    OwnerRowIdsOf(Distinct(ks), multiset(ks), MemberById(members));
  }

  /** How often `o` owns a card of `cards`: once per listing in `idMembers`,
      or once for a card without members when `o` is `"none"`. */
  function OwnerTally(cards: seq<Card>, o: string): nat
  {
    if cards == [] then 0
    else OwnerTally(cards[..|cards| - 1], o) + multiset(Owners(cards[|cards| - 1]))[o]
  }

  lemma {:induction false} OwnerKeysTally(cards: seq<Card>, o: string)
    ensures multiset(OwnerKeys(cards))[o] == OwnerTally(cards, o)
  {
    if cards != [] {
      OwnerKeysTally(cards[..|cards| - 1], o);
      assert multiset(OwnerKeys(cards))
             == multiset(OwnerKeys(cards[..|cards| - 1])) + multiset(Owners(cards[|cards| - 1]));
    }
  }

  /** `memberCounts` has one counter per owner of an open card, in order of
      first occurrence, counting that owner over all open cards, whether or
      not their list is open. */
  lemma MemberCounts(cards: seq<Card>, o: string)
    ensures var acc := BumpAll(Empty(), OwnerKeys(OpenCards(cards)));
            && acc.keys == Distinct(OwnerKeys(OpenCards(cards)))
            && Count(acc, o) == OwnerTally(OpenCards(cards), o)
  {
    CountFresh(OwnerKeys(OpenCards(cards)));
    OwnerKeysTally(OpenCards(cards), o);
  }

  /** Every heat cell counts the open cards of its row's list that its
      column's owner owns. */
  lemma HeatCells(lists: seq<BoardList>, cards: seq<Card>, members: seq<Member>)
    ensures var ls := ListRowIds(ListRowsOf(lists, cards));
            var os := OwnerRowIds(OwnerRowsOf(cards, members));
            var heat := HeatOf(MatrixOf(OpenCards(cards)), ls, os);
            forall i, j :: 0 <= i < |ls| && 0 <= j < |os| ==> heat[i][j] == PairCount(OpenCards(cards), ls[i], os[j])
  {
    var ls := ListRowIds(ListRowsOf(lists, cards));
    var os := OwnerRowIds(OwnerRowsOf(cards, members));
    forall i, j | 0 <= i < |ls| && 0 <= j < |os|
      ensures Cell(MatrixOf(OpenCards(cards)), ls[i], os[j]) == PairCount(OpenCards(cards), ls[i], os[j])
    {
      MatrixCells(OpenCards(cards), ls[i], os[j]);
    }
  }

  // ----------------------------------------------------------- heat columns

  /** The sum of column `j` of the heat map. */
  function ColumnTotal(heat: seq<seq<nat>>, j: nat): nat
  {
    if heat == [] then 0
    else
      var row := heat[|heat| - 1];
      ColumnTotal(heat[..|heat| - 1], j) + (if j < |row| then row[j] else 0)
  }

  /** `Σ PairCount(cards, l, o)` over the lists `ls`. */
  function ColumnSum(ls: seq<string>, cards: seq<Card>, o: string): nat
  {
    if ls == [] then 0 else ColumnSum(ls[..|ls| - 1], cards, o) + PairCount(cards, ls[|ls| - 1], o)
  }

  /** How often `o` owns a card whose list is among `ls`. */
  function HeatTally(ls: seq<string>, cards: seq<Card>, o: string): nat
  {
    if cards == [] then 0
    else
      var c := cards[|cards| - 1];
      HeatTally(ls, cards[..|cards| - 1], o) + (if c.idList in ls then multiset(Owners(c))[o] else 0)
  }

  /** How often `o` owns a card whose list is not among `ls`. */
  function LostTally(ls: seq<string>, cards: seq<Card>, o: string): nat
  {
    if cards == [] then 0
    else
      var c := cards[|cards| - 1];
      LostTally(ls, cards[..|cards| - 1], o) + (if c.idList in ls then 0 else multiset(Owners(c))[o])
  }

  lemma {:induction false} TallySplit(ls: seq<string>, cards: seq<Card>, o: string)
    ensures OwnerTally(cards, o) == HeatTally(ls, cards, o) + LostTally(ls, cards, o)
  {
    if cards != [] {
      TallySplit(ls, cards[..|cards| - 1], o);
    }
  }

  lemma {:induction false} LostNone(ls: seq<string>, cards: seq<Card>, o: string)
    requires forall c :: c in cards ==> c.idList in ls
    ensures LostTally(ls, cards, o) == 0
  {
    if cards != [] {
      LastSplit(cards);
      LostNone(ls, cards[..|cards| - 1], o);
    }
  }

  lemma {:induction false} LostPositive(ls: seq<string>, cards: seq<Card>, c: Card, o: string)
    requires c in cards && c.idList !in ls
    ensures LostTally(ls, cards, o) >= multiset(Owners(c))[o]
  {
    LastSplit(cards);
    if c != cards[|cards| - 1] {
      LostPositive(ls, cards[..|cards| - 1], c, o);
    }
  }

  lemma {:induction false} OwnerListed(cards: seq<Card>, c: Card, o: string)
    requires c in cards && o in Owners(c)
    ensures o in OwnerKeys(cards)
  {
    LastSplit(cards);
    if c != cards[|cards| - 1] {
      OwnerListed(cards[..|cards| - 1], c, o);
    }
  }

  lemma {:induction false} ColumnEmpty(ls: seq<string>, o: string)
    ensures ColumnSum(ls, [], o) == 0
  {
    if ls != [] {
      ColumnEmpty(ls[..|ls| - 1], o);
    }
  }

  /** The last card adds its owners to the column once, if its list is among
      the duplicate-free `ls`. */
  lemma {:induction false} ColumnStep(ls: seq<string>, cards: seq<Card>, o: string)
    requires NoDup(ls) && cards != []
    ensures var c := cards[|cards| - 1];
            ColumnSum(ls, cards, o)
            == ColumnSum(ls, cards[..|cards| - 1], o) + (if c.idList in ls then multiset(Owners(c))[o] else 0)
  {
    if ls != [] {
      var ls' := ls[..|ls| - 1];
      assert NoDup(ls');
      LastSplit(ls);
      ColumnStep(ls', cards, o);
    }
  }

  lemma {:induction false} ColumnHeat(ls: seq<string>, cards: seq<Card>, o: string)
    requires NoDup(ls)
    ensures ColumnSum(ls, cards, o) == HeatTally(ls, cards, o)
  {
    if cards == [] {
      ColumnEmpty(ls, o);
    } else {
      ColumnHeat(ls, cards[..|cards| - 1], o);
      ColumnStep(ls, cards, o);
    }
  }

  /** A column of the heat map adds the pair counts of its owner. */
  lemma {:induction false} HeatColumn(cards: seq<Card>, ls: seq<string>, os: seq<string>, j: nat)
    requires j < |os|
    ensures ColumnTotal(HeatOf(MatrixOf(cards), ls, os), j) == ColumnSum(ls, cards, os[j])
  {
    if ls != [] {
      var m := MatrixOf(cards);
      var ls' := ls[..|ls| - 1];
      var heat := HeatOf(m, ls, os);
      HeatColumn(cards, ls', os, j);
      HeatPrefix(m, ls, os);
      MatrixCells(cards, ls[|ls| - 1], os[j]);
    }
  }

  lemma HeatPrefix(m: Matrix, ls: seq<string>, os: seq<string>)
    requires ls != []
    ensures HeatOf(m, ls, os)[..|ls| - 1] == HeatOf(m, ls[..|ls| - 1], os)
  {
    var a, b := HeatOf(m, ls, os)[..|ls| - 1], HeatOf(m, ls[..|ls| - 1], os);
    forall i | 0 <= i < |a| ensures a[i] == b[i] {
      assert |a[i]| == |b[i]| == |os|;
      forall j | 0 <= j < |os| ensures a[i][j] == b[i][j] {
      }
    }
  }

  /** Column `j` of `heat` adds up to the counter of owner `os[j]`, for every `j`. */
  ghost predicate ColumnsMatch(heat: seq<seq<nat>>, os: seq<string>, memberCounts: OMap<string, nat>)
  {
    forall j :: 0 <= j < |os| ==> ColumnTotal(heat, j) == Count(memberCounts, os[j])
  }

  /** Every card of `cards` is in one of the lists `ids`. */
  ghost predicate InListsOf(cards: seq<Card>, ids: seq<string>)
  {
    forall c :: c in cards ==> c.idList in ids
  }

  lemma ColumnsIff(heat: seq<seq<nat>>, os: seq<string>, memberCounts: OMap<string, nat>,
                   ls: seq<string>, open: seq<Card>, ids: seq<string>)
    requires forall j :: 0 <= j < |os| ==> ColumnTotal(heat, j) + LostTally(ls, open, os[j]) == Count(memberCounts, os[j])
    requires forall k :: k in ls <==> k in ids
    requires forall c, o :: c in open && o in Owners(c) ==> o in os
    ensures ColumnsMatch(heat, os, memberCounts) <==> InListsOf(open, ids)
  {
    if InListsOf(open, ids) {
      forall o ensures LostTally(ls, open, o) == 0 {
        LostNone(ls, open, o);
      }
    } else {
      var c :| c in open && c.idList !in ids;
      var o := Owners(c)[0];
      assert o in Owners(c);
      assert o in os;
      var j :| 0 <= j < |os| && os[j] == o;
      LostPositive(ls, open, c, o);
    }
  }

  /** What column `j` misses of its owner's counter: the cards outside the rows. */
  lemma ColumnGap(lists: seq<BoardList>, cards: seq<Card>, members: seq<Member>, j: nat)
    requires j < |OwnerRowIds(OwnerRowsOf(cards, members))|
    ensures var ls := ListRowIds(ListRowsOf(lists, cards));
            var os := OwnerRowIds(OwnerRowsOf(cards, members));
            ColumnTotal(HeatOf(MatrixOf(OpenCards(cards)), ls, os), j) + LostTally(ls, OpenCards(cards), os[j])
            == Count(BumpAll(Empty(), OwnerKeys(OpenCards(cards))), os[j])
  {
    var open := OpenCards(cards);
    var ls := ListRowIds(ListRowsOf(lists, cards));
    var os := OwnerRowIds(OwnerRowsOf(cards, members));
    ListRowsOnePerList(lists, cards);
    HeatColumn(open, ls, os, j);
    ColumnHeat(ls, open, os[j]);
    MemberCounts(cards, os[j]);
    TallySplit(ls, open, os[j]);
  }

  /** Every owner of an open card has a column. */
  lemma OwnersCovered(cards: seq<Card>, members: seq<Member>)
    ensures forall c, o :: c in OpenCards(cards) && o in Owners(c) ==> o in OwnerRowIds(OwnerRowsOf(cards, members))
  {
    OwnerRowsUnsorted(cards, members);
    forall c, o | c in OpenCards(cards) && o in Owners(c) ensures o in Distinct(OwnerKeys(OpenCards(cards))) {
      OwnerListed(OpenCards(cards), c, o);
    }
  }

  /** Every column of the heat map adds up to its owner's `memberCounts`
      entry exactly when every open card sits in an open list: a card of a
      closed or unknown list counts for its owners but reaches no row. */
  lemma HeatColumns(lists: seq<BoardList>, cards: seq<Card>, members: seq<Member>)
    ensures var os := OwnerRowIds(OwnerRowsOf(cards, members));
            var heat := HeatOf(MatrixOf(OpenCards(cards)), ListRowIds(ListRowsOf(lists, cards)), os);
            ColumnsMatch(heat, os, BumpAll(Empty(), OwnerKeys(OpenCards(cards))))
            <==> InListsOf(OpenCards(cards), ListIdsOf(OpenLists(lists)))
  {
    var open := OpenCards(cards);
    var ls := ListRowIds(ListRowsOf(lists, cards));
    var os := OwnerRowIds(OwnerRowsOf(cards, members));
    var ids := ListIdsOf(OpenLists(lists));
    var heat := HeatOf(MatrixOf(open), ls, os);
    var memberCounts := BumpAll(Empty(), OwnerKeys(open));
    assert forall k :: k in ls <==> k in ids by {
      ListRowsOnePerList(lists, cards);
    }
    assert forall c, o :: c in open && o in Owners(c) ==> o in os by {
      OwnersCovered(cards, members);
    }
    forall j | 0 <= j < |os| ensures ColumnTotal(heat, j) + LostTally(ls, open, os[j]) == Count(memberCounts, os[j]) {
      ColumnGap(lists, cards, members, j);
    }
    ColumnsIff(heat, os, memberCounts, ls, open, ids);
  }
}
