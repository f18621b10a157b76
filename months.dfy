/** The monthly activity series: cards bucketed by the `YYYY-MM` of their
    last activity, in ascending month order, optionally as a running total
    ("acumulado" mode). */
module Months {
  import opened Seqs
  import opened Strings
  import opened Sorting
  import opened OrderedMaps
  import opened Board
  import opened Tallies

  /** The month number `getMonth() + 1` as two digits: `01` to `09`, then
      `10` to `12`. */
  function MonthDigits(m: MonthIndex): (r: string)
    ensures |r| == 2 && '0' <= r[0] <= '1' && '0' <= r[1] <= '9'
  {
    [if m < 9 then '0' else '1', Digit(if m < 9 then m + 1 else m - 9)]
  }

  /** The two digits are what `String(m + 1).padStart(2, "0")` produces. */
  lemma MonthDigitsPadded(m: MonthIndex)
    ensures MonthDigits(m) == PadStart(NatToString(m + 1), 2, '0')
  {
    if m < 9 {
      OneDigitPadded(m + 1);
    } else {
      TwoDigitsPadded(m + 1);
    }
  }

  lemma OneDigitPadded(n: nat)
    requires 1 <= n < 10
    ensures PadStart(NatToString(n), 2, '0') == ['0', Digit(n)]
  {
    assert NatToString(n) == [Digit(n)];
    assert PadStart(['0', Digit(n)], 2, '0') == ['0', Digit(n)];
    assert ['0'] + [Digit(n)] == ['0', Digit(n)];
  }

  lemma TwoDigitsPadded(n: nat)
    requires 10 <= n < 20
    ensures PadStart(NatToString(n), 2, '0') == ['1', Digit(n - 10)]
  {
    assert n / 10 == 1 && n % 10 == n - 10;
    assert NatToString(1) == ['1'];
    assert NatToString(n) == ['1'] + [Digit(n - 10)];
    assert ['1'] + [Digit(n - 10)] == ['1', Digit(n - 10)];
  }

  /** `fmtMonth(d)`: the year, a dash and the two-digit month. */
  function FmtMonth(d: Instant): (r: string)
    ensures 1000 <= d.year <= 9999 ==> |r| == 7 && r[4] == '-'
  {
    var r := IntToString(d.year) + "-" + MonthDigits(d.month);
    if 1000 <= d.year <= 9999 then
      DigitCountFour(d.year);
      NatToStringLength(d.year);
      r
    else r
  }

  lemma MonthDigitsOrder(m: MonthIndex, n: MonthIndex)
    ensures Less(MonthDigits(m), MonthDigits(n)) <==> m < n
  {
    LessPair(MonthDigits(m), MonthDigits(n));
    if m < 9 && n < 9 {
      DigitOrder(m + 1, n + 1);
    } else if m >= 9 && n >= 9 {
      DigitOrder(m - 9, n - 9);
    }
  }

  /** For four-digit years, the text order of month keys is the calendar
      order, and two instants share a key exactly when they share a year and
      a month. */
  lemma FmtMonthOrder(a: Instant, b: Instant)
    requires 1000 <= a.year <= 9999 && 1000 <= b.year <= 9999
    ensures Less(FmtMonth(a), FmtMonth(b)) <==> a.year < b.year || (a.year == b.year && a.month < b.month)
    ensures FmtMonth(a) == FmtMonth(b) <==> a.year == b.year && a.month == b.month
  {
    FmtMonthLess(a, b);
    FmtMonthLess(b, a);
    var x, y := FmtMonth(a), FmtMonth(b);
    if x != y {
      LessTotal(x, y);
    } else {
      LessIrreflexive(x);
    }
  }

  lemma FmtMonthLess(a: Instant, b: Instant)
    requires 1000 <= a.year <= 9999 && 1000 <= b.year <= 9999
    ensures Less(FmtMonth(a), FmtMonth(b)) <==> a.year < b.year || (a.year == b.year && a.month < b.month)
  {
    var ya, yb := NatToString(a.year), NatToString(b.year);
    var ma, mb := "-" + MonthDigits(a.month), "-" + MonthDigits(b.month);
    DigitCountFour(a.year);
    DigitCountFour(b.year);
    NatToStringLength(a.year);
    NatToStringLength(b.year);
    assert FmtMonth(a) == ya + ma && FmtMonth(b) == yb + mb;
    if a.year != b.year {
      NatToStringRoundTrip(a.year);
      NatToStringRoundTrip(b.year);
      LessDifferingPrefix(ya, ma, yb, mb);
      NatToStringOrder(a.year, b.year);
    } else {
      assert ya + ma == (ya + "-") + MonthDigits(a.month);
      assert yb + mb == (ya + "-") + MonthDigits(b.month);
      LessCommonPrefix(ya + "-", MonthDigits(a.month), MonthDigits(b.month));
      MonthDigitsOrder(a.month, b.month);
    }
  }

  function HasActivity(c: Card): bool { c.dateLastActivity.Some? }

  /** The month key of every card with a last activity, in card order. */
  function MonthKeys(cards: seq<Card>): seq<string>
  {
    if cards == [] then []
    else
      var c := cards[|cards| - 1];
      MonthKeys(cards[..|cards| - 1]) + (if c.dateLastActivity.Some? then [FmtMonth(c.dateLastActivity.value)] else [])
  }

  lemma {:induction false} MonthKeysLength(cards: seq<Card>)
    ensures |MonthKeys(cards)| == |Filter(cards, HasActivity)|
  {
    if cards != [] {
      MonthKeysLength(cards[..|cards| - 1]);
    }
  }

  lemma MonthKeysStep(cards: seq<Card>, i: nat)
    requires i < |cards|
    ensures cards[i].dateLastActivity.None? ==> MonthKeys(cards[..i + 1]) == MonthKeys(cards[..i])
    ensures cards[i].dateLastActivity.Some? ==>
              MonthKeys(cards[..i + 1]) == MonthKeys(cards[..i]) + [FmtMonth(cards[i].dateLastActivity.value)]
  {
    assert cards[..i + 1][..i] == cards[..i];
  }

  datatype MonthPoint = MonthPoint(month: string, value: nat)

  function MonthOf(p: MonthPoint): string { p.month }

  function MonthValue(p: MonthPoint): int { p.value }

  function MonthPointMaker(): (string, nat) -> MonthPoint
  {
    (k: string, n: nat) => MonthPoint(k, n)
  }

  /** The `mensal` series: one point per month key, sorted by the comparator
      `(a, b) => (a.month > b.month ? 1 : -1)`. */
  function MonthlySeries(filtered: seq<Card>): seq<MonthPoint>
  {
    var ks := MonthKeys(filtered);
    Sort(RowsOf(Distinct(ks), multiset(ks), MonthPointMaker()), AscByString(MonthOf))
  }

  /** The bucketing loop of `monthly`: cards without a last activity are skipped. */
  method CountMonths(filtered: seq<Card>) returns (acc: OMap<string, nat>)
    ensures acc == BumpAll(Empty(), MonthKeys(filtered))
  {
    acc := Empty();
    for i := 0 to |filtered|
      invariant acc == BumpAll(Empty(), MonthKeys(filtered[..i]))
    {
      var c := filtered[i];
      MonthKeysStep(filtered, i);
      if c.dateLastActivity.Some? {
        var k := FmtMonth(c.dateLastActivity.value);
        BumpAllConcat(Empty(), MonthKeys(filtered[..i]), [k]);
        acc := Bump(acc, k);
      }
    }
    assert filtered[..|filtered|] == filtered;
  }

  /** The `acumulado` mapping `arr.map(r => ({ ...r, value: (run += r.value) }))`:
      every point carries the total up to and including its month, so the
      values never decrease and the last one is the total of the series. */
  method Accumulate(arr: seq<MonthPoint>) returns (out: seq<MonthPoint>)
    ensures |out| == |arr|
    ensures forall i :: 0 <= i < |arr| ==>
              out[i].month == arr[i].month && out[i].value == SumBy(arr[..i + 1], MonthValue)
    ensures forall i, j :: 0 <= i <= j < |out| ==> out[i].value <= out[j].value
    ensures out != [] ==> out[|out| - 1].value == SumBy(arr, MonthValue)
  {
    var run: nat := 0;
    out := [];
    for i := 0 to |arr|
      invariant |out| == i
      invariant run == SumBy(arr[..i], MonthValue)
      invariant forall k :: 0 <= k < i ==>
                  out[k].month == arr[k].month && out[k].value == SumBy(arr[..k + 1], MonthValue)
    {
      assert arr[..i + 1][..i] == arr[..i];
      run := run + arr[i].value;
      out := out + [MonthPoint(arr[i].month, run)];
    }
    assert arr[..|arr|] == arr;
    RunningTotalsGrow(arr, out);
  }

  /** Points carrying prefix sums have values that never decrease. */
  lemma RunningTotalsGrow(arr: seq<MonthPoint>, out: seq<MonthPoint>)
    requires |out| == |arr|
    requires forall i :: 0 <= i < |arr| ==> out[i].value == SumBy(arr[..i + 1], MonthValue)
    ensures forall i, j :: 0 <= i <= j < |out| ==> out[i].value <= out[j].value
  {
    forall a, b | 0 <= a <= b < |out| ensures out[a].value <= out[b].value {
      PrefixSumGrows(arr, a + 1, b + 1);
    }
  }

  /** Month counts are never negative, so a longer prefix sums to at least as much. */
  lemma {:induction false} PrefixSumGrows(arr: seq<MonthPoint>, i: nat, j: nat)
    requires i <= j <= |arr|
    ensures SumBy(arr[..i], MonthValue) <= SumBy(arr[..j], MonthValue)
    decreases j
  {
    if i < j {
      assert arr[..j][..j - 1] == arr[..j - 1];
      PrefixSumGrows(arr, i, j - 1);
    }
  }

  /** `monthly`: the `mensal` series, or its running totals in `acumulado` mode. */
  method Monthly(filtered: seq<Card>, cumulative: bool) returns (arr: seq<MonthPoint>)
    ensures !cumulative ==> arr == MonthlySeries(filtered)
    ensures cumulative ==>
              var m := MonthlySeries(filtered);
              && |arr| == |m|
              && (forall i :: 0 <= i < |m| ==> arr[i].month == m[i].month && arr[i].value == SumBy(m[..i + 1], MonthValue))
              && (forall i, j :: 0 <= i <= j < |arr| ==> arr[i].value <= arr[j].value)
              && (arr != [] ==> arr[|arr| - 1].value == |Filter(filtered, HasActivity)|)
  {
    arr := MonthlyPoints(filtered);
    if cumulative {
      MonthlyTotal(filtered);
      arr := Accumulate(arr);
    }
  }

  /** The bucketing loop, then the points of its entries in month order. */
  method MonthlyPoints(filtered: seq<Card>) returns (arr: seq<MonthPoint>)
    ensures arr == MonthlySeries(filtered)
  {
    var map_ := CountMonths(filtered);
    CountedRows(MonthKeys(filtered), MonthPointMaker());
    arr := RowsOfEntries(map_.Entries(), MonthPointMaker());
    arr := Sort(arr, AscByString(MonthOf));
  }

  /** The monthly counts add up to the number of cards with a last activity. */
  lemma MonthlyTotal(filtered: seq<Card>)
    ensures SumBy(MonthlySeries(filtered), MonthValue) == |Filter(filtered, HasActivity)|
  {
    var ks := MonthKeys(filtered);
    SortSum(RowsOf(Distinct(ks), multiset(ks), MonthPointMaker()), AscByString(MonthOf), MonthValue);
    RowsSum(Distinct(ks), multiset(ks), MonthPointMaker(), MonthValue);
    SumOfDistinct(ks);
    MonthKeysLength(filtered);
  }

  /** The month keys of the series are strictly ascending, so each month
      occurs once, and every point counts the cards active in its month. */
  lemma MonthlyAscending(filtered: seq<Card>)
    ensures StrictlyAscending(MonthlySeries(filtered), MonthOf)
    ensures forall p :: p in MonthlySeries(filtered) ==> p.value == multiset(MonthKeys(filtered))[p.month] > 0
  {
    var ks := MonthKeys(filtered);
    var d := Distinct(ks);
    MonthRowsDistinct(d, multiset(ks));
    SortAscStrict(RowsOf(d, multiset(ks), MonthPointMaker()), MonthOf);
    forall p | p in MonthlySeries(filtered) ensures p.value == multiset(ks)[p.month] > 0 {
      MonthPointCount(ks, p);
    }
  }

  /** The unsorted points carry distinct months. */
  lemma MonthRowsDistinct(d: seq<string>, counts: multiset<string>)
    requires NoDup(d)
    ensures var rows := RowsOf(d, counts, MonthPointMaker());
            forall i, j :: 0 <= i < j < |rows| ==> MonthOf(rows[i]) != MonthOf(rows[j])
  {
    var rows := RowsOf(d, counts, MonthPointMaker());
    forall i, j | 0 <= i < j < |rows| ensures MonthOf(rows[i]) != MonthOf(rows[j]) {
      assert MonthOf(rows[i]) == d[i] && MonthOf(rows[j]) == d[j];
    }
  }

  /** A point of the sorted series counts the occurrences of its month key. */
  lemma MonthPointCount(ks: seq<string>, p: MonthPoint)
    requires p in Sort(RowsOf(Distinct(ks), multiset(ks), MonthPointMaker()), AscByString(MonthOf))
    ensures p.value == multiset(ks)[p.month] > 0
  {
    var d := Distinct(ks);
    SortedRowsMembers(d, multiset(ks), MonthPointMaker(), AscByString(MonthOf), p);
    var i :| 0 <= i < |d| && p == MonthPointMaker()(d[i], multiset(ks)[d[i]]);
    DistinctMember(ks, i);
  }
}
