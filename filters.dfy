/** The dashboard's card filter: four optional criteria (lists, labels,
    members, a due-date range), the badge that counts active criteria, and
    the helpers that toggle a selection and clear everything. */
module Filters {
  import opened Seqs
  import opened Board

  /** The filter state. A due bound is the instant its `YYYY-MM-DD` text
      starts at; an empty input field is `None`. */
  datatype FilterState = FilterState(
    lists: set<string>,
    labels: set<string>,
    members: set<string>,
    dueFrom: Option<int>,
    dueTo: Option<int>)

  /** The last millisecond of the day that starts at `dayStart`, where
      `setHours(23, 59, 59, 999)` moves the upper bound. */
  function EndOfDay(dayStart: int): (r: int)
    ensures dayStart <= r < dayStart + MsPerDay
  {
    dayStart + MsPerDay - 1
  }

  /** `dateInside(iso, from, to)`: a missing date is never inside; otherwise
      neither bound may be violated, the upper one counting its whole day. */
  function DateInside(due: Option<Due>, from: Option<int>, to: Option<int>): (r: bool)
    ensures r <==> due.Some? && (from.None? || from.value <= due.value.ms)
                   && (to.None? || due.value.ms < to.value + MsPerDay)
    ensures r ==> due.Some?
    ensures due.Some? && from.None? && to.None? ==> r
    ensures (due.Some? && to.Some? && to.value <= due.value.ms < to.value + MsPerDay
             && (from.None? || from.value <= due.value.ms)) ==> r
    ensures due.Some? && to.Some? && due.value.ms >= to.value + MsPerDay ==> !r
    ensures due.Some? && from.Some? && due.value.ms < from.value ==> !r
  {
    if due.None? then false
    else if from.Some? && due.value.ms < from.value then false
    else if to.Some? && due.value.ms > EndOfDay(to.value) then false
    else true
  }

  /** The meaning of the filter, criterion by criterion. */
  predicate Matches(f: FilterState, c: Card)
  {
    && (f.lists != {} ==> c.idList in f.lists)
    && (f.labels != {} ==> exists l :: l in c.labels && l.id in f.labels)
    && (f.members != {} ==> exists m :: m in c.idMembers && m in f.members)
    && (f.dueFrom.Some? || f.dueTo.Some? ==>
          c.due.Some?
          && (f.dueFrom.Some? ==> f.dueFrom.value <= c.due.value.ms)
          && (f.dueTo.Some? ==> c.due.value.ms <= EndOfDay(f.dueTo.value)))
  }

  function Criteria(f: FilterState): Card -> bool
  {
    c => Matches(f, c)
  }

  /** The inner `for (const id of selected) if (present.has(id)) { ok = true; break; }`. */
  method AnySelected(selected: set<string>, present: set<string>) returns (ok: bool)
    ensures ok <==> exists id :: id in selected && id in present
  {
    ok := false;
    var rest := selected;
    while rest != {}
      invariant rest <= selected
      invariant forall id :: id in selected - rest ==> id !in present
      decreases rest
    {
      var id :| id in rest;
      if id in present {
        ok := true;
        break;
      }
      rest := rest - {id};
    }
  }

  /** The callback given to `cards.filter`, with its early returns. */
  method Keep(f: FilterState, c: Card) returns (keep: bool)
    ensures keep == Matches(f, c)
  {
    if f.lists != {} && c.idList !in f.lists {
      return false;
    }
    if f.labels != {} {
      var ids := set l | l in c.labels :: l.id;
      var ok := AnySelected(f.labels, ids);
      if !ok {
        return false;
      }
    }
    if f.members != {} {
      var ms := set m | m in c.idMembers;
      var ok := AnySelected(f.members, ms);
      if !ok {
        return false;
      }
    }
    if f.dueFrom.Some? || f.dueTo.Some? {
      if c.due.None? {
        return false;
      }
      if !DateInside(c.due, f.dueFrom, f.dueTo) {
        return false;
      }
    }
    return true;
  }

  /** `filteredCards`. */
  method FilteredCards(cards: seq<Card>, f: FilterState) returns (out: seq<Card>)
    ensures out == Filter(cards, Criteria(f))
  {
    out := [];
    for i := 0 to |cards|
      invariant out == Filter(cards[..i], Criteria(f))
    {
      var keep := Keep(f, cards[i]);
      assert cards[..i + 1][..i] == cards[..i];
      if keep {
        out := out + [cards[i]];
      }
    }
    assert cards[..|cards|] == cards;
  }

  /** The filtered cards are the cards that match, in their original order. */
  lemma FilteredInOrder(cards: seq<Card>, f: FilterState)
    ensures IsSubsequence(Filter(cards, Criteria(f)), cards)
    ensures forall c :: c in Filter(cards, Criteria(f)) <==> c in cards && Matches(f, c)
  {
    FilterIsSubsequence(cards, Criteria(f));
  }

  /** `activeFilterCount`: selected entries plus one for the date range. */
  function ActiveFilterCount(f: FilterState): (n: nat)
    ensures n == 0 <==> f == ClearFilters()
    ensures n >= |f.lists| + |f.labels| + |f.members|
  {
    |f.lists| + |f.labels| + |f.members| + (if f.dueFrom.Some? || f.dueTo.Some? then 1 else 0)
  }

  /** `clearFilters`: every selection empty and both bounds blank. */
  function ClearFilters(): (f: FilterState)
    ensures forall c :: Matches(f, c)
  {
    FilterState({}, {}, {}, None, None)
  }

  /** When the badge shows 0, the filter keeps every card in order. */
  lemma {:induction false} NoActiveFilterKeepsAll(cards: seq<Card>, f: FilterState)
    requires ActiveFilterCount(f) == 0
    ensures Filter(cards, Criteria(f)) == cards
  {
    assert f == ClearFilters();
    FilterAll(cards, Criteria(f));
  }

  /** `toggleSet`: the value leaves a set that holds it and joins one that
      does not; every other value stays as it was. */
  method ToggleSet(s: set<string>, value: string) returns (next: set<string>)
    ensures value in next <==> value !in s
    ensures forall x :: x != value ==> (x in next <==> x in s)
    ensures |next| == if value in s then |s| - 1 else |s| + 1
  {
    next := s;
    if value in next {
      next := next - {value};
    } else {
      next := next + {value};
    }
  }
}
