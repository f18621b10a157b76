/** `weeklyDigest`: the plain-text summary of the cards active in the last
    seven days, grouped by list and then by owner. */
module Digest {
  import opened Seqs
  import opened Strings
  import opened OrderedMaps
  import opened Board

  const DigestDays: nat := 7
  const NoOwnerLabel := "(Sem responsável)"
  const DefaultList := "Lista"
  const DefaultTitle := "Relatório"

  /** The cards last active at or after `limit`. */
  function IsRecent(limit: int): Card -> bool
  {
    (c: Card) => c.dateLastActivity.Some? && c.dateLastActivity.value.ms >= limit
  }

  /** `recent`, with `limit` seven days before `now`. */
  function Recent(filtered: seq<Card>, now: int): seq<Card>
  {
    Filter(filtered, IsRecent(now - DigestDays * MsPerDay))
  }

  /** The heading of a card's section: its list's name, or `Lista`. */
  function ListLabel(listNames: map<string, string>, c: Card): string
  {
    NameOr(listNames, c.idList, DefaultList)
  }

  /** The owners of a card in the digest: its members, or the placeholder. */
  function DigestOwners(c: Card): (os: seq<string>)
    ensures |os| >= 1
    ensures |c.idMembers| > 0 ==> os == c.idMembers
    ensures |c.idMembers| == 0 ==> os == [NoOwnerLabel]
  {
    if |c.idMembers| > 0 then c.idMembers else [NoOwnerLabel]
  }

  /** The names a card is listed under. */
  function OwnerNames(memberNames: map<string, string>, c: Card): seq<string>
  {
    MemberNamesOf(memberNames, DigestOwners(c))
  }

  /** `byList`: list heading to owner name to card names. */
  type Owners = OMap<string, seq<string>>
  type Groups = OMap<string, Owners>

  ghost predicate GroupsValid(g: Groups)
  {
    g.Valid() && forall l :: l in g.vals ==> g.vals[l].Valid()
  }

  /** `if (!byList.has(list)) byList.set(list, new Map())`. */
  function EnsureList(g: Groups, list: string): (g': Groups)
    requires GroupsValid(g)
    ensures GroupsValid(g') && list in g'.vals
  {
    if list in g.vals then g else g.Set(list, Empty())
  }

  /** Pushing `name` onto the items of `who` under `list`, creating them first. */
  function AddItem(g: Groups, list: string, who: string, name: string): (g': Groups)
    requires GroupsValid(g) && list in g.vals
    ensures GroupsValid(g') && g'.keys == g.keys
  {
    var inner := g.vals[list];
    var items := if who in inner.vals then inner.vals[who] else [];
    g.Set(list, inner.Set(who, items + [name]))
  }

  /** The inner loop over a card's owners. */
  function AddOwners(g: Groups, list: string, whos: seq<string>, name: string): (g': Groups)
    requires GroupsValid(g) && list in g.vals
    ensures GroupsValid(g') && list in g'.vals && g'.keys == g.keys
  {
    if whos == [] then g
    else AddItem(AddOwners(g, list, whos[..|whos| - 1], name), list, whos[|whos| - 1], name)
  }

  function AddCard(g: Groups, c: Card, listNames: map<string, string>, memberNames: map<string, string>): (g': Groups)
    requires GroupsValid(g)
    ensures GroupsValid(g')
  {
    var list := ListLabel(listNames, c);
    AddOwners(EnsureList(g, list), list, OwnerNames(memberNames, c), c.name)
  }

  /** `byList` after the cards `cards`. */
  function Grouped(cards: seq<Card>, listNames: map<string, string>, memberNames: map<string, string>): (g: Groups)
    ensures GroupsValid(g)
  {
    if cards == [] then Empty()
    else AddCard(Grouped(cards[..|cards| - 1], listNames, memberNames), cards[|cards| - 1], listNames, memberNames)
  }

  lemma MemberNamesStep(memberNames: map<string, string>, ms: seq<string>, j: nat)
    requires j < |ms|
    ensures MemberNamesOf(memberNames, ms[..j + 1]) == MemberNamesOf(memberNames, ms[..j]) + [NameOr(memberNames, ms[j], ms[j])]
  {
    assert ms[..j + 1][..j] == ms[..j];
  }

  /** `if (!inner.has(who)) inner.set(who, []); inner.get(who).push(name)`. */
  method PushItem(byList: Groups, list: string, who: string, name: string) returns (byList': Groups)
    requires GroupsValid(byList) && list in byList.vals
    ensures byList' == AddItem(byList, list, who, name)
  {
    var inner0 := byList.vals[list];
    byList' := byList;
    if who !in inner0.vals {
      byList' := byList.Set(list, inner0.Set(who, []));
    }
    var inner := byList'.vals[list];
    var items := inner.vals[who];
    assert items == if who in inner0.vals then inner0.vals[who] else [];
    assert inner.Set(who, items + [name]) == inner0.Set(who, items + [name]) by {
      if who !in inner0.vals {
        SetTwice(inner0, who, [], items + [name]);
      }
    }
    byList' := byList'.Set(list, inner.Set(who, items + [name]));
    if who !in inner0.vals {
      SetTwice(byList, list, inner0.Set(who, []), inner0.Set(who, items + [name]));
    }
  }

  /** `for (const m of owners)`: the card's name goes under each owner. */
  method PushOwners(byList: Groups, list: string, owners: seq<string>, name: string, memberNames: map<string, string>)
    returns (byList': Groups)
    requires GroupsValid(byList) && list in byList.vals
    ensures byList' == AddOwners(byList, list, MemberNamesOf(memberNames, owners), name)
  {
    byList' := byList;
    for j := 0 to |owners|
      invariant byList' == AddOwners(byList, list, MemberNamesOf(memberNames, owners[..j]), name)
    {
      MemberNamesStep(memberNames, owners, j);
      var who := NameOr(memberNames, owners[j], owners[j]);
      byList' := PushItem(byList', list, who, name);
    }
    assert owners[..|owners|] == owners;
  }

  lemma GroupedStep(cards: seq<Card>, i: nat, listNames: map<string, string>, memberNames: map<string, string>)
    requires i < |cards|
    ensures Grouped(cards[..i + 1], listNames, memberNames) == AddCard(Grouped(cards[..i], listNames, memberNames), cards[i], listNames, memberNames)
  {
    assert cards[..i + 1][..i] == cards[..i];
  }

  /** The grouping loop. */
  method GroupRecent(recent: seq<Card>, listNames: map<string, string>, memberNames: map<string, string>)
    returns (byList: Groups)
    ensures byList == Grouped(recent, listNames, memberNames)
  {
    byList := Empty();
    for i := 0 to |recent|
      invariant byList == Grouped(recent[..i], listNames, memberNames)
    {
      var c := recent[i];
      var list := ListLabel(listNames, c);
      ghost var prev := byList;
      if list !in byList.vals {
        byList := byList.Set(list, Empty());
      }
      assert byList == EnsureList(prev, list);
      byList := PushOwners(byList, list, DigestOwners(c), c.name, memberNames);
      GroupedStep(recent, i, listNames, memberNames);
    }
    assert recent[..|recent|] == recent;
  }

  // --------------------------------------------------- what grouping keeps

  /** The list heading of every card, in card order. */
  function ListLabels(listNames: map<string, string>, cards: seq<Card>): (ls: seq<string>)
    ensures |ls| == |cards|
    ensures forall i :: 0 <= i < |cards| ==> ls[i] == ListLabel(listNames, cards[i])
  {
    if cards == [] then []
    else ListLabels(listNames, cards[..|cards| - 1]) + [ListLabel(listNames, cards[|cards| - 1])]
  }

  /** The owner names of the cards under heading `list`, in card order,
      repeats included. */
  function OwnersUnder(listNames: map<string, string>, memberNames: map<string, string>,
                       cards: seq<Card>, list: string): seq<string>
  {
    if cards == [] then []
    else
      var c := cards[|cards| - 1];
      OwnersUnder(listNames, memberNames, cards[..|cards| - 1], list)
        + (if ListLabel(listNames, c) == list then OwnerNames(memberNames, c) else [])
  }

  /** `name`, once for every time `who` occurs in `whos`. */
  function Pushes(whos: seq<string>, who: string, name: string): (r: seq<string>)
    ensures |r| == multiset(whos)[who]
    ensures forall x :: x in r ==> x == name
  {
    if whos == [] then []
    else
      assert whos == whos[..|whos| - 1] + [whos[|whos| - 1]];
      Pushes(whos[..|whos| - 1], who, name) + (if whos[|whos| - 1] == who then [name] else [])
  }

  /** The names of the cards under heading `list` listed for owner `who`, in
      card order: a card appears once per time `who` is among its owners. */
  function ItemsUnder(listNames: map<string, string>, memberNames: map<string, string>,
                      cards: seq<Card>, list: string, who: string): seq<string>
  {
    if cards == [] then []
    else
      var c := cards[|cards| - 1];
      ItemsUnder(listNames, memberNames, cards[..|cards| - 1], list, who)
        + (if ListLabel(listNames, c) == list then Pushes(OwnerNames(memberNames, c), who, c.name) else [])
  }

  lemma PushesStep(whos: seq<string>, who: string, name: string)
    requires whos != []
    ensures Pushes(whos, who, name)
            == Pushes(whos[..|whos| - 1], who, name) + (if whos[|whos| - 1] == who then [name] else [])
  {
  }

  lemma {:induction false} PushesAbsent(whos: seq<string>, who: string, name: string)
    requires who !in whos
    ensures Pushes(whos, who, name) == []
  {
    assert multiset(whos)[who] == 0;
  }

  lemma {:induction false} UnderAbsent(listNames: map<string, string>, memberNames: map<string, string>,
                                       cards: seq<Card>, list: string, who: string)
    requires list !in ListLabels(listNames, cards)
    ensures OwnersUnder(listNames, memberNames, cards, list) == []
    ensures ItemsUnder(listNames, memberNames, cards, list, who) == []
  {
    if cards != [] {
      var init := cards[..|cards| - 1];
      assert ListLabels(listNames, cards) == ListLabels(listNames, init) + [ListLabel(listNames, cards[|cards| - 1])];
      UnderAbsent(listNames, memberNames, init, list, who);
    }
  }

  lemma {:induction false} ItemsUnderAbsent(listNames: map<string, string>, memberNames: map<string, string>,
                                            cards: seq<Card>, list: string, who: string)
    requires who !in OwnersUnder(listNames, memberNames, cards, list)
    ensures ItemsUnder(listNames, memberNames, cards, list, who) == []
  {
    if cards != [] {
      var c := cards[|cards| - 1];
      ItemsUnderAbsent(listNames, memberNames, cards[..|cards| - 1], list, who);
      if ListLabel(listNames, c) == list {
        PushesAbsent(OwnerNames(memberNames, c), who, c.name);
      }
    }
  }

  lemma AddItemShape(g: Groups, list: string, who: string, name: string)
    requires GroupsValid(g) && list in g.vals
    ensures var g' := AddItem(g, list, who, name);
            var inner := g.vals[list];
            && (forall l :: l in g.vals && l != list ==> g'.vals[l] == g.vals[l])
            && g'.vals[list].keys == (if who in inner.keys then inner.keys else inner.keys + [who])
            && g'.vals[list].vals == inner.vals[who := (if who in inner.vals then inner.vals[who] else []) + [name]]
  {
  }

  /** The inner loop leaves the other lists alone. */
  lemma {:induction false} AddOwnersOthers(g: Groups, list: string, whos: seq<string>, name: string, l: string)
    requires GroupsValid(g) && list in g.vals
    requires l in g.vals && l != list
    ensures AddOwners(g, list, whos, name).vals[l] == g.vals[l]
  {
    if whos != [] {
      var h := AddOwners(g, list, whos[..|whos| - 1], name);
      AddOwnersOthers(g, list, whos[..|whos| - 1], name, l);
      AddItemShape(h, list, whos[|whos| - 1], name);
    }
  }

  /** The inner loop adds the new owners of `list` after the old ones. */
  lemma {:induction false} AddOwnersKeys(g: Groups, list: string, whos: seq<string>, name: string)
    requires GroupsValid(g) && list in g.vals
    ensures AddOwners(g, list, whos, name).vals[list].keys == Extend(g.vals[list].keys, whos)
  {
    if whos != [] {
      var h := AddOwners(g, list, whos[..|whos| - 1], name);
      AddOwnersKeys(g, list, whos[..|whos| - 1], name);
      AddItemShape(h, list, whos[|whos| - 1], name);
    }
  }

  /** After the inner loop, `w` is an owner of `list` when it was one before
      or is among the card's owners. */
  lemma {:induction false} AddOwnersHas(g: Groups, list: string, whos: seq<string>, name: string, w: string)
    requires GroupsValid(g) && list in g.vals
    ensures w in AddOwners(g, list, whos, name).vals[list].vals <==> w in g.vals[list].vals || w in whos
  {
    if whos != [] {
      var h := AddOwners(g, list, whos[..|whos| - 1], name);
      AddOwnersHas(g, list, whos[..|whos| - 1], name, w);
      AddItemShape(h, list, whos[|whos| - 1], name);
      LastSplit(whos);
    }
  }

  /** The inner loop pushes `name` under `w` once per occurrence of `w`. */
  lemma {:induction false} AddOwnersItems(g: Groups, list: string, whos: seq<string>, name: string, w: string)
    requires GroupsValid(g) && list in g.vals
    ensures var inner := AddOwners(g, list, whos, name).vals[list];
            var old_ := g.vals[list];
            w in inner.vals ==>
              inner.vals[w] == (if w in old_.vals then old_.vals[w] else []) + Pushes(whos, w, name)
  {
    if whos != [] {
      var init := whos[..|whos| - 1];
      var who := whos[|whos| - 1];
      var h := AddOwners(g, list, init, name);
      var base := if w in g.vals[list].vals then g.vals[list].vals[w] else [];
      var p := Pushes(init, w, name);
      AddOwnersItems(g, list, init, name, w);
      AddOwnersHas(g, list, init, name, w);
      if w !in h.vals[list].vals {
        PushesAbsent(init, w, name);
      }
      AddItemShape(h, list, who, name);
      PushesStep(whos, w, name);
      PushStep(h.vals[list], AddOwners(g, list, whos, name).vals[list], who, w, name, base, p);
    }
  }

  /** One push of the inner loop, on the owners map of the list alone. */
  lemma PushStep(before: Owners, after: Owners, who: string, w: string, name: string,
                  base: seq<string>, p: seq<string>)
    requires after.vals == before.vals[who := (if who in before.vals then before.vals[who] else []) + [name]]
    requires w in before.vals ==> before.vals[w] == base + p
    requires w !in before.vals ==> base == [] && p == []
    ensures w in after.vals ==> after.vals[w] == base + (p + (if who == w then [name] else []))
  {
    if w in after.vals {
      if w != who {
        AppendNil(p);
      } else if w in before.vals {
        AppendAssoc(base, p, [name]);
      } else {
        AppendNil(base);
      }
    }
  }

  lemma GroupedCons(cards: seq<Card>, listNames: map<string, string>, memberNames: map<string, string>)
    requires cards != []
    ensures var c := cards[|cards| - 1];
            var list := ListLabel(listNames, c);
            var g1 := EnsureList(Grouped(cards[..|cards| - 1], listNames, memberNames), list);
            Grouped(cards, listNames, memberNames) == AddOwners(g1, list, OwnerNames(memberNames, c), c.name)
  {
  }

  /** The digest's sections come in order of first appearance of each list
      heading among the recent cards, each heading once. */
  lemma {:induction false} GroupedLists(cards: seq<Card>, listNames: map<string, string>, memberNames: map<string, string>)
    ensures Grouped(cards, listNames, memberNames).keys == Distinct(ListLabels(listNames, cards))
  {
    if cards != [] {
      var init := cards[..|cards| - 1];
      var ls := ListLabels(listNames, cards);
      GroupedLists(init, listNames, memberNames);
      GroupedCons(cards, listNames, memberNames);
      assert ls[..|ls| - 1] == ListLabels(listNames, init);
    }
  }

  /** One card's step for the owners of heading `list`, whose owners so far
      are `before`. */
  lemma OwnersStep(g0: Groups, l: string, whos: seq<string>, name: string, list: string, before: seq<string>)
    requires GroupsValid(g0)
    requires list in g0.vals ==> g0.vals[list].keys == Distinct(before)
    requires list !in g0.vals ==> before == []
    ensures var g := AddOwners(EnsureList(g0, l), l, whos, name);
            list in g.vals ==> g.vals[list].keys == Distinct(before + (if l == list then whos else []))
  {
    var g1 := EnsureList(g0, l);
    if list == l {
      AddOwnersKeys(g1, l, whos, name);
      DistinctConcat(before, whos);
    } else if list in g1.vals {
      AddOwnersOthers(g1, l, whos, name, list);
      AppendNil(before);
    }
  }

  /** One card's step for the items of owner `who` under heading `list`,
      whose items so far are `before`. */
  lemma ItemsStep(g0: Groups, l: string, whos: seq<string>, name: string, list: string, who: string, before: seq<string>)
    requires GroupsValid(g0)
    requires list in g0.vals && who in g0.vals[list].vals ==> g0.vals[list].vals[who] == before
    requires list !in g0.vals || who !in g0.vals[list].vals ==> before == []
    ensures var g := AddOwners(EnsureList(g0, l), l, whos, name);
            list in g.vals && who in g.vals[list].vals ==>
              g.vals[list].vals[who] == before + (if l == list then Pushes(whos, who, name) else [])
  {
    var g1 := EnsureList(g0, l);
    if list == l {
      AddOwnersItems(g1, l, whos, name, who);
      AppendNil(Pushes(whos, who, name));
    } else if list in g1.vals {
      AddOwnersOthers(g1, l, whos, name, list);
      AppendNil(before);
    }
  }

  /** Under each heading, the owners come in order of first appearance among
      that list's cards, each once. */
  lemma {:induction false} GroupedOwners(cards: seq<Card>, listNames: map<string, string>, memberNames: map<string, string>,
                                         list: string)
    ensures var g := Grouped(cards, listNames, memberNames);
            list in g.vals ==> g.vals[list].keys == Distinct(OwnersUnder(listNames, memberNames, cards, list))
  {
    if cards != [] {
      var init := cards[..|cards| - 1];
      var c := cards[|cards| - 1];
      var g0 := Grouped(init, listNames, memberNames);
      GroupedOwners(init, listNames, memberNames, list);
      if list !in g0.vals {
        GroupedLists(init, listNames, memberNames);
        UnderAbsent(listNames, memberNames, init, list, "");
      }
      GroupedCons(cards, listNames, memberNames);
      OwnersStep(g0, ListLabel(listNames, c), OwnerNames(memberNames, c), c.name, list,
                 OwnersUnder(listNames, memberNames, init, list));
    }
  }

  /** Under each heading and owner, the items are the names of that list's
      cards the owner is on, in card order. */
  lemma {:induction false} GroupedItems(cards: seq<Card>, listNames: map<string, string>, memberNames: map<string, string>,
                                        list: string, who: string)
    ensures var g := Grouped(cards, listNames, memberNames);
            list in g.vals && who in g.vals[list].vals ==>
              g.vals[list].vals[who] == ItemsUnder(listNames, memberNames, cards, list, who)
  {
    if cards != [] {
      var init := cards[..|cards| - 1];
      var c := cards[|cards| - 1];
      var g0 := Grouped(init, listNames, memberNames);
      GroupedItems(init, listNames, memberNames, list, who);
      if list !in g0.vals {
        GroupedLists(init, listNames, memberNames);
        UnderAbsent(listNames, memberNames, init, list, who);
      } else if who !in g0.vals[list].vals {
        GroupedOwners(init, listNames, memberNames, list);
        ItemsUnderAbsent(listNames, memberNames, init, list, who);
      }
      GroupedCons(cards, listNames, memberNames);
      ItemsStep(g0, ListLabel(listNames, c), OwnerNames(memberNames, c), c.name, list, who,
                ItemsUnder(listNames, memberNames, init, list, who));
    }
  }

  // ------------------------------------------------------------------ text

  /** `for (const it of items) txt += "  • " + it + "\n"`. */
  function ItemLines(items: seq<string>): string
  {
    if items == [] then ""
    else ItemLines(items[..|items| - 1]) + "  • " + items[|items| - 1] + "\n"
  }

  /** An owner's line, with the number of items, then the items. */
  function OwnerBlock(owner: string, items: seq<string>): string
  {
    "- " + owner + " (" + NatToString(|items|) + "):\n" + ItemLines(items)
  }

  /** The blocks of the first `n` owners, in insertion order. */
  function OwnerBlocks(inner: Owners, n: nat): string
    requires inner.Valid() && n <= |inner.keys|
  {
    if n == 0 then ""
    else
      var owner := inner.keys[n - 1];
      OwnerBlocks(inner, n - 1) + OwnerBlock(owner, inner.vals[owner])
  }

  /** A list's section: its heading, its owners, a blank line. */
  function Section(list: string, inner: Owners): string
    requires inner.Valid()
  {
    "# " + list + "\n" + OwnerBlocks(inner, |inner.keys|) + "\n"
  }

  /** The sections of the first `n` lists, in insertion order. */
  function Sections(g: Groups, n: nat): string
    requires GroupsValid(g) && n <= |g.keys|
  {
    if n == 0 then ""
    else
      var list := g.keys[n - 1];
      Sections(g, n - 1) + Section(list, g.vals[list])
  }

  const DigestHeading := "Digest semanal – "
  const PeriodLine := "Período: últimos 7 dias\n"
  const TotalLabel := "Total de cards com atividade: "

  /** The header lines up to the number of recent cards: what trimming
      always keeps. */
  function HeadLines(title: string, n: nat): (h: string)
    ensures h != [] && !IsSpace(h[0]) && !IsSpace(h[|h| - 1])
  {
    var num := NatToString(n);
    var h := DigestHeading + title + "\n\n" + PeriodLine + TotalLabel + num;
    assert h[0] == DigestHeading[0];
    assert h[|h| - 1] == num[|num| - 1];
    h
  }

  /** The three header lines, the last followed by a blank line. */
  function Header(title: string, n: nat): string
  {
    HeadLines(title, n) + "\n\n"
  }

  /** `reportNameFromUrl || board?.name || "Relatório"`. */
  function DigestTitle(reportName: string, boardName: Option<string>): (t: string)
    ensures t != []
    ensures reportName != [] ==> t == reportName
    ensures reportName == [] && boardName.Some? && boardName.value != [] ==> t == boardName.value
    ensures reportName == [] && (boardName.None? || boardName.value == []) ==> t == DefaultTitle
  {
    if reportName != "" then reportName
    else if boardName.Some? && boardName.value != "" then boardName.value
    else DefaultTitle
  }

  /** The digest of the recent cards. */
  function DigestText(title: string, recent: seq<Card>, listNames: map<string, string>, memberNames: map<string, string>): string
  {
    var g := Grouped(recent, listNames, memberNames);
    Trim(Header(title, |recent|) + Sections(g, |g.keys|))
  }

  method AppendItems(txt: string, items: seq<string>) returns (txt': string)
    ensures txt' == txt + ItemLines(items)
  {
    txt' := txt;
    for k := 0 to |items|
      invariant txt' == txt + ItemLines(items[..k])
    {
      assert items[..k + 1][..k] == items[..k];
      txt' := txt' + "  • " + items[k] + "\n";
    }
    assert items[..|items|] == items;
  }

  /** One owner's line and items. */
  method AppendOwner(txt: string, owner: string, items: seq<string>) returns (txt': string)
    ensures txt' == txt + OwnerBlock(owner, items)
  {
    txt' := txt + "- " + owner + " (" + NatToString(|items|) + "):\n";
    txt' := AppendItems(txt', items);
  }

  lemma OwnerBlocksAppend(txt: string, inner: Owners, k: nat, before: string, after: string)
    requires inner.Valid() && k < |inner.keys|
    requires before == txt + OwnerBlocks(inner, k)
    requires after == before + OwnerBlock(inner.keys[k], inner.vals[inner.keys[k]])
    ensures after == txt + OwnerBlocks(inner, k + 1)
  {
  }

  /** `for (const [owner, items] of owners)`. */
  method AppendOwners(txt: string, owners: Owners) returns (txt': string)
    requires owners.Valid()
    ensures txt' == txt + OwnerBlocks(owners, |owners.keys|)
  {
    txt' := txt;
    for k := 0 to |owners.keys|
      invariant txt' == txt + OwnerBlocks(owners, k)
    {
      var owner := owners.keys[k];
      var items := owners.vals[owner];
      ghost var before := txt';
      txt' := AppendOwner(txt', owner, items);
      OwnerBlocksAppend(txt, owners, k, before, txt');
    }
  }

  /** One list's heading, owners and closing blank line. */
  method AppendSection(txt: string, list: string, owners: Owners) returns (txt': string)
    requires owners.Valid()
    ensures txt' == txt + Section(list, owners)
  {
    txt' := txt + "# " + list + "\n";
    txt' := AppendOwners(txt', owners);
    txt' := txt' + "\n";
  }

  lemma SectionsAppend(txt: string, g: Groups, k: nat, before: string, after: string)
    requires GroupsValid(g) && k < |g.keys|
    requires before == txt + Sections(g, k)
    requires after == before + Section(g.keys[k], g.vals[g.keys[k]])
    ensures after == txt + Sections(g, k + 1)
  {
  }

  /** `for (const [list, owners] of byList)`. */
  method AppendSections(txt: string, byList: Groups) returns (txt': string)
    requires GroupsValid(byList)
    ensures txt' == txt + Sections(byList, |byList.keys|)
  {
    txt' := txt;
    for k := 0 to |byList.keys|
      invariant txt' == txt + Sections(byList, k)
    {
      var list := byList.keys[k];
      var owners := byList.vals[list];
      ghost var before := txt';
      txt' := AppendSection(txt', list, owners);
      SectionsAppend(txt, byList, k, before, txt');
    }
  }

  /** `weeklyDigest`, at instant `now`. */
  method WeeklyDigest(filtered: seq<Card>, now: int, title: string,
                      listNames: map<string, string>, memberNames: map<string, string>)
    returns (text: string)
    ensures text == DigestText(title, Recent(filtered, now), listNames, memberNames)
  {
    var recent := Recent(filtered, now);
    var byList := GroupRecent(recent, listNames, memberNames);
    var txt := DigestHeading + title + "\n\n";
    txt := txt + PeriodLine;
    txt := txt + TotalLabel + NatToString(|recent|) + "\n\n";
    txt := AppendSections(txt, byList);
    text := Trim(txt);
  }

  // ------------------------------------------------------------ properties

  /** The digest always opens with the title, the period and the number of
      recent cards. */
  lemma DigestOpens(title: string, recent: seq<Card>, listNames: map<string, string>, memberNames: map<string, string>)
    ensures var h := HeadLines(title, |recent|);
            var text := DigestText(title, recent, listNames, memberNames);
            |text| >= |h| && text[..|h|] == h
  {
    var g := Grouped(recent, listNames, memberNames);
    var h := HeadLines(title, |recent|);
    var s := Sections(g, |g.keys|);
    assert DigestText(title, recent, listNames, memberNames) == Trim(h + "\n\n" + s);
    TrimHeader(h, s);
  }

  /** Trimming the header lines, a blank line and the sections keeps the header lines. */
  lemma TrimHeader(h: string, s: string)
    requires h != [] && !IsSpace(h[0]) && !IsSpace(h[|h| - 1])
    ensures var t := Trim(h + "\n\n" + s); |t| >= |h| && t[..|h|] == h
  {
    AppendAssoc(h, "\n\n", s);
    TrimKeepsPrefix(h, "\n\n" + s);
  }

  /** With no recent card, the digest is the header lines alone, ending in
      a total of 0. */
  lemma DigestEmpty(title: string, listNames: map<string, string>, memberNames: map<string, string>)
    ensures DigestText(title, [], listNames, memberNames) == HeadLines(title, 0)
    ensures HeadLines(title, 0) == DigestHeading + title + "\n\n" + PeriodLine + TotalLabel + "0"
  {
    var h := HeadLines(title, 0);
    assert Header(title, 0) + Sections(Empty(), 0) == h + "\n\n";
    TrimTrailingSpaces(h, "\n\n");
  }
}
