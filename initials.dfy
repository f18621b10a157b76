/** The two `initialsOf` helpers. Both split the trimmed name on runs of
    white space; they differ in how they treat a single word and an empty
    name. */
module Initials {
  import opened Strings

  /** The first character of `s`, or nothing: `s[0] ?? ""` and `s[0] || ""`. */
  function Head(s: string): (r: string)
    ensures s == [] ==> r == []
    ensures s != [] ==> r == [s[0]]
  {
    if s == [] then [] else [s[0]]
  }

  /** Facts about the words of a trimmed string used by both helpers: the
      first word starts with the string's first character and the last word
      is not empty, unless the string is. */
  lemma {:induction false} TrimmedWordHeads(t: string)
    requires t == [] || (!IsSpace(t[0]) && !IsSpace(t[|t| - 1]))
    ensures t == [] ==> SplitSpaces(t) == [""]
    ensures t != [] ==> var w := SplitSpaces(t); Head(w[0]) == [t[0]] && |Head(w[|w| - 1])| == 1
  {
    SplitTrimmedWords(t);
    if t != [] {
      WordHeads(SplitSpaces(t), t[0]);
    }
  }

  /** When no word is empty, the first word's head is its first letter and
      the last word has a one-letter head. */
  lemma WordHeads(w: seq<string>, c: char)
    requires |w| >= 1 && forall k :: 0 <= k < |w| ==> w[k] != []
    requires w[0][0] == c
    ensures Head(w[0]) == [c]
    ensures |Head(w[|w| - 1])| == 1
  {
    assert w[|w| - 1] != [];
  }

  /** The dashboard's `initialsOf`: the first letter of the first word, then
      the first letter of the last word when there are two or more words,
      upper-cased; an em dash when that leaves nothing. */
  function InitialsOf(name: string): (r: string)
    ensures r != []
    ensures Trim(name) == [] ==> r == "—"
    ensures Trim(name) != [] && |SplitSpaces(Trim(name))| == 1 ==> r == [UpperChar(Trim(name)[0])]
    ensures |SplitSpaces(Trim(name))| > 1 ==>
              var w := SplitSpaces(Trim(name));
              |r| == 2 && r == [UpperChar(Trim(name)[0])] + Upper(Head(w[|w| - 1]))
  {
    var t := Trim(name);
    var parts := SplitSpaces(t);
    TrimmedWordHeads(t);
    var a := Head(parts[0]);
    var b := if |parts| > 1 then Head(parts[|parts| - 1]) else "";
    var u := Upper(a + b);
    UpperConcat(a, b);
    if u == [] then "—" else u
  }

  /** The quick view's `initialsOf`: the first letter of the first word
      followed by the first letter of the last word, upper-cased, so a single
      word gives its letter twice and an empty name gives the empty string. */
  function QuickInitialsOf(name: string): (r: string)
    ensures Trim(name) == [] <==> r == []
    ensures Trim(name) != [] ==>
              var w := SplitSpaces(Trim(name));
              |r| == 2 && r == [UpperChar(Trim(name)[0])] + Upper(Head(w[|w| - 1]))
  {
    var t := Trim(name);
    var parts := SplitSpaces(t);
    TrimmedWordHeads(t);
    var a := Head(parts[0]);
    var b := Head(parts[|parts| - 1]);
    UpperConcat(a, b);
    Upper(a + b)
  }

  /** The two helpers agree on names of two or more words and differ on a
      single word and on a blank name. */
  lemma InitialsCompared(name: string)
    ensures |SplitSpaces(Trim(name))| > 1 ==> InitialsOf(name) == QuickInitialsOf(name)
    ensures Trim(name) != [] && |SplitSpaces(Trim(name))| == 1 ==>
              QuickInitialsOf(name) == InitialsOf(name) + InitialsOf(name)
    ensures Trim(name) == [] ==> InitialsOf(name) == "—" && QuickInitialsOf(name) == ""
  {
  }

  /** "Ana" gives "A" on the dashboard and "AA" in the quick view. */
  lemma {:induction false} SingleWordExample()
    ensures InitialsOf("Ana") == "A"
    ensures QuickInitialsOf("Ana") == "AA"
  {
    var name := "Ana";
    assert !IsSpace('A') && !IsSpace('a');
    assert TrimStart(name) == name;
    assert TrimEnd(name) == name;
    assert FirstSpace(name[2..]) == 1 by { assert name[2..][1..] == []; }
    assert FirstSpace(name[1..]) == 2 by { assert name[1..][1..] == name[2..]; }
    assert FirstSpace(name) == 3;
    assert SplitSpaces(name) == [name];
    assert UpperChar('A') == 'A';
    assert Upper("A") == "A";
  }
}
