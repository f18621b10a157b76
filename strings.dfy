/** The string operations of JavaScript that the dashboard uses, on
    `string` = `seq<char>`: `join`, number-to-string conversion, `padStart`,
    the relational `<` on strings, `trim`, `split(/\s+/)`, `replace` with a
    global pattern of one character, splitting on `"\n"`, and an ASCII
    `toUpperCase`. */
module Strings {

  /** `parts.join(sep)`. */
  function Join(parts: seq<string>, sep: string): string
  {
    if parts == [] then ""
    else if |parts| == 1 then parts[0]
    else Join(parts[..|parts| - 1], sep) + sep + parts[|parts| - 1]
  }

  /** A join of two or more parts is the first part, the separator, and
      the join of the others. */
  lemma {:induction false} JoinCons(p: string, ps: seq<string>, sep: string)
    requires ps != []
    ensures Join([p] + ps, sep) == p + sep + Join(ps, sep)
    decreases |ps|
  {
    var xs := [p] + ps;
    assert xs[..|xs| - 1] == [p] + ps[..|ps| - 1];
    assert xs[|xs| - 1] == ps[|ps| - 1];
    if |ps| == 1 {
      assert Join(xs[..|xs| - 1], sep) == p;
    } else {
      JoinCons(p, ps[..|ps| - 1], sep);
      var j := Join(ps[..|ps| - 1], sep);
      assert (p + sep + j) + sep + ps[|ps| - 1] == p + sep + (j + sep + ps[|ps| - 1]);
    }
  }

  function Digit(d: nat): char
    requires d < 10
  {
    "0123456789"[d]
  }

  /** Decimal rendering of a natural number, as `String(n)` does. */
  function NatToString(n: nat): (r: string)
    ensures |r| >= 1
    ensures forall i :: 0 <= i < |r| ==> '0' <= r[i] <= '9'
  {
    if n < 10 then [Digit(n)] else NatToString(n / 10) + [Digit(n % 10)]
  }

  /** Value of a string of decimal digits. */
  function DigitsValue(s: string): nat
    requires forall i :: 0 <= i < |s| ==> '0' <= s[i] <= '9'
  {
    if s == [] then 0
    else DigitsValue(s[..|s| - 1]) * 10 + (s[|s| - 1] as int - '0' as int)
  }

  /** Reading back a rendered number gives the number. */
  lemma {:induction false} NatToStringRoundTrip(n: nat)
    ensures DigitsValue(NatToString(n)) == n
  {
    if n >= 10 {
      NatToStringRoundTrip(n / 10);
      var r := NatToString(n);
      assert r[..|r| - 1] == NatToString(n / 10);
    }
  }

  /** `String(i)` for an integer. */
  function IntToString(i: int): string
  {
    if i < 0 then "-" + NatToString(-i) else NatToString(i)
  }

  /** `n` copies of `c`. */
  function Fill(c: char, n: nat): (r: string)
    ensures |r| == n
    ensures forall i :: 0 <= i < n ==> r[i] == c
  {
    if n == 0 then [] else Fill(c, n - 1) + [c]
  }

  /** `s.padStart(width, fill)` for a one-character fill: as many copies of
      `fill` as `s` falls short of `width`, then `s`. */
  function PadStart(s: string, width: nat, fill: char): (r: string)
    ensures r == Fill(fill, if |s| < width then width - |s| else 0) + s
    decreases width - |s|
  {
    if |s| >= width then s
    else
      var r := PadStart([fill] + s, width, fill);
      assert Fill(fill, width - |s| - 1) + ([fill] + s) == Fill(fill, width - |s|) + s;
      r
  }

  /** `a < b` on strings: lexicographic order of the characters, a proper
      prefix coming first. */
  predicate Less(a: string, b: string)
  {
    if a == [] then b != []
    else if b == [] then false
    else if a[0] != b[0] then a[0] < b[0]
    else Less(a[1..], b[1..])
  }

  lemma {:induction false} LessIrreflexive(a: string)
    ensures !Less(a, a)
  {
    if a != [] {
      LessIrreflexive(a[1..]);
    }
  }

  lemma {:induction false} LessTransitive(a: string, b: string, c: string)
    requires Less(a, b) && Less(b, c)
    ensures Less(a, c)
  {
    if a != [] && b != [] && c != [] && a[0] == b[0] && b[0] == c[0] {
      LessTransitive(a[1..], b[1..], c[1..]);
    }
  }

  lemma {:induction false} LessTotal(a: string, b: string)
    requires a != b
    ensures Less(a, b) || Less(b, a)
  {
    if a != [] && b != [] && a[0] == b[0] {
      assert a == [a[0]] + a[1..] && b == [b[0]] + b[1..];
      LessTotal(a[1..], b[1..]);
    }
  }

  /** `a + [x]` against `b + [y]` when `a` and `b` have the same length. */
  lemma {:induction false} LessSnoc(a: string, x: char, b: string, y: char)
    requires |a| == |b|
    ensures Less(a + [x], b + [y]) <==> Less(a, b) || (a == b && x < y)
  {
    if a != [] {
      assert (a + [x])[1..] == a[1..] + [x];
      assert (b + [y])[1..] == b[1..] + [y];
      LessSnoc(a[1..], x, b[1..], y);
      assert a == [a[0]] + a[1..] && b == [b[0]] + b[1..];
    }
  }

  /** Two-character strings compare by their first, then their second character. */
  lemma LessPair(s: string, t: string)
    requires |s| == 2 && |t| == 2
    ensures Less(s, t) <==> s[0] < t[0] || (s[0] == t[0] && s[1] < t[1])
  {
    var s', t' := s[1..], t[1..];
    assert s'[0] == s[1] && t'[0] == t[1];
    assert s'[1..] == [] && t'[1..] == [];
    assert !Less(s'[1..], t'[1..]);
    assert Less(s', t') <==> s[1] < t[1];
  }

  /** Strings of equal length sharing a prefix compare as their remainders. */
  lemma {:induction false} LessCommonPrefix(p: string, a: string, b: string)
    ensures Less(p + a, p + b) <==> Less(a, b)
  {
    if p != [] {
      assert (p + a)[0] == p[0] && (p + b)[0] == p[0];
      assert (p + a)[1..] == p[1..] + a;
      assert (p + b)[1..] == p[1..] + b;
      assert Less(p + a, p + b) == Less(p[1..] + a, p[1..] + b);
      LessCommonPrefix(p[1..], a, b);
    } else {
      assert p + a == a && p + b == b;
    }
  }

  /** Comparing `a + c` with `b + d`, where `a` and `b` have equal length and differ. */
  lemma {:induction false} LessDifferingPrefix(a: string, c: string, b: string, d: string)
    requires |a| == |b| && a != b
    ensures Less(a + c, b + d) <==> Less(a, b)
  {
    assert a != [] && b != [];
    assert (a + c)[0] == a[0] && (b + d)[0] == b[0];
    if a[0] == b[0] {
      assert (a + c)[1..] == a[1..] + c;
      assert (b + d)[1..] == b[1..] + d;
      assert a[1..] != b[1..] by { assert a == [a[0]] + a[1..] && b == [b[0]] + b[1..]; }
      LessDifferingPrefix(a[1..], c, b[1..], d);
    }
  }

  /** Number of decimal digits of `n`. */
  function DigitCount(n: nat): nat
  {
    if n < 10 then 1 else DigitCount(n / 10) + 1
  }

  lemma {:induction false} NatToStringLength(n: nat)
    ensures |NatToString(n)| == DigitCount(n)
  {
    if n >= 10 {
      NatToStringLength(n / 10);
    }
  }

  lemma DigitOrder(d: nat, e: nat)
    requires d < 10 && e < 10
    ensures Digit(d) < Digit(e) <==> d < e
    ensures Digit(d) == Digit(e) <==> d == e
  {
  }

  lemma DecimalOrder(n: nat, m: nat)
    ensures n < m <==> n / 10 < m / 10 || (n / 10 == m / 10 && n % 10 < m % 10)
  {
    assert n == 10 * (n / 10) + n % 10;
    assert m == 10 * (m / 10) + m % 10;
  }

  /** For numbers with equally many digits, string order is numeric order. */
  lemma {:induction false} NatToStringOrder(n: nat, m: nat)
    requires DigitCount(n) == DigitCount(m)
    ensures Less(NatToString(n), NatToString(m)) <==> n < m
  {
    if n < 10 && m < 10 {
      assert [Digit(n)][1..] == [] && [Digit(m)][1..] == [];
      DigitOrder(n, m);
    } else {
      assert n >= 10 && m >= 10;
      var a, b := NatToString(n / 10), NatToString(m / 10);
      var x, y := Digit(n % 10), Digit(m % 10);
      assert NatToString(n) == a + [x];
      assert NatToString(m) == b + [y];
      NatToStringLength(n / 10);
      NatToStringLength(m / 10);
      NatToStringOrder(n / 10, m / 10);
      LessSnoc(a, x, b, y);
      NatToStringRoundTrip(n / 10);
      NatToStringRoundTrip(m / 10);
      assert a == b <==> n / 10 == m / 10;
      DigitOrder(n % 10, m % 10);
      DecimalOrder(n, m);
    }
  }

  lemma {:induction false} DigitCountFour(n: nat)
    requires 1000 <= n <= 9999
    ensures DigitCount(n) == 4
  {
    assert DigitCount(n / 10) == 3 by {
      assert DigitCount(n / 100) == 2 by {
        assert DigitCount(n / 1000) == 1;
      }
    }
  }

  /** The characters `\s` matches, which `trim` removes: the WhiteSpace and
      LineTerminator code points of section 12.2 and 12.3 of ECMA-262. */
  predicate IsSpace(c: char)
  {
    || c == ' ' || c == '\t' || c == '\n' || c == '\r' || c == '\U{000B}' || c == '\U{000C}'
    || c == '\U{00A0}' || c == '\U{1680}' || ('\U{2000}' <= c <= '\U{200A}')
    || c == '\U{2028}' || c == '\U{2029}' || c == '\U{202F}' || c == '\U{205F}'
    || c == '\U{3000}' || c == '\U{FEFF}'
  }

  function TrimStart(s: string): (r: string)
    ensures |r| <= |s| && r == s[|s| - |r|..]
    ensures r == [] || !IsSpace(r[0])
    ensures forall i :: 0 <= i < |s| - |r| ==> IsSpace(s[i])
  {
    if s != [] && IsSpace(s[0]) then TrimStart(s[1..]) else s
  }

  function TrimEnd(s: string): (r: string)
    ensures |r| <= |s| && r == s[..|r|]
    ensures r == [] || !IsSpace(r[|r| - 1])
    ensures forall i :: |r| <= i < |s| ==> IsSpace(s[i])
  {
    if s != [] && IsSpace(s[|s| - 1]) then TrimEnd(s[..|s| - 1]) else s
  }

  /** `s.trim()`. */
  function Trim(s: string): (r: string)
    ensures r == [] || (!IsSpace(r[0]) && !IsSpace(r[|r| - 1]))
  {
    TrimEnd(TrimStart(s))
  }

  /** Trimming keeps a prefix that starts and ends with a non-space character. */
  lemma TrimKeepsPrefix(p: string, q: string)
    requires p != [] && !IsSpace(p[0]) && !IsSpace(p[|p| - 1])
    ensures |Trim(p + q)| >= |p| && Trim(p + q)[..|p|] == p
  {
    assert (p + q)[0] == p[0];
    assert TrimStart(p + q) == p + q;
    var r := TrimEnd(p + q);
    assert !IsSpace((p + q)[|p| - 1]);
    assert r[..|p|] == (p + q)[..|p|] == p;
  }

  /** Trailing white space after such a prefix is all that trimming removes. */
  lemma {:induction false} TrimTrailingSpaces(p: string, w: string)
    requires p != [] && !IsSpace(p[0]) && !IsSpace(p[|p| - 1])
    requires forall i :: 0 <= i < |w| ==> IsSpace(w[i])
    ensures Trim(p + w) == p
  {
    TrimKeepsPrefix(p, w);
  }

  /** Index of the first `\s` character of `s`, or `|s|`. */
  function FirstSpace(s: string): (i: nat)
    ensures i <= |s|
    ensures forall k :: 0 <= k < i ==> !IsSpace(s[k])
    ensures i < |s| ==> IsSpace(s[i])
  {
    if s == [] || IsSpace(s[0]) then 0 else FirstSpace(s[1..]) + 1
  }

  /** `s.split(/\s+/)`: the pieces between maximal runs of `\s`. A leading run
      yields an empty first piece, a trailing run an empty last piece, and the
      empty string yields `[""]`. */
  function SplitSpaces(s: string): (parts: seq<string>)
    ensures |parts| >= 1
    decreases |s|
  {
    var i := FirstSpace(s);
    if i == |s| then [s]
    else [s[..i]] + SplitSpaces(TrimStart(s[i..]))
  }

  /** The words of a trimmed string are never empty, except the single piece of "". */
  lemma {:induction false} SplitTrimmedWords(s: string)
    requires s == [] || (!IsSpace(s[0]) && !IsSpace(s[|s| - 1]))
    ensures s != [] ==> forall k :: 0 <= k < |SplitSpaces(s)| ==> SplitSpaces(s)[k] != []
    ensures s == [] ==> SplitSpaces(s) == [""]
    ensures s != [] ==> SplitSpaces(s)[0][0] == s[0]
    decreases |s|
  {
    var i := FirstSpace(s);
    if s != [] && i < |s| {
      var rest := TrimStart(s[i..]);
      assert rest != [];
      assert rest[|rest| - 1] == s[|s| - 1];
      SplitTrimmedWords(rest);
    }
  }

  /** The ASCII part of `toUpperCase`. */
  function UpperChar(c: char): char
  {
    if 'a' <= c <= 'z' then (c as int - 'a' as int + 'A' as int) as char else c
  }

  function Upper(s: string): (r: string)
    ensures |r| == |s|
    ensures forall i :: 0 <= i < |s| ==> r[i] == UpperChar(s[i])
  {
    if s == [] then [] else [UpperChar(s[0])] + Upper(s[1..])
  }

  lemma UpperConcat(a: string, b: string)
    ensures Upper(a + b) == Upper(a) + Upper(b)
  {
    var l, r := Upper(a + b), Upper(a) + Upper(b);
    forall i | 0 <= i < |l| ensures l[i] == r[i] {
      if i < |a| {
        assert (a + b)[i] == a[i];
      } else {
        assert (a + b)[i] == b[i - |a|];
      }
    }
  }

  /** `s.replace(/c/g, rep)`. */
  function ReplaceChar(s: string, c: char, rep: string): (r: string)
    ensures |rep| == 1 ==> |r| == |s|
  {
    if s == [] then []
    else ReplaceChar(s[..|s| - 1], c, rep) + (if s[|s| - 1] == c then rep else [s[|s| - 1]])
  }

  lemma {:induction false} ReplaceCharConcat(a: string, b: string, c: char, rep: string)
    ensures ReplaceChar(a + b, c, rep) == ReplaceChar(a, c, rep) + ReplaceChar(b, c, rep)
  {
    if b == [] {
      assert a + b == a;
    } else {
      var init := b[..|b| - 1];
      var t := if b[|b| - 1] == c then rep else [b[|b| - 1]];
      assert (a + b)[..|a + b| - 1] == a + init;
      assert (a + b)[|a + b| - 1] == b[|b| - 1];
      assert ReplaceChar(a + b, c, rep) == ReplaceChar(a + init, c, rep) + t;
      ReplaceCharConcat(a, init, c, rep);
      var ra, ri := ReplaceChar(a, c, rep), ReplaceChar(init, c, rep);
      assert (ra + ri) + t == ra + (ri + t);
    }
  }

  /** Replacing in a string that starts with `x`. */
  lemma ReplaceCharCons(x: char, rest: string, c: char, rep: string)
    ensures ReplaceChar([x] + rest, c, rep) == (if x == c then rep else [x]) + ReplaceChar(rest, c, rep)
  {
    ReplaceCharConcat([x], rest, c, rep);
    assert [x][..0] == [];
  }

  /** Two replacements of different characters, neither of which brings in
      the other's character, can be done in either order. */
  lemma {:induction false} ReplaceCharCommute(s: string, a: char, ra: string, b: char, rb: string)
    requires a != b && a !in rb && b !in ra
    ensures ReplaceChar(ReplaceChar(s, a, ra), b, rb) == ReplaceChar(ReplaceChar(s, b, rb), a, ra)
  {
    if s != [] {
      var init, x := s[..|s| - 1], s[|s| - 1];
      ReplaceCharCommute(init, a, ra, b, rb);
      var pa := if x == a then ra else [x];
      var pb := if x == b then rb else [x];
      ReplaceCharConcat(ReplaceChar(init, a, ra), pa, b, rb);
      ReplaceCharConcat(ReplaceChar(init, b, rb), pb, a, ra);
      assert [x][..0] == [];
      assert ReplaceChar(pa, b, rb) == ReplaceChar(pb, a, ra) by {
        if x == a {
          ReplaceCharAbsent(ra, b, rb);
        } else if x == b {
          ReplaceCharAbsent(rb, a, ra);
        }
      }
    }
  }

  /** A string without `c` is left alone. */
  lemma {:induction false} ReplaceCharAbsent(s: string, c: char, rep: string)
    requires c !in s
    ensures ReplaceChar(s, c, rep) == s
  {
    if s != [] {
      ReplaceCharAbsent(s[..|s| - 1], c, rep);
      assert s[..|s| - 1] + [s[|s| - 1]] == s;
    }
  }

  /** After the replacement, `c` no longer occurs unless `rep` contains it. */
  lemma {:induction false} ReplaceCharRemoves(s: string, c: char, rep: string)
    requires c !in rep
    ensures c !in ReplaceChar(s, c, rep)
  {
    if s != [] {
      ReplaceCharRemoves(s[..|s| - 1], c, rep);
    }
  }

  /** A replacement whose result avoids a character keeps it absent. */
  lemma {:induction false} ReplaceCharKeepsAbsent(s: string, c: char, rep: string, d: char)
    requires d !in s && d !in rep
    ensures d !in ReplaceChar(s, c, rep)
  {
    if s != [] {
      ReplaceCharKeepsAbsent(s[..|s| - 1], c, rep, d);
    }
  }

  /** `s.split("\n")` for a one-character separator. */
  function SplitOn(s: string, sep: char): (parts: seq<string>)
    ensures |parts| >= 1
  {
    if s == [] then [""]
    else
      var parts := SplitOn(s[..|s| - 1], sep);
      if s[|s| - 1] == sep then parts + [""]
      else parts[..|parts| - 1] + [parts[|parts| - 1] + [s[|s| - 1]]]
  }

  lemma {:induction false} SplitOnNoSep(s: string, sep: char)
    requires sep !in s
    ensures SplitOn(s, sep) == [s]
  {
    if s != [] {
      SplitOnNoSep(s[..|s| - 1], sep);
      assert s[..|s| - 1] + [s[|s| - 1]] == s;
    }
  }

  /** Appending a separator-free piece extends the last part. */
  lemma {:induction false} SplitOnAppend(a: string, b: string, sep: char)
    requires sep !in b
    ensures var pa := SplitOn(a, sep);
            SplitOn(a + b, sep) == pa[..|pa| - 1] + [pa[|pa| - 1] + b]
  {
    var pa := SplitOn(a, sep);
    if b == [] {
      assert a + b == a;
      assert pa[|pa| - 1] + b == pa[|pa| - 1];
      assert pa[..|pa| - 1] + [pa[|pa| - 1]] == pa;
    } else {
      var b' := b[..|b| - 1];
      assert (a + b)[..|a + b| - 1] == a + b';
      SplitOnAppend(a, b', sep);
      assert (pa[|pa| - 1] + b') + [b[|b| - 1]] == pa[|pa| - 1] + b;
    }
  }

  /** Joining separator-free lines and splitting again gives the lines back. */
  lemma {:induction false} SplitOnJoin(lines: seq<string>, sep: char)
    requires |lines| >= 1
    requires forall i :: 0 <= i < |lines| ==> sep !in lines[i]
    ensures SplitOn(Join(lines, [sep]), sep) == lines
  {
    if |lines| == 1 {
      SplitOnNoSep(lines[0], sep);
    } else {
      var init := lines[..|lines| - 1];
      var last := lines[|lines| - 1];
      SplitOnJoin(init, sep);
      var j := Join(init, [sep]);
      assert Join(lines, [sep]) == (j + [sep]) + last;
      assert SplitOn(j + [sep], sep) == lines[..|lines| - 1] + [""] by {
        assert (j + [sep])[..|j + [sep]| - 1] == j;
      }
      SplitOnAppend(j + [sep], last, sep);
      var pa := SplitOn(j + [sep], sep);
      assert pa[..|pa| - 1] == init && pa[|pa| - 1] == "";
      assert pa[|pa| - 1] + last == last;
      assert init + [last] == lines;
    }
  }
}
