/** The two exports of the filtered cards: every card flattened to seven
    text fields, written as CSV by `toCSV` or as a JSON array. A row is a
    JavaScript object with its keys in insertion order, here a sequence of
    key/value pairs. */
module Export {
  import opened Seqs
  import opened Strings
  import opened Board

  type Row = seq<(string, string)>

  /** `Object.keys(row)`. */
  function Keys(r: Row): (ks: seq<string>)
    ensures |ks| == |r|
    ensures forall i :: 0 <= i < |r| ==> ks[i] == r[i].0
  {
    if r == [] then [] else Keys(r[..|r| - 1]) + [r[|r| - 1].0]
  }

  /** `row[h] ?? ""`: the value of the first pair with key `h`, or the empty
      string when there is none. */
  function Lookup(r: Row, h: string): (v: string)
    ensures forall i :: 0 <= i < |r| && r[i].0 == h && (forall j :: 0 <= j < i ==> r[j].0 != h) ==> v == r[i].1
    ensures (forall i :: 0 <= i < |r| ==> r[i].0 != h) ==> v == ""
  {
    if r == [] then ""
    else if r[0].0 == h then r[0].1
    else
      var v := Lookup(r[1..], h);
      assert forall i :: 1 <= i < |r| ==> r[1..][i - 1] == r[i];
      v
  }

  /** `esc`: quotes doubled, then line breaks turned into spaces. */
  function Esc(v: string): (e: string)
    ensures '\n' !in e
  {
    ReplaceCharRemoves(ReplaceChar(v, '"', "\"\""), '\n', " ");
    ReplaceChar(ReplaceChar(v, '"', "\"\""), '\n', " ")
  }

  /** A cell: the escaped value between double quotes. */
  function Quote(v: string): (q: string)
    ensures '\n' !in q
  {
    "\"" + Esc(v) + "\""
  }

  /** `headers.map((h) => '"' + esc(r[h]) + '"')`. */
  function Cells(r: Row, headers: seq<string>): (cs: seq<string>)
    ensures |cs| == |headers|
    ensures forall j :: 0 <= j < |headers| ==> cs[j] == Quote(Lookup(r, headers[j]))
  {
    seq(|headers|, j requires 0 <= j < |headers| => Quote(Lookup(r, headers[j])))
  }

  /** One CSV line per row, all on the columns `headers`. */
  function Lines(rows: seq<Row>, headers: seq<string>): (ls: seq<string>)
    ensures |ls| == |rows|
    ensures forall i :: 0 <= i < |rows| ==> ls[i] == Join(Cells(rows[i], headers), ",")
  {
    seq(|rows|, i requires 0 <= i < |rows| => Join(Cells(rows[i], headers), ","))
  }

  /** `toCSV(rows)`: the first row's keys as the header line, then a line
      per row; nothing at all for no rows. */
  function ToCsv(rows: seq<Row>): (csv: string)
    ensures csv == "" <==> rows == []
  {
    if rows == [] then ""
    else
      var hs := Keys(rows[0]);
      var parts := [Join(hs, ",")] + Lines(rows, hs);
      JoinSeparated(parts, "\n");
      Join(parts, "\n")
  }

  /** A join of two or more parts contains the separator. */
  lemma {:induction false} JoinSeparated(parts: seq<string>, sep: string)
    requires |parts| >= 2 && sep != ""
    ensures Join(parts, sep) != ""
  {
    var j := Join(parts[..|parts| - 1], sep) + sep + parts[|parts| - 1];
    assert |j| >= |sep|;
  }

  /** A join of parts and a separator that all avoid `c` avoids `c`. */
  lemma {:induction false} JoinAvoids(parts: seq<string>, sep: string, c: char)
    requires c !in sep
    requires forall i :: 0 <= i < |parts| ==> c !in parts[i]
    ensures c !in Join(parts, sep)
  {
    if |parts| >= 2 {
      JoinAvoids(parts[..|parts| - 1], sep, c);
    }
  }

  /** The output splits back, at its line breaks, into the header line and
      exactly one line per row, provided no column name holds a line break. */
  lemma ToCsvLines(rows: seq<Row>)
    requires rows != []
    requires forall j :: 0 <= j < |rows[0]| ==> '\n' !in rows[0][j].0
    ensures var hs := Keys(rows[0]);
            SplitOn(ToCsv(rows), '\n') == [Join(hs, ",")] + Lines(rows, hs)
    ensures |SplitOn(ToCsv(rows), '\n')| == |rows| + 1
  {
    var hs := Keys(rows[0]);
    JoinAvoids(hs, ",", '\n');
    LinesAvoid(rows, hs);
    LineBreakFree(Join(hs, ","), Lines(rows, hs));
    SplitOnJoin([Join(hs, ",")] + Lines(rows, hs), '\n');
  }

  /** No CSV line holds a line break. */
  lemma LinesAvoid(rows: seq<Row>, hs: seq<string>)
    ensures forall i :: 0 <= i < |rows| ==> '\n' !in Lines(rows, hs)[i]
  {
    forall i | 0 <= i < |rows|
      ensures '\n' !in Lines(rows, hs)[i]
    {
      JoinAvoids(Cells(rows[i], hs), ",", '\n');
    }
  }

  lemma LineBreakFree(first: string, ls: seq<string>)
    requires '\n' !in first
    requires forall i :: 0 <= i < |ls| ==> '\n' !in ls[i]
    ensures forall i :: 0 <= i < |[first] + ls| ==> '\n' !in ([first] + ls)[i]
  {
    forall i | 0 <= i < |[first] + ls| ensures '\n' !in ([first] + ls)[i] {
      if i > 0 {
        assert ([first] + ls)[i] == ls[i - 1];
      }
    }
  }

  /** Reading a cell back: a doubled quote stands for one quote. */
  function Undouble(s: string): string
    decreases |s|
  {
    if s == [] then []
    else if |s| >= 2 && s[0] == '"' && s[1] == '"' then ['"'] + Undouble(s[2..])
    else [s[0]] + Undouble(s[1..])
  }

  /** On a value without line breaks, escaping loses nothing: undoubling
      the quotes gives the value back. */
  lemma EscRoundTrip(v: string)
    requires '\n' !in v
    ensures Undouble(Esc(v)) == v
  {
    var d := ReplaceChar(v, '"', "\"\"");
    ReplaceCharKeepsAbsent(v, '"', "\"\"", '\n');
    ReplaceCharAbsent(d, '\n', " ");
    UndoubleDoubled(v);
  }

  lemma {:induction false} UndoubleDoubled(v: string)
    ensures Undouble(ReplaceChar(v, '"', "\"\"")) == v
    decreases |v|
  {
    if v != [] {
      var x, rest := v[0], v[1..];
      assert v == [x] + rest;
      ReplaceCharConcat([x], rest, '"', "\"\"");
      assert ReplaceChar([x], '"', "\"\"") == ReplaceChar([], '"', "\"\"") + (if x == '"' then "\"\"" else [x]);
      var r := ReplaceChar(rest, '"', "\"\"");
      UndoubleDoubled(rest);
      if x == '"' {
        var s := "\"\"" + r;
        assert s[2..] == r;
      } else {
        var s := [x] + r;
        assert s[1..] == r;
      }
    }
  }

  // ---------------------------------------------------------- reading back

  /** A value as a cell shows it: line breaks turned into spaces. */
  function Flat(v: string): (w: string)
    ensures |w| == |v| && '\n' !in w
    ensures '\n' !in v ==> w == v
  {
    ReplaceCharRemoves(v, '\n', " ");
    if '\n' in v then ReplaceChar(v, '\n', " ")
    else ReplaceCharAbsent(v, '\n', " "); v
  }

  /** Doubling the quotes and flattening the line breaks can be done in
      either order. */
  lemma EscFlat(v: string)
    ensures Esc(v) == ReplaceChar(Flat(v), '"', "\"\"")
  {
    if '\n' !in v {
      ReplaceCharAbsent(v, '\n', " ");
    }
    ReplaceCharCommute(v, '"', "\"\"", '\n', " ");
  }

  /** Reads the text of a quoted cell after its opening quote, up to the
      closing quote, a doubled quote standing for one quote: the text and
      what follows the closing quote, or nothing when it is missing. */
  function ReadQuoted(s: string): (r: Option<(string, string)>)
    ensures r.Some? ==> |r.value.1| < |s|
    decreases |s|
  {
    if s == [] then None
    else if s[0] == '"' && |s| >= 2 && s[1] == '"' then
      match ReadQuoted(s[2..])
      case None => None
      case Some(p) => Some(("\"" + p.0, p.1))
    else if s[0] == '"' then Some(("", s[1..]))
    else
      match ReadQuoted(s[1..])
      case None => None
      case Some(p) => Some(([s[0]] + p.0, p.1))
  }

  /** Reads a line of comma-separated quoted cells back into their texts,
      or nothing when the line is not of that form. */
  function ReadCells(line: string): (r: Option<seq<string>>)
    ensures r.Some? ==> |r.value| >= 1
    decreases |line|
  {
    if line == [] || line[0] != '"' then None
    else
      match ReadQuoted(line[1..])
      case None => None
      case Some(p) =>
        if p.1 == [] then Some([p.0])
        else if p.1[0] != ',' then None
        else
          match ReadCells(p.1[1..])
          case None => None
          case Some(cs) => Some([p.0] + cs)
  }

  /** Reading past a doubled quote yields one quote. */
  lemma ReadPastDoubled(u: string, dq: string)
    requires dq == ['"', '"'] && ReadQuoted(u).Some?
    ensures ReadQuoted(dq + u) == Some((['"'] + ReadQuoted(u).value.0, ReadQuoted(u).value.1))
  {
    var s := dq + u;
    assert s[2..] == u;
  }

  /** Reading past any other character keeps it. */
  lemma ReadPastChar(x: char, u: string)
    requires x != '"' && ReadQuoted(u).Some?
    ensures ReadQuoted([x] + u) == Some(([x] + ReadQuoted(u).value.0, ReadQuoted(u).value.1))
  {
    var s := [x] + u;
    assert s[1..] == u;
  }

  /** A lone quote closes the cell. */
  lemma ReadClosing(t: string)
    requires t == [] || t[0] != '"'
    ensures ReadQuoted(['"'] + t) == Some(([], t))
  {
    var s := ['"'] + t;
    assert s[1..] == t;
  }

  /** A text with its quotes doubled, then a closing quote, reads back as
      the text, provided what follows does not start with a quote. */
  lemma {:induction false} ReadDoubled(v: string, t: string, dq: string)
    requires dq == ['"', '"']
    requires t == [] || t[0] != '"'
    ensures ReadQuoted(ReplaceChar(v, '"', dq) + (['"'] + t)) == Some((v, t))
    decreases |v|
  {
    if v == [] {
      assert ReplaceChar(v, '"', dq) + (['"'] + t) == ['"'] + t;
      ReadClosing(t);
    } else {
      var x, rest := v[0], v[1..];
      assert v == [x] + rest;
      ReplaceCharCons(x, rest, '"', dq);
      var r := ReplaceChar(rest, '"', dq);
      var u := r + (['"'] + t);
      ReadDoubled(rest, t, dq);
      AppendAssoc(if x == '"' then dq else [x], r, ['"'] + t);
      if x == '"' {
        ReadPastDoubled(u, dq);
      } else {
        ReadPastChar(x, u);
      }
    }
  }

  /** A cell reads back as its value with line breaks flattened. */
  lemma ReadQuote(v: string, t: string)
    requires t == [] || t[0] != '"'
    ensures Quote(v)[0] == '"'
    ensures ReadQuoted(Quote(v)[1..] + t) == Some((Flat(v), t))
  {
    EscFlat(v);
    ReadDoubled(Flat(v), t, "\"\"");
    var e := Esc(v);
    AppendAssoc(['"'], e, ['"']);
    DropCons('"', e + ['"']);
    AppendAssoc(e, ['"'], t);
  }

  /** A line made of one cell reads back as that cell's text. */
  lemma ReadLastCell(q: string, w: string)
    requires q != [] && q[0] == '"' && ReadQuoted(q[1..]) == Some((w, []))
    ensures ReadCells(q) == Some([w])
  {
  }

  /** A cell, a comma and a readable line read back as the cell's text
      followed by the line's texts. */
  lemma ReadNextCell(q: string, w: string, rest: string)
    requires q != [] && q[0] == '"'
    requires ReadQuoted(q[1..] + ([','] + rest)) == Some((w, [','] + rest))
    requires ReadCells(rest).Some?
    ensures ReadCells(q + ([','] + rest)) == Some([w] + ReadCells(rest).value)
  {
    DropConcat(q, [','] + rest);
    DropCons(',', rest);
  }

  lemma ReadOneCell(vs: seq<string>)
    requires |vs| == 1
    ensures ReadCells(Join(Map(vs, Quote), ",")) == Some(Map(vs, Flat))
  {
    var q := Quote(vs[0]);
    MapCons(vs, Quote);
    MapCons(vs, Flat);
    ReadQuote(vs[0], []);
    AppendNil(q[1..]);
    ReadLastCell(q, Flat(vs[0]));
    AppendNil([Flat(vs[0])]);
  }

  lemma ReadMoreCells(vs: seq<string>)
    requires |vs| >= 2
    requires ReadCells(Join(Map(vs[1..], Quote), ",")) == Some(Map(vs[1..], Flat))
    ensures ReadCells(Join(Map(vs, Quote), ",")) == Some(Map(vs, Flat))
  {
    var q := Quote(vs[0]);
    MapCons(vs, Quote);
    MapCons(vs, Flat);
    var line := Join(Map(vs[1..], Quote), ",");
    JoinCons(q, Map(vs[1..], Quote), ",");
    AppendAssoc(q, [','], line);
    ReadQuote(vs[0], [','] + line);
    ReadNextCell(q, Flat(vs[0]), line);
  }

  /** The cells of values, comma-separated, read back as the values with
      line breaks flattened. */
  lemma {:induction false} ReadJoined(vs: seq<string>)
    requires vs != []
    ensures ReadCells(Join(Map(vs, Quote), ",")) == Some(Map(vs, Flat))
    decreases |vs|
  {
    if |vs| == 1 {
      ReadOneCell(vs);
    } else {
      ReadJoined(vs[1..]);
      ReadMoreCells(vs);
    }
  }

  // ------------------------------------------------------------ export rows

  /** A card as both exports show it. */
  datatype CardExport = CardExport(id: string, title: string, list: string, labels: string,
                                   members: string, due: string, link: string)

  /** `l.name || l.color`. */
  function LabelText(l: Label): string
  {
    if l.name != "" then l.name else l.color
  }

  function LabelTexts(ls: seq<Label>): (ts: seq<string>)
    ensures |ts| == |ls|
    ensures forall i :: 0 <= i < |ls| ==> ts[i] == LabelText(ls[i])
  {
    if ls == [] then [] else LabelTexts(ls[..|ls| - 1]) + [LabelText(ls[|ls| - 1])]
  }

  const ListSep := ", "

  /** The flattening of a card shared by both exports. */
  function Exported(c: Card, listNames: map<string, string>, memberNames: map<string, string>): (e: CardExport)
    ensures e.id == c.id && e.title == c.name && e.link == c.shortUrl
    ensures e.list == (if c.idList in listNames && listNames[c.idList] != "" then listNames[c.idList] else c.idList)
    ensures e.labels == Join(LabelTexts(c.labels), ListSep)
    ensures e.members == Join(MemberNamesOf(memberNames, c.idMembers), ListSep)
    ensures c.labels == [] ==> e.labels == ""
    ensures c.idMembers == [] ==> e.members == ""
    ensures e.due == (if c.due.Some? then c.due.value.iso else "")
  {
    CardExport(c.id, c.name, NameOr(listNames, c.idList, c.idList),
               Join(LabelTexts(c.labels), ListSep),
               Join(MemberNamesOf(memberNames, c.idMembers), ListSep),
               if c.due.Some? then c.due.value.iso else "",
               c.shortUrl)
  }

  function Fields(e: CardExport): (fs: seq<string>)
    ensures |fs| == 7
  {
    [e.id, e.title, e.list, e.labels, e.members, e.due, e.link]
  }

  const CsvHeaders: seq<string> := ["ID", "Título", "Lista", "Labels", "Membros", "Vencimento", "Link"]
  const JsonKeys: seq<string> := ["id", "title", "list", "labels", "members", "due", "link"]

  function Zip(ks: seq<string>, vs: seq<string>): (r: Row)
    requires |ks| == |vs|
    ensures |r| == |ks|
    ensures forall i :: 0 <= i < |ks| ==> r[i] == (ks[i], vs[i])
  {
    if ks == [] then [] else Zip(ks[..|ks| - 1], vs[..|vs| - 1]) + [(ks[|ks| - 1], vs[|vs| - 1])]
  }

  /** A row of `handleExportCSV`. */
  function CsvRow(e: CardExport): Row
  {
    Zip(CsvHeaders, Fields(e))
  }

  /** An object of `handleExportJSON`, before `JSON.stringify`. */
  function JsonRow(e: CardExport): Row
  {
    Zip(JsonKeys, Fields(e))
  }

  function CsvRows(cards: seq<Card>, listNames: map<string, string>, memberNames: map<string, string>): (rows: seq<Row>)
    ensures |rows| == |cards|
    ensures forall i :: 0 <= i < |cards| ==> rows[i] == CsvRow(Exported(cards[i], listNames, memberNames))
  {
    Map(cards, (c: Card) => CsvRow(Exported(c, listNames, memberNames)))
  }

  /** The CSV text `handleExportCSV` downloads. */
  function ExportCsv(cards: seq<Card>, listNames: map<string, string>, memberNames: map<string, string>): (csv: string)
    ensures csv == "" <==> cards == []
  {
    ToCsv(CsvRows(cards, listNames, memberNames))
  }

  lemma HeadersDistinct()
    ensures forall i, j :: 0 <= i < j < |CsvHeaders| ==> CsvHeaders[i] != CsvHeaders[j]
    ensures forall j :: 0 <= j < |CsvHeaders| ==> '\n' !in CsvHeaders[j]
  {
    assert CsvHeaders[0][0] == 'I' && CsvHeaders[1][0] == 'T' && CsvHeaders[2][0] == 'L' && CsvHeaders[3][0] == 'L'
        && CsvHeaders[4][0] == 'M' && CsvHeaders[5][0] == 'V' && CsvHeaders[6][0] == 'L';
    assert CsvHeaders[2][1] == 'i' && CsvHeaders[3][1] == 'a' && CsvHeaders[6][1] == 'i';
    assert |CsvHeaders[2]| == 5 && |CsvHeaders[6]| == 4;
  }

  /** The header column `j` of an export row holds field `j`. */
  lemma CsvRowLookup(e: CardExport, j: nat)
    requires j < 7
    ensures Lookup(CsvRow(e), CsvHeaders[j]) == Fields(e)[j]
  {
    HeadersDistinct();
    var r := CsvRow(e);
    assert r[j].0 == CsvHeaders[j];
    assert forall i :: 0 <= i < j ==> r[i].0 != CsvHeaders[j];
  }

  /** The quoted fields of a card, in column order. */
  function QuotedFields(e: CardExport): (qs: seq<string>)
    ensures |qs| == 7
    ensures forall j :: 0 <= j < 7 ==> qs[j] == Quote(Fields(e)[j])
  {
    var fs := Fields(e);
    [Quote(fs[0]), Quote(fs[1]), Quote(fs[2]), Quote(fs[3]), Quote(fs[4]), Quote(fs[5]), Quote(fs[6])]
  }

  /** An export row's cells on the export headers are its quoted fields. */
  lemma CsvRowCells(e: CardExport)
    ensures Cells(CsvRow(e), CsvHeaders) == QuotedFields(e)
  {
    var cs := Cells(CsvRow(e), CsvHeaders);
    var qs := QuotedFields(e);
    assert |cs| == |CsvHeaders| == 7;
    forall j | 0 <= j < 7 ensures cs[j] == qs[j] {
      CsvRowLookup(e, j);
    }
    SameElements(cs, qs);
  }

  lemma KeysZip(ks: seq<string>, vs: seq<string>)
    requires |ks| == |vs|
    ensures Keys(Zip(ks, vs)) == ks
  {
  }

  lemma ExportSplit(cards: seq<Card>, listNames: map<string, string>, memberNames: map<string, string>)
    requires cards != []
    ensures SplitOn(ExportCsv(cards, listNames, memberNames), '\n')
            == [Join(CsvHeaders, ",")] + Lines(CsvRows(cards, listNames, memberNames), CsvHeaders)
  {
    var rows := CsvRows(cards, listNames, memberNames);
    var e := Exported(cards[0], listNames, memberNames);
    assert rows[0] == Zip(CsvHeaders, Fields(e));
    KeysZip(CsvHeaders, Fields(e));
    assert forall j :: 0 <= j < |rows[0]| ==> '\n' !in rows[0][j].0 by {
      HeadersDistinct();
    }
    ToCsvLines(rows);
  }

  /** A card's CSV line: its seven quoted fields, comma-separated. */
  function ExportLine(c: Card, listNames: map<string, string>, memberNames: map<string, string>): string
  {
    Join(QuotedFields(Exported(c, listNames, memberNames)), ",")
  }

  /** The lines of the cards, one each, in card order. */
  function ExportLinesOf(cards: seq<Card>, listNames: map<string, string>, memberNames: map<string, string>): (ls: seq<string>)
    ensures |ls| == |cards|
    ensures forall i :: 0 <= i < |cards| ==> ls[i] == ExportLine(cards[i], listNames, memberNames)
  {
    Map(cards, (c: Card) => ExportLine(c, listNames, memberNames))
  }

  lemma ExportLines(cards: seq<Card>, listNames: map<string, string>, memberNames: map<string, string>)
    ensures Lines(CsvRows(cards, listNames, memberNames), CsvHeaders) == ExportLinesOf(cards, listNames, memberNames)
  {
    forall i | 0 <= i < |cards|
      ensures Lines(CsvRows(cards, listNames, memberNames), CsvHeaders)[i] == ExportLine(cards[i], listNames, memberNames)
    {
      CsvRowCells(Exported(cards[i], listNames, memberNames));
    }
  }

  /** The CSV export of a non-empty selection splits, at its line breaks,
      into the fixed header line and one line per card in card order, with
      the card's seven quoted fields; no cell breaks a line. */
  lemma ExportCsvLines(cards: seq<Card>, listNames: map<string, string>, memberNames: map<string, string>)
    requires cards != []
    ensures SplitOn(ExportCsv(cards, listNames, memberNames), '\n')
            == [Join(CsvHeaders, ",")] + ExportLinesOf(cards, listNames, memberNames)
  {
    ExportSplit(cards, listNames, memberNames);
    ExportLines(cards, listNames, memberNames);
  }

  /** Reading the CSV export back: after the header line, line `i + 1`
      reads as card `i`'s seven fields in export order, each with its line
      breaks turned into spaces. */
  lemma ExportReadBack(cards: seq<Card>, listNames: map<string, string>, memberNames: map<string, string>, i: nat)
    requires i < |cards|
    ensures var lines := SplitOn(ExportCsv(cards, listNames, memberNames), '\n');
            |lines| == |cards| + 1
            && ReadCells(lines[i + 1]) == Some(Map(Fields(Exported(cards[i], listNames, memberNames)), Flat))
  {
    ExportCsvLines(cards, listNames, memberNames);
    var ls := ExportLinesOf(cards, listNames, memberNames);
    IndexCons(Join(CsvHeaders, ","), ls, i);
    ReadLine(Exported(cards[i], listNames, memberNames));
  }

  /** A card's CSV line reads back as its fields. */
  lemma ReadLine(e: CardExport)
    ensures ReadCells(Join(QuotedFields(e), ",")) == Some(Map(Fields(e), Flat))
  {
    SameElements(QuotedFields(e), Map(Fields(e), Quote));
    ReadJoined(Fields(e));
  }

  /** Exporting and reading back gives every card's id, title, list and due
      date, in card order, with line breaks turned into spaces; a value
      without line breaks comes back unchanged. */
  lemma ExportRoundTrip(cards: seq<Card>, listNames: map<string, string>, memberNames: map<string, string>, i: nat)
    requires i < |cards|
    ensures var lines := SplitOn(ExportCsv(cards, listNames, memberNames), '\n');
            var c := cards[i];
            var list := NameOr(listNames, c.idList, c.idList);
            var due := if c.due.Some? then c.due.value.iso else "";
            && |lines| == |cards| + 1
            && ReadCells(lines[i + 1]).Some?
            && var cells := ReadCells(lines[i + 1]).value;
            && |cells| == 7
            && cells[0] == Flat(c.id) && cells[1] == Flat(c.name)
            && cells[2] == Flat(list) && cells[5] == Flat(due)
            && ('\n' !in c.id ==> cells[0] == c.id)
            && ('\n' !in c.name ==> cells[1] == c.name)
            && ('\n' !in list ==> cells[2] == list)
            && ('\n' !in due ==> cells[5] == due)
  {
    ExportReadBack(cards, listNames, memberNames, i);
    var e := Exported(cards[i], listNames, memberNames);
    FlatFields(e);
  }

  lemma FlatFields(e: CardExport)
    ensures var cells := Map(Fields(e), Flat);
            && |cells| == 7
            && cells[0] == Flat(e.id) && cells[1] == Flat(e.title)
            && cells[2] == Flat(e.list) && cells[5] == Flat(e.due)
  {
  }

  /** Both exports carry the same values in the same order; only the keys
      differ. */
  lemma ExportsAgree(e: CardExport)
    ensures |JsonRow(e)| == |CsvRow(e)| == 7
    ensures forall j :: 0 <= j < 7 ==> JsonRow(e)[j].1 == CsvRow(e)[j].1 == Fields(e)[j]
    ensures Keys(CsvRow(e)) == CsvHeaders && Keys(JsonRow(e)) == JsonKeys
  {
  }
}
