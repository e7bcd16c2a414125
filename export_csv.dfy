/** The CSV export of the listed items: a byte-order mark, a header line
    and one line per item whose seven cells are each wrapped in double
    quotes. A reader in the manner of RFC 4180 (quoted fields, a doubled
    quote standing for one quote) states what the file means. */
module ExportCsv {
  import opened Types

  const Bom: string := "\U{FEFF}"

  const Headers: seq<string> := ["Nome", "Tipo", "Categoria", "Valor", "Data", "Descrição", "Tags"]

  /** `headers.join(',')`: the first line, its names unquoted. */
  const HeaderLine: string := JoinWith(",", Headers)

  /** `Array.prototype.join`. */
  function JoinWith(sep: string, parts: seq<string>): string {
    if |parts| == 0 then ""
    else if |parts| == 1 then parts[0]
    else parts[0] + sep + JoinWith(sep, parts[1..])
  }

  /** Joining two parts or more: the first part, the separator, then the
      join of the others. */
  lemma JoinCons(sep: string, parts: seq<string>)
    requires |parts| >= 2
    ensures JoinWith(sep, parts) == parts[0] + (sep + JoinWith(sep, parts[1..]))
  {
  }

  /** `parts.map(f)`. */
  function MapCells(f: string -> string, parts: seq<string>): (r: seq<string>)
    ensures |r| == |parts|
    ensures forall i :: 0 <= i < |parts| ==> r[i] == f(parts[i])
  {
    if parts == [] then [] else [f(parts[0])] + MapCells(f, parts[1..])
  }

  function TypeLabel(t: ItemType): (name: string)
    ensures name == "Receita" <==> t == Income
  {
    if t == Income then "Receita" else "Despesa"
  }

  /** The seven cells of an item, under the seven headers. The currency
      and date formatting are parameters. */
  function Cells(x: FinancialItem, money: int -> string, day: int -> string): (cells: seq<string>)
    ensures |cells| == |Headers|
  {
    [ x.name,
      TypeLabel(x.itemType),
      CategoryKey(x.category),
      money(x.amount),
      day(x.date),
      if x.description.Some? then x.description.value else "",
      if x.tags.Some? then JoinWith("; ", x.tags.value) else "" ]
  }

  /** What each column holds: the type as 'Receita' or 'Despesa', the raw
      category key, and an empty cell for a missing description and for
      missing or empty tags. */
  lemma CellColumns(x: FinancialItem, money: int -> string, day: int -> string)
    ensures var cells := Cells(x, money, day);
      && cells[0] == x.name
      && (cells[1] == "Receita" <==> x.itemType == Income)
      && ParseCategory(cells[2]) == Some(x.category)
      && cells[3] == money(x.amount) && cells[4] == day(x.date)
      && (x.description.None? ==> cells[5] == "")
      && (x.description.Some? ==> cells[5] == x.description.value)
      && (x.tags.Some? ==> cells[6] == JoinWith("; ", x.tags.value))
      && (x.tags.None? || x.tags == Some([]) ==> cells[6] == "")
      && (x.tags.Some? && |x.tags.value| == 1 ==> cells[6] == x.tags.value[0])
  {
    KeysRoundTrip(x.itemType, x.category, NoRecurrence, MonthlyBudget);
  }

  function Rows(items: seq<FinancialItem>, money: int -> string, day: int -> string): (rows: seq<seq<string>>)
    ensures |rows| == |items|
    ensures forall i :: 0 <= i < |items| ==> rows[i] == Cells(items[i], money, day)
  {
    if items == [] then [] else [Cells(items[0], money, day)] + Rows(items[1..], money, day)
  }

  // ---------------------------------------------------------------------
  // Writing

  /** `"${cell}"`: the cell between quotes, its own quotes left as they
      are; it agrees with the corrected quoting only on cells without a
      quote. */
  function QuoteAsWritten(cell: string): (quoted: string)
    ensures |quoted| == |cell| + 2
    ensures '"' !in cell ==> quoted == Quote(cell)
  {
    "\"" + cell + "\""
  }

  /** Each quote of the cell doubled. */
  function Escape(cell: string): (e: string)
    ensures '"' !in cell ==> e == cell
  {
    if cell == [] then []
    else (if cell[0] == '"' then "\"\"" else [cell[0]]) + Escape(cell[1..])
  }

  /** The cell between quotes, its own quotes doubled: a reader takes it
      back as exactly the cell. */
  function Quote(cell: string): (quoted: string)
    ensures |quoted| >= 2 && quoted[0] == '"'
    ensures ParseQuoted(quoted[1..]) == Some((cell, ""))
  {
    QuotedRoundTrip(cell, "");
    assert ("\"" + Escape(cell) + "\"")[1..] == Escape(cell) + "\"" + "";
    "\"" + Escape(cell) + "\""
  }

  function RecordLine(cells: seq<string>, quote: string -> string): string {
    JoinWith(",", MapCells(quote, cells))
  }

  function RecordLines(rows: seq<seq<string>>, quote: string -> string): (lines: seq<string>)
    ensures |lines| == |rows|
  {
    if rows == [] then [] else [RecordLine(rows[0], quote)] + RecordLines(rows[1..], quote)
  }

  function Document(rows: seq<seq<string>>, quote: string -> string): string {
    Bom + JoinWith("\n", [HeaderLine] + RecordLines(rows, quote))
  }

  /** `exportToCSV` as written: cells are quoted but their quotes are not
      doubled. */
  function CsvAsWritten(items: seq<FinancialItem>, money: int -> string, day: int -> string): (csv: string)
    ensures NoQuotes(Rows(items, money, day)) ==> csv == Csv(items, money, day)
  {
    DocumentsAgree(Rows(items, money, day));
    Document(Rows(items, money, day), QuoteAsWritten)
  }

  /** The export with quotes doubled, as RFC 4180 asks: it reads back as
      the items' cells. */
  function Csv(items: seq<FinancialItem>, money: int -> string, day: int -> string): (csv: string)
    ensures ParseDocument(csv) == Some(Rows(items, money, day))
  {
    ExportRoundTrip(items, money, day);
    Document(Rows(items, money, day), Quote)
  }

  // ---------------------------------------------------------------------
  // Reading

  /** The rest of a quoted field after its opening quote: its text, and
      what follows its closing quote. A doubled quote is one quote. */
  function ParseQuoted(s: string): (r: Option<(string, string)>)
    ensures r.Some? ==> |r.value.1| < |s|
  {
    if s == [] then None
    else if s[0] == '"' then
      if |s| > 1 && s[1] == '"' then
        match ParseQuoted(s[2..])
        case None => None
        case Some((f, rest)) => Some(("\"" + f, rest))
      else Some(("", s[1..]))
    else
      match ParseQuoted(s[1..])
      case None => None
      case Some((f, rest)) => Some(([s[0]] + f, rest))
  }

  /** One line of quoted fields separated by commas: the fields, and what
      follows the last one. */
  function ParseRecord(s: string): (r: Option<(seq<string>, string)>)
    ensures r.Some? ==> |r.value.1| < |s|
    decreases |s|
  {
    if s == [] || s[0] != '"' then None
    else
      match ParseQuoted(s[1..])
      case None => None
      case Some((f, rest)) =>
        if rest != [] && rest[0] == ',' then
          match ParseRecord(rest[1..])
          case None => None
          case Some((fs, after)) => Some(([f] + fs, after))
        else Some(([f], rest))
  }

  /** Records separated by line breaks, up to the end of the text. */
  function ParseRecords(s: string): Option<seq<seq<string>>>
    decreases |s|
  {
    match ParseRecord(s)
    case None => None
    case Some((fields, rest)) =>
      if rest == [] then Some([fields])
      else if rest[0] == '\n' then
        match ParseRecords(rest[1..])
        case None => None
        case Some(more) => Some([fields] + more)
      else None
  }

  /** The records of an export: after the mark and the header, none, or a
      line break and the records. */
  function ParseDocument(s: string): Option<seq<seq<string>>> {
    var prefix := Bom + HeaderLine;
    if !(prefix <= s) then None
    else
      var rest := s[|prefix|..];
      if rest == [] then Some([])
      else if rest[0] == '\n' then ParseRecords(rest[1..])
      else None
  }

  // ---------------------------------------------------------------------
  // Round trips

  /** A field written with its quotes doubled reads back as itself. */
  lemma {:induction false} QuotedRoundTrip(cell: string, rest: string)
    requires rest == [] || rest[0] != '"'
    ensures ParseQuoted(Escape(cell) + "\"" + rest) == Some((cell, rest))
  {
    if cell == [] {
      ClosingQuoteRead(rest);
      assert Escape(cell) + "\"" + rest == "\"" + rest;
    } else {
      var t := Escape(cell[1..]) + "\"" + rest;
      QuotedRoundTrip(cell[1..], rest);
      if cell[0] == '"' {
        assert Escape(cell) + "\"" + rest == "\"\"" + t;
        DoubledQuoteRead(t);
        assert "\"" + cell[1..] == cell;
      } else {
        assert Escape(cell) + "\"" + rest == [cell[0]] + t;
        assert ([cell[0]] + t)[1..] == t;
        assert [cell[0]] + cell[1..] == cell;
      }
    }
  }

  /** A lone quote ends the field. */
  lemma ClosingQuoteRead(rest: string)
    requires rest == [] || rest[0] != '"'
    ensures ParseQuoted("\"" + rest) == Some(("", rest))
  {
    assert ("\"" + rest)[1..] == rest;
  }

  /** A doubled quote is one quote of the field. */
  lemma DoubledQuoteRead(t: string)
    ensures ParseQuoted("\"\"" + t) ==
      match ParseQuoted(t)
      case None => None
      case Some((f, rest)) => Some(("\"" + f, rest))
  {
    assert ("\"\"" + t)[2..] == t;
  }

  /** A line of quoted, escaped cells reads back as those cells. */
  lemma {:induction false} RecordRoundTrip(cells: seq<string>, rest: string)
    requires |cells| >= 1
    requires rest == [] || rest[0] == '\n'
    ensures ParseRecord(RecordLine(cells, Quote) + rest) == Some((cells, rest))
  {
    RecordLineShape(cells);
    if |cells| == 1 {
      LastFieldRead(cells[0], rest);
      assert [cells[0]] == cells;
    } else {
      var tail := RecordLine(cells[1..], Quote) + rest;
      assert RecordLine(cells, Quote) + rest == Quote(cells[0]) + "," + tail;
      RecordRoundTrip(cells[1..], rest);
      FieldThenCommaRead(cells[0], tail);
      assert [cells[0]] + cells[1..] == cells;
    }
  }

  /** A line is its first quoted cell, then a comma and the line of the
      other cells when there are any. */
  lemma RecordLineShape(cells: seq<string>)
    requires |cells| >= 1
    ensures |cells| == 1 ==> RecordLine(cells, Quote) == Quote(cells[0])
    ensures |cells| > 1 ==> RecordLine(cells, Quote) == Quote(cells[0]) + "," + RecordLine(cells[1..], Quote)
  {
    var quoted := MapCells(Quote, cells);
    assert quoted[1..] == MapCells(Quote, cells[1..]);
  }

  /** A quoted field at the end of a line is read, and the line break or
      end of text after it is left. */
  lemma LastFieldRead(cell: string, rest: string)
    requires rest == [] || rest[0] == '\n'
    ensures ParseRecord(Quote(cell) + rest) == Some(([cell], rest))
  {
    var s := Quote(cell) + rest;
    assert s[1..] == Escape(cell) + "\"" + rest;
    QuotedRoundTrip(cell, rest);
  }

  /** A quoted field followed by a comma is read, then the rest of the
      line. */
  lemma FieldThenCommaRead(cell: string, tail: string)
    ensures ParseRecord(Quote(cell) + "," + tail) ==
      match ParseRecord(tail)
      case None => None
      case Some((fs, after)) => Some(([cell] + fs, after))
  {
    var s := Quote(cell) + "," + tail;
    assert s[1..] == Escape(cell) + "\"" + ("," + tail);
    QuotedRoundTrip(cell, "," + tail);
    assert ("," + tail)[1..] == tail;
  }

  /** Records written one per line read back as those records. */
  lemma {:induction false} RecordsRoundTrip(rows: seq<seq<string>>)
    requires |rows| >= 1
    requires forall i :: 0 <= i < |rows| ==> |rows[i]| >= 1
    ensures ParseRecords(JoinWith("\n", RecordLines(rows, Quote))) == Some(rows)
  {
    RecordLinesShape(rows);
    if |rows| == 1 {
      RecordRoundTrip(rows[0], "");
      assert RecordLine(rows[0], Quote) + "" == RecordLine(rows[0], Quote);
      assert [rows[0]] == rows;
    } else {
      var tail := JoinWith("\n", RecordLines(rows[1..], Quote));
      RecordRoundTrip(rows[0], "\n" + tail);
      assert ("\n" + tail)[1..] == tail;
      RecordsRoundTrip(rows[1..]);
      assert [rows[0]] + rows[1..] == rows;
    }
  }

  /** The record lines joined: the first line, then a line break and the
      other lines when there are any. */
  lemma RecordLinesShape(rows: seq<seq<string>>)
    requires |rows| >= 1
    ensures |rows| == 1 ==> JoinWith("\n", RecordLines(rows, Quote)) == RecordLine(rows[0], Quote)
    ensures |rows| > 1 ==>
      JoinWith("\n", RecordLines(rows, Quote)) ==
      RecordLine(rows[0], Quote) + ("\n" + JoinWith("\n", RecordLines(rows[1..], Quote)))
  {
    var lines := RecordLines(rows, Quote);
    assert lines[0] == RecordLine(rows[0], Quote);
    if |rows| > 1 {
      assert lines[1..] == RecordLines(rows[1..], Quote);
      JoinCons("\n", lines);
    }
  }

  /** The header line followed by the record lines. */
  lemma DocumentShape(rows: seq<seq<string>>, quote: string -> string)
    ensures Document(rows, quote) ==
      Bom + HeaderLine + (if rows == [] then "" else "\n" + JoinWith("\n", RecordLines(rows, quote)))
  {
    var lines := [HeaderLine] + RecordLines(rows, quote);
    assert lines[1..] == RecordLines(rows, quote);
  }

  /** The corrected export reads back as exactly the items' cells, in
      order, whatever text the cells hold. */
  lemma ExportRoundTrip(items: seq<FinancialItem>, money: int -> string, day: int -> string)
    ensures ParseDocument(Document(Rows(items, money, day), Quote)) == Some(Rows(items, money, day))
  {
    var rows := Rows(items, money, day);
    var s := Document(rows, Quote);
    DocumentShape(rows, Quote);
    var prefix := Bom + HeaderLine;
    assert prefix <= s;
    if rows != [] {
      var body := JoinWith("\n", RecordLines(rows, Quote));
      assert s[|prefix|..] == "\n" + body;
      assert ("\n" + body)[1..] == body;
      RecordsRoundTrip(rows);
    } else {
      assert s[|prefix|..] == [];
    }
  }

  // ---------------------------------------------------------------------
  // The export as written

  /** No cell of any row holds a double quote. */
  predicate NoQuotes(rows: seq<seq<string>>) {
    forall i, j :: 0 <= i < |rows| && 0 <= j < |rows[i]| ==> '"' !in rows[i][j]
  }

  lemma {:induction false} RecordLinesAgree(rows: seq<seq<string>>)
    requires NoQuotes(rows)
    ensures RecordLines(rows, QuoteAsWritten) == RecordLines(rows, Quote)
  {
    if rows != [] {
      var cells := rows[0];
      forall j | 0 <= j < |cells| ensures QuoteAsWritten(cells[j]) == Quote(cells[j]) {
        assert '"' !in rows[0][j];
      }
      assert MapCells(QuoteAsWritten, cells) == MapCells(Quote, cells);
      assert NoQuotes(rows[1..]) by {
        forall i, j | 0 <= i < |rows[1..]| && 0 <= j < |rows[1..][i]| ensures '"' !in rows[1..][i][j] {
          assert rows[1..][i] == rows[i + 1];
        }
      }
      RecordLinesAgree(rows[1..]);
    }
  }

  /** Without a quote in any cell both quotings write the same text. */
  lemma DocumentsAgree(rows: seq<seq<string>>)
    ensures NoQuotes(rows) ==> Document(rows, QuoteAsWritten) == Document(rows, Quote)
  {
    if NoQuotes(rows) {
      RecordLinesAgree(rows);
    }
  }

  /** Without a quote in any cell the export as written is the corrected
      one, so it reads back as the items' cells. */
  lemma AsWrittenWithoutQuotes(items: seq<FinancialItem>, money: int -> string, day: int -> string)
    requires NoQuotes(Rows(items, money, day))
    ensures CsvAsWritten(items, money, day) == Csv(items, money, day)
    ensures ParseDocument(CsvAsWritten(items, money, day)) == Some(Rows(items, money, day))
  {
  }

  /** A cell holding a quote, written as written, ends its field early:
      the line `"a"b"` reads as the field `a` followed by stray text, and is
      no record at all. */
  lemma QuoteBreaksRecord()
    ensures RecordLine(["a\"b"], QuoteAsWritten) == "\"a\"b\""
    ensures ParseRecord(RecordLine(["a\"b"], QuoteAsWritten)) == Some((["a"], "b\""))
    ensures ParseRecords(RecordLine(["a\"b"], QuoteAsWritten)) == None
  {
    var line := "\"a\"b\"";
    var cells := MapCells(QuoteAsWritten, ["a\"b"]);
    assert cells[0] == QuoteAsWritten("a\"b") == line;
    assert cells == [line];
    assert line[1..] == "a\"b\"";
    assert "a\"b\""[1..] == "\"b\"";
    assert "\"b\""[1..] == "b\"";
    assert ParseQuoted("\"b\"") == Some(("", "b\""));
    assert "a\"b\""[0] == 'a' && ['a'] + "" == "a";
    assert ParseQuoted("a\"b\"") == Some(("a", "b\""));
  }
}
