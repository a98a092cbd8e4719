// src/components/crm/CrmExportButton.tsx: the CSV text of the customer export. Each
// cell is wrapped in double quotes with every inner quote doubled (section 2, rules 6
// and 7, of RFC 4180); cells are joined by ',', rows by a bare LF, and the text starts
// with a byte-order mark. A reader is given here so that the round trip can be stated.
module CrmExport {
  import opened Wrappers
  import opened Text
  import opened OrderModel
  import Customers

  type Profile = Customers.Profile

  // ----- Writing -----

  /** `cell.replace(/"/g, '""')`. */
  function Escape(c: string): (r: string)
    ensures |r| >= |c|
    decreases |c|
  {
    if c == [] then [] else (if c[0] == '"' then "\"\"" else [c[0]]) + Escape(c[1..])
  }

  /** `"${escaped}"`. */
  function Quote(c: string): string { "\"" + Escape(c) + "\"" }

  function QuoteAll(cells: seq<string>): (r: seq<string>)
    ensures |r| == |cells|
    decreases |cells|
  {
    if cells == [] then [] else [Quote(cells[0])] + QuoteAll(cells[1..])
  }

  /** One CSV line. */
  function RowText(cells: seq<string>): string {
    Join(QuoteAll(cells), ",")
  }

  function RowTexts(rows: seq<seq<string>>): (r: seq<string>)
    ensures |r| == |rows|
    decreases |rows|
  {
    if rows == [] then [] else [RowText(rows[0])] + RowTexts(rows[1..])
  }

  /** `csvContent`. */
  function CsvText(rows: seq<seq<string>>): string {
    Join(RowTexts(rows), "\n")
  }

  const Headers: seq<string> := [
    "Nombre", "Canal", "Email", "Tel\U{E9}fono", "Pedidos", "LTV", "Ticket Promedio",
    "Primer Pedido", "\U{DA}ltimo Pedido", "VIP", "Recurrente", "Ciudad", "Producto Favorito"]

  /** `String(x)` for a string that may be `null`. */
  function StringOf(a: Option<string>): string {
    if a.Some? then a.value else "null"
  }

  function YesNo(b: bool): string { if b then "S\U{ED}" else "No" }

  /** One customer's cells; `ticket` is `String(avgTicket)`, JavaScript's rendering of
      a number, which is not part of this model. */
  function CustomerCells(c: Profile, ticket: Customers.Ratio -> string): seq<string> {
    [c.displayName, ChannelName(c.channel), OrEmpty(c.email), OrEmpty(c.phone),
     NatToString(c.orderCount), IntToString(c.ltv), ticket(c.avgTicket),
     StringOf(c.firstOrderDate), StringOf(c.lastOrderDate), YesNo(c.isVip), YesNo(c.isRepeat),
     OrEmpty(c.preferredCity), OrEmpty(c.mostPurchasedProduct)]
  }

  function CustomerRows(cs: seq<Profile>, ticket: Customers.Ratio -> string): (r: seq<seq<string>>)
    ensures |r| == |cs|
    ensures forall i :: 0 <= i < |cs| ==> r[i] == CustomerCells(cs[i], ticket)
    decreases |cs|
  {
    if cs == [] then [] else [CustomerCells(cs[0], ticket)] + CustomerRows(cs[1..], ticket)
  }

  /** The blob's text: the mark U+FEFF, then the header and one line per customer. */
  function ExportText(cs: seq<Profile>, ticket: Customers.Ratio -> string): string {
    "\U{FEFF}" + CsvText([Headers] + CustomerRows(cs, ticket))
  }

  // ----- Reading -----

  /** Reads a quoted cell's body after its opening quote, up to and past the closing
      quote; `""` stands for one quote. */
  function ReadBody(s: string): (r: Option<(string, string)>)
    ensures r.Some? ==> |r.value.1| < |s|
    decreases |s|
  {
    if s == [] then None
    else if s[0] == '"' then
      if |s| > 1 && s[1] == '"' then
        var b := ReadBody(s[2..]);
        if b.None? then None else Some(("\"" + b.value.0, b.value.1))
      else Some(("", s[1..]))
    else
      var b := ReadBody(s[1..]);
      if b.None? then None else Some(([s[0]] + b.value.0, b.value.1))
  }

  datatype RowEnd = EndOfRow(rest: string) | EndOfText

  /** Reads the quoted cells of one line. */
  function ParseCells(s: string): (r: Option<(seq<string>, RowEnd)>)
    ensures r.Some? && r.value.1.EndOfRow? ==> |r.value.1.rest| < |s|
    decreases |s|
  {
    if s == [] || s[0] != '"' then None
    else
      var b := ReadBody(s[1..]);
      if b.None? then None
      else
        var (cell, t) := b.value;
        if t == [] then Some(([cell], EndOfText))
        else if t[0] == '\n' then Some(([cell], EndOfRow(t[1..])))
        else if t[0] == ',' then
          var more := ParseCells(t[1..]);
          if more.None? then None else Some(([cell] + more.value.0, more.value.1))
        else None
  }

  /** Reads every line. */
  function ParseRows(s: string): Option<seq<seq<string>>>
    decreases |s|
  {
    var p := ParseCells(s);
    if p.None? then None
    else if p.value.1.EndOfText? then Some([p.value.0])
    else
      var more := ParseRows(p.value.1.rest);
      if more.None? then None else Some([p.value.0] + more.value)
  }

  // ----- Round trip -----

  /** An escaped body followed by its closing quote reads back as the cell, whatever
      follows that is not itself a quote. */
  lemma {:induction false} ReadBodyEscape(c: string, t: string)
    requires t == [] || t[0] != '"'
    ensures ReadBody(Escape(c) + "\"" + t) == Some((c, t))
    decreases |c|
  {
    var s := Escape(c) + "\"" + t;
    if c == [] {
      assert s == "\"" + t;
    } else {
      ReadBodyEscape(c[1..], t);
      var tail := Escape(c[1..]) + "\"" + t;
      if c[0] == '"' {
        assert s == "\"\"" + tail;
        assert s[2..] == tail;
      } else {
        assert s == [c[0]] + tail;
        assert s[1..] == tail;
      }
      assert [c[0]] + c[1..] == c;
    }
  }

  /** How the reader goes on after one quoted cell. */
  lemma ParseCellsAfterQuote(c: string, t: string)
    requires t == [] || t[0] != '"'
    ensures ParseCells(Quote(c) + t) ==
      if t == [] then Some(([c], EndOfText))
      else if t[0] == '\n' then Some(([c], EndOfRow(t[1..])))
      else if t[0] == ',' then
        (var more := ParseCells(t[1..]); if more.None? then None else Some(([c] + more.value.0, more.value.1)))
      else None
  {
    var u := Escape(c) + "\"" + t;
    assert Quote(c) + t == ['"'] + u;
    assert (['"'] + u)[1..] == u;
    ReadBodyEscape(c, t);
  }

  /** A line of several cells is its first quoted cell, a comma and the rest of the line. */
  lemma RowTextCons(cells: seq<string>)
    requires |cells| > 1
    ensures RowText(cells) == Quote(cells[0]) + "," + RowText(cells[1..])
  {
    assert QuoteAll(cells) == [Quote(cells[0])] + QuoteAll(cells[1..]);
    assert QuoteAll(cells)[1..] == QuoteAll(cells[1..]);
  }

  /** A line followed by LF and more text, or by nothing, reads back as its cells. */
  lemma {:induction false} ParseCellsRow(cells: seq<string>, tail: string)
    requires cells != []
    requires tail == [] || tail[0] == '\n'
    ensures ParseCells(RowText(cells) + tail) == Some((cells, if tail == [] then EndOfText else EndOfRow(tail[1..])))
    decreases |cells|
  {
    var c := cells[0];
    if |cells| == 1 {
      assert cells == [c];
      assert RowText(cells) == Quote(c);
      ParseCellsAfterQuote(c, tail);
    } else {
      ParseCellsRow(cells[1..], tail);
      ParseCellsRowCons(cells, tail);
    }
  }

  /** The step of the induction: the first cell, then the rest of the line as before. */
  lemma ParseCellsRowCons(cells: seq<string>, tail: string)
    requires |cells| > 1
    requires tail == [] || tail[0] == '\n'
    requires ParseCells(RowText(cells[1..]) + tail) ==
      Some((cells[1..], if tail == [] then EndOfText else EndOfRow(tail[1..])))
    ensures ParseCells(RowText(cells) + tail) == Some((cells, if tail == [] then EndOfText else EndOfRow(tail[1..])))
  {
    var c, rest := cells[0], cells[1..];
    RowTextCons(cells);
    var t := "," + (RowText(rest) + tail);
    Regroup(Quote(c), ",", RowText(rest), tail);
    ParseCellsAfterQuote(c, t);
    DropHead(',', RowText(rest) + tail);
    assert [c] + rest == cells;
  }

  lemma Regroup<T>(a: seq<T>, b: seq<T>, c: seq<T>, d: seq<T>)
    ensures a + b + c + d == a + (b + (c + d))
  {
  }

  lemma DropHead<T>(x: T, u: seq<T>)
    ensures ([x] + u)[1..] == u
  {
  }

  /** Splitting the text on the LF and commas outside quotes and undoing the doubled
      quotes gives back every line's cells, in order. */
  lemma {:induction false} ParseRowsCsv(rows: seq<seq<string>>)
    requires rows != []
    requires forall i :: 0 <= i < |rows| ==> rows[i] != []
    ensures ParseRows(CsvText(rows)) == Some(rows)
    decreases |rows|
  {
    if |rows| == 1 {
      CsvTextOne(rows);
      ParseCellsRow(rows[0], "");
      assert ParseCells(CsvText(rows)) == Some((rows[0], EndOfText));
      assert rows == [rows[0]];
    } else {
      var rest := rows[1..];
      var t := "\n" + CsvText(rest);
      CsvTextCons(rows);
      ParseCellsRow(rows[0], t);
      DropHead('\n', CsvText(rest));
      ParseRowsCsv(rest);
      assert [rows[0]] + rest == rows;
    }
  }

  lemma CsvTextOne(rows: seq<seq<string>>)
    requires |rows| == 1
    ensures RowText(rows[0]) + "" == CsvText(rows)
  {
    assert RowTexts(rows) == [RowText(rows[0])];
  }

  lemma CsvTextCons(rows: seq<seq<string>>)
    requires |rows| > 1
    ensures CsvText(rows) == RowText(rows[0]) + ("\n" + CsvText(rows[1..]))
  {
    assert RowTexts(rows) == [RowText(rows[0])] + RowTexts(rows[1..]);
    assert RowTexts(rows)[1..] == RowTexts(rows[1..]);
  }

  /** Every exported line has the 13 columns, and a customer's line shows its flags
      as "Sí"/"No" and a missing email as "". */
  lemma ExportRowsShape(cs: seq<Profile>, ticket: Customers.Ratio -> string)
    ensures |Headers| == 13
    ensures forall i :: 0 <= i < |cs| ==> var row := CustomerRows(cs, ticket)[i];
      && |row| == 13
      && row[9] == YesNo(cs[i].isVip) && row[10] == YesNo(cs[i].isRepeat)
      && (cs[i].email.None? ==> row[2] == "")
  {
  }

  lemma RowsNonEmpty(cs: seq<Profile>, ticket: Customers.Ratio -> string)
    ensures var rows := [Headers] + CustomerRows(cs, ticket);
      forall i :: 0 <= i < |rows| ==> rows[i] != []
  {
    var rows := [Headers] + CustomerRows(cs, ticket);
    forall i | 0 <= i < |rows| ensures rows[i] != [] {
      if i > 0 {
        assert rows[i] == CustomerCells(cs[i - 1], ticket);
      }
    }
  }

  lemma MarkThen(t: string)
    ensures ("\U{FEFF}" + t)[0] == '\U{FEFF}' && ("\U{FEFF}" + t)[1..] == t
  {
  }

  /** The export starts with the byte-order mark; after it the text reads back as the
      header followed by one row per customer, in input order. */
  lemma ExportSpec(cs: seq<Profile>, ticket: Customers.Ratio -> string)
    ensures var text := ExportText(cs, ticket);
      && text[0] == '\U{FEFF}'
      && ParseRows(text[1..]) == Some([Headers] + CustomerRows(cs, ticket))
  {
    var rows := [Headers] + CustomerRows(cs, ticket);
    RowsNonEmpty(cs, ticket);
    ParseRowsCsv(rows);
    MarkThen(CsvText(rows));
  }

  /** The writer does not lose cells: two different cells never quote alike. */
  lemma QuoteInjective(a: string, b: string)
    requires Quote(a) == Quote(b)
    ensures a == b
  {
    ReadBodyEscape(a, "");
    ReadBodyEscape(b, "");
    assert Quote(a)[1..] == Escape(a) + "\"" + "";
    assert Quote(b)[1..] == Escape(b) + "\"" + "";
  }
}
