/**
 * The CSV report of the visible sales: field escaping, the header line, one line per sale
 * and the byte-order mark in front. A reader for the same dialect (fields separated by
 * commas, records by line feeds, quoted fields with doubled quotes inside) is defined here
 * as the export's partner: reading an exported report gives back exactly the header and the
 * cells that were written.
 */
module Csv {
  import opened Wrappers
  import opened Types

  /** The byte-order mark written in front of the report. */
  const Bom: char := '\U{FEFF}'

  /** The alert shown instead of exporting when no sale is visible. */
  const NoDataMessage: string := "Não há dados para exportar."

  /** The fifteen column titles, in order. */
  const Headers: seq<string> := [
    "ID", "Cliente", "Telefone", "Corretor", "Construtora", "Empreendimento",
    "Bloco", "Unidade", "Data da Venda", "Valor Total da Venda",
    "Comissão Total (%)", "Comissão Vendedor (%)", "Valor Comissão Paga", "Status Pagamento", "Status Repasse"
  ]

  /** A value is quoted when it holds a double quote, a comma or a line feed. */
  predicate NeedsQuoting(v: string)
  {
    '"' in v || ',' in v || '\n' in v
  }

  /** Every double quote doubled. */
  function DoubleQuotes(v: string): (r: string)
    ensures |r| >= |v|
    ensures '"' !in v ==> r == v
  {
    if v == [] then []
    else (if v[0] == '"' then "\"\"" else [v[0]]) + DoubleQuotes(v[1..])
  }

  /** `escapeCSV`: a value needing quotes is wrapped in quotes with inner quotes doubled; any other is kept. */
  function EscapeField(v: string): (r: string)
    ensures r == v <==> !NeedsQuoting(v)
    ensures NeedsQuoting(v) ==> |r| >= 2 && r[0] == '"' && r[|r| - 1] == '"'
  {
    if NeedsQuoting(v) then ['"'] + DoubleQuotes(v) + ['"'] else v
  }

  /** `join(sep)`: the parts with `sep` between consecutive ones. */
  function JoinWith(parts: seq<string>, sep: char): string
  {
    if parts == [] then []
    else if |parts| == 1 then parts[0]
    else parts[0] + [sep] + JoinWith(parts[1..], sep)
  }

  /** The summed length of the parts. */
  function TotalLength(parts: seq<string>): nat
  {
    if parts == [] then 0 else |parts[0]| + TotalLength(parts[1..])
  }

  /** A join is as long as its parts plus one separator between each pair of neighbours. */
  lemma {:induction false} JoinWithLength(parts: seq<string>, sep: char)
    ensures parts == [] ==> JoinWith(parts, sep) == []
    ensures parts != [] ==> |JoinWith(parts, sep)| == TotalLength(parts) + |parts| - 1
    decreases |parts|
  {
    if |parts| >= 2 {
      JoinWithLength(parts[1..], sep);
    }
  }

  /** Joining one more part appends a separator and that part. */
  lemma {:induction false} JoinWithSnoc(parts: seq<string>, p: string, sep: char)
    requires parts != []
    ensures JoinWith(parts + [p], sep) == JoinWith(parts, sep) + [sep] + p
    decreases |parts|
  {
    if |parts| == 1 {
      assert (parts + [p])[1..] == [p];
    } else {
      assert (parts + [p])[1..] == parts[1..] + [p];
      JoinWithSnoc(parts[1..], p, sep);
    }
  }

  function EscapeAll(fields: seq<string>): (r: seq<string>)
    ensures |r| == |fields|
    ensures forall i :: 0 <= i < |fields| ==> r[i] == EscapeField(fields[i])
  {
    if fields == [] then [] else [EscapeField(fields[0])] + EscapeAll(fields[1..])
  }

  /** One CSV line: the escaped fields joined by commas. */
  function EncodeRow(fields: seq<string>): string
  {
    JoinWith(EscapeAll(fields), ',')
  }

  function EncodeAll(rows: seq<seq<string>>): (r: seq<string>)
    ensures |r| == |rows|
    ensures forall i :: 0 <= i < |rows| ==> r[i] == EncodeRow(rows[i])
  {
    if rows == [] then [] else [EncodeRow(rows[0])] + EncodeAll(rows[1..])
  }

  /** The cells of one sale's line, in column order; numbers and the date go through the given renderers. */
  function Cells(s: Sale, number: real -> string, date: string -> string): (cells: seq<string>)
    ensures |cells| == 15
    ensures cells[0] == s.id && cells[1] == s.cliente && cells[2] == s.telefone && cells[3] == s.corretor
    ensures cells[4] == s.construtora && cells[5] == s.empreendimento && cells[6] == s.bloco && cells[7] == s.unidade
    ensures cells[8] == date(s.dataVenda) && cells[9] == number(s.valorTotalVenda)
    ensures cells[10] == number(s.porcentagemComissaoTotal) && cells[11] == number(s.porcentagemComissaoVendedor)
    ensures cells[12] == number(s.valorComissaoPaga)
    ensures cells[13] == PagamentoLabel(s.statusPagamento) && cells[14] == RepasseLabel(s.statusRepasse)
  {
    [ s.id, s.cliente, s.telefone, s.corretor, s.construtora, s.empreendimento, s.bloco, s.unidade,
      date(s.dataVenda), number(s.valorTotalVenda), number(s.porcentagemComissaoTotal),
      number(s.porcentagemComissaoVendedor), number(s.valorComissaoPaga),
      PagamentoLabel(s.statusPagamento), RepasseLabel(s.statusRepasse) ]
  }

  /** The cells of every sale, one row each, in the order given. */
  function CellRows(sales: seq<Sale>, number: real -> string, date: string -> string): (rows: seq<seq<string>>)
    ensures |rows| == |sales|
    ensures forall i :: 0 <= i < |sales| ==> rows[i] == Cells(sales[i], number, date)
  {
    if sales == [] then [] else [Cells(sales[0], number, date)] + CellRows(sales[1..], number, date)
  }

  /**
   * `handleExportCSV`: nothing to export when no sale is visible; otherwise the byte-order
   * mark, the header line (titles joined as they are) and one escaped line per sale, joined
   * by line feeds.
   */
  function ExportCsv(visible: seq<Sale>, number: real -> string, date: string -> string): (r: Result<string, string>)
    ensures r.Err? <==> visible == []
    ensures r.Err? ==> r.error == NoDataMessage
    ensures r.Ok? ==> r.value == [Bom] + ReportLines(visible, number, date)
  {
    if visible == [] then Err(NoDataMessage)
    else
      var lines := ReportLines(visible, number, date);
      Ok([Bom] + lines)
  }

  /**
   * The header line and the sales' lines, joined by line feeds; it reads back as the column
   * titles followed by each sale's cells.
   */
  function ReportLines(visible: seq<Sale>, number: real -> string, date: string -> string): (r: string)
    ensures ParseDocument(r) == [Headers] + CellRows(visible, number, date)
  {
    HeaderLineIsEncoded();
    ReportReadsBack(Headers, visible, number, date);
    JoinWith([JoinWith(Headers, ',')] + EncodeAll(CellRows(visible, number, date)), '\n')
  }

  // ---------------------------------------------------------------------------------------
  // Reading the dialect back

  /** The body of a quoted field up to its closing quote, a doubled quote standing for one quote. */
  function ParseQuoted(s: string): (res: (string, string))
    ensures |res.1| <= |s|
    decreases |s|
  {
    if s == [] then ([], [])
    else if s[0] == '"' then
      if |s| >= 2 && s[1] == '"' then
        var (f, rest) := ParseQuoted(s[2..]);
        (['"'] + f, rest)
      else ([], s[1..])
    else
      var (f, rest) := ParseQuoted(s[1..]);
      ([s[0]] + f, rest)
  }

  /** An unquoted field: everything up to the next comma or line feed. */
  function ParseUnquoted(s: string): (res: (string, string))
    ensures |res.1| <= |s|
    ensures res.0 + res.1 == s
    decreases |s|
  {
    if s == [] || s[0] == ',' || s[0] == '\n' then ([], s)
    else
      var (f, rest) := ParseUnquoted(s[1..]);
      ([s[0]] + f, rest)
  }

  /** One field and what follows it. */
  function ParseField(s: string): (res: (string, string))
    ensures |res.1| <= |s|
  {
    if s != [] && s[0] == '"' then ParseQuoted(s[1..]) else ParseUnquoted(s)
  }

  /** The fields of one record and what follows it (a line feed, the end, or stray text). */
  function ParseRecord(s: string): (res: (seq<string>, string))
    ensures |res.0| >= 1
    ensures |res.1| <= |s|
    decreases |s|
  {
    var (f, rest) := ParseField(s);
    if rest != [] && rest[0] == ',' then
      var (fs, rest') := ParseRecord(rest[1..]);
      ([f] + fs, rest')
    else ([f], rest)
  }

  /** The records of a document. */
  function ParseDocument(s: string): (rows: seq<seq<string>>)
    ensures |rows| >= 1
    decreases |s|
  {
    var (fs, rest) := ParseRecord(s);
    if rest != [] && rest[0] == '\n' then [fs] + ParseDocument(rest[1..]) else [fs]
  }

  /** A report as read: the byte-order mark, when present, is skipped. */
  function ParseCsv(content: string): seq<seq<string>>
  {
    if content != [] && content[0] == Bom then ParseDocument(content[1..]) else ParseDocument(content)
  }

  // ---------------------------------------------------------------------------------------
  // Round trips

  /** A quoted body, closed and followed by anything but a quote, reads back as the value. */
  lemma {:induction false} QuotedRoundTrip(v: string, rest: string)
    requires rest == [] || rest[0] != '"'
    ensures ParseQuoted(DoubleQuotes(v) + ['"'] + rest) == (v, rest)
    decreases |v|
  {
    if v == [] {
      var s := DoubleQuotes(v) + ['"'] + rest;
      assert s == ['"'] + rest;
      assert s[1..] == rest;
    } else {
      QuotedRoundTrip(v[1..], rest);
      if v[0] == '"' {
        QuotedStepQuote(v, rest);
      } else {
        QuotedStepOther(v, rest);
      }
    }
  }

  lemma Regroup(a: string, b: string, c: string, d: string)
    ensures a + b + c + d == a + (b + c + d)
  {
  }

  /** Reading a quoted body past one character other than a quote. */
  lemma ReadOther(c: char, t: string)
    requires c != '"'
    ensures ParseQuoted([c] + t) == ([c] + ParseQuoted(t).0, ParseQuoted(t).1)
  {
    assert ([c] + t)[1..] == t;
  }

  /** Reading a quoted body past a doubled quote. */
  lemma ReadDoubled(t: string)
    ensures ParseQuoted("\"\"" + t) == (['"'] + ParseQuoted(t).0, ParseQuoted(t).1)
  {
    assert ("\"\"" + t)[2..] == t;
  }

  /** A doubled quote reads back as one quote, and reading goes on after it. */
  lemma QuotedStepQuote(v: string, rest: string)
    requires v != [] && v[0] == '"'
    requires ParseQuoted(DoubleQuotes(v[1..]) + ['"'] + rest) == (v[1..], rest)
    ensures ParseQuoted(DoubleQuotes(v) + ['"'] + rest) == (v, rest)
  {
    var tail := DoubleQuotes(v[1..]) + ['"'] + rest;
    assert DoubleQuotes(v) == "\"\"" + DoubleQuotes(v[1..]);
    Regroup("\"\"", DoubleQuotes(v[1..]), ['"'], rest);
    ReadDoubled(tail);
    assert v == [v[0]] + v[1..];
  }

  /** Any other character reads back as itself. */
  lemma QuotedStepOther(v: string, rest: string)
    requires v != [] && v[0] != '"'
    requires ParseQuoted(DoubleQuotes(v[1..]) + ['"'] + rest) == (v[1..], rest)
    ensures ParseQuoted(DoubleQuotes(v) + ['"'] + rest) == (v, rest)
  {
    var tail := DoubleQuotes(v[1..]) + ['"'] + rest;
    assert DoubleQuotes(v) == [v[0]] + DoubleQuotes(v[1..]);
    Regroup([v[0]], DoubleQuotes(v[1..]), ['"'], rest);
    ReadOther(v[0], tail);
    assert v == [v[0]] + v[1..];
  }

  /** A value needing no quotes, followed by a comma, a line feed or nothing, reads back as itself. */
  lemma {:induction false} UnquotedRoundTrip(v: string, rest: string)
    requires !NeedsQuoting(v)
    requires rest == [] || rest[0] == ',' || rest[0] == '\n'
    ensures ParseUnquoted(v + rest) == (v, rest)
    decreases |v|
  {
    if v == [] {
      assert v + rest == rest;
    } else {
      assert v[0] in v;
      assert !NeedsQuoting(v[1..]) by {
        assert forall c :: c in v[1..] ==> c in v;
      }
      UnquotedRoundTrip(v[1..], rest);
      assert v + rest == [v[0]] + (v[1..] + rest);
      ReadPlain(v[0], v[1..] + rest);
      assert [v[0]] + v[1..] == v;
    }
  }

  /** Reading an unquoted field past one character that ends no field. */
  lemma ReadPlain(c: char, t: string)
    requires c != ',' && c != '\n'
    ensures ParseUnquoted([c] + t) == ([c] + ParseUnquoted(t).0, ParseUnquoted(t).1)
  {
    assert ([c] + t)[1..] == t;
  }

  /** An escaped field, followed by a comma, a line feed or nothing, reads back as the value. */
  lemma FieldRoundTrip(v: string, rest: string)
    requires rest == [] || rest[0] == ',' || rest[0] == '\n'
    ensures ParseField(EscapeField(v) + rest) == (v, rest)
  {
    if NeedsQuoting(v) {
      QuotedFieldRoundTrip(v, rest);
    } else {
      PlainFieldRoundTrip(v, rest);
    }
  }

  lemma QuotedFieldRoundTrip(v: string, rest: string)
    requires NeedsQuoting(v)
    requires rest == [] || rest[0] == ',' || rest[0] == '\n'
    ensures ParseField(EscapeField(v) + rest) == (v, rest)
  {
    var body := DoubleQuotes(v) + ['"'] + rest;
    QuotedRoundTrip(v, rest);
    Regroup(['"'], DoubleQuotes(v), ['"'], rest);
    var s := ['"'] + body;
    assert EscapeField(v) + rest == s;
    assert s[1..] == body;
  }

  lemma PlainFieldRoundTrip(v: string, rest: string)
    requires !NeedsQuoting(v)
    requires rest == [] || rest[0] == ',' || rest[0] == '\n'
    ensures ParseField(EscapeField(v) + rest) == (v, rest)
  {
    UnquotedRoundTrip(v, rest);
    if v != [] {
      assert v[0] in v;
      assert (v + rest)[0] == v[0];
    }
  }

  /** A line of one or more escaped fields, followed by a line feed or nothing, reads back as the fields. */
  lemma {:induction false} RecordRoundTrip(fields: seq<string>, rest: string)
    requires |fields| >= 1
    requires rest == [] || rest[0] == '\n'
    ensures ParseRecord(EncodeRow(fields) + rest) == (fields, rest)
    decreases |fields|
  {
    var escaped := EscapeAll(fields);
    if |fields| == 1 {
      FieldRoundTrip(fields[0], rest);
      assert fields == [fields[0]];
    } else {
      var tail := fields[1..];
      assert escaped[1..] == EscapeAll(tail);
      var after := [','] + EncodeRow(tail) + rest;
      assert EncodeRow(fields) == EscapeField(fields[0]) + [','] + EncodeRow(tail);
      Regroup(EscapeField(fields[0]), [','], EncodeRow(tail), rest);
      FieldRoundTrip(fields[0], after);
      assert after[1..] == EncodeRow(tail) + rest;
      RecordRoundTrip(tail, rest);
      assert fields == [fields[0]] + tail;
    }
  }

  /** A document of one or more non-empty rows reads back as those rows. */
  lemma {:induction false} DocumentRoundTrip(rows: seq<seq<string>>)
    requires |rows| >= 1
    requires forall i :: 0 <= i < |rows| ==> |rows[i]| >= 1
    ensures ParseDocument(JoinWith(EncodeAll(rows), '\n')) == rows
    decreases |rows|
  {
    var lines := EncodeAll(rows);
    if |rows| == 1 {
      RecordRoundTrip(rows[0], []);
      assert EncodeRow(rows[0]) + [] == EncodeRow(rows[0]);
      assert rows == [rows[0]];
    } else {
      var tail := rows[1..];
      assert lines[1..] == EncodeAll(tail);
      var after := ['\n'] + JoinWith(EncodeAll(tail), '\n');
      assert JoinWith(lines, '\n') == EncodeRow(rows[0]) + after;
      RecordRoundTrip(rows[0], after);
      assert after[1..] == JoinWith(EncodeAll(tail), '\n');
      DocumentRoundTrip(tail);
      assert rows == [rows[0]] + tail;
    }
  }

  /** A value none of whose characters is a quote, a comma or a line feed needs no quotes. */
  lemma PlainByCharacters(v: string)
    requires forall i | 0 <= i < |v| :: v[i] != '"' && v[i] != ',' && v[i] != '\n'
    ensures !NeedsQuoting(v)
  {
  }

  /** The column titles hold no quote, comma or line feed. */
  lemma TitlesArePlain()
    ensures forall i :: 0 <= i < |Headers| ==> !NeedsQuoting(Headers[i])
  {
    PlainByCharacters("ID");
    PlainByCharacters("Cliente");
    PlainByCharacters("Telefone");
    PlainByCharacters("Corretor");
    PlainByCharacters("Construtora");
    PlainByCharacters("Empreendimento");
    PlainByCharacters("Bloco");
    PlainByCharacters("Unidade");
    PlainByCharacters("Data da Venda");
    PlainByCharacters("Valor Total da Venda");
    PlainByCharacters("Comissão Total (%)");
    PlainByCharacters("Comissão Vendedor (%)");
    PlainByCharacters("Valor Comissão Paga");
    PlainByCharacters("Status Pagamento");
    PlainByCharacters("Status Repasse");
  }

  /** Fields needing no quotes are written as they are. */
  lemma EscapeAllPlain(fields: seq<string>)
    requires forall i :: 0 <= i < |fields| ==> !NeedsQuoting(fields[i])
    ensures EscapeAll(fields) == fields
  {
  }

  /** So writing the titles joined as they are is writing them escaped. */
  lemma HeaderLineIsEncoded()
    ensures Headers != []
    ensures JoinWith(Headers, ',') == EncodeRow(Headers)
  {
    TitlesArePlain();
    EscapeAllPlain(Headers);
  }

  /** A header line of plain titles followed by encoded rows reads back as the titles and the rows. */
  lemma PlainHeaderDocument(titles: seq<string>, rows: seq<seq<string>>)
    requires |titles| >= 1 && JoinWith(titles, ',') == EncodeRow(titles)
    requires forall i :: 0 <= i < |rows| ==> |rows[i]| >= 1
    ensures ParseDocument(JoinWith([JoinWith(titles, ',')] + EncodeAll(rows), '\n')) == [titles] + rows
  {
    var all := [titles] + rows;
    assert EncodeAll(all) == [JoinWith(titles, ',')] + EncodeAll(rows);
    DocumentRoundTrip(all);
  }

  /** A header line of plain titles and the sales' lines read back as the titles and the sales' cells. */
  lemma ReportReadsBack(titles: seq<string>, visible: seq<Sale>, number: real -> string, date: string -> string)
    requires |titles| >= 1 && JoinWith(titles, ',') == EncodeRow(titles)
    ensures ParseDocument(JoinWith([JoinWith(titles, ',')] + EncodeAll(CellRows(visible, number, date)), '\n'))
            == [titles] + CellRows(visible, number, date)
  {
    var rows := CellRows(visible, number, date);
    assert forall i :: 0 <= i < |rows| ==> |rows[i]| == 15;
    PlainHeaderDocument(titles, rows);
  }

  /** A leading byte-order mark is not part of the first field. */
  lemma ParseCsvSkipsBom(body: string)
    ensures ParseCsv([Bom] + body) == ParseDocument(body)
  {
    assert ([Bom] + body)[1..] == body;
  }

  /**
   * The exported report reads back as the column titles followed by each visible sale's
   * cells, in the order the sales are listed.
   */
  lemma ExportRoundTrip(visible: seq<Sale>, number: real -> string, date: string -> string)
    requires visible != []
    ensures ParseCsv(ExportCsv(visible, number, date).value) == [Headers] + CellRows(visible, number, date)
  {
    ParseCsvSkipsBom(ReportLines(visible, number, date));
  }
}
