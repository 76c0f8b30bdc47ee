/** The "Excel'e Aktar" export of the all-funds table
    (src/components/AllFunds.js): a byte-order mark, a header line and one
    semicolon-delimited line per row of the sorted table. */
module FundExport {

  import opened JsValues
  import opened Text
  import opened FundTable
  import opened FundSort

  /** The UTF-8 byte-order mark, U+FEFF, put before the text. */
  const BOM: char := '\U{FEFF}'

  /** The labels of the two fixed columns. */
  const CodeLabel := "Fon Kodu"
  const NameLabel := "Fon Ünvanı"

  /** The header line: the labels joined by `;`, not quoted. */
  function HeaderLine(returnHeaders: seq<string>): string
  {
    Join([CodeLabel, NameLabel] + returnHeaders, ';')
  }

  function Quoted(s: string): string
  {
    "\"" + s + "\""
  }

  /** One value cell: empty for `null`/`undefined`, otherwise
      `value.toFixed(2)` (the parameter `fmt`) with its first `.` turned
      into `,`; `NaN.toFixed(2)` is "NaN". */
  function Cell(v: Amount, fmt: real -> string): (c: string)
    ensures c == "" <==> v.Null? || v.Undef? || (v.Num? && fmt(v.n) == "")
  {
    if v.Null? || v.Undef? then ""
    else if v.NaN? then "NaN"
    else ReplaceFirst(fmt(v.n), '.', ',')
  }

  /** A number printed with a `.` decimal point is exported with a `,`. */
  lemma CellDecimalComma(x: real, fmt: real -> string, intPart: string, fracPart: string)
    requires fmt(x) == intPart + "." + fracPart && '.' !in intPart
    ensures Cell(Num(x), fmt) == intPart + "," + fracPart
  {
    ReplaceFirstAt(intPart, fracPart, '.', ',');
  }

  /** The value cells of a row, one per return header, in header order. */
  function ValueCells(row: FundRow, headers: seq<string>, fmt: real -> string): (cells: seq<string>)
    ensures |cells| == |headers|
    ensures forall i | 0 <= i < |headers| :: cells[i] == Cell(DataField(row, headers[i]), fmt)
  {
    if headers == [] then []
    else [Cell(DataField(row, headers[0]), fmt)] + ValueCells(row, headers[1..], fmt)
  }

  /** The cells of a data line: quoted code, quoted long name, values. */
  function RowCells(row: FundRow, headers: seq<string>, fmt: real -> string): seq<string>
  {
    [Quoted(row.fund.fundCode), Quoted(row.fund.longName)] + ValueCells(row, headers, fmt)
  }

  function RowLine(row: FundRow, headers: seq<string>, fmt: real -> string): string
  {
    Join(RowCells(row, headers, fmt), ';')
  }

  function RowLines(rows: seq<FundRow>, headers: seq<string>, fmt: real -> string): (lines: seq<string>)
    ensures |lines| == |rows|
    ensures forall i | 0 <= i < |rows| :: lines[i] == RowLine(rows[i], headers, fmt)
  {
    if rows == [] then [] else [RowLine(rows[0], headers, fmt)] + RowLines(rows[1..], headers, fmt)
  }

  /** The exported document for the rows in their current order. */
  function ExportText(rows: seq<FundRow>, headers: seq<string>, fmt: real -> string): string
  {
    [BOM] + Join([HeaderLine(headers)] + RowLines(rows, headers, fmt), '\n')
  }

  lemma JoinWithout(xs: seq<string>, d: char, c: char)
    requires c != d && forall x <- xs :: c !in x
    ensures c !in Join(xs, d)
  {
    if |xs| > 1 {
      assert xs[0] in xs;
      JoinWithout(xs[1..], d, c);
    }
  }

  lemma ReplaceFirstWithout(s: string, c: char)
    requires c !in s && c != ','
    ensures c !in ReplaceFirst(s, '.', ',')
  {
    if s != [] {
      ReplaceFirstWithout(s[1..], c);
    }
  }

  /** A character other than `;` that no code, name or formatted number
      contains is absent from the row's line. */
  lemma RowLineWithout(row: FundRow, headers: seq<string>, fmt: real -> string, c: char)
    requires c != ';' && c != '"' && c != ',' && c !in "NaN"
    requires c !in row.fund.fundCode && c !in row.fund.longName
    requires forall x :: c !in fmt(x)
    ensures c !in RowLine(row, headers, fmt)
  {
    var cells := RowCells(row, headers, fmt);
    forall x <- cells ensures c !in x {
      var i :| 0 <= i < |cells| && cells[i] == x;
      if i >= 2 {
        var v := DataField(row, headers[i - 2]);
        if v.Num? {
          ReplaceFirstWithout(fmt(v.n), c);
        }
      }
    }
    JoinWithout(cells, ';', c);
  }

  /** The document is the byte-order mark followed by N + 1 lines: the
      header line, then one line per row in the given order, as long as no
      field holds a line break. */
  lemma ExportLines(rows: seq<FundRow>, headers: seq<string>, fmt: real -> string)
    requires forall h <- headers :: '\n' !in h
    requires forall r <- rows :: '\n' !in r.fund.fundCode && '\n' !in r.fund.longName
    requires forall x :: '\n' !in fmt(x)
    ensures var text := ExportText(rows, headers, fmt);
      && text[0] == BOM
      && var lines := Split(text[1..], '\n');
      && |lines| == |rows| + 1
      && lines[0] == HeaderLine(headers)
      && forall i | 0 <= i < |rows| :: lines[i + 1] == RowLine(rows[i], headers, fmt)
  {
    var all := [HeaderLine(headers)] + RowLines(rows, headers, fmt);
    assert forall l <- [CodeLabel, NameLabel] + headers :: '\n' !in l;
    JoinWithout([CodeLabel, NameLabel] + headers, ';', '\n');
    forall l <- all ensures '\n' !in l {
      var i :| 0 <= i < |all| && all[i] == l;
      if i > 0 {
        assert rows[i - 1] in rows;
        RowLineWithout(rows[i - 1], headers, fmt, '\n');
      }
    }
    SplitJoin(all, '\n');
    assert ExportText(rows, headers, fmt)[1..] == Join(all, '\n');
  }

  /** A data line splits back into the quoted code, the quoted name and one
      cell per header, as long as no field holds a `;`; a header the row
      has no value for gives an empty cell. */
  lemma RowLineCells(row: FundRow, headers: seq<string>, fmt: real -> string)
    requires ';' !in row.fund.fundCode && ';' !in row.fund.longName
    requires forall x :: ';' !in fmt(x)
    ensures var cells := Split(RowLine(row, headers, fmt), ';');
      && |cells| == 2 + |headers|
      && cells[0] == Quoted(row.fund.fundCode)
      && cells[1] == Quoted(row.fund.longName)
      && (forall i | 0 <= i < |headers| :: cells[i + 2] == Cell(DataField(row, headers[i]), fmt))
      && (forall i | 0 <= i < |headers| && headers[i] !in row.returnsData.vals :: cells[i + 2] == "")
  {
    var cells := RowCells(row, headers, fmt);
    forall x <- cells ensures ';' !in x {
      var i :| 0 <= i < |cells| && cells[i] == x;
      if i >= 2 {
        var v := DataField(row, headers[i - 2]);
        if v.Num? {
          ReplaceFirstWithout(fmt(v.n), ';');
        }
      }
    }
    SplitJoin(cells, ';');
  }

  /** `handleExport`: the export of the table as it is shown, the rows
      sorted by the current sort state and the headers derived from the
      first row. */
  method HandleExport(funds: seq<FundRow>, config: SortConfig, collate: Collator, fmt: real -> string)
    returns (csvData: string)
    ensures |csvData| > 0 && csvData[0] == BOM
    ensures (forall r <- funds :: '\n' !in r.fund.fundCode && '\n' !in r.fund.longName) &&
            (|funds| > 0 ==> forall k <- funds[0].returnsData.keys :: '\n' !in k) &&
            (forall x :: '\n' !in fmt(x)) ==>
      |Split(csvData[1..], '\n')| == |funds| + 1
    ensures exists rows: seq<FundRow>, headers: seq<string> ::
      && multiset(rows) == multiset(funds)
      && (!Truthy(config.key) ==> rows == funds)
      && (Truthy(config.key) ==> AdjacentOrdered(rows, config.key.value, IsAscending(config), collate))
      && multiset(headers) == multiset(FirstRowKeys(funds))
      && (DailyReturn in FirstRowKeys(funds) ==> headers[0] == DailyReturn)
      && csvData == ExportText(rows, headers, fmt)
  {
    var sortedFunds := SortedFunds(funds, config, collate);
    var returnHeaders := ReturnHeaders(funds);
    csvData := ExportText(sortedFunds, returnHeaders, fmt);
    if (forall r <- funds :: '\n' !in r.fund.fundCode && '\n' !in r.fund.longName) &&
       (|funds| > 0 ==> forall k <- funds[0].returnsData.keys :: '\n' !in k) &&
       (forall x :: '\n' !in fmt(x)) {
      assert forall r <- sortedFunds :: r in multiset(funds);
      forall h <- returnHeaders ensures '\n' !in h {
        assert h in multiset(FirstRowKeys(funds));
      }
      assert |sortedFunds| == |multiset(sortedFunds)| == |funds| by {
        assert |multiset(funds)| == |funds|;
      }
      ExportLines(sortedFunds, returnHeaders, fmt);
    }
  }
}
