/**
 * The CSV text of the export helpers (frontend/src/utils/exportData.js): a header line,
 * then one line per transaction or wallet whose cells are each wrapped in double quotes
 * and joined by commas, the lines joined by "\n". The date formatter is a parameter (an
 * `Intl` call), and the download of the text is not modelled.
 *
 * A field is read back as section 2 of RFC 4180 describes: inside a quoted field a
 * double quote is written twice. The export as written does not double it:
 * `ExportToCsv` and `ExportWalletSummaryToCsv` write the text as the program does, and
 * read back only when no cell holds a quote; the `Corrected` exports double the quotes
 * and read back whatever the cells hold.
 */
module ExportData {
  import opened Wrappers
  import opened Text
  import opened FrontModel
  import Folds

  /** A string with every double quote written twice. */
  function Doubled(s: string): (r: string)
    ensures |r| >= |s|
    ensures forall c :: c != '"' ==> (c in r <==> c in s)
  {
    if s == [] then []
    else (if s[0] == '"' then "\"\"" else [s[0]]) + Doubled(s[1..])
  }

  /** One cell as the export should write it: quoted, with embedded quotes doubled. */
  function Quote(cell: string): string {
    "\"" + Doubled(cell) + "\""
  }

  /** One cell as written: `"${cell}"`, with embedded quotes left as they are. */
  function QuoteAsWritten(cell: string): string {
    "\"" + cell + "\""
  }

  /** A text without double quotes is quoted the same either way. */
  lemma {:induction false} DoubledNoQuote(s: string)
    requires '"' !in s
    ensures Doubled(s) == s
    ensures Quote(s) == QuoteAsWritten(s)
  {
    if s != [] {
      DoubledNoQuote(s[1..]);
      assert s == [s[0]] + s[1..];
    }
  }

  /** `row.map(cell => quote(cell)).join(",")` for a quoting `quote`. */
  function Row(cells: seq<string>, quote: string -> string): string {
    Join(Folds.MapSeq(cells, quote), ",")
  }

  /** A line with its quotes doubled. */
  function QuotedRow(cells: seq<string>): string {
    Row(cells, Quote)
  }

  /** The line as written. */
  function QuotedRowAsWritten(cells: seq<string>): string {
    Row(cells, QuoteAsWritten)
  }

  /** A line of one cell is that cell quoted; a longer line is its first cell quoted, a comma, and the rest. */
  lemma QuotedRowStep(cells: seq<string>, quote: string -> string)
    requires |cells| >= 1
    ensures |cells| == 1 ==> Row(cells, quote) == quote(cells[0])
    ensures |cells| > 1 ==> Row(cells, quote) == quote(cells[0]) + "," + Row(cells[1..], quote)
  {
    assert Folds.MapSeq(cells, quote)[1..] == Folds.MapSeq(cells[1..], quote);
  }

  /** On cells without quotes the line as written is the line with doubled quotes. */
  lemma RowAsWrittenAgrees(cells: seq<string>)
    requires forall i :: 0 <= i < |cells| ==> '"' !in cells[i]
    ensures QuotedRowAsWritten(cells) == QuotedRow(cells)
  {
    forall i | 0 <= i < |cells| ensures QuoteAsWritten(cells[i]) == Quote(cells[i]) {
      DoubledNoQuote(cells[i]);
    }
    assert Folds.MapSeq(cells, QuoteAsWritten) == Folds.MapSeq(cells, Quote);
  }

  /**
   * Reads the rest of a quoted field, after its opening quote: a doubled quote stands
   * for one quote, and a single quote closes the field. The result is the field's text
   * and what follows the closing quote; None when the field is never closed.
   */
  function ReadQuoted(s: string): (r: Option<(string, string)>)
    ensures r.Some? ==> |r.value.1| < |s|
  {
    if s == [] then None
    else if s[0] == '"' then
      if |s| >= 2 && s[1] == '"' then
        match ReadQuoted(s[2..])
        case None => None
        case Some(p) => Some(("\"" + p.0, p.1))
      else Some(("", s[1..]))
    else
      match ReadQuoted(s[1..])
      case None => None
      case Some(p) => Some(([s[0]] + p.0, p.1))
  }

  /** Reads a line of quoted fields separated by commas; None when the line is not one. */
  function ReadRow(line: string): Option<seq<string>>
    decreases |line|
  {
    if line == [] || line[0] != '"' then None
    else
      match ReadQuoted(line[1..])
      case None => None
      case Some(p) =>
        if p.1 == [] then Some([p.0])
        else if p.1[0] == ',' then
          match ReadRow(p.1[1..])
          case None => None
          case Some(rest) => Some([p.0] + rest)
        else None
  }

  /** A single quote followed by anything but a quote closes the field. */
  lemma ReadClose(rest: string)
    requires rest == [] || rest[0] != '"'
    ensures ReadQuoted(['"'] + rest) == Some(("", rest))
  {
    assert (['"'] + rest)[1..] == rest;
  }

  /** A doubled quote reads as one quote in front of what the rest reads as. */
  lemma ReadPair(tail: string)
    ensures ReadQuoted("\"\"" + tail) ==
              if ReadQuoted(tail).None? then None
              else Some(("\"" + ReadQuoted(tail).value.0, ReadQuoted(tail).value.1))
  {
    assert ("\"\"" + tail)[2..] == tail;
  }

  /** Any other character is read as itself. */
  lemma ReadPlain(c: char, tail: string)
    requires c != '"'
    ensures ReadQuoted([c] + tail) ==
              if ReadQuoted(tail).None? then None
              else Some(([c] + ReadQuoted(tail).value.0, ReadQuoted(tail).value.1))
  {
    assert ([c] + tail)[1..] == tail;
  }

  /**
   * The doubled text of a cell followed by a closing quote reads back as the cell,
   * when what follows the quote does not start with another quote.
   */
  lemma {:induction false} ReadDoubled(cell: string, rest: string)
    requires rest == [] || rest[0] != '"'
    ensures ReadQuoted(Doubled(cell) + "\"" + rest) == Some((cell, rest))
  {
    if cell == [] {
      assert Doubled(cell) + "\"" + rest == ['"'] + rest;
      ReadClose(rest);
    } else {
      ReadDoubled(cell[1..], rest);
      ReadDoubledStep(cell, rest);
    }
  }

  /** The inductive step of `ReadDoubled`: the first character of the cell is read back in front of the rest. */
  lemma ReadDoubledStep(cell: string, rest: string)
    requires cell != []
    requires ReadQuoted(Doubled(cell[1..]) + "\"" + rest) == Some((cell[1..], rest))
    ensures ReadQuoted(Doubled(cell) + "\"" + rest) == Some((cell, rest))
  {
    var tail := Doubled(cell[1..]) + "\"" + rest;
    var head := if cell[0] == '"' then "\"\"" else [cell[0]];
    assert Doubled(cell) + "\"" + rest == head + tail by {
      assert Doubled(cell) == head + Doubled(cell[1..]);
    }
    assert [cell[0]] + cell[1..] == cell;
    if cell[0] == '"' {
      ReadPair(tail);
    } else {
      ReadPlain(cell[0], tail);
    }
  }

  /** A last quoted cell reads back as itself. */
  lemma ReadLastCell(cell: string)
    ensures ReadRow(Quote(cell)) == Some([cell])
  {
    ReadDoubled(cell, "");
    assert Quote(cell)[1..] == Doubled(cell) + "\"" + "";
  }

  /** A quoted cell and a comma before a readable rest read back as the cell in front of the rest's cells. */
  lemma ReadCellThen(cell: string, rest: string)
    requires ReadRow(rest).Some?
    ensures ReadRow(Quote(cell) + "," + rest) == Some([cell] + ReadRow(rest).value)
  {
    ReadDoubled(cell, "," + rest);
    var line := Quote(cell) + "," + rest;
    assert line[1..] == Doubled(cell) + "\"" + ("," + rest);
    assert ("," + rest)[1..] == rest;
  }

  /** A line written with the doubling reads back as its cells, whatever they hold. */
  lemma {:induction false} ReadQuotedRow(cells: seq<string>)
    requires |cells| >= 1
    ensures ReadRow(QuotedRow(cells)) == Some(cells)
  {
    QuotedRowStep(cells, Quote);
    if |cells| == 1 {
      ReadLastCell(cells[0]);
      assert [cells[0]] == cells;
    } else {
      ReadQuotedRow(cells[1..]);
      ReadCellThen(cells[0], QuotedRow(cells[1..]));
      assert [cells[0]] + cells[1..] == cells;
    }
  }

  /** As written, a quote in a cell makes the line unreadable. */
  lemma QuoteBreaksLine()
    ensures ReadRow(QuotedRowAsWritten(["a\"b"])) == None
    ensures ReadRow(QuotedRow(["a\"b"])) == Some(["a\"b"])
  {
    QuotedRowStep(["a\"b"], QuoteAsWritten);
    var line := QuotedRowAsWritten(["a\"b"]);
    assert line == "\"a\"b\"";
    assert line[1..] == "a\"b\"";
    assert ReadQuoted("\"b\"") == Some(("", "b\""));
    assert "a\"b\""[1..] == "\"b\"";
    assert ['a'] + "" == "a";
    assert ReadQuoted("a\"b\"") == Some(("a", "b\""));
    ReadQuotedRow(["a\"b"]);
  }

  /** As written, a cell holding `x","y` reads back as two cells. */
  lemma QuoteSplitsCell()
    ensures ReadRow(QuotedRowAsWritten(["x\",\"y"])) == Some(["x", "y"])
  {
    QuotedRowStep(["x\",\"y"], QuoteAsWritten);
    var line := QuotedRowAsWritten(["x\",\"y"]);
    assert line == "\"x\",\"y\"";
    assert line[1..] == "x\",\"y\"";
    assert ReadQuoted("\",\"y\"") == Some(("", ",\"y\""));
    assert "x\",\"y\""[1..] == "\",\"y\"";
    assert ['x'] + "" == "x";
    assert ReadQuoted("x\",\"y\"") == Some(("x", ",\"y\""));
    assert ",\"y\""[1..] == "\"y\"";
    assert "\"y\""[1..] == "y\"";
    assert ReadQuoted("\"") == Some(("", ""));
    assert "y\""[1..] == "\"";
    assert ['y'] + "" == "y";
    assert ReadQuoted("y\"") == Some(("y", ""));
    assert ReadRow("\"y\"") == Some(["y"]);
    assert ["x"] + ["y"] == ["x", "y"];
    assert ReadRow(line) == Some(["x"] + ["y"]);
  }

  /** Joining pieces without `c` by a separator without `c` gives a text without `c`. */
  lemma {:induction false} JoinFree(parts: seq<string>, sep: string, c: char)
    requires c !in sep
    requires forall i :: 0 <= i < |parts| ==> c !in parts[i]
    ensures c !in Join(parts, sep)
  {
    if |parts| > 1 {
      JoinFree(parts[1..], sep, c);
    }
  }

  /** A quoted line holds no line break when none of its cells does. */
  lemma QuotedRowFree(cells: seq<string>)
    requires forall i :: 0 <= i < |cells| ==> '\n' !in cells[i]
    ensures '\n' !in QuotedRow(cells)
  {
    var quoted := Folds.MapSeq(cells, Quote);
    forall i | 0 <= i < |cells| ensures '\n' !in quoted[i] {
      assert '\n' !in Doubled(cells[i]);
    }
    JoinFree(quoted, ",", '\n');
  }

  /** `[header, ...rows.map(line)]`, each row's cells quoted by `quote`. */
  function Lines(header: string, rows: seq<seq<string>>, quote: string -> string): (lines: seq<string>)
    ensures |lines| == |rows| + 1 && lines[0] == header
    ensures forall r :: 0 <= r < |rows| ==> lines[r + 1] == Row(rows[r], quote)
  {
    [header] + seq(|rows|, i requires 0 <= i < |rows| => Row(rows[i], quote))
  }

  /** The lines joined by "\n". */
  function CsvContent(header: string, rows: seq<seq<string>>, quote: string -> string): string {
    Join(Lines(header, rows, quote), "\n")
  }

  /** The first line of the text is the header, whatever the rows hold. */
  lemma FirstLine(header: string, rows: seq<seq<string>>, quote: string -> string)
    requires '\n' !in header
    ensures Split(CsvContent(header, rows, quote), '\n')[0] == header
  {
    var lines := Lines(header, rows, quote);
    if rows == [] {
      SplitNone(header, '\n');
    } else {
      SplitAt(header, '\n', Join(lines[1..], "\n"));
    }
  }

  /**
   * With doubled quotes and no line break in any cell, the text splits into the header
   * and one line per row, in order, and each line reads back as its row's cells.
   */
  lemma CsvLines(header: string, rows: seq<seq<string>>)
    requires '\n' !in header
    requires forall r, i :: 0 <= r < |rows| && 0 <= i < |rows[r]| ==> '\n' !in rows[r][i]
    ensures |Split(CsvContent(header, rows, Quote), '\n')| == |rows| + 1
    ensures Split(CsvContent(header, rows, Quote), '\n')[0] == header
    ensures forall r :: 0 <= r < |rows| && |rows[r]| >= 1 ==>
              ReadRow(Split(CsvContent(header, rows, Quote), '\n')[r + 1]) == Some(rows[r])
  {
    var lines := Lines(header, rows, Quote);
    forall r | 0 <= r < |rows| ensures '\n' !in QuotedRow(rows[r]) {
      QuotedRowFree(rows[r]);
    }
    SplitJoin(lines, '\n');
    forall r | 0 <= r < |rows| && |rows[r]| >= 1 ensures ReadRow(lines[r + 1]) == Some(rows[r]) {
      ReadQuotedRow(rows[r]);
    }
  }

  /** When no cell holds a quote, the text as written is the text with doubled quotes. */
  lemma CsvAsWrittenAgrees(header: string, rows: seq<seq<string>>)
    requires forall r, i :: 0 <= r < |rows| && 0 <= i < |rows[r]| ==> '"' !in rows[r][i]
    ensures CsvContent(header, rows, QuoteAsWritten) == CsvContent(header, rows, Quote)
  {
    forall r | 0 <= r < |rows| ensures Row(rows[r], QuoteAsWritten) == Row(rows[r], Quote) {
      RowAsWrittenAgrees(rows[r]);
    }
    assert Lines(header, rows, QuoteAsWritten) == Lines(header, rows, Quote);
  }

  /**
   * As written, with no quote and no line break in any cell, the text splits into the
   * header and one line per row, in order, and each line reads back as its row's cells.
   */
  lemma CsvLinesAsWritten(header: string, rows: seq<seq<string>>)
    requires '\n' !in header
    requires forall r, i :: 0 <= r < |rows| && 0 <= i < |rows[r]| ==> '\n' !in rows[r][i] && '"' !in rows[r][i]
    ensures |Split(CsvContent(header, rows, QuoteAsWritten), '\n')| == |rows| + 1
    ensures Split(CsvContent(header, rows, QuoteAsWritten), '\n')[0] == header
    ensures forall r :: 0 <= r < |rows| && |rows[r]| >= 1 ==>
              ReadRow(Split(CsvContent(header, rows, QuoteAsWritten), '\n')[r + 1]) == Some(rows[r])
  {
    CsvAsWrittenAgrees(header, rows);
    CsvLines(header, rows);
  }

  const TransactionHeader := "Tanggal,Tipe,Dompet,Jumlah,Catatan"

  /** The type column: the Indonesian label of the three types, empty for any other. */
  function TypeLabel(kind: string): (shown: string)
    ensures shown == "" <==> kind != "income" && kind != "expense" && kind != "transfer"
    ensures shown == "Pemasukan" <==> kind == "income"
    ensures shown == "Pengeluaran" <==> kind == "expense"
    ensures shown == "Transfer" <==> kind == "transfer"
  {
    if kind == "income" then "Pemasukan"
    else if kind == "expense" then "Pengeluaran"
    else if kind == "transfer" then "Transfer"
    else ""
  }

  /** `wallet?.name || "-"`. */
  function WalletCell(w: Option<Wal>): (cell: string)
    ensures cell != ""
    ensures cell == "-" <==> w.None? || w.value.name == "" || w.value.name == "-"
  {
    if w.Some? then OrElse(w.value.name, "-") else "-"
  }

  /**
   * The cells of a transaction: the short date, the type label, the name of its row
   * wallet (or "-"), the amount, and the description (or "-").
   */
  function TransactionCells(t: Tx, ws: seq<Wal>, formatShort: int -> string): (cells: seq<string>)
    ensures |cells| == 5
    ensures cells[0] == formatShort(t.date) && cells[1] == TypeLabel(t.kind)
    ensures cells[2] == WalletCell(RowWallet(ws, t))
    ensures ParseIntJs(cells[3]) == Some(t.amount)
    ensures cells[4] != "" && (t.description != "" ==> cells[4] == t.description)
  {
    ParseIntRoundTrip(t.amount);
    [formatShort(t.date), TypeLabel(t.kind), WalletCell(RowWallet(ws, t)), IntToString(t.amount), OrElse(t.description, "-")]
  }

  /** `transactions.map(...)`: the cells of each transaction, in input order. */
  function TransactionRows(ts: seq<Tx>, ws: seq<Wal>, formatShort: int -> string): (rows: seq<seq<string>>)
    ensures |rows| == |ts|
    ensures forall i :: 0 <= i < |ts| ==> rows[i] == TransactionCells(ts[i], ws, formatShort)
  {
    seq(|ts|, i requires 0 <= i < |ts| => TransactionCells(ts[i], ws, formatShort))
  }

  /** `exportToCSV`'s text as written: the header, then the cells of each transaction in input order. */
  function ExportToCsv(ts: seq<Tx>, ws: seq<Wal>, formatShort: int -> string): (csv: string)
    ensures Split(csv, '\n')[0] == TransactionHeader
  {
    FirstLine(TransactionHeader, TransactionRows(ts, ws, formatShort), QuoteAsWritten);
    CsvContent(TransactionHeader, TransactionRows(ts, ws, formatShort), QuoteAsWritten)
  }

  /** `exportToCSV`'s text with embedded quotes doubled. */
  function ExportToCsvCorrected(ts: seq<Tx>, ws: seq<Wal>, formatShort: int -> string): (csv: string)
    ensures Split(csv, '\n')[0] == TransactionHeader
  {
    FirstLine(TransactionHeader, TransactionRows(ts, ws, formatShort), Quote);
    CsvContent(TransactionHeader, TransactionRows(ts, ws, formatShort), Quote)
  }

  /** A number written in decimal holds no character other than digits and the minus sign. */
  lemma NumberFree(n: int, c: char)
    requires !IsDigit(c) && c != '-'
    ensures c !in IntToString(n)
  {
    var d := NatToString(if n < 0 then -n else n);
    assert forall i :: 0 <= i < |d| ==> IsDigit(d[i]);
  }

  /**
   * The cells of a transaction hold no line break (or no quote) when its date, wallet
   * name and description hold none.
   */
  lemma TransactionCellsFree(t: Tx, ws: seq<Wal>, formatShort: int -> string, c: char)
    requires c == '\n' || c == '"'
    requires c !in formatShort(t.date) && c !in t.description
    requires forall w :: w in ws ==> c !in w.name
    ensures forall i :: 0 <= i < 5 ==> c !in TransactionCells(t, ws, formatShort)[i]
  {
    var cells := TransactionCells(t, ws, formatShort);
    NumberFree(t.amount, c);
    TypeLabelFree(t.kind, c);
    var w := RowWallet(ws, t);
    if w.Some? {
      assert w.value in ws;
    }
    assert c !in cells[2];
    assert c !in cells[4];
  }

  /** The type labels hold no line break and no quote. */
  lemma TypeLabelFree(kind: string, c: char)
    requires c == '\n' || c == '"'
    ensures c !in TypeLabel(kind)
  {
  }

  /** No cell of any transaction row holds `c` when no date, description or wallet name does. */
  lemma TransactionRowsFree(ts: seq<Tx>, ws: seq<Wal>, formatShort: int -> string, c: char)
    requires c == '\n' || c == '"'
    requires forall t :: t in ts ==> c !in formatShort(t.date) && c !in t.description
    requires forall w :: w in ws ==> c !in w.name
    ensures forall r, i :: 0 <= r < |ts| && 0 <= i < |TransactionRows(ts, ws, formatShort)[r]| ==>
              c !in TransactionRows(ts, ws, formatShort)[r][i]
  {
    var rows := TransactionRows(ts, ws, formatShort);
    forall r, i | 0 <= r < |ts| && 0 <= i < |rows[r]| ensures c !in rows[r][i] {
      assert ts[r] in ts;
      TransactionCellsFree(ts[r], ws, formatShort, c);
    }
  }

  /**
   * The export as written, when no date, wallet name or description holds a quote or a
   * line break: it is the corrected text, has one line per transaction after the
   * header, and each line reads back as that transaction's cells.
   */
  lemma ExportRoundTrip(ts: seq<Tx>, ws: seq<Wal>, formatShort: int -> string)
    requires forall t :: t in ts ==> && '\n' !in formatShort(t.date) && '\n' !in t.description
                                     && '"' !in formatShort(t.date) && '"' !in t.description
    requires forall w :: w in ws ==> '\n' !in w.name && '"' !in w.name
    ensures ExportToCsv(ts, ws, formatShort) == ExportToCsvCorrected(ts, ws, formatShort)
    ensures |Split(ExportToCsv(ts, ws, formatShort), '\n')| == |ts| + 1
    ensures forall i :: 0 <= i < |ts| ==>
              ReadRow(Split(ExportToCsv(ts, ws, formatShort), '\n')[i + 1]) == Some(TransactionCells(ts[i], ws, formatShort))
  {
    var rows := TransactionRows(ts, ws, formatShort);
    TransactionRowsFree(ts, ws, formatShort, '\n');
    TransactionRowsFree(ts, ws, formatShort, '"');
    CsvLinesAsWritten(TransactionHeader, rows);
    CsvAsWrittenAgrees(TransactionHeader, rows);
  }

  /**
   * With quotes doubled and no line break in any date, wallet name or description, the
   * export has one line per transaction after the header, and each reads back as that
   * transaction's cells, quotes included.
   */
  lemma ExportRoundTripCorrected(ts: seq<Tx>, ws: seq<Wal>, formatShort: int -> string)
    requires forall t :: t in ts ==> '\n' !in formatShort(t.date) && '\n' !in t.description
    requires forall w :: w in ws ==> '\n' !in w.name
    ensures |Split(ExportToCsvCorrected(ts, ws, formatShort), '\n')| == |ts| + 1
    ensures forall i :: 0 <= i < |ts| ==>
              ReadRow(Split(ExportToCsvCorrected(ts, ws, formatShort), '\n')[i + 1]) == Some(TransactionCells(ts[i], ws, formatShort))
  {
    var rows := TransactionRows(ts, ws, formatShort);
    TransactionRowsFree(ts, ws, formatShort, '\n');
    CsvLines(TransactionHeader, rows);
  }

  const WalletHeader := "Nama Dompet,Tipe,Saldo,Budget"

  /** `${wallet.balance}`: a missing balance is written as the word `undefined`. */
  function BalanceCell(balance: Option<int>): (cell: string)
    ensures balance.Some? ==> ParseIntJs(cell) == balance
    ensures balance.None? ==> cell == "undefined"
  {
    if balance.Some? then
      ParseIntRoundTrip(balance.value);
      IntToString(balance.value)
    else "undefined"
  }

  /** `wallet.budget || "-"`: no budget and a budget of 0 are both written as "-". */
  function BudgetCell(budget: Option<int>): (cell: string)
    ensures cell == "-" <==> !Truthy(budget)
    ensures Truthy(budget) ==> ParseIntJs(cell) == budget
  {
    if Truthy(budget) then
      ParseIntRoundTrip(budget.value);
      IntToString(budget.value)
    else "-"
  }

  /** The four cells of a wallet: name, type, balance and budget. */
  function WalletCells(w: Wal): (cells: seq<string>)
    ensures |cells| == 4 && cells[0] == w.name && cells[1] == w.kind
    ensures cells[2] == BalanceCell(w.balance) && cells[3] == BudgetCell(w.budget)
  {
    [w.name, w.kind, BalanceCell(w.balance), BudgetCell(w.budget)]
  }

  /** `wallets.map(...)`: the cells of each wallet, in input order. */
  function WalletRows(ws: seq<Wal>): (rows: seq<seq<string>>)
    ensures |rows| == |ws|
    ensures forall i :: 0 <= i < |ws| ==> rows[i] == WalletCells(ws[i])
  {
    seq(|ws|, i requires 0 <= i < |ws| => WalletCells(ws[i]))
  }

  /** `exportWalletSummaryToCSV`'s text as written: the header, then the cells of each wallet in input order. */
  function ExportWalletSummaryToCsv(ws: seq<Wal>): (csv: string)
    ensures Split(csv, '\n')[0] == WalletHeader
  {
    FirstLine(WalletHeader, WalletRows(ws), QuoteAsWritten);
    CsvContent(WalletHeader, WalletRows(ws), QuoteAsWritten)
  }

  /** `exportWalletSummaryToCSV`'s text with embedded quotes doubled. */
  function ExportWalletSummaryToCsvCorrected(ws: seq<Wal>): (csv: string)
    ensures Split(csv, '\n')[0] == WalletHeader
  {
    FirstLine(WalletHeader, WalletRows(ws), Quote);
    CsvContent(WalletHeader, WalletRows(ws), Quote)
  }

  /** The cells of a wallet hold no line break (or no quote) when its name and type hold none. */
  lemma WalletCellsFree(w: Wal, c: char)
    requires c == '\n' || c == '"'
    requires c !in w.name && c !in w.kind
    ensures forall i :: 0 <= i < 4 ==> c !in WalletCells(w)[i]
  {
    if w.balance.Some? {
      NumberFree(w.balance.value, c);
    }
    if w.budget.Some? {
      NumberFree(w.budget.value, c);
    }
  }

  /** No cell of any wallet row holds `c` when no name or type does. */
  lemma WalletRowsFree(ws: seq<Wal>, c: char)
    requires c == '\n' || c == '"'
    requires forall w :: w in ws ==> c !in w.name && c !in w.kind
    ensures forall r, i :: 0 <= r < |ws| && 0 <= i < |WalletRows(ws)[r]| ==> c !in WalletRows(ws)[r][i]
  {
    var rows := WalletRows(ws);
    forall r, i | 0 <= r < |ws| && 0 <= i < |rows[r]| ensures c !in rows[r][i] {
      assert ws[r] in ws;
      WalletCellsFree(ws[r], c);
    }
  }

  /**
   * The summary as written, when no wallet name or type holds a quote or a line break:
   * it is the corrected text, has one line per wallet after the header, and each line
   * reads back as that wallet's four cells.
   */
  lemma WalletSummaryRoundTrip(ws: seq<Wal>)
    requires forall w :: w in ws ==> && '\n' !in w.name && '\n' !in w.kind
                                     && '"' !in w.name && '"' !in w.kind
    ensures ExportWalletSummaryToCsv(ws) == ExportWalletSummaryToCsvCorrected(ws)
    ensures |Split(ExportWalletSummaryToCsv(ws), '\n')| == |ws| + 1
    ensures forall i :: 0 <= i < |ws| ==> ReadRow(Split(ExportWalletSummaryToCsv(ws), '\n')[i + 1]) == Some(WalletCells(ws[i]))
  {
    WalletRowsFree(ws, '\n');
    WalletRowsFree(ws, '"');
    CsvLinesAsWritten(WalletHeader, WalletRows(ws));
    CsvAsWrittenAgrees(WalletHeader, WalletRows(ws));
  }

  /**
   * With quotes doubled and no line break in any wallet name or type, the summary has
   * one line per wallet after the header, and each reads back as that wallet's cells.
   */
  lemma WalletSummaryRoundTripCorrected(ws: seq<Wal>)
    requires forall w :: w in ws ==> '\n' !in w.name && '\n' !in w.kind
    ensures |Split(ExportWalletSummaryToCsvCorrected(ws), '\n')| == |ws| + 1
    ensures forall i :: 0 <= i < |ws| ==>
              ReadRow(Split(ExportWalletSummaryToCsvCorrected(ws), '\n')[i + 1]) == Some(WalletCells(ws[i]))
  {
    WalletRowsFree(ws, '\n');
    CsvLines(WalletHeader, WalletRows(ws));
  }
}
