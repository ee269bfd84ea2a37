/** The export endpoint of server/routes/admin.js and its `convertToCSV` helper.  A row is
    a record of named values in key order; how mongoose documents become such records is
    not part of this model. */
module Export {
  import opened Wrappers
  import opened Text
  import opened Models
  import Access

  /** The values a cell can hold.  `Obj` is a nested object or array, carried with the
      text `JSON.stringify` produces for it. */
  datatype Value = Str(s: string) | Num(n: int) | Bool(b: bool) | Null | Undefined | Obj(json: string)

  type Row = seq<(string, Value)>

  /** `String(value)` for an integer. */
  function IntToString(n: int): string {
    if n < 0 then "-" + NatToString(-n) else NatToString(n)
  }

  /** The text a cell is built from: `JSON.stringify` for objects, `String(value)` otherwise
      (`null` is not treated as an object). */
  function CellText(v: Value): string {
    match v
    case Str(s) => s
    case Num(n) => IntToString(n)
    case Bool(b) => if b then "true" else "false"
    case Null => "null"
    case Undefined => "undefined"
    case Obj(json) => json
  }

  /** `Object.keys(row)`. */
  function Keys(row: Row): (ks: seq<string>)
    ensures |ks| == |row|
    ensures forall i :: 0 <= i < |row| ==> ks[i] == row[i].0
  {
    seq(|row|, i requires 0 <= i < |row| => row[i].0)
  }

  /** `row[key]`: the value under the key, `undefined` when the row lacks it. */
  function Lookup(row: Row, key: string): (v: Value)
    ensures (forall i :: 0 <= i < |row| ==> row[i].0 != key) ==> v == Undefined
    decreases |row|
  {
    if |row| == 0 then Undefined
    else if row[0].0 == key then row[0].1
    else Lookup(row[1..], key)
  }

  /** `.replace(/"/g, '""')`: every double quote doubled. */
  function Escape(s: string): (r: string)
    ensures |r| >= |s|
    decreases |s|
  {
    if |s| == 0 then ""
    else (if s[0] == '"' then "\"\"" else [s[0]]) + Escape(s[1..])
  }

  function Quote(s: string): string {
    "\"" + Escape(s) + "\""
  }

  function QuotedCells(cells: seq<string>): (q: seq<string>)
    ensures |q| == |cells|
  {
    seq(|cells|, i requires 0 <= i < |cells| => Quote(cells[i]))
  }

  /** One record line: every cell quoted, separated by commas. */
  function RecordLine(cells: seq<string>): string {
    Join(QuotedCells(cells), ",")
  }

  /** The cell texts of a row under the header keys. */
  function RowCells(headers: seq<string>, row: Row): (cells: seq<string>)
    ensures |cells| == |headers|
  {
    seq(|headers|, j requires 0 <= j < |headers| => CellText(Lookup(row, headers[j])))
  }

  function DataLines(headers: seq<string>, rows: seq<Row>): (lines: seq<string>)
    ensures |lines| == |rows|
  {
    seq(|rows|, i requires 0 <= i < |rows| => RecordLine(RowCells(headers, rows[i])))
  }

  /** convertToCSV: nothing for no rows; otherwise the first row's keys, unquoted and
      comma-separated, then one quoted line per row, all joined with line feeds. */
  function ConvertToCsv(rows: seq<Row>): string {
    if |rows| == 0 then ""
    else
      var headers := Keys(rows[0]);
      Join([Join(headers, ",")] + DataLines(headers, rows), "\n")
  }

  // ---------------------------------------------------------------- reading it back

  /** Reads the rest of a quoted cell after its opening quote: a doubled quote stands for
      one quote, a single quote closes the cell. */
  function ParseQuoted(s: string, acc: string): (r: Option<(string, string)>)
    ensures r.Some? ==> |r.value.1| < |s|
    decreases |s|
  {
    if |s| == 0 then None
    else if s[0] == '"' then
      if |s| >= 2 && s[1] == '"' then ParseQuoted(s[2..], acc + ['"'])
      else Some((acc, s[1..]))
    else ParseQuoted(s[1..], acc + [s[0]])
  }

  /** Reads one record of quoted cells, up to the end of the text or a line feed, which is
      left for the caller. */
  function ParseRecord(s: string): (r: Option<(seq<string>, string)>)
    ensures r.Some? ==> |r.value.1| < |s| && (r.value.1 == "" || r.value.1[0] == '\n')
    decreases |s|
  {
    if |s| == 0 || s[0] != '"' then None
    else match ParseQuoted(s[1..], "")
      case None => None
      case Some((cell, rest)) =>
        if |rest| == 0 then Some(([cell], ""))
        else if rest[0] == '\n' then Some(([cell], rest))
        else if rest[0] == ',' then
          match ParseRecord(rest[1..])
          case None => None
          case Some((cells, tail)) => Some(([cell] + cells, tail))
        else None
  }

  /** Reads line-feed separated records to the end of the text. */
  function ParseRecords(s: string): Option<seq<seq<string>>>
    decreases |s|
  {
    match ParseRecord(s)
    case None => None
    case Some((cells, rest)) =>
      if rest == "" then Some([cells])
      else
        match ParseRecords(rest[1..])
        case None => None
        case Some(more) => Some([cells] + more)
  }

  /** Splits off the first line. */
  function BreakLine(s: string): (r: Option<(string, string)>)
    decreases |s|
  {
    if |s| == 0 then None
    else if s[0] == '\n' then Some(("", s[1..]))
    else
      match BreakLine(s[1..])
      case None => None
      case Some((line, rest)) => Some(([s[0]] + line, rest))
  }

  /** A reader for the export format: the header names, then the records. */
  function ParseCsv(s: string): Option<(seq<string>, seq<seq<string>>)> {
    if s == "" then Some(([], []))
    else
      match BreakLine(s)
      case None => None
      case Some((header, body)) =>
        match ParseRecords(body)
        case None => None
        case Some(records) => Some((Split(header, ','), records))
  }

  lemma {:induction false} UnescapeEscape(x: string, acc: string, rest: string)
    requires rest == "" || rest[0] != '"'
    ensures ParseQuoted(Escape(x) + "\"" + rest, acc) == Some((acc + x, rest))
    decreases |x|
  {
    var s := Escape(x) + "\"" + rest;
    if |x| == 0 {
      assert acc + x == acc;
      assert s == "\"" + rest;
      assert s[1..] == rest;
    } else {
      UnescapeEscape(x[1..], acc + [x[0]], rest);
      assert acc + [x[0]] + x[1..] == acc + x;
      var t := Escape(x[1..]) + "\"" + rest;
      if x[0] == '"' {
        assert s == "\"\"" + t;
        assert s[2..] == t;
      } else {
        assert s == [x[0]] + t;
        assert s[1..] == t;
      }
    }
  }

  /** A quoted cell reads back as the text it was built from, whatever quotes it contains. */
  lemma QuoteRoundTrip(x: string, rest: string)
    requires rest == "" || rest[0] != '"'
    ensures (Quote(x) + rest)[0] == '"'
    ensures ParseQuoted((Quote(x) + rest)[1..], "") == Some((x, rest))
  {
    assert (Quote(x) + rest)[1..] == Escape(x) + "\"" + rest;
    UnescapeEscape(x, "", rest);
    assert "" + x == x;
  }

  /** A record line of several cells is the first quoted cell, a comma and the line of
      the others. */
  lemma RecordLineCons(cells: seq<string>)
    requires |cells| >= 2
    ensures RecordLine(cells) == Quote(cells[0]) + "," + RecordLine(cells[1..])
  {
    assert QuotedCells(cells)[1..] == QuotedCells(cells[1..]);
  }

  /** A record whose first cell is followed by a comma reads that cell and then the
      record after the comma. */
  lemma ParseRecordComma(s: string, cell: string, rest: string)
    requires |s| > 0 && s[0] == '"' && ParseQuoted(s[1..], "") == Some((cell, rest))
    requires |rest| > 0 && rest[0] == ',' && ParseRecord(rest[1..]).Some?
    ensures ParseRecord(s) == Some(([cell] + ParseRecord(rest[1..]).value.0, ParseRecord(rest[1..]).value.1))
  {
  }

  lemma ConcatAssoc(a: string, b: string, c: string, d: string)
    ensures a + b + c + d == a + (b + c + d)
  {
  }

  /** A quoted cell, a comma and a readable record read as that cell and the record. */
  lemma ParseQuotedThenRecord(x: string, r: string, tail: string, more: seq<string>)
    requires ParseRecord(r + tail) == Some((more, tail))
    ensures ParseRecord(Quote(x) + "," + r + tail) == Some(([x] + more, tail))
  {
    var rest := "," + r + tail;
    ConcatAssoc(Quote(x), ",", r, tail);
    QuoteRoundTrip(x, rest);
    assert rest[1..] == r + tail;
    ParseRecordComma(Quote(x) + rest, x, rest);
  }

  /** The step of the record round trip: the first cell, then the comma and the rest. */
  lemma RecordRoundTripStep(cells: seq<string>, tail: string)
    requires |cells| >= 2
    requires ParseRecord(RecordLine(cells[1..]) + tail) == Some((cells[1..], tail))
    ensures ParseRecord(RecordLine(cells) + tail) == Some((cells, tail))
  {
    RecordLineCons(cells);
    ParseQuotedThenRecord(cells[0], RecordLine(cells[1..]), tail, cells[1..]);
    assert [cells[0]] + cells[1..] == cells;
  }

  lemma {:induction false} RecordRoundTrip(cells: seq<string>, tail: string)
    requires |cells| >= 1
    requires tail == "" || tail[0] == '\n'
    ensures ParseRecord(RecordLine(cells) + tail) == Some((cells, tail))
    decreases |cells|
  {
    if |cells| == 1 {
      assert RecordLine(cells) == Quote(cells[0]);
      QuoteRoundTrip(cells[0], tail);
      assert [cells[0]] == cells;
    } else {
      RecordRoundTrip(cells[1..], tail);
      RecordRoundTripStep(cells, tail);
    }
  }

  function RecordLines(records: seq<seq<string>>): (lines: seq<string>)
    ensures |lines| == |records|
  {
    seq(|records|, i requires 0 <= i < |records| => RecordLine(records[i]))
  }

  lemma {:induction false} RecordsRoundTrip(records: seq<seq<string>>)
    requires |records| >= 1
    requires forall i :: 0 <= i < |records| ==> |records[i]| >= 1
    ensures ParseRecords(Join(RecordLines(records), "\n")) == Some(records)
    decreases |records|
  {
    if |records| == 1 {
      assert Join(RecordLines(records), "\n") == RecordLine(records[0]) + "";
      RecordRoundTrip(records[0], "");
      assert RecordLine(records[0]) + "" == RecordLine(records[0]);
      assert [records[0]] == records;
    } else {
      assert RecordLines(records)[1..] == RecordLines(records[1..]);
      var tail := "\n" + Join(RecordLines(records[1..]), "\n");
      assert Join(RecordLines(records), "\n") == RecordLine(records[0]) + tail;
      RecordRoundTrip(records[0], tail);
      assert tail[1..] == Join(RecordLines(records[1..]), "\n");
      RecordsRoundTrip(records[1..]);
      assert [records[0]] + records[1..] == records;
    }
  }

  lemma {:induction false} BreakLineAt(a: string, b: string)
    requires '\n' !in a
    ensures BreakLine(a + "\n" + b) == Some((a, b))
    decreases |a|
  {
    var s := a + "\n" + b;
    if |a| == 0 {
      assert s == "\n" + b;
      assert s[1..] == b;
    } else {
      assert s[1..] == a[1..] + "\n" + b;
      BreakLineAt(a[1..], b);
      assert [a[0]] + a[1..] == a;
    }
  }

  lemma {:induction false} JoinFree(parts: seq<string>, sep: string, c: char)
    requires c !in sep
    requires forall i :: 0 <= i < |parts| ==> c !in parts[i]
    ensures c !in Join(parts, sep)
    decreases |parts|
  {
    if |parts| > 1 {
      JoinFree(parts[1..], sep, c);
    }
  }

  /** The cells of every row: the text of each header key's value, "undefined" where the
      row lacks the key. */
  function Table(rows: seq<Row>): (t: seq<seq<string>>)
    requires |rows| >= 1
    ensures |t| == |rows|
  {
    seq(|rows|, i requires 0 <= i < |rows| => RowCells(Keys(rows[0]), rows[i]))
  }

  /** Reading an export back gives the first row's keys and every row's cells under those
      keys, provided the keys (which are written unquoted) contain no comma or line feed.
      Quotes, commas and line feeds inside cell values survive the round trip. */
  lemma CsvRoundTrip(rows: seq<Row>)
    requires |rows| >= 1 && |rows[0]| >= 1
    requires forall k :: 0 <= k < |rows[0]| ==> ',' !in rows[0][k].0 && '\n' !in rows[0][k].0
    ensures ParseCsv(ConvertToCsv(rows)) == Some((Keys(rows[0]), Table(rows)))
  {
    var headers := Keys(rows[0]);
    var table := Table(rows);
    assert DataLines(headers, rows) == RecordLines(table);
    RecordsRoundTrip(table);
    var body := Join(RecordLines(table), "\n");
    var head := Join(headers, ",");
    assert ConvertToCsv(rows) == head + "\n" + body by {
      assert ([head] + DataLines(headers, rows))[1..] == DataLines(headers, rows);
    }
    JoinFree(headers, ",", '\n');
    BreakLineAt(head, body);
    SplitJoin(headers, ',');
  }

  /** No rows give an empty export. */
  lemma EmptyExport()
    ensures ConvertToCsv([]) == ""
    ensures ParseCsv("") == Some(([], []))
  {
  }

  /** A key the first row has and a later row lacks gives that row the cell "undefined". */
  lemma MissingKeyReadsUndefined(rows: seq<Row>, i: nat, j: nat)
    requires |rows| >= 1 && i < |rows| && j < |rows[0]|
    requires forall k :: 0 <= k < |rows[i]| ==> rows[i][k].0 != rows[0][j].0
    ensures Table(rows)[i][j] == "undefined"
  {
  }

  // ---------------------------------------------------------------- the endpoint

  datatype ExportKind = UsersExport | ChannelsExport | TasksExport

  function ExportKindName(k: ExportKind): string {
    match k
    case UsersExport => "users"
    case ChannelsExport => "channels"
    case TasksExport => "tasks"
  }

  function ParseExportKind(s: string): (k: Option<ExportKind>)
    ensures k.Some? ==> ExportKindName(k.value) == s
  {
    if s == "users" then Some(UsersExport)
    else if s == "channels" then Some(ChannelsExport)
    else if s == "tasks" then Some(TasksExport)
    else None
  }

  /** The response of an export: its content type, the attachment's file name, and for a
      CSV export the body (the JSON body is not modelled). */
  datatype ExportFile = ExportFile(contentType: string, filename: string, csv: Option<string>)

  /** GET /export/:type behind the export permission.  The type selects the collection
      (400 otherwise); the format defaults to json and only the exact value "csv" gives CSV.
      `rows` are the selected documents as records and `now` the clock in milliseconds. */
  function ExportData(st: Store, caller: UserId, kind: string, format: Option<string>, rows: seq<Row>, now: nat): (r: Result<ExportFile>)
    ensures Access.RequirePermission(st.users, caller, "canExportData").Err? ==>
      r == Err(Access.RequirePermission(st.users, caller, "canExportData").error)
    ensures Access.RequirePermission(st.users, caller, "canExportData").Ok? ==>
      (r.Ok? <==> ParseExportKind(kind).Some?)
    ensures r.Ok? ==> (r.value.csv.Some? <==> format == Some("csv"))
    ensures r.Ok? && r.value.csv.Some? ==> r.value.csv.value == ConvertToCsv(rows)
  {
    var _ :- Access.RequirePermission(st.users, caller, "canExportData");
    if ParseExportKind(kind).None? then Err(BadRequest)
    else
      var base := kind + "_export_" + NatToString(now);
      if format.GetOr("json") == "csv" then Ok(ExportFile("text/csv", base + ".csv", Some(ConvertToCsv(rows))))
      else Ok(ExportFile("application/json", base + ".json", None))
  }

  /** The attachment is named after the collection and the clock, with the format's extension. */
  lemma ExportFileName(st: Store, caller: UserId, kind: string, format: Option<string>, rows: seq<Row>, now: nat)
    requires ExportData(st, caller, kind, format, rows, now).Ok?
    ensures var f := ExportData(st, caller, kind, format, rows, now).value;
      && |f.filename| > |kind| && f.filename[..|kind|] == kind
      && (format == Some("csv") ==> f.contentType == "text/csv" && f.filename[|f.filename| - 4..] == ".csv")
      && (format != Some("csv") ==> f.contentType == "application/json" && f.filename[|f.filename| - 5..] == ".json")
  {
    var base := kind + "_export_" + NatToString(now);
    assert (base + ".csv")[..|kind|] == kind;
    assert (base + ".json")[..|kind|] == kind;
  }
}
