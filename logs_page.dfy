/** The activity-log page: CSV export of the logs on screen and the colour of a category
    badge. The export is read back by a reader for section 2 of RFC 4180, which gives back
    the header and every log's cells. */
module LogsPage {
  import opened Common
  import ActivityLogs

  const NO_LOGS := "No logs to export"
  const HEADER: seq<string> := ["Timestamp", "Category", "Action", "User", "Lead", "Details"]
  const QUOTE := "\""
  const QUOTE_QUOTE := "\"\""

  const AUTH_COLOR := "bg-blue-100 text-blue-800"
  const LEADS_COLOR := "bg-green-100 text-green-800"
  const WHATSAPP_COLOR := "bg-purple-100 text-purple-800"
  const EMAIL_COLOR := "bg-orange-100 text-orange-800"
  const DEFAULT_COLOR := "bg-gray-100 text-gray-800"

  /** `"${cell.replace(/"/g, '""')}"`. */
  function QuoteCell(cell: string): string {
    QUOTE + ReplaceAll(cell, QUOTE, QUOTE_QUOTE) + QUOTE
  }

  function QuoteAll(cells: seq<string>): (r: seq<string>)
    ensures |r| == |cells| && forall k :: 0 <= k < |cells| ==> r[k] == QuoteCell(cells[k])
  {
    if cells == [] then [] else [QuoteCell(cells[0])] + QuoteAll(cells[1..])
  }

  /** The six cells of one log; `formatTime` is `new Date(t).toLocaleString()`. */
  function LogCells(log: ActivityLogs.LogView, formatTime: int -> string): (cells: seq<string>)
    ensures |cells| == |HEADER|
    ensures cells[3] == (if log.userName != "" then log.userName else "System")
    ensures cells[4] == (if log.leadName.Some? then log.leadName.value else "")
    ensures cells[5] == (if log.row.details.Some? then log.row.details.value else "")
  {
    [formatTime(log.row.timestamp), log.row.category, log.row.action,
     if log.userName != "" then log.userName else "System",
     if log.leadName.Some? then log.leadName.value else "",
     if log.row.details.Some? then log.row.details.value else ""]
  }

  function LogLines(logs: seq<ActivityLogs.LogView>, formatTime: int -> string): (lines: seq<string>)
    ensures |lines| == |logs|
    ensures forall k :: 0 <= k < |logs| ==> lines[k] == Join(",", QuoteAll(LogCells(logs[k], formatTime)))
  {
    if logs == [] then [] else [Join(",", QuoteAll(LogCells(logs[0], formatTime)))] + LogLines(logs[1..], formatTime)
  }

  /** `handleExportLogs`: refused without logs; otherwise the header line and one line per log. */
  function ExportLogs(logs: seq<ActivityLogs.LogView>, formatTime: int -> string): (r: Result<string>)
    ensures r.Err? <==> logs == []
    ensures r.Err? ==> r.msg == NO_LOGS
  {
    if logs == [] then Err(NO_LOGS)
    else Ok(Join("\n", [Join(",", HEADER)] + LogLines(logs, formatTime)))
  }

  // A reader for section 2 of RFC 4180.

  /** The rest of a quoted field after its opening quote: the cell, with each `""` read as one
      quote, up to the lone closing quote, and what follows it. */
  function ReadQuoted(s: string): (r: Option<(string, string)>)
    ensures r.Some? ==> |r.value.1| < |s|
    decreases |s|
  {
    if s == [] then None
    else if s[0] == '"' then
      if |s| >= 2 && s[1] == '"' then
        match ReadQuoted(s[2..])
        case None => None
        case Some(p) => Some((QUOTE + p.0, p.1))
      else Some(("", s[1..]))
    else
      match ReadQuoted(s[1..])
      case None => None
      case Some(p) => Some(([s[0]] + p.0, p.1))
  }

  /** The text up to the next ',' or line break. */
  function UpToDelimiter(s: string): (r: string)
    ensures |r| <= |s| && r == s[..|r|]
    ensures |r| < |s| ==> s[|r|] == ',' || s[|r|] == '\n'
  {
    if s == [] || s[0] == ',' || s[0] == '\n' then [] else [s[0]] + UpToDelimiter(s[1..])
  }

  /** One field, quoted or not, and what follows it. */
  function ReadField(s: string): (r: Option<(string, string)>)
    ensures r.Some? ==> |r.value.1| <= |s|
  {
    if s != [] && s[0] == '"' then ReadQuoted(s[1..])
    else
      var f := UpToDelimiter(s);
      Some((f, s[|f|..]))
  }

  /** One record: its fields, and the text after its line break (empty at the end). */
  function ReadRecord(s: string): (r: Option<(seq<string>, string)>)
    ensures r.Some? && s != [] ==> |r.value.1| < |s|
    decreases |s|
  {
    match ReadField(s)
    case None => None
    case Some(p) =>
      var rest := p.1;
      if rest == [] then Some(([p.0], []))
      else if rest[0] == '\n' then Some(([p.0], rest[1..]))
      else if rest[0] == ',' then
        match ReadRecord(rest[1..])
        case None => None
        case Some(q) => Some(([p.0] + q.0, q.1))
      else None
  }

  /** All the records of a file. */
  function ReadRecords(s: string): Option<seq<seq<string>>>
    decreases |s|
  {
    if s == [] then Some([])
    else
      match ReadRecord(s)
      case None => None
      case Some(p) =>
        match ReadRecords(p.1)
        case None => None
        case Some(rows) => Some([p.0] + rows)
  }

  /** What may follow a field: nothing, a comma or a line break. */
  predicate FieldEnd(t: string) {
    t == [] || t[0] == ',' || t[0] == '\n'
  }

  /** What may follow a record: nothing or a line break. */
  predicate RecordEnd(t: string) {
    t == [] || t[0] == '\n'
  }

  function AfterRecord(t: string): string
    requires RecordEnd(t)
  {
    if t == [] then [] else t[1..]
  }

  /** A quoted cell reads back as the cell. */
  lemma {:induction false} QuotedRoundTrip(c: string, rest: string)
    requires rest == [] || rest[0] != '"'
    ensures ReadQuoted(ReplaceAll(c, QUOTE, QUOTE_QUOTE) + QUOTE + rest) == Some((c, rest))
    decreases |c|
  {
    var s := ReplaceAll(c, QUOTE, QUOTE_QUOTE) + QUOTE + rest;
    if c == [] {
      assert s == QUOTE + rest;
      assert s[1..] == rest;
    } else if c[0] == '"' {
      assert QUOTE <= c;
      var tail := ReplaceAll(c[1..], QUOTE, QUOTE_QUOTE) + QUOTE + rest;
      assert s == QUOTE_QUOTE + tail;
      assert s[2..] == tail;
      QuotedRoundTrip(c[1..], rest);
      assert QUOTE + c[1..] == c;
    } else {
      assert !(QUOTE <= c);
      var tail := ReplaceAll(c[1..], QUOTE, QUOTE_QUOTE) + QUOTE + rest;
      assert s == [c[0]] + tail;
      assert s[1..] == tail;
      QuotedRoundTrip(c[1..], rest);
      assert [c[0]] + c[1..] == c;
    }
  }

  /** The field text `field` reads back as `cell`, whatever delimiter follows it. */
  ghost predicate FieldReads(field: string, cell: string) {
    forall t :: FieldEnd(t) ==> ReadField(field + t) == Some((cell, t))
  }

  lemma QuotedFieldReads(c: string)
    ensures FieldReads(QuoteCell(c), c)
  {
    forall t | FieldEnd(t)
      ensures ReadField(QuoteCell(c) + t) == Some((c, t))
    {
      var body := ReplaceAll(c, QUOTE, QUOTE_QUOTE) + QUOTE + t;
      assert QuoteCell(c) + t == QUOTE + body;
      assert (QUOTE + body)[1..] == body;
      QuotedRoundTrip(c, t);
    }
  }

  /** A cell that does not start with a quote and holds no delimiter is written as it is. */
  predicate Plain(c: string) {
    (c == [] || c[0] != '"') && ',' !in c && '\n' !in c
  }

  lemma {:induction false} UpToDelimiterOfPlain(c: string, t: string)
    requires ',' !in c && '\n' !in c && FieldEnd(t)
    ensures UpToDelimiter(c + t) == c
    decreases |c|
  {
    if c == [] {
      assert c + t == t;
    } else {
      assert (c + t)[0] == c[0] && c[0] in c;
      assert (c + t)[1..] == c[1..] + t;
      assert forall x :: x in c[1..] ==> x in c;
      UpToDelimiterOfPlain(c[1..], t);
      assert [c[0]] + c[1..] == c;
    }
  }

  lemma PlainFieldReads(c: string)
    requires Plain(c)
    ensures FieldReads(c, c)
  {
    forall t | FieldEnd(t)
      ensures ReadField(c + t) == Some((c, t))
    {
      UpToDelimiterOfPlain(c, t);
      if c == [] {
        assert c + t == t;
      } else {
        assert (c + t)[0] == c[0];
      }
      assert (c + t)[|c|..] == t;
    }
  }

  /** Fields that each read back as their cell, joined by commas, read back as one record. */
  lemma {:induction false} RecordRoundTrip(fields: seq<string>, cells: seq<string>, t: string)
    requires |fields| == |cells| > 0 && RecordEnd(t)
    requires forall k :: 0 <= k < |fields| ==> FieldReads(fields[k], cells[k])
    ensures ReadRecord(Join(",", fields) + t) == Some((cells, AfterRecord(t)))
    decreases |fields|
  {
    assert FieldReads(fields[0], cells[0]);
    if |fields| == 1 {
      assert Join(",", fields) == fields[0];
      LastFieldReads(fields[0], cells[0], t);
      assert cells == [cells[0]];
    } else {
      var rest := Join(",", fields[1..]) + t;
      JoinThen(fields, t);
      FieldThenCommaReads(fields[0], cells[0], rest);
      forall k | 0 <= k < |fields| - 1
        ensures FieldReads(fields[1..][k], cells[1..][k])
      {
        assert fields[1..][k] == fields[k + 1] && cells[1..][k] == cells[k + 1];
      }
      RecordRoundTrip(fields[1..], cells[1..], t);
      assert [cells[0]] + cells[1..] == cells;
    }
  }

  lemma JoinThen(fields: seq<string>, t: string)
    requires |fields| > 1
    ensures Join(",", fields) + t == fields[0] + ("," + (Join(",", fields[1..]) + t))
  {
  }

  lemma LastFieldReads(field: string, cell: string, t: string)
    requires FieldReads(field, cell) && RecordEnd(t)
    ensures ReadRecord(field + t) == Some(([cell], AfterRecord(t)))
  {
    assert FieldEnd(t);
    assert ReadField(field + t) == Some((cell, t));
  }

  lemma FieldThenCommaReads(field: string, cell: string, rest: string)
    requires FieldReads(field, cell)
    ensures ReadRecord(field + ("," + rest)) ==
      match ReadRecord(rest)
      case None => None
      case Some(q) => Some(([cell] + q.0, q.1))
  {
    assert FieldEnd("," + rest);
    assert ReadField(field + ("," + rest)) == Some((cell, "," + rest));
    assert ("," + rest)[1..] == rest;
  }

  /** Records joined by line breaks read back as the records. */
  lemma {:induction false} RecordsRoundTrip(lines: seq<string>, rows: seq<seq<string>>)
    requires |lines| == |rows|
    requires forall k :: 0 <= k < |lines| ==> lines[k] != []
    requires forall k :: 0 <= k < |lines| ==> forall t :: RecordEnd(t) ==> ReadRecord(lines[k] + t) == Some((rows[k], AfterRecord(t)))
    ensures ReadRecords(Join("\n", lines)) == Some(rows)
    decreases |lines|
  {
    if |lines| == 1 {
      assert RecordEnd([]) && AfterRecord([]) == [];
      assert ReadRecord(lines[0] + []) == Some((rows[0], []));
      assert lines[0] + [] == lines[0] == Join("\n", lines);
      assert ReadRecord(lines[0]) == Some((rows[0], []));
      assert ReadRecords([]) == Some([]);
      assert lines[0] != [] && rows == [rows[0]] + [];
      assert ReadRecords(lines[0]) == Some([rows[0]] + []);
    } else if |lines| > 1 {
      var rest := Join("\n", lines[1..]);
      assert Join("\n", lines) == lines[0] + ("\n" + rest);
      assert RecordEnd("\n" + rest);
      assert ReadRecord(lines[0] + ("\n" + rest)) == Some((rows[0], rest));
      RecordsRoundTrip(lines[1..], rows[1..]);
      assert [rows[0]] + rows[1..] == rows;
    }
  }

  /** The export reads back, under section 2 of RFC 4180, as the header followed by the six
      cells of every log, in order. */
  lemma ExportRoundTrip(logs: seq<ActivityLogs.LogView>, formatTime: int -> string)
    requires logs != []
    ensures ReadRecords(ExportLogs(logs, formatTime).value) ==
      Some([HEADER] + seq(|logs|, k requires 0 <= k < |logs| => LogCells(logs[k], formatTime)))
  {
    var rows := [HEADER] + seq(|logs|, k requires 0 <= k < |logs| => LogCells(logs[k], formatTime));
    var lines := [Join(",", HEADER)] + LogLines(logs, formatTime);
    forall k | 0 <= k < |lines|
      ensures lines[k] != []
      ensures forall t :: RecordEnd(t) ==> ReadRecord(lines[k] + t) == Some((rows[k], AfterRecord(t)))
    {
      if k == 0 {
        HeaderLineReads();
      } else {
        LogLineReads(logs[k - 1], formatTime);
      }
    }
    RecordsRoundTrip(lines, rows);
  }

  /** A line, followed by the end of a record, reads back as `cells`. */
  ghost predicate LineReads(line: string, cells: seq<string>) {
    line != [] && forall t :: RecordEnd(t) ==> ReadRecord(line + t) == Some((cells, AfterRecord(t)))
  }

  /** Non-empty fields that read back as their cells make a line that reads back as the
      cells. */
  lemma FieldsLineReads(fields: seq<string>, cells: seq<string>)
    requires |fields| == |cells| > 0 && fields[0] != []
    requires forall k :: 0 <= k < |fields| ==> FieldReads(fields[k], cells[k])
    ensures LineReads(Join(",", fields), cells)
  {
    forall t | RecordEnd(t)
      ensures ReadRecord(Join(",", fields) + t) == Some((cells, AfterRecord(t)))
    {
      RecordRoundTrip(fields, cells, t);
    }
    JoinLength(",", fields);
  }

  lemma HeaderLineReads()
    ensures LineReads(Join(",", HEADER), HEADER)
  {
    forall i | 0 <= i < |HEADER|
      ensures FieldReads(HEADER[i], HEADER[i])
    {
      HeaderIsPlain(i);
      PlainFieldReads(HEADER[i]);
    }
    FieldsLineReads(HEADER, HEADER);
  }

  lemma LogLineReads(log: ActivityLogs.LogView, formatTime: int -> string)
    ensures LineReads(Join(",", QuoteAll(LogCells(log, formatTime))), LogCells(log, formatTime))
  {
    var cells := LogCells(log, formatTime);
    var fields := QuoteAll(cells);
    forall i | 0 <= i < |fields|
      ensures FieldReads(fields[i], cells[i])
    {
      QuotedFieldReads(cells[i]);
    }
    assert |fields[0]| > 0;
    FieldsLineReads(fields, cells);
  }

  lemma HeaderIsPlain(i: nat)
    requires i < |HEADER|
    ensures Plain(HEADER[i])
  {
  }

  /** `getCategoryColor`: the first of Login/Logout, Leads, WhatsApp, Email that the category
      mentions decides the colour. */
  function CategoryColor(category: string): (color: string)
    ensures color == AUTH_COLOR <==> Contains(category, "Login") || Contains(category, "Logout")
    ensures color == DEFAULT_COLOR <==>
      !Contains(category, "Login") && !Contains(category, "Logout") && !Contains(category, "Leads")
      && !Contains(category, "WhatsApp") && !Contains(category, "Email")
  {
    if Contains(category, "Login") || Contains(category, "Logout") then AUTH_COLOR
    else if Contains(category, "Leads") then LEADS_COLOR
    else if Contains(category, "WhatsApp") then WHATSAPP_COLOR
    else if Contains(category, "Email") then EMAIL_COLOR
    else DEFAULT_COLOR
  }
}
