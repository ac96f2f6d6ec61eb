/**
 The audit export as comma-separated values, and a reader written from section 2 of RFC 4180
 that knows nothing of how the text was produced.
 */
module AuditCsv {
  import opened Prelude

  // ---------------------------------------------------------------------
  // The export
  // ---------------------------------------------------------------------

  /** Timestamps and metadata are the texts that the platform's own formatters give. */
  datatype AuditRecord = AuditRecord(
    occurredAt: string, actorId: Option<string>, actorType: string, action: string, resourceType: string,
    resourceId: Option<string>, ipAddress: Option<string>, userAgent: Option<string>, metadata: Option<string>)

  function OrElse(o: Option<string>, default: string): string { if o.Some? then o.value else default }

  const HEADER: seq<string> :=
    ["occurredAt", "actorId", "actorType", "action", "resourceType", "resourceId", "ipAddress", "userAgent", "metadata"]

  function RowOf(r: AuditRecord): seq<string> {
    [ r.occurredAt, OrElse(r.actorId, ""), r.actorType, r.action, r.resourceType,
      OrElse(r.resourceId, ""), OrElse(r.ipAddress, ""), OrElse(r.userAgent, ""), OrElse(r.metadata, "{}") ]
  }

  /** The field of a record that a column is named after. */
  function Field(r: AuditRecord, name: string): Option<string> {
    if name == "occurredAt" then Some(r.occurredAt)
    else if name == "actorId" then Some(OrElse(r.actorId, ""))
    else if name == "actorType" then Some(r.actorType)
    else if name == "action" then Some(r.action)
    else if name == "resourceType" then Some(r.resourceType)
    else if name == "resourceId" then Some(OrElse(r.resourceId, ""))
    else if name == "ipAddress" then Some(OrElse(r.ipAddress, ""))
    else if name == "userAgent" then Some(OrElse(r.userAgent, ""))
    else if name == "metadata" then Some(OrElse(r.metadata, "{}"))
    else None
  }

  lemma FieldsByName(r: AuditRecord)
    ensures Field(r, "occurredAt") == Some(r.occurredAt) && Field(r, "actorId") == Some(OrElse(r.actorId, ""))
    ensures Field(r, "actorType") == Some(r.actorType) && Field(r, "action") == Some(r.action)
    ensures Field(r, "resourceType") == Some(r.resourceType) && Field(r, "resourceId") == Some(OrElse(r.resourceId, ""))
    ensures Field(r, "ipAddress") == Some(OrElse(r.ipAddress, ""))
            && Field(r, "userAgent") == Some(OrElse(r.userAgent, ""))
    ensures Field(r, "metadata") == Some(OrElse(r.metadata, "{}"))
  {
    assert |"occurredAt"| == 10 && |"actorId"| == 7 && |"actorType"| == 9 && |"action"| == 6 && |"resourceType"| == 12;
    assert |"resourceId"| == 10 && |"ipAddress"| == 9 && |"userAgent"| == 9 && |"metadata"| == 8;
    assert "occurredAt"[0] == 'o' && "actorType"[0] == 'a' && "resourceId"[0] == 'r' && "ipAddress"[0] == 'i'
           && "userAgent"[0] == 'u';
  }

  /** Every column holds the field that the header names. */
  lemma ColumnsMatchHeader(r: AuditRecord, j: nat)
    requires j < 9
    ensures |HEADER| == |RowOf(r)| == 9 && Field(r, HEADER[j]) == Some(RowOf(r)[j])
  {
    FieldsByName(r);
  }

  /** The characters that the pattern class for white space matches. */
  predicate IsSpace(c: char) {
    || c == ' ' || '\t' <= c <= '\r' || c == '\U{00a0}' || c == '\U{1680}' || '\U{2000}' <= c <= '\U{200a}'
    || c == '\U{2028}' || c == '\U{2029}' || c == '\U{202f}' || c == '\U{205f}' || c == '\U{3000}' || c == '\U{feff}'
  }

  /** A spreadsheet would take the cell for a formula: white space, then one of = + - @. */
  predicate LooksLikeFormula(s: string) {
    s != "" && (s[0] == '=' || s[0] == '+' || s[0] == '-' || s[0] == '@' || (IsSpace(s[0]) && LooksLikeFormula(s[1..])))
  }

  /** White space, by code point. */
  const SPACES: seq<int> :=
    [9, 10, 11, 12, 13, 32, 160, 5760, 8192, 8193, 8194, 8195, 8196, 8197, 8198, 8199, 8200, 8201,
                             8202, 8232, 8233, 8239, 8287, 12288, 65279]

  lemma SpacesAre(c: char)
    ensures IsSpace(c) <==> c as int in SPACES
  {
  }

  /** A cell is taken for a formula exactly when its first character that is not white space is one of = + - @. */
  lemma {:induction false} FormulasAre(s: string)
    ensures LooksLikeFormula(s) <==>
              exists k :: 0 <= k < |s| && s[k] in "=+-@" && forall i :: 0 <= i < k ==> s[i] as int in SPACES
  {
    if s != "" {
      FormulasAre(s[1..]);
      SpacesAre(s[0]);
      if LooksLikeFormula(s) {
        if s[0] !in "=+-@" {
          var k :| 0 <= k < |s[1..]| && s[1..][k] in "=+-@" && forall i :: 0 <= i < k ==> s[1..][i] as int in SPACES;
          assert s[k + 1] == s[1..][k];
          forall i | 0 <= i < k + 1 ensures s[i] as int in SPACES { assert i > 0 ==> s[i] == s[1..][i - 1]; }
        }
      }
      if k :| 0 <= k < |s| && s[k] in "=+-@" && forall i :: 0 <= i < k ==> s[i] as int in SPACES {
        if k > 0 {
          assert s[1..][k - 1] == s[k];
          assert forall i :: 0 <= i < k - 1 ==> s[1..][i] == s[i + 1];
        }
      }
    }
  }

  function Neutralized(s: string): string { if LooksLikeFormula(s) then "'" + s else s }

  function Escaped(s: string): string {
    if s == "" then "" else (if s[0] == '"' then "\"\"" else [s[0]]) + Escaped(s[1..])
  }

  function CsvCell(value: string): string { "\"" + Escaped(Neutralized(value)) + "\"" }

  function Map<A, B>(f: A -> B, s: seq<A>): (r: seq<B>)
    ensures |r| == |s| && forall i :: 0 <= i < |s| ==> r[i] == f(s[i])
  {
    if s == [] then [] else [f(s[0])] + Map(f, s[1..])
  }

  function Join(parts: seq<string>, separator: string): string {
    if parts == [] then "" else if |parts| == 1 then parts[0] else parts[0] + separator + Join(parts[1..], separator)
  }

  function CsvRow(row: seq<string>): string { Join(Map(CsvCell, row), ",") }

  function BuildAuditCsv(records: seq<AuditRecord>): string {
    Join(Map(CsvRow, [HEADER] + Map(RowOf, records)), "\r\n")
  }

  // ---------------------------------------------------------------------
  // RFC 4180, section 2
  // ---------------------------------------------------------------------

  /** The inside of a quoted field up to its closing quote (rules 6 and 7), and what follows it. */
  function ReadQuoted(s: string): (r: Option<(string, string)>)
    ensures r.Some? ==> |r.value.1| < |s|
  {
    if s == "" then None
    else if s[0] != '"' then
      var rest := ReadQuoted(s[1..]);
      if rest.None? then None else Some(([s[0]] + rest.value.0, rest.value.1))
    else if |s| > 1 && s[1] == '"' then
      var rest := ReadQuoted(s[2..]);
      if rest.None? then None else Some(("\"" + rest.value.0, rest.value.1))
    else Some(("", s[1..]))
  }

  /** An unquoted field: no quote, comma or line break (rules 5 and 6). */
  function ReadPlain(s: string): (r: (string, string))
    ensures |r.1| <= |s|
  {
    if s == "" || s[0] == '"' || s[0] == ',' || s[0] == '\r' || s[0] == '\n' then ("", s)
    else ([s[0]] + ReadPlain(s[1..]).0, ReadPlain(s[1..]).1)
  }

  function ReadField(s: string): (r: Option<(string, string)>)
    ensures r.Some? ==> |r.value.1| <= |s|
  {
    if s != "" && s[0] == '"' then ReadQuoted(s[1..]) else Some(ReadPlain(s))
  }

  /** Fields separated by commas (rule 4). */
  function ReadRecord(s: string): (r: Option<(seq<string>, string)>)
    ensures r.Some? ==> |r.value.1| <= |s|
    decreases |s|
  {
    var field := ReadField(s);
    if field.None? then None
    else
      var (text, rest) := field.value;
      if rest != "" && rest[0] == ',' then
        var more := ReadRecord(rest[1..]);
        if more.None? then None else Some(([text] + more.value.0, more.value.1))
      else Some(([text], rest))
  }

  /** Records on lines of their own, the last with or without a line break (rules 1 and 2). */
  function ReadFile(s: string): Option<seq<seq<string>>>
    decreases |s|
  {
    var record := ReadRecord(s);
    if record.None? then None
    else
      var (fields, rest) := record.value;
      if rest == "" || rest == "\r\n" then Some([fields])
      else if |rest| >= 2 && rest[..2] == "\r\n" then
        var more := ReadFile(rest[2..]);
        if more.None? then None else Some([fields] + more.value)
      else None
  }

  // ---------------------------------------------------------------------
  // The round trip
  // ---------------------------------------------------------------------

  predicate StartsWith(s: string, c: char) { s != "" && s[0] == c }

  lemma {:induction false} QuotedRoundTrip(value: string, rest: string)
    requires !StartsWith(rest, '"')
    ensures ReadQuoted(Escaped(value) + "\"" + rest) == Some((value, rest))
  {
    if value == "" {
      assert Escaped(value) + "\"" + rest == "\"" + rest;
    } else {
      QuotedRoundTrip(value[1..], rest);
      var tail := Escaped(value[1..]) + "\"" + rest;
      assert value == [value[0]] + value[1..];
      if value[0] == '"' {
        assert Escaped(value) + "\"" + rest == "\"\"" + tail;
        assert ("\"\"" + tail)[2..] == tail;
      } else {
        assert Escaped(value) + "\"" + rest == [value[0]] + tail;
      }
    }
  }

  lemma CellRoundTrip(value: string, rest: string)
    requires !StartsWith(rest, '"')
    ensures ReadField(CsvCell(value) + rest) == Some((Neutralized(value), rest))
  {
    QuotedRoundTrip(Neutralized(value), rest);
    assert (CsvCell(value) + rest)[1..] == Escaped(Neutralized(value)) + "\"" + rest;
  }

  lemma {:induction false} RowRoundTrip(row: seq<string>, rest: string)
    requires row != [] && !StartsWith(rest, '"') && !StartsWith(rest, ',')
    ensures ReadRecord(CsvRow(row) + rest) == Some((Map(Neutralized, row), rest))
  {
    if |row| == 1 {
      assert CsvRow(row) == CsvCell(row[0]);
      CellRoundTrip(row[0], rest);
      assert Map(Neutralized, row) == [Neutralized(row[0])];
    } else {
      var tail := "," + CsvRow(row[1..]) + rest;
      assert Map(CsvCell, row)[1..] == Map(CsvCell, row[1..]);
      assert CsvRow(row) + rest == CsvCell(row[0]) + tail;
      CellRoundTrip(row[0], tail);
      assert tail[1..] == CsvRow(row[1..]) + rest;
      RowRoundTrip(row[1..], rest);
      assert Map(Neutralized, row) == [Neutralized(row[0])] + Map(Neutralized, row[1..]);
    }
  }

  lemma {:induction false} FileRoundTrip(rows: seq<seq<string>>)
    requires rows != [] && forall i :: 0 <= i < |rows| ==> rows[i] != []
    ensures ReadFile(Join(Map(CsvRow, rows), "\r\n")) == Some(Map(row => Map(Neutralized, row), rows))
  {
    var text := Join(Map(CsvRow, rows), "\r\n");
    var all := Map(row => Map(Neutralized, row), rows);
    if |rows| == 1 {
      assert text == CsvRow(rows[0]) + "";
      RowRoundTrip(rows[0], "");
      assert all == [Map(Neutralized, rows[0])];
    } else {
      var more := Join(Map(CsvRow, rows[1..]), "\r\n");
      var rest := "\r\n" + more;
      assert Map(CsvRow, rows)[1..] == Map(CsvRow, rows[1..]);
      assert text == CsvRow(rows[0]) + rest;
      RowRoundTrip(rows[0], rest);
      assert rest[2..] == more;
      FileRoundTrip(rows[1..]);
      RowsAreNotEmpty(rows[1..]);
      assert all == [Map(Neutralized, rows[0])] + Map(row => Map(Neutralized, row), rows[1..]);
    }
  }

  lemma {:induction false} RowsAreNotEmpty(rows: seq<seq<string>>)
    requires rows != [] && rows[0] != []
    ensures Join(Map(CsvRow, rows), "\r\n") != ""
  {
    assert Map(CsvCell, rows[0])[0] == CsvCell(rows[0][0]);
    assert |CsvRow(rows[0])| >= 2;
    assert Map(CsvRow, rows)[0] == CsvRow(rows[0]);
  }

  /** Neutralizing leaves nothing that a spreadsheet would evaluate. */
  lemma NeutralizedIsInert(s: string)
    ensures !LooksLikeFormula(Neutralized(s))
  {
    if LooksLikeFormula(s) { assert Neutralized(s)[0] == '\''; }
  }

  lemma LetterIsInert(s: string)
    requires s != "" && 'a' <= s[0] <= 'z'
    ensures Neutralized(s) == s
  {
  }

  lemma HeaderIsInert()
    ensures |HEADER| == 9 && Map(Neutralized, HEADER) == HEADER
  {
    forall i | 0 <= i < |HEADER| ensures Map(Neutralized, HEADER)[i] == HEADER[i] {
      HeaderLetters(i);
      LetterIsInert(HEADER[i]);
    }
  }

  lemma HeaderLetters(i: nat)
    requires i < |HEADER|
    ensures |HEADER| == 9 && HEADER[i] != "" && 'a' <= HEADER[i][0] <= 'z'
  {
    assert |HEADER[i]| > 0;
    assert HEADER[i][0] == ['o', 'a', 'a', 'a', 'r', 'r', 'i', 'u', 'm'][i];
  }

  function ExportedRow(r: AuditRecord): (row: seq<string>)
    ensures |row| == 9
  {
    Map(Neutralized, RowOf(r))
  }

  /** Reading the rows one by one is reading the header and then the records' rows. */
  lemma {:induction false} LinesNeutralized(head: seq<string>, records: seq<AuditRecord>)
    requires Map(Neutralized, head) == head
    ensures Map(row => Map(Neutralized, row), [head] + Map(RowOf, records)) == [head] + Map(ExportedRow, records)
  {
    var lines := [head] + Map(RowOf, records);
    var all := Map(row => Map(Neutralized, row), lines);
    forall i | 0 <= i < |all| ensures all[i] == ([head] + Map(ExportedRow, records))[i] {
      assert all[i] == Map(Neutralized, lines[i]);
      assert i > 0 ==> lines[i] == RowOf(records[i - 1]);
    }
  }

  /** The whole export reads back as the header and one row per record, in order. */
  lemma {:induction false} ExportRoundTrip(records: seq<AuditRecord>)
    ensures ReadFile(BuildAuditCsv(records)) == Some([HEADER] + Map(ExportedRow, records))
  {
    HeaderIsInert();
    FileRoundTrip([HEADER] + Map(RowOf, records));
    LinesNeutralized(HEADER, records);
  }

  predicate Inert(row: seq<string>) { |row| == 9 && forall j :: 0 <= j < |row| ==> !LooksLikeFormula(row[j]) }

  lemma {:induction false} NeutralizedRowIsInert(row: seq<string>)
    requires |row| == 9
    ensures Inert(Map(Neutralized, row))
  {
    var cells := Map(Neutralized, row);
    forall j | 0 <= j < |cells| ensures !LooksLikeFormula(cells[j]) { NeutralizedIsInert(row[j]); }
  }

  /** Whoever reads the export finds nine cells in every row, none of them a formula. */
  lemma {:induction false} ExportIsInert(records: seq<AuditRecord>, i: nat)
    requires i <= |records|
    ensures var rows := ReadFile(BuildAuditCsv(records));
            rows.Some? && |rows.value| == |records| + 1 && Inert(rows.value[i])
  {
    ExportRoundTrip(records);
    HeaderIsInert();
    NeutralizedRowIsInert(if i == 0 then HEADER else RowOf(records[i - 1]));
  }

  /** Exactly one thing is lost: a formula and the same formula already written behind an apostrophe look alike. */
  lemma {:induction false} NeutralizedCollides(a: string, b: string)
    requires a != b
    ensures Neutralized(a) == Neutralized(b)
            <==> (LooksLikeFormula(a) && b == "'" + a) || (LooksLikeFormula(b) && a == "'" + b)
  {
    assert ("'" + a)[1..] == a && ("'" + b)[1..] == b;
    assert !LooksLikeFormula("'" + a) && !LooksLikeFormula("'" + b);
  }
}
