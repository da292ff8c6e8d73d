/**
 The CSV export of the salary reports.

 Every field is wrapped in double quotes with each embedded quote doubled
 (rules 5 to 7 of section 2 of RFC 4180), fields are separated by commas,
 and records are joined with a line feed (not the CRLF of RFC 4180), with
 no line break after the last record.

 The parser here reads exactly this all-quoted form back; it exists to
 state and prove that the export loses nothing.
 */
module Csv {
  import opened Optional

  const Quote: char := '"'
  const Comma: char := ','
  const LineFeed: char := '\n'

  /** Doubles every double quote of `s`. */
  function DoubleQuotes(s: string): (r: string)
    ensures |r| >= |s|
    ensures (forall i :: 0 <= i < |s| ==> s[i] != Quote) ==> r == s
  {
    if |s| == 0 then []
    else if s[0] == Quote then [Quote, Quote] + DoubleQuotes(s[1..])
    else [s[0]] + DoubleQuotes(s[1..])
  }

  /** One field as exported: quoted, with embedded quotes doubled. */
  function Escape(s: string): (r: string)
    ensures |r| >= 2 && r[0] == Quote && r[|r| - 1] == Quote
    ensures (forall i :: 0 <= i < |s| ==> s[i] != Quote) ==> r == [Quote] + s + [Quote]
  {
    [Quote] + DoubleQuotes(s) + [Quote]
  }

  /** The parts, with `sep` between neighbours. */
  function Join(parts: seq<string>, sep: char): string
  {
    if |parts| == 0 then []
    else if |parts| == 1 then parts[0]
    else parts[0] + [sep] + Join(parts[1..], sep)
  }

  /** Joining non-empty parts starts with the first part's first
      character and ends with the last part's last character. */
  lemma {:induction false} JoinEnds(parts: seq<string>, sep: char)
    ensures (|parts| > 0 && forall i :: 0 <= i < |parts| ==> |parts[i]| > 0) ==>
      var j := Join(parts, sep);
      |j| > 0 && j[0] == parts[0][0] && j[|j| - 1] == parts[|parts| - 1][|parts[|parts| - 1]| - 1]
    decreases |parts|
  {
    if |parts| > 1 {
      JoinEnds(parts[1..], sep);
    }
  }

  /** One record: its escaped fields joined by commas. A record with
      fields starts and ends with a quote; one without is the empty line. */
  function EncodeRecord(fields: seq<string>): (r: string)
    ensures |fields| == 0 ==> r == []
    ensures |fields| > 0 ==> |r| >= 2 && r[0] == Quote && r[|r| - 1] == Quote
  {
    var escaped := seq(|fields|, i requires 0 <= i < |fields| => Escape(fields[i]));
    JoinEnds(escaped, Comma);
    Join(escaped, Comma)
  }

  /** The document: the header record, then one record per row, joined
      by line feeds. It reads back as the header record followed by the
      rows, one line per row plus the header line, whatever quotes, commas
      or line feeds the fields hold, as long as no record is empty. */
  function ExportCsv(headers: seq<string>, rows: seq<seq<string>>): (r: string)
    ensures |headers| > 0 && (forall i :: 0 <= i < |rows| ==> |rows[i]| > 0) ==>
      ParseCsv(r) == Some([headers] + rows)
  {
    LinesReadBack(headers, rows);
    Join([EncodeRecord(headers)] + seq(|rows|, i requires 0 <= i < |rows| => EncodeRecord(rows[i])), LineFeed)
  }

  /** Reads the inside of a quoted field, after its opening quote, up to
      and including its closing quote: the field's text and what follows. */
  function ParseQuotedBody(s: string): (r: Option<(string, string)>)
    ensures r.Some? ==> |r.value.1| < |s|
    decreases |s|
  {
    if |s| == 0 then None
    else if s[0] == Quote then
      if |s| > 1 && s[1] == Quote then
        match ParseQuotedBody(s[2..])
        case None => None
        case Some(p) => Some(([Quote] + p.0, p.1))
      else Some(([], s[1..]))
    else
      match ParseQuotedBody(s[1..])
      case None => None
      case Some(p) => Some(([s[0]] + p.0, p.1))
  }

  /** Reads one quoted field: its text and what follows it. */
  function ParseField(s: string): (r: Option<(string, string)>)
    ensures r.Some? ==> |r.value.1| < |s|
  {
    if |s| > 0 && s[0] == Quote then ParseQuotedBody(s[1..]) else None
  }

  /** Reads one record: its fields, and what follows, which is empty or
      starts with a line feed. */
  function ParseRecord(s: string): (r: Option<(seq<string>, string)>)
    ensures r.Some? ==> |r.value.0| > 0 && |r.value.1| < |s|
    ensures r.Some? ==> r.value.1 == [] || r.value.1[0] == LineFeed
    decreases |s|
  {
    match ParseField(s)
    case None => None
    case Some(p) =>
      var (field, rest) := p;
      if |rest| > 0 && rest[0] == Comma then
        match ParseRecord(rest[1..])
        case None => None
        case Some(q) => Some(([field] + q.0, q.1))
      else if |rest| == 0 || rest[0] == LineFeed then Some(([field], rest))
      else None
  }

  /** Reads a whole document: its records, in order. */
  function ParseCsv(s: string): (r: Option<seq<seq<string>>>)
    ensures r.Some? ==> |r.value| > 0
    decreases |s|
  {
    match ParseRecord(s)
    case None => None
    case Some(p) =>
      var (record, rest) := p;
      if rest == [] then Some([record])
      else
        match ParseCsv(rest[1..])
        case None => None
        case Some(records) => Some([record] + records)
  }

  /** The body of an escaped field reads back as the field, stopping at
      the closing quote. */
  lemma {:induction false} ParseQuotedBodyOfEscaped(s: string, rest: string)
    requires rest == [] || rest[0] != Quote
    ensures ParseQuotedBody(DoubleQuotes(s) + [Quote] + rest) == Some((s, rest))
    decreases |s|
  {
    var t := DoubleQuotes(s) + [Quote] + rest;
    if |s| == 0 {
      assert t == [Quote] + rest;
    } else if s[0] == Quote {
      ParseQuotedBodyOfEscaped(s[1..], rest);
      assert t == [Quote, Quote] + (DoubleQuotes(s[1..]) + [Quote] + rest);
      assert t[2..] == DoubleQuotes(s[1..]) + [Quote] + rest;
      assert [Quote] + s[1..] == s;
    } else {
      ParseQuotedBodyOfEscaped(s[1..], rest);
      assert t == [s[0]] + (DoubleQuotes(s[1..]) + [Quote] + rest);
      assert t[1..] == DoubleQuotes(s[1..]) + [Quote] + rest;
      assert [s[0]] + s[1..] == s;
    }
  }

  /** Unescaping an escaped field gives the field back, whatever follows
      it, as long as that is not a quote. */
  lemma EscapeRoundTrip(s: string, rest: string)
    requires rest == [] || rest[0] != Quote
    ensures ParseField(Escape(s) + rest) == Some((s, rest))
  {
    var t := Escape(s) + rest;
    assert t[1..] == DoubleQuotes(s) + [Quote] + rest;
    ParseQuotedBodyOfEscaped(s, rest);
  }

  /** A record is its first escaped field, then, if there are more, a
      comma and the record of the others. */
  lemma EncodeRecordCons(fields: seq<string>)
    requires |fields| > 0
    ensures |fields| == 1 ==> EncodeRecord(fields) == Escape(fields[0])
    ensures |fields| > 1 ==> EncodeRecord(fields) == Escape(fields[0]) + [Comma] + EncodeRecord(fields[1..])
  {
    var escaped := seq(|fields|, i requires 0 <= i < |fields| => Escape(fields[i]));
    var tail := fields[1..];
    assert escaped[1..] == seq(|tail|, i requires 0 <= i < |tail| => Escape(tail[i]));
  }

  /** An encoded record reads back as its fields, as long as it has at
      least one field and is followed by nothing or by a line feed. */
  lemma {:induction false} RecordRoundTrip(fields: seq<string>, rest: string)
    requires |fields| > 0
    requires rest == [] || rest[0] == LineFeed
    ensures ParseRecord(EncodeRecord(fields) + rest) == Some((fields, rest))
    decreases |fields|
  {
    var t := EncodeRecord(fields) + rest;
    if |fields| == 1 {
      EncodeRecordCons(fields);
      EscapeRoundTrip(fields[0], rest);
      assert fields == [fields[0]];
    } else {
      var tail := fields[1..];
      var more := EncodeRecord(tail) + rest;
      var after := [Comma] + more;
      EncodeRecordCons(fields);
      assert t == Escape(fields[0]) + after;
      EscapeRoundTrip(fields[0], after);
      RecordRoundTrip(tail, rest);
      assert after[1..] == more;
      assert [fields[0]] + tail == fields;
    }
  }

  /** Records joined by line feeds read back as the same records, as long
      as there is at least one and none is empty. */
  lemma {:induction false} RecordsRoundTrip(records: seq<seq<string>>)
    requires |records| > 0
    requires forall i :: 0 <= i < |records| ==> |records[i]| > 0
    ensures ParseCsv(Join(seq(|records|, i requires 0 <= i < |records| => EncodeRecord(records[i])), LineFeed)) == Some(records)
    decreases |records|
  {
    var lines := seq(|records|, i requires 0 <= i < |records| => EncodeRecord(records[i]));
    if |records| == 1 {
      assert Join(lines, LineFeed) == EncodeRecord(records[0]) + [];
      RecordRoundTrip(records[0], []);
      assert records == [records[0]];
    } else {
      var tail := records[1..];
      var tailLines := seq(|tail|, i requires 0 <= i < |tail| => EncodeRecord(tail[i]));
      assert lines[1..] == tailLines;
      var rest := [LineFeed] + Join(tailLines, LineFeed);
      assert Join(lines, LineFeed) == EncodeRecord(records[0]) + rest;
      RecordRoundTrip(records[0], rest);
      RecordsRoundTrip(tail);
      assert rest[1..] == Join(tailLines, LineFeed);
      assert [records[0]] + tail == records;
    }
  }

  /** The header record and the rows, joined by line feeds, read back as
      the header followed by the rows when no record is empty. */
  lemma LinesReadBack(headers: seq<string>, rows: seq<seq<string>>)
    ensures |headers| > 0 && (forall i :: 0 <= i < |rows| ==> |rows[i]| > 0) ==>
      ParseCsv(Join([EncodeRecord(headers)] + seq(|rows|, i requires 0 <= i < |rows| => EncodeRecord(rows[i])), LineFeed))
        == Some([headers] + rows)
  {
    if |headers| > 0 && (forall i :: 0 <= i < |rows| ==> |rows[i]| > 0) {
      var records := [headers] + rows;
      var lines := seq(|records|, i requires 0 <= i < |records| => EncodeRecord(records[i]));
      assert lines == [EncodeRecord(headers)] + seq(|rows|, i requires 0 <= i < |rows| => EncodeRecord(rows[i]));
      RecordsRoundTrip(records);
    }
  }

}
