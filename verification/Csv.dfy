/** CSV writing and reading: the always-quoting writer of the audit export
    (evaluations.service.ts), the quote-when-needed writer of the reports page
    and the character loop of the upload page. */
module Csv {
  import opened Wrappers
  import opened Strings

  // ---------------------------------------------------------------------
  // Writers

  /** replace(/"/g, '""') */
  function Doubled(s: string): string {
    if s == "" then ""
    else (if s[0] == '"' then "\"\"" else [s[0]]) + Doubled(s[1..])
  }

  function Quoted(s: string): string {
    "\"" + Doubled(s) + "\""
  }

  /** A null value is written as nothing at all. */
  function EscapeCsv(value: Option<string>): string {
    if value.None? then "" else Quoted(value.value)
  }

  function QuoteIfNeeded(s: string): string {
    if ',' in s || '"' in s then Quoted(s) else s
  }

  function Join(cells: seq<string>): string {
    if cells == [] then ""
    else if |cells| == 1 then cells[0]
    else cells[0] + "," + Join(cells[1..])
  }

  function ExportLine(fields: seq<Option<string>>): string {
    Join(seq(|fields|, i requires 0 <= i < |fields| => EscapeCsv(fields[i])))
  }

  function ReportLine(fields: seq<string>): string {
    Join(seq(|fields|, i requires 0 <= i < |fields| => QuoteIfNeeded(fields[i])))
  }

  // ---------------------------------------------------------------------
  // The reader

  /** The columns from here to the end of the line; current is the column in
      progress. */
  function ParseFrom(raw: string, current: string, inQuote: bool): (cols: seq<string>)
    ensures cols != []
    decreases |raw|
  {
    if raw == "" then [current]
    else if raw[0] == '"' then
      if inQuote && |raw| > 1 && raw[1] == '"' then ParseFrom(raw[2..], current + "\"", inQuote)
      else ParseFrom(raw[1..], current, !inQuote)
    else if raw[0] == ',' && !inQuote then [current] + ParseFrom(raw[1..], "", inQuote)
    else ParseFrom(raw[1..], current + [raw[0]], inQuote)
  }

  function ParseLine(raw: string): seq<string> {
    ParseFrom(raw, "", false)
  }

  /** The character loop. */
  method ParseColumns(raw: string) returns (cols: seq<string>)
    ensures cols == ParseLine(raw)
  {
    cols := [];
    var current, inQuote, c := "", false, 0;
    while c < |raw|
      invariant 0 <= c <= |raw|
      invariant ParseLine(raw) == cols + ParseFrom(raw[c..], current, inQuote)
    {
      var ch := raw[c];
      assert raw[c..][1..] == raw[c + 1..];
      if ch == '"' {
        if inQuote && c + 1 < |raw| && raw[c + 1] == '"' {
          assert raw[c..][2..] == raw[c + 2..];
          current := current + "\"";
          c := c + 1;
        } else {
          inQuote := !inQuote;
        }
      } else if ch == ',' && !inQuote {
        cols := cols + [current];
        current := "";
      } else {
        current := current + [ch];
      }
      c := c + 1;
    }
    cols := cols + [current];
  }

  // ---------------------------------------------------------------------
  // Round trips

  lemma ReadTwoQuotes(tail: string, current: string)
    ensures ParseFrom("\"\"" + tail, current, true) == ParseFrom(tail, current + "\"", true)
  {
    assert ("\"\"" + tail)[2..] == tail;
  }

  lemma ReadOther(c: char, tail: string, current: string, inQuote: bool)
    requires c != '"' && (c != ',' || inQuote)
    ensures ParseFrom([c] + tail, current, inQuote) == ParseFrom(tail, current + [c], inQuote)
  {
    assert ([c] + tail)[1..] == tail;
  }

  lemma ReadClosingQuote(rest: string, current: string)
    requires rest == "" || rest[0] != '"'
    ensures ParseFrom("\"" + rest, current, true) == ParseFrom(rest, current, false)
  {
    assert ("\"" + rest)[1..] == rest;
  }

  /** A doubled text inside quotes is read back, up to its closing quote. */
  lemma {:induction false} ReadDoubled(s: string, end: string, current: string)
    ensures ParseFrom(Doubled(s) + end, current, true) == ParseFrom(end, current + s, true)
  {
    if s == "" {
      assert Doubled(s) + end == end && current + s == current;
    } else {
      var tail := Doubled(s[1..]) + end;
      if s[0] == '"' {
        assert Doubled(s) + end == "\"\"" + tail;
        ReadTwoQuotes(tail, current);
      } else {
        assert Doubled(s) + end == [s[0]] + tail;
        ReadOther(s[0], tail, current, true);
      }
      ReadDoubled(s[1..], end, current + [s[0]]);
      assert current + [s[0]] + s[1..] == current + s;
    }
  }

  lemma ReadQuoted(s: string, rest: string)
    requires rest == "" || rest[0] != '"'
    ensures ParseFrom(Quoted(s) + rest, "", false) == ParseFrom(rest, s, false)
  {
    var tail := Doubled(s) + ("\"" + rest);
    assert Quoted(s) + rest == "\"" + tail;
    assert ("\"" + tail)[1..] == tail;
    ReadDoubled(s, "\"" + rest, "");
    assert "" + s == s;
    ReadClosingQuote(rest, s);
  }

  lemma {:induction false} ReadPlain(s: string, rest: string, current: string)
    requires ',' !in s && '"' !in s
    ensures ParseFrom(s + rest, current, false) == ParseFrom(rest, current + s, false)
  {
    if s == "" {
      assert s + rest == rest && current + s == current;
    } else {
      assert s + rest == [s[0]] + (s[1..] + rest);
      ReadOther(s[0], s[1..] + rest, current, false);
      ReadPlain(s[1..], rest, current + [s[0]]);
      assert current + [s[0]] + s[1..] == current + s;
    }
  }

  /** cell is a way of writing the text s. */
  predicate Writes(cell: string, s: string) {
    cell == Quoted(s) || (cell == s && ',' !in s && '"' !in s)
  }

  lemma ReadCell(cell: string, s: string, rest: string)
    requires Writes(cell, s) && (rest == "" || rest[0] != '"')
    ensures ParseFrom(cell + rest, "", false) == ParseFrom(rest, s, false)
  {
    if cell == Quoted(s) {
      ReadQuoted(s, rest);
    } else {
      ReadPlain(s, rest, "");
      assert "" + s == s;
    }
  }

  lemma {:induction false} ReadCells(cells: seq<string>, fields: seq<string>)
    requires |cells| == |fields| > 0
    requires forall i :: 0 <= i < |cells| ==> Writes(cells[i], fields[i])
    ensures ParseLine(Join(cells)) == fields
  {
    if |cells| == 1 {
      ReadCell(cells[0], fields[0], "");
      assert cells[0] + "" == cells[0];
    } else {
      var tail := Join(cells[1..]);
      ReadCell(cells[0], fields[0], "," + tail);
      assert Join(cells) == cells[0] + ("," + tail);
      assert ("," + tail)[1..] == tail;
      ReadCells(cells[1..], fields[1..]);
      assert fields == [fields[0]] + fields[1..];
    }
  }

  /** Whatever commas, quotes or line breaks the fields hold, the character
      loop gives back what the report writer wrote. */
  lemma ReportRoundTrip(fields: seq<string>)
    requires fields != []
    ensures ParseLine(ReportLine(fields)) == fields
  {
    ReadCells(seq(|fields|, i requires 0 <= i < |fields| => QuoteIfNeeded(fields[i])), fields);
  }

  /** The audit export too; null comes back as the empty text. */
  lemma ExportRoundTrip(fields: seq<Option<string>>)
    requires fields != []
    ensures ParseLine(ExportLine(fields)) == seq(|fields|, i requires 0 <= i < |fields| => fields[i].GetOr(""))
  {
    ReadCells(seq(|fields|, i requires 0 <= i < |fields| => EscapeCsv(fields[i])),
              seq(|fields|, i requires 0 <= i < |fields| => fields[i].GetOr("")));
  }

  lemma {:induction false} DoubledLength(s: string)
    ensures |Doubled(s)| >= |s|
  {
    if s != "" { DoubledLength(s[1..]); }
  }

  /** The report quotes a field exactly when it has to; the export quotes
      every text and writes nothing for a null. */
  lemma QuotedWhen(s: string)
    ensures QuoteIfNeeded(s) == s <==> ',' !in s && '"' !in s
    ensures var cell := EscapeCsv(Some(s)); |cell| >= 2 && cell[0] == cell[|cell| - 1] == '"'
    ensures EscapeCsv(None) == ""
  {
    DoubledLength(s);
  }

  // ---------------------------------------------------------------------
  // The upload page trims each line before its character loop.

  /** The column in progress is a prefix of the first column of the result. */
  lemma {:induction false} CurrentIsPrefix(raw: string, current: string, inQuote: bool)
    ensures ParseFrom(raw, current, inQuote)
         == [current + ParseFrom(raw, "", inQuote)[0]] + ParseFrom(raw, "", inQuote)[1..]
    decreases |raw|
  {
    if raw == "" {
      assert current + "" == current;
    } else if raw[0] == '"' {
      if inQuote && |raw| > 1 && raw[1] == '"' {
        CurrentIsPrefix(raw[2..], current + "\"", inQuote);
        CurrentIsPrefix(raw[2..], "\"", inQuote);
        assert "" + "\"" == "\"";
        assert current + "\"" + ParseFrom(raw[2..], "", inQuote)[0]
            == current + ("\"" + ParseFrom(raw[2..], "", inQuote)[0]);
      } else {
        CurrentIsPrefix(raw[1..], current, !inQuote);
      }
    } else if raw[0] == ',' && !inQuote {
      assert current + "" == current;
    } else {
      CurrentIsPrefix(raw[1..], current + [raw[0]], inQuote);
      CurrentIsPrefix(raw[1..], [raw[0]], inQuote);
      assert "" + [raw[0]] == [raw[0]];
      assert current + [raw[0]] + ParseFrom(raw[1..], "", inQuote)[0]
          == current + ([raw[0]] + ParseFrom(raw[1..], "", inQuote)[0]);
    }
  }

  function Length(cols: seq<string>): nat {
    if cols == [] then 0 else |cols[0]| + Length(cols[1..])
  }

  lemma LengthFrom(raw: string, current: string, inQuote: bool)
    ensures Length(ParseFrom(raw, current, inQuote)) == |current| + Length(ParseFrom(raw, "", inQuote))
  {
    CurrentIsPrefix(raw, current, inQuote);
    var cols := ParseFrom(raw, "", inQuote);
    assert ([current + cols[0]] + cols[1..])[1..] == cols[1..];
  }

  /** A white-space character at the end of a line ends up in a column. */
  lemma {:induction false} TrailingSpaceCounts(raw: string, w: char, current: string, inQuote: bool)
    requires IsSpace(w)
    ensures Length(ParseFrom(raw + [w], current, inQuote)) == Length(ParseFrom(raw, current, inQuote)) + 1
    decreases |raw|
  {
    if raw == "" {
      assert raw + [w] == [w] && [w][1..] == "";
      assert ParseFrom([w], current, inQuote) == ParseFrom("", current + [w], inQuote);
    } else {
      assert (raw + [w])[1..] == raw[1..] + [w];
      if raw[0] == '"' {
        if inQuote && |raw| > 1 && raw[1] == '"' {
          assert (raw + [w])[2..] == raw[2..] + [w];
          TrailingSpaceCounts(raw[2..], w, current + "\"", inQuote);
        } else {
          TrailingSpaceCounts(raw[1..], w, current, !inQuote);
        }
      } else if raw[0] == ',' && !inQuote {
        TrailingSpaceCounts(raw[1..], w, "", inQuote);
        assert ([current] + ParseFrom(raw[1..] + [w], "", inQuote))[1..] == ParseFrom(raw[1..] + [w], "", inQuote);
        assert ([current] + ParseFrom(raw[1..], "", inQuote))[1..] == ParseFrom(raw[1..], "", inQuote);
      } else {
        TrailingSpaceCounts(raw[1..], w, current + [raw[0]], inQuote);
      }
    }
  }

  lemma LeadingSpaceCounts(raw: string, w: char)
    requires IsSpace(w)
    ensures Length(ParseLine([w] + raw)) == Length(ParseLine(raw)) + 1
  {
    assert ([w] + raw)[1..] == raw && "" + [w] == [w];
    LengthFrom(raw, [w], false);
  }

  lemma {:induction false} TrimStartShortens(s: string)
    ensures Length(ParseLine(TrimStart(s))) <= Length(ParseLine(s))
    ensures TrimStart(s) != s ==> Length(ParseLine(TrimStart(s))) < Length(ParseLine(s))
  {
    if s != "" && IsSpace(s[0]) {
      TrimStartShortens(s[1..]);
      LeadingSpaceCounts(s[1..], s[0]);
      assert [s[0]] + s[1..] == s;
    }
  }

  lemma {:induction false} TrimEndShortens(s: string)
    ensures Length(ParseLine(TrimEnd(s))) <= Length(ParseLine(s))
    ensures TrimEnd(s) != s ==> Length(ParseLine(TrimEnd(s))) < Length(ParseLine(s))
  {
    if s != "" && IsSpace(s[|s| - 1]) {
      TrimEndShortens(s[..|s| - 1]);
      TrailingSpaceCounts(s[..|s| - 1], s[|s| - 1], "", false);
      assert s[..|s| - 1] + [s[|s| - 1]] == s;
    }
  }

  /** A report line survives the upload page's trim exactly when it neither
      begins nor ends with white space. */
  lemma TrimmedReportRoundTrip(fields: seq<string>)
    requires fields != []
    ensures var line := ReportLine(fields);
            ParseLine(Trim(line)) == fields <==> line == "" || !(IsSpace(line[0]) || IsSpace(line[|line| - 1]))
  {
    var line := ReportLine(fields);
    ReportRoundTrip(fields);
    TrimStartShortens(line);
    TrimEndShortens(TrimStart(line));
  }

  predicate CommaOrQuote(c: char) {
    c == ',' || c == '"'
  }

  /** Neither end of the text is white space. */
  predicate Edged(s: string) {
    s == "" || (CommaOrQuote(s[0]) && CommaOrQuote(s[|s| - 1]))
  }

  lemma {:induction false} JoinEdged(cells: seq<string>)
    requires forall c :: c in cells ==> Edged(c)
    ensures Edged(Join(cells))
  {
    if |cells| > 1 {
      JoinEdged(cells[1..]);
      assert Edged(cells[0]);
      var line := Join(cells);
      assert line[0] == if cells[0] == "" then ',' else cells[0][0];
      assert line[|line| - 1] == if Join(cells[1..]) == "" then ',' else Join(cells[1..])[|Join(cells[1..])| - 1];
    }
  }

  /** An export line always does: it begins and ends with a quote or, next to
      a null, a comma. */
  lemma TrimmedExportRoundTrip(fields: seq<Option<string>>)
    requires fields != []
    ensures ParseLine(Trim(ExportLine(fields))) == seq(|fields|, i requires 0 <= i < |fields| => fields[i].GetOr(""))
  {
    ExportRoundTrip(fields);
    JoinEdged(seq(|fields|, i requires 0 <= i < |fields| => EscapeCsv(fields[i])));
  }
}
