/** The CSV reader of TemplateService: parseCsvLine, a character-level
    state machine with quoted fields and doubled-quote escapes, and
    parseCsv, which takes the first non-blank line as the header and makes
    one map per later non-blank line. The file is given as its lines. */
module Csv {
  import opened Strings

  const QUOTE := '"'
  const COMMA := ','

  // ------------------------------------------------------------------
  // parseCsvLine

  /** The fields still to be emitted when the rest of the line is s, the
      quote state is inQuotes and the current field holds cur; every field
      is trimmed as it is emitted. */
  function Scan(s: string, inQuotes: bool, cur: string): (fields: seq<string>)
    ensures |fields| >= 1
    decreases |s|
  {
    if |s| == 0 then [Trim(cur)]
    else if s[0] == QUOTE then
      if inQuotes && |s| > 1 && s[1] == QUOTE then Scan(s[2..], inQuotes, cur + [QUOTE])
      else Scan(s[1..], !inQuotes, cur)
    else if s[0] == COMMA && !inQuotes then [Trim(cur)] + Scan(s[1..], false, "")
    else Scan(s[1..], inQuotes, cur + [s[0]])
  }

  /** The fields parseCsvLine returns for a line. */
  function ParseLine(line: string): seq<string>
  {
    Scan(line, false, "")
  }

  /** parseCsvLine(line), with its manual skip over an escaped quote. */
  method ParseCsvLine(line: string) returns (fields: seq<string>)
    ensures fields == ParseLine(line)
  {
    fields := [];
    var currentField := "";
    var inQuotes := false;
    var i := 0;
    while i < |line|
      invariant 0 <= i <= |line|
      invariant fields + Scan(line[i..], inQuotes, currentField) == ParseLine(line)
      decreases |line| - i
    {
      var c := line[i];
      if c == QUOTE {
        if inQuotes && i + 1 < |line| && line[i + 1] == QUOTE {
          assert line[i..][2..] == line[i + 2..];
          currentField := currentField + [QUOTE];
          i := i + 1;
        } else {
          assert line[i..][1..] == line[i + 1..];
          inQuotes := !inQuotes;
        }
      } else if c == COMMA && !inQuotes {
        assert line[i..][1..] == line[i + 1..];
        fields := fields + [Trim(currentField)];
        currentField := "";
      } else {
        assert line[i..][1..] == line[i + 1..];
        currentField := currentField + [c];
      }
      i := i + 1;
    }
    fields := fields + [Trim(currentField)];
  }

  /** Every field parseCsvLine returns is trimmed. */
  lemma {:induction false} ScanTrimmed(s: string, inQuotes: bool, cur: string)
    ensures forall k :: 0 <= k < |Scan(s, inQuotes, cur)| ==> IsTrimmed(Scan(s, inQuotes, cur)[k])
    decreases |s|
  {
    if |s| == 0 {
      TrimProperties(cur);
    } else if s[0] == QUOTE {
      if inQuotes && |s| > 1 && s[1] == QUOTE {
        ScanTrimmed(s[2..], inQuotes, cur + [QUOTE]);
      } else {
        ScanTrimmed(s[1..], !inQuotes, cur);
      }
    } else if s[0] == COMMA && !inQuotes {
      TrimProperties(cur);
      ScanTrimmed(s[1..], false, "");
    } else {
      ScanTrimmed(s[1..], inQuotes, cur + [s[0]]);
    }
  }

  /** The commas of s that fall outside quotes when the quote state starts
      as inQuotes: every quote flips the state, so a doubled quote inside a
      quoted field leaves it as it was. */
  function CommasOutsideQuotes(s: string, inQuotes: bool): nat
    decreases |s|
  {
    if |s| == 0 then 0
    else if s[0] == QUOTE then CommasOutsideQuotes(s[1..], !inQuotes)
    else if s[0] == COMMA && !inQuotes then 1 + CommasOutsideQuotes(s[1..], false)
    else CommasOutsideQuotes(s[1..], inQuotes)
  }

  /** An unquoted comma ends a field and nothing else does: scanning gives
      one field more than there are commas outside quotes. */
  lemma {:induction false} ScanFieldCount(s: string, inQuotes: bool, cur: string)
    ensures |Scan(s, inQuotes, cur)| == CommasOutsideQuotes(s, inQuotes) + 1
    decreases |s|
  {
    if |s| == 0 {
    } else if s[0] == QUOTE {
      if inQuotes && |s| > 1 && s[1] == QUOTE {
        ScanFieldCount(s[2..], inQuotes, cur + [QUOTE]);
        assert s[1..][1..] == s[2..];
        assert CommasOutsideQuotes(s, inQuotes) == CommasOutsideQuotes(s[2..], inQuotes);
      } else {
        ScanFieldCount(s[1..], !inQuotes, cur);
      }
    } else if s[0] == COMMA && !inQuotes {
      ScanFieldCount(s[1..], false, "");
    } else {
      ScanFieldCount(s[1..], inQuotes, cur + [s[0]]);
    }
  }

  /** parseCsvLine returns one trimmed field more than the line has commas
      outside quotes, whatever mix of quoted and unquoted text it holds. */
  lemma ParseLineShape(line: string)
    ensures |ParseLine(line)| == CommasOutsideQuotes(line, false) + 1
    ensures forall k :: 0 <= k < |ParseLine(line)| ==> IsTrimmed(ParseLine(line)[k])
  {
    ScanFieldCount(line, false, "");
    ScanTrimmed(line, false, "");
  }

  /** The fields trimmed one by one. */
  function TrimAll(fields: seq<string>): (r: seq<string>)
    ensures |r| == |fields| && forall k :: 0 <= k < |fields| ==> r[k] == Trim(fields[k])
  {
    seq(|fields|, k requires 0 <= k < |fields| => Trim(fields[k]))
  }

  /** Outside quotes and with no quote left, scanning is splitting at the commas. */
  lemma {:induction false} ScanQuoteFree(s: string, cur: string)
    requires QUOTE !in s
    ensures Scan(s, false, cur) == [Trim(cur + Split(s, COMMA)[0])] + TrimAll(Split(s, COMMA)[1..])
    decreases |s|
  {
    if |s| == 0 {
      assert cur + Split(s, COMMA)[0] == cur;
    } else {
      var rest := Split(s[1..], COMMA);
      ScanQuoteFree(s[1..], if s[0] == COMMA then "" else cur + [s[0]]);
      if s[0] == COMMA {
        assert "" + rest[0] == rest[0];
        assert Split(s, COMMA) == [""] + rest;
        assert cur + Split(s, COMMA)[0] == cur;
        assert [Trim(rest[0])] + TrimAll(rest[1..]) == TrimAll(rest);
        assert Split(s, COMMA)[1..] == rest;
      } else {
        assert Split(s, COMMA) == [[s[0]] + rest[0]] + rest[1..];
        assert cur + [s[0]] + rest[0] == cur + Split(s, COMMA)[0];
      }
    }
  }

  /** A line without quotes is its comma-separated pieces, trimmed: so it
      has one field more than it has commas, and rejoining the untrimmed
      pieces gives the line back. */
  lemma QuoteFreeLineIsSplit(line: string)
    requires QUOTE !in line
    ensures ParseLine(line) == TrimAll(Split(line, COMMA))
    ensures |ParseLine(line)| == Count(COMMA, line) + 1
  {
    var pieces := Split(line, COMMA);
    ScanQuoteFree(line, "");
    assert "" + pieces[0] == pieces[0];
    assert [Trim(pieces[0])] + TrimAll(pieces[1..]) == TrimAll(pieces);
    SplitCount(line, COMMA);
  }

  /** A field written for CSV: every quote doubled. */
  function Escape(field: string): (escaped: string)
    ensures |escaped| >= |field|
  {
    if |field| == 0 then ""
    else (if field[0] == QUOTE then [QUOTE, QUOTE] else [field[0]]) + Escape(field[1..])
  }

  /** A field in quotes. */
  function Quote(field: string): string
  {
    [QUOTE] + Escape(field) + [QUOTE]
  }

  /** Inside quotes, an escaped field is read back literally. */
  lemma {:induction false} ScanEscaped(field: string, s: string, cur: string)
    requires |s| > 0 ==> s[0] != QUOTE || (|s| > 1 && s[1] != QUOTE) || |s| == 1
    ensures Scan(Escape(field) + s, true, cur) == Scan(s, true, cur + field)
    decreases |field|
  {
    if |field| > 0 {
      var rest := Escape(field[1..]) + s;
      ScanEscaped(field[1..], s, cur + [field[0]]);
      assert cur + [field[0]] + field[1..] == cur + field;
      if field[0] == QUOTE {
        assert Escape(field) + s == [QUOTE, QUOTE] + rest;
        assert ([QUOTE, QUOTE] + rest)[2..] == rest;
      } else {
        assert Escape(field) + s == [field[0]] + rest;
        assert ([field[0]] + rest)[1..] == rest;
      }
    } else {
      assert Escape(field) + s == s;
      assert cur + field == cur;
    }
  }

  /** Fields each put in quotes and joined with commas. */
  function QuotedLine(fields: seq<string>): string
    requires |fields| > 0
    decreases |fields|
  {
    if |fields| == 1 then Quote(fields[0])
    else Quote(fields[0]) + [COMMA] + QuotedLine(fields[1..])
  }

  /** Reading one quoted field that is followed by the end of the line or
      by a comma. */
  lemma ScanQuoted(field: string, s: string)
    requires |s| == 0 || s[0] == COMMA
    ensures Scan(Quote(field) + s, false, "") == Scan(s, false, field)
  {
    var afterOpen := Escape(field) + [QUOTE] + s;
    assert Quote(field) + s == [QUOTE] + afterOpen;
    assert ([QUOTE] + afterOpen)[1..] == afterOpen;
    ScanEscaped(field, [QUOTE] + s, "");
    assert afterOpen == Escape(field) + ([QUOTE] + s);
    assert "" + field == field;
    assert ([QUOTE] + s)[1..] == s;
  }

  /** Quoting round-trips: a line of quoted fields, whatever commas and
      quotes they hold, parses back to the fields (trimmed). */
  lemma {:induction false} QuotedLineRoundTrip(fields: seq<string>)
    requires |fields| > 0
    ensures ParseLine(QuotedLine(fields)) == TrimAll(fields)
    decreases |fields|
  {
    if |fields| == 1 {
      assert Quote(fields[0]) + "" == Quote(fields[0]);
      ScanQuoted(fields[0], "");
    } else {
      var tail := QuotedLine(fields[1..]);
      assert QuotedLine(fields) == Quote(fields[0]) + ([COMMA] + tail);
      ScanQuoted(fields[0], [COMMA] + tail);
      assert ([COMMA] + tail)[1..] == tail;
      QuotedLineRoundTrip(fields[1..]);
      assert TrimAll(fields) == [Trim(fields[0])] + TrimAll(fields[1..]);
    }
  }

  // ------------------------------------------------------------------
  // parseCsv

  /** The lines parseCsv keeps, trimmed: those not empty after trimming. */
  function NonBlankLines(lines: seq<string>): seq<string>
    decreases |lines|
  {
    if |lines| == 0 then []
    else NonBlankLines(lines[..|lines| - 1]) + (if Trim(lines[|lines| - 1]) == "" then [] else [Trim(lines[|lines| - 1])])
  }

  /** The values of a row fitted to the header width: truncated, or padded
      with empty strings. */
  function Fit(values: seq<string>, width: nat): (fitted: seq<string>)
    ensures |fitted| == width
    ensures forall j :: 0 <= j < width ==> fitted[j] == if j < |values| then values[j] else ""
  {
    if |values| >= width then values[..width] else values + seq(width - |values|, _ => "")
  }

  /** The row map: header i maps to value i, a later duplicate header
      replacing an earlier one. */
  function RowMap(headers: seq<string>, values: seq<string>): map<string, string>
    requires |values| >= |headers|
    decreases |headers|
  {
    if |headers| == 0 then map[]
    else RowMap(headers[..|headers| - 1], values)[headers[|headers| - 1] := values[|headers| - 1]]
  }

  function DataRow(headers: seq<string>, line: string): map<string, string>
  {
    RowMap(headers, Fit(ParseLine(line), |headers|))
  }

  /** One row per data line. */
  function DataRows(headers: seq<string>, dataLines: seq<string>): (rows: seq<map<string, string>>)
    ensures |rows| == |dataLines|
    ensures forall k :: 0 <= k < |dataLines| ==> rows[k] == DataRow(headers, dataLines[k])
  {
    seq(|dataLines|, k requires 0 <= k < |dataLines| => DataRow(headers, dataLines[k]))
  }

  /** What parseCsv returns for the lines of a file. */
  function ParseCsvSpec(lines: seq<string>): seq<map<string, string>>
  {
    var kept := NonBlankLines(lines);
    if |kept| == 0 then [] else DataRows(ParseLine(kept[0]), kept[1..])
  }

  /** The padding loop and the truncation of parseCsv. */
  method FitValues(values: seq<string>, width: nat) returns (fitted: seq<string>)
    ensures fitted == Fit(values, width)
  {
    fitted := values;
    while |fitted| < width
      invariant |values| <= |fitted| && fitted[..|values|] == values
      invariant |values| < width ==> |fitted| <= width
      invariant forall j :: |values| <= j < |fitted| ==> fitted[j] == ""
      decreases width - |fitted|
    {
      fitted := fitted + [""];
    }
    if |fitted| > width {
      fitted := fitted[..width];
    }
  }

  /** The loop that fills the row map. */
  method BuildRowMap(headers: seq<string>, values: seq<string>) returns (rowMap: map<string, string>)
    requires |values| >= |headers|
    ensures rowMap == RowMap(headers, values)
  {
    rowMap := map[];
    var i := 0;
    while i < |headers|
      invariant 0 <= i <= |headers|
      invariant rowMap == RowMap(headers[..i], values)
    {
      assert headers[..i + 1][..i] == headers[..i];
      rowMap := rowMap[headers[i] := if i < |values| then values[i] else ""];
      i := i + 1;
    }
    assert headers[..i] == headers;
  }

  /** parseCsv over the lines of the file. */
  method ParseCsv(lines: seq<string>) returns (rows: seq<map<string, string>>)
    ensures rows == ParseCsvSpec(lines)
  {
    rows := [];
    var headers: seq<string> := [];
    var lineNumber := 0;
    var n := 0;
    while n < |lines|
      invariant 0 <= n <= |lines|
      invariant lineNumber == |NonBlankLines(lines[..n])|
      invariant lineNumber > 0 ==> headers == ParseLine(NonBlankLines(lines[..n])[0])
      invariant rows == ParseCsvSpec(lines[..n])
    {
      ghost var kept := NonBlankLines(lines[..n]);
      assert lines[..n + 1][..n] == lines[..n];
      var line := Trim(lines[n]);
      if line != "" {
        assert NonBlankLines(lines[..n + 1]) == kept + [line];
        var values := ParseCsvLine(line);
        if lineNumber == 0 {
          headers := values;
          assert ParseCsvSpec(lines[..n + 1]) == DataRows(headers, []);
        } else {
          if |values| != |headers| {
            values := FitValues(values, |headers|);
          } else {
            assert values == Fit(values, |headers|);
          }
          var rowMap := BuildRowMap(headers, values);
          assert (kept + [line])[1..] == kept[1..] + [line];
          rows := rows + [rowMap];
        }
        lineNumber := lineNumber + 1;
      }
      n := n + 1;
    }
    assert lines[..n] == lines;
  }

  // ------------------------------------------------------------------
  // Properties of parseCsv

  /** Blank lines anywhere in the file change nothing. */
  lemma {:induction false} NonBlankLinesAppend(a: seq<string>, b: seq<string>)
    ensures NonBlankLines(a + b) == NonBlankLines(a) + NonBlankLines(b)
    decreases |b|
  {
    if |b| == 0 {
      assert a + b == a;
    } else {
      var b' := b[..|b| - 1];
      assert (a + b)[..|a + b| - 1] == a + b';
      NonBlankLinesAppend(a, b');
    }
  }

  lemma BlankLineIgnored(before: seq<string>, blank: string, after: seq<string>)
    requires IsBlank(blank)
    ensures ParseCsvSpec(before + [blank] + after) == ParseCsvSpec(before + after)
  {
    TrimProperties(blank);
    assert NonBlankLines([blank]) == [] by {
      assert [blank][..0] == [];
    }
    NonBlankLinesAppend(before + [blank], after);
    NonBlankLinesAppend(before, [blank]);
    NonBlankLinesAppend(before, after);
    assert NonBlankLines(before + [blank] + after) == NonBlankLines(before + after);
  }

  /** One row per non-blank line after the header. */
  lemma RowCount(lines: seq<string>)
    ensures |ParseCsvSpec(lines)| == if |NonBlankLines(lines)| == 0 then 0 else |NonBlankLines(lines)| - 1
  {
  }

  /** The keys of a row map are exactly the headers. */
  lemma {:induction false} RowMapKeys(headers: seq<string>, values: seq<string>)
    requires |values| >= |headers|
    ensures RowMap(headers, values).Keys == set j | 0 <= j < |headers| :: headers[j]
    decreases |headers|
  {
    if |headers| > 0 {
      var init := headers[..|headers| - 1];
      RowMapKeys(init, values);
      assert forall j :: 0 <= j < |init| ==> init[j] == headers[j];
    }
  }

  /** The value under a header is the value in the column of that header's
      last occurrence. */
  lemma {:induction false} RowMapValue(headers: seq<string>, values: seq<string>, j: nat)
    requires |values| >= |headers| && j < |headers|
    requires forall i :: j < i < |headers| ==> headers[i] != headers[j]
    ensures headers[j] in RowMap(headers, values) && RowMap(headers, values)[headers[j]] == values[j]
    decreases |headers|
  {
    if j < |headers| - 1 {
      var init := headers[..|headers| - 1];
      RowMapValue(init, values, j);
    }
  }

  /** Every row has the headers as its key set. */
  lemma RowKeysAreHeaders(lines: seq<string>, k: nat)
    requires |NonBlankLines(lines)| > 0
    requires k < |ParseCsvSpec(lines)|
    ensures var headers := ParseLine(NonBlankLines(lines)[0]);
      ParseCsvSpec(lines)[k].Keys == set i | 0 <= i < |headers| :: headers[i]
  {
    var kept := NonBlankLines(lines);
    var headers := ParseLine(kept[0]);
    var fitted := Fit(ParseLine(kept[k + 1]), |headers|);
    assert ParseCsvSpec(lines)[k] == RowMap(headers, fitted);
    RowMapKeys(headers, fitted);
  }

  /** The cell under a header (at its last occurrence j) is field j of the
      line, or "" when the line is shorter than the header. */
  lemma RowCellFollowsColumn(lines: seq<string>, k: nat, j: nat)
    requires |NonBlankLines(lines)| > 0
    requires k < |ParseCsvSpec(lines)|
    requires var headers := ParseLine(NonBlankLines(lines)[0]);
      j < |headers| && forall i :: j < i < |headers| ==> headers[i] != headers[j]
    ensures var headers := ParseLine(NonBlankLines(lines)[0]);
      var fields := ParseLine(NonBlankLines(lines)[k + 1]);
      headers[j] in ParseCsvSpec(lines)[k] &&
      ParseCsvSpec(lines)[k][headers[j]] == if j < |fields| then fields[j] else ""
  {
    var kept := NonBlankLines(lines);
    var headers := ParseLine(kept[0]);
    var fitted := Fit(ParseLine(kept[k + 1]), |headers|);
    assert ParseCsvSpec(lines)[k] == RowMap(headers, fitted);
    RowMapValue(headers, fitted, j);
  }
}
