/**
 * The line tests and extractors of the enhanced table detector
 * (src/parsers/enhanced_table_parser.py): the growth routine that three of
 * its four strategies share, the pipe-table extractor with its cell
 * trimming, the delimiter test, the title search above a table and the
 * column re-spacer.
 */
module EnhancedTableParser {
  import opened Wrappers
  import opened Strings
  import opened Runs
  import opened Seqs
  import TableParser

  /**
   * The regular-expression tests of the enhanced detector, which the model
   * takes as given: each is the set of lines the test accepts. `parse` is
   * `_parse_financial_line`, the column splitter.
   */
  datatype Patterns = Patterns(
    financialStatement: iset<string>,  // `_is_financial_statement_header`
    tableBoundary: iset<string>,       // a `table_boundaries` pattern matches the line
    secTable: iset<string>,            // a `sec_tables` pattern matches the line
    financialKeyword: iset<string>,    // a financial keyword occurs in `line.lower()`
    columnar: iset<string>,            // `_has_columnar_structure`
    multiMonetary: iset<string>,       // `_has_multiple_monetary_values`
    financialData: iset<string>,       // `_is_financial_data_line`
    sectionBreak: iset<string>,        // `_is_section_break`
    titleWord: iset<string>,           // 'table', 'statement', 'schedule' or 'summary' occurs in `line.lower()`
    parse: string -> seq<string>)      // `_parse_financial_line`

  /** `TABLE_MIN_ROWS` of the settings module. */
  datatype Config = Config(minRows: nat)

  /** The `table_type` values the extractors produce. */
  datatype Kind = Financial | Delimited

  /**
   * A detected table. Confidences are in hundredths (95 for 0.95). The
   * detector fills `start_pos` and `end_pos` with the constant 0, so they
   * are left out.
   */
  datatype Table = Table(
    content: seq<seq<string>>,
    startLine: nat,
    endLine: nat,
    title: Option<string>,
    confidence: nat,
    kind: Kind,
    originalText: string,
    columnCount: nat,
    rowCount: nat,
    hasMonetary: bool,
    hasPercentage: bool)

  /** A Python call that either returns a value or raises. */
  datatype Outcome<T> = Done(value: T) | Raised

  // ---------------------------------------------------------------------------
  // Line tests
  // ---------------------------------------------------------------------------

  /** The characters `_is_enhanced_delimiter` accepts in a rule. */
  const DelimiterChars: set<char> := {'-', '=', '_', '+', '|'}

  /**
   * `_is_enhanced_delimiter`: the stripped line has at least three
   * characters, and either a boundary pattern matches the line or, once its
   * spaces are removed, it is made of at most two distinct rule characters.
   */
  predicate IsEnhancedDelimiter(p: Patterns, line: string)
  {
    var stripped := Strip(line);
    |stripped| >= 3 &&
    (line in p.tableBoundary ||
     var unique := TableParser.CharSet(ReplaceAll(stripped, " ", ""));
     |unique| <= 2 && unique <= DelimiterChars)
  }

  /** A set with at most two elements lies within two of them. */
  lemma {:induction false} AtMostTwo(u: set<char>, a: char)
    requires |u| <= 2 && a in u
    ensures exists b :: u <= {a, b}
  {
    if u - {a} == {} {
      assert u <= {a, a};
    } else {
      var b :| b in u - {a};
      assert |u - {a} - {b}| == 0;
      assert u <= {a, b};
    }
  }

  /** A set within two elements has at most two. */
  lemma {:induction false} WithinTwo(u: set<char>, a: char, b: char)
    requires u <= {a, b}
    ensures |u| <= 2
  {
    var v := {a, b};
    assert v == u + (v - u);
    assert |v| <= 2;
  }

  /** Every character of `t` is a space or one of two rule characters. */
  predicate TwoRuleChars(t: string)
  {
    exists a, b :: a in DelimiterChars && b in DelimiterChars &&
      forall i :: 0 <= i < |t| ==> t[i] in {a, b, ' '}
  }

  /** The distinct characters of `t` once its spaces are removed. */
  lemma {:induction false} CharsWithoutSpaces(t: string)
    ensures forall c :: c in TableParser.CharSet(ReplaceAll(t, " ", "")) <==> c in t && c != ' '
  {
    var s := ReplaceAll(t, " ", "");
    forall c ensures c in TableParser.CharSet(s) <==> c in t && c != ' ' {
      TableParser.NoSpacesChars(t, c);
      if c in s {
        var j :| 0 <= j < |s| && s[j] == c;
      }
    }
  }

  /** At most two distinct rule characters besides spaces, starting with a rule character. */
  lemma {:induction false} FewRuleCharsForward(t: string, u: set<char>)
    requires t != [] && t[0] != ' ' && forall c :: c in u <==> c in t && c != ' '
    requires |u| <= 2 && u <= DelimiterChars
    ensures TwoRuleChars(t)
  {
    assert t[0] in u;
    AtMostTwo(u, t[0]);
    var b0 :| u <= {t[0], b0};
    var b := if b0 in u then b0 else t[0];
    assert u <= {t[0], b};
    forall i | 0 <= i < |t| ensures t[i] in {t[0], b, ' '} {
      if t[i] != ' ' {
        assert t[i] in u;
      }
    }
  }

  /** Characters drawn from two rule characters and spaces give at most two distinct rule characters. */
  lemma {:induction false} FewRuleCharsBackward(t: string, u: set<char>)
    requires forall c :: c in u <==> c in t && c != ' '
    requires TwoRuleChars(t)
    ensures |u| <= 2 && u <= DelimiterChars
  {
    var a, b :| a in DelimiterChars && b in DelimiterChars && forall i :: 0 <= i < |t| ==> t[i] in {a, b, ' '};
    forall c | c in u ensures c in {a, b} {
      var i :| 0 <= i < |t| && t[i] == c;
    }
    WithinTwo(u, a, b);
  }

  /**
   * A reference reading of `_is_enhanced_delimiter`: the stripped line has at
   * least three characters, and a boundary pattern matches or every character
   * of the stripped line is a space or one of two rule characters.
   */
  lemma {:induction false} EnhancedDelimiterIff(p: Patterns, line: string)
    ensures IsEnhancedDelimiter(p, line) <==>
      |Strip(line)| >= 3 && (line in p.tableBoundary || TwoRuleChars(Strip(line)))
  {
    var t := Strip(line);
    var u := TableParser.CharSet(ReplaceAll(t, " ", ""));
    CharsWithoutSpaces(t);
    if |t| >= 3 && line !in p.tableBoundary {
      if |u| <= 2 && u <= DelimiterChars {
        StripShape(line);
        FewRuleCharsForward(t, u);
      }
      if TwoRuleChars(t) {
        FewRuleCharsBackward(t, u);
      }
    }
  }

  /** A rule of two distinct characters is a delimiter. */
  lemma {:induction false} TwoCharRuleIsDelimiter(p: Patterns)
    ensures IsEnhancedDelimiter(p, "+---+---+")
  {
    var t := "+---+---+";
    assert NotSpace(t[0]) && NotSpace(t[|t| - 1]);
    StripOfStripped(t);
    assert TwoRuleChars(t) by {
      assert '+' in DelimiterChars && '-' in DelimiterChars;
      assert forall i :: 0 <= i < |t| ==> t[i] in {'+', '-', ' '};
    }
    EnhancedDelimiterIff(p, t);
  }

  /** Three distinct rule characters are not a delimiter, unless a boundary pattern matches them. */
  lemma {:induction false} ThreeCharRuleIsNot(p: Patterns)
    requires "-=+" !in p.tableBoundary
    ensures !IsEnhancedDelimiter(p, "-=+")
  {
    var t := "-=+";
    StripOfStripped(t);
    EnhancedDelimiterIff(p, t);
  }

  /** A stripped line of fewer than three characters is never a delimiter. */
  lemma {:induction false} ShortLineIsNot(p: Patterns, line: string)
    requires |Strip(line)| < 3
    ensures !IsEnhancedDelimiter(p, line)
  {
  }

  /** `_is_pipe_delimited_line`: at least two '|' characters. */
  predicate PipeLine(line: string)
  {
    '|' in line && Count(line, '|') >= 2
  }

  /** What `_extract_financial_table` counts as a data line: financial data, columns or several amounts. */
  predicate DataLine(p: Patterns, line: string)
  {
    line in p.financialData || line in p.columnar || line in p.multiMonetary
  }

  /** A line the growth loop turns into a row: not blank, and a data line. */
  predicate Taken(p: Patterns, line: string)
  {
    !IsBlank(line) && DataLine(p, line)
  }

  /**
   * The monetary test of the growth loop: a '$', or a match of
   * `\d{1,3}(?:,\d{3})*(?:\.\d+)?`, which any digit starts.
   */
  predicate MonetaryLine(line: string)
  {
    '$' in line || HasDigit(line)
  }

  /** `max(len(row) for row in rows) if rows else 0`. */
  function MaxLen(rows: seq<seq<string>>): nat
    decreases |rows|
  {
    if rows == [] then 0 else Max(MaxLen(rows[..|rows| - 1]), |rows[|rows| - 1]|)
  }

  /** The widest row: no row is wider, and some row is as wide unless there are none. */
  lemma {:induction false} MaxLenBounds(rows: seq<seq<string>>)
    ensures forall i :: 0 <= i < |rows| ==> |rows[i]| <= MaxLen(rows)
    ensures rows == [] ==> MaxLen(rows) == 0
    ensures rows != [] ==> exists i :: 0 <= i < |rows| && |rows[i]| == MaxLen(rows)
    decreases |rows|
  {
    if rows != [] {
      var init := rows[..|rows| - 1];
      MaxLenBounds(init);
      assert forall i :: 0 <= i < |init| ==> init[i] == rows[i];
      if MaxLen(init) < |rows[|rows| - 1]| || init == [] {
        assert |rows[|rows| - 1]| == MaxLen(rows);
      } else {
        var i :| 0 <= i < |init| && |init[i]| == MaxLen(init);
        assert |rows[i]| == MaxLen(rows);
      }
    }
  }

  // ---------------------------------------------------------------------------
  // Titles
  // ---------------------------------------------------------------------------

  /** `re.search(r'^[A-Z][A-Za-z\s]+$', t)`: a capital letter, then letters and whitespace. */
  predicate Capitalized(t: string)
  {
    |t| >= 2 && 'A' <= t[0] <= 'Z' &&
    forall i :: 1 <= i < |t| ==> ('A' <= t[i] <= 'Z') || ('a' <= t[i] <= 'z') || IsSpace(t[i])
  }

  /**
   * The lines on which the title test as written reaches
   * `_is_table_content_line(line, None)` and finds both of its cheap tests
   * false: there it reads `None.table_type` and raises.
   */
  predicate Plain(p: Patterns, t: string)
  {
    t != [] && |t| < 200 && t !in p.columnar && t !in p.multiMonetary
  }

  /**
   * `_is_table_content_line(line, table)` as written, for a table given by its
   * kind or missing: with no table and neither cheap test true, it raises.
   */
  function ContentLineAsWritten(p: Patterns, line: string, table: Option<Kind>): Outcome<bool>
  {
    if line in p.columnar || line in p.multiMonetary then Done(true)
    else if table.None? then Raised
    else Done(table.value == Financial && line in p.financialData)
  }

  /** `_extract_enhanced_table_title` as written, from offset `i` on. */
  function TitleAsWrittenFrom(p: Patterns, lines: seq<string>, ts: nat, i: nat): Outcome<Option<string>>
    requires ts <= |lines| && 1 <= i
    decreases 6 - i
  {
    if i >= Min(6, ts + 1) then Done(None)
    else
      var line := TableParser.Above(lines, ts, i);
      if line == [] || |line| >= 200 then TitleAsWrittenFrom(p, lines, ts, i + 1)
      else match ContentLineAsWritten(p, line, None)
        case Raised => Raised
        case Done(content) =>
          if !content && !TableParser.AllDigits(line) && line !in p.sectionBreak &&
             (line in p.titleWord || Capitalized(line))
          then Done(Some(line))
          else TitleAsWrittenFrom(p, lines, ts, i + 1)
  }

  /**
   * The title search as written never returns a title: it returns None when
   * every non-blank line of the window is too long, columnar or monetary, and
   * raises as soon as it meets any other non-blank line.
   */
  lemma {:induction false} TitleAsWrittenFromShape(p: Patterns, lines: seq<string>, ts: nat, i: nat)
    requires ts <= |lines| && 1 <= i
    ensures var r := TitleAsWrittenFrom(p, lines, ts, i);
      (r.Done? ==> r.value.None?) &&
      (r.Raised? <==> exists k :: i <= k < Min(6, ts + 1) && Plain(p, TableParser.Above(lines, ts, k)))
    decreases 6 - i
  {
    if i < Min(6, ts + 1) {
      TitleAsWrittenFromShape(p, lines, ts, i + 1);
      var r := TitleAsWrittenFrom(p, lines, ts, i);
      if r.Raised? && !Plain(p, TableParser.Above(lines, ts, i)) {
        var k :| i + 1 <= k < Min(6, ts + 1) && Plain(p, TableParser.Above(lines, ts, k));
      }
    }
  }

  /** What the title search, corrected, accepts as a title once the line is stripped. */
  predicate EnhancedTitleLike(p: Patterns, t: string)
  {
    Plain(p, t) && !TableParser.AllDigits(t) && t !in p.sectionBreak &&
    (t in p.titleWord || Capitalized(t))
  }

  /** The corrected title test as a function value, for the shared search. */
  function EnhancedTitleTest(p: Patterns): string -> bool { t => EnhancedTitleLike(p, t) }

  /**
   * `_extract_enhanced_table_title(lines, ts)` with a missing table read as
   * "not a financial table": the nearest of the five lines above the table
   * whose stripped text looks like a title.
   */
  function TitleAbove(p: Patterns, lines: seq<string>, ts: nat): Option<string>
    requires ts <= |lines|
  {
    TableParser.TitleFrom(EnhancedTitleTest(p), lines, ts, 1, 6)
  }

  /**
   * The corrected title is the nearest of the (up to) five lines above the
   * table that looks like a title; there is none when none of them does.
   */
  lemma {:induction false} TitleAboveNearest(p: Patterns, lines: seq<string>, ts: nat)
    requires ts <= |lines|
    ensures TitleAbove(p, lines, ts).None? <==>
      forall k :: 1 <= k < Min(6, ts + 1) ==> !EnhancedTitleLike(p, TableParser.Above(lines, ts, k))
    ensures TitleAbove(p, lines, ts).Some? ==>
      exists k :: 1 <= k < Min(6, ts + 1) && TitleAbove(p, lines, ts).value == TableParser.Above(lines, ts, k) &&
        EnhancedTitleLike(p, TableParser.Above(lines, ts, k)) &&
        forall k' :: 1 <= k' < k ==> !EnhancedTitleLike(p, TableParser.Above(lines, ts, k'))
  {
    TableParser.TitleFromNone(EnhancedTitleTest(p), lines, ts, 1, 6);
    if TitleAbove(p, lines, ts).Some? {
      var k := TableParser.TitleFromFirst(EnhancedTitleTest(p), lines, ts, 1, 6);
      assert EnhancedTitleLike(p, TableParser.Above(lines, ts, k));
    }
  }

  /** Wherever the corrected search finds a title, the search as written raises. */
  lemma {:induction false} TitleAsWrittenRaises(p: Patterns, lines: seq<string>, ts: nat)
    requires ts <= |lines|
    ensures TitleAbove(p, lines, ts).Some? ==> TitleAsWrittenFrom(p, lines, ts, 1).Raised?
  {
    TitleAboveNearest(p, lines, ts);
    TitleAsWrittenFromShape(p, lines, ts, 1);
  }

  /**
   * A short capitalised caption above a table: the search as written raises,
   * the corrected one returns the caption.
   */
  lemma {:induction false} TitleAsWrittenCounterexample(p: Patterns)
    requires "Revenue summary" !in p.columnar && "Revenue summary" !in p.multiMonetary
    requires "Revenue summary" !in p.sectionBreak
    ensures TitleAsWrittenFrom(p, ["Revenue summary", "Net sales    100    200"], 1, 1).Raised?
    ensures TitleAbove(p, ["Revenue summary", "Net sales    100    200"], 1) == Some("Revenue summary")
  {
    var lines := ["Revenue summary", "Net sales    100    200"];
    var t := "Revenue summary";
    StripOfStripped(t);
    assert TableParser.Above(lines, 1, 1) == t;
    assert Capitalized(t);
    assert !TableParser.AllDigits(t) by {
      assert !IsDigit(t[0]);
    }
    assert EnhancedTitleLike(p, t);
  }

  /** `_extract_enhanced_table_title`, corrected: the `for` loop over the lines above the table. */
  method ExtractEnhancedTableTitle(p: Patterns, lines: seq<string>, tableStart: nat) returns (title: Option<string>)
    requires tableStart <= |lines|
    ensures title == TitleAbove(p, lines, tableStart)
  {
    for i := 1 to Min(6, tableStart + 1)
      invariant TableParser.TitleFrom(EnhancedTitleTest(p), lines, tableStart, i, 6) == TitleAbove(p, lines, tableStart)
    {
      var line := TableParser.Above(lines, tableStart, i);
      if line == [] {
        continue;
      }
      if |line| < 200 && !(line in p.columnar || line in p.multiMonetary) &&
         !TableParser.AllDigits(line) && line !in p.sectionBreak {
        if line in p.titleWord || Capitalized(line) {
          return Some(line);
        }
      }
    }
    return None;
  }

  // ---------------------------------------------------------------------------
  // The growth routine `_extract_financial_table`
  // ---------------------------------------------------------------------------

  /**
   * Where the loop of `_extract_financial_table`, anchored at `s`, stops when
   * it is at `cur` after `empty` blank lines in a row: after the third blank
   * line in a row, at the end of the text, or at a non-blank line that is not
   * data and is a section break or more than 50 lines past the anchor. Other
   * non-data lines are passed over.
   */
  function GrowStop(p: Patterns, lines: seq<string>, s: nat, cur: nat, empty: nat): (stop: nat)
    requires s < cur <= |lines|
    ensures cur <= stop <= |lines|
    decreases |lines| - cur
  {
    if cur == |lines| || empty >= 3 then cur
    else if IsBlank(lines[cur]) then GrowStop(p, lines, s, cur + 1, empty + 1)
    else if DataLine(p, lines[cur]) then GrowStop(p, lines, s, cur + 1, 0)
    else if lines[cur] in p.sectionBreak || cur - s > 50 then cur
    else GrowStop(p, lines, s, cur + 1, 0)
  }

  /** The rows the loop parses from `lines[lo..hi]`: one per data line, none for a blank line. */
  function DataRows(p: Patterns, lines: seq<string>, lo: nat, hi: nat): seq<seq<string>>
    requires lo <= hi <= |lines|
    decreases hi - lo
  {
    if lo == hi then []
    else DataRows(p, lines, lo, hi - 1) + (if Taken(p, lines[hi - 1]) then [p.parse(lines[hi - 1])] else [])
  }

  /** Some data line of `lines[lo..hi]` passes the monetary test. */
  predicate MonetaryIn(p: Patterns, lines: seq<string>, lo: nat, hi: nat)
    requires lo <= hi <= |lines|
    decreases hi - lo
  {
    lo < hi && (MonetaryIn(p, lines, lo, hi - 1) || (Taken(p, lines[hi - 1]) && MonetaryLine(lines[hi - 1])))
  }

  /** Some data line of `lines[lo..hi]` holds a '%'. */
  predicate PercentIn(p: Patterns, lines: seq<string>, lo: nat, hi: nat)
    requires lo <= hi <= |lines|
    decreases hi - lo
  {
    lo < hi && (PercentIn(p, lines, lo, hi - 1) || (Taken(p, lines[hi - 1]) && '%' in lines[hi - 1]))
  }

  lemma {:induction false} MonetaryInIff(p: Patterns, lines: seq<string>, lo: nat, hi: nat)
    requires lo <= hi <= |lines|
    ensures MonetaryIn(p, lines, lo, hi) <==> exists k :: lo <= k < hi && Taken(p, lines[k]) && MonetaryLine(lines[k])
    decreases hi - lo
  {
    if lo < hi {
      MonetaryInIff(p, lines, lo, hi - 1);
    }
  }

  lemma {:induction false} PercentInIff(p: Patterns, lines: seq<string>, lo: nat, hi: nat)
    requires lo <= hi <= |lines|
    ensures PercentIn(p, lines, lo, hi) <==> exists k :: lo <= k < hi && Taken(p, lines[k]) && '%' in lines[k]
    decreases hi - lo
  {
    if lo < hi {
      PercentInIff(p, lines, lo, hi - 1);
    }
  }

  /** The header row: the stripped anchor line, unless it is empty. */
  function Header(lines: seq<string>, s: nat): seq<seq<string>>
    requires s < |lines|
  {
    if Strip(lines[s]) == [] then [] else [[Strip(lines[s])]]
  }

  /**
   * A table found at line `s` holds exactly its own lines: its text is the
   * lines from `s` to its end joined by newlines, and it is at least
   * `TABLE_MIN_ROWS` rows long.
   */
  predicate OwnText(cfg: Config, lines: seq<string>, s: nat, r: Option<Table>)
  {
    r.Some? ==>
      r.value.startLine == s <= r.value.endLine < |lines| &&
      r.value.originalText == JoinWith(lines[s..r.value.endLine + 1], "\n") &&
      r.value.rowCount == |r.value.content| >= cfg.minRows
  }

  /**
   * `_extract_financial_table(lines, s)`: the header row and the data rows up
   * to where the loop stops, at least `TABLE_MIN_ROWS` of them; the table
   * spans the anchor to the line before the stop. No digit is required.
   */
  function FinancialTableAt(p: Patterns, cfg: Config, lines: seq<string>, s: nat): (r: Option<Table>)
    requires s < |lines|
    ensures r.Some? ==> r.value.startLine == s <= r.value.endLine < |lines|
  {
    var stop := GrowStop(p, lines, s, s + 1, 0);
    var content := Header(lines, s) + DataRows(p, lines, s + 1, stop);
    if |content| < cfg.minRows then None
    else
      Some(Table(content, s, stop - 1, TitleAbove(p, lines, s), 95, Financial,
        JoinWith(Rows(lines, s, stop), "\n"), MaxLen(content), |content|,
        MonetaryIn(p, lines, s + 1, stop), PercentIn(p, lines, s + 1, stop)))
  }

  /**
   * Why the loop stopped: the end of the text; three blank lines in a row,
   * all after the anchor, just before the stop; or a non-blank line at the
   * stop that is not data and is a section break or more than 50 lines past
   * the anchor.
   */
  lemma {:induction false} GrowStopReason(p: Patterns, lines: seq<string>, s: nat, cur: nat, empty: nat)
    requires s < cur <= |lines| && empty <= 3 && TrailingBlanks(lines, s + 1, cur, empty)
    ensures var stop := GrowStop(p, lines, s, cur, empty);
      stop == |lines| ||
      (s + 4 <= stop && BlankRun(lines, stop - 3, 3)) ||
      (!IsBlank(lines[stop]) && !DataLine(p, lines[stop]) && (lines[stop] in p.sectionBreak || stop - s > 50))
    decreases |lines| - cur
  {
    if cur < |lines| && empty < 3 {
      if IsBlank(lines[cur]) {
        GrowStopReason(p, lines, s, cur + 1, empty + 1);
      } else if DataLine(p, lines[cur]) || !(lines[cur] in p.sectionBreak || cur - s > 50) {
        GrowStopReason(p, lines, s, cur + 1, 0);
      }
    }
  }

  /** Every non-data line the loop passes over is neither a section break nor more than 50 lines past the anchor. */
  lemma {:induction false} GrowSkips(p: Patterns, lines: seq<string>, s: nat, cur: nat, empty: nat)
    requires s < cur <= |lines|
    ensures var stop := GrowStop(p, lines, s, cur, empty);
      forall k :: cur <= k < stop && !IsBlank(lines[k]) && !DataLine(p, lines[k]) ==>
        lines[k] !in p.sectionBreak && k - s <= 50
    decreases |lines| - cur
  {
    if cur < |lines| && empty < 3 {
      if IsBlank(lines[cur]) {
        GrowSkips(p, lines, s, cur + 1, empty + 1);
      } else if DataLine(p, lines[cur]) || !(lines[cur] in p.sectionBreak || cur - s > 50) {
        GrowSkips(p, lines, s, cur + 1, 0);
      }
    }
  }

  /** Three blank lines in a row after the anchor occur only as the last lines of the table. */
  lemma {:induction false} GrowNoBlankRun(p: Patterns, lines: seq<string>, s: nat, cur: nat, empty: nat)
    requires s < cur <= |lines| && empty < 3 && TrailingBlanks(lines, s + 1, cur, empty)
    requires NoBlankRun(lines, s + 1, cur, 3)
    ensures var stop := GrowStop(p, lines, s, cur, empty);
      forall k: nat :: s < k && k + 3 < stop ==> !BlankRun(lines, k, 3)
    decreases |lines| - cur
  {
    if cur < |lines| {
      if IsBlank(lines[cur]) {
        if empty + 1 < 3 {
          ExtendNoBlankRun(lines, 3, s + 1, cur, empty);
          GrowNoBlankRun(p, lines, s, cur + 1, empty + 1);
        }
      } else if DataLine(p, lines[cur]) || !(lines[cur] in p.sectionBreak || cur - s > 50) {
        ExtendNoBlankRun(lines, 3, s + 1, cur, empty);
        GrowNoBlankRun(p, lines, s, cur + 1, 0);
      }
    }
  }

  /**
   * Each data row comes from a non-blank data line of `lines[lo..hi]`, and
   * every such line gives a row.
   */
  lemma {:induction false} DataRowsSource(p: Patterns, lines: seq<string>, lo: nat, hi: nat)
    requires lo <= hi <= |lines|
    ensures forall row :: row in DataRows(p, lines, lo, hi) ==>
      exists k :: lo <= k < hi && !IsBlank(lines[k]) && DataLine(p, lines[k]) && row == p.parse(lines[k])
    ensures forall k :: lo <= k < hi && Taken(p, lines[k]) ==> p.parse(lines[k]) in DataRows(p, lines, lo, hi)
    decreases hi - lo
  {
    if lo < hi {
      DataRowsSource(p, lines, lo, hi - 1);
    }
  }

  /**
   * What `_extract_financial_table` accepts: at least `TABLE_MIN_ROWS` rows,
   * the first the stripped anchor line when it is not empty. The table spans
   * the anchor to the line before the stop, its text is those lines joined,
   * and it counts its rows.
   */
  lemma {:induction false} FinancialTableShape(p: Patterns, cfg: Config, lines: seq<string>, s: nat)
    requires s < |lines|
    ensures var stop := GrowStop(p, lines, s, s + 1, 0);
      var content := Header(lines, s) + DataRows(p, lines, s + 1, stop);
      var r := FinancialTableAt(p, cfg, lines, s);
      (r.Some? <==> |content| >= cfg.minRows) &&
      (r.Some? ==>
        r.value.content == content &&
        (!IsBlank(lines[s]) ==> content != [] && content[0] == [Strip(lines[s])]) &&
        r.value.startLine == s && r.value.endLine == stop - 1 &&
        r.value.originalText == JoinWith(lines[s..stop], "\n") &&
        r.value.rowCount == |content| &&
        r.value.title == TitleAbove(p, lines, s) &&
        r.value.confidence == 95 && r.value.kind == Financial)
  {
    var stop := GrowStop(p, lines, s, s + 1, 0);
    StripEmptyIffBlank(lines[s]);
    RowsSlice(lines, s, stop);
  }

  /** A financial table holds exactly its own lines. */
  lemma {:induction false} FinancialOwnText(p: Patterns, cfg: Config, lines: seq<string>, s: nat)
    requires s < |lines|
    ensures OwnText(cfg, lines, s, FinancialTableAt(p, cfg, lines, s))
  {
    FinancialTableShape(p, cfg, lines, s);
  }

  /**
   * The metrics of a financial table: the column count is the width of its
   * widest row, and its flags say whether a data line after the anchor was
   * monetary or held a '%'.
   */
  lemma {:induction false} FinancialTableMetrics(p: Patterns, cfg: Config, lines: seq<string>, s: nat)
    requires s < |lines|
    ensures var stop := GrowStop(p, lines, s, s + 1, 0);
      var r := FinancialTableAt(p, cfg, lines, s);
      r.Some? ==>
        (forall i :: 0 <= i < |r.value.content| ==> |r.value.content[i]| <= r.value.columnCount) &&
        (r.value.content != [] ==> exists i :: 0 <= i < |r.value.content| && |r.value.content[i]| == r.value.columnCount) &&
        (r.value.hasMonetary <==> exists k :: s < k < stop && Taken(p, lines[k]) && MonetaryLine(lines[k])) &&
        (r.value.hasPercentage <==> exists k :: s < k < stop && Taken(p, lines[k]) && '%' in lines[k])
  {
    var stop := GrowStop(p, lines, s, s + 1, 0);
    var r := FinancialTableAt(p, cfg, lines, s);
    if r.Some? {
      MaxLenBounds(r.value.content);
      MonetaryInIff(p, lines, s + 1, stop);
      PercentInIff(p, lines, s + 1, stop);
    }
  }

  /**
   * The body of the loop of `_extract_financial_table` at a non-blank line: a
   * data line is parsed into a row and updates the flags; another line ends
   * the loop when it is a section break or lies more than 50 lines past the
   * anchor, and is passed over otherwise.
   */
  method ConsiderLine(p: Patterns, lines: seq<string>, startLine: nat, currentLine: nat, ghost empty: nat,
                      ghost header: seq<seq<string>>, tableContent: seq<seq<string>>, hasMonetary: bool, hasPercentage: bool)
      returns (content: seq<seq<string>>, monetary: bool, percentage: bool, stop: bool)
    requires startLine < currentLine < |lines| && !IsBlank(lines[currentLine]) && empty < 3
    requires tableContent == header + DataRows(p, lines, startLine + 1, currentLine)
    requires hasMonetary == MonetaryIn(p, lines, startLine + 1, currentLine)
    requires hasPercentage == PercentIn(p, lines, startLine + 1, currentLine)
    ensures stop <==> !DataLine(p, lines[currentLine]) && (lines[currentLine] in p.sectionBreak || currentLine - startLine > 50)
    ensures stop ==> content == tableContent && monetary == hasMonetary && percentage == hasPercentage
    ensures GrowStop(p, lines, startLine, currentLine, empty) == if stop then currentLine else GrowStop(p, lines, startLine, currentLine + 1, 0)
    ensures !stop ==>
      content == header + DataRows(p, lines, startLine + 1, currentLine + 1) &&
      monetary == MonetaryIn(p, lines, startLine + 1, currentLine + 1) &&
      percentage == PercentIn(p, lines, startLine + 1, currentLine + 1)
  {
    var line := lines[currentLine];
    content, monetary, percentage, stop := tableContent, hasMonetary, hasPercentage, false;
    ghost var rows := DataRows(p, lines, startLine + 1, currentLine);
    if line in p.financialData || line in p.columnar || line in p.multiMonetary {
      AppendAssoc(header, rows, [p.parse(line)]);
      content := content + [p.parse(line)];
      if '$' in line || HasDigit(line) {
        monetary := true;
      }
      if '%' in line {
        percentage := true;
      }
    } else if line in p.sectionBreak || currentLine - startLine > 50 {
      stop := true;
    } else {
      AppendEmpty(rows);
    }
  }

  /**
   * One pass of the loop of `_extract_financial_table`: a blank line is
   * counted, any other line goes to `ConsiderLine`, which resets the count.
   */
  method GrowStep(p: Patterns, lines: seq<string>, startLine: nat, currentLine: nat, consecutiveEmpty: nat,
                  ghost header: seq<seq<string>>, tableContent: seq<seq<string>>, hasMonetary: bool, hasPercentage: bool)
      returns (content: seq<seq<string>>, monetary: bool, percentage: bool, empty: nat, stop: bool)
    requires startLine < currentLine < |lines| && consecutiveEmpty < 3
    requires tableContent == header + DataRows(p, lines, startLine + 1, currentLine)
    requires hasMonetary == MonetaryIn(p, lines, startLine + 1, currentLine)
    requires hasPercentage == PercentIn(p, lines, startLine + 1, currentLine)
    ensures stop ==>
      GrowStop(p, lines, startLine, currentLine, consecutiveEmpty) == currentLine &&
      content == tableContent && monetary == hasMonetary && percentage == hasPercentage
    ensures !stop ==>
      GrowStop(p, lines, startLine, currentLine, consecutiveEmpty) == GrowStop(p, lines, startLine, currentLine + 1, empty) &&
      content == header + DataRows(p, lines, startLine + 1, currentLine + 1) &&
      monetary == MonetaryIn(p, lines, startLine + 1, currentLine + 1) &&
      percentage == PercentIn(p, lines, startLine + 1, currentLine + 1)
  {
    if IsBlank(lines[currentLine]) {
      BlankStep(p, lines, startLine, currentLine, consecutiveEmpty);
      content, monetary, percentage, empty, stop := tableContent, hasMonetary, hasPercentage, consecutiveEmpty + 1, false;
    } else {
      content, monetary, percentage, stop :=
        ConsiderLine(p, lines, startLine, currentLine, consecutiveEmpty, header, tableContent, hasMonetary, hasPercentage);
      empty := 0;
    }
  }

  /** A blank line adds no row and sets no flag; the loop counts it and moves on. */
  lemma {:induction false} BlankStep(p: Patterns, lines: seq<string>, s: nat, cur: nat, empty: nat)
    requires s < cur < |lines| && empty < 3 && IsBlank(lines[cur])
    ensures DataRows(p, lines, s + 1, cur + 1) == DataRows(p, lines, s + 1, cur)
    ensures MonetaryIn(p, lines, s + 1, cur + 1) == MonetaryIn(p, lines, s + 1, cur)
    ensures PercentIn(p, lines, s + 1, cur + 1) == PercentIn(p, lines, s + 1, cur)
    ensures GrowStop(p, lines, s, cur, empty) == GrowStop(p, lines, s, cur + 1, empty + 1)
  {
    AppendEmpty(DataRows(p, lines, s + 1, cur));
  }

  /** Where the loop condition fails, the loop stops. */
  lemma {:induction false} GrowStopExit(p: Patterns, lines: seq<string>, s: nat, cur: nat, empty: nat)
    requires s < cur <= |lines| && (cur == |lines| || empty >= 3)
    ensures GrowStop(p, lines, s, cur, empty) == cur
  {
  }

  /**
   * The loop of `_extract_financial_table`: the header row, then one parsed
   * row per data line, until three blank lines in a row, the end of the text,
   * or a non-data line that is a section break or lies more than 50 lines
   * past the anchor.
   */
  method GrowTable(p: Patterns, lines: seq<string>, startLine: nat)
      returns (tableContent: seq<seq<string>>, currentLine: nat, hasMonetary: bool, hasPercentage: bool)
    requires startLine < |lines|
    ensures currentLine == GrowStop(p, lines, startLine, startLine + 1, 0)
    ensures tableContent == Header(lines, startLine) + DataRows(p, lines, startLine + 1, currentLine)
    ensures hasMonetary == MonetaryIn(p, lines, startLine + 1, currentLine)
    ensures hasPercentage == PercentIn(p, lines, startLine + 1, currentLine)
  {
    tableContent := [];
    hasMonetary, hasPercentage := false, false;
    var headerLine := Strip(lines[startLine]);
    if headerLine != [] {
      tableContent := tableContent + [[headerLine]];
    }
    currentLine := startLine + 1;
    ghost var header := tableContent;
    assert header == Header(lines, startLine);
    AppendEmpty(header);
    var consecutiveEmpty := 0;
    ghost var stopped := false;
    while currentLine < |lines| && consecutiveEmpty < 3
      invariant startLine < currentLine <= |lines|
      invariant !stopped
      invariant GrowStop(p, lines, startLine, currentLine, consecutiveEmpty) == GrowStop(p, lines, startLine, startLine + 1, 0)
      invariant tableContent == header + DataRows(p, lines, startLine + 1, currentLine)
      invariant hasMonetary == MonetaryIn(p, lines, startLine + 1, currentLine)
      invariant hasPercentage == PercentIn(p, lines, startLine + 1, currentLine)
      decreases |lines| - currentLine
    {
      var stop;
      tableContent, hasMonetary, hasPercentage, consecutiveEmpty, stop :=
        GrowStep(p, lines, startLine, currentLine, consecutiveEmpty, header, tableContent, hasMonetary, hasPercentage);
      if stop {
        stopped := true;
        break;
      }
      currentLine := currentLine + 1;
    }
    if !stopped {
      GrowStopExit(p, lines, startLine, currentLine, consecutiveEmpty);
    }
  }

  /** `_extract_financial_table`: the rows, the size test, then the title and the table. */
  method ExtractFinancialTable(p: Patterns, cfg: Config, lines: seq<string>, startLine: nat) returns (table: Option<Table>)
    requires startLine < |lines|
    ensures table == FinancialTableAt(p, cfg, lines, startLine)
  {
    var tableContent, currentLine, hasMonetary, hasPercentage := GrowTable(p, lines, startLine);
    if |tableContent| < cfg.minRows {
      return None;
    }
    var title := ExtractEnhancedTableTitle(p, lines, startLine);
    var columnCount := MaxLen(tableContent);
    var endLine := currentLine - 1;
    var originalText := JoinWith(Rows(lines, startLine, endLine + 1), "\n");
    return Some(Table(tableContent, startLine, endLine, title, 95, Financial, originalText,
      columnCount, |tableContent|, hasMonetary, hasPercentage));
  }

  // ---------------------------------------------------------------------------
  // Pipe tables
  // ---------------------------------------------------------------------------

  /** `s.split(sep)` has one part more than `s` has separators. */
  lemma {:induction false} SplitCount(s: string, sep: char)
    ensures |Split(s, sep)| == Count(s, sep) + 1
    decreases |s|
  {
    if s != [] {
      SplitCount(s[1..], sep);
    }
  }

  /** `[cell.strip() for cell in parts]`. */
  function StripEach(parts: seq<string>): (r: seq<string>)
    ensures |r| == |parts|
  {
    if parts == [] then [] else [Strip(parts[0])] + StripEach(parts[1..])
  }

  lemma {:induction false} StripEachAt(parts: seq<string>, i: nat)
    requires i < |parts|
    ensures StripEach(parts)[i] == Strip(parts[i])
  {
    if i > 0 {
      StripEachAt(parts[1..], i - 1);
    }
  }

  /** An empty first cell and then an empty last cell removed: the cells between the two bounds. */
  function TrimCells(cells: seq<string>): seq<string>
  {
    var lo := if |cells| > 0 && cells[0] == [] then 1 else 0;
    var hi := if |cells| > lo && cells[|cells| - 1] == [] then |cells| - 1 else |cells|;
    Rows(cells, lo, hi)
  }

  /** The cells of a pipe row: the stripped parts between the '|' characters, trimmed at both ends. */
  function Cells(line: string): seq<string>
  {
    TrimCells(StripEach(Split(line, '|')))
  }

  /**
   * A line with `n` '|' characters has between `n - 1` and `n + 1` cells, each
   * stripped: a pipe line gives at least one cell.
   */
  lemma {:induction false} CellsOfLine(line: string)
    ensures var n := Count(line, '|');
      n - 1 <= |Cells(line)| <= n + 1 && (PipeLine(line) ==> |Cells(line)| >= 1)
    ensures forall i :: 0 <= i < |Cells(line)| ==> exists j :: 0 <= j < |Split(line, '|')| && Cells(line)[i] == Strip(Split(line, '|')[j])
  {
    SplitCount(line, '|');
    var parts := StripEach(Split(line, '|'));
    var lo := if |parts| > 0 && parts[0] == [] then 1 else 0;
    var hi := if |parts| > lo && parts[|parts| - 1] == [] then |parts| - 1 else |parts|;
    var cells := Cells(line);
    RowsSlice(parts, lo, hi);
    forall i | 0 <= i < |cells| ensures exists j :: 0 <= j < |Split(line, '|')| && cells[i] == Strip(Split(line, '|')[j]) {
      assert cells[i] == parts[lo + i];
      StripEachAt(Split(line, '|'), lo + i);
    }
  }

  /** Where the pipe loop stops: the first line from `cur` on with fewer than two '|'. */
  function PipeStop(lines: seq<string>, cur: nat): (stop: nat)
    requires cur <= |lines|
    ensures cur <= stop <= |lines|
    decreases |lines| - cur
  {
    if cur == |lines| || !PipeLine(lines[cur]) then cur else PipeStop(lines, cur + 1)
  }

  /** The rows of `lines[lo..hi]`: the cells of each line, when there are any. */
  function PipeContent(lines: seq<string>, lo: nat, hi: nat): seq<seq<string>>
    requires lo <= hi <= |lines|
    decreases hi - lo
  {
    if lo == hi then []
    else PipeContent(lines, lo, hi - 1) + (if Cells(lines[hi - 1]) != [] then [Cells(lines[hi - 1])] else [])
  }

  /** Some cell of `row` holds `c`. */
  predicate RowHas(row: seq<string>, c: char)
    decreases |row|
  {
    row != [] && (RowHas(row[..|row| - 1], c) || c in row[|row| - 1])
  }

  /** `any(c in cell for row in content for cell in row)`. */
  predicate AnyCellHas(content: seq<seq<string>>, c: char)
    decreases |content|
  {
    content != [] && (AnyCellHas(content[..|content| - 1], c) || RowHas(content[|content| - 1], c))
  }

  lemma {:induction false} RowHasIff(row: seq<string>, c: char)
    ensures RowHas(row, c) <==> exists j :: 0 <= j < |row| && c in row[j]
    decreases |row|
  {
    if row != [] {
      var init := row[..|row| - 1];
      RowHasIff(init, c);
      if RowHas(init, c) {
        var j :| 0 <= j < |init| && c in init[j];
        assert row[j] == init[j];
      }
      if exists j :: 0 <= j < |row| && c in row[j] {
        var j :| 0 <= j < |row| && c in row[j];
        if j < |init| {
          assert init[j] == row[j];
        }
      }
    }
  }

  /** Some cell of some row holds `c`, the generator expression read as a quantifier. */
  lemma {:induction false} AnyCellHasIff(content: seq<seq<string>>, c: char)
    ensures AnyCellHas(content, c) <==> exists i, j :: 0 <= i < |content| && 0 <= j < |content[i]| && c in content[i][j]
    decreases |content|
  {
    if content != [] {
      var init := content[..|content| - 1];
      var last := content[|content| - 1];
      AnyCellHasIff(init, c);
      RowHasIff(last, c);
      if AnyCellHas(init, c) {
        var i, j :| 0 <= i < |init| && 0 <= j < |init[i]| && c in init[i][j];
        assert content[i] == init[i];
      }
      if RowHas(last, c) {
        var j :| 0 <= j < |last| && c in last[j];
        assert c in content[|content| - 1][j];
      }
      if exists i, j :: 0 <= i < |content| && 0 <= j < |content[i]| && c in content[i][j] {
        var i, j :| 0 <= i < |content| && 0 <= j < |content[i]| && c in content[i][j];
        if i < |init| {
          assert init[i] == content[i];
        }
      }
    }
  }

  /**
   * `_extract_pipe_table(lines, s)` at a pipe line: the rows of the pipe
   * lines from `s` on, at least `TABLE_MIN_ROWS` of them; the table ends
   * `len(rows) - 1` lines after the anchor. The title comes from the corrected
   * title search (`TitleAbove`), where the search as written raises on a
   * plain caption (`TitleAsWrittenRaises`).
   */
  function PipeTableAt(p: Patterns, cfg: Config, lines: seq<string>, s: nat): (r: Option<Table>)
    requires s < |lines| && PipeLine(lines[s])
    ensures r.Some? ==> r.value.startLine == s <= r.value.endLine < |lines|
  {
    var stop := PipeStop(lines, s);
    var content := PipeContent(lines, s, stop);
    PipeRunCount(lines, s);
    if |content| < cfg.minRows then None
    else
      var endLine := s + |content| - 1;
      Some(Table(content, s, endLine, TitleAbove(p, lines, s), 90, Delimited,
        JoinWith(Rows(lines, s, stop), "\n"), MaxLen(content), |content|,
        AnyCellHas(content, '$'), AnyCellHas(content, '%')))
  }

  /** Over pipe lines, every line gives exactly one row, of at least one cell. */
  lemma {:induction false} PipeContentAll(lines: seq<string>, lo: nat, hi: nat)
    requires lo <= hi <= |lines| && forall k :: lo <= k < hi ==> PipeLine(lines[k])
    ensures var rows := PipeContent(lines, lo, hi);
      |rows| == hi - lo && forall k :: lo <= k < hi ==> rows[k - lo] == Cells(lines[k]) && |rows[k - lo]| >= 1
    decreases hi - lo
  {
    if lo < hi {
      PipeContentAll(lines, lo, hi - 1);
      CellsOfLine(lines[hi - 1]);
    }
  }

  /** Over pipe lines, every line gives one row. */
  lemma {:induction false} PipeContentCount(lines: seq<string>, lo: nat, hi: nat)
    requires lo <= hi <= |lines| && forall k :: lo <= k < hi ==> PipeLine(lines[k])
    ensures |PipeContent(lines, lo, hi)| == hi - lo
    decreases hi - lo
  {
    if lo < hi {
      PipeContentCount(lines, lo, hi - 1);
      CellsOfLine(lines[hi - 1]);
    }
  }

  /** The pipe loop takes the run of pipe lines from `cur` on. */
  lemma {:induction false} PipeStopRun(lines: seq<string>, cur: nat)
    requires cur <= |lines|
    ensures var stop := PipeStop(lines, cur);
      (forall k :: cur <= k < stop ==> PipeLine(lines[k])) && (stop < |lines| ==> !PipeLine(lines[stop]))
    decreases |lines| - cur
  {
    if cur < |lines| && PipeLine(lines[cur]) {
      PipeStopRun(lines, cur + 1);
    }
  }

  /**
   * What `_extract_pipe_table` accepts at a pipe line: one row per pipe line
   * of the run from the anchor on, at least `TABLE_MIN_ROWS` of them. The
   * table ends `rows - 1` lines after the anchor and counts its rows.
   */
  lemma {:induction false} PipeTableShape(p: Patterns, cfg: Config, lines: seq<string>, s: nat)
    requires s < |lines| && PipeLine(lines[s])
    ensures var stop := PipeStop(lines, s);
      var r := PipeTableAt(p, cfg, lines, s);
      (r.Some? <==> stop - s >= cfg.minRows) &&
      (r.Some? ==>
        r.value.content == PipeContent(lines, s, stop) &&
        r.value.rowCount == |r.value.content| == stop - s &&
        r.value.endLine == s + r.value.rowCount - 1 &&
        r.value.title == TitleAbove(p, lines, s) &&
        r.value.confidence == 90 && r.value.kind == Delimited)
  {
    PipeRunCount(lines, s);
  }

  /** The text of a pipe table is the run of pipe lines it was read from, joined by newlines. */
  lemma {:induction false} PipeTableText(p: Patterns, cfg: Config, lines: seq<string>, s: nat)
    requires s < |lines| && PipeLine(lines[s])
    ensures var r := PipeTableAt(p, cfg, lines, s);
      r.Some? ==> r.value.originalText == JoinWith(lines[s..PipeStop(lines, s)], "\n")
  {
    PipeRunRows(lines, s);
  }

  /** A pipe table owns the lines from the anchor to its end, as `OwnText` says. */
  lemma {:induction false} PipeTableOwnText(p: Patterns, cfg: Config, lines: seq<string>, s: nat)
    requires s < |lines| && PipeLine(lines[s])
    ensures OwnText(cfg, lines, s, PipeTableAt(p, cfg, lines, s))
  {
    PipeTableShape(p, cfg, lines, s);
    PipeTableText(p, cfg, lines, s);
    OwnTextOfSpan(cfg, lines, s, PipeStop(lines, s), PipeTableAt(p, cfg, lines, s));
  }

  /** A table that starts at `s`, ends just before `stop`, holds those lines and counts its rows owns its text. */
  lemma {:induction false} OwnTextOfSpan(cfg: Config, lines: seq<string>, s: nat, stop: nat, r: Option<Table>)
    requires s <= stop <= |lines|
    requires r.Some? ==>
      r.value.startLine == s <= r.value.endLine && r.value.endLine + 1 == stop &&
      r.value.originalText == JoinWith(lines[s..stop], "\n") &&
      r.value.rowCount == |r.value.content| >= cfg.minRows
    ensures OwnText(cfg, lines, s, r)
  {
  }

  /** The run of pipe lines from `s` gives one row per line. */
  lemma {:induction false} PipeRunCount(lines: seq<string>, s: nat)
    requires s < |lines|
    ensures |PipeContent(lines, s, PipeStop(lines, s))| == PipeStop(lines, s) - s
  {
    PipeStopRun(lines, s);
    PipeContentCount(lines, s, PipeStop(lines, s));
  }

  /** The run of pipe lines from `s` gives one row per line, and its lines are a slice. */
  lemma {:induction false} PipeRunRows(lines: seq<string>, s: nat)
    requires s < |lines|
    ensures var stop := PipeStop(lines, s);
      |PipeContent(lines, s, stop)| == stop - s && Rows(lines, s, stop) == lines[s..stop]
  {
    PipeRunCount(lines, s);
    RowsSlice(lines, s, PipeStop(lines, s));
  }

  /**
   * The metrics of a pipe table: the column count is the width of its widest
   * row, and its flags say whether a cell holds '$' or '%'.
   */
  lemma {:induction false} PipeTableMetrics(p: Patterns, cfg: Config, lines: seq<string>, s: nat)
    requires s < |lines| && PipeLine(lines[s])
    ensures var r := PipeTableAt(p, cfg, lines, s);
      r.Some? ==>
        (forall i :: 0 <= i < |r.value.content| ==> |r.value.content[i]| <= r.value.columnCount) &&
        (exists i :: 0 <= i < |r.value.content| && |r.value.content[i]| == r.value.columnCount) &&
        (r.value.hasMonetary <==> exists i, j :: 0 <= i < |r.value.content| && 0 <= j < |r.value.content[i]| && '$' in r.value.content[i][j]) &&
        (r.value.hasPercentage <==> exists i, j :: 0 <= i < |r.value.content| && 0 <= j < |r.value.content[i]| && '%' in r.value.content[i][j])
  {
    var r := PipeTableAt(p, cfg, lines, s);
    if r.Some? {
      MaxLenBounds(r.value.content);
      AnyCellHasIff(r.value.content, '$');
      AnyCellHasIff(r.value.content, '%');
    }
  }

  /** The loop of `_extract_pipe_table`: the cells of each pipe line, until the first other line. */
  method PipeRows(lines: seq<string>, startLine: nat) returns (tableContent: seq<seq<string>>)
    requires startLine < |lines|
    ensures tableContent == PipeContent(lines, startLine, PipeStop(lines, startLine))
  {
    tableContent := [];
    var currentLine := startLine;
    while currentLine < |lines|
      invariant startLine <= currentLine <= |lines|
      invariant PipeStop(lines, currentLine) == PipeStop(lines, startLine)
      invariant tableContent == PipeContent(lines, startLine, currentLine)
      decreases |lines| - currentLine
    {
      var line := lines[currentLine];
      if '|' in line && Count(line, '|') >= 2 {
        var cells := PipeCells(line);
        if cells != [] {
          tableContent := tableContent + [cells];
        } else {
          AppendEmpty(tableContent);
        }
        currentLine := currentLine + 1;
      } else {
        break;
      }
    }
  }

  /** The cells of one pipe line: split at '|', stripped, an empty first and last cell dropped. */
  method PipeCells(line: string) returns (cells: seq<string>)
    ensures cells == Cells(line)
  {
    cells := StripEach(Split(line, '|'));
    ghost var parts := cells;
    if |cells| > 0 && cells[0] == [] {
      cells := cells[1..];
    }
    if |cells| > 0 && cells[|cells| - 1] == [] {
      cells := cells[..|cells| - 1];
    }
    ghost var lo := if |parts| > 0 && parts[0] == [] then 1 else 0;
    ghost var hi := if |parts| > lo && parts[|parts| - 1] == [] then |parts| - 1 else |parts|;
    assert cells == parts[lo..hi];
    RowsSlice(parts, lo, hi);
  }

  /** `_extract_pipe_table` at a pipe line: the rows, the size test, then the title and the table. */
  method ExtractPipeTable(p: Patterns, cfg: Config, lines: seq<string>, startLine: nat) returns (table: Option<Table>)
    requires startLine < |lines| && PipeLine(lines[startLine])
    ensures table == PipeTableAt(p, cfg, lines, startLine)
  {
    var tableContent := PipeRows(lines, startLine);
    PipeRunCount(lines, startLine);
    if |tableContent| < cfg.minRows {
      return None;
    }
    var title := ExtractEnhancedTableTitle(p, lines, startLine);
    var endLine := startLine + |tableContent| - 1;
    var originalText := JoinWith(lines[startLine..endLine + 1], "\n");
    JoinedSliceAt(lines, startLine, endLine + 1, PipeStop(lines, startLine));
    var hasMonetary := AnyCellHas(tableContent, '$');
    var hasPercentage := AnyCellHas(tableContent, '%');
    table := Some(Table(tableContent, startLine, endLine, title, 90, Delimited, originalText,
      MaxLen(tableContent), |tableContent|, hasMonetary, hasPercentage));
    SameTable(PipeTableAt(p, cfg, lines, startLine), table);
  }

  /** Two tables that agree field by field are the same table. */
  lemma {:induction false} SameTable(r: Option<Table>, t: Option<Table>)
    requires r.Some? && t.Some?
    requires r.value.content == t.value.content && r.value.startLine == t.value.startLine
    requires r.value.endLine == t.value.endLine && r.value.title == t.value.title
    requires r.value.confidence == t.value.confidence && r.value.kind == t.value.kind
    requires r.value.originalText == t.value.originalText && r.value.columnCount == t.value.columnCount
    requires r.value.rowCount == t.value.rowCount && r.value.hasMonetary == t.value.hasMonetary
    requires r.value.hasPercentage == t.value.hasPercentage
    ensures r == t
  {
  }

  /** The slice of the lines up to `a` joins to the text of the rows up to `b`, when the two bounds agree. */
  lemma {:induction false} JoinedSliceAt(lines: seq<string>, s: nat, a: nat, b: nat)
    requires s <= a == b <= |lines|
    ensures JoinWith(lines[s..a], "\n") == JoinWith(Rows(lines, s, b), "\n")
  {
    RowsSlice(lines, s, b);
  }

  // ---------------------------------------------------------------------------
  // The column re-spacer
  // ---------------------------------------------------------------------------

  /** `_format_table_line`: the stripped line with every whitespace run of two or more replaced by four spaces. */
  function FormatTableLine(line: string): string
  {
    Squeeze(Strip(line), IsSpace, 2, "    ")
  }

  /**
   * The re-spaced line has no whitespace at either end, every whitespace run
   * in it is a single whitespace character or exactly four spaces, and it
   * keeps every other character as often as the line has it.
   */
  lemma {:induction false} FormatTableLineShape(line: string)
    ensures var r := FormatTableLine(line);
      (r == [] || (NotSpace(r[0]) && NotSpace(r[|r| - 1]))) &&
      Settled(r, IsSpace, 2, "    ") &&
      forall c :: NotSpace(c) ==> Count(r, c) == Count(line, c)
  {
    var t := Strip(line);
    StripShape(line);
    if t != [] {
      SqueezeLast(t, IsSpace, 2, "    ");
    }
    SqueezeSettles(t, IsSpace, 2, "    ");
    forall c | NotSpace(c) ensures Count(FormatTableLine(line), c) == Count(line, c) {
      SqueezeCount(t, IsSpace, 2, "    ", c);
      StripCount(line, c);
    }
  }

  /** Re-spacing a re-spaced line changes nothing. */
  lemma {:induction false} FormatTableLineIdempotent(line: string)
    ensures FormatTableLine(FormatTableLine(line)) == FormatTableLine(line)
  {
    var r := FormatTableLine(line);
    FormatTableLineShape(line);
    StripOfStripped(r);
    SqueezeIdempotent(Strip(line), IsSpace, 2, "    ");
  }
}
