/**
 * The base table detector (src/parsers/table_parser.py): three scanning
 * strategies that share one set of consumed line numbers, the extractors
 * that grow a table line by line, the filter that keeps one table per
 * overlap, and the pass that splices the tables back into the text.
 */
module TableParser {
  import opened Wrappers
  import opened Strings
  import opened Sorting
  import opened Runs

  /**
   * The regular-expression tests of the detector, which the model takes as
   * given: each is the set of lines the test accepts.
   */
  datatype Patterns = Patterns(
    financialHeader: iset<string>,  // `_is_financial_table_header`
    financialData: iset<string>,    // `_is_financial_data_line`
    noteOrTotal: iset<string>,      // `_is_table_note_or_total`
    spacedColumns: iset<string>,    // the `\s{3,}`, two-segment test inside `_is_table_line`
    tableHeader: iset<string>,      // `_looks_like_table_header`
    tableData: iset<string>,        // `_looks_like_table_data`
    continuation: iset<string>,     // `_is_table_continuation`
    titleWord: iset<string>)        // a title indicator occurs in `line.lower()`

  /** `TABLE_MIN_ROWS` of the settings module. */
  datatype Config = Config(minRows: nat)

  /** `table_type`. */
  datatype Kind = Financial | Delimited | Aligned

  /**
   * A detected table. Confidences are in hundredths (95 for 0.95). The
   * detector fills `content`, `start_pos` and `end_pos` with constants, so
   * they are left out.
   */
  datatype Table = Table(
    startLine: nat,
    endLine: nat,
    title: Option<string>,
    confidence: nat,
    kind: Kind,
    originalText: string,
    rawLines: seq<string>)

  // ---------------------------------------------------------------------------
  // Line tests
  // ---------------------------------------------------------------------------

  /** The distinct characters of `s`: `set(s)`. */
  function CharSet(s: string): set<char>
  {
    set i | 0 <= i < |s| :: s[i]
  }

  /**
   * `_is_horizontal_delimiter`: the stripped line has at least three
   * characters and, once its spaces are removed, exactly one distinct
   * character, which is '-', '=' or '_'.
   */
  predicate IsHorizontalDelimiter(line: string)
  {
    var stripped := Strip(line);
    |stripped| >= 3 &&
    var unique := CharSet(ReplaceAll(stripped, " ", ""));
    |unique| == 1 && unique <= {'-', '=', '_'}
  }

  /** The number of parts that are not blank. */
  function NonBlankCount(parts: seq<string>): nat
  {
    if parts == [] then 0 else (if IsBlank(parts[0]) then 0 else 1) + NonBlankCount(parts[1..])
  }

  /** The tab rule of `_is_table_line`: a tab, and two parts of `split('\t')` that are not blank. */
  predicate TabColumns(line: string)
  {
    '\t' in line && NonBlankCount(Split(line, '\t')) >= 2
  }

  /** `_is_table_line`. */
  predicate IsTableLine(p: Patterns, line: string)
  {
    line in p.spacedColumns || TabColumns(line) || Count(line, '|') >= 2 ||
    IsHorizontalDelimiter(line) || line in p.financialData
  }

  /** `^\d+$` on a stripped line. */
  predicate AllDigits(s: string)
  {
    |s| > 0 && forall i :: 0 <= i < |s| ==> IsDigit(s[i])
  }

  /** The characters left after `s.replace(' ', '')` are those of `s` other than the space. */
  lemma {:induction false} NoSpacesChars(s: string, c: char)
    ensures c in ReplaceAll(s, " ", "") <==> c in s && c != ' '
    decreases |s|
  {
    if s != [] {
      NoSpacesChars(s[1..], c);
      if s[..1] == " " {
        assert s[0] == ' ';
      }
      assert s == [s[0]] + s[1..];
    }
    if c == ' ' {
      ReplaceRemoves(s, ' ', "");
    }
  }

  /** A set of one element. */
  lemma {:induction false} SingletonSet(u: set<char>)
    requires |u| == 1
    ensures exists c :: u == {c}
  {
    var c :| c in u;
    assert |u - {c}| == 0;
    assert u == {c};
  }

  /**
   * A reference reading of `_is_horizontal_delimiter`: the stripped line has
   * at least three characters, each of them a space or one and the same
   * rule character.
   */
  lemma {:induction false} HorizontalDelimiterIff(line: string)
    ensures IsHorizontalDelimiter(line) <==>
      |Strip(line)| >= 3 &&
      exists c :: c in "-=_" && forall i :: 0 <= i < |Strip(line)| ==> Strip(line)[i] in {c, ' '}
  {
    var t := Strip(line);
    var u := ReplaceAll(t, " ", "");
    forall c ensures c in u <==> c in t && c != ' ' {
      NoSpacesChars(t, c);
    }
    if IsHorizontalDelimiter(line) {
      SingletonSet(CharSet(u));
      var c :| CharSet(u) == {c};
      assert c in "-=_";
      forall i | 0 <= i < |t| ensures t[i] in {c, ' '} {
        if t[i] != ' ' {
          assert t[i] in u;
          var j :| 0 <= j < |u| && u[j] == t[i];
          assert t[i] in CharSet(u);
        }
      }
    }
    if |t| >= 3 && exists c :: c in "-=_" && forall i :: 0 <= i < |t| ==> t[i] in {c, ' '} {
      var c :| c in "-=_" && forall i :: 0 <= i < |t| ==> t[i] in {c, ' '};
      StripShape(line);
      assert t[0] != ' ' && t[0] == c;
      assert c in u;
      forall x | x in CharSet(u) ensures x == c {
        var j :| 0 <= j < |u| && u[j] == x;
        assert x in u;
        var i :| 0 <= i < |t| && t[i] == x;
      }
      var j :| 0 <= j < |u| && u[j] == c;
      assert CharSet(u) == {c};
    }
  }

  /** "-=-" mixes two rule characters and is not a delimiter; "- - -" is one. */
  lemma {:induction false} HorizontalDelimiterExamples()
    ensures !IsHorizontalDelimiter("-=-")
    ensures IsHorizontalDelimiter("- - -")
  {
    StripOfStripped("-=-");
    StripOfStripped("- - -");
    HorizontalDelimiterIff("-=-");
    HorizontalDelimiterIff("- - -");
    var t := "- - -";
    assert forall i :: 0 <= i < |t| ==> t[i] in {'-', ' '};
    assert '-' in "-=_";
  }

  // ---------------------------------------------------------------------------
  // Titles
  // ---------------------------------------------------------------------------

  /** What `_extract_table_title` accepts as a title, once the line is stripped. */
  predicate TitleLike(p: Patterns, t: string)
  {
    t != [] && |t| < 200 && !IsTableLine(p, t) && t !in p.financialData &&
    t[|t| - 1] != '.' && !AllDigits(t) &&
    (t in p.titleWord || |t| > 10)
  }

  /** The stripped line `k` lines above index `ts`. */
  function Above(lines: seq<string>, ts: nat, k: nat): string
    requires 1 <= k <= ts <= |lines|
  {
    Strip(lines[ts - k])
  }

  /** The title test as a function value, for the search below. */
  function TitleTest(p: Patterns): string -> bool { t => TitleLike(p, t) }

  /**
   * The title loop from offset `i` on, for a title test `like`: `i` runs up
   * to `min(window, ts + 1)`, and the first stripped line that passes is the
   * title.
   */
  function TitleFrom(like: string -> bool, lines: seq<string>, ts: nat, i: nat, window: nat): Option<string>
    requires ts <= |lines| && 1 <= i
    decreases window - i
  {
    if i >= Min(window, ts + 1) then None
    else if like(Above(lines, ts, i)) then Some(Above(lines, ts, i))
    else TitleFrom(like, lines, ts, i + 1, window)
  }

  /** `_extract_table_title(lines, ts)`: the three lines above the table. */
  function TitleAt(p: Patterns, lines: seq<string>, ts: nat): Option<string>
    requires ts <= |lines|
  {
    TitleFrom(TitleTest(p), lines, ts, 1, 4)
  }

  /** There is no title exactly when none of the lines in the window passes the test. */
  lemma {:induction false} TitleFromNone(like: string -> bool, lines: seq<string>, ts: nat, i: nat, window: nat)
    requires ts <= |lines| && 1 <= i
    ensures TitleFrom(like, lines, ts, i, window).None? <==>
      forall k :: i <= k < Min(window, ts + 1) ==> !like(Above(lines, ts, k))
    decreases window - i
  {
    if i < Min(window, ts + 1) && !like(Above(lines, ts, i)) {
      TitleFromNone(like, lines, ts, i + 1, window);
    }
  }

  /** A title found is the nearest line above the table that passes the test; `k` is its distance. */
  lemma {:induction false} TitleFromFirst(like: string -> bool, lines: seq<string>, ts: nat, i: nat, window: nat) returns (k: nat)
    requires ts <= |lines| && 1 <= i && TitleFrom(like, lines, ts, i, window).Some?
    ensures i <= k < Min(window, ts + 1)
    ensures TitleFrom(like, lines, ts, i, window).value == Above(lines, ts, k) && like(Above(lines, ts, k))
    ensures forall k' :: i <= k' < k ==> !like(Above(lines, ts, k'))
    decreases window - i
  {
    if like(Above(lines, ts, i)) {
      k := i;
    } else {
      k := TitleFromFirst(like, lines, ts, i + 1, window);
    }
  }

  /**
   * The title is the nearest of the (up to) three lines above the table whose
   * stripped text looks like a title; there is none when none of them does.
   */
  lemma {:induction false} TitleAtNearest(p: Patterns, lines: seq<string>, ts: nat)
    requires ts <= |lines|
    ensures TitleAt(p, lines, ts).None? <==> forall k :: 1 <= k < Min(4, ts + 1) ==> !TitleLike(p, Above(lines, ts, k))
    ensures TitleAt(p, lines, ts).Some? ==>
      exists k :: 1 <= k < Min(4, ts + 1) && TitleAt(p, lines, ts).value == Above(lines, ts, k) &&
        TitleLike(p, Above(lines, ts, k)) && forall k' :: 1 <= k' < k ==> !TitleLike(p, Above(lines, ts, k'))
  {
    TitleFromNone(TitleTest(p), lines, ts, 1, 4);
    if TitleAt(p, lines, ts).Some? {
      var k := TitleFromFirst(TitleTest(p), lines, ts, 1, 4);
      assert TitleLike(p, Above(lines, ts, k));
    }
  }

  /** `_extract_table_title`: the `for` loop over the lines above the table. */
  method ExtractTableTitle(p: Patterns, lines: seq<string>, tableStart: nat) returns (title: Option<string>)
    requires tableStart <= |lines|
    ensures title == TitleAt(p, lines, tableStart)
  {
    for i := 1 to Min(4, tableStart + 1)
      invariant TitleFrom(TitleTest(p), lines, tableStart, i, 4) == TitleAt(p, lines, tableStart)
    {
      var line := Above(lines, tableStart, i);
      if line == [] {
        continue;
      }
      if |line| < 200 && !IsTableLine(p, line) && line !in p.financialData &&
         line[|line| - 1] != '.' && !AllDigits(line) {
        if line in p.titleWord {
          return Some(line);
        }
        if |line| > 10 {
          return Some(line);
        }
      }
    }
    return None;
  }

  // ---------------------------------------------------------------------------
  // The extractors
  // ---------------------------------------------------------------------------

  /** A non-blank line `_extract_financial_table` keeps: a table line, financial data, a continuation, a note or a total. */
  predicate FinancialRow(p: Patterns, line: string)
  {
    IsTableLine(p, line) || line in p.financialData || line in p.continuation || line in p.noteOrTotal
  }

  /** A non-blank line `_extract_delimited_table` keeps: table data or a continuation. */
  predicate DelimitedRow(p: Patterns, line: string)
  {
    line in p.tableData || line in p.continuation
  }

  /** A non-blank line `_extract_pipe_table` keeps: one holding a '|', or a continuation. */
  predicate PipeRow(p: Patterns, line: string)
  {
    '|' in line || line in p.continuation
  }

  /** A non-blank line `_extract_aligned_table` keeps: a table line, financial data or a continuation. */
  predicate AlignedRow(p: Patterns, line: string)
  {
    IsTableLine(p, line) || line in p.financialData || line in p.continuation
  }

  function FinancialKeep(p: Patterns): string -> bool { line => FinancialRow(p, line) }
  function DelimitedKeep(p: Patterns): string -> bool { line => DelimitedRow(p, line) }
  function PipeKeep(p: Patterns): string -> bool { line => PipeRow(p, line) }
  function AlignedKeep(p: Patterns): string -> bool { line => AlignedRow(p, line) }

  /** The table over `lines[start..stop]`: its raw lines, and their text joined by newlines. */
  function MakeTable(lines: seq<string>, start: nat, stop: nat, title: Option<string>, confidence: nat, kind: Kind): Table
    requires start < stop <= |lines|
  {
    var raw := Rows(lines, start, stop);
    Table(start, stop - 1, title, confidence, kind, JoinWith(raw, "\n"), raw)
  }

  /** The title rule of `_extract_financial_table`: the stripped line above, unless it is a table line, blank or too long. */
  function FinancialTitle(p: Patterns, lines: seq<string>, s: nat): Option<string>
    requires s <= |lines|
  {
    if s > 0 && !IsTableLine(p, lines[s - 1]) && !IsBlank(lines[s - 1]) && |Strip(lines[s - 1])| < 200
    then Some(Strip(lines[s - 1]))
    else None
  }

  /**
   * `_extract_financial_table(lines, s)`: at least `TABLE_MIN_ROWS` lines
   * from `s` on and a digit seen; a title line above moves the start up by
   * one line.
   */
  function FinancialTableAt(p: Patterns, cfg: Config, lines: seq<string>, s: nat): (r: Option<Table>)
    requires cfg.minRows >= 1 && s <= |lines|
    ensures r.Some? ==> r.value.startLine <= s <= r.value.endLine < |lines|
  {
    var title := FinancialTitle(p, lines, s);
    var start := if title.Some? then s - 1 else s;
    var run := Collect(lines, FinancialKeep(p), 3, s, 0, false);
    if run.stop - s < cfg.minRows || !run.digit then None
    else Some(MakeTable(lines, start, run.stop, title, 95, Financial))
  }

  /**
   * `_extract_delimited_table(lines, d)`: the line above the delimiter, when
   * there is one, must not be blank and heads the table; rows follow the
   * delimiter, at most one blank line in a row.
   */
  function DelimitedTableAt(p: Patterns, cfg: Config, lines: seq<string>, d: nat): (r: Option<Table>)
    requires d < |lines|
    ensures r.Some? ==> r.value.startLine <= d <= r.value.endLine < |lines|
  {
    if d > 0 && IsBlank(lines[d - 1]) then None
    else
      var start := if d > 0 then d - 1 else d;
      var run := Collect(lines, DelimitedKeep(p), 2, d + 1, 0, false);
      if run.stop - start < cfg.minRows then None
      else Some(MakeTable(lines, start, run.stop, TitleAt(p, lines, start), 90, Delimited))
  }

  /** `_extract_pipe_table(lines, s)`: the lines from `s` on that hold a '|' or continue the table. */
  function PipeTableAt(p: Patterns, cfg: Config, lines: seq<string>, s: nat): (r: Option<Table>)
    requires s < |lines| && '|' in lines[s]
    ensures r.Some? ==> r.value.startLine == s <= r.value.endLine < |lines|
  {
    var run := Collect(lines, PipeKeep(p), 1, s, 0, false);
    if run.stop - s < cfg.minRows then None
    else Some(MakeTable(lines, s, run.stop, TitleAt(p, lines, s), 95, Delimited))
  }

  /** `_extract_aligned_table(lines, s)`: the header line, then rows, at most one blank line in a row, and a digit seen. */
  function AlignedTableAt(p: Patterns, cfg: Config, lines: seq<string>, s: nat): (r: Option<Table>)
    requires s < |lines|
    ensures r.Some? ==> r.value.startLine == s <= r.value.endLine < |lines|
  {
    var run := Collect(lines, AlignedKeep(p), 2, s + 1, 0, false);
    if run.stop - s < cfg.minRows || !run.digit then None
    else Some(MakeTable(lines, s, run.stop, TitleAt(p, lines, s), 80, Aligned))
  }

  /**
   * What `_extract_financial_table` accepts: at least `TABLE_MIN_ROWS` lines
   * from the anchor on, each blank or kept for a reason, no three blank lines
   * in a row, and a digit on one of them or on the line that ended the loop.
   */
  lemma {:induction false} FinancialTableShape(p: Patterns, cfg: Config, lines: seq<string>, s: nat)
    requires cfg.minRows >= 1 && s <= |lines|
    ensures var run := Collect(lines, FinancialKeep(p), 3, s, 0, false);
      var r := FinancialTableAt(p, cfg, lines, s);
      (r.Some? <==> run.stop - s >= cfg.minRows && HasDigitIn(lines, s, Min(run.stop + 1, |lines|))) &&
      (r.Some? ==>
        r.value.endLine == run.stop - 1 &&
        r.value.title == FinancialTitle(p, lines, s) &&
        r.value.startLine == (if r.value.title.Some? then s - 1 else s) &&
        r.value.rawLines == lines[r.value.startLine..r.value.endLine + 1] &&
        r.value.confidence == 95 && r.value.kind == Financial)
  {
    CollectDigit(lines, FinancialKeep(p), 3, s, 0, false);
    var r := FinancialTableAt(p, cfg, lines, s);
    if r.Some? {
      RowsSlice(lines, r.value.startLine, r.value.endLine + 1);
    }
  }

  /**
   * The lines `_extract_financial_table` keeps from the anchor on: each blank
   * or kept for a reason, no three blank lines in a row, and the loop ends at
   * a line it cannot keep or at a third blank line in a row.
   */
  lemma {:induction false} FinancialRowsShape(p: Patterns, lines: seq<string>, s: nat)
    requires s <= |lines|
    ensures var run := Collect(lines, FinancialKeep(p), 3, s, 0, false);
      NoBlankRun(lines, s, run.stop, 3) &&
      (forall k :: s <= k < run.stop ==> IsBlank(lines[k]) || FinancialRow(p, lines[k])) &&
      (run.stop < |lines| ==>
        (!IsBlank(lines[run.stop]) && !FinancialRow(p, lines[run.stop])) ||
        (IsBlank(lines[run.stop]) && s + 2 <= run.stop && BlankRun(lines, run.stop - 2, 2)))
  {
    CollectKeeps(lines, FinancialKeep(p), 3, s, 0, false);
    CollectNoBlankRun(lines, FinancialKeep(p), 3, s, s, 0, false);
    CollectStops(lines, FinancialKeep(p), 3, s, s, 0, false);
  }

  /**
   * What `_extract_delimited_table` accepts: the line above the delimiter is
   * not blank, and at least `TABLE_MIN_ROWS` lines counting it.
   */
  lemma {:induction false} DelimitedTableShape(p: Patterns, cfg: Config, lines: seq<string>, d: nat)
    requires d < |lines|
    ensures var run := Collect(lines, DelimitedKeep(p), 2, d + 1, 0, false);
      var start := if d > 0 then d - 1 else d;
      var r := DelimitedTableAt(p, cfg, lines, d);
      (r.Some? <==> !(d > 0 && IsBlank(lines[d - 1])) && run.stop - start >= cfg.minRows) &&
      (r.Some? ==>
        r.value.startLine == start && r.value.endLine == run.stop - 1 &&
        r.value.rawLines == lines[start..run.stop] &&
        r.value.title == TitleAt(p, lines, start) &&
        r.value.confidence == 90 && r.value.kind == Delimited)
  {
    var r := DelimitedTableAt(p, cfg, lines, d);
    if r.Some? {
      RowsSlice(lines, r.value.startLine, r.value.endLine + 1);
    }
  }

  /**
   * The lines `_extract_delimited_table` keeps after the delimiter: blank
   * lines or table data, never two blank lines in a row, up to a line it
   * cannot keep or a second blank line in a row.
   */
  lemma {:induction false} DelimitedRowsShape(p: Patterns, lines: seq<string>, d: nat)
    requires d < |lines|
    ensures var run := Collect(lines, DelimitedKeep(p), 2, d + 1, 0, false);
      NoBlankRun(lines, d + 1, run.stop, 2) &&
      (forall k :: d < k < run.stop ==> IsBlank(lines[k]) || DelimitedRow(p, lines[k])) &&
      (run.stop < |lines| ==>
        (!IsBlank(lines[run.stop]) && !DelimitedRow(p, lines[run.stop])) ||
        (IsBlank(lines[run.stop]) && d + 2 <= run.stop && IsBlank(lines[run.stop - 1])))
  {
    CollectKeeps(lines, DelimitedKeep(p), 2, d + 1, 0, false);
    CollectNoBlankRun(lines, DelimitedKeep(p), 2, d + 1, d + 1, 0, false);
    CollectStops(lines, DelimitedKeep(p), 2, d + 1, d + 1, 0, false);
  }

  /** What `_extract_pipe_table` accepts: at least `TABLE_MIN_ROWS` lines from the anchor on. */
  lemma {:induction false} PipeTableShape(p: Patterns, cfg: Config, lines: seq<string>, s: nat)
    requires s < |lines| && '|' in lines[s]
    ensures var run := Collect(lines, PipeKeep(p), 1, s, 0, false);
      var r := PipeTableAt(p, cfg, lines, s);
      (r.Some? <==> run.stop - s >= cfg.minRows) &&
      (r.Some? ==>
        r.value.endLine == s + |r.value.rawLines| - 1 &&
        r.value.rawLines == lines[s..run.stop] &&
        r.value.title == TitleAt(p, lines, s) &&
        r.value.confidence == 95 && r.value.kind == Delimited)
  {
    var run := Collect(lines, PipeKeep(p), 1, s, 0, false);
    if run.stop > s {
      RowsSlice(lines, s, run.stop);
    }
  }

  /**
   * The lines `_extract_pipe_table` keeps: none blank, each holding a '|' or
   * continuing the table, up to the first line that does neither.
   */
  lemma {:induction false} PipeRowsShape(p: Patterns, lines: seq<string>, s: nat)
    requires s < |lines|
    ensures var run := Collect(lines, PipeKeep(p), 1, s, 0, false);
      (forall k :: s <= k < run.stop ==> !IsBlank(lines[k]) && PipeRow(p, lines[k])) &&
      (run.stop < |lines| ==> IsBlank(lines[run.stop]) || !PipeRow(p, lines[run.stop]))
  {
    CollectKeeps(lines, PipeKeep(p), 1, s, 0, false);
    CollectNoBlankRun(lines, PipeKeep(p), 1, s, s, 0, false);
    CollectStops(lines, PipeKeep(p), 1, s, s, 0, false);
    var run := Collect(lines, PipeKeep(p), 1, s, 0, false);
    forall k | s <= k < run.stop ensures !IsBlank(lines[k]) {
      assert !BlankRun(lines, k, 1);
    }
  }

  /**
   * What `_extract_aligned_table` accepts: the header and at least
   * `TABLE_MIN_ROWS - 1` more lines, and a digit on a line after the header.
   */
  lemma {:induction false} AlignedTableShape(p: Patterns, cfg: Config, lines: seq<string>, s: nat)
    requires s < |lines|
    ensures var run := Collect(lines, AlignedKeep(p), 2, s + 1, 0, false);
      var r := AlignedTableAt(p, cfg, lines, s);
      (r.Some? <==> run.stop - s >= cfg.minRows && HasDigitIn(lines, s + 1, Min(run.stop + 1, |lines|))) &&
      (r.Some? ==>
        r.value.endLine == run.stop - 1 &&
        r.value.rawLines == lines[s..run.stop] &&
        r.value.title == TitleAt(p, lines, s) &&
        r.value.confidence == 80 && r.value.kind == Aligned)
  {
    CollectDigit(lines, AlignedKeep(p), 2, s + 1, 0, false);
    var run := Collect(lines, AlignedKeep(p), 2, s + 1, 0, false);
    RowsSlice(lines, s, run.stop);
  }

  /**
   * The lines `_extract_aligned_table` keeps after the header: blank or kept
   * for a reason, never two blank lines in a row, up to a line it cannot
   * keep or a second blank line in a row.
   */
  lemma {:induction false} AlignedRowsShape(p: Patterns, lines: seq<string>, s: nat)
    requires s < |lines|
    ensures var run := Collect(lines, AlignedKeep(p), 2, s + 1, 0, false);
      NoBlankRun(lines, s + 1, run.stop, 2) &&
      (forall k :: s < k < run.stop ==> IsBlank(lines[k]) || AlignedRow(p, lines[k])) &&
      (run.stop < |lines| ==>
        (!IsBlank(lines[run.stop]) && !AlignedRow(p, lines[run.stop])) ||
        (IsBlank(lines[run.stop]) && s + 2 <= run.stop && IsBlank(lines[run.stop - 1])))
  {
    CollectKeeps(lines, AlignedKeep(p), 2, s + 1, 0, false);
    CollectNoBlankRun(lines, AlignedKeep(p), 2, s + 1, s + 1, 0, false);
    CollectStops(lines, AlignedKeep(p), 2, s + 1, s + 1, 0, false);
  }

  /** The loop of `_extract_financial_table`: `table_raw_lines` and `has_numeric_data` when it ends. */
  method FinancialRows(p: Patterns, lines: seq<string>, startIdx: nat) returns (tableRawLines: seq<string>, hasNumericData: bool)
    requires startIdx <= |lines|
    ensures var run := Collect(lines, FinancialKeep(p), 3, startIdx, 0, false);
      tableRawLines == Rows(lines, startIdx, run.stop) && hasNumericData == run.digit
  {
    tableRawLines := [];
    hasNumericData := false;
    var current := startIdx;
    var consecutiveEmpty := 0;
    while current < |lines|
      invariant startIdx <= current <= |lines| && consecutiveEmpty <= 2
      invariant tableRawLines == Rows(lines, startIdx, current)
      invariant Collect(lines, FinancialKeep(p), 3, current, consecutiveEmpty, hasNumericData) ==
                Collect(lines, FinancialKeep(p), 3, startIdx, 0, false)
    {
      var line := lines[current];
      if IsBlank(line) {
        consecutiveEmpty := consecutiveEmpty + 1;
        if consecutiveEmpty > 2 {
          break;
        }
        tableRawLines := tableRawLines + [line];
      } else {
        consecutiveEmpty := 0;
        if HasDigit(line) {
          hasNumericData := true;
        }
        if IsTableLine(p, line) || line in p.financialData || line in p.continuation {
          tableRawLines := tableRawLines + [line];
        } else if line in p.noteOrTotal {
          tableRawLines := tableRawLines + [line];
        } else {
          break;
        }
      }
      current := current + 1;
    }
  }

  /** `_extract_financial_table`: the title test, then the rows, then the size and digit tests. */
  method ExtractFinancialTable(p: Patterns, cfg: Config, lines: seq<string>, startIdx: nat) returns (table: Option<Table>)
    requires cfg.minRows >= 1 && startIdx <= |lines|
    ensures table == FinancialTableAt(p, cfg, lines, startIdx)
  {
    var tableStart := startIdx;
    var title: Option<string> := None;
    if startIdx > 0 && !IsTableLine(p, lines[startIdx - 1]) {
      var potentialTitle := Strip(lines[startIdx - 1]);
      StripEmptyIffBlank(lines[startIdx - 1]);
      if potentialTitle != [] && |potentialTitle| < 200 {
        title := Some(potentialTitle);
        tableStart := startIdx - 1;
      }
    }
    var tableRawLines, hasNumericData := FinancialRows(p, lines, startIdx);
    if |tableRawLines| < cfg.minRows || !hasNumericData {
      return None;
    }
    var tableEnd := startIdx + |tableRawLines| - 1;
    var raw := Rows(lines, tableStart, tableEnd + 1);
    return Some(Table(tableStart, tableEnd, title, 95, Financial, JoinWith(raw, "\n"), raw));
  }

  /**
   * The loop of `_extract_delimited_table` after the delimiter: the rows it
   * appends. At most one blank line in a row is appended; the second ends it.
   */
  method DelimitedRows(p: Patterns, lines: seq<string>, delimiterLine: nat) returns (rows: seq<string>)
    requires delimiterLine < |lines|
    ensures rows == Rows(lines, delimiterLine + 1, Collect(lines, DelimitedKeep(p), 2, delimiterLine + 1, 0, false).stop)
  {
    rows := [];
    ghost var run := Collect(lines, DelimitedKeep(p), 2, delimiterLine + 1, 0, false);
    ghost var digit := false;
    var currentLine := delimiterLine + 1;
    var consecutiveEmpty := 0;
    while currentLine < |lines| && consecutiveEmpty < 2
      invariant delimiterLine + 1 <= currentLine <= |lines| && consecutiveEmpty <= 2
      invariant consecutiveEmpty < 2 ==>
        rows == Rows(lines, delimiterLine + 1, currentLine) &&
        Collect(lines, DelimitedKeep(p), 2, currentLine, consecutiveEmpty, digit) == run
      invariant consecutiveEmpty == 2 ==>
        delimiterLine + 2 <= currentLine && rows == Rows(lines, delimiterLine + 1, currentLine - 1) &&
        run.stop == currentLine - 1
    {
      var line := lines[currentLine];
      if IsBlank(line) {
        consecutiveEmpty := consecutiveEmpty + 1;
        if consecutiveEmpty == 1 {
          rows := rows + [line];
        }
      } else {
        consecutiveEmpty := 0;
        digit := digit || HasDigit(line);
        if line in p.tableData || line in p.continuation {
          rows := rows + [line];
        } else {
          break;
        }
      }
      currentLine := currentLine + 1;
    }
  }

  /** `_extract_delimited_table`: the header above the delimiter, the delimiter, then the rows. */
  method ExtractDelimitedTable(p: Patterns, cfg: Config, lines: seq<string>, delimiterLine: nat) returns (table: Option<Table>)
    requires delimiterLine < |lines|
    ensures table == DelimitedTableAt(p, cfg, lines, delimiterLine)
  {
    if delimiterLine > 0 && IsBlank(lines[delimiterLine - 1]) {
      return None;
    }
    var tableStart := if delimiterLine > 0 then delimiterLine - 1 else delimiterLine;
    var tableRawLines: seq<string> := [];
    if delimiterLine > 0 {
      tableRawLines := tableRawLines + [lines[delimiterLine - 1]];
    }
    tableRawLines := tableRawLines + [lines[delimiterLine]];
    assert tableRawLines == Rows(lines, tableStart, delimiterLine + 1);
    var rows := DelimitedRows(p, lines, delimiterLine);
    ghost var stop := Collect(lines, DelimitedKeep(p), 2, delimiterLine + 1, 0, false).stop;
    RowsAppend(lines, tableStart, delimiterLine + 1, stop);
    tableRawLines := tableRawLines + rows;
    if |tableRawLines| < cfg.minRows {
      return None;
    }
    var title := ExtractTableTitle(p, lines, tableStart);
    var endLine := tableStart + |tableRawLines| - 1;
    return Some(Table(tableStart, endLine, title, 90, Delimited, JoinWith(tableRawLines, "\n"), tableRawLines));
  }

  /** The loop of `_extract_pipe_table`: the lines holding a '|' and the non-blank continuations, up to the first other line. */
  method PipeRows(p: Patterns, lines: seq<string>, startLine: nat) returns (tableRawLines: seq<string>)
    requires startLine < |lines|
    ensures tableRawLines == Rows(lines, startLine, Collect(lines, PipeKeep(p), 1, startLine, 0, false).stop)
  {
    tableRawLines := [];
    var currentLine := startLine;
    ghost var digit := false;
    while currentLine < |lines|
      invariant startLine <= currentLine <= |lines|
      invariant tableRawLines == Rows(lines, startLine, currentLine)
      invariant Collect(lines, PipeKeep(p), 1, currentLine, 0, digit) == Collect(lines, PipeKeep(p), 1, startLine, 0, false)
    {
      var line := lines[currentLine];
      if '|' in line {
        ghost var j :| 0 <= j < |line| && line[j] == '|';
        assert !IsSpace(line[j]);
        digit := digit || HasDigit(line);
        tableRawLines := tableRawLines + [line];
        currentLine := currentLine + 1;
      } else {
        if !IsBlank(line) && line in p.continuation {
          digit := digit || HasDigit(line);
          tableRawLines := tableRawLines + [line];
          currentLine := currentLine + 1;
        } else {
          break;
        }
      }
    }
  }

  /** `_extract_pipe_table`: the rows, then the size test and the title. */
  method ExtractPipeTable(p: Patterns, cfg: Config, lines: seq<string>, startLine: nat) returns (table: Option<Table>)
    requires startLine < |lines| && '|' in lines[startLine]
    ensures table == PipeTableAt(p, cfg, lines, startLine)
  {
    var tableRawLines := PipeRows(p, lines, startLine);
    if |tableRawLines| < cfg.minRows {
      return None;
    }
    var title := ExtractTableTitle(p, lines, startLine);
    var endLine := startLine + |tableRawLines| - 1;
    return Some(Table(startLine, endLine, title, 95, Delimited, JoinWith(tableRawLines, "\n"), tableRawLines));
  }

  /** The loop of `_extract_aligned_table` after the header: the rows it appends and `has_numeric_data`. */
  method AlignedRows(p: Patterns, lines: seq<string>, startLine: nat) returns (rows: seq<string>, hasNumericData: bool)
    requires startLine < |lines|
    ensures var run := Collect(lines, AlignedKeep(p), 2, startLine + 1, 0, false);
      rows == Rows(lines, startLine + 1, run.stop) && hasNumericData == run.digit
  {
    rows := [];
    ghost var run := Collect(lines, AlignedKeep(p), 2, startLine + 1, 0, false);
    var currentLine := startLine + 1;
    var consecutiveEmpty := 0;
    hasNumericData := false;
    while currentLine < |lines| && consecutiveEmpty < 2
      invariant startLine + 1 <= currentLine <= |lines| && consecutiveEmpty <= 2
      invariant consecutiveEmpty < 2 ==>
        rows == Rows(lines, startLine + 1, currentLine) &&
        Collect(lines, AlignedKeep(p), 2, currentLine, consecutiveEmpty, hasNumericData) == run
      invariant consecutiveEmpty == 2 ==>
        startLine + 2 <= currentLine && rows == Rows(lines, startLine + 1, currentLine - 1) &&
        run == Run(currentLine - 1, hasNumericData)
    {
      var line := lines[currentLine];
      if IsBlank(line) {
        consecutiveEmpty := consecutiveEmpty + 1;
        if consecutiveEmpty == 1 {
          rows := rows + [line];
        }
        currentLine := currentLine + 1;
        continue;
      } else {
        consecutiveEmpty := 0;
      }
      if HasDigit(line) {
        hasNumericData := true;
      }
      if IsTableLine(p, line) || line in p.financialData || line in p.continuation {
        rows := rows + [line];
      } else {
        break;
      }
      currentLine := currentLine + 1;
    }
  }

  /** `_extract_aligned_table`: the header line, then the rows, then the size and digit tests. */
  method ExtractAlignedTable(p: Patterns, cfg: Config, lines: seq<string>, startLine: nat) returns (table: Option<Table>)
    requires startLine < |lines|
    ensures table == AlignedTableAt(p, cfg, lines, startLine)
  {
    var rows, hasNumericData := AlignedRows(p, lines, startLine);
    ghost var stop := Collect(lines, AlignedKeep(p), 2, startLine + 1, 0, false).stop;
    RowsAppend(lines, startLine, startLine + 1, stop);
    assert [lines[startLine]] == Rows(lines, startLine, startLine + 1);
    var tableRawLines := [lines[startLine]] + rows;
    if |tableRawLines| < cfg.minRows || !hasNumericData {
      return None;
    }
    var title := ExtractTableTitle(p, lines, startLine);
    var endLine := startLine + |tableRawLines| - 1;
    return Some(Table(startLine, endLine, title, 80, Aligned, JoinWith(tableRawLines, "\n"), tableRawLines));
  }
}
