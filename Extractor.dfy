/**
 * The line machinery of the MD&A extractor (src/core/extractor.py): mapping
 * the section's character offsets to line numbers, recognising a table region
 * that starts at a line, and the pass that fences table regions verbatim
 * between markers and tidies the prose lines around them.
 */
module Extractor {
  import opened Wrappers
  import opened Strings

  /**
   * The regular-expression tests of the extractor, which the model takes as
   * given: each is the set of lines the test accepts.
   */
  datatype Patterns = Patterns(
    tableHeader: iset<string>,    // `_is_table_header`
    columnar: iset<string>,       // the tab / three-space, two-segment test inside `_is_table_line`
    financialData: iset<string>,  // `_contains_financial_data`
    continuation: iset<string>)   // `_is_table_continuation`

  const BeginTable: string := "--- BEGIN TABLE ---"
  const EndTable: string := "--- END TABLE ---"

  // ---------------------------------------------------------------------------
  // Offsets to lines
  // ---------------------------------------------------------------------------

  /** Offset of the first character of `lines[i]` in `'\n'.join(lines)`: each earlier line and its '\n'. */
  function LineStart(lines: seq<string>, i: nat): nat
    requires i <= |lines|
  {
    if i == 0 then 0 else LineStart(lines, i - 1) + |lines[i - 1]| + 1
  }

  /** `pos` lies in the closed range [line_start, line_end] of line `i`. */
  predicate Holds(lines: seq<string>, i: nat, pos: int)
    requires i < |lines|
  {
    LineStart(lines, i) <= pos <= LineStart(lines, i) + |lines[i]|
  }

  /** The first line, from index `from` on, whose range holds `pos`. */
  function FirstHolding(lines: seq<string>, pos: int, from: nat): (r: Option<nat>)
    requires from <= |lines|
    ensures r.Some? ==> from <= r.value < |lines| && Holds(lines, r.value, pos)
    ensures r.Some? ==> forall k :: from <= k < r.value ==> !Holds(lines, k, pos)
    ensures r.None? ==> forall k :: from <= k < |lines| ==> !Holds(lines, k, pos)
    decreases |lines| - from
  {
    if from == |lines| then None
    else if Holds(lines, from, pos) then Some(from)
    else FirstHolding(lines, pos, from + 1)
  }

  /** The line holding `pos`, if any. */
  function LineOf(lines: seq<string>, pos: int): Option<nat>
  {
    FirstHolding(lines, pos, 0)
  }

  /**
   * What `_map_positions_to_lines` returns for the lines of the parsing view:
   * the end line is the line holding `endPos` (the last line when none does);
   * the start line is the line holding `startPos` if the scan reaches it, and 0 otherwise.
   */
  function PositionsToLines(lines: seq<string>, startPos: int, endPos: int): (r: (nat, nat))
    requires |lines| >= 1
    ensures r.0 < |lines| && r.1 < |lines|
    ensures LineOf(lines, endPos).None? ==> r.1 == |lines| - 1
    ensures LineOf(lines, startPos).None? ==> r.0 == 0
  {
    var e := match LineOf(lines, endPos) case Some(j) => j case None => |lines| - 1;
    var s := match LineOf(lines, startPos) case Some(j) => if j <= e then j else 0 case None => 0;
    (s, e)
  }

  /** The start of line `i` counts the characters of the lines before it and one separator for each. */
  lemma {:induction false} LineStartSums(lines: seq<string>, i: nat)
    requires i <= |lines|
    ensures LineStart(lines, i) == SumLens(lines[..i]) + i
  {
    if i > 0 {
      LineStartSums(lines, i - 1);
      assert lines[..i] == lines[..i - 1] + [lines[i - 1]];
      SumLensSnoc(lines[..i - 1], lines[i - 1]);
    }
  }

  /** Each line starts after the end of every earlier line, leaving room for the '\n'. */
  lemma {:induction false} LinesAscend(lines: seq<string>, i: nat, j: nat)
    requires i < j < |lines|
    ensures LineStart(lines, j) >= LineStart(lines, i) + |lines[i]| + 1
    decreases j - i
  {
    if i < j - 1 {
      LinesAscend(lines, i, j - 1);
    }
  }

  /** No offset lies in two lines. */
  lemma {:induction false} LineUnique(lines: seq<string>, i: nat, j: nat, pos: int)
    requires i < |lines| && j < |lines|
    requires Holds(lines, i, pos) && Holds(lines, j, pos)
    ensures i == j
  {
    if i < j {
      LinesAscend(lines, i, j);
    } else if j < i {
      LinesAscend(lines, j, i);
    }
  }

  /** One past the last offset of `'\n'.join(lines)`: the length of the joined text. */
  function Span(lines: seq<string>): nat
    requires |lines| >= 1
  {
    LineStart(lines, |lines| - 1) + |lines[|lines| - 1]|
  }

  /** The lines of `content.split('\n')` span exactly the content. */
  lemma {:induction false} LastLineEnd(content: string)
    ensures Span(Split(content, '\n')) == |content|
  {
    var lines := Split(content, '\n');
    var n := |lines|;
    SplitSpan(content, '\n');
    LineStartSums(lines, n);
    assert lines[..n] == lines;
  }

  lemma {:induction false} CoveredFrom(lines: seq<string>, pos: int, i: nat)
    requires i < |lines|
    requires LineStart(lines, i) <= pos <= Span(lines)
    ensures FirstHolding(lines, pos, i).Some?
    decreases |lines| - i
  {
    if !Holds(lines, i, pos) {
      if i + 1 < |lines| {
        CoveredFrom(lines, pos, i + 1);
      }
    }
  }

  /** Every offset from 0 to the span of the lines lies in exactly one line. */
  lemma {:induction false} EveryOffsetHasOneLine(lines: seq<string>, pos: int)
    requires |lines| >= 1 && 0 <= pos <= Span(lines)
    ensures LineOf(lines, pos).Some?
    ensures forall k :: 0 <= k < |lines| && Holds(lines, k, pos) ==> k == LineOf(lines, pos).value
  {
    CoveredFrom(lines, pos, 0);
    forall k | 0 <= k < |lines| && Holds(lines, k, pos) ensures k == LineOf(lines, pos).value {
      LineUnique(lines, k, LineOf(lines, pos).value, pos);
    }
  }

  /** A later offset never lies in an earlier line. */
  lemma {:induction false} LineOfMonotone(lines: seq<string>, pos1: int, pos2: int)
    requires |lines| >= 1 && 0 <= pos1 <= pos2 <= Span(lines)
    ensures LineOf(lines, pos1).Some? && LineOf(lines, pos2).Some?
    ensures LineOf(lines, pos1).value <= LineOf(lines, pos2).value
  {
    EveryOffsetHasOneLine(lines, pos1);
    EveryOffsetHasOneLine(lines, pos2);
    var l1, l2 := LineOf(lines, pos1).value, LineOf(lines, pos2).value;
    if l2 < l1 {
      LinesAscend(lines, l2, l1);
    }
  }

  /**
   * For a section given by offsets inside the text, the start line holds the
   * start offset, the end line holds the end offset, and the start comes first.
   */
  lemma {:induction false} SectionLinesOrdered(lines: seq<string>, startPos: int, endPos: int)
    requires |lines| >= 1 && 0 <= startPos <= endPos <= Span(lines)
    ensures var r := PositionsToLines(lines, startPos, endPos);
      r.0 <= r.1 && Holds(lines, r.0, startPos) && Holds(lines, r.1, endPos)
  {
    LineOfMonotone(lines, startPos, endPos);
  }

  /** `_map_positions_to_lines`: one pass over the lines with a running offset. */
  method MapPositionsToLines(content: string, startPos: int, endPos: int) returns (startLine: nat, endLine: nat)
    ensures (startLine, endLine) == PositionsToLines(Split(content, '\n'), startPos, endPos)
  {
    var lines := Split(content, '\n');
    var currentPos := 0;
    startLine := 0;
    endLine := |lines| - 1;
    var i := 0;
    while i < |lines|
      invariant 0 <= i <= |lines|
      invariant currentPos == LineStart(lines, i)
      invariant FirstHolding(lines, endPos, 0) == FirstHolding(lines, endPos, i)
      invariant endLine == |lines| - 1
      invariant startLine == match LineOf(lines, startPos) case Some(j) => (if j < i then j else 0) case None => 0
    {
      var lineStart := currentPos;
      var lineEnd := currentPos + |lines[i]|;
      if lineStart <= startPos <= lineEnd {
        startLine := i;
        assert Holds(lines, i, startPos);
        var j := LineOf(lines, startPos).value;
        LineUnique(lines, i, j, startPos);
      }
      if lineStart <= endPos <= lineEnd {
        endLine := i;
        break;
      }
      currentPos := lineEnd + 1;
      i := i + 1;
    }
  }

  /**
   * Steps 5 and 6 of the extraction: the section's offsets in the parsing view
   * select `preservation_lines[start_line:end_line + 1]` of the preservation view.
   */
  function SectionLines(parsing: string, preservation: string, startPos: int, endPos: int): (r: seq<string>)
  {
    LinesBetween(Split(parsing, '\n'), Split(preservation, '\n'), startPos, endPos)
  }

  /** `preservation_lines[start_line:end_line + 1]` for the line numbers the parsing lines give. */
  function LinesBetween(parsingLines: seq<string>, presLines: seq<string>, startPos: int, endPos: int): (r: seq<string>)
    requires |parsingLines| >= 1
    ensures var se := PositionsToLines(parsingLines, startPos, endPos);
      se.1 < |presLines| && se.0 <= se.1 ==> r == presLines[se.0..se.1 + 1]
  {
    var (s, e) := PositionsToLines(parsingLines, startPos, endPos);
    var lo := Min(s, |presLines|);
    var hi := Min(e + 1, |presLines|);
    if lo <= hi then presLines[lo..hi] else []
  }

  /**
   * When both views have the same lines and the section lies in the content,
   * it is the run of lines from the one holding the start offset to the one
   * holding the end offset.
   */
  lemma {:induction false} SectionLinesOfSameView(content: string, startPos: int, endPos: int)
    requires 0 <= startPos <= endPos <= |content|
    ensures var lines := Split(content, '\n');
      var r := PositionsToLines(lines, startPos, endPos);
      r.0 <= r.1 && Holds(lines, r.0, startPos) && Holds(lines, r.1, endPos) &&
      SectionLines(content, content, startPos, endPos) == lines[r.0..r.1 + 1]
  {
    var lines := Split(content, '\n');
    LastLineEnd(content);
    SectionLinesOrdered(lines, startPos, endPos);
    var r := PositionsToLines(lines, startPos, endPos);
    assert LinesBetween(lines, lines, startPos, endPos) == lines[r.0..r.1 + 1];
  }

  // ---------------------------------------------------------------------------
  // Line predicates
  // ---------------------------------------------------------------------------

  /** `_is_table_line`: columnar, financial data, or at least two pipes. */
  predicate IsTableLine(p: Patterns, line: string)
  {
    line in p.columnar || line in p.financialData || Count(line, '|') >= 2
  }

  /** A dash, equals sign or underscore: the characters rules are drawn with. */
  predicate IsRuleChar(c: char)
  {
    c == '-' || c == '=' || c == '_'
  }

  /** Every character is a rule character or whitespace. */
  predicate RuleOrSpaceOnly(t: string)
  {
    t == [] || ((IsRuleChar(t[0]) || IsSpace(t[0])) && RuleOrSpaceOnly(t[1..]))
  }

  /** `_is_separator_line`: at least three characters after stripping, all dashes, equals signs, underscores or whitespace. */
  predicate IsSeparatorLine(line: string)
  {
    var t := Strip(line);
    |t| >= 3 && RuleOrSpaceOnly(t)
  }

  lemma {:induction false} SeparatorLineEnds(line: string)
    requires IsSeparatorLine(line)
    ensures var t := Strip(line); IsRuleChar(t[0]) && IsRuleChar(t[|t| - 1])
  {
    StripShape(line);
    var t := Strip(line);
    RuleOrSpaceAt(t, |t| - 1);
  }

  lemma {:induction false} RuleOrSpaceAt(t: string, i: nat)
    requires RuleOrSpaceOnly(t) && i < |t|
    ensures IsRuleChar(t[i]) || IsSpace(t[i])
  {
    if i > 0 {
      RuleOrSpaceAt(t[1..], i - 1);
    }
  }

  /** `_line_starts_table`: a header followed by a separator or table line, or a separator followed by a table line. */
  predicate LineStartsTable(p: Patterns, lines: seq<string>, idx: int): (b: bool)
    ensures b ==> 0 <= idx && idx + 1 < |lines|
  {
    0 <= idx < |lines| &&
    ((lines[idx] in p.tableHeader && idx + 1 < |lines| &&
      (IsSeparatorLine(lines[idx + 1]) || IsTableLine(p, lines[idx + 1]))) ||
     (IsSeparatorLine(lines[idx]) && idx + 1 < |lines| && IsTableLine(p, lines[idx + 1])))
  }

  /** `_is_regular_text_line`. */
  predicate IsRegularTextLine(p: Patterns, line: string)
  {
    !IsBlank(line) && !IsTableLine(p, line) && line !in p.continuation &&
    ((var t := Strip(line); t != [] && (t[|t| - 1] == '.' || t[|t| - 1] == '!' || t[|t| - 1] == '?')) ||
     (|Words(line)| > 5 && !(HasSpaceRun(line, 3) || '\t' in line)))
  }

  /**
   * `_normalize_text_line`: the first (up to four) whitespace characters are
   * kept, then the words of the line joined by single spaces; a blank line
   * becomes empty.
   */
  function NormalizeTextLine(line: string): (r: string)
    ensures r == [] <==> IsBlank(line)
    ensures Words(r) == Words(line)
    ensures !IsBlank(line) ==>
      var k := Min(4, LeadingSpaces(line));
      LeadingSpaces(r) == k && r[..k] == line[..k] && Collapsed(r[k..])
  {
    var indent := line[..Min(4, LeadingSpaces(line))];
    var content := JoinWith(Words(Strip(line)), " ");
    WordsOfStrip(line);
    WordsEmptyIffBlank(line);
    JoinWordsCollapsed(Words(line));
    WordsOfJoin(Words(line));
    if content == [] then []
    else
      JoinWordsStart(Words(line));
      LeadingSpacesRun(line);
      assert indent == line[..LeadingSpaces(line)][..|indent|];
      LeadingSpacesPrefix(indent, content);
      WordsSkipSpaces(indent, content);
      assert (indent + content)[|indent|..] == content;
      indent + content
  }

  lemma {:induction false} NormalizeTextLineIdempotent(line: string)
    ensures NormalizeTextLine(NormalizeTextLine(line)) == NormalizeTextLine(line)
  {
    var r := NormalizeTextLine(line);
    if r != [] {
      var k := Min(4, LeadingSpaces(line));
      var r2 := NormalizeTextLine(r);
      WordsOfStrip(r);
      WordsOfStrip(line);
      assert r == r[..k] + r[k..];
      assert r[k..] == JoinWith(Words(Strip(line)), " ") by {
        WordsOfJoin(Words(line));
        JoinWordsCollapsed(Words(line));
        assert r == line[..k] + JoinWith(Words(Strip(line)), " ");
      }
    }
  }

  // ---------------------------------------------------------------------------
  // Table regions
  // ---------------------------------------------------------------------------

  /** A non-blank line that is neither a table line nor a continuation. */
  predicate Breaks(p: Patterns, line: string)
  {
    !IsBlank(line) && !IsTableLine(p, line) && line !in p.continuation
  }

  /** How the growth loop of `_identify_table_region` ends: the candidate is dropped, or the loop stops at index `end`. */
  datatype Growth = Reject | Stop(end: nat, digit: bool)

  /**
   * The loop of `_identify_table_region` from index `cur`, with `empty`
   * trailing blank lines and `digit` telling whether a digit has been seen.
   * The digit test runs before the line is judged, so the line that stops
   * the loop counts too.
   */
  function Grow(p: Patterns, lines: seq<string>, s: nat, cur: nat, empty: nat, digit: bool): (g: Growth)
    requires s <= cur <= |lines|
    ensures g.Stop? ==> cur <= g.end <= |lines|
    decreases |lines| - cur
  {
    if cur == |lines| then Stop(cur, digit)
    else
      var line := lines[cur];
      var d := digit || HasDigit(line);
      if IsBlank(line) then
        if empty + 1 > 2 then Stop(cur, d) else Grow(p, lines, s, cur + 1, empty + 1, d)
      else if IsTableLine(p, line) || line in p.continuation then Grow(p, lines, s, cur + 1, 0, d)
      else if cur - s > 2 && d then Stop(cur, d)
      else Reject
  }

  /** Every line the loop keeps is blank, a table line or a continuation. */
  lemma {:induction false} GrowKeepsNoBreaker(p: Patterns, lines: seq<string>, s: nat, cur: nat, empty: nat, digit: bool)
    requires s <= cur <= |lines|
    ensures var g := Grow(p, lines, s, cur, empty, digit);
      g.Stop? ==> forall k :: cur <= k < g.end ==> !Breaks(p, lines[k])
    decreases |lines| - cur
  {
    if cur < |lines| {
      var d := digit || HasDigit(lines[cur]);
      if IsBlank(lines[cur]) {
        GrowKeepsNoBreaker(p, lines, s, cur + 1, empty + 1, d);
      } else {
        GrowKeepsNoBreaker(p, lines, s, cur + 1, 0, d);
      }
    }
  }

  /** The blank-line counter keeps three blank lines in a row out of the kept lines. */
  lemma {:induction false} GrowNoBlankTriple(p: Patterns, lines: seq<string>, s: nat, cur: nat, empty: nat, digit: bool)
    requires s <= cur <= |lines| && empty <= 2
    requires TrailingBlanks(lines, s, cur, empty) && NoBlankTriple(lines[s..cur])
    ensures var g := Grow(p, lines, s, cur, empty, digit);
      g.Stop? ==> NoBlankTriple(lines[s..g.end])
    decreases |lines| - cur
  {
    if cur < |lines| {
      var line := lines[cur];
      var d := digit || HasDigit(line);
      if IsBlank(line) {
        if empty + 1 <= 2 {
          ExtendNoBlankTriple(lines, s, cur, empty);
          GrowNoBlankTriple(p, lines, s, cur + 1, empty + 1, d);
        }
      } else if IsTableLine(p, line) || line in p.continuation {
        ExtendNoBlankTriple(lines, s, cur, empty);
        GrowNoBlankTriple(p, lines, s, cur + 1, 0, d);
      }
    }
  }

  /**
   * The loop stops before the end of the lines only at a third blank line in
   * a row, or at a breaking line after more than two kept lines with a digit seen.
   */
  lemma {:induction false} GrowStopsForAReason(p: Patterns, lines: seq<string>, s: nat, cur: nat, empty: nat, digit: bool)
    requires s <= cur <= |lines| && empty <= 2 && TrailingBlanks(lines, s, cur, empty)
    ensures var g := Grow(p, lines, s, cur, empty, digit);
      g.Stop? && g.end < |lines| ==>
        (IsBlank(lines[g.end]) && s + 2 <= g.end && IsBlank(lines[g.end - 1]) && IsBlank(lines[g.end - 2])) ||
        (Breaks(p, lines[g.end]) && g.end - s > 2 && g.digit)
    decreases |lines| - cur
  {
    if cur < |lines| {
      var line := lines[cur];
      var d := digit || HasDigit(line);
      if IsBlank(line) {
        if empty + 1 <= 2 {
          GrowStopsForAReason(p, lines, s, cur + 1, empty + 1, d);
        }
      } else if IsTableLine(p, line) || line in p.continuation {
        GrowStopsForAReason(p, lines, s, cur + 1, 0, d);
      }
    }
  }

  /** The digit flag the loop ends with says whether some line up to and including the stopping line holds a digit. */
  lemma {:induction false} GrowDigitFlag(p: Patterns, lines: seq<string>, s: nat, cur: nat, empty: nat, digit: bool)
    requires s <= cur <= |lines|
    ensures var g := Grow(p, lines, s, cur, empty, digit);
      g.Stop? ==> (g.digit <==> digit || HasDigitIn(lines, cur, Min(g.end + 1, |lines|)))
    decreases |lines| - cur
  {
    if cur < |lines| {
      var line := lines[cur];
      var d := digit || HasDigit(line);
      var g := Grow(p, lines, s, cur, empty, digit);
      if g.Stop? {
        DigitInStep(lines, cur, Min(g.end + 1, |lines|));
        if IsBlank(line) && empty + 1 <= 2 {
          GrowDigitFlag(p, lines, s, cur + 1, empty + 1, d);
        } else if !IsBlank(line) && (IsTableLine(p, line) || line in p.continuation) {
          GrowDigitFlag(p, lines, s, cur + 1, 0, d);
        } else {
          assert g.end == cur;
        }
      }
    }
  }

  /** A dropped candidate met a breaking line before more than two lines were kept or before a digit was seen. */
  lemma {:induction false} GrowRejectsForAReason(p: Patterns, lines: seq<string>, s: nat, cur: nat, empty: nat, digit: bool)
    requires s <= cur <= |lines|
    ensures var g := Grow(p, lines, s, cur, empty, digit);
      g.Reject? ==> exists k :: (cur <= k < |lines| && Breaks(p, lines[k]) &&
        !(k - s > 2 && (digit || HasDigitIn(lines, cur, k + 1))))
    decreases |lines| - cur
  {
    if cur < |lines| {
      var line := lines[cur];
      var d := digit || HasDigit(line);
      var g := Grow(p, lines, s, cur, empty, digit);
      if g.Reject? {
        if IsBlank(line) || IsTableLine(p, line) || line in p.continuation {
          var e := if IsBlank(line) then empty + 1 else 0;
          GrowRejectsForAReason(p, lines, s, cur + 1, e, d);
          var k :| cur + 1 <= k < |lines| && Breaks(p, lines[k]) &&
            !(k - s > 2 && (d || HasDigitIn(lines, cur + 1, k + 1)));
          DigitInStep(lines, cur, k + 1);
        } else {
          DigitInStep(lines, cur, cur + 1);
          assert Breaks(p, lines[cur]);
        }
      }
    }
  }

  /** A table region: its first and last line index and its lines, copied as they are. */
  datatype Region = Region(startLine: nat, endLine: nat, lines: seq<string>)

  /**
   * `_identify_table_region(lines, s)`: a region is found when the line starts
   * a table, the growth loop keeps at least two lines and a digit was seen
   * (on a kept line or on the line that ended the loop).
   */
  function TableRegionAt(p: Patterns, lines: seq<string>, s: nat): (r: Option<Region>)
    ensures r.Some? ==> r.value.startLine == s && s + 1 <= r.value.endLine < |lines|
    ensures r.Some? ==> r.value.lines == lines[s..r.value.endLine + 1]
  {
    if s >= |lines| || !LineStartsTable(p, lines, s) then None
    else
      match Grow(p, lines, s, s, 0, false)
      case Reject => None
      case Stop(e, d) =>
        if e - s >= 2 && d then Some(Region(s, e - 1, lines[s..e])) else None
  }

  /**
   * What a region found at `s` holds: it starts a table, it has at least two
   * lines, no three blank lines in a row and no breaking line.
   */
  lemma {:induction false} TableRegionShape(p: Patterns, lines: seq<string>, s: nat)
    requires TableRegionAt(p, lines, s).Some?
    ensures var r := TableRegionAt(p, lines, s).value;
      LineStartsTable(p, lines, s) && |r.lines| >= 2 && r.endLine == s + |r.lines| - 1 &&
      NoBlankTriple(r.lines) &&
      (forall k :: s <= k <= r.endLine ==> !Breaks(p, lines[k]))
  {
    assert lines[s..s] == [];
    GrowKeepsNoBreaker(p, lines, s, s, 0, false);
    GrowNoBlankTriple(p, lines, s, s, 0, false);
  }

  /**
   * Where a region found at `s` ends: a digit occurs in it or on the line that
   * ended it, and it ends at the last line, before a third blank line in a
   * row, or before a breaking line once more than two lines were kept.
   */
  lemma {:induction false} TableRegionEnd(p: Patterns, lines: seq<string>, s: nat)
    requires TableRegionAt(p, lines, s).Some?
    ensures var r := TableRegionAt(p, lines, s).value;
      HasDigitIn(lines, s, Min(r.endLine + 2, |lines|)) &&
      (r.endLine + 1 < |lines| ==>
        (IsBlank(lines[r.endLine + 1]) && IsBlank(lines[r.endLine]) && IsBlank(lines[r.endLine - 1])) ||
        (Breaks(p, lines[r.endLine + 1]) && |r.lines| > 2))
  {
    GrowStopsForAReason(p, lines, s, s, 0, false);
    GrowDigitFlag(p, lines, s, s, 0, false);
  }

  /**
   * A candidate is dropped as soon as a line breaks it before more than two
   * lines were kept or before any digit was seen.
   */
  lemma {:induction false} EarlyBreakRejects(p: Patterns, lines: seq<string>, s: nat, k: nat)
    requires LineStartsTable(p, lines, s) && s <= k < |lines| && Breaks(p, lines[k])
    requires forall j :: s <= j < k ==> !Breaks(p, lines[j])
    requires NoBlankTriple(lines[s..k])
    requires !(k - s > 2 && HasDigitIn(lines, s, k + 1))
    ensures TableRegionAt(p, lines, s).None?
  {
    assert lines[s..s] == [];
    var g := Grow(p, lines, s, s, 0, false);
    GrowKeepsNoBreaker(p, lines, s, s, 0, false);
    GrowStopsForAReason(p, lines, s, s, 0, false);
    GrowDigitFlag(p, lines, s, s, 0, false);
    assert g.Reject?;
  }

  /** `_identify_table_region`: the growth loop over `table_lines`, `consecutive_empty` and `has_numeric_data`. */
  method IdentifyTableRegion(p: Patterns, lines: seq<string>, startIdx: nat) returns (r: Option<Region>)
    ensures r == TableRegionAt(p, lines, startIdx)
  {
    if startIdx >= |lines| {
      return None;
    }
    if !LineStartsTable(p, lines, startIdx) {
      return None;
    }
    var tableLines: seq<string> := [];
    var currentIdx := startIdx;
    var consecutiveEmpty := 0;
    var hasNumericData := false;
    while currentIdx < |lines|
      invariant startIdx <= currentIdx <= |lines|
      invariant tableLines == lines[startIdx..currentIdx]
      invariant Grow(p, lines, startIdx, currentIdx, consecutiveEmpty, hasNumericData) ==
                Grow(p, lines, startIdx, startIdx, 0, false)
    {
      var line := lines[currentIdx];
      if HasDigit(line) {
        hasNumericData := true;
      }
      if IsBlank(line) {
        consecutiveEmpty := consecutiveEmpty + 1;
        if consecutiveEmpty > 2 {
          break;
        }
        tableLines := tableLines + [line];
      } else {
        consecutiveEmpty := 0;
        if IsTableLine(p, line) || line in p.continuation {
          tableLines := tableLines + [line];
        } else {
          if |tableLines| > 2 && hasNumericData {
            break;
          } else {
            return None;
          }
        }
      }
      assert lines[startIdx..currentIdx + 1] == lines[startIdx..currentIdx] + [line];
      currentIdx := currentIdx + 1;
    }
    if |tableLines| >= 2 && hasNumericData {
      return Some(Region(startIdx, startIdx + |tableLines| - 1, tableLines));
    }
    return None;
  }

  // ---------------------------------------------------------------------------
  // The fencing pass
  // ---------------------------------------------------------------------------

  /** One step of `_process_mdna_content`: a table region, or one other line. */
  datatype Piece = TablePiece(rows: seq<string>) | TextPiece(line: string)

  /** The input lines one piece stands for. */
  function Covers(piece: Piece): seq<string>
  {
    match piece case TablePiece(rows) => rows case TextPiece(line) => [line]
  }

  /** The input lines a sequence of pieces stands for. */
  function Source(ps: seq<Piece>): seq<string>
  {
    if ps == [] then [] else Covers(ps[0]) + Source(ps[1..])
  }

  /** What `_identify_table_region` returns at each index of `lines`. */
  function Regions(p: Patterns, lines: seq<string>): (rs: seq<Option<Region>>)
    ensures Fits(rs, lines)
  {
    seq(|lines|, s requires 0 <= s < |lines| => TableRegionAt(p, lines, s))
  }

  lemma {:induction false} RegionsAt(p: Patterns, lines: seq<string>, s: nat)
    requires s < |lines|
    ensures Regions(p, lines)[s] == TableRegionAt(p, lines, s)
  {
  }

  /** `regions[s]` is a region found at `s`: a run of the lines starting at `s`. */
  predicate Fits(regions: seq<Option<Region>>, lines: seq<string>)
  {
    |regions| == |lines| &&
    forall s :: 0 <= s < |regions| && regions[s].Some? ==>
      s <= regions[s].value.endLine < |lines| && regions[s].value.lines == lines[s..regions[s].value.endLine + 1]
  }

  /** The piece `_process_mdna_content` takes at index `i`: the table region that starts there, or else the line. */
  function PieceAt(regions: seq<Option<Region>>, lines: seq<string>, i: nat): (piece: Piece)
    requires Fits(regions, lines) && i < |lines|
    ensures 1 <= |Covers(piece)| <= |lines| - i
    ensures piece.TablePiece? <==> regions[i].Some?
    ensures piece.TablePiece? ==> piece.rows == regions[i].value.lines
  {
    match regions[i]
    case Some(region) => TablePiece(region.lines)
    case None => TextPiece(lines[i])
  }

  /**
   * How `_process_mdna_content` cuts `lines[i..]`: every line goes into
   * exactly one piece, in order.
   */
  function Plan(regions: seq<Option<Region>>, lines: seq<string>, i: nat): (ps: seq<Piece>)
    requires Fits(regions, lines) && i <= |lines|
    decreases |lines| - i
  {
    if i == |lines| then []
    else
      var piece := PieceAt(regions, lines, i);
      [piece] + Plan(regions, lines, i + |Covers(piece)|)
  }

  /** A piece stands for the lines it was cut from. */
  lemma {:induction false} PieceCovers(regions: seq<Option<Region>>, lines: seq<string>, i: nat)
    requires Fits(regions, lines) && i < |lines|
    ensures var piece := PieceAt(regions, lines, i); Covers(piece) == lines[i..i + |Covers(piece)|]
  {
  }

  /** The pieces stand for the lines, each once and in order. */
  lemma {:induction false} PlanCoversLines(regions: seq<Option<Region>>, lines: seq<string>, i: nat)
    requires Fits(regions, lines) && i <= |lines|
    ensures Source(Plan(regions, lines, i)) == lines[i..]
    decreases |lines| - i
  {
    if i < |lines| {
      var piece := PieceAt(regions, lines, i);
      var next := i + |Covers(piece)|;
      var rest := Plan(regions, lines, next);
      calc {
        Source(Plan(regions, lines, i));
        { PlanStep(regions, lines, i); }
        Source([piece] + rest);
        { SourceCons(piece, rest); }
        Covers(piece) + Source(rest);
        { PieceCovers(regions, lines, i); PlanCoversLines(regions, lines, next); }
        lines[i..next] + lines[next..];
        { SliceSplit(lines, i, next); }
        lines[i..];
      }
    }
  }

  lemma SourceCons(piece: Piece, rest: seq<Piece>)
    ensures Source([piece] + rest) == Covers(piece) + Source(rest)
  {
    assert ([piece] + rest)[1..] == rest;
  }

  lemma SliceSplit(xs: seq<string>, i: nat, j: nat)
    requires i <= j <= |xs|
    ensures xs[i..] == xs[i..j] + xs[j..]
  {
  }

  lemma {:induction false} PlanStep(regions: seq<Option<Region>>, lines: seq<string>, i: nat)
    requires Fits(regions, lines) && i < |lines|
    ensures var piece := PieceAt(regions, lines, i);
      Plan(regions, lines, i) == [piece] + Plan(regions, lines, i + |Covers(piece)|)
  {
  }

  /** Every table piece of the plan is a region the finder returns for some line at or after `i`. */
  lemma {:induction false} PlanTablesAreRegions(regions: seq<Option<Region>>, lines: seq<string>, i: nat, k: nat)
    requires Fits(regions, lines) && i <= |lines| && k < |Plan(regions, lines, i)| && Plan(regions, lines, i)[k].TablePiece?
    ensures exists a :: (i <= a < |lines| && regions[a].Some? && regions[a].value.lines == Plan(regions, lines, i)[k].rows)
    decreases |lines| - i
  {
    PlanStep(regions, lines, i);
    var piece := PieceAt(regions, lines, i);
    var next := i + |Covers(piece)|;
    if k > 0 {
      assert Plan(regions, lines, i)[k] == Plan(regions, lines, next)[k - 1];
      PlanTablesAreRegions(regions, lines, next, k - 1);
    }
  }

  /** A line outside every table: normalised when it is regular text, copied otherwise. */
  function TextLine(p: Patterns, line: string): string
  {
    if IsRegularTextLine(p, line) then NormalizeTextLine(line) else line
  }

  /** Only regular text lines change, and no line loses or gains a word. */
  lemma {:induction false} TextLineKeepsWords(p: Patterns, line: string)
    ensures TextLine(p, line) != line ==> IsRegularTextLine(p, line)
    ensures Words(TextLine(p, line)) == Words(line)
  {
  }

  /** The output lines for one piece; `afterText` says the last output line so far is non-blank. */
  function Emit(p: Patterns, piece: Piece, afterText: bool): seq<string>
  {
    match piece
    case TablePiece(rows) => (if afterText then [""] else []) + [BeginTable] + rows + [EndTable, ""]
    case TextPiece(line) => [TextLine(p, line)]
  }

  /** Whether the output ends with a non-blank line after a piece. */
  function After(p: Patterns, piece: Piece): bool
  {
    match piece
    case TablePiece(_) => false
    case TextPiece(line) => !IsBlank(TextLine(p, line))
  }

  /** The output lines for a sequence of pieces. */
  function Render(p: Patterns, ps: seq<Piece>, afterText: bool): seq<string>
  {
    if ps == [] then [] else Emit(p, ps[0], afterText) + Render(p, ps[1..], After(p, ps[0]))
  }

  lemma {:induction false} RenderCons(p: Patterns, piece: Piece, rest: seq<Piece>, afterText: bool)
    ensures Render(p, [piece] + rest, afterText) == Emit(p, piece, afterText) + Render(p, rest, After(p, piece))
  {
    assert ([piece] + rest)[0] == piece && ([piece] + rest)[1..] == rest;
  }

  /** `out[j]` opens a fence around exactly `rows`, closed right after them. */
  predicate FencedAt(out: seq<string>, j: nat, rows: seq<string>)
  {
    j + |rows| + 1 < |out| && out[j] == BeginTable && out[j + 1..j + 1 + |rows|] == rows && out[j + 1 + |rows|] == EndTable
  }

  lemma {:induction false} FencedShift(head: seq<string>, tail: seq<string>, j: nat, rows: seq<string>)
    requires FencedAt(tail, j, rows)
    ensures FencedAt(head + tail, |head| + j, rows)
  {
    assert (head + tail)[|head| + j + 1..|head| + j + 1 + |rows|] == tail[j + 1..j + 1 + |rows|];
  }

  lemma {:induction false} FencedHead(p: Patterns, rows: seq<string>, afterText: bool, tail: seq<string>)
    ensures FencedAt(Emit(p, TablePiece(rows), afterText) + tail, if afterText then 1 else 0, rows)
  {
    var pre: seq<string> := if afterText then [""] else [];
    var out := Emit(p, TablePiece(rows), afterText) + tail;
    assert out == pre + [BeginTable] + rows + ([EndTable, ""] + tail);
    assert out[|pre| + 1..|pre| + 1 + |rows|] == rows;
  }

  /** Every table piece appears in the output, line for line, right between the two markers. */
  lemma {:induction false} TableFencedVerbatim(p: Patterns, ps: seq<Piece>, afterText: bool, k: nat)
    requires k < |ps| && ps[k].TablePiece?
    ensures exists j: nat :: FencedAt(Render(p, ps, afterText), j, ps[k].rows)
    decreases k
  {
    var head := Emit(p, ps[0], afterText);
    var tail := Render(p, ps[1..], After(p, ps[0]));
    assert Render(p, ps, afterText) == head + tail;
    if k == 0 {
      FencedHead(p, ps[0].rows, afterText, tail);
    } else {
      TableFencedVerbatim(p, ps[1..], After(p, ps[0]), k - 1);
      var j: nat :| FencedAt(tail, j, ps[k].rows);
      FencedShift(head, tail, j, ps[k].rows);
    }
  }

  predicate EndsNonBlank(xs: seq<string>)
  {
    |xs| > 0 && !IsBlank(xs[|xs| - 1])
  }

  /** Rendering the plan from `i` emits the piece at `i`, then renders the plan after it. */
  lemma {:induction false} RenderPlanStep(p: Patterns, regions: seq<Option<Region>>, lines: seq<string>, i: nat, afterText: bool)
    requires Fits(regions, lines) && i < |lines|
    ensures var piece := PieceAt(regions, lines, i);
      Render(p, Plan(regions, lines, i), afterText) ==
      Emit(p, piece, afterText) + Render(p, Plan(regions, lines, i + |Covers(piece)|), After(p, piece))
  {
    var piece := PieceAt(regions, lines, i);
    PlanStep(regions, lines, i);
    RenderCons(p, piece, Plan(regions, lines, i + |Covers(piece)|), afterText);
  }

  lemma {:induction false} ConcatAssoc(a: seq<string>, b: seq<string>, c: seq<string>)
    ensures (a + b) + c == a + (b + c)
  {
  }

  /** The output of one piece is never empty, so it decides whether the output ends with a non-blank line. */
  lemma {:induction false} EmitEnds(p: Patterns, acc: seq<string>, piece: Piece, afterText: bool)
    ensures EndsNonBlank(acc + Emit(p, piece, afterText)) == After(p, piece)
  {
    var out := acc + Emit(p, piece, afterText);
    if piece.TablePiece? {
      assert out[|out| - 1] == "";
    } else {
      assert out[|out| - 1] == TextLine(p, piece.line);
    }
  }

  /**
   * The loop of `_process_mdna_content` from index `i`, with the output lines
   * `acc` produced so far.
   */
  function Fence(p: Patterns, regions: seq<Option<Region>>, lines: seq<string>, i: nat, acc: seq<string>): seq<string>
    requires Fits(regions, lines) && i <= |lines|
    decreases |lines| - i
  {
    if i == |lines| then acc
    else
      var piece := PieceAt(regions, lines, i);
      Fence(p, regions, lines, i + |Covers(piece)|, acc + Emit(p, piece, EndsNonBlank(acc)))
  }

  /** The loop appends the rendering of the plan to what it has produced. */
  lemma {:induction false} FenceRenders(p: Patterns, regions: seq<Option<Region>>, lines: seq<string>, i: nat, acc: seq<string>)
    requires Fits(regions, lines) && i <= |lines|
    ensures Fence(p, regions, lines, i, acc) == acc + Render(p, Plan(regions, lines, i), EndsNonBlank(acc))
    decreases |lines| - i
  {
    if i == |lines| {
      assert acc + [] == acc;
    } else {
      var piece := PieceAt(regions, lines, i);
      var next := i + |Covers(piece)|;
      var out := Emit(p, piece, EndsNonBlank(acc));
      FenceRenders(p, regions, lines, next, acc + out);
      EmitEnds(p, acc, piece, EndsNonBlank(acc));
      RenderPlanStep(p, regions, lines, i, EndsNonBlank(acc));
      ConcatAssoc(acc, out, Render(p, Plan(regions, lines, next), After(p, piece)));
    }
  }

  /** One step of the loop: the piece at `i` is emitted and the loop resumes after it. */
  lemma {:induction false} FenceStep(p: Patterns, regions: seq<Option<Region>>, lines: seq<string>, i: nat, acc: seq<string>, i': nat, acc': seq<string>)
    requires Fits(regions, lines) && i < |lines|
    requires i' == i + |Covers(PieceAt(regions, lines, i))|
    requires acc' == acc + Emit(p, PieceAt(regions, lines, i), EndsNonBlank(acc))
    ensures i' <= |lines| && Fence(p, regions, lines, i, acc) == Fence(p, regions, lines, i', acc')
  {
    var piece := PieceAt(regions, lines, i);
    assert Fence(p, regions, lines, i, acc) ==
      Fence(p, regions, lines, i + |Covers(piece)|, acc + Emit(p, piece, EndsNonBlank(acc)));
  }

  /** The piece at `i` is the region `_identify_table_region` returns there, or else the line. */
  lemma {:induction false} PieceOfRegion(p: Patterns, lines: seq<string>, i: nat, region: Option<Region>)
    requires i < |lines| && region == TableRegionAt(p, lines, i)
    ensures PieceAt(Regions(p, lines), lines, i) ==
      if region.Some? then TablePiece(region.value.lines) else TextPiece(lines[i])
    ensures region.Some? ==> region.value.endLine + 1 == i + |region.value.lines|
  {
    RegionsAt(p, lines, i);
  }

  /** Appending a table as the loop does emits the table piece. */
  lemma {:induction false} TableStep(p: Patterns, before: seq<string>, spaced: seq<string>, rows: seq<string>)
    requires spaced == if EndsNonBlank(before) then before + [""] else before
    ensures spaced + [BeginTable] + rows + [EndTable] + [""] == before + Emit(p, TablePiece(rows), EndsNonBlank(before))
  {
  }

  /** Appending a line as the loop does emits the text piece. */
  lemma {:induction false} TextStep(p: Patterns, before: seq<string>, line: string, out: string, afterText: bool)
    requires out == if IsRegularTextLine(p, line) then NormalizeTextLine(line) else line
    ensures before + [out] == before + Emit(p, TextPiece(line), afterText)
  {
  }

  /** `_process_mdna_content`: each step appends a table region between markers, or one line. */
  method ProcessMdnaContent(p: Patterns, lines: seq<string>) returns (text: string)
    ensures text == JoinWith(Fence(p, Regions(p, lines), lines, 0, []), "\n")
  {
    var processed: seq<string> := [];
    var i := 0;
    while i < |lines|
      invariant 0 <= i <= |lines|
      invariant Fence(p, Regions(p, lines), lines, i, processed) == Fence(p, Regions(p, lines), lines, 0, [])
      decreases |lines| - i
    {
      var region := IdentifyTableRegion(p, lines, i);
      PieceOfRegion(p, lines, i, region);
      ghost var before := processed;
      ghost var i0 := i;
      if region.Some? {
        if |processed| > 0 && !IsBlank(processed[|processed| - 1]) {
          processed := processed + [""];
        }
        TableStep(p, before, processed, region.value.lines);
        processed := processed + [BeginTable];
        processed := processed + region.value.lines;
        processed := processed + [EndTable];
        processed := processed + [""];
        i := region.value.endLine + 1;
      } else {
        var line := lines[i];
        var out;
        if IsRegularTextLine(p, line) {
          out := NormalizeTextLine(line);
        } else {
          out := line;
        }
        TextStep(p, before, line, out, EndsNonBlank(before));
        processed := processed + [out];
        i := i + 1;
      }
      FenceStep(p, Regions(p, lines), lines, i0, before, i, processed);
    }
    text := JoinWith(processed, "\n");
  }
}
