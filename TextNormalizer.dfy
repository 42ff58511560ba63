/**
 * The line classifier and the line-list rewriters of the text normalizer
 * (src/parsers/enhanced_text_normalizer.py): the first-match-wins
 * classification of a line in its ±3-line window, the two-pass
 * preserve-or-collapse rewrite, the blank-run capper, the blank-line
 * remover, and the small string cleaners for whitespace, CSV fields,
 * control characters and file names.
 */
module TextNormalizer {
  import opened Strings
  import opened Seqs

  /**
   * The regular-expression tests of the normalizer, which the model takes as
   * given: each is the set of lines the test accepts. The character-level
   * tests (blank, delimiter rule, `\s{4,}`, tab, pipes) are defined below.
   */
  datatype Patterns = Patterns(
    monetary: iset<string>,        // `table_indicators['monetary'].search(line)`
    percentage: iset<string>,      // `table_indicators['percentage'].search(line)`
    numericColumns: iset<string>,  // `table_indicators['numeric_columns'].search(line)`
    multiMonetary: iset<string>,   // `findall` of 'monetary' gives at least two matches
    multiPercentage: iset<string>, // `findall` of 'percentage' gives at least two matches
    financialTerms: iset<string>,  // `table_indicators['financial_terms'].search(line)`
    dates: iset<string>,           // `table_indicators['dates'].search(line)`
    yearHeaders: iset<string>,     // `table_indicators['year_headers'].search(line)`
    header: iset<string>,          // `_is_enhanced_table_header`
    continuation: iset<string>)    // `_is_table_continuation`

  /** The eight classifications of `_classify_line_enhanced`. */
  datatype Label =
    | Empty
    | TableDelimiter
    | MonetaryData
    | TableHeader
    | TableContent
    | PotentialTable
    | TableContinuation
    | RegularText
  {
    /** The labels whose lines are kept as they are, bar trailing whitespace. */
    predicate Preserved()
    {
      this == TableHeader || this == TableContent || this == TableDelimiter || this == MonetaryData
    }
  }

  // ---------------------------------------------------------------------------
  // Character-level tests
  // ---------------------------------------------------------------------------

  predicate IsRuleChar(c: char) { c == '-' || c == '=' || c == '_' || c == '+' }

  /** `^[-=_+]{3,}$` on a stripped line: three or more rule characters and nothing else. */
  predicate IsDelimiterRule(s: string)
  {
    |s| >= 3 && forall i :: 0 <= i < |s| ==> IsRuleChar(s[i])
  }

  /**
   * `\|.*\|.*\|`: three pipes with no line break between the first and the
   * third, since `.` does not match '\n'.
   */
  predicate HasPipes(line: string)
  {
    var segments := Split(line, '\n');
    exists k :: 0 <= k < |segments| && Count(segments[k], '|') >= 3
  }

  /** A string without the separator splits into itself. */
  lemma {:induction false} SplitWithoutSep(s: string, sep: char)
    requires sep !in s
    ensures Split(s, sep) == [s]
    decreases |s|
  {
    if s != [] {
      SplitWithoutSep(s[1..], sep);
      assert [s[0]] + s[1..] == s;
    }
  }

  /** On a line of `text.split('\n')` the pipe test is a plain count. */
  lemma {:induction false} HasPipesOnLine(line: string)
    requires '\n' !in line
    ensures HasPipes(line) <==> Count(line, '|') >= 3
  {
    SplitWithoutSep(line, '\n');
    assert Split(line, '\n')[0] == line;
  }

  // ---------------------------------------------------------------------------
  // The ±3-line context window
  // ---------------------------------------------------------------------------

  /** First index of the window around line `i`: `max(0, i - 3)`. */
  function WindowLo(i: nat): nat { if i >= 3 then i - 3 else 0 }

  /** End (exclusive) of the window around line `i`: `min(len(lines), i + 4)`. */
  function WindowHi(lines: seq<string>, i: nat): nat { Min(|lines|, i + 4) }

  /** `all_lines[max(0, i - 3):min(len(all_lines), i + 4)]`. */
  function Window(lines: seq<string>, i: nat): seq<string>
  {
    var lo, hi := WindowLo(i), WindowHi(lines, i);
    if lo < hi then lines[lo..hi] else []
  }

  /** A context line counts when it shows money, a percentage, a 4-space run or a header. */
  predicate Indicator(p: Patterns, line: string)
  {
    line in p.monetary || line in p.percentage || HasSpaceRun(line, 4) || line in p.header
  }

  /** How many lines of `ws` count as indicators. */
  function Indicators(p: Patterns, ws: seq<string>): (n: nat)
    ensures n <= |ws|
  {
    if ws == [] then 0 else (if Indicator(p, ws[0]) then 1 else 0) + Indicators(p, ws[1..])
  }

  /** `_has_table_context`: at least two lines of the window are indicators. */
  predicate HasTableContext(p: Patterns, lines: seq<string>, i: nat)
  {
    Indicators(p, Window(lines, i)) >= 2
  }

  /** Two indicators are counted exactly when two distinct lines are indicators. */
  lemma {:induction false} IndicatorsTwo(p: Patterns, ws: seq<string>)
    ensures Indicators(p, ws) >= 2 <==>
      exists j, k :: 0 <= j < k < |ws| && Indicator(p, ws[j]) && Indicator(p, ws[k])
    decreases |ws|
  {
    if ws != [] {
      var t := ws[1..];
      IndicatorsTwo(p, t);
      IndicatorsOne(p, t);
      if Indicators(p, ws) >= 2 {
        if Indicator(p, ws[0]) {
          var k :| 0 <= k < |t| && Indicator(p, t[k]);
          assert t[k] == ws[k + 1];
        } else {
          var j, k :| 0 <= j < k < |t| && Indicator(p, t[j]) && Indicator(p, t[k]);
          assert t[j] == ws[j + 1] && t[k] == ws[k + 1];
        }
      }
      if exists j, k :: 0 <= j < k < |ws| && Indicator(p, ws[j]) && Indicator(p, ws[k]) {
        var j, k :| 0 <= j < k < |ws| && Indicator(p, ws[j]) && Indicator(p, ws[k]);
        assert ws[k] == t[k - 1];
        if j > 0 {
          assert ws[j] == t[j - 1];
        }
      }
    }
  }

  /** At least one indicator is counted exactly when some line is an indicator. */
  lemma {:induction false} IndicatorsOne(p: Patterns, ws: seq<string>)
    ensures Indicators(p, ws) >= 1 <==> exists k :: 0 <= k < |ws| && Indicator(p, ws[k])
    decreases |ws|
  {
    if ws != [] {
      var t := ws[1..];
      IndicatorsOne(p, t);
      if Indicators(p, ws) >= 1 && !Indicator(p, ws[0]) {
        var k :| 0 <= k < |t| && Indicator(p, t[k]);
        assert t[k] == ws[k + 1];
      }
      if exists k :: 0 <= k < |ws| && Indicator(p, ws[k]) {
        var k :| 0 <= k < |ws| && Indicator(p, ws[k]);
        if k > 0 { assert ws[k] == t[k - 1]; }
      }
    }
  }

  /**
   * The context test looks at exactly the lines `max(0, i - 3)` up to
   * `min(n, i + 4)`, line `i` itself included, and holds when two of them
   * are indicators.
   */
  lemma {:induction false} HasTableContextIff(p: Patterns, lines: seq<string>, i: nat)
    requires i < |lines|
    ensures HasTableContext(p, lines, i) <==>
      exists j, k :: WindowLo(i) <= j < k < WindowHi(lines, i) && Indicator(p, lines[j]) && Indicator(p, lines[k])
  {
    var lo, hi := WindowLo(i), WindowHi(lines, i);
    assert Window(lines, i) == lines[lo..hi];
    IndicatorsTwo(p, lines[lo..hi]);
    IndicatorPairsInSlice(p, lines, lo, hi);
  }

  /** Two indicators of a slice are two indicators of the lines between its bounds. */
  lemma {:induction false} IndicatorPairsInSlice(p: Patterns, lines: seq<string>, lo: nat, hi: nat)
    requires lo <= hi <= |lines|
    ensures (exists j, k :: 0 <= j < k < |lines[lo..hi]| && Indicator(p, lines[lo..hi][j]) && Indicator(p, lines[lo..hi][k])) <==>
      exists j, k :: lo <= j < k < hi && Indicator(p, lines[j]) && Indicator(p, lines[k])
  {
    var ws := lines[lo..hi];
    if exists j, k :: 0 <= j < k < |ws| && Indicator(p, ws[j]) && Indicator(p, ws[k]) {
      var j, k :| 0 <= j < k < |ws| && Indicator(p, ws[j]) && Indicator(p, ws[k]);
      assert ws[j] == lines[lo + j] && ws[k] == lines[lo + k];
    }
    if exists j, k :: lo <= j < k < hi && Indicator(p, lines[j]) && Indicator(p, lines[k]) {
      var j, k :| lo <= j < k < hi && Indicator(p, lines[j]) && Indicator(p, lines[k]);
      assert ws[j - lo] == lines[j] && ws[k - lo] == lines[k];
    }
  }

  // ---------------------------------------------------------------------------
  // The classifier
  // ---------------------------------------------------------------------------

  /**
   * `_classify_line_enhanced(line, all_lines, line_index)`: the rules in
   * source order, the first that matches deciding.
   */
  function Classify(p: Patterns, lines: seq<string>, i: nat): (r: Label)
    requires i < |lines|
    ensures r == Empty <==> IsBlank(lines[i])
    ensures r.Preserved() || r == PotentialTable || r == TableContinuation ==> !IsBlank(lines[i])
    ensures r == MonetaryData ==>
      lines[i] in p.monetary || lines[i] in p.multiMonetary || lines[i] in p.multiPercentage
    ensures r == TableContent ==> HasPipes(lines[i]) || HasTableContext(p, lines, i)
  {
    var line := lines[i];
    StripEmptyIffBlank(line);
    if Strip(line) == [] then Empty
    else if IsDelimiterRule(Strip(line)) then TableDelimiter
    else if line in p.monetary && (HasSpaceRun(line, 4) || '\t' in line || line in p.numericColumns) then MonetaryData
    else if line in p.header then TableHeader
    else if HasPipes(line) then TableContent
    else if line in p.multiMonetary || line in p.multiPercentage then MonetaryData
    else if line in p.numericColumns && HasTableContext(p, lines, i) then TableContent
    else if HasSpaceRun(line, 4) && line in p.financialTerms then PotentialTable
    else if line in p.dates || line in p.yearHeaders then TableHeader
    else if line in p.continuation then TableContinuation
    else RegularText
  }

  /**
   * Classification depends on the window alone: classifying line `i` inside
   * the slice `lines[max(0, i - 3):min(n, i + 4)]` gives the cls it has in
   * the whole document.
   */
  lemma {:induction false} ClassifyInWindow(p: Patterns, lines: seq<string>, i: nat)
    requires i < |lines|
    ensures var lo := WindowLo(i); var w := Window(lines, i);
      i - lo < |w| && w[i - lo] == lines[i] && Classify(p, w, i - lo) == Classify(p, lines, i)
  {
    var lo, hi := WindowLo(i), WindowHi(lines, i);
    var w := Window(lines, i);
    assert w == lines[lo..hi];
    assert WindowLo(i - lo) == 0;
    assert WindowHi(w, i - lo) == |w|;
    assert Window(w, i - lo) == w[0..|w|] == w;
  }

  /** A delimiter rule is a table delimiter, whatever else the patterns say. */
  lemma {:induction false} RuleIsDelimiter(p: Patterns, lines: seq<string>, i: nat)
    requires i < |lines| && IsDelimiterRule(lines[i])
    ensures Classify(p, lines, i) == TableDelimiter
  {
    var line := lines[i];
    assert NotSpace(line[0]) && NotSpace(line[|line| - 1]);
    StripOfStripped(line);
  }

  // ---------------------------------------------------------------------------
  // How one line is written out
  // ---------------------------------------------------------------------------

  predicate IsSpaceChar(c: char) { c == ' ' }

  /** `_cautiously_format_line`: `re.sub(r' {2,}', '    ', line.rstrip())`. */
  function CautiouslyFormatLine(line: string): string
  {
    Squeeze(RStrip(line), IsSpaceChar, 2, "    ")
  }

  /** `rstrip` leaves nothing exactly when the line is blank. */
  lemma {:induction false} RStripEmptyIffBlank(s: string)
    ensures RStrip(s) == [] <==> IsBlank(s)
  {
    RStripDropsSpaces(s);
    var r := RStrip(s);
    if r != [] {
      assert !IsSpace(s[|r| - 1]);
    } else {
      assert s[0..] == s;
    }
  }

  /**
   * The cautiously formatted line is empty exactly when the line is blank,
   * ends in a non-whitespace character, has every run of two or more spaces
   * turned into exactly four, keeps every non-whitespace character as often
   * as the line has it, and formatting it again changes nothing.
   */
  lemma {:induction false} CautiouslyFormatLineShape(line: string)
    ensures var r := CautiouslyFormatLine(line);
      (r == [] <==> IsBlank(line)) &&
      (r == [] || NotSpace(r[|r| - 1])) &&
      Settled(r, IsSpaceChar, 2, "    ") &&
      (forall c :: NotSpace(c) ==> Count(r, c) == Count(line, c)) &&
      CautiouslyFormatLine(r) == r
  {
    var t := RStrip(line);
    var r := CautiouslyFormatLine(line);
    RStripEmptyIffBlank(line);
    if t != [] {
      SqueezeLast(t, IsSpaceChar, 2, "    ");
    }
    SqueezeSettles(t, IsSpaceChar, 2, "    ");
    forall c | NotSpace(c) ensures Count(r, c) == Count(line, c) {
      SqueezeCount(t, IsSpaceChar, 2, "    ", c);
      RStripCount(line, c);
    }
    assert RStrip(r) == r;
    SqueezeIdempotent(t, IsSpaceChar, 2, "    ");
  }

  /** `' ' * n`. */
  function Spaces(n: nat): (r: string)
    ensures |r| == n && forall i :: 0 <= i < n ==> r[i] == ' '
  {
    seq(n, _ => ' ')
  }

  /** `' '.join(line.split())` is empty exactly when the line is blank. */
  lemma {:induction false} CollapseWordsEmptyIffBlank(line: string)
    ensures CollapseWords(line) == [] <==> IsBlank(line)
  {
    WordsEmptyIffBlank(line);
    JoinWordsCollapsed(Words(line));
  }

  /** What the second pass of `_aggressively_preserve_tables` writes for a line that produces output. */
  function Render(line: string, cls: Label): string
  {
    if cls.Preserved() then RStrip(line)
    else if cls == TableContinuation then Strip(line)
    else if cls == PotentialTable then CautiouslyFormatLine(line)
    else Spaces(Min(LeadingSpaces(line), 4)) + CollapseWords(line)
  }

  /**
   * How each kind of line is written: a table line loses only its trailing
   * whitespace (so a line without any is copied byte for byte); a
   * continuation is stripped; any other text line keeps its words, in order,
   * behind at most four spaces of indentation, single-spaced. A non-blank
   * line never renders blank.
   */
  lemma {:induction false} RenderShape(line: string, cls: Label)
    requires !IsBlank(line)
    ensures var r := Render(line, cls);
      !IsBlank(r) &&
      (cls.Preserved() ==> line == r + line[|r|..] && IsBlank(line[|r|..])) &&
      (cls.Preserved() && (line == [] || NotSpace(line[|line| - 1])) ==> r == line) &&
      (cls == TableContinuation ==> Words(r) == Words(line) && NotSpace(r[0]) && NotSpace(r[|r| - 1])) &&
      (cls == PotentialTable ==> r == CautiouslyFormatLine(line)) &&
      (!cls.Preserved() && cls != TableContinuation && cls != PotentialTable ==>
        var k := Min(LeadingSpaces(line), 4);
        r[..k] == Spaces(k) && LeadingSpaces(r) == k && Words(r) == Words(line) && Collapsed(r[k..]))
  {
    var r := Render(line, cls);
    RenderNonBlank(line, cls);
    if cls.Preserved() {
      RStripDropsSpaces(line);
      assert line == r + line[|r|..];
    } else if cls == TableContinuation {
      StripNonBlank(line);
      StripShape(line);
      WordsOfStrip(line);
      StripEmptyIffBlank(line);
    } else if cls == PotentialTable {
    } else {
      var k := Min(LeadingSpaces(line), 4);
      var content := CollapseWords(line);
      CollapseWordsEmptyIffBlank(line);
      WordsEmptyIffBlank(line);
      JoinWordsStart(Words(line));
      JoinWordsCollapsed(Words(line));
      WordsOfJoin(Words(line));
      assert r == Spaces(k) + content;
      assert r[..k] == Spaces(k) && r[k..] == content;
      assert IsBlank(Spaces(k));
      LeadingSpacesPrefix(Spaces(k), content);
      WordsSkipSpaces(Spaces(k), content);
      assert NotSpace(r[k]);
    }
  }

  /** A non-blank line never renders blank. */
  lemma {:induction false} RenderNonBlank(line: string, cls: Label)
    requires !IsBlank(line)
    ensures !IsBlank(Render(line, cls))
  {
    var r := Render(line, cls);
    if cls.Preserved() {
      RStripNonBlank(line);
    } else if cls == TableContinuation {
      StripNonBlank(line);
    } else if cls == PotentialTable {
      CautiouslyFormatLineShape(line);
      assert r != [] && NotSpace(r[|r| - 1]);
    } else {
      var k := Min(LeadingSpaces(line), 4);
      CollapseWordsEmptyIffBlank(line);
      WordsEmptyIffBlank(line);
      JoinWordsStart(Words(line));
      assert r[k] == CollapseWords(line)[0];
    }
  }

  /**
   * The prose example, for any three words: irregular whitespace between
   * them collapses to single spaces ("The   company   grew." becomes
   * "The company grew.").
   */
  lemma {:induction false} ProseCollapses(a: string, b: string, c: string, g1: string, g2: string)
    requires IsWord(a) && IsWord(b) && IsWord(c)
    requires g1 != [] && IsBlank(g1) && g2 != [] && IsBlank(g2)
    ensures Render(a + g1 + b + g2 + c, RegularText) == a + " " + b + " " + c
  {
    var line := a + g1 + b + g2 + c;
    WordsOfThree(a, b, c, g1, g2);
    var ws := [a, b, c];
    assert ws[1..] == [b, c] && ws[1..][1..] == [c];
    assert JoinWith([c], " ") == c;
    assert JoinWith([b, c], " ") == b + " " + c;
    assert CollapseWords(line) == a + " " + b + " " + c;
    assert line[0] == a[0];
    assert LeadingSpaces(line) == 0;
    assert Spaces(0) == [];
    EmptyAppend(CollapseWords(line));
  }

  lemma {:induction false} WordsOfThree(a: string, b: string, c: string, g1: string, g2: string)
    requires IsWord(a) && IsWord(b) && IsWord(c)
    requires g1 != [] && IsBlank(g1) && g2 != [] && IsBlank(g2)
    ensures Words(a + g1 + b + g2 + c) == [a, b, c]
  {
    var tail := b + g2 + c;
    assert a + g1 + b + g2 + c == a + g1 + tail;
    WordsAfterWord(a, g1, tail);
    WordsAfterWord(b, g2, c);
    WordLenPrefix(c, []);
    assert c + [] == c;
    assert c[..|c|] == c && c[|c|..] == [];
    assert Words(c) == [c];
  }

  /** A word followed by whitespace is the first word of the text. */
  lemma {:induction false} WordsAfterWord(w: string, gap: string, rest: string)
    requires IsWord(w) && gap != [] && IsBlank(gap)
    ensures Words(w + gap + rest) == [w] + Words(rest)
  {
    var s := w + gap + rest;
    assert s == w + (gap + rest);
    WordLenPrefix(w, gap + rest);
    assert s[..|w|] == w && s[|w|..] == gap + rest;
    WordsSkipSpaces(gap, rest);
  }

  // ---------------------------------------------------------------------------
  // Lists of lines: shape predicates
  // ---------------------------------------------------------------------------

  /** The non-blank lines, in order. */
  function NonBlanks(lines: seq<string>): (r: seq<string>)
    ensures |r| <= |lines|
  {
    if lines == [] then []
    else (if IsBlank(lines[0]) then [] else [lines[0]]) + NonBlanks(lines[1..])
  }

  lemma {:induction false} NonBlanksAppend(a: seq<string>, b: seq<string>)
    ensures NonBlanks(a + b) == NonBlanks(a) + NonBlanks(b)
    decreases |a|
  {
    if a == [] {
      assert a + b == b;
    } else {
      assert (a + b)[0] == a[0] && (a + b)[1..] == a[1..] + b;
      NonBlanksAppend(a[1..], b);
    }
  }

  /** No leading blank line and no two blank lines in a row. */
  predicate Tidy(lines: seq<string>)
  {
    (lines != [] ==> !IsBlank(lines[0])) &&
    forall k :: 0 <= k < |lines| - 1 ==> !(IsBlank(lines[k]) && IsBlank(lines[k + 1]))
  }

  /** Every blank line is the empty string. */
  predicate BlanksAreEmpty(lines: seq<string>)
  {
    forall k :: 0 <= k < |lines| && IsBlank(lines[k]) ==> lines[k] == []
  }

  /**
   * `elif out and out[-1].strip(): out.append('')`: a paragraph break is
   * written only after a non-blank line.
   */
  function BreakParagraph(out: seq<string>): seq<string>
  {
    if out != [] && !IsBlank(out[|out| - 1]) then out + [[]] else out
  }

  lemma {:induction false} TidyAppendLine(out: seq<string>, x: string)
    requires Tidy(out) && BlanksAreEmpty(out) && !IsBlank(x)
    ensures Tidy(out + [x]) && BlanksAreEmpty(out + [x])
    ensures NonBlanks(out + [x]) == NonBlanks(out) + [x]
  {
    NonBlanksAppend(out, [x]);
    assert NonBlanks([x]) == [x];
  }

  lemma {:induction false} TidyBreak(out: seq<string>)
    requires Tidy(out) && BlanksAreEmpty(out)
    ensures Tidy(BreakParagraph(out)) && BlanksAreEmpty(BreakParagraph(out))
    ensures NonBlanks(BreakParagraph(out)) == NonBlanks(out)
    ensures |BreakParagraph(out)| <= |out| + 1
  {
    if out != [] && !IsBlank(out[|out| - 1]) {
      TidyAppendBreak(out);
      NonBlanksAppendBreak(out);
    }
  }

  /** An empty line after a non-blank last line keeps the list tidy. */
  lemma {:induction false} TidyAppendBreak(out: seq<string>)
    requires Tidy(out) && BlanksAreEmpty(out) && out != [] && !IsBlank(out[|out| - 1])
    ensures Tidy(out + [[]]) && BlanksAreEmpty(out + [[]])
  {
    var next := out + [[]];
    forall k | 0 <= k < |next| - 1 ensures !(IsBlank(next[k]) && IsBlank(next[k + 1])) {
      if k < |out| - 1 {
        assert next[k] == out[k] && next[k + 1] == out[k + 1];
      } else {
        assert next[k] == out[|out| - 1];
      }
    }
    forall k | 0 <= k < |next| && IsBlank(next[k]) ensures next[k] == [] {
      if k < |out| {
        assert next[k] == out[k];
      }
    }
  }

  /** An empty line adds no non-blank line. */
  lemma {:induction false} NonBlanksAppendBreak(out: seq<string>)
    ensures NonBlanks(out + [[]]) == NonBlanks(out)
  {
    var e: string := [];
    NonBlanksAppend(out, [e]);
    assert IsBlank(e);
    assert NonBlanks([e]) == [];
    AppendEmpty(NonBlanks(out));
  }

  // ---------------------------------------------------------------------------
  // _aggressively_preserve_tables
  // ---------------------------------------------------------------------------

  /** One step of the second pass: the output list after line `line` with cls `cls`. */
  function Step(out: seq<string>, line: string, cls: Label): seq<string>
  {
    if cls.Preserved() || cls == TableContinuation || cls == PotentialTable || CollapseWords(line) != [] then
      out + [Render(line, cls)]
    else BreakParagraph(out)
  }

  /** The second pass over the first `n` lines. */
  function Processed(lines: seq<string>, labels: seq<Label>, n: nat): seq<string>
    requires n <= |lines| && n <= |labels|
  {
    if n == 0 then [] else Step(Processed(lines, labels, n - 1), lines[n - 1], labels[n - 1])
  }

  /** The renderings of the non-blank lines among the first `n`, in order. */
  function Rendered(lines: seq<string>, labels: seq<Label>, n: nat): seq<string>
    requires n <= |lines| && n <= |labels|
  {
    if n == 0 then []
    else Rendered(lines, labels, n - 1) + (if IsBlank(lines[n - 1]) then [] else [Render(lines[n - 1], labels[n - 1])])
  }

  /** The labels give `Empty` to the blank lines and to no other. */
  predicate Labelled(lines: seq<string>, labels: seq<Label>)
  {
    |labels| == |lines| && forall i :: 0 <= i < |lines| ==> (labels[i] == Empty <==> IsBlank(lines[i]))
  }

  /** The first pass: `_classify_line_enhanced` of every line. */
  function Labels(p: Patterns, lines: seq<string>): (r: seq<Label>)
    ensures Labelled(lines, r)
  {
    seq(|lines|, i requires 0 <= i < |lines| => Classify(p, lines, i))
  }

  /**
   * The second pass writes at most one line per input line; its non-blank
   * lines are the renderings of the non-blank input lines, one each and in
   * order; and its blank lines are empty strings, never first and never two
   * in a row.
   */
  lemma {:induction false} ProcessedShape(lines: seq<string>, labels: seq<Label>, n: nat)
    requires Labelled(lines, labels) && n <= |lines|
    ensures var out := Processed(lines, labels, n);
      |out| <= n && Tidy(out) && BlanksAreEmpty(out) && NonBlanks(out) == Rendered(lines, labels, n)
  {
    if n > 0 {
      ProcessedShape(lines, labels, n - 1);
      StepShape(Processed(lines, labels, n - 1), lines[n - 1], labels[n - 1]);
    }
  }

  /** One step of the second pass keeps the output tidy and adds the rendering of a non-blank line. */
  lemma {:induction false} StepShape(out: seq<string>, line: string, cls: Label)
    requires Tidy(out) && BlanksAreEmpty(out) && (cls == Empty <==> IsBlank(line))
    ensures var next := Step(out, line, cls);
      |next| <= |out| + 1 && Tidy(next) && BlanksAreEmpty(next) &&
      NonBlanks(next) == NonBlanks(out) + (if IsBlank(line) then [] else [Render(line, cls)])
  {
    CollapseWordsEmptyIffBlank(line);
    if !IsBlank(line) {
      RenderNonBlank(line, cls);
      TidyAppendLine(out, Render(line, cls));
    } else {
      TidyBreak(out);
      AppendEmpty(NonBlanks(out));
    }
  }

  /** `_aggressively_preserve_tables` as a line list: classify, rewrite, cap blank runs. */
  function PreservedLines(p: Patterns, lines: seq<string>): seq<string>
  {
    CappedBlanks(Processed(lines, Labels(p, lines), |lines|))
  }

  /**
   * The blank-run cap of the third pass never fires: after the second pass no
   * two blank lines are adjacent. The result has no leading blank, no two
   * blanks in a row, at most one line per input line, and exactly one
   * rendering per non-blank input line, in order.
   */
  lemma {:induction false} PreservedLinesShape(p: Patterns, lines: seq<string>)
    ensures var labels := Labels(p, lines); var out := PreservedLines(p, lines);
      out == Processed(lines, labels, |lines|) &&
      |out| <= |lines| && Tidy(out) && BlanksAreEmpty(out) &&
      NonBlanks(out) == Rendered(lines, labels, |lines|)
  {
    var labels := Labels(p, lines);
    var out := Processed(lines, labels, |lines|);
    ProcessedShape(lines, labels, |lines|);
    TidyLeadingBlanks(out);
    CappedBlanksKeeps(out, 0);
  }

  /** `_aggressively_preserve_tables(text)`. */
  method AggressivelyPreserveTables(p: Patterns, text: string) returns (r: string)
    ensures r == JoinWith(PreservedLines(p, Split(text, '\n')), "\n")
  {
    var lines := Split(text, '\n');
    var lineClassifications := ClassifyLines(p, lines);
    var processedLines: seq<string> := [];
    var i := 0;
    while i < |lines|
      invariant i <= |lines|
      invariant processedLines == Processed(lines, lineClassifications, i)
    {
      processedLines := ProcessLine(processedLines, lines[i], lineClassifications[i]);
      i := i + 1;
    }
    var result := CleanExcessiveEmptyLines(processedLines);
    r := JoinWith(result, "\n");
  }

  /** The first loop of `_aggressively_preserve_tables`: one classification per line. */
  method ClassifyLines(p: Patterns, lines: seq<string>) returns (lineClassifications: seq<Label>)
    ensures lineClassifications == Labels(p, lines)
  {
    lineClassifications := [];
    var i := 0;
    while i < |lines|
      invariant i <= |lines| && |lineClassifications| == i
      invariant forall k :: 0 <= k < i ==> lineClassifications[k] == Classify(p, lines, k)
    {
      lineClassifications := lineClassifications + [Classify(p, lines, i)];
      i := i + 1;
    }
  }

  /** The body of the second loop of `_aggressively_preserve_tables` for one line and its classification. */
  method ProcessLine(processedLines: seq<string>, line: string, classification: Label) returns (out: seq<string>)
    ensures out == Step(processedLines, line, classification)
  {
    if classification.Preserved() {
      out := processedLines + [RStrip(line)];
    } else if classification == TableContinuation {
      out := processedLines + [Strip(line)];
    } else if classification == PotentialTable {
      out := processedLines + [CautiouslyFormatLine(line)];
    } else {
      var indent := LeadingSpaces(line);
      var cleaned := CollapseWords(line);
      if cleaned != [] {
        out := processedLines + [Spaces(Min(indent, 4)) + cleaned];
      } else if processedLines != [] && !IsBlank(processedLines[|processedLines| - 1]) {
        out := processedLines + [[]];
      } else {
        out := processedLines;
      }
    }
  }

  // ---------------------------------------------------------------------------
  // _clean_excessive_empty_lines
  // ---------------------------------------------------------------------------

  /**
   * The loop of `_clean_excessive_empty_lines` from a point where the last
   * `empty` lines seen were blank: a blank line is kept while it is at most
   * the third of its run.
   */
  function CappedFrom(lines: seq<string>, empty: nat): seq<string>
    decreases |lines|
  {
    if lines == [] then []
    else if IsBlank(lines[0]) then
      (if empty + 1 <= 3 then [lines[0]] else []) + CappedFrom(lines[1..], empty + 1)
    else [lines[0]] + CappedFrom(lines[1..], 0)
  }

  /** `_clean_excessive_empty_lines(lines)`. */
  function CappedBlanks(lines: seq<string>): seq<string>
  {
    CappedFrom(lines, 0)
  }

  /** `_clean_excessive_empty_lines(lines)`. */
  method CleanExcessiveEmptyLines(lines: seq<string>) returns (result: seq<string>)
    ensures result == CappedBlanks(lines)
  {
    result := [];
    var emptyCount := 0;
    var i := 0;
    while i < |lines|
      invariant i <= |lines|
      invariant result + CappedFrom(lines[i..], emptyCount) == CappedBlanks(lines)
    {
      var line := lines[i];
      assert lines[i..] == [line] + lines[i + 1..];
      StripEmptyIffBlank(line);
      if Strip(line) == [] {
        emptyCount := emptyCount + 1;
        if emptyCount <= 3 {
          AppendAssoc(result, [line], CappedFrom(lines[i + 1..], emptyCount));
          result := result + [line];
        } else {
          EmptyAppend(CappedFrom(lines[i + 1..], emptyCount));
        }
      } else {
        emptyCount := 0;
        AppendAssoc(result, [line], CappedFrom(lines[i + 1..], emptyCount));
        result := result + [line];
      }
      i := i + 1;
    }
    assert lines[i..] == [];
    AppendEmpty(result);
  }

  /** The number of blank lines the list starts with. */
  function LeadingBlanks(lines: seq<string>): (n: nat)
    ensures n <= |lines|
  {
    if lines != [] && IsBlank(lines[0]) then 1 + LeadingBlanks(lines[1..]) else 0
  }

  /** No four blank lines in a row. */
  predicate NoFourBlanks(lines: seq<string>)
    decreases |lines|
  {
    |lines| < 4 ||
    (!(IsBlank(lines[0]) && IsBlank(lines[1]) && IsBlank(lines[2]) && IsBlank(lines[3])) &&
     NoFourBlanks(lines[1..]))
  }

  /** `a` is `b` with some elements left out. */
  predicate SubseqOf(a: seq<string>, b: seq<string>)
    decreases |b|
  {
    if b == [] then a == []
    else (a != [] && a[0] == b[0] && SubseqOf(a[1..], b[1..])) || SubseqOf(a, b[1..])
  }

  /** A tidy list starts with no blank and has no run of four. */
  lemma {:induction false} TidyLeadingBlanks(lines: seq<string>)
    requires Tidy(lines)
    ensures LeadingBlanks(lines) == 0 && NoFourBlanks(lines)
  {
    NoDoubleNoFour(lines);
  }

  /** No two blank lines in a row rules out four. */
  lemma {:induction false} NoDoubleNoFour(lines: seq<string>)
    requires forall k :: 0 <= k < |lines| - 1 ==> !(IsBlank(lines[k]) && IsBlank(lines[k + 1]))
    ensures NoFourBlanks(lines)
    decreases |lines|
  {
    if |lines| >= 4 {
      var rest := lines[1..];
      forall k | 0 <= k < |rest| - 1 ensures !(IsBlank(rest[k]) && IsBlank(rest[k + 1])) {
        assert rest[k] == lines[k + 1] && rest[k + 1] == lines[k + 2];
      }
      NoDoubleNoFour(rest);
    }
  }

  /**
   * The cap drops lines only where a run of four blanks would otherwise
   * be: a list with no such run, whose leading blanks fit under the cap, is
   * kept as it is.
   */
  lemma {:induction false} CappedBlanksKeeps(lines: seq<string>, empty: nat)
    requires NoFourBlanks(lines) && LeadingBlanks(lines) + empty <= 3
    ensures CappedFrom(lines, empty) == lines
    decreases |lines|
  {
    if lines != [] {
      var rest := lines[1..];
      assert NoFourBlanks(rest);
      if IsBlank(lines[0]) {
        CappedBlanksKeeps(rest, empty + 1);
      } else {
        if LeadingBlanks(rest) > 3 {
          LeadingBlanksBlank(rest, 0);
          LeadingBlanksBlank(rest, 1);
          LeadingBlanksBlank(rest, 2);
          LeadingBlanksBlank(rest, 3);
        }
        CappedBlanksKeeps(rest, 0);
      }
      assert [lines[0]] + rest == lines;
    }
  }

  lemma {:induction false} LeadingBlanksBlank(lines: seq<string>, k: nat)
    requires k < LeadingBlanks(lines)
    ensures IsBlank(lines[k])
    decreases k
  {
    if k > 0 {
      LeadingBlanksBlank(lines[1..], k - 1);
    }
  }

  /** The capped list keeps every non-blank line, in order. */
  lemma {:induction false} CappedFromNonBlanks(lines: seq<string>, empty: nat)
    ensures NonBlanks(CappedFrom(lines, empty)) == NonBlanks(lines)
    decreases |lines|
  {
    if lines != [] {
      var rest := lines[1..];
      var head := lines[0];
      var e := if IsBlank(head) then empty + 1 else 0;
      var tail := CappedFrom(rest, e);
      CappedFromNonBlanks(rest, e);
      if IsBlank(head) && empty + 1 > 3 {
        EmptyAppend(tail);
      } else {
        NonBlanksAppend([head], tail);
        assert NonBlanks([head]) == if IsBlank(head) then [] else [head];
      }
    }
  }

  /** The cap leaves lines out but never adds or changes one. */
  lemma {:induction false} CappedFromSubseq(lines: seq<string>, empty: nat)
    ensures SubseqOf(CappedFrom(lines, empty), lines)
    decreases |lines|
  {
    if lines != [] {
      var rest := lines[1..];
      var head := lines[0];
      var e := if IsBlank(head) then empty + 1 else 0;
      var tail := CappedFrom(rest, e);
      CappedFromSubseq(rest, e);
      if IsBlank(head) && empty + 1 > 3 {
        EmptyAppend(tail);
      } else {
        var out := [head] + tail;
        assert out[0] == head && out[1..] == tail;
      }
    }
  }

  /** The capped list starts with at most `3 - empty` blanks and has no run of four. */
  lemma {:induction false} CappedFromRuns(lines: seq<string>, empty: nat)
    ensures var out := CappedFrom(lines, empty);
      LeadingBlanks(out) + Min(empty, 3) <= 3 && NoFourBlanks(out)
    decreases |lines|
  {
    if lines != [] {
      var rest := lines[1..];
      var head := lines[0];
      var e := if IsBlank(head) then empty + 1 else 0;
      var tail := CappedFrom(rest, e);
      CappedFromRuns(rest, e);
      if IsBlank(head) && empty + 1 > 3 {
        EmptyAppend(tail);
      } else {
        var out := [head] + tail;
        assert out[0] == head && out[1..] == tail;
        NoFourCons(head, tail);
      }
    }
  }

  /** Putting a line in front of a list with at most two leading blanks keeps it free of runs of four. */
  lemma {:induction false} NoFourCons(head: string, tail: seq<string>)
    requires NoFourBlanks(tail) && (IsBlank(head) ==> LeadingBlanks(tail) <= 2)
    ensures NoFourBlanks([head] + tail)
  {
    var s := [head] + tail;
    assert s[1..] == tail;
    if |tail| >= 3 {
      LeadingThree(tail);
      assert s[1] == tail[0] && s[2] == tail[1] && s[3] == tail[2];
    }
  }

  /** Three leading blank lines are counted. */
  lemma {:induction false} LeadingThree(lines: seq<string>)
    requires |lines| >= 3
    ensures IsBlank(lines[0]) && IsBlank(lines[1]) && IsBlank(lines[2]) ==> LeadingBlanks(lines) >= 3
  {
    var t1 := lines[1..];
    var t2 := t1[1..];
    assert t1[0] == lines[1] && t2[0] == lines[2];
    if IsBlank(lines[0]) && IsBlank(lines[1]) && IsBlank(lines[2]) {
      assert LeadingBlanks(t2) >= 1;
      assert LeadingBlanks(t1) >= 2;
    }
  }

  /** Beyond three blanks the count no longer matters. */
  lemma {:induction false} CappedFromSaturates(lines: seq<string>, a: nat, b: nat)
    requires a >= 3 && b >= 3
    ensures CappedFrom(lines, a) == CappedFrom(lines, b)
    decreases |lines|
  {
    if lines != [] && IsBlank(lines[0]) {
      CappedFromSaturates(lines[1..], a + 1, b + 1);
    }
  }

  /** Capping blank runs twice is capping them once. */
  lemma {:induction false} CappedFromIdempotent(lines: seq<string>, empty: nat)
    requires empty <= 3
    ensures CappedFrom(CappedFrom(lines, empty), empty) == CappedFrom(lines, empty)
    decreases |lines|
  {
    if lines != [] {
      var rest := lines[1..];
      var head := lines[0];
      if IsBlank(head) {
        if empty + 1 <= 3 {
          var out := [head] + CappedFrom(rest, empty + 1);
          CappedFromIdempotent(rest, empty + 1);
          assert out[0] == head && out[1..] == CappedFrom(rest, empty + 1);
        } else {
          CappedFromSaturates(rest, empty + 1, empty);
          EmptyAppend(CappedFrom(rest, empty + 1));
          CappedFromIdempotent(rest, empty);
        }
      } else {
        var out := [head] + CappedFrom(rest, 0);
        CappedFromIdempotent(rest, 0);
        assert out[0] == head && out[1..] == CappedFrom(rest, 0);
      }
    }
  }

  lemma {:induction false} CappedBlanksIdempotent(lines: seq<string>)
    ensures CappedBlanks(CappedBlanks(lines)) == CappedBlanks(lines)
  {
    CappedFromIdempotent(lines, 0);
  }

  // ---------------------------------------------------------------------------
  // _remove_empty_lines
  // ---------------------------------------------------------------------------

  /** The loop of `_remove_empty_lines` over the first `n` lines. */
  function Paragraphs(lines: seq<string>, n: nat): seq<string>
    requires n <= |lines|
  {
    if n == 0 then []
    else
      var out := Paragraphs(lines, n - 1);
      if !IsBlank(lines[n - 1]) then out + [lines[n - 1]] else BreakParagraph(out)
  }

  /**
   * The non-blank lines all survive, unchanged and in order; at most one line
   * is written per input line; the blank lines written are empty strings,
   * never first and never two in a row.
   */
  lemma {:induction false} ParagraphsShape(lines: seq<string>, n: nat)
    requires n <= |lines|
    ensures var out := Paragraphs(lines, n);
      |out| <= n && Tidy(out) && BlanksAreEmpty(out) && NonBlanks(out) == NonBlanks(lines[..n])
  {
    if n > 0 {
      var out := Paragraphs(lines, n - 1);
      ParagraphsShape(lines, n - 1);
      NonBlanksPrefix(lines, n);
      if !IsBlank(lines[n - 1]) {
        TidyAppendLine(out, lines[n - 1]);
      } else {
        TidyBreak(out);
      }
    }
  }

  /** The non-blank lines of a prefix grow by the next line exactly when it is not blank. */
  lemma {:induction false} NonBlanksPrefix(lines: seq<string>, n: nat)
    requires 0 < n <= |lines|
    ensures NonBlanks(lines[..n]) == NonBlanks(lines[..n - 1]) + (if IsBlank(lines[n - 1]) then [] else [lines[n - 1]])
  {
    assert lines[..n] == lines[..n - 1] + [lines[n - 1]];
    NonBlanksAppend(lines[..n - 1], [lines[n - 1]]);
    assert NonBlanks([lines[n - 1]]) == (if IsBlank(lines[n - 1]) then [] else [lines[n - 1]]);
  }

  /** `_remove_empty_lines(text)`. */
  method RemoveEmptyLines(text: string) returns (r: string)
    ensures r == JoinWith(Paragraphs(Split(text, '\n'), |Split(text, '\n')|), "\n")
  {
    var lines := Split(text, '\n');
    var nonEmptyLines: seq<string> := [];
    var i := 0;
    while i < |lines|
      invariant i <= |lines| && nonEmptyLines == Paragraphs(lines, i)
    {
      var line := lines[i];
      StripEmptyIffBlank(line);
      if Strip(line) != [] {
        nonEmptyLines := nonEmptyLines + [line];
      } else if nonEmptyLines != [] && Strip(nonEmptyLines[|nonEmptyLines| - 1]) != [] {
        StripEmptyIffBlank(nonEmptyLines[|nonEmptyLines| - 1]);
        nonEmptyLines := nonEmptyLines + [[]];
      } else {
        if nonEmptyLines != [] {
          StripEmptyIffBlank(nonEmptyLines[|nonEmptyLines| - 1]);
        }
      }
      i := i + 1;
    }
    r := JoinWith(nonEmptyLines, "\n");
  }

  // ---------------------------------------------------------------------------
  // Whitespace, CSV fields, control characters
  // ---------------------------------------------------------------------------

  predicate IsSpaceOrTab(c: char) { c == ' ' || c == '\t' }

  /**
   * `_normalize_whitespace`: `re.sub(r'[ \t]+', ' ', text)`, then
   * `.replace('\r\n', '\n').replace('\r', '\n')`.
   */
  function NormalizeWhitespace(text: string): string
  {
    var spaced := Squeeze(text, IsSpaceOrTab, 1, " ");
    ReplaceAll(ReplaceAll(spaced, "\r\n", "\n"), "\r", "\n")
  }

  /**
   * The normalised text has no tab, no carriage return and no two spaces
   * side by side, and every character other than space, tab, '\r' and '\n'
   * occurs in it as often as in the input.
   */
  lemma {:induction false} NormalizeWhitespaceShape(text: string)
    ensures var r := NormalizeWhitespace(text);
      '\t' !in r && '\r' !in r && NoAdjacent(r, IsSpaceOrTab) &&
      forall c :: c != ' ' && c != '\t' && c != '\r' && c != '\n' ==> Count(r, c) == Count(text, c)
  {
    var spaced := Squeeze(text, IsSpaceOrTab, 1, " ");
    var joined := ReplaceAll(spaced, "\r\n", "\n");
    var r := ReplaceAll(joined, "\r", "\n");
    SqueezeSettles(text, IsSpaceOrTab, 1, " ");
    SettledSingles(spaced, IsSpaceOrTab, ' ');
    assert '\t' !in spaced by {
      if '\t' in spaced {
        var i :| 0 <= i < |spaced| && spaced[i] == '\t';
        assert IsSpaceOrTab(spaced[i]);
      }
    }
    ReplaceAllFree(spaced, "\r\n", "\n", '\t');
    ReplaceAllFree(joined, "\r", "\n", '\t');
    ReplaceRemoves(joined, '\r', "\n");
    ReplaceKeepsNoAdjacent(spaced, "\r\n", "\n", IsSpaceOrTab);
    ReplaceKeepsNoAdjacent(joined, "\r", "\n", IsSpaceOrTab);
    forall c | c != ' ' && c != '\t' && c != '\r' && c != '\n' ensures Count(r, c) == Count(text, c) {
      SqueezeCount(text, IsSpaceOrTab, 1, " ", c);
      ReplaceCountOther(spaced, "\r\n", "\n", c);
      ReplaceCountOther(joined, "\r", "\n", c);
    }
  }

  /**
   * `clean_for_csv`: line breaks become spaces, every whitespace run one
   * space, every '"' is doubled, and the ends are stripped.
   */
  function CleanForCsv(text: string): string
  {
    var flat := ReplaceAll(ReplaceAll(text, "\n", " "), "\r", " ");
    var spaced := Squeeze(flat, IsSpace, 1, " ");
    Strip(ReplaceAll(spaced, "\"", "\"\""))
  }

  /**
   * A CSV field has no line break, no two whitespace characters side by
   * side, no whitespace at either end, and exactly twice as many '"' as the
   * text it came from.
   */
  lemma {:induction false} CleanForCsvShape(text: string)
    ensures var r := CleanForCsv(text);
      '\n' !in r && '\r' !in r && NoAdjacent(r, IsSpace) &&
      (r == [] || (NotSpace(r[0]) && NotSpace(r[|r| - 1]))) &&
      Count(r, '"') == 2 * Count(text, '"')
  {
    var flat := ReplaceAll(ReplaceAll(text, "\n", " "), "\r", " ");
    var spaced := Squeeze(flat, IsSpace, 1, " ");
    var quoted := ReplaceAll(spaced, "\"", "\"\"");
    var r := Strip(quoted);
    CsvQuoted(flat);
    StripShape(quoted);
    var k := |quoted| - |LStrip(quoted)|;
    assert SliceAt(r, quoted, k);
    SliceChars(r, quoted, k);
    SliceKeepsNoAdjacent(quoted, k, k + |r|, IsSpace);
    CsvQuoteCount(text);
    StripCount(quoted, '"');
  }

  /** After the squeeze and the quote doubling there is no line break and no whitespace pair. */
  lemma {:induction false} CsvQuoted(flat: string)
    ensures var quoted := ReplaceAll(Squeeze(flat, IsSpace, 1, " "), "\"", "\"\"");
      '\n' !in quoted && '\r' !in quoted && NoAdjacent(quoted, IsSpace)
  {
    var spaced := Squeeze(flat, IsSpace, 1, " ");
    SqueezeSettles(flat, IsSpace, 1, " ");
    SettledSingles(spaced, IsSpace, ' ');
    assert '\n' !in spaced && '\r' !in spaced by {
      if '\n' in spaced || '\r' in spaced {
        var i :| 0 <= i < |spaced| && (spaced[i] == '\n' || spaced[i] == '\r');
        assert IsSpace(spaced[i]);
      }
    }
    ReplaceAllFree(spaced, "\"", "\"\"", '\n');
    ReplaceAllFree(spaced, "\"", "\"\"", '\r');
    ReplaceKeepsNoAdjacent(spaced, "\"", "\"\"", IsSpace);
  }

  /** Each '"' of the text is doubled. */
  lemma {:induction false} CsvQuoteCount(text: string)
    ensures var noLf := ReplaceAll(text, "\n", " ");
      var spaced := Squeeze(ReplaceAll(noLf, "\r", " "), IsSpace, 1, " ");
      Count(ReplaceAll(spaced, "\"", "\"\""), '"') == 2 * Count(text, '"')
  {
    var noLf := ReplaceAll(text, "\n", " ");
    var flat := ReplaceAll(noLf, "\r", " ");
    var spaced := Squeeze(flat, IsSpace, 1, " ");
    ReplaceCountOther(text, "\n", " ", '"');
    ReplaceCountOther(noLf, "\r", " ", '"');
    SqueezeCount(flat, IsSpace, 1, " ", '"');
    ReplaceCountSelf(spaced, '"', "\"\"");
    assert Count("\"\"", '"') == 2;
  }

  /** The characters `_replace_control_chars` replaces: C0 and C1 controls other than tab, '\n' and '\r'. */
  predicate IsControl(c: char)
  {
    ('\0' <= c <= '\U{08}') || ('\U{0B}' <= c <= '\U{0C}') || ('\U{0E}' <= c <= '\U{1F}') ||
    ('\U{7F}' <= c <= '\U{9F}')
  }

  /** `_replace_control_chars`, with the replacement text as a parameter. */
  function ReplaceControlChars(text: string, replacement: string): string
    decreases |text|
  {
    if text == [] then []
    else (if IsControl(text[0]) then replacement else [text[0]]) + ReplaceControlChars(text[1..], replacement)
  }

  /**
   * With a replacement free of control characters none is left; every
   * character that is not a control character and not in the replacement,
   * tab and line breaks among them, keeps its number of occurrences.
   */
  lemma {:induction false} ReplaceControlCharsShape(text: string, replacement: string, c: char)
    ensures (forall i :: 0 <= i < |replacement| ==> !IsControl(replacement[i])) ==>
      forall i :: 0 <= i < |ReplaceControlChars(text, replacement)| ==> !IsControl(ReplaceControlChars(text, replacement)[i])
    ensures !IsControl(c) && c !in replacement ==> Count(ReplaceControlChars(text, replacement), c) == Count(text, c)
    decreases |text|
  {
    if text != [] {
      var head := if IsControl(text[0]) then replacement else [text[0]];
      var tail := ReplaceControlChars(text[1..], replacement);
      ReplaceControlCharsShape(text[1..], replacement, c);
      CountAppend(head, tail, c);
      if IsControl(text[0]) {
        CountPositive(replacement, c);
      }
      var r := head + tail;
      forall i | 0 <= i < |r| ensures r[i] == (if i < |head| then head[i] else tail[i - |head|]) {
      }
    }
  }

  /** Text without control characters goes through unchanged. */
  lemma {:induction false} ReplaceControlCharsClean(text: string, replacement: string)
    requires forall i :: 0 <= i < |text| ==> !IsControl(text[i])
    ensures ReplaceControlChars(text, replacement) == text
    decreases |text|
  {
    if text != [] {
      ReplaceControlCharsClean(text[1..], replacement);
      assert [text[0]] + text[1..] == text;
    }
  }

  // ---------------------------------------------------------------------------
  // sanitize_filename
  // ---------------------------------------------------------------------------

  /** The characters `sanitize_filename` replaces by a space, in the order it replaces them. */
  const IllegalChars: seq<char> := ['/', '\\', ':', '*', '?', '"', '<', '>', '|', '\n', '\r', '\t']

  /** The longest name `sanitize_filename` returns. */
  const MaxNameLength: nat := 50

  /** The loop of `sanitize_filename` after its first `k` replacements. */
  function ReplacedUpTo(name: string, k: nat): string
    requires k <= |IllegalChars|
  {
    if k == 0 then name else ReplaceAll(ReplacedUpTo(name, k - 1), [IllegalChars[k - 1]], " ")
  }

  /** The name after the replacements, the whitespace squeeze and `strip(' .')`. */
  function TrimmedName(name: string): string
  {
    StripChars(Squeeze(ReplacedUpTo(name, |IllegalChars|), IsSpace, 1, " "), " .")
  }

  /** `sanitize_filename(name)`. */
  function SanitizedFilename(name: string): string
  {
    var trimmed := TrimmedName(name);
    if |trimmed| > MaxNameLength then Strip(trimmed[..MaxNameLength]) else trimmed
  }

  /** `sanitize_filename(name)`. */
  method SanitizeFilename(name: string) returns (r: string)
    ensures r == SanitizedFilename(name)
  {
    r := name;
    var k := 0;
    while k < |IllegalChars|
      invariant k <= |IllegalChars| && r == ReplacedUpTo(name, k)
    {
      r := ReplaceAll(r, [IllegalChars[k]], " ");
      k := k + 1;
    }
    r := Squeeze(r, IsSpace, 1, " ");
    r := StripChars(r, " .");
    if |r| > MaxNameLength {
      r := Strip(r[..MaxNameLength]);
    }
  }

  /** A character a sanitized name may hold: not illegal, and whitespace only as a plain space. */
  predicate NameChar(c: char)
  {
    c !in IllegalChars && (IsSpace(c) ==> c == ' ')
  }

  /** After `k` replacements none of the first `k` illegal characters is left. */
  lemma {:induction false} ReplacedUpToFree(name: string, k: nat)
    requires k <= |IllegalChars|
    ensures forall j :: 0 <= j < k ==> IllegalChars[j] !in ReplacedUpTo(name, k)
  {
    if k > 0 {
      var prev := ReplacedUpTo(name, k - 1);
      ReplacedUpToFree(name, k - 1);
      ReplaceRemoves(prev, IllegalChars[k - 1], " ");
      forall j | 0 <= j < k - 1 ensures IllegalChars[j] !in ReplacedUpTo(name, k) {
        ReplaceAllFree(prev, [IllegalChars[k - 1]], " ", IllegalChars[j]);
      }
    }
  }

  /**
   * The trimmed name holds no illegal character, its whitespace is single
   * spaces never side by side, and it neither starts nor ends with a space
   * or a '.'.
   */
  lemma {:induction false} TrimmedNameShape(name: string)
    ensures var t := TrimmedName(name);
      (forall c :: c in t ==> NameChar(c)) &&
      NoAdjacent(t, IsSpace) &&
      (t == [] || (t[0] != ' ' && t[0] != '.' && NotSpace(t[0]) && NotSpace(t[|t| - 1]) && t[|t| - 1] != '.'))
  {
    SpacedNameShape(name);
    StripNameShape(Squeeze(ReplacedUpTo(name, |IllegalChars|), IsSpace, 1, " "));
  }

  /** `strip(' .')` keeps the name characters and their spacing, and leaves no whitespace at the ends. */
  lemma {:induction false} StripNameShape(spaced: string)
    requires forall c :: c in spaced ==> NameChar(c)
    requires NoAdjacent(spaced, IsSpace)
    ensures var t := StripChars(spaced, " .");
      (forall c :: c in t ==> NameChar(c)) &&
      NoAdjacent(t, IsSpace) &&
      (t == [] || (t[0] != ' ' && t[0] != '.' && NotSpace(t[0]) && NotSpace(t[|t| - 1]) && t[|t| - 1] != '.'))
  {
    var t := StripChars(spaced, " .");
    var k :| 0 <= k && SliceAt(t, spaced, k);
    SliceNameChars(t, spaced, k);
    SliceSpacing(t, spaced, k);
    if t != [] {
      NameEnds(t);
    }
  }

  /** A slice of a name of name characters holds only name characters. */
  lemma {:induction false} SliceNameChars(t: string, spaced: string, k: nat)
    requires SliceAt(t, spaced, k) && forall c :: c in spaced ==> NameChar(c)
    ensures forall c :: c in t ==> NameChar(c)
  {
    SliceChars(t, spaced, k);
  }

  /** A slice of a string without adjacent whitespace has none either. */
  lemma {:induction false} SliceSpacing(t: string, spaced: string, k: nat)
    requires SliceAt(t, spaced, k) && NoAdjacent(spaced, IsSpace)
    ensures NoAdjacent(t, IsSpace)
  {
    SliceKeepsNoAdjacent(spaced, k, k + |t|, IsSpace);
  }

  /** A name of name characters whose ends are neither a space nor a '.' has no whitespace at its ends. */
  lemma {:induction false} NameEnds(t: string)
    requires t != [] && forall c :: c in t ==> NameChar(c)
    requires t[0] !in " ." && t[|t| - 1] !in " ."
    ensures t[0] != ' ' && t[0] != '.' && NotSpace(t[0]) && NotSpace(t[|t| - 1]) && t[|t| - 1] != '.'
  {
    assert NameChar(t[0]) by { assert t[0] in t; }
    assert NameChar(t[|t| - 1]) by { assert t[|t| - 1] in t; }
  }

  /** After the replacements and the squeeze: no illegal character, whitespace only as lone spaces. */
  lemma {:induction false} SpacedNameShape(name: string)
    ensures var spaced := Squeeze(ReplacedUpTo(name, |IllegalChars|), IsSpace, 1, " ");
      (forall c :: c in spaced ==> NameChar(c)) &&
      NoAdjacent(spaced, IsSpace)
  {
    var replaced := ReplacedUpTo(name, |IllegalChars|);
    var spaced := Squeeze(replaced, IsSpace, 1, " ");
    ReplacedUpToFree(name, |IllegalChars|);
    SqueezeChars(replaced, IsSpace, 1, " ");
    SqueezeSettles(replaced, IsSpace, 1, " ");
    SettledSingles(spaced, IsSpace, ' ');
    forall c | c in spaced ensures NameChar(c) {
      var i :| 0 <= i < |spaced| && spaced[i] == c;
    }
  }

  /**
   * `sanitize_filename` returns at most 50 characters, none of them one of
   * the twelve illegal characters, whitespace only as single spaces never
   * side by side, no space or '.' first, and no whitespace last.
   */
  lemma {:induction false} SanitizedFilenameShape(name: string)
    ensures var r := SanitizedFilename(name);
      |r| <= MaxNameLength &&
      (forall c :: c in r ==> NameChar(c)) &&
      NoAdjacent(r, IsSpace) &&
      (r == [] || (r[0] != ' ' && r[0] != '.' && NotSpace(r[|r| - 1])))
  {
    var t := TrimmedName(name);
    TrimmedNameShape(name);
    if |t| > MaxNameLength {
      var u := t[..MaxNameLength];
      var r := Strip(u);
      assert forall c :: c in u ==> c in t;
      assert NotSpace(u[0]) && LStrip(u) == u;
      StripShape(u);
      RStripDropsSpaces(u);
      assert r == u[..|r|];
      assert !IsBlank(u) by { assert NotSpace(u[0]); }
      RStripEmptyIffBlank(u);
      assert r[0] == t[0];
      SliceChars(r, u, 0);
      SliceKeepsNoAdjacent(t, 0, MaxNameLength, IsSpace);
      SliceKeepsNoAdjacent(u, 0, |r|, IsSpace);
    }
  }
}
