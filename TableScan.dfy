/**
 * The scanning half of the base table detector (src/parsers/table_parser.py):
 * the three strategy loops that share one set of consumed line numbers,
 * `_deduplicate_tables`, `identify_tables`, and `preserve_tables_in_text`,
 * which splices the tables back into the text.
 */
module TableScan {
  import opened Wrappers
  import opened Strings
  import opened Sorting
  import opened Runs
  import opened Seqs
  import opened TableParser

  // ---------------------------------------------------------------------------
  // Candidates
  // ---------------------------------------------------------------------------

  /** The three `_identify_*_tables` loops, named by the anchor test each applies. */
  datatype Strategy = FinancialStrategy | DelimitedStrategy | AlignedStrategy

  /** The pipe anchor of `_identify_delimited_tables`: at least two '|' characters. */
  predicate PipeAnchor(line: string)
  {
    '|' in line && Count(line, '|') >= 2
  }

  /**
   * The configurations a strategy is modelled for: a financial table of no
   * rows would end one line above its anchor, so the financial strategy
   * needs `TABLE_MIN_ROWS >= 1`; the others take any value.
   */
  predicate Admits(cfg: Config, st: Strategy)
  {
    st.FinancialStrategy? ==> cfg.minRows >= 1
  }

  /**
   * What strategy `st` finds at an unconsumed line `i`: its anchor test, then
   * its extractor. A delimiter line whose extractor fails is not retried as a
   * pipe table.
   */
  function CandidateAt(p: Patterns, cfg: Config, st: Strategy, lines: seq<string>, i: nat): (r: Option<Table>)
    requires Admits(cfg, st) && i < |lines|
    ensures r.Some? ==>
      r.value.startLine <= i <= r.value.endLine < |lines| && i <= r.value.startLine + 1 &&
      r.value.rawLines == Rows(lines, r.value.startLine, r.value.endLine + 1)
  {
    match st
    case FinancialStrategy =>
      if lines[i] in p.financialHeader then FinancialTableAt(p, cfg, lines, i) else None
    case DelimitedStrategy =>
      if IsHorizontalDelimiter(lines[i]) then DelimitedTableAt(p, cfg, lines, i)
      else if PipeAnchor(lines[i]) then PipeTableAt(p, cfg, lines, i)
      else None
    case AlignedStrategy =>
      if lines[i] in p.tableHeader then AlignedTableAt(p, cfg, lines, i) else None
  }

  /**
   * Every candidate lies within the text, covers its anchor, and starts at
   * most one line above it.
   */
  predicate Anchored(cands: seq<Option<Table>>)
  {
    forall k :: 0 <= k < |cands| && cands[k].Some? ==>
      cands[k].value.startLine <= k <= cands[k].value.endLine < |cands| && k <= cands[k].value.startLine + 1
  }

  /** What strategy `st` finds at each of the first `n` lines. */
  function CandidatesUpTo(p: Patterns, cfg: Config, st: Strategy, lines: seq<string>, n: nat): (cands: seq<Option<Table>>)
    requires Admits(cfg, st) && n <= |lines|
    ensures |cands| == n
    ensures forall k :: 0 <= k < n ==> cands[k] == CandidateAt(p, cfg, st, lines, k)
    decreases n
  {
    if n == 0 then [] else CandidatesUpTo(p, cfg, st, lines, n - 1) + [CandidateAt(p, cfg, st, lines, n - 1)]
  }

  /** What strategy `st` finds at each line of the text. */
  function Candidates(p: Patterns, cfg: Config, st: Strategy, lines: seq<string>): (cands: seq<Option<Table>>)
    requires Admits(cfg, st)
    ensures |cands| == |lines| && Anchored(cands)
    ensures forall k :: 0 <= k < |lines| ==> cands[k] == CandidateAt(p, cfg, st, lines, k)
  {
    CandidatesUpTo(p, cfg, st, lines, |lines|)
  }

  // ---------------------------------------------------------------------------
  // The strategy loops
  // ---------------------------------------------------------------------------

  /** The line numbers `range(lo, hi)`. */
  function LineRange(lo: nat, hi: nat): set<nat>
    decreases hi
  {
    if hi <= lo then {} else LineRange(lo, hi - 1) + {hi - 1}
  }

  lemma {:induction false} LineRangeMembers(lo: nat, hi: nat)
    ensures forall k :: k in LineRange(lo, hi) <==> lo <= k < hi
    decreases hi
  {
    if lo < hi {
      LineRangeMembers(lo, hi - 1);
    }
  }

  /** The lines of a table, `range(t.start_line, t.end_line + 1)`. */
  function Span(t: Table): set<nat>
  {
    LineRange(t.startLine, t.endLine + 1)
  }

  /** The line numbers of all the tables. */
  function Covered(ts: seq<Table>): set<nat>
  {
    if ts == [] then {} else Span(ts[0]) + Covered(ts[1..])
  }

  /** The tables a strategy loop returns and the consumed set it leaves. */
  datatype Scanned = Scanned(tables: seq<Table>, used: set<nat>)

  /**
   * The loop of every `_identify_*_tables` from line `i` with the consumed set
   * `used`: a consumed line is skipped; a candidate is taken, its lines are
   * consumed and the loop goes on after its last line; otherwise the loop
   * moves to the next line. The enhanced parser's scan (`EnhancedTableScan.Scan`) has the same shape over its own
   * `Table` type; its candidates start at their anchor, while a candidate here may start one
   * line above it (a title or header line), which changes the ordering lemma.
   */
  function Scan(cands: seq<Option<Table>>, i: nat, used: set<nat>): Scanned
    requires Anchored(cands) && i <= |cands|
    decreases |cands| - i
  {
    if i == |cands| then Scanned([], used)
    else if i in used then Scan(cands, i + 1, used)
    else match cands[i]
      case None => Scan(cands, i + 1, used)
      case Some(t) =>
        var rest := Scan(cands, t.endLine + 1, used + Span(t));
        Scanned([t] + rest.tables, rest.used)
  }

  /** One turn of the loop at an unconsumed line whose candidate is `c`. */
  lemma {:induction false} ScanAt(cands: seq<Option<Table>>, i: nat, used: set<nat>, c: Option<Table>)
    requires Anchored(cands) && i < |cands| && i !in used && cands[i] == c
    ensures c.Some? ==> (c.value.startLine <= i <= c.value.endLine < |cands| &&
      Scan(cands, i, used) == Scanned([c.value] + Scan(cands, c.value.endLine + 1, used + Span(c.value)).tables,
                                      Scan(cands, c.value.endLine + 1, used + Span(c.value)).used))
    ensures c.None? ==> Scan(cands, i, used) == Scan(cands, i + 1, used)
  {
  }

  /** The consumed set grows by exactly the lines of the tables found. */
  lemma {:induction false} ScanUsed(cands: seq<Option<Table>>, i: nat, used: set<nat>)
    requires Anchored(cands) && i <= |cands|
    ensures var r := Scan(cands, i, used); r.used == used + Covered(r.tables)
    decreases |cands| - i
  {
    if i < |cands| {
      if i in used || cands[i].None? {
        ScanUsed(cands, i + 1, used);
      } else {
        var t := cands[i].value;
        var rest := Scan(cands, t.endLine + 1, used + Span(t));
        ScanUsed(cands, t.endLine + 1, used + Span(t));
        assert ([t] + rest.tables)[1..] == rest.tables;
      }
    }
  }

  /** The `j`-th table found is the candidate at an anchor `a` from `i` on that was not consumed before the loop. */
  lemma {:induction false} ScanSound(cands: seq<Option<Table>>, i: nat, used: set<nat>, j: nat) returns (a: nat)
    requires Anchored(cands) && i <= |cands| && j < |Scan(cands, i, used).tables|
    ensures i <= a < |cands| && a !in used && cands[a] == Some(Scan(cands, i, used).tables[j])
    decreases |cands| - i
  {
    if i in used || cands[i].None? {
      a := ScanSound(cands, i + 1, used, j);
    } else if j == 0 {
      a := i;
    } else {
      var t := cands[i].value;
      a := ScanSound(cands, t.endLine + 1, used + Span(t), j - 1);
    }
  }

  /**
   * The tables come out in order: each ends after the one before, and starts
   * no earlier than the line where the one before ends (a title line or a
   * header line above an anchor may be that line).
   */
  lemma {:induction false} ScanOrder(cands: seq<Option<Table>>, i: nat, used: set<nat>)
    requires Anchored(cands) && i <= |cands|
    ensures var ts := Scan(cands, i, used).tables;
      (|ts| > 0 ==> i <= ts[0].startLine + 1 && i <= ts[0].endLine) &&
      (forall j :: 0 <= j < |ts| - 1 ==> ts[j].endLine < ts[j + 1].endLine && ts[j].endLine <= ts[j + 1].startLine)
    decreases |cands| - i
  {
    if i < |cands| {
      if i in used || cands[i].None? {
        ScanOrder(cands, i + 1, used);
      } else {
        var t := cands[i].value;
        var rest := Scan(cands, t.endLine + 1, used + Span(t)).tables;
        ScanOrder(cands, t.endLine + 1, used + Span(t));
        var ts := [t] + rest;
        forall j | 0 <= j < |ts| - 1 ensures ts[j].endLine < ts[j + 1].endLine && ts[j].endLine <= ts[j + 1].startLine {
          if j > 0 {
            assert ts[j] == rest[j - 1] && ts[j + 1] == rest[j];
          }
        }
      }
    }
  }

  /** A line from `i` on that the loop leaves unconsumed is not the anchor of any candidate. */
  lemma {:induction false} ScanComplete(cands: seq<Option<Table>>, i: nat, used: set<nat>)
    requires Anchored(cands) && i <= |cands|
    ensures var r := Scan(cands, i, used);
      forall k :: i <= k < |cands| && k !in r.used ==> cands[k].None?
    decreases |cands| - i
  {
    if i < |cands| {
      if i in used || cands[i].None? {
        ScanComplete(cands, i + 1, used);
        ScanUsed(cands, i + 1, used);
      } else {
        var t := cands[i].value;
        ScanComplete(cands, t.endLine + 1, used + Span(t));
        ScanUsed(cands, t.endLine + 1, used + Span(t));
        LineRangeMembers(t.startLine, t.endLine + 1);
      }
    }
  }

  /** The loop `for line_num in range(start_line, end_line + 1): table_lines.add(line_num)`. */
  method MarkLines(used: set<nat>, startLine: nat, endLine: nat) returns (marked: set<nat>)
    ensures marked == used + LineRange(startLine, endLine + 1)
  {
    marked := used;
    var lineNum := startLine;
    while lineNum <= endLine
      invariant startLine <= lineNum && (lineNum <= endLine + 1 || lineNum == startLine)
      invariant marked == used + LineRange(startLine, lineNum)
    {
      marked := marked + {lineNum};
      lineNum := lineNum + 1;
    }
  }

  /** The test of `_identify_financial_tables` at an unconsumed line: a financial header, then `_extract_financial_table`. */
  method FinancialCandidate(p: Patterns, cfg: Config, lines: seq<string>, i: nat) returns (table: Option<Table>)
    requires cfg.minRows >= 1 && i < |lines|
    ensures table == CandidateAt(p, cfg, FinancialStrategy, lines, i)
  {
    table := None;
    if lines[i] in p.financialHeader {
      table := ExtractFinancialTable(p, cfg, lines, i);
    }
  }

  /** The tests of `_identify_delimited_tables` at an unconsumed line: a horizontal delimiter, else two '|'. */
  method DelimitedCandidate(p: Patterns, cfg: Config, lines: seq<string>, i: nat) returns (table: Option<Table>)
    requires i < |lines|
    ensures table == CandidateAt(p, cfg, DelimitedStrategy, lines, i)
  {
    table := None;
    if IsHorizontalDelimiter(lines[i]) {
      table := ExtractDelimitedTable(p, cfg, lines, i);
    } else if '|' in lines[i] && Count(lines[i], '|') >= 2 {
      table := ExtractPipeTable(p, cfg, lines, i);
    }
  }

  /** The test of `_identify_aligned_tables` at an unconsumed line: a table header, then `_extract_aligned_table`. */
  method AlignedCandidate(p: Patterns, cfg: Config, lines: seq<string>, i: nat) returns (table: Option<Table>)
    requires i < |lines|
    ensures table == CandidateAt(p, cfg, AlignedStrategy, lines, i)
  {
    table := None;
    if lines[i] in p.tableHeader {
      table := ExtractAlignedTable(p, cfg, lines, i);
    }
  }

  /**
   * The rest of a strategy loop's body at an unconsumed line `i` whose
   * candidate is `table`: a candidate is appended, its lines are consumed and
   * the loop resumes after its last line; otherwise the loop moves on.
   */
  method VisitLine(ghost cands: seq<Option<Table>>, i: nat, table: Option<Table>, tables: seq<Table>, used: set<nat>)
      returns (tables': seq<Table>, used': set<nat>, next: nat)
    requires Anchored(cands) && i < |cands| && i !in used && cands[i] == table
    ensures i < next <= |cands|
    ensures tables' + Scan(cands, next, used').tables == tables + Scan(cands, i, used).tables
    ensures Scan(cands, next, used').used == Scan(cands, i, used).used
  {
    ScanAt(cands, i, used, table);
    if table.Some? {
      ghost var rest := Scan(cands, table.value.endLine + 1, used + Span(table.value));
      AppendAssoc(tables, [table.value], rest.tables);
      tables' := tables + [table.value];
      used' := MarkLines(used, table.value.startLine, table.value.endLine);
      next := table.value.endLine + 1;
    } else {
      tables', used', next := tables, used, i + 1;
    }
  }

  /** `_identify_financial_tables`: financial headers, then `_extract_financial_table`. */
  method IdentifyFinancialTables(p: Patterns, cfg: Config, lines: seq<string>, used0: set<nat>) returns (tables: seq<Table>, used: set<nat>)
    requires cfg.minRows >= 1
    ensures Scanned(tables, used) == Scan(Candidates(p, cfg, FinancialStrategy, lines), 0, used0)
  {
    ghost var cands := Candidates(p, cfg, FinancialStrategy, lines);
    ghost var whole := Scan(cands, 0, used0);
    tables, used := [], used0;
    var i := 0;
    while i < |lines|
      invariant i <= |lines|
      invariant tables + Scan(cands, i, used).tables == whole.tables
      invariant Scan(cands, i, used).used == whole.used
      decreases |lines| - i
    {
      if i in used {
        i := i + 1;
        continue;
      }
      var table := FinancialCandidate(p, cfg, lines, i);
      tables, used, i := VisitLine(cands, i, table, tables, used);
    }
  }

  /** `_identify_delimited_tables`: horizontal delimiters, else lines with two '|', then their extractors. */
  method IdentifyDelimitedTables(p: Patterns, cfg: Config, lines: seq<string>, used0: set<nat>) returns (tables: seq<Table>, used: set<nat>)
    ensures Scanned(tables, used) == Scan(Candidates(p, cfg, DelimitedStrategy, lines), 0, used0)
  {
    ghost var cands := Candidates(p, cfg, DelimitedStrategy, lines);
    ghost var whole := Scan(cands, 0, used0);
    tables, used := [], used0;
    var i := 0;
    while i < |lines|
      invariant i <= |lines|
      invariant tables + Scan(cands, i, used).tables == whole.tables
      invariant Scan(cands, i, used).used == whole.used
      decreases |lines| - i
    {
      if i in used {
        i := i + 1;
        continue;
      }
      var table := DelimitedCandidate(p, cfg, lines, i);
      tables, used, i := VisitLine(cands, i, table, tables, used);
    }
  }

  /** `_identify_aligned_tables`: lines that look like a table header, then `_extract_aligned_table`. */
  method IdentifyAlignedTables(p: Patterns, cfg: Config, lines: seq<string>, used0: set<nat>) returns (tables: seq<Table>, used: set<nat>)
    ensures Scanned(tables, used) == Scan(Candidates(p, cfg, AlignedStrategy, lines), 0, used0)
  {
    ghost var cands := Candidates(p, cfg, AlignedStrategy, lines);
    ghost var whole := Scan(cands, 0, used0);
    tables, used := [], used0;
    var i := 0;
    while i < |lines|
      invariant i <= |lines|
      invariant tables + Scan(cands, i, used).tables == whole.tables
      invariant Scan(cands, i, used).used == whole.used
      decreases |lines| - i
    {
      if i in used {
        i := i + 1;
        continue;
      }
      var table := AlignedCandidate(p, cfg, lines, i);
      tables, used, i := VisitLine(cands, i, table, tables, used);
    }
  }

  // ---------------------------------------------------------------------------
  // _deduplicate_tables
  // ---------------------------------------------------------------------------

  /** The sort key `lambda t: t.start_line`. */
  function StartKey(t: Table): (int, int)
  {
    (t.startLine, 0)
  }

  /** The overlap test of `_deduplicate_tables`: `t` starts inside `e`. */
  predicate StartsWithin(t: Table, e: Table)
  {
    e.startLine <= t.startLine <= e.endLine
  }

  /** The index of the first kept table from `j` on that `t` starts inside, if any. */
  function FirstOverlap(kept: seq<Table>, t: Table, j: nat): (r: Option<nat>)
    requires j <= |kept|
    ensures r.Some? ==> j <= r.value < |kept| && StartsWithin(t, kept[r.value])
    decreases |kept| - j
  {
    if j == |kept| then None
    else if StartsWithin(t, kept[j]) then Some(j)
    else FirstOverlap(kept, t, j + 1)
  }

  /** No kept table from `j` on before the one `FirstOverlap` names, or none at all, holds the start of `t`. */
  lemma {:induction false} FirstOverlapFirst(kept: seq<Table>, t: Table, j: nat, m: nat)
    requires j <= m < |kept| && StartsWithin(t, kept[m])
    ensures FirstOverlap(kept, t, j).Some? && FirstOverlap(kept, t, j).value <= m
    decreases m - j
  {
    if !StartsWithin(t, kept[j]) {
      FirstOverlapFirst(kept, t, j + 1, m);
    }
  }

  /** `list.remove(x)`: the first element equal to `x` is taken out. */
  function RemoveFirst<T(==)>(s: seq<T>, x: T): (r: seq<T>)
    ensures multiset(r) == multiset(s) - multiset{x}
  {
    if s == [] then []
    else if s[0] == x then
      assert s == [s[0]] + s[1..];
      s[1..]
    else
      assert s == [s[0]] + s[1..];
      [s[0]] + RemoveFirst(s[1..], x)
  }

  /** Removing an element that occurs only at the end deletes the end. */
  lemma {:induction false} RemoveFirstLast<T>(a: seq<T>, x: T)
    requires x !in a
    ensures RemoveFirst(a + [x], x) == a
  {
    if a != [] {
      assert (a + [x])[1..] == a[1..] + [x];
      RemoveFirstLast(a[1..], x);
      assert a == [a[0]] + a[1..];
    }
  }

  /**
   * One pass of the outer loop: a table that starts inside no kept table is
   * appended; one that starts inside a kept table replaces that table when its
   * confidence is strictly higher, and is dropped otherwise.
   */
  function DedupeStep(kept: seq<Table>, t: Table): seq<Table>
  {
    match FirstOverlap(kept, t, 0)
    case None => kept + [t]
    case Some(k) => if t.confidence > kept[k].confidence then RemoveFirst(kept, kept[k]) + [t] else kept
  }

  /** The outer loop over `ts[i..]`. */
  function DedupeFrom(ts: seq<Table>, i: nat, kept: seq<Table>): seq<Table>
    requires i <= |ts|
    decreases |ts| - i
  {
    if i == |ts| then kept else DedupeFrom(ts, i + 1, DedupeStep(kept, ts[i]))
  }

  /** `_deduplicate_tables`: an empty list comes back as it is; otherwise sort by start line and filter. */
  function Dedupe(tables: seq<Table>): seq<Table>
  {
    if tables == [] then tables else DedupeFrom(SortBy(tables, StartKey), 0, [])
  }

  /** Each table ends before the next one starts. */
  predicate Chain(ts: seq<Table>)
  {
    forall a, b :: 0 <= a < b < |ts| ==> ts[a].endLine < ts[b].startLine
  }

  /** Every table starts no later than it ends. */
  predicate Proper(ts: seq<Table>)
  {
    forall a :: 0 <= a < |ts| ==> ts[a].startLine <= ts[a].endLine
  }

  /** Every table starts at or before line `s`. */
  predicate StartsUpTo(ts: seq<Table>, s: nat)
  {
    forall a :: 0 <= a < |ts| ==> ts[a].startLine <= s
  }

  /**
   * While the tables arrive in start order, only the last kept table can hold
   * the start of the next one: it is appended after a table it does not
   * overlap, replaces the last one when it overlaps and is more confident, and
   * is dropped otherwise.
   */
  lemma {:induction false} DedupeStepLast(kept: seq<Table>, t: Table)
    requires Chain(kept) && Proper(kept) && StartsUpTo(kept, t.startLine)
    ensures DedupeStep(kept, t) ==
      if kept == [] || kept[|kept| - 1].endLine < t.startLine then kept + [t]
      else if t.confidence > kept[|kept| - 1].confidence then kept[..|kept| - 1] + [t]
      else kept
  {
    OverlapIsLast(kept, t);
    if kept != [] && t.startLine <= kept[|kept| - 1].endLine {
      RemoveLastKept(kept);
    }
  }

  /** Only the last kept table can hold the start of a table that starts no earlier than every kept one. */
  lemma {:induction false} OverlapIsLast(kept: seq<Table>, t: Table)
    requires Chain(kept) && StartsUpTo(kept, t.startLine)
    ensures var r := FirstOverlap(kept, t, 0);
      (r.Some? <==> kept != [] && t.startLine <= kept[|kept| - 1].endLine) &&
      (r.Some? ==> r.value == |kept| - 1)
  {
    var r := FirstOverlap(kept, t, 0);
    var last := |kept| - 1;
    if kept != [] && t.startLine <= kept[last].endLine {
      FirstOverlapFirst(kept, t, 0, last);
    }
    if r.Some? && r.value < last {
      assert false;
    }
  }

  /** In a chain of proper tables, `remove` of the last table deletes the last position. */
  lemma {:induction false} RemoveLastKept(kept: seq<Table>)
    requires Chain(kept) && Proper(kept) && kept != []
    ensures RemoveFirst(kept, kept[|kept| - 1]) == kept[..|kept| - 1]
  {
    var last := |kept| - 1;
    var init := kept[..last];
    forall j | 0 <= j < last ensures init[j] != kept[last] {
      assert kept[j].endLine < kept[last].startLine;
    }
    assert init + [kept[last]] == kept;
    RemoveFirstLast(init, kept[last]);
  }

  /** One step keeps the loop invariant, for a table that starts no earlier than every kept one. */
  lemma {:induction false} DedupeStepChain(kept: seq<Table>, t: Table)
    requires Chain(kept) && Proper(kept) && StartsUpTo(kept, t.startLine) && t.startLine <= t.endLine
    ensures var next := DedupeStep(kept, t);
      Chain(next) && Proper(next) && StartsUpTo(next, t.startLine) && next != [] && |next| <= |kept| + 1 &&
      forall x :: x in next ==> x in kept || x == t
  {
    DedupeStepLast(kept, t);
    var next := DedupeStep(kept, t);
    if kept != [] && next == kept[..|kept| - 1] + [t] {
      assert forall a :: 0 <= a < |next| - 1 ==> next[a] == kept[a];
    }
  }

  /**
   * The loop keeps its invariant: the kept tables form a chain, each ends no
   * earlier than it starts, and each is one of the kept tables it started
   * with or one of the input tables.
   */
  lemma {:induction false} DedupeFromChain(ts: seq<Table>, i: nat, kept: seq<Table>)
    requires i <= |ts| && SortedBy(ts, StartKey) && Proper(ts)
    requires Chain(kept) && Proper(kept) && (i < |ts| ==> StartsUpTo(kept, ts[i].startLine))
    ensures var r := DedupeFrom(ts, i, kept);
      Chain(r) && Proper(r) && (kept != [] || i < |ts| ==> r != []) && |r| <= |kept| + |ts| - i &&
      forall x :: x in r ==> x in kept || x in ts
    decreases |ts| - i
  {
    if i < |ts| {
      var t := ts[i];
      DedupeStepChain(kept, t);
      var next := DedupeStep(kept, t);
      if i + 1 < |ts| {
        assert KeyLe(StartKey(ts[i]), StartKey(ts[i + 1]));
      }
      DedupeFromChain(ts, i + 1, next);
    }
  }

  /** A chain of proper tables is in start order. */
  lemma {:induction false} ChainSorted(ts: seq<Table>)
    requires Chain(ts) && Proper(ts)
    ensures SortedBy(ts, StartKey)
  {
    forall a, b | 0 <= a < b < |ts| ensures KeyLe(StartKey(ts[a]), StartKey(ts[b])) {
      assert ts[a].endLine < ts[b].startLine;
    }
  }

  /**
   * What `_deduplicate_tables` returns for tables that each start no later
   * than they end: a chain of tables, each of them one of the inputs, no more
   * of them than went in, and none only when none went in.
   */
  lemma {:induction false} DedupeChain(tables: seq<Table>)
    requires Proper(tables)
    ensures var r := Dedupe(tables);
      Chain(r) && Proper(r) && |r| <= |tables| && (r == [] <==> tables == []) &&
      forall x :: x in r ==> x in tables
  {
    if tables != [] {
      var sorted := SortBy(tables, StartKey);
      SortBySorted(tables, StartKey);
      forall x | x in sorted ensures x in tables {
        assert x in multiset(sorted);
      }
      forall a | 0 <= a < |sorted| ensures sorted[a].startLine <= sorted[a].endLine {
        assert sorted[a] in tables;
      }
      DedupeFromChain(sorted, 0, []);
    }
  }

  /** `_deduplicate_tables`: sort by start line, then keep, replace or drop each table in turn. */
  method DeduplicateTables(tables: seq<Table>) returns (deduped: seq<Table>)
    ensures deduped == Dedupe(tables)
  {
    if |tables| == 0 {
      return tables;
    }
    var sorted := SortBy(tables, StartKey);
    deduped := [];
    for n := 0 to |sorted|
      invariant DedupeFrom(sorted, n, deduped) == Dedupe(tables)
    {
      var table := sorted[n];
      ghost var before := deduped;
      var overlap := false;
      var j := 0;
      while j < |deduped|
        invariant 0 <= j <= |deduped| && deduped == before && !overlap
        invariant FirstOverlap(deduped, table, j) == FirstOverlap(deduped, table, 0)
      {
        var existing := deduped[j];
        if table.startLine >= existing.startLine && table.startLine <= existing.endLine {
          if table.confidence > existing.confidence {
            deduped := RemoveFirst(deduped, existing) + [table];
          }
          overlap := true;
          break;
        }
        j := j + 1;
      }
      if !overlap {
        deduped := deduped + [table];
      }
      assert deduped == DedupeStep(before, table);
    }
  }

  // ---------------------------------------------------------------------------
  // identify_tables
  // ---------------------------------------------------------------------------

  /** `identify_tables`: the three strategies in turn over one consumed set, then dedupe, then sort by start line. */
  function IdentifyTablesIn(p: Patterns, cfg: Config, text: string): seq<Table>
    requires cfg.minRows >= 1
  {
    var lines := Split(text, '\n');
    var f := Scan(Candidates(p, cfg, FinancialStrategy, lines), 0, {});
    var d := Scan(Candidates(p, cfg, DelimitedStrategy, lines), 0, f.used);
    var a := Scan(Candidates(p, cfg, AlignedStrategy, lines), 0, d.used);
    SortBy(Dedupe(f.tables + d.tables + a.tables), StartKey)
  }

  /** `t` is what some strategy's extractor returns at some line. */
  ghost predicate Detected(p: Patterns, cfg: Config, lines: seq<string>, t: Table)
    requires cfg.minRows >= 1
  {
    exists st: Strategy, a: nat :: a < |lines| && CandidateAt(p, cfg, st, lines, a) == Some(t)
  }

  /** `t` lies within the text, holds exactly its own lines, and some strategy's extractor returns it. */
  ghost predicate Located(p: Patterns, cfg: Config, lines: seq<string>, t: Table)
    requires cfg.minRows >= 1
  {
    t.startLine <= t.endLine < |lines| &&
    t.rawLines == Rows(lines, t.startLine, t.endLine + 1) &&
    Detected(p, cfg, lines, t)
  }

  /** A table a strategy loop returns lies within the text, holds its own lines, and is a candidate at an unconsumed line. */
  lemma {:induction false} ScanTables(p: Patterns, cfg: Config, st: Strategy, lines: seq<string>, used: set<nat>)
    requires cfg.minRows >= 1
    ensures var ts := Scan(Candidates(p, cfg, st, lines), 0, used).tables;
      forall x :: x in ts ==> Located(p, cfg, lines, x)
  {
    var cand := Candidates(p, cfg, st, lines);
    var ts := Scan(Candidates(p, cfg, st, lines), 0, used).tables;
    forall j | 0 <= j < |ts| ensures Located(p, cfg, lines, ts[j]) {
      var a := ScanSound(cand, 0, used, j);
      assert CandidateAt(p, cfg, st, lines, a) == Some(ts[j]);
    }
  }

  /**
   * What `identify_tables` returns: tables in start order that do not
   * overlap, each within the text, holding exactly its own lines, and each
   * the result of some strategy's extractor at some line.
   */
  lemma {:induction false} IdentifyTablesShape(p: Patterns, cfg: Config, text: string)
    requires cfg.minRows >= 1
    ensures var r := IdentifyTablesIn(p, cfg, text);
      Chain(r) && SortedBy(r, StartKey) && forall x :: x in r ==> Located(p, cfg, Split(text, '\n'), x)
  {
    var lines := Split(text, '\n');
    var f := Scan(Candidates(p, cfg, FinancialStrategy, lines), 0, {});
    var d := Scan(Candidates(p, cfg, DelimitedStrategy, lines), 0, f.used);
    var a := Scan(Candidates(p, cfg, AlignedStrategy, lines), 0, d.used);
    ScanTables(p, cfg, FinancialStrategy, lines, {});
    ScanTables(p, cfg, DelimitedStrategy, lines, f.used);
    ScanTables(p, cfg, AlignedStrategy, lines, d.used);
    var all := f.tables + d.tables + a.tables;
    assert forall x :: x in all ==> Located(p, cfg, lines, x);
    forall k | 0 <= k < |all| ensures all[k].startLine <= all[k].endLine {
      assert all[k] in all;
    }
    DedupeChain(all);
    var r := Dedupe(all);
    ChainSorted(r);
    SortBySortedInput(r, StartKey);
  }

  /**
   * A line that none of the three strategy loops consumed is the anchor of
   * no candidate of any strategy: the loops miss nothing.
   */
  lemma {:induction false} IdentifyComplete(p: Patterns, cfg: Config, lines: seq<string>, k: nat, st: Strategy)
    requires cfg.minRows >= 1 && k < |lines|
    requires var f := Scan(Candidates(p, cfg, FinancialStrategy, lines), 0, {});
      var d := Scan(Candidates(p, cfg, DelimitedStrategy, lines), 0, f.used);
      var a := Scan(Candidates(p, cfg, AlignedStrategy, lines), 0, d.used);
      k !in Covered(f.tables + d.tables + a.tables)
    ensures CandidateAt(p, cfg, st, lines, k) == None
  {
    var f := Scan(Candidates(p, cfg, FinancialStrategy, lines), 0, {});
    var d := Scan(Candidates(p, cfg, DelimitedStrategy, lines), 0, f.used);
    var a := Scan(Candidates(p, cfg, AlignedStrategy, lines), 0, d.used);
    ScanUsed(Candidates(p, cfg, FinancialStrategy, lines), 0, {});
    ScanUsed(Candidates(p, cfg, DelimitedStrategy, lines), 0, f.used);
    ScanUsed(Candidates(p, cfg, AlignedStrategy, lines), 0, d.used);
    CoveredAppend(f.tables, d.tables);
    CoveredAppend(f.tables + d.tables, a.tables);
    match st
    case FinancialStrategy => ScanComplete(Candidates(p, cfg, st, lines), 0, {});
    case DelimitedStrategy => ScanComplete(Candidates(p, cfg, st, lines), 0, f.used);
    case AlignedStrategy => ScanComplete(Candidates(p, cfg, st, lines), 0, d.used);
  }

  lemma {:induction false} CoveredAppend(a: seq<Table>, b: seq<Table>)
    ensures Covered(a + b) == Covered(a) + Covered(b)
  {
    if a != [] {
      assert (a + b)[1..] == a[1..] + b;
      CoveredAppend(a[1..], b);
    } else {
      assert a + b == b;
    }
  }

  /** `identify_tables`. */
  method IdentifyTables(p: Patterns, cfg: Config, text: string) returns (tables: seq<Table>)
    requires cfg.minRows >= 1
    ensures tables == IdentifyTablesIn(p, cfg, text)
  {
    var lines := Split(text, '\n');
    var tableLines: set<nat> := {};
    var financial, delimited, aligned;
    financial, tableLines := IdentifyFinancialTables(p, cfg, lines, tableLines);
    delimited, tableLines := IdentifyDelimitedTables(p, cfg, lines, tableLines);
    aligned, tableLines := IdentifyAlignedTables(p, cfg, lines, tableLines);
    tables := DeduplicateTables(financial + delimited + aligned);
    tables := SortBy(tables, StartKey);
  }

  // ---------------------------------------------------------------------------
  // preserve_tables_in_text
  // ---------------------------------------------------------------------------

  /** An empty line, the title and an empty line, when the title is present and not empty. */
  function TitleBlock(title: Option<string>): seq<string>
  {
    if title.Some? && title.value != [] then ["", title.value, ""] else []
  }

  /** The lines written for a table: its raw lines, or its text split at newlines when it has none. */
  function Body(t: Table): seq<string>
  {
    if t.rawLines != [] then t.rawLines else Split(t.originalText, '\n')
  }

  /** The lines copied while `current_line` runs from `cur` up to `stop`: those that exist. */
  function Gap(lines: seq<string>, cur: nat, stop: nat): seq<string>
    decreases stop - cur
  {
    if cur >= stop then [] else (if cur < |lines| then [lines[cur]] else []) + Gap(lines, cur + 1, stop)
  }

  /** The empty line written after a table when the line after it exists and is not blank. */
  function Spacer(lines: seq<string>, k: nat): seq<string>
  {
    if k < |lines| && !IsBlank(lines[k]) then [""] else []
  }

  /**
   * The output lines for the tables `ts[i..]` (in start order) when
   * `current_line` is `cur`: the gap before each table, its title block, its
   * lines and its spacer, then the rest of the text. A table that starts
   * before `cur` gets no gap, and `cur` moves back to just after it.
   */
  function Splice(lines: seq<string>, ts: seq<Table>, i: nat, cur: nat): seq<string>
    requires i <= |ts|
    decreases |ts| - i
  {
    if i == |ts| then Gap(lines, cur, |lines|)
    else
      var t := ts[i];
      Gap(lines, cur, t.startLine) + TitleBlock(t.title) + Body(t) + Spacer(lines, t.endLine + 1) +
      Splice(lines, ts, i + 1, t.endLine + 1)
  }

  /** `preserve_tables_in_text`: the text itself when there are no tables. */
  function Preserved(text: string, tables: seq<Table>): string
  {
    if tables == [] then text
    else JoinWith(Splice(Split(text, '\n'), SortBy(tables, StartKey), 0, 0), "\n")
  }

  lemma {:induction false} GapRows(lines: seq<string>, cur: nat, stop: nat)
    requires cur <= stop <= |lines|
    ensures Gap(lines, cur, stop) == Rows(lines, cur, stop)
    decreases stop - cur
  {
    if cur < stop {
      GapRows(lines, cur + 1, stop);
      RowsAppend(lines, cur, cur + 1, stop);
      assert Rows(lines, cur, cur + 1) == [lines[cur]];
    }
  }

  /**
   * A table the detector would leave as it is: within the text, holding
   * exactly its own lines, without a title, and followed by a blank line or
   * by the end of the text.
   */
  predicate Untouched(lines: seq<string>, t: Table)
  {
    t.startLine <= t.endLine < |lines| &&
    t.rawLines == Rows(lines, t.startLine, t.endLine + 1) &&
    TitleBlock(t.title) == [] &&
    (t.endLine + 1 < |lines| ==> IsBlank(lines[t.endLine + 1]))
  }

  /** An untouched table is written back as the lines from `cur` to its end. */
  lemma {:induction false} SpliceUntouched(lines: seq<string>, ts: seq<Table>, i: nat, cur: nat)
    requires i < |ts| && cur <= ts[i].startLine <= ts[i].endLine < |lines|
    requires ts[i].rawLines == Rows(lines, ts[i].startLine, ts[i].endLine + 1)
    requires TitleBlock(ts[i].title) == [] && Spacer(lines, ts[i].endLine + 1) == []
    ensures Splice(lines, ts, i, cur) == Rows(lines, cur, ts[i].endLine + 1) + Splice(lines, ts, i + 1, ts[i].endLine + 1)
  {
    var t := ts[i];
    var gap := Gap(lines, cur, t.startLine);
    assert Body(t) == Rows(lines, t.startLine, t.endLine + 1);
    AppendEmpty(gap);
    AppendEmpty(gap + Body(t));
    GapRows(lines, cur, t.startLine);
    RowsAppend(lines, cur, t.startLine, t.endLine + 1);
  }

  /** `ts[i..]` are untouched tables, each ending before the next starts. */
  predicate UntouchedFrom(lines: seq<string>, ts: seq<Table>, i: nat)
    requires i <= |ts|
    decreases |ts| - i
  {
    i == |ts| ||
    (Untouched(lines, ts[i]) && (i + 1 < |ts| ==> ts[i].endLine < ts[i + 1].startLine) && UntouchedFrom(lines, ts, i + 1))
  }

  lemma {:induction false} UntouchedFromAll(lines: seq<string>, ts: seq<Table>, i: nat)
    requires i <= |ts| && Chain(ts) && forall k :: 0 <= k < |ts| ==> Untouched(lines, ts[k])
    ensures UntouchedFrom(lines, ts, i)
    decreases |ts| - i
  {
    if i < |ts| {
      UntouchedFromAll(lines, ts, i + 1);
    }
  }

  lemma {:induction false} SpliceRoundTrip(lines: seq<string>, ts: seq<Table>, i: nat, cur: nat)
    requires i <= |ts| && UntouchedFrom(lines, ts, i)
    requires cur <= |lines| && (i < |ts| ==> cur <= ts[i].startLine)
    ensures Splice(lines, ts, i, cur) == Rows(lines, cur, |lines|)
    decreases |ts| - i
  {
    if i == |ts| {
      GapRows(lines, cur, |lines|);
    } else {
      var t := ts[i];
      assert Spacer(lines, t.endLine + 1) == [];
      SpliceUntouched(lines, ts, i, cur);
      SpliceRoundTrip(lines, ts, i + 1, t.endLine + 1);
      RowsAppend(lines, cur, t.endLine + 1, |lines|);
    }
  }

  /**
   * Splicing back tables that the text already holds, in order and without
   * overlap, none with a title and each followed by a blank line or the end
   * of the text, gives back the text.
   */
  lemma {:induction false} PreserveRoundTrip(text: string, tables: seq<Table>)
    requires Chain(tables) && forall k :: 0 <= k < |tables| ==> Untouched(Split(text, '\n'), tables[k])
    ensures Preserved(text, tables) == text
  {
    if tables != [] {
      var lines := Split(text, '\n');
      forall a | 0 <= a < |tables| ensures tables[a].startLine <= tables[a].endLine {
        assert Untouched(lines, tables[a]);
      }
      ChainSorted(tables);
      SortBySortedInput(tables, StartKey);
      UntouchedFromAll(lines, tables, 0);
      SpliceRoundTrip(lines, tables, 0, 0);
      RowsSlice(lines, 0, |lines|);
      assert lines[0..|lines|] == lines;
      SplitJoin(text, '\n');
    }
  }

  /** Appends `xs` to `acc` one element at a time. */
  method AppendLines(acc: seq<string>, xs: seq<string>) returns (r: seq<string>)
    ensures r == acc + xs
  {
    r := acc;
    for k := 0 to |xs|
      invariant r == acc + xs[..k]
    {
      r := r + [xs[k]];
    }
  }

  /** Copies the lines from `cur` up to `stop` (those that exist) onto `acc`. */
  method CopyGap(lines: seq<string>, acc: seq<string>, cur: nat, stop: nat) returns (r: seq<string>, next: nat)
    ensures r == acc + Gap(lines, cur, stop)
    ensures next == (if cur < stop then stop else cur)
  {
    r, next := acc, cur;
    while next < stop
      invariant if cur < stop then cur <= next <= stop else next == cur
      invariant r + Gap(lines, next, stop) == acc + Gap(lines, cur, stop)
      decreases stop - next
    {
      ghost var rest := Gap(lines, next + 1, stop);
      if next < |lines| {
        AppendAssoc(r, [lines[next]], rest);
        r := r + [lines[next]];
      } else {
        EmptyAppend(rest);
      }
      next := next + 1;
    }
    assert Gap(lines, next, stop) == [];
    AppendEmpty(r);
  }

  /** Writes one table: the lines before it, its title block, its lines and the spacer after it. */
  method PlaceTable(lines: seq<string>, acc: seq<string>, cur: nat, table: Table) returns (r: seq<string>, next: nat)
    ensures r == acc + Gap(lines, cur, table.startLine) + TitleBlock(table.title) + Body(table) + Spacer(lines, table.endLine + 1)
    ensures next == table.endLine + 1
  {
    r, next := CopyGap(lines, acc, cur, table.startLine);
    if table.title.Some? && table.title.value != [] {
      r := r + ["", table.title.value, ""];
    } else {
      AppendEmpty(r);
    }
    if table.rawLines != [] {
      r := AppendLines(r, table.rawLines);
    } else {
      var tableTextLines := Split(table.originalText, '\n');
      r := AppendLines(r, tableTextLines);
    }
    next := table.endLine + 1;
    if next < |lines| {
      StripEmptyIffBlank(lines[next]);
    }
    if next < |lines| && Strip(lines[next]) != [] {
      r := r + [""];
    } else {
      AppendEmpty(r);
    }
  }

  /** Writing table `ts[i]` onto `acc` leaves the rest of the splice from just after it. */
  lemma {:induction false} SpliceStep(lines: seq<string>, ts: seq<Table>, i: nat, cur: nat, acc: seq<string>, r: seq<string>)
    requires i < |ts|
    requires r == acc + Gap(lines, cur, ts[i].startLine) + TitleBlock(ts[i].title) + Body(ts[i]) + Spacer(lines, ts[i].endLine + 1)
    ensures r + Splice(lines, ts, i + 1, ts[i].endLine + 1) == acc + Splice(lines, ts, i, cur)
  {
    var t := ts[i];
    AppendAssoc5(acc, Gap(lines, cur, t.startLine), TitleBlock(t.title), Body(t),
      Spacer(lines, t.endLine + 1), Splice(lines, ts, i + 1, t.endLine + 1));
  }

  /** `preserve_tables_in_text`. */
  method PreserveTablesInText(text: string, tables: seq<Table>) returns (out: string)
    ensures out == Preserved(text, tables)
  {
    if |tables| == 0 {
      return text;
    }
    var lines := Split(text, '\n');
    var sorted := SortBy(tables, StartKey);
    var resultLines: seq<string> := [];
    var currentLine: nat := 0;
    AppendEmpty(Splice(lines, sorted, 0, 0));
    for n := 0 to |sorted|
      invariant resultLines + Splice(lines, sorted, n, currentLine) == Splice(lines, sorted, 0, 0)
    {
      var table := sorted[n];
      ghost var before, from := resultLines, currentLine;
      resultLines, currentLine := PlaceTable(lines, resultLines, currentLine, table);
      SpliceStep(lines, sorted, n, from, before, resultLines);
    }
    // The lines after the last table.
    resultLines, currentLine := CopyGap(lines, resultLines, currentLine, |lines|);
    out := JoinWith(resultLines, "\n");
  }
}
