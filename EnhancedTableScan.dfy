/**
 * The scanning half of the enhanced table detector
 * (src/parsers/enhanced_table_parser.py): the four strategy loops that share
 * one set of consumed line numbers, `_deduplicate_tables` with its
 * closed-interval overlap test, and `identify_tables`.
 */
module EnhancedTableScan {
  import opened Wrappers
  import opened Strings
  import opened Sorting
  import opened Runs
  import opened Seqs
  import opened EnhancedTableParser
  import TableScan

  // ---------------------------------------------------------------------------
  // Candidates
  // ---------------------------------------------------------------------------

  /** The four `_identify_*_tables` loops, named by the anchor test each applies. */
  datatype Strategy = FinancialStrategy | DelimitedStrategy | AlignedStrategy | MixedStrategy

  /** `_is_enhanced_table_header`: a `sec_tables` pattern matches, or a financial keyword occurs in a columnar line. */
  predicate EnhancedTableHeader(p: Patterns, line: string)
  {
    line in p.secTable || (line in p.financialKeyword && line in p.columnar)
  }

  /**
   * What strategy `st` finds at an unconsumed line `i`: its anchor test, then
   * its extractor. The delimited, aligned and monetary extractors all
   * delegate to `_extract_financial_table`; a delimiter line whose extractor
   * fails is not retried as a pipe table.
   */
  function CandidateAt(p: Patterns, cfg: Config, st: Strategy, lines: seq<string>, i: nat): (r: Option<Table>)
    requires i < |lines|
    ensures r.Some? ==> r.value.startLine == i <= r.value.endLine < |lines|
  {
    match st
    case FinancialStrategy =>
      if lines[i] in p.financialStatement then FinancialTableAt(p, cfg, lines, i) else None
    case DelimitedStrategy =>
      if IsEnhancedDelimiter(p, lines[i]) then FinancialTableAt(p, cfg, lines, i)
      else if PipeLine(lines[i]) then PipeTableAt(p, cfg, lines, i)
      else None
    case AlignedStrategy =>
      if EnhancedTableHeader(p, lines[i]) then FinancialTableAt(p, cfg, lines, i) else None
    case MixedStrategy =>
      if lines[i] in p.multiMonetary then FinancialTableAt(p, cfg, lines, i) else None
  }

  /** Every candidate starts at its own line and lies within the text. */
  predicate Anchored(cands: seq<Option<Table>>)
  {
    forall k :: 0 <= k < |cands| && cands[k].Some? ==>
      cands[k].value.startLine == k <= cands[k].value.endLine < |cands|
  }

  /** What strategy `st` finds at each of the first `n` lines. */
  function CandidatesUpTo(p: Patterns, cfg: Config, st: Strategy, lines: seq<string>, n: nat): (cands: seq<Option<Table>>)
    requires n <= |lines|
    ensures |cands| == n
    ensures forall k :: 0 <= k < n ==> cands[k] == CandidateAt(p, cfg, st, lines, k)
    decreases n
  {
    if n == 0 then [] else CandidatesUpTo(p, cfg, st, lines, n - 1) + [CandidateAt(p, cfg, st, lines, n - 1)]
  }

  /** What strategy `st` finds at each line of the text. */
  function Candidates(p: Patterns, cfg: Config, st: Strategy, lines: seq<string>): (cands: seq<Option<Table>>)
    ensures |cands| == |lines| && Anchored(cands)
    ensures forall k :: 0 <= k < |lines| ==> cands[k] == CandidateAt(p, cfg, st, lines, k)
  {
    CandidatesUpTo(p, cfg, st, lines, |lines|)
  }

  /** Whatever a strategy finds holds exactly its own lines. */
  lemma {:induction false} CandidateShape(p: Patterns, cfg: Config, st: Strategy, lines: seq<string>, i: nat)
    requires i < |lines|
    ensures OwnText(cfg, lines, i, CandidateAt(p, cfg, st, lines, i))
  {
    var r := CandidateAt(p, cfg, st, lines, i);
    if r.Some? {
      if st == DelimitedStrategy && !IsEnhancedDelimiter(p, lines[i]) && PipeLine(lines[i]) {
        assert r == PipeTableAt(p, cfg, lines, i);
        PipeTableOwnText(p, cfg, lines, i);
      } else {
        assert r == FinancialTableAt(p, cfg, lines, i);
        FinancialOwnText(p, cfg, lines, i);
      }
    }
  }

  // ---------------------------------------------------------------------------
  // The strategy loops
  // ---------------------------------------------------------------------------

  /** The lines of a table, `range(t.start_line, t.end_line + 1)`. */
  function Span(t: Table): set<nat>
  {
    TableScan.LineRange(t.startLine, t.endLine + 1)
  }

  /** The line numbers of all the tables. */
  function Covered(ts: seq<Table>): set<nat>
  {
    if ts == [] then {} else Span(ts[0]) + Covered(ts[1..])
  }

  /** The tables a strategy loop returns and the consumed set it leaves. */
  datatype Scanned = Scanned(tables: seq<Table>, used: set<nat>)

  /**
   * The loop of every `_identify_*_tables` from line `i` with the consumed set
   * `used`: a consumed line is skipped; a candidate is taken, its lines are
   * consumed and the loop goes on after its last line; otherwise the loop
   * moves to the next line. It has the same shape as `TableScan.Scan`, but over this
   * module's `Table` type, and its candidates start at their own anchor, where a base
   * candidate may start one line above it; `ScanOrder` is stronger here for that reason.
   */
  function Scan(cands: seq<Option<Table>>, i: nat, used: set<nat>): Scanned
    requires Anchored(cands) && i <= |cands|
    decreases |cands| - i
  {
    if i == |cands| then Scanned([], used)
    else if i in used then Scan(cands, i + 1, used)
    else match cands[i]
      case None => Scan(cands, i + 1, used)
      case Some(t) =>
        var rest := Scan(cands, t.endLine + 1, used + Span(t));
        Scanned([t] + rest.tables, rest.used)
  }

  /** One turn of the loop at an unconsumed line whose candidate is `c`. */
  lemma {:induction false} ScanAt(cands: seq<Option<Table>>, i: nat, used: set<nat>, c: Option<Table>)
    requires Anchored(cands) && i < |cands| && i !in used && cands[i] == c
    ensures c.Some? ==> (i == c.value.startLine <= c.value.endLine < |cands| &&
      Scan(cands, i, used) == Scanned([c.value] + Scan(cands, c.value.endLine + 1, used + Span(c.value)).tables,
                                      Scan(cands, c.value.endLine + 1, used + Span(c.value)).used))
    ensures c.None? ==> Scan(cands, i, used) == Scan(cands, i + 1, used)
  {
  }

  /** The consumed set grows by exactly the lines of the tables found. */
  lemma {:induction false} ScanUsed(cands: seq<Option<Table>>, i: nat, used: set<nat>)
    requires Anchored(cands) && i <= |cands|
    ensures var r := Scan(cands, i, used); r.used == used + Covered(r.tables)
    decreases |cands| - i
  {
    if i < |cands| {
      if i in used || cands[i].None? {
        ScanUsed(cands, i + 1, used);
      } else {
        var t := cands[i].value;
        var rest := Scan(cands, t.endLine + 1, used + Span(t));
        ScanUsed(cands, t.endLine + 1, used + Span(t));
        assert ([t] + rest.tables)[1..] == rest.tables;
      }
    }
  }

  /** The `j`-th table found is the candidate at an anchor `a` from `i` on that was not consumed before the loop. */
  lemma {:induction false} ScanSound(cands: seq<Option<Table>>, i: nat, used: set<nat>, j: nat) returns (a: nat)
    requires Anchored(cands) && i <= |cands| && j < |Scan(cands, i, used).tables|
    ensures i <= a < |cands| && a !in used && cands[a] == Some(Scan(cands, i, used).tables[j])
    decreases |cands| - i
  {
    if i in used || cands[i].None? {
      a := ScanSound(cands, i + 1, used, j);
    } else if j == 0 {
      a := i;
    } else {
      var t := cands[i].value;
      a := ScanSound(cands, t.endLine + 1, used + Span(t), j - 1);
    }
  }

  /** The tables all start from `i` on, and each ends before the next one starts. */
  predicate OrderedFrom(ts: seq<Table>, i: nat)
  {
    (forall j :: 0 <= j < |ts| ==> i <= ts[j].startLine) &&
    (forall j :: 0 <= j < |ts| - 1 ==> ts[j].endLine < ts[j + 1].startLine)
  }

  /** A table followed by tables starting after its last line keeps the order. */
  lemma {:induction false} OrderedCons(t: Table, rest: seq<Table>, i: nat)
    requires i <= t.startLine <= t.endLine && OrderedFrom(rest, t.endLine + 1)
    ensures OrderedFrom([t] + rest, i)
  {
    var ts := [t] + rest;
    forall j | 0 <= j < |ts| ensures i <= ts[j].startLine {
      if j > 0 {
        assert ts[j] == rest[j - 1];
      }
    }
    forall j | 0 <= j < |ts| - 1 ensures ts[j].endLine < ts[j + 1].startLine {
      assert ts[j + 1] == rest[j];
      if j > 0 {
        assert ts[j] == rest[j - 1];
      } else {
        assert ts[j] == t && t.endLine + 1 <= rest[0].startLine;
      }
    }
  }

  /**
   * One strategy's tables come out in order and apart: each starts from `i`
   * on, and ends before the next one starts.
   */
  lemma {:induction false} ScanOrder(cands: seq<Option<Table>>, i: nat, used: set<nat>)
    requires Anchored(cands) && i <= |cands|
    ensures OrderedFrom(Scan(cands, i, used).tables, i)
    decreases |cands| - i
  {
    if i < |cands| {
      if i in used {
        assert Scan(cands, i, used) == Scan(cands, i + 1, used);
        ScanOrder(cands, i + 1, used);
      } else {
        ScanAt(cands, i, used, cands[i]);
        if cands[i].None? {
          ScanOrder(cands, i + 1, used);
        } else {
          var t := cands[i].value;
          ScanOrder(cands, t.endLine + 1, used + Span(t));
          OrderedCons(t, Scan(cands, t.endLine + 1, used + Span(t)).tables, i);
        }
      }
    }
  }

  /** A line from `i` on that the loop leaves unconsumed is not the anchor of any candidate. */
  lemma {:induction false} ScanComplete(cands: seq<Option<Table>>, i: nat, used: set<nat>)
    requires Anchored(cands) && i <= |cands|
    ensures var r := Scan(cands, i, used);
      forall k :: i <= k < |cands| && k !in r.used ==> cands[k].None?
    decreases |cands| - i
  {
    if i < |cands| {
      if i in used || cands[i].None? {
        ScanComplete(cands, i + 1, used);
        ScanUsed(cands, i + 1, used);
      } else {
        var t := cands[i].value;
        ScanComplete(cands, t.endLine + 1, used + Span(t));
        ScanUsed(cands, t.endLine + 1, used + Span(t));
        TableScan.LineRangeMembers(t.startLine, t.endLine + 1);
      }
    }
  }

  /**
   * The test of a strategy loop at an unconsumed line: the anchor test, then
   * the extractor (`_extract_enhanced_delimited_table`,
   * `_extract_enhanced_aligned_table` and `_extract_monetary_table` are
   * `_extract_financial_table`).
   */
  method Candidate(p: Patterns, cfg: Config, st: Strategy, lines: seq<string>, i: nat) returns (table: Option<Table>)
    requires i < |lines|
    ensures table == CandidateAt(p, cfg, st, lines, i)
  {
    table := None;
    var line := lines[i];
    match st {
      case FinancialStrategy =>
        if line in p.financialStatement {
          table := ExtractFinancialTable(p, cfg, lines, i);
        }
      case DelimitedStrategy =>
        if IsEnhancedDelimiter(p, line) {
          table := ExtractFinancialTable(p, cfg, lines, i);
        } else if '|' in line && Count(line, '|') >= 2 {
          table := ExtractPipeTable(p, cfg, lines, i);
        }
      case AlignedStrategy =>
        if EnhancedTableHeader(p, line) {
          table := ExtractFinancialTable(p, cfg, lines, i);
        }
      case MixedStrategy =>
        if line in p.multiMonetary {
          table := ExtractFinancialTable(p, cfg, lines, i);
        }
    }
  }

  /**
   * The rest of a strategy loop's body at an unconsumed line `i` whose
   * candidate is `table`: a candidate is appended, its lines are consumed and
   * the loop resumes after its last line; otherwise the loop moves on.
   */
  method VisitLine(ghost cands: seq<Option<Table>>, i: nat, table: Option<Table>, tables: seq<Table>, used: set<nat>)
      returns (tables': seq<Table>, used': set<nat>, next: nat)
    requires Anchored(cands) && i < |cands| && i !in used && cands[i] == table
    ensures i < next <= |cands|
    ensures tables' + Scan(cands, next, used').tables == tables + Scan(cands, i, used).tables
    ensures Scan(cands, next, used').used == Scan(cands, i, used).used
  {
    if table.Some? {
      ScanTakes(cands, i, used, tables, table.value);
      tables' := tables + [table.value];
      used' := TableScan.MarkLines(used, table.value.startLine, table.value.endLine);
      next := table.value.endLine + 1;
    } else {
      ScanAt(cands, i, used, table);
      tables', used', next := tables, used, i + 1;
    }
  }

  /** A table found at an unconsumed line is scanned first, and the scan resumes after its last line with its lines consumed. */
  lemma {:induction false} ScanTakes(cands: seq<Option<Table>>, i: nat, used: set<nat>, tables: seq<Table>, t: Table)
    requires Anchored(cands) && i < |cands| && i !in used && cands[i] == Some(t)
    ensures i == t.startLine <= t.endLine < |cands|
    ensures (tables + [t]) + Scan(cands, t.endLine + 1, used + Span(t)).tables == tables + Scan(cands, i, used).tables
    ensures Scan(cands, t.endLine + 1, used + Span(t)).used == Scan(cands, i, used).used
  {
    ScanAt(cands, i, used, Some(t));
    AppendAssoc(tables, [t], Scan(cands, t.endLine + 1, used + Span(t)).tables);
  }

  /**
   * `_identify_financial_tables`, `_identify_delimited_tables`,
   * `_identify_aligned_tables` and `_identify_mixed_format_tables`: one loop
   * that differs only in the anchor test of strategy `st`.
   */
  method IdentifyStrategyTables(p: Patterns, cfg: Config, st: Strategy, lines: seq<string>, used0: set<nat>)
      returns (tables: seq<Table>, used: set<nat>)
    ensures Scanned(tables, used) == Scan(Candidates(p, cfg, st, lines), 0, used0)
  {
    ghost var cands := Candidates(p, cfg, st, lines);
    ghost var whole := Scan(cands, 0, used0);
    tables, used := [], used0;
    var i := 0;
    while i < |lines|
      invariant i <= |lines|
      invariant tables + Scan(cands, i, used).tables == whole.tables
      invariant Scan(cands, i, used).used == whole.used
      decreases |lines| - i
    {
      if i in used {
        i := i + 1;
        continue;
      }
      var table := Candidate(p, cfg, st, lines, i);
      tables, used, i := VisitLine(cands, i, table, tables, used);
    }
    AppendEmpty(tables);
  }

  // ---------------------------------------------------------------------------
  // _deduplicate_tables
  // ---------------------------------------------------------------------------

  /** The sort key `lambda t: (t.start_line, -t.confidence)`. */
  function ConfKey(t: Table): (int, int)
  {
    (t.startLine as int, -(t.confidence as int))
  }

  /** The overlap test of `_deduplicate_tables`: the closed line ranges intersect. */
  predicate Overlaps(t: Table, e: Table)
  {
    t.startLine <= e.endLine && t.endLine >= e.startLine
  }

  /** A kept table `e` blocks `t`: they overlap and `t` is no more confident. */
  predicate Blocks(e: Table, t: Table)
  {
    Overlaps(t, e) && t.confidence <= e.confidence
  }

  /** Some kept table blocks `t`. */
  predicate Blocked(kept: seq<Table>, t: Table)
  {
    exists k :: 0 <= k < |kept| && Blocks(kept[k], t)
  }

  /** The outer loop over `ts[i..]`: a blocked table is dropped, any other is appended; nothing kept is removed. */
  function DedupeFrom(ts: seq<Table>, i: nat, kept: seq<Table>): seq<Table>
    requires i <= |ts|
    decreases |ts| - i
  {
    if i == |ts| then kept
    else DedupeFrom(ts, i + 1, if Blocked(kept, ts[i]) then kept else kept + [ts[i]])
  }

  /** `_deduplicate_tables`: an empty list comes back as it is; otherwise sort by key and filter. */
  function Dedupe(tables: seq<Table>): seq<Table>
  {
    if tables == [] then tables else DedupeFrom(SortBy(tables, ConfKey), 0, [])
  }

  /** `r` is the subsequence of `ts` at the increasing positions `idx`, all below `bound`. */
  predicate Picks(ts: seq<Table>, r: seq<Table>, idx: seq<nat>, bound: nat)
  {
    |idx| == |r| &&
    (forall k :: 0 <= k < |idx| ==> idx[k] < bound && idx[k] < |ts| && r[k] == ts[idx[k]]) &&
    (forall k, l :: 0 <= k < l < |idx| ==> idx[k] < idx[l])
  }

  /** No kept table blocks a later kept one: of two overlapping kept tables, the later is strictly more confident. */
  predicate Unblocked(r: seq<Table>)
  {
    forall a, b :: 0 <= a < b < |r| ==> !Blocks(r[a], r[b])
  }

  /** Every table of `ts[lo..hi]` is kept or blocked by a kept table. */
  predicate Accounted(ts: seq<Table>, lo: nat, hi: nat, r: seq<Table>)
    requires hi <= |ts|
  {
    forall j :: lo <= j < hi ==> ts[j] in r || Blocked(r, ts[j])
  }

  /** Appending to the kept list keeps every table accounted for. */
  lemma {:induction false} AccountedGrow(ts: seq<Table>, lo: nat, hi: nat, r: seq<Table>, x: Table)
    requires hi <= |ts| && Accounted(ts, lo, hi, r)
    ensures Accounted(ts, lo, hi, r + [x])
  {
    forall j | lo <= j < hi ensures ts[j] in r + [x] || Blocked(r + [x], ts[j]) {
      if !(ts[j] in r) {
        var k :| 0 <= k < |r| && Blocks(r[k], ts[j]);
        assert (r + [x])[k] == r[k];
      }
    }
  }

  /**
   * The filter loop from `i` on: the kept tables are a subsequence of `ts`,
   * none blocks a later one, the tables kept before position `i` stay as they
   * are, and every table from `lo` on is kept or blocked by a kept table.
   */
  lemma {:induction false} DedupeFromShape(ts: seq<Table>, i: nat, kept: seq<Table>, idx: seq<nat>)
      returns (idx': seq<nat>)
    requires i <= |ts| && Picks(ts, kept, idx, i) && Unblocked(kept) && Accounted(ts, 0, i, kept)
    ensures var r := DedupeFrom(ts, i, kept);
      Picks(ts, r, idx', |ts|) && Unblocked(r) && Accounted(ts, 0, |ts|, r) &&
      |kept| <= |r| && r[..|kept|] == kept
    decreases |ts| - i
  {
    if i == |ts| {
      idx' := idx;
    } else {
      var t := ts[i];
      if Blocked(kept, t) {
        SkipStep(ts, i, kept);
        idx' := DedupeFromShape(ts, i + 1, kept, idx);
      } else {
        var next := kept + [t];
        KeepStep(ts, i, kept, idx);
        idx' := DedupeFromShape(ts, i + 1, next, idx + [i]);
        var r := DedupeFrom(ts, i + 1, next);
        assert r[..|kept|] == next[..|kept|] == kept;
      }
    }
  }

  /** A blocked table is accounted for by the kept list as it is. */
  lemma {:induction false} SkipStep(ts: seq<Table>, i: nat, kept: seq<Table>)
    requires i < |ts| && Accounted(ts, 0, i, kept) && Blocked(kept, ts[i])
    ensures Accounted(ts, 0, i + 1, kept)
  {
  }

  /** Keeping an unblocked table keeps the kept list a subsequence, unblocked and accounting for every table so far. */
  lemma {:induction false} KeepStep(ts: seq<Table>, i: nat, kept: seq<Table>, idx: seq<nat>)
    requires i < |ts| && Picks(ts, kept, idx, i) && Unblocked(kept) && Accounted(ts, 0, i, kept)
    requires !Blocked(kept, ts[i])
    ensures Picks(ts, kept + [ts[i]], idx + [i], i + 1)
    ensures Unblocked(kept + [ts[i]])
    ensures Accounted(ts, 0, i + 1, kept + [ts[i]])
  {
    var next := kept + [ts[i]];
    assert Picks(ts, next, idx + [i], i + 1);
    UnblockedAppend(kept, ts[i]);
    AccountedGrow(ts, 0, i, kept, ts[i]);
  }

  /** Appending a table no kept table blocks leaves the list unblocked. */
  lemma {:induction false} UnblockedAppend(kept: seq<Table>, t: Table)
    requires Unblocked(kept) && !Blocked(kept, t)
    ensures Unblocked(kept + [t])
  {
    var next := kept + [t];
    forall a, b | 0 <= a < b < |next| ensures !Blocks(next[a], next[b]) {
      if b < |kept| {
        assert next[a] == kept[a] && next[b] == kept[b];
      } else {
        assert next[a] == kept[a];
      }
    }
  }

  /** A subsequence of a list ordered by key is ordered by key. */
  lemma {:induction false} PicksSorted(ts: seq<Table>, r: seq<Table>, idx: seq<nat>, bound: nat)
    requires Picks(ts, r, idx, bound) && SortedBy(ts, ConfKey)
    ensures SortedBy(r, ConfKey)
  {
    forall a, b | 0 <= a < b < |r| ensures KeyLe(ConfKey(r[a]), ConfKey(r[b])) {
      assert r[a] == ts[idx[a]] && r[b] == ts[idx[b]] && idx[a] < idx[b];
    }
  }

  /**
   * What `_deduplicate_tables` returns: a subsequence of the tables sorted by
   * (start line, -confidence), so itself sorted by that key and made of
   * input tables; no kept table is blocked by an earlier kept one; and every
   * input table is kept or overlaps a kept table at least as confident.
   */
  lemma {:induction false} DedupeShape(tables: seq<Table>) returns (idx: seq<nat>)
    ensures var r := Dedupe(tables);
      Picks(SortBy(tables, ConfKey), r, idx, |tables|) &&
      SortedBy(r, ConfKey) && Unblocked(r) &&
      (forall x :: x in r ==> x in tables) &&
      (forall x :: x in tables ==> x in r || Blocked(r, x))
  {
    var sorted := SortBy(tables, ConfKey);
    SortBySorted(tables, ConfKey);
    if tables == [] {
      idx := [];
    } else {
      idx := DedupeFromShape(sorted, 0, [], []);
    }
    var r := Dedupe(tables);
    PicksSorted(sorted, r, idx, |tables|);
    forall x | x in r ensures x in tables {
      var k :| 0 <= k < |r| && r[k] == x;
      assert x == sorted[idx[k]];
      assert x in multiset(sorted);
    }
    forall x | x in tables ensures x in r || Blocked(r, x) {
      assert x in multiset(sorted);
      var j :| 0 <= j < |sorted| && sorted[j] == x;
    }
  }

  /** A table of lines `s..e` with confidence `c` and no other content. */
  function Bare(s: nat, e: nat, c: nat): Table
  {
    Table([], s, e, None, c, Financial, "", 0, 0, false, false)
  }

  /** Of [10,20] at 0.95 and [15,25] at 0.90, only [10,20] is kept, in whatever order they arrive. */
  lemma {:induction false} DedupeKeepsMoreConfident()
    ensures Dedupe([Bare(15, 25, 90), Bare(10, 20, 95)]) == [Bare(10, 20, 95)]
    ensures Dedupe([Bare(10, 20, 95), Bare(15, 25, 90)]) == [Bare(10, 20, 95)]
  {
    var a, b := Bare(10, 20, 95), Bare(15, 25, 90);
    assert SortBy([b, a], ConfKey) == [a, b] by {
      assert [b, a][..1] == [b];
      assert SortBy([b], ConfKey) == [b] by {
        assert [b][..0] == [];
      }
      assert !KeyLe(ConfKey(b), ConfKey(a));
    }
    assert SortBy([a, b], ConfKey) == [a, b] by {
      assert [a, b][..1] == [a];
      assert SortBy([a], ConfKey) == [a] by {
        assert [a][..0] == [];
      }
      assert [b][1..] == [];
    }
    DedupeDropsSecond(a, b);
  }

  /** When the first of two tables blocks the second, only the first is kept. */
  lemma {:induction false} DedupeDropsSecond(a: Table, b: Table)
    requires Blocks(a, b)
    ensures DedupeFrom([a, b], 0, []) == [a]
  {
    var ab := [a, b];
    assert ab[0] == a && ab[1] == b;
    assert !Blocked([], a);
    assert [] + [a] == [a];
    assert DedupeFrom(ab, 0, []) == DedupeFrom(ab, 1, [a]);
    assert [a][0] == a;
    assert Blocked([a], b);
    assert DedupeFrom(ab, 1, [a]) == DedupeFrom(ab, 2, [a]);
  }

  /**
   * The kept tables need not be disjoint: of [10,20] at 0.90 and [15,25] at
   * 0.95 both are kept, although they share lines 15 to 20.
   */
  lemma {:induction false} DedupeKeepsOverlap()
    ensures Dedupe([Bare(10, 20, 90), Bare(15, 25, 95)]) == [Bare(10, 20, 90), Bare(15, 25, 95)]
    ensures Overlaps(Bare(15, 25, 95), Bare(10, 20, 90))
  {
    var a, b := Bare(10, 20, 90), Bare(15, 25, 95);
    assert SortBy([a, b], ConfKey) == [a, b] by {
      assert [a, b][..1] == [a];
      assert SortBy([a], ConfKey) == [a] by {
        assert [a][..0] == [];
      }
      assert [b][1..] == [];
    }
    DedupeKeepsSecond(a, b);
  }

  /** When the first of two tables does not block the second, both are kept. */
  lemma {:induction false} DedupeKeepsSecond(a: Table, b: Table)
    requires !Blocks(a, b)
    ensures DedupeFrom([a, b], 0, []) == [a, b]
  {
    var ab := [a, b];
    assert ab[0] == a && ab[1] == b;
    assert !Blocked([], a);
    assert [] + [a] == [a];
    assert DedupeFrom(ab, 0, []) == DedupeFrom(ab, 1, [a]);
    assert [a][0] == a;
    assert !Blocked([a], b);
    assert [a] + [b] == ab;
    assert DedupeFrom(ab, 1, [a]) == DedupeFrom(ab, 2, ab);
  }

  /** The inner loop of `_deduplicate_tables`: does some kept table block `table`? */
  method FindBlocker(deduped: seq<Table>, table: Table) returns (overlap: bool)
    ensures overlap == Blocked(deduped, table)
  {
    overlap := false;
    var j := 0;
    while j < |deduped|
      invariant 0 <= j <= |deduped|
      invariant !overlap && !exists k :: 0 <= k < j && Blocks(deduped[k], table)
    {
      var existing := deduped[j];
      if table.startLine <= existing.endLine && table.endLine >= existing.startLine {
        if table.confidence <= existing.confidence {
          overlap := true;
          break;
        }
      }
      j := j + 1;
    }
  }

  /** `_deduplicate_tables`: sort by (start line, -confidence), then drop each table some kept table blocks. */
  method DeduplicateTables(tables: seq<Table>) returns (deduped: seq<Table>)
    ensures deduped == Dedupe(tables)
  {
    if |tables| == 0 {
      return tables;
    }
    var sorted := SortBy(tables, ConfKey);
    deduped := [];
    for n := 0 to |sorted|
      invariant DedupeFrom(sorted, n, deduped) == Dedupe(tables)
    {
      var table := sorted[n];
      var overlap := FindBlocker(deduped, table);
      if !overlap {
        deduped := deduped + [table];
      }
    }
  }

  // ---------------------------------------------------------------------------
  // identify_tables
  // ---------------------------------------------------------------------------

  /** The four strategy loops in turn over one consumed set. */
  function AllFound(p: Patterns, cfg: Config, lines: seq<string>): seq<Table>
  {
    var f := Scan(Candidates(p, cfg, FinancialStrategy, lines), 0, {});
    var d := Scan(Candidates(p, cfg, DelimitedStrategy, lines), 0, f.used);
    var a := Scan(Candidates(p, cfg, AlignedStrategy, lines), 0, d.used);
    var m := Scan(Candidates(p, cfg, MixedStrategy, lines), 0, a.used);
    f.tables + d.tables + a.tables + m.tables
  }

  /** `identify_tables`: the four strategies, then dedupe, then sort by (start line, -confidence). */
  function IdentifyTablesIn(p: Patterns, cfg: Config, text: string): seq<Table>
  {
    SortBy(Dedupe(AllFound(p, cfg, Split(text, '\n'))), ConfKey)
  }

  /** `t` lies within the text, holds exactly its own lines, and some strategy's extractor returns it at its first line. */
  ghost predicate Located(p: Patterns, cfg: Config, lines: seq<string>, t: Table)
  {
    t.startLine <= t.endLine < |lines| &&
    t.originalText == JoinWith(lines[t.startLine..t.endLine + 1], "\n") &&
    exists st: Strategy :: CandidateAt(p, cfg, st, lines, t.startLine) == Some(t)
  }

  /** A table a strategy loop returns is located in the text. */
  lemma {:induction false} ScanTables(p: Patterns, cfg: Config, st: Strategy, lines: seq<string>, used: set<nat>)
    ensures var ts := Scan(Candidates(p, cfg, st, lines), 0, used).tables;
      forall x :: x in ts ==> Located(p, cfg, lines, x)
  {
    var cand := Candidates(p, cfg, st, lines);
    var ts := Scan(cand, 0, used).tables;
    forall j | 0 <= j < |ts| ensures Located(p, cfg, lines, ts[j]) {
      var a := ScanSound(cand, 0, used, j);
      CandidateLocated(p, cfg, st, lines, a, ts[j]);
    }
  }

  /** A table some strategy finds at a line is located in the text. */
  lemma {:induction false} CandidateLocated(p: Patterns, cfg: Config, st: Strategy, lines: seq<string>, a: nat, t: Table)
    requires a < |lines| && CandidateAt(p, cfg, st, lines, a) == Some(t)
    ensures Located(p, cfg, lines, t)
  {
    CandidateShape(p, cfg, st, lines, a);
  }

  /** Every table the four loops find is located in the text. */
  lemma {:induction false} AllFoundLocated(p: Patterns, cfg: Config, lines: seq<string>)
    ensures forall x :: x in AllFound(p, cfg, lines) ==> Located(p, cfg, lines, x)
  {
    var f := Scan(Candidates(p, cfg, FinancialStrategy, lines), 0, {});
    var d := Scan(Candidates(p, cfg, DelimitedStrategy, lines), 0, f.used);
    var a := Scan(Candidates(p, cfg, AlignedStrategy, lines), 0, d.used);
    ScanTables(p, cfg, FinancialStrategy, lines, {});
    ScanTables(p, cfg, DelimitedStrategy, lines, f.used);
    ScanTables(p, cfg, AlignedStrategy, lines, d.used);
    ScanTables(p, cfg, MixedStrategy, lines, a.used);
  }

  /**
   * What `identify_tables` returns: tables ordered by (start line,
   * -confidence), each located in the text; no table is blocked by an earlier
   * one; and every table a strategy found is returned or overlaps a returned
   * table at least as confident. Overlapping tables may both be returned.
   */
  lemma {:induction false} IdentifyTablesShape(p: Patterns, cfg: Config, text: string)
    ensures var lines := Split(text, '\n');
      var r := IdentifyTablesIn(p, cfg, text);
      SortedBy(r, ConfKey) && Unblocked(r) &&
      (forall x :: x in r ==> Located(p, cfg, lines, x)) &&
      (forall x :: x in AllFound(p, cfg, lines) ==> x in r || Blocked(r, x))
  {
    var lines := Split(text, '\n');
    var all := AllFound(p, cfg, lines);
    AllFoundLocated(p, cfg, lines);
    var idx := DedupeShape(all);
    SortBySortedInput(Dedupe(all), ConfKey);
  }

  /**
   * A line that no strategy loop consumed is the anchor of no candidate of
   * any strategy: the loops miss nothing.
   */
  lemma {:induction false} IdentifyComplete(p: Patterns, cfg: Config, lines: seq<string>, k: nat, st: Strategy)
    requires k < |lines| && k !in Covered(AllFound(p, cfg, lines))
    ensures CandidateAt(p, cfg, st, lines, k) == None
  {
    var f := Scan(Candidates(p, cfg, FinancialStrategy, lines), 0, {});
    var d := Scan(Candidates(p, cfg, DelimitedStrategy, lines), 0, f.used);
    var a := Scan(Candidates(p, cfg, AlignedStrategy, lines), 0, d.used);
    var m := Scan(Candidates(p, cfg, MixedStrategy, lines), 0, a.used);
    ScanUsed(Candidates(p, cfg, FinancialStrategy, lines), 0, {});
    ScanUsed(Candidates(p, cfg, DelimitedStrategy, lines), 0, f.used);
    ScanUsed(Candidates(p, cfg, AlignedStrategy, lines), 0, d.used);
    ScanUsed(Candidates(p, cfg, MixedStrategy, lines), 0, a.used);
    CoveredAppend(f.tables, d.tables);
    CoveredAppend(f.tables + d.tables, a.tables);
    CoveredAppend(f.tables + d.tables + a.tables, m.tables);
    match st
    case FinancialStrategy => ScanComplete(Candidates(p, cfg, st, lines), 0, {});
    case DelimitedStrategy => ScanComplete(Candidates(p, cfg, st, lines), 0, f.used);
    case AlignedStrategy => ScanComplete(Candidates(p, cfg, st, lines), 0, d.used);
    case MixedStrategy => ScanComplete(Candidates(p, cfg, st, lines), 0, a.used);
  }

  lemma {:induction false} CoveredAppend(a: seq<Table>, b: seq<Table>)
    ensures Covered(a + b) == Covered(a) + Covered(b)
  {
    if a != [] {
      assert (a + b)[1..] == a[1..] + b;
      CoveredAppend(a[1..], b);
    } else {
      assert a + b == b;
    }
  }

  /** `identify_tables`. */
  method IdentifyTables(p: Patterns, cfg: Config, text: string) returns (tables: seq<Table>)
    ensures tables == IdentifyTablesIn(p, cfg, text)
  {
    var lines := Split(text, '\n');
    var tableLines: set<nat> := {};
    var financial, delimited, aligned, mixed;
    financial, tableLines := IdentifyStrategyTables(p, cfg, FinancialStrategy, lines, tableLines);
    delimited, tableLines := IdentifyStrategyTables(p, cfg, DelimitedStrategy, lines, tableLines);
    aligned, tableLines := IdentifyStrategyTables(p, cfg, AlignedStrategy, lines, tableLines);
    mixed, tableLines := IdentifyStrategyTables(p, cfg, MixedStrategy, lines, tableLines);
    tables := DeduplicateTables(financial + delimited + aligned + mixed);
    tables := SortBy(tables, ConfKey);
  }
}
