# MD&A extraction core: table regions, table detectors and text normalisation

This project models, in Dafny, the line-oriented core of an extractor for the
"Management's Discussion and Analysis" (MD&A) section of SEC 10-K and 10-Q
filings, and proves properties of that model. The core has four parts:

- **Section slicing and table fencing** (`src/core/extractor.py`). Character
  offsets of the section in the parsing view of a filing are mapped to line
  numbers; those lines are cut from the preservation view; and the cut lines
  are processed one by one. A run of lines that looks like a table is written
  verbatim between `--- BEGIN TABLE ---` and `--- END TABLE ---`, and a line of
  ordinary prose gets its whitespace collapsed.
- **Base table detector** (`src/parsers/table_parser.py`). Three strategies
  (financial, delimited or pipe, aligned) scan the lines and share one set of
  consumed line numbers. Each extractor grows a table line by line under a
  blank-line counter and a minimum row count. The results are deduplicated,
  sorted, and can be spliced back into the text.
- **Enhanced table detector** (`src/parsers/enhanced_table_parser.py`). Four
  strategies, three of which delegate to one growth routine. Pipe rows are
  split into cells, table lines can be re-spaced, and deduplication uses a
  closed-interval overlap test.
- **Text normaliser** (`src/parsers/enhanced_text_normalizer.py`). An
  eight-label line classifier with a seven-line context window, a
  preserve-or-collapse rewrite of each line, and small list and string
  cleaners: blank-run capping, blank removal, whitespace normalisation,
  control-character replacement, CSV cleaning and filename sanitising.

Modules:

| module | file | models |
|---|---|---|
| `Extractor` | Extractor.dfy | offset-to-line mapping, table regions, the fencing pass |
| `TableParser` | TableParser.dfy | base delimiter test, title search, the four base extractors |
| `TableScan` | TableScan.dfy | base strategy loops, deduplication, `identify_tables`, `preserve_tables_in_text` |
| `EnhancedTableParser` | EnhancedTableParser.dfy | enhanced delimiter test, title search, growth routine, pipe rows, line re-spacing |
| `EnhancedTableScan` | EnhancedTableScan.dfy | enhanced strategy loops, deduplication, `identify_tables` |
| `TextNormalizer` | TextNormalizer.dfy | classifier, context window, the three passes, string cleaners |
| `Runs` | Runs.dfy | the blank-counting growth loop the base extractors share |
| `Sorting` | Sorting.dfy | Python's stable `sort(key=...)` |
| `Strings`, `Seqs`, `Wrappers` | Strings.dfy, Seqs.dfy, Wrappers.dfy | `str.strip`, `split`, `join`, whitespace squeezing, `Option` |

How the source is represented:

- Every loop that updates variables is a `method` with a `while` or `for`
  loop. Its `ensures` ties the result to a recursive specification function,
  and the source's promises are proved as lemmas about that function.
- The tests that the source writes as regular expressions or keyword lists
  (financial data, continuation keywords, table headers, section breaks and
  the like) are not re-implemented. Each one is a set of strings held in a
  `Patterns` value, and membership in the set is the test. The character-level
  tests are defined outright: blank, digit (ASCII only), '|' counts, the horizontal
  delimiter, the separator line, the delimiter rule, whitespace runs.
- `TABLE_MIN_ROWS` comes from a configuration module, so it is a `Config`
  parameter. Confidences are the integers 80, 90 and 95.
- Python whitespace is the `str.isspace` set. Strings are `seq<char>`.

Behaviour of the code that a reader of the comments might not expect (the
model follows the code):

- The normaliser's "pipes" indicator `\|.*\|.*\|` needs three '|' on one
  line, not two.
- The normaliser's classifier has a date and year-header rule. It comes after
  the `potential_table` rule and yields `table_header`.
- The enhanced growth routine has no "contains a digit" requirement. The base
  financial and aligned extractors and the extractor's region finder do have
  one, and they test the digit before deciding whether the line is kept, so a
  digit on the line that ends the table counts.
- The enhanced deduplication never removes a kept table. Two overlapping
  tables are both kept when the later one is strictly more confident
  (`EnhancedTableScan.DedupeKeepsOverlap`). The base deduplication does give
  pairwise-disjoint tables (`TableScan.DedupeChain`).

## Model

| member | source | states |
|---|---|---|
| Extractor.FirstHolding | src/core/extractor.py:261-270 | the first line from `from` on whose closed range [line_start, line_end] holds the offset; no earlier line from `from` holds it; None when no line does |
| Extractor.PositionsToLines | src/core/extractor.py:256-274 | both returned line numbers are valid indices; an end offset that no line holds gives the last line, a start offset that no line holds gives line 0 |
| Extractor.LineStartSums | src/core/extractor.py:262-272 | line `i` starts at the total length of the earlier lines plus one newline for each |
| Extractor.LinesAscend | src/core/extractor.py:262-272 | every line starts after the end of each earlier line, with room for the newline |
| Extractor.LineUnique | src/core/extractor.py:265-269 | no offset lies in the ranges of two lines |
| Extractor.LastLineEnd | src/core/extractor.py:256 | the lines of `content.split('\n')` span exactly the length of the content |
| Extractor.EveryOffsetHasOneLine | src/core/extractor.py:261-272 | every offset from 0 to the length of the content lies in exactly one line |
| Extractor.LineOfMonotone | src/core/extractor.py:261-272 | a later offset never lies in an earlier line |
| Extractor.SectionLinesOrdered | src/core/extractor.py:254-274 | for offsets 0 <= start <= end <= length, the start line comes no later than the end line, and each holds its offset |
| Extractor.MapPositionsToLines | src/core/extractor.py:254-274 | the loop with its running offset returns exactly the line pair of `PositionsToLines` over `content.split('\n')` |
| Extractor.LinesBetween | src/core/extractor.py:104-108 | the section is `preservation_lines[start_line:end_line + 1]` for the line numbers of the parsing view |
| Extractor.SectionLinesOfSameView | src/core/extractor.py:104-108 | when both views are the same text, the section is the run of lines from the one holding the start offset to the one holding the end offset |
| Extractor.LineStartsTable | src/core/extractor.py:361-381 | a table can start at a line only when a next line exists: never at the last line |
| Extractor.SeparatorLineEnds | src/core/extractor.py:406-416 | a separator line, once stripped, starts and ends with '-', '=' or '_' |
| Extractor.NormalizeTextLine | src/core/extractor.py:506-515 | empty exactly for a blank line; the same words as the line; the first min(4, indentation) characters of the line, then words joined by single spaces |
| Extractor.NormalizeTextLineIdempotent | src/core/extractor.py:506-515 | normalising a normalised line changes nothing |
| Extractor.GrowKeepsNoBreaker | src/core/extractor.py:329-354 | every line the growth loop keeps is blank, a table line or a continuation |
| Extractor.GrowNoBlankTriple | src/core/extractor.py:336-340 | the kept lines never hold three blank lines in a row |
| Extractor.GrowStopsForAReason | src/core/extractor.py:336-349 | the loop stops before the end only at a third blank line in a row, or at a breaking line after more than two kept lines with a digit seen |
| Extractor.GrowDigitFlag | src/core/extractor.py:332-334 | `has_numeric_data` says whether a line up to and including the stopping line holds a digit |
| Extractor.GrowRejectsForAReason | src/core/extractor.py:344-352 | a rejected candidate met a breaking line before more than two lines were kept or before a digit was seen |
| Extractor.TableRegionAt | src/core/extractor.py:314-359 | a region found at `s` starts at `s`, has at least two lines, ends inside the text, and its lines are exactly `lines[s..end_line]` |
| Extractor.TableRegionShape | src/core/extractor.py:319-357 | a found region starts a table, has at least two lines with `end_line = s + len - 1`, no three blank lines in a row, and no breaking line |
| Extractor.TableRegionEnd | src/core/extractor.py:329-357 | a digit occurs in the region or on the line that ended it, and it ends at the last line, before a third blank line, or before a breaking line after more than two lines |
| Extractor.EarlyBreakRejects | src/core/extractor.py:344-352 | a breaking line met before more than two lines were kept or before any digit gives None |
| Extractor.IdentifyTableRegion | src/core/extractor.py:314-359 | the growth loop returns exactly `TableRegionAt` |
| Extractor.PieceAt | src/core/extractor.py:283-310 | the piece at `i` is a table exactly when a region starts there, holds that region's lines, and covers at least one line, so `i` strictly increases |
| Extractor.PlanCoversLines | src/core/extractor.py:281-310 | the pieces stand for the input lines, each exactly once and in order |
| Extractor.PlanTablesAreRegions | src/core/extractor.py:283-296 | every table piece is the region `_identify_table_region` returns at some line |
| Extractor.TextLineKeepsWords | src/core/extractor.py:298-308 | a line outside every table changes only when it is regular text, and never gains or loses a word |
| Extractor.TableFencedVerbatim | src/core/extractor.py:291-294 | every table piece appears in the output line for line, right between the BEGIN and END markers |
| Extractor.FenceRenders | src/core/extractor.py:281-310 | the loop appends to its output the rendering of the pieces, in order |
| Extractor.ProcessMdnaContent | src/core/extractor.py:276-312 | the method's text is the output lines of the loop joined by newlines |
| TableParser.NoSpacesChars | src/parsers/table_parser.py:348 | the characters of `s.replace(' ', '')` are those of `s` other than the space |
| TableParser.HorizontalDelimiterIff | src/parsers/table_parser.py:340-350 | a delimiter exactly when the stripped line has at least three characters, each a space or one and the same one of '-', '=', '_' |
| TableParser.HorizontalDelimiterExamples | src/parsers/table_parser.py:340-350 | "-=-" is not a delimiter; "- - -" is one |
| TableParser.TitleFromNone | src/parsers/table_parser.py:614-645 | the title search finds nothing exactly when no line of its window passes the title test |
| TableParser.TitleFromFirst | src/parsers/table_parser.py:614-645 | a title found is the nearest line above the table that passes the test |
| TableParser.TitleAtNearest | src/parsers/table_parser.py:611-645 | the title is the nearest of the up to three lines above the table that looks like a title, and there is none exactly when none does |
| TableParser.ExtractTableTitle | src/parsers/table_parser.py:611-645 | the `for` loop returns exactly `TitleAt` |
| TableParser.FinancialTableAt | src/parsers/table_parser.py:168-234 | a financial table starts at most one line above the anchor and ends at or after it, inside the text |
| TableParser.DelimitedTableAt | src/parsers/table_parser.py:407-466 | a delimited table starts at most one line above the delimiter and ends at or after it, inside the text |
| TableParser.PipeTableAt | src/parsers/table_parser.py:468-507 | a pipe table starts at its anchor and ends inside the text |
| TableParser.AlignedTableAt | src/parsers/table_parser.py:509-564 | an aligned table starts at its header line and ends inside the text |
| TableParser.FinancialTableShape | src/parsers/table_parser.py:174-234 | accepted exactly with at least `TABLE_MIN_ROWS` lines and a digit seen; a title moves the start up one line; raw lines are the lines from start to end; confidence 95, kind financial |
| TableParser.FinancialRowsShape | src/parsers/table_parser.py:183-214 | each kept line is blank or kept for a reason, no three blank lines in a row, and the loop ends at a line it cannot keep or at a third blank line |
| TableParser.DelimitedTableShape | src/parsers/table_parser.py:411-466 | accepted exactly when the line above the delimiter is not blank and there are at least `TABLE_MIN_ROWS` lines; raw lines from start to end, title from `_extract_table_title`, confidence 90 |
| TableParser.DelimitedRowsShape | src/parsers/table_parser.py:426-444 | the rows after the delimiter are blank or table data, never two blank lines in a row, up to a line it cannot keep or a second blank line |
| TableParser.PipeTableShape | src/parsers/table_parser.py:474-506 | accepted exactly with at least `TABLE_MIN_ROWS` lines; `end_line = start_line + count - 1`; confidence 95, kind delimited |
| TableParser.PipeRowsShape | src/parsers/table_parser.py:474-485 | every kept line is non-blank and holds a pipe character or continues the table; the loop stops at the first other line |
| TableParser.AlignedTableShape | src/parsers/table_parser.py:512-564 | accepted exactly with at least `TABLE_MIN_ROWS` lines counting the header and a digit on a line after it; confidence 80, kind aligned |
| TableParser.AlignedRowsShape | src/parsers/table_parser.py:513-541 | the rows after the header are blank or kept for a reason, never two blank lines in a row |
| TableParser.FinancialRows | src/parsers/table_parser.py:183-214 | the loop's `table_raw_lines` and `has_numeric_data` are those of the growth function |
| TableParser.ExtractFinancialTable | src/parsers/table_parser.py:168-234 | the method returns exactly `FinancialTableAt` |
| TableParser.DelimitedRows | src/parsers/table_parser.py:426-444 | the loop appends exactly the rows of the growth function |
| TableParser.ExtractDelimitedTable | src/parsers/table_parser.py:407-466 | the method returns exactly `DelimitedTableAt` |
| TableParser.PipeRows | src/parsers/table_parser.py:471-485 | the loop appends exactly the lines from the anchor to where the growth function stops |
| TableParser.ExtractPipeTable | src/parsers/table_parser.py:468-507 | the method returns exactly `PipeTableAt` |
| TableParser.AlignedRows | src/parsers/table_parser.py:512-541 | the loop's rows and `has_numeric_data` are those of the growth function |
| TableParser.ExtractAlignedTable | src/parsers/table_parser.py:509-564 | the method returns exactly `AlignedTableAt` |
| Runs.CollectKeeps | src/parsers/table_parser.py:187-214 | every line the shared growth loop keeps is blank or accepted by the strategy's test |
| Runs.CollectNoBlankRun | src/parsers/table_parser.py:190-194 | the kept lines hold no `limit` blank lines in a row |
| Runs.CollectStops | src/parsers/table_parser.py:187-214 | the loop stops before the end only at a rejected line or at a blank line ending a run of `limit` |
| Runs.CollectDigit | src/parsers/table_parser.py:198-200 | the digit flag says whether a line up to and including the stopping line holds a digit |
| Sorting.SortBy | src/parsers/table_parser.py:653 | the sorted list is a permutation of the input |
| Sorting.SortBySorted | src/parsers/table_parser.py:653 | the sorted list is ordered by key |
| Sorting.SortByStable | src/parsers/table_parser.py:653 | for every key, the elements with that key keep their input order |
| Sorting.SortBySortedInput | src/parsers/table_parser.py:59 | sorting a list already ordered by key leaves it as it is |
| TableScan.CandidateAt | src/parsers/table_parser.py:277-312 | what a strategy finds at a line lies in the text, covers that line, starts at most one line above it, and holds exactly its own lines |
| TableScan.ScanAt | src/parsers/table_parser.py:124-140 | one turn of a strategy loop: a candidate is taken, its lines consumed, and the loop resumes after its last line; otherwise the loop moves on |
| TableScan.ScanUsed | src/parsers/table_parser.py:134-135 | the consumed set grows by exactly the lines of the tables found |
| TableScan.ScanSound | src/parsers/table_parser.py:124-138 | every table found is the candidate at an anchor that was not consumed before the loop |
| TableScan.ScanOrder | src/parsers/table_parser.py:124-140 | one strategy's tables come out in order, each ending after the one before and starting no earlier than its end |
| TableScan.ScanComplete | src/parsers/table_parser.py:124-140 | a line left unconsumed is not the anchor of any candidate |
| TableScan.MarkLines | src/parsers/table_parser.py:134-135 | the consumed set gains exactly the lines from start to end |
| TableScan.FinancialCandidate | src/parsers/table_parser.py:130-131 | the financial header test then `_extract_financial_table`, as `CandidateAt` |
| TableScan.DelimitedCandidate | src/parsers/table_parser.py:289-301 | the horizontal delimiter test, else the test for two pipe characters, then their extractors, as `CandidateAt` |
| TableScan.AlignedCandidate | src/parsers/table_parser.py:326-327 | the table header test then `_extract_aligned_table`, as `CandidateAt` |
| TableScan.VisitLine | src/parsers/table_parser.py:129-140 | the loop body keeps the tables found so far plus the rest of the scan unchanged |
| TableScan.IdentifyFinancialTables | src/parsers/table_parser.py:119-142 | the method returns the tables and consumed set of the scan over the financial candidates |
| TableScan.IdentifyDelimitedTables | src/parsers/table_parser.py:277-312 | the method returns the tables and consumed set of the scan over the delimited candidates |
| TableScan.IdentifyAlignedTables | src/parsers/table_parser.py:314-338 | the method returns the tables and consumed set of the scan over the aligned candidates |
| TableScan.FirstOverlap | src/parsers/table_parser.py:659-661 | the first kept table from `j` on whose range holds the start of the new table |
| TableScan.RemoveFirst | src/parsers/table_parser.py:664 | `list.remove` takes out one occurrence of the element |
| TableScan.DedupeStepLast | src/parsers/table_parser.py:656-670 | with tables arriving in start order, a new table is appended after a kept table it does not overlap, replaces it when strictly more confident, and is dropped otherwise |
| TableScan.DedupeFromChain | src/parsers/table_parser.py:655-670 | the filter loop keeps a chain of tables, each ending before the next starts, drawn from the inputs |
| TableScan.DedupeChain | src/parsers/table_parser.py:647-670 | the result's tables are pairwise disjoint and in order, each one of the inputs, no more of them than went in, and empty only for empty input |
| TableScan.DeduplicateTables | src/parsers/table_parser.py:647-670 | the sort-then-filter method returns exactly `Dedupe` |
| TableScan.ScanTables | src/parsers/table_parser.py:119-142 | a table a strategy loop returns lies in the text, holds its own lines, and is a candidate at an unconsumed line |
| TableScan.IdentifyTablesShape | src/parsers/table_parser.py:34-61 | `identify_tables` returns tables in start order that do not overlap, each in the text, holding its own lines, and each returned by some extractor |
| TableScan.IdentifyComplete | src/parsers/table_parser.py:50-53 | a line that no strategy loop consumed is the anchor of no candidate of any strategy |
| TableScan.IdentifyTables | src/parsers/table_parser.py:34-61 | the method returns exactly `IdentifyTablesIn` |
| TableScan.GapRows | src/parsers/table_parser.py:83-86 | the lines copied before a table are the existing lines between the current line and the table's start |
| TableScan.SpliceUntouched | src/parsers/table_parser.py:81-110 | a table without a title, holding its own lines and followed by a blank line or the end, is written back as those lines |
| TableScan.SpliceRoundTrip | src/parsers/table_parser.py:77-115 | splicing back untouched tables in order writes exactly the remaining lines |
| TableScan.PreserveRoundTrip | src/parsers/table_parser.py:63-117 | splicing tables the text already holds, in order, without titles and each followed by a blank line or the end, gives back the text |
| TableScan.CopyGap | src/parsers/table_parser.py:83-86 | the `while` loop appends the gap lines and leaves `current_line` at the table's start |
| TableScan.PlaceTable | src/parsers/table_parser.py:82-110 | one table writes its gap, title block, lines and spacer, and `current_line` becomes `end_line + 1` |
| TableScan.SpliceStep | src/parsers/table_parser.py:81-110 | writing one table leaves the rest of the splice from just after it |
| TableScan.PreserveTablesInText | src/parsers/table_parser.py:63-117 | the method returns exactly `Preserved`, the text itself when there are no tables |
| EnhancedTableParser.CharsWithoutSpaces | src/parsers/enhanced_table_parser.py:238 | the distinct characters of `stripped.replace(' ', '')` are those of the line other than the space |
| EnhancedTableParser.FewRuleCharsForward | src/parsers/enhanced_table_parser.py:237-241 | at most two distinct delimiter characters besides spaces means every character is a space or one of two delimiter characters |
| EnhancedTableParser.FewRuleCharsBackward | src/parsers/enhanced_table_parser.py:237-241 | characters drawn from two delimiter characters and spaces give at most two distinct delimiter characters |
| EnhancedTableParser.EnhancedDelimiterIff | src/parsers/enhanced_table_parser.py:225-243 | a delimiter exactly when the stripped line has at least three characters and a boundary pattern matches or every character is a space or one of two of the characters dash, equals, underscore, plus and pipe |
| EnhancedTableParser.TwoCharRuleIsDelimiter | src/parsers/enhanced_table_parser.py:237-241 | "+---+---+" is a delimiter |
| EnhancedTableParser.ThreeCharRuleIsNot | src/parsers/enhanced_table_parser.py:237-241 | "-=+" is not a delimiter unless a boundary pattern matches it |
| EnhancedTableParser.ShortLineIsNot | src/parsers/enhanced_table_parser.py:227-229 | a stripped line of fewer than three characters is never a delimiter |
| EnhancedTableParser.MaxLenBounds | src/parsers/enhanced_table_parser.py:349 | the column count is no smaller than any row and equal to some row, 0 without rows |
| EnhancedTableParser.TitleAsWrittenFromShape | src/parsers/enhanced_table_parser.py:477-503 | the title search as written never returns a title: it returns None, or raises exactly when a non-blank line under 200 characters that is neither columnar nor monetary lies in its window |
| EnhancedTableParser.TitleAboveNearest | src/parsers/enhanced_table_parser.py:477-503 | the corrected title is the nearest of the up to five lines above the table that looks like a title, and there is none exactly when none does |
| EnhancedTableParser.TitleAsWrittenRaises | src/parsers/enhanced_table_parser.py:493 | wherever the corrected search finds a title, the search as written raises |
| EnhancedTableParser.TitleAsWrittenCounterexample | src/parsers/enhanced_table_parser.py:460-464 | for the caption "Revenue summary" above a table, the search as written raises and the corrected one returns the caption |
| EnhancedTableParser.ExtractEnhancedTableTitle | src/parsers/enhanced_table_parser.py:477-503 | the corrected `for` loop returns exactly `TitleAbove` |
| EnhancedTableParser.GrowStop | src/parsers/enhanced_table_parser.py:309-340 | the growth loop stops at or after its current line and inside the text |
| EnhancedTableParser.MonetaryInIff | src/parsers/enhanced_table_parser.py:329-331 | `has_monetary` holds exactly when some data line passes the monetary test |
| EnhancedTableParser.PercentInIff | src/parsers/enhanced_table_parser.py:332-333 | `has_percentage` holds exactly when some data line holds a '%' |
| EnhancedTableParser.FinancialTableAt | src/parsers/enhanced_table_parser.py:294-370 | a financial table starts at its anchor and ends inside the text |
| EnhancedTableParser.GrowStopReason | src/parsers/enhanced_table_parser.py:310-338 | the loop stops at the end of the text, after three blank lines in a row, or at a non-blank non-data line that is a section break or more than 50 lines past the anchor |
| EnhancedTableParser.GrowSkips | src/parsers/enhanced_table_parser.py:334-338 | a non-data line the loop passes over is neither a section break nor more than 50 lines past the anchor |
| EnhancedTableParser.GrowNoBlankRun | src/parsers/enhanced_table_parser.py:310-316 | three blank lines in a row occur only as the last lines of the table |
| EnhancedTableParser.DataRowsSource | src/parsers/enhanced_table_parser.py:313-328 | every row comes from a non-blank data line, and every such line gives a row: blank lines never become rows |
| EnhancedTableParser.FinancialTableShape | src/parsers/enhanced_table_parser.py:302-370 | accepted exactly with at least `TABLE_MIN_ROWS` rows; row 0 is the stripped anchor line when it is not blank; spans the anchor to the line before the stop; `original_text` is those lines joined; confidence 95, kind financial |
| EnhancedTableParser.FinancialOwnText | src/parsers/enhanced_table_parser.py:353-354 | a financial table holds exactly its own lines |
| EnhancedTableParser.FinancialTableMetrics | src/parsers/enhanced_table_parser.py:329-349 | the column count is the widest row's width; the flags say whether a data line was monetary or held a '%' |
| EnhancedTableParser.ConsiderLine | src/parsers/enhanced_table_parser.py:320-338 | one non-blank line: a data line adds its parsed row and updates the flags; another line stops the loop exactly when it is a section break or too far |
| EnhancedTableParser.BlankStep | src/parsers/enhanced_table_parser.py:313-316 | a blank line adds no row, sets no flag, and is counted |
| EnhancedTableParser.GrowStep | src/parsers/enhanced_table_parser.py:313-338 | one pass of the loop: a blank line is counted and adds nothing; any other line goes through `ConsiderLine`; the stop and the gathered rows and flags agree with `GrowStop` and the specification functions |
| EnhancedTableParser.GrowTable | src/parsers/enhanced_table_parser.py:296-340 | the loop ends where `GrowStop` says, with the header row, the data rows and both flags of the specification functions |
| EnhancedTableParser.ExtractFinancialTable | src/parsers/enhanced_table_parser.py:294-370 | the method returns exactly `FinancialTableAt` |
| EnhancedTableParser.SplitCount | src/parsers/enhanced_table_parser.py:521 | `s.split(sep)` has one part more than `s` has separators |
| EnhancedTableParser.CellsOfLine | src/parsers/enhanced_table_parser.py:521-527 | a line with n pipe characters has between n - 1 and n + 1 cells, each a stripped part, and a pipe line has at least one |
| EnhancedTableParser.PipeStop | src/parsers/enhanced_table_parser.py:517-531 | the pipe loop stops at or after the anchor and inside the text |
| EnhancedTableParser.RowHasIff | src/parsers/enhanced_table_parser.py:541 | a row has `c` exactly when one of its cells holds `c` |
| EnhancedTableParser.AnyCellHasIff | src/parsers/enhanced_table_parser.py:541-542 | the generator expression holds exactly when some cell of some row holds the character |
| EnhancedTableParser.PipeTableAt | src/parsers/enhanced_table_parser.py:511-558 | a pipe table starts at its anchor and ends inside the text |
| EnhancedTableParser.PipeContentAll | src/parsers/enhanced_table_parser.py:519-528 | over pipe lines every line gives exactly one row of at least one cell |
| EnhancedTableParser.PipeStopRun | src/parsers/enhanced_table_parser.py:517-531 | the pipe loop takes the whole run of pipe lines from the anchor on |
| EnhancedTableParser.PipeTableShape | src/parsers/enhanced_table_parser.py:517-558 | accepted exactly with at least `TABLE_MIN_ROWS` pipe lines; one row per pipe line; `end_line = start_line + rows - 1`; confidence 90, kind delimited |
| EnhancedTableParser.PipeTableText | src/parsers/enhanced_table_parser.py:537-538 | `original_text` is the run of pipe lines from the anchor, joined by newlines |
| EnhancedTableParser.PipeTableOwnText | src/parsers/enhanced_table_parser.py:537-538 | a pipe table holds exactly its own lines, from its anchor to its end line |
| EnhancedTableParser.PipeTableMetrics | src/parsers/enhanced_table_parser.py:541-555 | the column count is the widest row's width; `has_monetary` holds exactly when a cell holds '$', `has_percentage` when a cell holds '%' |
| EnhancedTableParser.PipeCells | src/parsers/enhanced_table_parser.py:521-526 | the cells of one pipe line are the stripped parts between the pipe characters, an empty first and last part dropped, as `Cells` defines them |
| EnhancedTableParser.PipeRows | src/parsers/enhanced_table_parser.py:514-531 | the loop returns the cells of each pipe line up to the first other line |
| EnhancedTableParser.ExtractPipeTable | src/parsers/enhanced_table_parser.py:511-558 | the method returns exactly `PipeTableAt` |
| EnhancedTableParser.FormatTableLineShape | src/parsers/enhanced_table_parser.py:466-475 | no whitespace at either end; every whitespace run is a single character or exactly four spaces; every other character kept as often as in the line |
| EnhancedTableParser.FormatTableLineIdempotent | src/parsers/enhanced_table_parser.py:466-475 | re-spacing a re-spaced line changes nothing |
| EnhancedTableScan.CandidateAt | src/parsers/enhanced_table_parser.py:135-167 | what a strategy finds at a line starts there and ends inside the text |
| EnhancedTableScan.CandidateShape | src/parsers/enhanced_table_parser.py:505-568 | whatever a strategy finds holds exactly its own lines |
| EnhancedTableScan.ScanAt | src/parsers/enhanced_table_parser.py:140-165 | one turn of a strategy loop: a candidate is taken, its lines consumed, and the loop resumes after its last line |
| EnhancedTableScan.ScanUsed | src/parsers/enhanced_table_parser.py:150-151 | the consumed set grows by exactly the lines of the tables found |
| EnhancedTableScan.ScanSound | src/parsers/enhanced_table_parser.py:140-165 | every table found is the candidate at an anchor that was not consumed before the loop |
| EnhancedTableScan.ScanOrder | src/parsers/enhanced_table_parser.py:140-165 | one strategy's tables start in order and each ends before the next starts |
| EnhancedTableScan.ScanComplete | src/parsers/enhanced_table_parser.py:140-165 | a line left unconsumed is not the anchor of any candidate |
| EnhancedTableScan.Candidate | src/parsers/enhanced_table_parser.py:146-156 | the anchor test and the extractor of a strategy, as `CandidateAt` |
| EnhancedTableScan.VisitLine | src/parsers/enhanced_table_parser.py:148-165 | the loop body keeps the tables found so far plus the rest of the scan unchanged |
| EnhancedTableScan.IdentifyStrategyTables | src/parsers/enhanced_table_parser.py:109-216 | each of the four loops returns the tables and consumed set of the scan over its candidates |
| EnhancedTableScan.DedupeFromShape | src/parsers/enhanced_table_parser.py:583-596 | the kept tables are a subsequence of the input, none blocks a later one, tables once kept stay, and every table is kept or blocked by a kept table |
| EnhancedTableScan.PicksSorted | src/parsers/enhanced_table_parser.py:580-596 | a subsequence of the sorted list is itself sorted by (start line, -confidence) |
| EnhancedTableScan.DedupeShape | src/parsers/enhanced_table_parser.py:574-596 | the result is a subsequence of the input sorted by (start line, -confidence); of two overlapping kept tables the later is strictly more confident; every dropped table overlaps a kept table at least as confident |
| EnhancedTableScan.DedupeKeepsMoreConfident | src/parsers/enhanced_table_parser.py:588-593 | of [10,20] at 0.95 and [15,25] at 0.90, only [10,20] is kept, in either input order |
| EnhancedTableScan.DedupeDropsSecond | src/parsers/enhanced_table_parser.py:586-596 | when the first table blocks the second, only the first is kept |
| EnhancedTableScan.DedupeKeepsOverlap | src/parsers/enhanced_table_parser.py:586-596 | of [10,20] at 0.90 and [15,25] at 0.95 both are kept, although they share lines: kept tables need not be disjoint |
| EnhancedTableScan.DedupeKeepsSecond | src/parsers/enhanced_table_parser.py:586-596 | when the first table does not block the second, both are kept |
| EnhancedTableScan.FindBlocker | src/parsers/enhanced_table_parser.py:585-593 | the inner loop reports exactly whether some kept table blocks the new one |
| EnhancedTableScan.DeduplicateTables | src/parsers/enhanced_table_parser.py:574-596 | the method returns exactly `Dedupe` |
| EnhancedTableScan.ScanTables | src/parsers/enhanced_table_parser.py:109-216 | a table a strategy loop returns lies in the text, holds its own lines, and is its extractor's result at its first line |
| EnhancedTableScan.AllFoundLocated | src/parsers/enhanced_table_parser.py:63-67 | every table the four loops find is located in the text |
| EnhancedTableScan.IdentifyTablesShape | src/parsers/enhanced_table_parser.py:45-80 | the result is ordered by (start line, -confidence), each table located in the text, none blocked by an earlier one, and every table found is returned or blocked by a returned table |
| EnhancedTableScan.IdentifyComplete | src/parsers/enhanced_table_parser.py:63-67 | a line that no strategy loop consumed is the anchor of no candidate of any strategy |
| EnhancedTableScan.IdentifyTables | src/parsers/enhanced_table_parser.py:45-80 | the method returns exactly `IdentifyTablesIn` |
| TextNormalizer.HasPipesOnLine | src/parsers/enhanced_text_normalizer.py:40 | on a line without '\n' the pipes pattern matches exactly when the line has at least three pipe characters |
| TextNormalizer.IndicatorsTwo | src/parsers/enhanced_text_normalizer.py:223-232 | the count reaches two exactly when two distinct lines are indicators |
| TextNormalizer.IndicatorsOne | src/parsers/enhanced_text_normalizer.py:223-230 | the count reaches one exactly when some line is an indicator |
| TextNormalizer.HasTableContextIff | src/parsers/enhanced_text_normalizer.py:216-232 | context holds exactly when two lines between `max(0, i - 3)` and `min(n, i + 4)`, line `i` included, are indicators |
| TextNormalizer.Classify | src/parsers/enhanced_text_normalizer.py:129-185 | `empty` exactly for a blank line; preserved, potential and continuation labels only for non-blank lines; `monetary_data` only with money or several amounts or percentages; `table_content` only with three pipes or table context |
| TextNormalizer.ClassifyInWindow | src/parsers/enhanced_text_normalizer.py:219-222 | a line's label depends only on the seven-line window around it |
| TextNormalizer.RuleIsDelimiter | src/parsers/enhanced_text_normalizer.py:138-140 | a delimiter rule is a `table_delimiter`, whatever the other patterns say |
| TextNormalizer.RStripEmptyIffBlank | src/parsers/enhanced_text_normalizer.py:102 | `rstrip` leaves nothing exactly when the line is blank |
| TextNormalizer.CautiouslyFormatLineShape | src/parsers/enhanced_text_normalizer.py:245-250 | empty exactly for a blank line; ends in non-whitespace; every run of two or more spaces becomes four; every other character kept; idempotent |
| TextNormalizer.CollapseWordsEmptyIffBlank | src/parsers/enhanced_text_normalizer.py:115-117 | `' '.join(line.split())` is empty exactly when the line is blank |
| TextNormalizer.RenderShape | src/parsers/enhanced_text_normalizer.py:98-117 | a table line loses only trailing whitespace; a continuation is stripped and keeps its words; a potential table line is cautiously formatted; other text gets `min(indent, 4)` spaces then its words joined by single spaces |
| TextNormalizer.RenderNonBlank | src/parsers/enhanced_text_normalizer.py:98-117 | a non-blank line never renders blank |
| TextNormalizer.ProseCollapses | src/parsers/enhanced_text_normalizer.py:113-117 | three words with irregular whitespace between them become the words joined by single spaces |
| TextNormalizer.Labels | src/parsers/enhanced_text_normalizer.py:93-96 | the first pass labels exactly the blank lines `empty` |
| TextNormalizer.ProcessedShape | src/parsers/enhanced_text_normalizer.py:98-121 | at most one output line per input line; no leading blank; no two blanks in a row; blank lines are empty strings; the non-blank output lines are the renderings of the non-blank input lines, in order |
| TextNormalizer.PreservedLinesShape | src/parsers/enhanced_text_normalizer.py:83-127 | the third pass changes nothing, and the result has all the shape facts of the second pass |
| TextNormalizer.AggressivelyPreserveTables | src/parsers/enhanced_text_normalizer.py:83-127 | the two loops return `PreservedLines` joined by newlines |
| TextNormalizer.ClassifyLines | src/parsers/enhanced_text_normalizer.py:92-96 | the first pass yields exactly one `Classify` label per line, in order |
| TextNormalizer.ProcessLine | src/parsers/enhanced_text_normalizer.py:100-121 | one step of the second pass appends the rendering chosen by the label, or one paragraph break only after a non-blank line |
| TextNormalizer.CleanExcessiveEmptyLines | src/parsers/enhanced_text_normalizer.py:252-267 | the loop returns exactly `CappedBlanks` |
| TextNormalizer.CappedBlanksKeeps | src/parsers/enhanced_text_normalizer.py:257-265 | a list with no run of four blank lines is kept as it is |
| TextNormalizer.CappedFromNonBlanks | src/parsers/enhanced_text_normalizer.py:263-265 | every non-blank line is kept, in order |
| TextNormalizer.CappedFromSubseq | src/parsers/enhanced_text_normalizer.py:257-265 | the output is a subsequence of the input |
| TextNormalizer.CappedFromRuns | src/parsers/enhanced_text_normalizer.py:258-262 | the output has no run of four blank lines |
| TextNormalizer.CappedBlanksIdempotent | src/parsers/enhanced_text_normalizer.py:252-267 | capping blank runs twice is capping them once |
| TextNormalizer.ParagraphsShape | src/parsers/enhanced_text_normalizer.py:352-357 | non-blank lines kept in order; at most one output line per input line; blank lines are empty, never first and never two in a row |
| TextNormalizer.RemoveEmptyLines | src/parsers/enhanced_text_normalizer.py:347-359 | the loop returns `Paragraphs` joined by newlines |
| TextNormalizer.NormalizeWhitespaceShape | src/parsers/enhanced_text_normalizer.py:337-345 | no tab, no '\r', no two spaces side by side, and every other character but '\n' kept as often as in the input |
| TextNormalizer.ReplaceControlCharsShape | src/parsers/enhanced_text_normalizer.py:285-287 | with a clean replacement no control character is left; any other character not in the replacement keeps its count |
| TextNormalizer.ReplaceControlCharsClean | src/parsers/enhanced_text_normalizer.py:285-287 | text without control characters goes through unchanged |
| TextNormalizer.CleanForCsvShape | src/parsers/enhanced_text_normalizer.py:361-370 | no line break, no two whitespace characters side by side, no whitespace at the ends, twice as many '"' as the input |
| TextNormalizer.SanitizeFilename | src/parsers/enhanced_text_normalizer.py:393-409 | the method returns `SanitizedFilename` |
| TextNormalizer.ReplacedUpToFree | src/parsers/enhanced_text_normalizer.py:396-398 | after `k` replacements none of the first `k` illegal characters is left |
| TextNormalizer.TrimmedNameShape | src/parsers/enhanced_text_normalizer.py:396-404 | no illegal character, single spaces never side by side, no space or '.' at either end |
| TextNormalizer.SanitizedFilenameShape | src/parsers/enhanced_text_normalizer.py:393-409 | at most 50 characters, none of the twelve illegal ones, no two whitespace characters side by side, no space or '.' first, no whitespace last |

## Left out

- File I/O, logging, directory walking, `datetime.now()` and the output formatting of the extractor (`extract_from_file`, `process_directory`, `_save_extraction_result`, `_format_output`): not logic of the core. Section finding, validation, cross-references and reference resolution are calls into classes outside this model; the section's two offsets and the two views of the filing are inputs.
- `_create_parsing_version`, `_create_preservation_version` and `_convert_html_tables`: chains of regular-expression substitutions and `html.unescape`. The two views are opaque strings.
- Metadata extraction (`_parse_filename_metadata`, `_extract_cik`, `_extract_form_type`, `_extract_filing_date`, `_extract_company_name`, `extract_company_name`): regular expressions over headers and `datetime.strptime`.
- `normalize_text` as a pipeline, `_remove_sec_markers`, `_normalize_unicode` and `_fix_encoding_issues`: multiline regular expressions, NFKD normalisation and a table of garbled literals. The passes it calls that are modelled are listed above.
- `src/parsers/improved_table_patterns.py`: regular-expression tables only. The tests that consult it are sets of strings in `Patterns`.
- Regular-expression tests (`_is_table_header`, `_is_table_line`'s columnar rule, `_contains_financial_data`, `_is_financial_data_line`, `_has_multiple_monetary_values`, `_has_columnar_structure`, `_is_enhanced_table_header`, `_is_section_break`, `_parse_financial_line`, the continuation keyword lists and the normaliser's indicator patterns) are sets of strings or a parse function in `Patterns`, not re-implementations. Properties proved hold for any such sets.
- The enhanced `preserve_tables_in_text` and `_format_table_in_lines`: the `insert` of a title line shifts indices that the following loop keeps using, and '\n' is embedded inside list elements. Only their line re-spacer `_format_table_line` is modelled.
- Float confidences: the integers 80, 90 and 95 stand for 0.8, 0.9 and 0.95; only their order is used.
- `CONTROL_CHAR_REPLACEMENT` comes from a configuration module: `TextNormalizer.ReplaceControlChars` takes it as a parameter.
- TableScan.IdentifyFinancialTables: requires `TABLE_MIN_ROWS >= 1`. With 0, a financial table of no rows ends one line above its anchor, and the loop would not advance. The delimited and aligned loops take any value (`TableScan.Admits`).
- TableParser.FinancialTableAt: requires `TABLE_MIN_ROWS >= 1`, for the zero-row table above; so do `TableParser.FinancialTableShape` and `TableParser.ExtractFinancialTable`.
- TableScan.CandidateAt: requires `TABLE_MIN_ROWS >= 1` for the financial strategy only (`TableScan.Admits`), for the zero-row table above.
- TableScan.IdentifyTables: requires `TABLE_MIN_ROWS >= 1`, as do `TableScan.IdentifyTablesIn`, `TableScan.ScanTables`, `TableScan.IdentifyTablesShape` and `TableScan.IdentifyComplete`, since they run the financial strategy.
- Strings.IsDigit: ASCII digits '0' to '9' only. Python's `\d` on a `str` also matches the other Unicode decimal digits (category Nd), which are not modelled; so does `Strings.HasDigit`, and with it `has_numeric_data`, the monetary digit tests and the all-digit title rejection.
- TableScan.PreserveTablesInText: beyond returning the text for no tables, the copying of lines outside tables is stated through `Splice` and proved as the round trip `TableScan.PreserveRoundTrip`, not as a separate statement about each line.
- TextNormalizer.RenderShape: a preserved table line equals its input only when the input has no trailing whitespace; otherwise it is its input minus that whitespace.
- EnhancedTableParser.ExtractFinancialTable: uses the corrected title search (see Findings); with the search as written, any table with a plain caption above it raises instead of being returned.
- EnhancedTableParser.PipeTableAt: uses the corrected title search (see Findings); with the search as written, a pipe table with a plain caption above it raises `AttributeError` at `_extract_pipe_table`'s title call instead of being returned.
- EnhancedTableParser.PipeTableShape: states the title as the corrected search's (`TitleAbove`); as written, a captioned pipe table raises instead.
- EnhancedTableParser.ExtractPipeTable: calls the corrected `ExtractEnhancedTableTitle`; as written, a captioned pipe table raises instead of being returned.
- EnhancedTableScan.CandidateAt: inherits the corrected title search through both the financial and the pipe extractor; as written, a strategy whose candidate has a plain caption above it raises.
- EnhancedTableScan.IdentifyTablesIn: inherits the corrected title search; as written, `identify_tables` raises whenever any strategy finds a table with a plain caption above it.
- EnhancedTableScan.IdentifyTables: returns `IdentifyTablesIn`, so it inherits the corrected title search; as written, it raises on any table with a plain caption above it.
- Mutation of the caller's list by `tables.sort(...)` inside both `_deduplicate_tables` is not modelled; only the returned list is.

## Findings

| source | as written | input that shows it | evidently intended | confidence | as-written member | corrected member |
|---|---|---|---|---|---|---|
| src/parsers/enhanced_table_parser.py:493 | `_extract_enhanced_table_title` calls `_is_table_content_line(line, None)`, which reads `None.table_type` whenever the line is neither columnar nor monetary, so the search raises `AttributeError` on any plain caption and never returns a title | lines `["Revenue summary", "Net sales    100    200"]`, table starting at line 1 | a missing table read as "not a financial table", and the caption "Revenue summary" returned as the title | not executed | EnhancedTableParser.TitleAsWrittenCounterexample | EnhancedTableParser.TitleAboveNearest |
