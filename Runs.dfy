/**
 * The growth loop that the table extractors share: starting at an anchor,
 * lines are taken one by one; a blank line is kept until too many blank
 * lines come in a row, a non-blank line is kept while the extractor's own
 * test accepts it, and the loop remembers whether a non-blank line it looked
 * at held a digit.
 */
module Runs {
  import opened Strings
  import opened Seqs

  /** Where a growth loop stopped, and whether it saw a digit on a non-blank line it examined. */
  datatype Run = Run(stop: nat, digit: bool)

  /** `lines[lo:hi]`, built one line at a time. */
  function Rows(lines: seq<string>, lo: nat, hi: nat): (r: seq<string>)
    requires lo <= hi <= |lines|
    ensures |r| == hi - lo
    decreases hi - lo
  {
    if lo == hi then [] else Rows(lines, lo, hi - 1) + [lines[hi - 1]]
  }

  lemma {:induction false} RowsSlice(lines: seq<string>, lo: nat, hi: nat)
    requires lo <= hi <= |lines|
    ensures Rows(lines, lo, hi) == lines[lo..hi]
    decreases hi - lo
  {
    if lo < hi {
      RowsSlice(lines, lo, hi - 1);
      assert lines[lo..hi] == lines[lo..hi - 1] + [lines[hi - 1]];
    }
  }

  /** `Rows` splits at any midpoint. */
  lemma {:induction false} RowsAppend(lines: seq<string>, lo: nat, mid: nat, hi: nat)
    requires lo <= mid <= hi <= |lines|
    ensures Rows(lines, lo, mid) + Rows(lines, mid, hi) == Rows(lines, lo, hi)
    decreases hi - mid
  {
    if mid < hi {
      RowsAppend(lines, lo, mid, hi - 1);
      assert Rows(lines, lo, mid) + Rows(lines, mid, hi) == (Rows(lines, lo, mid) + Rows(lines, mid, hi - 1)) + [lines[hi - 1]];
    }
  }

  /** The `n` lines from index `k` on are blank. */
  predicate BlankRun(lines: seq<string>, k: nat, n: nat)
    requires k + n <= |lines|
  {
    forall j :: k <= j < k + n ==> IsBlank(lines[j])
  }

  /** `lines[lo..hi]` holds no `n` blank lines in a row. */
  predicate NoBlankRun(lines: seq<string>, lo: nat, hi: nat, n: nat)
    requires lo <= hi <= |lines|
  {
    forall k: nat :: lo <= k && k + n <= hi ==> !BlankRun(lines, k, n)
  }

  /** A blank line holds no digit. */
  lemma {:induction false} BlankHasNoDigit(s: string)
    requires IsBlank(s)
    ensures !HasDigit(s)
  {
    forall i | 0 <= i < |s| ensures !IsDigit(s[i]) {
      assert IsSpace(s[i]);
    }
  }

  /**
   * The loop from index `cur`, `empty` blank lines into a run: the
   * `limit`-th blank line in a row ends it without being kept, a non-blank
   * line is kept while `keep` accepts it, and the first line it cannot keep
   * ends it. The digit test looks at every non-blank line examined,
   * including the one that ends the loop.
   */
  function Collect(lines: seq<string>, keep: string -> bool, limit: nat, cur: nat, empty: nat, digit: bool): (r: Run)
    requires cur <= |lines|
    ensures cur <= r.stop <= |lines|
    decreases |lines| - cur
  {
    if cur == |lines| then Run(cur, digit)
    else if IsBlank(lines[cur]) then
      if empty + 1 >= limit then Run(cur, digit)
      else Collect(lines, keep, limit, cur + 1, empty + 1, digit)
    else
      var d := digit || HasDigit(lines[cur]);
      if keep(lines[cur]) then Collect(lines, keep, limit, cur + 1, 0, d) else Run(cur, d)
  }

  /** Every line the loop keeps is blank or accepted by `keep`. */
  lemma {:induction false} CollectKeeps(lines: seq<string>, keep: string -> bool, limit: nat, cur: nat, empty: nat, digit: bool)
    requires cur <= |lines|
    ensures var r := Collect(lines, keep, limit, cur, empty, digit);
      forall k :: cur <= k < r.stop ==> IsBlank(lines[k]) || keep(lines[k])
    decreases |lines| - cur
  {
    if cur < |lines| {
      var d := digit || HasDigit(lines[cur]);
      if IsBlank(lines[cur]) {
        CollectKeeps(lines, keep, limit, cur + 1, empty + 1, digit);
      } else {
        CollectKeeps(lines, keep, limit, cur + 1, 0, d);
      }
    }
  }

  /** A kept blank line at `cur` does not complete a run of `n` blank lines. */
  lemma {:induction false} ExtendNoBlankRun(lines: seq<string>, n: nat, s: nat, cur: nat, empty: nat)
    requires 1 <= n && s <= cur < |lines| && TrailingBlanks(lines, s, cur, empty)
    requires NoBlankRun(lines, s, cur, n)
    requires IsBlank(lines[cur]) ==> empty + 1 < n
    ensures NoBlankRun(lines, s, cur + 1, n)
  {
    forall k: nat | s <= k && k + n <= cur + 1 ensures !BlankRun(lines, k, n) {
      if k + n == cur + 1 && BlankRun(lines, k, n) {
        assert false;
      }
    }
  }

  /** The kept lines hold no `limit` blank lines in a row. */
  lemma {:induction false} CollectNoBlankRun(lines: seq<string>, keep: string -> bool, limit: nat, s: nat, cur: nat, empty: nat, digit: bool)
    requires 1 <= limit && s <= cur <= |lines| && empty < limit && TrailingBlanks(lines, s, cur, empty)
    requires NoBlankRun(lines, s, cur, limit)
    ensures NoBlankRun(lines, s, Collect(lines, keep, limit, cur, empty, digit).stop, limit)
    decreases |lines| - cur
  {
    if cur < |lines| {
      var line := lines[cur];
      var d := digit || HasDigit(line);
      if IsBlank(line) {
        if empty + 1 < limit {
          ExtendNoBlankRun(lines, limit, s, cur, empty);
          CollectNoBlankRun(lines, keep, limit, s, cur + 1, empty + 1, digit);
        }
      } else if keep(line) {
        ExtendNoBlankRun(lines, limit, s, cur, empty);
        CollectNoBlankRun(lines, keep, limit, s, cur + 1, 0, d);
      }
    }
  }

  /**
   * The loop stops before the last line only at a line `keep` rejects or at a
   * blank line that follows `limit - 1` blank lines, all of them at or after `s`.
   */
  lemma {:induction false} CollectStops(lines: seq<string>, keep: string -> bool, limit: nat, s: nat, cur: nat, empty: nat, digit: bool)
    requires 1 <= limit && s <= cur <= |lines| && empty < limit && TrailingBlanks(lines, s, cur, empty)
    ensures var r := Collect(lines, keep, limit, cur, empty, digit);
      r.stop < |lines| ==>
        (!IsBlank(lines[r.stop]) && !keep(lines[r.stop])) ||
        (IsBlank(lines[r.stop]) && s + limit - 1 <= r.stop && BlankRun(lines, r.stop - (limit - 1), limit - 1))
    decreases |lines| - cur
  {
    if cur < |lines| {
      var line := lines[cur];
      var d := digit || HasDigit(line);
      if IsBlank(line) {
        if empty + 1 < limit {
          CollectStops(lines, keep, limit, s, cur + 1, empty + 1, digit);
        }
      } else if keep(line) {
        CollectStops(lines, keep, limit, s, cur + 1, 0, d);
      }
    }
  }

  /** The digit flag says whether a line from `cur` up to and including the stopping line holds a digit. */
  lemma {:induction false} CollectDigit(lines: seq<string>, keep: string -> bool, limit: nat, cur: nat, empty: nat, digit: bool)
    requires cur <= |lines|
    ensures var r := Collect(lines, keep, limit, cur, empty, digit);
      r.digit <==> digit || HasDigitIn(lines, cur, Min(r.stop + 1, |lines|))
    decreases |lines| - cur
  {
    if cur < |lines| {
      var line := lines[cur];
      var d := digit || HasDigit(line);
      var r := Collect(lines, keep, limit, cur, empty, digit);
      DigitInStep(lines, cur, Min(r.stop + 1, |lines|));
      if IsBlank(line) {
        BlankHasNoDigit(line);
        if empty + 1 < limit {
          CollectDigit(lines, keep, limit, cur + 1, empty + 1, digit);
        } else {
          assert !HasDigitIn(lines, cur + 1, cur + 1);
        }
      } else if keep(line) {
        CollectDigit(lines, keep, limit, cur + 1, 0, d);
      } else {
        assert !HasDigitIn(lines, cur + 1, cur + 1);
      }
    }
  }
}
