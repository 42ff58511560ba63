/**
 * The string vocabulary of the Python source, stated once: Python's notion of
 * whitespace, `str.strip`/`lstrip`/`rstrip`, `str.split()` (word splitting),
 * `str.split(sep)`, `sep.join(...)`, `str.replace(old, new)`, `str.count(c)`
 * and the regex substitution "replace every maximal run of X by Y" that the
 * source writes as `re.sub(r'\s{2,}', ...)`, `re.sub(r'[ \t]+', ...)` and so on.
 */
module Strings {

  /** Python's `str.isspace()`, which is also what `\s` matches in a `re` pattern on `str`. */
  predicate IsSpace(c: char)
  {
    c == ' ' || ('\t' <= c <= '\r') || ('\U{1C}' <= c <= '\U{1F}') || c == '\U{85}' || c == '\U{A0}' ||
    c == '\U{1680}' || ('\U{2000}' <= c <= '\U{200A}') || c == '\U{2028}' || c == '\U{2029}' ||
    c == '\U{202F}' || c == '\U{205F}' || c == '\U{3000}'
  }

  predicate NotSpace(c: char) { !IsSpace(c) }

  function Min(a: int, b: int): int { if a <= b then a else b }

  function Max(a: int, b: int): int { if a >= b then a else b }

  /** An ASCII decimal digit; Python's `\d` also matches the other Unicode decimal digits, which are not modelled. */
  predicate IsDigit(c: char) { '0' <= c <= '9' }

  /** `not s.strip()`: the line holds whitespace only (or nothing). */
  predicate IsBlank(s: string)
  {
    forall i :: 0 <= i < |s| ==> IsSpace(s[i])
  }

  /** `re.search(r'\d', s)`, for the ASCII digits '0' to '9' only (see `IsDigit`). */
  predicate HasDigit(s: string)
  {
    exists i :: 0 <= i < |s| && IsDigit(s[i])
  }

  /** `s.count(c)` for a one-character argument. */
  function Count(s: string, c: char): nat
  {
    if s == [] then 0 else (if s[0] == c then 1 else 0) + Count(s[1..], c)
  }

  /** `re.search(r'\s{k,}', s)`: some k consecutive whitespace characters. */
  predicate HasSpaceRun(s: string, k: nat)
  {
    exists i :: 0 <= i <= |s| && BlankAt(s, i, k)
  }

  /** The `k` characters of `s` from index `i` on are all whitespace. */
  predicate BlankAt(s: string, i: nat, k: nat)
  {
    i + k <= |s| && IsBlank(s[i..i + k])
  }

  lemma {:induction false} CountAppend(a: string, b: string, c: char)
    ensures Count(a + b, c) == Count(a, c) + Count(b, c)
  {
    if a != [] {
      var ab := a + b;
      assert ab[0] == a[0] && ab[1..] == a[1..] + b;
      CountAppend(a[1..], b, c);
      assert Count(ab, c) == (if a[0] == c then 1 else 0) + Count(a[1..] + b, c);
    } else {
      assert a + b == b;
    }
  }

  lemma {:induction false} CountPositive(s: string, c: char)
    ensures Count(s, c) > 0 <==> c in s
  {
    if s != [] {
      CountPositive(s[1..], c);
      assert c in s <==> s[0] == c || c in s[1..];
    }
  }

  // ---------------------------------------------------------------------------
  // strip, lstrip, rstrip (and strip(' .') through the `drop` parameter)
  // ---------------------------------------------------------------------------

  /** `s.lstrip()`: everything after the leading whitespace. */
  function LStrip(s: string): (r: string)
    ensures |r| <= |s|
    ensures r == [] || NotSpace(r[0])
    decreases |s|
  {
    if s != [] && IsSpace(s[0]) then LStrip(s[1..]) else s
  }

  /** `lstrip` keeps a suffix of `s`, and what it removes is whitespace. */
  lemma {:induction false} LStripDropsSpaces(s: string)
    ensures LStrip(s) == s[|s| - |LStrip(s)|..]
    ensures IsBlank(s[..|s| - |LStrip(s)|])
    decreases |s|
  {
    if s != [] && IsSpace(s[0]) {
      LStripDropsSpaces(s[1..]);
      var k := |s| - |LStrip(s)|;
      assert s[1..][k - 1..] == s[k..];
      assert s[..k] == [s[0]] + s[1..][..k - 1];
    }
  }

  /** `s.rstrip()`: everything before the trailing whitespace. */
  function RStrip(s: string): (r: string)
    ensures |r| <= |s|
    ensures r == [] || NotSpace(r[|r| - 1])
    decreases |s|
  {
    if s != [] && IsSpace(s[|s| - 1]) then RStrip(s[..|s| - 1]) else s
  }

  /** `rstrip` keeps a prefix of `s`, and what it removes is whitespace. */
  lemma {:induction false} RStripDropsSpaces(s: string)
    ensures RStrip(s) == s[..|RStrip(s)|]
    ensures IsBlank(s[|RStrip(s)|..])
    decreases |s|
  {
    if s != [] && IsSpace(s[|s| - 1]) {
      var init := s[..|s| - 1];
      RStripDropsSpaces(init);
      var n := |RStrip(s)|;
      assert init[..n] == s[..n];
      assert s[n..] == init[n..] + [s[|s| - 1]];
    }
  }

  /** `s.strip()`. */
  function Strip(s: string): string
  {
    RStrip(LStrip(s))
  }

  /** `s.lstrip(chars)`. */
  function LStripChars(s: string, chars: string): (r: string)
    ensures |r| <= |s| && r == s[|s| - |r|..]
    ensures r == [] || r[0] !in chars
    decreases |s|
  {
    if s != [] && s[0] in chars then LStripChars(s[1..], chars) else s
  }

  /** `s.rstrip(chars)`. */
  function RStripChars(s: string, chars: string): (r: string)
    ensures |r| <= |s| && r == s[..|r|]
    ensures r == [] || r[|r| - 1] !in chars
    decreases |s|
  {
    if s != [] && s[|s| - 1] in chars then RStripChars(s[..|s| - 1], chars) else s
  }

  /** `s.strip(chars)`: neither end is one of `chars`, and the result is a slice of `s`. */
  function StripChars(s: string, chars: string): (r: string)
    ensures r == [] || (r[0] !in chars && r[|r| - 1] !in chars)
    ensures exists k :: 0 <= k && SliceAt(r, s, k)
  {
    var l := LStripChars(s, chars);
    var r := RStripChars(l, chars);
    assert SliceAt(r, s, |s| - |l|);
    r
  }

  /** `r` occurs in `s` at index `k`. */
  predicate SliceAt(r: string, s: string, k: nat)
  {
    k + |r| <= |s| && s[k..k + |r|] == r
  }

  /** The stripped line is a slice of the line, with no whitespace at either end. */
  lemma {:induction false} StripShape(s: string)
    ensures |s| - |LStrip(s)| + |Strip(s)| <= |s|
    ensures Strip(s) == s[|s| - |LStrip(s)|..|s| - |LStrip(s)| + |Strip(s)|]
    ensures Strip(s) == [] || (NotSpace(Strip(s)[0]) && NotSpace(Strip(s)[|Strip(s)| - 1]))
  {
    var l := LStrip(s);
    var r := RStrip(l);
    var k := |s| - |l|;
    LStripDropsSpaces(s);
    RStripDropsSpaces(l);
    assert l == s[k..];
    assert r == l[..|r|];
    assert r == s[k..k + |r|];
  }

  lemma {:induction false} StripEmptyIffBlank(s: string)
    ensures Strip(s) == [] <==> IsBlank(s)
  {
    var l := LStrip(s);
    LStripDropsSpaces(s);
    RStripDropsSpaces(l);
    if l != [] {
      assert !IsSpace(l[0]) && l[0] == s[|s| - |l|];
      assert l[|RStrip(l)|..] == l || RStrip(l) != [];
    } else {
      assert s[..|s|] == s;
    }
  }

  lemma {:induction false} StripOfStripped(s: string)
    requires s == [] || (NotSpace(s[0]) && NotSpace(s[|s| - 1]))
    ensures Strip(s) == s
  {
  }

  lemma {:induction false} RStripNonBlank(s: string)
    requires !IsBlank(s)
    ensures !IsBlank(RStrip(s))
  {
    RStripDropsSpaces(s);
  }

  lemma {:induction false} StripNonBlank(s: string)
    requires !IsBlank(s)
    ensures !IsBlank(Strip(s))
  {
    StripEmptyIffBlank(s);
    StripShape(s);
    var t := Strip(s);
    assert NotSpace(t[0]);
  }

  // ---------------------------------------------------------------------------
  // runs of characters, words (`str.split()` with no argument)
  // ---------------------------------------------------------------------------

  /** Length of the longest prefix of `s` made of characters that satisfy `inRun`. */
  function RunLen(s: string, inRun: char -> bool): (n: nat)
    ensures n <= |s|
    ensures n < |s| ==> !inRun(s[n])
    decreases |s|
  {
    if s == [] || !inRun(s[0]) then 0 else 1 + RunLen(s[1..], inRun)
  }

  /** The run RunLen measures is made of run characters. */
  lemma {:induction false} RunLenRun(s: string, inRun: char -> bool)
    ensures forall i :: 0 <= i < RunLen(s, inRun) ==> inRun(s[i])
    decreases |s|
  {
    if s != [] && inRun(s[0]) {
      RunLenRun(s[1..], inRun);
      forall i | 0 <= i < RunLen(s, inRun) ensures inRun(s[i]) {
        if i > 0 { assert s[i] == s[1..][i - 1]; }
      }
    }
  }

  lemma {:induction false} RunLenPrefix(a: string, b: string, inRun: char -> bool)
    requires forall i :: 0 <= i < |a| ==> inRun(a[i])
    requires b == [] || !inRun(b[0])
    ensures RunLen(a + b, inRun) == |a|
  {
    if a != [] {
      assert (a + b)[1..] == a[1..] + b;
      RunLenPrefix(a[1..], b, inRun);
    }
  }

  /** Length of the leading run of non-whitespace characters. */
  function WordLen(s: string): (n: nat)
    ensures n <= |s|
    ensures forall i :: 0 <= i < n ==> NotSpace(s[i])
    ensures n < |s| ==> IsSpace(s[n])
    decreases |s|
  {
    if s == [] || IsSpace(s[0]) then 0 else 1 + WordLen(s[1..])
  }

  lemma {:induction false} WordLenPrefix(a: string, b: string)
    requires forall i :: 0 <= i < |a| ==> NotSpace(a[i])
    requires b == [] || IsSpace(b[0])
    ensures WordLen(a + b) == |a|
  {
    if a != [] {
      assert (a + b)[0] == a[0];
      assert (a + b)[1..] == a[1..] + b;
      WordLenPrefix(a[1..], b);
    } else {
      assert a + b == b;
    }
  }

  /** Length of the leading run of whitespace characters. */
  function LeadingSpaces(s: string): (n: nat)
    ensures n <= |s|
    ensures n < |s| ==> NotSpace(s[n])
    decreases |s|
  {
    if s == [] || !IsSpace(s[0]) then 0 else 1 + LeadingSpaces(s[1..])
  }

  /** The leading run is whitespace. */
  lemma {:induction false} LeadingSpacesRun(s: string)
    ensures IsBlank(s[..LeadingSpaces(s)])
    decreases |s|
  {
    if s != [] && IsSpace(s[0]) {
      LeadingSpacesRun(s[1..]);
      var n := LeadingSpaces(s);
      assert s[..n] == [s[0]] + s[1..][..n - 1];
    }
  }

  lemma {:induction false} LeadingSpacesPrefix(a: string, b: string)
    requires IsBlank(a)
    requires b == [] || NotSpace(b[0])
    ensures LeadingSpaces(a + b) == |a|
  {
    if a != [] {
      assert (a + b)[0] == a[0];
      assert (a + b)[1..] == a[1..] + b;
      LeadingSpacesPrefix(a[1..], b);
    } else {
      assert a + b == b;
    }
  }

  predicate IsWord(w: string)
  {
    w != [] && forall i :: 0 <= i < |w| ==> NotSpace(w[i])
  }

  /** `s.split()`: the maximal runs of non-whitespace characters, in order. */
  function Words(s: string): (ws: seq<string>)
    ensures forall k :: 0 <= k < |ws| ==> IsWord(ws[k])
    decreases |s|
  {
    if s == [] then []
    else if IsSpace(s[0]) then Words(s[1..])
    else
      var n := WordLen(s);
      [s[..n]] + Words(s[n..])
  }

  lemma {:induction false} WordsEmptyIffBlank(s: string)
    ensures Words(s) == [] <==> IsBlank(s)
    decreases |s|
  {
    if s != [] {
      if IsSpace(s[0]) {
        WordsEmptyIffBlank(s[1..]);
        assert IsBlank(s) <==> IsBlank(s[1..]) by {
          if IsBlank(s[1..]) {
            forall i | 0 <= i < |s| ensures IsSpace(s[i]) {
              if i > 0 { assert s[i] == s[1..][i - 1]; }
            }
          }
        }
      }
    }
  }

  lemma {:induction false} WordsSkipSpaces(a: string, b: string)
    requires IsBlank(a)
    ensures Words(a + b) == Words(b)
  {
    if a != [] {
      var ab := a + b;
      assert ab[0] == a[0] && IsSpace(a[0]);
      assert ab[1..] == a[1..] + b;
      WordsSkipSpaces(a[1..], b);
    } else {
      assert a + b == b;
    }
  }

  lemma {:induction false} WordsDropTrailingSpaces(a: string, b: string)
    requires IsBlank(b)
    ensures Words(a + b) == Words(a)
    decreases |a|
  {
    var ab := a + b;
    if a == [] {
      assert ab == b;
      WordsEmptyIffBlank(b);
    } else if IsSpace(a[0]) {
      assert ab[0] == a[0] && ab[1..] == a[1..] + b;
      WordsDropTrailingSpaces(a[1..], b);
    } else {
      var n := WordLen(a);
      assert ab[0] == a[0];
      if n < |a| {
        assert ab == a[..n] + (a[n..] + b);
        assert (a[n..] + b)[0] == a[n];
        WordLenPrefix(a[..n], a[n..] + b);
        assert ab[..n] == a[..n] && ab[n..] == a[n..] + b;
        WordsDropTrailingSpaces(a[n..], b);
      } else {
        assert a[..n] == a;
        WordLenPrefix(a, b);
        assert ab[..n] == a && ab[n..] == b;
        WordsEmptyIffBlank(b);
        assert a[n..] == [];
      }
    }
  }

  lemma {:induction false} WordsOfLStrip(s: string)
    ensures Words(LStrip(s)) == Words(s)
  {
    var l := LStrip(s);
    var k := |s| - |l|;
    LStripDropsSpaces(s);
    assert s == s[..k] + l;
    WordsSkipSpaces(s[..k], l);
  }

  lemma {:induction false} WordsOfRStrip(s: string)
    ensures Words(RStrip(s)) == Words(s)
  {
    var r := RStrip(s);
    RStripDropsSpaces(s);
    assert s == r + s[|r|..];
    WordsDropTrailingSpaces(r, s[|r|..]);
  }

  /** `s.strip().split() == s.split()`. */
  lemma {:induction false} WordsOfStrip(s: string)
    ensures Words(Strip(s)) == Words(s)
  {
    WordsOfLStrip(s);
    WordsOfRStrip(LStrip(s));
  }

  /** `sep.join(parts)`. */
  function JoinWith(parts: seq<string>, sep: string): string
  {
    if |parts| == 0 then []
    else if |parts| == 1 then parts[0]
    else parts[0] + sep + JoinWith(parts[1..], sep)
  }

  /** `' '.join(s.split())` */
  function CollapseWords(s: string): string
  {
    JoinWith(Words(s), " ")
  }

  lemma {:induction false} JoinWordsStart(ws: seq<string>)
    requires |ws| > 0 && forall k :: 0 <= k < |ws| ==> IsWord(ws[k])
    ensures JoinWith(ws, " ") != [] && NotSpace(JoinWith(ws, " ")[0])
  {
    assert IsWord(ws[0]);
  }

  /** Splitting a space-joined list of words gives the words back. */
  lemma {:induction false} WordsOfJoin(ws: seq<string>)
    requires forall k :: 0 <= k < |ws| ==> IsWord(ws[k])
    ensures Words(JoinWith(ws, " ")) == ws
    decreases |ws|
  {
    if |ws| == 1 {
      var w := ws[0];
      WordLenPrefix(w, []);
      assert w + [] == w;
      assert w[|w|..] == [];
    } else if |ws| > 1 {
      var w := ws[0];
      var rest := JoinWith(ws[1..], " ");
      var s := w + " " + rest;
      assert s == w + (" " + rest);
      WordLenPrefix(w, " " + rest);
      assert s[..|w|] == w;
      assert s[|w|..] == " " + rest;
      assert IsWord(w);
      assert Words(s) == [w] + Words(" " + rest);
      WordsSkipSpaces(" ", rest);
      WordsOfJoin(ws[1..]);
      assert [w] + ws[1..] == ws;
    }
  }

  /** Single-spaced text: no whitespace at either end, and each gap is exactly one ' '. */
  predicate Collapsed(s: string)
  {
    NoAdjacent(s, IsSpace) &&
    (s == [] || (NotSpace(s[0]) && NotSpace(s[|s| - 1]))) &&
    forall i :: 0 <= i < |s| && IsSpace(s[i]) ==> s[i] == ' '
  }

  lemma {:induction false} JoinWordsCollapsed(ws: seq<string>)
    requires forall k :: 0 <= k < |ws| ==> IsWord(ws[k])
    ensures Collapsed(JoinWith(ws, " "))
    ensures |ws| > 0 ==> JoinWith(ws, " ") != []
    decreases |ws|
  {
    if |ws| == 1 {
      assert IsWord(ws[0]);
    } else if |ws| > 1 {
      var w := ws[0];
      var j := JoinWith(ws[1..], " ");
      JoinWordsCollapsed(ws[1..]);
      assert IsWord(w) && IsWord(ws[1]);
      var s := w + " " + j;
      assert JoinWith(ws, " ") == s;
      forall i | 0 <= i < |s| - 1 ensures !(IsSpace(s[i]) && IsSpace(s[i + 1])) {
        if i < |w| - 1 {
          assert s[i] == w[i];
        } else if i == |w| - 1 {
          assert s[i] == w[i];
        } else if i == |w| {
          assert s[i + 1] == j[0];
        } else {
          assert s[i] == j[i - |w| - 1] && s[i + 1] == j[i - |w|];
        }
      }
      forall i | 0 <= i < |s| ensures IsSpace(s[i]) ==> s[i] == ' ' {
        if i < |w| {
          assert s[i] == w[i];
        } else if i > |w| {
          assert s[i] == j[i - |w| - 1];
        }
      }
      assert s[0] == w[0];
      assert s[|s| - 1] == j[|j| - 1];
    }
  }

  lemma {:induction false} CollapseWordsIdempotent(s: string)
    ensures CollapseWords(CollapseWords(s)) == CollapseWords(s)
  {
    WordsOfJoin(Words(s));
  }

  // ---------------------------------------------------------------------------
  // str.split(sep) and its inverse
  // ---------------------------------------------------------------------------

  /** `s.split(sep)` for a one-character separator: never empty, `''.split(sep) == ['']`. */
  function Split(s: string, sep: char): (r: seq<string>)
    ensures |r| >= 1
    decreases |s|
  {
    if s == [] then [[]]
    else
      var rest := Split(s[1..], sep);
      if s[0] == sep then [[]] + rest else [[s[0]] + rest[0]] + rest[1..]
  }

  lemma {:induction false} SplitJoin(s: string, sep: char)
    ensures JoinWith(Split(s, sep), [sep]) == s
    decreases |s|
  {
    if s != [] {
      var rest := Split(s[1..], sep);
      SplitJoin(s[1..], sep);
      if s[0] == sep {
        assert Split(s, sep) == [[]] + rest;
        assert ([[]] + rest)[1..] == rest;
      } else {
        var r := [[s[0]] + rest[0]] + rest[1..];
        if |rest| == 1 {
          assert JoinWith(r, [sep]) == [s[0]] + rest[0];
        } else {
          assert r[1..] == rest[1..];
          assert JoinWith(rest, [sep]) == rest[0] + [sep] + JoinWith(rest[1..], [sep]);
          assert JoinWith(r, [sep]) == [s[0]] + rest[0] + [sep] + JoinWith(rest[1..], [sep]);
        }
      }
    }
  }

  /** Sum of the lengths of the parts. */
  function SumLens(parts: seq<string>): nat
  {
    if parts == [] then 0 else |parts[0]| + SumLens(parts[1..])
  }

  lemma {:induction false} SumLensSnoc(parts: seq<string>, x: string)
    ensures SumLens(parts + [x]) == SumLens(parts) + |x|
  {
    if parts != [] {
      assert (parts + [x])[1..] == parts[1..] + [x];
      SumLensSnoc(parts[1..], x);
    }
  }

  /** The lines of `s.split(sep)` add up, with one separator between neighbours, to `s`. */
  lemma {:induction false} SplitSpan(s: string, sep: char)
    ensures SumLens(Split(s, sep)) + |Split(s, sep)| - 1 == |s|
    decreases |s|
  {
    if s != [] {
      var rest := Split(s[1..], sep);
      SplitSpan(s[1..], sep);
      if s[0] == sep {
        assert ([[]] + rest)[1..] == rest;
      } else {
        assert ([[s[0]] + rest[0]] + rest[1..])[1..] == rest[1..];
        assert SumLens(rest) == |rest[0]| + SumLens(rest[1..]);
      }
    }
  }

  // ---------------------------------------------------------------------------
  // "replace every maximal run": re.sub(r'X{k,}', rep, s)
  // ---------------------------------------------------------------------------

  /**
   * Every maximal run of characters satisfying `inRun` that is at least
   * `minLen` long is replaced by `rep`; shorter runs stay. This is what a
   * greedy, leftmost `re.sub` with the pattern `[X]{minLen,}` does.
   */
  function Squeeze(s: string, inRun: char -> bool, minLen: nat, rep: string): (r: string)
    ensures s != [] && !inRun(s[0]) ==> r != [] && r[0] == s[0]
    decreases |s|
  {
    if s == [] then []
    else if inRun(s[0]) then
      var n := RunLen(s, inRun);
      (if n >= minLen then rep else s[..n]) + Squeeze(s[n..], inRun, minLen, rep)
    else
      [s[0]] + Squeeze(s[1..], inRun, minLen, rep)
  }

  /** The run RunLen measures holds no character outside the runs. */
  lemma RunLenFree(s: string, inRun: char -> bool, c: char)
    requires !inRun(c)
    ensures c !in s[..RunLen(s, inRun)]
  {
    RunLenRun(s, inRun);
  }

  /**
   * Squeezing brings in no character but those of `s` and `rep`, and keeps
   * every character that is not a run character.
   */
  lemma {:induction false} SqueezeChars(s: string, inRun: char -> bool, minLen: nat, rep: string)
    ensures var r := Squeeze(s, inRun, minLen, rep);
      (forall c :: c in r ==> c in s || c in rep) && (forall c :: c in s && !inRun(c) ==> c in r)
    decreases |s|
  {
    if s != [] {
      if inRun(s[0]) {
        var n := RunLen(s, inRun);
        SqueezeChars(s[n..], inRun, minLen, rep);
        assert s == s[..n] + s[n..];
        forall c | c in s && !inRun(c) ensures c !in s[..n] {
          RunLenFree(s, inRun, c);
        }
      } else {
        SqueezeChars(s[1..], inRun, minLen, rep);
        assert s == [s[0]] + s[1..];
      }
    }
  }

  /** The replacement text is a non-empty run of run characters. */
  predicate IsRunText(rep: string, inRun: char -> bool)
  {
    rep != [] && forall i :: 0 <= i < |rep| ==> inRun(rep[i])
  }

  /** Every maximal run is either shorter than `minLen` or is exactly `rep`: the fixed points of Squeeze. */
  predicate Settled(s: string, inRun: char -> bool, minLen: nat, rep: string)
    decreases |s|
  {
    if s == [] then true
    else if inRun(s[0]) then
      var n := RunLen(s, inRun);
      (n < minLen || s[..n] == rep) && Settled(s[n..], inRun, minLen, rep)
    else Settled(s[1..], inRun, minLen, rep)
  }

  lemma {:induction false} SqueezeSettles(s: string, inRun: char -> bool, minLen: nat, rep: string)
    requires IsRunText(rep, inRun)
    ensures Settled(Squeeze(s, inRun, minLen, rep), inRun, minLen, rep)
    decreases |s|
  {
    if s != [] {
      if inRun(s[0]) {
        var n := RunLen(s, inRun);
        var head := if n >= minLen then rep else s[..n];
        var tail := Squeeze(s[n..], inRun, minLen, rep);
        RunLenRun(s, inRun);
        SqueezeSettles(s[n..], inRun, minLen, rep);
        RunLenPrefix(head, tail, inRun);
        var r := head + tail;
        assert r[..|head|] == head && r[|head|..] == tail;
      } else {
        SqueezeSettles(s[1..], inRun, minLen, rep);
        assert ([s[0]] + Squeeze(s[1..], inRun, minLen, rep))[1..] == Squeeze(s[1..], inRun, minLen, rep);
      }
    }
  }

  lemma {:induction false} SettledIsFixed(s: string, inRun: char -> bool, minLen: nat, rep: string)
    requires Settled(s, inRun, minLen, rep)
    ensures Squeeze(s, inRun, minLen, rep) == s
    decreases |s|
  {
    if s != [] {
      if inRun(s[0]) {
        var n := RunLen(s, inRun);
        SettledIsFixed(s[n..], inRun, minLen, rep);
        assert s[..n] + s[n..] == s;
      } else {
        SettledIsFixed(s[1..], inRun, minLen, rep);
        assert [s[0]] + s[1..] == s;
      }
    }
  }

  lemma {:induction false} SqueezeIdempotent(s: string, inRun: char -> bool, minLen: nat, rep: string)
    requires IsRunText(rep, inRun)
    ensures Squeeze(Squeeze(s, inRun, minLen, rep), inRun, minLen, rep) == Squeeze(s, inRun, minLen, rep)
  {
    SqueezeSettles(s, inRun, minLen, rep);
    SettledIsFixed(Squeeze(s, inRun, minLen, rep), inRun, minLen, rep);
  }

  /** No two neighbouring characters both satisfy `p`. */
  predicate NoAdjacent(s: string, p: char -> bool)
  {
    forall i :: 0 <= i < |s| - 1 ==> !(p(s[i]) && p(s[i + 1]))
  }

  /** With runs of length one replaced too, every run in a settled string is the single character `c`. */
  lemma {:induction false} SettledSingles(s: string, inRun: char -> bool, c: char)
    requires Settled(s, inRun, 1, [c])
    ensures NoAdjacent(s, inRun)
    ensures forall i :: 0 <= i < |s| && inRun(s[i]) ==> s[i] == c
    decreases |s|
  {
    if s != [] {
      var k := if inRun(s[0]) then RunLen(s, inRun) else 1;
      assert k == 1;
      SettledSingles(s[1..], inRun, c);
      forall i | 0 <= i < |s| - 1 ensures !(inRun(s[i]) && inRun(s[i + 1])) {
        if i > 0 { assert s[i] == s[1..][i - 1] && s[i + 1] == s[1..][i]; }
      }
      forall i | 0 <= i < |s| && inRun(s[i]) ensures s[i] == c {
        if i > 0 { assert s[i] == s[1..][i - 1]; }
      }
    }
  }

  lemma {:induction false} SqueezeLast(s: string, inRun: char -> bool, minLen: nat, rep: string)
    requires s != [] && !inRun(s[|s| - 1])
    ensures var r := Squeeze(s, inRun, minLen, rep); r != [] && r[|r| - 1] == s[|s| - 1]
    decreases |s|
  {
    if inRun(s[0]) {
      var n := RunLen(s, inRun);
      RunLenRun(s, inRun);
      SqueezeLast(s[n..], inRun, minLen, rep);
    } else if |s| > 1 {
      SqueezeLast(s[1..], inRun, minLen, rep);
    }
  }

  /** Swapping a prefix free of `c` for another one free of `c` keeps the count of `c`. */
  lemma CountSwapHead(pre: string, head: string, rest: string, restOut: string, c: char)
    requires c !in pre && c !in head && Count(restOut, c) == Count(rest, c)
    ensures Count(head + restOut, c) == Count(pre + rest, c)
  {
    CountAppend(head, restOut, c);
    CountAppend(pre, rest, c);
    CountPositive(pre, c);
    CountPositive(head, c);
  }

  /** Characters outside the runs keep their number of occurrences. */
  lemma {:induction false} SqueezeCount(s: string, inRun: char -> bool, minLen: nat, rep: string, c: char)
    requires !inRun(c) && c !in rep
    ensures Count(Squeeze(s, inRun, minLen, rep), c) == Count(s, c)
    decreases |s|
  {
    if s != [] {
      if inRun(s[0]) {
        var n := RunLen(s, inRun);
        var head := if n >= minLen then rep else s[..n];
        SqueezeCount(s[n..], inRun, minLen, rep, c);
        RunLenFree(s, inRun, c);
        assert s[..n] + s[n..] == s;
        CountSwapHead(s[..n], head, s[n..], Squeeze(s[n..], inRun, minLen, rep), c);
      } else {
        SqueezeCount(s[1..], inRun, minLen, rep, c);
      }
    }
  }

  // ---------------------------------------------------------------------------
  // str.replace(pat, rep)
  // ---------------------------------------------------------------------------

  /** `s.replace(pat, rep)`: leftmost, non-overlapping occurrences, scanned left to right. */
  function ReplaceAll(s: string, pat: string, rep: string): (r: string)
    requires pat != []
    ensures s != [] ==> r != [] || rep == []
    decreases |s|
  {
    if |s| < |pat| then s
    else if s[..|pat|] == pat then rep + ReplaceAll(s[|pat|..], pat, rep)
    else [s[0]] + ReplaceAll(s[1..], pat, rep)
  }

  /** Every character of the result comes from `s` or from `rep`. */
  lemma {:induction false} ReplaceAllChars(s: string, pat: string, rep: string, c: char)
    requires pat != [] && c in ReplaceAll(s, pat, rep)
    ensures c in s || c in rep
    decreases |s|
  {
    if |s| >= |pat| && c !in rep {
      if s[..|pat|] == pat {
        ReplaceAllChars(s[|pat|..], pat, rep, c);
        var i :| 0 <= i < |s[|pat|..]| && s[|pat|..][i] == c;
        assert s[i + |pat|] == c;
      } else if c != s[0] {
        ReplaceAllChars(s[1..], pat, rep, c);
        var i :| 0 <= i < |s[1..]| && s[1..][i] == c;
        assert s[i + 1] == c;
      }
    }
  }

  /** Replacing a single character by text that does not hold it removes it. */
  lemma {:induction false} ReplaceRemoves(s: string, c: char, rep: string)
    requires c !in rep
    ensures c !in ReplaceAll(s, [c], rep)
    decreases |s|
  {
    if |s| >= 1 {
      ReplaceRemoves(s[1..], c, rep);
      if s[..1] != [c] {
        assert s[0] != c;
      }
    }
  }

  lemma {:induction false} ReplaceCountOther(s: string, pat: string, rep: string, c: char)
    requires pat != [] && c !in pat && c !in rep
    ensures Count(ReplaceAll(s, pat, rep), c) == Count(s, c)
    decreases |s|
  {
    if |s| >= |pat| {
      if s[..|pat|] == pat {
        ReplaceCountOther(s[|pat|..], pat, rep, c);
        CountAppend(rep, ReplaceAll(s[|pat|..], pat, rep), c);
        CountPositive(rep, c);
        CountAppend(s[..|pat|], s[|pat|..], c);
        assert s[..|pat|] + s[|pat|..] == s;
        CountPositive(s[..|pat|], c);
      } else {
        ReplaceCountOther(s[1..], pat, rep, c);
      }
    }
  }

  /** Each occurrence of the replaced character becomes the occurrences it has in `rep`. */
  lemma {:induction false} ReplaceCountSelf(s: string, c: char, rep: string)
    ensures Count(ReplaceAll(s, [c], rep), c) == Count(s, c) * Count(rep, c)
    decreases |s|
  {
    if |s| >= 1 {
      var tail := ReplaceAll(s[1..], [c], rep);
      var k, m := Count(s[1..], c), Count(rep, c);
      ReplaceCountSelf(s[1..], c, rep);
      if s[..1] == [c] {
        assert s[0] == c;
        CountAppend(rep, tail, c);
        assert Count(s, c) == 1 + k;
        assert (1 + k) * m == m + k * m;
      } else {
        assert s[0] != c;
        assert ReplaceAll(s, [c], rep) == [s[0]] + tail;
        assert Count(s, c) == k;
      }
    }
  }

  lemma {:induction false} ReplaceFirst(s: string, pat: string, rep: string)
    requires pat != [] && s != [] && rep != []
    ensures var r := ReplaceAll(s, pat, rep); r != [] && (r[0] == s[0] || r[0] == rep[0])
  {
  }

  /** Replacement text free of `p` characters cannot create a neighbouring pair of them. */
  lemma {:induction false} ReplaceKeepsNoAdjacent(s: string, pat: string, rep: string, p: char -> bool)
    requires pat != [] && rep != [] && forall i :: 0 <= i < |rep| ==> !p(rep[i])
    requires NoAdjacent(s, p)
    ensures NoAdjacent(ReplaceAll(s, pat, rep), p)
    decreases |s|
  {
    if |s| >= |pat| {
      if s[..|pat|] == pat {
        var rest := s[|pat|..];
        assert NoAdjacent(rest, p) by {
          forall i | 0 <= i < |rest| - 1 ensures !(p(rest[i]) && p(rest[i + 1])) {
            assert rest[i] == s[i + |pat|] && rest[i + 1] == s[i + 1 + |pat|];
          }
        }
        ReplaceKeepsNoAdjacent(rest, pat, rep, p);
      } else {
        var rest := s[1..];
        assert NoAdjacent(rest, p) by {
          forall i | 0 <= i < |rest| - 1 ensures !(p(rest[i]) && p(rest[i + 1])) {
            assert rest[i] == s[i + 1] && rest[i + 1] == s[i + 2];
          }
        }
        ReplaceKeepsNoAdjacent(rest, pat, rep, p);
        if rest != [] {
          ReplaceFirst(rest, pat, rep);
        }
      }
    }
  }

  lemma {:induction false} SliceKeepsNoAdjacent(s: string, lo: nat, hi: nat, p: char -> bool)
    requires lo <= hi <= |s| && NoAdjacent(s, p)
    ensures NoAdjacent(s[lo..hi], p)
  {
    var t := s[lo..hi];
    forall i | 0 <= i < |t| - 1 ensures !(p(t[i]) && p(t[i + 1])) {
      assert t[i] == s[lo + i] && t[i + 1] == s[lo + i + 1];
    }
  }

  lemma {:induction false} StripCount(s: string, c: char)
    requires NotSpace(c)
    ensures Count(Strip(s), c) == Count(s, c)
  {
    var l := LStrip(s);
    var r := Strip(s);
    var k := |s| - |l|;
    LStripDropsSpaces(s);
    RStripDropsSpaces(l);
    assert s == s[..k] + l;
    assert l == r + l[|r|..];
    CountAppend(s[..k], l, c);
    CountAppend(r, l[|r|..], c);
    forall j | 0 <= j < k ensures s[..k][j] != c {
      assert IsSpace(s[..k][j]);
    }
    forall j | 0 <= j < |l| - |r| ensures l[|r|..][j] != c {
      assert IsSpace(l[|r|..][j]);
    }
    CountPositive(s[..k], c);
    CountPositive(l[|r|..], c);
  }

  /** `rstrip` keeps the number of occurrences of every non-whitespace character. */
  lemma {:induction false} RStripCount(s: string, c: char)
    requires NotSpace(c)
    ensures Count(RStrip(s), c) == Count(s, c)
  {
    var r := RStrip(s);
    RStripDropsSpaces(s);
    assert s == r + s[|r|..];
    CountAppend(r, s[|r|..], c);
    forall j | 0 <= j < |s| - |r| ensures s[|r|..][j] != c {
      assert IsSpace(s[|r|..][j]);
    }
    CountPositive(s[|r|..], c);
  }

  /** A character in neither the text nor the replacement is not in the result. */
  lemma {:induction false} ReplaceAllFree(s: string, pat: string, rep: string, c: char)
    requires pat != [] && c !in s && c !in rep
    ensures c !in ReplaceAll(s, pat, rep)
    decreases |s|
  {
    if |s| >= |pat| {
      if s[..|pat|] == pat {
        assert forall i :: 0 <= i < |s[|pat|..]| ==> s[|pat|..][i] == s[i + |pat|];
        ReplaceAllFree(s[|pat|..], pat, rep, c);
      } else {
        assert forall i :: 0 <= i < |s[1..]| ==> s[1..][i] == s[i + 1];
        ReplaceAllFree(s[1..], pat, rep, c);
      }
    }
  }

  /** A slice holds only characters of the whole. */
  lemma SliceChars(r: string, s: string, k: nat)
    requires SliceAt(r, s, k)
    ensures forall c :: c in r ==> c in s
  {
    forall c | c in r ensures c in s {
      var i :| 0 <= i < |r| && r[i] == c;
      assert s[k + i] == c;
    }
  }

  // ---------------------------------------------------------------------------
  // lists of lines
  // ---------------------------------------------------------------------------

  /** Some line in `lines[lo..hi]` holds a digit. */
  predicate HasDigitIn(lines: seq<string>, lo: nat, hi: nat)
    requires lo <= hi <= |lines|
  {
    exists k :: lo <= k < hi && HasDigit(lines[k])
  }

  /** No three blank lines in a row. */
  predicate NoBlankTriple(rows: seq<string>)
  {
    forall k :: 0 <= k < |rows| - 2 ==> !(IsBlank(rows[k]) && IsBlank(rows[k + 1]) && IsBlank(rows[k + 2]))
  }

  /** `empty` is the number of blank lines that end `lines[s..cur]`. */
  predicate TrailingBlanks(lines: seq<string>, s: nat, cur: nat, empty: nat)
    requires s <= cur <= |lines|
  {
    empty <= cur - s &&
    (forall j :: cur - empty <= j < cur ==> IsBlank(lines[j])) &&
    (cur - empty > s ==> !IsBlank(lines[cur - empty - 1]))
  }

  lemma {:induction false} ExtendNoBlankTriple(lines: seq<string>, s: nat, cur: nat, empty: nat)
    requires s <= cur < |lines| && TrailingBlanks(lines, s, cur, empty)
    requires NoBlankTriple(lines[s..cur])
    requires IsBlank(lines[cur]) ==> empty <= 1
    ensures NoBlankTriple(lines[s..cur + 1])
  {
    var rows := lines[s..cur + 1];
    forall k | 0 <= k < |rows| - 2 ensures !(IsBlank(rows[k]) && IsBlank(rows[k + 1]) && IsBlank(rows[k + 2])) {
      if k + 2 < cur - s {
        assert rows[k] == lines[s..cur][k] && rows[k + 1] == lines[s..cur][k + 1] && rows[k + 2] == lines[s..cur][k + 2];
      } else {
        assert rows[k + 2] == lines[cur] && rows[k + 1] == lines[cur - 1] && rows[k] == lines[cur - 2];
      }
    }
  }

  lemma {:induction false} DigitInStep(lines: seq<string>, cur: nat, hi: nat)
    requires cur < hi <= |lines|
    ensures HasDigitIn(lines, cur, hi) <==> HasDigit(lines[cur]) || HasDigitIn(lines, cur + 1, hi)
  {
    if HasDigitIn(lines, cur, hi) && !HasDigit(lines[cur]) {
      var j :| cur <= j < hi && HasDigit(lines[j]);
      assert cur + 1 <= j;
    }
  }
}
