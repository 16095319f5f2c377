/** Character classes and the handful of Python `str` operations the
    pipeline relies on: `strip`, `replace`, `startswith`, substring tests,
    decimal digit runs and Python's ordering of strings. */
module Text {
  import opened Wrappers

  /** The regular-expression class `\d`, read as the ASCII digits. */
  predicate IsDigit(c: char) {
    '0' <= c <= '9'
  }

  /** The regular-expression class `\w`, read as ASCII letters, digits and `_`. */
  predicate IsWordChar(c: char) {
    'a' <= c <= 'z' || 'A' <= c <= 'Z' || IsDigit(c) || c == '_'
  }

  /** The characters for which Python's `str.isspace` holds; `str.strip()`
      removes them and the regular-expression class `\s` matches them. */
  predicate IsSpace(c: char) {
    || c == ' '
    || '\t' <= c <= '\r'
    || '\U{1c}' <= c <= '\U{1f}'
    || c == '\U{85}' || c == '\U{a0}' || c == '\U{1680}'
    || '\U{2000}' <= c <= '\U{200a}'
    || c == '\U{2028}' || c == '\U{2029}' || c == '\U{202f}' || c == '\U{205f}'
    || c == '\U{3000}'
  }

  /** ASCII lower-casing, the model's reading of the `(?i)` flag. */
  function Lower(c: char): char {
    if 'A' <= c <= 'Z' then (c as int + 32) as char else c
  }

  predicate StartsWith(s: string, p: string) {
    |p| <= |s| && s[..|p|] == p
  }

  /** `p` occurs in `s` starting at index `i`. */
  predicate OccursAt(s: string, p: string, i: nat) {
    i + |p| <= |s| && s[i..i + |p|] == p
  }

  /** Python's `p in s` for strings (and `re.search` of a literal pattern). */
  predicate Contains(s: string, p: string) {
    exists i: nat :: i + |p| <= |s| && OccursAt(s, p, i)
  }

  /** An occurrence in a prefix is an occurrence in the whole string. */
  lemma ContainsPrefix(s: string, q: nat, p: string)
    requires q <= |s| && Contains(s[..q], p)
    ensures Contains(s, p)
  {
    var i: nat :| i + |p| <= q && OccursAt(s[..q], p, i);
    assert s[..q][i..i + |p|] == s[i..i + |p|];
    assert OccursAt(s, p, i);
  }

  /** `p` (lower-case ASCII) occurs at `i` when case is ignored. */
  predicate OccursAtIgnoreCase(s: string, p: string, i: nat) {
    i + |p| <= |s| && forall j :: 0 <= j < |p| ==> Lower(s[i + j]) == p[j]
  }

  predicate ContainsIgnoreCase(s: string, p: string) {
    exists i: nat :: i + |p| <= |s| && OccursAtIgnoreCase(s, p, i)
  }

  /** `str.lstrip()`: the suffix left after dropping leading whitespace. */
  function LStrip(s: string): (r: string)
    ensures |r| <= |s| && r == s[|s| - |r|..]
    ensures forall j :: 0 <= j < |s| - |r| ==> IsSpace(s[j])
    ensures r == [] || !IsSpace(r[0])
  {
    if s != [] && IsSpace(s[0]) then LStrip(s[1..]) else s
  }

  /** `str.rstrip()`: the prefix left after dropping trailing whitespace. */
  function RStrip(s: string): (r: string)
    ensures |r| <= |s| && r == s[..|r|]
    ensures forall j :: |r| <= j < |s| ==> IsSpace(s[j])
    ensures r == [] || !IsSpace(r[|r| - 1])
  {
    if s != [] && IsSpace(s[|s| - 1]) then RStrip(s[..|s| - 1]) else s
  }

  /** `str.strip()` with no argument. */
  function Strip(s: string): (r: string)
    ensures r == [] || (!IsSpace(r[0]) && !IsSpace(r[|r| - 1]))
  {
    RStrip(LStrip(s))
  }

  /** Stripping a string that has no whitespace at either end returns it. */
  lemma StripStripped(s: string)
    requires s == [] || (!IsSpace(s[0]) && !IsSpace(s[|s| - 1]))
    ensures Strip(s) == s
  {
  }

  /** A leading whitespace character is dropped by `lstrip`. */
  lemma LStripSpaceHead(c: char, t: string)
    requires IsSpace(c)
    ensures LStrip([c] + t) == LStrip(t)
  {
    assert ([c] + t)[1..] == t;
  }

  /** A trailing whitespace character is dropped by `rstrip`. */
  lemma RStripSpaceTail(t: string, c: char)
    requires IsSpace(c)
    ensures RStrip(t + [c]) == RStrip(t)
  {
    assert (t + [c])[..|t|] == t;
  }

  /** Python's `s.replace(pat, rep)`: every non-overlapping occurrence of
      `pat`, scanning from the left, is replaced by `rep`. */
  function Replace(s: string, pat: string, rep: string): string
    requires pat != []
    decreases |s|
  {
    if |s| < |pat| then s
    else if s[..|pat|] == pat then rep + Replace(s[|pat|..], pat, rep)
    else [s[0]] + Replace(s[1..], pat, rep)
  }

  /** A character absent from the subject and from the replacement is
      absent from the result. */
  lemma {:induction false} ReplaceKeepsAbsent(s: string, pat: string, rep: string, c: char)
    requires pat != [] && c !in s && c !in rep
    ensures c !in Replace(s, pat, rep)
    decreases |s|
  {
    if |s| < |pat| {
    } else if s[..|pat|] == pat {
      ReplaceKeepsAbsent(s[|pat|..], pat, rep, c);
    } else {
      ReplaceKeepsAbsent(s[1..], pat, rep, c);
    }
  }

  /** Replacing a one-character pattern by nothing removes that character. */
  lemma {:induction false} ReplaceRemovesChar(s: string, c: char)
    ensures c !in Replace(s, [c], [])
    decreases |s|
  {
    if |s| >= 1 {
      ReplaceRemovesChar(s[1..], c);
      if s[..1] != [c] {
        assert s[0] != c;
      }
    }
  }

  /** When the pattern's first character does not occur, nothing is replaced. */
  lemma {:induction false} ReplaceAbsent(s: string, pat: string, rep: string)
    requires pat != [] && pat[0] !in s
    ensures Replace(s, pat, rep) == s
    decreases |s|
  {
    if |s| >= |pat| {
      assert s[..|pat|][0] == s[0];
      ReplaceAbsent(s[1..], pat, rep);
      assert [s[0]] + s[1..] == s;
    }
  }

  /** A prefix free of the pattern's first character passes through unchanged. */
  lemma {:induction false} ReplaceAbsentPrefix(u: string, t: string, pat: string, rep: string)
    requires pat != [] && pat[0] !in u
    ensures Replace(u + t, pat, rep) == u + Replace(t, pat, rep)
    decreases |u|
  {
    if u != [] {
      var s := u + t;
      assert s[0] == u[0];
      if |s| >= |pat| {
        assert s[..|pat|][0] == u[0];
        assert s[1..] == u[1..] + t;
        ReplaceAbsentPrefix(u[1..], t, pat, rep);
        assert [u[0]] + u[1..] == u;
      } else {
        assert Replace(s, pat, rep) == s;
        assert |t| < |pat|;
        assert u + Replace(t, pat, rep) == s;
      }
    } else {
      assert u + t == t;
    }
  }

  /** A leading occurrence of the pattern becomes the replacement. */
  lemma ReplaceLeading(pat: string, t: string, rep: string)
    requires pat != []
    ensures Replace(pat + t, pat, rep) == rep + Replace(t, pat, rep)
  {
    assert (pat + t)[..|pat|] == pat;
    assert (pat + t)[|pat|..] == t;
  }

  /** Length of the maximal run of characters of class `cls` in `s` that
      starts at `i`: what a greedy `cls+` or `cls*` consumes there. */
  function Run(s: string, i: nat, cls: char -> bool): (n: nat)
    requires i <= |s|
    ensures i + n <= |s|
    ensures forall j :: i <= j < i + n ==> cls(s[j])
    ensures i + n == |s| || !cls(s[i + n])
    decreases |s| - i
  {
    if i < |s| && cls(s[i]) then 1 + Run(s, i + 1, cls) else 0
  }

  /** The maximal run of `\d` at `i`. */
  function DigitRun(s: string, i: nat): (n: nat)
    requires i <= |s|
    ensures i + n <= |s|
    ensures i + n == |s| || !IsDigit(s[i + n])
    decreases |s| - i
  {
    if i < |s| && IsDigit(s[i]) then 1 + DigitRun(s, i + 1) else 0
  }

  /** Index of the first line break, or `|s|` when there is none: where a
      regular-expression `.` stops. */
  function LineEnd(s: string): (e: nat)
    ensures e <= |s|
    ensures forall j :: 0 <= j < e ==> s[j] != '\n'
    ensures e < |s| ==> s[e] == '\n'
  {
    Run(s, 0, c => c != '\n')
  }

  /** Where `parts` maximal digit runs joined by single dots, starting at
      `i`, end: the regular expression `\d+(\.\d+){parts-1}` matched
      greedily (each run must be maximal, since a dot can never stand
      where a digit was left behind). */
  function DottedRunsEnd(s: string, i: nat, parts: nat): (r: Option<nat>)
    requires i <= |s| && parts >= 1
    ensures r.Some? ==> i < r.value <= |s|
    ensures r.Some? ==> IsDigit(s[i])
    ensures r.Some? ==> r.value == |s| || !IsDigit(s[r.value])
    decreases parts
  {
    var d := DigitRun(s, i);
    if d == 0 then None
    else if parts == 1 then Some(i + d)
    else if i + d < |s| && s[i + d] == '.' then
      DottedRunsEnd(s, i + d + 1, parts - 1)
    else None
  }

  /** An IPv4-looking address: four digit runs joined by dots, and nothing else. */
  predicate IsDottedQuad(ip: string) {
    DottedRunsEnd(ip, 0, 4) == Some(|ip|)
  }

  /** Every character of a digit run is a digit. */
  lemma {:induction false} DigitRunDigits(s: string, i: nat)
    requires i <= |s|
    ensures forall j :: i <= j < i + DigitRun(s, i) ==> IsDigit(s[j])
    decreases |s| - i
  {
    if i < |s| && IsDigit(s[i]) {
      DigitRunDigits(s, i + 1);
    }
  }

  /** A digit run that ends inside a slice is the same run in the slice. */
  lemma {:induction false} DigitRunSlice(s: string, a: nat, b: nat, i: nat)
    requires a <= i <= b <= |s| && i + DigitRun(s, i) <= b
    ensures DigitRun(s[a..b], i - a) == DigitRun(s, i)
    decreases |s| - i
  {
    if i < |s| && IsDigit(s[i]) {
      assert s[a..b][i - a] == s[i];
      DigitRunSlice(s, a, b, i + 1);
    } else if i < b {
      assert s[a..b][i - a] == s[i];
    }
  }

  /** One step of `DottedRunsEnd`: a run followed by a dot hands over to
      the remaining parts. */
  lemma DottedRunsUnfold(s: string, i: nat, parts: nat)
    requires i <= |s| && parts > 1 && DigitRun(s, i) > 0
    requires i + DigitRun(s, i) < |s| && s[i + DigitRun(s, i)] == '.'
    ensures DottedRunsEnd(s, i, parts) == DottedRunsEnd(s, i + DigitRun(s, i) + 1, parts - 1)
  {
  }

  /** The single-run case of `DottedRunsSlice`. */
  lemma DottedRunSliceOne(s: string, a: nat, e: nat, i: nat)
    requires a <= i <= |s| && DottedRunsEnd(s, i, 1) == Some(e)
    ensures DottedRunsEnd(s[a..e], i - a, 1) == Some(e - a)
  {
    DigitRunSlice(s, a, e, i);
  }

  /** The step case of `DottedRunsSlice`, given the result for the rest. */
  lemma DottedRunsSliceStep(s: string, a: nat, e: nat, i: nat, parts: nat)
    requires a <= i <= |s| && parts > 1 && DottedRunsEnd(s, i, parts) == Some(e)
    requires i + DigitRun(s, i) + 1 <= |s|
    requires DottedRunsEnd(s[a..e], i + DigitRun(s, i) + 1 - a, parts - 1) == Some(e - a)
    ensures DottedRunsEnd(s[a..e], i - a, parts) == Some(e - a)
  {
    var d := DigitRun(s, i);
    var t := s[a..e];
    assert DottedRunsEnd(s, i + d + 1, parts - 1) == Some(e);
    DigitRunSlice(s, a, e, i);
    assert t[i - a + d] == s[i + d];
    DottedRunsUnfold(t, i - a, parts);
  }

  /** Dotted runs matched in `s` are matched the same way in the slice
      that ends where they end. */
  lemma {:induction false} DottedRunsSlice(s: string, a: nat, e: nat, i: nat, parts: nat)
    requires a <= i <= |s| && parts >= 1 && DottedRunsEnd(s, i, parts) == Some(e)
    ensures DottedRunsEnd(s[a..e], i - a, parts) == Some(e - a)
    decreases parts
  {
    if parts == 1 {
      DottedRunSliceOne(s, a, e, i);
    } else {
      var k := i + DigitRun(s, i) + 1;
      assert DottedRunsEnd(s, k, parts - 1) == Some(e);
      DottedRunsSlice(s, a, e, k, parts - 1);
      DottedRunsSliceStep(s, a, e, i, parts);
    }
  }

  /** What the regular expression `\d+\.\d+\.\d+\.\d+` captures is a dotted quad. */
  lemma DottedQuadCapture(s: string, a: nat, e: nat)
    requires a <= |s| && DottedRunsEnd(s, a, 4) == Some(e)
    ensures IsDottedQuad(s[a..e])
  {
    DottedRunsSlice(s, a, e, a, 4);
  }

  /** The largest index below `n` at which `ok` holds, if any: where a
      greedy `.*` followed by the rest of a pattern ends up, since it gives
      back one character at a time until the rest matches. */
  function LastWhere(n: nat, ok: nat -> bool): (r: Option<nat>)
    ensures r.Some? ==> r.value < n && ok(r.value)
    ensures r.Some? ==> forall q: nat :: r.value < q < n ==> !ok(q)
    ensures r.None? ==> forall q: nat :: q < n ==> !ok(q)
  {
    if n == 0 then None
    else if ok(n - 1) then Some(n - 1)
    else LastWhere(n - 1, ok)
  }

  /** The smallest index below `n` at which `ok` holds, if any: where
      `re.search` finds the leftmost match. */
  function FirstWhere(from: nat, n: nat, ok: nat -> bool): (r: Option<nat>)
    requires from <= n
    ensures r.Some? ==> from <= r.value < n && ok(r.value)
    ensures r.Some? ==> forall q: nat :: from <= q < r.value ==> !ok(q)
    ensures r.None? ==> forall q: nat :: from <= q < n ==> !ok(q)
    decreases n - from
  {
    if from == n then None
    else if ok(from) then Some(from)
    else FirstWhere(from + 1, n, ok)
  }

  /** Value of a string of decimal digits, as Python's `int(...)` reads it. */
  function DecimalValue(d: string): nat
    requires forall j :: 0 <= j < |d| ==> IsDigit(d[j])
  {
    if d == [] then 0
    else
      var last := d[|d| - 1];
      assert IsDigit(last);
      10 * DecimalValue(d[..|d| - 1]) + (last as int - '0' as int)
  }

  /** The decimal text of a natural number, as Python's `str(n)` writes it. */
  function NatText(n: nat): (r: string)
    ensures r != [] && forall j :: 0 <= j < |r| ==> IsDigit(r[j])
  {
    (if n < 10 then [] else NatText(n / 10)) + [('0' as int + n % 10) as char]
  }

  /** The decimal text of an integer, with a leading '-' when negative. */
  function IntText(i: int): string {
    if i < 0 then "-" + NatText(-i) else NatText(i)
  }

  /** Python's `a < b` on strings: lexicographic by code point, a proper
      prefix coming first. */
  predicate Less(a: string, b: string) {
    if a == [] then b != []
    else if b == [] then false
    else if a[0] != b[0] then a[0] < b[0]
    else Less(a[1..], b[1..])
  }

  lemma {:induction false} LessIrreflexive(a: string)
    ensures !Less(a, a)
  {
    if a != [] {
      LessIrreflexive(a[1..]);
    }
  }

  lemma {:induction false} LessTransitive(a: string, b: string, c: string)
    requires Less(a, b) && Less(b, c)
    ensures Less(a, c)
  {
    if a != [] && b != [] && c != [] && a[0] == b[0] && b[0] == c[0] {
      LessTransitive(a[1..], b[1..], c[1..]);
    }
  }

  lemma {:induction false} LessTotal(a: string, b: string)
    requires a != b
    ensures Less(a, b) || Less(b, a)
  {
    if a != [] && b != [] && a[0] == b[0] {
      assert a == [a[0]] + a[1..] && b == [b[0]] + b[1..];
      LessTotal(a[1..], b[1..]);
    }
  }

  lemma {:induction false} LessAsymmetric(a: string, b: string)
    requires Less(a, b)
    ensures !Less(b, a)
  {
    if Less(b, a) {
      LessTransitive(a, b, a);
      LessIrreflexive(a);
    }
  }
}
