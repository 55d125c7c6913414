/** How the scanner applies its regular-expression catalogs.

    The regular expressions themselves are not modelled: a catalog is known only
    through what its patterns report about a text, which every operation takes
    as a parameter. Matching is stateless here (a test depends only on the
    pattern and the text); `GlobalHits` below shows what the `g` flag's
    carried-over `lastIndex` does instead. */
module Patterns {
  import opened Wrappers

  /** `test(k, text)`: pattern number `k` of a catalog matches somewhere in `text`. */
  type TextTest = (nat, string) -> bool

  /** `count(k, text)`: the length of `text.match(pattern k)` (0 where it returns null). */
  type TextCount = (nat, string) -> nat

  /** The flags `[test(0, text), ..., test(n - 1, text)]`, one per pattern of a catalog. */
  function Flags(n: nat, text: string, test: TextTest): seq<bool>
  {
    seq(n, k requires 0 <= k < n => test(k, text))
  }

  // ---------------------------------------------------------------------------
  // Per-line scans: every pattern of a catalog against every line

  /** Pattern `pattern` matched the line at (0-based) index `lineIndex`. */
  datatype Hit = Hit(pattern: nat, lineIndex: nat)

  /** The catalog order the scans report in: by pattern, then by line. */
  predicate Before(a: Hit, b: Hit) {
    a.pattern < b.pattern || (a.pattern == b.pattern && a.lineIndex < b.lineIndex)
  }

  predicate Ordered(hits: seq<Hit>) {
    forall i, j :: 0 <= i < j < |hits| ==> Before(hits[i], hits[j])
  }

  /** The hits of pattern `k` on `lines[..j]`, in line order. */
  function PatternHits(k: nat, lines: seq<string>, test: TextTest, j: nat): (hits: seq<Hit>)
    requires j <= |lines|
    ensures |hits| <= j
    ensures forall h :: h in hits ==> h.pattern == k && h.lineIndex < j
  {
    if j == 0 then []
    else PatternHits(k, lines, test, j - 1) + (if test(k, lines[j - 1]) then [Hit(k, j - 1)] else [])
  }

  /** The hits of patterns `0 .. n - 1` on all lines: pattern by pattern, each in line order. */
  function Hits(n: nat, lines: seq<string>, test: TextTest): (hits: seq<Hit>)
    ensures forall h :: h in hits ==> h.pattern < n && h.lineIndex < |lines|
  {
    if n == 0 then []
    else Hits(n - 1, lines, test) + PatternHits(n - 1, lines, test, |lines|)
  }

  /** The hits of one pattern come in line order. */
  lemma {:induction false} PatternHitsOrdered(k: nat, lines: seq<string>, test: TextTest, j: nat)
    requires j <= |lines|
    ensures Ordered(PatternHits(k, lines, test, j))
  {
    if j > 0 {
      PatternHitsOrdered(k, lines, test, j - 1);
    }
  }

  /** The hits of a scan come pattern by pattern, each pattern's in line order. */
  lemma {:induction false} HitsOrdered(n: nat, lines: seq<string>, test: TextTest)
    ensures Ordered(Hits(n, lines, test))
  {
    if n > 0 {
      var earlier, last := Hits(n - 1, lines, test), PatternHits(n - 1, lines, test, |lines|);
      HitsOrdered(n - 1, lines, test);
      PatternHitsOrdered(n - 1, lines, test, |lines|);
      forall i, j | 0 <= i < j < |earlier + last|
        ensures Before((earlier + last)[i], (earlier + last)[j])
      {
        if j < |earlier| {
          assert Before(earlier[i], earlier[j]);
        } else if |earlier| <= i {
          assert Before(last[i - |earlier|], last[j - |earlier|]);
        } else {
          assert (earlier + last)[i] in earlier;
          assert (earlier + last)[j] in last;
        }
      }
    }
  }

  /** Pattern `k` hits line `j` exactly when it matches that line, for `j < m`. */
  lemma {:induction false} PatternHitsMembership(k: nat, lines: seq<string>, test: TextTest, m: nat, j: nat)
    requires m <= |lines|
    ensures Hit(k, j) in PatternHits(k, lines, test, m) <==> j < m && test(k, lines[j])
  {
    if m > 0 {
      PatternHitsMembership(k, lines, test, m - 1, j);
    }
  }

  /** A scan reports pattern `k` on line `j` exactly when `k` is in the catalog,
      `j` is a line, and the pattern matches that line: nothing is missed and
      nothing is invented. */
  lemma {:induction false} HitsMembership(n: nat, lines: seq<string>, test: TextTest, k: nat, j: nat)
    ensures Hit(k, j) in Hits(n, lines, test) <==> k < n && j < |lines| && test(k, lines[j])
  {
    if k < n {
      HitsOfOnePattern(n, lines, test, k, j);
      PatternHitsMembership(k, lines, test, |lines|, j);
    }
  }

  /** The hits of patterns `m .. n - 1`, pattern by pattern. */
  function HitsFrom(m: nat, n: nat, lines: seq<string>, test: TextTest): (hits: seq<Hit>)
    requires m <= n
    ensures forall h :: h in hits ==> m <= h.pattern < n
    decreases n
  {
    if n == m then [] else HitsFrom(m, n - 1, lines, test) + PatternHits(n - 1, lines, test, |lines|)
  }

  /** A scan of `n` patterns is the scan of the first `m` followed by the rest. */
  lemma {:induction false} HitsSplitAt(m: nat, n: nat, lines: seq<string>, test: TextTest)
    requires m <= n
    ensures Hits(n, lines, test) == Hits(m, lines, test) + HitsFrom(m, n, lines, test)
    decreases n
  {
    if n > m {
      HitsSplitAt(m, n - 1, lines, test);
    }
  }

  /** Within a scan, the hits of pattern `k` are those of its own pass over the lines. */
  lemma {:induction false} HitsOfOnePattern(n: nat, lines: seq<string>, test: TextTest, k: nat, j: nat)
    requires k < n
    ensures Hit(k, j) in Hits(n, lines, test) <==> Hit(k, j) in PatternHits(k, lines, test, |lines|)
  {
    HitsSplitAt(k + 1, n, lines, test);
    assert Hits(k + 1, lines, test) == Hits(k, lines, test) + PatternHits(k, lines, test, |lines|);
    assert Hit(k, j) !in Hits(k, lines, test);
    assert Hit(k, j) !in HitsFrom(k + 1, n, lines, test);
  }

  /** Each pattern reports a line at most once. */
  lemma {:induction false} HitsBound(n: nat, lines: seq<string>, test: TextTest)
    ensures |Hits(n, lines, test)| <= n * |lines|
  {
    if n > 0 {
      HitsBound(n - 1, lines, test);
      assert |PatternHits(n - 1, lines, test, |lines|)| <= |lines|;
      assert (n - 1) * |lines| + |lines| == n * |lines|;
    }
  }



  /** The nested `forEach` of the scanners: for each pattern, for each line,
      record a hit when the pattern matches the line. */
  method ScanLines(n: nat, lines: seq<string>, test: TextTest) returns (hits: seq<Hit>)
    ensures hits == Hits(n, lines, test)
  {
    hits := [];
    var k := 0;
    while k < n
      invariant k <= n
      invariant hits == Hits(k, lines, test)
    {
      var j := 0;
      while j < |lines|
        invariant j <= |lines|
        invariant hits == Hits(k, lines, test) + PatternHits(k, lines, test, j)
      {
        if test(k, lines[j]) {
          hits := hits + [Hit(k, j)];
        }
        j := j + 1;
      }
      k := k + 1;
    }
  }

  // ---------------------------------------------------------------------------
  // Fixed checklists: a label per pattern, reported when its pattern matched

  /** The labels whose flag is set, in catalog order (the `if (...) push(...)` chains). */
  function Selected<T>(labels: seq<T>, flags: seq<bool>): (r: seq<T>)
    requires |flags| == |labels|
    ensures |r| <= |labels|
  {
    if labels == [] then []
    else
      var n := |labels| - 1;
      Selected(labels[..n], flags[..n]) + (if flags[n] then [labels[n]] else [])
  }

  /** The selection holds exactly the labels at the set positions, in order. */
  lemma {:induction false} SelectedAtIndices<T>(labels: seq<T>, flags: seq<bool>)
    requires |flags| == |labels|
    ensures var r, idx := Selected(labels, flags), SelectedIndices(flags);
            |r| == |idx| && forall m :: 0 <= m < |r| ==> r[m] == labels[idx[m]]
  {
    if labels != [] {
      var n := |labels| - 1;
      SelectedAtIndices(labels[..n], flags[..n]);
    }
  }

  /** The positions of the set flags, increasing. */
  function SelectedIndices(flags: seq<bool>): (idx: seq<nat>)
    ensures |idx| <= |flags|
    ensures forall m :: 0 <= m < |idx| ==> idx[m] < |flags| && flags[idx[m]]
    ensures forall m, m' :: 0 <= m < m' < |idx| ==> idx[m] < idx[m']
  {
    if flags == [] then []
    else
      var n := |flags| - 1;
      SelectedIndices(flags[..n]) + (if flags[n] then [n] else [])
  }

  /** The flags `[count(0, text) > 0, ...]`: which patterns of a catalog `match` at all. */
  function Matched(n: nat, text: string, count: TextCount): seq<bool>
  {
    seq(n, k requires 0 <= k < n => count(k, text) > 0)
  }

  /** With no flag set nothing is selected. */
  lemma {:induction false} SelectedNone<T>(labels: seq<T>, flags: seq<bool>)
    requires |flags| == |labels|
    requires forall k :: 0 <= k < |flags| ==> !flags[k]
    ensures Selected(labels, flags) == []
  {
    if labels != [] {
      var n := |labels| - 1;
      SelectedNone(labels[..n], flags[..n]);
    }
  }

  /** Two catalogs of the same size, selected by the same flags, give lists of the same size. */
  lemma {:induction false} SelectedSameLength<T, U>(a: seq<T>, b: seq<U>, flags: seq<bool>)
    requires |a| == |b| == |flags|
    ensures |Selected(a, flags)| == |Selected(b, flags)|
  {
    if a != [] {
      var n := |a| - 1;
      SelectedSameLength(a[..n], b[..n], flags[..n]);
    }
  }

  /** Selecting over one more entry appends that entry's label when its flag is set. */
  lemma {:induction false} SelectedStep<T>(labels: seq<T>, flags: seq<bool>, i: nat)
    requires |flags| == |labels| && i < |labels|
    ensures Selected(labels[..i + 1], flags[..i + 1]) ==
            Selected(labels[..i], flags[..i]) + (if flags[i] then [labels[i]] else [])
    ensures i == 0 ==> Selected(labels[..i], flags[..i]) == []
    ensures i + 1 == |labels| ==> Selected(labels[..i + 1], flags[..i + 1]) == Selected(labels, flags)
  {
    assert labels[..i + 1][..i] == labels[..i];
    assert flags[..i + 1][..i] == flags[..i];
    assert labels[..|labels|] == labels && flags[..|flags|] == flags;
  }

  /** Selecting over one more amount adds that amount to the total when its flag is set. */
  lemma {:induction false} SelectedSumStep(amounts: seq<int>, flags: seq<bool>, i: nat)
    requires |flags| == |amounts| && i < |amounts|
    ensures Sum(Selected(amounts[..i + 1], flags[..i + 1])) ==
            Sum(Selected(amounts[..i], flags[..i])) + (if flags[i] then amounts[i] else 0)
    ensures i == 0 ==> Sum(Selected(amounts[..i], flags[..i])) == 0
    ensures i + 1 == |amounts| ==> Selected(amounts[..i + 1], flags[..i + 1]) == Selected(amounts, flags)
  {
    SelectedStep(amounts, flags, i);
    var last := if flags[i] then [amounts[i]] else [];
    SumAppend(Selected(amounts[..i], flags[..i]), last);
    assert Sum(last) == (if flags[i] then amounts[i] else 0) by {
      if flags[i] {
        assert last[..0] == [];
      }
    }
  }

  /** Every set flag is among the selected positions. */
  lemma {:induction false} SelectedIndicesComplete(flags: seq<bool>, k: nat)
    requires k < |flags| && flags[k]
    ensures k in SelectedIndices(flags)
  {
    var n := |flags| - 1;
    if k < n {
      SelectedIndicesComplete(flags[..n], k);
    }
  }

  /** A label is reported exactly when its own pattern matched (labels being distinct). */
  lemma {:induction false} SelectedMembership<T>(labels: seq<T>, flags: seq<bool>, k: nat)
    requires |flags| == |labels| && k < |labels|
    requires forall i, j :: 0 <= i < j < |labels| ==> labels[i] != labels[j]
    ensures labels[k] in Selected(labels, flags) <==> flags[k]
  {
    var r, idx := Selected(labels, flags), SelectedIndices(flags);
    SelectedAtIndices(labels, flags);
    if flags[k] {
      SelectedIndicesComplete(flags, k);
      var m :| 0 <= m < |idx| && idx[m] == k;
      assert r[m] == labels[k];
    }
    if labels[k] in r {
      var m :| 0 <= m < |r| && r[m] == labels[k];
      assert labels[idx[m]] == labels[k];
      assert idx[m] == k;
    }
  }

  /** Distinct labels are reported without repetition. */
  lemma {:induction false} SelectedDistinct<T>(labels: seq<T>, flags: seq<bool>)
    requires |flags| == |labels|
    requires forall i, j :: 0 <= i < j < |labels| ==> labels[i] != labels[j]
    ensures var r := Selected(labels, flags);
            forall i, j :: 0 <= i < j < |r| ==> r[i] != r[j]
  {
    var r, idx := Selected(labels, flags), SelectedIndices(flags);
    SelectedAtIndices(labels, flags);
    forall i, j | 0 <= i < j < |r|
      ensures r[i] != r[j]
    {
      assert idx[i] < idx[j];
    }
  }

  /** A selection over four entries, written out one entry at a time. */
  lemma {:induction false} SelectedOfFour<T>(labels: seq<T>, flags: seq<bool>)
    requires |flags| == |labels| == 4
    ensures Selected(labels, flags) ==
            [] + (if flags[0] then [labels[0]] else [])
               + (if flags[1] then [labels[1]] else [])
               + (if flags[2] then [labels[2]] else [])
               + (if flags[3] then [labels[3]] else [])
  {
    SelectedStep(labels, flags, 0);
    var s1 := Selected(labels[..1], flags[..1]);
    assert s1 == [] + (if flags[0] then [labels[0]] else []);
    SelectedStep(labels, flags, 1);
    var s2 := Selected(labels[..2], flags[..2]);
    assert s2 == s1 + (if flags[1] then [labels[1]] else []);
    SelectedStep(labels, flags, 2);
    var s3 := Selected(labels[..3], flags[..3]);
    assert s3 == s2 + (if flags[2] then [labels[2]] else []);
    SelectedStep(labels, flags, 3);
  }

  /** The selection over six labels, written out one label at a time. */
  lemma {:induction false} SelectedOfSix<T>(labels: seq<T>, flags: seq<bool>)
    requires |flags| == |labels| == 6
    ensures Selected(labels, flags) ==
            [] + (if flags[0] then [labels[0]] else [])
               + (if flags[1] then [labels[1]] else [])
               + (if flags[2] then [labels[2]] else [])
               + (if flags[3] then [labels[3]] else [])
               + (if flags[4] then [labels[4]] else [])
               + (if flags[5] then [labels[5]] else [])
  {
    SelectedStep(labels, flags, 0);
    var s1 := Selected(labels[..1], flags[..1]);
    assert s1 == [] + (if flags[0] then [labels[0]] else []);
    SelectedStep(labels, flags, 1);
    var s2 := Selected(labels[..2], flags[..2]);
    assert s2 == s1 + (if flags[1] then [labels[1]] else []);
    SelectedStep(labels, flags, 2);
    var s3 := Selected(labels[..3], flags[..3]);
    assert s3 == s2 + (if flags[2] then [labels[2]] else []);
    SelectedStep(labels, flags, 3);
    var s4 := Selected(labels[..4], flags[..4]);
    assert s4 == s3 + (if flags[3] then [labels[3]] else []);
    SelectedStep(labels, flags, 4);
    var s5 := Selected(labels[..5], flags[..5]);
    assert s5 == s4 + (if flags[4] then [labels[4]] else []);
    SelectedStep(labels, flags, 5);
  }

  /** The total of a selection over four amounts, written out one amount at a time. */
  lemma {:induction false} SelectedSumOfFour(amounts: seq<int>, flags: seq<bool>)
    requires |flags| == |amounts| == 4
    ensures Sum(Selected(amounts, flags)) ==
            (if flags[0] then amounts[0] else 0) + (if flags[1] then amounts[1] else 0) +
            (if flags[2] then amounts[2] else 0) + (if flags[3] then amounts[3] else 0)
  {
    SelectedTotalIsSum(amounts, flags, 4);
    assert amounts[..4] == amounts && flags[..4] == flags;
    assert SelectedTotal(amounts, flags, 1) == (if flags[0] then amounts[0] else 0);
    assert SelectedTotal(amounts, flags, 2) == SelectedTotal(amounts, flags, 1) + (if flags[1] then amounts[1] else 0);
    assert SelectedTotal(amounts, flags, 3) == SelectedTotal(amounts, flags, 2) + (if flags[2] then amounts[2] else 0);
    assert SelectedTotal(amounts, flags, 4) == SelectedTotal(amounts, flags, 3) + (if flags[3] then amounts[3] else 0);
  }

  /** The total of the selected amounts among the first `n`, one amount at a time. */
  function SelectedTotal(amounts: seq<int>, flags: seq<bool>, n: nat): int
    requires n <= |amounts| == |flags|
  {
    if n == 0 then 0 else SelectedTotal(amounts, flags, n - 1) + (if flags[n - 1] then amounts[n - 1] else 0)
  }

  lemma {:induction false} SelectedTotalIsSum(amounts: seq<int>, flags: seq<bool>, n: nat)
    requires n <= |amounts| == |flags|
    ensures SelectedTotal(amounts, flags, n) == Sum(Selected(amounts[..n], flags[..n]))
  {
    if n == 0 {
      assert amounts[..0] == [] && flags[..0] == [];
    } else {
      SelectedTotalIsSum(amounts, flags, n - 1);
      SelectedSumStep(amounts, flags, n - 1);
    }
  }


  function Sum(xs: seq<int>): int {
    if xs == [] then 0 else Sum(xs[..|xs| - 1]) + xs[|xs| - 1]
  }

  /** Of non-negative amounts, a selection never adds up to more than all of them. */
  lemma {:induction false} SelectedSumBounds(amounts: seq<int>, flags: seq<bool>)
    requires |flags| == |amounts|
    requires forall k :: 0 <= k < |amounts| ==> amounts[k] >= 0
    ensures 0 <= Sum(Selected(amounts, flags)) <= Sum(amounts)
  {
    if amounts != [] {
      var n := |amounts| - 1;
      SelectedSumBounds(amounts[..n], flags[..n]);
      var front := Selected(amounts[..n], flags[..n]);
      var last := if flags[n] then [amounts[n]] else [];
      assert Selected(amounts, flags) == front + last;
      SumAppend(front, last);
    }
  }

  lemma {:induction false} SumAppend(xs: seq<int>, ys: seq<int>)
    ensures Sum(xs + ys) == Sum(xs) + Sum(ys)
    decreases |ys|
  {
    if ys != [] {
      var n := |ys| - 1;
      assert (xs + ys)[..|xs + ys| - 1] == xs + ys[..n];
      SumAppend(xs, ys[..n]);
    } else {
      assert xs + ys == xs;
    }
  }

  // ---------------------------------------------------------------------------
  // Weighted match counts: `score += weight * text.match(pattern).length`

  /** `weights[0] * count(0, text) + ... + weights[n - 1] * count(n - 1, text)`:
      the score after the first `n` patterns of a weighted catalog. */
  function WeightedCount(weights: seq<real>, text: string, count: TextCount, n: nat): real
    requires n <= |weights|
  {
    if n == 0 then 0.0
    else WeightedCount(weights, text, count, n - 1) + weights[n - 1] * count(n - 1, text) as real
  }

  /** With non-negative weights the score is non-negative and grows with every count. */
  lemma {:induction false} WeightedCountMonotone(weights: seq<real>, text: string, count: TextCount,
                                                 text': string, count': TextCount, n: nat)
    requires n <= |weights|
    requires forall k :: 0 <= k < n ==> weights[k] >= 0.0 && count(k, text) <= count'(k, text')
    ensures 0.0 <= WeightedCount(weights, text, count, n) <= WeightedCount(weights, text', count', n)
  {
    if n > 0 {
      WeightedCountMonotone(weights, text, count, text', count', n - 1);
      var w, c, c' := weights[n - 1], count(n - 1, text), count'(n - 1, text');
      assert WeightedCount(weights, text, count, n) == WeightedCount(weights, text, count, n - 1) + w * c as real;
      assert WeightedCount(weights, text', count', n) == WeightedCount(weights, text', count', n - 1) + w * c' as real;
      ScaleMonotone(w, c as real, c' as real);
    }
  }

  /** Scaling by a non-negative weight keeps non-negative amounts in order. */
  lemma {:induction false} ScaleMonotone(w: real, a: real, b: real)
    requires w >= 0.0 && 0.0 <= a <= b
    ensures 0.0 <= w * a <= w * b
  {
    assert w * b - w * a == w * (b - a);
  }

  /** No matches, no score. */
  lemma {:induction false} WeightedCountOfZeros(weights: seq<real>, text: string, count: TextCount, n: nat)
    requires n <= |weights|
    requires forall k :: 0 <= k < n ==> count(k, text) == 0
    ensures WeightedCount(weights, text, count, n) == 0.0
  {
    if n > 0 {
      WeightedCountOfZeros(weights, text, count, n - 1);
    }
  }

  /** `count(0, text) + ... + count(n - 1, text)`: the matches of the first `n` patterns. */
  function MatchTotal(text: string, count: TextCount, n: nat): nat {
    if n == 0 then 0 else MatchTotal(text, count, n - 1) + count(n - 1, text)
  }

  /** No matches anywhere add up to no matches. */
  lemma {:induction false} MatchTotalOfZeros(text: string, count: TextCount, n: nat)
    requires forall k :: 0 <= k < n ==> count(k, text) == 0
    ensures MatchTotal(text, count, n) == 0
  {
    if n > 0 {
      MatchTotalOfZeros(text, count, n - 1);
    }
  }

  /** Summing over one more entry adds that entry. */
  lemma {:induction false} SumStep(xs: seq<int>, i: nat)
    requires i < |xs|
    ensures Sum(xs[..i + 1]) == Sum(xs[..i]) + xs[i]
  {
    assert xs[..i + 1][..i] == xs[..i];
  }

  // ---------------------------------------------------------------------------
  // The `g` flag as written: `lastIndex` survives from one `.test` to the next

  /** `search(text, from)`: the end of the first match of a pattern that starts
      at or after `from`, if there is one. */
  type Searcher = (string, nat) -> Option<nat>

  /** Every pattern of the catalogs consumes at least one character, so a match
      found from `from` ends after `from` and inside the text. */
  ghost predicate SearchesForward(search: Searcher) {
    forall text: string, from: nat :: search(text, from).Some? ==> from < search(text, from).value <= |text|
  }

  /** `RegExp.prototype.test` on a `g`-flagged pattern: the search starts at
      `lastIndex`; a match moves `lastIndex` to its end, a miss (or a
      `lastIndex` past the end of the text) resets it to 0. Returns the verdict
      and the new `lastIndex`. */
  function GlobalTest(search: Searcher, text: string, lastIndex: nat): (bool, nat)
  {
    if lastIndex > |text| then (false, 0)
    else
      match search(text, lastIndex)
      case None => (false, 0)
      case Some(e) => (true, e)
  }

  /** `lastIndex` after testing one `g`-flagged pattern, starting from `start`,
      against `lines[..j]` in turn. */
  function LastIndexAfter(search: Searcher, lines: seq<string>, start: nat, j: nat): nat
    requires j <= |lines|
  {
    if j == 0 then start
    else GlobalTest(search, lines[j - 1], LastIndexAfter(search, lines, start, j - 1)).1
  }

  /** The line indices among `lines[..j]` that a shared `g`-flagged pattern
      reports, as the source's per-line loop runs it. */
  function GlobalHits(search: Searcher, lines: seq<string>, start: nat, j: nat): (found: seq<nat>)
    requires j <= |lines|
    ensures forall m :: 0 <= m < |found| ==> found[m] < j
    ensures forall m, m' :: 0 <= m < m' < |found| ==> found[m] < found[m']
  {
    if j == 0 then []
    else
      var hit := GlobalTest(search, lines[j - 1], LastIndexAfter(search, lines, start, j - 1)).0;
      GlobalHits(search, lines, start, j - 1) + (if hit then [j - 1] else [])
  }

  /** The stateless reading used by the rest of the model: a pattern tests a
      line by searching it from the start. */
  function FromStart(search: Searcher): TextTest {
    (k: nat, text: string) => search(text, 0).Some?
  }

  /** As written, a line whose match runs to its very end leaves `lastIndex`
      there, so the identical next line is searched only past its end and is
      missed, although the stateless scan reports both lines. */
  lemma {:induction false} GlobalScanSkipsRepeatedLine(search: Searcher, line: string)
    requires SearchesForward(search)
    requires search(line, 0) == Some(|line|)
    ensures GlobalHits(search, [line, line], 0, 2) == [0]
    ensures Hits(1, [line, line], FromStart(search)) == [Hit(0, 0), Hit(0, 1)]
  {
    var lines := [line, line];
    assert LastIndexAfter(search, lines, 0, 1) == |line|;
    assert search(line, |line|).None?;
    assert GlobalHits(search, lines, 0, 1) == [0];
    var test := FromStart(search);
    assert test(0, line);
    assert PatternHits(0, lines, test, 1) == [Hit(0, 0)];
    assert PatternHits(0, lines, test, 2) == [Hit(0, 0), Hit(0, 1)];
    assert Hits(1, lines, test) == Hits(0, lines, test) + PatternHits(0, lines, test, 2);
  }

  /** The first occurrence of the literal `lit` at or after `from`, as a `Searcher` would report it. */
  function FindLiteral(text: string, lit: string, from: nat): (r: Option<nat>)
    ensures r.Some? ==> from + |lit| <= r.value <= |text|
    decreases |text| - from
  {
    if from + |lit| > |text| then None
    else if text[from..from + |lit|] == lit then Some(from + |lit|)
    else FindLiteral(text, lit, from + 1)
  }

  /** A concrete instance: the cross-site-scripting line `innerHTML = input`
      (which that pattern matches from its first to its last character)
      written on two consecutive lines is reported once. */
  lemma {:induction false} RepeatedXssLineReportedOnce()
    ensures var lit := "innerHTML = input";
            var search := (text: string, from: nat) => FindLiteral(text, lit, from);
            GlobalHits(search, [lit, lit], 0, 2) == [0] &&
            Hits(1, [lit, lit], FromStart(search)) == [Hit(0, 0), Hit(0, 1)]
  {
    var lit := "innerHTML = input";
    var search := (text: string, from: nat) => FindLiteral(text, lit, from);
    assert SearchesForward(search);
    assert lit[0..|lit|] == lit;
    assert search(lit, 0) == Some(|lit|);
    GlobalScanSkipsRepeatedLine(search, lit);
  }
}
