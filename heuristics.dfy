/** The content heuristics of the enhanced pipelines: the obfuscation level, the
    behaviour labels of a file and the performance impact of a piece of code. */
module Heuristics {
  import opened Levels
  import opened Numeric
  import opened Patterns

  // ---------------------------------------------------------------------------
  // Obfuscation: a weighted count of matches

  /** Weights of the four obfuscation indicators: hex escapes, base64 helpers,
      dynamic code, long encoded tokens (patterns 0 to 3 of the caller's `TextCount`). */
  const ObfuscationWeights: seq<real> := [2.0, 1.0, 3.0, 1.0]

  function ObfuscationScore(content: string, count: TextCount): (score: real)
    ensures score >= 0.0
  {
    WeightedCountMonotone(ObfuscationWeights, content, count, content, count, 4);
    WeightedCount(ObfuscationWeights, content, count, 4)
  }

  /** Above 10: HIGH; above 5: MEDIUM; otherwise LOW. */
  function ObfuscationLevel(score: real): (level: Level) {
    if score > 10.0 then HIGH else if score > 5.0 then MEDIUM else LOW
  }

  /** `determineObfuscationLevel`: add up weight times match count over the
      indicators, then pick the tier. */
  method DetermineObfuscationLevel(content: string, count: TextCount) returns (level: Level)
    ensures level == ObfuscationLevel(ObfuscationScore(content, count))
    ensures level == HIGH <==> ObfuscationScore(content, count) > 10.0
    ensures level == MEDIUM <==> 5.0 < ObfuscationScore(content, count) <= 10.0
  {
    var obfuscationScore := 0.0;
    for i := 0 to 4
      invariant obfuscationScore == WeightedCount(ObfuscationWeights, content, count, i)
    {
      var matches := count(i, content);
      if matches > 0 {
        obfuscationScore := obfuscationScore + ObfuscationWeights[i] * matches as real;
      }
    }
    if obfuscationScore > 10.0 {
      level := HIGH;
    } else if obfuscationScore > 5.0 {
      level := MEDIUM;
    } else {
      level := LOW;
    }
  }

  /** More matches of any indicator never lower the obfuscation level. */
  lemma {:induction false} ObfuscationMonotone(content: string, count: TextCount, content': string, count': TextCount)
    requires forall k :: 0 <= k < 4 ==> count(k, content) <= count'(k, content')
    ensures Rank(ObfuscationLevel(ObfuscationScore(content, count))) <=
            Rank(ObfuscationLevel(ObfuscationScore(content', count')))
  {
    WeightedCountMonotone(ObfuscationWeights, content, count, content', count', 4);
  }

  /** Two dynamic-code matches alone make MEDIUM, four make HIGH. */
  lemma {:induction false} DynamicCodeAloneRaisesLevel(content: string, count: TextCount)
    requires count(0, content) == 0 && count(1, content) == 0 && count(3, content) == 0
    ensures count(2, content) == 2 ==> ObfuscationLevel(ObfuscationScore(content, count)) == MEDIUM
    ensures count(2, content) >= 4 ==> ObfuscationLevel(ObfuscationScore(content, count)) == HIGH
  {
    assert WeightedCount(ObfuscationWeights, content, count, 2) == 0.0 by {
      WeightedCountOfZeros(ObfuscationWeights, content, count, 2);
    }
    assert WeightedCount(ObfuscationWeights, content, count, 4) ==
           WeightedCount(ObfuscationWeights, content, count, 3);
    assert WeightedCount(ObfuscationWeights, content, count, 3) == 3.0 * count(2, content) as real;
  }

  // ---------------------------------------------------------------------------
  // Behaviour labels

  /** One label per behaviour pattern (network, file system, registry, process, crypto). */
  const BehaviorLabels: seq<string> := [
    "Network communication detected",
    "File system operations detected",
    "Registry modifications detected",
    "Process manipulation detected",
    "Cryptographic operations detected"
  ]

  /** `analyzeBehaviorPatterns`: push the label of every behaviour pattern that matches. */
  method AnalyzeBehaviorPatterns(content: string, test: TextTest) returns (behaviors: seq<string>)
    ensures behaviors == Selected(BehaviorLabels, Flags(5, content, test))
  {
    ghost var flags := Flags(5, content, test);
    behaviors := [];
    SelectedStep(BehaviorLabels, flags, 0);
    behaviors := behaviors + (if test(0, content) then [BehaviorLabels[0]] else []);
    assert behaviors == Selected(BehaviorLabels[..1], flags[..1]);
    SelectedStep(BehaviorLabels, flags, 1);
    behaviors := behaviors + (if test(1, content) then [BehaviorLabels[1]] else []);
    assert behaviors == Selected(BehaviorLabels[..2], flags[..2]);
    SelectedStep(BehaviorLabels, flags, 2);
    behaviors := behaviors + (if test(2, content) then [BehaviorLabels[2]] else []);
    assert behaviors == Selected(BehaviorLabels[..3], flags[..3]);
    SelectedStep(BehaviorLabels, flags, 3);
    behaviors := behaviors + (if test(3, content) then [BehaviorLabels[3]] else []);
    assert behaviors == Selected(BehaviorLabels[..4], flags[..4]);
    SelectedStep(BehaviorLabels, flags, 4);
    behaviors := behaviors + (if test(4, content) then [BehaviorLabels[4]] else []);
    assert behaviors == Selected(BehaviorLabels[..5], flags[..5]);
  }

  lemma {:induction false} BehaviorLabelsDistinct()
    ensures forall i, j :: 0 <= i < j < |BehaviorLabels| ==> BehaviorLabels[i] != BehaviorLabels[j]
  {
    assert BehaviorLabels[1][0] == 'F' && BehaviorLabels[2][0] == 'R';
  }

  /** At most five labels, none twice, and a label is reported exactly when its
      pattern matches the content. */
  lemma {:induction false} BehaviorReport(content: string, test: TextTest, k: nat)
    requires k < 5
    ensures var r := Selected(BehaviorLabels, Flags(5, content, test));
            |r| <= 5 && (forall i, j :: 0 <= i < j < |r| ==> r[i] != r[j]) &&
            (BehaviorLabels[k] in r <==> test(k, content))
  {
    BehaviorLabelsDistinct();
    SelectedDistinct(BehaviorLabels, Flags(5, content, test));
    SelectedMembership(BehaviorLabels, Flags(5, content, test), k);
  }

  // ---------------------------------------------------------------------------
  // Performance impact

  /** Nested loops, infinite loops, timers, network requests (patterns 0 to 3). */
  const BottleneckLabels: seq<string> := [
    "Nested loops detected - O(n³) complexity risk",
    "Infinite loop patterns detected",
    "Timer-based operations may impact performance",
    "Network requests without proper error handling"
  ]

  /** What each bottleneck takes off the score of 100. */
  const Deductions: seq<int> := [20, 30, 10, 15]

  datatype PerformanceImpact = PerformanceImpact(score: int, bottlenecks: seq<string>)

  /** The report of the four bottleneck checks, one check at a time. */
  lemma {:induction false} PerformanceSteps(flags: seq<bool>)
    requires |flags| == 4
    ensures Selected(BottleneckLabels, flags) ==
            [] + (if flags[0] then [BottleneckLabels[0]] else [])
               + (if flags[1] then [BottleneckLabels[1]] else [])
               + (if flags[2] then [BottleneckLabels[2]] else [])
               + (if flags[3] then [BottleneckLabels[3]] else [])
    ensures Sum(Selected(Deductions, flags)) ==
            (if flags[0] then 20 else 0) + (if flags[1] then 30 else 0) +
            (if flags[2] then 10 else 0) + (if flags[3] then 15 else 0)
  {
    SelectedOfFour(BottleneckLabels, flags);
    SelectedSumOfFour(Deductions, flags);
  }

  /** `analyzePerformanceImpact`: every matching anti-pattern is reported and
      takes its deduction off 100; the result is clamped at 0. */
  method AnalyzePerformanceImpact(code: string, test: TextTest) returns (impact: PerformanceImpact)
    ensures impact.bottlenecks == Selected(BottleneckLabels, Flags(4, code, test))
    ensures impact.score == 100 - Sum(Selected(Deductions, Flags(4, code, test)))
    ensures 25 <= impact.score <= 100
  {
    var bottlenecks: seq<string> := [];
    var score := 100;
    bottlenecks := bottlenecks + (if test(0, code) then [BottleneckLabels[0]] else []);
    score := score - (if test(0, code) then 20 else 0);
    bottlenecks := bottlenecks + (if test(1, code) then [BottleneckLabels[1]] else []);
    score := score - (if test(1, code) then 30 else 0);
    bottlenecks := bottlenecks + (if test(2, code) then [BottleneckLabels[2]] else []);
    score := score - (if test(2, code) then 10 else 0);
    bottlenecks := bottlenecks + (if test(3, code) then [BottleneckLabels[3]] else []);
    score := score - (if test(3, code) then 15 else 0);
    var flags := Flags(4, code, test);
    PerformanceSteps(flags);
    // the deductions taken are at most all of them, 75, so the clamp at 0 never fires
    SelectedSumBounds(Deductions, flags);
    DeductionsTotal();
    impact := PerformanceImpact(Max(score, 0), bottlenecks);
  }

  /** All four deductions together take 75 off the score. */
  lemma {:induction false} DeductionsTotal()
    ensures Sum(Deductions) == 75
  {
    SumStep(Deductions, 0);
    SumStep(Deductions, 1);
    SumStep(Deductions, 2);
    SumStep(Deductions, 3);
    assert Deductions[..4] == Deductions;
  }
}
