/** The code-quality side of the ML analysis: the advanced per-line
    vulnerability scan, the security score, the vulnerability risk and the
    recommendations. */
module MLCode {
  import opened Text
  import opened Levels
  import opened Numeric
  import opened Patterns

  // ---------------------------------------------------------------------------
  // The advanced vulnerability scan

  datatype AdvancedRule = AdvancedRule(severity: Level, kind: string, impact: string)

  /** Rule `k` fires on a line when pattern `k` of the caller's `TextTest` holds for it. */
  const AdvancedVulnerabilities: seq<AdvancedRule> := [
    AdvancedRule(HIGH, "SQL Injection", "Database compromise possible"),
    AdvancedRule(HIGH, "Cross-Site Scripting (XSS)", "Client-side code execution"),
    AdvancedRule(HIGH, "Command Injection", "Server compromise possible"),
    AdvancedRule(MEDIUM, "Hardcoded Credentials", "Credential exposure risk"),
    AdvancedRule(MEDIUM, "Code Injection", "Dynamic code execution risk")
  ]

  const AdvancedRuleCount := 5

  /** A rule's fields with the 1-based line it fired on and that line, trimmed. */
  datatype Vulnerability = Vulnerability(severity: Level, kind: string, impact: string, line: nat, code: string)

  function VulnerabilityOf(lines: seq<string>, h: Hit): (v: Vulnerability)
    requires h.pattern < AdvancedRuleCount && h.lineIndex < |lines|
    ensures v.line == h.lineIndex + 1 && v.code == Trim(lines[h.lineIndex])
    ensures v.kind == AdvancedVulnerabilities[h.pattern].kind && v.severity != LOW
  {
    var rule := AdvancedVulnerabilities[h.pattern];
    Vulnerability(rule.severity, rule.kind, rule.impact, h.lineIndex + 1, Trim(lines[h.lineIndex]))
  }

  /** The position of the rule of this kind in the catalog, or the catalog size. */
  function KindIndex(kind: string): (k: nat)
    ensures k <= AdvancedRuleCount
  {
    if kind == AdvancedVulnerabilities[0].kind then 0
    else if kind == AdvancedVulnerabilities[1].kind then 1
    else if kind == AdvancedVulnerabilities[2].kind then 2
    else if kind == AdvancedVulnerabilities[3].kind then 3
    else if kind == AdvancedVulnerabilities[4].kind then 4
    else AdvancedRuleCount
  }

  /** The kinds are distinct, so a vulnerability tells which rule produced it. */
  lemma {:induction false} KindIndexOfRule(k: nat)
    requires k < AdvancedRuleCount
    ensures KindIndex(AdvancedVulnerabilities[k].kind) == k
  {
    assert |AdvancedVulnerabilities[0].kind| == 13;
    assert |AdvancedVulnerabilities[1].kind| == 26;
    assert |AdvancedVulnerabilities[2].kind| == 17;
    assert |AdvancedVulnerabilities[3].kind| == 21;
    assert |AdvancedVulnerabilities[4].kind| == 14;
  }

  /** What `detectAdvancedVulnerabilities` returns for `code`: one entry per rule
      and line it fires on, rule by rule and within a rule line by line. */
  function AdvancedFindings(code: string, test: TextTest): (found: seq<Vulnerability>)
    ensures forall v :: v in found ==> 1 <= v.line <= |SplitLines(code)| && v.severity != LOW
  {
    var lines := SplitLines(code);
    VulnerabilitiesOf(lines, Hits(AdvancedRuleCount, lines, test))
  }

  /** One entry per hit, in the order of the hits. */
  function VulnerabilitiesOf(lines: seq<string>, hits: seq<Hit>): (found: seq<Vulnerability>)
    requires forall h :: h in hits ==> h.pattern < AdvancedRuleCount && h.lineIndex < |lines|
  {
    seq(|hits|, i requires 0 <= i < |hits| => VulnerabilityOf(lines, hits[i]))
  }

  /** `detectAdvancedVulnerabilities`: split the code into lines and run every
      rule over every line. Matching is stateless here (see `Patterns.GlobalHits`). */
  method DetectAdvancedVulnerabilities(code: string, test: TextTest) returns (found: seq<Vulnerability>)
    ensures found == AdvancedFindings(code, test)
  {
    var lines := SplitLines(code);
    var hits := ScanLines(AdvancedRuleCount, lines, test);
    found := ReportHits(lines, hits);
  }

  /** The `forEach` that turns each hit into its entry. */
  method ReportHits(lines: seq<string>, hits: seq<Hit>) returns (found: seq<Vulnerability>)
    requires forall h :: h in hits ==> h.pattern < AdvancedRuleCount && h.lineIndex < |lines|
    ensures found == VulnerabilitiesOf(lines, hits)
  {
    found := [];
    for i := 0 to |hits|
      invariant |found| == i
      invariant forall m :: 0 <= m < i ==> found[m] == VulnerabilityOf(lines, hits[m])
    {
      found := found + [VulnerabilityOf(lines, hits[i])];
    }
  }

  /** Rule `k` reports line `j + 1` of the code exactly when its pattern holds on line `j`. */
  lemma {:induction false} AdvancedFindingMembership(code: string, test: TextTest, k: nat, j: nat)
    requires k < AdvancedRuleCount && j < |SplitLines(code)|
    ensures var lines := SplitLines(code);
            VulnerabilityOf(lines, Hit(k, j)) in AdvancedFindings(code, test) <==> test(k, lines[j])
  {
    var lines := SplitLines(code);
    var hits := Hits(AdvancedRuleCount, lines, test);
    var found := AdvancedFindings(code, test);
    var v := VulnerabilityOf(lines, Hit(k, j));
    HitsMembership(AdvancedRuleCount, lines, test, k, j);
    AdvancedFindingsNameTheirHits(code, test);
    KindIndexOfRule(k);
    if v in found {
      var i :| 0 <= i < |found| && found[i] == v;
      assert hits[i] == Hit(k, j);
    }
    if test(k, lines[j]) {
      var i :| 0 <= i < |hits| && hits[i] == Hit(k, j);
      assert found[i] == v;
    }
  }

  /** Each entry names the rule (by its kind) and the line of the hit it comes from. */
  lemma {:induction false} AdvancedFindingsNameTheirHits(code: string, test: TextTest)
    ensures var lines := SplitLines(code);
            var hits := Hits(AdvancedRuleCount, lines, test);
            |AdvancedFindings(code, test)| == |hits| &&
            forall i :: 0 <= i < |hits| ==>
              AdvancedFindings(code, test)[i] == VulnerabilityOf(lines, hits[i]) &&
              hits[i] == Hit(KindIndex(AdvancedFindings(code, test)[i].kind), AdvancedFindings(code, test)[i].line - 1)
  {
    var lines := SplitLines(code);
    var hits := Hits(AdvancedRuleCount, lines, test);
    forall i | 0 <= i < |hits|
      ensures hits[i] == Hit(KindIndex(VulnerabilityOf(lines, hits[i]).kind), VulnerabilityOf(lines, hits[i]).line - 1)
    {
      KindIndexOfRule(hits[i].pattern);
    }
  }

  /** Each entry quotes the line it reports, trimmed. */
  lemma {:induction false} AdvancedFindingQuotesLine(code: string, test: TextTest, i: nat)
    requires i < |AdvancedFindings(code, test)|
    ensures var v := AdvancedFindings(code, test)[i];
            1 <= v.line <= |SplitLines(code)| && v.code == Trim(SplitLines(code)[v.line - 1])
  {
    var hits := Hits(AdvancedRuleCount, SplitLines(code), test);
    assert hits[i] in hits;
  }

  /** Entries come rule by rule in catalog order and, within one rule, by line. */
  lemma {:induction false} AdvancedFindingsOrdered(code: string, test: TextTest, i: nat, j: nat)
    requires i < j < |AdvancedFindings(code, test)|
    ensures var found := AdvancedFindings(code, test);
            KindIndex(found[i].kind) < KindIndex(found[j].kind) ||
            (found[i].kind == found[j].kind && found[i].line < found[j].line)
  {
    var hits := Hits(AdvancedRuleCount, SplitLines(code), test);
    HitsOrdered(AdvancedRuleCount, SplitLines(code), test);
    assert Before(hits[i], hits[j]);
    KindIndexOfRule(hits[i].pattern);
    KindIndexOfRule(hits[j].pattern);
  }

  function VulnerabilitySeverity(v: Vulnerability): Level { v.severity }

  // ---------------------------------------------------------------------------
  // The security score

  /** 100, less 25 per HIGH and 10 per MEDIUM finding, less half of the
      complexity above 50; never below 0. */
  function SecurityScore(high: nat, medium: nat, complexity: real): (score: real)
    ensures 0.0 <= score <= 100.0
  {
    var score := 100.0 - (high * 25) as real - (medium * 10) as real - MaxReal(0.0, (complexity - 50.0) * 0.5);
    MaxReal(score, 0.0)
  }

  /** `calculateSecurityScore` over the findings of a scan. */
  function CalculateSecurityScore(found: seq<Vulnerability>, complexity: real): (score: real)
    ensures 0.0 <= score <= 100.0
  {
    var levels := Severities(found, VulnerabilitySeverity);
    SecurityScore(Count(levels, HIGH), Count(levels, MEDIUM), complexity)
  }

  /** One more HIGH finding takes 25 off the score, down to 0. */
  lemma {:induction false} HighFindingCosts25(high: nat, medium: nat, complexity: real)
    ensures SecurityScore(high + 1, medium, complexity) == MaxReal(SecurityScore(high, medium, complexity) - 25.0, 0.0)
  {
  }

  /** One more MEDIUM finding takes 10 off the score, down to 0. */
  lemma {:induction false} MediumFindingCosts10(high: nat, medium: nat, complexity: real)
    ensures SecurityScore(high, medium + 1, complexity) == MaxReal(SecurityScore(high, medium, complexity) - 10.0, 0.0)
  {
  }

  /** The complexity penalty only ever lowers the score, and is zero up to 50. */
  lemma {:induction false} ComplexityOnlyLowers(high: nat, medium: nat, complexity: real)
    ensures SecurityScore(high, medium, complexity) <= SecurityScore(high, medium, 0.0)
    ensures complexity <= 50.0 ==> SecurityScore(high, medium, complexity) == SecurityScore(high, medium, 0.0)
  {
  }

  // ---------------------------------------------------------------------------
  // The vulnerability risk

  /** Two HIGH findings: HIGH risk; one HIGH or three MEDIUM: MEDIUM; otherwise LOW. */
  function RiskOf(high: nat, medium: nat): (risk: Level)
    ensures risk == HIGH <==> high >= 2
    ensures risk == MEDIUM <==> high == 1 || (high == 0 && medium >= 3)
    ensures risk == LOW <==> high == 0 && medium < 3
  {
    if high >= 2 then HIGH
    else if high >= 1 || medium >= 3 then MEDIUM
    else LOW
  }

  /** `assessVulnerabilityRisk` over the findings of a scan. */
  function AssessVulnerabilityRisk(found: seq<Vulnerability>): (risk: Level) {
    var levels := Severities(found, VulnerabilitySeverity);
    RiskOf(Count(levels, HIGH), Count(levels, MEDIUM))
  }

  /** More findings never lower the risk. */
  lemma {:induction false} RiskMonotone(high: nat, medium: nat, high': nat, medium': nat)
    requires high <= high' && medium <= medium'
    ensures Rank(RiskOf(high, medium)) <= Rank(RiskOf(high', medium'))
  {
  }

  // ---------------------------------------------------------------------------
  // Recommendations

  /** One recommendation per fixable kind (SQL, XSS, command, credentials), then
      one for complexity above 70 and one for maintainability below 60. */
  const RecommendationTexts: seq<string> := [
    "Implement parameterized queries and input validation",
    "Add output encoding and Content Security Policy",
    "Use safe command execution methods and input sanitization",
    "Move sensitive data to environment variables or secure vaults",
    "Refactor complex functions to improve maintainability",
    "Add documentation and reduce code complexity"
  ]

  /** The set of kinds among the findings (`new Set(vulnerabilities.map(v => v.type))`). */
  function Kinds(found: seq<Vulnerability>): (kinds: set<string>)
    ensures forall v :: v in found ==> v.kind in kinds
  {
    set v | v in found :: v.kind
  }

  /** Which recommendations apply. */
  function RecommendationFlags(kinds: set<string>, complexity: real, maintainability: real): (flags: seq<bool>)
    ensures |flags| == |RecommendationTexts|
  {
    [AdvancedVulnerabilities[0].kind in kinds, AdvancedVulnerabilities[1].kind in kinds,
     AdvancedVulnerabilities[2].kind in kinds, AdvancedVulnerabilities[3].kind in kinds,
     complexity > 70.0, maintainability < 60.0]
  }

  /** The recommendation list of a set of kinds, one condition at a time. */
  lemma {:induction false} RecommendationSteps(kinds: set<string>, complexity: real, maintainability: real)
    ensures Selected(RecommendationTexts, RecommendationFlags(kinds, complexity, maintainability)) ==
            [] + (if "SQL Injection" in kinds then [RecommendationTexts[0]] else [])
               + (if "Cross-Site Scripting (XSS)" in kinds then [RecommendationTexts[1]] else [])
               + (if "Command Injection" in kinds then [RecommendationTexts[2]] else [])
               + (if "Hardcoded Credentials" in kinds then [RecommendationTexts[3]] else [])
               + (if complexity > 70.0 then [RecommendationTexts[4]] else [])
               + (if maintainability < 60.0 then [RecommendationTexts[5]] else [])
  {
    assert AdvancedVulnerabilities[0].kind == "SQL Injection";
    assert AdvancedVulnerabilities[1].kind == "Cross-Site Scripting (XSS)";
    assert AdvancedVulnerabilities[2].kind == "Command Injection";
    assert AdvancedVulnerabilities[3].kind == "Hardcoded Credentials";
    SelectedOfSix(RecommendationTexts, RecommendationFlags(kinds, complexity, maintainability));
  }

  /** `generateMLRecommendations`: test each condition in turn and push its text. */
  method GenerateMLRecommendations(found: seq<Vulnerability>, complexity: real, maintainability: real)
    returns (recommendations: seq<string>)
    ensures recommendations == Selected(RecommendationTexts, RecommendationFlags(Kinds(found), complexity, maintainability))
  {
    var vulnTypes := set v | v in found :: v.kind;
    recommendations := [];
    recommendations := recommendations + (if "SQL Injection" in vulnTypes then [RecommendationTexts[0]] else []);
    recommendations := recommendations + (if "Cross-Site Scripting (XSS)" in vulnTypes then [RecommendationTexts[1]] else []);
    recommendations := recommendations + (if "Command Injection" in vulnTypes then [RecommendationTexts[2]] else []);
    recommendations := recommendations + (if "Hardcoded Credentials" in vulnTypes then [RecommendationTexts[3]] else []);
    recommendations := recommendations + (if complexity > 70.0 then [RecommendationTexts[4]] else []);
    recommendations := recommendations + (if maintainability < 60.0 then [RecommendationTexts[5]] else []);
    RecommendationSteps(vulnTypes, complexity, maintainability);
  }

  lemma {:induction false} RecommendationTextsDistinct()
    ensures forall i, j :: 0 <= i < j < |RecommendationTexts| ==> RecommendationTexts[i] != RecommendationTexts[j]
  {
    assert |RecommendationTexts[0]| == 52 && |RecommendationTexts[1]| == 47 && |RecommendationTexts[2]| == 57;
    assert |RecommendationTexts[3]| == 61 && |RecommendationTexts[4]| == 53 && |RecommendationTexts[5]| == 44;
  }

  /** At most six recommendations, none twice, and each present exactly when its condition holds. */
  lemma {:induction false} RecommendationsReport(kinds: set<string>, complexity: real, maintainability: real, k: nat)
    requires k < |RecommendationTexts|
    ensures var flags := RecommendationFlags(kinds, complexity, maintainability);
            var r := Selected(RecommendationTexts, flags);
            |r| <= 6 && (forall i, j :: 0 <= i < j < |r| ==> r[i] != r[j]) &&
            (RecommendationTexts[k] in r <==> flags[k])
  {
    var flags := RecommendationFlags(kinds, complexity, maintainability);
    RecommendationTextsDistinct();
    SelectedDistinct(RecommendationTexts, flags);
    SelectedMembership(RecommendationTexts, flags, k);
  }

  /** A `Code Injection` finding changes no recommendation. */
  lemma {:induction false} CodeInjectionRecommendsNothing(kinds: set<string>, complexity: real, maintainability: real)
    ensures RecommendationFlags(kinds + {AdvancedVulnerabilities[4].kind}, complexity, maintainability) ==
            RecommendationFlags(kinds - {AdvancedVulnerabilities[4].kind}, complexity, maintainability)
  {
    KindIndexOfRule(0);
    KindIndexOfRule(1);
    KindIndexOfRule(2);
    KindIndexOfRule(3);
    KindIndexOfRule(4);
  }

  /** A kind is among the findings exactly when its rule fires on some line. */
  lemma {:induction false} KindFound(code: string, test: TextTest, k: nat)
    requires k < AdvancedRuleCount
    ensures var lines := SplitLines(code);
            AdvancedVulnerabilities[k].kind in Kinds(AdvancedFindings(code, test)) <==>
            exists j :: 0 <= j < |lines| && test(k, lines[j])
  {
    var lines := SplitLines(code);
    if AdvancedVulnerabilities[k].kind in Kinds(AdvancedFindings(code, test)) {
      FoundKindFired(code, test, k);
    }
    if exists j :: 0 <= j < |lines| && test(k, lines[j]) {
      var j :| 0 <= j < |lines| && test(k, lines[j]);
      AdvancedFindingMembership(code, test, k, j);
    }
  }

  /** A kind among the findings was reported by its own rule, on a line where it fires. */
  lemma {:induction false} FoundKindFired(code: string, test: TextTest, k: nat)
    requires k < AdvancedRuleCount
    requires AdvancedVulnerabilities[k].kind in Kinds(AdvancedFindings(code, test))
    ensures exists j :: 0 <= j < |SplitLines(code)| && test(k, SplitLines(code)[j])
  {
    var lines := SplitLines(code);
    var found := AdvancedFindings(code, test);
    var hits := Hits(AdvancedRuleCount, lines, test);
    var i :| 0 <= i < |found| && found[i].kind == AdvancedVulnerabilities[k].kind;
    KindIndexOfRule(k);
    KindIndexOfRule(hits[i].pattern);
    assert hits[i] in hits;
    HitsMembership(AdvancedRuleCount, lines, test, k, hits[i].lineIndex);
  }

  // ---------------------------------------------------------------------------
  // The code-quality report

  datatype CodeQualityAnalysis = CodeQualityAnalysis(
    securityScore: int,
    maintainabilityScore: int,
    complexityScore: int,
    vulnerabilityRisk: Level,
    recommendations: seq<string>)

  /** The report of `analyzeCodeQuality`; `complexity` and `maintainability` are
      the code metrics of the source text. */
  function CodeQuality(code: string, test: TextTest, complexity: real, maintainability: real): (q: CodeQualityAnalysis)
    ensures 0 <= q.securityScore <= 100
  {
    var found := AdvancedFindings(code, test);
    var score := CalculateSecurityScore(found, complexity);
    RoundMonotone(0.0, score);
    RoundMonotone(score, 100.0);
    RoundWhole(0);
    RoundWhole(100);
    CodeQualityAnalysis(
      Round(score),
      Round(maintainability),
      Round(complexity),
      AssessVulnerabilityRisk(found),
      Selected(RecommendationTexts, RecommendationFlags(Kinds(found), complexity, maintainability)))
  }

  /** Code on which no rule fires, of complexity at most 50, scores 100 at LOW risk. */
  lemma {:induction false} CleanCodeScoresFull(code: string, test: TextTest, complexity: real, maintainability: real)
    requires forall k, j :: 0 <= k < AdvancedRuleCount && 0 <= j < |SplitLines(code)| ==> !test(k, SplitLines(code)[j])
    requires complexity <= 50.0
    ensures var q := CodeQuality(code, test, complexity, maintainability);
            q.securityScore == 100 && q.vulnerabilityRisk == LOW
  {
    assert AdvancedFindings(code, test) == [] by {
      CleanCodeHasNoFindings(code, test);
    }
    assert CalculateSecurityScore([], complexity) == 100.0;
    assert AssessVulnerabilityRisk([]) == LOW;
    RoundWhole(100);
  }

  /** No rule fires on any line, so the scan reports nothing. */
  lemma {:induction false} CleanCodeHasNoFindings(code: string, test: TextTest)
    requires forall k, j :: 0 <= k < AdvancedRuleCount && 0 <= j < |SplitLines(code)| ==> !test(k, SplitLines(code)[j])
    ensures AdvancedFindings(code, test) == []
  {
    var lines := SplitLines(code);
    var hits := Hits(AdvancedRuleCount, lines, test);
    if |hits| > 0 {
      HitsMembership(AdvancedRuleCount, lines, test, hits[0].pattern, hits[0].lineIndex);
      assert false;
    }
  }
}
