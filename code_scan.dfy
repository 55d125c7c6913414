/** The basic code pipeline of the scanner: the per-line vulnerability scan,
    the three-tier verdict with its randomised score, and the code report. */
module CodeScan {
  import opened Text
  import opened Levels
  import opened Numeric
  import opened Patterns
  import FileScan

  // ---------------------------------------------------------------------------
  // The vulnerability catalog and the per-line scan

  datatype VulnerabilityRule = VulnerabilityRule(severity: Level, title: string, description: string)

  /** The catalog of code vulnerabilities; rule `k` fires on a line when pattern
      `k` of the caller's `TextTest` holds for it. */
  const CodeVulnerabilities: seq<VulnerabilityRule> := [
    VulnerabilityRule(HIGH, "SQL Injection vulnerability detected",
      "Database queries are constructed using string concatenation without parameterization"),
    VulnerabilityRule(HIGH, "Cross-Site Scripting (XSS) vulnerability",
      "User input is directly rendered without sanitization"),
    VulnerabilityRule(MEDIUM, "Weak password detected",
      "Hardcoded password appears to be weak or too short"),
    VulnerabilityRule(HIGH, "Hardcoded credentials detected",
      "Sensitive information is hardcoded in the source code"),
    VulnerabilityRule(HIGH, "Command injection vulnerability",
      "System commands are executed with user-controlled input")
  ]

  const RuleCount := 5

  datatype CodeFinding = CodeFinding(severity: Level, title: string, description: string, line: nat)

  /** The finding pushed for a hit: the rule's fields and the 1-based line number. */
  function FindingOf(h: Hit): (f: CodeFinding)
    requires h.pattern < RuleCount
    ensures f.line == h.lineIndex + 1 && f.severity != LOW
    ensures f.title == CodeVulnerabilities[h.pattern].title
  {
    var rule := CodeVulnerabilities[h.pattern];
    CodeFinding(rule.severity, rule.title, rule.description, h.lineIndex + 1)
  }

  /** The position of the rule with this title in the catalog, or the catalog size. */
  function RuleOf(f: CodeFinding): (k: nat)
    ensures k <= RuleCount
  {
    if f.title == CodeVulnerabilities[0].title then 0
    else if f.title == CodeVulnerabilities[1].title then 1
    else if f.title == CodeVulnerabilities[2].title then 2
    else if f.title == CodeVulnerabilities[3].title then 3
    else if f.title == CodeVulnerabilities[4].title then 4
    else RuleCount
  }

  /** The catalog titles are distinct, so a finding tells which rule produced it. */
  lemma {:induction false} RuleOfFindingOf(h: Hit)
    requires h.pattern < RuleCount
    ensures RuleOf(FindingOf(h)) == h.pattern
  {
    assert |CodeVulnerabilities[0].title| == 36;
    assert |CodeVulnerabilities[1].title| == 40;
    assert |CodeVulnerabilities[2].title| == 22;
    assert |CodeVulnerabilities[3].title| == 30;
    assert |CodeVulnerabilities[4].title| == 31;
  }

  /** A finding carrying a rule's title names that rule. */
  lemma {:induction false} RuleOfTitle(f: CodeFinding, k: nat)
    requires k < RuleCount && f.title == CodeVulnerabilities[k].title
    ensures RuleOf(f) == k
  {
    RuleOfFindingOf(Hit(k, 0));
    assert RuleOf(f) == RuleOf(FindingOf(Hit(k, 0)));
  }

  /** What `detectCodeVulnerabilities` returns for `code`: one finding per rule
      and line it fires on, rule by rule and within a rule line by line. */
  function Findings(code: string, test: TextTest): (found: seq<CodeFinding>)
    ensures forall f :: f in found ==> 1 <= f.line <= |SplitLines(code)| && f.severity != LOW
  {
    FindingsOf(Hits(RuleCount, SplitLines(code), test))
  }

  /** One finding per hit, in the order of the hits. */
  function FindingsOf(hits: seq<Hit>): (found: seq<CodeFinding>)
    requires forall h :: h in hits ==> h.pattern < RuleCount
  {
    seq(|hits|, i requires 0 <= i < |hits| => FindingOf(hits[i]))
  }

  /** `detectCodeVulnerabilities`: split the code into lines and run every rule
      over every line. Matching is stateless here (see `Patterns.GlobalHits`). */
  method DetectCodeVulnerabilities(code: string, test: TextTest) returns (found: seq<CodeFinding>)
    ensures found == Findings(code, test)
  {
    var lines := SplitLines(code);
    var hits := ScanLines(RuleCount, lines, test);
    found := ReportHits(hits);
  }

  /** The `forEach` that turns each hit into its finding. */
  method ReportHits(hits: seq<Hit>) returns (found: seq<CodeFinding>)
    requires forall h :: h in hits ==> h.pattern < RuleCount
    ensures found == FindingsOf(hits)
  {
    found := [];
    for i := 0 to |hits|
      invariant |found| == i
      invariant forall m :: 0 <= m < i ==> found[m] == FindingOf(hits[m])
    {
      found := found + [FindingOf(hits[i])];
    }
  }

  /** Rule `k` reports line `j + 1` exactly when its pattern holds on line `j`. */
  lemma {:induction false} FindingMembership(code: string, test: TextTest, k: nat, j: nat)
    requires k < RuleCount
    ensures var lines := SplitLines(code);
            FindingOf(Hit(k, j)) in Findings(code, test) <==> j < |lines| && test(k, lines[j])
  {
    var lines := SplitLines(code);
    var hits := Hits(RuleCount, lines, test);
    var found := Findings(code, test);
    var f := FindingOf(Hit(k, j));
    HitsMembership(RuleCount, lines, test, k, j);
    FindingsNameTheirHits(code, test);
    RuleOfFindingOf(Hit(k, j));
    if f in found {
      var i :| 0 <= i < |found| && found[i] == f;
      assert hits[i] == Hit(k, j);
    }
    if j < |lines| && test(k, lines[j]) {
      var i :| 0 <= i < |hits| && hits[i] == Hit(k, j);
      assert found[i] == f;
    }
  }

  /** Each finding names the rule and the line of the hit it comes from. */
  lemma {:induction false} FindingsNameTheirHits(code: string, test: TextTest)
    ensures var hits := Hits(RuleCount, SplitLines(code), test);
            |Findings(code, test)| == |hits| &&
            forall i :: 0 <= i < |hits| ==>
              Findings(code, test)[i] == FindingOf(hits[i]) &&
              hits[i] == Hit(RuleOf(Findings(code, test)[i]), Findings(code, test)[i].line - 1)
  {
    var hits := Hits(RuleCount, SplitLines(code), test);
    forall i | 0 <= i < |hits|
      ensures hits[i] == Hit(RuleOf(FindingOf(hits[i])), FindingOf(hits[i]).line - 1)
    {
      RuleOfFindingOf(hits[i]);
    }
  }

  /** Findings come rule by rule in catalog order and, within one rule, by line. */
  lemma {:induction false} FindingsOrdered(code: string, test: TextTest, i: nat, j: nat)
    requires i < j < |Findings(code, test)|
    ensures var found := Findings(code, test);
            RuleOf(found[i]) < RuleOf(found[j]) ||
            (RuleOf(found[i]) == RuleOf(found[j]) && found[i].line < found[j].line)
  {
    var hits := Hits(RuleCount, SplitLines(code), test);
    HitsOrdered(RuleCount, SplitLines(code), test);
    assert Before(hits[i], hits[j]);
    RuleOfFindingOf(hits[i]);
    RuleOfFindingOf(hits[j]);
  }

  function FindingSeverity(f: CodeFinding): Level { f.severity }

  /** The catalog has no LOW rule, so every finding is a threat or a warning. */
  lemma {:induction false} ThreatsAndWarningsCoverFindings(code: string, test: TextTest)
    ensures var levels := Severities(Findings(code, test), FindingSeverity);
            Count(levels, HIGH) + Count(levels, MEDIUM) == |Findings(code, test)|
  {
    var found := Findings(code, test);
    var levels := Severities(found, FindingSeverity);
    CountPartition(levels);
    CountZero(levels, LOW);
    assert LOW !in levels by {
      forall i | 0 <= i < |levels| ensures levels[i] != LOW {
        assert found[i] in found;
      }
    }
  }

  // ---------------------------------------------------------------------------
  // The verdict and its score

  /** Two threats: LOW security; one threat or two warnings: MEDIUM; otherwise HIGH. */
  function ClassifyCode(threats: nat, warnings: nat): (c: Classification)
    ensures Coupled(c)
    ensures c.securityLevel == LOW <==> threats >= 2
    ensures c.securityLevel == HIGH <==> threats == 0 && warnings < 2
  {
    if threats >= 2 then Compromised
    else if threats >= 1 || warnings >= 2 then Guarded
    else Secure
  }

  /** `Math.floor(random * span) + base`, with the band the verdict's branch picks:
      10 + [0,30) for LOW, 50 + [0,30) for MEDIUM, 80 + [0,20) for HIGH. */
  function CodeSecurityScore(securityLevel: Level, random: real): (score: int)
    requires 0.0 <= random < 1.0
    ensures securityLevel == LOW ==> 10 <= score <= 39
    ensures securityLevel == MEDIUM ==> 50 <= score <= 79
    ensures securityLevel == HIGH ==> 80 <= score <= 99
  {
    match securityLevel
    case LOW => (random * 30.0).Floor + 10
    case MEDIUM => (random * 30.0).Floor + 50
    case HIGH => (random * 20.0).Floor + 80
  }

  /** The tier a score belongs to, read off the score alone. */
  function LevelOfScore(score: int): Level {
    if score < 50 then LOW else if score < 80 then MEDIUM else HIGH
  }

  /** The bands are disjoint: whatever the random draw, the score gives back the verdict. */
  lemma {:induction false} ScoreRevealsLevel(securityLevel: Level, random: real)
    requires 0.0 <= random < 1.0
    ensures LevelOfScore(CodeSecurityScore(securityLevel, random)) == securityLevel
  {
  }

  // ---------------------------------------------------------------------------
  // Suggestions, language and size figures

  datatype CodeSuggestion = CodeSuggestion(priority: Level, title: string, description: string)

  const CodeSuggestions: seq<CodeSuggestion> := [
    CodeSuggestion(HIGH, "Implement parameterized queries",
      "Use prepared statements to prevent SQL injection attacks"),
    CodeSuggestion(HIGH, "Add input sanitization",
      "Sanitize and validate all user inputs before processing"),
    CodeSuggestion(MEDIUM, "Implement CSRF protection",
      "Add CSRF tokens to protect against cross-site request forgery"),
    CodeSuggestion(HIGH, "Use secure password hashing",
      "Implement bcrypt or Argon2 for password hashing"),
    CodeSuggestion(MEDIUM, "Add proper error handling",
      "Implement comprehensive error handling without exposing sensitive information"),
    CodeSuggestion(LOW, "Use environment variables",
      "Store sensitive configuration in environment variables")
  ]

  /** One suggestion per finding, at least two and at most the six of the catalog. */
  function GenerateCodeSuggestions(findingCount: nat): (r: seq<CodeSuggestion>)
    ensures |r| == Min(Max(findingCount, 2), 6)
    ensures r == CodeSuggestions[..|r|]
  {
    FileScan.SlicePrefix(CodeSuggestions, Max(findingCount, 2))
  }

  /** More findings list the same suggestions and possibly more. */
  lemma {:induction false} GenerateCodeSuggestionsGrows(n: nat, m: nat)
    requires n <= m
    ensures var few, many := GenerateCodeSuggestions(n), GenerateCodeSuggestions(m);
            |few| <= |many| && few == many[..|few|]
  {
  }

  const Languages: seq<string> := ["Python", "JavaScript", "Java", "C/C++", "PHP", "Auto-detected"]

  predicate PythonMarkers(code: string) { Contains(code, "import ") && Contains(code, "def ") }
  predicate JavaScriptMarkers(code: string) {
    Contains(code, "function ") || Contains(code, "const ") || Contains(code, "let ")
  }
  predicate JavaMarkers(code: string) { Contains(code, "public class ") || Contains(code, "import java") }
  predicate CMarkers(code: string) { Contains(code, "#include") || Contains(code, "int main") }
  predicate PhpMarkers(code: string) { Contains(code, "<?php") }

  /** The first language whose markers the code holds, tried in a fixed order. */
  function DetectLanguage(code: string): (language: string)
    ensures language in Languages
  {
    if PythonMarkers(code) then "Python"
    else if JavaScriptMarkers(code) then "JavaScript"
    else if JavaMarkers(code) then "Java"
    else if CMarkers(code) then "C/C++"
    else if PhpMarkers(code) then "PHP"
    else "Auto-detected"
  }

  /** First match wins: a language is reported exactly when its markers are
      present and those of every language tried before it are absent. */
  lemma {:induction false} DetectLanguageCases(code: string)
    ensures DetectLanguage(code) == "Auto-detected" <==>
              !PythonMarkers(code) && !JavaScriptMarkers(code) && !JavaMarkers(code) &&
              !CMarkers(code) && !PhpMarkers(code)
    ensures DetectLanguage(code) == "Python" <==> PythonMarkers(code)
    ensures DetectLanguage(code) == "JavaScript" <==> !PythonMarkers(code) && JavaScriptMarkers(code)
    ensures DetectLanguage(code) == "Java" <==>
              !PythonMarkers(code) && !JavaScriptMarkers(code) && JavaMarkers(code)
    ensures DetectLanguage(code) == "C/C++" <==>
              !PythonMarkers(code) && !JavaScriptMarkers(code) && !JavaMarkers(code) && CMarkers(code)
    ensures DetectLanguage(code) == "PHP" <==>
              !PythonMarkers(code) && !JavaScriptMarkers(code) && !JavaMarkers(code) &&
              !CMarkers(code) && PhpMarkers(code)
  {
  }

  /** `Math.min(Math.floor(code.length / 100), 10)`: hundreds of UTF-16 units, capped at 10. */
  function CodeComplexity(code: string): (c: nat)
    ensures c <= 10
    ensures c < 10 ==> c * 100 <= Utf16Length(code) < (c + 1) * 100
    ensures c == 10 <==> Utf16Length(code) >= 1000
  {
    Min(Utf16Length(code) / 100, 10)
  }

  /** `code.split('\n').length`: one more than the number of line feeds. */
  function LinesOfCode(code: string): (n: nat)
    ensures n >= 1 && n == Occurrences(code, '\n') + 1
  {
    |SplitLines(code)|
  }

  // ---------------------------------------------------------------------------
  // The code report

  datatype CodeAnalysisResult = CodeAnalysisResult(
    securityLevel: Level,
    riskLevel: Level,
    threats: nat,
    warnings: nat,
    vulnerabilities: seq<string>,
    suggestions: seq<string>,
    fileInfo: FileScan.FileInfo,
    linesOfCode: nat,
    codeComplexity: nat,
    securityScore: int,
    language: string,
    detailedVulnerabilities: seq<CodeFinding>,
    detailedSuggestions: seq<CodeSuggestion>)

  function Titles(found: seq<CodeFinding>): seq<string>
  {
    seq(|found|, i requires 0 <= i < |found| => found[i].title)
  }

  /** A reported title comes from a line its rule fires on. */
  lemma {:induction false} ReportedTitleHasHit(code: string, test: TextTest, k: nat, i: nat)
    requires k < RuleCount
    requires i < |Findings(code, test)| && Findings(code, test)[i].title == CodeVulnerabilities[k].title
    ensures var lines := SplitLines(code);
            exists j :: 0 <= j < |lines| && test(k, lines[j])
  {
    var lines := SplitLines(code);
    var found := Findings(code, test);
    var hits := Hits(RuleCount, lines, test);
    FindingsNameTheirHits(code, test);
    var h := hits[i];
    RuleOfTitle(found[i], k);
    assert h == Hit(k, found[i].line - 1);
    assert h in hits;
    HitsMembership(RuleCount, lines, test, k, h.lineIndex);
    assert h.lineIndex < |lines| && test(k, lines[h.lineIndex]);
  }

  /** A line a rule fires on puts that rule's title in the report. */
  lemma {:induction false} HitReportsTitle(code: string, test: TextTest, k: nat, j: nat)
    requires k < RuleCount
    requires j < |SplitLines(code)| && test(k, SplitLines(code)[j])
    ensures CodeVulnerabilities[k].title in Titles(Findings(code, test))
  {
    var found := Findings(code, test);
    FindingMembership(code, test, k, j);
    var i :| 0 <= i < |found| && found[i] == FindingOf(Hit(k, j));
    assert Titles(found)[i] == CodeVulnerabilities[k].title;
  }

  /** `vulnerabilities.map(v => v.title)`: a rule's title is reported exactly
      when the rule fires on some line of the code. */
  lemma {:induction false} ReportedTitles(code: string, test: TextTest, k: nat)
    requires k < RuleCount
    ensures var lines := SplitLines(code);
            CodeVulnerabilities[k].title in Titles(Findings(code, test)) <==>
            exists j :: 0 <= j < |lines| && test(k, lines[j])
  {
    var lines := SplitLines(code);
    var found := Findings(code, test);
    var titles := Titles(found);
    var title := CodeVulnerabilities[k].title;
    if title in titles {
      var i :| 0 <= i < |titles| && titles[i] == title;
      ReportedTitleHasHit(code, test, k, i);
    }
    if exists j :: 0 <= j < |lines| && test(k, lines[j]) {
      var j :| 0 <= j < |lines| && test(k, lines[j]);
      HitReportsTitle(code, test, k, j);
    }
  }

  function Descriptions(suggestions: seq<CodeSuggestion>): seq<string>
  {
    seq(|suggestions|, i requires 0 <= i < |suggestions| => suggestions[i].description)
  }

  /** The report for `code`; `random` is the draw of `Math.random()`, `digest` the
      SHA-256 of the code and `scanTime` the clock reading. */
  function CodeReport(code: string, test: TextTest, random: real, digest: seq<FileScan.Byte>, scanTime: string)
    : (r: CodeAnalysisResult)
    requires 0.0 <= random < 1.0
  {
    var found := Findings(code, test);
    var threats := Count(Severities(found, FindingSeverity), HIGH);
    var warnings := Count(Severities(found, FindingSeverity), MEDIUM);
    var verdict := ClassifyCode(threats, warnings);
    var suggestions := GenerateCodeSuggestions(|found|);
    CodeAnalysisResult(
      verdict.securityLevel, verdict.riskLevel, threats, warnings,
      Titles(found), Descriptions(suggestions),
      FileScan.FileInfo("User Code", Utf8Size(code), "text/plain", FileScan.RenderHash(digest), scanTime),
      LinesOfCode(code), CodeComplexity(code),
      CodeSecurityScore(verdict.securityLevel, random),
      DetectLanguage(code), found, suggestions)
  }

  /** Every code report pairs its levels, splits its findings into threats and
      warnings, scores inside its verdict's band and sizes its lists by its findings. */
  lemma {:induction false} CodeReportShape(code: string, test: TextTest, random: real, digest: seq<FileScan.Byte>, scanTime: string)
    requires 0.0 <= random < 1.0
    ensures var r := CodeReport(code, test, random, digest, scanTime);
            Coupled(Classification(r.securityLevel, r.riskLevel)) &&
            r.threats + r.warnings == |r.detailedVulnerabilities| == |r.vulnerabilities| &&
            LevelOfScore(r.securityScore) == r.securityLevel &&
            |r.suggestions| == Min(Max(|r.detailedVulnerabilities|, 2), 6) &&
            r.linesOfCode >= 1 && r.codeComplexity <= 10
  {
    ThreatsAndWarningsCoverFindings(code, test);
    var found := Findings(code, test);
    var verdict := ClassifyCode(Count(Severities(found, FindingSeverity), HIGH), Count(Severities(found, FindingSeverity), MEDIUM));
    ScoreRevealsLevel(verdict.securityLevel, random);
  }

  /** Code on which no rule fires gets HIGH security, no threats or warnings,
      a score of at least 80 and the two first suggestions. */
  lemma {:induction false} CleanCodeIsSecure(code: string, test: TextTest, random: real, digest: seq<FileScan.Byte>, scanTime: string)
    requires 0.0 <= random < 1.0
    requires forall k, j :: 0 <= k < RuleCount && 0 <= j < |SplitLines(code)| ==> !test(k, SplitLines(code)[j])
    ensures var r := CodeReport(code, test, random, digest, scanTime);
            r.securityLevel == HIGH && r.riskLevel == LOW && r.threats == 0 && r.warnings == 0 &&
            r.securityScore >= 80 && r.detailedSuggestions == CodeSuggestions[..2]
  {
    var lines := SplitLines(code);
    var hits := Hits(RuleCount, lines, test);
    if hits != [] {
      HitsMembership(RuleCount, lines, test, hits[0].pattern, hits[0].lineIndex);
      assert false;
    }
    assert Severities(Findings(code, test), FindingSeverity) == [];
  }

  /** `analyzeCode`: scan, count, classify, score and build the report. */
  method AnalyzeCode(code: string, test: TextTest, random: real, digest: seq<FileScan.Byte>, scanTime: string)
    returns (r: CodeAnalysisResult)
    requires 0.0 <= random < 1.0
    ensures r == CodeReport(code, test, random, digest, scanTime)
  {
    var found := DetectCodeVulnerabilities(code, test);
    var threats := Count(Severities(found, FindingSeverity), HIGH);
    var warnings := Count(Severities(found, FindingSeverity), MEDIUM);
    var verdict := ClassifyCode(threats, warnings);
    var securityScore := CodeSecurityScore(verdict.securityLevel, random);
    var suggestions := GenerateCodeSuggestions(|found|);
    r := CodeAnalysisResult(
      verdict.securityLevel, verdict.riskLevel, threats, warnings,
      Titles(found), Descriptions(suggestions),
      FileScan.FileInfo("User Code", Utf8Size(code), "text/plain", FileScan.RenderHash(digest), scanTime),
      LinesOfCode(code), CodeComplexity(code), securityScore,
      DetectLanguage(code), found, suggestions);
  }
}
