/** The enhanced pipelines: the basic reports combined with the ML analyses
    and the content heuristics, and the ladders that fold them into one verdict. */
module Enhanced {
  import opened Text
  import opened Levels
  import opened Numeric
  import opened Patterns
  import FileScan
  import CodeScan
  import Heuristics
  import MLPatterns
  import MLCode
  import opened MLAnalyzer

  // ---------------------------------------------------------------------------
  // The file verdict

  /** Basic threats plus 2 for a malicious ML verdict. */
  function CombinedThreatLevel(basicThreats: nat, ml: MLAnalysisResult): (n: nat)
    ensures basicThreats <= n <= basicThreats + 2
    ensures n == basicThreats <==> !ml.isMalicious
  {
    basicThreats + (if ml.isMalicious then 2 else 0)
  }

  /** `determineEnhancedSecurityLevel`: three combined threats, or a malicious
      verdict above 0.7 confidence, give LOW security; any combined threat or an
      ML security score below 60 give MEDIUM; otherwise HIGH. */
  function DetermineEnhancedSecurityLevel(basic: FileScan.SecurityAnalysisResult, ml: MLAnalysisResult)
    : (c: Classification)
    ensures Coupled(c)
    ensures c.securityLevel == LOW <==>
            CombinedThreatLevel(basic.threats, ml) >= 3 || (ml.isMalicious && ml.confidence > 0.7)
    ensures c.securityLevel == HIGH <==> basic.threats == 0 && !ml.isMalicious && ml.mlSecurityScore >= 60
  {
    var combinedThreatLevel := CombinedThreatLevel(basic.threats, ml);
    if combinedThreatLevel >= 3 || (ml.isMalicious && ml.confidence > 0.7) then Compromised
    else if combinedThreatLevel >= 1 || ml.mlSecurityScore < 60 then Guarded
    else Secure
  }

  /** A basic threat or a malicious ML verdict rules out HIGH security, and
      three basic threats force LOW whatever the ML analysis says. */
  lemma {:induction false} EnhancedVerdictBounds(basic: FileScan.SecurityAnalysisResult, ml: MLAnalysisResult)
    ensures basic.threats >= 1 || ml.isMalicious ==> DetermineEnhancedSecurityLevel(basic, ml).securityLevel != HIGH
    ensures basic.threats >= 3 ==> DetermineEnhancedSecurityLevel(basic, ml) == Compromised
    ensures basic.threats >= 3 ==> FileScan.ClassifyFile(basic.threats, basic.warnings) == Compromised
  {
  }

  /** The enhanced verdict is never more lenient than the basic one on threats:
      basic LOW stays LOW. */
  lemma {:induction false} EnhancedNeverLowersThreatVerdict(basic: FileScan.SecurityAnalysisResult, ml: MLAnalysisResult)
    ensures FileScan.ClassifyFile(basic.threats, basic.warnings).securityLevel == LOW ==>
            DetermineEnhancedSecurityLevel(basic, ml).securityLevel == LOW
  {
  }

  /** Read with the as-written ML score, which grows with the threat, the ladder
      gives HIGH only when the combined threat score lies in [0.595, 0.6]: a
      clean file is never HIGH. */
  lemma {:induction false} AsWrittenHighOnlyNearThreshold(basic: FileScan.SecurityAnalysisResult, ml: MLAnalysisResult, combined: real)
    requires ml.isMalicious == MLPatterns.Malicious(combined)
    requires ml.mlSecurityScore == MlSecurityScoreAsWritten(combined)
    ensures DetermineEnhancedSecurityLevel(basic, ml).securityLevel == HIGH ==> 0.595 <= combined <= 0.6
    ensures combined == 0.0 ==> DetermineEnhancedSecurityLevel(basic, ml).securityLevel != HIGH
  {
  }

  /** Read with the security score, a file without basic threats whose combined
      threat score is at most 0.4 is HIGH. */
  lemma {:induction false} LowThreatIsHigh(basic: FileScan.SecurityAnalysisResult, ml: MLAnalysisResult, combined: real)
    requires ml.isMalicious == MLPatterns.Malicious(combined)
    requires ml.mlSecurityScore == MlSecurityScore(combined)
    requires basic.threats == 0 && combined <= 0.4
    ensures DetermineEnhancedSecurityLevel(basic, ml) == Secure
  {
  }

  // ---------------------------------------------------------------------------
  // The code verdict

  /** `determineEnhancedCodeSecurityLevel`: HIGH risk or a score below 50 give
      LOW security; MEDIUM risk or a score below 70 give MEDIUM; otherwise HIGH.
      The basic code report is not consulted. */
  function DetermineEnhancedCodeSecurityLevel(basic: CodeScan.CodeAnalysisResult, quality: MLCode.CodeQualityAnalysis)
    : (c: Classification)
    ensures Coupled(c)
    ensures c.securityLevel == LOW <==> quality.vulnerabilityRisk == HIGH || quality.securityScore < 50
    ensures c.securityLevel == HIGH <==> quality.vulnerabilityRisk.LOW? && quality.securityScore >= 70
  {
    if quality.vulnerabilityRisk == HIGH || quality.securityScore < 50 then Compromised
    else if quality.vulnerabilityRisk == MEDIUM || quality.securityScore < 70 then Guarded
    else Secure
  }

  /** Two HIGH findings in the advanced scan force LOW security, whatever the metrics. */
  lemma {:induction false} TwoHighFindingsForceLow(basic: CodeScan.CodeAnalysisResult, code: string, test: TextTest,
                                complexity: real, maintainability: real)
    requires Count(Severities(MLCode.AdvancedFindings(code, test), MLCode.VulnerabilitySeverity), HIGH) >= 2
    ensures DetermineEnhancedCodeSecurityLevel(basic, MLCode.CodeQuality(code, test, complexity, maintainability))
            == Compromised
  {
  }

  /** Code on which no advanced rule fires, of complexity at most 50, gets HIGH security. */
  lemma {:induction false} CleanCodeIsHigh(basic: CodeScan.CodeAnalysisResult, code: string, test: TextTest,
                        complexity: real, maintainability: real)
    requires forall k, j :: 0 <= k < MLCode.AdvancedRuleCount && 0 <= j < |SplitLines(code)| ==>
               !test(k, SplitLines(code)[j])
    requires complexity <= 50.0
    ensures DetermineEnhancedCodeSecurityLevel(basic, MLCode.CodeQuality(code, test, complexity, maintainability))
            == Secure
  {
    MLCode.CleanCodeScoresFull(code, test, complexity, maintainability);
  }

  // ---------------------------------------------------------------------------
  // The enhanced file report

  /** `Math.round(entropy * 10) / 10`: the entropy to one decimal. */
  function EntropyScore(entropy: real): (score: real)
    ensures entropy - 0.05 < score <= entropy + 0.05
  {
    Round(entropy * 10.0) as real / 10.0
  }

  datatype AdvancedMetrics = AdvancedMetrics(entropyScore: real, obfuscationLevel: Level, behaviorAnalysis: seq<string>)

  /** The basic report with the enhanced levels and threat count laid over it,
      the ML analysis, and the content heuristics. */
  datatype EnhancedSecurityAnalysisResult = EnhancedSecurityAnalysisResult(
    report: FileScan.SecurityAnalysisResult,
    mlAnalysis: MLAnalysisResult,
    advancedMetrics: AdvancedMetrics)

  /** The report `analyzeFileEnhanced` assembles from the basic report, the ML
      analysis, the entropy and the heuristics' patterns (`obfuscation` counts the
      obfuscation indicators' matches, `behavior` tests the behaviour patterns). */
  function EnhancedFileReport(basic: FileScan.SecurityAnalysisResult, ml: MLAnalysisResult, content: string,
                              entropy: real, obfuscation: TextCount, behavior: TextTest)
    : (r: EnhancedSecurityAnalysisResult)
  {
    var verdict := DetermineEnhancedSecurityLevel(basic, ml);
    EnhancedSecurityAnalysisResult(
      basic.(securityLevel := verdict.securityLevel, riskLevel := verdict.riskLevel,
             threats := CombinedThreatLevel(basic.threats, ml)),
      ml,
      AdvancedMetrics(
        EntropyScore(entropy),
        Heuristics.ObfuscationLevel(Heuristics.ObfuscationScore(content, obfuscation)),
        Selected(Heuristics.BehaviorLabels, Flags(5, content, behavior))))
  }

  /** The enhanced file report pairs its levels, adds 2 threats exactly for a
      malicious verdict, keeps the basic warnings and lists, and never reports
      HIGH security while it reports a threat. */
  lemma {:induction false} EnhancedFileReportShape(basic: FileScan.SecurityAnalysisResult, ml: MLAnalysisResult, content: string,
                                entropy: real, obfuscation: TextCount, behavior: TextTest)
    ensures var r := EnhancedFileReport(basic, ml, content, entropy, obfuscation, behavior).report;
            Coupled(Classification(r.securityLevel, r.riskLevel)) &&
            r.threats == basic.threats + (if ml.isMalicious then 2 else 0) &&
            r.warnings == basic.warnings && r.vulnerabilities == basic.vulnerabilities &&
            r.suggestions == basic.suggestions && r.fileInfo == basic.fileInfo &&
            (r.threats >= 1 ==> r.securityLevel != HIGH) &&
            (r.threats >= 3 ==> r.securityLevel == LOW)
  {
  }

  /** With the ML security score as `analyzeMalware` reports it, the enhanced
      file report is HIGH only when the ML analysis' combined threat score lies
      in [0.595, 0.6]. */
  lemma {:induction false} EnhancedHighOnlyNearThreshold(basic: FileScan.SecurityAnalysisResult, content: string,
                                                         filename: string, signatures: TextCount, indicators: TextCount,
                                                         entropy: real, reading: MLReading,
                                                         obfuscation: TextCount, behavior: TextTest)
    ensures var ml := MalwareReport(content, filename, signatures, indicators, entropy, reading);
            var combined := MLPatterns.CombineScores(MLPatterns.MalwarePatterns(content, filename, signatures).score,
                                                     reading.score,
                                                     MLPatterns.Anomalies(content, indicators, entropy).score);
            EnhancedFileReport(basic, ml, content, entropy, obfuscation, behavior).report.securityLevel == HIGH ==>
              0.595 <= combined <= 0.6
  {
    var ml := MalwareReport(content, filename, signatures, indicators, entropy, reading);
    var combined := MLPatterns.CombineScores(MLPatterns.MalwarePatterns(content, filename, signatures).score,
                                             reading.score,
                                             MLPatterns.Anomalies(content, indicators, entropy).score);
    AsWrittenHighOnlyNearThreshold(basic, ml, combined);
  }

  /** A quiet file (no signature or indicator match, entropy at most 7, no
      executable extension) analysed without the model scores 0, so the enhanced
      report is never HIGH: it is MEDIUM, or LOW with three basic threats. */
  lemma {:induction false} QuietFileIsNeverHigh(basic: FileScan.SecurityAnalysisResult, content: string,
                                                filename: string, signatures: TextCount, indicators: TextCount,
                                                entropy: real, obfuscation: TextCount, behavior: TextTest)
    requires forall k :: 0 <= k < MLPatterns.SignatureCount ==> signatures(k, content) == 0
    requires forall k :: 0 <= k < MLPatterns.AnomalyCount ==> indicators(k, content) == 0
    requires entropy <= 7.0 && !FileScan.HasExtension(filename, MLPatterns.ExecutableExtensions)
    ensures var ml := MalwareReport(content, filename, signatures, indicators, entropy, MLReading(0.0, 0.0));
            var r := EnhancedFileReport(basic, ml, content, entropy, obfuscation, behavior).report;
            r.securityLevel == (if basic.threats >= 3 then LOW else MEDIUM)
  {
    QuietFileScoresZero(content, filename, signatures, indicators, entropy);
  }

  /** `analyzeFileEnhanced`: the basic analysis, the ML analysis on the same
      content, the heuristics, and the combined verdict. */
  method AnalyzeFileEnhanced(analyzer: MLSecurityAnalyzer, file: FileScan.UploadedFile,
                             digest: seq<FileScan.Byte>, scanTime: string,
                             signatures: TextCount, indicators: TextCount, entropy: real,
                             obfuscation: TextCount, behavior: TextTest,
                             gpuLoads: bool, cpuLoads: bool, outcome: ClassifierOutcome)
    returns (r: EnhancedSecurityAnalysisResult)
    requires analyzer.Valid()
    modifies analyzer
    ensures analyzer.Valid()
    ensures analyzer.textClassifier == InitializedBackend(old(analyzer.textClassifier), gpuLoads, cpuLoads)
    ensures r == EnhancedFileReport(
                   FileScan.FileReport(file, FileScan.ThreatCount(file.content, file.name),
                                      FileScan.WarningCount(file.content), digest, scanTime),
                   MalwareReport(file.content, file.name, signatures, indicators, entropy,
                                 ModelReading(analyzer.initialized, outcome)),
                   file.content, entropy, obfuscation, behavior)
  {
    var basicResult := FileScan.AnalyzeFile(file, digest, scanTime);
    var mlAnalysis := analyzer.AnalyzeMalware(file.content, file.name, signatures, indicators, entropy,
                                              gpuLoads, cpuLoads, outcome);
    r := CombineFileAnalyses(basicResult, mlAnalysis, file.content, entropy, obfuscation, behavior);
  }

  /** The rest of `analyzeFileEnhanced` once the two analyses are in: the
      heuristics and the combined verdict laid over the basic report. */
  method CombineFileAnalyses(basicResult: FileScan.SecurityAnalysisResult, mlAnalysis: MLAnalysisResult,
                             content: string, entropy: real, obfuscation: TextCount, behavior: TextTest)
    returns (r: EnhancedSecurityAnalysisResult)
    ensures r == EnhancedFileReport(basicResult, mlAnalysis, content, entropy, obfuscation, behavior)
  {
    var entropyScore := EntropyScore(entropy);
    var obfuscationLevel := Heuristics.DetermineObfuscationLevel(content, obfuscation);
    var behaviorAnalysis := Heuristics.AnalyzeBehaviorPatterns(content, behavior);
    var enhanced := DetermineEnhancedSecurityLevel(basicResult, mlAnalysis);
    r := EnhancedSecurityAnalysisResult(
      basicResult.(securityLevel := enhanced.securityLevel, riskLevel := enhanced.riskLevel,
                   threats := basicResult.threats + (if mlAnalysis.isMalicious then 2 else 0)),
      mlAnalysis,
      AdvancedMetrics(entropyScore, obfuscationLevel, behaviorAnalysis));
  }

  // ---------------------------------------------------------------------------
  // The enhanced code report

  /** The basic code report with the enhanced levels and the ML security score
      laid over it, the ML code quality and the performance impact. */
  datatype EnhancedCodeAnalysisResult = EnhancedCodeAnalysisResult(
    report: CodeScan.CodeAnalysisResult,
    mlCodeQuality: MLCode.CodeQualityAnalysis,
    performanceImpact: Heuristics.PerformanceImpact)

  function EnhancedCodeReport(basic: CodeScan.CodeAnalysisResult, quality: MLCode.CodeQualityAnalysis,
                              impact: Heuristics.PerformanceImpact)
    : (r: EnhancedCodeAnalysisResult)
  {
    var verdict := DetermineEnhancedCodeSecurityLevel(basic, quality);
    EnhancedCodeAnalysisResult(
      basic.(securityLevel := verdict.securityLevel, riskLevel := verdict.riskLevel,
             securityScore := quality.securityScore),
      quality,
      impact)
  }

  /** The enhanced code report pairs its levels, reports the ML security score in
      [0, 100] and keeps the basic counts and lists. */
  lemma {:induction false} EnhancedCodeReportShape(basic: CodeScan.CodeAnalysisResult, code: string, test: TextTest,
                                complexity: real, maintainability: real, impact: Heuristics.PerformanceImpact)
    ensures var quality := MLCode.CodeQuality(code, test, complexity, maintainability);
            var r := EnhancedCodeReport(basic, quality, impact).report;
            Coupled(Classification(r.securityLevel, r.riskLevel)) &&
            0 <= r.securityScore <= 100 &&
            (r.securityScore < 50 ==> r.securityLevel == LOW) &&
            r.threats == basic.threats && r.warnings == basic.warnings &&
            r.detailedVulnerabilities == basic.detailedVulnerabilities
  {
  }

  /** `analyzeCodeEnhanced`: the basic code analysis, the ML code quality, the
      performance impact and the combined verdict. */
  method AnalyzeCodeEnhanced(analyzer: MLSecurityAnalyzer, code: string, test: TextTest, random: real,
                             digest: seq<FileScan.Byte>, scanTime: string,
                             advanced: TextTest, complexity: real, maintainability: real,
                             performance: TextTest, gpuLoads: bool, cpuLoads: bool)
    returns (r: EnhancedCodeAnalysisResult)
    requires 0.0 <= random < 1.0
    requires analyzer.Valid()
    modifies analyzer
    ensures analyzer.Valid()
    ensures analyzer.textClassifier == InitializedBackend(old(analyzer.textClassifier), gpuLoads, cpuLoads)
    ensures r == EnhancedCodeReport(
                   CodeScan.CodeReport(code, test, random, digest, scanTime),
                   MLCode.CodeQuality(code, advanced, complexity, maintainability),
                   Heuristics.PerformanceImpact(
                     100 - Sum(Selected(Heuristics.Deductions, Flags(4, code, performance))),
                     Selected(Heuristics.BottleneckLabels, Flags(4, code, performance))))
  {
    var basicResult := CodeScan.AnalyzeCode(code, test, random, digest, scanTime);
    var mlCodeQuality := analyzer.AnalyzeCodeQuality(code, advanced, complexity, maintainability,
                                                     gpuLoads, cpuLoads);
    var performanceImpact := Heuristics.AnalyzePerformanceImpact(code, performance);
    r := CombineCodeAnalyses(basicResult, mlCodeQuality, performanceImpact);
  }

  /** The rest of `analyzeCodeEnhanced` once the analyses are in: the combined
      verdict and the ML security score laid over the basic report. */
  method CombineCodeAnalyses(basicResult: CodeScan.CodeAnalysisResult, mlCodeQuality: MLCode.CodeQualityAnalysis,
                             performanceImpact: Heuristics.PerformanceImpact)
    returns (r: EnhancedCodeAnalysisResult)
    ensures r == EnhancedCodeReport(basicResult, mlCodeQuality, performanceImpact)
  {
    var enhanced := DetermineEnhancedCodeSecurityLevel(basicResult, mlCodeQuality);
    r := EnhancedCodeAnalysisResult(
      basicResult.(securityLevel := enhanced.securityLevel, riskLevel := enhanced.riskLevel,
                   securityScore := mlCodeQuality.securityScore),
      mlCodeQuality,
      performanceImpact);
  }
}
