/** The `MLSecurityAnalyzer` object: its lazily loaded text classifier and the
    two analyses that consult it. The classifier is outside the model; its
    loads and its answers are parameters. */
module MLAnalyzer {
  import opened Wrappers
  import opened Levels
  import opened Numeric
  import opened Patterns
  import opened MLPatterns
  import opened MLCode
  import FileScan

  /** Where the classifier was loaded: WebGPU first, the CPU as fallback. */
  datatype Backend = WebGpu | Cpu

  /** What one call of the loaded classifier comes back with: a label with a
      score, some other shape, or an exception. */
  datatype ClassifierOutcome = Labelled(score: real) | Unshaped | Thrown

  /** The `mlScore` and `confidence` the analysis goes on with. */
  datatype MLReading = MLReading(score: real, confidence: real)

  /** The classifier backend after `initialize`: a loaded one is kept; otherwise
      WebGPU if it loads, else the CPU if it loads, else none. */
  function InitializedBackend(current: Option<Backend>, gpuLoads: bool, cpuLoads: bool): (next: Option<Backend>)
  {
    if current.Some? then current
    else if gpuLoads then Some(WebGpu)
    else if cpuLoads then Some(Cpu)
    else None
  }

  /** Once a backend is loaded, further initialisation changes nothing; and the
      backend is WebGPU exactly when it was already, or nothing was loaded and WebGPU loads. */
  lemma {:induction false} InitializeSettles(current: Option<Backend>, gpuLoads: bool, cpuLoads: bool, gpuLoads': bool, cpuLoads': bool)
    ensures var next := InitializedBackend(current, gpuLoads, cpuLoads);
            next.Some? ==> InitializedBackend(next, gpuLoads', cpuLoads') == next
    ensures InitializedBackend(current, gpuLoads, cpuLoads) == Some(WebGpu) <==>
            current == Some(WebGpu) || (current == None && gpuLoads)
    ensures InitializedBackend(current, gpuLoads, cpuLoads) == None <==>
            current == None && !gpuLoads && !cpuLoads
  {
  }

  /** The model's contribution: the classifier's score as both score and
      confidence when it is loaded and answers with a label; 0 and 0 when it is
      not loaded, answers in another shape or throws. */
  function ModelReading(loaded: bool, outcome: ClassifierOutcome): (m: MLReading)
    ensures m.score == m.confidence
    ensures !loaded || !outcome.Labelled? ==> m == MLReading(0.0, 0.0)
    ensures loaded && outcome.Labelled? ==> m.score == outcome.score
  {
    if loaded && outcome.Labelled? then MLReading(outcome.score, outcome.score) else MLReading(0.0, 0.0)
  }

  datatype AnomalyDetection = AnomalyDetection(isAnomaly: bool, anomalyScore: real, suspiciousPatterns: seq<string>)

  datatype MLAnalysisResult = MLAnalysisResult(
    isMalicious: bool,
    confidence: real,
    threats: seq<string>,
    mlSecurityScore: int,
    anomalyDetection: AnomalyDetection)

  // ---------------------------------------------------------------------------
  // The ML security score

  /** `Math.round(combinedScore * 100)`, as the analyzer computes it: it grows
      with the threat, so a clean file scores 0 and a malicious one at least 60. */
  function MlSecurityScoreAsWritten(combined: real): (n: int)
    ensures 0.0 <= combined <= 1.0 ==> 0 <= n <= 100
    ensures Malicious(combined) ==> n >= 60
  {
    Round(combined * 100.0)
  }

  /** The security score the enhanced ladder reads (`< 60` is suspicious): the
      share of the combined threat score that is absent, so a clean file scores 100. */
  function MlSecurityScore(combined: real): (n: int)
    ensures 0.0 <= combined <= 1.0 ==> 0 <= n <= 100
    ensures Malicious(combined) ==> n <= 40
  {
    Round((1.0 - combined) * 100.0)
  }

  /** The two scores run in opposite directions: a higher combined threat never
      raises the security score and never lowers the as-written one. */
  lemma {:induction false} MlSecurityScoreOpposesThreat(combined: real, combined': real)
    requires combined <= combined'
    ensures MlSecurityScore(combined') <= MlSecurityScore(combined)
    ensures MlSecurityScoreAsWritten(combined) <= MlSecurityScoreAsWritten(combined')
  {
    RoundMonotone((1.0 - combined') * 100.0, (1.0 - combined) * 100.0);
    RoundMonotone(combined * 100.0, combined' * 100.0);
  }

  /** A file with no threat at all: security score 100, as-written score 0. */
  lemma {:induction false} CleanScores()
    ensures MlSecurityScore(0.0) == 100 && MlSecurityScoreAsWritten(0.0) == 0
  {
    RoundWhole(100);
    RoundWhole(0);
  }

  // ---------------------------------------------------------------------------
  // The malware report

  /** The report `analyzeMalware` assembles for `content` named `filename`, given
      the model's reading: pattern, model and anomaly scores combined, the larger
      confidence, pattern threats then anomaly threats. `signatures` counts the
      matches of the eight signatures, `indicators` those of the six anomaly indicators. */
  function MalwareReport(content: string, filename: string, signatures: TextCount, indicators: TextCount,
                         entropy: real, reading: MLReading)
    : (r: MLAnalysisResult)
    ensures 0.0 <= reading.score <= 1.0 ==> 0 <= r.mlSecurityScore <= 100
    ensures 0.0 <= reading.confidence <= 1.0 ==> 0.0 <= r.confidence <= 1.0
    ensures r.confidence >= reading.confidence && r.confidence >= MalwarePatterns(content, filename, signatures).confidence
    ensures r.isMalicious ==> r.mlSecurityScore >= 60
  {
    var pattern := MalwarePatterns(content, filename, signatures);
    var anomaly := Anomalies(content, indicators, entropy);
    var combined := CombineScores(pattern.score, reading.score, anomaly.score);
    MLAnalysisResult(
      Malicious(combined),
      MaxReal(reading.confidence, pattern.confidence),
      pattern.threats + anomaly.threats,
      MlSecurityScoreAsWritten(combined),
      AnomalyDetection(anomaly.isAnomaly, anomaly.score, anomaly.patterns))
  }

  /** Without the model, only a strong pattern score together with a strong
      anomaly score makes a file malicious. */
  lemma {:induction false} ModelOffNeedsBothSignals(content: string, filename: string, signatures: TextCount, indicators: TextCount,
                                  entropy: real)
    ensures MalwareReport(content, filename, signatures, indicators, entropy, MLReading(0.0, 0.0)).isMalicious ==>
            MalwarePatterns(content, filename, signatures).score > 0.875 &&
            Anomalies(content, indicators, entropy).score > 0.8
  {
  }

  /** A file that matches no signature and no indicator, has entropy of at most
      7 and no executable extension gets an empty, non-malicious report scoring
      0 when the model is off. */
  lemma {:induction false} QuietFileScoresZero(content: string, filename: string, signatures: TextCount, indicators: TextCount,
                            entropy: real)
    requires forall k :: 0 <= k < SignatureCount ==> signatures(k, content) == 0
    requires forall k :: 0 <= k < AnomalyCount ==> indicators(k, content) == 0
    requires entropy <= 7.0 && !FileScan.HasExtension(filename, ExecutableExtensions)
    ensures var r := MalwareReport(content, filename, signatures, indicators, entropy, MLReading(0.0, 0.0));
            !r.isMalicious && r.threats == [] && r.mlSecurityScore == 0 && r.confidence == 0.0 &&
            !r.anomalyDetection.isAnomaly && r.anomalyDetection.suspiciousPatterns == []
  {
    WeightedCountOfZeros(SignatureWeights, content, signatures, SignatureCount);
    WeightedCountOfZeros(AnomalyWeights, content, indicators, AnomalyCount);
    MatchTotalOfZeros(content, signatures, SignatureCount);
    SelectedNone(SignatureThreats, Matched(SignatureCount, content, signatures));
    SelectedNone(AnomalyNames, Matched(AnomalyCount, content, indicators));
    CleanScores();
  }

  // ---------------------------------------------------------------------------
  // The analyzer object

  class MLSecurityAnalyzer {
    var initialized: bool
    var textClassifier: Option<Backend>

    /** The analyzer counts as initialised exactly when it holds a classifier. */
    ghost predicate Valid()
      reads this
    {
      initialized <==> textClassifier.Some?
    }

    constructor ()
      ensures Valid() && !initialized && textClassifier == None
    {
      initialized := false;
      textClassifier := None;
    }

    /** `initialize`: nothing once initialised; otherwise load on WebGPU, falling
        back to the CPU, and stay uninitialised when both loads fail. */
    method Initialize(gpuLoads: bool, cpuLoads: bool)
      requires Valid()
      modifies this
      ensures Valid()
      ensures textClassifier == InitializedBackend(old(textClassifier), gpuLoads, cpuLoads)
    {
      if initialized {
        return;
      }
      if gpuLoads {
        textClassifier := Some(WebGpu);
      } else if cpuLoads {
        textClassifier := Some(Cpu);
      } else {
        initialized := false;
        return;
      }
      initialized := true;
    }

    /** `analyzeMalware`: initialise, run the pattern and anomaly scans, consult
        the classifier if one is loaded (a throw leaves score and confidence at
        0), and assemble the report. */
    method AnalyzeMalware(content: string, filename: string, signatures: TextCount, indicators: TextCount,
                          entropy: real, gpuLoads: bool, cpuLoads: bool, outcome: ClassifierOutcome)
      returns (r: MLAnalysisResult)
      requires Valid()
      modifies this
      ensures Valid()
      ensures textClassifier == InitializedBackend(old(textClassifier), gpuLoads, cpuLoads)
      ensures r == MalwareReport(content, filename, signatures, indicators, entropy, ModelReading(initialized, outcome))
    {
      Initialize(gpuLoads, cpuLoads);
      var malwarePatterns := DetectMalwarePatterns(content, filename, signatures);
      var anomalyAnalysis := DetectAnomalies(content, indicators, entropy);
      var mlScore := 0.0;
      var confidence := 0.0;
      if initialized && textClassifier.Some? {
        match outcome {
          case Labelled(score) =>
            mlScore, confidence := score, score;
          case Unshaped =>
            mlScore, confidence := 0.0, 0.0;
          case Thrown =>
        }
      }
      var combinedScore := CombineScores(malwarePatterns.score, mlScore, anomalyAnalysis.score);
      r := MLAnalysisResult(
        Malicious(combinedScore),
        MaxReal(confidence, malwarePatterns.confidence),
        malwarePatterns.threats + anomalyAnalysis.threats,
        MlSecurityScoreAsWritten(combinedScore),
        AnomalyDetection(anomalyAnalysis.isAnomaly, anomalyAnalysis.score, anomalyAnalysis.patterns));
    }

    /** `analyzeCodeQuality`: initialise, then score the advanced scan of `code`
        whose metrics are `complexity` and `maintainability`. */
    method AnalyzeCodeQuality(code: string, test: TextTest, complexity: real, maintainability: real,
                              gpuLoads: bool, cpuLoads: bool)
      returns (q: CodeQualityAnalysis)
      requires Valid()
      modifies this
      ensures Valid()
      ensures textClassifier == InitializedBackend(old(textClassifier), gpuLoads, cpuLoads)
      ensures q == CodeQuality(code, test, complexity, maintainability)
    {
      Initialize(gpuLoads, cpuLoads);
      var vulnerabilities := DetectAdvancedVulnerabilities(code, test);
      var securityScore := CalculateSecurityScore(vulnerabilities, complexity);
      var recommendations := GenerateMLRecommendations(vulnerabilities, complexity, maintainability);
      q := CodeQualityAnalysis(
        Round(securityScore),
        Round(maintainability),
        Round(complexity),
        AssessVulnerabilityRisk(vulnerabilities),
        recommendations);
    }
  }
}
