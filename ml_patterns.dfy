/** The pattern side of the ML malware analysis: weighted signature matches,
    anomaly indicators, and the weighted combination of the three signals. */
module MLPatterns {
  import opened Text
  import opened Numeric
  import opened Patterns
  import FileScan

  // ---------------------------------------------------------------------------
  // Advanced malware signatures

  /** Weights of the eight advanced signatures (process injection, keylogging,
      crypto theft, ransomware, botnet, DDoS, exfiltration, financial data). */
  const SignatureWeights: seq<real> := [0.9, 0.8, 0.7, 0.95, 0.85, 0.75, 0.8, 0.9]

  const SignatureThreats: seq<string> := [
    "Process injection detected",
    "Keylogging capability detected",
    "Cryptocurrency mining/theft detected",
    "Ransomware behavior detected",
    "Botnet/C2 communication detected",
    "DDoS capability detected",
    "Data exfiltration detected",
    "Financial data harvesting detected"
  ]

  const SignatureCount := 8

  /** The ML analysis's executable extensions: the file scan's five and `.com`. */
  const ExecutableExtensions: seq<string> := [".exe", ".scr", ".bat", ".cmd", ".pif", ".com"]

  const ExecutableThreat := "Suspicious executable file type"

  /** What `detectMalwarePatterns` returns. */
  datatype PatternVerdict = PatternVerdict(score: real, confidence: real, threats: seq<string>)

  /** The raw signature score: weight times match count per signature, plus 0.3
      for an executable extension. */
  function MalwareRaw(content: string, filename: string, count: TextCount): (raw: real)
    ensures raw >= 0.0
  {
    WeightedCountMonotone(SignatureWeights, content, count, content, count, SignatureCount);
    WeightedCount(SignatureWeights, content, count, SignatureCount)
      + (if FileScan.HasExtension(filename, ExecutableExtensions) then 0.3 else 0.0)
  }

  /** The total number of signature matches. */
  function MatchCount(content: string, count: TextCount): (n: nat) {
    MatchTotal(content, count, SignatureCount)
  }

  /** The verdict `detectMalwarePatterns` reaches on `content` named `filename`. */
  function MalwarePatterns(content: string, filename: string, count: TextCount): (v: PatternVerdict)
    ensures 0.0 <= v.score <= 1.0 && 0.0 <= v.confidence <= 1.0
  {
    PatternVerdict(
      MinReal(MalwareRaw(content, filename, count) / 3.0, 1.0),
      MinReal(MatchCount(content, count) as real * 0.2, 1.0),
      Selected(SignatureThreats, Matched(SignatureCount, content, count))
        + (if FileScan.HasExtension(filename, ExecutableExtensions) then [ExecutableThreat] else []))
  }

  /** The `forEach` over the signatures in `detectMalwarePatterns`, for any
      catalog of weights and threats: for each signature that matches, add its
      weight per match to the score and the matches to the count, and report its threat. */
  method ScanSignatures(weights: seq<real>, labels: seq<string>, content: string, count: TextCount)
    returns (totalScore: real, threatCount: nat, threats: seq<string>)
    requires |weights| == |labels|
    ensures totalScore == WeightedCount(weights, content, count, |labels|)
    ensures threatCount == MatchTotal(content, count, |labels|)
    ensures threats == Selected(labels, Matched(|labels|, content, count))
  {
    ghost var flags := Matched(|labels|, content, count);
    totalScore, threatCount, threats := 0.0, 0, [];
    for i := 0 to |labels|
      invariant totalScore == WeightedCount(weights, content, count, i)
      invariant threatCount == MatchTotal(content, count, i)
      invariant threats == Selected(labels[..i], flags[..i])
    {
      var matches := count(i, content);
      SelectedStep(labels, flags, i);
      if matches > 0 {
        totalScore := totalScore + weights[i] * matches as real;
        threatCount := threatCount + matches;
        threats := threats + [labels[i]];
      }
    }
    assert labels[..|labels|] == labels && flags[..|labels|] == flags;
  }

  /** `detectMalwarePatterns`: score the signatures, then add 0.3 and a threat
      for an executable extension, and normalise. */
  method DetectMalwarePatterns(content: string, filename: string, count: TextCount)
    returns (verdict: PatternVerdict)
    ensures verdict == MalwarePatterns(content, filename, count)
  {
    var totalScore, threatCount, threats := ScanSignatures(SignatureWeights, SignatureThreats, content, count);
    if FileScan.HasExtension(filename, ExecutableExtensions) {
      totalScore := totalScore + 0.3;
      threats := threats + [ExecutableThreat];
    }
    verdict := PatternVerdict(MinReal(totalScore / 3.0, 1.0), MinReal(threatCount as real * 0.2, 1.0), threats);
  }

  lemma {:induction false} SignatureThreatsDistinct()
    ensures forall i, j :: 0 <= i < j < |SignatureThreats| ==> SignatureThreats[i] != SignatureThreats[j]
    ensures ExecutableThreat !in SignatureThreats
  {
    assert |ExecutableThreat| == 31;
    assert |SignatureThreats[0]| == 26 && |SignatureThreats[1]| == 30;
    assert |SignatureThreats[2]| == 36 && |SignatureThreats[3]| == 28;
    assert |SignatureThreats[4]| == 32 && |SignatureThreats[5]| == 24;
    assert |SignatureThreats[6]| == 26 && |SignatureThreats[7]| == 34;
    assert SignatureThreats[0][0] == 'P' && SignatureThreats[6][0] == 'D';
  }

  /** A signature's threat is reported exactly when the signature matches, none
      twice, and the extension threat comes last exactly for executables. */
  lemma {:induction false} MalwareThreats(content: string, filename: string, count: TextCount, k: nat)
    requires k < SignatureCount
    ensures var threats := MalwarePatterns(content, filename, count).threats;
            (SignatureThreats[k] in threats <==> count(k, content) > 0) &&
            (ExecutableThreat in threats <==> FileScan.HasExtension(filename, ExecutableExtensions)) &&
            (forall i, j :: 0 <= i < j < |threats| ==> threats[i] != threats[j])
  {
    var flags := Matched(SignatureCount, content, count);
    var selected := Selected(SignatureThreats, flags);
    var tail: seq<string> := if FileScan.HasExtension(filename, ExecutableExtensions) then [ExecutableThreat] else [];
    SignatureThreatsDistinct();
    SelectedMembership(SignatureThreats, flags, k);
    SelectedDistinct(SignatureThreats, flags);
    SelectedAtIndices(SignatureThreats, flags);
    assert ExecutableThreat !in selected;
    var threats := selected + tail;
    forall i, j | 0 <= i < j < |threats| ensures threats[i] != threats[j] {
      if j >= |selected| {
        assert threats[j] == ExecutableThreat;
        assert threats[i] in selected;
      }
    }
  }

  /** Five matches in all already give full confidence. */
  lemma {:induction false} ConfidenceSaturates(content: string, filename: string, count: TextCount)
    requires MatchCount(content, count) >= 5
    ensures MalwarePatterns(content, filename, count).confidence == 1.0
  {
  }

  /** `stem + ".com"` in lower case ends in `.com`. */
  lemma {:induction false} LoweredComName(stem: string)
    ensures ToLower(stem + ".com") == ToLower(stem) + ".com"
  {
    var dotCom := ToLower(".com");
    assert dotCom[0] == '.' && dotCom[1] == 'c' && dotCom[2] == 'o' && dotCom[3] == 'm';
    ToLowerAppend(stem, ".com");
  }

  /** The ML analysis treats a `.com` file as an executable. */
  lemma {:induction false} ComIsExecutable(stem: string)
    ensures FileScan.HasExtension(stem + ".com", ExecutableExtensions)
  {
    LoweredComName(stem);
    var lowered := ToLower(stem + ".com");
    assert lowered[|lowered| - 4..] == ".com";
    assert EndsWith(lowered, ExecutableExtensions[5]);
  }

  /** The file scan's extension list lacks `.com`, so it does not. */
  lemma {:induction false} ComIsNotSuspiciousToFileScan(stem: string)
    ensures !FileScan.HasExtension(stem + ".com", FileScan.SuspiciousExtensions)
  {
    LoweredComName(stem);
    var lowered := ToLower(stem + ".com");
    assert lowered[|lowered| - 1] == 'm';
    forall i | 0 <= i < |FileScan.SuspiciousExtensions|
      ensures !EndsWith(lowered, FileScan.SuspiciousExtensions[i])
    {
      var ext := FileScan.SuspiciousExtensions[i];
      assert |ext| == 4 && ext[3] != 'm';
      EndsWithLastChar(lowered, ext);
    }
  }

  // ---------------------------------------------------------------------------
  // Anomaly indicators

  /** Weights of the six anomaly indicators (hex escapes, base64, dynamic code,
      registry calls, file calls, dynamic library loading). */
  const AnomalyWeights: seq<real> := [0.6, 0.4, 0.7, 0.8, 0.5, 0.9]

  const AnomalyNames: seq<string> := [
    "Hex encoding obfuscation",
    "Base64 encoding detected",
    "Dynamic code execution",
    "Registry manipulation",
    "File system manipulation",
    "Dynamic library loading"
  ]

  const AnomalyCount := 6

  /** The threat reported for the indicator `name`. */
  function AnomalyThreat(name: string): string {
    "Anomaly detected: " + name
  }

  /** The threat quotes its indicator's name after the fixed prefix, so distinct
      indicators give distinct threats. */
  lemma {:induction false} AnomalyThreatNamesIndicator(name: string, name': string)
    ensures |AnomalyThreat(name)| == |name| + 18 && AnomalyThreat(name)[18..] == name
    ensures AnomalyThreat(name) == AnomalyThreat(name') ==> name == name'
  {
    assert AnomalyThreat(name)[18..] == name;
    assert AnomalyThreat(name')[18..] == name';
  }

  /** The threat reported beside each indicator name. */
  function AnomalyThreats(names: seq<string>): seq<string>
  {
    seq(|names|, k requires 0 <= k < |names| => AnomalyThreat(names[k]))
  }

  const EntropyPattern := "High entropy content (possible encryption/packing)"
  const EntropyThreat := "High entropy content detected - possible packed/encrypted malware"

  /** What `detectAnomalies` returns. */
  datatype AnomalyVerdict = AnomalyVerdict(score: real, isAnomaly: bool, patterns: seq<string>, threats: seq<string>)

  /** The raw anomaly score: weight times match count per indicator, plus 0.8
      for an entropy above 7 bits per character. */
  function AnomalyRaw(content: string, count: TextCount, entropy: real): (raw: real)
    ensures raw >= 0.0
  {
    WeightedCountMonotone(AnomalyWeights, content, count, content, count, AnomalyCount);
    WeightedCount(AnomalyWeights, content, count, AnomalyCount) + (if entropy > 7.0 then 0.8 else 0.0)
  }

  /** The verdict `detectAnomalies` reaches on `content` whose entropy is `entropy`. */
  function Anomalies(content: string, count: TextCount, entropy: real): (v: AnomalyVerdict)
    ensures 0.0 <= v.score <= 1.0
    ensures v.isAnomaly <==> AnomalyRaw(content, count, entropy) > 1.0
  {
    var flags := Matched(AnomalyCount, content, count);
    var high := entropy > 7.0;
    AnomalyVerdict(
      MinReal(AnomalyRaw(content, count, entropy) / 5.0, 1.0),
      AnomalyRaw(content, count, entropy) > 1.0,
      Selected(AnomalyNames, flags) + (if high then [EntropyPattern] else []),
      AnomalyThreats(Selected(AnomalyNames, flags)) + (if high then [EntropyThreat] else []))
  }

  /** The `forEach` over the indicators in `detectAnomalies`, for any catalog
      of weights and names: for each indicator that matches, add its weight per
      match and report its name and its threat. */
  method ScanIndicators(weights: seq<real>, names: seq<string>, content: string, count: TextCount)
    returns (anomalyScore: real, patterns: seq<string>, threats: seq<string>)
    requires |weights| == |names|
    ensures anomalyScore == WeightedCount(weights, content, count, |names|)
    ensures patterns == Selected(names, Matched(|names|, content, count))
    ensures threats == AnomalyThreats(patterns)
  {
    ghost var flags := Matched(|names|, content, count);
    anomalyScore, patterns, threats := 0.0, [], [];
    for i := 0 to |names|
      invariant anomalyScore == WeightedCount(weights, content, count, i)
      invariant patterns == Selected(names[..i], flags[..i])
      invariant threats == AnomalyThreats(patterns)
    {
      var matches := count(i, content);
      SelectedStep(names, flags, i);
      assert WeightedCount(weights, content, count, i + 1) ==
             WeightedCount(weights, content, count, i) + weights[i] * matches as real;
      assert matches == 0 ==> weights[i] * matches as real == 0.0;
      if matches > 0 {
        anomalyScore := anomalyScore + weights[i] * matches as real;
        AnomalyThreatsAppend(patterns, names[i]);
        patterns := patterns + [names[i]];
        threats := threats + [AnomalyThreat(names[i])];
      }
    }
    assert names[..|names|] == names && flags[..|names|] == flags;
  }

  /** One more name adds its threat at the end. */
  lemma {:induction false} AnomalyThreatsAppend(names: seq<string>, name: string)
    ensures AnomalyThreats(names + [name]) == AnomalyThreats(names) + [AnomalyThreat(name)]
  {
  }

  /** `detectAnomalies`: score the indicators, then add 0.8 with a pattern and a
      threat for high entropy, and normalise. */
  method DetectAnomalies(content: string, count: TextCount, entropy: real) returns (verdict: AnomalyVerdict)
    ensures verdict == Anomalies(content, count, entropy)
  {
    var anomalyScore, patterns, threats := ScanIndicators(AnomalyWeights, AnomalyNames, content, count);
    if entropy > 7.0 {
      anomalyScore := anomalyScore + 0.8;
      patterns := patterns + [EntropyPattern];
      threats := threats + [EntropyThreat];
    }
    verdict := AnomalyVerdict(MinReal(anomalyScore / 5.0, 1.0), anomalyScore > 1.0, patterns, threats);
  }

  /** Every reported pattern comes with exactly one threat, at the same position:
      the indicator's threat, or the entropy threat beside the entropy pattern. */
  lemma {:induction false} AnomalyPatternsMatchThreats(content: string, count: TextCount, entropy: real)
    ensures var v := Anomalies(content, count, entropy);
            |v.patterns| == |v.threats| &&
            forall k :: 0 <= k < |v.patterns| ==>
              v.threats[k] == AnomalyThreat(v.patterns[k]) ||
              (v.patterns[k] == EntropyPattern && v.threats[k] == EntropyThreat)
  {
    var v := Anomalies(content, count, entropy);
    var named := Selected(AnomalyNames, Matched(AnomalyCount, content, count));
    forall k | 0 <= k < |v.patterns|
      ensures v.threats[k] == AnomalyThreat(v.patterns[k]) ||
              (v.patterns[k] == EntropyPattern && v.threats[k] == EntropyThreat)
    {
      if k < |named| {
        assert v.patterns[k] == named[k];
        assert v.threats[k] == AnomalyThreats(named)[k];
      }
    }
  }


  /** More matches of any indicator, or entropy crossing 7, never lower the
      anomaly score and never clear the anomaly flag. */
  lemma {:induction false} AnomalyGrows(content: string, count: TextCount, entropy: real,
                     content': string, count': TextCount, entropy': real)
    requires forall k :: 0 <= k < AnomalyCount ==> count(k, content) <= count'(k, content')
    requires entropy > 7.0 ==> entropy' > 7.0
    ensures var v, v' := Anomalies(content, count, entropy), Anomalies(content', count', entropy');
            v.score <= v'.score && (v.isAnomaly ==> v'.isAnomaly)
  {
    WeightedCountMonotone(AnomalyWeights, content, count, content', count', AnomalyCount);
  }

  /** High entropy with no indicator match stays below the anomaly threshold. */
  lemma {:induction false} EntropyAloneIsNoAnomaly(content: string, count: TextCount, entropy: real)
    requires forall k :: 0 <= k < AnomalyCount ==> count(k, content) == 0
    ensures var v := Anomalies(content, count, entropy);
            !v.isAnomaly && v.score == (if entropy > 7.0 then 0.16 else 0.0)
  {
    WeightedCountOfZeros(AnomalyWeights, content, count, AnomalyCount);
  }

  // ---------------------------------------------------------------------------
  // Combining the three signals

  /** `combineScores`: 0.4 pattern + 0.35 model + 0.25 anomaly. */
  function CombineScores(patternScore: real, mlScore: real, anomalyScore: real): (combined: real)
    ensures 0.0 <= patternScore && 0.0 <= mlScore && 0.0 <= anomalyScore ==> 0.0 <= combined
    ensures patternScore <= 1.0 && mlScore <= 1.0 && anomalyScore <= 1.0 ==> combined <= 1.0
  {
    (patternScore * 0.4) + (mlScore * 0.35) + (anomalyScore * 0.25)
  }

  /** A combined score is malicious above 0.6. */
  predicate Malicious(combined: real) {
    combined > 0.6
  }

  /** No signal in [0, 1] is malicious on its own: at least two must be raised. */
  lemma {:induction false} NoSingleSignalIsMalicious(patternScore: real, mlScore: real, anomalyScore: real)
    requires 0.0 <= patternScore <= 1.0 && 0.0 <= mlScore <= 1.0 && 0.0 <= anomalyScore <= 1.0
    requires Malicious(CombineScores(patternScore, mlScore, anomalyScore))
    ensures (patternScore > 0.0 && mlScore > 0.0) || (patternScore > 0.0 && anomalyScore > 0.0) ||
            (mlScore > 0.0 && anomalyScore > 0.0)
  {
  }
}
