# Security scanner engine — a Dafny model

This project models the detection and scoring engine of a browser-based file and
code security scanner. The engine lives in two TypeScript files:

- `src/utils/securityAnalyzer.ts` holds the signature matchers (`detectThreats`,
  `detectWarnings`, `detectCodeVulnerabilities`). It also holds the tier
  classifiers of `analyzeFile` and `analyzeCode`, the report builders, the
  obfuscation, behaviour and performance heuristics, and the enhanced verdicts
  that merge the basic scan with the ML analysis.
- `src/utils/mlSecurityAnalyzer.ts` holds the `MLSecurityAnalyzer` object. That
  object has a lazily initialised text classifier, weighted malware-signature and
  anomaly scans, score combination, an advanced per-line vulnerability scan, and
  the code-quality score, risk and recommendations.

Modules, in dependency order:

| file | module | what it holds |
|---|---|---|
| `wrappers.dfy` | `Wrappers` | `Option` |
| `levels.dfy` | `Levels` | the `HIGH`/`MEDIUM`/`LOW` levels and the three `(securityLevel, riskLevel)` pairs |
| `numeric.dfy` | `Numeric` | `Math.min`/`max`/`round` |
| `text.dfy` | `Text` | lower-casing, `includes`, `endsWith`, `split('\n')`, `trim`, string lengths |
| `patterns.dfy` | `Patterns` | the per-pattern, per-line scan, flag-driven label lists, weighted match sums, and the `g`-flag `lastIndex` behaviour |
| `file_scan.dfy` | `FileScan` | `detectThreats`, `detectWarnings`, the `analyzeFile` ladder, the vulnerability and suggestion lists, `detectFileType`, the hash rendering |
| `code_scan.dfy` | `CodeScan` | `detectCodeVulnerabilities`, the `analyzeCode` ladder and score bands, the code suggestions, `detectLanguage` |
| `heuristics.dfy` | `Heuristics` | `determineObfuscationLevel`, `analyzeBehaviorPatterns`, `analyzePerformanceImpact` |
| `ml_patterns.dfy` | `MLPatterns` | `detectMalwarePatterns`, `detectAnomalies`, `combineScores` |
| `ml_code.dfy` | `MLCode` | `detectAdvancedVulnerabilities`, `calculateSecurityScore`, `assessVulnerabilityRisk`, `generateMLRecommendations` |
| `ml_analyzer.dfy` | `MLAnalyzer` | class `MLSecurityAnalyzer` (`initialize`, `analyzeMalware`, `analyzeCodeQuality`) |
| `enhanced.dfy` | `Enhanced` | `determineEnhancedSecurityLevel`, `determineEnhancedCodeSecurityLevel`, `analyzeFileEnhanced`, `analyzeCodeEnhanced` |

The loops of the source become methods with loop invariants, each proved equal to
a specification function. Examples are the `forEach` counters of `detectThreats`
and `detectWarnings`, the nested `forEach` of the two line scans, the weighted
accumulations of `detectMalwarePatterns`, `detectAnomalies` and
`determineObfuscationLevel`, and the conditional pushes of the behaviour,
performance and recommendation builders. The properties the source promises
are lemmas about those functions.

The threshold ladders and catalog slices are plain functions. The
`MLSecurityAnalyzer` is a class whose `initialized` and `textClassifier` fields
its methods update. Its invariant `Valid()` says it is initialised exactly when
it holds a classifier.

What lies outside the engine becomes a parameter:

- Regular expressions are oracles. A `TextTest` `(k, text) -> bool` says whether
  pattern `k` matches `text`. A `TextCount` `(k, text) -> nat` is the length of
  `text.match(pattern k)`.
- `Math.random()` is a real `random` in `[0, 1)`.
- The entropy and the code metrics are real inputs.
- The SHA-256 digest is a byte sequence, and the scan time is a string.
- Whether the WebGPU and CPU classifier loads succeed, and what the classifier
  answers, are parameters.

## Model

| member | source | states |
|---|---|---|
| Levels.CoupledIsBidirectional | src/utils/securityAnalyzer.ts:179-188 | being one of the three pairs (LOW,HIGH), (MEDIUM,MEDIUM), (HIGH,LOW) is exactly: security LOW iff risk HIGH, and security HIGH iff risk LOW |
| Levels.CoupledMirrors | src/utils/securityAnalyzer.ts:215-232 | in every emitted pair the risk level mirrors the security level (ranks add up to 2) |
| Levels.CountPartition | src/utils/securityAnalyzer.ts:212-213 | counting HIGH, MEDIUM and LOW entries of a severity list accounts for every entry exactly once |
| Levels.CountZero | src/utils/mlSecurityAnalyzer.ts:350-351 | a severity count is 0 exactly when that severity does not occur |
| Levels.CountSeverities | src/utils/securityAnalyzer.ts:212-213 | the number of `severity` entries equal to a level is the number of items whose severity is that level, as `filter(...).length` counts them |
| Numeric.Round | src/utils/mlSecurityAnalyzer.ts:129-131 | `Math.round` yields the integer within half a unit of its argument (halves round up) |
| Numeric.RoundMonotone | src/utils/mlSecurityAnalyzer.ts:112 | rounding never reverses the order of two scores |
| Numeric.RoundWhole | src/utils/mlSecurityAnalyzer.ts:129 | rounding a whole number gives it back |
| Text.LowerChar | src/utils/securityAnalyzer.ts:274 | lower-casing a character leaves no upper-case ASCII letter and keeps lower-case letters |
| Text.ToLower | src/utils/securityAnalyzer.ts:274 | `toLowerCase` keeps the length and lowers each character in place |
| Text.ToLowerAppend | src/utils/securityAnalyzer.ts:281 | lowering distributes over concatenation, so a lowered name ends in a lowered extension |
| Text.ToLowerIdempotent | src/utils/securityAnalyzer.ts:274 | lowering twice is lowering once |
| Text.ContainsAt | src/utils/securityAnalyzer.ts:274 | `includes` holds as soon as the needle occurs at some position |
| Text.ContainsHasPosition | src/utils/securityAnalyzer.ts:274 | a successful `includes` has a position where the needle occurs (the converse of ContainsAt) |
| Text.ContainsLowered | src/utils/securityAnalyzer.ts:274 | a needle present in the text is still present once both are lowered, so case never hides a signature |
| Text.EndsWithLastChar | src/utils/securityAnalyzer.ts:281 | a name cannot end in an extension whose last character differs from its own |
| Text.Occurrences | src/utils/securityAnalyzer.ts:243 | the count of a character is at most the length, and 0 exactly when it does not occur |
| Text.SplitLines | src/utils/securityAnalyzer.ts:243 | `split('\n')` yields one more piece than there are line breaks |
| Text.SplitLinesHaveNoBreak | src/utils/securityAnalyzer.ts:308 | no piece of `split('\n')` contains a line break |
| Text.JoinSplitLines | src/utils/securityAnalyzer.ts:308 | joining the pieces of `split('\n')` with line breaks gives back the text |
| Text.SplitJoinLines | src/utils/securityAnalyzer.ts:308 | splitting break-free lines joined by breaks gives back the lines |
| Text.SplitFirstLine | src/utils/securityAnalyzer.ts:308 | a break-free first line followed by a break is the first piece of the split |
| Text.SplitLineWithoutBreak | src/utils/securityAnalyzer.ts:308 | text without a break splits into itself alone |
| Text.SplitLinesAfterBreak | src/utils/securityAnalyzer.ts:308 | a leading break contributes an empty first piece |
| Text.SplitLinesAfterChar | src/utils/securityAnalyzer.ts:308 | a leading non-break character joins the first piece |
| Text.JoinExtendedFirstLine | src/utils/securityAnalyzer.ts:308 | prefixing the first line by a character prefixes the joined text by it |
| Text.TrimStart | src/utils/mlSecurityAnalyzer.ts:340 | trimming the front never lengthens the text |
| Text.TrimEnd | src/utils/mlSecurityAnalyzer.ts:340 | trimming the back never lengthens the text |
| Text.TrimStartIsTail | src/utils/mlSecurityAnalyzer.ts:340 | front trimming keeps a suffix of the text that does not start with whitespace |
| Text.TrimEndIsHead | src/utils/mlSecurityAnalyzer.ts:340 | back trimming keeps a prefix of the text that does not end with whitespace |
| Text.TrimStartCutsWhitespace | src/utils/mlSecurityAnalyzer.ts:340 | front trimming removes only whitespace |
| Text.TrimEndCutsWhitespace | src/utils/mlSecurityAnalyzer.ts:340 | back trimming removes only whitespace |
| Text.TrimHasNoOuterWhitespace | src/utils/mlSecurityAnalyzer.ts:340 | a non-empty `trim()` result neither starts nor ends with whitespace |
| Text.TrimIsInnerStretch | src/utils/mlSecurityAnalyzer.ts:340 | `trim()` is a contiguous stretch of the line |
| Text.TrimCutsOnlyWhitespace | src/utils/mlSecurityAnalyzer.ts:340 | everything `trim()` drops, on either side, is whitespace |
| Text.TrimIdempotent | src/utils/mlSecurityAnalyzer.ts:340 | trimming a trimmed line changes nothing |
| Text.Utf16Length | src/utils/securityAnalyzer.ts:244 | `code.length` counts one or two UTF-16 units per character |
| Text.Utf8Size | src/utils/securityAnalyzer.ts:251 | the UTF-8 byte size of a text is between one and four bytes per character |
| Patterns.PatternHits | src/utils/securityAnalyzer.ts:311-320 | the inner loop over lines reports at most one hit per line, all for its pattern and below the line bound |
| Patterns.Hits | src/utils/securityAnalyzer.ts:310-321 | every hit of the nested scan names a pattern of the catalog and a line of the text |
| Patterns.PatternHitsOrdered | src/utils/securityAnalyzer.ts:311-320 | one pattern's hits come in increasing line order |
| Patterns.HitsOrdered | src/utils/securityAnalyzer.ts:310-321 | hits are ordered by pattern index, then by line |
| Patterns.PatternHitsMembership | src/utils/securityAnalyzer.ts:311-320 | line `j` is reported for a pattern iff it lies in the scanned range and the pattern tests positive on it |
| Patterns.HitsMembership | src/utils/securityAnalyzer.ts:310-321 | (pattern k, line j) is reported iff k is in the catalog, j is a line, and pattern k tests positive on line j |
| Patterns.HitsFrom | src/utils/securityAnalyzer.ts:310 | the hits of the later patterns name only those patterns |
| Patterns.HitsSplitAt | src/utils/securityAnalyzer.ts:310 | the scan of all patterns is the scan of the first m patterns followed by that of the rest |
| Patterns.HitsOfOnePattern | src/utils/securityAnalyzer.ts:310-321 | a hit of pattern k is in the full scan iff it is in pattern k's own line scan |
| Patterns.HitsBound | src/utils/securityAnalyzer.ts:310-321 | the nested scan reports at most one hit per pattern and line |
| Patterns.ScanLines | src/utils/securityAnalyzer.ts:308-323 | the nested `forEach` loops push exactly the hits of the specification, in order |
| Patterns.Selected | src/utils/securityAnalyzer.ts:435-455 | a conditional-push list never has more entries than there are labels |
| Patterns.SelectedIndices | src/utils/securityAnalyzer.ts:435-455 | the pushed positions are flagged and strictly increasing |
| Patterns.SelectedAtIndices | src/utils/securityAnalyzer.ts:435-455 | the pushed labels are the labels at the flagged positions, in order |
| Patterns.SelectedIndicesComplete | src/utils/securityAnalyzer.ts:435-455 | every flagged position is pushed |
| Patterns.SelectedMembership | src/utils/securityAnalyzer.ts:435-455 | with distinct labels, a label is reported iff its flag is set |
| Patterns.SelectedDistinct | src/utils/securityAnalyzer.ts:435-455 | distinct labels give a list without duplicates |
| Patterns.SelectedNone | src/utils/securityAnalyzer.ts:435-455 | with no flag set nothing is pushed |
| Patterns.SelectedSameLength | src/utils/securityAnalyzer.ts:462-477 | the bottlenecks and the deductions taken are selected by the same flags and are equally many |
| Patterns.SelectedStep | src/utils/securityAnalyzer.ts:435-455 | each step of the conditional pushes appends its label iff its flag is set |
| Patterns.SelectedSumStep | src/utils/securityAnalyzer.ts:462-477 | each step adds its deduction iff its flag is set |
| Patterns.SelectedOfFour | src/utils/securityAnalyzer.ts:462-477 | four conditional pushes yield the flagged labels in fixed order |
| Patterns.SelectedOfSix | src/utils/mlSecurityAnalyzer.ts:375-393 | six conditional pushes yield the flagged labels in fixed order |
| Patterns.SelectedSumOfFour | src/utils/securityAnalyzer.ts:462-477 | the deductions taken add up to the sum of the flagged amounts |
| Patterns.SelectedTotalIsSum | src/utils/securityAnalyzer.ts:462-477 | the running deduction equals the sum of the deductions selected so far |
| Patterns.SelectedSumBounds | src/utils/securityAnalyzer.ts:459-480 | non-negative deductions taken lie between 0 and their total |
| Patterns.SumAppend | src/utils/securityAnalyzer.ts:459-477 | the total of two runs of deductions is the sum of their totals |
| Patterns.SumStep | src/utils/securityAnalyzer.ts:459-477 | a running total grows by each amount in turn |
| Patterns.WeightedCountMonotone | src/utils/securityAnalyzer.ts:422-428 | with non-negative weights, the weighted match sum is non-negative and grows with every match count |
| Patterns.ScaleMonotone | src/utils/securityAnalyzer.ts:426 | a non-negative weight keeps the order of two match counts |
| Patterns.WeightedCountOfZeros | src/utils/securityAnalyzer.ts:422-428 | with no matches the weighted sum is 0 |
| Patterns.MatchTotalOfZeros | src/utils/mlSecurityAnalyzer.ts:155-165 | with no matches the match total is 0 |
| Patterns.GlobalHits | src/utils/securityAnalyzer.ts:311-320 | the lines reported by a `g`-flagged pattern reused with `.test` are scanned lines, in increasing order |
| Patterns.GlobalScanSkipsRepeatedLine | src/utils/securityAnalyzer.ts:312 | as written: a line matched to its end leaves `lastIndex` there, so an identical next line is not reported, while the stateless scan reports both |
| Patterns.FindLiteral | src/utils/securityAnalyzer.ts:85 | a literal search from a position ends at or after that position plus the literal, within the text |
| Patterns.RepeatedXssLineReportedOnce | src/utils/securityAnalyzer.ts:85-86 | as written: two consecutive `innerHTML = input` lines give one XSS finding instead of two |
| FileScan.PresentCount | src/utils/securityAnalyzer.ts:273-277 | each catalog entry adds at most 1, however often it occurs |
| FileScan.PresentCountExtremes | src/utils/securityAnalyzer.ts:273-277 | the count is 0 iff no entry occurs, and the full catalog size iff every entry occurs |
| FileScan.PresentCountZero | src/utils/securityAnalyzer.ts:273-277 | the presence count is 0 iff no lowered entry occurs in the lowered text |
| FileScan.PresentCountFull | src/utils/securityAnalyzer.ts:273-277 | the presence count is the catalog size iff every lowered entry occurs |
| FileScan.PresentEntryCounts | src/utils/securityAnalyzer.ts:273-277 | one present entry makes the count at least 1 |
| FileScan.CountPresent | src/utils/securityAnalyzer.ts:273-277 | the `forEach` counter ends at the presence count of the lowered content |
| FileScan.ThreatCount | src/utils/securityAnalyzer.ts:269-286 | the threat count is at most 8: the seven signatures plus one suspicious extension |
| FileScan.WarningCount | src/utils/securityAnalyzer.ts:288-298 | the warning count is at most 9, one per suspicious pattern |
| FileScan.DetectThreats | src/utils/securityAnalyzer.ts:269-286 | the counter loop over the signatures plus the extension check yields the threat count |
| FileScan.CountThreats | src/utils/securityAnalyzer.ts:269-286 | a signature loop and one extension test give the presence count plus 1 iff the lowered name ends in a listed extension |
| FileScan.DetectWarnings | src/utils/securityAnalyzer.ts:288-298 | the counter loop over the suspicious patterns yields the warning count |
| FileScan.LowerCaseTextUnchanged | src/utils/securityAnalyzer.ts:274 | an all-lower-case signature is its own lowering |
| FileScan.BitcoinIsSignature | src/utils/securityAnalyzer.ts:61 | content mentioning "bitcoin" scores at least one signature |
| FileScan.ExeIsSuspicious | src/utils/securityAnalyzer.ts:280-281 | a name whose lowering ends in `.exe` has a suspicious extension |
| FileScan.ExecutableMentioningBitcoin | src/utils/securityAnalyzer.ts:179-188 | an `.exe` mentioning "bitcoin" has at least 2 threats and is never classified HIGH |
| FileScan.PayloadExeWithBitcoin | src/utils/securityAnalyzer.ts:169-188 | `payload.exe` containing "bitcoin" has at least 2 threats and `analyzeFile` classifies it MEDIUM or LOW |
| FileScan.ClassifyFile | src/utils/securityAnalyzer.ts:179-188 | the file verdict is one of the three pairs; LOW iff threats >= 3; HIGH iff no threat and fewer than 3 warnings |
| FileScan.ClassifyFileMonotone | src/utils/securityAnalyzer.ts:179-188 | more threats or warnings never raise the file's security level |
| FileScan.GenerateVulnerabilities | src/utils/securityAnalyzer.ts:326-340 | the list is the first min(max(n,1),9) catalog entries, so it is never empty |
| FileScan.GenerateVulnerabilitiesGrows | src/utils/securityAnalyzer.ts:339 | more threats give a longer list that extends the shorter one |
| FileScan.GenerateSuggestions | src/utils/securityAnalyzer.ts:342-357 | the list is the first 5, 3 or 2 catalog entries for LOW, MEDIUM, HIGH |
| FileScan.GenerateSuggestionsGrowWithRisk | src/utils/securityAnalyzer.ts:355-356 | a lower security level gives a list that extends the one of a higher level |
| FileScan.LastSegment | src/utils/securityAnalyzer.ts:526 | `split('.').pop()` is the dot-free tail of the name, preceded by a dot unless it is the whole name |
| FileScan.DetectFileType | src/utils/securityAnalyzer.ts:525-540 | the type is one of the ten listed MIME types or `application/octet-stream` |
| FileScan.LastSegmentOfDottedName | src/utils/securityAnalyzer.ts:526 | the extension after the last dot is taken |
| FileScan.FileTypeOfDottedName | src/utils/securityAnalyzer.ts:526-539 | a listed extension in any case maps to its MIME type, and any other extension maps to `application/octet-stream` |
| FileScan.UpperCaseExeIsExecutable | src/utils/securityAnalyzer.ts:526-528 | a name ending in `.EXE` is typed `application/x-executable` |
| FileScan.HexDigit | src/utils/securityAnalyzer.ts:556 | a nibble renders as a lowercase hexadecimal digit |
| FileScan.HexValue | src/utils/securityAnalyzer.ts:556 | reading a hexadecimal digit gives a nibble |
| FileScan.HexByte | src/utils/securityAnalyzer.ts:556 | `toString(16).padStart(2, '0')` renders a byte as two digits |
| FileScan.HexString | src/utils/securityAnalyzer.ts:556 | a digest renders as two digits per byte |
| FileScan.ParseHex | src/utils/securityAnalyzer.ts:556 | reading hex pairs back gives one byte per two digits |
| FileScan.HexByteValue | src/utils/securityAnalyzer.ts:556 | the two digits of a byte read back as that byte |
| FileScan.ParseHexAppend | src/utils/securityAnalyzer.ts:556 | reading back a rendering extended by one byte gives that byte last |
| FileScan.ParseHexString | src/utils/securityAnalyzer.ts:556 | reading back a rendered digest gives the digest |
| FileScan.HexStringPrefix | src/utils/securityAnalyzer.ts:556-557 | the first 2k digits render the first k bytes |
| FileScan.RenderHash | src/utils/securityAnalyzer.ts:557 | the hash reads `SHA256: `, at most 16 digits, then `...` |
| FileScan.RenderedHashShowsFirstEightBytes | src/utils/securityAnalyzer.ts:551-558 | a 32-byte digest renders in 27 characters whose digits read back as its first 8 bytes, and digests agreeing there render alike |
| FileScan.FileReportShape | src/utils/securityAnalyzer.ts:190-207 | the file report has a coupled verdict, 1 to 9 vulnerabilities, 5 suggestions iff LOW and 2 iff HIGH, and keeps a given MIME type |
| FileScan.AnalyzeFile | src/utils/securityAnalyzer.ts:169-208 | `analyzeFile` reports its threat and warning counts, their verdict and the lists built from them, with a coupled verdict |
| CodeScan.FindingOf | src/utils/securityAnalyzer.ts:313-318 | a finding carries its rule's title, a non-LOW severity and the 1-based line |
| CodeScan.RuleOf | src/utils/securityAnalyzer.ts:77-108 | the catalog index of the rule with a finding's title, or the catalog size when none has it |
| CodeScan.RuleOfFindingOf | src/utils/securityAnalyzer.ts:77-108 | the titles are distinct, so a finding names the rule that fired it |
| CodeScan.Findings | src/utils/securityAnalyzer.ts:300-324 | every finding is non-LOW and its line lies in [1, number of lines] |
| CodeScan.DetectCodeVulnerabilities | src/utils/securityAnalyzer.ts:300-324 | the nested loops push exactly the specified findings |
| CodeScan.ReportHits | src/utils/securityAnalyzer.ts:313-318 | the push loop turns each hit into its finding, in order |
| CodeScan.FindingMembership | src/utils/securityAnalyzer.ts:310-321 | rule k is reported on line j+1 iff line j exists and rule k tests positive on it |
| CodeScan.ReportedTitles | src/utils/securityAnalyzer.ts:241 | a rule's title is among the reported vulnerabilities iff the rule tests positive on some line of the code |
| CodeScan.FindingsNameTheirHits | src/utils/securityAnalyzer.ts:310-321 | finding i is the finding of hit i, whose rule and line it names |
| CodeScan.FindingsOrdered | src/utils/securityAnalyzer.ts:310-321 | findings are ordered by catalog index, then line |
| CodeScan.ThreatsAndWarningsCoverFindings | src/utils/securityAnalyzer.ts:212-213 | HIGH findings plus MEDIUM findings are all the findings, since the catalog has no LOW rule |
| CodeScan.ClassifyCode | src/utils/securityAnalyzer.ts:220-232 | the code verdict is one of the three pairs; LOW iff threats >= 2; HIGH iff no threat and fewer than 2 warnings |
| CodeScan.CodeSecurityScore | src/utils/securityAnalyzer.ts:220-232 | for random in [0,1) the score lies in [10,39], [50,79] or [80,99] by level |
| CodeScan.ScoreRevealsLevel | src/utils/securityAnalyzer.ts:220-232 | the score bands are disjoint: the score alone gives back the level |
| CodeScan.GenerateCodeSuggestions | src/utils/securityAnalyzer.ts:359-395 | the list is the first min(max(n,2),6) catalog entries |
| CodeScan.GenerateCodeSuggestionsGrows | src/utils/securityAnalyzer.ts:393-394 | more findings give a list that extends the shorter one |
| CodeScan.DetectLanguage | src/utils/securityAnalyzer.ts:542-549 | the language is one of the six names |
| CodeScan.DetectLanguageCases | src/utils/securityAnalyzer.ts:542-549 | a language is reported iff its markers are present and no earlier language's are; `Auto-detected` iff no markers at all |
| CodeScan.CodeComplexity | src/utils/securityAnalyzer.ts:244 | the complexity is the UTF-16 length in hundreds, capped at 10 |
| CodeScan.LinesOfCode | src/utils/securityAnalyzer.ts:243 | the line count is at least 1 and one more than the line breaks |
| CodeScan.CodeReportShape | src/utils/securityAnalyzer.ts:210-257 | the code report has a coupled verdict, threats + warnings = findings, a score in its level's band, min(max(n,2),6) suggestions, at least one line and complexity at most 10 |
| CodeScan.CleanCodeIsSecure | src/utils/securityAnalyzer.ts:220-234 | code on which no rule fires is HIGH/LOW with no threats or warnings, a score of at least 80, and the first two suggestions |
| CodeScan.AnalyzeCode | src/utils/securityAnalyzer.ts:210-257 | `analyzeCode` assembles exactly the specified report |
| Heuristics.ObfuscationScore | src/utils/securityAnalyzer.ts:415-428 | the weighted obfuscation sum is never negative |
| Heuristics.DetermineObfuscationLevel | src/utils/securityAnalyzer.ts:414-433 | the accumulation loop gives HIGH iff the weighted sum exceeds 10, MEDIUM iff it lies in (5,10], LOW otherwise |
| Heuristics.ObfuscationMonotone | src/utils/securityAnalyzer.ts:414-433 | the level never falls when any indicator's match count grows |
| Heuristics.DynamicCodeAloneRaisesLevel | src/utils/securityAnalyzer.ts:414-433 | with only `eval(` matches, two give MEDIUM and four or more give HIGH |
| Heuristics.AnalyzeBehaviorPatterns | src/utils/securityAnalyzer.ts:435-455 | the pushes yield the labels of the patterns that test positive, in fixed order |
| Heuristics.BehaviorLabelsDistinct | src/utils/securityAnalyzer.ts:439-451 | the five behaviour labels are distinct |
| Heuristics.BehaviorReport | src/utils/securityAnalyzer.ts:435-455 | at most 5 labels, no duplicates, and a label is present iff its pattern tests positive |
| Heuristics.PerformanceSteps | src/utils/securityAnalyzer.ts:462-477 | the bottlenecks are the flagged ones in fixed order, and the deductions taken are 20/30/10/15 for exactly those |
| Heuristics.AnalyzePerformanceImpact | src/utils/securityAnalyzer.ts:457-483 | the score is 100 minus the deductions of exactly the reported bottlenecks, so it lies in [25,100] and the clamp never fires |
| Heuristics.DeductionsTotal | src/utils/securityAnalyzer.ts:464-476 | the four deductions add up to 75, which bounds the performance score below by 25 |
| MLPatterns.MalwareRaw | src/utils/mlSecurityAnalyzer.ts:154-172 | the raw malware total is never negative |
| MLPatterns.MalwarePatterns | src/utils/mlSecurityAnalyzer.ts:174-178 | `score` = min(total/3,1) and `confidence` = min(0.2 x matches,1) both lie in [0,1] |
| MLPatterns.ScanSignatures | src/utils/mlSecurityAnalyzer.ts:154-165 | the signature loop accumulates the weighted sum, the match total and the matched threats in catalog order |
| MLPatterns.DetectMalwarePatterns | src/utils/mlSecurityAnalyzer.ts:137-179 | `detectMalwarePatterns` computes exactly the specified verdict |
| MLPatterns.SignatureThreatsDistinct | src/utils/mlSecurityAnalyzer.ts:140-171 | the eight threat labels and the extension label are distinct |
| MLPatterns.MalwareThreats | src/utils/mlSecurityAnalyzer.ts:158-172 | a signature's threat is listed iff it has a match, the extension threat iff the name ends in one of six extensions, and no threat twice |
| MLPatterns.ConfidenceSaturates | src/utils/mlSecurityAnalyzer.ts:176 | five or more matches give confidence 1 |
| MLPatterns.LoweredComName | src/utils/mlSecurityAnalyzer.ts:169 | lowering a `.com` name keeps the `.com` |
| MLPatterns.ComIsExecutable | src/utils/mlSecurityAnalyzer.ts:168-169 | a `.com` file is an executable to the ML scan |
| MLPatterns.ComIsNotSuspiciousToFileScan | src/utils/securityAnalyzer.ts:280-281 | a `.com` file is not suspicious to `detectThreats`, whose list lacks `.com` |
| MLPatterns.AnomalyThreatNamesIndicator | src/utils/mlSecurityAnalyzer.ts:203 | an anomaly threat quotes its indicator's name, so distinct names give distinct threats |
| MLPatterns.AnomalyThreatsAppend | src/utils/mlSecurityAnalyzer.ts:203 | each push adds the quoted indicator last |
| MLPatterns.AnomalyRaw | src/utils/mlSecurityAnalyzer.ts:194-213 | the raw anomaly total is never negative |
| MLPatterns.Anomalies | src/utils/mlSecurityAnalyzer.ts:215-220 | `score` = min(raw/5,1) lies in [0,1] and `isAnomaly` holds iff raw > 1 |
| MLPatterns.ScanIndicators | src/utils/mlSecurityAnalyzer.ts:194-205 | the indicator loop accumulates the weighted sum, the matched names and one quoting threat per name |
| MLPatterns.DetectAnomalies | src/utils/mlSecurityAnalyzer.ts:181-221 | `detectAnomalies` computes exactly the specified verdict |
| MLPatterns.AnomalyPatternsMatchThreats | src/utils/mlSecurityAnalyzer.ts:198-213 | patterns and threats have equal length, and each threat describes its pattern |
| MLPatterns.AnomalyGrows | src/utils/mlSecurityAnalyzer.ts:198-220 | more matches, or high entropy, never lower the anomaly score or clear the anomaly |
| MLPatterns.EntropyAloneIsNoAnomaly | src/utils/mlSecurityAnalyzer.ts:209-217 | high entropy alone gives score 0.16 and no anomaly |
| MLPatterns.CombineScores | src/utils/mlSecurityAnalyzer.ts:264-267 | non-negative inputs give a non-negative result, and inputs at most 1 give a result at most 1 (weights add up to 1) |
| MLPatterns.NoSingleSignalIsMalicious | src/utils/mlSecurityAnalyzer.ts:264-267 | a combined score above 0.6 needs at least two raised signals |
| MLCode.VulnerabilityOf | src/utils/mlSecurityAnalyzer.ts:337-341 | an entry carries its rule's type and non-LOW severity, `line` = index + 1 and `code` = the trimmed line |
| MLCode.KindIndex | src/utils/mlSecurityAnalyzer.ts:298-329 | the catalog index of the rule of a type, or the catalog size when none has it |
| MLCode.KindIndexOfRule | src/utils/mlSecurityAnalyzer.ts:298-329 | the rule types are distinct |
| MLCode.AdvancedFindings | src/utils/mlSecurityAnalyzer.ts:297-347 | every entry is non-LOW and its line lies in [1, number of lines] |
| MLCode.DetectAdvancedVulnerabilities | src/utils/mlSecurityAnalyzer.ts:297-347 | the nested loops push exactly the specified entries |
| MLCode.ReportHits | src/utils/mlSecurityAnalyzer.ts:337-341 | the push loop turns each hit into its entry, in order |
| MLCode.AdvancedFindingMembership | src/utils/mlSecurityAnalyzer.ts:334-344 | rule k is reported on line j+1 iff rule k tests positive on line j |
| MLCode.AdvancedFindingsNameTheirHits | src/utils/mlSecurityAnalyzer.ts:334-344 | entry i is the entry of hit i, whose rule and line it names |
| MLCode.AdvancedFindingQuotesLine | src/utils/mlSecurityAnalyzer.ts:339-340 | each entry's `code` is the trimmed text of the line it names |
| MLCode.AdvancedFindingsOrdered | src/utils/mlSecurityAnalyzer.ts:334-344 | entries are ordered by pattern index, then line |
| MLCode.SecurityScore | src/utils/mlSecurityAnalyzer.ts:353-358 | the score lies in [0,100] |
| MLCode.CalculateSecurityScore | src/utils/mlSecurityAnalyzer.ts:349-359 | the score of a finding list lies in [0,100] |
| MLCode.HighFindingCosts25 | src/utils/mlSecurityAnalyzer.ts:353-358 | one more HIGH finding lowers the score by 25, down to 0 |
| MLCode.MediumFindingCosts10 | src/utils/mlSecurityAnalyzer.ts:353-358 | one more MEDIUM finding lowers the score by 10, down to 0 |
| MLCode.ComplexityOnlyLowers | src/utils/mlSecurityAnalyzer.ts:356 | the complexity penalty never raises the score, and is 0 up to complexity 50 |
| MLCode.RiskOf | src/utils/mlSecurityAnalyzer.ts:361-368 | HIGH iff highCount >= 2; MEDIUM iff highCount = 1 or (none HIGH and mediumCount >= 3); LOW otherwise |
| MLCode.RiskMonotone | src/utils/mlSecurityAnalyzer.ts:361-368 | more findings never lower the risk |
| MLCode.Kinds | src/utils/mlSecurityAnalyzer.ts:373 | the type set holds the type of every finding |
| MLCode.RecommendationFlags | src/utils/mlSecurityAnalyzer.ts:375-393 | one condition per recommendation |
| MLCode.RecommendationSteps | src/utils/mlSecurityAnalyzer.ts:375-393 | the recommendations are those of the present types, then complexity > 70, then maintainability < 60, in fixed order |
| MLCode.GenerateMLRecommendations | src/utils/mlSecurityAnalyzer.ts:370-396 | the conditional pushes yield exactly the flagged recommendations |
| MLCode.RecommendationTextsDistinct | src/utils/mlSecurityAnalyzer.ts:376-392 | the six recommendation texts are distinct |
| MLCode.RecommendationsReport | src/utils/mlSecurityAnalyzer.ts:370-396 | at most 6 recommendations, no duplicates, and each is present iff its condition holds |
| MLCode.CodeInjectionRecommendsNothing | src/utils/mlSecurityAnalyzer.ts:375-386 | whether `Code Injection` was found changes no recommendation |
| MLCode.KindFound | src/utils/mlSecurityAnalyzer.ts:334-373 | a rule's type is among the findings iff the rule tests positive on some line |
| MLCode.FoundKindFired | src/utils/mlSecurityAnalyzer.ts:334-373 | a type among the findings was fired by its rule on some line |
| MLCode.CodeQuality | src/utils/mlSecurityAnalyzer.ts:128-134 | the reported security score lies in [0,100] |
| MLCode.CleanCodeScoresFull | src/utils/mlSecurityAnalyzer.ts:349-368 | code on which no rule fires, with complexity at most 50, scores 100 with LOW risk |
| MLCode.CleanCodeHasNoFindings | src/utils/mlSecurityAnalyzer.ts:334-346 | code on which no rule fires has no findings |
| MLAnalyzer.InitializeSettles | src/utils/mlSecurityAnalyzer.ts:31-81 | once a classifier is loaded initialisation is a no-op; WebGPU is used iff it loads first; none iff both loads fail |
| MLAnalyzer.ModelReading | src/utils/mlSecurityAnalyzer.ts:90-102 | score and confidence are the classifier's score when it is loaded and answers with a label, and 0 and 0 when it is not loaded, answers otherwise or throws |
| MLAnalyzer.MlSecurityScoreAsWritten | src/utils/mlSecurityAnalyzer.ts:112 | as written: round(combined x 100) lies in [0,100], grows with the threat, is 0 for a clean file and at least 60 for a malicious one |
| MLAnalyzer.MlSecurityScore | src/utils/mlSecurityAnalyzer.ts:112 | corrected, standalone: a safety score in [0,100] that is at most 40 for a malicious file |
| MLAnalyzer.MlSecurityScoreOpposesThreat | src/utils/mlSecurityAnalyzer.ts:105-112 | the corrected score falls as the threat rises, while the as-written one rises with it |
| MLAnalyzer.CleanScores | src/utils/mlSecurityAnalyzer.ts:112 | a threat-free file scores 100 corrected and 0 as written |
| MLAnalyzer.MalwareReport | src/utils/mlSecurityAnalyzer.ts:104-118 | malicious iff the combined score exceeds 0.6; the as-written score in [0,100], at least 60 for a malicious file; confidence = max of the model and pattern confidences within [0,1] |
| MLAnalyzer.ModelOffNeedsBothSignals | src/utils/mlSecurityAnalyzer.ts:90-106 | without the classifier a file is malicious only if its pattern score exceeds 0.875 and its anomaly score 0.8 |
| MLAnalyzer.QuietFileScoresZero | src/utils/mlSecurityAnalyzer.ts:104-118 | a file with no matches, low entropy, no executable extension and no classifier reading is clean, with no threats and an ML security score of 0 |
| MLAnalyzer.MLSecurityAnalyzer.constructor | src/utils/mlSecurityAnalyzer.ts:27-29 | a new analyzer is uninitialised with no classifier |
| MLAnalyzer.MLSecurityAnalyzer.Initialize | src/utils/mlSecurityAnalyzer.ts:31-81 | the classifier becomes the backend of `InitializedBackend`, keeping `initialized` iff a classifier is held |
| MLAnalyzer.MLSecurityAnalyzer.AnalyzeMalware | src/utils/mlSecurityAnalyzer.ts:83-119 | initialises, then returns the malware report, with the as-written score, for the reading the loaded classifier gives |
| MLAnalyzer.MLSecurityAnalyzer.AnalyzeCodeQuality | src/utils/mlSecurityAnalyzer.ts:121-135 | initialises, then returns the code-quality analysis of the code |
| Enhanced.CombinedThreatLevel | src/utils/securityAnalyzer.ts:490 | the combined level adds 2 to the basic threats iff the file is malicious |
| Enhanced.DetermineEnhancedSecurityLevel | src/utils/securityAnalyzer.ts:485-505 | a coupled verdict; LOW iff combined threats >= 3 or malicious with confidence > 0.7; HIGH iff no threat, not malicious and ML score >= 60 |
| Enhanced.EnhancedVerdictBounds | src/utils/securityAnalyzer.ts:490-502 | a basic threat or a malicious verdict rules out HIGH; three basic threats force LOW/HIGH, as in `analyzeFile` |
| Enhanced.EnhancedNeverLowersThreatVerdict | src/utils/securityAnalyzer.ts:490-495 | a file `analyzeFile` rates LOW stays LOW once enhanced |
| Enhanced.AsWrittenHighOnlyNearThreshold | src/utils/securityAnalyzer.ts:496 | as written: the enhanced verdict is HIGH only for combined scores in [0.595, 0.6], so a clean file is never HIGH |
| Enhanced.EnhancedHighOnlyNearThreshold | src/utils/securityAnalyzer.ts:485-505 | the enhanced file verdict built on the malware report is HIGH only when the combined ML score lies in [0.595, 0.6] |
| Enhanced.QuietFileIsNeverHigh | src/utils/securityAnalyzer.ts:490-502 | a file with no ML signal gets ML score 0, so its enhanced verdict is LOW with three basic threats and MEDIUM otherwise, never HIGH |
| Enhanced.LowThreatIsHigh | src/utils/securityAnalyzer.ts:493-502 | corrected: no basic threat and a combined score at most 0.4 give HIGH/LOW |
| Enhanced.DetermineEnhancedCodeSecurityLevel | src/utils/securityAnalyzer.ts:507-523 | a coupled verdict that depends only on the vulnerability risk and the ML score: LOW iff risk HIGH or score < 50; HIGH iff risk LOW and score >= 70 |
| Enhanced.TwoHighFindingsForceLow | src/utils/securityAnalyzer.ts:511-513 | two HIGH advanced findings make the enhanced code verdict LOW/HIGH |
| Enhanced.CleanCodeIsHigh | src/utils/securityAnalyzer.ts:511-520 | code on which no advanced rule fires, with complexity at most 50, is HIGH/LOW |
| Enhanced.EntropyScore | src/utils/securityAnalyzer.ts:137 | the reported entropy is within 0.05 of the entropy |
| Enhanced.EnhancedFileReportShape | src/utils/securityAnalyzer.ts:128-141 | threats = basic threats + 2 iff malicious; the other basic fields are kept; a coupled verdict; one threat rules out HIGH and three force LOW |
| Enhanced.AnalyzeFileEnhanced | src/utils/securityAnalyzer.ts:110-142 | the enhanced file result merges the basic report, the ML analysis (with the as-written ML score) and the heuristics as specified |
| Enhanced.CombineFileAnalyses | src/utils/securityAnalyzer.ts:123-141 | computes the heuristics and assembles exactly the specified result |
| Enhanced.EnhancedCodeReportShape | src/utils/securityAnalyzer.ts:157-166 | a coupled verdict, the ML score as security score in [0,100], LOW below 50, and the basic counts and findings kept |
| Enhanced.AnalyzeCodeEnhanced | src/utils/securityAnalyzer.ts:144-167 | the enhanced code result merges the basic report, the code quality and the performance impact as specified |
| Enhanced.CombineCodeAnalyses | src/utils/securityAnalyzer.ts:157-166 | assembles exactly the specified result |

## Left out

- Regular expressions: each pattern is an oracle (`TextTest`, `TextCount`), and the main model treats matching as stateless. The `g` flag with `.test` keeps `lastIndex` between lines; that behaviour is modelled on its own (`Patterns.GlobalTest`, `Patterns.GlobalHits`) and reported under Findings.
- Shannon entropy (`calculateEntropy`, in both files) and `calculateCodeMetrics`: floating-point `log2` and division, and NaN when the code has no non-empty line. Their results are real inputs.
- The HuggingFace `pipeline` loads and the classifier call: foreign and asynchronous. Whether each load succeeds and what a call answers are parameters (`ClassifierOutcome`).
- `performMLAnalysis`' keyword fallback: `analyzeMalware` calls it only when a classifier is held, so the fallback branch is not reachable from the engine.
- `readFileContent` (`FileReader`): browser I/O. The content is a given string.
- SHA-256 itself: a foreign call. The digest is a given byte sequence; only its rendering is modelled.
- `new Date().toLocaleString()`: the scan time is a given string.
- `Math.random()`: a real in `[0, 1)` passed in.
- `async`/`await` and `console` logging: the scans run sequentially and log nothing.
- Floating point: scores are exact reals, so rounding error in `0.4 * p + 0.35 * m + 0.25 * a` and the like is not modelled.
- Text.ToLower: lower-cases ASCII letters only; JavaScript's full Unicode case mapping is not modelled.
- FileScan.DetectFileType: an extension equal to an inherited object key such as `constructor` makes the source's lookup return a function; the model treats it as unlisted.
- The React components and their colour helpers are presentation.

## Findings

| source | as written | input that shows it | evidently intended | confidence | as-written member | corrected member |
|---|---|---|---|---|---|---|
| src/utils/mlSecurityAnalyzer.ts:112 | `mlSecurityScore = round(combined x 100)` grows with the threat, but `determineEnhancedSecurityLevel` reads it as a safety score (`< 60` means MEDIUM, src/utils/securityAnalyzer.ts:496) | a clean file (combined score 0, no threats) gets `mlSecurityScore` 0 and the enhanced verdict MEDIUM; HIGH is reached only for combined scores in [0.595, 0.6] | a safety score `round((1 - combined) x 100)`, so a clean file scores 100 and is rated HIGH | not executed | MLAnalyzer.MlSecurityScoreAsWritten, Enhanced.AsWrittenHighOnlyNearThreshold, Enhanced.QuietFileIsNeverHigh | MLAnalyzer.MlSecurityScore, Enhanced.LowThreatIsHigh |
| src/utils/securityAnalyzer.ts:312 | the `g`-flagged catalog regex is reused with `.test` on each line, so `lastIndex` carries over from a match | two consecutive lines `innerHTML = input`: the first match ends at the line's end, the second line is searched from there and missed, so one XSS finding is reported instead of two (the same holds at src/utils/mlSecurityAnalyzer.ts:336) | every line is tested from its start, and each matching line is reported | not executed | Patterns.GlobalScanSkipsRepeatedLine, Patterns.RepeatedXssLineReportedOnce | Patterns.HitsMembership |

The malware report, `analyzeMalware` and the enhanced file verdict use the
score as written, as the source does. The corrected score and its HIGH verdict
(`MLAnalyzer.MlSecurityScore`, `Enhanced.LowThreatIsHigh`) stand on their own
beside that pipeline.
