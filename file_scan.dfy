/** The basic file pipeline of the scanner: signature and extension counts, the
    three-tier verdict, and the report built from them. */
module FileScan {
  import opened Text
  import opened Levels
  import opened Numeric

  // ---------------------------------------------------------------------------
  // Catalogs

  const MalwareSignatures: seq<string> := [
    "CreateRemoteThread", "VirtualAllocEx", "WriteProcessMemory", "SetWindowsHookEx",
    "keylogger", "bitcoin", "cryptocurrency"
  ]

  const SuspiciousPatterns: seq<string> := [
    "base64", "eval(", "document.write", "innerHTML", "system(", "exec(",
    "shell_exec", "cmd.exe", "powershell"
  ]

  /** The extensions the file pipeline flags (`.com` is not among them). */
  const SuspiciousExtensions: seq<string> := [".exe", ".scr", ".bat", ".cmd", ".pif"]

  // ---------------------------------------------------------------------------
  // Signature and extension counts

  /** How many catalog entries occur, case-insensitively, in the lower-cased `text`:
      each entry adds one however often it occurs. */
  function PresentCount(text: string, catalog: seq<string>): (n: nat)
    ensures n <= |catalog|
  {
    if catalog == [] then 0
    else
      var last := |catalog| - 1;
      PresentCount(text, catalog[..last]) + (if Contains(text, ToLower(catalog[last])) then 1 else 0)
  }

  /** The count is 0 exactly when no entry occurs, and the full catalog size
      exactly when every entry occurs. */
  lemma {:induction false} PresentCountExtremes(text: string, catalog: seq<string>)
    ensures PresentCount(text, catalog) == 0 <==>
              forall i :: 0 <= i < |catalog| ==> !Contains(text, ToLower(catalog[i]))
    ensures PresentCount(text, catalog) == |catalog| <==>
              forall i :: 0 <= i < |catalog| ==> Contains(text, ToLower(catalog[i]))
  {
    PresentCountZero(text, catalog);
    PresentCountFull(text, catalog);
  }

  lemma {:induction false} PresentCountZero(text: string, catalog: seq<string>)
    ensures PresentCount(text, catalog) == 0 <==>
              forall i :: 0 <= i < |catalog| ==> !Contains(text, ToLower(catalog[i]))
  {
    if catalog != [] {
      var last := |catalog| - 1;
      var front := catalog[..last];
      PresentCountZero(text, front);
      assert forall i :: 0 <= i < last ==> front[i] == catalog[i];
    }
  }

  lemma {:induction false} PresentCountFull(text: string, catalog: seq<string>)
    ensures PresentCount(text, catalog) == |catalog| <==>
              forall i :: 0 <= i < |catalog| ==> Contains(text, ToLower(catalog[i]))
  {
    if catalog != [] {
      var last := |catalog| - 1;
      var front := catalog[..last];
      PresentCountFull(text, front);
      assert forall i :: 0 <= i < last ==> front[i] == catalog[i];
    }
  }

  /** One `forEach` over a catalog, counting the entries the lower-cased content includes. */
  method CountPresent(content: string, catalog: seq<string>) returns (count: nat)
    ensures count == PresentCount(ToLower(content), catalog)
  {
    var lowered := ToLower(content);
    count := 0;
    for i := 0 to |catalog|
      invariant count == PresentCount(lowered, catalog[..i])
    {
      assert catalog[..i + 1][..i] == catalog[..i];
      if Contains(lowered, ToLower(catalog[i])) {
        count := count + 1;
      }
    }
    assert catalog[..|catalog|] == catalog;
  }

  /** `extensions.some(ext => filename.toLowerCase().endsWith(ext))`. */
  predicate HasExtension(filename: string, extensions: seq<string>) {
    exists i :: 0 <= i < |extensions| && EndsWith(ToLower(filename), extensions[i])
  }

  /** The threat count of a file: one per malware signature present, one more
      for a suspicious extension. */
  function ThreatCount(content: string, filename: string): (n: nat)
    ensures n <= 8
  {
    assert |MalwareSignatures| == 7;
    PresentCount(ToLower(content), MalwareSignatures)
      + (if HasExtension(filename, SuspiciousExtensions) then 1 else 0)
  }

  /** The warning count of a file: one per suspicious pattern present. */
  function WarningCount(content: string): (n: nat)
    ensures n <= 9
  {
    assert |SuspiciousPatterns| == 9;
    PresentCount(ToLower(content), SuspiciousPatterns)
  }

  method DetectThreats(content: string, filename: string) returns (threatCount: nat)
    ensures threatCount == ThreatCount(content, filename)
  {
    threatCount := CountThreats(content, filename, MalwareSignatures, SuspiciousExtensions);
  }

  /** The body of `detectThreats`, for any signature and extension catalogs. */
  method CountThreats(content: string, filename: string, signatures: seq<string>, extensions: seq<string>)
    returns (threatCount: nat)
    ensures threatCount == PresentCount(ToLower(content), signatures) + (if HasExtension(filename, extensions) then 1 else 0)
  {
    threatCount := CountPresent(content, signatures);
    if HasExtension(filename, extensions) {
      threatCount := threatCount + 1;
    }
  }

  method DetectWarnings(content: string) returns (warningCount: nat)
    ensures warningCount == WarningCount(content)
  {
    warningCount := CountPresent(content, SuspiciousPatterns);
  }

  /** A lower-case catalog entry occurring in the lower-cased content adds to the count. */
  lemma {:induction false} PresentEntryCounts(text: string, catalog: seq<string>, i: nat)
    requires i < |catalog| && Contains(text, ToLower(catalog[i]))
    ensures PresentCount(text, catalog) >= 1
  {
    PresentCountExtremes(text, catalog);
  }

  /** Text without upper-case ASCII letters is its own lower-case form. */
  lemma {:induction false} LowerCaseTextUnchanged(w: string)
    requires forall i :: 0 <= i < |w| ==> !('A' <= w[i] <= 'Z')
    ensures ToLower(w) == w
  {
  }

  /** A file whose name ends in `.exe` (in any case) and whose content mentions
      "bitcoin" (in any case) has at least two threats, so its basic verdict is
      never HIGH security. */
  lemma {:induction false} ExecutableMentioningBitcoin(content: string, filename: string, warnings: nat)
    requires Contains(ToLower(content), "bitcoin")
    requires EndsWith(ToLower(filename), ".exe")
    ensures ThreatCount(content, filename) >= 2
    ensures ClassifyFile(ThreatCount(content, filename), warnings).securityLevel != HIGH
  {
    BitcoinIsSignature(ToLower(content));
    ExeIsSuspicious(filename);
  }

  lemma {:induction false} BitcoinIsSignature(text: string)
    requires Contains(text, "bitcoin")
    ensures PresentCount(text, MalwareSignatures) >= 1
  {
    LowerCaseTextUnchanged("bitcoin");
    assert ToLower(MalwareSignatures[5]) == "bitcoin";
    PresentEntryCounts(text, MalwareSignatures, 5);
  }

  lemma {:induction false} ExeIsSuspicious(filename: string)
    requires EndsWith(ToLower(filename), ".exe")
    ensures HasExtension(filename, SuspiciousExtensions)
  {
    assert SuspiciousExtensions[0] == ".exe";
  }

  /** The same for the file `payload.exe` holding the word "bitcoin". */
  lemma {:induction false} PayloadExeWithBitcoin(content: string)
    requires Contains(content, "bitcoin")
    ensures ThreatCount(content, "payload.exe") >= 2
    ensures ClassifyFile(ThreatCount(content, "payload.exe"), WarningCount(content)).securityLevel != HIGH
  {
    assert Contains(ToLower(content), "bitcoin") by {
      ContainsLowered(content, "bitcoin");
      LowerCaseTextUnchanged("bitcoin");
    }
    PayloadExeIsExecutable();
    ExecutableMentioningBitcoin(content, "payload.exe", WarningCount(content));
  }

  lemma {:induction false} PayloadExeIsExecutable()
    ensures EndsWith(ToLower("payload.exe"), ".exe")
  {
    LowerCaseTextUnchanged("payload.exe");
  }

  // ---------------------------------------------------------------------------
  // The verdict ladder

  /** Three or more threats: LOW security; any threat or three warnings:
      MEDIUM; otherwise HIGH. */
  function ClassifyFile(threats: nat, warnings: nat): (c: Classification)
    ensures Coupled(c)
    ensures c.securityLevel == LOW <==> threats >= 3
    ensures c.securityLevel == HIGH <==> threats == 0 && warnings < 3
  {
    if threats >= 3 then Compromised
    else if threats >= 1 || warnings >= 3 then Guarded
    else Secure
  }

  /** More threats or warnings never raise the security level. */
  lemma {:induction false} ClassifyFileMonotone(t: nat, w: nat, t': nat, w': nat)
    requires t <= t' && w <= w'
    ensures Rank(ClassifyFile(t', w').securityLevel) <= Rank(ClassifyFile(t, w).securityLevel)
  {
  }

  // ---------------------------------------------------------------------------
  // Report lists: prefixes of fixed catalogs

  /** `s.slice(0, end)` for `end >= 0`: the first `end` elements, or all of them. */
  function SlicePrefix<T>(s: seq<T>, end: nat): seq<T> {
    if end <= |s| then s[..end] else s
  }

  const VulnerabilityCatalog: seq<string> := [
    "Potential malware signature detected in executable",
    "Suspicious network communication patterns found",
    "Encrypted payload detected - possible trojan behavior",
    "Registry modification capabilities identified",
    "File system access without proper validation",
    "Buffer overflow vulnerability in binary code",
    "Weak encryption implementation detected",
    "Unsigned executable from unknown publisher",
    "Suspicious API calls for process injection"
  ]

  /** One vulnerability line per threat, at least one and at most the nine of the catalog. */
  function GenerateVulnerabilities(threatCount: nat): (r: seq<string>)
    ensures |r| == Min(Max(threatCount, 1), 9)
    ensures r == VulnerabilityCatalog[..|r|]
  {
    SlicePrefix(VulnerabilityCatalog, Max(threatCount, 1))
  }

  /** More threats list the same vulnerabilities and possibly more. */
  lemma {:induction false} GenerateVulnerabilitiesGrows(n: nat, m: nat)
    requires n <= m
    ensures var few, many := GenerateVulnerabilities(n), GenerateVulnerabilities(m);
            |few| <= |many| && few == many[..|few|]
  {
  }

  const SuggestionCatalog: seq<string> := [
    "Run in isolated sandbox environment before execution",
    "Verify digital signature from trusted publisher",
    "Check file against updated antivirus databases",
    "Monitor network traffic during execution",
    "Implement application whitelisting policies",
    "Use static analysis tools for deeper inspection",
    "Quarantine file until thorough analysis is complete",
    "Scan with multiple antivirus engines",
    "Check file reputation in threat intelligence databases"
  ]

  /** Five suggestions for LOW security, three for MEDIUM, two for HIGH. */
  function GenerateSuggestions(securityLevel: Level): (r: seq<string>)
    ensures |r| == (if securityLevel == LOW then 5 else if securityLevel == MEDIUM then 3 else 2)
    ensures r == SuggestionCatalog[..|r|]
  {
    var suggestionCount := if securityLevel == LOW then 5 else if securityLevel == MEDIUM then 3 else 2;
    SlicePrefix(SuggestionCatalog, suggestionCount)
  }

  /** A lower security level repeats the suggestions of a higher one and adds to them. */
  lemma {:induction false} GenerateSuggestionsGrowWithRisk(lower: Level, higher: Level)
    requires Rank(lower) <= Rank(higher)
    ensures var more, fewer := GenerateSuggestions(lower), GenerateSuggestions(higher);
            |fewer| <= |more| && fewer == more[..|fewer|]
  {
  }

  // ---------------------------------------------------------------------------
  // File type lookup and hash rendering

  const OctetStream := "application/octet-stream"

  const MimeTypes: map<string, string> := map[
    "exe" := "application/x-executable",
    "zip" := "application/zip",
    "js" := "application/javascript",
    "py" := "text/x-python",
    "java" := "text/x-java",
    "cpp" := "text/x-c++src",
    "c" := "text/x-csrc",
    "php" := "application/x-php",
    "dll" := "application/x-msdownload",
    "msi" := "application/x-msi"
  ]

  /** `s.split(sep).pop()`: the text after the last `sep`, or all of `s` when there is none. */
  function LastSegment(s: string, sep: char): (r: string)
    ensures sep !in r
    ensures EndsWith(s, r)
    ensures |r| < |s| ==> s[|s| - |r| - 1] == sep
  {
    if s == [] then []
    else if s[|s| - 1] == sep then []
    else LastSegment(s[..|s| - 1], sep) + [s[|s| - 1]]
  }

  /** The MIME type guessed from the extension, or `application/octet-stream`. */
  function DetectFileType(filename: string): (t: string)
    ensures t == OctetStream || t in MimeTypes.Values
  {
    var ext := ToLower(LastSegment(filename, '.'));
    if ext in MimeTypes then MimeTypes[ext] else OctetStream
  }

  /** The segment after the last dot is the extension, whatever the stem holds. */
  lemma {:induction false} LastSegmentOfDottedName(stem: string, ext: string)
    requires '.' !in ext
    ensures LastSegment(stem + "." + ext, '.') == ext
    decreases |ext|
  {
    var name := stem + "." + ext;
    if ext == [] {
      assert name[|name| - 1] == '.';
    } else {
      var n := |ext| - 1;
      assert ext[n] in ext;
      assert name[..|name| - 1] == stem + "." + ext[..n];
      assert forall c :: c in ext[..n] ==> c in ext;
      LastSegmentOfDottedName(stem, ext[..n]);
      assert ext == ext[..n] + [ext[n]];
    }
  }

  /** The type of `stem.ext` depends only on the extension, compared case-insensitively. */
  lemma {:induction false} FileTypeOfDottedName(stem: string, ext: string)
    requires '.' !in ext
    ensures ToLower(ext) in MimeTypes ==> DetectFileType(stem + "." + ext) == MimeTypes[ToLower(ext)]
    ensures ToLower(ext) !in MimeTypes ==> DetectFileType(stem + "." + ext) == OctetStream
  {
    LastSegmentOfDottedName(stem, ext);
  }

  /** An executable is recognised whatever the case of its extension. */
  lemma {:induction false} UpperCaseExeIsExecutable(stem: string)
    ensures DetectFileType(stem + ".EXE") == "application/x-executable"
  {
    ExeLowered();
    ExeMimeType();
    FileTypeOfDottedName(stem, "EXE");
    assert stem + "." + "EXE" == stem + ".EXE";
  }

  lemma {:induction false} ExeLowered()
    ensures ToLower("EXE") == "exe"
  {
    var lowered := ToLower("EXE");
    assert lowered[0] == 'e' && lowered[1] == 'x' && lowered[2] == 'e';
  }

  lemma {:induction false} ExeMimeType()
    ensures "exe" in MimeTypes && MimeTypes["exe"] == "application/x-executable"
  {
  }

  type Byte = x: int | 0 <= x < 256

  function HexDigit(d: nat): (c: char)
    requires d < 16
    ensures '0' <= c <= '9' || 'a' <= c <= 'f'
  {
    if d < 10 then ('0' as int + d) as char else ('a' as int + d - 10) as char
  }

  /** The value of a lower-case hexadecimal digit. */
  function HexValue(c: char): (d: nat)
    ensures d < 16
  {
    if '0' <= c <= '9' then c as int - '0' as int
    else if 'a' <= c <= 'f' then c as int - 'a' as int + 10
    else 0
  }

  /** `b.toString(16).padStart(2, '0')`. */
  function HexByte(b: Byte): (s: string)
    ensures |s| == 2
  {
    [HexDigit(b / 16), HexDigit(b % 16)]
  }

  function HexString(bytes: seq<Byte>): (s: string)
    ensures |s| == 2 * |bytes|
  {
    if bytes == [] then [] else HexString(bytes[..|bytes| - 1]) + HexByte(bytes[|bytes| - 1])
  }

  /** The byte two hexadecimal digits spell. */
  function PairValue(hi: char, lo: char): Byte {
    HexValue(hi) * 16 + HexValue(lo)
  }

  /** Reads pairs of hexadecimal digits back into bytes (a lone last digit is dropped). */
  function ParseHex(s: string): (bytes: seq<Byte>)
    ensures 2 * |bytes| <= |s| < 2 * |bytes| + 2
  {
    if |s| < 2 then []
    else ParseHex(s[..|s| - 2]) + [PairValue(s[|s| - 2], s[|s| - 1])]
  }

  /** The two digits of a byte read back as that byte. */
  lemma {:induction false} HexByteValue(b: Byte)
    ensures PairValue(HexByte(b)[0], HexByte(b)[1]) == b
  {
    var hi, lo := b / 16, b % 16;
    assert HexValue(HexDigit(hi)) == hi;
    assert HexValue(HexDigit(lo)) == lo;
  }

  /** Reading two more digits appends the byte they spell. */
  lemma {:induction false} ParseHexAppend(front: string, b: Byte)
    ensures ParseHex(front + HexByte(b)) == ParseHex(front) + [b]
  {
    var s := front + HexByte(b);
    assert s[..|s| - 2] == front;
    assert s[|s| - 2] == HexByte(b)[0] && s[|s| - 1] == HexByte(b)[1];
    assert ParseHex(s) == ParseHex(front) + [PairValue(s[|s| - 2], s[|s| - 1])];
    HexByteValue(b);
  }

  /** Hex-encoding a byte sequence and reading it back gives the bytes again. */
  lemma {:induction false} ParseHexString(bytes: seq<Byte>)
    ensures ParseHex(HexString(bytes)) == bytes
  {
    if bytes != [] {
      var n := |bytes| - 1;
      ParseHexString(bytes[..n]);
      ParseHexAppend(HexString(bytes[..n]), bytes[n]);
      assert bytes == bytes[..n] + [bytes[n]];
    }
  }

  /** The hex text of a prefix of the bytes is the matching prefix of the hex text. */
  lemma {:induction false} HexStringPrefix(bytes: seq<Byte>, k: nat)
    requires k <= |bytes|
    ensures HexString(bytes)[..2 * k] == HexString(bytes[..k])
    decreases |bytes|
  {
    if k < |bytes| {
      var n := |bytes| - 1;
      assert bytes[..n][..k] == bytes[..k];
      HexStringPrefix(bytes[..n], k);
    } else {
      assert bytes[..k] == bytes;
    }
  }

  /** `SHA256: ` followed by the first 16 hex digits of the digest and `...`. */
  function RenderHash(digest: seq<Byte>): (r: string)
    ensures StartsWith(r, "SHA256: ") && EndsWith(r, "...")
    ensures |r| == 11 + Min(2 * |digest|, 16)
  {
    var hashHex := HexString(digest);
    "SHA256: " + SlicePrefix(hashHex, 16) + "..."
  }

  /** The rendered hash of a 32-byte SHA-256 digest is 27 characters long, shows
      exactly its first eight bytes, and they can be read back from it. */
  lemma {:induction false} RenderedHashShowsFirstEightBytes(digest: seq<Byte>)
    requires |digest| == 32
    ensures |RenderHash(digest)| == 27
    ensures ParseHex(RenderHash(digest)[8..24]) == digest[..8]
    ensures forall other: seq<Byte> :: |other| == 32 && other[..8] == digest[..8] ==>
              RenderHash(other) == RenderHash(digest)
  {
    forall other: seq<Byte> | |other| >= 8
      ensures HexString(other)[..16] == HexString(other[..8])
    {
      HexStringPrefix(other, 8);
    }
    var r := RenderHash(digest);
    assert r[8..24] == HexString(digest)[..16];
    ParseHexString(digest[..8]);
  }

  // ---------------------------------------------------------------------------
  // The basic file report

  /** A file as the browser hands it over; `content` is its text as read. */
  datatype UploadedFile = UploadedFile(name: string, size: nat, mimeType: string, content: string)

  datatype FileInfo = FileInfo(name: string, size: nat, fileType: string, hash: string, scanTime: string)

  datatype SecurityAnalysisResult = SecurityAnalysisResult(
    securityLevel: Level,
    riskLevel: Level,
    threats: nat,
    warnings: nat,
    vulnerabilities: seq<string>,
    suggestions: seq<string>,
    fileInfo: FileInfo)

  /** The report for a file with the given counts; `digest` is the SHA-256 of its
      content and `scanTime` the clock reading, both supplied from outside. */
  function FileReport(file: UploadedFile, threats: nat, warnings: nat, digest: seq<Byte>, scanTime: string)
    : (r: SecurityAnalysisResult)
  {
    var verdict := ClassifyFile(threats, warnings);
    SecurityAnalysisResult(
      verdict.securityLevel, verdict.riskLevel, threats, warnings,
      GenerateVulnerabilities(threats),
      GenerateSuggestions(verdict.securityLevel),
      FileInfo(file.name, file.size,
               if file.mimeType == "" then DetectFileType(file.name) else file.mimeType,
               RenderHash(digest), scanTime))
  }

  /** Every file report pairs its levels, lists at least one vulnerability and
      more suggestions the lower its security. */
  lemma {:induction false} FileReportShape(file: UploadedFile, threats: nat, warnings: nat, digest: seq<Byte>, scanTime: string)
    ensures var r := FileReport(file, threats, warnings, digest, scanTime);
            Coupled(Classification(r.securityLevel, r.riskLevel)) &&
            1 <= |r.vulnerabilities| <= 9 &&
            (r.securityLevel == LOW <==> |r.suggestions| == 5) &&
            (r.securityLevel == HIGH <==> |r.suggestions| == 2) &&
            (file.mimeType != "" ==> r.fileInfo.fileType == file.mimeType)
  {
  }

  /** `analyzeFile`: count threats and warnings, classify, build the report. */
  method AnalyzeFile(file: UploadedFile, digest: seq<Byte>, scanTime: string) returns (r: SecurityAnalysisResult)
    ensures r == FileReport(file, ThreatCount(file.content, file.name), WarningCount(file.content), digest, scanTime)
    ensures Coupled(Classification(r.securityLevel, r.riskLevel))
  {
    var threats := DetectThreats(file.content, file.name);
    var warnings := DetectWarnings(file.content);
    var verdict := ClassifyFile(threats, warnings);
    var fileType := if file.mimeType == "" then DetectFileType(file.name) else file.mimeType;
    r := SecurityAnalysisResult(
      verdict.securityLevel, verdict.riskLevel, threats, warnings,
      GenerateVulnerabilities(threats),
      GenerateSuggestions(verdict.securityLevel),
      FileInfo(file.name, file.size, fileType, RenderHash(digest), scanTime));
  }
}
