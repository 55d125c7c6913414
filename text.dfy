/** The JavaScript string operations the scanner relies on: `toLowerCase`,
    `includes`, `endsWith`, `split('\n')`, `trim`, the UTF-16 `length` and the
    UTF-8 size a `Blob` reports. Strings are sequences of Unicode scalar values. */
module Text {

  /** Lower-cases the ASCII letters A-Z and leaves every other character alone. */
  function LowerChar(c: char): (d: char)
    ensures !('A' <= d <= 'Z')
    ensures ('a' <= c <= 'z') ==> d == c
  {
    if 'A' <= c <= 'Z' then (c as int + 32) as char else c
  }

  function ToLower(s: string): (r: string)
    ensures |r| == |s|
    ensures forall i :: 0 <= i < |s| ==> r[i] == LowerChar(s[i])
  {
    if s == [] then [] else [LowerChar(s[0])] + ToLower(s[1..])
  }

  /** Lower-casing distributes over concatenation. */
  lemma {:induction false} ToLowerAppend(a: string, b: string)
    ensures ToLower(a + b) == ToLower(a) + ToLower(b)
  {
    assert ToLower(a + b) == ToLower(a) + ToLower(b) by {
      forall i | 0 <= i < |a + b|
        ensures ToLower(a + b)[i] == (ToLower(a) + ToLower(b))[i]
      {
      }
    }
  }

  /** Lower-casing a second time changes nothing. */
  lemma {:induction false} ToLowerIdempotent(s: string)
    ensures ToLower(ToLower(s)) == ToLower(s)
  {
  }

  predicate StartsWith(s: string, prefix: string) {
    |prefix| <= |s| && s[..|prefix|] == prefix
  }

  predicate EndsWith(s: string, suffix: string) {
    |suffix| <= |s| && s[|s| - |suffix|..] == suffix
  }

  /** A string ends in a non-empty suffix only if their last characters agree. */
  lemma {:induction false} EndsWithLastChar(s: string, suffix: string)
    requires |suffix| > 0 && |s| > 0 && s[|s| - 1] != suffix[|suffix| - 1]
    ensures !EndsWith(s, suffix)
  {
  }

  /** `s.includes(t)`: `t` occurs in `s` at some position (the empty string occurs everywhere). */
  predicate Contains(s: string, t: string)
    decreases |s|
  {
    StartsWith(s, t) || (s != [] && Contains(s[1..], t))
  }

  /** An occurrence of `t` at position `i` of `s` is found by `Contains`. */
  lemma {:induction false} ContainsAt(s: string, t: string, i: nat)
    requires i + |t| <= |s| && s[i..i + |t|] == t
    ensures Contains(s, t)
    decreases i
  {
    if i == 0 {
      assert s[..|t|] == t;
    } else {
      assert s[1..][i - 1..i - 1 + |t|] == s[i..i + |t|];
      ContainsAt(s[1..], t, i - 1);
    }
  }

  /** Every occurrence `Contains` finds sits at some position of `s`. */
  lemma {:induction false} ContainsHasPosition(s: string, t: string) returns (i: nat)
    requires Contains(s, t)
    ensures i + |t| <= |s| && s[i..i + |t|] == t
    decreases |s|
  {
    if StartsWith(s, t) {
      i := 0;
    } else {
      var j := ContainsHasPosition(s[1..], t);
      i := j + 1;
      assert s[i..i + |t|] == s[1..][j..j + |t|];
    }
  }

  /** A case-sensitive occurrence is still an occurrence once both sides are lower-cased. */
  lemma {:induction false} ContainsLowered(s: string, t: string)
    requires Contains(s, t)
    ensures Contains(ToLower(s), ToLower(t))
  {
    var i := ContainsHasPosition(s, t);
    assert ToLower(s)[i..i + |t|] == ToLower(t);
    ContainsAt(ToLower(s), ToLower(t), i);
  }

  /** Number of occurrences of the character `c` in `s`. */
  function Occurrences(s: string, c: char): (n: nat)
    ensures n <= |s|
    ensures n == 0 <==> c !in s
  {
    if s == [] then 0 else (if s[0] == c then 1 else 0) + Occurrences(s[1..], c)
  }

  /** `s.split('\n')`: the pieces between line feeds, always at least one. */
  function SplitLines(s: string): (lines: seq<string>)
    ensures |lines| == Occurrences(s, '\n') + 1
    decreases |s|
  {
    if s == [] then [""]
    else
      var rest := SplitLines(s[1..]);
      if s[0] == '\n' then [""] + rest
      else [[s[0]] + rest[0]] + rest[1..]
  }

  /** No piece of a split holds a line feed. */
  lemma {:induction false} SplitLinesHaveNoBreak(s: string)
    ensures forall k :: 0 <= k < |SplitLines(s)| ==> '\n' !in SplitLines(s)[k]
    decreases |s|
  {
    if s != [] {
      var rest := SplitLines(s[1..]);
      SplitLinesHaveNoBreak(s[1..]);
      var lines := SplitLines(s);
      forall k | 0 <= k < |lines|
        ensures '\n' !in lines[k]
      {
        if s[0] == '\n' {
          assert lines == [""] + rest;
          if k > 0 {
            assert lines[k] == rest[k - 1];
          }
        } else {
          var first := [s[0]] + rest[0];
          assert lines == [first] + rest[1..];
          if k == 0 {
            assert '\n' !in rest[0];
            assert forall c :: c in first ==> c == s[0] || c in rest[0];
          } else {
            assert lines[k] == rest[k];
          }
        }
      }
    }
  }

  /** `lines.join('\n')`, the inverse of `SplitLines`. */
  function JoinLines(lines: seq<string>): string
    requires |lines| >= 1
  {
    if |lines| == 1 then lines[0] else lines[0] + "\n" + JoinLines(lines[1..])
  }

  /** A line feed in front starts a new, empty first line. */
  lemma {:induction false} SplitLinesAfterBreak(rest: string)
    ensures SplitLines("\n" + rest) == [""] + SplitLines(rest)
  {
    assert ("\n" + rest)[1..] == rest;
  }

  /** Any other character in front extends the first line. */
  lemma {:induction false} SplitLinesAfterChar(c: char, rest: string)
    requires c != '\n'
    ensures var lines := SplitLines(rest);
            SplitLines([c] + rest) == [[c] + lines[0]] + lines[1..]
  {
    assert ([c] + rest)[1..] == rest;
  }

  /** Splitting loses nothing: joining the lines back gives the original text. */
  lemma {:induction false} JoinSplitLines(s: string)
    ensures JoinLines(SplitLines(s)) == s
    decreases |s|
  {
    if s != [] {
      var c, rest := s[0], s[1..];
      assert s == [c] + rest;
      var lines := SplitLines(rest);
      JoinSplitLines(rest);
      if c == '\n' {
        SplitLinesAfterBreak(rest);
        assert ([""] + lines)[1..] == lines;
      } else {
        SplitLinesAfterChar(c, rest);
        JoinExtendedFirstLine(c, lines);
      }
    }
  }

  /** Putting a character in front of the first line puts it in front of the joined text. */
  lemma {:induction false} JoinExtendedFirstLine(c: char, lines: seq<string>)
    requires |lines| >= 1
    ensures JoinLines([[c] + lines[0]] + lines[1..]) == [c] + JoinLines(lines)
  {
    var first := [c] + lines[0];
    var split := [first] + lines[1..];
    assert split[0] == first;
    if |lines| == 1 {
      assert JoinLines(split) == first;
      assert JoinLines(lines) == lines[0];
    } else {
      assert split[1..] == lines[1..];
      var tail := JoinLines(lines[1..]);
      assert JoinLines(split) == first + "\n" + tail;
      assert JoinLines(lines) == lines[0] + "\n" + tail;
      assert first + "\n" + tail == [c] + (lines[0] + "\n" + tail);
    }
  }

  /** Joining lines that hold no line feed and splitting again gives the same lines. */
  lemma {:induction false} SplitJoinLines(lines: seq<string>)
    requires |lines| >= 1
    requires forall k :: 0 <= k < |lines| ==> '\n' !in lines[k]
    ensures SplitLines(JoinLines(lines)) == lines
    decreases |lines|
  {
    if |lines| == 1 {
      SplitLineWithoutBreak(lines[0]);
    } else {
      var tail := lines[1..];
      SplitJoinLines(tail);
      SplitFirstLine(lines[0], JoinLines(tail));
      assert lines == [lines[0]] + tail;
    }
  }

  /** A line without line feed, then a line feed, comes off as the first piece. */
  lemma {:induction false} SplitFirstLine(line: string, rest: string)
    requires '\n' !in line
    ensures SplitLines(line + "\n" + rest) == [line] + SplitLines(rest)
    decreases |line|
  {
    if line == [] {
      assert line + "\n" + rest == "\n" + rest;
      SplitLinesAfterBreak(rest);
    } else {
      var c, t := line[0], line[1..];
      assert c != '\n' by { assert line[0] in line; }
      assert '\n' !in t by { assert forall x :: x in t ==> x in line; }
      var after := t + "\n" + rest;
      assert line + "\n" + rest == [c] + after by {
        assert line == [c] + t;
      }
      SplitFirstLine(t, rest);
      SplitLinesAfterChar(c, after);
      assert line == [c] + t;
    }
  }

  lemma {:induction false} SplitLineWithoutBreak(line: string)
    requires '\n' !in line
    ensures SplitLines(line) == [line]
    decreases |line|
  {
    if line != [] {
      assert forall c :: c in line[1..] ==> c in line;
      SplitLineWithoutBreak(line[1..]);
      assert line[0] in line;
      assert line == [line[0]] + line[1..];
    }
  }

  /** The characters `String.prototype.trim` strips: ECMAScript WhiteSpace and LineTerminator. */
  predicate IsWhitespace(c: char) {
    c == ' ' || c == '\t' || c == '\n' || c == '\r' || c == '\U{B}' || c == '\U{C}' ||
    c == '\U{A0}' || c == '\U{1680}' || ('\U{2000}' <= c <= '\U{200A}') ||
    c == '\U{2028}' || c == '\U{2029}' || c == '\U{202F}' || c == '\U{205F}' ||
    c == '\U{3000}' || c == '\U{FEFF}'
  }

  function TrimStart(s: string): (r: string)
    ensures |r| <= |s|
  {
    if s != [] && IsWhitespace(s[0]) then TrimStart(s[1..]) else s
  }

  function TrimEnd(s: string): (r: string)
    ensures |r| <= |s|
  {
    if s != [] && IsWhitespace(s[|s| - 1]) then TrimEnd(s[..|s| - 1]) else s
  }

  /** `TrimStart` keeps a tail of its input, and that tail does not start with whitespace. */
  lemma {:induction false} TrimStartIsTail(s: string)
    ensures var r := TrimStart(s);
            r == s[|s| - |r|..] && (r != [] ==> !IsWhitespace(r[0]))
  {
    if s != [] && IsWhitespace(s[0]) {
      TrimStartIsTail(s[1..]);
      assert s[1..][|s| - 1 - |TrimStart(s)|..] == s[|s| - |TrimStart(s)|..];
    }
  }

  /** `TrimEnd` keeps a head of its input, and that head does not end with whitespace. */
  lemma {:induction false} TrimEndIsHead(s: string)
    ensures var r := TrimEnd(s);
            r == s[..|r|] && (r != [] ==> !IsWhitespace(r[|r| - 1]))
  {
    if s != [] && IsWhitespace(s[|s| - 1]) {
      TrimEndIsHead(s[..|s| - 1]);
      assert s[..|s| - 1][..|TrimEnd(s)|] == s[..|TrimEnd(s)|];
    }
  }

  /** Everything `TrimStart` removes is whitespace. */
  lemma {:induction false} TrimStartCutsWhitespace(s: string)
    ensures forall k :: 0 <= k < |s| - |TrimStart(s)| ==> IsWhitespace(s[k])
  {
    if s != [] && IsWhitespace(s[0]) {
      TrimStartCutsWhitespace(s[1..]);
      forall k | 1 <= k < |s| - |TrimStart(s)|
        ensures IsWhitespace(s[k])
      {
        assert s[k] == s[1..][k - 1];
      }
    }
  }

  /** Everything `TrimEnd` removes is whitespace. */
  lemma {:induction false} TrimEndCutsWhitespace(s: string)
    ensures forall k :: |TrimEnd(s)| <= k < |s| ==> IsWhitespace(s[k])
  {
    if s != [] && IsWhitespace(s[|s| - 1]) {
      var front := s[..|s| - 1];
      TrimEndCutsWhitespace(front);
      forall k | |TrimEnd(s)| <= k < |s| - 1
        ensures IsWhitespace(s[k])
      {
        assert s[k] == front[k];
      }
    }
  }

  /** `s.trim()`: what is left once whitespace is stripped from both ends. */
  function Trim(s: string): (r: string)
  {
    TrimEnd(TrimStart(s))
  }

  /** The trimmed text neither starts nor ends with whitespace. */
  lemma {:induction false} TrimHasNoOuterWhitespace(s: string)
    ensures var r := Trim(s);
            r != [] ==> !IsWhitespace(r[0]) && !IsWhitespace(r[|r| - 1])
  {
    var t := TrimStart(s);
    var r := TrimEnd(t);
    TrimStartIsTail(s);
    TrimEndIsHead(t);
    if r != [] {
      assert r[0] == t[0];
    }
  }

  /** The trimmed text is the stretch of `s` that starts after the leading whitespace. */
  lemma {:induction false} TrimIsInnerStretch(s: string)
    ensures var r, a := Trim(s), |s| - |TrimStart(s)|;
            a + |r| <= |s| && s[a..a + |r|] == r
  {
    var t := TrimStart(s);
    var r := TrimEnd(t);
    var a := |s| - |t|;
    TrimStartIsTail(s);
    TrimEndIsHead(t);
    assert t == s[a..];
    assert r == t[..|r|];
    assert s[a..a + |r|] == s[a..][..|r|];
  }

  /** Only whitespace is cut away on either side of the trimmed text. */
  lemma {:induction false} TrimCutsOnlyWhitespace(s: string)
    ensures var r, a := Trim(s), |s| - |TrimStart(s)|;
            (forall k :: 0 <= k < a ==> IsWhitespace(s[k])) &&
            (forall k :: a + |r| <= k < |s| ==> IsWhitespace(s[k]))
  {
    var t := TrimStart(s);
    var r := TrimEnd(t);
    var a := |s| - |t|;
    TrimStartCutsWhitespace(s);
    TrimEndCutsWhitespace(t);
    TrimStartIsTail(s);
    assert t == s[a..];
    forall k | a + |r| <= k < |s|
      ensures IsWhitespace(s[k])
    {
      assert s[k] == t[k - a];
    }
  }

  /** Trimming twice is trimming once. */
  lemma {:induction false} TrimIdempotent(s: string)
    ensures Trim(Trim(s)) == Trim(s)
  {
    var r := Trim(s);
    TrimHasNoOuterWhitespace(s);
    assert TrimStart(r) == r;
    assert TrimEnd(r) == r;
  }

  /** Number of UTF-16 code units of `s`, which is what JavaScript's `length` reports. */
  function Utf16Length(s: string): (n: nat)
    ensures |s| <= n <= 2 * |s|
  {
    if s == [] then 0 else (if s[0] as int >= 0x1_0000 then 2 else 1) + Utf16Length(s[1..])
  }

  /** Number of bytes of the UTF-8 encoding of `s`, which is what `new Blob([s]).size` reports. */
  function Utf8Size(s: string): (n: nat)
    ensures |s| <= n <= 4 * |s|
  {
    if s == [] then 0
    else
      var c := s[0] as int;
      (if c < 0x80 then 1 else if c < 0x800 then 2 else if c < 0x1_0000 then 3 else 4)
      + Utf8Size(s[1..])
  }
}
