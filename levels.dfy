/** Three-tier levels shared by every report of the scanner, and the coupling
    between a report's security level and its risk level. */
module Levels {

  datatype Level = LOW | MEDIUM | HIGH

  /** Orders the tiers LOW < MEDIUM < HIGH. */
  function Rank(l: Level): (n: nat)
    ensures n <= 2
    ensures (n == 0 <==> l == LOW) && (n == 2 <==> l == HIGH)
  {
    match l
    case LOW => 0
    case MEDIUM => 1
    case HIGH => 2
  }

  /** The `{ securityLevel, riskLevel }` pair every classification ladder returns. */
  datatype Classification = Classification(securityLevel: Level, riskLevel: Level)

  /** The three pairs a ladder may emit: low security is high risk, and so on. */
  const Compromised := Classification(LOW, HIGH)
  const Guarded := Classification(MEDIUM, MEDIUM)
  const Secure := Classification(HIGH, LOW)

  predicate Coupled(c: Classification) {
    c == Compromised || c == Guarded || c == Secure
  }

  /** Being one of the three pairs is exactly the two-way coupling
      `security == LOW <==> risk == HIGH` and `security == HIGH <==> risk == LOW`. */
  lemma {:induction false} CoupledIsBidirectional(c: Classification)
    ensures Coupled(c) <==>
              (c.securityLevel == LOW <==> c.riskLevel == HIGH) &&
              (c.securityLevel == HIGH <==> c.riskLevel == LOW)
  {
  }

  /** In a coupled pair the risk level is the mirror image of the security level. */
  lemma {:induction false} CoupledMirrors(c: Classification)
    requires Coupled(c)
    ensures Rank(c.securityLevel) + Rank(c.riskLevel) == 2
  {
  }

  /** How many entries of `levels` equal `l`: `list.filter(v => v.severity === l).length`. */
  function Count(levels: seq<Level>, l: Level): (n: nat)
    ensures n <= |levels|
  {
    if levels == [] then 0
    else Count(levels[..|levels| - 1], l) + (if levels[|levels| - 1] == l then 1 else 0)
  }

  /** The severity of each of `items`, in order, read through `severity`. */
  function Severities<T>(items: seq<T>, severity: T -> Level): seq<Level>
  {
    seq(|items|, i requires 0 <= i < |items| => severity(items[i]))
  }

  /** `items.filter(v => v.severity === l).length`: counting a level among the
      severities counts exactly the items of that severity. */
  lemma {:induction false} CountSeverities<T>(items: seq<T>, severity: T -> Level, l: Level)
    ensures Count(Severities(items, severity), l) == |set i | 0 <= i < |items| && severity(items[i]) == l|
  {
    if items != [] {
      var n := |items| - 1;
      var front := items[..n];
      CountSeverities(front, severity, l);
      var levels := Severities(items, severity);
      assert levels[..n] == Severities(front, severity);
      var all := set i | 0 <= i < |items| && severity(items[i]) == l;
      var before := set i | 0 <= i < n && severity(front[i]) == l;
      assert n !in before;
      if severity(items[n]) == l {
        assert all == before + {n};
      } else {
        assert all == before;
      }
    }
  }

  /** No level is counted twice and none is missed: the three counts add up to the length. */
  lemma {:induction false} CountPartition(levels: seq<Level>)
    ensures Count(levels, LOW) + Count(levels, MEDIUM) + Count(levels, HIGH) == |levels|
  {
    if levels != [] {
      CountPartition(levels[..|levels| - 1]);
    }
  }

  /** A level is counted zero times exactly when it does not occur. */
  lemma {:induction false} CountZero(levels: seq<Level>, l: Level)
    ensures Count(levels, l) == 0 <==> l !in levels
  {
    if levels != [] {
      var front := levels[..|levels| - 1];
      CountZero(front, l);
      assert levels == front + [levels[|levels| - 1]];
    }
  }
}
