/** Strings of Unicode scalar values, as far as the program looks into them. */
module Text {
  /** The Unicode White_Space property, which `str::trim` removes. */
  predicate IsSpace(c: char) {
    var n := c as int;
    || 9 <= n <= 13
    || n in {0x20, 0x85, 0xA0, 0x1680, 0x2028, 0x2029, 0x202F, 0x205F, 0x3000}
    || 0x2000 <= n <= 0x200A
  }

  function TrimStart(s: string): string {
    if s != [] && IsSpace(s[0]) then TrimStart(s[1..]) else s
  }

  function TrimEnd(s: string): string {
    if s != [] && IsSpace(s[|s| - 1]) then TrimEnd(s[..|s| - 1]) else s
  }

  function Trim(s: string): string {
    TrimEnd(TrimStart(s))
  }

  predicate Blank(s: string) {
    Trim(s) == ""
  }

  /** No space at either end: what trimming leaves alone. */
  predicate Trimmed(s: string) {
    s != "" ==> !IsSpace(s[0]) && !IsSpace(s[|s| - 1])
  }

  lemma {:induction false} TrimEndShape(s: string)
    ensures TrimEnd(s) <= s
    ensures TrimEnd(s) != "" ==> !IsSpace(TrimEnd(s)[|TrimEnd(s)| - 1])
  {
    if s != [] && IsSpace(s[|s| - 1]) {
      TrimEndShape(s[..|s| - 1]);
    }
  }

  lemma {:induction false} TrimStartShape(s: string)
    ensures TrimStart(s) != "" ==> !IsSpace(TrimStart(s)[0])
  {
    if s != [] && IsSpace(s[0]) {
      TrimStartShape(s[1..]);
    }
  }

  /** Trimming is a projection onto the trimmed strings. */
  lemma TrimIsProjection(s: string)
    ensures Trimmed(Trim(s))
    ensures Trimmed(s) ==> Trim(s) == s
    ensures Trim(Trim(s)) == Trim(s)
  {
    TrimStartShape(s);
    TrimEndShape(TrimStart(s));
    var t := Trim(s);
    assert Trimmed(t);
    assert TrimStart(t) == t;
    assert TrimEnd(t) == t;
  }

  predicate AllSpace(s: string) {
    forall i | 0 <= i < |s| :: IsSpace(s[i])
  }

  lemma {:induction false} TrimStartCuts(s: string) returns (n: nat)
    ensures n <= |s| && TrimStart(s) == s[n..] && AllSpace(s[..n])
  {
    n := 0;
    if s != [] && IsSpace(s[0]) {
      var rest := TrimStartCuts(s[1..]);
      n := rest + 1;
      assert s[..n] == [s[0]] + s[1..][..rest];
    }
  }

  lemma {:induction false} TrimEndCuts(s: string) returns (n: nat)
    ensures n <= |s| && TrimEnd(s) == s[..n] && AllSpace(s[n..])
  {
    n := |s|;
    if s != [] && IsSpace(s[|s| - 1]) {
      n := TrimEndCuts(s[..|s| - 1]);
      assert s[n..] == s[..|s| - 1][n..] + [s[|s| - 1]];
    }
  }

  /** Trimming takes away space at the ends, and nothing else. */
  lemma TrimCuts(s: string) returns (front: string, end: string)
    ensures s == front + Trim(s) + end && AllSpace(front) && AllSpace(end)
  {
    var i := TrimStartCuts(s);
    var j := TrimEndCuts(s[i..]);
    front, end := s[..i], s[i..][j..];
  }

  // ----- occurrences of a pattern

  predicate Occurs(text: string, pattern: string, i: nat) {
    i + |pattern| <= |text| && text[i..i + |pattern|] == pattern
  }

  /** `match_indices`: the matches from left to right, without overlaps. */
  function MatchIndices(text: string, pattern: string, from: nat): seq<nat>
    requires pattern != ""
    decreases |text| - from
  {
    if |text| < from + |pattern| then []
    else if Occurs(text, pattern, from) then [from] + MatchIndices(text, pattern, from + |pattern|)
    else MatchIndices(text, pattern, from + 1)
  }

  /** A pattern whose first character does not come again cannot overlap itself. */
  predicate StartsOnce(pattern: string) {
    pattern != "" && forall i | 0 < i < |pattern| :: pattern[i] != pattern[0]
  }

  lemma OccursAt(text: string, pattern: string, i: nat, k: nat)
    requires Occurs(text, pattern, i) && k < |pattern|
    ensures text[i + k] == pattern[k]
  {
    assert text[i..i + |pattern|][k] == pattern[k];
  }

  lemma NoOverlap(text: string, pattern: string, i: nat, j: nat)
    requires StartsOnce(pattern) && Occurs(text, pattern, i) && Occurs(text, pattern, j) && i < j
    ensures i + |pattern| <= j
  {
    OccursAt(text, pattern, j, 0);
    if j < i + |pattern| {
      OccursAt(text, pattern, i, j - i);
    }
  }

  lemma {:induction false} MatchesOccur(text: string, pattern: string, from: nat)
    requires pattern != ""
    ensures forall i | i in MatchIndices(text, pattern, from) :: from <= i && Occurs(text, pattern, i)
    decreases |text| - from
  {
    hide Occurs;
    if from + |pattern| <= |text| {
      if Occurs(text, pattern, from) {
        MatchesOccur(text, pattern, from + |pattern|);
      } else {
        MatchesOccur(text, pattern, from + 1);
      }
    }
  }

  lemma {:induction false} OccurrenceIsMatched(text: string, pattern: string, from: nat, i: nat)
    requires StartsOnce(pattern) && Occurs(text, pattern, i) && from <= i
    ensures i in MatchIndices(text, pattern, from)
    decreases |text| - from
  {
    if from < i {
      if Occurs(text, pattern, from) {
        NoOverlap(text, pattern, from, i);
        OccurrenceIsMatched(text, pattern, from + |pattern|, i);
      } else {
        OccurrenceIsMatched(text, pattern, from + 1, i);
      }
    }
  }

  predicate Increasing(positions: seq<nat>) {
    forall a, b | 0 <= a < b < |positions| :: positions[a] < positions[b]
  }

  lemma PrependIncreases(first: nat, rest: seq<nat>)
    requires Increasing(rest) && forall p | p in rest :: first < p
    ensures Increasing([first] + rest)
  {
    assert forall a | 0 <= a < |rest| :: rest[a] in rest;
  }

  lemma {:induction false} MatchesIncrease(text: string, pattern: string, from: nat)
    requires pattern != ""
    ensures Increasing(MatchIndices(text, pattern, from))
    decreases |text| - from
  {
    hide Occurs, Increasing;
    if from + |pattern| <= |text| {
      if Occurs(text, pattern, from) {
        MatchesIncrease(text, pattern, from + |pattern|);
        MatchesOccur(text, pattern, from + |pattern|);
        PrependIncreases(from, MatchIndices(text, pattern, from + |pattern|));
      } else {
        MatchesIncrease(text, pattern, from + 1);
      }
    } else {
      NoneIncreases();
    }
  }

  lemma NoneIncreases()
    ensures Increasing([])
  {
  }

  /** For a pattern that cannot overlap itself, the greedy matches are exactly its occurrences. */
  lemma MatchesAreOccurrences(text: string, pattern: string)
    requires StartsOnce(pattern)
    ensures forall i: nat :: i in MatchIndices(text, pattern, 0) <==> Occurs(text, pattern, i)
    ensures Increasing(MatchIndices(text, pattern, 0))
  {
    hide Occurs, MatchIndices;
    MatchesOccur(text, pattern, 0);
    MatchesIncrease(text, pattern, 0);
    forall i: nat | Occurs(text, pattern, i) ensures i in MatchIndices(text, pattern, 0) {
      OccurrenceIsMatched(text, pattern, 0, i);
    }
  }

  ghost predicate OccursOnlyAt(text: string, pattern: string, p: nat) {
    Occurs(text, pattern, p) && forall i: nat | Occurs(text, pattern, i) :: i == p
  }

  lemma FirstTwoDiffer(positions: seq<nat>)
    requires Increasing(positions) && 1 < |positions|
    ensures positions[0] != positions[1]
  {
  }

  /** The first match is the first occurrence. */
  lemma FirstMatch(text: string, pattern: string, p: nat)
    requires StartsOnce(pattern)
    ensures MatchIndices(text, pattern, 0) != [] && MatchIndices(text, pattern, 0)[0] == p <==>
      Occurs(text, pattern, p) && forall i: nat | i < p :: !Occurs(text, pattern, i)
  {
    hide Occurs, MatchIndices;
    var matches := MatchIndices(text, pattern, 0);
    MatchesAreOccurrences(text, pattern);
    assert forall a | 0 <= a < |matches| :: matches[a] in matches;
    assert forall a | 0 < a < |matches| :: matches[0] < matches[a];
    if p in matches {
      var a :| 0 <= a < |matches| && matches[a] == p;
      assert a > 0 ==> Occurs(text, pattern, matches[0]);
    }
  }

  lemma SingleMatch(text: string, pattern: string, p: nat)
    requires StartsOnce(pattern)
    ensures MatchIndices(text, pattern, 0) == [p] <==> OccursOnlyAt(text, pattern, p)
  {
    hide Occurs, MatchIndices;
    var matches := MatchIndices(text, pattern, 0);
    MatchesAreOccurrences(text, pattern);
    assert forall a | 0 <= a < |matches| :: matches[a] in matches;
    if OccursOnlyAt(text, pattern, p) {
      assert p in matches && matches[0] == p;
      if 1 < |matches| {
        FirstTwoDiffer(matches);
      }
    }
    assert matches == [p] ==> p in matches;
  }

  lemma OccursWithin(left: string, text: string, right: string, pattern: string, i: nat)
    requires Occurs(left + text + right, pattern, i) && |left| <= i
    requires i + |pattern| <= |left| + |text|
    ensures Occurs(text, pattern, i - |left|)
  {
    var whole := left + text + right;
    assert whole[i..i + |pattern|] == text[i - |left|..i - |left| + |pattern|];
  }

  lemma OccursInWhole(left: string, text: string, right: string, pattern: string, i: nat)
    requires Occurs(text, pattern, i)
    ensures Occurs(left + text + right, pattern, |left| + i)
  {
    var whole := left + text + right;
    assert whole[|left| + i..|left| + i + |pattern|] == text[i..i + |pattern|];
  }
}
