// globMatch of contract/contract.go against the language of a pattern: each '*' stands for any
// string. Taking every middle part at its leftmost place loses no match.
module Glob {
  import opened Text

  // ---- the language ----

  function Stars(p: string): nat {
    if p == "" then 0 else (if p[0] == '*' then 1 else 0) + Stars(p[1..])
  }

  /** The pattern with its stars replaced one by one. */
  function Fill(p: string, fills: seq<string>): string
    requires |fills| == Stars(p)
  {
    if p == "" then ""
    else if p[0] == '*' then fills[0] + Fill(p[1..], fills[1..])
    else [p[0]] + Fill(p[1..], fills)
  }

  ghost predicate Matches(p: string, s: string) {
    exists fills :: |fills| == Stars(p) && Fill(p, fills) == s
  }

  // ---- the code's view: the parts between the stars ----

  predicate HasPrefix(s: string, part: string) {
    |part| <= |s| && s[..|part|] == part
  }

  predicate HasSuffix(s: string, part: string) {
    |part| <= |s| && s[|s| - |part|..] == part
  }

  /** s is parts[0], then anything, then parts[1], and so on. */
  ghost predicate PartsMatch(parts: seq<string>, s: string)
    requires |parts| >= 1
    decreases |parts|, 0
  {
    if |parts| == 1 then s == parts[0]
    else HasPrefix(s, parts[0]) && Later(parts[1..], s[|parts[0]|..])
  }

  /** Anything, then the parts. */
  ghost predicate Later(parts: seq<string>, s: string)
    requires |parts| >= 1
    decreases |parts|, 1
  {
    exists k :: 0 <= k <= |s| && PartsMatch(parts, s[k..])
  }

  lemma StarMatches(p: string, s: string)
    requires p != "" && p[0] == '*'
    ensures Matches(p, s) <==> exists k :: 0 <= k <= |s| && Matches(p[1..], s[k..])
  {
    if Matches(p, s) {
      var fills :| |fills| == Stars(p) && Fill(p, fills) == s;
      assert s[|fills[0]|..] == Fill(p[1..], fills[1..]);
    }
    if k :| 0 <= k <= |s| && Matches(p[1..], s[k..]) {
      var fills :| |fills| == Stars(p[1..]) && Fill(p[1..], fills) == s[k..];
      var more := [s[..k]] + fills;
      assert more[1..] == fills;
      assert Fill(p, more) == s[..k] + s[k..] == s;
    }
  }

  lemma CharMatches(p: string, s: string)
    requires p != "" && p[0] != '*'
    ensures Matches(p, s) <==> s != "" && s[0] == p[0] && Matches(p[1..], s[1..])
  {
    if Matches(p, s) {
      var fills :| |fills| == Stars(p) && Fill(p, fills) == s;
      assert s[1..] == Fill(p[1..], fills);
    }
    if s != "" && s[0] == p[0] && Matches(p[1..], s[1..]) {
      var fills :| |fills| == Stars(p[1..]) && Fill(p[1..], fills) == s[1..];
      assert Fill(p, fills) == [s[0]] + s[1..] == s;
    }
  }

  lemma StarParts(rest: seq<string>, s: string)
    requires |rest| >= 1
    ensures PartsMatch([""] + rest, s) <==> exists k :: 0 <= k <= |s| && PartsMatch(rest, s[k..])
  {
    assert ([""] + rest)[1..] == rest && s[0..] == s;
  }

  lemma CharParts(c: char, rest: seq<string>, s: string)
    requires |rest| >= 1
    ensures PartsMatch([[c] + rest[0]] + rest[1..], s) <==> s != "" && s[0] == c && PartsMatch(rest, s[1..])
  {
    var first := [c] + rest[0];
    var parts := [first] + rest[1..];
    assert parts[1..] == rest[1..];
    PrefixStep(c, rest[0], s);
    hide HasPrefix, Later;
  }

  lemma PrefixStep(c: char, part: string, s: string)
    ensures HasPrefix(s, [c] + part) <==> s != "" && s[0] == c && HasPrefix(s[1..], part)
    ensures s == [c] + part <==> s != "" && s[0] == c && s[1..] == part
    ensures |part| + 1 <= |s| ==> s[|part| + 1..] == s[1..][|part|..]
  {
    if s != "" {
      assert s == [s[0]] + s[1..];
      if |part| + 1 <= |s| {
        assert s[..|part| + 1] == [s[0]] + s[1..][..|part|];
        assert s[1..][..|part|] == s[..|part| + 1][1..];
      }
    }
  }

  /** Splitting at the stars loses nothing. */
  lemma {:induction false} MatchesByParts(p: string, s: string)
    ensures Matches(p, s) <==> PartsMatch(Split(p, '*'), s)
    decreases |p|
  {
    if p == "" {
      assert Fill("", []) == "";
    } else {
      var rest := Split(p[1..], '*');
      if p[0] == '*' {
        assert Split(p, '*') == [""] + rest;
        StarMatches(p, s);
        StarParts(rest, s);
        hide Matches, PartsMatch;
        forall k | 0 <= k <= |s|
          ensures Matches(p[1..], s[k..]) <==> PartsMatch(rest, s[k..])
        {
          MatchesByParts(p[1..], s[k..]);
        }
      } else {
        assert Split(p, '*') == [[p[0]] + rest[0]] + rest[1..];
        CharMatches(p, s);
        CharParts(p[0], rest, s);
        hide Matches, PartsMatch;
        if s != "" {
          MatchesByParts(p[1..], s[1..]);
        }
      }
    }
  }

  /** More in front does no harm. */
  lemma LaterOfSuffix(parts: seq<string>, s: string, j: nat)
    requires |parts| >= 1 && j <= |s| && Later(parts, s[j..])
    ensures Later(parts, s)
  {
    var k :| 0 <= k <= |s[j..]| && PartsMatch(parts, s[j..][k..]);
    assert s[j..][k..] == s[j + k..];
  }

  ghost predicate OccursAt(s: string, part: string, k: int) {
    0 <= k <= |s| && HasPrefix(s[k..], part)
  }

  /** strings.Index: the leftmost occurrence, or -1. */
  method Index(s: string, part: string) returns (idx: int)
    ensures idx == -1 ==> forall k :: !OccursAt(s, part, k)
    ensures idx != -1 ==> OccursAt(s, part, idx) && forall k :: k < idx ==> !OccursAt(s, part, k)
  {
    idx := 0;
    while idx <= |s|
      invariant 0 <= idx <= |s| + 1
      invariant forall k :: k < idx ==> !OccursAt(s, part, k)
    {
      if HasPrefix(s[idx..], part) {
        return;
      }
      idx := idx + 1;
    }
    idx := -1;
  }

  /** The leftmost occurrence of the next part decides. */
  lemma GreedyIsEnough(parts: seq<string>, s: string, idx: int)
    requires |parts| >= 2
    requires idx == -1 ==> forall k :: !OccursAt(s, parts[0], k)
    requires idx != -1 ==> OccursAt(s, parts[0], idx) && forall k :: k < idx ==> !OccursAt(s, parts[0], k)
    ensures Later(parts, s) <==> idx != -1 && Later(parts[1..], s[idx + |parts[0]|..])
  {
    var n := |parts[0]|;
    if Later(parts, s) {
      var k :| 0 <= k <= |s| && PartsMatch(parts, s[k..]);
      assert OccursAt(s, parts[0], k);
      assert s[k..][n..] == s[k + n..] == s[idx + n..][k - idx..];
      LaterOfSuffix(parts[1..], s[idx + n..], k - idx);
    }
    if idx != -1 && Later(parts[1..], s[idx + n..]) {
      assert s[idx..][n..] == s[idx + n..];
      assert PartsMatch(parts, s[idx..]);
    }
  }

  lemma LastPart(part: string, s: string)
    ensures Later([part], s) <==> HasSuffix(s, part)
  {
    if HasSuffix(s, part) {
      assert PartsMatch([part], s[|s| - |part|..]);
    }
    if Later([part], s) {
      var k :| 0 <= k <= |s| && PartsMatch([part], s[k..]);
    }
  }

  lemma {:induction false} NoStarOnePart(p: string)
    ensures |Split(p, '*')| == 1 <==> '*' !in p
    ensures |Split(p, '*')| == 1 ==> Split(p, '*')[0] == p
  {
    if p != "" {
      NoStarOnePart(p[1..]);
    }
  }

  /** globMatch: true exactly on the strings the pattern stands for. */
  method GlobMatch(pattern: string, text: string) returns (matched: bool)
    ensures matched <==> Matches(pattern, text)
  {
    NoStarOnePart(pattern);
    MatchesByParts(pattern, text);
    hide Matches, Split, PartsMatch, Later;
    if '*' !in pattern {
      assert Split(pattern, '*') == [pattern];
      OnePart(pattern, text);
      return pattern == text;
    }
    var parts := Split(pattern, '*');
    assert |parts| >= 2;
    FirstPart(parts, text);
    if !HasPrefix(text, parts[0]) {
      return false;
    }
    var s := text[|parts[0]|..];
    var i := 1;
    while i < |parts| - 1
      invariant 1 <= i <= |parts| - 1
      invariant Matches(pattern, text) <==> Later(parts[i..], s)
    {
      var idx := Index(s, parts[i]);
      GreedyIsEnough(parts[i..], s, idx);
      if idx == -1 {
        return false;
      }
      assert parts[i..][1..] == parts[i + 1..];
      s := s[idx + |parts[i]|..];
      i := i + 1;
    }
    assert parts[i..] == [parts[|parts| - 1]];
    LastPart(parts[|parts| - 1], s);
    matched := HasSuffix(s, parts[|parts| - 1]);
  }

  lemma OnePart(p: string, s: string)
    ensures PartsMatch([p], s) <==> s == p
  {
  }

  lemma FirstPart(parts: seq<string>, s: string)
    requires |parts| >= 2
    ensures PartsMatch(parts, s) <==> HasPrefix(s, parts[0]) && Later(parts[1..], s[|parts[0]|..])
  {
  }
}
