// versionAtLeast of host/register.go: the comparison behind a dependency's MinVersion.
module Version {
  import opened Text

  const MAX_INT: int := 0x7fff_ffff_ffff_ffff
  const MIN_INT: int := -0x8000_0000_0000_0000

  /** The white space strings.TrimSpace removes (Unicode White_Space). */
  predicate IsSpace(c: char) {
    var n := c as int;
    9 <= n <= 13 || n == 0x20 || n == 0x85 || n == 0xA0 || n == 0x1680 ||
    n == 0x2028 || n == 0x2029 || n == 0x202F || n == 0x205F || n == 0x3000 || 0x2000 <= n <= 0x200A
  }

  function TrimLeft(s: string): string {
    if s != "" && IsSpace(s[0]) then TrimLeft(s[1..]) else s
  }

  function TrimRight(s: string): string {
    if s != "" && IsSpace(s[|s| - 1]) then TrimRight(s[..|s| - 1]) else s
  }

  function DigitsValue(s: string): nat {
    if s == "" then 0
    else 10 * DigitsValue(s[..|s| - 1]) + (if '0' <= s[|s| - 1] <= '9' then s[|s| - 1] as int - '0' as int else 0)
  }

  /** strconv.Atoi with its error dropped: 0 for a syntax error, the nearest 64-bit value when out of range. */
  function Atoi(s: string): int {
    var signed := s != "" && (s[0] == '-' || s[0] == '+');
    var digits := if signed then s[1..] else s;
    if digits == "" || exists c :: c in digits && !('0' <= c <= '9') then 0
    else
      var v := if s[0] == '-' then -(DigitsValue(digits) as int) else DigitsValue(digits) as int;
      if v > MAX_INT then MAX_INT else if v < MIN_INT then MIN_INT else v
  }

  function SegmentValue(part: string): int {
    Atoi(TrimRight(TrimLeft(part)))
  }

  function SegmentValues(parts: seq<string>): (v: seq<int>)
    ensures |v| == |parts|
    ensures forall i :: 0 <= i < |v| ==> v[i] == SegmentValue(parts[i])
  {
    seq(|parts|, i requires 0 <= i < |parts| => SegmentValue(parts[i]))
  }

  /** The numbers a version string stands for. */
  function Segments(s: string): seq<int> {
    SegmentValues(Split(s, '.'))
  }

  /** Segment i of a version, missing segments reading as 0. */
  function At(v: seq<int>, i: nat): int {
    if i < |v| then v[i] else 0
  }

  /** The comparison from segment i on: only the segments of w are looked at. */
  function AtLeastFrom(g: seq<int>, w: seq<int>, i: nat): bool
    decreases |w| - i
  {
    if i >= |w| then true
    else if At(g, i) != w[i] then At(g, i) > w[i]
    else AtLeastFrom(g, w, i + 1)
  }

  function AtLeast(got: string, want: string): bool {
    want == "" || AtLeastFrom(Segments(got), Segments(want), 0)
  }

  /** The loop of versionAtLeast, on the numbers of the segments. */
  method CompareSegments(g: seq<int>, w: seq<int>) returns (ok: bool)
    ensures ok == AtLeastFrom(g, w, 0)
  {
    var i := 0;
    while i < |w|
      invariant 0 <= i <= |w|
      invariant AtLeastFrom(g, w, 0) == AtLeastFrom(g, w, i)
    {
      var gi := 0;
      if i < |g| {
        gi := g[i];
      }
      if gi != w[i] {
        return gi > w[i];
      }
      i := i + 1;
    }
    ok := true;
  }

  method VersionAtLeast(got: string, want: string) returns (ok: bool)
    ensures ok == AtLeast(got, want)
  {
    if want == "" {
      return true;
    }
    ok := CompareSegments(Segments(got), Segments(want));
  }

  // ---- the order it is meant to be ----

  /** g and w agree on every segment below n. */
  ghost predicate Agree(g: seq<int>, w: seq<int>, n: nat) {
    forall i: nat :: i < n ==> At(g, i) == At(w, i)
  }

  /** g is greater than w at segment n and equal before it. */
  ghost predicate Above(g: seq<int>, w: seq<int>, n: nat) {
    Agree(g, w, n) && At(g, n) > At(w, n)
  }

  /** Lexicographic order on the sequences padded with zeros without end. */
  ghost predicate NotBelow(g: seq<int>, w: seq<int>) {
    (forall i: nat :: At(g, i) == At(w, i)) || exists n: nat :: Above(g, w, n)
  }

  ghost predicate NonNegative(v: seq<int>) {
    forall i :: 0 <= i < |v| ==> v[i] >= 0
  }

  /** w is a prefix of g up to zeros and g's first other non-zero segment is negative: "1.-1" against "1". */
  ghost predicate NegativeTail(g: seq<int>, w: seq<int>) {
    Agree(g, w, |w|) && exists n: nat :: |w| <= n && Above(w, g, n)
  }

  lemma {:induction false} AtLeastFromMeaning(g: seq<int>, w: seq<int>, i: nat)
    requires i <= |w| && Agree(g, w, i)
    ensures AtLeastFrom(g, w, i) <==> Agree(g, w, |w|) || exists n: nat :: n < |w| && Above(g, w, n)
    decreases |w| - i
  {
    if i == |w| {
    } else if At(g, i) == w[i] {
      AtLeastFromMeaning(g, w, i + 1);
    } else {
      assert At(w, i) == w[i];
      if At(g, i) > w[i] {
        assert Above(g, w, i);
      } else {
        forall n: nat | n < |w|
          ensures !Above(g, w, n)
        {
          if n < i {
            assert At(g, n) == At(w, n);
          } else if n > i {
            assert !Agree(g, w, n) by {
              assert At(g, i) != At(w, i);
            }
          }
        }
      }
    }
  }

  lemma {:induction false} FirstDifference(g: seq<int>, w: seq<int>, n: nat)
    requires At(g, n) != At(w, n)
    ensures exists k: nat :: k <= n && (Above(g, w, k) || Above(w, g, k))
  {
    if Agree(g, w, n) {
      assert Above(g, w, n) || Above(w, g, n);
    } else {
      var m: nat :| m < n && At(g, m) != At(w, m);
      FirstDifference(g, w, m);
    }
  }

  lemma AboveOnce(g: seq<int>, w: seq<int>, n: nat)
    requires Above(w, g, n)
    ensures !NotBelow(g, w)
  {
    assert At(w, n) != At(g, n);
    forall m: nat
      ensures !Above(g, w, m)
    {
      if m < n {
        assert At(w, m) == At(g, m);
      } else if n < m {
        assert !Agree(g, w, m);
      }
    }
  }

  /** The code computes the padded order exactly when the longer version has no negative tail. */
  lemma AtLeastIsPaddedOrder(g: seq<int>, w: seq<int>)
    ensures (AtLeastFrom(g, w, 0) <==> NotBelow(g, w)) <==> !NegativeTail(g, w)
  {
    AtLeastFromMeaning(g, w, 0);
    if NegativeTail(g, w) {
      var n: nat :| |w| <= n && Above(w, g, n);
      AboveOnce(g, w, n);
    } else if Agree(g, w, |w|) {
      if !(forall i: nat :: At(g, i) == At(w, i)) {
        var n: nat :| At(g, n) != At(w, n);
        FirstDifference(g, w, n);
        var k: nat :| Above(g, w, k) || Above(w, g, k);
        assert k < |w| ==> At(g, k) == At(w, k);
      }
    } else {
      var i: nat :| i < |w| && At(g, i) != At(w, i);
      forall m: nat | Above(g, w, m)
        ensures m < |w|
      {
        assert m > i ==> !Agree(g, w, m);
      }
    }
  }

  lemma NonNegativeHasNoNegativeTail(g: seq<int>, w: seq<int>)
    requires NonNegative(g)
    ensures AtLeastFrom(g, w, 0) <==> NotBelow(g, w)
  {
    AtLeastIsPaddedOrder(g, w);
    forall n: nat | |w| <= n
      ensures !Above(w, g, n)
    {
      assert At(w, n) == 0;
      assert At(g, n) >= 0;
    }
  }

  lemma {:induction false} PaddedOrderIsTotalPreorder(a: seq<int>, b: seq<int>, c: seq<int>)
    ensures NotBelow(a, b) || NotBelow(b, a)
    ensures NotBelow(a, b) && NotBelow(b, c) ==> NotBelow(a, c)
  {
    if !(forall i: nat :: At(a, i) == At(b, i)) {
      var n: nat :| At(a, n) != At(b, n);
      FirstDifference(a, b, n);
    }
    if NotBelow(a, b) && NotBelow(b, c) && !(forall i: nat :: At(a, i) == At(b, i)) && !(forall i: nat :: At(b, i) == At(c, i)) {
      var m: nat :| Above(a, b, m);
      var n: nat :| Above(b, c, n);
      var k := if m < n then m else n;
      assert Above(a, c, k);
    } else if NotBelow(a, b) && NotBelow(b, c) && exists n: nat :: Above(a, b, n) {
      var m: nat :| Above(a, b, m);
      assert Above(a, c, m);
    } else if NotBelow(a, b) && NotBelow(b, c) && exists n: nat :: Above(b, c, n) {
      var m: nat :| Above(b, c, m);
      assert Above(a, c, m);
    }
  }

  /** On versions without negative segments versionAtLeast is a total preorder. */
  lemma VersionOrder(a: string, b: string, c: string)
    requires NonNegative(Segments(a)) && NonNegative(Segments(b))
    ensures AtLeast(a, a)
    ensures AtLeast(a, b) || AtLeast(b, a)
    ensures AtLeast(a, b) && AtLeast(b, c) ==> AtLeast(a, c)
  {
    var x, y, z := Segments(a), Segments(b), Segments(c);
    NonNegativeHasNoNegativeTail(x, x);
    NonNegativeHasNoNegativeTail(x, y);
    NonNegativeHasNoNegativeTail(y, x);
    NonNegativeHasNoNegativeTail(y, z);
    NonNegativeHasNoNegativeTail(x, z);
    PaddedOrderIsTotalPreorder(x, y, z);
    if b == "" {
      assert y == [0];
      assert AtLeastFrom(x, y, 0) by {
        assert At(x, 0) >= 0;
        AtLeastFromMeaning(x, y, 0);
        if At(x, 0) > 0 { assert Above(x, y, 0); }
      }
    }
  }

  /** With a negative segment transitivity is lost: 1.-1 passes for 1, 1 passes for 1.0, 1.-1 does not pass for 1.0. */
  lemma NegativeSegmentsBreakTransitivity()
    ensures var a, b, c := [1, -1], [1], [1, 0];
            AtLeastFrom(a, b, 0) && AtLeastFrom(b, c, 0) && !AtLeastFrom(a, c, 0)
  {
    var a, b, c := [1, -1], [1], [1, 0];
    assert AtLeastFrom(a, b, 1);
    assert AtLeastFrom(b, c, 2) && AtLeastFrom(b, c, 1);
    assert !AtLeastFrom(a, c, 1);
  }
}
