// What the segments of a version string read as: decimal numerals give their numbers, everything else gives 0.
module VersionText {
  import opened Text
  import opened Version

  // ---- numerals, independently of the reader ----

  predicate IsDigit(c: char) {
    '0' <= c <= '9'
  }

  predicate Digits(s: string) {
    s != "" && forall c :: c in s ==> IsDigit(c)
  }

  predicate Blank(s: string) {
    forall c :: c in s ==> IsSpace(c)
  }

  function Power10(n: nat): (r: nat)
    ensures r >= 1
  {
    if n == 0 then 1 else 10 * Power10(n - 1)
  }

  /** Every digit counts by its place: the first of n digits counts 10 to the n - 1. */
  function PlaceValue(s: string): nat {
    if s == "" then 0
    else (if IsDigit(s[0]) then s[0] as int - '0' as int else 0) * Power10(|s| - 1) + PlaceValue(s[1..])
  }

  /** The largest 64-bit integer. */
  const LARGEST: int := 9_223_372_036_854_775_807

  function Clamp(v: int): int {
    if v > LARGEST then LARGEST else if v < -LARGEST - 1 then -LARGEST - 1 else v
  }

  /** An optional sign and digits. */
  ghost predicate Numeral(s: string) {
    Digits(s) || (s != "" && (s[0] == '+' || s[0] == '-') && Digits(s[1..]))
  }

  function NumeralValue(s: string): int {
    if s == "" then 0
    else if s[0] == '-' then Clamp(-(PlaceValue(s[1..]) as int))
    else if s[0] == '+' then Clamp(PlaceValue(s[1..]))
    else Clamp(PlaceValue(s))
  }

  /** The decimal writer. */
  function Decimal(n: nat): string {
    if n < 10 then ["0123456789"[n]] else Decimal(n / 10) + ["0123456789"[n % 10]]
  }

  // ---- reading digits ----

  lemma {:induction false} PlaceValueSnoc(s: string, c: char)
    ensures PlaceValue(s + [c]) == 10 * PlaceValue(s) + (if IsDigit(c) then c as int - '0' as int else 0)
  {
    if s == "" {
      assert (s + [c])[1..] == "";
      assert Power10(0) == 1;
    } else {
      assert (s + [c])[1..] == s[1..] + [c];
      PlaceValueSnoc(s[1..], c);
      assert Power10(|s|) == 10 * Power10(|s| - 1);
      TenTimes(if IsDigit(s[0]) then s[0] as int - '0' as int else 0, Power10(|s| - 1));
    }
  }

  lemma TenTimes(d: int, p: int)
    ensures d * (10 * p) == 10 * (d * p)
  {
  }

  /** The reader's left-to-right accumulation gives the place value. */
  lemma {:induction false} ReadsPlaces(s: string)
    ensures DigitsValue(s) == PlaceValue(s)
  {
    if s != "" {
      var front, last := s[..|s| - 1], s[|s| - 1];
      ReadsPlaces(front);
      assert s == front + [last];
      PlaceValueSnoc(front, last);
    }
  }

  lemma {:induction false} DecimalIsRead(n: nat)
    ensures Digits(Decimal(n)) && PlaceValue(Decimal(n)) == n
  {
    if n < 10 {
      assert Power10(0) == 1;
      assert Decimal(n)[1..] == "";
    } else {
      DecimalIsRead(n / 10);
      PlaceValueSnoc(Decimal(n / 10), "0123456789"[n % 10]);
    }
  }

  // ---- trimming ----

  /** The 25 characters of Unicode's White_Space. */
  const WHITE_SPACE: string :=
    "\U{9}\U{A}\U{B}\U{C}\U{D}\U{20}\U{85}\U{A0}\U{1680}\U{2000}\U{2001}\U{2002}\U{2003}\U{2004}\U{2005}\U{2006}" +
    "\U{2007}\U{2008}\U{2009}\U{200A}\U{2028}\U{2029}\U{202F}\U{205F}\U{3000}"

  lemma SpaceIsWhite(c: char)
    ensures IsSpace(c) <==> c in WHITE_SPACE
  {
    var codes := [9, 10, 11, 12, 13, 0x20, 0x85, 0xA0, 0x1680, 0x2000, 0x2001, 0x2002, 0x2003, 0x2004, 0x2005, 0x2006,
                  0x2007, 0x2008, 0x2009, 0x200A, 0x2028, 0x2029, 0x202F, 0x205F, 0x3000];
    assert |WHITE_SPACE| == |codes| && forall i :: 0 <= i < |codes| ==> WHITE_SPACE[i] as int == codes[i];
    if IsSpace(c) {
      assert c as int in codes;
      var i :| 0 <= i < |codes| && codes[i] == c as int;
      assert WHITE_SPACE[i] == c;
    }
  }

  ghost predicate Bare(s: string) {
    s != "" ==> !IsSpace(s[0]) && !IsSpace(s[|s| - 1])
  }

  lemma {:induction false} LeftTrimmed(left: string, s: string)
    requires Blank(left) && (s != "" ==> !IsSpace(s[0]))
    ensures TrimLeft(left + s) == s
  {
    if left == "" {
      assert left + s == s;
    } else {
      assert (left + s)[1..] == left[1..] + s;
      assert left[0] in left;
      LeftTrimmed(left[1..], s);
    }
  }

  lemma {:induction false} RightTrimmed(s: string, right: string)
    requires Blank(right) && (s != "" ==> !IsSpace(s[|s| - 1]))
    ensures TrimRight(s + right) == s
  {
    if right == "" {
      assert s + right == s;
    } else {
      assert (s + right)[..|s + right| - 1] == s + right[..|right| - 1];
      assert right[|right| - 1] in right;
      RightTrimmed(s, right[..|right| - 1]);
    }
  }

  lemma {:induction false} BlankTrims(left: string, right: string)
    requires Blank(left) && Blank(right)
    ensures TrimRight(TrimLeft(left + right)) == ""
  {
    if left == "" {
      assert left + right == right + "";
      LeftTrimmed(right, "");
    } else {
      assert (left + right)[1..] == left[1..] + right;
      assert left[0] in left;
      BlankTrims(left[1..], right);
    }
  }

  lemma Trimmed(left: string, core: string, right: string)
    requires Blank(left) && Bare(core) && Blank(right)
    ensures TrimRight(TrimLeft(left + core + right)) == core
  {
    if core == "" {
      assert left + core + right == left + right;
      BlankTrims(left, right);
    } else {
      assert left + core + right == left + (core + right);
      LeftTrimmed(left, core + right);
      RightTrimmed(core, right);
    }
  }

  /** s is blanks, a bare core, blanks. */
  ghost predicate Cored(s: string, left: string, core: string, right: string) {
    Blank(left) && Bare(core) && Blank(right) && s == left + core + right
  }

  lemma CoreBehind(s: string, left: string, core: string, right: string)
    requires s != "" && IsSpace(s[0]) && Cored(s[1..], left, core, right)
    ensures Cored(s, [s[0]] + left, core, right)
  {
    hide IsSpace, Bare;
    assert s == [s[0]] + left + core + right;
  }

  lemma CoreBefore(s: string, left: string, core: string, right: string)
    requires s != "" && IsSpace(s[|s| - 1]) && Cored(s[..|s| - 1], left, core, right)
    ensures Cored(s, left, core, right + [s[|s| - 1]])
  {
    hide IsSpace, Bare;
    assert s == left + core + (right + [s[|s| - 1]]);
  }

  /** Every segment is of this form. */
  lemma {:induction false} HasCore(s: string) returns (left: string, core: string, right: string)
    ensures Cored(s, left, core, right)
  {
    if Bare(s) {
      left, core, right := "", s, "";
      assert s == "" + s + "";
    } else if IsSpace(s[0]) {
      hide Cored;
      left, core, right := HasCore(s[1..]);
      CoreBehind(s, left, core, right);
      left := [s[0]] + left;
    } else {
      hide Cored;
      left, core, right := HasCore(s[..|s| - 1]);
      CoreBefore(s, left, core, right);
      right := right + [s[|s| - 1]];
    }
  }

  // ---- segments ----

  /** A core that is a numeral. */
  lemma AtoiNumeral(core: string)
    requires Numeral(core)
    ensures Atoi(core) == NumeralValue(core)
  {
    var signed := core[0] == '-' || core[0] == '+';
    var digits := if signed then core[1..] else core;
    ReadsPlaces(digits);
    assert core[0] in core;
    assert Digits(digits);
  }

  lemma AtoiOther(core: string)
    requires !Numeral(core)
    ensures Atoi(core) == 0
  {
  }

  /** A segment reads as the number of its numeral, clamped to 64 bits, whatever blanks surround it, and as 0 when there is
      none. */
  lemma SegmentReads(left: string, core: string, right: string)
    requires Blank(left) && Bare(core) && Blank(right)
    ensures SegmentValue(left + core + right) == if Numeral(core) then NumeralValue(core) else 0
  {
    Trimmed(left, core, right);
    if Numeral(core) {
      AtoiNumeral(core);
    } else {
      AtoiOther(core);
    }
  }

  lemma DigitsAreBare(s: string)
    requires Numeral(s)
    ensures Bare(s)
  {
    assert s[0] in s && s[|s| - 1] in s;
    if |s| > 1 {
      assert s[|s| - 1] == s[1..][|s| - 2] && s[1..][|s| - 2] in s[1..];
    }
  }

  /** Written in decimal and read back, with or without a sign and blanks. */
  lemma DecimalRoundTrip(left: string, n: nat, right: string)
    requires Blank(left) && Blank(right) && n <= LARGEST
    ensures SegmentValue(left + Decimal(n) + right) == n
    ensures SegmentValue(left + ("+" + Decimal(n)) + right) == n
    ensures SegmentValue(left + ("-" + Decimal(n)) + right) == -(n as int)
  {
    DecimalIsRead(n);
    var d := Decimal(n);
    assert ("+" + d)[1..] == d && ("-" + d)[1..] == d;
    assert d[0] in d;
    DigitsAreBare(d);
    DigitsAreBare("+" + d);
    DigitsAreBare("-" + d);
    SegmentReads(left, d, right);
    SegmentReads(left, "+" + d, right);
    SegmentReads(left, "-" + d, right);
  }

  // ---- versions ----

  lemma {:induction false} SplitWhole(part: string, sep: char)
    requires sep !in part
    ensures Split(part, sep) == [part]
  {
    if part != "" {
      assert part[0] in part && forall c :: c in part[1..] ==> c in part;
      SplitWhole(part[1..], sep);
      assert [part[0]] + part[1..] == part;
    }
  }

  lemma {:induction false} SplitPart(part: string, rest: string, sep: char)
    requires sep !in part
    ensures Split(part + [sep] + rest, sep) == [part] + Split(rest, sep)
  {
    var s := part + [sep] + rest;
    if part == "" {
      assert s[1..] == rest;
    } else {
      assert part[0] in part && forall c :: c in part[1..] ==> c in part;
      SplitPart(part[1..], rest, sep);
      assert s[1..] == part[1..] + [sep] + rest;
      assert [part[0]] + part[1..] == part;
    }
  }

  /** Splitting undoes joining. */
  lemma {:induction false} JoinSplit(parts: seq<string>, sep: char)
    requires |parts| >= 1 && forall i :: 0 <= i < |parts| ==> sep !in parts[i]
    ensures Split(Join(parts, sep), sep) == parts
  {
    if |parts| == 1 {
      SplitWhole(parts[0], sep);
    } else {
      JoinSplit(parts[1..], sep);
      SplitPart(parts[0], Join(parts[1..], sep), sep);
    }
  }

  function Numerals(ns: seq<nat>): (parts: seq<string>)
    ensures |parts| == |ns| && forall i :: 0 <= i < |ns| ==> parts[i] == Decimal(ns[i])
  {
    seq(|ns|, i requires 0 <= i < |ns| => Decimal(ns[i]))
  }

  /** "1.2.10" for [1, 2, 10]. */
  function Render(ns: seq<nat>): string
    requires ns != []
  {
    Join(Numerals(ns), '.')
  }

  predicate Fits(ns: seq<nat>) {
    ns != [] && forall i :: 0 <= i < |ns| ==> ns[i] <= LARGEST
  }

  /** The segments of a rendered version are its numbers. */
  lemma SegmentsOfRendered(ns: seq<nat>)
    requires Fits(ns)
    ensures |Segments(Render(ns))| == |ns| && forall i :: 0 <= i < |ns| ==> Segments(Render(ns))[i] == ns[i]
  {
    forall i | 0 <= i < |ns|
      ensures '.' !in Numerals(ns)[i] && SegmentValue(Numerals(ns)[i]) == ns[i]
    {
      DecimalIsRead(ns[i]);
      DecimalRoundTrip("", ns[i], "");
      assert "" + Decimal(ns[i]) + "" == Decimal(ns[i]);
    }
    JoinSplit(Numerals(ns), '.');
  }

  lemma {:induction false} RenderedNotEmpty(ns: seq<nat>)
    requires ns != []
    ensures Render(ns) != ""
  {
    DecimalIsRead(ns[0]);
  }

  /** So rendered versions compare as the zero-padded lists of their numbers: 1.9 is below 1.10. */
  lemma RenderedOrder(g: seq<nat>, w: seq<nat>)
    requires Fits(g) && Fits(w)
    ensures AtLeast(Render(g), Render(w)) <==> NotBelow(g, w)
  {
    SegmentsOfRendered(g);
    SegmentsOfRendered(w);
    RenderedNotEmpty(w);
    assert Segments(Render(g)) == g && Segments(Render(w)) == w;
    NonNegativeHasNoNegativeTail(g, w);
  }

  lemma NineIsBelowTen()
    ensures !AtLeast("1.9", "1.10") && AtLeast("1.10", "1.9")
  {
    assert Decimal(1) == "1" && Decimal(9) == "9" && Decimal(10) == "10";
    assert Numerals([1, 9]) == ["1", "9"] && Numerals([1, 10]) == ["1", "10"];
    assert Join(["9"], '.') == "9" && Join(["10"], '.') == "10";
    assert ["1", "9"][1..] == ["9"] && ["1", "10"][1..] == ["10"];
    assert Render([1, 9]) == "1.9" && Render([1, 10]) == "1.10";
    RenderedOrder([1, 9], [1, 10]);
    RenderedOrder([1, 10], [1, 9]);
    assert Above([1, 10], [1, 9], 1);
    AboveOnce([1, 9], [1, 10], 1);
  }

  // ---- words ----

  /** Without the blanks around it the part is no numeral. */
  ghost predicate Word(part: string) {
    forall left, core, right :: Cored(part, left, core, right) ==> !Numeral(core)
  }

  /** Segments that are no numerals are not compared as text: they read as 0, so that versions of words are all alike. */
  lemma WordsTie(g: string, w: string)
    requires forall i :: 0 <= i < |Split(g, '.')| ==> Word(Split(g, '.')[i])
    requires forall i :: 0 <= i < |Split(w, '.')| ==> Word(Split(w, '.')[i])
    ensures AtLeast(g, w) && AtLeast(w, g)
  {
    hide Word;
    forall i | 0 <= i < |Split(g, '.')|
      ensures Segments(g)[i] == 0
    {
      WordIsZero(Split(g, '.')[i]);
    }
    forall i | 0 <= i < |Split(w, '.')|
      ensures Segments(w)[i] == 0
    {
      WordIsZero(Split(w, '.')[i]);
    }
    NoughtsTie(Segments(g), Segments(w), 0);
    NoughtsTie(Segments(w), Segments(g), 0);
  }

  lemma WordIsZero(part: string)
    requires Word(part)
    ensures SegmentValue(part) == 0
  {
    var left, core, right := HasCore(part);
    SegmentReads(left, core, right);
  }

  lemma {:induction false} NoughtsTie(g: seq<int>, w: seq<int>, i: nat)
    requires (forall j :: 0 <= j < |g| ==> g[j] == 0) && forall j :: 0 <= j < |w| ==> w[j] == 0
    ensures AtLeastFrom(g, w, i)
    decreases |w| - i
  {
    if i < |w| {
      NoughtsTie(g, w, i + 1);
    }
  }
}
