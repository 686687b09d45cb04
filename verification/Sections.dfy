// parseCustomManifest of loader/wasm/load.go: the custom section "egop.manifest" of a WebAssembly
// binary (WebAssembly Core Specification, sections 5.5.2 and 5.5.3).
module Sections {
  import opened Text
  import opened Leb128

  datatype Outcome = NotFound | Found(raw: seq<byte>) | BadMagic | BadSize | Overrun | BadName

  /** The bytes of "\0asm". */
  predicate IsMagic(s: seq<byte>) {
    s == [0x00, 0x61, 0x73, 0x6d]
  }

  /** The bytes of "egop.manifest". */
  predicate IsManifest(name: seq<byte>) {
    name == [0x65, 0x67, 0x6f, 0x70, 0x2e, 0x6d, 0x61, 0x6e, 0x69, 0x66, 0x65, 0x73, 0x74]
  }

  /** The head of a section: the length of its head bytes and its content, or what is wrong. */
  datatype Head = Head(skip: nat, content: seq<byte>) | NoHead(problem: Outcome)

  function HeadOf(s: seq<byte>): (h: Head)
    requires s != []
    ensures h.Head? ==> 2 <= h.skip && h.skip + |h.content| <= |s|
    ensures h.NoHead? ==> h.problem == BadSize || h.problem == Overrun
  {
    match Decode(s[1..], 0)
    case None => NoHead(BadSize)
    case Some((size, n)) =>
      if 1 + n + size > |s| then NoHead(Overrun) else Head(1 + n, s[1 + n..1 + n + size])
  }

  /** What a custom section's content says: its payload when it is the manifest, else not found. */
  function Custom(content: seq<byte>): (r: Outcome)
    ensures r == NotFound || r == BadName || r.Found?
  {
    match Decode(content, 0)
    case None => BadName
    case Some((nlen, nn)) =>
      if nlen > |content| - nn then BadName
      else if IsManifest(content[nn..nn + nlen]) then Found(content[nn + nlen..])
      else NotFound
  }

  /** The walk over the sections. */
  function Scan(s: seq<byte>): Outcome
    decreases |s|
  {
    if s == [] then NotFound
    else
      match HeadOf(s)
      case NoHead(problem) => problem
      case Head(skip, content) =>
        var here := if s[0] == 0 then Custom(content) else NotFound;
        if here != NotFound then here else Scan(s[skip + |content|..])
  }

  method ReadSection(bin: seq<byte>, pos: nat) returns (h: Head)
    requires pos < |bin|
    ensures h == HeadOf(bin[pos..])
  {
    var size, n := ReadULEB(bin, pos + 1);
    assert bin[pos..][1..] == bin[pos + 1..];
    if n == 0 {
      return NoHead(BadSize);
    }
    var end := pos + 1 + n + size;
    if end > |bin| {
      return NoHead(Overrun);
    }
    assert bin[pos..][1 + n..1 + n + size] == bin[pos + 1 + n..end];
    h := Head(1 + n, bin[pos + 1 + n..end]);
  }

  method ReadCustom(payload: seq<byte>) returns (r: Outcome)
    ensures r == Custom(payload)
  {
    var nlen, nn := ReadULEB(payload, 0);
    assert payload[0..] == payload;
    if nn == 0 || nlen > |payload| - nn {
      return BadName;
    }
    if IsManifest(payload[nn..nn + nlen]) {
      return Found(payload[nn + nlen..]);
    }
    r := NotFound;
  }

  function Parse(bin: seq<byte>): Outcome {
    if |bin| < 8 then NotFound else if !IsMagic(bin[..4]) then BadMagic else Scan(bin[8..])
  }

  lemma ScanStops(bin: seq<byte>, pos: nat, h: Head)
    requires pos < |bin| && h == HeadOf(bin[pos..])
    ensures h.NoHead? ==> Scan(bin[pos..]) == h.problem
    ensures h.Head? && bin[pos] == 0 && Custom(h.content) != NotFound ==> Scan(bin[pos..]) == Custom(h.content)
  {
    hide HeadOf, Custom;
  }

  lemma ScanGoesOn(bin: seq<byte>, pos: nat, h: Head, next: nat)
    requires pos < |bin| && h == HeadOf(bin[pos..]) && h.Head? && next == pos + h.skip + |h.content|
    requires bin[pos] == 0 ==> Custom(h.content) == NotFound
    ensures pos < next <= |bin| && Scan(bin[pos..]) == Scan(bin[next..])
  {
    hide HeadOf, Custom;
    assert bin[pos..][h.skip + |h.content|..] == bin[next..];
  }

  /** The loop body: the result, or where the next section starts. */
  method ReadOne(bin: seq<byte>, pos: nat) returns (stop: Option<Outcome>, next: nat)
    requires pos < |bin|
    ensures stop.Some? ==> Scan(bin[pos..]) == stop.value
    ensures stop.None? ==> pos < next <= |bin| && Scan(bin[pos..]) == Scan(bin[next..])
  {
    hide Scan, HeadOf, Custom;
    next := pos;
    var h := ReadSection(bin, pos);
    ScanStops(bin, pos, h);
    if h.NoHead? {
      return Some(h.problem), pos;
    }
    if bin[pos] == 0 {
      var here := ReadCustom(h.content);
      if here != NotFound {
        return Some(here), pos;
      }
    }
    stop, next := None, pos + h.skip + |h.content|;
    ScanGoesOn(bin, pos, h, next);
  }

  method ParseCustomManifest(bin: seq<byte>) returns (r: Outcome)
    ensures r == Parse(bin)
  {
    if |bin| < 8 {
      return NotFound;
    }
    if !IsMagic(bin[..4]) {
      return BadMagic;
    }
    var pos := 8;
    assert Scan(bin[|bin|..]) == NotFound;
    hide Scan;
    while pos < |bin|
      invariant 8 <= pos <= |bin|
      invariant Scan(bin[8..]) == Scan(bin[pos..])
      decreases |bin| - pos
    {
      var stop;
      stop, pos := ReadOne(bin, pos);
      if stop.Some? {
        return stop.value;
      }
    }
    r := NotFound;
  }

  // ---- encoding ----

  /** A section as it may be written: every length in any LEB128 encoding, shortest or padded. */
  datatype Section =
    | CustomSection(size: seq<byte>, nameSize: seq<byte>, name: seq<byte>, payload: seq<byte>)
    | OtherSection(size: seq<byte>, id: byte, body: seq<byte>)

  function Content(c: Section): seq<byte> {
    match c
    case CustomSection(size, nameSize, name, payload) => nameSize + name + payload
    case OtherSection(size, id, body) => body
  }

  function EncodeSection(c: Section): (s: seq<byte>)
    ensures s != []
  {
    [if c.CustomSection? then 0 else c.id] + c.size + Content(c)
  }

  function EncodeAll(cs: seq<Section>): seq<byte> {
    if cs == [] then [] else EncodeSection(cs[0]) + EncodeAll(cs[1..])
  }

  /** The lengths spell what they are about. */
  ghost predicate WellFormed(c: Section) {
    && Spells(c.size, |Content(c)|)
    && (if c.CustomSection? then Spells(c.nameSize, |c.name|) else c.id != 0)
  }

  /** A custom section with shortest lengths. */
  function Shortest(name: seq<byte>, payload: seq<byte>): Section {
    CustomSection(Encode(|Encode(|name|) + name + payload|), Encode(|name|), name, payload)
  }

  lemma ShortestIsWellFormed(name: seq<byte>, payload: seq<byte>)
    ensures WellFormed(Shortest(name, payload))
  {
    EncodeSpells(|Encode(|name|) + name + payload|);
    EncodeSpells(|name|);
  }

  /** The payload of the first manifest section; a length written in more than six bytes cannot be read past. */
  function FirstManifest(cs: seq<Section>): Outcome {
    if cs == [] then NotFound
    else
      var here := Telling(cs[0]);
      if here != NotFound then here else FirstManifest(cs[1..])
  }

  function Telling(c: Section): Outcome {
    if |c.size| > 6 then BadSize
    else if c.OtherSection? then NotFound
    else if |c.nameSize| > 6 then BadName
    else if IsManifest(c.name) then Found(c.payload)
    else NotFound
  }

  lemma HeadOfEncoded(c: Section, rest: seq<byte>)
    requires WellFormed(c)
    ensures HeadOf(EncodeSection(c) + rest) == if |c.size| > 6 then NoHead(BadSize) else Head(1 + |c.size|, Content(c))
  {
    var content := Content(c);
    var s := EncodeSection(c) + rest;
    var n := |c.size|;
    assert s[1..] == c.size + (content + rest);
    DecodeSpelled(c.size, |content|, content + rest);
    hide Spells, Decode, Content;
    assert s[1 + n..1 + n + |content|] == content;
  }

  lemma CustomOfEncoded(c: Section)
    requires WellFormed(c) && c.CustomSection?
    ensures Custom(Content(c)) == if |c.nameSize| > 6 then BadName else if IsManifest(c.name) then Found(c.payload) else NotFound
  {
    var content := Content(c);
    var n := |c.nameSize|;
    assert content == c.nameSize + (c.name + c.payload);
    DecodeSpelled(c.nameSize, |c.name|, c.name + c.payload);
    hide Spells, Decode;
    assert content[n..n + |c.name|] == c.name;
    assert content[n + |c.name|..] == c.payload;
  }

  lemma ScanStep(c: Section, rest: seq<byte>)
    requires WellFormed(c)
    ensures Scan(EncodeSection(c) + rest) == if Telling(c) != NotFound then Telling(c) else Scan(rest)
  {
    var s := EncodeSection(c) + rest;
    HeadOfEncoded(c, rest);
    if |c.size| <= 6 {
      if c.CustomSection? {
        CustomOfEncoded(c);
      }
      assert s[0] == 0 <==> c.CustomSection?;
      var n := 1 + |c.size|;
      assert |EncodeSection(c)| == n + |Content(c)|;
      hide EncodeSection, HeadOf, Custom, Content, Spells, IsManifest;
      assert s[n + |Content(c)|..] == rest;
    }
  }

  /** Scanning any encoded list of sections finds the payload of the first manifest section. */
  lemma {:induction false} ScanEncoded(cs: seq<Section>)
    requires forall i :: 0 <= i < |cs| ==> WellFormed(cs[i])
    ensures Scan(EncodeAll(cs)) == FirstManifest(cs)
    decreases |cs|
  {
    hide WellFormed, EncodeSection, Telling;
    if cs == [] {
    } else {
      ScanEncoded(cs[1..]);
      ScanStep(cs[0], EncodeAll(cs[1..]));
    }
  }

  /** Where every length takes at most six bytes, as every shortest one below 2^42 does, nothing stops the scan before
      the manifest. */
  lemma {:induction false} ReadableIsFound(cs: seq<Section>, k: nat)
    requires k < |cs| && cs[k].CustomSection? && IsManifest(cs[k].name)
    requires forall i :: 0 <= i <= k ==> |cs[i].size| <= 6 && (cs[i].CustomSection? ==> |cs[i].nameSize| <= 6)
    requires forall i :: 0 <= i < k && cs[i].CustomSection? ==> !IsManifest(cs[i].name)
    ensures FirstManifest(cs) == Found(cs[k].payload)
    decreases |cs|
  {
    if k > 0 {
      ReadableIsFound(cs[1..], k - 1);
    }
  }

  /** A section cut short has no readable head. */
  lemma CutHead(c: Section, m: nat)
    requires WellFormed(c) && 0 < m < |EncodeSection(c)|
    ensures HeadOf(EncodeSection(c)[..m]).NoHead?
  {
    var content, n, s := Content(c), |c.size|, EncodeSection(c)[..m];
    hide Spells, Decode, Content;
    if m - 1 < n {
      assert s[1..] == c.size[..m - 1];
      SpelledTruncated(c.size, |content|, m - 1, 0);
    } else {
      assert s[1..] == c.size + content[..m - 1 - n];
      DecodeSpelled(c.size, |content|, content[..m - 1 - n]);
    }
  }

  /** A module cut inside a section: its last section is refused. */
  lemma CutSection(c: Section, m: nat)
    requires WellFormed(c) && 0 < m < |EncodeSection(c)|
    ensures Scan(EncodeSection(c)[..m]) == BadSize || Scan(EncodeSection(c)[..m]) == Overrun
  {
    CutHead(c, m);
    hide EncodeSection, HeadOf, WellFormed;
  }

  /** A truncated module never yields a manifest the whole one does not have. */
  lemma {:induction false} TruncatedIsNeverMisread(cs: seq<Section>, m: nat)
    requires (forall i :: 0 <= i < |cs| ==> WellFormed(cs[i])) && m <= |EncodeAll(cs)|
    ensures Scan(EncodeAll(cs)[..m]).Found? ==> Scan(EncodeAll(cs)[..m]) == FirstManifest(cs)
    decreases |cs|
  {
    if m > 0 {
      var first, rest := EncodeSection(cs[0]), EncodeAll(cs[1..]);
      if m < |first| {
        assert (first + rest)[..m] == first[..m];
        CutSection(cs[0], m);
      } else {
        assert (first + rest)[..m] == first + rest[..m - |first|];
        ScanStep(cs[0], rest[..m - |first|]);
        hide Scan, EncodeSection, Content;
        TruncatedIsNeverMisread(cs[1..], m - |first|);
      }
    }
  }

  /** parseCustomManifest on an encoded module: the magic, any four version bytes, any sections. */
  lemma ParseEncoded(magic: seq<byte>, version: seq<byte>, cs: seq<Section>)
    requires IsMagic(magic) && |version| == 4 && forall i :: 0 <= i < |cs| ==> WellFormed(cs[i])
    ensures Parse(magic + version + EncodeAll(cs)) == FirstManifest(cs)
  {
    ScanEncoded(cs);
    var all := EncodeAll(cs);
    assert |magic| == 4;
    hide EncodeAll, Scan, FirstManifest, WellFormed, IsMagic;
    Headed(magic, version, all);
  }

  lemma Headed(magic: seq<byte>, version: seq<byte>, rest: seq<byte>)
    requires |magic| == 4 && |version| == 4
    ensures (magic + version + rest)[..4] == magic && (magic + version + rest)[8..] == rest
  {
  }

  // ---- the names ----

  /** The bytes of an ASCII text. */
  function Ascii(text: string): (r: seq<byte>)
    requires forall i :: 0 <= i < |text| ==> text[i] as int < 128
    ensures |r| == |text| && forall i :: 0 <= i < |r| ==> r[i] as int == text[i] as int
  {
    seq(|text|, i requires 0 <= i < |text| => text[i] as int as byte)
  }

  lemma NameIsText(name: seq<byte>)
    ensures IsManifest(name) <==> name == Ascii("egop.manifest")
    ensures IsMagic(name) <==> name == Ascii("\0asm")
  {
    var text := "egop.manifest";
    assert |text| == 13;
    assert Ascii(text) == [0x65, 0x67, 0x6f, 0x70, 0x2e, 0x6d, 0x61, 0x6e, 0x69, 0x66, 0x65, 0x73, 0x74];
    assert Ascii("\0asm") == [0x00, 0x61, 0x73, 0x6d];
  }

  /** Fewer than eight bytes hold no manifest; eight that do not start with "\0asm" are no module. */
  lemma ParseHead(bin: seq<byte>)
    ensures |bin| < 8 ==> Parse(bin) == NotFound
    ensures |bin| >= 8 ==> (bin[..4] != Ascii("\0asm") <==> Parse(bin) == BadMagic)
  {
    if |bin| >= 8 {
      NameIsText(bin[..4]);
      ScanIsNotMagic(bin[8..]);
    }
  }

  lemma {:induction false} ScanIsNotMagic(s: seq<byte>)
    ensures Scan(s) != BadMagic
    decreases |s|
  {
    hide HeadOf, Custom;
    if s != [] && HeadOf(s).Head? {
      var h := HeadOf(s);
      ScanIsNotMagic(s[h.skip + |h.content|..]);
    }
  }
}
