// readULEB of loader/wasm/load.go against the LEB128 encoding of the WebAssembly Core
// Specification, section 5.2.2.
module Leb128 {
  import opened Text

  newtype byte = b: int | 0 <= b < 256

  /** 128 to the n. */
  function Pow(n: nat): (r: nat)
    ensures r >= 1
  {
    if n == 0 then 1 else 128 * Pow(n - 1)
  }

  /** What a decoder that has read k bytes makes of the bytes ahead: the value and how many bytes it took. It reads
      six bytes at most, so 42 bits. */
  function Decode(s: seq<byte>, k: nat): (r: Option<(nat, nat)>)
    requires k < 6
    ensures r.Some? ==> r.value.0 < Pow(6 - k) && 1 <= r.value.1 <= 6 - k && r.value.1 <= |s|
    decreases 6 - k
  {
    if s == [] then None
    else if s[0] < 128 then Some((s[0] as int, 1))
    else if k == 5 then None
    else
      match Decode(s[1..], k + 1)
      case None => None
      case Some((v, n)) => Some(((s[0] as int - 128) + 128 * v, n + 1))
  }

  /** The little-endian base 128 encoding, the high bit telling that more follows. */
  function Encode(v: nat): (s: seq<byte>)
    ensures s != []
  {
    if v < 128 then [v as byte] else [(v % 128 + 128) as byte] + Encode(v / 128)
  }

  const LIMIT: nat := 0x400_0000_0000

  lemma LimitIsSixBytes()
    ensures Pow(6) == LIMIT
  {
    assert Pow(1) == 128;
    assert Pow(2) == 128 * Pow(1) == 16384;
    assert Pow(3) == 128 * Pow(2) == 2097152;
    assert Pow(4) == 128 * Pow(3) == 268435456;
    assert Pow(5) == 128 * Pow(4) == 34359738368;
    assert Pow(6) == 128 * Pow(5);
  }

  lemma {:induction false} DecodeEncodeFrom(v: nat, rest: seq<byte>, k: nat)
    requires k < 6
    ensures Decode(Encode(v) + rest, k) == if v < Pow(6 - k) then Some((v, |Encode(v)|)) else None
    decreases 6 - k
  {
    var s := Encode(v) + rest;
    if v < 128 {
      assert Pow(6 - k) == 128 * Pow(5 - k);
    } else {
      assert s[1..] == Encode(v / 128) + rest;
      assert Pow(6 - k) == 128 * Pow(5 - k);
      if k == 5 {
        assert Pow(1) == 128;
      } else {
        DecodeEncodeFrom(v / 128, rest, k + 1);
      }
    }
  }

  /** Decoding undoes encoding, whatever follows, exactly for the values below 2^42; longer encodings are refused. */
  lemma DecodeEncode(v: nat, rest: seq<byte>)
    ensures Decode(Encode(v) + rest, 0) == if v < LIMIT then Some((v, |Encode(v)|)) else None
  {
    LimitIsSixBytes();
    DecodeEncodeFrom(v, rest, 0);
  }

  /** An encoding cut short is refused. */
  lemma {:induction false} DecodeTruncated(v: nat, m: nat, k: nat)
    requires m < |Encode(v)| && k < 6
    ensures Decode(Encode(v)[..m], k) == None
    decreases 6 - k
  {
    if m > 0 && k < 5 {
      assert Encode(v)[..m][1..] == Encode(v / 128)[..m - 1];
      DecodeTruncated(v / 128, m - 1, k + 1);
    }
  }

  // ---- every encoding, padded ones included ----

  /** l is an LEB128 encoding of v, of any length: zero groups may follow. */
  predicate Spells(l: seq<byte>, v: nat) {
    l != [] &&
    if l[0] < 128 then |l| == 1 && v == l[0] as nat
    else |l| > 1 && v % 128 == l[0] as nat - 128 && Spells(l[1..], v / 128)
  }

  lemma {:induction false} EncodeSpells(v: nat)
    ensures Spells(Encode(v), v)
  {
    if v >= 128 {
      EncodeSpells(v / 128);
      assert Encode(v)[1..] == Encode(v / 128);
    }
  }

  lemma {:induction false} DecodeSpelledFrom(l: seq<byte>, v: nat, rest: seq<byte>, k: nat)
    requires Spells(l, v) && k < 6
    ensures Decode(l + rest, k) == if |l| <= 6 - k then Some((v, |l|)) else None
    decreases |l|
  {
    if l[0] >= 128 && k < 5 {
      assert (l + rest)[1..] == l[1..] + rest;
      DecodeSpelledFrom(l[1..], v / 128, rest, k + 1);
    }
  }

  /** Every encoding of at most six bytes is read, padded or not, whatever follows; longer ones are refused. */
  lemma DecodeSpelled(l: seq<byte>, v: nat, rest: seq<byte>)
    requires Spells(l, v)
    ensures Decode(l + rest, 0) == if |l| <= 6 then Some((v, |l|)) else None
  {
    DecodeSpelledFrom(l, v, rest, 0);
  }

  /** What is read was spelled. */
  lemma {:induction false} DecodedIsSpelled(s: seq<byte>, k: nat)
    requires k < 6 && Decode(s, k).Some?
    ensures var (v, n) := Decode(s, k).value; Spells(s[..n], v)
    decreases 6 - k
  {
    if s[0] >= 128 {
      DecodedIsSpelled(s[1..], k + 1);
      var (v, n) := Decode(s, k).value;
      assert s[..n][1..] == s[1..][..n - 1];
      assert (s[0] as int - 128 + 128 * (v / 128)) == v;
    }
  }

  /** Any encoding cut short is refused. */
  lemma {:induction false} SpelledTruncated(l: seq<byte>, v: nat, m: nat, k: nat)
    requires Spells(l, v) && m < |l| && k < 6
    ensures Decode(l[..m], k) == None
    decreases |l|
  {
    if m > 0 && k < 5 {
      assert l[..m][1..] == l[1..][..m - 1];
      SpelledTruncated(l[1..], v / 128, m - 1, k + 1);
    }
  }

  /** Decoding looks at nothing after the bytes it takes. */
  lemma {:induction false} DecodeLocal(s: seq<byte>, rest: seq<byte>, k: nat)
    requires k < 6 && Decode(s, k).Some?
    ensures Decode(s + rest, k) == Decode(s, k)
    decreases 6 - k
  {
    if s[0] >= 128 {
      assert (s + rest)[1..] == s[1..] + rest;
      DecodeLocal(s[1..], rest, k + 1);
    }
  }

  /** What the bits taken so far and those ahead make together. */
  function Shifted(val: nat, k: nat, ahead: Option<(nat, nat)>): Option<(nat, nat)> {
    match ahead
    case None => None
    case Some((v, n)) => Some((val + Pow(k) * v, n + k))
  }

  /** The bits of one byte joined to those below them. */
  function Joined(val: nat, bits: nat, weight: nat): nat {
    val + bits * weight
  }

  lemma Distribute(p: nat, c: nat, v: nat)
    ensures p * (c + 128 * v) == c * p + (128 * p) * v
  {
  }

  lemma ShiftOne(s: seq<byte>, val: nat, k: nat)
    requires k < 5 && s != [] && s[0] >= 128
    ensures Shifted(val, k, Decode(s, k)) == Shifted(Joined(val, s[0] as int - 128, Pow(k)), k + 1, Decode(s[1..], k + 1))
  {
    var p, c := Pow(k), s[0] as int - 128;
    assert Pow(k + 1) == 128 * p;
    match Decode(s[1..], k + 1)
    case None =>
    case Some((v, n)) =>
      assert Decode(s, k) == Some((c + 128 * v, n + 1));
      hide Decode, Pow;
      Distribute(p, c, v);
  }

  lemma ShiftLast(s: seq<byte>, val: nat, k: nat)
    requires k <= 5
    ensures s == [] ==> Shifted(val, k, Decode(s, k)) == None
    ensures s != [] && s[0] < 128 ==> Shifted(val, k, Decode(s, k)) == Some((Joined(val, s[0] as int, Pow(k)), k + 1))
    ensures s != [] && s[0] >= 128 && k == 5 ==> Shifted(val, k, Decode(s, k)) == None
  {
    if s != [] && s[0] < 128 {
      assert Pow(k) * (s[0] as int) == (s[0] as int) * Pow(k);
    }
  }

  lemma ShiftNothing(ahead: Option<(nat, nat)>)
    ensures Shifted(0, 0, ahead) == ahead
  {
  }

  /** readULEB: the low seven bits of every byte, shifted and or-ed together. The bits never overlap, so or is plus;
      weight is 2 to the shift. */
  method ReadULEB(bin: seq<byte>, pos: nat) returns (val: nat, n: nat)
    requires pos <= |bin|
    ensures match Decode(bin[pos..], 0) case Some((v, m)) => val == v && n == m case None => val == 0 && n == 0
  {
    val := 0;
    var k, weight := 0, 1;
    var i := pos;
    assert Pow(0) == 1;
    ShiftNothing(Decode(bin[pos..], 0));
    hide Decode, Pow, Shifted, Joined;
    while i < |bin|
      invariant k <= 5 && i == pos + k <= |bin| && weight == Pow(k)
      invariant Decode(bin[pos..], 0) == Shifted(val, k, Decode(bin[i..], k))
    {
      var b := bin[i];
      assert bin[i..][0] == b && bin[i..][1..] == bin[i + 1..];
      ShiftLast(bin[i..], val, k);
      if b < 128 {
        return Joined(val, b as int, weight), i - pos + 1;
      }
      if k == 5 {
        return 0, 0;
      }
      ShiftOne(bin[i..], val, k);
      PowNext(k);
      val := Joined(val, b as int - 128, weight);
      weight := 128 * weight;
      k := k + 1;
      i := i + 1;
    }
    ShiftLast(bin[i..], val, k);
    val, n := 0, 0;
  }

  lemma PowNext(k: nat)
    ensures Pow(k + 1) == 128 * Pow(k)
  {
  }
}
