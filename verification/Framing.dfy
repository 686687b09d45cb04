// byteStream of loader/remote/stream.go: a 4-byte big-endian length in front of every payload.
module Framing {
  import opened Text
  import opened Leb128

  /** The largest payload Recv accepts, 64 MiB. */
  const MAX: nat := 67_108_864

  const WORD: nat := 0x1_0000_0000

  /** binary.BigEndian.PutUint32 of a length cut to 32 bits. */
  function Header(n: nat): (h: seq<byte>)
    ensures |h| == 4
  {
    var w := n % WORD;
    [(w / 0x100_0000) as byte, (w / 0x1_0000 % 0x100) as byte, (w / 0x100 % 0x100) as byte, (w % 0x100) as byte]
  }

  function HeaderValue(h: seq<byte>): nat
    requires |h| == 4
  {
    h[0] as int * 0x100_0000 + h[1] as int * 0x1_0000 + h[2] as int * 0x100 + h[3] as int
  }

  function Frame(p: seq<byte>): seq<byte> {
    Header(|p|) + p
  }

  datatype Error = Eof | UnexpectedEof | FrameTooLarge | ShortWrite | TransportFailed

  /** io.ReadFull of n bytes: the bytes and the rest, or the error. */
  datatype Read = Got(data: seq<byte>, rest: seq<byte>) | Failed(error: Error)

  function Take(s: seq<byte>, n: nat): Read {
    if n <= |s| then Got(s[..n], s[n..]) else if s == [] then Failed(Eof) else Failed(UnexpectedEof)
  }

  /** What Recv makes of the bytes on the wire. */
  function Receive(s: seq<byte>): Read {
    match Take(s, 4)
    case Failed(e) => Failed(e)
    case Got(h, body) => if HeaderValue(h) > MAX then Failed(FrameTooLarge) else Take(body, HeaderValue(h))
  }

  // ---- the stream ----

  /** One direction of the byte stream: what was written and not read yet. */
  class ByteStream {
    var wire: seq<byte>

    constructor ()
      ensures wire == []
    {
      wire := [];
    }

    /** io.ReadFull; a failing read still takes what there is. */
    method ReadFull(n: nat) returns (r: Option<Error>, data: seq<byte>)
      modifies this
      ensures match Take(old(wire), n)
              case Got(d, rest) => r == None && data == d && wire == rest
              case Failed(e) => r == Some(e) && wire == []
    {
      data := [];
      if n <= |wire| {
        data := wire[..n];
        wire := wire[n..];
        return None, data;
      }
      r := Some(if wire == [] then Eof else UnexpectedEof);
      wire := [];
    }

    /** Send through a transport that takes at most `takes` bytes of one write and may report an error of its own. */
    method Send(data: seq<byte>, takes: nat, fails: bool) returns (err: Option<Error>)
      modifies this
      ensures var n := |Frame(data)|;
              && wire == old(wire) + (if takes >= n then Frame(data) else Frame(data)[..takes])
              && err == if fails then Some(TransportFailed) else if takes < n then Some(ShortWrite) else None
    {
      var buf := Buffer(data);
      var n := if takes < buf.Length then takes else buf.Length;
      wire := wire + buf[..n];
      assert n == buf.Length ==> buf[..n] == buf[..];
      if fails {
        return Some(TransportFailed);
      }
      if n != buf.Length {
        return Some(ShortWrite);
      }
      err := None;
    }

    method Recv() returns (r: Option<Error>, data: seq<byte>)
      modifies this
      ensures match Receive(old(wire))
              case Got(d, rest) => r == None && data == d && wire == rest
              case Failed(e) => r == Some(e)
    {
      var head;
      r, head := ReadFull(4);
      data := [];
      if r.Some? {
        return;
      }
      var n := HeaderValue(head);
      if n > MAX {
        return Some(FrameTooLarge), data;
      }
      r, data := ReadFull(n);
    }
  }

  /** The buffer Send fills: the length, then the payload. */
  method Buffer(data: seq<byte>) returns (buf: array<byte>)
    ensures fresh(buf) && buf[..] == Frame(data)
  {
    buf := new byte[4 + |data|](i => 0);
    var h := Header(|data|);
    buf[0], buf[1], buf[2], buf[3] := h[0], h[1], h[2], h[3];
    assert buf[..4] == h;
    for i := 0 to |data|
      invariant buf[..4] == h && buf[4..4 + i] == data[..i]
    {
      buf[4 + i] := data[i];
    }
    assert buf[..] == buf[..4] + buf[4..4 + |data|];
  }

  // ---- round trip ----

  lemma HeaderRoundTrip(n: nat)
    ensures HeaderValue(Header(n)) == n % 0x1_0000_0000
  {
    var w := n % WORD;
    assert w == w / 0x100 * 0x100 + w % 0x100;
    assert w / 0x100 == w / 0x1_0000 * 0x100 + w / 0x100 % 0x100;
    assert w / 0x1_0000 == w / 0x100_0000 * 0x100 + w / 0x1_0000 % 0x100;
  }

  /** The number a sequence of bytes writes, the most significant first. */
  function BigEndian(h: seq<byte>): nat {
    if h == [] then 0 else BigEndian(h[..|h| - 1]) * 256 + h[|h| - 1] as nat
  }

  lemma HeaderIsBigEndian(h: seq<byte>)
    requires |h| == 4
    ensures HeaderValue(h) == BigEndian(h)
  {
    assert h[..3][..2] == h[..2] && h[..2][..1] == h[..1] && h[..1][..0] == [];
    assert BigEndian(h[..1]) == h[0] as nat;
    assert BigEndian(h[..2]) == BigEndian(h[..1]) * 256 + h[1] as nat;
    assert BigEndian(h[..3]) == BigEndian(h[..2]) * 256 + h[2] as nat;
  }

  /** What Recv makes of the wire: four bytes of length, most significant first, at most 64 MiB, and as many bytes of
      payload; a wire that ends early is at its end if nothing of the part was there, and cut otherwise. */
  lemma ReceiveTells(s: seq<byte>)
    ensures |s| < 4 ==> Receive(s) == Failed(if |s| == 0 then Eof else UnexpectedEof)
    ensures |s| >= 4 ==> var n := BigEndian(s[..4]);
      Receive(s) == if n > 64 * 1024 * 1024 then Failed(FrameTooLarge)
                    else if |s| >= 4 + n then Got(s[4..4 + n], s[4 + n..])
                    else Failed(if |s| == 4 then Eof else UnexpectedEof)
  {
    if |s| >= 4 {
      HeaderIsBigEndian(s[..4]);
      hide HeaderValue, BigEndian;
      assert s[4..] == [] <==> |s| == 4;
    }
  }

  /** Recv gives back what Send framed, and leaves what follows, exactly up to 64 MiB. */
  lemma ReceiveFrameIff(p: seq<byte>, rest: seq<byte>)
    ensures Receive(Frame(p) + rest) == Got(p, rest) <==> |p| <= 64 * 1024 * 1024
  {
    var s := Frame(p) + rest;
    HeaderRoundTrip(|p|);
    assert s[..4] == Header(|p|);
    assert s[4..] == p + rest;
    if |p| <= MAX {
      assert (p + rest)[..|p|] == p && (p + rest)[|p|..] == rest;
    }
  }

  function FrameAll(ps: seq<seq<byte>>): seq<byte> {
    if ps == [] then [] else Frame(ps[0]) + FrameAll(ps[1..])
  }

  /** What repeated Recv yields until the first error. */
  function Messages(s: seq<byte>): seq<seq<byte>>
    decreases |s|
  {
    match Receive(s)
    case Failed(_) => []
    case Got(p, rest) => [p] + Messages(rest)
  }

  ghost predicate Sendable(ps: seq<seq<byte>>) {
    forall i :: 0 <= i < |ps| ==> |ps[i]| <= MAX
  }

  /** A frame cut short is not received. */
  lemma CutFrame(p: seq<byte>, m: nat)
    requires |p| <= MAX && m < |Frame(p)|
    ensures Receive(Frame(p)[..m]).Failed?
    ensures m > 0 ==> Receive(Frame(p)[..m]).error != FrameTooLarge
  {
    if m >= 4 {
      HeaderRoundTrip(|p|);
      assert Frame(p)[..m][..4] == Header(|p|);
    }
  }

  lemma FirstFrameCut(ps: seq<seq<byte>>, m: nat)
    requires Sendable(ps) && ps != [] && m < |Frame(ps[0])|
    ensures WholeFrames(ps, m, 0) && Messages(FrameAll(ps)[..m]) == []
  {
    var first, rest := Frame(ps[0]), FrameAll(ps[1..]);
    assert (first + rest)[..m] == first[..m];
    CutFrame(ps[0], m);
    assert ps[..1] == [ps[0]] && ps[..1][1..] == [] && ps[..0] == [];
    assert FrameAll(ps[..1]) == first + FrameAll([]) == first;
  }

  lemma FirstFrameWhole(ps: seq<seq<byte>>, m: nat)
    requires Sendable(ps) && ps != [] && |Frame(ps[0])| <= m <= |FrameAll(ps)|
    ensures m - |Frame(ps[0])| <= |FrameAll(ps[1..])|
    ensures Messages(FrameAll(ps)[..m]) == [ps[0]] + Messages(FrameAll(ps[1..])[..m - |Frame(ps[0])|])
  {
    var first, rest := Frame(ps[0]), FrameAll(ps[1..]);
    var more := rest[..m - |first|];
    assert (first + rest)[..m] == first + more;
    ReceiveFrameIff(ps[0], more);
    hide Frame, Receive;
  }

  /** How many frames fit into the first m bytes. */
  function Whole(ps: seq<seq<byte>>, m: nat): (k: nat)
    ensures k <= |ps|
    decreases |ps|
  {
    if ps == [] || m < |Frame(ps[0])| then 0 else 1 + Whole(ps[1..], m - |Frame(ps[0])|)
  }

  lemma NothingCut(m: nat)
    requires m <= |FrameAll([])|
    ensures Messages(FrameAll([])[..m]) == []
  {
    assert FrameAll([])[..m] == [];
  }

  lemma OneMorePayload(ps: seq<seq<byte>>, m: nat)
    requires ps != [] && |Frame(ps[0])| <= m
    ensures ps[..Whole(ps, m)] == [ps[0]] + ps[1..][..Whole(ps[1..], m - |Frame(ps[0])|)]
  {
    hide Frame;
    var k := Whole(ps[1..], m - |Frame(ps[0])|);
    assert Whole(ps, m) == k + 1;
    assert ps[..k + 1] == [ps[0]] + ps[1..][..k];
  }

  lemma {:induction false} MessagesCut(ps: seq<seq<byte>>, m: nat)
    requires Sendable(ps) && m <= |FrameAll(ps)|
    ensures Messages(FrameAll(ps)[..m]) == ps[..Whole(ps, m)]
    decreases |ps|
  {
    if ps == [] {
      NothingCut(m);
      hide Frame, Messages, FrameAll;
    } else if m < |Frame(ps[0])| {
      FirstFrameCut(ps, m);
      hide Frame, Messages, FrameAll;
    } else {
      FirstFrameWhole(ps, m);
      OneMorePayload(ps, m);
      hide Frame, Messages, FrameAll, Whole;
      MessagesCut(ps[1..], m - |Frame(ps[0])|);
    }
  }

  lemma {:induction false} WholeIsMaximal(ps: seq<seq<byte>>, m: nat)
    ensures WholeFrames(ps, m, Whole(ps, m))
    decreases |ps|
  {
    if ps == [] {
    } else if m < |Frame(ps[0])| {
      assert ps[..1] == [ps[0]] && ps[..1][1..] == [] && ps[..0] == [];
      assert FrameAll(ps[..1]) == Frame(ps[0]) + FrameAll([]);
    } else {
      WholeIsMaximal(ps[1..], m - |Frame(ps[0])|);
      hide Frame, FrameAll, WholeFrames;
      OneMoreFrame(ps, m, Whole(ps[1..], m - |Frame(ps[0])|));
    }
  }

  /** Cut anywhere, the stream yields exactly the payloads whose frames are whole, in order. */
  lemma MessagesOfPrefix(ps: seq<seq<byte>>, m: nat)
    requires Sendable(ps) && m <= |FrameAll(ps)|
    ensures exists k: nat :: WholeFrames(ps, m, k) && k <= |ps| && Messages(FrameAll(ps)[..m]) == ps[..k]
  {
    MessagesCut(ps, m);
    WholeIsMaximal(ps, m);
  }

  /** k is the number of frames that fit into m bytes. */
  ghost predicate WholeFrames(ps: seq<seq<byte>>, m: nat, k: nat) {
    k <= |ps| && |FrameAll(ps[..k])| <= m && (k < |ps| ==> m < |FrameAll(ps[..k + 1])|)
  }

  lemma OneMoreFrame(ps: seq<seq<byte>>, m: nat, k: nat)
    requires ps != [] && |Frame(ps[0])| <= m && WholeFrames(ps[1..], m - |Frame(ps[0])|, k)
    ensures WholeFrames(ps, m, k + 1)
  {
    assert ps[..k + 1][1..] == ps[1..][..k];
    if k + 1 < |ps| {
      assert ps[..k + 2][1..] == ps[1..][..k + 1];
    }
  }

  /** Any list of payloads of at most 64 MiB each is received as sent. */
  lemma {:induction false} MessagesRoundTrip(ps: seq<seq<byte>>)
    requires Sendable(ps)
    ensures Messages(FrameAll(ps)) == ps
    decreases |ps|
  {
    if ps == [] {
    } else {
      ReceiveFrameIff(ps[0], FrameAll(ps[1..]));
      MessagesRoundTrip(ps[1..]);
    }
  }
}
