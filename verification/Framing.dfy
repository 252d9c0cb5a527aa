/** The length-prefixed frame format spoken by both ends of the helper pipe
    (helper_client.go and helper/main.py), at the level of bytes. */
module Framing {
  type byte = b: int | 0 <= b < 256

  const MAX_FRAME := 0x2000_0000 // 512 << 20, the limit both readers enforce
  const U32 := 0x1_0000_0000

  /** The 32-bit big-endian header. The Go writer converts the length to 32 bits, which wraps. */
  function Header(n: nat): (h: seq<byte>)
    ensures |h| == 4
  {
    var m := n % U32;
    [m / 0x100_0000, m / 0x1_0000 % 256, m / 0x100 % 256, m % 256]
  }

  function HeaderValue(h: seq<byte>): nat
    requires |h| == 4
  {
    h[0] as int * 0x100_0000 + h[1] as int * 0x1_0000 + h[2] as int * 0x100 + h[3]
  }

  function Encode(payload: seq<byte>): seq<byte> {
    Header(|payload|) + payload
  }

  /** What arrives on the pipe when frames are written one after another. */
  function Wire(frames: seq<seq<byte>>): seq<byte> {
    if frames == [] then [] else Encode(frames[0]) + Wire(frames[1..])
  }

  predicate Sendable(payload: seq<byte>) {
    1 <= |payload| <= MAX_FRAME
  }

  ghost predicate AllSendable(frames: seq<seq<byte>>) {
    forall i | 0 <= i < |frames| :: Sendable(frames[i])
  }

  datatype ReadResult =
    | Eof
    | IncompleteHeader
    | BadLength
    | IncompleteBody
    | Frame(payload: seq<byte>, rest: seq<byte>)

  function Take(s: seq<byte>, n: nat): seq<byte> {
    if n <= |s| then s[..n] else s
  }

  function Drop(s: seq<byte>, n: nat): seq<byte> {
    if n <= |s| then s[n..] else []
  }

  /** One frame off the front of the bytes that remain. */
  function ReadFrame(s: seq<byte>): ReadResult {
    if s == [] then Eof
    else if |s| < 4 then IncompleteHeader
    else
      var n := HeaderValue(s[..4]);
      if n == 0 || n > MAX_FRAME then BadLength
      else if |s| - 4 < n then IncompleteBody
      else Frame(s[4..4 + n], s[4 + n..])
  }

  datatype Stop = CleanEnd | Truncated | Rejected

  /** The frames a reader gets before it stops, and why it stopped. */
  function ReadAll(s: seq<byte>): (seq<seq<byte>>, Stop)
    decreases |s|
  {
    match ReadFrame(s)
    case Eof => ([], CleanEnd)
    case IncompleteHeader => ([], Truncated)
    case IncompleteBody => ([], Truncated)
    case BadLength => ([], Rejected)
    case Frame(payload, rest) =>
      var (more, stop) := ReadAll(rest);
      ([payload] + more, stop)
  }

  // ---------- the readers and the writer as they run ----------

  /** A stream whose reads hand out at most as many bytes as are left. */
  class Stream {
    var bytes: seq<byte>

    constructor (initial: seq<byte>)
      ensures bytes == initial
    {
      bytes := initial;
    }

    method Read(n: nat) returns (chunk: seq<byte>)
      modifies this
      ensures chunk == Take(old(bytes), n)
      ensures bytes == Drop(old(bytes), n)
      ensures chunk + bytes == old(bytes)
    {
      chunk := Take(bytes, n);
      bytes := Drop(bytes, n);
    }

    method Write(chunk: seq<byte>)
      modifies this
      ensures bytes == old(bytes) + chunk
    {
      bytes := bytes + chunk;
    }
  }

  method ReadFrameFrom(stream: Stream) returns (r: ReadResult)
    modifies stream
    ensures r == ReadFrame(old(stream.bytes))
    ensures r.Frame? ==> stream.bytes == r.rest
  {
    var header := stream.Read(4);
    if header == [] { return Eof; }
    if |header| != 4 { return IncompleteHeader; }
    var length := HeaderValue(header);
    if length <= 0 || length > MAX_FRAME { return BadLength; }
    var payload := stream.Read(length);
    if |payload| != length { return IncompleteBody; }
    r := Frame(payload, stream.bytes);
  }

  method WriteFrameTo(stream: Stream, payload: seq<byte>)
    modifies stream
    ensures stream.bytes == old(stream.bytes) + Encode(payload)
  {
    stream.Write(Header(|payload|));
    stream.Write(payload);
  }

  /** Drains a stream, as readLoop and serve_stdio do, until no frame can be read. */
  method ReadAllFrom(stream: Stream) returns (frames: seq<seq<byte>>, stop: Stop)
    modifies stream
    ensures (frames, stop) == ReadAll(old(stream.bytes))
  {
    frames := [];
    assert frames + ReadAll(stream.bytes).0 == ReadAll(stream.bytes).0;
    while true
      invariant ReadAll(old(stream.bytes)) == (frames + ReadAll(stream.bytes).0, ReadAll(stream.bytes).1)
      decreases |stream.bytes|
    {
      ghost var before := stream.bytes;
      var r := ReadFrameFrom(stream);
      assert frames + [] == frames;
      match r {
        case Frame(payload, rest) =>
          assert frames + ([payload] + ReadAll(rest).0) == (frames + [payload]) + ReadAll(rest).0;
          frames := frames + [payload];
        case Eof => return frames, CleanEnd;
        case BadLength => return frames, Rejected;
        case IncompleteHeader => return frames, Truncated;
        case IncompleteBody => return frames, Truncated;
      }
    }
  }

  // ---------- header laws ----------

  lemma DivideTwice(n: nat)
    ensures n / 0x100 / 0x100 == n / 0x1_0000 && n / 0x1_0000 / 0x100 == n / 0x100_0000
  {
  }

  lemma HeaderRoundTrip(n: nat)
    ensures HeaderValue(Header(n)) == n % U32
  {
    DivideTwice(n % U32);
  }

  /** The first byte carries the weight 2^24, the next 2^16, the next 2^8 and the last 1. */
  lemma HeaderIsBigEndian(n: nat, h: seq<byte>)
    requires n < 4294967296 && |h| == 4
    ensures var d := Header(n); n == 16777216 * d[0] as int + 65536 * d[1] as int + 256 * d[2] as int + d[3] as int
    ensures HeaderValue(h) == 16777216 * h[0] as int + 65536 * h[1] as int + 256 * h[2] as int + h[3] as int
  {
    HeaderRoundTrip(n);
    SmallModulus(n);
  }

  lemma LastByte(q: nat, r: nat)
    requires r < 256
    ensures (q * 256 + r) / 256 == q && (q * 256 + r) % 256 == r
  {
  }

  lemma Digits(a: nat, b: nat, c: nat, d: nat)
    requires a < 256 && b < 256 && c < 256 && d < 256
    ensures var v := a * 0x100_0000 + b * 0x1_0000 + c * 0x100 + d;
            v < U32 && v / 0x100_0000 == a && v / 0x1_0000 % 256 == b && v / 0x100 % 256 == c && v % 256 == d
  {
    LastByte(a * 0x1_0000 + b * 0x100 + c, d);
    LastByte(a * 0x100 + b, c);
    LastByte(a, b);
    DivideTwice(a * 0x100_0000 + b * 0x1_0000 + c * 0x100 + d);
  }

  lemma SmallModulus(v: nat)
    requires v < U32
    ensures v % U32 == v
  {
  }

  /** Every 4-byte header is the header of exactly the length it decodes to. */
  lemma HeaderIsBijective(h: seq<byte>)
    requires |h| == 4
    ensures HeaderValue(h) < U32 && Header(HeaderValue(h)) == h
  {
    Digits(h[0] as int, h[1] as int, h[2] as int, h[3] as int);
    SmallModulus(HeaderValue(h));
  }

  // ---------- round trip and truncation ----------

  lemma ReadEncoded(payload: seq<byte>, rest: seq<byte>)
    requires Sendable(payload)
    ensures ReadFrame(Encode(payload) + rest) == Frame(payload, rest)
  {
    HeaderRoundTrip(|payload|);
    var s := Encode(payload) + rest;
    assert s[..4] == Header(|payload|);
    assert s[4..4 + |payload|] == payload;
    assert s[4 + |payload|..] == rest;
  }

  /** A cut inside the first frame yields nothing from it. */
  lemma CutFirst(payload: seq<byte>, k: nat)
    requires Sendable(payload) && k < |Encode(payload)|
    ensures ReadAll(Encode(payload)[..k]) == ([], if k == 0 then CleanEnd else Truncated)
  {
    if 4 <= k {
      assert Encode(payload)[..k][..4] == Header(|payload|);
      HeaderRoundTrip(|payload|);
    }
  }

  lemma ReadAllCons(payload: seq<byte>, rest: seq<byte>)
    requires Sendable(payload)
    ensures ReadAll(Encode(payload) + rest) == ([payload] + ReadAll(rest).0, ReadAll(rest).1)
  {
    ReadEncoded(payload, rest);
  }

  lemma {:induction false} RoundTrip(frames: seq<seq<byte>>)
    requires AllSendable(frames)
    ensures ReadAll(Wire(frames)) == (frames, CleanEnd)
  {
    if frames != [] {
      ReadAllCons(frames[0], Wire(frames[1..]));
      RoundTrip(frames[1..]);
      assert frames == [frames[0]] + frames[1..];
    }
  }

  /** What a reader is owed when the stream is cut after k bytes: exactly the frames that lie wholly
      before the cut, and a clean end iff the cut is on a frame boundary. */
  ghost predicate IsCut(frames: seq<seq<byte>>, k: nat, got: seq<seq<byte>>, stop: Stop) {
    && got <= frames
    && |Wire(got)| <= k
    && (|got| < |frames| ==> k < |Wire(frames[..|got| + 1])|)
    && stop == (if k == |Wire(got)| then CleanEnd else Truncated)
  }

  lemma WireCons(payload: seq<byte>, more: seq<seq<byte>>)
    ensures Wire([payload] + more) == Encode(payload) + Wire(more)
  {
    assert ([payload] + more)[1..] == more;
  }

  lemma CutInFirst(p: seq<byte>, tail: seq<seq<byte>>, k: nat)
    requires Sendable(p) && k < |Encode(p)|
    ensures var r := ReadAll(Wire([p] + tail)[..k]); IsCut([p] + tail, k, r.0, r.1)
  {
    WireCons(p, tail);
    assert Wire([p] + tail)[..k] == Encode(p)[..k];
    CutFirst(p, k);
    assert ([p] + tail)[..1] == [p] + [];
    WireCons(p, []);
  }

  lemma CutLater(p: seq<byte>, tail: seq<seq<byte>>, k: nat, got: seq<seq<byte>>, stop: Stop)
    requires IsCut(tail, k, got, stop)
    ensures IsCut([p] + tail, |Encode(p)| + k, [p] + got, stop)
  {
    WireCons(p, got);
    if |got| < |tail| {
      assert ([p] + tail)[..|got| + 2] == [p] + tail[..|got| + 1];
      WireCons(p, tail[..|got| + 1]);
    }
  }

  lemma {:induction false} Truncation(frames: seq<seq<byte>>, k: nat)
    requires AllSendable(frames) && k <= |Wire(frames)|
    ensures IsCut(frames, k, ReadAll(Wire(frames)[..k]).0, ReadAll(Wire(frames)[..k]).1)
  {
    if frames != [] {
      var p, tail, n := frames[0], frames[1..], |Encode(frames[0])|;
      assert frames == [p] + tail;
      if k < n {
        CutInFirst(p, tail, k);
      } else {
        var rest := Wire(tail)[..k - n];
        assert Wire(frames)[..k] == Encode(p) + rest;
        ReadAllCons(p, rest);
        Truncation(tail, k - n);
        CutLater(p, tail, k - n, ReadAll(rest).0, ReadAll(rest).1);
      }
    }
  }

  /** The writers never check the length. A frame survives the trip exactly when its length is
      within what the readers accept; the 32-bit wrap of longer ones never hides that. */
  lemma SurvivesIffSendable(payload: seq<byte>)
    ensures ReadAll(Encode(payload)) == ([payload], CleanEnd) <==> Sendable(payload)
  {
    HeaderRoundTrip(|payload|);
    var s := Encode(payload);
    assert s[..4] == Header(|payload|);
    if Sendable(payload) {
      ReadAllCons(payload, []);
      assert Encode(payload) + [] == s;
      assert [payload] + [] == [payload];
    }
  }

  lemma {:induction false} WireAppend(frames: seq<seq<byte>>, payload: seq<byte>)
    ensures Wire(frames + [payload]) == Wire(frames) + Encode(payload)
  {
    if frames == [] {
      assert [payload][1..] == [];
    } else {
      assert (frames + [payload])[1..] == frames[1..] + [payload];
      WireAppend(frames[1..], payload);
    }
  }
}
