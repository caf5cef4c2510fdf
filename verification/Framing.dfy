/** The length-prefixed read loop of a KMIP connection. */
module Framing {
  import opened KeyTypes

  const HEADER := 8
  const MAX_BODY := 10_485_760

  /** The value of big-endian bytes. */
  function BigEndian(s: bytes): nat {
    if s == [] then 0 else 256 * BigEndian(s[..|s| - 1]) + s[|s| - 1] as int
  }

  /** The body length in bytes 4 to 8 of a header. */
  function BodyLength(header: bytes): nat
    requires |header| >= HEADER
  {
    BigEndian(header[4..8])
  }

  /** The length a header announces, byte by byte (section 9.1 of KMIP 1.4). */
  function Announced(header: bytes): nat
    requires |header| >= 8
  {
    16777216 * header[4] as int + 65536 * header[5] as int + 256 * header[6] as int + header[7] as int
  }

  lemma BodyLengthIs(header: bytes)
    requires |header| >= 8
    ensures BodyLength(header) == Announced(header)
  {
    assert header[4..5][..0] == [] && header[4..6][..1] == header[4..5];
    assert header[4..7][..2] == header[4..6] && header[4..8][..3] == header[4..7];
    assert BigEndian(header[4..5]) == header[4] as int;
    assert BigEndian(header[4..6]) == 256 * BigEndian(header[4..5]) + header[5] as int;
    assert BigEndian(header[4..7]) == 256 * BigEndian(header[4..6]) + header[6] as int;
  }

  /** A message as a peer writes it: a tag and type, the length of the body, the body. */
  datatype Ttlv = Ttlv(head: bytes, body: bytes)

  predicate Sendable(t: Ttlv) {
    |t.head| == 4 && |t.body| <= 10485760
  }

  function LengthBytes(n: nat): (r: bytes)
    requires n < 0x1_0000_0000
    ensures |r| == 4
  {
    [n / 16777216, n / 65536 % 256, n / 256 % 256, n % 256]
  }

  function Encoded(t: Ttlv): bytes
    requires Sendable(t)
  {
    t.head + LengthBytes(|t.body|) + t.body
  }

  lemma EncodedAnnounces(t: Ttlv)
    requires Sendable(t)
    ensures |Encoded(t)| == 8 + |t.body| && Announced(Encoded(t)) == |t.body|
  {
    var n := |t.body|;
    assert n == 65536 * (n / 65536) + 256 * (n / 256 % 256) + n % 256;
    assert n / 65536 == 256 * (n / 16777216) + n / 65536 % 256;
  }

  /** One message: a header that announces its body, and a body of acceptable size. */
  predicate Message(m: bytes) {
    |m| >= 8 && |m| == 8 + Announced(m) && Announced(m) <= 10485760
  }

  /** Messages are exactly what peers may send. */
  lemma MessageIffEncoded(m: bytes)
    ensures Message(m) <==> |m| >= 8 && Sendable(Ttlv(m[..4], m[8..])) && m == Encoded(Ttlv(m[..4], m[8..]))
  {
    if |m| >= 8 && Sendable(Ttlv(m[..4], m[8..])) {
      var t := Ttlv(m[..4], m[8..]);
      EncodedAnnounces(t);
      if Message(m) {
        assert LengthBytes(|t.body|) == m[4..8];
        assert m == m[..4] + m[4..8] + m[8..];
      }
    }
  }

  predicate WellFormed(ms: seq<bytes>) {
    forall i :: 0 <= i < |ms| ==> Message(ms[i])
  }

  /** The messages the loop reads off a byte stream before it stops. */
  function Frames(stream: bytes): seq<bytes>
    decreases |stream|
  {
    if |stream| < HEADER then []
    else
      var n := BodyLength(stream);
      if n > MAX_BODY || |stream| < HEADER + n then []
      else
        [stream[..HEADER + n]] + Frames(stream[HEADER + n..])
  }

  function Concat(ms: seq<bytes>): bytes {
    if ms == [] then [] else ms[0] + Concat(ms[1..])
  }

  lemma FrameFirst(m: bytes, tail: bytes)
    requires Message(m)
    ensures Frames(m + tail) == [m] + Frames(tail)
  {
    var stream := m + tail;
    assert stream[4..8] == m[4..8];
    BodyLengthIs(m);
    assert stream[..|m|] == m && stream[|m|..] == tail;
  }

  lemma Regroup(ms: seq<bytes>, rest: seq<bytes>)
    requires ms != []
    ensures [ms[0]] + (ms[1..] + rest) == ms + rest
  {
  }

  lemma RegroupLast(ms: seq<bytes>, m: bytes, rest: seq<bytes>)
    ensures ms + ([m] + rest) == ms + [m] + rest
  {
  }

  /** Any list of messages laid end to end reads back as exactly those messages,
      followed by whatever the rest of the stream holds. */
  lemma {:induction false} FramingInvertsConcat(ms: seq<bytes>, rest: bytes)
    requires WellFormed(ms)
    ensures Frames(Concat(ms) + rest) == ms + Frames(rest)
  {
    if ms == [] {
      assert Concat(ms) + rest == rest;
    } else {
      var tail := Concat(ms[1..]) + rest;
      assert Concat(ms) + rest == ms[0] + tail;
      FrameFirst(ms[0], tail);
      FramingInvertsConcat(ms[1..], rest);
      Regroup(ms, Frames(rest));
    }
  }

  predicate AllSendable(ts: seq<Ttlv>) {
    forall i :: 0 <= i < |ts| ==> Sendable(ts[i])
  }

  function Encodings(ts: seq<Ttlv>): (ms: seq<bytes>)
    requires AllSendable(ts)
    ensures |ms| == |ts| && forall i :: 0 <= i < |ts| ==> ms[i] == Encoded(ts[i])
  {
    seq(|ts|, i requires 0 <= i < |ts| => Encoded(ts[i]))
  }

  lemma EncodingsWellFormed(ts: seq<Ttlv>)
    requires AllSendable(ts)
    ensures WellFormed(Encodings(ts))
  {
    forall i | 0 <= i < |ts|
      ensures Message(Encodings(ts)[i])
    {
      EncodedAnnounces(ts[i]);
    }
  }

  lemma SentAlike()
    ensures forall ts :: AllSendable(ts) ==> WellFormed(Encodings(ts))
  {
    forall ts | AllSendable(ts)
      ensures WellFormed(Encodings(ts))
    {
      EncodingsWellFormed(ts);
    }
  }

  /** Whatever a peer sends is read as it was sent, with any rest after it. */
  lemma SentIsRead(ts: seq<Ttlv>, rest: bytes)
    requires AllSendable(ts)
    ensures Frames(Concat(Encodings(ts)) + rest) == Encodings(ts) + Frames(rest)
  {
    EncodingsWellFormed(ts);
    FramingInvertsConcat(Encodings(ts), rest);
  }

  /** An oversize header stops the loop with exactly the earlier messages handled. */
  lemma OversizeStops(ms: seq<bytes>, rest: bytes)
    requires WellFormed(ms)
    requires |rest| >= 8 && Announced(rest) > 10485760
    ensures Frames(Concat(ms) + rest) == ms
  {
    BodyLengthIs(rest);
    FramingInvertsConcat(ms, rest);
  }

  /** Conversely, whatever is read off a stream is a prefix of it, and the loop stops
      only where no further message starts. */
  lemma {:induction false} FramesArePrefix(stream: bytes) returns (rest: bytes)
    ensures stream == Concat(Frames(stream)) + rest
    ensures forall m :: m in Frames(stream) ==> Message(m)
    ensures |rest| < 8 || Announced(rest) > 10485760 || |rest| < 8 + Announced(rest)
    decreases |stream|
  {
    rest := stream;
    if |stream| >= 8 { BodyLengthIs(stream); }
    if |stream| >= HEADER && BodyLength(stream) <= MAX_BODY && |stream| >= HEADER + BodyLength(stream) {
      var n := HEADER + BodyLength(stream);
      rest := FramesArePrefix(stream[n..]);
      assert stream == stream[..n] + stream[n..];
      assert stream[..n][4..8] == stream[4..8];
      BodyLengthIs(stream[..n]);
      assert Frames(stream) == [stream[..n]] + Frames(stream[n..]);
      assert Frames(stream)[1..] == Frames(stream[n..]);
    }
  }

  /** A connection whose bytes arrive in chunks of any size. */
  class Conn {
    var chunks: seq<bytes>

    constructor (chunks: seq<bytes>)
      ensures this.chunks == chunks
    {
      this.chunks := chunks;
    }

    /** Reads at most `max` bytes: some part of the first chunk. `eof` when none is left. */
    method Read(max: nat) returns (part: bytes, eof: bool)
      requires max > 0
      modifies this
      ensures eof <==> old(chunks) == []
      ensures eof ==> part == [] && chunks == []
      ensures |part| <= max
      ensures Concat(old(chunks)) == part + Concat(chunks)
      ensures !eof ==> |chunks| < |old(chunks)| || |part| == max
    {
      if chunks == [] {
        return [], true;
      }
      eof := false;
      var first := chunks[0];
      if |first| <= max {
        part := first;
        chunks := chunks[1..];
      } else {
        part := first[..max];
        chunks := [first[max..]] + chunks[1..];
        assert first == first[..max] + first[max..];
        assert chunks[1..] == old(chunks)[1..];
      }
    }

    /** Fills a buffer of `n` bytes however they arrive, or runs into the end. */
    method ReadFull(n: nat) returns (buffer: bytes, ok: bool)
      modifies this
      ensures ok <==> |Concat(old(chunks))| >= n
      ensures ok ==> |buffer| == n && buffer + Concat(chunks) == Concat(old(chunks))
    {
      buffer := [];
      while |buffer| < n
        invariant |buffer| <= n
        invariant buffer + Concat(chunks) == Concat(old(chunks))
        decreases n - |buffer|, |chunks|
      {
        var part, eof := Read(n - |buffer|);
        if eof {
          assert Concat(chunks) == [];
          return buffer, false;
        }
        buffer := buffer + part;
      }
      ok := true;
      assert |Concat(old(chunks))| == |buffer| + |Concat(chunks)|;
    }

    /** A connection. Well-formed messages are all handed over, whatever the chunks they
        arrive in, unless the exchange breaks first. */
    method Serve(healthy: nat) returns (handled: seq<bytes>)
      modifies this
      ensures var fs := Frames(Concat(old(chunks))); handled == if |fs| <= healthy then fs else fs[..healthy + 1]
      ensures forall ms :: WellFormed(ms) && Concat(ms) == Concat(old(chunks)) && |ms| <= healthy ==> handled == ms
      ensures forall ts :: AllSendable(ts) && Concat(Encodings(ts)) == Concat(old(chunks)) && |ts| <= healthy ==> handled == Encodings(ts)
    {
      OneReading(chunks);
      SentAlike();
      handled := ReadLoop(healthy);
    }

    /** The read loop. The exchange breaks after `healthy` answered requests: a failed
        write or a panicking handler, each after the request was handed over. */
    method ReadLoop(healthy: nat) returns (handled: seq<bytes>)
      modifies this
      ensures var fs := Frames(Concat(old(chunks))); handled == if |fs| <= healthy then fs else fs[..healthy + 1]
    {
      ghost var stream := Concat(chunks);
      handled := [];
      while true
        invariant |handled| <= healthy
        invariant Frames(stream) == handled + Frames(Concat(chunks))
        decreases |Concat(chunks)|
      {
        ghost var left := Concat(chunks);
        var header, ok := ReadFull(HEADER);
        if !ok {
          return;
        }
        var valueLen := BodyLength(header);
        assert BodyLength(left) == valueLen by {
          assert left == header + Concat(chunks);
          assert left[4..8] == header[4..8];
        }
        if valueLen > MAX_BODY {
          return;
        }
        var body, whole := ReadFull(valueLen);
        if !whole {
          return;
        }
        var request := header + body;
        assert left == request + Concat(chunks);
        assert request[4..8] == header[4..8];
        BodyLengthIs(request);
        FrameFirst(request, Concat(chunks));
        RegroupLast(handled, request, Frames(Concat(chunks)));
        handled := handled + [request];
        if |handled| > healthy {
          return;
        }
      }
    }
  }

  /** A peer that sends well-formed messages and hangs up is served in full, whatever
      the chunks its bytes arrive in. */
  lemma ServedInFull(ms: seq<bytes>, chunks: seq<bytes>)
    requires WellFormed(ms)
    requires Concat(chunks) == Concat(ms)
    ensures Frames(Concat(chunks)) == ms
  {
    FramingInvertsConcat(ms, []);
    assert Concat(ms) + [] == Concat(ms);
  }

  /** Bytes are the messages of at most one well-formed list. */
  lemma OneReading(chunks: seq<bytes>)
    ensures forall ms :: WellFormed(ms) && Concat(ms) == Concat(chunks) ==> Frames(Concat(chunks)) == ms
  {
    forall ms | WellFormed(ms) && Concat(ms) == Concat(chunks)
      ensures Frames(Concat(chunks)) == ms
    {
      ServedInFull(ms, chunks);
    }
  }
}
