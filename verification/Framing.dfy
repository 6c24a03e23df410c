/** Length-prefixed framing: the wire format, a byte-at-a-time reference decoder, and the laws
    that tie the two together. */
module FramingSpec {
  import opened Wrappers

  type byte = b: int | 0 <= b < 256

  const FRAME_HEADER_LENGTH: nat := 4
  const MAX_UINT32: nat := 0xffff_ffff
  const PAYLOAD_BLOCK_SIZE: nat := 65536

  function BigEndian32(n: nat): (h: seq<byte>)
    requires n <= MAX_UINT32
    ensures |h| == FRAME_HEADER_LENGTH && FromBigEndian32(h) == n
  {
    var q := n / 256;
    var r := q / 256;
    [r / 256, r % 256, q % 256, n % 256]
  }

  lemma BigEndianBytes(n: nat)
    requires n <= MAX_UINT32
    ensures BigEndian32(n)
         == [n / 0x100_0000 % 256, n / 0x1_0000 % 256, n / 0x100 % 256, n % 256]
  {
    TwiceDivided(n);
    ThriceDivided(n);
    hide FromBigEndian32;
  }

  lemma TwiceDivided(n: nat)
    ensures n / 256 / 256 == n / 0x1_0000
  {
  }

  lemma ThriceDivided(n: nat)
    requires n <= MAX_UINT32
    ensures n / 256 / 256 / 256 == n / 0x100_0000 == n / 0x100_0000 % 256
  {
    TwiceDivided(n / 256);
  }

  function FromBigEndian32(h: seq<byte>): nat
    requires |h| == FRAME_HEADER_LENGTH
  {
    h[0] as int * 0x100_0000 + h[1] as int * 0x1_0000 + h[2] as int * 0x100 + h[3]
  }

  function Frame(payload: seq<byte>): seq<byte>
    requires |payload| <= MAX_UINT32
  {
    BigEndian32(|payload|) + payload
  }

  predicate WithinLimit(payloads: seq<seq<byte>>, limit: nat) {
    forall p <- payloads :: |p| <= limit
  }

  function Frames(payloads: seq<seq<byte>>): seq<byte>
    requires WithinLimit(payloads, MAX_UINT32)
  {
    if payloads == [] then [] else Frame(payloads[0]) + Frames(payloads[1..])
  }

  function Concat<T>(parts: seq<seq<T>>): seq<T> {
    if parts == [] then [] else parts[0] + Concat(parts[1..])
  }

  /** What a decoder remembers between two bytes. */
  datatype Decoder =
    | Open(header: seq<byte>, expected: Option<nat>, payload: seq<byte>)
    | Ended
    | Failed
  {
    predicate Valid(limit: nat) {
      Open? ==>
        && |header| < FRAME_HEADER_LENGTH
        && (expected.Some? ==> header == [] && |payload| < expected.value <= limit)
        && (expected.None? ==> payload == [])
    }

    predicate AtBoundary() {
      this == Initial()
    }

    static function Initial(): Decoder {
      Open([], None, [])
    }
  }

  datatype Outcome = Outcome(decoder: Decoder, frames: seq<seq<byte>>)

  function Feed(limit: nat, d: Decoder, b: byte): (o: Outcome)
    requires d.Valid(limit)
    ensures o.decoder.Valid(limit)
  {
    if !d.Open? then Outcome(d, [])
    else if d.expected.None? then
      var header := d.header + [b];
      if |header| < FRAME_HEADER_LENGTH then Outcome(Open(header, None, []), [])
      else
        var length := FromBigEndian32(header);
        if length > limit then Outcome(Failed, [])
        else if length == 0 then Outcome(Decoder.Initial(), [[]])
        else Outcome(Open([], Some(length), []), [])
    else
      var payload := d.payload + [b];
      if |payload| == d.expected.value then Outcome(Decoder.Initial(), [payload])
      else Outcome(Open([], d.expected, payload), [])
  }

  /** The reference decoder: one byte after another, no blocks and no chunks. */
  function Run(limit: nat, d: Decoder, bytes: seq<byte>): (o: Outcome)
    requires d.Valid(limit)
    ensures o.decoder.Valid(limit)
    decreases |bytes|
  {
    if bytes == [] then Outcome(d, [])
    else
      var first := Feed(limit, d, bytes[0]);
      var rest := Run(limit, first.decoder, bytes[1..]);
      Outcome(rest.decoder, first.frames + rest.frames)
  }

  /** Pushing chunk after chunk, as a caller of the decoder does. */
  function RunChunks(limit: nat, d: Decoder, chunks: seq<seq<byte>>): (o: Outcome)
    requires d.Valid(limit)
    ensures o.decoder.Valid(limit)
    decreases |chunks|
  {
    if chunks == [] then Outcome(d, [])
    else
      var first := Run(limit, d, chunks[0]);
      var rest := RunChunks(limit, first.decoder, chunks[1..]);
      Outcome(rest.decoder, first.frames + rest.frames)
  }

  lemma {:induction false} RunAppend(limit: nat, d: Decoder, a: seq<byte>, b: seq<byte>)
    requires d.Valid(limit)
    ensures var first := Run(limit, d, a);
            var second := Run(limit, first.decoder, b);
            Run(limit, d, a + b) == Outcome(second.decoder, first.frames + second.frames)
    decreases |a|
  {
    hide Feed;
    if a == [] {
      assert a + b == b;
    } else {
      assert (a + b)[1..] == a[1..] + b;
      RunAppend(limit, Feed(limit, d, a[0]).decoder, a[1..], b);
    }
  }

  /** The same for consecutive slices of one chunk. */
  lemma RunSlices(limit: nat, d: Decoder, bytes: seq<byte>, i: nat, j: nat)
    requires d.Valid(limit) && i <= j <= |bytes|
    ensures var first := Run(limit, d, bytes[..i]);
            var second := Run(limit, first.decoder, bytes[i..j]);
            Run(limit, d, bytes[..j]) == Outcome(second.decoder, first.frames + second.frames)
  {
    hide Run;
    assert bytes[..j] == bytes[..i] + bytes[i..j];
    RunAppend(limit, d, bytes[..i], bytes[i..j]);
  }

  /** A failed decoder never produces a frame again. */
  lemma {:induction false} FailureIsPermanent(limit: nat, bytes: seq<byte>)
    ensures Run(limit, Failed, bytes) == Outcome(Failed, [])
  {
    if bytes != [] {
      FailureIsPermanent(limit, bytes[1..]);
    }
  }

  lemma FailureEndsRun(limit: nat, d: Decoder, bytes: seq<byte>, i: nat)
    requires d.Valid(limit) && i <= |bytes| && Run(limit, d, bytes[..i]).decoder == Failed
    ensures Run(limit, d, bytes).decoder == Failed
  {
    hide Run;
    assert bytes == bytes[..i] + bytes[i..];
    RunAppend(limit, d, bytes[..i], bytes[i..]);
    FailureIsPermanent(limit, bytes[i..]);
  }

  /** However a byte stream is cut into chunks, the frames and the final state are the same. */
  lemma {:induction false} ChunkingIsIrrelevant(limit: nat, d: Decoder, chunks: seq<seq<byte>>)
    requires d.Valid(limit)
    ensures RunChunks(limit, d, chunks) == Run(limit, d, Concat(chunks))
    decreases |chunks|
  {
    hide Feed;
    if chunks != [] {
      var first := Run(limit, d, chunks[0]);
      ChunkingIsIrrelevant(limit, first.decoder, chunks[1..]);
      RunAppend(limit, d, chunks[0], Concat(chunks[1..]));
    }
  }

  lemma {:induction false} RunPartialHeader(limit: nat, h: seq<byte>, bytes: seq<byte>)
    requires |h| + |bytes| < FRAME_HEADER_LENGTH
    ensures Run(limit, Open(h, None, []), bytes) == Outcome(Open(h + bytes, None, []), [])
    decreases |bytes|
  {
    if bytes == [] {
      assert h + bytes == h;
    } else {
      RunPartialHeader(limit, h + [bytes[0]], bytes[1..]);
      assert h + [bytes[0]] + bytes[1..] == h + bytes;
    }
  }

  /** What the byte that completes a header does. */
  function AfterHeader(limit: nat, header: seq<byte>): Outcome
    requires |header| == FRAME_HEADER_LENGTH
  {
    var length := FromBigEndian32(header);
    if length > limit then Outcome(Failed, [])
    else if length == 0 then Outcome(Decoder.Initial(), [[]])
    else Outcome(Open([], Some(length), []), [])
  }

  lemma RunCompletingHeader(limit: nat, h: seq<byte>, bytes: seq<byte>)
    requires |h| + |bytes| == FRAME_HEADER_LENGTH && |h| < FRAME_HEADER_LENGTH
    ensures Run(limit, Open(h, None, []), bytes) == AfterHeader(limit, h + bytes)
  {
    var k := |bytes| - 1;
    RunPartialHeader(limit, h, bytes[..k]);
    RunAppend(limit, Open(h, None, []), bytes[..k], bytes[k..]);
    assert bytes[..k] + bytes[k..] == bytes && bytes[k..] == [bytes[k]];
    assert h + bytes[..k] + [bytes[k]] == h + bytes;
  }

  lemma FeedPayload(limit: nat, expected: nat, p: seq<byte>, b: byte)
    requires |p| + 1 < expected <= limit
    ensures Feed(limit, Open([], Some(expected), p), b) == Outcome(Open([], Some(expected), p + [b]), [])
  {
  }

  lemma {:induction false} RunPartialPayload(limit: nat, expected: nat, p: seq<byte>, bytes: seq<byte>)
    requires |p| + |bytes| < expected <= limit
    ensures Run(limit, Open([], Some(expected), p), bytes) == Outcome(Open([], Some(expected), p + bytes), [])
    decreases |bytes|
  {
    if bytes == [] {
      assert p + bytes == p;
    } else {
      hide Feed;
      FeedPayload(limit, expected, p, bytes[0]);
      RunPartialPayload(limit, expected, p + [bytes[0]], bytes[1..]);
      assert p + [bytes[0]] + bytes[1..] == p + bytes;
    }
  }

  lemma RunCompletingPayload(limit: nat, expected: nat, p: seq<byte>, bytes: seq<byte>)
    requires |p| < expected <= limit && |p| + |bytes| == expected
    ensures Run(limit, Open([], Some(expected), p), bytes) == Outcome(Decoder.Initial(), [p + bytes])
  {
    var k := |bytes| - 1;
    RunPartialPayload(limit, expected, p, bytes[..k]);
    RunAppend(limit, Open([], Some(expected), p), bytes[..k], bytes[k..]);
    assert bytes[..k] + bytes[k..] == bytes && bytes[k..] == [bytes[k]];
    assert p + bytes[..k] + [bytes[k]] == p + bytes;
  }

  lemma RunFrame(limit: nat, payload: seq<byte>)
    requires |payload| <= limit <= MAX_UINT32
    ensures Run(limit, Decoder.Initial(), Frame(payload)) == Outcome(Decoder.Initial(), [payload])
  {
    var header := BigEndian32(|payload|);
    assert [] + header == header;
    RunCompletingHeader(limit, [], header);
    RunAppend(limit, Decoder.Initial(), header, payload);
    if payload == [] {
      assert [[]] == [payload];
    } else {
      assert [] + payload == payload;
      RunCompletingPayload(limit, |payload|, [], payload);
    }
  }

  lemma {:induction false} RunFrames(limit: nat, payloads: seq<seq<byte>>)
    requires limit <= MAX_UINT32 && WithinLimit(payloads, limit)
    ensures Run(limit, Decoder.Initial(), Frames(payloads)) == Outcome(Decoder.Initial(), payloads)
  {
    if payloads != [] {
      RunFrame(limit, payloads[0]);
      RunFrames(limit, payloads[1..]);
      RunAppend(limit, Decoder.Initial(), Frame(payloads[0]), Frames(payloads[1..]));
      assert [payloads[0]] + payloads[1..] == payloads;
    }
  }

  /** Round trip: every way of cutting the frames of `payloads` into chunks gives back exactly
      `payloads`, and leaves the decoder where `end` succeeds. */
  lemma FramesRoundTrip(limit: nat, payloads: seq<seq<byte>>, chunks: seq<seq<byte>>)
    requires limit <= MAX_UINT32 && WithinLimit(payloads, limit)
    requires Concat(chunks) == Frames(payloads)
    ensures RunChunks(limit, Decoder.Initial(), chunks) == Outcome(Decoder.Initial(), payloads)
  {
    ChunkingIsIrrelevant(limit, Decoder.Initial(), chunks);
    RunFrames(limit, payloads);
  }

  /** Framing is unambiguous: no two payload lists share an encoding. */
  lemma FramesInjective(a: seq<seq<byte>>, b: seq<seq<byte>>)
    requires WithinLimit(a, MAX_UINT32) && WithinLimit(b, MAX_UINT32)
    requires Frames(a) == Frames(b)
    ensures a == b
  {
    RunFrames(MAX_UINT32, a);
    RunFrames(MAX_UINT32, b);
  }

  /** An advertised length above the limit fails the decoder whatever follows. */
  lemma OversizedLengthFails(limit: nat, length: nat, rest: seq<byte>)
    requires limit < length <= MAX_UINT32
    ensures Run(limit, Decoder.Initial(), BigEndian32(length) + rest) == Outcome(Failed, [])
  {
    var header := BigEndian32(length);
    assert [] + header == header;
    RunCompletingHeader(limit, [], header);
    RunAppend(limit, Decoder.Initial(), header, rest);
    FailureIsPermanent(limit, rest);
  }
}
