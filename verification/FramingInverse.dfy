/** The other direction of the round trip: what a byte stream was, read off what the decoder made of it. */
module FramingInverse {
  import opened Wrappers
  import opened FramingSpec

  lemma HeaderOfLength(h: seq<byte>)
    requires |h| == FRAME_HEADER_LENGTH
    ensures FromBigEndian32(h) <= MAX_UINT32 && BigEndian32(FromBigEndian32(h)) == h
  {
    var n := FromBigEndian32(h);
    var q := h[0] as int * 0x1_0000 + h[1] as int * 0x100 + h[2];
    assert n == q * 256 + h[3];
    QuotientIs(n, q, h[3]);
    var r := h[0] as int * 0x100 + h[1];
    assert q == r * 256 + h[2];
    QuotientIs(q, r, h[2]);
    QuotientIs(r, h[0], h[1]);
  }

  lemma QuotientIs(n: nat, q: nat, b: byte)
    requires n == q * 256 + b
    ensures n / 256 == q && n % 256 == b
  {
  }

  /** What the decoder holds of a frame that is not complete. */
  function Unfinished(d: Decoder): seq<byte>
    requires d.Open? && d.Valid(MAX_UINT32)
  {
    if d.expected.None? then d.header else BigEndian32(d.expected.value) + d.payload
  }

  predicate Begins(bytes: seq<byte>, limit: nat, frames: seq<seq<byte>>, length: nat, rest: seq<byte>)
    requires WithinLimit(frames, MAX_UINT32)
  {
    limit < length <= MAX_UINT32 && bytes == Frames(frames) + BigEndian32(length) + rest
  }

  /** The bytes are those of the frames the decoder has given out, and of the frame it is in; or a frame that
      is too long came after them. */
  ghost predicate Explains(limit: nat, o: Outcome, bytes: seq<byte>)
    requires limit <= MAX_UINT32 && o.decoder.Valid(limit)
  {
    && WithinLimit(o.frames, limit)
    && !o.decoder.Ended?
    && (o.decoder.Open? ==> bytes == Frames(o.frames) + Unfinished(o.decoder))
    && (o.decoder.Failed? ==> exists length, rest :: Begins(bytes, limit, o.frames, length, rest))
  }

  lemma {:induction false} FramesMore(payloads: seq<seq<byte>>, payload: seq<byte>)
    requires WithinLimit(payloads, MAX_UINT32) && |payload| <= MAX_UINT32
    ensures WithinLimit(payloads + [payload], MAX_UINT32)
    ensures Frames(payloads + [payload]) == Frames(payloads) + Frame(payload)
    decreases |payloads|
  {
    hide Frame;
    var all := payloads + [payload];
    if payloads == [] {
      assert all[1..] == [] && all[0] == payload;
      assert Frames(all) == Frame(payload) + Frames([]);
    } else {
      assert all[1..] == payloads[1..] + [payload] && all[0] == payloads[0];
      FramesMore(payloads[1..], payload);
      assert Frames(all) == Frame(payloads[0]) + (Frames(payloads[1..]) + Frame(payload));
    }
  }

  /** The byte belongs to a header. */
  lemma HeaderByte(limit: nat, o: Outcome, bytes: seq<byte>, b: byte)
    requires limit <= MAX_UINT32 && o.decoder.Valid(limit) && Explains(limit, o, bytes)
    requires o.decoder.Open? && o.decoder.expected.None?
    ensures var next := Feed(limit, o.decoder, b);
            Explains(limit, Outcome(next.decoder, o.frames + next.frames), bytes + [b])
  {
    hide Frames, BigEndian32, FromBigEndian32;
    var done, header := Frames(o.frames), o.decoder.header + [b];
    assert o.frames + [] == o.frames;
    assert bytes + [b] == done + header;
    if |header| == FRAME_HEADER_LENGTH {
      HeaderOfLength(header);
      var length := FromBigEndian32(header);
      assert header + [] == header;
      if length > limit {
        assert Begins(bytes + [b], limit, o.frames, length, []);
      } else if length == 0 {
        FramesMore(o.frames, []);
        assert Frames(o.frames + [[]]) + [] == Frames(o.frames + [[]]);
      }
    }
  }

  /** It belongs to a payload. */
  lemma PayloadByte(limit: nat, o: Outcome, bytes: seq<byte>, b: byte)
    requires limit <= MAX_UINT32 && o.decoder.Valid(limit) && Explains(limit, o, bytes)
    requires o.decoder.Open? && o.decoder.expected.Some?
    ensures var next := Feed(limit, o.decoder, b);
            Explains(limit, Outcome(next.decoder, o.frames + next.frames), bytes + [b])
  {
    hide Frames, BigEndian32, FromBigEndian32;
    var done, payload, length := Frames(o.frames), o.decoder.payload + [b], o.decoder.expected.value;
    assert o.frames + [] == o.frames;
    assert bytes + [b] == done + (BigEndian32(length) + payload);
    if |payload| == length {
      FramesMore(o.frames, payload);
      assert Frames(o.frames + [payload]) + [] == Frames(o.frames + [payload]);
    }
  }

  /** Nobody reads it any more. */
  lemma IgnoredByte(limit: nat, o: Outcome, bytes: seq<byte>, b: byte)
    requires limit <= MAX_UINT32 && o.decoder.Valid(limit) && Explains(limit, o, bytes) && o.decoder.Failed?
    ensures Feed(limit, o.decoder, b) == Outcome(Failed, []) && Explains(limit, Outcome(Failed, o.frames + []), bytes + [b])
  {
    hide Frames, BigEndian32;
    assert o.frames + [] == o.frames;
    var length, rest :| Begins(bytes, limit, o.frames, length, rest);
    assert Frames(o.frames) + BigEndian32(length) + rest + [b] == Frames(o.frames) + BigEndian32(length) + (rest + [b]);
    assert Begins(bytes + [b], limit, o.frames, length, rest + [b]);
  }

  lemma ByteIsExplained(limit: nat, o: Outcome, bytes: seq<byte>, b: byte)
    requires limit <= MAX_UINT32 && o.decoder.Valid(limit) && Explains(limit, o, bytes)
    ensures var next := Feed(limit, o.decoder, b);
            Explains(limit, Outcome(next.decoder, o.frames + next.frames), bytes + [b])
  {
    assert !o.decoder.Ended?;
    hide Explains, Feed;
    if o.decoder.Failed? {
      IgnoredByte(limit, o, bytes, b);
    } else if o.decoder.expected.None? {
      HeaderByte(limit, o, bytes, b);
    } else {
      PayloadByte(limit, o, bytes, b);
    }
  }

  /** Whatever bytes come, the decoder explains them. */
  lemma {:induction false} RunExplains(limit: nat, bytes: seq<byte>)
    requires limit <= MAX_UINT32
    ensures Explains(limit, Run(limit, Decoder.Initial(), bytes), bytes)
    decreases |bytes|
  {
    hide Feed, Explains;
    if bytes == [] {
      NothingIsExplained(limit);
    } else {
      var n := |bytes| - 1;
      assert bytes == bytes[..n] + [bytes[n]];
      RunExplains(limit, bytes[..n]);
      RunAppend(limit, Decoder.Initial(), bytes[..n], [bytes[n]]);
      var o := Run(limit, Decoder.Initial(), bytes[..n]);
      RunOne(limit, o.decoder, bytes[n]);
      ByteIsExplained(limit, o, bytes[..n], bytes[n]);
    }
  }

  lemma RunOne(limit: nat, d: Decoder, b: byte)
    requires d.Valid(limit)
    ensures Run(limit, d, [b]) == Feed(limit, d, b)
  {
    var first := Feed(limit, d, b);
    assert Run(limit, first.decoder, [b][1..]) == Outcome(first.decoder, []);
    assert first.frames + [] == first.frames;
  }

  lemma NothingIsExplained(limit: nat)
    requires limit <= MAX_UINT32
    ensures Explains(limit, Run(limit, Decoder.Initial(), []), [])
  {
    assert Frames([]) + [] == [];
  }

  /** The decoder is at a boundary exactly if the bytes were the frames of some payloads within the limit, and
      then these are the payloads it has given out. */
  lemma BoundaryIff(limit: nat, bytes: seq<byte>, payloads: seq<seq<byte>>)
    requires limit <= MAX_UINT32
    ensures var o := Run(limit, Decoder.Initial(), bytes);
            o.decoder.AtBoundary() && o.frames == payloads <==>
              WithinLimit(payloads, limit) && WithinLimit(payloads, MAX_UINT32) && bytes == Frames(payloads)
  {
    var o := Run(limit, Decoder.Initial(), bytes);
    hide Run, Feed;
    RunExplains(limit, bytes);
    if o.decoder.AtBoundary() && o.frames == payloads {
      assert Unfinished(o.decoder) == [];
    }
    if WithinLimit(payloads, limit) && bytes == Frames(payloads) {
      RunFrames(limit, payloads);
    }
  }

  lemma TooLongFails(limit: nat, bytes: seq<byte>, frames: seq<seq<byte>>, length: nat, rest: seq<byte>)
    requires limit <= MAX_UINT32 && WithinLimit(frames, limit) && WithinLimit(frames, MAX_UINT32)
    requires Begins(bytes, limit, frames, length, rest)
    ensures Run(limit, Decoder.Initial(), bytes).decoder.Failed?
  {
    hide Run, Frames, BigEndian32;
    assert bytes == Frames(frames) + (BigEndian32(length) + rest);
    RunFrames(limit, frames);
    RunAppend(limit, Decoder.Initial(), Frames(frames), BigEndian32(length) + rest);
    OversizedLengthFails(limit, length, rest);
  }

  /** It fails exactly if a frame that is too long comes after frames that are not. */
  lemma FailsIff(limit: nat, bytes: seq<byte>)
    requires limit <= MAX_UINT32
    ensures Run(limit, Decoder.Initial(), bytes).decoder.Failed? <==>
              exists frames, length, rest :: WithinLimit(frames, limit) && WithinLimit(frames, MAX_UINT32)
                                             && Begins(bytes, limit, frames, length, rest)
  {
    hide Run, Feed, Begins;
    RunExplains(limit, bytes);
    if exists frames, length, rest :: WithinLimit(frames, limit) && WithinLimit(frames, MAX_UINT32)
                                      && Begins(bytes, limit, frames, length, rest)
    {
      var frames, length, rest :| WithinLimit(frames, limit) && WithinLimit(frames, MAX_UINT32)
                                  && Begins(bytes, limit, frames, length, rest);
      TooLongFails(limit, bytes, frames, length, rest);
    }
  }
}
