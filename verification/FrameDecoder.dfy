/** The incremental decoder over byte arrays: header buffer, 64 KiB payload blocks filled in place,
    proved to refine the byte-at-a-time decoder of FramingSpec. */
module FrameDecoding {
  import opened Wrappers
  import opened FramingSpec

  datatype DecoderState = IsOpen | HasEnded | HasFailed

  function Min(a: nat, b: nat): nat {
    if a < b then a else b
  }

  /** The arrays hold these byte sequences, one each. */
  ghost predicate Hold(arrays: seq<array<byte>>, contents: seq<seq<byte>>)
    reads arrays
  {
    |arrays| == |contents| && forall i :: 0 <= i < |arrays| ==> arrays[i][..] == contents[i]
  }

  lemma HoldConcat(a: seq<array<byte>>, contentsA: seq<seq<byte>>, b: seq<array<byte>>, contentsB: seq<seq<byte>>)
    requires Hold(a, contentsA) && Hold(b, contentsB)
    ensures Hold(a + b, contentsA + contentsB)
  {
  }

  function BlockOffset(i: nat): nat {
    i * 65536
  }

  ghost function Allocated(blocks: seq<array<byte>>): nat
    reads blocks
  {
    if blocks == [] then 0 else Allocated(blocks[..|blocks| - 1]) + blocks[|blocks| - 1].Length
  }

  lemma SlicesJoin(before: seq<byte>, chunk: array<byte>, i: nat, j: nat, k: nat)
    requires i <= j <= k <= chunk.Length
    ensures before + chunk[i..j] + chunk[j..k] == before + chunk[i..k]
  {
    assert chunk[i..k] == chunk[i..j] + chunk[j..k];
  }

  ghost predicate AllFull(blocks: seq<array<byte>>)
    reads blocks
  {
    forall i :: 0 <= i < |blocks| ==> blocks[i].Length == PAYLOAD_BLOCK_SIZE
  }

  lemma {:induction false} FullBlocksSize(blocks: seq<array<byte>>)
    requires AllFull(blocks)
    ensures Allocated(blocks) == BlockOffset(|blocks|)
  {
    if blocks != [] {
      FullBlocksSize(blocks[..|blocks| - 1]);
    }
  }

  /** A frame is the payload behind four bytes that say how long it is, the most significant first; a
      payload whose length does not fit them has none. */
  method EncodeFrame(payload: array<byte>) returns (r: Result<array<byte>>)
    ensures r.Ok? <==> payload.Length <= MAX_UINT32
    ensures r.Ok? ==> fresh(r.value) && r.value[..] == Frame(payload[..])
  {
    if payload.Length > MAX_UINT32 { return Err; }
    hide BigEndian32;
    var frame := new byte[FRAME_HEADER_LENGTH + payload.Length](_ => 0);
    WriteHeader(frame, payload.Length);
    CopyInto(frame, FRAME_HEADER_LENGTH, payload, 0, payload.Length);
    assert payload[0..payload.Length] == payload[..];
    assert frame[..] == frame[..4] + frame[4..];
    return Ok(frame);
  }

  method WriteHeader(frame: array<byte>, length: nat)
    requires FRAME_HEADER_LENGTH <= frame.Length && length <= MAX_UINT32
    modifies frame
    ensures frame[..FRAME_HEADER_LENGTH] == BigEndian32(length)
  {
    frame[0] := length / 0x100_0000 % 256;
    frame[1] := length / 0x1_0000 % 256;
    frame[2] := length / 0x100 % 256;
    frame[3] := length % 256;
    BigEndianBytes(length);
    hide BigEndian32;
    assert frame[..4] == [frame[0], frame[1], frame[2], frame[3]];
  }

  /** `target.set(source.subarray(from, from + count), at)` */
  method CopyInto(target: array<byte>, at: nat, source: array<byte>, from: nat, count: nat)
    requires target != source
    requires at + count <= target.Length && from + count <= source.Length
    modifies target
    ensures target[..] == old(target[..at]) + source[from..from + count] + old(target[at + count..])
  {
    var i := 0;
    while i < count
      invariant 0 <= i <= count
      invariant target[..at] == old(target[..at])
      invariant target[at..at + i] == source[from..from + i]
      invariant target[at + count..] == old(target[at + count..])
    {
      target[at + i] := source[from + i];
      i := i + 1;
    }
    assert target[..] == target[..at] + target[at..at + count] + target[at + count..];
  }

  /** Block `i` of a list of full blocks holds the `i`-th 64 KiB of `bytes`. */
  ghost predicate HoldPrefix(blocks: seq<array<byte>>, bytes: seq<byte>)
    reads blocks
  {
    forall i :: 0 <= i < |blocks| ==> HoldsSlice(blocks[i], bytes, i)
  }

  ghost predicate HoldsSlice(block: array<byte>, bytes: seq<byte>, i: nat)
    reads block
  {
    BlockOffset(i + 1) <= |bytes| && block[..] == bytes[BlockOffset(i)..BlockOffset(i + 1)]
  }

  lemma HoldLonger(blocks: seq<array<byte>>, bytes: seq<byte>, more: seq<byte>)
    requires HoldPrefix(blocks, bytes)
    ensures HoldPrefix(blocks, bytes + more)
  {
    forall i | 0 <= i < |blocks|
      ensures HoldsSlice(blocks[i], bytes + more, i)
    {
      assert HoldsSlice(blocks[i], bytes, i);
    }
  }

  class FrameDecoder {
    const header: array<byte>
    var headerLength: nat
    const maxFrameLength: nat
    var payloadBlocks: seq<array<byte>>
    var currentPayloadBlock: array?<byte>
    var currentPayloadBlockLength: nat
    var expectedPayloadLength: Option<nat>
    var payloadLength: nat
    var state: DecoderState

    /** The payload bytes spread over the blocks, and the objects the decoder owns. */
    ghost var received: seq<byte>
    /** The reference decoder this object stands for. */
    ghost var model: Decoder
    ghost var Repr: set<object>

    ghost predicate Valid()
      reads this, Repr
      ensures Valid() ==> this in Repr
    {
      && this in Repr && header in Repr
      && BlocksValid()
      && headerLength < FRAME_HEADER_LENGTH
      && (state != IsOpen ==> expectedPayloadLength.None?)
      && (expectedPayloadLength.Some? ==> headerLength == 0 && payloadLength < expectedPayloadLength.value)
      && (payloadBlocks != [] ==> 0 < currentPayloadBlockLength)
      && model.Valid(maxFrameLength)
      && model == match state
                  case IsOpen => Open(header[..headerLength], expectedPayloadLength, received)
                  case HasEnded => Ended
                  case HasFailed => Failed
    }

    /** Every block but the last is full; between two pushes the last holds at least one byte. */
    ghost predicate BlocksValid()
      reads this, Repr
    {
      && this in Repr && header in Repr
      && header.Length == FRAME_HEADER_LENGTH
      && header !in payloadBlocks
      && (forall b <- payloadBlocks :: b in Repr)
      && |received| == payloadLength
      && (expectedPayloadLength.None? ==> payloadBlocks == [])
      && (expectedPayloadLength.Some? ==> payloadLength <= expectedPayloadLength.value <= maxFrameLength)
      && if payloadBlocks == [] then
           currentPayloadBlock == null && currentPayloadBlockLength == 0 && payloadLength == 0
         else
           var last := |payloadBlocks| - 1;
           && currentPayloadBlock == payloadBlocks[last]
           && AllFull(payloadBlocks[..last])
           && currentPayloadBlock !in payloadBlocks[..last]
           && expectedPayloadLength.Some? && BlockOffset(last) <= expectedPayloadLength.value
           && currentPayloadBlock.Length == Min(PAYLOAD_BLOCK_SIZE, expectedPayloadLength.value - BlockOffset(last))
           && currentPayloadBlockLength <= currentPayloadBlock.Length
           && payloadLength == BlockOffset(last) + currentPayloadBlockLength
           && HoldPrefix(payloadBlocks[..last], received)
           && currentPayloadBlock[..currentPayloadBlockLength] == received[BlockOffset(last)..]
    }

    /** `maxFrameLength` must fit in an unsigned 32-bit integer. */
    static method Create(limit: int) returns (r: Result<FrameDecoder>)
      ensures r.Ok? <==> 0 <= limit <= MAX_UINT32
      ensures r.Ok? ==> fresh(r.value.Repr) && r.value.Valid()
      ensures r.Ok? ==> r.value.maxFrameLength == limit && r.value.model == Decoder.Initial()
    {
      if limit < 0 || limit > MAX_UINT32 { return Err; }
      var decoder := new FrameDecoder(limit);
      return Ok(decoder);
    }

    constructor (limit: nat)
      ensures fresh(Repr) && Valid()
      ensures maxFrameLength == limit && model == Decoder.Initial()
    {
      header := new byte[FRAME_HEADER_LENGTH](_ => 0);
      headerLength := 0;
      maxFrameLength := limit;
      payloadBlocks := [];
      currentPayloadBlock := null;
      currentPayloadBlockLength := 0;
      expectedPayloadLength := None;
      payloadLength := 0;
      state := IsOpen;
      received := [];
      model := Decoder.Initial();
      Repr := {this, header};
    }

    /** Allocation follows the bytes received, never the advertised length: all blocks but the last have the
        full block size and have been filled. */
    lemma AllocationIsBounded()
      requires Valid() && expectedPayloadLength.Some?
      ensures forall i :: 0 <= i < |payloadBlocks| - 1 ==> payloadBlocks[i].Length == PAYLOAD_BLOCK_SIZE
      ensures payloadBlocks != [] ==> BlockOffset(|payloadBlocks| - 1) <= payloadLength
      ensures Allocated(payloadBlocks) <= expectedPayloadLength.value
      ensures Allocated(payloadBlocks) <= payloadLength + (PAYLOAD_BLOCK_SIZE - 1)
    {
      if payloadBlocks != [] {
        var full := payloadBlocks[..|payloadBlocks| - 1];
        FullBlocksSize(full);
        assert forall i :: 0 <= i < |full| ==> full[i] == payloadBlocks[i];
      }
    }

    method Push(chunk: array<byte>) returns (r: Result<seq<array<byte>>>)
      requires Valid() && chunk !in Repr
      modifies Repr
      ensures Valid() && fresh(Repr - old(Repr)) && chunk !in Repr
      ensures old(state) != IsOpen ==> r.Err? && model == old(model)
      ensures old(state) == IsOpen ==>
                var o := Run(maxFrameLength, old(model), chunk[..]);
                && model == o.decoder
                && (r.Err? <==> o.decoder == Failed)
                && (r.Ok? ==> Hold(r.value, o.frames) && forall f <- r.value :: f !in Repr)
      ensures r.Ok? ==> forall f <- r.value :: fresh(f) || f in old(Repr)
      ensures state == HasFailed && old(state) == IsOpen ==> payloadBlocks == [] && headerLength == 0
    {
      if state != IsOpen { return Err; }
      var frames: seq<array<byte>> := [];
      var chunkOffset := 0;
      ghost var contents: seq<seq<byte>> := [];
      ghost var bytes := chunk[..];
      ghost var start := model;
      assert Run(maxFrameLength, start, bytes[..0]) == Outcome(start, []);
      hide BlocksValid, Run, Hold;
      while chunkOffset < chunk.Length
        invariant Valid() && state == IsOpen && fresh(Repr - old(Repr))
        invariant chunkOffset <= chunk.Length && chunk !in Repr && chunk[..] == bytes
        invariant forall f <- frames :: f !in Repr && (fresh(f) || f in old(Repr))
        invariant Run(maxFrameLength, start, bytes[..chunkOffset]) == Outcome(model, contents)
        invariant Hold(frames, contents)
      {
        ghost var before := chunkOffset;
        ghost var middle := model;
        var produced, failed;
        chunkOffset, produced, failed := PushSome(chunk, chunkOffset);
        ghost var step := Run(maxFrameLength, middle, bytes[before..chunkOffset]);
        assert chunk[before..chunkOffset] == bytes[before..chunkOffset];
        RunSlices(maxFrameLength, start, bytes, before, chunkOffset);
        if failed {
          FailureEndsRun(maxFrameLength, start, bytes, chunkOffset);
          return Err;
        }
        HoldConcat(frames, contents, produced, step.frames);
        frames := frames + produced;
        contents := contents + step.frames;
      }
      assert bytes[..chunkOffset] == bytes;
      return Ok(frames);
    }

    /** One round of the loop: header bytes, then payload bytes, then a finished frame. */
    method PushSome(chunk: array<byte>, offset: nat)
      returns (next: nat, produced: seq<array<byte>>, failed: bool)
      requires Valid() && state == IsOpen && chunk !in Repr && offset < chunk.Length
      modifies Repr
      ensures Valid() && fresh(Repr - old(Repr)) && chunk !in Repr
      ensures offset < next <= chunk.Length
      ensures var o := Run(maxFrameLength, old(model), chunk[offset..next]);
              o.decoder == model && Hold(produced, o.frames)
      ensures failed <==> state != IsOpen
      ensures failed ==> state == HasFailed && payloadBlocks == [] && headerLength == 0
      ensures forall f <- produced :: f !in Repr && (fresh(f) || f in old(Repr))
    {
      hide BlocksValid, Run;
      next, produced, failed := offset, [], false;
      ghost var start := model;
      if expectedPayloadLength.None? {
        next, produced, failed := HeaderStep(chunk, offset);
        if expectedPayloadLength.None? || next == chunk.Length { return; }
      }
      ghost var middle := model;
      ghost var headerEnd := next;
      next, produced := PayloadStep(chunk, next);
      assert chunk[offset..next] == chunk[offset..headerEnd] + chunk[headerEnd..next];
      if offset == headerEnd {
        assert chunk[offset..next] == chunk[headerEnd..next];
      } else {
        RunAppend(maxFrameLength, start, chunk[offset..headerEnd], chunk[headerEnd..next]);
      }
    }

    method HeaderStep(chunk: array<byte>, offset: nat)
      returns (next: nat, produced: seq<array<byte>>, failed: bool)
      requires Valid() && state == IsOpen && expectedPayloadLength.None?
      requires chunk !in Repr && offset < chunk.Length
      modifies this, header
      ensures Valid() && Repr == old(Repr)
      ensures offset < next <= chunk.Length
      ensures var o := Run(maxFrameLength, old(model), chunk[offset..next]);
              o.decoder == model && Hold(produced, o.frames)
      ensures failed <==> state != IsOpen
      ensures failed ==> state == HasFailed && payloadBlocks == [] && headerLength == 0
      ensures expectedPayloadLength.Some? ==> produced == []
      ensures forall f <- produced :: fresh(f)
    {
      hide Run;
      produced, failed := [], false;
      ghost var start := model;
      var complete;
      next, complete := ReadHeader(chunk, offset);
      ghost var read := chunk[offset..next];
      if !complete {
        RunPartialHeader(maxFrameLength, start.header, read);
        model := Open(header[..headerLength], None, []);
        return;
      }
      RunCompletingHeader(maxFrameLength, start.header, read);
      var frameLength: nat := header[0] as int * 0x100_0000 + header[1] as int * 0x1_0000
        + header[2] as int * 0x100 + header[3] as int;
      assert header[..headerLength] == header[..];
      assert frameLength == FromBigEndian32(start.header + read);
      headerLength := 0;
      if frameLength > maxFrameLength {
        Fail();
        failed := true;
      } else if frameLength == 0 {
        var empty := new byte[0];
        assert empty[..] == [];
        produced := [empty];
        model := Decoder.Initial();
      } else {
        expectedPayloadLength := Some(frameLength);
        model := Open([], Some(frameLength), []);
      }
    }

    method PayloadStep(chunk: array<byte>, offset: nat) returns (next: nat, produced: seq<array<byte>>)
      requires Valid() && expectedPayloadLength.Some?
      requires chunk !in Repr && offset < chunk.Length
      modifies Repr
      ensures Valid() && state == IsOpen && fresh(Repr - old(Repr)) && chunk !in Repr
      ensures offset < next <= chunk.Length
      ensures var o := Run(maxFrameLength, old(model), chunk[offset..next]);
              o.decoder == model && Hold(produced, o.frames)
      ensures forall f <- produced :: f !in Repr && (fresh(f) || f in old(Repr))
    {
      hide Run, BlocksValid;
      produced := [];
      ghost var filling := model;
      next := FillPayload(chunk, offset);
      ghost var filled := chunk[offset..next];
      if payloadLength == expectedPayloadLength.value {
        RunCompletingPayload(maxFrameLength, filling.expected.value, filling.payload, filled);
        var frame := TakePayload();
        produced := [frame];
      } else {
        RunPartialPayload(maxFrameLength, filling.expected.value, filling.payload, filled);
        AwaitRest();
      }
    }

    /** The payload is not complete yet. */
    ghost method AwaitRest()
      requires BlocksValid() && headerLength == 0 && state == IsOpen
      requires expectedPayloadLength.Some? && payloadLength < expectedPayloadLength.value
      requires 0 < currentPayloadBlockLength
      modifies this`model
      ensures Valid() && model == Open([], expectedPayloadLength, received)
    {
      model := Open([], expectedPayloadLength, received);
    }

    method ReadHeader(chunk: array<byte>, offset: nat) returns (next: nat, complete: bool)
      requires Valid() && state == IsOpen && expectedPayloadLength.None?
      requires chunk !in Repr && offset < chunk.Length
      modifies header, this`headerLength
      ensures BlocksValid()
      ensures offset < next <= chunk.Length
      ensures headerLength == old(headerLength) + (next - offset) <= FRAME_HEADER_LENGTH
      ensures header[..headerLength] == old(header[..headerLength]) + chunk[offset..next]
      ensures complete <==> headerLength == FRAME_HEADER_LENGTH
    {
      var headerBytes := Min(FRAME_HEADER_LENGTH - headerLength, chunk.Length - offset);
      CopyInto(header, headerLength, chunk, offset, headerBytes);
      headerLength := headerLength + headerBytes;
      next := offset + headerBytes;
      complete := headerLength == FRAME_HEADER_LENGTH;
    }

    /** Copies chunk bytes into blocks until the chunk or the payload is exhausted. */
    method FillPayload(chunk: array<byte>, offset: nat) returns (next: nat)
      requires Valid() && expectedPayloadLength.Some?
      requires chunk !in Repr && offset < chunk.Length
      modifies Repr
      ensures BlocksValid() && this in Repr && header in Repr && fresh(Repr - old(Repr)) && chunk !in Repr
      ensures headerLength == 0 && state == IsOpen && expectedPayloadLength == old(expectedPayloadLength)
      ensures |received| == payloadLength <= expectedPayloadLength.value <= maxFrameLength
      ensures offset < next <= chunk.Length
      ensures received == old(received) + chunk[offset..next]
      ensures next < chunk.Length ==> payloadLength == expectedPayloadLength.value
      ensures payloadBlocks != [] && 0 < currentPayloadBlockLength
    {
      var expected := expectedPayloadLength.value;
      next := offset;
      BlocksFacts();
      hide BlocksValid;
      while next < chunk.Length && payloadLength < expected
        invariant offset <= next <= chunk.Length
        invariant BlocksValid() && this in Repr && fresh(Repr - old(Repr)) && chunk !in Repr
        invariant headerLength == 0 && state == IsOpen && expectedPayloadLength == Some(expected)
        invariant received == old(received) + chunk[offset..next]
        invariant payloadLength == |received| <= expected <= maxFrameLength
        invariant payloadLength == expected ==> offset < next
        invariant offset < next ==> payloadBlocks != [] && 0 < currentPayloadBlockLength
      {
        ghost var was := next;
        next := FillOnce(chunk, next);
        BlocksFacts();
        SlicesJoin(old(received), chunk, offset, was, next);
      }
    }

    method FillOnce(chunk: array<byte>, offset: nat) returns (next: nat)
      requires BlocksValid() && expectedPayloadLength.Some? && payloadLength < expectedPayloadLength.value
      requires chunk !in Repr && offset < chunk.Length
      modifies Repr
      ensures BlocksValid() && fresh(Repr - old(Repr)) && chunk !in Repr
      ensures headerLength == old(headerLength) && state == old(state)
      ensures expectedPayloadLength == old(expectedPayloadLength)
      ensures payloadBlocks != [] && 0 < currentPayloadBlockLength
      ensures offset < next <= chunk.Length
      ensures received == old(received) + chunk[offset..next]
    {
      BlocksFacts();
      if currentPayloadBlock == null || currentPayloadBlockLength == currentPayloadBlock.Length {
        StartBlock();
      }
      hide BlocksValid;
      next := FillBlock(chunk, offset);
      BlocksFacts();
    }

    lemma BlocksFacts()
      requires BlocksValid()
      ensures this in Repr && header in Repr
      ensures currentPayloadBlock == null || currentPayloadBlock in Repr
      ensures payloadLength == |received|
      ensures expectedPayloadLength.Some? ==> payloadLength <= expectedPayloadLength.value <= maxFrameLength
      ensures payloadBlocks == [] <==> currentPayloadBlock == null
      ensures currentPayloadBlock == null ==> currentPayloadBlockLength == 0
      ensures currentPayloadBlock != null ==> currentPayloadBlockLength <= currentPayloadBlock.Length
    {
    }

    /** A new block, sized for what is still missing. */
    method StartBlock()
      requires BlocksValid() && expectedPayloadLength.Some? && payloadLength < expectedPayloadLength.value
      requires currentPayloadBlock == null || currentPayloadBlockLength == currentPayloadBlock.Length
      modifies this`payloadBlocks, this`currentPayloadBlock, this`currentPayloadBlockLength, this`Repr
      ensures BlocksValid() && currentPayloadBlock != null
      ensures currentPayloadBlockLength == 0 < currentPayloadBlock.Length
      ensures fresh(currentPayloadBlock) && Repr == old(Repr) + {currentPayloadBlock}
    {
      hide HoldPrefix, AllFull;
      var block := new byte[Min(PAYLOAD_BLOCK_SIZE, expectedPayloadLength.value - payloadLength)](_ => 0);
      ghost var full := payloadBlocks;
      FullWhenExhausted();
      payloadBlocks := payloadBlocks + [block];
      assert payloadBlocks[..|payloadBlocks| - 1] == full;
      currentPayloadBlock := block;
      currentPayloadBlockLength := 0;
      Repr := Repr + {block};
    }

    lemma FullWhenExhausted()
      requires BlocksValid() && expectedPayloadLength.Some? && payloadLength < expectedPayloadLength.value
      requires currentPayloadBlock == null || currentPayloadBlockLength == currentPayloadBlock.Length
      ensures AllFull(payloadBlocks) && payloadLength == BlockOffset(|payloadBlocks|)
      ensures HoldPrefix(payloadBlocks, received)
    {
      if payloadBlocks != [] {
        var last := |payloadBlocks| - 1;
        assert currentPayloadBlock[..] == received[BlockOffset(last)..];
        forall i | 0 <= i < |payloadBlocks|
          ensures payloadBlocks[i].Length == PAYLOAD_BLOCK_SIZE && HoldsSlice(payloadBlocks[i], received, i)
        {
          if i < last {
            assert payloadBlocks[i] == payloadBlocks[..last][i];
          }
        }
      }
    }

    /** The current block, not yet full, takes the next bytes. */
    method FillBlock(chunk: array<byte>, offset: nat) returns (next: nat)
      requires BlocksValid() && expectedPayloadLength.Some? && payloadLength < expectedPayloadLength.value
      requires currentPayloadBlock != null && currentPayloadBlockLength < currentPayloadBlock.Length
      requires chunk !in Repr && offset < chunk.Length
      modifies currentPayloadBlock, this`currentPayloadBlockLength, this`payloadLength, this`received
      ensures BlocksValid() && 0 < currentPayloadBlockLength
      ensures offset < next <= chunk.Length
      ensures received == old(received) + chunk[offset..next]
    {
      hide HoldPrefix;
      var block := currentPayloadBlock;
      ghost var full := payloadBlocks[..|payloadBlocks| - 1];
      ghost var was := received;
      var payloadBytes := Min(block.Length - currentPayloadBlockLength, chunk.Length - offset);
      CopyInto(block, currentPayloadBlockLength, chunk, offset, payloadBytes);
      next := offset + payloadBytes;
      currentPayloadBlockLength := currentPayloadBlockLength + payloadBytes;
      payloadLength := payloadLength + payloadBytes;
      received := received + chunk[offset..next];
      HoldLonger(full, was, chunk[offset..next]);
      assert block[..currentPayloadBlockLength] == received[BlockOffset(|full|)..];
    }

    /** Hands out the finished payload: the single block itself, or a copy of all blocks. */
    method TakePayload() returns (frame: array<byte>)
      requires BlocksValid() && headerLength == 0 && state == IsOpen
      requires expectedPayloadLength.Some? && 0 < payloadLength == expectedPayloadLength.value
      modifies this`payloadBlocks, this`currentPayloadBlock, this`currentPayloadBlockLength,
               this`expectedPayloadLength, this`payloadLength, this`received, this`model, this`Repr
      ensures Valid() && model == Decoder.Initial() && Repr <= old(Repr)
      ensures frame[..] == old(received)
      ensures frame !in Repr && (fresh(frame) || frame in old(Repr))
    {
      frame := WholePayload();
      hide BlocksValid;
      payloadBlocks := [];
      currentPayloadBlock := null;
      currentPayloadBlockLength := 0;
      expectedPayloadLength := None;
      payloadLength := 0;
      received := [];
      model := Decoder.Initial();
      Repr := {this, header};
      NoBlocksAreValid();
    }

    /** The only block, or the blocks joined. */
    method WholePayload() returns (frame: array<byte>)
      requires BlocksValid() && expectedPayloadLength.Some? && 0 < payloadLength == expectedPayloadLength.value
      ensures frame[..] == received && frame != header
      ensures fresh(frame) || frame in Repr
      ensures this in Repr && header in Repr && header.Length == FRAME_HEADER_LENGTH
    {
      if |payloadBlocks| == 1 {
        frame := payloadBlocks[0];
        assert received[BlockOffset(0)..] == received;
        assert frame[..currentPayloadBlockLength] == frame[..];
      } else {
        frame := JoinBlocks();
      }
    }

    lemma NoBlocksAreValid()
      requires this in Repr && header in Repr && header.Length == FRAME_HEADER_LENGTH
      requires payloadBlocks == [] && currentPayloadBlock == null && currentPayloadBlockLength == payloadLength == 0
      requires received == [] && expectedPayloadLength.None?
      ensures BlocksValid()
    {
    }

    /** When the payload is complete, block `i` holds the bytes at its offset, the last one included. */
    lemma BlockAt(i: nat)
      requires BlocksValid() && expectedPayloadLength.Some? && 0 < payloadLength == expectedPayloadLength.value
      requires i < |payloadBlocks|
      ensures payloadBlocks[i] in Repr
      ensures var end := if i < |payloadBlocks| - 1 then BlockOffset(i + 1) else payloadLength;
              && BlockOffset(i) + payloadBlocks[i].Length == end <= payloadLength
              && payloadBlocks[i][..] == received[BlockOffset(i)..end]
    {
      var last := |payloadBlocks| - 1;
      if i < last {
        assert payloadBlocks[i] == payloadBlocks[..last][i];
        assert HoldsSlice(payloadBlocks[i], received, i);
      } else {
        assert currentPayloadBlock[..currentPayloadBlockLength] == currentPayloadBlock[..];
      }
    }

    /** Copies block `i` to its place in the payload. */
    method CopyBlock(payload: array<byte>, i: nat, offset: nat) returns (next: nat)
      requires BlocksValid() && expectedPayloadLength.Some? && 0 < payloadLength == expectedPayloadLength.value
      requires i < |payloadBlocks| && payload !in Repr && payload.Length == payloadLength == |received|
      requires offset == BlockOffset(i) <= payloadLength && payload[..offset] == received[..offset]
      modifies payload
      ensures BlocksValid() && next == (if i < |payloadBlocks| - 1 then BlockOffset(i + 1) else payloadLength) <= payloadLength
      ensures payload[..next] == received[..next]
    {
      hide BlocksValid, BlockOffset;
      BlockAt(i);
      var block := payloadBlocks[i];
      next := offset + block.Length;
      CopyInto(payload, offset, block, 0, block.Length);
      assert block[0..block.Length] == block[..];
      assert payload[..next] == payload[..offset] + payload[offset..next];
      assert received[..next] == received[..offset] + received[offset..next];
    }

    method JoinBlocks() returns (payload: array<byte>)
      requires BlocksValid() && payloadBlocks != [] && |received| == payloadLength
      requires expectedPayloadLength.Some? && 0 < payloadLength == expectedPayloadLength.value
      ensures fresh(payload) && payload[..] == received
    {
      assert BlockOffset(0) == 0;
      hide BlocksValid, BlockOffset;
      payload := new byte[expectedPayloadLength.value](_ => 0);
      var last, offset, i := |payloadBlocks| - 1, 0, 0;
      while i < |payloadBlocks|
        invariant 0 <= i <= |payloadBlocks| && 0 <= offset <= payloadLength
        invariant offset == if i <= last then BlockOffset(i) else payloadLength
        invariant payload[..offset] == received[..offset]
        invariant fresh(payload) && BlocksValid()
      {
        offset := CopyBlock(payload, i, offset);
        i := i + 1;
      }
      assert payload[..offset] == payload[..] && received[..offset] == received;
    }

    /** Ends the stream; a frame cut short fails the decoder instead. */
    method End() returns (ok: bool)
      requires Valid()
      modifies this
      ensures Valid() && Repr <= old(Repr)
      ensures ok <==> old(model).AtBoundary()
      ensures model == if ok then Ended else if old(state) == IsOpen then Failed else old(model)
    {
      if state != IsOpen { return false; }
      if headerLength != 0 || expectedPayloadLength.Some? {
        Fail();
        return false;
      }
      state := HasEnded;
      model := Ended;
      return true;
    }

    method Fail()
      requires header.Length == FRAME_HEADER_LENGTH && {this, header} <= Repr
      modifies this
      ensures Valid() && model == Failed && Repr == old(Repr)
      ensures payloadBlocks == [] && headerLength == 0
    {
      state := HasFailed;
      headerLength := 0;
      payloadBlocks := [];
      currentPayloadBlock := null;
      currentPayloadBlockLength := 0;
      expectedPayloadLength := None;
      payloadLength := 0;
      received := [];
      model := Failed;
    }
  }

  /** A whole stream through one decoder object: the pushes together yield exactly the payloads, and
      `End` succeeds. */
  method DecodeStream(limit: nat, chunks: seq<array<byte>>, ghost cut: seq<seq<byte>>, ghost payloads: seq<seq<byte>>)
    returns (frames: seq<array<byte>>, ok: bool)
    requires limit <= MAX_UINT32 && WithinLimit(payloads, limit)
    requires Hold(chunks, cut) && Concat(cut) == Frames(payloads)
    ensures ok && Hold(frames, payloads)
  {
    hide RunChunks, Hold;
    var decoder := new FrameDecoder(limit);
    FramesRoundTrip(limit, payloads, cut);
    frames := PushAll(decoder, chunks, cut);
    ok := decoder.End();
  }

  /** One push, with the rest of the chunks still to come. */
  method PushFirst(decoder: FrameDecoder, chunks: seq<array<byte>>, ghost cut: seq<seq<byte>>) returns (frames: seq<array<byte>>)
    requires decoder.Valid() && decoder.state == IsOpen
    requires chunks != [] && Hold(chunks, cut) && forall c <- chunks :: c !in decoder.Repr
    requires Run(decoder.maxFrameLength, decoder.model, cut[0]).decoder.Open?
    modifies decoder.Repr
    ensures decoder.Valid() && decoder.state == IsOpen && fresh(decoder.Repr - old(decoder.Repr))
    ensures var o := Run(decoder.maxFrameLength, old(decoder.model), cut[0]);
            decoder.model == o.decoder && Hold(frames, o.frames)
    ensures forall f <- frames :: f !in decoder.Repr
    ensures Hold(chunks[1..], cut[1..]) && forall c <- chunks[1..] :: c !in decoder.Repr
  {
    hide FrameDecoder.BlocksValid, Run;
    var r := decoder.Push(chunks[0]);
    frames := r.value;
  }

  method PushAll(decoder: FrameDecoder, chunks: seq<array<byte>>, ghost cut: seq<seq<byte>>)
    returns (frames: seq<array<byte>>)
    requires decoder.Valid() && decoder.state == IsOpen
    requires Hold(chunks, cut) && forall c <- chunks :: c !in decoder.Repr
    requires RunChunks(decoder.maxFrameLength, decoder.model, cut).decoder.Open?
    modifies decoder.Repr
    ensures decoder.Valid() && fresh(decoder.Repr - old(decoder.Repr))
    ensures var o := RunChunks(decoder.maxFrameLength, old(decoder.model), cut);
            decoder.model == o.decoder && Hold(frames, o.frames)
    ensures forall f <- frames :: f !in decoder.Repr
    decreases |chunks|
  {
    if chunks == [] { return []; }
    hide FrameDecoder.BlocksValid, Run, RunChunks;
    ghost var first := OnePushThenTheRest(decoder.maxFrameLength, decoder.model, cut);
    var earlier := PushFirst(decoder, chunks, cut);
    ghost var rest := RunChunks(decoder.maxFrameLength, decoder.model, cut[1..]);
    var later := PushAll(decoder, chunks[1..], cut[1..]);
    HoldConcat(earlier, first.frames, later, rest.frames);
    frames := earlier + later;
  }

  lemma OnePushThenTheRest(limit: nat, d: Decoder, chunks: seq<seq<byte>>) returns (first: Outcome)
    requires d.Valid(limit) && chunks != [] && RunChunks(limit, d, chunks).decoder.Open?
    ensures first == Run(limit, d, chunks[0]) && first.decoder.Open? && first.decoder.Valid(limit)
    ensures var rest := RunChunks(limit, first.decoder, chunks[1..]);
            RunChunks(limit, d, chunks) == Outcome(rest.decoder, first.frames + rest.frames)
  {
    RunEndsOpen(limit, d, chunks);
    hide Run;
    first := Run(limit, d, chunks[0]);
  }

  /** Chunks that together end at a boundary never failed on the way. */
  lemma {:induction false} RunEndsOpen(limit: nat, d: Decoder, chunks: seq<seq<byte>>)
    requires d.Valid(limit) && chunks != [] && RunChunks(limit, d, chunks).decoder.Open?
    ensures Run(limit, d, chunks[0]).decoder.Open?
    decreases |chunks|
  {
    var next := Run(limit, d, chunks[0]).decoder;
    if !next.Open? {
      ClosedChunksStayClosed(limit, next, chunks[1..]);
    }
  }

  lemma {:induction false} ClosedChunksStayClosed(limit: nat, d: Decoder, chunks: seq<seq<byte>>)
    requires !d.Open?
    ensures RunChunks(limit, d, chunks).decoder == d
    decreases |chunks|
  {
    if chunks != [] {
      ClosedStaysClosed(limit, d, chunks[0]);
      ClosedChunksStayClosed(limit, d, chunks[1..]);
    }
  }

  lemma {:induction false} ClosedStaysClosed(limit: nat, d: Decoder, bytes: seq<byte>)
    requires !d.Open?
    ensures Run(limit, d, bytes) == Outcome(d, [])
    decreases |bytes|
  {
    if bytes != [] {
      ClosedStaysClosed(limit, d, bytes[1..]);
    }
  }
}
