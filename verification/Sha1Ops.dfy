/** The streaming SHA-1 context: init, update and final over a 64-byte buffer. */
module Sha1Ops {
  import opened Chunks
  import opened Sha1

  class Context {
    var state: Hash
    var totalBytes: nat
    const buffer: array<bv8>
    var bufferSize: nat
    // Every byte taken in so far.
    ghost var stream: seq<bv8>
    // Those of them already folded into the state, in whole blocks.
    ghost var folded: seq<bv8>

    // The buffer holds what is not folded yet.
    ghost predicate Holds()
      reads this`bufferSize, this`stream, this`folded, buffer
    {
      buffer.Length == 64 && bufferSize <= 64 && stream == folded + buffer[..bufferSize]
    }

    ghost predicate Follows()
      reads this`state, this`bufferSize, this`stream, this`folded, buffer
    {
      IsFold(state, folded) && Holds()
    }

    ghost predicate Valid()
      reads this, buffer
    {
      Follows() && bufferSize < 64 && totalBytes == U64(|stream|)
    }

    // sha1_init
    constructor ()
      ensures Valid() && fresh(buffer) && stream == []
    {
      state, totalBytes, bufferSize, stream, folded := INITIAL, 0, 0, [], [];
      IsFoldExact(INITIAL, []);
      buffer := new bv8[64];
    }

    method Expand() returns (words: array<bv32>)
      requires buffer.Length == 64
      ensures fresh(words) && words.Length == 80 && words[..] == Schedule(buffer[..], words.Length)
    {
      words := new bv32[80];
      ghost var block := buffer[..];
      for t := 0 to words.Length
        invariant words[..t] == Schedule(block, t)
      {
        if t < 16 {
          words[t] := BigEndian(buffer[4 * t], buffer[4 * t + 1], buffer[4 * t + 2], buffer[4 * t + 3]);
        } else {
          words[t] := Rotate1(words[t - 3] ^ words[t - 8] ^ words[t - 14] ^ words[t - 16]);
        }
        assert words[..t + 1] == words[..t] + [words[t]];
      }
      assert words[..words.Length] == words[..];
    }

    // One step of the 80.
    method Turn(index: nat, a0: bv32, b0: bv32, c0: bv32, d0: bv32, e0: bv32, w: bv32)
      returns (a: bv32, b: bv32, c: bv32, d: bv32, e: bv32)
      ensures Hash(a, b, c, d, e) == Round(index, Hash(a0, b0, c0, d0, e0), w)
    {
      var temporary := Rotate5(a0) + F(index, b0, c0, d0) + e0 + K(index) + w;
      a, b, c, d, e := temporary, a0, Rotate30(b0), c0, d0;
    }

    // The 80 steps of sha1_transform.
    method Run(words: array<bv32>, h: Hash) returns (r: Hash)
      requires words.Length == 80
      ensures r == Rounds(words[..], |words[..]|, h)
    {
      var a, b, c, d, e := h.a, h.b, h.c, h.d, h.e;
      for index := 0 to words.Length
        invariant Hash(a, b, c, d, e) == Rounds(words[..], index, h)
      {
        RoundsNext(words[..], index, h);
        a, b, c, d, e := Turn(index, a, b, c, d, e, words[index]);
      }
      r := Hash(a, b, c, d, e);
    }

    // sha1_transform, on the full buffer.
    method Transform()
      requires buffer.Length == 64
      modifies this`state
      ensures state == Compress(old(state), buffer[..])
    {
      var words := Expand();
      var r := Run(words, state);
      state := Sum(state, r);
    }

    // A full buffer goes into the state.
    method Flush()
      requires Follows() && bufferSize == 64
      modifies this`state, this`bufferSize, this`folded
      ensures Follows() && bufferSize == 0
    {
      IsFoldNext(state, folded, buffer[..]);
      assert buffer[..64] == buffer[..];
      Transform();
      bufferSize, folded := 0, folded + buffer[..];
    }

    // Copy part of the input behind what the buffer holds.
    method Copy(data: seq<bv8>)
      requires Holds() && bufferSize + |data| <= 64
      modifies this`bufferSize, this`stream, buffer
      ensures Holds() && bufferSize == old(bufferSize) + |data| && stream == old(stream) + data
    {
      ghost var kept := buffer[..bufferSize];
      forall k | 0 <= k < |data| { buffer[bufferSize + k] := data[k]; }
      assert buffer[..bufferSize + |data|] == kept + data;
      bufferSize, stream := bufferSize + |data|, stream + data;
    }

    method TakePart(part: seq<bv8>)
      requires Follows() && bufferSize + |part| <= 64
      modifies this`state, this`bufferSize, this`stream, this`folded, buffer
      ensures Follows() && bufferSize < 64 && stream == old(stream) + part
    {
      Copy(part);
      if bufferSize == 64 { Flush(); }
    }

    // sha1_update
    method Update(data: seq<bv8>)
      requires Valid()
      modifies this, buffer
      ensures Valid() && stream == old(stream) + data
    {
      var consumed := 0;
      U64Adds(|stream|, |data|);
      totalBytes := U64(totalBytes + |data|);
      while consumed < |data|
        invariant 0 <= consumed <= |data| && Follows() && bufferSize < 64
        invariant stream == old(stream) + data[..consumed]
        invariant totalBytes == U64(|old(stream)| + |data|)
      {
        var available, remaining := 64 - bufferSize, |data| - consumed;
        var copySize := if available < remaining then available else remaining;
        assert data[..consumed] + data[consumed..consumed + copySize] == data[..consumed + copySize];
        TakePart(data[consumed..consumed + copySize]);
        consumed := consumed + copySize;
      }
      assert data[..consumed] == data;
    }

    method PadTo(limit: nat)
      requires Holds() && bufferSize <= limit <= 64
      modifies this`bufferSize, this`stream, buffer
      ensures Holds() && bufferSize == limit && stream == old(stream) + Zeros(limit - old(bufferSize))
    {
      while bufferSize < limit
        invariant Holds() && old(bufferSize) <= bufferSize <= limit
        invariant stream == old(stream) + Zeros(bufferSize - old(bufferSize))
      {
        Copy([0]);
        assert Zeros(bufferSize - 1 - old(bufferSize)) + [0] == Zeros(bufferSize - old(bufferSize));
      }
    }

    // The length field, least significant byte written first.
    method PutLength(totalBits: nat)
      requires Holds() && bufferSize == 56 && totalBits < WORD64
      modifies this`bufferSize, this`stream, buffer
      ensures Holds() && bufferSize == 64 && stream == old(stream) + Field(totalBits)
    {
      ghost var kept, field := buffer[..56], Field(totalBits);
      for index := 0 to 8
        modifies buffer
        invariant buffer[..56] == kept
        invariant forall j :: 64 - index <= j < 64 ==> buffer[j] == field[j - 56]
      {
        FieldAt(totalBits, index);
        buffer[63 - index] := ByteOf(totalBits, index);
      }
      assert buffer[..64] == kept + field;
      assert folded + kept + field == folded + (kept + field);
      bufferSize, stream := 64, stream + field;
    }

    // sha1_final
    method Final() returns (digest: seq<bv8>)
      requires Valid()
      modifies this, buffer
      ensures digest == Digest(Sum1(old(stream)))
    {
      ghost var message, size := stream, bufferSize;
      var totalBits := U64(totalBytes * 8);
      U64Eights(|message|);
      FillIs(|folded|, size);
      Copy([0x80]);
      ghost var spill := 0;
      if bufferSize > 56 {
        spill := 64 - bufferSize;
        PadTo(64);
        Flush();
      }
      assert stream == message + [0x80] + Zeros(spill);
      PadBuilds(message, spill, 56 - bufferSize);
      PadTo(56);
      PutLength(totalBits);
      Flush();
      digest := FinalDigest(message);
    }

    method FinalDigest(ghost message: seq<bv8>) returns (digest: seq<bv8>)
      requires Follows() && bufferSize == 0 && stream == Pad(message)
      ensures digest == Digest(Sum1(message))
    {
      assert folded + buffer[..0] == folded;
      IsFoldExact(state, Pad(message));
      digest := Digest(state);
    }
  }

  /** However a message is cut into chunks, the context's digest is that of the whole message. */
  method HashChunks(chunks: seq<seq<bv8>>) returns (digest: seq<bv8>)
    ensures digest == Digest(Sum1(Concat(chunks)))
  {
    var context := new Context();
    for k := 0 to |chunks|
      invariant context.Valid() && fresh(context) && fresh(context.buffer) && context.stream == Concat(chunks[..k])
    {
      ConcatNext(chunks, k);
      context.Update(chunks[k]);
    }
    assert chunks[..|chunks|] == chunks;
    digest := context.Final();
  }
}
