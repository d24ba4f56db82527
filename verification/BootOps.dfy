/** The tables initialize loads into sound RAM, store by store, and that what it leaves satisfies
    the invariants the ledger, walker and ring theorems start from. */
module BootOps {
  import opened Bytes
  import opened SoundBoard
  import opened Walker
  import B = Boot
  import L = VoiceLedger
  import Q = Ring
  import R = VoiceRuns
  import WT = WalkerTheory

  // ------------------------------------------------------------ what reset leaves

  function ResetStream(i: nat): Stream
    requires i < 32
  {
    Stream(0, 0, 0, 0, 0, 0x1_0000 + 0x2000 * i, 2 * i, 0, U8(8 + 8 * i), 0, 0, 0, 0)
  }

  ghost predicate VoicesReset(s: seq<byte>, slots: seq<word>, n: nat)
    requires |s| == RAM_BYTES && |slots| == 32 && n <= 32
  {
    forall i :: 0 <= i < n ==> VoiceAt(s, i) == L.Voice(slots[i], 0, 0, 0, 0, 0, 0, 0, 0, 0)
  }

  ghost predicate StreamsReset(s: seq<byte>, n: nat)
    requires |s| == RAM_BYTES && n <= 32
  {
    forall i :: 0 <= i < n ==> StreamAt(s, i) == ResetStream(i)
  }

  // The ring cursors, the counts and the allocator's cursor.
  predicate HeadersReset(s: seq<byte>)
    requires |s| == RAM_BYTES
  {
    && Be16(s, Q.WRITE_CURSOR) == 0 && Be16(s, Q.READ_CURSOR) == 0 && s[Q.COUNT] == 0
    && s[COUNT_151E] == 0 && s[COUNT_152E] == 0 && Be32(s, CURSOR_151A) == VOICES
  }

  ghost predicate Zero(s: seq<byte>, a: nat, n: nat) {
    a + n <= |s| && forall k :: a <= k < a + n ==> s[k] == 0
  }

  ghost predicate SameOutside(s: seq<byte>, t: seq<byte>, a: nat, n: nat) {
    |t| == |s| && forall k :: 0 <= k < |s| && !(a <= k < a + n) ==> t[k] == s[k]
  }

  // ------------------------------------------------------------ the stores

  method Clear(b: Board)
    requires b.Valid()
    modifies b.ram
    ensures Zero(b.ram[..], 0, RAM_BYTES)
  {
    for k := 0 to RAM_BYTES
      invariant forall j :: 0 <= j < k ==> b.ram[j] == 0
    {
      b.ram[k] := 0;
    }
  }

  method LoadVoice(b: Board, i: nat, slot: word, sample: long)
    requires b.Valid() && i < 32 && Zero(b.ram[..], VOICES + 16 * i, 16)
    modifies b.ram
    ensures VoiceAt(b.ram[..], i) == L.Voice(slot, 0, 0, 0, 0, 0, 0, 0, 0, 0)
    ensures SameOutside(old(b.ram[..]), b.ram[..], VOICES + 16 * i, 16)
  {
    PutGet16(b.ram[..], VOICES + 16 * i, slot);
    Poke16(b, VOICES + 16 * i, slot);
    Poke32(b, VOICES + 16 * i + 12, sample);
  }

  method LoadStream(b: Board, i: nat)
    requires b.Valid() && i < 32 && Zero(b.ram[..], At(i), 32)
    modifies b.ram
    ensures StreamAt(b.ram[..], i) == ResetStream(i)
    ensures SameOutside(old(b.ram[..]), b.ram[..], At(i), 32)
  {
    StreamLoaded(b.ram[..], i);
    Poke32(b, At(i) + 14, 0x1_0000 + 0x2000 * i);
    b.Poke(At(i) + 18, U8(2 * i));
    b.Poke(At(i) + 22, U8(8 + U8(8 * i) as int));
  }

  function PutStreamReset(s: seq<byte>, i: nat): (t: seq<byte>)
    requires |s| == RAM_BYTES && i < 32
    ensures |t| == RAM_BYTES
  {
    PutBe32(s, At(i) + 14, 0x1_0000 + 0x2000 * i)[At(i) + 18 := U8(2 * i)][At(i) + 22 := U8(8 + U8(8 * i) as int)]
  }

  lemma StreamLoaded(s: seq<byte>, i: nat)
    requires |s| == RAM_BYTES && i < 32 && Zero(s, At(i), 32)
    ensures SameOutside(s, PutStreamReset(s, i), At(i), 32)
    ensures StreamAt(PutStreamReset(s, i), i) == ResetStream(i)
  {
    var t := PutBe32(s, At(i) + 14, 0x1_0000 + 0x2000 * i);
    var u := PutStreamReset(s, i);
    PutGet32(s, At(i) + 14, 0x1_0000 + 0x2000 * i);
    assert Be32(u, At(i) + 14) == Be32(t, At(i) + 14);
    forall a | At(i) <= a < At(i) + 32 && !(At(i) + 14 <= a < At(i) + 18) && a != At(i) + 18 && a != At(i) + 22
      ensures u[a] == 0
    {
      assert s[a] == 0;
    }
    Wrap8(i);
  }

  lemma Wrap8(i: nat)
    requires i < 32
    ensures U8(8 + U8(8 * i) as int) == U8(8 + 8 * i) && U8(2 * i) == 2 * i
  {
  }

  lemma VoicesKept(s: seq<byte>, t: seq<byte>, slots: seq<word>, a: nat, n: nat, k: nat)
    requires |s| == |t| == RAM_BYTES && |slots| == 32 && k <= 32 && SameOutside(s, t, a, n)
    requires a >= VOICES + 16 * k || a + n <= VOICES
    requires VoicesReset(s, slots, k)
    ensures VoicesReset(t, slots, k)
  {
    forall i | 0 <= i < k ensures VoiceAt(t, i) == VoiceAt(s, i) {}
  }

  lemma StreamsKept(s: seq<byte>, t: seq<byte>, a: nat, n: nat, k: nat)
    requires |s| == |t| == RAM_BYTES && k <= 32 && SameOutside(s, t, a, n) && a >= At(k) && StreamsReset(s, k)
    ensures StreamsReset(t, k)
  {
    forall i | 0 <= i < k ensures StreamAt(t, i) == StreamAt(s, i) {}
  }

  lemma HeadersKept(s: seq<byte>, t: seq<byte>, a: nat, n: nat)
    requires |s| == |t| == RAM_BYTES && SameOutside(s, t, a, n) && HeadersReset(s)
    requires a >= VOICES || (STREAMS <= a && a + n <= STREAMS + 0x400)
    ensures HeadersReset(t)
  {
  }

  method LoadHeaders(b: Board)
    requires b.Valid() && Zero(b.ram[..], 0, RAM_BYTES)
    modifies b.ram
    ensures HeadersReset(b.ram[..]) && Zero(b.ram[..], STREAMS, 0x400) && Zero(b.ram[..], VOICES, 0x200)
  {
    b.Poke(0x2526, 0xef);
    b.Poke(0x251f, 0xff);
    PutGet32(b.ram[..], CURSOR_151A, VOICES);
    Poke32(b, CURSOR_151A, VOICES);
  }

  method LoadVoices(b: Board, slots: seq<word>, samples: seq<long>)
    requires b.Valid() && |slots| == |samples| == 32
    requires HeadersReset(b.ram[..]) && Zero(b.ram[..], STREAMS, 0x400) && Zero(b.ram[..], VOICES, 0x200)
    modifies b.ram
    ensures HeadersReset(b.ram[..]) && Zero(b.ram[..], STREAMS, 0x400) && VoicesReset(b.ram[..], slots, 32)
  {
    for i := 0 to 32
      invariant HeadersReset(b.ram[..]) && Zero(b.ram[..], STREAMS, 0x400) && VoicesReset(b.ram[..], slots, i)
      invariant Zero(b.ram[..], VOICES + 16 * i, 0x200 - 16 * i)
    {
      ghost var s := b.ram[..];
      LoadVoice(b, i, slots[i], samples[i]);
      VoicesKept(s, b.ram[..], slots, VOICES + 16 * i, 16, i);
      HeadersKept(s, b.ram[..], VOICES + 16 * i, 16);
    }
  }

  method LoadStreams(b: Board, ghost slots: seq<word>)
    requires b.Valid() && |slots| == 32
    requires HeadersReset(b.ram[..]) && Zero(b.ram[..], STREAMS, 0x400) && VoicesReset(b.ram[..], slots, 32)
    modifies b.ram
    ensures HeadersReset(b.ram[..]) && StreamsReset(b.ram[..], 32) && VoicesReset(b.ram[..], slots, 32)
  {
    for i := 0 to 32
      invariant HeadersReset(b.ram[..]) && StreamsReset(b.ram[..], i) && VoicesReset(b.ram[..], slots, 32)
      invariant Zero(b.ram[..], At(i), 0x400 - 32 * i)
    {
      ghost var s := b.ram[..];
      LoadStream(b, i);
      StreamsKept(s, b.ram[..], At(i), 32, i);
      VoicesKept(s, b.ram[..], slots, At(i), 32, 32);
      HeadersKept(s, b.ram[..], At(i), 32);
    }
  }

  /** The board's RAM after reset; the slot words and sample longs are the audio ROM's. */
  method Initialize(b: Board, slots: seq<word>, samples: seq<long>)
    requires b.Valid() && |slots| == |samples| == 32
    modifies b.ram
    ensures HeadersReset(b.ram[..]) && StreamsReset(b.ram[..], 32) && VoicesReset(b.ram[..], slots, 32)
  {
    Clear(b);
    LoadHeaders(b);
    LoadVoices(b, slots, samples);
    LoadStreams(b, slots);
  }

  // ------------------------------------------------------------ the invariants it establishes

  /** With the slot words 0x20 apart, reset leaves a ledger the run theorems start from. */
  lemma ResetLedgerIsGood(s: seq<byte>, slots: seq<word>, chip: seq<byte>)
    requires |s| == RAM_BYTES && |slots| == 32 && |chip| == SCSP_BYTES
    requires HeadersReset(s) && StreamsReset(s, 32) && VoicesReset(s, slots, 32)
    requires forall i :: 0 <= i < 32 ==> slots[i] == 32 * i
    ensures LedgerOf(s, chip, []) == B.ResetLedger(chip) && R.Good(LedgerOf(s, chip, [])) && CursorOk(s)
  {
    var l := LedgerOf(s, chip, []);
    forall i | 0 <= i < 32 ensures l.v[i] == B.ResetVoice(i) && l.streams[i] == 0 {
      assert l.v[i] == VoiceAt(s, i);
      assert StreamAt(s, i).flags == s[At(i)];
    }
    assert l.v == B.ResetLedger(chip).v && l.streams == B.ResetLedger(chip).streams;
    B.ResetIsGood(chip);
  }

  /** Every stream record is placed, so the walker's confinement starts from reset. */
  lemma ResetWalls(s: seq<byte>)
    requires |s| == RAM_BYTES && StreamsReset(s, 32)
    ensures WT.Walls(s)
  {
    forall i: nat | i < 32 ensures WT.Placed(StreamAt(s, i), i) { assert !Bit(0, 7); }
  }

  /** The ring is sound and empty. */
  lemma ResetRingIsSound(s: seq<byte>)
    requires |s| == RAM_BYTES && HeadersReset(s)
    ensures Q.Sound(Q.RingOf(s)) && Q.Pending(Q.RingOf(s)) == []
  {
  }
}
