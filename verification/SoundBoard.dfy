/** The sound board as its C code keeps it: one array of sound RAM that holds the command
    ring, the stream records, the voice table and the sample buffers, and the SCSP register
    bytes. */
module SoundBoard {
  import opened Bytes
  import VL = VoiceLedger

  const RAM_BYTES := VL.MEMORY
  const SCSP_BYTES := VL.CHIP_BYTES
  const VOICES := VL.TABLE
  const STREAMS := 0x2000
  const LOOKUP_BYTE := 0x2515
  const CURSOR_151A := 0x251a
  const COUNT_151E := 0x251e
  const COUNT_152E := 0x252e

  class Board {
    const ram: array<byte>
    const scsp: array<byte>
    const rom: seq<byte>
    ghost var log: seq<VL.Event>

    constructor (rom: seq<byte>)
      ensures Valid() && fresh(ram) && fresh(scsp) && this.rom == rom && log == []
      ensures forall a :: 0 <= a < RAM_BYTES ==> ram[a] == 0
      ensures forall a :: 0 <= a < SCSP_BYTES ==> scsp[a] == 0
    {
      this.ram := new byte[RAM_BYTES](_ => 0);
      this.scsp := new byte[SCSP_BYTES](_ => 0);
      this.rom := rom;
      this.log := [];
    }

    ghost predicate Valid() {
      ram.Length == RAM_BYTES && scsp.Length == SCSP_BYTES && ram != scsp
    }

    method Poke(a: nat, x: byte)
      requires Valid() && a < RAM_BYTES
      modifies ram
      ensures ram[..] == old(ram[..])[a := x]
    {
      ram[a] := x;
    }
  }

  method Poke16(b: Board, a: nat, x: word)
    requires b.Valid() && a + 2 <= RAM_BYTES
    modifies b.ram
    ensures b.ram[..] == PutBe16(old(b.ram[..]), a, x)
  {
    b.Poke(a, x / 256);
    b.Poke(a + 1, x % 256);
  }

  method Poke32(b: Board, a: nat, x: long)
    requires b.Valid() && a + 4 <= RAM_BYTES
    modifies b.ram
    ensures b.ram[..] == PutBe32(old(b.ram[..]), a, x)
  {
    b.Poke(a, x / 0x100_0000);
    b.Poke(a + 1, x / 0x1_0000 % 256);
    b.Poke(a + 2, x / 0x100 % 256);
    b.Poke(a + 3, x % 256);
  }

  // ------------------------------------------------------------ the voice table in RAM

  function VoiceAt(s: seq<byte>, i: nat): VL.Voice
    requires |s| == RAM_BYTES && i < 32
  {
    var a := VOICES + 16 * i;
    VL.Voice(Be16(s, a), s[a + 2], s[a + 3], s[a + 4], s[a + 5], Be16(s, a + 6), s[a + 8], s[a + 9],
             s[a + 10], s[a + 11])
  }

  function Voices(s: seq<byte>): (v: seq<VL.Voice>)
    requires |s| == RAM_BYTES
  {
    seq(32, i requires 0 <= i < 32 => VoiceAt(s, i))
  }

  function StreamFlags(s: seq<byte>): seq<byte>
    requires |s| == RAM_BYTES
  {
    seq(32, i requires 0 <= i < 32 => s[STREAMS + 32 * i])
  }

  // The number of the record the allocator's cursor addresses.
  function NextOf(s: seq<byte>): nat
    requires |s| == RAM_BYTES
  {
    var c := Be32(s, CURSOR_151A);
    if c < VOICES then 0 else (c - VOICES) / 16
  }

  // initialize loads the table start, and every scan moves it by whole records.
  predicate CursorOk(s: seq<byte>)
    requires |s| == RAM_BYTES
  {
    Be32(s, CURSOR_151A) == VL.RecordAt(NextOf(s))
  }

  function LedgerOf(s: seq<byte>, chip: seq<byte>, log: seq<VL.Event>): (l: VL.Ledger)
    requires |s| == RAM_BYTES && |chip| == SCSP_BYTES
    ensures VL.Shape(l)
  {
    VL.Ledger(Voices(s), s[COUNT_151E], s[COUNT_152E], StreamFlags(s), NextOf(s), chip, log)
  }

  // ------------------------------------------------------------ what the ledger operations own

  // Bytes +2 to +11 of the voices, the streams' flag bytes and the two counters.
  predicate Owned(a: nat) {
    || (VOICES <= a < VOICES + 0x200 && 2 <= a % 16 < 12)
    || (STREAMS <= a < STREAMS + 0x400 && a % 32 == 0)
    || a == COUNT_151E || a == COUNT_152E
  }

  // All of RAM but those bytes: the slot words and sample longs of the voices, the other 31
  // bytes of every stream record, and everything else.
  function Rest(s: seq<byte>): (r: seq<byte>) {
    seq(|s|, a requires 0 <= a < |s| => if Owned(a) then 0 else s[a])
  }

  lemma RestPut(s: seq<byte>, a: nat, x: byte)
    requires a < |s|
    ensures Owned(a) ==> Rest(s[a := x]) == Rest(s)
    ensures !Owned(a) ==> Rest(s[a := x]) == Rest(s)[a := x]
  {
    var t := Rest(s[a := x]);
    if Owned(a) { assert t == Rest(s); } else { assert t == Rest(s)[a := x]; }
  }

  lemma RestReads(s: seq<byte>, t: seq<byte>, a: nat)
    requires Rest(s) == Rest(t) && a < |s| && !Owned(a)
    ensures |t| == |s| && t[a] == s[a]
  {
    assert |Rest(s)| == |s| && |Rest(t)| == |t|;
    assert Rest(s)[a] == s[a] && Rest(t)[a] == t[a];
  }

  lemma RestCursor(s: seq<byte>, t: seq<byte>)
    requires |s| == RAM_BYTES && Rest(s) == Rest(t)
    ensures |t| == RAM_BYTES && Be32(t, CURSOR_151A) == Be32(s, CURSOR_151A)
    ensures NextOf(t) == NextOf(s) && (CursorOk(t) <==> CursorOk(s))
  {
    RestReads(s, t, CURSOR_151A);
    RestReads(s, t, CURSOR_151A + 1);
    RestReads(s, t, CURSOR_151A + 2);
    RestReads(s, t, CURSOR_151A + 3);
  }

  lemma PutInTable(s: seq<byte>, i: nat, k: nat, x: byte)
    requires |s| == RAM_BYTES && i < 32 && 2 <= k < 12
    ensures var t := s[VOICES + 16 * i + k := x];
            && Rest(t) == Rest(s) && StreamFlags(t) == StreamFlags(s) && NextOf(t) == NextOf(s)
            && Voices(t) == Voices(s)[i := VoiceAt(t, i)]
            && t[COUNT_151E] == s[COUNT_151E] && t[COUNT_152E] == s[COUNT_152E]
  {
    var a := VOICES + 16 * i + k;
    var t := s[a := x];
    RestPut(s, a, x);
    forall j | 0 <= j < 32 && j != i ensures VoiceAt(t, j) == VoiceAt(s, j) {}
    assert StreamFlags(t) == StreamFlags(s);
    assert Voices(t) == Voices(s)[i := VoiceAt(t, i)];
  }

  lemma PutCount(s: seq<byte>, a: nat, x: byte)
    requires |s| == RAM_BYTES && (a == COUNT_151E || a == COUNT_152E)
    ensures var t := s[a := x];
            && Rest(t) == Rest(s) && Voices(t) == Voices(s) && StreamFlags(t) == StreamFlags(s)
            && NextOf(t) == NextOf(s)
  {
    var t := s[a := x];
    RestPut(s, a, x);
    forall j | 0 <= j < 32 ensures VoiceAt(t, j) == VoiceAt(s, j) {}
    assert Voices(t) == Voices(s);
    assert StreamFlags(t) == StreamFlags(s);
  }

  lemma PutStream(s: seq<byte>, i: nat, x: byte)
    requires |s| == RAM_BYTES && i < 32
    ensures var t := s[STREAMS + 32 * i := x];
            && Rest(t) == Rest(s) && Voices(t) == Voices(s) && StreamFlags(t) == StreamFlags(s)[i := x]
            && NextOf(t) == NextOf(s)
  {
    var t := s[STREAMS + 32 * i := x];
    RestPut(s, STREAMS + 32 * i, x);
    forall j | 0 <= j < 32 ensures VoiceAt(t, j) == VoiceAt(s, j) {}
    assert Voices(t) == Voices(s);
    assert StreamFlags(t) == StreamFlags(s)[i := x];
  }

  // A store that the ledger does not see.
  lemma PutUnseen(s: seq<byte>, a: nat, x: byte)
    requires |s| == RAM_BYTES && a < |s| && !Owned(a)
    requires !(VOICES <= a < VOICES + 0x200 && a % 16 < 2) && !(CURSOR_151A <= a < CURSOR_151A + 4)
    ensures forall chip: seq<byte>, log | |chip| == SCSP_BYTES ::
              LedgerOf(s[a := x], chip, log) == LedgerOf(s, chip, log)
  {
    var t := s[a := x];
    forall j | 0 <= j < 32 ensures VoiceAt(t, j) == VoiceAt(s, j) {}
    assert Voices(t) == Voices(s);
    assert StreamFlags(t) == StreamFlags(s);
  }

  // ------------------------------------------------------------ the records past the table

  function PastFlags(s: seq<byte>, n: nat): byte
    requires |s| == RAM_BYTES
  {
    if n >= 32 && VL.RecordAt(n) + 2 < RAM_BYTES then s[VL.RecordAt(n) + 2] else 0
  }

  // The flag bytes the allocator's scan finds past the table when it starts at record n.
  function PastOf(s: seq<byte>, n: nat): (p: VL.Past)
    requires |s| == RAM_BYTES
    ensures forall i :: 0 <= i < 32 ==> p[i] == PastFlags(s, n + i)
  {
    var p := seq(32, i requires 0 <= i < 32 => PastFlags(s, n + i));
    assert |p| == 32 && forall i :: 0 <= i < 32 ==> p[i] == PastFlags(s, n + i);
    p
  }

  lemma PastSkips(s: seq<byte>, a: nat, x: byte, n: nat)
    requires |s| == RAM_BYTES && a < VOICES
    ensures PastOf(s[a := x], n) == PastOf(s, n)
  {
    var t := s[a := x];
    forall i | 0 <= i < 32 ensures PastOf(t, n)[i] == PastOf(s, n)[i] {
      assert PastFlags(t, n + i) == PastFlags(s, n + i);
    }
  }

  lemma RestPast(s: seq<byte>, t: seq<byte>, n: nat)
    requires |s| == RAM_BYTES && Rest(s) == Rest(t)
    ensures |t| == RAM_BYTES && PastOf(t, n) == PastOf(s, n)
  {
    RestCursor(s, t);
    forall i | 0 <= i < 32 ensures PastOf(t, n)[i] == PastOf(s, n)[i] {
      if n + i >= 32 && VL.RecordAt(n + i) + 2 < RAM_BYTES { RestReads(s, t, VL.RecordAt(n + i) + 2); }
    }
  }

  // ------------------------------------------------------------ the allocator's cursor

  function PutCursor(s: seq<byte>, n: nat): (t: seq<byte>)
    requires |s| == RAM_BYTES && VL.RecordAt(n) < RAM_BYTES
    ensures |t| == RAM_BYTES
  {
    PutBe32(s, CURSOR_151A, VL.RecordAt(n))
  }

  lemma PutsCursor(s: seq<byte>, n: nat)
    requires |s| == RAM_BYTES && VL.RecordAt(n) < RAM_BYTES
    ensures var t := PutCursor(s, n);
            && NextOf(t) == n && CursorOk(t) && Voices(t) == Voices(s) && StreamFlags(t) == StreamFlags(s)
            && t[COUNT_151E] == s[COUNT_151E] && t[COUNT_152E] == s[COUNT_152E]
  {
    var t := PutCursor(s, n);
    PutGet32(s, CURSOR_151A, VL.RecordAt(n));
    forall j | 0 <= j < 32 ensures VoiceAt(t, j) == VoiceAt(s, j) {}
    assert Voices(t) == Voices(s);
    assert StreamFlags(t) == StreamFlags(s);
  }

  lemma PastSkipsCursor(s: seq<byte>, n: nat, k: nat)
    requires |s| == RAM_BYTES && VL.RecordAt(n) < RAM_BYTES
    ensures PastOf(PutCursor(s, n), k) == PastOf(s, k)
  {
    var t := PutCursor(s, n);
    forall i | 0 <= i < 32 ensures PastOf(t, k)[i] == PastOf(s, k)[i] {
      assert PastFlags(t, k + i) == PastFlags(s, k + i);
    }
  }

  // All of RAM but the ledger and the cursor.
  function Aside(s: seq<byte>): seq<byte>
    requires |s| == RAM_BYTES
  {
    Rest(PutCursor(s, 0))
  }

  lemma AsideSkipsCursor(s: seq<byte>, n: nat)
    requires |s| == RAM_BYTES && VL.RecordAt(n) < RAM_BYTES
    ensures Aside(PutCursor(s, n)) == Aside(s)
  {
    assert PutCursor(PutCursor(s, n), 0) == PutCursor(s, 0);
  }

  lemma AsideOfRest(s: seq<byte>, t: seq<byte>)
    requires |s| == RAM_BYTES && Rest(s) == Rest(t)
    ensures |t| == RAM_BYTES && Aside(t) == Aside(s)
  {
    assert |Rest(s)| == |s| && |Rest(t)| == |t|;
    forall a | 0 <= a < |s| ensures Aside(t)[a] == Aside(s)[a] {
      if !Owned(a) { RestReads(s, t, a); }
    }
  }
}
