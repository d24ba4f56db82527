/** The voice operations as the C code performs them, byte by byte on sound RAM and the chip's
    registers, each proved to do to the ledger what its specification function says. */
module VoiceOps {
  import opened Bytes
  import opened SoundBoard
  import opened VoiceLedger
  import FS = FullStop

  ghost function Now(b: Board): (l: Ledger)
    requires b.Valid()
    reads b, b.ram, b.scsp
    ensures Shape(l)
  {
    LedgerOf(b.ram[..], b.scsp[..], b.log)
  }

  // The RAM that no operation but the allocator's two bookkeeping stores touches.
  ghost function Outside(b: Board): seq<byte>
    requires b.Valid()
    reads b, b.ram
  {
    Rest(b.ram[..])
  }

  method SetChip(b: Board, a: nat, x: byte)
    requires b.Valid() && a < SCSP_BYTES
    modifies b.scsp
    ensures Now(b) == old(Now(b)).(chip := old(Now(b)).chip[a := x])
    ensures Outside(b) == old(Outside(b))
  {
    b.scsp[a] := x;
  }

  // ------------------------------------------------------------ one field at a time

  method SetFlags(b: Board, i: nat, x: byte)
    requires b.Valid() && i < 32
    modifies b.ram
    ensures Now(b) == old(Now(b)).(v := old(Now(b)).v[i := old(Now(b)).v[i].(flags := x)])
    ensures Outside(b) == old(Outside(b))
  {
    PutInTable(b.ram[..], i, 2, x);
    b.Poke(VOICES + 16 * i + 2, x);
  }

  method SetTag(b: Board, i: nat, x: byte)
    requires b.Valid() && i < 32
    modifies b.ram
    ensures Now(b) == old(Now(b)).(v := old(Now(b)).v[i := old(Now(b)).v[i].(tag := x)])
    ensures Outside(b) == old(Outside(b))
  {
    PutInTable(b.ram[..], i, 3, x);
    b.Poke(VOICES + 16 * i + 3, x);
  }

  method SetChannel(b: Board, i: nat, x: byte)
    requires b.Valid() && i < 32
    modifies b.ram
    ensures Now(b) == old(Now(b)).(v := old(Now(b)).v[i := old(Now(b)).v[i].(channel := x)])
    ensures Outside(b) == old(Outside(b))
  {
    PutInTable(b.ram[..], i, 4, x);
    b.Poke(VOICES + 16 * i + 4, x);
  }

  method SetRank5(b: Board, i: nat, x: byte)
    requires b.Valid() && i < 32
    modifies b.ram
    ensures Now(b) == old(Now(b)).(v := old(Now(b)).v[i := old(Now(b)).v[i].(rank5 := x)])
    ensures Outside(b) == old(Outside(b))
  {
    PutInTable(b.ram[..], i, 5, x);
    b.Poke(VOICES + 16 * i + 5, x);
  }

  method SetMode(b: Board, i: nat, x: byte)
    requires b.Valid() && i < 32
    modifies b.ram
    ensures Now(b) == old(Now(b)).(v := old(Now(b)).v[i := old(Now(b)).v[i].(mode := x)])
    ensures Outside(b) == old(Outside(b))
  {
    PutInTable(b.ram[..], i, 8, x);
    b.Poke(VOICES + 16 * i + 8, x);
  }

  method SetAge(b: Board, i: nat, x: byte)
    requires b.Valid() && i < 32
    modifies b.ram
    ensures Now(b) == old(Now(b)).(v := old(Now(b)).v[i := old(Now(b)).v[i].(age := x)])
    ensures Outside(b) == old(Outside(b))
  {
    PutInTable(b.ram[..], i, 9, x);
    b.Poke(VOICES + 16 * i + 9, x);
  }

  method SetMeta(b: Board, i: nat, x: byte)
    requires b.Valid() && i < 32
    modifies b.ram
    ensures Now(b) == old(Now(b)).(v := old(Now(b)).v[i := old(Now(b)).v[i].(meta := x)])
    ensures Outside(b) == old(Outside(b))
  {
    PutInTable(b.ram[..], i, 10, x);
    b.Poke(VOICES + 16 * i + 10, x);
  }

  method SetRate(b: Board, i: nat, x: byte)
    requires b.Valid() && i < 32
    modifies b.ram
    ensures Now(b) == old(Now(b)).(v := old(Now(b)).v[i := old(Now(b)).v[i].(rate := x)])
    ensures Outside(b) == old(Outside(b))
  {
    PutInTable(b.ram[..], i, 11, x);
    b.Poke(VOICES + 16 * i + 11, x);
  }

  method SetSelect(b: Board, i: nat, x: word)
    requires b.Valid() && i < 32
    modifies b.ram
    ensures Now(b) == old(Now(b)).(v := old(Now(b)).v[i := old(Now(b)).v[i].(select := x)])
    ensures Outside(b) == old(Outside(b))
  {
    PutInTable(b.ram[..], i, 6, x / 256);
    b.Poke(VOICES + 16 * i + 6, x / 256);
    PutInTable(b.ram[..], i, 7, x % 256);
    b.Poke(VOICES + 16 * i + 7, x % 256);
  }

  method SetNormals(b: Board, x: byte)
    requires b.Valid()
    modifies b.ram
    ensures Now(b) == old(Now(b)).(normals := x)
    ensures Outside(b) == old(Outside(b))
  {
    PutCount(b.ram[..], COUNT_151E, x);
    b.Poke(COUNT_151E, x);
  }

  method SetDrums(b: Board, x: byte)
    requires b.Valid()
    modifies b.ram
    ensures Now(b) == old(Now(b)).(drums := x)
    ensures Outside(b) == old(Outside(b))
  {
    PutCount(b.ram[..], COUNT_152E, x);
    b.Poke(COUNT_152E, x);
  }

  // sound_ram[0x2000 + slot], slot being the voice's slot word.
  method SetStream(b: Board, i: nat, x: byte)
    requires b.Valid() && i < 32 && Slots(Now(b))
    modifies b.ram
    ensures Now(b) == old(Now(b)).(streams := old(Now(b)).streams[i := x])
    ensures Outside(b) == old(Outside(b))
  {
    var slot := Be16(b.ram[..], VOICES + 16 * i);
    assert slot == Now(b).v[i].slot;
    PutStream(b.ram[..], i, x);
    b.Poke(STREAMS + slot, x);
  }

  // The byte at offset k of voice record i.
  function Field(b: Board, i: nat, k: nat): byte
    requires b.Valid() && i < 32 && k < 16
    reads b.ram
  {
    b.ram[VOICES + 16 * i + k]
  }

  // ------------------------------------------------------------ the two sweeps

  lemma Splice(w: seq<Voice>, s: seq<Voice>, j: nat)
    requires |w| == |s| && j < |s|
    ensures w[..j + 1] + s[j + 1..] == (w[..j] + s[j..])[j := w[j]]
    ensures (w[..j] + s[j..])[j] == s[j]
  {
  }

  method SweepAge(b: Board, j: nat, freed: byte)
    requires b.Valid() && j < 32
    modifies b.ram
    ensures Now(b) == old(Now(b)).(v := old(Now(b)).v[j := RebalanceNormal(old(Now(b)).v, freed)[j]])
    ensures Outside(b) == old(Outside(b))
  {
    var age := Field(b, j, 9);
    if age != 255 && freed < age { SetAge(b, j, age - 1); }
  }

  method SweepAges(b: Board, freed: byte)
    requires b.Valid()
    modifies b.ram
    ensures Now(b) == old(Now(b)).(v := RebalanceNormal(old(Now(b)).v, freed))
    ensures Outside(b) == old(Outside(b))
  {
    ghost var l := Now(b);
    ghost var w := RebalanceNormal(l.v, freed);
    for j := 0 to 32
      invariant Now(b) == l.(v := w[..j] + l.v[j..])
      invariant Outside(b) == old(Outside(b))
    {
      Splice(w, l.v, j);
      assert RebalanceNormal(Now(b).v, freed)[j] == w[j];
      SweepAge(b, j, freed);
    }
  }

  method SweepRank(b: Board, j: nat, freed: byte)
    requires b.Valid() && j < 32
    modifies b.ram
    ensures Now(b) == old(Now(b)).(v := old(Now(b)).v[j := RebalanceDrum(old(Now(b)).v, freed)[j]])
    ensures Outside(b) == old(Outside(b))
  {
    var age, rank := Field(b, j, 9), Field(b, j, 5);
    if age == 255 && freed < rank { SetRank5(b, j, rank - 1); }
  }

  method SweepRanks(b: Board, freed: byte)
    requires b.Valid()
    modifies b.ram
    ensures Now(b) == old(Now(b)).(v := RebalanceDrum(old(Now(b)).v, freed))
    ensures Outside(b) == old(Outside(b))
  {
    ghost var l := Now(b);
    ghost var w := RebalanceDrum(l.v, freed);
    for j := 0 to 32
      invariant Now(b) == l.(v := w[..j] + l.v[j..])
      invariant Outside(b) == old(Outside(b))
    {
      Splice(w, l.v, j);
      assert RebalanceDrum(Now(b).v, freed)[j] == w[j];
      SweepRank(b, j, freed);
    }
  }

  method Record(b: Board, ghost e: Event)
    requires b.Valid()
    modifies b`log
    ensures Now(b) == old(Now(b)).(log := old(Now(b)).log + [e])
    ensures Outside(b) == old(Outside(b))
  {
    b.log := b.log + [e];
  }

  // SCSP[slot + 0x0b] = 0x1f
  method ChipRelease(b: Board, i: nat)
    requires b.Valid() && i < 32 && Slots(Now(b))
    modifies b.scsp
    ensures Now(b) == old(Now(b)).(chip := FastRelease(old(Now(b)).chip, i))
    ensures Outside(b) == old(Outside(b))
  {
    var slot := Be16(b.ram[..], VOICES + 16 * i);
    assert slot == Now(b).v[i].slot;
    SetChip(b, slot + 11, 0x1f);
  }

  // SCSP[slot] = 0x10
  method ChipClear(b: Board, i: nat)
    requires b.Valid() && i < 32 && Slots(Now(b))
    modifies b.scsp
    ensures Now(b) == old(Now(b)).(chip := KeyClear(old(Now(b)).chip, i))
    ensures Outside(b) == old(Outside(b))
  {
    var slot := Be16(b.ram[..], VOICES + 16 * i);
    assert slot == Now(b).v[i].slot;
    SetChip(b, slot, 0x10);
  }

  method ChipOff(b: Board, i: nat)
    requires b.Valid() && i < 32 && Slots(Now(b))
    modifies b.scsp
    ensures Now(b) == old(Now(b)).(chip := KeyOff(old(Now(b)).chip, i))
    ensures Outside(b) == old(Outside(b))
  {
    ChipRelease(b, i);
    ChipClear(b, i);
  }

  // The normal arm, with the stream flag and the flags already cleared.
  method TearNormal(b: Board, i: nat)
    requires b.Valid() && i < 32
    modifies b.ram
    ensures var l := old(Now(b));
            Now(b) == l.(v := RebalanceNormal(l.v[i := l.v[i].(age := 0)], l.v[i].age), normals := U8(l.normals - 1))
    ensures Outside(b) == old(Outside(b))
  {
    var age := Field(b, i, 9);
    SetAge(b, i, 0);
    SetNormals(b, Dec(b.ram[COUNT_151E]));
    SweepAges(b, age);
  }

  method TearDrum(b: Board, i: nat)
    requires b.Valid() && i < 32
    modifies b.ram
    ensures var l := old(Now(b));
            Now(b) == l.(v := RebalanceDrum(l.v[i := l.v[i].(age := 0, rank5 := 0)], l.v[i].rank5),
                         drums := U8(l.drums - 1))
    ensures Outside(b) == old(Outside(b))
  {
    ghost var l := Now(b);
    var rank := Field(b, i, 5);
    SetAge(b, i, 0);
    SetRank5(b, i, 0);
    assert Now(b).v == l.v[i := l.v[i].(age := 0, rank5 := 0)];
    SetDrums(b, Dec(b.ram[COUNT_152E]));
    SweepRanks(b, rank);
  }

  // Key-off and teardown; which arm runs is decided by the flags before they are cleared.
  method TearDown(b: Board, i: nat)
    requires b.Valid() && i < 32 && Slots(Now(b))
    modifies b.ram, b`log
    ensures Now(b) == Drop(old(Now(b)), i)
    ensures Outside(b) == old(Outside(b))
  {
    ghost var l := Now(b);
    var release := Bit(Field(b, i, 2), 3);
    SetStream(b, i, 0);
    SetFlags(b, i, 0);
    if release {
      assert Now(b).v[i := Now(b).v[i].(age := 0, rank5 := 0)] == l.v[i := l.v[i].(flags := 0, age := 0, rank5 := 0)];
      TearDrum(b, i);
    } else {
      assert Now(b).v[i := Now(b).v[i].(age := 0)] == l.v[i := l.v[i].(flags := 0, age := 0)];
      TearNormal(b, i);
    }
    Record(b, Off(i));
  }

  // ------------------------------------------------------------ L1 and 0x80

  const CHANNEL_CONTROL := 0x4220

  lemma DropSlots(l: Ledger, i: nat)
    requires Shape(l) && i < 32 && Slots(l)
    ensures Slots(Drop(l, i)) && Slots(DropNormal(l, i))
  {
  }

  lemma MaintainOneSlots(l: Ledger, i: nat)
    requires Shape(l) && i < 32 && Slots(l)
    ensures Slots(MaintainOne(l, i))
  {
    if Bit(l.v[i].flags, 0) { DropSlots(CountDown(l, i), i); }
  }

  method SetChip16(b: Board, a: nat, x: word)
    requires b.Valid() && a + 2 <= SCSP_BYTES
    modifies b.scsp
    ensures Now(b) == old(Now(b)).(chip := PutBe16(old(Now(b)).chip, a, x))
    ensures Outside(b) == old(Outside(b))
  {
    SetChip(b, a, x / 256);
    SetChip(b, a + 1, x % 256);
  }

  method MaintainVoices(b: Board)
    requires b.Valid() && Slots(Now(b))
    modifies b.ram, b.scsp, b`log
    ensures Now(b) == Maintain(old(Now(b)))
    ensures Outside(b) == old(Outside(b))
  {
    SetChip16(b, 0x41a, 0x3c0);
    SetChip16(b, 0x422, 0x80);
    for i := 0 to 32
      invariant Slots(Now(b)) && Outside(b) == old(Outside(b))
      invariant MaintainFrom(Now(b), i) == Maintain(old(Now(b)))
    {
      MaintainOneSlots(Now(b), i);
      MaintainVoice(b, i);
    }
  }

  method CountVoice(b: Board, i: nat) returns (rate: byte)
    requires b.Valid() && i < 32
    modifies b.ram
    ensures Now(b) == CountDown(old(Now(b)), i) && rate == Now(b).v[i].rate
    ensures Outside(b) == old(Outside(b))
  {
    rate := Dec(Field(b, i, 11));
    SetRate(b, i, rate);
  }

  method ExpireVoice(b: Board, i: nat)
    requires b.Valid() && i < 32 && Slots(Now(b))
    modifies b.ram, b.scsp, b`log
    ensures var l := old(Now(b)); Now(b) == Drop(l, i).(chip := FastRelease(l.chip, i))
    ensures Outside(b) == old(Outside(b))
  {
    ChipRelease(b, i);
    TearDown(b, i);
  }

  method MaintainVoice(b: Board, i: nat)
    requires b.Valid() && i < 32 && Slots(Now(b))
    modifies b.ram, b.scsp, b`log
    ensures Now(b) == MaintainOne(old(Now(b)), i)
    ensures Outside(b) == old(Outside(b))
  {
    if Bit(Field(b, i, 2), 0) {
      var rate := CountVoice(b, i);
      if rate == 0 { ExpireVoice(b, i); }
    }
  }

  // Bit 7 of the channel's control byte at 0x4220.
  function Deferred(s: seq<byte>, channel: byte): bool
    requires |s| == RAM_BYTES
  {
    Bit(s[CHANNEL_CONTROL + channel], 7)
  }

  lemma SameDeferral(s: seq<byte>, t: seq<byte>, channel: byte)
    requires |s| == RAM_BYTES && Rest(s) == Rest(t)
    ensures |t| == RAM_BYTES && Deferred(t, channel) == Deferred(s, channel)
  {
    RestReads(s, t, CHANNEL_CONTROL + channel);
  }

  method VoiceSub11d0(b: Board, i: nat, channel: byte)
    requires b.Valid() && i < 32 && Slots(Now(b))
    modifies b.ram, b.scsp, b`log
    ensures Now(b) == Sub11d0(old(Now(b)), i, Deferred(old(b.ram[..]), channel))
    ensures Outside(b) == old(Outside(b))
  {
    if Bit(b.ram[CHANNEL_CONTROL + channel], 7) {
      SetFlags(b, i, Or(Field(b, i, 2), 1));
    } else if Field(b, i, 11) != 0 {
      ChipClear(b, i);
      SetFlags(b, i, Or(Field(b, i, 2), 0));
    } else {
      ChipOff(b, i);
      TearDown(b, i);
    }
  }

  method ReleaseVoice(b: Board, i: nat, r: Request)
    requires b.Valid() && i < 32 && Slots(Now(b))
    modifies b.ram, b.scsp, b`log
    ensures Now(b) == ReleaseOne(old(Now(b)), i, r, Deferred(old(b.ram[..]), r.channel))
    ensures Outside(b) == old(Outside(b))
  {
    ghost var s := b.ram[..];
    var flags, select := Field(b, i, 2), Be16(b.ram[..], VOICES + 16 * i + 6);
    if Field(b, i, 3) == r.tag && Field(b, i, 4) == r.channel && select == r.select
       && !Bit(flags, 4) && !Bit(flags, 1) {
      SetFlags(b, i, AndNot(flags, 7));
      SameDeferral(s, b.ram[..], r.channel);
      if Field(b, i, 2) != 0 { VoiceSub11d0(b, i, r.channel); }
    }
  }

  lemma ReleaseOneSlots(l: Ledger, i: nat, r: Request, deferred: bool)
    requires Shape(l) && i < 32 && Slots(l)
    ensures Slots(ReleaseOne(l, i, r, deferred))
  {
    DropSlots(l.(v := l.v[i := l.v[i].(flags := AndNot(l.v[i].flags, 7))]), i);
  }

  method ReleaseScan(b: Board, r: Request)
    requires b.Valid() && Slots(Now(b))
    modifies b.ram, b.scsp, b`log
    ensures Now(b) == ReleaseFrom(old(Now(b)), 0, r, Deferred(old(b.ram[..]), r.channel))
    ensures Outside(b) == old(Outside(b))
  {
    ghost var deferred := Deferred(b.ram[..], r.channel);
    for i := 0 to 32
      invariant Slots(Now(b)) && Outside(b) == old(Outside(b))
      invariant ReleaseFrom(Now(b), i, r, deferred) == ReleaseFrom(old(Now(b)), 0, r, deferred)
    {
      ReleaseOneSlots(Now(b), i, r, deferred);
      SameDeferral(old(b.ram[..]), b.ram[..], r.channel);
      ReleaseVoice(b, i, r);
    }
  }

  // ------------------------------------------------------------ 0x90

  method SetupScan(b: Board)
    requires b.Valid() && Slots(Now(b))
    modifies b.ram, b.scsp, b`log
    ensures Now(b) == SetupScanFrom(old(Now(b)), 0) && Slots(Now(b))
    ensures Outside(b) == old(Outside(b))
  {
    for i := 0 to 32
      invariant Slots(Now(b)) && Outside(b) == old(Outside(b))
      invariant SetupScanFrom(Now(b), i) == SetupScanFrom(old(Now(b)), 0)
    {
      if Field(b, i, 2) != 0 && Field(b, i, 3) == 0xba && Field(b, i, 4) == 15 {
        DropSlots(Now(b), i);
        ScanDrop(b, i);
      }
    }
  }

  method ScanDrop(b: Board, i: nat)
    requires b.Valid() && i < 32 && Slots(Now(b))
    modifies b.ram, b.scsp, b`log
    ensures Now(b) == DropNormal(old(Now(b)), i).(chip := KeyClear(old(Now(b)).chip, i))
    ensures Outside(b) == old(Outside(b))
  {
    ghost var l := Now(b);
    var age := Field(b, i, 9);
    SetFlags(b, i, 0);
    SetAge(b, i, 0);
    ChipClear(b, i);
    SetStream(b, i, 0);
    SetNormals(b, Dec(b.ram[COUNT_151E]));
    assert Now(b).v == l.v[i := l.v[i].(flags := 0, age := 0)];
    SweepAges(b, age);
    Record(b, Off(i));
  }

  // The record's head: flags, select, tag, mode and channel.
  method AuthorHead(b: Board, i: nat, r: Request)
    requires b.Valid() && i < 32 && Slots(Now(b))
    modifies b.ram, b.scsp
    ensures var l := old(Now(b));
            Now(b) == l.(v := l.v[i := l.v[i].(flags := 0x40, select := r.select, tag := r.tag, mode := r.mode,
                                               channel := r.channel)],
                         chip := KeyClear(l.chip, i))
    ensures Outside(b) == old(Outside(b))
  {
    SetFlags(b, i, 0x40);
    ChipClear(b, i);
    SetSelect(b, i, r.select);
    SetTag(b, i, r.tag);
    SetMode(b, i, r.mode);
    SetChannel(b, i, r.channel);
  }

  method SetupAuthor(b: Board, i: nat, r: Request, t: Tail)
    requires b.Valid() && i < 32 && Slots(Now(b))
    modifies b.ram, b.scsp, b`log
    ensures Now(b) == Author(old(Now(b)), i, r, t)
    ensures Outside(b) == old(Outside(b))
  {
    ghost var l := Now(b);
    AuthorHead(b, i, r);
    if !r.high { AuthorLow(b, i, r); } else { AuthorHigh(b, i, r); }
    assert Now(b).v == l.v[i := AuthorVoice(l.v[i], r, l.normals, l.drums)];
    AuthorRest(b, i, t);
    Record(b, if AsksForDrum(r) then OnDrum(i) else OnNormal(i));
  }

  method AuthorLow(b: Board, i: nat, r: Request)
    requires b.Valid() && i < 32
    modifies b.ram
    ensures var l := old(Now(b));
            Now(b) == l.(v := l.v[i := l.v[i].(age := l.normals, meta := r.meta)], normals := U8(l.normals + 1))
    ensures Outside(b) == old(Outside(b))
  {
    SetAge(b, i, b.ram[COUNT_151E]);
    SetNormals(b, Inc(b.ram[COUNT_151E]));
    SetMeta(b, i, r.meta);
  }

  method AuthorHigh(b: Board, i: nat, r: Request)
    requires b.Valid() && i < 32
    modifies b.ram
    ensures var l := old(Now(b));
            Now(b) == if r.channel == 15
                      then l.(v := l.v[i := l.v[i].(flags := Or(l.v[i].flags, 4), age := l.normals)],
                              normals := U8(l.normals + 1))
                      else l.(v := l.v[i := l.v[i].(flags := Or(Or(l.v[i].flags, 4), 3), age := 255, rank5 := l.drums)],
                              drums := U8(l.drums + 1))
    ensures Outside(b) == old(Outside(b))
  {
    SetFlags(b, i, Or(Field(b, i, 2), 4));
    if r.channel == 15 {
      SetAge(b, i, b.ram[COUNT_151E]);
      SetNormals(b, Inc(b.ram[COUNT_151E]));
    } else {
      SetAge(b, i, 255);
      SetRank5(b, i, b.ram[COUNT_152E]);
      SetDrums(b, Inc(b.ram[COUNT_152E]));
      SetFlags(b, i, Or(Field(b, i, 2), 3));
    }
  }

  method WriteSlot(b: Board, i: nat, stores: seq<Store>)
    requires b.Valid() && i < 32
    modifies b.scsp
    ensures Now(b) == old(Now(b)).(chip := StoreAll(old(Now(b)).chip, i, stores))
    ensures Outside(b) == old(Outside(b))
  {
    ghost var l := Now(b);
    for k := 0 to |stores|
      invariant Now(b) == l.(chip := Now(b).chip) && Outside(b) == old(Outside(b))
      invariant StoreAll(Now(b).chip, i, stores[k..]) == StoreAll(l.chip, i, stores)
    {
      assert stores[k..][1..] == stores[k + 1..];
      SetChip(b, 32 * i + stores[k].register, stores[k].value);
    }
  }

  method AuthorRest(b: Board, i: nat, t: Tail)
    requires b.Valid() && i < 32 && Slots(Now(b))
    modifies b.ram, b.scsp
    ensures var l := old(Now(b));
            Now(b) == l.(v := l.v[i := AuthorTail(l.v[i], t)],
                         streams := if t.stream.Some? then l.streams[i := t.stream.value] else l.streams,
                         chip := StoreAll(l.chip, i, t.stores))
    ensures Outside(b) == old(Outside(b))
  {
    WriteSlot(b, i, t.stores);
    if t.rate.Some? { SetRate(b, i, t.rate.value); }
    if t.looping { SetFlags(b, i, AndNot(Field(b, i, 2), 4)); }
    if t.stream.Some? { SetStream(b, i, t.stream.value); }
  }

  method Reaper(b: Board, r: Request, t: Tail)
    requires b.Valid() && Slots(Now(b))
    modifies b.ram, b.scsp, b`log
    ensures Now(b) == Reap(old(Now(b)), r, t)
    ensures Outside(b) == old(Outside(b))
  {
    ghost var l := Now(b);
    var i := 0;
    while i < 32 && Field(b, i, 9) != 0
      invariant 0 <= i <= 32 && FirstAgeZero(l.v, 0) == FirstAgeZero(l.v, i)
    {
      i := i + 1;
    }
    if i < 32 {
      ReaperPop(b, i);
      SetupAuthor(b, i, r, t);
    }
  }

  method AgeDown(b: Board, j: nat)
    requires b.Valid() && j < 32
    modifies b.ram
    ensures Now(b) == old(Now(b)).(v := old(Now(b)).v[j := AllAgesDown(old(Now(b)).v)[j]])
    ensures Outside(b) == old(Outside(b))
  {
    var age := Field(b, j, 9);
    if age != 255 { SetAge(b, j, Dec(age)); }
  }

  method RankDown(b: Board, j: nat)
    requires b.Valid() && j < 32
    modifies b.ram
    ensures Now(b) == old(Now(b)).(v := old(Now(b)).v[j := AllRanksDown(old(Now(b)).v)[j]])
    ensures Outside(b) == old(Outside(b))
  {
    var age, rank := Field(b, j, 9), Field(b, j, 5);
    if age == 255 { SetRank5(b, j, Dec(rank)); }
  }

  method AgesDown(b: Board)
    requires b.Valid()
    modifies b.ram
    ensures Now(b) == old(Now(b)).(v := AllAgesDown(old(Now(b)).v))
    ensures Outside(b) == old(Outside(b))
  {
    ghost var l := Now(b);
    ghost var w := AllAgesDown(l.v);
    for j := 0 to 32
      invariant Now(b) == l.(v := w[..j] + l.v[j..]) && Outside(b) == old(Outside(b))
    {
      Splice(w, l.v, j);
      AgeDown(b, j);
    }
  }

  method RanksDown(b: Board)
    requires b.Valid()
    modifies b.ram
    ensures Now(b) == old(Now(b)).(v := AllRanksDown(old(Now(b)).v))
    ensures Outside(b) == old(Outside(b))
  {
    ghost var l := Now(b);
    ghost var w := AllRanksDown(l.v);
    for j := 0 to 32
      invariant Now(b) == l.(v := w[..j] + l.v[j..]) && Outside(b) == old(Outside(b))
    {
      Splice(w, l.v, j);
      assert AllRanksDown(Now(b).v)[j] == w[j];
      RankDown(b, j);
    }
  }

  method ReaperPop(b: Board, i: nat)
    requires b.Valid() && i < 32 && Slots(Now(b))
    modifies b.ram, b.scsp, b`log
    ensures Now(b) == StealNormal(old(Now(b)), i) && Slots(Now(b))
    ensures Outside(b) == old(Outside(b))
  {
    ghost var l := Now(b);
    ChipOff(b, i);
    SetFlags(b, i, 0);
    SetStream(b, i, 0);
    AgesDown(b);
    SetNormals(b, Dec(b.ram[COUNT_151E]));
    Record(b, Off(i));
    assert Now(b).v == StealNormal(l, i).v;
  }

  method DrumPop(b: Board, i: nat)
    requires b.Valid() && i < 32 && Slots(Now(b))
    modifies b.ram, b.scsp, b`log
    ensures Now(b) == StealDrum(old(Now(b)), i) && Slots(Now(b))
    ensures Outside(b) == old(Outside(b))
  {
    ghost var l := Now(b);
    ChipOff(b, i);
    SetStream(b, i, 0);
    SetRank5(b, i, 5);
    RanksDown(b);
    SetDrums(b, Dec(b.ram[COUNT_152E]));
    Record(b, Off(i));
    assert Now(b).v == StealDrum(l, i).v;
  }

  method SetNext(b: Board, n: nat)
    requires b.Valid() && RecordAt(n) < RAM_BYTES
    modifies b.ram
    ensures Now(b) == old(Now(b)).(next := n)
    ensures b.ram[..] == PutCursor(old(b.ram[..]), n)
  {
    PutsCursor(b.ram[..], n);
    Poke32(b, CURSOR_151A, RecordAt(n));
  }

  // The write-back of a cursor found at the table's end.
  method WrapCursor(b: Board) returns (n: nat)
    requires b.Valid() && CursorOk(b.ram[..])
    modifies b.ram
    ensures Now(b) == Wrapped(old(Now(b))) && n == Now(b).next && CursorOk(b.ram[..])
    ensures Aside(b.ram[..]) == Aside(old(b.ram[..]))
    ensures PastOf(b.ram[..], n) == PastOf(old(b.ram[..]), n)
  {
    var cursor := Be32(b.ram[..], CURSOR_151A);
    n := (cursor - VOICES) / 16;
    if cursor == 0x2a00 {
      n := 0;
      PutsCursor(b.ram[..], 0);
      AsideSkipsCursor(b.ram[..], 0);
      PastSkipsCursor(b.ram[..], 0, 0);
      SetNext(b, 0);
    }
  }

  lemma FlagsRead(s: seq<byte>, chip: seq<byte>, log: seq<Event>, i: nat)
    requires |s| == RAM_BYTES && |chip| == SCSP_BYTES && i < 32
    requires RecordAt(NextOf(s) + i) + 2 < RAM_BYTES
    ensures FlagsAt(LedgerOf(s, chip, log), PastOf(s, NextOf(s)), i) == s[RecordAt(NextOf(s) + i) + 2]
  {
    var n := NextOf(s);
    if n + i < 32 {
      assert LedgerOf(s, chip, log).v[n + i] == VoiceAt(s, n + i);
    } else {
      assert PastOf(s, n)[i] == PastFlags(s, n + i);
    }
  }

  lemma ScanGoesOn(s: seq<byte>, chip: seq<byte>, log: seq<Event>, i: nat)
    requires |s| == RAM_BYTES && |chip| == SCSP_BYTES && i < 32
    requires RecordAt(NextOf(s) + i) + 2 < RAM_BYTES && s[RecordAt(NextOf(s) + i) + 2] != 0
    ensures var l, past := LedgerOf(s, chip, log), PastOf(s, NextOf(s));
            Scan(l, past, i) == Scan(l, past, i + 1)
  {
    FlagsRead(s, chip, log, i);
  }

  lemma ScanStops(s: seq<byte>, chip: seq<byte>, log: seq<Event>, i: nat)
    requires |s| == RAM_BYTES && |chip| == SCSP_BYTES && i <= 32
    requires i == 32 || RecordAt(NextOf(s) + i) + 2 >= RAM_BYTES || s[RecordAt(NextOf(s) + i) + 2] == 0
    ensures Scan(LedgerOf(s, chip, log), PastOf(s, NextOf(s)), i) == i
  {
    if i < 32 && RecordAt(NextOf(s) + i) + 2 < RAM_BYTES { FlagsRead(s, chip, log, i); }
  }

  // One turn of the scan: past this record or not.
  method PassRecord(b: Board, n: nat, i: nat) returns (busy: bool)
    requires b.Valid() && n == NextOf(b.ram[..]) && i < 32
    ensures var l, past := Now(b), PastOf(b.ram[..], n);
            if busy then Scan(l, past, i) == Scan(l, past, i + 1) else Scan(l, past, i) == i
  {
    var record := RecordAt(n + i);
    busy := record + 2 < RAM_BYTES && b.ram[record + 2] != 0;
    if busy { ScanGoesOn(b.ram[..], b.scsp[..], b.log, i); } else { ScanStops(b.ram[..], b.scsp[..], b.log, i); }
  }

  method ScanRecords(b: Board, n: nat) returns (i: nat)
    requires b.Valid() && n == NextOf(b.ram[..])
    ensures i == Scan(Now(b), PastOf(b.ram[..], n), 0)
  {
    ghost var l, past := Now(b), PastOf(b.ram[..], n);
    i := 0;
    while i < 32
      invariant i <= 32 && Scan(l, past, 0) == Scan(l, past, i)
    {
      var busy := PassRecord(b, n, i);
      if !busy { return; }
      i := i + 1;
    }
  }

  method Allocator(b: Board, r: Request, t: Tail, admitted: bool)
    requires b.Valid() && Slots(Now(b)) && CursorOk(b.ram[..])
    modifies b.ram, b.scsp, b`log
    ensures var l := old(Now(b));
            Now(b) == Allocate(l, r, t, admitted, PastOf(old(b.ram[..]), Wrapped(l).next))
    ensures CursorOk(b.ram[..]) && Aside(b.ram[..]) == Aside(old(b.ram[..]))
  {
    var n := WrapCursor(b);
    var i := ScanRecords(b, n);
    if i == 32 {
      ReapAll(b, r, t);
    } else if RecordAt(n + i) + 19 < RAM_BYTES {
      TakeRecord(b, n + i + 1);
      if admitted && n + i == 0 { AuthorFirst(b, r, t); }
    }
  }

  method ReapAll(b: Board, r: Request, t: Tail)
    requires b.Valid() && Slots(Now(b)) && CursorOk(b.ram[..])
    modifies b.ram, b.scsp, b`log
    ensures Now(b) == Reap(old(Now(b)), r, t)
    ensures CursorOk(b.ram[..]) && Aside(b.ram[..]) == Aside(old(b.ram[..]))
  {
    ghost var s := b.ram[..];
    Reaper(b, r, t);
    RestCursor(s, b.ram[..]);
    AsideOfRest(s, b.ram[..]);
  }

  // The write-back behind a record that looks free.
  method TakeRecord(b: Board, n: nat)
    requires b.Valid() && RecordAt(n) < RAM_BYTES
    modifies b.ram
    ensures Now(b) == old(Now(b)).(next := n)
    ensures CursorOk(b.ram[..]) && Aside(b.ram[..]) == Aside(old(b.ram[..]))
  {
    PutsCursor(b.ram[..], n);
    AsideSkipsCursor(b.ram[..], n);
    SetNext(b, n);
  }

  method AuthorFirst(b: Board, r: Request, t: Tail)
    requires b.Valid() && Slots(Now(b)) && CursorOk(b.ram[..])
    modifies b.ram, b.scsp, b`log
    ensures Now(b) == Author(old(Now(b)), 0, r, t)
    ensures CursorOk(b.ram[..]) && Aside(b.ram[..]) == Aside(old(b.ram[..]))
  {
    ghost var s := b.ram[..];
    SetupAuthor(b, 0, r, t);
    RestCursor(s, b.ram[..]);
    AsideOfRest(s, b.ram[..]);
  }

  // $1515, the looked-up byte, here r.tag.
  method FileLookup(b: Board, x: byte)
    requires b.Valid()
    modifies b.ram
    ensures Now(b) == old(Now(b)) && b.ram[..] == old(b.ram[..])[LOOKUP_BYTE := x]
    ensures CursorOk(b.ram[..]) <==> old(CursorOk(b.ram[..]))
    ensures forall n :: PastOf(b.ram[..], n) == PastOf(old(b.ram[..]), n)
  {
    ghost var s := b.ram[..];
    PutUnseen(s, LOOKUP_BYTE, x);
    b.Poke(LOOKUP_BYTE, x);
    forall n: nat ensures PastOf(b.ram[..], n) == PastOf(s, n) { PastSkips(s, LOOKUP_BYTE, x, n); }
  }

  method RunLoopB(b: Board, r: Request, t: Tail, admitted: bool)
    requires b.Valid() && Slots(Now(b)) && CursorOk(b.ram[..])
    modifies b.ram, b.scsp, b`log
    ensures var l := old(Now(b));
            Now(b) == LoopB(l, r, t, admitted, PastOf(old(b.ram[..]), Wrapped(l).next))
    ensures CursorOk(b.ram[..])
    ensures Aside(b.ram[..]) == Aside(old(b.ram[..])[LOOKUP_BYTE := r.tag])
  {
    FileLookup(b, r.tag);
    LoopBDispatch(b, r, t, admitted);
  }

  method LoopBDispatch(b: Board, r: Request, t: Tail, admitted: bool)
    requires b.Valid() && Slots(Now(b)) && CursorOk(b.ram[..])
    modifies b.ram, b.scsp, b`log
    ensures var l := old(Now(b));
            Now(b) == LoopB(l, r, t, admitted, PastOf(old(b.ram[..]), Wrapped(l).next))
    ensures CursorOk(b.ram[..]) && Aside(b.ram[..]) == Aside(old(b.ram[..]))
  {
    if r.channel == 15 {
      if r.tag == 0xb6 || r.tag == 0xb8 { ScanThenAllocate(b, r, t, admitted); } else { Allocator(b, r, t, admitted); }
    } else if b.ram[COUNT_152E] < 5 {
      Allocator(b, r, t, admitted);
    } else {
      StealOrAllocate(b, r, t, admitted);
    }
  }

  method ScanThenAllocate(b: Board, r: Request, t: Tail, admitted: bool)
    requires b.Valid() && Slots(Now(b)) && CursorOk(b.ram[..])
    modifies b.ram, b.scsp, b`log
    ensures var l := old(Now(b));
            Now(b) == Allocate(SetupScanFrom(l, 0), r, t, admitted, PastOf(old(b.ram[..]), Wrapped(l).next))
    ensures CursorOk(b.ram[..]) && Aside(b.ram[..]) == Aside(old(b.ram[..]))
  {
    ghost var l, s := Now(b), b.ram[..];
    SetupScan(b);
    RestCursor(s, b.ram[..]);
    AsideOfRest(s, b.ram[..]);
    RestPast(s, b.ram[..], Wrapped(l).next);
    Allocator(b, r, t, admitted);
  }

  method StealOrAllocate(b: Board, r: Request, t: Tail, admitted: bool)
    requires b.Valid() && Slots(Now(b)) && CursorOk(b.ram[..]) && r.channel != 15 && Now(b).drums >= 5
    modifies b.ram, b.scsp, b`log
    ensures var l := old(Now(b));
            Now(b) == LoopB(l, r, t, admitted, PastOf(old(b.ram[..]), Wrapped(l).next))
    ensures CursorOk(b.ram[..]) && Aside(b.ram[..]) == Aside(old(b.ram[..]))
  {
    ghost var l, s := Now(b), b.ram[..];
    var i := 0;
    while i < 32 && !(Field(b, i, 9) == 255 && Field(b, i, 5) == 0)
      invariant 0 <= i <= 32 && FirstDrumHead(l.v, 0) == FirstDrumHead(l.v, i)
    {
      i := i + 1;
    }
    if i < 32 {
      DrumPop(b, i);
      SetupAuthor(b, i, r, t);
      RestCursor(s, b.ram[..]);
      AsideOfRest(s, b.ram[..]);
    } else {
      SetDrums(b, 0);
      RestCursor(s, b.ram[..]);
      AsideOfRest(s, b.ram[..]);
      RestPast(s, b.ram[..], Wrapped(l).next);
      Allocator(b, r, t, admitted);
    }
  }

  // ------------------------------------------------------------ B0/50 7F

  method Silence(b: Board, i: nat)
    requires b.Valid() && i < 32 && Slots(Now(b))
    modifies b.ram, b.scsp
    ensures var l := old(Now(b));
            Now(b) == l.(v := l.v[i := l.v[i].(flags := 0, channel := 0)], streams := l.streams[i := 0],
                         chip := KeyOff(l.chip, i))
    ensures Outside(b) == old(Outside(b))
  {
    ChipOff(b, i);
    SetStream(b, i, 0);
    SetFlags(b, i, 0);
    SetChannel(b, i, 0);
  }

  method FullStopVoice(b: Board, i: nat)
    requires b.Valid() && i < 32 && Slots(Now(b))
    modifies b.ram, b.scsp, b`log
    ensures Now(b) == FS.StopOne(old(Now(b)), i) && Slots(Now(b))
    ensures Outside(b) == old(Outside(b))
  {
    ghost var l := Now(b);
    var channel, flags := Field(b, i, 4), Field(b, i, 2);
    if !Bit(flags, 6) { return; }
    var age := Field(b, i, 9);
    Silence(b, i);
    if channel == 15 || !Bit(flags, 4) {
      SetNormals(b, Dec(b.ram[COUNT_151E]));
      SweepAges(b, age);
    }
    Record(b, Off(i));
    assert l.v[i].flags == flags && l.v[i].channel == channel && l.v[i].age == age;
  }

  method FullStopVoices(b: Board)
    requires b.Valid() && Slots(Now(b))
    modifies b.ram, b.scsp, b`log
    ensures Now(b) == FS.StopFrom(old(Now(b)), 0)
    ensures Outside(b) == old(Outside(b))
  {
    for i := 0 to 32
      invariant Slots(Now(b)) && Outside(b) == old(Outside(b))
      invariant FS.StopFrom(Now(b), i) == FS.StopFrom(old(Now(b)), 0)
    {
      FullStopVoice(b, i);
    }
  }

  // ------------------------------------------------------------ the channel tables

  // Of the first k channels: the word at 0x4200 and the bytes at 0x4220 and 0x4240.
  predicate ChannelByte(k: nat, a: nat) {
    0x4200 <= a < 0x4200 + 2 * k || 0x4220 <= a < 0x4220 + k || 0x4240 <= a < 0x4240 + k
  }

  function Cleared(s: seq<byte>, k: nat): (t: seq<byte>)
    ensures |t| == |s|
  {
    seq(|s|, a requires 0 <= a < |s| => if ChannelByte(k, a) then 0 else s[a])
  }

  lemma ClearedNext(s: seq<byte>, k: nat)
    requires |s| == RAM_BYTES && k < 16
    ensures Cleared(s, k)[0x4220 + k := 0][0x4240 + k := 0][0x4200 + 2 * k := 0][0x4201 + 2 * k := 0]
            == Cleared(s, k + 1)
  {
  }

  lemma ClearedUnseen(s: seq<byte>, k: nat, chip: seq<byte>, log: seq<Event>)
    requires |s| == RAM_BYTES && |chip| == SCSP_BYTES && k <= 16
    ensures LedgerOf(Cleared(s, k), chip, log) == LedgerOf(s, chip, log)
    ensures Rest(Cleared(s, k)) == Cleared(Rest(s), k)
  {
    var t := Cleared(s, k);
    forall j | 0 <= j < 32 ensures VoiceAt(t, j) == VoiceAt(s, j) {}
    assert Voices(t) == Voices(s);
    assert StreamFlags(t) == StreamFlags(s);
  }

  method ClearChannels(b: Board)
    requires b.Valid()
    modifies b.ram
    ensures Now(b) == old(Now(b)) && Outside(b) == Cleared(old(Outside(b)), 16)
  {
    ghost var s := b.ram[..];
    assert Cleared(s, 0) == s;
    for k := 0 to 16
      invariant b.ram[..] == Cleared(s, k)
    {
      ClearedNext(s, k);
      b.Poke(0x4220 + k, 0);
      b.Poke(0x4240 + k, 0);
      b.Poke(0x4200 + 2 * k, 0);
      b.Poke(0x4201 + 2 * k, 0);
    }
    ClearedUnseen(s, 16, b.scsp[..], b.log);
  }

  /** The whole full stop: the voices, then the sixteen channels' tables. */
  method ApplyFullStop(b: Board)
    requires b.Valid() && Slots(Now(b))
    modifies b.ram, b.scsp, b`log
    ensures Now(b) == FS.StopFrom(old(Now(b)), 0)
    ensures Outside(b) == Cleared(old(Outside(b)), 16)
  {
    FullStopVoices(b);
    ClearChannels(b);
  }
}
