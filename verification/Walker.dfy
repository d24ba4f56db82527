/** One service of the PCM stream walker as a function on sound RAM and the SCSP registers:
    the idle and negative-timer arms, the half gate, the full page, the looping short page,
    the terminal page and the armed release. */
module Walker {
  import opened Bytes
  import opened SoundBoard
  import opened LoopLaw
  import opened Wrappers

  // +0 flags, +1 mode, +2 source, +6 write pointer, +0xa remaining, +0xe ring base,
  // +0x12 slot byte, +0x13 loop source, +0x16 master byte, +0x17 loop length, +0x1a rate,
  // +0x1c timer, +0x1e end offset: the 32 bytes of a stream record.
  datatype Stream = Stream(flags: byte, mode: byte, src: long, wr: long, remaining: long, base: long,
                           slot: byte, loopSrc: long, master: byte, loopLen: long, rate: word,
                           timer: word, end: word)

  function At(i: nat): nat { STREAMS + 32 * i }

  function StreamAt(s: seq<byte>, i: nat): Stream
    requires |s| == RAM_BYTES && i < 32
  {
    var a := At(i);
    Stream(s[a], s[a + 1], Be32(s, a + 2), Be32(s, a + 6), Be32(s, a + 10), Be32(s, a + 14), s[a + 18],
           Low24(s, a + 18), s[a + 22], Low24(s, a + 22), Be16(s, a + 26), Be16(s, a + 28), Be16(s, a + 30))
  }

  // be32 & 0x00ffffff
  function Low24(s: seq<byte>, a: nat): (r: long)
    requires a + 4 <= |s|
    ensures r < 0x100_0000
  {
    s[a + 1] as int * 0x1_0000 + s[a + 2] as int * 0x100 + s[a + 3] as int
  }

  // ------------------------------------------------------------ field stores

  predicate OnlyRecord(s: seq<byte>, t: seq<byte>, i: nat)
    requires i < 32
  {
    |t| == |s| && forall a :: 0 <= a < |s| && !(At(i) <= a < At(i) + 32) ==> t[a] == s[a]
  }

  function PutFlags(s: seq<byte>, i: nat, x: byte): (t: seq<byte>)
    requires |s| == RAM_BYTES && i < 32
    ensures |t| == RAM_BYTES
  {
    s[At(i) := x]
  }

  function PutMode(s: seq<byte>, i: nat, x: byte): (t: seq<byte>)
    requires |s| == RAM_BYTES && i < 32
    ensures |t| == RAM_BYTES
  {
    s[At(i) + 1 := x]
  }

  function PutSrc(s: seq<byte>, i: nat, x: long): (t: seq<byte>)
    requires |s| == RAM_BYTES && i < 32
    ensures |t| == RAM_BYTES
  {
    PutBe32(s, At(i) + 2, x)
  }

  function PutWr(s: seq<byte>, i: nat, x: long): (t: seq<byte>)
    requires |s| == RAM_BYTES && i < 32
    ensures |t| == RAM_BYTES
  {
    PutBe32(s, At(i) + 6, x)
  }

  function PutRemaining(s: seq<byte>, i: nat, x: long): (t: seq<byte>)
    requires |s| == RAM_BYTES && i < 32
    ensures |t| == RAM_BYTES
  {
    PutBe32(s, At(i) + 10, x)
  }

  function PutTimer(s: seq<byte>, i: nat, x: word): (t: seq<byte>)
    requires |s| == RAM_BYTES && i < 32
    ensures |t| == RAM_BYTES
  {
    PutBe16(s, At(i) + 28, x)
  }

  function PutEnd(s: seq<byte>, i: nat, x: word): (t: seq<byte>)
    requires |s| == RAM_BYTES && i < 32
    ensures |t| == RAM_BYTES
  {
    PutBe16(s, At(i) + 30, x)
  }

  lemma PutsFlags(s: seq<byte>, i: nat, x: byte)
    requires |s| == RAM_BYTES && i < 32
    ensures OnlyRecord(s, PutFlags(s, i, x), i) && StreamAt(PutFlags(s, i, x), i) == StreamAt(s, i).(flags := x)
  {
  }

  lemma PutsMode(s: seq<byte>, i: nat, x: byte)
    requires |s| == RAM_BYTES && i < 32
    ensures OnlyRecord(s, PutMode(s, i, x), i) && StreamAt(PutMode(s, i, x), i) == StreamAt(s, i).(mode := x)
  {
  }

  lemma PutsSrc(s: seq<byte>, i: nat, x: long)
    requires |s| == RAM_BYTES && i < 32
    ensures OnlyRecord(s, PutSrc(s, i, x), i) && StreamAt(PutSrc(s, i, x), i) == StreamAt(s, i).(src := x)
  {
    PutGet32(s, At(i) + 2, x);
  }

  lemma PutsWr(s: seq<byte>, i: nat, x: long)
    requires |s| == RAM_BYTES && i < 32
    ensures OnlyRecord(s, PutWr(s, i, x), i) && StreamAt(PutWr(s, i, x), i) == StreamAt(s, i).(wr := x)
  {
    PutGet32(s, At(i) + 6, x);
  }

  lemma PutsRemaining(s: seq<byte>, i: nat, x: long)
    requires |s| == RAM_BYTES && i < 32
    ensures OnlyRecord(s, PutRemaining(s, i, x), i)
    ensures StreamAt(PutRemaining(s, i, x), i) == StreamAt(s, i).(remaining := x)
  {
    PutGet32(s, At(i) + 10, x);
  }

  lemma PutsTimer(s: seq<byte>, i: nat, x: word)
    requires |s| == RAM_BYTES && i < 32
    ensures OnlyRecord(s, PutTimer(s, i, x), i) && StreamAt(PutTimer(s, i, x), i) == StreamAt(s, i).(timer := x)
  {
    PutGet16(s, At(i) + 28, x);
  }

  lemma PutsEnd(s: seq<byte>, i: nat, x: word)
    requires |s| == RAM_BYTES && i < 32
    ensures OnlyRecord(s, PutEnd(s, i, x), i) && StreamAt(PutEnd(s, i, x), i) == StreamAt(s, i).(end := x)
  {
    PutGet16(s, At(i) + 30, x);
  }

  // ------------------------------------------------------------ the page copy

  const ROM_BASE := 0x80_0000

  predicate PageOk(rom: seq<byte>, src: long, dst: long) {
    src % 2 == 0 && dst % 2 == 0 && src >= ROM_BASE && dst + PAGE <= RAM_BYTES
    && src - ROM_BASE + PAGE <= |rom|
  }

  function CopyPage(s: seq<byte>, rom: seq<byte>, src: long, dst: long): (t: seq<byte>)
    requires |s| == RAM_BYTES && PageOk(rom, src, dst)
    ensures |t| == RAM_BYTES
  {
    s[..dst] + rom[src - ROM_BASE..src - ROM_BASE + PAGE] + s[dst + PAGE..]
  }

  // ------------------------------------------------------------ the arms

  datatype Mem = Mem(ram: seq<byte>, scsp: seq<byte>)

  predicate Sized(m: Mem) { |m.ram| == RAM_BYTES && |m.scsp| == SCSP_BYTES }

  predicate Midi7(m: Mem)
    requires Sized(m)
  {
    Bit(m.scsp[0x409], 7)
  }

  function NewTimer(r: Stream): word { U16(r.timer as int + r.rate as int) }
  predicate Due(r: Stream) { NewTimer(r) < 0x8000 }

  // Half-gated: page 0 waits for status bit 7 to be set, page 8 for it to be clear.
  predicate Gated(r: Stream, midi7: bool) {
    (r.mode == 0 && !midi7) || (r.mode == 0x80 && midi7)
  }

  function Target(r: Stream): long { if r.mode == 0 then r.base else r.wr }

  // The shared exit: the record's +0x16 byte goes to SCSP 0x408.
  function Exit(ram: seq<byte>, scsp: seq<byte>, i: nat): (m: Mem)
    requires |ram| == RAM_BYTES && |scsp| == SCSP_BYTES && i < 32
    ensures Sized(m) && m.ram == ram
  {
    Mem(ram, scsp[0x408 := StreamAt(ram, i).master])
  }

  // Timer, page counter, remaining, source and write pointer after a copied page.
  function Turn(c: seq<byte>, i: nat, r: Stream, next: Cursor, dst: long): (t: seq<byte>)
    requires |c| == RAM_BYTES && i < 32
    ensures |t| == RAM_BYTES
  {
    PutWr(PutSrc(PutRemaining(PutTimer(PutMode(c, i, U8(r.mode as int + 16)), i, NewTimer(r)),
                              i, next.remaining), i, next.src), i, U32(dst as int + PAGE))
  }

  lemma Turns(c: seq<byte>, i: nat, r: Stream, next: Cursor, dst: long)
    requires |c| == RAM_BYTES && i < 32
    ensures var t := Turn(c, i, r, next, dst);
            && OnlyRecord(c, t, i)
            && StreamAt(t, i) == StreamAt(c, i).(mode := U8(r.mode as int + 16), timer := NewTimer(r),
                                                 remaining := next.remaining, src := next.src,
                                                 wr := U32(dst as int + PAGE))
  {
    var c1 := PutMode(c, i, U8(r.mode as int + 16));
    var c2 := PutTimer(c1, i, NewTimer(r));
    var c3 := PutRemaining(c2, i, next.remaining);
    var c4 := PutSrc(c3, i, next.src);
    PutsMode(c, i, U8(r.mode as int + 16));
    PutsTimer(c1, i, NewTimer(r));
    PutsRemaining(c2, i, next.remaining);
    PutsSrc(c3, i, next.src);
    PutsWr(c4, i, U32(dst as int + PAGE));
  }

  function FullCursor(r: Stream): Cursor
    requires r.remaining > PAGE
  {
    Cursor(U32(r.src as int + PAGE), r.remaining - PAGE)
  }

  function LoopCursor(r: Stream): Cursor
    requires r.remaining <= PAGE
  {
    var padding := PAGE - r.remaining;
    Cursor(U32(r.loopSrc as int + padding), U32(r.loopLen as int - padding))
  }

  function FullPage(m: Mem, rom: seq<byte>, i: nat): (o: Option<Mem>)
    requires Sized(m) && i < 32
    ensures o.Some? ==> Sized(o.value)
  {
    var r := StreamAt(m.ram, i);
    var dst := Target(r);
    if !Bit(r.flags, 7) || !Due(r) || Gated(r, Midi7(m)) || r.remaining <= PAGE || !PageOk(rom, r.src, dst)
    then None
    else Some(Exit(Turn(CopyPage(m.ram, rom, r.src, dst), i, r, FullCursor(r), dst), m.scsp, i))
  }

  function ShortLoopPage(m: Mem, rom: seq<byte>, i: nat): (o: Option<Mem>)
    requires Sized(m) && i < 32
    ensures o.Some? ==> Sized(o.value)
  {
    var r := StreamAt(m.ram, i);
    var dst := Target(r);
    if !Bit(r.flags, 7) || !Bit(r.flags, 0) || !Due(r) || Gated(r, Midi7(m)) || r.remaining > PAGE
       || !PageOk(rom, r.src, dst)
    then None
    else Some(Exit(Turn(CopyPage(m.ram, rom, r.src, dst), i, r, LoopCursor(r), dst), m.scsp, i))
  }

  predicate SlotOk(n: byte) { n % 2 == 0 && n < 64 }

  // SCSP slot n: key bits cleared at +1 and the end offset stored at +6.
  function KeyEnd(scsp: seq<byte>, n: byte, key: byte, end: word): (t: seq<byte>)
    requires |scsp| == SCSP_BYTES && SlotOk(n)
    ensures |t| == SCSP_BYTES
  {
    PutBe16(scsp[16 * n as int + 1 := AndNot(AndNot(key, 5), 6)], 16 * n as int + 6, end)
  }

  // The stream goes idle and its voice is handed to the voice interrupt with a countdown.
  function HandBack(ram: seq<byte>, i: nat, n: byte): (t: seq<byte>)
    requires |ram| == RAM_BYTES && i < 32 && SlotOk(n)
    ensures |t| == RAM_BYTES
  {
    var s := PutFlags(ram, i, 0);
    var v := VOICES + 8 * n as int;
    s[v + 11 := U8(s[v + 11] as int + (if Bit(s[v + 2], 3) then 0x50 else 3))][v + 2 := Or(s[v + 2], 0)]
  }

  function ShortRelease(m: Mem, i: nat): (o: Option<Mem>)
    requires Sized(m) && i < 32
    ensures o.Some? ==> Sized(o.value)
  {
    var r := StreamAt(m.ram, i);
    if !Bit(r.flags, 7) || !Bit(r.flags, 3) || Bit(r.flags, 0) || r.remaining > PAGE || !Due(r)
       || Midi7(m) || r.mode == 0 || !SlotOk(r.slot)
    then None
    else Some(Exit(HandBack(m.ram, i, r.slot),
                   KeyEnd(m.scsp, r.slot, m.scsp[16 * r.slot as int + 1], r.end), i))
  }

  // (uint16_t)(destination - base) + (uint16_t)remaining, as stored at +0x1e.
  function EndOffset(r: Stream): word {
    U16(U16(Target(r) as int - r.base as int) as int + U16(r.remaining) as int)
  }

  // After the last page: arm the release, or release at once on pages 8 to 15.
  function Terminate(s: seq<byte>, scsp: seq<byte>, i: nat, r: Stream): (m: Mem)
    requires |s| == RAM_BYTES && |scsp| == SCSP_BYTES && i < 32 && (Bit(r.mode, 7) ==> SlotOk(r.slot))
    ensures Sized(m)
  {
    if !Bit(r.mode, 7)
    then Exit(PutMode(PutFlags(s, i, Or(s[At(i)], 3)), i, U8(r.mode as int + 16)), scsp, i)
    else Exit(HandBack(s, i, r.slot), KeyEnd(scsp, r.slot, scsp[16 * r.slot as int + 1], EndOffset(r)), i)
  }

  function ShortTerminal(m: Mem, rom: seq<byte>, i: nat): (o: Option<Mem>)
    requires Sized(m) && i < 32
    ensures o.Some? ==> Sized(o.value)
  {
    var r := StreamAt(m.ram, i);
    var dst := Target(r);
    if r.flags != 0x80 || r.remaining > PAGE || !Due(r) then None
    else if Gated(r, Midi7(m)) then Some(Exit(m.ram, m.scsp, i))
    else if Bit(r.mode, 7) && !SlotOk(r.slot) then None
    else if !PageOk(rom, r.src, dst) then None
    else Some(Terminate(PutEnd(CopyPage(m.ram, rom, r.src, dst), i, EndOffset(r)), m.scsp, i, r))
  }

  function EmptyDispatch(m: Mem, i: nat): (o: Option<Mem>)
    requires Sized(m) && i < 32
    ensures o.Some? ==> Sized(o.value)
  {
    var r := StreamAt(m.ram, i);
    if m.ram[0x2506] != 0 then None
    else if !Bit(r.flags, 7) then Some(Exit(m.ram, m.scsp, i))
    else if Due(r) then None
    else Some(Exit(PutTimer(m.ram, i, NewTimer(r)), m.scsp, i))
  }

  function WalkOne(m: Mem, rom: seq<byte>, i: nat): (o: Option<Mem>)
    requires Sized(m) && i < 32
    ensures o.Some? ==> Sized(o.value)
  {
    var r := StreamAt(m.ram, i);
    if m.ram[0x2506] != 0 then None
    else if !Bit(r.flags, 7) || !Due(r) then EmptyDispatch(m, i)
    else if Gated(r, Midi7(m)) then Some(Exit(m.ram, m.scsp, i))
    else if r.remaining > PAGE then FullPage(m, rom, i)
    else if Bit(r.flags, 0) then ShortLoopPage(m, rom, i)
    else if Bit(r.flags, 3) then ShortRelease(m, i)
    else ShortTerminal(m, rom, i)
  }

  // The record the walker visits next: a zero master byte restarts the table.
  function NextSlot(m: Mem, i: nat): nat
    requires Sized(m) && i < 32
  {
    if StreamAt(m.ram, i).master == 0 then 0 else i + 1
  }
}
