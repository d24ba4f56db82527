/** Memory confinement, lifecycle and looping arithmetic of the stream walker over whole runs. */
module WalkerTheory {
  import opened Bytes
  import opened SoundBoard
  import opened LoopLaw
  import opened Walker
  import opened Wrappers

  function Window(i: nat): nat { 0x1_0000 + 0x2000 * i }

  // Record i is placed as initialize places it, and its write pointer, page counter and
  // remaining length fit together.
  predicate Placed(r: Stream, i: nat) {
    && r.base == Window(i) && r.slot == 2 * i && r.master == U8(8 + 8 * i)
    && (Bit(r.flags, 7) ==> Running(r))
  }

  predicate Running(r: Stream) {
    && r.mode % 16 == 0
    && (r.mode != 0 && !Bit(r.flags, 3) ==> r.wr == r.base + 32 * r.mode)
    && (Bit(r.flags, 3) ==> r.remaining <= PAGE && !Bit(r.flags, 0))
  }

  ghost predicate Walls(s: seq<byte>)
    requires |s| == RAM_BYTES
  {
    forall i :: 0 <= i < 32 ==> Placed(StreamAt(s, i), i)
  }

  // The bytes one service of record i may change.
  predicate Mine(i: nat, a: nat) {
    || At(i) <= a < At(i) + 32
    || Window(i) <= a < Window(i) + 0x2000
    || a == VOICES + 16 * i + 2 || a == VOICES + 16 * i + 11
  }

  ghost predicate OnlyMine(s: seq<byte>, t: seq<byte>, i: nat) {
    |t| == |s| && forall a :: 0 <= a < |s| && !Mine(i, a) ==> t[a] == s[a]
  }

  // ------------------------------------------------------------ confinement

  /** Whatever the page counter says, an unarmed placed record copies into its own window. */
  lemma TargetInWindow(r: Stream, i: nat)
    requires i < 32 && Placed(r, i) && Bit(r.flags, 7) && !Bit(r.flags, 3)
    ensures Target(r) == Window(i) + 32 * r.mode && Target(r) + PAGE <= Window(i) + 0x2000
  {
  }

  lemma SameRecord(s: seq<byte>, t: seq<byte>, i: nat, j: nat)
    requires |s| == RAM_BYTES && |t| == RAM_BYTES && i < 32 && j < 32 && j != i && OnlyMine(s, t, i)
    ensures StreamAt(t, j) == StreamAt(s, j)
  {
    forall a | At(j) <= a < At(j) + 32 ensures t[a] == s[a] { assert !Mine(i, a); }
  }

  lemma CopyApart(s: seq<byte>, rom: seq<byte>, src: long, dst: long, i: nat)
    requires |s| == RAM_BYTES && PageOk(rom, src, dst) && i < 32
    requires Window(i) <= dst && dst + PAGE <= Window(i) + 0x2000
    ensures OnlyMine(s, CopyPage(s, rom, src, dst), i)
    ensures StreamAt(CopyPage(s, rom, src, dst), i) == StreamAt(s, i)
  {
    var t := CopyPage(s, rom, src, dst);
    forall a | 0 <= a < RAM_BYTES && !(dst <= a < dst + PAGE) ensures t[a] == s[a] {}
    forall a | At(i) <= a < At(i) + 32 ensures t[a] == s[a] {}
  }

  function Turned(r: Stream, next: Cursor): Stream {
    r.(mode := U8(r.mode as int + 16), timer := NewTimer(r), remaining := next.remaining,
       src := next.src, wr := U32(Target(r) as int + PAGE))
  }

  lemma TurnedPlaced(r: Stream, next: Cursor, i: nat)
    requires i < 32 && Placed(r, i) && Bit(r.flags, 7) && !Bit(r.flags, 3)
    ensures Placed(Turned(r, next), i)
  {
    TargetInWindow(r, i);
    assert U8(r.mode as int + 16) == (if r.mode == 240 then 0 else r.mode + 16);
  }

  lemma TurnPlaced(s: seq<byte>, rom: seq<byte>, i: nat, next: Cursor)
    requires |s| == RAM_BYTES && i < 32
    requires var r := StreamAt(s, i);
             Placed(r, i) && Bit(r.flags, 7) && !Bit(r.flags, 3) && PageOk(rom, r.src, Target(r))
    ensures var r := StreamAt(s, i);
            var t := Turn(CopyPage(s, rom, r.src, Target(r)), i, r, next, Target(r));
            OnlyMine(s, t, i) && Placed(StreamAt(t, i), i) && StreamAt(t, i) == Turned(r, next)
  {
    var r := StreamAt(s, i);
    TargetInWindow(r, i);
    CopyApart(s, rom, r.src, Target(r), i);
    Turns(CopyPage(s, rom, r.src, Target(r)), i, r, next, Target(r));
    TurnedPlaced(r, next, i);
  }

  lemma OrEight()
    ensures Or(0x80, 3) == 0x88 && Bit(0x80, 7) && !Bit(0x80, 3) && !Bit(0x80, 0)
    ensures Bit(0x88, 7) && Bit(0x88, 3) && !Bit(0x88, 0)
  {
  }

  // What one service does to its own record.
  datatype Served =
    | Skipped                 // idle, negative timer or half-gated: at most the timer moves
    | Paged(next: Cursor)     // a page copied, the stream goes on
    | Armed                   // the last page copied, release armed
    | Released                // handed back to the voice interrupt

  function ServedBy(r: Stream, midi7: bool): Served {
    if !Bit(r.flags, 7) || !Due(r) || Gated(r, midi7) then Skipped
    else if r.remaining > PAGE then Paged(FullCursor(r))
    else if Bit(r.flags, 0) then Paged(LoopCursor(r))
    else if Bit(r.flags, 3) || Bit(r.mode, 7) then Released
    else Armed
  }

  function Next(r: Stream, midi7: bool): Stream {
    match ServedBy(r, midi7)
    case Skipped => if Bit(r.flags, 7) && !Due(r) then r.(timer := NewTimer(r)) else r
    case Paged(c) => Turned(r, c)
    case Armed => r.(end := EndOffset(r), flags := 0x88, mode := U8(r.mode as int + 16))
    case Released => if Bit(r.flags, 3) then r.(flags := 0) else r.(end := EndOffset(r), flags := 0)
  }

  ghost predicate Serves(m: Mem, o: Option<Mem>, i: nat)
    requires Sized(m) && i < 32
  {
    o.Some? ==>
      && Sized(o.value) && OnlyMine(m.ram, o.value.ram, i)
      && StreamAt(o.value.ram, i) == Next(StreamAt(m.ram, i), Midi7(m))
      && Placed(StreamAt(o.value.ram, i), i)
  }

  lemma FullServes(m: Mem, rom: seq<byte>, i: nat)
    requires Sized(m) && i < 32 && Placed(StreamAt(m.ram, i), i)
    ensures Serves(m, FullPage(m, rom, i), i)
  {
    var r := StreamAt(m.ram, i);
    if FullPage(m, rom, i).Some? { TurnPlaced(m.ram, rom, i, FullCursor(r)); }
  }

  lemma LoopServes(m: Mem, rom: seq<byte>, i: nat)
    requires Sized(m) && i < 32 && Placed(StreamAt(m.ram, i), i)
    ensures Serves(m, ShortLoopPage(m, rom, i), i)
  {
    var r := StreamAt(m.ram, i);
    if ShortLoopPage(m, rom, i).Some? { TurnPlaced(m.ram, rom, i, LoopCursor(r)); }
  }

  lemma HandBackMine(s: seq<byte>, i: nat)
    requires |s| == RAM_BYTES && i < 32
    ensures SlotOk(2 * i) && OnlyMine(s, HandBack(s, i, 2 * i), i)
    ensures StreamAt(HandBack(s, i, 2 * i), i) == StreamAt(s, i).(flags := 0)
  {
    PutsFlags(s, i, 0);
    var s1 := PutFlags(s, i, 0);
    var t := HandBack(s, i, 2 * i);
    forall a | At(i) <= a < At(i) + 32 ensures t[a] == s1[a] {}
  }

  lemma ReleaseServes(m: Mem, i: nat)
    requires Sized(m) && i < 32 && Placed(StreamAt(m.ram, i), i)
    ensures Serves(m, ShortRelease(m, i), i)
  {
    HandBackMine(m.ram, i);
    assert !Bit(0, 7);
  }

  lemma TerminalServes(m: Mem, rom: seq<byte>, i: nat)
    requires Sized(m) && i < 32 && Placed(StreamAt(m.ram, i), i)
    ensures Serves(m, ShortTerminal(m, rom, i), i)
  {
    var r := StreamAt(m.ram, i);
    if ShortTerminal(m, rom, i).Some? && !Gated(r, Midi7(m)) {
      var s := LastPage(m.ram, rom, i);
      TerminateServes(m.ram, s, m.scsp, i, r);
      FlagsAre80(r, Midi7(m));
    }
  }

  lemma FlagsAre80(r: Stream, midi7: bool)
    requires r.flags == 0x80 && Due(r) && !Gated(r, midi7) && r.remaining <= PAGE
    ensures Next(r, midi7) == Ended(r)
  {
    OrEight();
  }

  // The record after its last page.
  function Ended(r: Stream): Stream {
    if Bit(r.mode, 7) then r.(end := EndOffset(r), flags := 0)
    else r.(end := EndOffset(r), flags := 0x88, mode := U8(r.mode as int + 16))
  }

  lemma TerminateServes(s0: seq<byte>, s: seq<byte>, scsp: seq<byte>, i: nat, r: Stream)
    requires |s0| == |s| == RAM_BYTES && |scsp| == SCSP_BYTES && i < 32 && OnlyMine(s0, s, i)
    requires Placed(r, i) && r.flags == 0x80 && r.remaining <= PAGE && StreamAt(s, i) == r.(end := EndOffset(r))
    ensures SlotOk(r.slot)
    ensures var t := Terminate(s, scsp, i, r).ram;
            OnlyMine(s0, t, i) && StreamAt(t, i) == Ended(r) && Placed(StreamAt(t, i), i)
  {
    HandBackMine(s, i);
    if Bit(r.mode, 7) { TerminalReleases(s0, s, i, r); } else { TerminalArms(s0, s, i, r); }
  }

  lemma LastPage(s: seq<byte>, rom: seq<byte>, i: nat) returns (t: seq<byte>)
    requires |s| == RAM_BYTES && i < 32
    requires var r := StreamAt(s, i); Placed(r, i) && r.flags == 0x80 && PageOk(rom, r.src, Target(r))
    ensures var r := StreamAt(s, i);
            && t == PutEnd(CopyPage(s, rom, r.src, Target(r)), i, EndOffset(r))
            && |t| == RAM_BYTES && OnlyMine(s, t, i) && StreamAt(t, i) == r.(end := EndOffset(r))
  {
    var r := StreamAt(s, i);
    OrEight();
    TargetInWindow(r, i);
    CopyApart(s, rom, r.src, Target(r), i);
    t := PutEnd(CopyPage(s, rom, r.src, Target(r)), i, EndOffset(r));
    PutsEnd(CopyPage(s, rom, r.src, Target(r)), i, EndOffset(r));
  }

  lemma TerminalReleases(s0: seq<byte>, s: seq<byte>, i: nat, r: Stream)
    requires |s0| == |s| == RAM_BYTES && i < 32 && OnlyMine(s0, s, i) && Placed(r, i)
    requires StreamAt(s, i) == r.(end := EndOffset(r)) && SlotOk(2 * i)
    ensures OnlyMine(s0, HandBack(s, i, 2 * i), i)
    ensures SlotOk(2 * i) && StreamAt(HandBack(s, i, 2 * i), i) == r.(end := EndOffset(r), flags := 0)
    ensures Placed(StreamAt(HandBack(s, i, 2 * i), i), i)
  {
    HandBackMine(s, i);
  }

  lemma TerminalArms(s0: seq<byte>, s: seq<byte>, i: nat, r: Stream)
    requires |s0| == |s| == RAM_BYTES && i < 32 && OnlyMine(s0, s, i) && Placed(r, i)
    requires StreamAt(s, i) == r.(end := EndOffset(r)) && r.flags == 0x80 && r.remaining <= PAGE
    ensures var t := PutMode(PutFlags(s, i, Or(s[At(i)], 3)), i, U8(r.mode as int + 16));
            && OnlyMine(s0, t, i) && Placed(StreamAt(t, i), i)
            && StreamAt(t, i) == r.(end := EndOffset(r), flags := 0x88, mode := U8(r.mode as int + 16))
  {
    OrEight();
    assert s[At(i)] == StreamAt(s, i).flags;
    ArmedPlaced(r, i);
    ArmingStores(s, i, U8(r.mode as int + 16));
  }

  lemma ArmedPlaced(r: Stream, i: nat)
    requires i < 32 && Placed(r, i) && r.flags == 0x80 && r.remaining <= PAGE
    ensures Placed(r.(end := EndOffset(r), flags := 0x88, mode := U8(r.mode as int + 16)), i)
  {
    OrEight();
    assert U8(r.mode as int + 16) % 16 == 0 by {
      assert U8(r.mode as int + 16) == (if r.mode == 240 then 0 else r.mode + 16);
    }
  }

  // The two stores that arm a record.
  lemma ArmingStores(s: seq<byte>, i: nat, mode: byte)
    requires |s| == RAM_BYTES && i < 32 && s[At(i)] == 0x80
    ensures var t := PutMode(PutFlags(s, i, Or(s[At(i)], 3)), i, mode);
            OnlyMine(s, t, i) && StreamAt(t, i) == StreamAt(s, i).(flags := 0x88, mode := mode)
  {
    OrEight();
    PutsFlags(s, i, Or(s[At(i)], 3));
    PutsMode(PutFlags(s, i, Or(s[At(i)], 3)), i, mode);
  }

  lemma EmptyServes(m: Mem, i: nat)
    requires Sized(m) && i < 32 && Placed(StreamAt(m.ram, i), i)
    ensures Serves(m, EmptyDispatch(m, i), i)
  {
    PutsTimer(m.ram, i, NewTimer(StreamAt(m.ram, i)));
  }

  lemma WalkServes(m: Mem, rom: seq<byte>, i: nat)
    requires Sized(m) && i < 32 && Placed(StreamAt(m.ram, i), i)
    ensures Serves(m, WalkOne(m, rom, i), i)
  {
    FullServes(m, rom, i);
    LoopServes(m, rom, i);
    ReleaseServes(m, i);
    TerminalServes(m, rom, i);
    EmptyServes(m, i);
  }

  /** Ring confinement: a completed service keeps every record placed, writes nothing but its
      own record, its own 8 KiB window and its voice's flag and rate bytes, moves its record
      as Next says, and names slot (i + 1) mod 32 as the next one. */
  lemma WalkConfined(m: Mem, rom: seq<byte>, i: nat)
    requires Sized(m) && i < 32 && Walls(m.ram) && WalkOne(m, rom, i).Some?
    ensures var n := WalkOne(m, rom, i).value;
            && Walls(n.ram) && OnlyMine(m.ram, n.ram, i)
            && StreamAt(n.ram, i) == Next(StreamAt(m.ram, i), Midi7(m))
            && NextSlot(n, i) == (i + 1) % 32
  {
    WalkServes(m, rom, i);
    OthersPlaced(m.ram, WalkOne(m, rom, i).value.ram, i);
    SlotNamed(WalkOne(m, rom, i).value, i);
  }

  lemma OthersPlaced(s: seq<byte>, t: seq<byte>, i: nat)
    requires |s| == |t| == RAM_BYTES && i < 32 && Walls(s) && OnlyMine(s, t, i) && Placed(StreamAt(t, i), i)
    ensures Walls(t)
  {
    forall j | 0 <= j < 32 && j != i ensures Placed(StreamAt(t, j), j) {
      SameRecord(s, t, i, j);
    }
  }

  lemma SlotNamed(n: Mem, i: nat)
    requires Sized(n) && i < 32 && Placed(StreamAt(n.ram, i), i)
    ensures NextSlot(n, i) == (i + 1) % 32
  {
  }
}
