/** Whole runs of the stream walker: any sequence of visits to any records, with the SCSP
    status byte free to change between them. */
module WalkerRuns {
  import opened Bytes
  import opened SoundBoard
  import opened LoopLaw
  import opened Walker
  import opened WalkerTheory

  // One visit: the slot served and what SCSP 0x409 reads at that moment.
  datatype Visit = Visit(slot: nat, status: byte)

  function Seen(m: Mem, status: byte): (n: Mem)
    requires Sized(m)
    ensures Sized(n) && n.ram == m.ram
  {
    m.(scsp := m.scsp[0x409 := status])
  }

  // A refused service leaves the memory as it was.
  function Serve(m: Mem, rom: seq<byte>, w: Visit): (n: Mem)
    requires Sized(m) && w.slot < 32
    ensures Sized(n)
  {
    var s := Seen(m, w.status);
    if WalkOne(s, rom, w.slot).Some? then WalkOne(s, rom, w.slot).value else s
  }

  predicate Slotted(visits: seq<Visit>) {
    forall k :: 0 <= k < |visits| ==> visits[k].slot < 32
  }

  function WalkRun(m: Mem, rom: seq<byte>, visits: seq<Visit>): (n: Mem)
    requires Sized(m) && Slotted(visits)
    ensures Sized(n)
    decreases |visits|
  {
    if visits == [] then m else WalkRun(Serve(m, rom, visits[0]), rom, visits[1..])
  }

  lemma ServeConfined(m: Mem, rom: seq<byte>, w: Visit)
    requires Sized(m) && w.slot < 32 && Walls(m.ram)
    ensures var n := Serve(m, rom, w);
            && Walls(n.ram) && OnlyMine(m.ram, n.ram, w.slot)
            && (n.ram == m.ram || StreamAt(n.ram, w.slot) == Next(StreamAt(m.ram, w.slot), Bit(w.status, 7)))
  {
    var s := Seen(m, w.status);
    if WalkOne(s, rom, w.slot).Some? { WalkConfined(s, rom, w.slot); }
  }

  // A byte no visit of these slots may touch.
  predicate Foreign(visits: seq<Visit>, a: nat) {
    forall k :: 0 <= k < |visits| ==> !Mine(visits[k].slot, a)
  }

  /** Over every run the records stay placed, and a byte changes only if some visited slot
      owns it. */
  lemma {:induction false} RunConfined(m: Mem, rom: seq<byte>, visits: seq<Visit>, a: nat)
    requires Sized(m) && Slotted(visits) && Walls(m.ram) && a < RAM_BYTES
    ensures Walls(WalkRun(m, rom, visits).ram)
    ensures Foreign(visits, a) ==> WalkRun(m, rom, visits).ram[a] == m.ram[a]
    decreases |visits|
  {
    if visits != [] {
      ServeConfined(m, rom, visits[0]);
      assert Foreign(visits, a) ==> !Mine(visits[0].slot, a) && Foreign(visits[1..], a);
      RunConfined(Serve(m, rom, visits[0]), rom, visits[1..], a);
    }
  }

  // The 32 buffers are disjoint and lie above the ring, the counters and every table.
  lemma WindowsApart(i: nat, j: nat, a: nat)
    requires i < 32 && j < 32 && i != j && Window(i) <= a < Window(i) + 0x2000
    ensures !Mine(j, a) && a >= 0x1_0000 && a < RAM_BYTES
  {
  }

  // ------------------------------------------------------------ lifecycle

  /** The stored end offset is the page's place in the ring plus what was left. */
  lemma EndOffsetExact(r: Stream, i: nat)
    requires i < 32 && Placed(r, i) && Bit(r.flags, 7) && !Bit(r.flags, 3) && r.remaining <= PAGE
    ensures EndOffset(r) == 32 * r.mode + r.remaining <= 0x2000
  {
    TargetInWindow(r, i);
  }

  // Armed for release with end offset e, or already handed back.
  predicate Retired(r: Stream, e: word) {
    (Bit(r.flags, 7) && Bit(r.flags, 3) && r.end == e) || !Bit(r.flags, 7)
  }

  lemma RetiredServe(m: Mem, rom: seq<byte>, w: Visit, i: nat, e: word)
    requires Sized(m) && w.slot < 32 && i < 32 && Walls(m.ram) && Retired(StreamAt(m.ram, i), e)
    ensures Retired(StreamAt(Serve(m, rom, w).ram, i), e)
    ensures forall a :: Window(i) <= a < Window(i) + 0x2000 ==> Serve(m, rom, w).ram[a] == m.ram[a]
  {
    ServeConfined(m, rom, w);
    var n := Serve(m, rom, w);
    if w.slot == i {
      RetiredCopiesNothing(Seen(m, w.status), rom, i);
      assert !Bit(0, 7);
    } else {
      SameRecord(m.ram, n.ram, w.slot, i);
      forall a | Window(i) <= a < Window(i) + 0x2000 ensures n.ram[a] == m.ram[a] { WindowsApart(i, w.slot, a); }
    }
  }

  lemma RetiredCopiesNothing(m: Mem, rom: seq<byte>, i: nat)
    requires Sized(m) && i < 32 && Placed(StreamAt(m.ram, i), i)
    requires var r := StreamAt(m.ram, i); !Bit(r.flags, 7) || Bit(r.flags, 3)
    ensures WalkOne(m, rom, i).Some? ==>
              forall a :: 0x1_0000 <= a < RAM_BYTES ==> WalkOne(m, rom, i).value.ram[a] == m.ram[a]
  {
  }

  /** Once its release is armed a stream copies no further page, and its end offset stands
      until the hand-back, over every run of visits. */
  lemma {:induction false} ArmedNeverCopies(m: Mem, rom: seq<byte>, visits: seq<Visit>, i: nat, e: word)
    requires Sized(m) && Slotted(visits) && i < 32 && Walls(m.ram) && Retired(StreamAt(m.ram, i), e)
    ensures Retired(StreamAt(WalkRun(m, rom, visits).ram, i), e)
    ensures forall a :: Window(i) <= a < Window(i) + 0x2000 ==> WalkRun(m, rom, visits).ram[a] == m.ram[a]
    decreases |visits|
  {
    if visits != [] {
      RetiredServe(m, rom, visits[0], i, e);
      ServeConfined(m, rom, visits[0]);
      ArmedNeverCopies(Serve(m, rom, visits[0]), rom, visits[1..], i, e);
    }
  }

  /** The hand-back publishes the end offset: SCSP slot i receives it at +6, whether it was
      stored by the last page just now or by an earlier armed one. */
  lemma HandBackPublishes(m: Mem, rom: seq<byte>, i: nat)
    requires Sized(m) && i < 32 && Walls(m.ram) && WalkOne(m, rom, i).Some?
    requires ServedBy(StreamAt(m.ram, i), Midi7(m)) == Released
    ensures var r, n := StreamAt(m.ram, i), WalkOne(m, rom, i).value;
            && Be16(n.scsp, 32 * i + 6) == (if Bit(r.flags, 3) then r.end else 32 * r.mode + r.remaining)
            && StreamAt(n.ram, i).flags == 0 && StreamAt(n.ram, i).end == Be16(n.scsp, 32 * i + 6)
  {
    var r := StreamAt(m.ram, i);
    WalkConfined(m, rom, i);
    if Bit(r.flags, 3) {
      KeyEndStores(m.scsp, r.slot, m.scsp[16 * r.slot as int + 1], r.end);
      ExitKeeps(HandBack(m.ram, i, r.slot), KeyEnd(m.scsp, r.slot, m.scsp[16 * r.slot as int + 1], r.end), i);
      assert WalkOne(m, rom, i) == ShortRelease(m, i);
    } else {
      EndOffsetExact(r, i);
      TerminalPublishes(m, rom, i);
    }
  }

  lemma KeyEndStores(scsp: seq<byte>, n: byte, key: byte, end: word)
    requires |scsp| == SCSP_BYTES && SlotOk(n)
    ensures Be16(KeyEnd(scsp, n, key, end), 16 * n as int + 6) == end
  {
    PutGet16(scsp[16 * n as int + 1 := AndNot(AndNot(key, 5), 6)], 16 * n as int + 6, end);
  }

  lemma ExitKeeps(ram: seq<byte>, scsp: seq<byte>, i: nat)
    requires |ram| == RAM_BYTES && |scsp| == SCSP_BYTES && i < 32
    ensures Be16(Exit(ram, scsp, i).scsp, 32 * i + 6) == Be16(scsp, 32 * i + 6)
  {
  }

  lemma TerminalPublishes(m: Mem, rom: seq<byte>, i: nat)
    requires Sized(m) && i < 32 && Placed(StreamAt(m.ram, i), i)
    requires var r := StreamAt(m.ram, i); Bit(r.mode, 7) && !Gated(r, Midi7(m))
    ensures ShortTerminal(m, rom, i).Some? ==>
              Be16(ShortTerminal(m, rom, i).value.scsp, 32 * i + 6) == EndOffset(StreamAt(m.ram, i))
  {
    var r := StreamAt(m.ram, i);
    if ShortTerminal(m, rom, i).Some? {
      var s := PutEnd(CopyPage(m.ram, rom, r.src, Target(r)), i, EndOffset(r));
      KeyEndStores(m.scsp, r.slot, m.scsp[16 * r.slot as int + 1], EndOffset(r));
      ExitKeeps(HandBack(s, i, r.slot), KeyEnd(m.scsp, r.slot, m.scsp[16 * r.slot as int + 1], EndOffset(r)), i);
    }
  }

  // ------------------------------------------------------------ looping

  // The record a looping key-on leaves behind, given the sample, the rate and the ring base.
  function KeyOnLoop(r: Stream, x: Sample, rate: word, dst: long): Stream
    requires Fits(x) && dst + PAGE <= RAM_BYTES
  {
    r.(flags := 0x81, mode := 0x10, src := Seed(x).src, remaining := Seed(x).remaining, wr := dst + PAGE,
       loopSrc := x.loopStart, loopLen := x.loopLength, rate := rate, timer := U16(rate as int + 0xeba))
  }

  predicate Loops(r: Stream, x: Sample) {
    Bit(r.flags, 7) && Bit(r.flags, 0) && r.loopSrc == x.loopStart && r.loopLen == x.loopLength
  }

  /** The key-on seed starts the record on the ideal position after one page, wherever that page
      went, and leaves it placed exactly when the voice's sample long is the record's window. */
  lemma KeyOnSeedsLaw(r: Stream, x: Sample, rate: word, i: nat, dst: long)
    requires i < 32 && Placed(r, i) && Fits(x) && x.length > PAGE && x.loopLength >= PAGE && dst + PAGE <= RAM_BYTES
    ensures var s := KeyOnLoop(r, x, rate, dst);
            Loops(s, x) && Law(x, 1, Cursor(s.src, s.remaining)) && (Placed(s, i) <==> dst == Window(i))
  {
    LawHolds(x, 1);
    assert Bit(0x81, 7) && Bit(0x81, 0) && !Bit(0x81, 3);
  }

  function PagesOf(m: Mem, rom: seq<byte>, visits: seq<Visit>, i: nat): nat
    requires Sized(m) && Slotted(visits) && i < 32
    decreases |visits|
  {
    if visits == [] then 0
    else PageNow(m, rom, visits[0], i) + PagesOf(Serve(m, rom, visits[0]), rom, visits[1..], i)
  }

  // 1 when this visit copies a page for record i and the stream goes on.
  function PageNow(m: Mem, rom: seq<byte>, w: Visit, i: nat): nat
    requires Sized(m) && w.slot < 32 && i < 32
  {
    if w.slot == i && WalkOne(Seen(m, w.status), rom, i).Some?
       && ServedBy(StreamAt(m.ram, i), Bit(w.status, 7)).Paged? then 1 else 0
  }

  lemma LoopServe(m: Mem, rom: seq<byte>, w: Visit, i: nat, x: Sample, k: nat)
    requires Sized(m) && w.slot < 32 && i < 32 && Walls(m.ram)
    requires Fits(x) && x.loopLength >= PAGE
    requires var r := StreamAt(m.ram, i); Loops(r, x) && Law(x, k, Cursor(r.src, r.remaining))
    ensures var r := StreamAt(Serve(m, rom, w).ram, i);
            Loops(r, x) && Law(x, k + PageNow(m, rom, w, i), Cursor(r.src, r.remaining))
  {
    var s := Seen(m, w.status);
    if w.slot == i {
      if WalkOne(s, rom, i).Some? {
        LoopServeKeepsLaw(StreamAt(m.ram, i), x, k, Bit(w.status, 7));
        WalkConfined(s, rom, i);
      }
    } else {
      ServeConfined(m, rom, w);
      SameRecord(m.ram, Serve(m, rom, w).ram, w.slot, i);
    }
  }

  lemma LoopServeKeepsLaw(r: Stream, x: Sample, k: nat, midi7: bool)
    requires Fits(x) && x.loopLength >= PAGE && Loops(r, x) && Law(x, k, Cursor(r.src, r.remaining))
    ensures var s := Next(r, midi7);
            var d := if ServedBy(r, midi7).Paged? then 1 else 0;
            Loops(s, x) && Law(x, k + d, Cursor(s.src, s.remaining))
  {
    PageKeepsLaw(x, k, Cursor(r.src, r.remaining));
  }

  /** For every interleaving of walker visits, after k pages of a looping stream its source is
      the ideal looped position of byte 512k and source plus remaining is the end of the
      current pass. */
  lemma {:induction false} LoopRun(m: Mem, rom: seq<byte>, visits: seq<Visit>, i: nat, x: Sample, k: nat)
    requires Sized(m) && Slotted(visits) && i < 32 && Walls(m.ram)
    requires Fits(x) && x.loopLength >= PAGE
    requires var r := StreamAt(m.ram, i); Loops(r, x) && Law(x, k, Cursor(r.src, r.remaining))
    ensures var r := StreamAt(WalkRun(m, rom, visits).ram, i);
            Loops(r, x) && Law(x, k + PagesOf(m, rom, visits, i), Cursor(r.src, r.remaining))
    decreases |visits|
  {
    if visits != [] {
      LoopServe(m, rom, visits[0], i, x, k);
      ServeConfined(m, rom, visits[0]);
      LoopRun(Serve(m, rom, visits[0]), rom, visits[1..], i, x, k + PageNow(m, rom, visits[0], i));
    }
  }

  // Both passes of the sample lie in sample ROM with a page to spare.
  predicate InRom(x: Sample, rom: seq<byte>) {
    && ROM_BASE <= x.start && x.start + x.length + PAGE <= ROM_BASE + |rom|
    && ROM_BASE <= x.loopStart && x.loopStart + x.loopLength + PAGE <= ROM_BASE + |rom|
  }

  lemma PageAccepted(x: Sample, rom: seq<byte>, k: nat, dst: long)
    requires Fits(x) && x.length > PAGE && x.loopLength >= PAGE && InRom(x, rom) && k >= 1
    requires dst % 2 == 0 && dst + PAGE <= RAM_BYTES
    ensures PageOk(rom, AfterPages(x, k).src, dst) <==> AfterPages(x, k).src % 2 == 0
  {
    LawHolds(x, k);
  }

  lemma LoopTarget(r: Stream, x: Sample, i: nat)
    requires i < 32 && Placed(r, i) && Loops(r, x)
    ensures Target(r) % 2 == 0 && Target(r) + PAGE <= RAM_BYTES
  {
    TargetInWindow(r, i);
  }

  /** The copy accepts every page of a looping sample inside ROM exactly when they all start at even
      addresses. */
  lemma PagesCopied(x: Sample, rom: seq<byte>, r: Stream, i: nat)
    requires Fits(x) && x.length > PAGE && x.loopLength >= PAGE && InRom(x, rom)
    requires i < 32 && Placed(r, i) && Loops(r, x)
    ensures (forall k: nat :: k >= 1 ==> PageOk(rom, AfterPages(x, k).src, Target(r))) <==> Even(x)
  {
    LoopTarget(r, x, i);
    SourcesEvenExact(x);
    var dst := Target(r);
    forall k: nat | k >= 1 ensures PageOk(rom, AfterPages(x, k).src, dst) <==> AfterPages(x, k).src % 2 == 0 {
      PageAccepted(x, rom, k, dst);
    }
  }
}
