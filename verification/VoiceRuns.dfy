/** Whole runs of the ledger: every reachable state satisfies the invariant, drums stay at
    five or fewer, and stealing takes the oldest voice of its class. */
module VoiceRuns {
  import opened Bytes
  import opened VoiceLedger
  import VL = VoiceLedger
  import opened VoiceTheory
  import FS = FullStop

  datatype Op =
    | Maintain                                            // the L1 voice interrupt
    | KeyUp(r: Request, deferred: bool)                   // an 0x80 command
    | KeyDown(r: Request, t: Tail, admitted: bool, past: Past)  // a 0x90 command
    | AuthorAt(i: nat, r: Request, t: Tail)               // the setup author, called for a voice
    | FullStop                                            // the B0/50 7F command
    | StreamArm(i: nat)                                   // the walker's last page
    | StreamEnd(i: nat)                                   // the walker's release
    | ChipWrites(c: seq<byte>)                            // whatever else writes the chip

  function KeyDownStep(l: Ledger, r: Request, t: Tail, admitted: bool, past: Past): (m: Ledger)
    requires Shape(l)
    ensures Shape(m)
  {
    if r.high then LoopB(l, r, t, admitted, past) else Allocate(l, r, t, admitted, past)
  }

  function Apply(l: Ledger, op: Op): (m: Ledger)
    requires Shape(l)
    ensures Shape(m)
  {
    match op
    case Maintain => VL.Maintain(l)
    case KeyUp(r, deferred) => ReleaseFrom(l, 0, r, deferred)
    case KeyDown(r, t, admitted, past) => KeyDownStep(l, r, t, admitted, past)
    case AuthorAt(i, r, t) =>
      if i < 32 then Author(l, i, r, t) else l
    case FullStop => FS.StopFrom(l, 0)
    case StreamArm(i) =>
      if i < 32 && Bit(l.streams[i], 7) then WalkerArm(l, i) else l
    case StreamEnd(i) =>
      if i < 32 && Bit(l.streams[i], 7) then WalkerRelease(l, i) else l
    case ChipWrites(c) =>
      if |c| == CHIP_BYTES then l.(chip := c) else l
  }

  function Run(l: Ledger, ops: seq<Op>): (m: Ledger)
    requires Shape(l)
    ensures Shape(m)
    decreases |ops|
  {
    if ops == [] then l else Run(Apply(l, ops[0]), ops[1..])
  }

  ghost predicate Good(l: Ledger) { Inv(l) && l.drums <= 5 }

  ghost predicate NormalRankTaken(l: Ledger, k: nat)
    requires Shape(l)
  {
    exists i :: 0 <= i < 32 && Normal(l.v[i]) && l.v[i].age == k
  }

  ghost predicate DrumRankTaken(l: Ledger, k: nat)
    requires Shape(l)
  {
    exists i :: 0 <= i < 32 && Drum(l.v[i]) && l.v[i].rank5 == k
  }

  // ------------------------------------------------------------ the reaper

  /** With every voice busy and at most five drums the scan for age 0 cannot run out: it
      finds the head of the normal queue. */
  lemma ReaperFindsHead(l: Ledger)
    requires Good(l) && forall j :: 0 <= j < 32 ==> Live(l.v[j])
    ensures var i := FirstAgeZero(l.v, 0); i < 32 && Normal(l.v[i]) && Play(l.log).normal[0] == i
  {
    BusyBoardHasNormal(l);
    var head := Play(l.log).normal[0];
    assert l.v[head].age == 0;
    var i := FirstAgeZero(l.v, 0);
    assert VoiceOk(l.v[i]);
  }

  lemma ReapKeeps(l: Ledger, r: Request, t: Tail)
    requires Inv(l) && forall j :: 0 <= j < 32 ==> Live(l.v[j])
    ensures Inv(Reap(l, r, t))
    ensures Reap(l, r, t).drums == if FirstAgeZero(l.v, 0) < 32 && AsksForDrum(r) then U8(l.drums + 1) else l.drums
  {
    ReapInv(l, r, t);
    ReapDrums(l, r, t);
  }

  lemma ReapInv(l: Ledger, r: Request, t: Tail)
    requires Inv(l) && forall j :: 0 <= j < 32 ==> Live(l.v[j])
    ensures Inv(Reap(l, r, t))
  {
    var i := FirstAgeZero(l.v, 0);
    if i < 32 {
      StealNormalIsDrop(l, i);
      DropNormalKeeps(l, i);
      AuthorKeeps(StealNormal(l, i), i, r, t);
    }
  }

  lemma ReapDrums(l: Ledger, r: Request, t: Tail)
    requires Shape(l)
    ensures Reap(l, r, t).drums == if FirstAgeZero(l.v, 0) < 32 && AsksForDrum(r) then U8(l.drums + 1) else l.drums
  {
  }

  /** Exactly when the reaper keeps the ledger: with an idle voice on the board its sweep
      would turn idle age 0 into 0xff. */
  lemma ReapExact(l: Ledger, r: Request, t: Tail)
    requires Inv(l)
    ensures Inv(Reap(l, r, t)) <==> forall j :: 0 <= j < 32 ==> Live(l.v[j])
  {
    if forall j :: 0 <= j < 32 ==> Live(l.v[j]) {
      ReapKeeps(l, r, t);
    } else {
      var k :| 0 <= k < 32 && !Live(l.v[k]);
      assert VoiceOk(l.v[k]);
      var i := FirstAgeZero(l.v, 0);
      ReapBreaks(l, r, t, i);
    }
  }

  lemma ReapBreaks(l: Ledger, r: Request, t: Tail, i: nat)
    requires Inv(l) && exists k :: 0 <= k < 32 && !Live(l.v[k])
    requires i == FirstAgeZero(l.v, 0) && i < 32
    ensures !Inv(Reap(l, r, t))
  {
    if k :| 0 <= k < 32 && k != i && !Live(l.v[k]) {
      ReapMarksIdle(l, r, t, i, k);
    } else if z :| 0 <= z < 32 && z != i && l.v[z].age == 0 {
      ReapWrapsHead(l, r, t, i, z);
    } else {
      ReapWrapsCount(l, r, t, i);
    }
  }

  // Another idle voice would be left with age 0xff.
  lemma ReapMarksIdle(l: Ledger, r: Request, t: Tail, i: nat, k: nat)
    requires Inv(l) && i == FirstAgeZero(l.v, 0) && i < 32 && k < 32 && k != i && !Live(l.v[k])
    ensures !Inv(Reap(l, r, t))
  {
    var s, m := StealNormal(l, i), Reap(l, r, t);
    assert VoiceOk(l.v[k]);
    assert m.v[k] == s.v[k] && s.v[k].age == 255 && !VoiceOk(m.v[k]);
  }

  // The normal of rank 0 would be left with age 0xff.
  lemma ReapWrapsHead(l: Ledger, r: Request, t: Tail, i: nat, z: nat)
    requires Inv(l) && i == FirstAgeZero(l.v, 0) && i < 32 && z < 32 && z != i && l.v[z].age == 0
    ensures !Inv(Reap(l, r, t))
  {
    var s, m := StealNormal(l, i), Reap(l, r, t);
    assert VoiceOk(l.v[z]);
    assert m.v[z] == s.v[z] && s.v[z].age == 255 && m.v[z].flags == l.v[z].flags;
    assert !VoiceOk(m.v[z]);
  }

  lemma LowestRankTaken(l: Ledger)
    requires Inv(l)
    ensures l.normals > 0 ==> NormalRankTaken(l, 0)
  {
    if l.normals > 0 { assert Normal(l.v[Play(l.log).normal[0]]); }
  }

  // With no normal voice at all the counter itself would wrap.
  lemma ReapWrapsCount(l: Ledger, r: Request, t: Tail, i: nat)
    requires Inv(l) && i == FirstAgeZero(l.v, 0) && i < 32 && !Live(l.v[i])
    requires forall z :: 0 <= z < 32 && z != i ==> l.v[z].age != 0
    ensures !Inv(Reap(l, r, t))
  {
    NotQueuedNormal(l, i);
    LowestRankTaken(l);
    assert Play(l.log).normal == [];
    ReapPlays(l, r, t, i);
  }

  lemma ReapPlays(l: Ledger, r: Request, t: Tail, i: nat)
    requires Shape(l) && i == FirstAgeZero(l.v, 0) && i < 32 && Play(l.log).normal == []
    ensures |Play(Reap(l, r, t).log).normal| == if AsksForDrum(r) then 0 else 1
  {
    PlayAppend(l.log, Off(i));
    PlayAppend(StealNormal(l, i).log, if AsksForDrum(r) then OnDrum(i) else OnNormal(i));
  }

  // ------------------------------------------------------------ Loop-B and the allocator

  /** At five drums the Loop-B scan cannot miss: it finds the head of the drum queue. */
  lemma LoopBFindsHead(l: Ledger)
    requires Inv(l) && l.drums >= 5
    ensures var i := FirstDrumHead(l.v, 0); i < 32 && Drum(l.v[i]) && Play(l.log).drum[0] == i
  {
    var head := Play(l.log).drum[0];
    assert VoiceOk(l.v[head]) && l.v[head].age == 255 && l.v[head].rank5 == 0;
    var i := FirstDrumHead(l.v, 0);
    assert VoiceOk(l.v[i]);
  }

  predicate AllLive(l: Ledger)
    requires Shape(l)
  {
    forall j :: 0 <= j < 32 ==> Live(l.v[j])
  }

  // The allocator's scan finds no record that looks free.
  predicate Exhausted(l: Ledger, past: Past)
    requires Shape(l)
  {
    Scan(Wrapped(l), past, 0) == 32
  }

  /** The scan is exhausted exactly when the voices from the cursor on are live, the records it
      reads past the table look busy, and all of them lie inside RAM. */
  lemma ExhaustedExact(l: Ledger, past: Past)
    requires Shape(l)
    ensures var n := Wrapped(l).next;
            Exhausted(l, past) <==>
              && (forall j :: n <= j < 32 ==> Live(l.v[j]))
              && (forall i :: 0 <= i < 32 && n + i >= 32 ==> past[i] != 0)
              && RecordAt(n + 31) + 2 < MEMORY
  {
    var w := Wrapped(l);
    ScanExact(w, past, 0);
    if Exhausted(l, past) {
      AllBusy(w, past);
      assert FlagsAt(w, past, 31) != 0;
    }
  }

  lemma AllBusy(l: Ledger, past: Past)
    requires Shape(l) && forall k :: 0 <= k < 32 ==> FlagsAt(l, past, k) != 0
    ensures forall j :: l.next <= j < 32 ==> Live(l.v[j])
    ensures forall i :: 0 <= i < 32 && l.next + i >= 32 ==> past[i] != 0
  {
    forall j | l.next <= j < 32 ensures Live(l.v[j]) { assert FlagsAt(l, past, j - l.next) == l.v[j].flags; }
    forall i | 0 <= i < 32 && l.next + i >= 32 ensures past[i] != 0 { assert FlagsAt(l, past, i) == past[i]; }
  }

  lemma {:induction false} ScanExact(l: Ledger, past: Past, i: nat)
    requires Shape(l) && i <= 32
    ensures Scan(l, past, i) == 32 <==>
              forall k :: i <= k < 32 ==> FlagsAt(l, past, k) != 0 && RecordAt(l.next + k) + 2 < MEMORY
    decreases 32 - i
  {
    if i < 32 { ScanExact(l, past, i + 1); }
  }

  /** From the table's start the scan covers exactly the table. */
  lemma ExhaustedAtStart(l: Ledger, past: Past)
    requires Shape(l) && (l.next == 0 || l.next == 32)
    ensures Exhausted(l, past) <==> AllLive(l)
  {
    ExhaustedExact(l, past);
  }

  lemma NextKeeps(l: Ledger, n: nat)
    requires Inv(l)
    ensures Inv(l.(next := n))
  {
    assert Play(l.(next := n).log) == Play(l.log);
  }

  // A scan that stops short authors voice 0 when it is idle, or nothing.
  lemma FoundKeeps(l: Ledger, r: Request, t: Tail, admitted: bool, past: Past)
    requires Inv(l) && !Exhausted(l, past)
    ensures Inv(Allocate(l, r, t, admitted, past))
  {
    var w := Wrapped(l);
    NextKeeps(l, w.next);
    var i := Scan(w, past, 0);
    var n := w.(next := w.next + i + 1);
    NextKeeps(w, w.next + i + 1);
    if w.next + i == 0 {
      assert FlagsAt(w, past, 0) == 0;
      IdleBlank(n, 0);
      AuthorKeeps(n, 0, r, t);
    }
  }

  /** The allocator keeps the ledger exactly when no scan that starts inside the table, or past
      it, runs out of records while a voice is idle: the reaper assumes a full board. */
  lemma AllocateExact(l: Ledger, r: Request, t: Tail, admitted: bool, past: Past)
    requires Inv(l)
    ensures Inv(Allocate(l, r, t, admitted, past)) <==> (Exhausted(l, past) ==> AllLive(l))
  {
    if Exhausted(l, past) {
      NextKeeps(l, Wrapped(l).next);
      ReapExact(Wrapped(l), r, t);
    } else {
      FoundKeeps(l, r, t, admitted, past);
    }
  }

  lemma AllocateDrums(l: Ledger, r: Request, t: Tail, admitted: bool, past: Past)
    requires Shape(l)
    requires l.drums <= 5 && (AsksForDrum(r) ==> l.drums < 5)
    ensures Allocate(l, r, t, admitted, past).drums <= 5
  {
    var w := Wrapped(l);
    var i := Scan(w, past, 0);
    if i == 32 {
      ReapDrums(w, r, t);
    } else {
      AuthorDrums(w.(next := w.next + i + 1), r, t);
    }
  }

  lemma AuthorDrums(l: Ledger, r: Request, t: Tail)
    requires Shape(l) && l.drums <= 5 && (AsksForDrum(r) ==> l.drums < 5)
    ensures Author(l, 0, r, t).drums <= 5
  {
  }

  /** With the five-drum limit, which Loop-B's count test guards. */
  lemma AllocateKeeps(l: Ledger, r: Request, t: Tail, admitted: bool, past: Past)
    requires Good(l) && (AsksForDrum(r) ==> l.drums < 5)
    ensures Good(Allocate(l, r, t, admitted, past)) <==> (Exhausted(l, past) ==> AllLive(l))
  {
    AllocateExact(l, r, t, admitted, past);
    AllocateDrums(l, r, t, admitted, past);
    GoodIs(Allocate(l, r, t, admitted, past));
  }

  lemma GoodIs(l: Ledger)
    requires l.drums <= 5
    ensures Good(l) <==> Inv(l)
  {
  }

  // Loop-B's scan for a drum head, or the allocator it enters, meets what it assumes.
  predicate LoopBCalm(l: Ledger, r: Request, past: Past)
    requires Shape(l)
  {
    LoopBSteals(l, r) || (Exhausted(LoopBEntry(l, r), past) ==> AllLive(LoopBEntry(l, r)))
  }

  lemma StealKeeps(l: Ledger, r: Request, t: Tail)
    requires Good(l) && LoopBSteals(l, r) && r.high
    ensures var i := FirstDrumHead(l.v, 0); Good(Author(StealDrum(l, i), i, r, t))
  {
    LoopBFindsHead(l);
    var i := FirstDrumHead(l.v, 0);
    StealDrumIsDrop(l, i);
    DropDrumKeeps(l, i);
    var d := DropDrum(l, i);
    TouchKeeps(d, i, d.v[i].(rank5 := 4));
    ChipKeeps(d.(v := d.v[i := d.v[i].(rank5 := 4)]), KeyOff(l.chip, i));
    AuthorKeeps(StealDrum(l, i), i, r, t);
  }

  lemma LoopBEntryKeeps(l: Ledger, r: Request)
    requires Good(l) && r.high && !LoopBSteals(l, r)
    ensures Good(LoopBEntry(l, r)) && (AsksForDrum(r) ==> LoopBEntry(l, r).drums < 5)
  {
    SetupScanKeeps(l, 0);
    if r.channel != 15 && l.drums >= 5 { LoopBFindsHead(l); }
  }

  /** Loop-B keeps the ledger exactly when it steals or the allocator it enters does. */
  lemma LoopBKeeps(l: Ledger, r: Request, t: Tail, admitted: bool, past: Past)
    requires Good(l) && r.high
    ensures Good(LoopB(l, r, t, admitted, past)) <==> LoopBCalm(l, r, past)
  {
    if LoopBSteals(l, r) {
      StealKeeps(l, r, t);
    } else {
      var m := LoopBEntry(l, r);
      LoopBEntryKeeps(l, r);
      AllocateKeeps(m, r, t, admitted, past);
      assert LoopB(l, r, t, admitted, past) == Allocate(m, r, t, admitted, past);
    }
  }

  // ------------------------------------------------------------ the author called for a voice

  /** Exactly when authoring a voice keeps the ledger: when the voice is idle. One that sounds would
      stand in the queues twice. */
  lemma AuthorExact(l: Ledger, i: nat, r: Request, t: Tail)
    requires Inv(l) && i < 32
    ensures Inv(Author(l, i, r, t)) <==> !Live(l.v[i])
  {
    if Live(l.v[i]) {
      AuthorTwice(l, i, r, t);
    } else {
      IdleBlank(l, i);
      AuthorKeeps(l, i, r, t);
    }
  }

  lemma AuthorTwice(l: Ledger, i: nat, r: Request, t: Tail)
    requires Inv(l) && i < 32 && Live(l.v[i])
    ensures !Inv(Author(l, i, r, t))
  {
    var q, m := Play(l.log), Author(l, i, r, t);
    PlayAppend(l.log, if AsksForDrum(r) then OnDrum(i) else OnNormal(i));
    if Drum(l.v[i]) { QueuedTwice(q.drum, l.v[i].rank5, i, m); } else { QueuedTwice(q.normal, l.v[i].age, i, m); }
  }

  // A voice already in one queue cannot be in a second place as well.
  lemma QueuedTwice(n: seq<nat>, k: nat, i: nat, m: Ledger)
    requires k < |n| && n[k] == i < 32 && Shape(m)
    requires var q := Play(m.log);
             || q.normal == n + [i]
             || q.drum == n + [i]
             || (n <= q.normal && q.drum != [] && q.drum[|q.drum| - 1] == i)
             || (n <= q.drum && q.normal != [] && q.normal[|q.normal| - 1] == i)
    ensures !Inv(m)
  {
    var q := Play(m.log);
    assert q.normal == n + [i] ==> q.normal[k] == q.normal[|n|] == i;
    assert q.drum == n + [i] ==> q.drum[k] == q.drum[|n|] == i;
    assert n <= q.normal ==> q.normal[k] == i;
    assert n <= q.drum ==> q.drum[k] == i;
  }

  lemma AuthorCountsDrum(l: Ledger, i: nat, r: Request, t: Tail)
    requires Shape(l) && i < 32 && l.drums <= 5
    ensures Author(l, i, r, t).drums <= 5 <==> (AsksForDrum(r) ==> l.drums < 5)
  {
  }

  // ------------------------------------------------------------ drums never grow elsewhere

  lemma DropDrums(l: Ledger, i: nat)
    requires Inv(l) && i < 32 && Live(l.v[i])
    ensures Drop(l, i).drums <= l.drums
  {
    if Drum(l.v[i]) { assert Play(l.log).drum[l.v[i].rank5] == i; }
  }

  lemma {:induction false} MaintainDrums(l: Ledger, i: nat)
    requires Inv(l) && i <= 32
    ensures MaintainFrom(l, i).drums <= l.drums
    decreases 32 - i
  {
    if i < 32 {
      MaintainOneKeeps(l, i);
      MaintainOneDrums(l, i);
      MaintainDrums(MaintainOne(l, i), i + 1);
    }
  }

  lemma MaintainOneDrums(l: Ledger, i: nat)
    requires Inv(l) && i < 32
    ensures MaintainOne(l, i).drums <= l.drums
  {
    if Bit(l.v[i].flags, 0) {
      CountDownKeeps(l, i);
      if CountDown(l, i).v[i].rate == 0 { DropDrums(CountDown(l, i), i); }
    }
  }

  lemma ReleaseOneDrums(l: Ledger, i: nat, r: Request, deferred: bool)
    requires Inv(l) && i < 32
    ensures ReleaseOne(l, i, r, deferred).drums <= l.drums
  {
    var y := l.v[i].(flags := AndNot(l.v[i].flags, 7));
    AndNotStanding(l.v[i], 7);
    TouchKeeps(l, i, y);
    if y.flags != 0 && !deferred && y.rate == 0 { DropDrums(l.(v := l.v[i := y]), i); }
  }

  lemma {:induction false} ReleaseDrums(l: Ledger, i: nat, r: Request, deferred: bool)
    requires Inv(l) && i <= 32
    ensures ReleaseFrom(l, i, r, deferred).drums <= l.drums
    decreases 32 - i
  {
    if i < 32 {
      ReleaseOneKeeps(l, i, r, deferred);
      ReleaseOneDrums(l, i, r, deferred);
      ReleaseDrums(ReleaseOne(l, i, r, deferred), i + 1, r, deferred);
    }
  }

  lemma WalkerReleaseKeeps(l: Ledger, i: nat)
    requires Inv(l) && i < 32 && Bit(l.streams[i], 7)
    ensures Inv(WalkerRelease(l, i)) && WalkerRelease(l, i).drums == l.drums
  {
    var x, y := l.v[i], WalkerRelease(l, i).v[i];
    OrStanding(x, 0);
    TouchKeeps(l, i, y);
    var m := l.(v := l.v[i := y]);
    StreamsKeep(m, m.streams[i := 0]);
  }

  lemma StreamsKeep(l: Ledger, s: seq<byte>)
    requires Inv(l) && |s| == 32
    requires forall j :: 0 <= j < 32 && Bit(s[j], 7) ==> Bit(l.streams[j], 7)
    ensures Inv(l.(streams := s))
  {
  }

  // ------------------------------------------------------------ runs

  // A key-down's allocator scan, if it runs out of records, finds the board full; a voice is
  // authored while idle, below the five-drum limit; a full stop comes when no drum sounds.
  predicate Calm(l: Ledger, op: Op)
    requires Shape(l)
  {
    match op
    case KeyDown(r, t, admitted, past) =>
      if r.high then LoopBCalm(l, r, past) else Exhausted(l, past) ==> AllLive(l)
    case AuthorAt(i, r, t) => i < 32 ==> !Live(l.v[i]) && (AsksForDrum(r) ==> l.drums < 5)
    case FullStop => FS.Drumless(l)
    case _ => true
  }

  /** Every path keeps the ledger and the five-drum limit exactly when it is calm. */
  lemma ApplyExact(l: Ledger, op: Op)
    requires Good(l)
    ensures Good(Apply(l, op)) <==> Calm(l, op)
  {
    match op
    case Maintain =>
      MaintainKeeps(l);
      ChipKeeps(l, VoicePokes(l.chip));
      MaintainDrums(l.(chip := VoicePokes(l.chip)), 0);
    case KeyUp(r, deferred) => ReleaseKeeps(l, 0, r, deferred); ReleaseDrums(l, 0, r, deferred);
    case KeyDown(r, t, admitted, past) =>
      if r.high {
        LoopBKeeps(l, r, t, admitted, past);
      } else {
        AllocateKeeps(l, r, t, admitted, past);
      }
    case AuthorAt(i, r, t) =>
      if i < 32 {
        AuthorExact(l, i, r, t);
        AuthorCountsDrum(l, i, r, t);
      }
    case FullStop => FS.FullStopExact(l);
    case StreamArm(i) =>
      if i < 32 && Bit(l.streams[i], 7) { StreamsKeep(l, l.streams[i := Or(l.streams[i], 3)]); }
    case StreamEnd(i) =>
      if i < 32 && Bit(l.streams[i], 7) { WalkerReleaseKeeps(l, i); }
    case ChipWrites(c) =>
      if |c| == CHIP_BYTES { ChipKeeps(l, c); }
  }

  predicate CalmRun(l: Ledger, ops: seq<Op>)
    requires Shape(l)
    decreases |ops|
  {
    ops == [] || (Calm(l, ops[0]) && CalmRun(Apply(l, ops[0]), ops[1..]))
  }

  /** Over every calm run of the paths and the walker's hand-backs the age bytes stay the
      positions in the two queues of the history, and at most five drums are live. */
  lemma {:induction false} RunKeeps(l: Ledger, ops: seq<Op>)
    requires Good(l) && CalmRun(l, ops)
    ensures Good(Run(l, ops))
    decreases |ops|
  {
    if ops != [] {
      ApplyExact(l, ops[0]);
      RunKeeps(Apply(l, ops[0]), ops[1..]);
    }
  }

  lemma {:induction false} CalmPrefix(l: Ledger, ops: seq<Op>, k: nat)
    requires Shape(l) && CalmRun(l, ops) && k <= |ops|
    ensures CalmRun(l, ops[..k])
    decreases |ops|
  {
    if k > 0 {
      CalmPrefix(Apply(l, ops[0]), ops[1..], k - 1);
      assert ops[..k][0] == ops[0] && ops[..k][1..] == ops[1..][..k - 1];
    }
  }

  lemma RunStep(l: Ledger, ops: seq<Op>, k: nat)
    requires Shape(l) && k < |ops|
    ensures Run(l, ops[..k + 1]) == Run(Apply(l, ops[0]), ops[1..][..k])
  {
    assert ops[..k + 1][0] == ops[0] && ops[..k + 1][1..] == ops[1..][..k];
  }

  // How far a run that is not calm gets before it spoils the ledger.
  lemma {:induction false} CalmBreaks(l: Ledger, ops: seq<Op>) returns (k: nat)
    requires Good(l) && !CalmRun(l, ops)
    ensures k <= |ops| && !Good(Run(l, ops[..k]))
    decreases |ops|
  {
    var m := Apply(l, ops[0]);
    ApplyExact(l, ops[0]);
    if Good(m) {
      var j := CalmBreaks(m, ops[1..]);
      RunStep(l, ops, j);
      k := j + 1;
    } else {
      RunStep(l, ops, 0);
      assert Run(m, ops[1..][..0]) == m;
      k := 1;
    }
  }

  /** The calm runs are exactly those that keep the ledger at every step. */
  lemma RunExact(l: Ledger, ops: seq<Op>)
    requires Good(l)
    ensures CalmRun(l, ops) <==> forall k :: 0 <= k <= |ops| ==> Good(Run(l, ops[..k]))
  {
    if CalmRun(l, ops) {
      forall k | 0 <= k <= |ops| ensures Good(Run(l, ops[..k])) {
        CalmPrefix(l, ops, k);
        RunKeeps(l, ops[..k]);
      }
    } else {
      var k := CalmBreaks(l, ops);
    }
  }

  // ------------------------------------------------------------ what the invariant says

  /** The ranks of each class are a bijection onto 0..counter-1, and lower means keyed on
      earlier. */
  lemma RanksAreBijections(l: Ledger)
    requires Inv(l)
    ensures forall i :: 0 <= i < 32 && Normal(l.v[i]) ==> l.v[i].age < l.normals
    ensures forall i :: 0 <= i < 32 && Drum(l.v[i]) ==> l.v[i].rank5 < l.drums
    ensures forall k: nat :: k < l.normals ==> NormalRankTaken(l, k)
    ensures forall k: nat :: k < l.drums ==> DrumRankTaken(l, k)
    ensures forall i, j :: 0 <= i < 32 && 0 <= j < 32 && Normal(l.v[i]) && Normal(l.v[j]) ==>
              (l.v[i].age < l.v[j].age <==> LastOn(l.log, i) < LastOn(l.log, j))
    ensures forall i, j :: 0 <= i < 32 && 0 <= j < 32 && Drum(l.v[i]) && Drum(l.v[j]) ==>
              (l.v[i].rank5 < l.v[j].rank5 <==> LastOn(l.log, i) < LastOn(l.log, j))
  {
    var q := Play(l.log);
    forall i, j | 0 <= i < 32 && 0 <= j < 32 && Normal(l.v[i]) && Normal(l.v[j])
      ensures l.v[i].age < l.v[j].age <==> LastOn(l.log, i) < LastOn(l.log, j)
    {
      assert q.normal[l.v[i].age] == i && q.normal[l.v[j].age] == j;
    }
    forall i, j | 0 <= i < 32 && 0 <= j < 32 && Drum(l.v[i]) && Drum(l.v[j])
      ensures l.v[i].rank5 < l.v[j].rank5 <==> LastOn(l.log, i) < LastOn(l.log, j)
    {
      assert q.drum[l.v[i].rank5] == i && q.drum[l.v[j].rank5] == j;
    }
    forall k: nat | k < l.normals ensures NormalRankTaken(l, k) {
      assert Normal(l.v[q.normal[k]]);
    }
    forall k: nat | k < l.drums ensures DrumRankTaken(l, k) {
      assert Drum(l.v[q.drum[k]]);
    }
  }

  /** Stealing takes the oldest: the voice the reaper (every voice busy) or Loop-B (five
      drums) re-keys was keyed on before every other voice of its class. */
  lemma StealsTheOldest(l: Ledger)
    requires Good(l)
    ensures (forall j :: 0 <= j < 32 ==> Live(l.v[j])) ==>
              var i := FirstAgeZero(l.v, 0);
              i < 32 && Normal(l.v[i])
              && forall j :: 0 <= j < 32 && j != i && Normal(l.v[j]) ==> LastOn(l.log, i) < LastOn(l.log, j)
    ensures l.drums >= 5 ==>
              var i := FirstDrumHead(l.v, 0);
              i < 32 && Drum(l.v[i])
              && forall j :: 0 <= j < 32 && j != i && Drum(l.v[j]) ==> LastOn(l.log, i) < LastOn(l.log, j)
  {
    RanksAreBijections(l);
    if forall j :: 0 <= j < 32 ==> Live(l.v[j]) {
      ReaperFindsHead(l);
      var i := FirstAgeZero(l.v, 0);
      forall j: nat | j < 32 && Normal(l.v[j]) ensures j == i || LastOn(l.log, i) < LastOn(l.log, j) {
        if l.v[j].age == 0 { SameNormalRank(l, i, j); }
      }
    }
    if l.drums >= 5 {
      LoopBFindsHead(l);
      var i := FirstDrumHead(l.v, 0);
      forall j: nat | j < 32 && Drum(l.v[j]) ensures j == i || LastOn(l.log, i) < LastOn(l.log, j) {
        if l.v[j].rank5 == 0 { SameDrumRank(l, i, j); }
      }
    }
  }
}
