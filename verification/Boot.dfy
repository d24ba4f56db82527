/** The ledger initialize leaves satisfies the invariant the run theorems start from; what a run
    can reach from it; and small runs on which the full stop and the allocator go wrong. */
module Boot {
  import opened Bytes
  import opened VoiceLedger
  import opened VoiceTheory
  import opened VoiceRuns
  import opened Wrappers
  import FS = FullStop

  function ResetVoice(i: nat): Voice
    requires i < 32
  {
    Voice(32 * i, 0, 0, 0, 0, 0, 0, 0, 0, 0)
  }

  // The voice table after reset: slot words loaded, everything else clear.
  function ResetLedger(chip: seq<byte>): (l: Ledger)
    requires |chip| == CHIP_BYTES
    ensures Shape(l)
  {
    Ledger(seq(32, i requires 0 <= i < 32 => ResetVoice(i)), 0, 0, seq(32, i => 0), 0, chip, [])
  }

  lemma ResetIsGood(chip: seq<byte>)
    requires |chip| == CHIP_BYTES
    ensures Good(ResetLedger(chip))
  {
    var l := ResetLedger(chip);
    assert Play(l.log) == Queues([], []);
  }

  // ------------------------------------------------------------ what reset reaches

  // No voice but voice 0 sounds, and the allocator's cursor has not left the table.
  ghost predicate OnlyFirst(l: Ledger) {
    Good(l) && l.next <= 32 && Quiet(l)
  }

  predicate Quiet(l: Ledger)
    requires Shape(l)
  {
    forall j :: 1 <= j < 32 ==> !Live(l.v[j])
  }

  lemma ScanStopsEarly(l: Ledger, past: Past)
    requires Shape(l) && Quiet(l) && l.next < 32
    ensures l.next + Scan(l, past, 0) < 32
  {
    var i := if l.next == 0 then 1 else 0;
    assert FlagsAt(l, past, i) == 0;
  }

  lemma AllocateFirst(l: Ledger, r: Request, t: Tail, admitted: bool, past: Past)
    requires OnlyFirst(l)
    ensures !Exhausted(l, past)
    ensures var m := Allocate(l, r, t, admitted, past); m.next <= 32 && Quiet(m)
  {
    ScanStopsEarly(Wrapped(l), past);
  }

  // None of these keys an idle voice on.
  ghost predicate NoneWoken(l: Ledger, m: Ledger)
    requires Shape(l) && Shape(m)
  {
    m.next == l.next && forall j :: 0 <= j < 32 && !Live(l.v[j]) ==> !Live(m.v[j])
  }

  lemma MaintainOneWakesNone(l: Ledger, i: nat)
    requires Shape(l) && i < 32
    ensures NoneWoken(l, MaintainOne(l, i))
  {
  }

  lemma {:induction false} MaintainWakesNone(l: Ledger, i: nat)
    requires Shape(l) && i <= 32
    ensures NoneWoken(l, MaintainFrom(l, i))
    decreases 32 - i
  {
    if i < 32 {
      MaintainOneWakesNone(l, i);
      MaintainWakesNone(MaintainOne(l, i), i + 1);
    }
  }

  lemma ReleaseOneWakesNone(l: Ledger, i: nat, r: Request, deferred: bool)
    requires Shape(l) && i < 32
    ensures NoneWoken(l, ReleaseOne(l, i, r, deferred))
  {
  }

  lemma {:induction false} ReleaseWakesNone(l: Ledger, i: nat, r: Request, deferred: bool)
    requires Shape(l) && i <= 32
    ensures NoneWoken(l, ReleaseFrom(l, i, r, deferred))
    decreases 32 - i
  {
    if i < 32 {
      ReleaseOneWakesNone(l, i, r, deferred);
      ReleaseWakesNone(ReleaseOne(l, i, r, deferred), i + 1, r, deferred);
    }
  }

  lemma StopWakesNone(l: Ledger)
    requires Inv(l)
    ensures NoneWoken(l, FS.StopFrom(l, 0))
  {
    FS.FullStopClears(l);
    StopNext(l, 0);
  }

  lemma {:induction false} StopNext(l: Ledger, i: nat)
    requires Shape(l) && i <= 32
    ensures FS.StopFrom(l, i).next == l.next
    decreases 32 - i
  {
    if i < 32 { StopNext(FS.StopOne(l, i), i + 1); }
  }

  lemma {:induction false} SetupScanWakesNone(l: Ledger, i: nat)
    requires Shape(l) && i <= 32
    ensures NoneWoken(l, SetupScanFrom(l, i))
    decreases 32 - i
  {
    if i < 32 {
      var d := DropNormal(l, i).(chip := KeyClear(l.chip, i));
      assert NoneWoken(l, d);
      SetupScanWakesNone(d, i + 1);
      SetupScanWakesNone(l, i + 1);
    }
  }

  lemma StealFirst(l: Ledger, r: Request, t: Tail)
    requires OnlyFirst(l) && LoopBSteals(l, r)
    ensures var i := FirstDrumHead(l.v, 0);
            var m := Author(StealDrum(l, i), i, r, t);
            m.next <= 32 && Quiet(m)
  {
    LoopBFindsHead(l);
  }

  lemma LoopBFirst(l: Ledger, r: Request, t: Tail, admitted: bool, past: Past)
    requires OnlyFirst(l) && r.high
    ensures LoopBCalm(l, r, past)
    ensures var m := LoopB(l, r, t, admitted, past); m.next <= 32 && Quiet(m)
  {
    if LoopBSteals(l, r) {
      StealFirst(l, r, t);
    } else {
      SetupScanWakesNone(l, 0);
      LoopBEntryKeeps(l, r);
      AllocateFirst(LoopBEntry(l, r), r, t, admitted, past);
    }
  }

  lemma KeyDownFirst(l: Ledger, r: Request, t: Tail, admitted: bool, past: Past)
    requires OnlyFirst(l)
    ensures Calm(l, KeyDown(r, t, admitted, past))
    ensures var m := KeyDownStep(l, r, t, admitted, past); m.next <= 32 && Quiet(m)
  {
    if r.high { LoopBFirst(l, r, t, admitted, past); } else { AllocateFirst(l, r, t, admitted, past); }
  }

  // The setup author is never called from outside.
  predicate Commanded(ops: seq<Op>) { forall k :: 0 <= k < |ops| ==> !ops[k].AuthorAt? }

  // No full stop of the run comes while a drum sounds.
  predicate DrumlessStops(l: Ledger, ops: seq<Op>)
    requires Shape(l)
    decreases |ops|
  {
    ops == [] || ((ops[0].FullStop? ==> FS.Drumless(l)) && DrumlessStops(Apply(l, ops[0]), ops[1..]))
  }

  lemma CommandCalm(l: Ledger, op: Op)
    requires OnlyFirst(l) && !op.AuthorAt?
    ensures Calm(l, op) <==> (op.FullStop? ==> FS.Drumless(l))
  {
    if op.KeyDown? { KeyDownFirst(l, op.r, op.t, op.admitted, op.past); }
  }

  lemma ApplyFirst(l: Ledger, op: Op)
    requires OnlyFirst(l) && !op.AuthorAt? && Calm(l, op)
    ensures OnlyFirst(Apply(l, op))
  {
    ApplyExact(l, op);
    match op
    case Maintain => MaintainWakesNone(l.(chip := VoicePokes(l.chip)), 0);
    case KeyUp(r, deferred) => ReleaseWakesNone(l, 0, r, deferred);
    case KeyDown(r, t, admitted, past) => KeyDownFirst(l, r, t, admitted, past);
    case FullStop => StopWakesNone(l);
    case _ =>
  }

  lemma {:induction false} RunFirst(l: Ledger, ops: seq<Op>)
    requires OnlyFirst(l) && Commanded(ops)
    ensures CalmRun(l, ops) <==> DrumlessStops(l, ops)
    ensures CalmRun(l, ops) ==> OnlyFirst(Run(l, ops))
    decreases |ops|
  {
    if ops != [] {
      CommandCalm(l, ops[0]);
      if Calm(l, ops[0]) {
        ApplyFirst(l, ops[0]);
        RunFirst(Apply(l, ops[0]), ops[1..]);
      }
    }
  }

  /** From reset a run in which the setup author is not called keeps the invariant at every step
      exactly when no full stop of it comes while a drum sounds, whatever lies past the voice table;
      and then no voice but voice 0 is ever keyed on and the allocator's cursor stays in the
      table. */
  lemma CommandedExact(chip: seq<byte>, ops: seq<Op>)
    requires |chip| == CHIP_BYTES && Commanded(ops)
    ensures var l := ResetLedger(chip);
            DrumlessStops(l, ops) <==> forall k :: 0 <= k <= |ops| ==> Good(Run(l, ops[..k]))
    ensures var l := ResetLedger(chip);
            DrumlessStops(l, ops) ==>
              Run(l, ops).next <= 32 && forall j :: 1 <= j < 32 ==> !Live(Run(l, ops).v[j])
  {
    ResetIsGood(chip);
    RunFirst(ResetLedger(chip), ops);
    RunExact(ResetLedger(chip), ops);
  }

  // ------------------------------------------------------------ a drum miscounted

  /** A drum keyed on through the looping engine arm loses flag bit 4; the full stop then
      counts it out of $151e, which wraps. */
  lemma LoopingDrumMiscounts(chip: seq<byte>, r: Request)
    requires |chip| == CHIP_BYTES && AsksForDrum(r)
    ensures var l := Author(ResetLedger(chip), 0, r, Tail(None, true, None, []));
            Inv(l) && FS.StopFrom(l, 0).normals != 0
  {
    ResetIsGood(chip);
    IdleBlank(ResetLedger(chip), 0);
    var t := Tail(None, true, None, []);
    var l := Author(ResetLedger(chip), 0, r, t);
    AuthorKeeps(ResetLedger(chip), 0, r, t);
    AuthoredVoice(ResetLedger(chip).v[0], r, t, 0, 0);
    ClearBitBits(AuthorVoice(ResetLedger(chip).v[0], r, 0, 0).flags, 4, 4);
    FS.FullStopClears(l);
  }

  // ------------------------------------------------------------ a ledger the allocator loses

  const PLAIN_TAIL := Tail(None, false, None, [])

  // Voices 31 down to 32 - k authored by call.
  function Calls(r: Request, k: nat): seq<Op>
    requires k < 32
  {
    if k == 0 then [] else Calls(r, k - 1) + [AuthorAt(32 - k, r, PLAIN_TAIL)]
  }

  function Filled(chip: seq<byte>, r: Request, k: nat): (l: Ledger)
    requires |chip| == CHIP_BYTES && k < 32
    ensures Shape(l)
  {
    Run(ResetLedger(chip), Calls(r, k))
  }

  lemma {:induction false} RunMore(l: Ledger, ops: seq<Op>, op: Op)
    requires Shape(l)
    ensures Run(l, ops + [op]) == Apply(Run(l, ops), op)
    decreases |ops|
  {
    if ops == [] {
      assert [op][1..] == [] && ops + [op] == [op];
    } else {
      assert (ops + [op])[1..] == ops[1..] + [op];
      RunMore(Apply(l, ops[0]), ops[1..], op);
    }
  }

  lemma AuthorKeysOn(l: Ledger, i: nat, r: Request, t: Tail)
    requires Good(l) && i < 32 && !r.high && !Live(l.v[i])
    ensures var m := Author(l, i, r, t);
            Good(m) && m.next == l.next && forall j :: 0 <= j < 32 ==> (Live(m.v[j]) <==> j == i || Live(l.v[j]))
  {
    AuthorExact(l, i, r, t);
    RoomForOne(l, i);
    AuthoredVoice(l.v[i], r, t, l.normals, l.drums);
  }

  ghost predicate FilledTo(l: Ledger, k: nat) {
    Good(l) && l.next == 0 && forall j :: 0 <= j < 32 ==> (Live(l.v[j]) <==> j >= 32 - k)
  }

  lemma CallFills(l: Ledger, r: Request, k: nat)
    requires 0 < k < 32 && FilledTo(l, k - 1) && !r.high
    ensures FilledTo(Apply(l, AuthorAt(32 - k, r, PLAIN_TAIL)), k)
  {
    AuthorKeysOn(l, 32 - k, r, PLAIN_TAIL);
  }

  lemma {:induction false} FilledGood(chip: seq<byte>, r: Request, k: nat)
    requires |chip| == CHIP_BYTES && k < 32 && !r.high
    ensures FilledTo(Filled(chip, r, k), k)
  {
    if k == 0 {
      ResetIsGood(chip);
    } else {
      FilledGood(chip, r, k - 1);
      RunMore(ResetLedger(chip), Calls(r, k - 1), AuthorAt(32 - k, r, PLAIN_TAIL));
      CallFills(Filled(chip, r, k - 1), r, k);
    }
  }

  // A key-down refused at voice 0 leaves the cursor behind it.
  lemma RefusedMoves(l: Ledger, r: Request, t: Tail, past: Past)
    requires Shape(l) && l.next == 0 && !Live(l.v[0])
    ensures Allocate(l, r, t, false, past) == l.(next := 1)
  {
    assert FlagsAt(l, past, 0) == 0;
  }

  /** The public functions alone lose the ledger: voices 31 to 1 authored by call, then a key-down
      that is refused, keep it, and with the byte behind the table not 0 the next key-down sends the
      reaper over a board on which voice 0 is idle. */
  lemma AllocatorLosesLedger(chip: seq<byte>, r: Request, t: Tail, past: Past, admitted: bool)
    requires |chip| == CHIP_BYTES && !r.high
    ensures var l := Run(ResetLedger(chip), Calls(r, 31) + [KeyDown(r, t, false, past)]);
            && Good(l) && l.next == 1 && (forall j :: 0 <= j < 32 ==> (Live(l.v[j]) <==> j > 0))
            && !Inv(Apply(l, KeyDown(r, t, admitted, seq(32, i => 1))))
  {
    var f := Filled(chip, r, 31);
    FilledGood(chip, r, 31);
    RunMore(ResetLedger(chip), Calls(r, 31), KeyDown(r, t, false, past));
    RefusedMoves(f, r, t, past);
    AllButFirst(f, r, t, admitted);
  }

  lemma AllButFirst(f: Ledger, r: Request, t: Tail, admitted: bool)
    requires Good(f) && forall j :: 0 <= j < 32 ==> (Live(f.v[j]) <==> j > 0)
    ensures var l := f.(next := 1); Good(l) && !Inv(Allocate(l, r, t, admitted, seq(32, i => 1)))
  {
    NextKeeps(f, 1);
    ExhaustedExact(f.(next := 1), seq(32, i => 1));
    AllocateExact(f.(next := 1), r, t, admitted, seq(32, i => 1));
  }

  lemma DrumAtZero(z: Ledger, r: Request, t: Tail, past: Past)
    requires Good(z) && AsksForDrum(r) && z.drums == 0 && z.next == 0 && !Live(z.v[0])
    ensures var l := KeyDownStep(z, r, t, true, past); Drum(l.v[0]) && l.drums == 1
  {
    assert LoopBEntry(z, r) == z && FlagsAt(z, past, 0) == 0;
    RoomForOne(z, 0);
    AuthoredVoice(z.v[0], r, t, z.normals, 0);
  }

  lemma StopAfterDrum(z: Ledger, r: Request, t: Tail, past: Past)
    requires OnlyFirst(z) && AsksForDrum(r) && z.drums == 0 && z.next == 0 && !Live(z.v[0])
    ensures var l := KeyDownStep(z, r, t, true, past);
            var m := FS.StopFrom(l, 0);
            Good(l) && Drum(l.v[0]) && !Inv(m) && m.drums == 1 && m.v[0].age == 255
  {
    KeyDownFirst(z, r, t, true, past);
    ApplyExact(z, KeyDown(r, t, true, past));
    DrumAtZero(z, r, t, past);
    FS.FullStopExact(KeyDownStep(z, r, t, true, past));
  }

  lemma ResetIsQuiet(chip: seq<byte>)
    requires |chip| == CHIP_BYTES
    ensures var z := ResetLedger(chip); OnlyFirst(z) && z.drums == 0 && z.next == 0 && !Live(z.v[0])
  {
    ResetIsGood(chip);
  }

  /** A drum at voice 0 and a full stop, both by command: its count and its age stay behind. */
  lemma StopLosesLedger(chip: seq<byte>, r: Request, t: Tail, past: Past)
    requires |chip| == CHIP_BYTES && AsksForDrum(r)
    ensures var l := Apply(ResetLedger(chip), KeyDown(r, t, true, past));
            var m := Apply(l, FullStop);
            Good(l) && Drum(l.v[0]) && !Inv(m) && m.drums == 1 && m.v[0].age == 255
  {
    ResetIsQuiet(chip);
    StopAfterDrum(ResetLedger(chip), r, t, past);
  }
}
