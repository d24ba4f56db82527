/** What the stream walker does to the voice ledger: a completed service is one of the ledger's
    own steps, so the ledger theorems hold over real walker runs. */
module WalkerLedger {
  import opened Bytes
  import opened SoundBoard
  import opened Walker
  import opened WalkerTheory
  import opened Wrappers
  import L = VoiceLedger
  import LL = LoopLaw
  import R = VoiceRuns
  import WR = WalkerRuns

  function FlagByte(s: seq<byte>, i: nat): byte
    requires |s| == RAM_BYTES && i < 32
  {
    s[VOICES + 16 * i + 2]
  }

  function RateByte(s: seq<byte>, i: nat): byte
    requires |s| == RAM_BYTES && i < 32
  {
    s[VOICES + 16 * i + 11]
  }

  ghost predicate SameVoice(s: seq<byte>, t: seq<byte>, i: nat)
    requires |s| == |t| == RAM_BYTES && i < 32
  {
    FlagByte(t, i) == FlagByte(s, i) && RateByte(t, i) == RateByte(s, i)
  }

  ghost predicate Handed(s: seq<byte>, t: seq<byte>, i: nat)
    requires |s| == |t| == RAM_BYTES && i < 32
  {
    && FlagByte(t, i) == Or(FlagByte(s, i), 0)
    && RateByte(t, i) == U8(RateByte(s, i) as int + (if Bit(FlagByte(s, i), 3) then 0x50 else 3))
  }

  // ------------------------------------------------------------ the voice bytes, arm by arm

  lemma PageSameVoice(s: seq<byte>, rom: seq<byte>, i: nat, dst: long)
    requires |s| == RAM_BYTES && i < 32 && Placed(StreamAt(s, i), i) && dst == Target(StreamAt(s, i))
    requires var r := StreamAt(s, i); Bit(r.flags, 7) && !Bit(r.flags, 3) && PageOk(rom, r.src, dst)
    ensures SameVoice(s, CopyPage(s, rom, StreamAt(s, i).src, dst), i)
  {
    TargetInWindow(StreamAt(s, i), i);
    var t := CopyPage(s, rom, StreamAt(s, i).src, dst);
    assert dst > VOICES + 16 * i + 11;
    assert t[..dst] == s[..dst];
    assert t[..dst][VOICES + 16 * i + 2] == s[..dst][VOICES + 16 * i + 2];
    assert t[..dst][VOICES + 16 * i + 11] == s[..dst][VOICES + 16 * i + 11];
  }

  lemma RecordSameVoice(s: seq<byte>, t: seq<byte>, u: seq<byte>, i: nat)
    requires |s| == |t| == |u| == RAM_BYTES && i < 32 && SameVoice(s, t, i) && OnlyRecord(t, u, i)
    ensures SameVoice(s, u, i)
  {
  }

  lemma TurnSameVoice(s: seq<byte>, rom: seq<byte>, i: nat, next: LL.Cursor)
    requires |s| == RAM_BYTES && i < 32 && Placed(StreamAt(s, i), i)
    requires var r := StreamAt(s, i); Bit(r.flags, 7) && !Bit(r.flags, 3) && PageOk(rom, r.src, Target(r))
    ensures var r := StreamAt(s, i);
            SameVoice(s, Turn(CopyPage(s, rom, r.src, Target(r)), i, r, next, Target(r)), i)
  {
    var r := StreamAt(s, i);
    var c := CopyPage(s, rom, r.src, Target(r));
    PageSameVoice(s, rom, i, Target(r));
    Turns(c, i, r, next, Target(r));
    RecordSameVoice(s, c, Turn(c, i, r, next, Target(r)), i);
  }

  lemma HandBackVoice(s: seq<byte>, i: nat)
    requires |s| == RAM_BYTES && i < 32
    ensures SlotOk(2 * i) && Handed(s, HandBack(s, i, 2 * i), i)
  {
  }

  lemma FullVoice(m: Mem, rom: seq<byte>, i: nat)
    requires Sized(m) && i < 32 && Placed(StreamAt(m.ram, i), i)
    ensures FullPage(m, rom, i).Some? ==> SameVoice(m.ram, FullPage(m, rom, i).value.ram, i)
  {
    if FullPage(m, rom, i).Some? { TurnSameVoice(m.ram, rom, i, FullCursor(StreamAt(m.ram, i))); }
  }

  lemma LoopVoice(m: Mem, rom: seq<byte>, i: nat)
    requires Sized(m) && i < 32 && Placed(StreamAt(m.ram, i), i)
    ensures ShortLoopPage(m, rom, i).Some? ==> SameVoice(m.ram, ShortLoopPage(m, rom, i).value.ram, i)
  {
    if ShortLoopPage(m, rom, i).Some? { TurnSameVoice(m.ram, rom, i, LoopCursor(StreamAt(m.ram, i))); }
  }

  lemma ReleaseVoice(m: Mem, i: nat)
    requires Sized(m) && i < 32 && Placed(StreamAt(m.ram, i), i)
    ensures ShortRelease(m, i).Some? ==> Handed(m.ram, ShortRelease(m, i).value.ram, i)
  {
    HandBackVoice(m.ram, i);
  }

  lemma EmptyVoice(m: Mem, i: nat)
    requires Sized(m) && i < 32
    ensures EmptyDispatch(m, i).Some? ==> SameVoice(m.ram, EmptyDispatch(m, i).value.ram, i)
  {
    PutsTimer(m.ram, i, NewTimer(StreamAt(m.ram, i)));
  }

  lemma LastVoice(s: seq<byte>, rom: seq<byte>, scsp: seq<byte>, i: nat)
    requires |s| == RAM_BYTES && |scsp| == SCSP_BYTES && i < 32
    requires var r := StreamAt(s, i); Placed(r, i) && r.flags == 0x80 && PageOk(rom, r.src, Target(r)) && SlotOk(r.slot)
    ensures var r := StreamAt(s, i);
            var t := Terminate(PutEnd(CopyPage(s, rom, r.src, Target(r)), i, EndOffset(r)), scsp, i, r).ram;
            VoiceBy(s, t, i, Bit(r.mode, 7))
  {
    var r := StreamAt(s, i);
    var e := PutEnd(CopyPage(s, rom, r.src, Target(r)), i, EndOffset(r));
    LastSameVoice(s, rom, i);
    TerminateVoice(e, scsp, i, r);
    HandedFrom(s, e, Terminate(e, scsp, i, r).ram, i);
  }

  // The terminal arm's result, when it is not half-gated.
  lemma TerminalIs(m: Mem, rom: seq<byte>, i: nat, r: Stream)
    requires Sized(m) && i < 32 && r == StreamAt(m.ram, i) && ShortTerminal(m, rom, i).Some? && !Gated(r, Midi7(m))
    ensures r.flags == 0x80 && PageOk(rom, r.src, Target(r)) && (Bit(r.mode, 7) ==> SlotOk(r.slot))
    ensures var e := PutEnd(CopyPage(m.ram, rom, r.src, Target(r)), i, EndOffset(r));
            ShortTerminal(m, rom, i).value == Terminate(e, m.scsp, i, r)
  {
  }

  ghost predicate VoiceBy(s: seq<byte>, t: seq<byte>, i: nat, handed: bool)
    requires |s| == |t| == RAM_BYTES && i < 32
  {
    if handed then Handed(s, t, i) else SameVoice(s, t, i)
  }

  // Every result the terminal arm can have.
  lemma TerminalVoice(m: Mem, o: Option<Mem>, rom: seq<byte>, i: nat, r: Stream)
    requires Sized(m) && i < 32 && r == StreamAt(m.ram, i) && Placed(r, i) && o.Some? && Sized(o.value)
    requires r.flags == 0x80 && PageOk(rom, r.src, Target(r)) && SlotOk(r.slot)
    requires var e := PutEnd(CopyPage(m.ram, rom, r.src, Target(r)), i, EndOffset(r));
             o.value == Terminate(e, m.scsp, i, r)
    ensures VoiceBy(m.ram, o.value.ram, i, Bit(r.mode, 7))
  {
    LastVoice(m.ram, rom, m.scsp, i);
  }

  lemma LastSameVoice(s: seq<byte>, rom: seq<byte>, i: nat)
    requires |s| == RAM_BYTES && i < 32
    requires var r := StreamAt(s, i); Placed(r, i) && r.flags == 0x80 && PageOk(rom, r.src, Target(r))
    ensures var r := StreamAt(s, i);
            SameVoice(s, PutEnd(CopyPage(s, rom, r.src, Target(r)), i, EndOffset(r)), i)
  {
    var r := StreamAt(s, i);
    var c := CopyPage(s, rom, r.src, Target(r));
    OrEight();
    PageSameVoice(s, rom, i, Target(r));
    PutsEnd(c, i, EndOffset(r));
    RecordSameVoice(s, c, PutEnd(c, i, EndOffset(r)), i);
  }

  lemma HandedFrom(s: seq<byte>, t: seq<byte>, u: seq<byte>, i: nat)
    requires |s| == |t| == |u| == RAM_BYTES && i < 32 && SameVoice(s, t, i)
    ensures Handed(t, u, i) ==> Handed(s, u, i)
    ensures SameVoice(t, u, i) ==> SameVoice(s, u, i)
  {
  }

  lemma TerminateVoice(s: seq<byte>, scsp: seq<byte>, i: nat, r: Stream)
    requires |s| == RAM_BYTES && |scsp| == SCSP_BYTES && i < 32 && r.slot == 2 * i && SlotOk(r.slot)
    ensures var t := Terminate(s, scsp, i, r).ram; if Bit(r.mode, 7) then Handed(s, t, i) else SameVoice(s, t, i)
  {
    HandBackVoice(s, i);
  }

  lemma OtherVoice(m: Mem, rom: seq<byte>, i: nat)
    requires Sized(m) && i < 32 && Placed(StreamAt(m.ram, i), i) && WalkOne(m, rom, i).Some?
    requires var r := StreamAt(m.ram, i);
             || !Bit(r.flags, 7) || !Due(r) || Gated(r, Midi7(m))
             || r.remaining > LL.PAGE || Bit(r.flags, 0) || Bit(r.flags, 3)
    ensures VoiceBy(m.ram, WalkOne(m, rom, i).value.ram, i, ServedBy(StreamAt(m.ram, i), Midi7(m)).Released?)
  {
    FullVoice(m, rom, i);
    LoopVoice(m, rom, i);
    ReleaseVoice(m, i);
    EmptyVoice(m, i);
  }

  lemma PlacedSlot(r: Stream, i: nat)
    requires i < 32 && Placed(r, i)
    ensures SlotOk(r.slot)
  {
  }

  lemma LastPageVoice(m: Mem, rom: seq<byte>, i: nat, r: Stream)
    requires Sized(m) && i < 32 && r == StreamAt(m.ram, i) && Placed(r, i) && ShortTerminal(m, rom, i).Some?
    requires !Gated(r, Midi7(m))
    ensures VoiceBy(m.ram, ShortTerminal(m, rom, i).value.ram, i, Bit(r.mode, 7))
  {
    PlacedSlot(r, i);
    TerminalIs(m, rom, i, r);
    TerminalVoice(m, ShortTerminal(m, rom, i), rom, i, r);
  }

  /** A service changes its voice's flag and rate bytes exactly when it hands the stream back. */
  lemma WalkVoice(m: Mem, rom: seq<byte>, i: nat)
    requires Sized(m) && i < 32 && Placed(StreamAt(m.ram, i), i) && WalkOne(m, rom, i).Some?
    ensures VoiceBy(m.ram, WalkOne(m, rom, i).value.ram, i, ServedBy(StreamAt(m.ram, i), Midi7(m)).Released?)
  {
    var r := StreamAt(m.ram, i);
    if !Bit(r.flags, 7) || !Due(r) || Gated(r, Midi7(m))
       || r.remaining > LL.PAGE || Bit(r.flags, 0) || Bit(r.flags, 3) {
      OtherVoice(m, rom, i);
    } else {
      LastPageVoice(m, rom, i, r);
      assert WalkOne(m, rom, i) == ShortTerminal(m, rom, i);
    }
  }

  /** Below the windows a visit changes a byte only in its own record, or, when it hands the stream
      back, the flag or the rate byte of its own voice. */
  lemma ServeTouches(m: Mem, rom: seq<byte>, w: WR.Visit, a: nat)
    requires Sized(m) && w.slot < 32 && Walls(m.ram) && a < 0x1_0000 && WR.Serve(m, rom, w).ram[a] != m.ram[a]
    requires !(At(w.slot) <= a < At(w.slot) + 32)
    ensures a == VOICES + 16 * w.slot + 2 || a == VOICES + 16 * w.slot + 11
    ensures ServedBy(StreamAt(m.ram, w.slot), Bit(w.status, 7)).Released?
  {
    var s := WR.Seen(m, w.status);
    WalkConfined(s, rom, w.slot);
    WalkVoice(s, rom, w.slot);
    TouchedByte(m.ram, WR.Serve(m, rom, w).ram, w.slot, a,
                ServedBy(StreamAt(m.ram, w.slot), Bit(w.status, 7)).Released?);
  }

  lemma TouchedByte(s: seq<byte>, t: seq<byte>, i: nat, a: nat, handed: bool)
    requires |s| == |t| == RAM_BYTES && i < 32 && OnlyMine(s, t, i) && VoiceBy(s, t, i, handed)
    requires a < 0x1_0000 && t[a] != s[a] && !(At(i) <= a < At(i) + 32)
    ensures (a == VOICES + 16 * i + 2 || a == VOICES + 16 * i + 11) && handed
  {
    assert Mine(i, a);
  }

  // ------------------------------------------------------------ one service as ledger steps

  // The ledger sees of a service its stream's flag byte and two bytes of its voice.
  lemma LedgerSees(s: seq<byte>, t: seq<byte>, i: nat, chip: seq<byte>, c: seq<byte>, log: seq<L.Event>)
    requires |s| == |t| == RAM_BYTES && i < 32 && OnlyMine(s, t, i)
    requires |chip| == SCSP_BYTES && |c| == SCSP_BYTES
    ensures var l := LedgerOf(s, chip, log);
            LedgerOf(t, c, log) ==
            l.(v := l.v[i := l.v[i].(flags := FlagByte(t, i), rate := RateByte(t, i))],
               streams := l.streams[i := t[At(i)]], chip := c)
  {
    VoiceSeen(s, t, i);
    OthersSeen(s, t, i);
    assert Voices(t) == Voices(s)[i := VoiceAt(t, i)];
    assert StreamFlags(t) == StreamFlags(s)[i := t[At(i)]];
  }

  lemma VoiceSeen(s: seq<byte>, t: seq<byte>, i: nat)
    requires |s| == |t| == RAM_BYTES && i < 32 && OnlyMine(s, t, i)
    ensures VoiceAt(t, i) == VoiceAt(s, i).(flags := FlagByte(t, i), rate := RateByte(t, i))
  {
    var v := VOICES + 16 * i;
    forall a | v <= a < v + 16 && a != v + 2 && a != v + 11 ensures t[a] == s[a] { assert !Mine(i, a); }
  }

  lemma OthersSeen(s: seq<byte>, t: seq<byte>, i: nat)
    requires |s| == |t| == RAM_BYTES && i < 32 && OnlyMine(s, t, i)
    ensures forall j :: 0 <= j < 32 && j != i ==> VoiceAt(t, j) == VoiceAt(s, j) && t[At(j)] == s[At(j)]
    ensures NextOf(t) == NextOf(s) && t[COUNT_151E] == s[COUNT_151E] && t[COUNT_152E] == s[COUNT_152E]
  {
    forall j | 0 <= j < 32 && j != i ensures VoiceAt(t, j) == VoiceAt(s, j) && t[At(j)] == s[At(j)] {
      var v := VOICES + 16 * j;
      forall a | v <= a < v + 16 ensures t[a] == s[a] { assert !Mine(i, a); }
      assert !Mine(i, At(j));
    }
    forall a | CURSOR_151A <= a <= COUNT_152E ensures t[a] == s[a] { assert !Mine(i, a); }
  }

  // The ledger's own step for this visit, then what the service left in the chip.
  function LedgerOps(m: Mem, rom: seq<byte>, w: WR.Visit): seq<R.Op>
    requires Sized(m) && w.slot < 32
  {
    var chip := R.ChipWrites(WR.Serve(m, rom, w).scsp);
    if WalkOne(WR.Seen(m, w.status), rom, w.slot).None? then [chip]
    else
      match ServedBy(StreamAt(m.ram, w.slot), Bit(w.status, 7))
      case Armed => [R.StreamArm(w.slot), chip]
      case Released => [R.StreamEnd(w.slot), chip]
      case _ => [chip]
  }

  lemma RunOne(l: L.Ledger, a: R.Op)
    requires L.Shape(l)
    ensures R.Run(l, [a]) == R.Apply(l, a)
  {
    assert R.Run(R.Apply(l, a), [a][1..]) == R.Apply(l, a);
  }

  lemma RunTwo(l: L.Ledger, a: R.Op, b: R.Op)
    requires L.Shape(l)
    ensures R.Run(l, [a, b]) == R.Apply(R.Apply(l, a), b)
  {
    assert [a, b][1..] == [b];
    RunOne(R.Apply(l, a), b);
  }

  /** The hand-back's stores are the ledger's release, and the arming stores its arming. */
  lemma HandBackIsRelease(s: seq<byte>, t: seq<byte>, i: nat, chip: seq<byte>, c: seq<byte>, log: seq<L.Event>)
    requires |s| == |t| == RAM_BYTES && i < 32 && OnlyMine(s, t, i) && t[At(i)] == 0 && Handed(s, t, i)
    requires |chip| == SCSP_BYTES && |c| == SCSP_BYTES
    ensures LedgerOf(t, c, log) == L.WalkerRelease(LedgerOf(s, chip, log), i).(chip := c)
  {
    LedgerSees(s, t, i, chip, c, log);
    assert LedgerOf(s, chip, log).v[i] == VoiceAt(s, i);
  }

  lemma SameFlagsIsNoStep(s: seq<byte>, t: seq<byte>, i: nat, chip: seq<byte>, c: seq<byte>, log: seq<L.Event>)
    requires |s| == |t| == RAM_BYTES && i < 32 && OnlyMine(s, t, i) && SameVoice(s, t, i)
    requires |chip| == SCSP_BYTES && |c| == SCSP_BYTES
    ensures var l := LedgerOf(s, chip, log);
            LedgerOf(t, c, log) == l.(streams := l.streams[i := t[At(i)]], chip := c)
  {
    var l := LedgerOf(s, chip, log);
    LedgerSees(s, t, i, chip, c, log);
    assert l.v[i] == VoiceAt(s, i);
    assert l.v[i := l.v[i]] == l.v;
  }

  // What a completed service does to the record's flags.
  lemma FlagsServed(m: Mem, rom: seq<byte>, i: nat)
    requires Sized(m) && i < 32 && WalkOne(m, rom, i).Some?
    ensures var r := StreamAt(m.ram, i);
            match ServedBy(r, Midi7(m))
            case Released => Next(r, Midi7(m)).flags == 0 && Bit(r.flags, 7)
            case Armed => Next(r, Midi7(m)).flags == Or(r.flags, 3) && Bit(r.flags, 7)
            case _ => Next(r, Midi7(m)).flags == r.flags
  {
    OrEight();
  }

  // The ledger's step for what a service did.
  function StepFor(l: L.Ledger, i: nat, served: Served): (k: L.Ledger)
    requires L.Shape(l) && i < 32
    ensures L.Shape(k)
  {
    match served
    case Armed => R.Apply(l, R.StreamArm(i))
    case Released => R.Apply(l, R.StreamEnd(i))
    case _ => l
  }

  lemma ReleasedStep(s: seq<byte>, t: seq<byte>, i: nat, chip: seq<byte>, c: seq<byte>, log: seq<L.Event>)
    requires |s| == |t| == RAM_BYTES && i < 32 && OnlyMine(s, t, i) && t[At(i)] == 0 && Handed(s, t, i)
    requires |chip| == SCSP_BYTES && |c| == SCSP_BYTES && Bit(s[At(i)], 7)
    ensures LedgerOf(t, c, log) == StepFor(LedgerOf(s, chip, log), i, Released).(chip := c)
  {
    HandBackIsRelease(s, t, i, chip, c, log);
    FlagsAre(s, i, chip, log);
  }

  lemma ArmedStep(s: seq<byte>, t: seq<byte>, i: nat, chip: seq<byte>, c: seq<byte>, log: seq<L.Event>)
    requires |s| == |t| == RAM_BYTES && i < 32 && OnlyMine(s, t, i) && SameVoice(s, t, i)
    requires |chip| == SCSP_BYTES && |c| == SCSP_BYTES && Bit(s[At(i)], 7) && t[At(i)] == Or(s[At(i)], 3)
    ensures LedgerOf(t, c, log) == StepFor(LedgerOf(s, chip, log), i, Armed).(chip := c)
  {
    SameFlagsIsNoStep(s, t, i, chip, c, log);
    FlagsAre(s, i, chip, log);
  }

  lemma QuietStep(s: seq<byte>, t: seq<byte>, i: nat, chip: seq<byte>, c: seq<byte>, log: seq<L.Event>)
    requires |s| == |t| == RAM_BYTES && i < 32 && OnlyMine(s, t, i) && SameVoice(s, t, i)
    requires |chip| == SCSP_BYTES && |c| == SCSP_BYTES && t[At(i)] == s[At(i)]
    ensures LedgerOf(t, c, log) == LedgerOf(s, chip, log).(chip := c)
  {
    var l := LedgerOf(s, chip, log);
    SameFlagsIsNoStep(s, t, i, chip, c, log);
    FlagsAre(s, i, chip, log);
    assert l.streams[i := l.streams[i]] == l.streams;
  }

  // The completed service of a record, as a step of the ledger up to the chip.
  lemma ServiceSteps(m: Mem, rom: seq<byte>, i: nat, chip: seq<byte>, log: seq<L.Event>)
    requires Sized(m) && i < 32 && Walls(m.ram) && WalkOne(m, rom, i).Some? && |chip| == SCSP_BYTES
    ensures var n := WalkOne(m, rom, i).value;
            LedgerOf(n.ram, n.scsp, log) ==
            StepFor(LedgerOf(m.ram, chip, log), i, ServedBy(StreamAt(m.ram, i), Midi7(m))).(chip := n.scsp)
  {
    var n := WalkOne(m, rom, i).value;
    var served := ServedBy(StreamAt(m.ram, i), Midi7(m));
    WalkConfined(m, rom, i);
    WalkVoice(m, rom, i);
    FlagsServed(m, rom, i);
    assert StreamAt(m.ram, i).flags == m.ram[At(i)] && StreamAt(n.ram, i).flags == n.ram[At(i)];
    StepsBy(m.ram, n.ram, i, chip, n.scsp, log, served);
  }

  lemma StepsBy(s: seq<byte>, t: seq<byte>, i: nat, chip: seq<byte>, c: seq<byte>, log: seq<L.Event>, served: Served)
    requires |s| == |t| == RAM_BYTES && i < 32 && OnlyMine(s, t, i) && |chip| == SCSP_BYTES && |c| == SCSP_BYTES
    requires if served.Released? then Handed(s, t, i) else SameVoice(s, t, i)
    requires match served
             case Released => t[At(i)] == 0 && Bit(s[At(i)], 7)
             case Armed => t[At(i)] == Or(s[At(i)], 3) && Bit(s[At(i)], 7)
             case _ => t[At(i)] == s[At(i)]
    ensures LedgerOf(t, c, log) == StepFor(LedgerOf(s, chip, log), i, served).(chip := c)
  {
    match served
    case Released => ReleasedStep(s, t, i, chip, c, log);
    case Armed => ArmedStep(s, t, i, chip, c, log);
    case _ => QuietStep(s, t, i, chip, c, log);
  }

  lemma FlagsAre(s: seq<byte>, i: nat, chip: seq<byte>, log: seq<L.Event>)
    requires |s| == RAM_BYTES && i < 32 && |chip| == SCSP_BYTES
    ensures LedgerOf(s, chip, log).streams[i] == StreamAt(s, i).flags == s[At(i)]
  {
  }

  /** A walker visit does to the ledger what its own steps do. */
  lemma ServeIsLedgerRun(m: Mem, rom: seq<byte>, w: WR.Visit, log: seq<L.Event>)
    requires Sized(m) && w.slot < 32 && Walls(m.ram)
    ensures var n := WR.Serve(m, rom, w);
            LedgerOf(n.ram, n.scsp, log) == R.Run(LedgerOf(m.ram, m.scsp, log), LedgerOps(m, rom, w))
  {
    var n, i := WR.Serve(m, rom, w), w.slot;
    var l := LedgerOf(m.ram, m.scsp, log);
    RunOne(l, R.ChipWrites(n.scsp));
    RunTwo(l, R.StreamArm(i), R.ChipWrites(n.scsp));
    RunTwo(l, R.StreamEnd(i), R.ChipWrites(n.scsp));
    if WalkOne(WR.Seen(m, w.status), rom, i).Some? {
      ServiceSteps(WR.Seen(m, w.status), rom, i, m.scsp, log);
    }
  }

  lemma ServeKeepsLedger(m: Mem, rom: seq<byte>, w: WR.Visit, log: seq<L.Event>)
    requires Sized(m) && w.slot < 32 && Walls(m.ram) && R.Good(LedgerOf(m.ram, m.scsp, log))
    ensures var n := WR.Serve(m, rom, w); R.Good(LedgerOf(n.ram, n.scsp, log))
  {
    var l := LedgerOf(m.ram, m.scsp, log);
    ServeIsLedgerRun(m, rom, w, log);
    StepsAreCalm(l, LedgerOps(m, rom, w));
    R.RunKeeps(l, LedgerOps(m, rom, w));
  }

  /** Over every run of walker visits the ledger invariant and the five-drum limit persist. */
  lemma {:induction false} WalkKeepsLedger(m: Mem, rom: seq<byte>, visits: seq<WR.Visit>, log: seq<L.Event>)
    requires Sized(m) && WR.Slotted(visits) && Walls(m.ram) && R.Good(LedgerOf(m.ram, m.scsp, log))
    ensures var n := WR.WalkRun(m, rom, visits); R.Good(LedgerOf(n.ram, n.scsp, log))
    decreases |visits|
  {
    if visits != [] {
      var n := WR.Serve(m, rom, visits[0]);
      WR.ServeConfined(m, rom, visits[0]);
      ServeKeepsLedger(m, rom, visits[0], log);
      WalkKeepsLedger(n, rom, visits[1..], log);
    }
  }

  lemma {:induction false} StepsAreCalm(l: L.Ledger, ops: seq<R.Op>)
    requires L.Shape(l) && forall k :: 0 <= k < |ops| ==>
               !ops[k].KeyDown? && !ops[k].AuthorAt? && !ops[k].FullStop?
    ensures R.CalmRun(l, ops)
    decreases |ops|
  {
    if ops != [] { StepsAreCalm(R.Apply(l, ops[0]), ops[1..]); }
  }
}
