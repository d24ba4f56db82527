/** The FIFO law of the command ring over every interleaving of emissions, UART bytes, stream
    ticks, dispatches and stores elsewhere on the board. */
module Fifo {
  import opened Bytes
  import opened SoundBoard
  import opened Ring
  import opened RingRuns
  import opened Wrappers
  import U = Uart

  // ------------------------------------------------------------ stores off the ring

  ghost predicate OffRing(s: seq<byte>, t: seq<byte>) {
    |s| == |t| == RAM_BYTES && forall a :: 0 <= a < RAM_BYTES && RingByte(a) ==> t[a] == s[a]
  }

  lemma OffRingSame(s: seq<byte>, t: seq<byte>)
    requires OffRing(s, t)
    ensures RingOf(t) == RingOf(s) && t[COUNT] == s[COUNT]
  {
    assert t[RING..RING + 4096] == s[RING..RING + 4096];
    assert RingByte(WRITE_CURSOR) && RingByte(WRITE_CURSOR + 1) && RingByte(COUNT);
    assert RingByte(READ_CURSOR) && RingByte(READ_CURSOR + 1);
  }

  lemma StageOffRing(s: seq<byte>, u: U.Stage)
    requires |s| == RAM_BYTES
    ensures RingOf(PutStage(s, u)) == RingOf(s)
  {
    OffRingSame(s, PutStage(s, u));
  }

  // A store into a worker's record or the prescaler's bytes.
  lemma RecordOffRing(s: seq<byte>, a: nat, x: byte)
    requires |s| == RAM_BYTES && RECORDS <= a < RECORDS + 256
    ensures RingOf(s[a := x]) == RingOf(s)
  {
    ElsewhereKeepsRing(s, a, x);
  }

  lemma WordOffRing(s: seq<byte>, a: nat, x: word)
    requires |s| == RAM_BYTES && RECORDS <= a < RECORDS + 255
    ensures RingOf(PutBe16(s, a, x)) == RingOf(s)
  {
    RecordOffRing(s, a, x / 256);
    RecordOffRing(s[a := x / 256], a + 1, x % 256);
  }

  // ------------------------------------------------------------ the producers append

  lemma EmitAppends(s: seq<byte>, packet: seq<byte>)
    requires |s| == RAM_BYTES && |packet| == 4 && Sound(RingOf(s)) && Emit(s, packet).Some?
    ensures Appends(s, Emit(s, packet).value, [packet])
  {
    EmitFiles(s, packet);
    FiledAppends(s, packet);
  }

  // The packet a UART byte completes, if any.
  function UartPackets(s: seq<byte>, x: byte): (ps: seq<seq<byte>>)
    requires |s| == RAM_BYTES
  {
    var t := U.Take(StageOf(s), x);
    if t.Packet? then [t.bytes] else []
  }

  lemma UartAppends(s: seq<byte>, x: byte)
    requires |s| == RAM_BYTES && Sound(RingOf(s)) && UartByte(s, x).Some?
    requires UartPackets(s, x) != [] ==> s[COUNT] < 255
    ensures Appends(s, UartByte(s, x).value, UartPackets(s, x))
  {
    match U.Take(StageOf(s), x)
    case Quiet(u) =>
      StageOffRing(s, u);
      SameRing(s, PutStage(s, u));
    case Packet(u, p) =>
      var t := Filed(s, p);
      FiledAppends(s, p);
      ElsewhereKeepsRing(t, DANCE, Dance(t[DANCE]));
      StageOffRing(t[DANCE := Dance(t[DANCE])], u);
    case Refused =>
  }

  lemma UartOverruns(s: seq<byte>, x: byte)
    requires |s| == RAM_BYTES && Sound(RingOf(s)) && UartPackets(s, x) != [] && s[COUNT] == 255
    ensures UartByte(s, x).Some? && UartByte(s, x).value[COUNT] == 0 && !Sound(RingOf(UartByte(s, x).value))
  {
    var t := U.Take(StageOf(s), x);
    var f := Filed(s, t.bytes);
    FiledPushes(s, t.bytes);
    PushOverruns(RingOf(s), Padded(s, t.bytes));
    ElsewhereKeepsRing(f, DANCE, Dance(f[DANCE]));
    StageOffRing(f[DANCE := Dance(f[DANCE])], t.stage);
  }

  /** At a full count a completed UART packet wraps the count to 0: the FIFO law for the
      UART holds exactly below 255. */
  lemma UartExact(s: seq<byte>, x: byte)
    requires |s| == RAM_BYTES && Sound(RingOf(s)) && UartPackets(s, x) != []
    ensures UartByte(s, x).Some?
    ensures Appends(s, UartByte(s, x).value, UartPackets(s, x)) <==> s[COUNT] < 255
    ensures s[COUNT] == 255 ==> UartByte(s, x).value[COUNT] == 0
  {
    if s[COUNT] < 255 { UartAppends(s, x); } else { UartOverruns(s, x); }
  }

  // The packets an admitted tick files.
  function TickPackets(s: seq<byte>, g: Songs): (ps: seq<seq<byte>>)
    requires |s| == RAM_BYTES && SongsOk(g)
  {
    if s[COUNT] == 255 then []
    else
      var p := Preflight(s, g, 0, Nobody);
      if Beats(s) then [[0xbe, 0x10, NextBeat(s)]] else if p.Worker? then p.packets else []
  }

  lemma PrescaleAppends(s: seq<byte>)
    requires |s| == RAM_BYTES && Sound(RingOf(s)) && s[COUNT] < 255
    ensures Appends(s, Prescale(s), if Beats(s) then [[0xbe, 0x10, NextBeat(s)]] else [])
  {
    if Beats(s) {
      var beat := [0xbe, 0x10, NextBeat(s)];
      var f := Filed(s, beat);
      FiledAppends(s, beat);
      RecordOffRing(f, RECORDS + 0x0d, s[RECORDS + 0x0c]);
      RecordOffRing(f[RECORDS + 0x0d := s[RECORDS + 0x0c]], RECORDS + 0x0e, NextBeat(s));
    } else {
      RecordOffRing(s, RECORDS + 0x0d, Dec(s[RECORDS + 0x0d]));
      SameRing(s, Prescale(s));
    }
  }

  // A worker's turn leaves the ring alone unless it is the admitted one.
  lemma OtherTurn(s: seq<byte>, p: Plan, i: nat)
    requires |s| == RAM_BYTES && i < 8 && PlanOk(p) && Sound(RingOf(s))
    requires !(p.Worker? && i == p.index && Bit(s[RecordAt(i)], 7))
    ensures RingOf(WorkerTurn(s, p, i)) == RingOf(s)
  {
    if Bit(s[RecordAt(i)], 7) {
      WordOffRing(s, RecordAt(i) + 2, U16(Be16(s, RecordAt(i) + 2) as int - 1));
    }
  }

  lemma AdmittedTurn(s: seq<byte>, p: Plan)
    requires |s| == RAM_BYTES && PlanOk(p) && p.Worker? && Sound(RingOf(s))
    requires Bit(s[RecordAt(p.index)], 7) && s[COUNT] as int + |p.packets| <= 255
    ensures Appends(s, WorkerTurn(s, p, p.index), p.packets)
  {
    FiledAllAppends(s, p.packets);
    var t := FiledAll(s, p.packets);
    ClosedOffRing(t, RecordAt(p.index));
    AppendsSame(s, t, WorkerTurn(s, p, p.index), p.packets);
  }

  // The stores that close a worker's record.
  lemma ClosedOffRing(t: seq<byte>, a: nat)
    requires |t| == RAM_BYTES && RECORDS <= a && a + 4 <= RECORDS + 256
    ensures RingOf(PutBe16(t[a := 0][a + 1 := 0xff], a + 2, 0)) == RingOf(t)
  {
    RecordOffRing(t, a, 0);
    RecordOffRing(t[a := 0], a + 1, 0xff);
    WordOffRing(t[a := 0][a + 1 := 0xff], a + 2, 0);
  }

  lemma AppendsSame(s: seq<byte>, t: seq<byte>, u: seq<byte>, ps: seq<seq<byte>>)
    requires Appends(s, t, ps) && |u| == RAM_BYTES && RingOf(u) == RingOf(t)
    ensures Appends(s, u, ps)
  {
  }

  // A turn touches no other worker's flag byte.
  lemma TurnKeepsFlag(s: seq<byte>, p: Plan, i: nat, j: nat)
    requires |s| == RAM_BYTES && i < 8 && j < 8 && i != j && PlanOk(p) && Sound(RingOf(s))
    requires p.Worker? ==> i != p.index
    ensures WorkerTurn(s, p, i)[RecordAt(j)] == s[RecordAt(j)]
  {
  }

  // What the workers from i on file.
  function PacketsFrom(p: Plan, i: nat): seq<seq<byte>> { if p.Worker? && i <= p.index then p.packets else [] }

  ghost predicate Admitted(s: seq<byte>, p: Plan, i: nat)
    requires |s| == RAM_BYTES && PlanOk(p)
  {
    p.Worker? && i <= p.index ==> Bit(s[RecordAt(p.index)], 7) && s[COUNT] as int + |p.packets| <= 255
  }

  // One worker's turn files its share and leaves the rest to the others.
  lemma OneTurn(s: seq<byte>, p: Plan, i: nat)
    requires |s| == RAM_BYTES && i < 8 && PlanOk(p) && Sound(RingOf(s)) && Admitted(s, p, i)
    ensures var t := WorkerTurn(s, p, i);
            Admitted(t, p, i + 1) && Appends(s, t, if p.Worker? && i == p.index then p.packets else [])
  {
    if p.Worker? && i == p.index {
      AdmittedTurn(s, p);
    } else {
      OtherTurn(s, p, i);
      SameRing(s, WorkerTurn(s, p, i));
      if p.Worker? && i < p.index { TurnKeepsFlag(s, p, i, p.index); }
    }
  }

  lemma {:induction false} WorkersBefore(s: seq<byte>, p: Plan, i: nat)
    requires |s| == RAM_BYTES && i <= 8 && PlanOk(p) && Sound(RingOf(s)) && Admitted(s, p, i)
    ensures Appends(s, WorkersFrom(s, p, i), PacketsFrom(p, i))
    decreases 8 - i
  {
    if i == 8 {
      SameRing(s, s);
    } else {
      OneTurn(s, p, i);
      WorkersBefore(WorkerTurn(s, p, i), p, i + 1);
      WorkersThen(s, WorkerTurn(s, p, i), p, i);
    }
  }

  lemma WorkersThen(s: seq<byte>, t: seq<byte>, p: Plan, i: nat)
    requires |s| == |t| == RAM_BYTES && i < 8 && PlanOk(p)
    requires t == WorkerTurn(s, p, i)
    requires Appends(s, t, if p.Worker? && i == p.index then p.packets else [])
    requires Appends(t, WorkersFrom(t, p, i + 1), PacketsFrom(p, i + 1))
    ensures Appends(s, WorkersFrom(s, p, i), PacketsFrom(p, i))
  {
    var now := if p.Worker? && i == p.index then p.packets else [];
    AppendsThen(s, t, WorkersFrom(t, p, i + 1), now, PacketsFrom(p, i + 1));
    assert now + PacketsFrom(p, i + 1) == PacketsFrom(p, i);
  }

  lemma {:induction false} AdmittedIsLive(s: seq<byte>, g: Songs, i: nat, so: Plan)
    requires |s| == RAM_BYTES && SongsOk(g) && i <= 8 && !so.Refuse? && PlanOk(so)
    requires so.Worker? ==> s[COUNT] as int + |so.packets| <= 255 && Bit(s[RecordAt(so.index)], 7)
    ensures var p := Preflight(s, g, i, so); p.Worker? ==> Bit(s[RecordAt(p.index)], 7)
    decreases 8 - i
  {
    if i < 8 {
      if !HandsOver(s, i) {
        AdmittedIsLive(s, g, i + 1, so);
      } else {
        var next := Be32(s, RecordAt(i) + 4);
        if 1 <= i <= 6 && so.Nobody? && s[COUNT] <= 253 && next in g.ad {
          AdmittedIsLive(s, g, i + 1, Worker(i, g.ad[next]));
        }
        if i == 1 && so.Nobody? && s[COUNT] <= 243 && next in g.ad21 {
          AdmittedIsLive(s, g, i + 1, Worker(i, g.ad21[next]));
        }
      }
    }
  }

  lemma PrescaleQuiet(s: seq<byte>, j: nat)
    requires |s| == RAM_BYTES && j < 8 && !Beats(s)
    ensures Prescale(s)[RecordAt(j)] == s[RecordAt(j)] && Prescale(s)[COUNT] == s[COUNT]
  {
  }

  /** An admitted tick appends exactly its packets: the beat, one worker's two or twelve, or
      none. */
  lemma TickAppends(s: seq<byte>, g: Songs)
    requires |s| == RAM_BYTES && SongsOk(g) && Sound(RingOf(s)) && Tick(s, g).Some?
    ensures Appends(s, Tick(s, g).value, TickPackets(s, g))
  {
    if s[COUNT] == 255 {
      SameRing(s, s);
    } else {
      var p := Preflight(s, g, 0, Nobody);
      var t := Prescale(s);
      AdmittedIsLive(s, g, 0, Nobody);
      PrescaleAppends(s);
      if p.Worker? { PrescaleQuiet(s, p.index); }
      WorkersBefore(t, p, 0);
      var beats := if Beats(s) then [[0xbe, 0x10, NextBeat(s)]] else [];
      var rest := if p.Worker? then p.packets else [];
      AppendsThen(s, t, WorkersFrom(t, p, 0), beats, rest);
      assert beats + rest == TickPackets(s, g);
    }
  }

  // ------------------------------------------------------------ the consumer

  lemma RetireRemoves(s: seq<byte>, complete: bool)
    requires |s| == RAM_BYTES && Sound(RingOf(s))
    ensures var t := Retire(s, complete);
            RingOf(t) == if complete && s[COUNT] > 0 then Pop(RingOf(s)) else RingOf(s)
  {
    if s[COUNT] > 0 {
      var c := Be16(s, READ_CURSOR) % 4096;
      ElsewhereKeepsRing(s, CURRENT, s[RING + c]);
      if complete { AdvanceRemoves(s[CURRENT := s[RING + c]]); }
    }
  }

  lemma AdvanceRemoves(t: seq<byte>)
    requires |t| == RAM_BYTES && Sound(RingOf(t)) && t[COUNT] > 0
    ensures var u := PutBe16(t[COUNT := Dec(t[COUNT])], READ_CURSOR, (Be16(t, READ_CURSOR) % 4096 + 4) % 4096);
            RingOf(u) == Pop(RingOf(t))
  {
    var u, r := t[COUNT := Dec(t[COUNT])], (Be16(t, READ_CURSOR) % 4096 + 4) % 4096;
    PutGet16(u, READ_CURSOR, r);
    assert PutBe16(u, READ_CURSOR, r)[RING..RING + 4096] == t[RING..RING + 4096];
  }

  // ------------------------------------------------------------ runs

  datatype Op =
    | EmitOp(packet: seq<byte>)        // emit_command
    | UartOp(x: byte)                  // file_uart_byte
    | TickOp(songs: Songs)             // maintain_streams
    | DispatchOp(complete: bool)       // dispatch_next, its handlers framed away
    | StoreOp(a: nat, x: byte)         // anything else on the board

  predicate OpOk(op: Op) {
    match op
    case EmitOp(p) => |p| == 4
    case UartOp(_) => true
    case TickOp(g) => SongsOk(g)
    case DispatchOp(_) => true
    case StoreOp(a, _) => a < RAM_BYTES && !RingByte(a)
  }

  function OrSame(o: Option<seq<byte>>, s: seq<byte>): seq<byte> {
    if o.Some? then o.value else s
  }

  // A refused entry point leaves the board as it was.
  function Step(s: seq<byte>, op: Op): (t: seq<byte>)
    requires |s| == RAM_BYTES && Sound(RingOf(s)) && OpOk(op)
    ensures |t| == RAM_BYTES
  {
    match op
    case EmitOp(p) => OrSame(Emit(s, p), s)
    case UartOp(x) => OrSame(UartByte(s, x), s)
    case TickOp(g) => OrSame(Tick(s, g), s)
    case DispatchOp(complete) => Retire(s, complete)
    case StoreOp(a, x) => s[a := x]
  }

  function FiledBy(s: seq<byte>, op: Op): seq<seq<byte>>
    requires |s| == RAM_BYTES && Sound(RingOf(s)) && OpOk(op)
  {
    match op
    case EmitOp(p) => if s[COUNT] == 255 then [] else [p]
    case UartOp(x) => UartPackets(s, x)
    case TickOp(g) => if Tick(s, g).Some? then TickPackets(s, g) else []
    case DispatchOp(_) => []
    case StoreOp(_, _) => []
  }

  function TakenBy(s: seq<byte>, op: Op): seq<seq<byte>>
    requires |s| == RAM_BYTES && Sound(RingOf(s))
  {
    if op == DispatchOp(true) && s[COUNT] > 0 then [Slot(RingOf(s), 0)] else []
  }

  // The one thing no entry point checks: a UART packet completing at a full count.
  predicate Overruns(s: seq<byte>, op: Op)
    requires |s| == RAM_BYTES
  {
    op.UartOp? && s[COUNT] == 255 && UartPackets(s, op.x) != []
  }

  lemma StepFifo(s: seq<byte>, op: Op)
    requires |s| == RAM_BYTES && Sound(RingOf(s)) && OpOk(op) && !Overruns(s, op)
    ensures var t := Step(s, op);
            && Sound(RingOf(t))
            && Begins(TakenBy(s, op) + Pending(RingOf(t)), Pending(RingOf(s)) + FiledBy(s, op))
  {
    var t := Step(s, op);
    if op.DispatchOp? {
      RetireRemoves(s, op.complete);
      if op.complete && s[COUNT] > 0 { PopRemoves(RingOf(s)); }
      assert Pending(RingOf(s)) + [] == Pending(RingOf(s));
      assert TakenBy(s, op) + Pending(RingOf(t)) == Pending(RingOf(s));
    } else {
      ProducerAppends(s, op);
      assert [] + Pending(RingOf(t)) == Pending(RingOf(t));
    }
  }

  lemma ProducerAppends(s: seq<byte>, op: Op)
    requires |s| == RAM_BYTES && Sound(RingOf(s)) && OpOk(op) && !Overruns(s, op) && !op.DispatchOp?
    ensures Appends(s, Step(s, op), FiledBy(s, op))
  {
    SameRing(s, s);
    match op
    case EmitOp(p) => if s[COUNT] < 255 { EmitAppends(s, p); }
    case UartOp(x) => if UartByte(s, x).Some? { UartAppends(s, x); }
    case TickOp(g) => if Tick(s, g).Some? { TickAppends(s, g); }
    case StoreOp(a, x) => ElsewhereKeepsRing(s, a, x); SameRing(s, s[a := x]);
  }

  datatype Trace = Trace(ram: seq<byte>, filed: seq<seq<byte>>, taken: seq<seq<byte>>, overrun: bool)

  // A run, with the packets filed and taken along the way; it stops at an overrun.
  function RunOps(s: seq<byte>, ops: seq<Op>): (t: Trace)
    requires |s| == RAM_BYTES && Sound(RingOf(s)) && forall k :: 0 <= k < |ops| ==> OpOk(ops[k])
    ensures |t.ram| == RAM_BYTES
    decreases |ops|
  {
    if ops == [] then Trace(s, [], [], false)
    else if Overruns(s, ops[0]) then Trace(s, [], [], true)
    else
      StepFifo(s, ops[0]);
      var t := RunOps(Step(s, ops[0]), ops[1..]);
      Trace(t.ram, FiledBy(s, ops[0]) + t.filed, TakenBy(s, ops[0]) + t.taken, t.overrun)
  }

  lemma BeginsJoin(a: seq<seq<byte>>, b: seq<seq<byte>>, p: seq<seq<byte>>, f: seq<seq<byte>>,
                   c: seq<seq<byte>>, d: seq<seq<byte>>, g: seq<seq<byte>>)
    requires Begins(a + b, p + f) && Begins(c + d, b + g)
    ensures Begins((a + c) + d, p + (f + g))
  {
    var x, y := (a + c) + d, p + (f + g);
    forall k | 0 <= k < |y| ensures y[k] <= x[k] {
      if k < |a| {
        assert (p + f)[k] <= (a + b)[k];
      } else {
        assert (b + g)[k - |a|] <= (c + d)[k - |a|];
        if k < |p| + |f| { assert (p + f)[k] <= (a + b)[k]; }
      }
    }
  }

  /** The FIFO law: over every interleaving, what was taken followed by what is still pending
      is what was pending at the start followed by what was filed, in order and unharmed, and
      the cursors keep write = (read + 4 * count) mod 0x1000. */
  lemma {:induction false} FifoLaw(s: seq<byte>, ops: seq<Op>)
    requires |s| == RAM_BYTES && Sound(RingOf(s)) && forall k :: 0 <= k < |ops| ==> OpOk(ops[k])
    ensures var t := RunOps(s, ops);
            && Sound(RingOf(t.ram))
            && Begins(t.taken + Pending(RingOf(t.ram)), Pending(RingOf(s)) + t.filed)
    decreases |ops|
  {
    if ops == [] || Overruns(s, ops[0]) {
      assert [] + Pending(RingOf(s)) == Pending(RingOf(s)) == Pending(RingOf(s)) + [];
    } else {
      var m := Step(s, ops[0]);
      StepFifo(s, ops[0]);
      FifoLaw(m, ops[1..]);
      var t := RunOps(m, ops[1..]);
      BeginsJoin(TakenBy(s, ops[0]), Pending(RingOf(m)), Pending(RingOf(s)), FiledBy(s, ops[0]),
                 t.taken, Pending(RingOf(t.ram)), t.filed);
    }
  }
}
