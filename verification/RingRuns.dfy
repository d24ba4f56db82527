/** The three producers and the consumer on sound RAM, and the FIFO law over every
    interleaving of them with stores elsewhere. */
module RingRuns {
  import opened Bytes
  import opened SoundBoard
  import opened Ring
  import opened Wrappers
  import U = Uart

  const STAGE := 0x2500
  const DANCE := 0x2526
  const RECORDS := 0x3000

  // ------------------------------------------------------------ emit_command

  function Emit(s: seq<byte>, packet: seq<byte>): (o: Option<seq<byte>>)
    requires |s| == RAM_BYTES && |packet| == 4
    ensures o.Some? ==> |o.value| == RAM_BYTES
  {
    var w := Be16(s, WRITE_CURSOR) % 4096;
    if s[COUNT] == 255 then None
    else Some(PutWrite(PutWrapped(s, w, packet), (w + 4) % 4096, Inc(s[COUNT])))
  }

  lemma EmitFiles(s: seq<byte>, packet: seq<byte>)
    requires |s| == RAM_BYTES && |packet| == 4 && Sound(RingOf(s)) && s[COUNT] < 255
    ensures Emit(s, packet) == Some(Filed(s, packet))
  {
    SlotFits(RingOf(s).w);
    PutWrappedFits(s, RingOf(s).w, packet);
  }

  // ------------------------------------------------------------ file_uart_byte

  function StageOf(s: seq<byte>): U.Stage
    requires |s| == RAM_BYTES
  {
    U.Stage(s[STAGE], s[STAGE + 1], s[STAGE + 2], s[STAGE + 3])
  }

  function PutStage(s: seq<byte>, u: U.Stage): (t: seq<byte>)
    requires |s| == RAM_BYTES
    ensures |t| == RAM_BYTES && StageOf(t) == u
  {
    s[STAGE := u.status][STAGE + 1 := u.first][STAGE + 2 := u.need][STAGE + 3 := u.left]
  }

  // ror.b #1, with 0x7f forced to 0xf7.
  function Dance(x: byte): byte {
    var y := x / 2 + (if x % 2 == 1 then 128 else 0);
    if y == 0x7f then 0xf7 else y
  }

  function UartByte(s: seq<byte>, x: byte): (o: Option<seq<byte>>)
    requires |s| == RAM_BYTES
    ensures o.Some? ==> |o.value| == RAM_BYTES
  {
    match U.Take(StageOf(s), x)
    case Refused => None
    case Quiet(u) => Some(PutStage(s, u))
    case Packet(u, p) =>
      var t := Filed(s, p);
      Some(PutStage(t[DANCE := Dance(t[DANCE])], u))
  }

  // ------------------------------------------------------------ the stream tick

  function RecordAt(i: nat): nat { RECORDS + 32 * i }

  // A worker whose countdown is at 1 hands over to its stream body.
  predicate HandsOver(s: seq<byte>, i: nat)
    requires |s| == RAM_BYTES && i < 8
  {
    Bit(s[RecordAt(i)], 7) && Be16(s, RecordAt(i) + 2) == 1
  }

  // The stream bodies the tick can expand, by stream pointer: two packets (AD) or twelve
  // (AD21) of three bytes each. They are looked up in the audio ROM.
  datatype Songs = Songs(ad: map<long, seq<seq<byte>>>, ad21: map<long, seq<seq<byte>>>)

  predicate SongsOk(g: Songs) {
    && (forall k :: k in g.ad ==> |g.ad[k]| == 2 && forall j :: 0 <= j < 2 ==> |g.ad[k][j]| == 3)
    && (forall k :: k in g.ad21 ==> |g.ad21[k]| == 12 && forall j :: 0 <= j < 12 ==> |g.ad21[k][j]| == 3)
  }

  // What the preflight admits: nothing, one worker's packets, or a refusal of the tick.
  datatype Plan = Refuse | Nobody | Worker(index: nat, packets: seq<seq<byte>>)

  predicate PlanOk(p: Plan) {
    p.Worker? ==> 1 <= p.index <= 6 && |p.packets| <= 12 && forall j :: 0 <= j < |p.packets| ==> |p.packets[j]| == 3
  }

  function Preflight(s: seq<byte>, g: Songs, i: nat, so: Plan): (p: Plan)
    requires |s| == RAM_BYTES && SongsOk(g) && i <= 8 && !so.Refuse? && PlanOk(so)
    requires so.Worker? ==> s[COUNT] as int + |so.packets| <= 255
    ensures PlanOk(p) && (p.Worker? ==> s[COUNT] as int + |p.packets| <= 255)
    decreases 8 - i
  {
    if i == 8 then so
    else if !HandsOver(s, i) then Preflight(s, g, i + 1, so)
    else
      var next, aligned := Be32(s, RecordAt(i) + 4), Be16(s, WRITE_CURSOR) % 4096 % 4 == 0;
      if 1 <= i <= 6 && so.Nobody? && aligned && s[COUNT] <= 253 && next in g.ad
      then Preflight(s, g, i + 1, Worker(i, g.ad[next]))
      else if i == 1 && so.Nobody? && aligned && s[COUNT] <= 243 && next in g.ad21
      then Preflight(s, g, i + 1, Worker(i, g.ad21[next]))
      else Refuse
  }

  predicate Beats(s: seq<byte>)
    requires |s| == RAM_BYTES
  {
    s[RECORDS + 0x0c] != 0 && s[RECORDS + 0x0d] == 1
  }

  function NextBeat(s: seq<byte>): byte
    requires |s| == RAM_BYTES
  {
    U8(s[RECORDS + 0x0e] as int - 4)
  }

  // Packets filed one after the other.
  function FiledAll(s: seq<byte>, ps: seq<seq<byte>>): (t: seq<byte>)
    requires |s| == RAM_BYTES && forall j :: 0 <= j < |ps| ==> |ps[j]| <= 4
    ensures |t| == RAM_BYTES
    decreases |ps|
  {
    if ps == [] then s else FiledAll(Filed(s, ps[0]), ps[1..])
  }

  // One worker's turn once the preflight has passed.
  function WorkerTurn(s: seq<byte>, p: Plan, i: nat): (t: seq<byte>)
    requires |s| == RAM_BYTES && i < 8 && PlanOk(p)
    ensures |t| == RAM_BYTES
  {
    var a := RecordAt(i);
    if !Bit(s[a], 7) then s
    else if p.Worker? && i == p.index
    then PutBe16(FiledAll(s, p.packets)[a := 0][a + 1 := 0xff], a + 2, 0)
    else PutBe16(s, a + 2, U16(Be16(s, a + 2) as int - 1))
  }

  function WorkersFrom(s: seq<byte>, p: Plan, i: nat): (t: seq<byte>)
    requires |s| == RAM_BYTES && i <= 8 && PlanOk(p)
    ensures |t| == RAM_BYTES
    decreases 8 - i
  {
    if i == 8 then s else WorkersFrom(WorkerTurn(s, p, i), p, i + 1)
  }

  // The prescaler's beat, or one step of its countdown.
  function Prescale(s: seq<byte>): (t: seq<byte>)
    requires |s| == RAM_BYTES
    ensures |t| == RAM_BYTES
  {
    if Beats(s) then
      Filed(s, [0xbe, 0x10, NextBeat(s)])[RECORDS + 0x0d := s[RECORDS + 0x0c]][RECORDS + 0x0e := NextBeat(s)]
    else if s[RECORDS + 0x0c] != 0 then s[RECORDS + 0x0d := Dec(s[RECORDS + 0x0d])]
    else s
  }

  predicate TickRefused(s: seq<byte>, g: Songs)
    requires |s| == RAM_BYTES && SongsOk(g)
  {
    var p := Preflight(s, g, 0, Nobody);
    || (Beats(s) && (NextBeat(s) >= 0x80 || (Be16(s, WRITE_CURSOR) % 4096) % 4 != 0))
    || p.Refuse?
    || (Beats(s) && p.Worker?)
  }

  function Tick(s: seq<byte>, g: Songs): (o: Option<seq<byte>>)
    requires |s| == RAM_BYTES && SongsOk(g)
    ensures o.Some? ==> |o.value| == RAM_BYTES
  {
    if s[COUNT] == 255 then Some(s)
    else if TickRefused(s, g) then None
    else Some(WorkersFrom(Prescale(s), Preflight(s, g, 0, Nobody), 0))
  }

  // The pokes of every tick that is not refused: SCSP 0x418 = 0xce and 0x422 = 0x40.
  function StreamPokes(c: seq<byte>): (d: seq<byte>)
    requires |c| == SCSP_BYTES
    ensures |d| == SCSP_BYTES
  {
    PutBe16(PutBe16(c, 0x418, 0xce), 0x422, 0x40)
  }

  // ------------------------------------------------------------ dispatch_next

  // The drain with its class handlers framed away: complete says whether every matching
  // handler completed. A refusal holds the packet.
  function Retire(s: seq<byte>, complete: bool): (t: seq<byte>)
    requires |s| == RAM_BYTES
    ensures |t| == RAM_BYTES
  {
    if s[COUNT] == 0 then s
    else
      var c := Be16(s, READ_CURSOR) % 4096;
      var t := s[CURRENT := s[RING + c]];
      if complete then PutBe16(t[COUNT := Dec(s[COUNT])], READ_CURSOR, (c + 4) % 4096) else t
  }

  // ------------------------------------------------------------ what each entry point does to the queue

  // t's queue is s's with the packets ps at its end, each filling the front of its slot.
  ghost predicate Appends(s: seq<byte>, t: seq<byte>, ps: seq<seq<byte>>) {
    && |s| == |t| == RAM_BYTES && Sound(RingOf(s)) && Sound(RingOf(t))
    && Begins(Pending(RingOf(t)), Pending(RingOf(s)) + ps)
  }

  // Packet by packet, b is what a starts with.
  ghost predicate Begins(a: seq<seq<byte>>, b: seq<seq<byte>>) {
    |a| == |b| && forall k :: 0 <= k < |b| ==> b[k] <= a[k]
  }

  lemma SameRing(s: seq<byte>, t: seq<byte>)
    requires |s| == |t| == RAM_BYTES && Sound(RingOf(s)) && RingOf(t) == RingOf(s)
    ensures Appends(s, t, [])
  {
    assert Pending(RingOf(s)) + [] == Pending(RingOf(s));
  }

  lemma AppendsThen(s: seq<byte>, t: seq<byte>, u: seq<byte>, ps: seq<seq<byte>>, qs: seq<seq<byte>>)
    requires Appends(s, t, ps) && Appends(t, u, qs)
    ensures Appends(s, u, ps + qs)
  {
    var a, b, c := Pending(RingOf(s)), Pending(RingOf(t)), Pending(RingOf(u));
    forall k | 0 <= k < |a + (ps + qs)| ensures (a + (ps + qs))[k] <= c[k] {
      assert (b + qs)[k] <= c[k];
      if k < |b| { assert (a + ps)[k] <= b[k]; }
    }
  }

  lemma FiledAppends(s: seq<byte>, p: seq<byte>)
    requires |s| == RAM_BYTES && |p| <= 4 && Sound(RingOf(s)) && s[COUNT] < 255
    ensures Appends(s, Filed(s, p), [p])
  {
    FiledPushes(s, p);
    PushAppends(RingOf(s), Padded(s, p));
    assert p <= Padded(s, p);
  }

  lemma AppendsCount(s: seq<byte>, t: seq<byte>, ps: seq<seq<byte>>)
    requires Appends(s, t, ps)
    ensures t[COUNT] as int == s[COUNT] as int + |ps|
  {
    assert |Pending(RingOf(t))| == RingOf(t).count && |Pending(RingOf(s))| == RingOf(s).count;
  }

  lemma FiledThen(s: seq<byte>, t: seq<byte>, u: seq<byte>, ps: seq<seq<byte>>)
    requires ps != [] && Appends(s, t, [ps[0]]) && Appends(t, u, ps[1..])
    ensures Appends(s, u, ps)
  {
    AppendsThen(s, t, u, [ps[0]], ps[1..]);
    assert [ps[0]] + ps[1..] == ps;
  }

  lemma {:induction false} FiledAllAppends(s: seq<byte>, ps: seq<seq<byte>>)
    requires |s| == RAM_BYTES && Sound(RingOf(s)) && s[COUNT] as int + |ps| <= 255
    requires forall j :: 0 <= j < |ps| ==> |ps[j]| <= 4
    ensures Appends(s, FiledAll(s, ps), ps)
    decreases |ps|
  {
    if ps == [] {
      SameRing(s, s);
    } else {
      var t := Filed(s, ps[0]);
      FiledAppends(s, ps[0]);
      AppendsCount(s, t, [ps[0]]);
      FiledAllAppends(t, ps[1..]);
      FiledThen(s, t, FiledAll(t, ps[1..]), ps);
    }
  }
}
