/** The ring's entry points as the C code performs them on sound RAM. */
module RingOps {
  import opened Bytes
  import opened SoundBoard
  import opened Ring
  import opened RingRuns
  import U = Uart

  function WriteCursor(b: Board): (w: nat)
    requires b.Valid()
    reads b.ram
    ensures w == Be16(b.ram[..], WRITE_CURSOR) % 4096
  {
    (b.ram[WRITE_CURSOR] as int * 256 + b.ram[WRITE_CURSOR + 1] as int) % 4096
  }

  method StoreSlot(b: Board, w: nat, p: seq<byte>)
    requires b.Valid() && |p| <= 4 && w < 4096
    modifies b.ram
    ensures b.ram[..] == PutSlot(old(b.ram[..]), w, p)
  {
    ghost var s := b.ram[..];
    for k := 0 to |p|
      invariant b.ram[..] == PutSlot(s, w, p[..k])
    {
      b.Poke(RING + w + k, p[k]);
      assert PutSlot(s, w, p[..k])[RING + w + k := p[k]] == PutSlot(s, w, p[..k + 1]);
    }
    assert p[..|p|] == p;
  }

  // The index masked to the ring at every byte.
  method StoreWrapped(b: Board, w: nat, p: seq<byte>)
    requires b.Valid() && |p| <= 4 && w < 4096
    modifies b.ram
    ensures b.ram[..] == PutWrapped(old(b.ram[..]), w, p)
  {
    ghost var s := b.ram[..];
    for k := 0 to |p|
      invariant b.ram[..] == PutWrapped(s, w, p[..k])
    {
      b.Poke(RING + (w + k) % 4096, p[k]);
      assert p[..k + 1][..k] == p[..k];
    }
    assert p[..|p|] == p;
  }

  // Slot, cursor, count: the tail every producer shares.
  method FilePacket(b: Board, p: seq<byte>)
    requires b.Valid() && |p| <= 4
    modifies b.ram
    ensures b.ram[..] == Filed(old(b.ram[..]), p)
  {
    var w, n := WriteCursor(b), b.ram[COUNT];
    StoreSlot(b, w, p);
    Poke16(b, WRITE_CURSOR, (w + 4) % 4096);
    b.Poke(COUNT, Inc(n));
  }

  method EmitCommand(b: Board, packet: seq<byte>) returns (ok: bool)
    requires b.Valid() && |packet| == 4
    modifies b.ram
    ensures ok <==> Emit(old(b.ram[..]), packet).Some?
    ensures b.ram[..] == if ok then Emit(old(b.ram[..]), packet).value else old(b.ram[..])
  {
    var w, n := WriteCursor(b), b.ram[COUNT];
    if n == 255 { return false; }
    StoreWrapped(b, w, packet);
    Poke16(b, WRITE_CURSOR, (w + 4) % 4096);
    b.Poke(COUNT, Inc(n));
    ok := true;
  }

  // ------------------------------------------------------------ the UART receiver

  method WriteStage(b: Board, u: U.Stage)
    requires b.Valid()
    modifies b.ram
    ensures b.ram[..] == PutStage(old(b.ram[..]), u)
  {
    b.Poke(STAGE, u.status);
    b.Poke(STAGE + 1, u.first);
    b.Poke(STAGE + 2, u.need);
    b.Poke(STAGE + 3, u.left);
  }

  method FileUartByte(b: Board, x: byte) returns (ok: bool)
    requires b.Valid()
    modifies b.ram
    ensures ok <==> UartByte(old(b.ram[..]), x).Some?
    ensures b.ram[..] == if ok then UartByte(old(b.ram[..]), x).value else old(b.ram[..])
  {
    var u := U.Stage(b.ram[STAGE], b.ram[STAGE + 1], b.ram[STAGE + 2], b.ram[STAGE + 3]);
    assert u == StageOf(b.ram[..]);
    if x == 0xff { return false; }
    ok := true;
    if x >= 0xf0 {
      assert PutStage(b.ram[..], u) == b.ram[..];
    } else if x >= 0x80 {
      var d := if 0xc0 <= x < 0xe0 then 1 else 2;
      WriteStage(b, U.Stage(x, u.first, d, d));
    } else {
      var select := if u.left == 0 then u.need else u.left;
      if select == 1 {
        FilePacket(b, if Dec(u.need) != 0 then [u.status, u.first, x] else [u.status, x]);
        b.Poke(DANCE, Dance(b.ram[DANCE]));
        WriteStage(b, U.Stage(u.status, u.first, u.need, 0));
      } else {
        WriteStage(b, U.Stage(u.status, x, u.need, Dec(select)));
      }
    }
  }

  // ------------------------------------------------------------ the stream tick

  // The preflight: nothing is written until every hand-over has been admitted.
  method PreflightWorkers(b: Board, g: Songs) returns (p: Plan)
    requires b.Valid() && SongsOk(g)
    ensures p == Preflight(b.ram[..], g, 0, Nobody)
  {
    p := Nobody;
    ghost var s := b.ram[..];
    var count, aligned := b.ram[COUNT], WriteCursor(b) % 4 == 0;
    for i := 0 to 8
      invariant !p.Refuse? && PlanOk(p) && (p.Worker? ==> s[COUNT] as int + |p.packets| <= 255)
      invariant Preflight(s, g, i, p) == Preflight(s, g, 0, Nobody)
    {
      if HandsOver(b.ram[..], i) {
        var next := Be32(b.ram[..], RecordAt(i) + 4);
        if 1 <= i <= 6 && p.Nobody? && aligned && count <= 253 && next in g.ad {
          p := Worker(i, g.ad[next]);
        } else if i == 1 && p.Nobody? && aligned && count <= 243 && next in g.ad21 {
          p := Worker(i, g.ad21[next]);
        } else {
          return Refuse;
        }
      }
    }
  }

  method FilePackets(b: Board, ps: seq<seq<byte>>)
    requires b.Valid()
    requires forall j :: 0 <= j < |ps| ==> |ps[j]| <= 4
    modifies b.ram
    ensures b.ram[..] == FiledAll(old(b.ram[..]), ps)
    decreases |ps|
  {
    if ps != [] {
      FilePacket(b, ps[0]);
      FilePackets(b, ps[1..]);
    }
  }

  method TurnWorker(b: Board, p: Plan, i: nat)
    requires b.Valid() && i < 8 && PlanOk(p)
    modifies b.ram
    ensures b.ram[..] == WorkerTurn(old(b.ram[..]), p, i)
  {
    var a := RecordAt(i);
    if Bit(b.ram[a], 7) {
      if p.Worker? && i == p.index {
        FilePackets(b, p.packets);
        b.Poke(a, 0);
        b.Poke(a + 1, 0xff);
        Poke16(b, a + 2, 0);
      } else {
        Poke16(b, a + 2, U16(Be16(b.ram[..], a + 2) as int - 1));
      }
    }
  }

  method Beat(b: Board, reload: byte, next: byte)
    requires b.Valid()
    modifies b.ram
    ensures b.ram[..] == Filed(old(b.ram[..]), [0xbe, 0x10, next])[RECORDS + 0x0d := reload][RECORDS + 0x0e := next]
  {
    FilePacket(b, [0xbe, 0x10, next]);
    b.Poke(RECORDS + 0x0d, reload);
    b.Poke(RECORDS + 0x0e, next);
  }

  method RunPrescaler(b: Board)
    requires b.Valid()
    modifies b.ram
    ensures b.ram[..] == Prescale(old(b.ram[..]))
  {
    ghost var s := b.ram[..];
    var reload, left := b.ram[RECORDS + 0x0c], b.ram[RECORDS + 0x0d];
    assert reload == s[RECORDS + 0x0c] && left == s[RECORDS + 0x0d];
    if reload != 0 && left == 1 {
      Beat(b, reload, NextBeat(b.ram[..]));
    } else if reload != 0 {
      b.Poke(RECORDS + 0x0d, Dec(left));
    }
  }

  method RunWorkers(b: Board, p: Plan)
    requires b.Valid() && PlanOk(p)
    modifies b.ram
    ensures b.ram[..] == WorkersFrom(old(b.ram[..]), p, 0)
  {
    ghost var s := b.ram[..];
    for i := 0 to 8
      invariant WorkersFrom(b.ram[..], p, i) == WorkersFrom(s, p, 0)
    {
      TurnWorker(b, p, i);
    }
  }

  method Gate(b: Board) returns (refused: bool, beats: bool)
    requires b.Valid()
    ensures beats == Beats(b.ram[..])
    ensures refused == (beats && (NextBeat(b.ram[..]) >= 0x80 || (Be16(b.ram[..], WRITE_CURSOR) % 4096) % 4 != 0))
  {
    beats := b.ram[RECORDS + 0x0c] != 0 && b.ram[RECORDS + 0x0d] == 1;
    refused := beats && (U8(b.ram[RECORDS + 0x0e] as int - 4) >= 0x80 || WriteCursor(b) % 4 != 0);
  }

  method PokeChip16(b: Board, a: nat, x: word)
    requires b.Valid() && a + 2 <= SCSP_BYTES
    modifies b.scsp
    ensures b.scsp[..] == PutBe16(old(b.scsp[..]), a, x)
  {
    b.scsp[a] := x / 256;
    b.scsp[a + 1] := x % 256;
  }

  method PokeTimers(b: Board)
    requires b.Valid()
    modifies b.scsp
    ensures b.scsp[..] == StreamPokes(old(b.scsp[..]))
  {
    PokeChip16(b, 0x418, 0xce);
    PokeChip16(b, 0x422, 0x40);
  }

  method RunTick(b: Board, g: Songs) returns (ok: bool)
    requires b.Valid() && SongsOk(g)
    modifies b.ram
    ensures ok <==> Tick(old(b.ram[..]), g).Some?
    ensures b.ram[..] == if ok then Tick(old(b.ram[..]), g).value else old(b.ram[..])
  {
    if b.ram[COUNT] == 255 { return true; }
    var refused, beats := Gate(b);
    if refused { return false; }
    var p := PreflightWorkers(b, g);
    if p.Refuse? || (beats && p.Worker?) { return false; }
    ok := true;
    RunPrescaler(b);
    RunWorkers(b, p);
  }

  method MaintainStreams(b: Board, g: Songs) returns (ok: bool)
    requires b.Valid() && SongsOk(g)
    modifies b.ram, b.scsp
    ensures ok <==> Tick(old(b.ram[..]), g).Some?
    ensures b.ram[..] == if ok then Tick(old(b.ram[..]), g).value else old(b.ram[..])
    ensures b.scsp[..] == if ok then StreamPokes(old(b.scsp[..])) else old(b.scsp[..])
  {
    ok := RunTick(b, g);
    if ok { PokeTimers(b); }
  }

  // ------------------------------------------------------------ the drain

  lemma OldestSlot(s: seq<byte>)
    requires |s| == RAM_BYTES && Sound(RingOf(s))
    ensures var c := Be16(s, READ_CURSOR) % 4096;
            c + 4 <= 4096 && Slot(RingOf(s), 0)[..2] == [s[RING + c], s[RING + (c + 1) % 4096]]
  {
    var q, c := RingOf(s), Be16(s, READ_CURSOR) % 4096;
    AtFits(q.r, 0);
    assert At(q.r, 0) == q.r == c;
    assert q.bytes[c] == s[RING + c] && q.bytes[c + 1] == s[RING + c + 1];
    assert Slot(q, 0)[..2] == [q.bytes[c], q.bytes[c + 1]];
    SmallMod(c + 1);
  }

  lemma SmallMod(c: nat)
    requires c < 4096
    ensures c % 4096 == c
  {
  }

  method DispatchNext(b: Board, complete: bool) returns (command: byte, payload: byte)
    requires b.Valid()
    modifies b.ram
    ensures b.ram[..] == Retire(old(b.ram[..]), complete)
    ensures var s, c := old(b.ram[..]), Be16(old(b.ram[..]), READ_CURSOR) % 4096;
            s[COUNT] > 0 ==> command == s[RING + c] && payload == s[RING + (c + 1) % 4096]
    ensures var q := RingOf(old(b.ram[..])); Sound(q) && q.count > 0 ==> [command, payload] == Slot(q, 0)[..2]
  {
    ghost var s := b.ram[..];
    var count := b.ram[COUNT];
    if count == 0 { return 0, 0; }
    var c := Be16(b.ram[..], READ_CURSOR) % 4096;
    command, payload := b.ram[RING + c], b.ram[RING + (c + 1) % 4096];
    if Sound(RingOf(s)) { OldestSlot(s); }
    b.Poke(CURRENT, command);
    if complete {
      b.Poke(COUNT, Dec(count));
      Poke16(b, READ_CURSOR, (c + 4) % 4096);
    }
  }
}
