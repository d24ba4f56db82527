/** The stream walker as the C code runs it, store by store on sound RAM and the SCSP
    registers. */
module WalkerOps {
  import opened Bytes
  import opened SoundBoard
  import opened LoopLaw
  import opened Wrappers
  import W = Walker

  ghost function Memory(b: Board): (m: W.Mem)
    requires b.Valid()
    reads b.ram, b.scsp
    ensures W.Sized(m)
  {
    W.Mem(b.ram[..], b.scsp[..])
  }

  // What a service leaves: the specification's memory if it completes, else no change.
  ghost predicate Outcome(ok: bool, before: W.Mem, after: W.Mem, spec: Option<W.Mem>) {
    (ok <==> spec.Some?) && after == if spec.Some? then spec.value else before
  }

  // ------------------------------------------------------------ stores

  method ScspWrite(b: Board, a: nat, x: byte)
    requires b.Valid() && a < SCSP_BYTES
    modifies b.scsp
    ensures b.scsp[..] == old(b.scsp[..])[a := x]
  {
    b.scsp[a] := x;
  }

  // The shared exit.
  method WriteMaster(b: Board, i: nat)
    requires b.Valid() && i < 32
    modifies b.scsp
    ensures Memory(b) == W.Exit(old(b.ram[..]), old(b.scsp[..]), i)
  {
    ScspWrite(b, 0x408, b.ram[W.At(i) + 0x16]);
  }

  // ------------------------------------------------------------ the page copy

  // One MOVEM block: 32 bytes of sample ROM to sound RAM.
  method CopyBlock(b: Board, o: nat, d: nat)
    requires b.Valid() && o + 32 <= |b.rom| && d + 32 <= RAM_BYTES
    modifies b.ram
    ensures b.ram[..] == old(b.ram[..])[..d] + b.rom[o..o + 32] + old(b.ram[..])[d + 32..]
  {
    forall k | 0 <= k < 32 { b.ram[d + k] := b.rom[o + k]; }
  }

  lemma Glue(s: seq<byte>, rom: seq<byte>, o: nat, d: nat, n: nat, t: seq<byte>, u: seq<byte>)
    requires |s| == RAM_BYTES && d + n + 32 <= RAM_BYTES && o + n + 32 <= |rom|
    requires t == s[..d] + rom[o..o + n] + s[d + n..]
    requires |t| == RAM_BYTES && u == t[..d + n] + rom[o + n..o + n + 32] + t[d + n + 32..]
    ensures u == s[..d] + rom[o..o + n + 32] + s[d + n + 32..]
  {
    assert t[..d + n] == s[..d] + rom[o..o + n];
    assert t[d + n + 32..] == s[d + n + 32..];
    assert rom[o..o + n + 32] == rom[o..o + n] + rom[o + n..o + n + 32];
  }

  method CopyBlocks(b: Board, o: nat, d: nat)
    requires b.Valid() && o + PAGE <= |b.rom| && d + PAGE <= RAM_BYTES
    modifies b.ram
    ensures b.ram[..] == old(b.ram[..])[..d] + b.rom[o..o + PAGE] + old(b.ram[..])[d + PAGE..]
  {
    ghost var s := b.ram[..];
    for k := 0 to 16
      invariant b.ram[..] == s[..d] + b.rom[o..o + 32 * k] + s[d + 32 * k..]
    {
      ghost var t := b.ram[..];
      CopyBlock(b, o + 32 * k, d + 32 * k);
      Glue(s, b.rom, o, d, 32 * k, t, b.ram[..]);
    }
  }

  method CopyEnginePage512(b: Board, source: long, destination: long)
      returns (ok: bool, source': long, destination': long)
    requires b.Valid()
    modifies b.ram
    ensures ok <==> W.PageOk(b.rom, source, destination)
    ensures !ok ==> b.ram[..] == old(b.ram[..]) && source' == source && destination' == destination
    ensures ok ==> b.ram[..] == W.CopyPage(old(b.ram[..]), b.rom, source, destination)
    ensures ok ==> source' == U32(source as int + PAGE) && destination' == U32(destination as int + PAGE)
  {
    source', destination' := source, destination;
    if source % 2 != 0 || destination % 2 != 0 || source < W.ROM_BASE || destination > RAM_BYTES {
      return false, source, destination;
    }
    var o := source - W.ROM_BASE;
    if o + PAGE > |b.rom| || destination + PAGE > RAM_BYTES {
      return false, source, destination;
    }
    CopyBlocks(b, o, destination);
    return true, U32(source as int + PAGE), U32(destination as int + PAGE);
  }

  // ------------------------------------------------------------ the arms

  // The five record stores that follow a copied page.
  method TurnRecord(b: Board, i: nat, mode: byte, timer: word, next: Cursor, wr: long,
                    ghost r: W.Stream, ghost dst: long)
    requires b.Valid() && i < 32 && mode == r.mode && timer == W.NewTimer(r) && wr == U32(dst as int + PAGE)
    modifies b.ram
    ensures b.ram[..] == W.Turn(old(b.ram[..]), i, r, next, dst)
  {
    b.Poke(W.At(i) + 1, U8(mode as int + 16));
    Poke16(b, W.At(i) + 0x1c, timer);
    Poke32(b, W.At(i) + 0x0a, next.remaining);
    Poke32(b, W.At(i) + 2, next.src);
    Poke32(b, W.At(i) + 6, wr);
  }

  // The body the full-page and the looping short-page arms share once their gates are passed.
  method CopyAndTurn(b: Board, i: nat, r: W.Stream, next: Cursor) returns (ok: bool)
    requires b.Valid() && i < 32
    modifies b.ram, b.scsp
    ensures ok <==> W.PageOk(b.rom, r.src, W.Target(r))
    ensures !ok ==> Memory(b) == old(Memory(b))
    ensures ok ==>
              var c := W.CopyPage(old(b.ram[..]), b.rom, r.src, W.Target(r));
              Memory(b) == W.Exit(W.Turn(c, i, r, next, W.Target(r)), old(b.scsp[..]), i)
  {
    var src, dst;
    ok, src, dst := CopyEnginePage512(b, r.src, W.Target(r));
    if ok {
      TurnRecord(b, i, r.mode, W.NewTimer(r), next, dst, r, W.Target(r));
      WriteMaster(b, i);
    }
  }

  method StepFullPage(b: Board, i: nat) returns (ok: bool)
    requires b.Valid() && i < 32
    modifies b.ram, b.scsp
    ensures Outcome(ok, old(Memory(b)), Memory(b), W.FullPage(old(Memory(b)), b.rom, i))
  {
    var r := W.StreamAt(b.ram[..], i);
    if !Bit(r.flags, 7) || !W.Due(r) || W.Gated(r, Bit(b.scsp[0x409], 7)) || r.remaining <= PAGE {
      return false;
    }
    ok := CopyAndTurn(b, i, r, W.FullCursor(r));
  }

  method StepShortLoopPage(b: Board, i: nat) returns (ok: bool)
    requires b.Valid() && i < 32
    modifies b.ram, b.scsp
    ensures Outcome(ok, old(Memory(b)), Memory(b), W.ShortLoopPage(old(Memory(b)), b.rom, i))
  {
    var r := W.StreamAt(b.ram[..], i);
    if !Bit(r.flags, 7) || !Bit(r.flags, 0) || !W.Due(r) || W.Gated(r, Bit(b.scsp[0x409], 7)) || r.remaining > PAGE {
      return false;
    }
    ok := CopyAndTurn(b, i, r, W.LoopCursor(r));
  }

  method WriteKeyEnd(b: Board, n: byte, key: byte, end: word)
    requires b.Valid() && W.SlotOk(n)
    modifies b.scsp
    ensures b.scsp[..] == W.KeyEnd(old(b.scsp[..]), n, key, end)
  {
    ScspWrite(b, 16 * n as int + 1, AndNot(AndNot(key, 5), 6));
    ScspWrite(b, 16 * n as int + 6, end / 256);
    ScspWrite(b, 16 * n as int + 7, end % 256);
  }

  method WriteHandBack(b: Board, i: nat, n: byte)
    requires b.Valid() && i < 32 && W.SlotOk(n)
    modifies b.ram
    ensures b.ram[..] == W.HandBack(old(b.ram[..]), i, n)
  {
    b.Poke(W.At(i), 0);
    var v := VOICES + 8 * n as int;
    b.Poke(v + 11, U8(b.ram[v + 11] as int + (if Bit(b.ram[v + 2], 3) then 0x50 else 3)));
    b.Poke(v + 2, Or(b.ram[v + 2], 0));
  }

  method StepShortRelease(b: Board, i: nat) returns (ok: bool)
    requires b.Valid() && i < 32
    modifies b.ram, b.scsp
    ensures Outcome(ok, old(Memory(b)), Memory(b), W.ShortRelease(old(Memory(b)), i))
  {
    var r := W.StreamAt(b.ram[..], i);
    if !Bit(r.flags, 7) || !Bit(r.flags, 3) || Bit(r.flags, 0) || r.remaining > PAGE || !W.Due(r)
       || Bit(b.scsp[0x409], 7) || r.mode == 0 || !W.SlotOk(r.slot) {
      return false;
    }
    WriteKeyEnd(b, r.slot, b.scsp[16 * r.slot as int + 1], r.end);
    WriteHandBack(b, i, r.slot);
    WriteMaster(b, i);
    ok := true;
  }

  // The last page of a stream that still has pages to go in its window: release is armed.
  method Arm(b: Board, i: nat, mode: byte)
    requires b.Valid() && i < 32
    modifies b.ram, b.scsp
    ensures var s := old(b.ram[..]);
            Memory(b) == W.Exit(W.PutMode(W.PutFlags(s, i, Or(s[W.At(i)], 3)), i, U8(mode as int + 16)),
                                old(b.scsp[..]), i)
  {
    b.Poke(W.At(i), Or(b.ram[W.At(i)], 3));
    b.Poke(W.At(i) + 1, U8(mode as int + 16));
    WriteMaster(b, i);
  }

  method EndNow(b: Board, i: nat, n: byte, key: byte, end: word)
    requires b.Valid() && i < 32 && W.SlotOk(n)
    modifies b.ram, b.scsp
    ensures Memory(b) == W.Exit(W.HandBack(old(b.ram[..]), i, n), W.KeyEnd(old(b.scsp[..]), n, key, end), i)
  {
    WriteKeyEnd(b, n, key, end);
    WriteHandBack(b, i, n);
    WriteMaster(b, i);
  }

  method Finish(b: Board, i: nat, r: W.Stream)
    requires b.Valid() && i < 32 && (Bit(r.mode, 7) ==> W.SlotOk(r.slot))
    modifies b.ram, b.scsp
    ensures Memory(b) == W.Terminate(old(b.ram[..]), old(b.scsp[..]), i, r)
  {
    if !Bit(r.mode, 7) {
      Arm(b, i, r.mode);
    } else {
      EndNow(b, i, r.slot, b.scsp[16 * r.slot as int + 1], W.EndOffset(r));
    }
  }

  method CopyAndFinish(b: Board, i: nat, r: W.Stream) returns (ok: bool)
    requires b.Valid() && i < 32 && (Bit(r.mode, 7) ==> W.SlotOk(r.slot))
    modifies b.ram, b.scsp
    ensures ok <==> W.PageOk(b.rom, r.src, W.Target(r))
    ensures !ok ==> Memory(b) == old(Memory(b))
    ensures ok ==>
              var c := W.CopyPage(old(b.ram[..]), b.rom, r.src, W.Target(r));
              Memory(b) == W.Terminate(W.PutEnd(c, i, W.EndOffset(r)), old(b.scsp[..]), i, r)
  {
    var src, dst;
    ok, src, dst := CopyEnginePage512(b, r.src, W.Target(r));
    if ok {
      Poke16(b, W.At(i) + 0x1e, W.EndOffset(r));
      Finish(b, i, r);
    }
  }

  method StepShortTerminal(b: Board, i: nat) returns (ok: bool)
    requires b.Valid() && i < 32
    modifies b.ram, b.scsp
    ensures Outcome(ok, old(Memory(b)), Memory(b), W.ShortTerminal(old(Memory(b)), b.rom, i))
  {
    var r := W.StreamAt(b.ram[..], i);
    if r.flags != 0x80 || r.remaining > PAGE || !W.Due(r) { return false; }
    if W.Gated(r, Bit(b.scsp[0x409], 7)) {
      WriteMaster(b, i);
      return true;
    }
    if Bit(r.mode, 7) && !W.SlotOk(r.slot) { return false; }
    ok := CopyAndFinish(b, i, r);
  }

  method StepEmptyDispatch(b: Board, i: nat) returns (ok: bool)
    requires b.Valid() && i < 32
    modifies b.ram, b.scsp
    ensures Outcome(ok, old(Memory(b)), Memory(b), W.EmptyDispatch(old(Memory(b)), i))
  {
    var r := W.StreamAt(b.ram[..], i);
    if b.ram[0x2506] != 0 { return false; }
    if Bit(r.flags, 7) {
      if W.Due(r) { return false; }
      Poke16(b, W.At(i) + 0x1c, W.NewTimer(r));
    }
    WriteMaster(b, i);
    ok := true;
  }

  method StepWalkOne(b: Board, i: nat) returns (ok: bool, next: nat)
    requires b.Valid() && i < 32
    modifies b.ram, b.scsp
    ensures Outcome(ok, old(Memory(b)), Memory(b), W.WalkOne(old(Memory(b)), b.rom, i))
    ensures ok ==> next == STREAMS + 32 * W.NextSlot(Memory(b), i)
  {
    next := 0;
    if b.ram[0x2506] != 0 { return false, 0; }
    var r := W.StreamAt(b.ram[..], i);
    if !Bit(r.flags, 7) || !W.Due(r) {
      ok := StepEmptyDispatch(b, i);
    } else if W.Gated(r, Bit(b.scsp[0x409], 7)) {
      WriteMaster(b, i);
      ok := true;
    } else if r.remaining > PAGE {
      ok := StepFullPage(b, i);
    } else if Bit(r.flags, 0) {
      ok := StepShortLoopPage(b, i);
    } else if Bit(r.flags, 3) {
      ok := StepShortRelease(b, i);
    } else {
      ok := StepShortTerminal(b, i);
    }
    if ok {
      next := if b.ram[W.At(i) + 0x16] == 0 then STREAMS else STREAMS + 32 * (i + 1);
    }
  }
}
