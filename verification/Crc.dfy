/** CRC-32 one bit at a time: the register is linear, agrees with the table-driven form of
    RFC 1952 section 8, carries over from chunk to chunk, and finds every short burst of errors. */
module Crc {
  import opened Chunks

  const POLYNOMIAL: bv32 := 0xedb8_8320
  const ONES: bv32 := 0xffff_ffff

  // Named, so that a proof about the register need not look inside its bits.
  function Xor(x: bv32, y: bv32): bv32 { x ^ y }
  function Xor8(x: bv8, y: bv8): bv8 { x ^ y }

  function Feed(low: bv32): bv32 { if low == 1 then POLYNOMIAL else 0 }

  // One bit of the register.
  function Step(c: bv32): bv32 { (c >> 1) ^ Feed(c & 1) }

  function Iterate<W>(f: W -> W, n: nat, c: W): W { if n == 0 then c else f(Iterate(f, n - 1, c)) }

  function StepN(n: nat, c: bv32): bv32 { Iterate(Step, n, c) }

  function Taken(c: bv32, b: bv8): bv32 { Xor(c, b as bv32) }

  function Absorb(c: bv32, b: bv8): bv32 { StepN(8, Taken(c, b)) }

  function Fold<W, B>(f: (W, B) -> W, c: W, data: seq<B>): W
    decreases |data|
  {
    if data == [] then c else f(Fold(f, c, data[..|data| - 1]), data[|data| - 1])
  }

  function Register(c: bv32, data: seq<bv8>): bv32 { Fold(Absorb, c, data) }

  function Crc32(data: seq<bv8>): bv32 { Xor(ONES, Register(ONES, data)) }

  // ------------------------------------------------------------ the loops

  // The C step builds a mask that is all ones exactly when the low bit is set.
  function Masked(c: bv32): bv32 { (c >> 1) ^ (POLYNOMIAL & (0 - (c & 1))) }

  lemma MaskedIsStep(c: bv32)
    ensures Masked(c) == Step(c)
  {
    assert c & 1 == 0 || c & 1 == 1;
  }

  method AccumulateByte(start: bv32, b: bv8) returns (crc: bv32)
    ensures crc == Absorb(start, b)
  {
    crc := start ^ (b as bv32);
    for bit := 0 to 8
      invariant crc == StepN(bit, Taken(start, b))
    {
      MaskedIsStep(crc);
      var mask: bv32 := 0 - (crc & 1);
      crc := (crc >> 1) ^ (POLYNOMIAL & mask);
    }
  }

  // The byte loop of vf2_crc32, and the inner loop of vf2_hash_file.
  method Accumulate(start: bv32, data: seq<bv8>) returns (crc: bv32)
    ensures crc == Register(start, data)
  {
    crc := start;
    for index := 0 to |data|
      invariant crc == Register(start, data[..index])
    {
      crc := AccumulateByte(crc, data[index]);
      assert data[..index + 1][..index] == data[..index];
    }
    assert data[..|data|] == data;
  }

  /** The read loop of vf2_hash_file, which carries the register from chunk to chunk, gives the
      one-shot value of the whole file. */
  method AccumulateChunks(chunks: seq<seq<bv8>>) returns (crc: bv32)
    ensures crc == Crc32(Concat(chunks))
  {
    crc := ONES;
    for k := 0 to |chunks|
      invariant crc == Register(ONES, Concat(chunks[..k]))
    {
      RegisterSplit(ONES, Concat(chunks[..k]), chunks[k]);
      crc := Accumulate(crc, chunks[k]);
      ConcatNext(chunks, k);
    }
    assert chunks[..|chunks|] == chunks;
    crc := Xor(ONES, crc);
  }

  lemma {:induction false} FoldSplit<W, B>(f: (W, B) -> W, c: W, x: seq<B>, y: seq<B>)
    ensures Fold(f, c, x + y) == Fold(f, Fold(f, c, x), y)
    decreases |y|
  {
    if y == [] {
      assert x + y == x;
    } else {
      var n := |y| - 1;
      FoldSplit(f, c, x, y[..n]);
      assert (x + y)[..|x + y| - 1] == x + y[..n];
    }
  }

  /** The register after a message is the register after any prefix carried through the rest. */
  lemma RegisterSplit(c: bv32, x: seq<bv8>, y: seq<bv8>)
    ensures Register(c, x + y) == Register(Register(c, x), y)
  {
    FoldSplit(Absorb, c, x, y);
  }

  // ------------------------------------------------------------ linearity

  lemma ShiftXor(a: bv32, b: bv32)
    ensures (a ^ b) >> 1 == (a >> 1) ^ (b >> 1)
  {
  }

  lemma LowXor(a: bv32, b: bv32)
    ensures (a ^ b) & 1 == (a & 1) ^ (b & 1)
  {
  }

  lemma LowBit(a: bv32)
    ensures a & 1 == 0 || a & 1 == 1
  {
  }

  lemma FeedLinear(x: bv32, y: bv32)
    requires (x == 0 || x == 1) && (y == 0 || y == 1)
    ensures Feed(x ^ y) == Feed(x) ^ Feed(y)
  {
    if x == 1 && y == 1 { assert x ^ y == 0; }
  }

  lemma XorSwap(p: bv32, q: bv32, r: bv32, s: bv32)
    ensures (p ^ q) ^ (r ^ s) == (p ^ r) ^ (q ^ s)
  {
  }

  lemma StepLinear(a: bv32, b: bv32)
    ensures Step(a ^ b) == Step(a) ^ Step(b)
  {
    calc {
      Step(a ^ b);
      ((a ^ b) >> 1) ^ Feed((a ^ b) & 1);
      { ShiftXor(a, b); LowXor(a, b); }
      ((a >> 1) ^ (b >> 1)) ^ Feed((a & 1) ^ (b & 1));
      { LowBit(a); LowBit(b); FeedLinear(a & 1, b & 1); }
      ((a >> 1) ^ (b >> 1)) ^ (Feed(a & 1) ^ Feed(b & 1));
      { XorSwap(a >> 1, b >> 1, Feed(a & 1), Feed(b & 1)); }
      Step(a) ^ Step(b);
    }
  }

  lemma EveryStepLinear()
    ensures forall x, y {:trigger Step(Xor(x, y))} :: Step(Xor(x, y)) == Xor(Step(x), Step(y))
  {
    forall x, y ensures Step(Xor(x, y)) == Xor(Step(x), Step(y)) { StepLinear(x, y); }
  }

  lemma {:induction false} IterateLinear<W(!new)>(f: W -> W, xor: (W, W) -> W, n: nat, a: W, b: W)
    requires forall x, y {:trigger f(xor(x, y))} :: f(xor(x, y)) == xor(f(x), f(y))
    ensures Iterate(f, n, xor(a, b)) == xor(Iterate(f, n, a), Iterate(f, n, b))
  {
    if n > 0 { IterateLinear(f, xor, n - 1, a, b); }
  }

  lemma StepNLinear(n: nat, a: bv32, b: bv32)
    ensures StepN(n, Xor(a, b)) == Xor(StepN(n, a), StepN(n, b))
  {
    EveryStepLinear();
    IterateLinear(Step, Xor, n, a, b);
  }

  lemma TakenLinear(a: bv32, b: bv32, x: bv8, y: bv8)
    ensures Taken(Xor(a, b), Xor8(x, y)) == Xor(Taken(a, x), Taken(b, y))
  {
  }

  lemma AbsorbLinear(a: bv32, b: bv32, x: bv8, y: bv8)
    ensures Absorb(Xor(a, b), Xor8(x, y)) == Xor(Absorb(a, x), Absorb(b, y))
  {
    TakenLinear(a, b, x, y);
    StepNLinear(8, Taken(a, x), Taken(b, y));
  }

  lemma EveryAbsorbLinear()
    ensures forall u, v, p, q {:trigger Absorb(Xor(u, v), Xor8(p, q))} ::
              Absorb(Xor(u, v), Xor8(p, q)) == Xor(Absorb(u, p), Absorb(v, q))
  {
    forall u, v, p, q ensures Absorb(Xor(u, v), Xor8(p, q)) == Xor(Absorb(u, p), Absorb(v, q)) {
      AbsorbLinear(u, v, p, q);
    }
  }

  function ZipWith<B>(f: (B, B) -> B, x: seq<B>, y: seq<B>): (r: seq<B>)
    requires |x| == |y|
    ensures |r| == |x|
  {
    seq(|x|, k requires 0 <= k < |x| => f(x[k], y[k]))
  }

  lemma {:induction false} FoldLinear<W(!new), B(!new)>(f: (W, B) -> W, xw: (W, W) -> W, xb: (B, B) -> B,
                                                       a: W, b: W, x: seq<B>, y: seq<B>)
    requires |x| == |y|
    requires forall u, v, p, q {:trigger f(xw(u, v), xb(p, q))} :: f(xw(u, v), xb(p, q)) == xw(f(u, p), f(v, q))
    ensures Fold(f, xw(a, b), ZipWith(xb, x, y)) == xw(Fold(f, a, x), Fold(f, b, y))
    decreases |x|
  {
    if x != [] {
      var n := |x| - 1;
      FoldLinear(f, xw, xb, a, b, x[..n], y[..n]);
      assert ZipWith(xb, x, y)[..n] == ZipWith(xb, x[..n], y[..n]);
    }
  }

  /** The register update is linear over xor, jointly in the register and the message. */
  lemma RegisterLinear(a: bv32, b: bv32, x: seq<bv8>, y: seq<bv8>)
    requires |x| == |y|
    ensures Register(Xor(a, b), ZipWith(Xor8, x, y)) == Xor(Register(a, x), Register(b, y))
  {
    EveryAbsorbLinear();
    FoldLinear(Absorb, Xor, Xor8, a, b, x, y);
  }

  // ------------------------------------------------------------ shifting out zeros

  function Double(z: bv32): bv32 { z << 1 }

  lemma DoubleBits(z: bv32)
    requires z & 0x8000_0000 == 0
    ensures (z << 1) & 1 == 0 && (z << 1) >> 1 == z
  {
  }

  lemma XorNothing(z: bv32)
    ensures z ^ 0 == z && 0 ^ z == z && z ^ z == 0
  {
  }

  lemma HalveDouble(z: bv32)
    requires z & 0x8000_0000 == 0
    ensures Step(Double(z)) == z
  {
    calc {
      Step(Double(z));
      ((z << 1) >> 1) ^ Feed((z << 1) & 1);
      { DoubleBits(z); }
      z ^ Feed(0);
      { XorNothing(z); }
      z;
    }
  }

  lemma {:induction false} IterateOnce<W>(f: W -> W, n: nat, c: W)
    ensures Iterate(f, n + 1, c) == Iterate(f, n, f(c))
  {
    if n > 0 { IterateOnce(f, n - 1, c); }
  }

  lemma {:induction false} StepsUndo(n: nat, w: bv32)
    requires forall k :: 0 <= k < n ==> Iterate(Double, k, w) & 0x8000_0000 == 0
    ensures StepN(n, Iterate(Double, n, w)) == w
  {
    if n > 0 {
      HalveDouble(Iterate(Double, n - 1, w));
      IterateOnce(Step, n - 1, Iterate(Double, n, w));
      StepsUndo(n - 1, w);
    }
  }

  function Up8(w: bv32): bv32 { w << 8 }

  lemma DoubledEight(w: bv32)
    ensures Iterate(Double, 8, w) == Up8(w)
    ensures w & 0xff00_0000 == 0 ==> forall k :: 0 <= k < 8 ==> Iterate(Double, k, w) & 0x8000_0000 == 0
  {
    DoubledBy(w);
  }

  lemma DoubledBy(w: bv32)
    ensures Iterate(Double, 1, w) == w << 1 && Iterate(Double, 2, w) == w << 2
    ensures Iterate(Double, 3, w) == w << 3 && Iterate(Double, 4, w) == w << 4
    ensures Iterate(Double, 5, w) == w << 5 && Iterate(Double, 6, w) == w << 6
    ensures Iterate(Double, 7, w) == w << 7 && Iterate(Double, 8, w) == w << 8
  {
  }

  // A register whose low byte is clear just shifts.
  lemma ZeroByte(w: bv32)
    requires w & 0xff00_0000 == 0
    ensures StepN(8, Up8(w)) == w
  {
    DoubledEight(w);
    StepsUndo(8, w);
  }

  // ------------------------------------------------------------ the table of RFC 1952 section 8

  function TableEntry(n: bv8): bv32 { StepN(8, n as bv32) }

  function LowByte(c: bv32): bv8 { (c & 0xff) as bv8 }

  function TableAbsorb(c: bv32, b: bv8): bv32 { Xor(TableEntry(LowByte(Taken(c, b))), c >> 8) }

  lemma TakenSplits(c: bv32, b: bv8)
    ensures Taken(c, b) == Xor(LowByte(Taken(c, b)) as bv32, Up8(c >> 8)) && (c >> 8) & 0xff00_0000 == 0
  {
  }

  lemma TableAbsorbs(c: bv32, b: bv8)
    ensures TableAbsorb(c, b) == Absorb(c, b)
  {
    TakenSplits(c, b);
    StepNLinear(8, LowByte(Taken(c, b)) as bv32, Up8(c >> 8));
    ZeroByte(c >> 8);
  }

  lemma {:induction false} FoldSame<W(!new), B(!new)>(f: (W, B) -> W, g: (W, B) -> W, c: W, data: seq<B>)
    requires forall w, b {:trigger g(w, b)} :: f(w, b) == g(w, b)
    ensures Fold(f, c, data) == Fold(g, c, data)
    decreases |data|
  {
    if data != [] { FoldSame(f, g, c, data[..|data| - 1]); }
  }

  /** The bit loop computes the table-driven register of RFC 1952 section 8. */
  lemma RegisterByTable(c: bv32, data: seq<bv8>)
    ensures Register(c, data) == Fold(TableAbsorb, c, data)
  {
    forall w, b ensures Absorb(w, b) == TableAbsorb(w, b) { TableAbsorbs(w, b); }
    FoldSame(Absorb, TableAbsorb, c, data);
  }

  // ------------------------------------------------------------ four bytes at a time

  // Up to four bytes as a little-endian word.
  function Le(bs: seq<bv8>): bv32
    decreases |bs|
  {
    if bs == [] then 0 else Taken(Up8(Le(bs[1..])), bs[0])
  }

  lemma {:induction false} LeFits(bs: seq<bv8>)
    requires |bs| <= 3
    ensures Le(bs) & 0xff00_0000 == 0
    ensures |bs| <= 2 ==> Le(bs) & 0xffff_0000 == 0
    ensures |bs| <= 1 ==> Le(bs) & 0xffff_ff00 == 0
    ensures |bs| == 0 ==> Le(bs) == 0
    decreases |bs|
  {
    if bs != [] { LeFits(bs[1..]); }
  }

  lemma {:induction false} IterateSum<W>(f: W -> W, n: nat, k: nat, c: W)
    ensures Iterate(f, n + k, c) == Iterate(f, n, Iterate(f, k, c))
  {
    if n > 0 { IterateSum(f, n - 1, k, c); }
  }

  lemma XorMove(r: bv32, x: bv32, y: bv32)
    ensures Xor(r, Xor(x, y)) == Xor(Xor(r, y), x)
  {
  }

  lemma FoldOne<W, B>(f: (W, B) -> W, c: W, b: B)
    ensures Fold(f, c, [b]) == f(c, b)
  {
    assert [b][..0] == [];
    assert Fold(f, c, []) == c;
  }

  // Taking in up to four bytes is stepping the register xored with them as one word.
  lemma {:induction false} RegisterOfWord(r: bv32, bs: seq<bv8>)
    requires |bs| <= 4
    ensures Register(r, bs) == StepN(8 * |bs|, Xor(r, Le(bs)))
    decreases |bs|
  {
    if bs == [] {
      XorNothing(r);
    } else {
      var b, rest := bs[0], bs[1..];
      assert bs == [b] + rest;
      RegisterSplit(r, [b], rest);
      FoldOne(Absorb, r, b);
      RegisterOfWord(Absorb(r, b), rest);
      LeFits(rest);
      FirstByte(r, b, Le(rest));
      IterateSum(Step, 8 * |rest|, 8, Xor(r, Le(bs)));
    }
  }

  lemma FirstByte(r: bv32, b: bv8, w: bv32)
    requires w & 0xff00_0000 == 0
    ensures StepN(8, Xor(r, Taken(Up8(w), b))) == Xor(Absorb(r, b), w)
  {
    XorMove(r, Up8(w), b as bv32);
    StepNLinear(8, Taken(r, b), Up8(w));
    ZeroByte(w);
  }

  // ------------------------------------------------------------ nothing but zero steps to zero

  lemma ShiftVanishes(d: bv32)
    requires d >> 1 == POLYNOMIAL || (d >> 1 == 0 && d & 1 == 0)
    ensures d == 0
  {
  }

  lemma XorZero(x: bv32, y: bv32)
    ensures x ^ y == 0 <==> x == y
  {
  }

  predicate Zero(d: bv32) { d == 0 }

  lemma XorDiffers(x: bv32, y: bv32)
    ensures Zero(Xor(x, y)) <==> x == y
  {
    XorZero(x, y);
  }

  lemma StepKernel(d: bv32)
    requires Step(d) == 0
    ensures d == 0
  {
    LowBit(d);
    XorZero(d >> 1, Feed(d & 1));
    ShiftVanishes(d);
  }

  lemma {:induction false} StepNKernel(n: nat, d: bv32)
    ensures Zero(StepN(n, d)) <==> Zero(d)
  {
    if n > 0 {
      StepNKernel(n - 1, d);
      if StepN(n, d) == 0 { StepKernel(StepN(n - 1, d)); }
    }
  }

  lemma StepNInjective(n: nat, a: bv32, b: bv32)
    ensures StepN(n, a) == StepN(n, b) <==> a == b
  {
    StepNLinear(n, a, b);
    StepNKernel(n, Xor(a, b));
    XorDiffers(a, b);
    XorDiffers(StepN(n, a), StepN(n, b));
  }

  lemma XorCancels(r: bv32, x: bv32, y: bv32)
    ensures Xor(r, x) == Xor(r, y) <==> x == y
  {
  }

  // A word's low byte and the rest of it can be read back.
  lemma TakenReads(x: bv32, b: bv8)
    requires x & 0xff00_0000 == 0
    ensures LowByte(Taken(Up8(x), b)) == b && Taken(Up8(x), b) >> 8 == x
  {
  }

  lemma TakenInjective(x: bv32, b: bv8, y: bv32, c: bv8)
    requires x & 0xff00_0000 == 0 && y & 0xff00_0000 == 0 && Taken(Up8(x), b) == Taken(Up8(y), c)
    ensures x == y && b == c
  {
    TakenReads(x, b);
    TakenReads(y, c);
  }

  lemma {:induction false} LeInjective(x: seq<bv8>, y: seq<bv8>)
    requires |x| == |y| <= 4 && Le(x) == Le(y)
    ensures x == y
    decreases |x|
  {
    if x != [] {
      LeFits(x[1..]);
      LeFits(y[1..]);
      TakenInjective(Le(x[1..]), x[0], Le(y[1..]), y[0]);
      LeInjective(x[1..], y[1..]);
      assert x == [x[0]] + x[1..] && y == [y[0]] + y[1..];
    }
  }

  lemma WordInjective(r: bv32, x: seq<bv8>, y: seq<bv8>)
    requires |x| == |y| <= 4 && Register(r, x) == Register(r, y)
    ensures x == y
  {
    RegisterOfWord(r, x);
    RegisterOfWord(r, y);
    StepNInjective(8 * |x|, Xor(r, Le(x)), Xor(r, Le(y)));
    XorCancels(r, Le(x), Le(y));
    LeInjective(x, y);
  }

  lemma AbsorbInjective(a: bv32, b: bv32, d: bv8)
    requires Absorb(a, d) == Absorb(b, d)
    ensures a == b
  {
    StepNInjective(8, Taken(a, d), Taken(b, d));
    TakenSame(a, b, d as bv32);
  }

  lemma TakenSame(a: bv32, b: bv32, d: bv32)
    ensures a ^ d == b ^ d ==> a == b
  {
  }

  lemma {:induction false} FoldInjective<W(!new), B(!new)>(f: (W, B) -> W, a: W, b: W, data: seq<B>)
    requires forall v, w, d {:trigger f(v, d), f(w, d)} :: f(v, d) == f(w, d) ==> v == w
    requires Fold(f, a, data) == Fold(f, b, data)
    ensures a == b
    decreases |data|
  {
    if data != [] {
      var n := |data| - 1;
      assert f(Fold(f, a, data[..n]), data[n]) == f(Fold(f, b, data[..n]), data[n]);
      FoldInjective(f, a, b, data[..n]);
    }
  }

  lemma RegisterInjective(a: bv32, b: bv32, data: seq<bv8>)
    requires Register(a, data) == Register(b, data)
    ensures a == b
  {
    forall v, w, d | Absorb(v, d) == Absorb(w, d) ensures v == w { AbsorbInjective(v, w, d); }
    FoldInjective(Absorb, a, b, data);
  }

  /** Two messages that differ only inside a window of at most four bytes have different
      checksums. */
  lemma BurstDetected(before: seq<bv8>, x: seq<bv8>, y: seq<bv8>, after: seq<bv8>)
    requires |x| == |y| <= 4
    ensures Crc32(before + x + after) == Crc32(before + y + after) <==> x == y
  {
    var r := Register(ONES, before);
    RegisterSplit(ONES, before + x, after);
    RegisterSplit(ONES, before + y, after);
    RegisterSplit(ONES, before, x);
    RegisterSplit(ONES, before, y);
    XorCancels(ONES, Register(ONES, before + x + after), Register(ONES, before + y + after));
    if Crc32(before + x + after) == Crc32(before + y + after) {
      RegisterInjective(Register(r, x), Register(r, y), after);
      WordInjective(r, x, y);
    }
  }

  // ------------------------------------------------------------ the residue

  const RESIDUE: bv32 := 0xdebb_20e3

  lemma EightSteps()
    ensures StepN(8, 0xffff_ffff) == 0x2dfd_1072 && StepN(8, 0x2dfd_1072) == 0xbe26_ed00
    ensures StepN(8, 0xbe26_ed00) == 0x00be_26ed && StepN(8, 0x00be_26ed) == RESIDUE
  {
  }

  lemma OnesToResidue()
    ensures StepN(32, ONES) == RESIDUE
  {
    EightSteps();
    IterateSum(Step, 8, 8, ONES);
    IterateSum(Step, 8, 16, ONES);
    IterateSum(Step, 8, 24, ONES);
  }

  lemma XorBalance(r: bv32, x: bv32, c: bv32)
    ensures Xor(r, x) == c <==> x == Xor(c, r)
  {
    XorBack(r, c);
    XorCancels(r, x, Xor(c, r));
  }

  lemma XorBack(r: bv32, c: bv32)
    ensures Xor(r, Xor(c, r)) == c
  {
  }

  /** Four bytes after a message leave the register at the residue of RFC 1662 appendix C exactly
      when they are the message's checksum, least significant byte first. */
  lemma ResidueExact(message: seq<bv8>, check: seq<bv8>)
    requires |check| == 4
    ensures Register(ONES, message + check) == RESIDUE <==> Le(check) == Crc32(message)
  {
    var r := Register(ONES, message);
    RegisterSplit(ONES, message, check);
    RegisterOfWord(r, check);
    OnesToResidue();
    StepNInjective(32, Xor(r, Le(check)), ONES);
    XorBalance(r, Le(check), ONES);
  }
}
