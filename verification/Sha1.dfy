/** SHA-1 as RFC 3174 defines it: padding (section 4), the 80-step block function and the fold
    over the padded message (section 6.1). */
module Sha1 {
  import opened Arithmetic

  datatype Hash = Hash(a: bv32, b: bv32, c: bv32, d: bv32, e: bv32)

  const INITIAL := Hash(0x6745_2301, 0xefcd_ab89, 0x98ba_dcfe, 0x1032_5476, 0xc3d2_e1f0)

  function Rotate1(v: bv32): bv32 { (v << 1) | (v >> 31) }
  function Rotate5(v: bv32): bv32 { (v << 5) | (v >> 27) }
  function Rotate30(v: bv32): bv32 { (v << 30) | (v >> 2) }

  function BigEndian(a: bv8, b: bv8, c: bv8, d: bv8): bv32 {
    ((a as bv32) << 24) | ((b as bv32) << 16) | ((c as bv32) << 8) | (d as bv32)
  }

  // The message schedule of one block.
  function Schedule(block: seq<bv8>, n: nat): (w: seq<bv32>)
    requires |block| == 64
    ensures |w| == n
  {
    if n == 0 then []
    else Schedule(block, n - 1) + [NextWord(block, Schedule(block, n - 1))]
  }

  function NextWord(block: seq<bv8>, w: seq<bv32>): bv32
    requires |block| == 64
  {
    var t := |w|;
    if t < 16 then BigEndian(block[4 * t], block[4 * t + 1], block[4 * t + 2], block[4 * t + 3])
    else Rotate1(w[t - 3] ^ w[t - 8] ^ w[t - 14] ^ w[t - 16])
  }

  function F(t: nat, b: bv32, c: bv32, d: bv32): bv32 {
    if t < 20 then (b & c) | (!b & d)
    else if t < 40 then b ^ c ^ d
    else if t < 60 then (b & c) | (b & d) | (c & d)
    else b ^ c ^ d
  }

  function K(t: nat): bv32 {
    if t < 20 then 0x5a82_7999 else if t < 40 then 0x6ed9_eba1 else if t < 60 then 0x8f1b_bcdc else 0xca62_c1d6
  }

  function Temporary(t: nat, a: bv32, b: bv32, c: bv32, d: bv32, e: bv32, w: bv32): bv32 {
    Rotate5(a) + F(t, b, c, d) + e + K(t) + w
  }

  function Round(t: nat, h: Hash, w: bv32): Hash {
    Hash(Temporary(t, h.a, h.b, h.c, h.d, h.e, w), h.a, Rotate30(h.b), h.c, h.d)
  }

  // The first n steps over the schedule.
  function Rounds(words: seq<bv32>, n: nat, h: Hash): Hash
    requires n <= |words|
  {
    if n == 0 then h else Round(n - 1, Rounds(words, n - 1, h), words[n - 1])
  }

  function Sum(h: Hash, r: Hash): Hash { Hash(h.a + r.a, h.b + r.b, h.c + r.c, h.d + r.d, h.e + r.e) }

  function Compress(h: Hash, block: seq<bv8>): Hash
    requires |block| == 64
  {
    var words := Schedule(block, 80);
    Sum(h, Rounds(words, |words|, h))
  }

  function FoldBlocks(data: seq<bv8>): Hash
    requires |data| % 64 == 0
    decreases |data|
  {
    if data == [] then INITIAL else Compress(FoldBlocks(data[..|data| - 64]), data[|data| - 64..])
  }

  lemma RoundsNext(words: seq<bv32>, n: nat, h: Hash)
    requires n < |words|
    ensures Rounds(words, n + 1, h) == Round(n, Rounds(words, n, h), words[n])
  {
  }

  lemma FoldAppends(data: seq<bv8>, block: seq<bv8>)
    requires |data| % 64 == 0 && |block| == 64
    ensures FoldBlocks(data + block) == Compress(FoldBlocks(data), block)
  {
    assert (data + block)[..|data + block| - 64] == data;
    assert (data + block)[|data + block| - 64..] == block;
  }

  predicate Matches(h: Hash, data: seq<bv8>) { |data| % 64 == 0 && h == FoldBlocks(data) }

  // The state is the fold of these bytes; said so that a proof that only carries the state along
  // need not look at its bits.
  ghost predicate IsFold(h: Hash, data: seq<bv8>) {
    |data| % 64 == 0 && forall g: Hash {:trigger Matches(g, data)} :: Matches(g, data) ==> g == h
  }

  lemma IsFoldExact(h: Hash, data: seq<bv8>)
    requires |data| % 64 == 0
    ensures IsFold(h, data) <==> h == FoldBlocks(data)
  {
    assert Matches(FoldBlocks(data), data);
  }

  lemma IsFoldNext(h: Hash, data: seq<bv8>, block: seq<bv8>)
    requires IsFold(h, data) && |block| == 64
    ensures IsFold(Compress(h, block), data + block)
  {
    IsFoldExact(h, data);
    FoldAppends(data, block);
    IsFoldExact(Compress(h, block), data + block);
  }

  // ------------------------------------------------------------ padding

  function Zeros(n: nat): (z: seq<bv8>)
    ensures |z| == n
  {
    seq(n, i => 0)
  }

  function Pow256(k: nat): (p: nat)
    ensures p > 0
  {
    if k == 0 then 1 else 256 * Pow256(k - 1)
  }

  // The C cast (uint8_t).
  function LowByte(v: int): bv8 { (v % 256) as bv8 }

  // The byte of weight 256^i, as a shift and that cast give it.
  function ByteOf(v: nat, i: nat): bv8 { LowByte(v / Pow256(i)) }

  // A 64-bit number, most significant byte first.
  function Field(v: nat): (s: seq<bv8>)
    ensures |s| == 8
  {
    seq(8, i requires 0 <= i < 8 => ByteOf(v, 7 - i))
  }

  lemma FieldAt(v: nat, i: nat)
    requires i < 8
    ensures Field(v)[7 - i] == ByteOf(v, i)
  {
  }

  const WORD64 := 0x1_0000_0000_0000_0000

  function U64(n: nat): nat { n % WORD64 }

  lemma U64Adds(n: nat, k: nat)
    ensures U64(U64(n) + k) == U64(n + k)
  {
    var q := n / WORD64;
    assert n == WORD64 * q + U64(n);
    ModUnique(n + k, WORD64, q + (U64(n) + k) / WORD64, U64(U64(n) + k));
  }

  lemma U64Eights(n: nat)
    ensures U64(U64(n) * 8) == U64(8 * n)
  {
    var q := n / WORD64;
    assert n == WORD64 * q + U64(n);
    ModUnique(8 * n, WORD64, 8 * q + U64(n) * 8 / WORD64, U64(U64(n) * 8));
  }

  function Fill(n: nat): nat { (119 - n % 64) % 64 }

  // RFC 3174 section 4; beyond its 2^64-bit limit the length field wraps as the C code's does.
  function Pad(m: seq<bv8>): seq<bv8> {
    m + [0x80] + Zeros(Fill(|m|)) + Field(U64(8 * |m|))
  }

  lemma FillFits(n: nat)
    ensures (n + 9 + Fill(n)) % 64 == 0 && Fill(n) < 64
  {
  }

  lemma FillIs(whole: nat, size: nat)
    requires whole % 64 == 0 && size < 64
    ensures Fill(whole + size) == if size <= 55 then 55 - size else 119 - size
  {
  }

  lemma PadFits(m: seq<bv8>)
    ensures |Pad(m)| % 64 == 0 && |m| + 9 <= |Pad(m)| < |m| + 9 + 64
  {
    FillFits(|m|);
    assert |Pad(m)| == |m| + 9 + Fill(|m|);
  }

  lemma PadBuilds(m: seq<bv8>, k: nat, l: nat)
    requires k + l == Fill(|m|)
    ensures m + [0x80] + Zeros(k) + Zeros(l) + Field(U64(8 * |m|)) == Pad(m)
  {
    assert Zeros(k) + Zeros(l) == Zeros(k + l);
  }

  function Sum1(m: seq<bv8>): Hash {
    PadFits(m);
    FoldBlocks(Pad(m))
  }

  function WordBytes(v: bv32): seq<bv8> {
    [((v >> 24) & 0xff) as bv8, ((v >> 16) & 0xff) as bv8, ((v >> 8) & 0xff) as bv8, (v & 0xff) as bv8]
  }

  function Digest(h: Hash): seq<bv8> {
    WordBytes(h.a) + WordBytes(h.b) + WordBytes(h.c) + WordBytes(h.d) + WordBytes(h.e)
  }

  lemma WordBytesReads(v: bv32)
    ensures var s := WordBytes(v); BigEndian(s[0], s[1], s[2], s[3]) == v
  {
  }

  // ------------------------------------------------------------ padding loses nothing

  lemma PadAt(m: seq<bv8>, k: nat)
    requires k < |Pad(m)| - 8
    ensures Pad(m)[k] == if k < |m| then m[k] else if k == |m| then 0x80 else 0
  {
  }

  /** Different messages are padded differently. */
  lemma PadInjective(x: seq<bv8>, y: seq<bv8>)
    requires Pad(x) == Pad(y)
    ensures x == y
  {
    PadFits(x);
    PadFits(y);
    PadAt(x, |x|);
    PadAt(y, |x|);
    PadAt(x, |y|);
    PadAt(y, |y|);
    forall k | 0 <= k < |x| ensures x[k] == y[k] {
      PadAt(x, k);
      PadAt(y, k);
    }
  }
}
