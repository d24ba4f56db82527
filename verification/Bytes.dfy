// Bytes, big-endian fields and single-bit flags as the board's C code uses them.
module Bytes {

  type byte = x: int | 0 <= x < 256
  type word = x: int | 0 <= x < 0x1_0000
  type long = x: int | 0 <= x < 0x1_0000_0000

  // The C casts (uint8_t), (uint16_t) and (uint32_t).
  function U8(x: int): byte { x % 256 }
  function U16(x: int): word { x % 0x1_0000 }
  function U32(x: int): long { x % 0x1_0000_0000 }

  // ++ and -- on a byte.
  function Inc(x: byte): byte { U8(x as int + 1) }
  function Dec(x: byte): byte { U8(x as int - 1) }

  function Be16(s: seq<byte>, a: nat): word
    requires a + 2 <= |s|
  {
    s[a] as int * 256 + s[a + 1] as int
  }

  function Be32(s: seq<byte>, a: nat): long
    requires a + 4 <= |s|
  {
    s[a] as int * 0x100_0000 + s[a + 1] as int * 0x1_0000 + s[a + 2] as int * 0x100 + s[a + 3] as int
  }

  function PutBe16(s: seq<byte>, a: nat, v: word): (r: seq<byte>)
    requires a + 2 <= |s|
    ensures |r| == |s|
  {
    s[a := v / 256][a + 1 := v % 256]
  }

  function PutBe32(s: seq<byte>, a: nat, v: long): (r: seq<byte>)
    requires a + 4 <= |s|
    ensures |r| == |s|
  {
    s[a := v / 0x100_0000]
     [a + 1 := v / 0x1_0000 % 256]
     [a + 2 := v / 0x100 % 256]
     [a + 3 := v % 256]
  }

  lemma PutGet16(s: seq<byte>, a: nat, v: word)
    requires a + 2 <= |s|
    ensures Be16(PutBe16(s, a, v), a) == v
  {
  }

  lemma PutGet32(s: seq<byte>, a: nat, v: long)
    requires a + 4 <= |s|
    ensures Be32(PutBe32(s, a, v), a) == v
  {
    assert v / 0x1_0000 == (v / 0x100_0000) * 256 + v / 0x1_0000 % 256;
    assert v / 0x100 == (v / 0x1_0000) * 256 + v / 0x100 % 256;
  }

  // x & (1 << n) as a truth value; no bit of zero is set.
  predicate Bit(x: nat, n: nat)
    ensures x == 0 ==> !Bit(x, n)
  {
    if n == 0 then x % 2 == 1 else Bit(x / 2, n - 1)
  }

  function Pow2(n: nat): (r: nat)
    ensures r > 0
  {
    if n == 0 then 1 else 2 * Pow2(n - 1)
  }

  // x | (1 << n)
  function SetBit(x: nat, n: nat): (r: nat)
    ensures r >= x
  {
    if Bit(x, n) then x else x + Pow2(n)
  }

  // x & ~(1 << n)
  function ClearBit(x: nat, n: nat): (r: nat)
    ensures r <= x
  {
    BitWeighs(x, n);
    if Bit(x, n) then x - Pow2(n) else x
  }

  lemma {:induction false} BitWeighs(x: nat, n: nat)
    ensures Bit(x, n) ==> x >= Pow2(n)
  {
    if n > 0 { BitWeighs(x / 2, n - 1); }
  }

  lemma SetBitHalves(x: nat, n: nat)
    requires n > 0
    ensures SetBit(x, n) == x % 2 + 2 * SetBit(x / 2, n - 1)
  {
  }

  lemma ClearBitHalves(x: nat, n: nat)
    requires n > 0
    ensures ClearBit(x, n) == x % 2 + 2 * ClearBit(x / 2, n - 1)
  {
  }

  lemma {:induction false} SetBitBits(x: nat, n: nat, k: nat)
    ensures Bit(SetBit(x, n), k) <==> (k == n || Bit(x, k))
  {
    if n > 0 {
      SetBitHalves(x, n);
      if k > 0 { SetBitBits(x / 2, n - 1, k - 1); }
    }
  }

  lemma {:induction false} ClearBitBits(x: nat, n: nat, k: nat)
    ensures Bit(ClearBit(x, n), k) <==> (k != n && Bit(x, k))
  {
    if n > 0 {
      ClearBitHalves(x, n);
      if k > 0 { ClearBitBits(x / 2, n - 1, k - 1); }
    }
  }

  lemma {:induction false} SetBitFits(x: nat, n: nat, width: nat)
    requires n < width && x < Pow2(width)
    ensures SetBit(x, n) < Pow2(width)
  {
    if n > 0 {
      SetBitHalves(x, n);
      SetBitFits(x / 2, n - 1, width - 1);
    }
  }

  // The byte forms used on flag bytes.
  function Or(x: byte, n: nat): (r: byte)
    requires n < 8
    ensures r != 0
  {
    assert Pow2(8) == 256;
    SetBitFits(x, n, 8);
    BitWeighs(x, n);
    SetBit(x, n)
  }

  function AndNot(x: byte, n: nat): byte {
    ClearBit(x, n)
  }
}
