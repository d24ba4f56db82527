/** Folding constants in 64 bits against the machine's 32-bit arithmetic: when the low word of
    the folded value is what the machine computes. */
module Folding {
  import opened Arithmetic
  import opened Bytes
  import opened Semantics

  const WORD := 0x1_0000_0000
  const SIGN := 0x8000_0000

  function BinaryValue(op: BinaryOp, left: long, right: long): long
    requires !op.OtherOp?
  {
    match op
    case AddOp => U32(left as int + right as int)
    case SubOp => U32(right as int - left as int)
    case MulOp => U32(left as int * right as int)
    case Bits(b) => BitwiseFits(b, left, right); Bitwise(b, 32, left, right)
    case ShiftLeft => if left >= 32 then 0 else U32(right * Pow2(left))
    case ShiftRight(signed) => ShiftedRight(if signed && right >= SIGN then right - WORD else right, left)
  }

  // A right shift that keeps filling with the sign.
  function ShiftedRight(x: int, count: long): long {
    if count >= 32 then (if x < 0 then WORD - 1 else 0) else U32(x / Pow2(count))
  }

  lemma BitwiseFits(op: BitOp, a: int, b: int)
    ensures Bitwise(op, 32, a, b) < 0x1_0000_0000
  {
    PowersOfTwo();
  }

  lemma PowersOfTwo()
    ensures Pow2(8) == 0x100 && Pow2(16) == 0x1_0000 && Pow2(32) == 0x1_0000_0000
  {
    assert Pow2(8) == 0x100;
    assert Pow2(16) == 0x100 * Pow2(8);
    assert Pow2(24) == 0x100 * Pow2(16);
    assert Pow2(32) == 0x100 * Pow2(24);
  }

  // ------------------------------------------------------------ arithmetic modulo 2^32

  lemma WrapLow(x: int)
    ensures U32(Wrap64(x)) == U32(x)
  {
    var q := (x + 0x8000_0000_0000_0000) / 0x1_0000_0000_0000_0000;
    assert Wrap64(x) == x - 0x1_0000_0000_0000_0000 * q;
    AddMultiple(x, -0x1_0000_0000 * q);
  }

  lemma AddMultiple(x: int, k: int)
    ensures U32(x + 0x1_0000_0000 * k) == U32(x)
  {
  }

  lemma LowSum(a: int, b: int)
    ensures U32(U32(a) as int + b) == U32(a + b)
  {
    var p := a / 0x1_0000_0000;
    assert a + b == U32(a) + b + 0x1_0000_0000 * p;
  }

  lemma LowProduct(a: int, b: int)
    ensures U32(U32(a) as int * b) == U32(a * b)
  {
    var p := a / 0x1_0000_0000;
    assert a == U32(a) + 0x1_0000_0000 * p;
    assert a * b == (U32(a) as int + 0x1_0000_0000 * p) * b;
    assert (U32(a) as int + 0x1_0000_0000 * p) * b == U32(a) as int * b + 0x1_0000_0000 * (p * b);
    AddMultiple(U32(a) as int * b, p * b);
  }

  // A bitwise result's low bits depend only on the operands' low bits.
  lemma {:induction false} BitwiseLow(op: BitOp, n: nat, a: int, b: int, s: int, t: int)
    ensures Bitwise(op, n, a + Pow2(n) * s, b + Pow2(n) * t) == Bitwise(op, n, a, b)
  {
    if n > 0 {
      var p := Pow2(n - 1);
      HalfShift(a, p, s);
      HalfShift(b, p, t);
      BitwiseLow(op, n - 1, a / 2, b / 2, s, t);
    }
  }

  lemma HalfShift(a: int, p: nat, s: int)
    ensures (a + 2 * p * s) / 2 == a / 2 + p * s && (a + 2 * p * s) % 2 == a % 2
  {
    var k := p * s;
    assert 2 * p * s == 2 * k;
  }

  lemma {:induction false} BitwisePrefix(op: BitOp, n: nat, m: nat, a: int, b: int)
    requires m <= n
    ensures Bitwise(op, n, a, b) % Pow2(m) == Bitwise(op, m, a, b)
  {
    if m > 0 {
      BitwisePrefix(op, n - 1, m - 1, a / 2, b / 2);
      DoubleMod(Digit(op, a, b), Bitwise(op, n - 1, a / 2, b / 2), Pow2(m - 1));
    }
  }

  lemma DoubleMod(d: nat, x: nat, p: nat)
    requires d <= 1 && p > 0
    ensures (d + 2 * x) % (2 * p) == d + 2 * (x % p)
  {
    var q := x / p;
    assert x == p * q + x % p;
    assert d + 2 * x == 2 * p * q + (d + 2 * (x % p));
    assert 2 * p * q == (2 * p) * q;
    ModUnique(d + 2 * x, 2 * p, q, d + 2 * (x % p));
  }

  lemma BitwiseSplit(op: BitOp, n: nat, m: nat, a: int, b: int, s: int, t: int)
    requires m <= n
    ensures Bitwise(op, n, a + Pow2(m) * s, b + Pow2(m) * t) % Pow2(m) == Bitwise(op, m, a, b)
  {
    BitwisePrefix(op, n, m, a + Pow2(m) * s, b + Pow2(m) * t);
    BitwiseLow(op, m, a, b, s, t);
  }

  /** The 64-bit operation agrees with the 32-bit one on the low word. */
  lemma BitwiseWords(op: BitOp, a: int, b: int)
    ensures U32(Bitwise(op, 64, a, b)) == Bitwise(op, 32, U32(a), U32(b))
  {
    SplitWord(a);
    SplitWord(b);
    BitwiseSplit(op, 64, 32, U32(a), U32(b), a / WORD, b / WORD);
    PowersOfTwo();
  }

  lemma SplitWord(a: int)
    ensures a == U32(a) + Pow2(32) * (a / 0x1_0000_0000)
  {
    PowersOfTwo();
  }

  lemma SumLow(a: int, b: int, c: int, d: int)
    requires U32(a) == U32(c) && U32(b) == U32(d)
    ensures U32(a + b) == U32(c + d)
  {
    LowSum(a, b);
    LowSum(c, d);
    LowSum(b, U32(a) as int);
    LowSum(d, U32(a) as int);
  }

  lemma DifferenceLow(a: int, b: int, c: long, d: long)
    requires c == U32(a) && d == U32(b)
    ensures U32(a - b) == U32(c as int - d as int)
  {
    var p, q := a / 0x1_0000_0000, b / 0x1_0000_0000;
    assert a - b == c as int - d as int + 0x1_0000_0000 * (p - q);
    AddMultiple(c as int - d as int, p - q);
  }

  lemma ProductLow(a: int, b: int, c: long, d: long)
    requires c == U32(a) && d == U32(b)
    ensures U32(a * b) == U32(c as int * d as int)
  {
    LowProduct(a, b);
    LowProduct(b, c as int);
    assert c as int * b == b * c as int;
    assert d as int * c as int == c as int * d as int;
  }

  // ------------------------------------------------------------ shifts

  // Bits 32 to 63 of a folded constant.
  function High(b: i64): nat { b % 0x1_0000_0000_0000_0000 / 0x1_0000_0000 }

  /** The operands on which the folded result's low word is the machine's. With n the count modulo
      32, a right shift needs bits 32 to 31 + n of the value to be what the machine shifts in, the
      sign bit for shri and 0 for shro; a count of 32 or more needs the surviving bits to be that
      too, and on the left to be 0. */
  predicate FoldOk(op: BinaryOp, a: i64, b: i64) {
    var n := U32(a) % 32;
    match op
    case ShiftLeft => U32(a) < 32 || U32(b) % Pow2(32 - n) == 0
    case ShiftRight(signed) =>
      var ones := signed && U32(b) >= SIGN;
      && High(b) % Pow2(n) == (if ones then Pow2(n) - 1 else 0)
      && (U32(a) < 32 || U32(b) / Pow2(n) == (if ones then Pow2(32 - n) - 1 else 0))
    case _ => true
  }

  lemma {:induction false} PowersMultiply(n: nat, m: nat)
    ensures Pow2(n + m) == Pow2(n) * Pow2(m)
    decreases n
  {
    if n > 0 { PowersMultiply(n - 1, m); }
  }

  lemma Halves(b: i64)
    ensures High(b) < WORD && b % 0x1_0000_0000_0000_0000 == High(b) * WORD + U32(b)
  {
  }

  lemma DivideSum(k: int, p: nat, u: int)
    requires p > 0
    ensures (k * p + u) / p == k + u / p
  {
    var v := u / p;
    assert u == v * p + u % p;
    assert k * p + u == (k + v) * p + u % p;
    QuotientUnique(k * p + u, p, k + v, u % p);
  }

  // The low word of a 64-bit value shifted right: what the high word shifts in, then what stays.
  lemma LowOfShifted(q: nat, u: long, p: nat, m: nat)
    requires p > 0 && p * m == WORD
    ensures U32((q * WORD + u) / p) == q % p * m + u / p
  {
    DivideBound(u, p, m);
    Regroup(q, m, p);
    DivideSum(q * m, p, u);
    LowDigits(q, u / p, p, m);
  }

  lemma Regroup(q: int, p: int, m: int)
    requires p * m == WORD
    ensures q * p * m == q * WORD
  {
    assert q * p * m == q * (p * m);
  }

  lemma LowDigits(q: nat, x: nat, p: nat, m: nat)
    requires p > 0 && p * m == WORD && x < m
    ensures U32(q * m + x) == q % p * m + x
  {
    var k, r := q / p, q % p;
    Regroup(k, p, m);
    assert q * m == k * p * m + r * m by { assert q == k * p + r; }
    TopDigit(r, x, p, m);
    AddMultiple(r * m + x, k);
  }

  lemma TopDigit(r: nat, x: nat, p: nat, m: nat)
    requires p * m == WORD && r < p && x < m
    ensures 0 <= r * m + x < WORD
  {
    MulMono(m, r + 1, p);
  }

  lemma DivideBound(u: long, p: nat, m: nat)
    requires p > 0 && p * m == WORD
    ensures u / p < m
  {
    if u / p >= m { MulMono(p, m, u / p); }
  }

  // Two digits determine a number.
  lemma DigitsUnique(r: int, x: int, s: int, y: int, m: nat)
    requires 0 <= x < m && 0 <= y < m
    ensures r * m + x == s * m + y <==> r == s && x == y
  {
    if r * m + x == s * m + y {
      QuotientUnique(r * m + x, m, r, x);
      QuotientUnique(s * m + y, m, s, y);
    }
  }

  lemma SignedQuotient(right: long, p: nat, m: nat)
    requires p > 0 && p * m == WORD
    ensures U32((right as int - WORD) / p) == WORD - m + right / p
  {
    DivideBound(right, p, m);
    BelowQuotient(right, p, m);
    AddMultiple(right / p - m, 1);
  }

  lemma BelowQuotient(right: long, p: nat, m: nat)
    requires p > 0 && p * m == WORD
    ensures (right as int - WORD) / p == right / p - m
  {
    var k := 0 - m as int;
    assert k * p == -WORD;
    DivideSum(k, p, right);
  }

  lemma ShortShift(right: long, ones: bool, left: nat, p: nat, m: nat)
    requires left < 32 && p == Pow2(left) && p * m == WORD
    ensures ShiftedRight(if ones then right - WORD else right, left) ==
            (if ones then WORD - m else 0) + right / p
  {
    if ones {
      SignedQuotient(right, p, m);
    } else {
      DivideBelow(right, p);
    }
  }

  lemma DivideBelow(x: nat, p: nat)
    requires p > 0
    ensures x / p <= x
  {
    assert x == p * (x / p) + x % p;
    assert p * (x / p) >= x / p by { MulMono(x / p, 1, p); }
  }

  lemma RightShiftExact(a: i64, b: i64, signed: bool)
    ensures var op := ShiftRight(signed);
            U32(BinaryResult(op, Constant(a), Constant(b)).value) == BinaryValue(op, U32(a), U32(b))
            <==> FoldOk(op, a, b)
  {
    var n := a % 32;
    assert U32(a) % 32 == n;
    FoldedRight(b, n);
    PowersMultiply(n, 32 - n);
    PowersOfTwo();
    Halves(b);
    RightShiftWords(U32(a), High(b), U32(b), signed && U32(b) >= SIGN, Pow2(n), Pow2(32 - n));
  }

  lemma FoldedRight(b: i64, n: nat)
    ensures U32(Wrap64(b % 0x1_0000_0000_0000_0000 / Pow2(n))) == U32((High(b) * WORD + U32(b)) / Pow2(n))
  {
    Halves(b);
    WrapLow(b % 0x1_0000_0000_0000_0000 / Pow2(n));
  }

  lemma RightShiftWords(left: long, q: nat, u: long, ones: bool, p: nat, m: nat)
    requires p == Pow2(left % 32) && p * m == WORD
    ensures U32((q * WORD + u) / p) == ShiftedRight(if ones then u - WORD else u, left)
            <==> q % p == (if ones then p - 1 else 0) && (left < 32 || u / p == (if ones then m - 1 else 0))
  {
    LowOfShifted(q, u, p, m);
    RightShiftDigits(left, u, ones, q % p, u / p, p, m);
  }

  // The digits h and x are the machine's result exactly when each is what it shifts in.
  lemma RightShiftDigits(left: long, right: long, ones: bool, h: nat, x: nat, p: nat, m: nat)
    requires p == Pow2(left % 32) && p * m == WORD && x == right / p
    ensures h * m + x == ShiftedRight(if ones then right - WORD else right, left)
            <==> h == (if ones then p - 1 else 0) && (left < 32 || x == (if ones then m - 1 else 0))
  {
    DivideBound(right, p, m);
    TopFill(p, m);
    if left < 32 {
      ShortShift(right, ones, left, p, m);
      DigitsUnique(h, x, if ones then p - 1 else 0, x, m);
    } else {
      DigitsUnique(h, x, if ones then p - 1 else 0, if ones then m - 1 else 0, m);
    }
  }

  lemma TopFill(p: nat, m: nat)
    requires p * m == WORD
    ensures (p - 1) * m == WORD - m
  {
  }

  lemma LeftShiftExact(a: i64, b: i64)
    ensures U32(BinaryResult(ShiftLeft, Constant(a), Constant(b)).value) == BinaryValue(ShiftLeft, U32(a), U32(b))
            <==> FoldOk(ShiftLeft, a, b)
  {
    var n := a % 32;
    assert U32(a) % 32 == n;
    FoldedLeft(b, Pow2(n));
    if U32(a) >= 32 {
      LongLeft(U32(b), n);
    } else {
      assert n == U32(a);
    }
  }

  lemma LongLeft(u: long, n: nat)
    requires n < 32
    ensures U32(u * Pow2(n)) == 0 <==> u % Pow2(32 - n) == 0
  {
    PowersMultiply(n, 32 - n);
    PowersOfTwo();
    VanishesExactly(u, Pow2(n), Pow2(32 - n));
  }

  lemma FoldedLeft(b: i64, p: nat)
    ensures U32(Wrap64(b * p)) == U32(U32(b) * p)
  {
    WrapLow(b * p);
    LowProduct(b, p);
  }

  lemma VanishesExactly(u: long, p: nat, m: nat)
    requires p > 0 && m > 0 && p * m == WORD
    ensures U32(u * p) == 0 <==> u % m == 0
  {
    var k, r := u / m, u % m;
    assert u * p == k * WORD + r * p by { assert (k * m + r) * p == k * (p * m) + r * p; }
    AddMultiple(r * p, k);
    assert r * p < WORD by { MulMono(p, r + 1, m); }
    if r > 0 { MulMono(p, 1, r); }
  }

  /** For every operation the analyser folds, and all constants, the low word of the folded value
      is the machine's result exactly under FoldOk. */
  lemma FoldExact(op: BinaryOp, a: i64, b: i64)
    requires !op.OtherOp?
    ensures U32(BinaryResult(op, Constant(a), Constant(b)).value) == BinaryValue(op, U32(a), U32(b))
            <==> FoldOk(op, a, b)
  {
    match op
    case AddOp => WrapLow(a + b); SumLow(a, b, U32(a), U32(b));
    case SubOp => WrapLow(b - a); DifferenceLow(b, a, U32(b), U32(a));
    case MulOp => WrapLow(a * b); ProductLow(a, b, U32(a), U32(b));
    case Bits(o) => WrapLow(Bitwise(o, 64, a, b)); BitwiseWords(o, a, b);
    case ShiftLeft => LeftShiftExact(a, b);
    case ShiftRight(signed) => RightShiftExact(a, b, signed);
  }

  /** On constants that are words and counts below 32, shlo and shro are folded rightly, and shri
      exactly when the sign bit is clear or nothing is shifted. */
  lemma WordShifts(a: i64, b: i64)
    requires 0 <= a < 32 && 0 <= b < WORD
    ensures FoldOk(ShiftLeft, a, b) && FoldOk(ShiftRight(false), a, b)
    ensures FoldOk(ShiftRight(true), a, b) <==> b < SIGN || a == 0
  {
    assert U32(a) == a && U32(a) % 32 == a && U32(b) == b;
    HighOfWord(b);
    assert 0 % Pow2(a) == 0;
    OneWhole(a);
  }

  lemma HighOfWord(b: i64)
    requires 0 <= b < WORD
    ensures High(b) == 0
  {
  }

  lemma OneWhole(a: nat)
    ensures Pow2(a) == 1 <==> a == 0
  {
    if a > 0 { assert Pow2(a) == 2 * Pow2(a - 1); }
  }

  /** A failing input of shro: -1 by 1 is folded to all ones. */
  lemma OrdinalFoldedWrongly()
    ensures U32(BinaryResult(ShiftRight(false), Constant(1), Constant(-1)).value) == 0xffff_ffff
    ensures BinaryValue(ShiftRight(false), U32(1), U32(-1)) == 0x7fff_ffff
  {
    assert Pow2(1) == 2;
    assert -1 % 0x1_0000_0000_0000_0000 == 0xffff_ffff_ffff_ffff;
  }

  /** A failing input of shri: the sign of 0x80000000 is lost. */
  lemma IntegerFoldedWrongly()
    ensures U32(BinaryResult(ShiftRight(true), Constant(1), Constant(SIGN)).value) == 0x4000_0000
    ensures BinaryValue(ShiftRight(true), U32(1), U32(SIGN)) == 0xc000_0000
  {
    assert Pow2(1) == 2;
    assert SIGN % 0x1_0000_0000_0000_0000 / 2 == 0x4000_0000;
    assert Wrap64(0x4000_0000) == 0x4000_0000;
    assert (SIGN - WORD) / 2 == -0x4000_0000;
  }

  /** Failing inputs at a count of 32, which the analyser takes for 0: any shift of 1. */
  lemma CountFoldedWrongly(signed: bool)
    ensures U32(BinaryResult(ShiftRight(signed), Constant(32), Constant(1)).value) == 1
            && BinaryValue(ShiftRight(signed), U32(32), U32(1)) == 0
    ensures U32(BinaryResult(ShiftLeft, Constant(32), Constant(1)).value) == 1
            && BinaryValue(ShiftLeft, U32(32), U32(1)) == 0
  {
    assert Pow2(0) == 1;
  }
}
