/** From a slot's position to the stereo sum: sample fetch, interpolation, gains. Each gain only
    brings a sample closer to silence. */
module ScspMix {
  import opened Bytes
  import opened Scsp
  import opened Wrappers

  // Sample RAM and ROM; one that is not attached is empty.
  datatype Memory = Memory(ram: seq<byte>, rom: seq<byte>)

  function ReadByte(m: Memory, a: long): Option<byte> {
    if a < |m.ram| then Some(m.ram[a]) else if a < |m.rom| then Some(m.rom[a]) else None
  }

  // The C casts (int16_t) and (int8_t).
  function S16(x: int): int { var u := U16(x) as int; if u >= 0x8000 then u - 0x1_0000 else u }
  function S8(x: int): int { var u := U8(x) as int; if u >= 0x80 then u - 0x100 else u }

  predicate Is16(x: int) { -0x8000 <= x < 0x8000 }

  function Pcm16(m: Memory, a: long): (s: int)
    ensures Is16(s)
  {
    var high, low := ReadByte(m, a), ReadByte(m, U32(a as int + 1));
    if high.Some? && low.Some? then S16(high.value as int * 256 + low.value as int) else 0
  }

  function StartOf(r: Regs): nat { r.control as int % 16 * 0x1_0000 + r.startLow as int }

  function SampleAt(m: Memory, r: Regs, a: nat): (s: int)
    ensures Is16(s)
  {
    if EightBit(r) then
      var b := ReadByte(m, U32(StartOf(r) + a));
      if b.Some? then S8(b.value as int) * 256 else 0
    else Pcm16(m, U32(StartOf(r) + (a - a % 2)))
  }

  function SampleAddress(v: Voice, r: Regs): nat {
    if EightBit(r) then v.address as int / 0x1000 else v.address as int / 0x800 / 2 * 2
  }

  function Fraction(v: Voice): nat { v.address as int % 0x1000 }

  function First(m: Memory, v: Voice, r: Regs): int { SampleAt(m, r, SampleAddress(v, r)) }
  function Second(m: Memory, v: Voice, r: Regs): int {
    SampleAt(m, r, SampleAddress(v, r) + if EightBit(r) then 1 else 2)
  }

  // The mixed value before the cast; >> on a negative number rounds down.
  function Blend(first: int, second: int, fraction: int): int {
    (first * (0x1000 - fraction) + second * fraction) / 0x1000
  }

  function Interpolated(m: Memory, v: Voice, r: Regs): int {
    S16(Blend(First(m, v, r), Second(m, v, r), Fraction(v)))
  }

  function Min(a: int, b: int): int { if a < b then a else b }
  function Max(a: int, b: int): int { if a < b then b else a }

  lemma BlendBetween(first: int, second: int, f: int)
    requires 0 <= f < 0x1000
    ensures Min(first, second) <= Blend(first, second, f) <= Max(first, second)
    ensures f == 0 ==> Blend(first, second, f) == first
  {
    var total := first * (0x1000 - f) + second * f;
    assert total == 0x1000 * first + (second - first) * f;
    if first <= second {
      Scaled(second - first, f);
    } else {
      Scaled(first - second, f);
      assert (second - first) * f == -((first - second) * f);
    }
  }

  lemma Scaled(d: nat, f: nat)
    requires f < 0x1000
    ensures 0 <= d * f <= d * 0x1000
  {
  }

  /** The interpolated sample lies between its two neighbours, so the 16-bit cast loses nothing,
      and at a whole position it is the first of them. */
  lemma InterpolationBetween(m: Memory, v: Voice, r: Regs)
    ensures var a, b, s := First(m, v, r), Second(m, v, r), Interpolated(m, v, r);
            && Min(a, b) <= s <= Max(a, b) && (Fraction(v) == 0 ==> s == a)
            && s == Blend(a, b, Fraction(v))
  {
    BlendFits(First(m, v, r), Second(m, v, r), Fraction(v));
  }

  lemma BlendFits(a: int, b: int, f: int)
    requires Is16(a) && Is16(b) && 0 <= f < 0x1000
    ensures Min(a, b) <= Blend(a, b, f) <= Max(a, b) && S16(Blend(a, b, f)) == Blend(a, b, f)
    ensures f == 0 ==> Blend(a, b, f) == a
  {
    BlendBetween(a, b, f);
    CastFits(Blend(a, b, f));
  }

  lemma CastFits(x: int)
    requires Is16(x)
    ensures S16(x) == x
  {
  }

  // ------------------------------------------------------------ gains

  // C division, which rounds toward zero.
  function Quot(a: int, b: int): int
    requires b > 0
  {
    if a >= 0 then a / b else -(-a / b)
  }

  // Attenuation by 3 dB steps.
  const PAN := [32768, 23198, 16423, 11627, 8231, 5827, 4125, 2920, 2068, 1464, 1036, 734, 519, 368, 260, 0]

  function TotalLevel(r: Regs): nat { 32767 - r.level as int % 256 * 128 }

  function Levelled(s: int, r: Regs): int {
    if Bits(r.level, 8, 1) == 0 then Quot(s * TotalLevel(r), 32767) else s
  }

  function Enveloped(s: int, v: Voice): int { Quot(s * v.envelope, 32767) }

  function Direct(r: Regs): nat { Bits(r.pan, 13, 3) }

  function Dry(s: int, r: Regs): int
  {
    if Direct(r) == 0 then 0 else Quot(s, Pow2(if Direct(r) < 7 then 7 - Direct(r) else 0))
  }

  function Pan(r: Regs): nat { PAN[Bits(r.pan, 8, 5) % 16] }
  predicate PanRight(r: Regs) { Bits(r.pan, 12, 1) == 1 }

  function LeftGain(r: Regs): int { if PanRight(r) then 32768 else Pan(r) }
  function RightGain(r: Regs): int { if PanRight(r) then Pan(r) else 32768 }

  // A slot's part of the left and right sums, given its envelope-advanced state.
  function Mono(m: Memory, u: Voice, r: Regs): int {
    Dry(Enveloped(Levelled(Interpolated(m, u, r), r), Envelope(u, r)), r)
  }

  datatype Stereo = Stereo(left: int, right: int)

  function Contribution(m: Memory, v: Voice, r: Regs): Stereo {
    var u := Synchronize(v, r);
    if !u.active then Stereo(0, 0)
    else
      var d := Mono(m, u, r);
      Stereo(Quot(d * LeftGain(r), 32768), Quot(d * RightGain(r), 32768))
  }

  // Between silence and the sample itself.
  predicate Within(x: int, s: int) { 0 <= x <= s || s <= x <= 0 }

  lemma QuotWithin(s: int, gain: nat, unit: nat)
    requires 0 < unit && gain <= unit
    ensures Within(Quot(s * gain, unit), s)
  {
    if s >= 0 {
      GainBound(s, gain, unit);
    } else {
      GainBound(-s, gain, unit);
      assert s * gain == -(-s * gain);
      assert -s * gain >= 0;
    }
  }

  lemma GainBound(s: nat, gain: nat, unit: nat)
    requires 0 < unit && gain <= unit
    ensures 0 <= s * gain / unit <= s && s * gain >= 0
  {
    assert s * gain <= s * unit;
    QuotientBelow(s * gain, s, unit);
  }

  lemma QuotientBelow(a: nat, s: nat, unit: nat)
    requires 0 < unit && a <= s * unit
    ensures 0 <= a / unit <= s
  {
    var q := a / unit;
    assert a == unit * q + a % unit;
    assert unit * (q - s) <= 0;
  }

  /** Whatever its registers hold, a slot's part of either sum lies between silence and its
      sample. */
  lemma ContributionWithin(m: Memory, v: Voice, r: Regs)
    requires InRange(v)
    ensures var c, s := Contribution(m, v, r), Interpolated(m, Synchronize(v, r), r);
            Within(c.left, s) && Within(c.right, s)
  {
    var u := Synchronize(v, r);
    if u.active {
      var s := Interpolated(m, u, r);
      MonoWithin(m, u, r);
      PanBound(r);
      QuotWithin(Mono(m, u, r), LeftGain(r), 32768);
      QuotWithin(Mono(m, u, r), RightGain(r), 32768);
    }
  }

  lemma PanBound(r: Regs)
    ensures 0 <= Pan(r) <= 32768
  {
  }

  lemma EnvelopeBound(u: Voice, r: Regs)
    requires InRange(u)
    ensures 0 <= Envelope(u, r).envelope <= 32767
  {
    FiveBits(r);
  }

  lemma MonoWithin(m: Memory, u: Voice, r: Regs)
    requires InRange(u)
    ensures Within(Mono(m, u, r), Interpolated(m, u, r))
  {
    var s := Interpolated(m, u, r);
    QuotWithin(s, TotalLevel(r), 32767);
    var l := Levelled(s, r);
    EnvelopeBound(u, r);
    QuotWithin(l, Envelope(u, r).envelope, 32767);
    var e := Enveloped(l, Envelope(u, r));
    DryWithin(e, r);
  }

  lemma DryWithin(e: int, r: Regs)
    ensures Within(Dry(e, r), e)
  {
    if Direct(r) != 0 {
      QuotWithin(e, 1, Pow2(if Direct(r) < 7 then 7 - Direct(r) else 0));
    }
  }

  // ------------------------------------------------------------ the sum of a frame

  function Add(a: Stereo, b: Stereo): Stereo { Stereo(a.left + b.left, a.right + b.right) }

  function Sum(m: Memory, vs: seq<Voice>, rs: seq<Regs>, n: nat): Stereo
    requires n <= |vs| == |rs|
  {
    if n == 0 then Stereo(0, 0) else Add(Sum(m, vs, rs, n - 1), Contribution(m, vs[n - 1], rs[n - 1]))
  }

  function Clamp(x: int): int { if x < -32768 then -32768 else if x > 32767 then 32767 else x }

  predicate AllInRange(vs: seq<Voice>) { forall k :: 0 <= k < |vs| ==> InRange(vs[k]) }

  predicate Below(c: Stereo, bound: int) { -bound <= c.left <= bound && -bound <= c.right <= bound }

  /** The sums over the first n slots stay below n times full scale: far inside 32 bits for 32. */
  lemma {:induction false} SumBound(m: Memory, vs: seq<Voice>, rs: seq<Regs>, n: nat)
    requires n <= |vs| == |rs| && AllInRange(vs)
    ensures Below(Sum(m, vs, rs, n), n * 0x8000)
  {
    if n > 0 {
      SumBound(m, vs, rs, n - 1);
      ContributionWithin(m, vs[n - 1], rs[n - 1]);
      InterpolationBetween(m, Synchronize(vs[n - 1], rs[n - 1]), rs[n - 1]);
    }
  }

  predicate Silent(v: Voice, r: Regs) { !Synchronize(v, r).active }

  lemma SilentLast(m: Memory, vs: seq<Voice>, rs: seq<Regs>, n: nat)
    requires 0 < n <= |vs| == |rs| && Silent(vs[n - 1], rs[n - 1])
    ensures Sum(m, vs, rs, n) == Sum(m, vs, rs, n - 1)
  {
  }

  lemma {:induction false} SumOfOne(m: Memory, vs: seq<Voice>, rs: seq<Regs>, n: nat, k: nat)
    requires k < n <= |vs| == |rs|
    requires forall j :: 0 <= j < n && j != k ==> Silent(vs[j], rs[j])
    ensures Sum(m, vs, rs, n) == Contribution(m, vs[k], rs[k])
  {
    if n - 1 == k {
      AllSilent(m, vs, rs, k);
      SumLast(m, vs, rs, k);
    } else {
      SumOfOne(m, vs, rs, n - 1, k);
      SilentLast(m, vs, rs, n);
    }
  }

  lemma SumLast(m: Memory, vs: seq<Voice>, rs: seq<Regs>, k: nat)
    requires k < |vs| == |rs| && Sum(m, vs, rs, k) == Stereo(0, 0)
    ensures Sum(m, vs, rs, k + 1) == Contribution(m, vs[k], rs[k])
  {
  }

  lemma {:induction false} AllSilent(m: Memory, vs: seq<Voice>, rs: seq<Regs>, n: nat)
    requires n <= |vs| == |rs| && forall j :: 0 <= j < n ==> Silent(vs[j], rs[j])
    ensures Sum(m, vs, rs, n) == Stereo(0, 0)
  {
    if n > 0 {
      AllSilent(m, vs, rs, n - 1);
      SilentLast(m, vs, rs, n);
    }
  }

  /** A frame in which only one slot sounds is never clipped. */
  lemma OneVoiceUnclipped(m: Memory, vs: seq<Voice>, rs: seq<Regs>, k: nat)
    requires |vs| == |rs| == 32 && k < 32 && AllInRange(vs)
    requires forall j :: 0 <= j < 32 && j != k ==> Silent(vs[j], rs[j])
    ensures var c := Sum(m, vs, rs, |vs|); Clamp(c.left) == c.left && Clamp(c.right) == c.right
  {
    SumOfOne(m, vs, rs, |vs|, k);
    ContributionWithin(m, vs[k], rs[k]);
    InterpolationBetween(m, Synchronize(vs[k], rs[k]), rs[k]);
  }
}
