/** One slot of the sound chip, frame by frame: key state, envelope, interpolation and position,
    and what these guarantee over every run of frames. */
module Scsp {
  import opened Bytes

  const ENVELOPE_MAX := 32767

  datatype Phase = Attack | Decay1 | Decay2 | Release

  datatype Voice = Voice(address: long, step: long, envelope: int, phase: Phase, active: bool, backward: bool)

  // The 0x20 bytes of a slot's registers, as the words the renderer reads.
  datatype Regs = Regs(control: word, startLow: word, loopStart: word, loopEnd: word,
                       attackDecay: word, sustainRelease: word, level: word, pitch: word, pan: word)

  function Read(registers: seq<byte>, slot: nat): Regs
    requires slot < 32 && |registers| == 0x1000
  {
    var b := slot * 0x20;
    Regs(Be16(registers, b), Be16(registers, b + 2), Be16(registers, b + 4), Be16(registers, b + 6),
         Be16(registers, b + 8), Be16(registers, b + 10), Be16(registers, b + 12), Be16(registers, b + 16),
         Be16(registers, b + 22))
  }

  function Bits(w: word, low: nat, count: nat): nat { w / Pow2(low) % Pow2(count) }

  predicate KeyOn(r: Regs) { Bits(r.control, 11, 1) == 1 }
  predicate EightBit(r: Regs) { Bits(r.control, 4, 1) == 1 }
  function LoopMode(r: Regs): nat { Bits(r.control, 5, 2) }

  // ------------------------------------------------------------ pitch

  // The signed four-bit octave, plus two.
  function Octave(r: Regs): int {
    var o := Bits(r.pitch, 11, 4);
    if o < 8 then o + 2 else o - 14
  }

  function Shifted(n: nat, up: int): int { if up >= 0 then n * Pow2(up) else n / Pow2(-up) }

  function StepOf(r: Regs): long {
    var step := U32(Shifted(Bits(r.pitch, 0, 10) + 0x400, Octave(r)));
    if step == 0 then 1 else step
  }

  // ------------------------------------------------------------ key state

  function Synchronize(v: Voice, r: Regs): Voice {
    var u :=
      if KeyOn(r) && !v.active then
        v.(active := true, backward := false, address := 0, step := StepOf(r), envelope := 0, phase := Attack)
      else if KeyOn(r) && v.phase.Release? then v.(address := 0, envelope := 0, phase := Attack)
      else if !KeyOn(r) && v.active then v.(phase := Release)
      else v;
    if u.active then u.(step := StepOf(r)) else u
  }

  // ------------------------------------------------------------ envelope

  function AttackStep(r: Regs): nat { (Bits(r.attackDecay, 0, 5) + 1) * 256 }
  function Decay1Step(r: Regs): nat { (Bits(r.attackDecay, 6, 5) + 1) * 64 }
  function Decay2Step(r: Regs): nat { (Bits(r.attackDecay, 11, 5) + 1) * 32 }
  function ReleaseStep(r: Regs): nat { (Bits(r.sustainRelease, 0, 5) + 1) * 64 }
  function Sustain(r: Regs): int { (31 - Bits(r.sustainRelease, 5, 5)) * 1024 }

  function Envelope(v: Voice, r: Regs): Voice {
    match v.phase
    case Attack =>
      var e := v.envelope + AttackStep(r);
      if e >= ENVELOPE_MAX then v.(envelope := ENVELOPE_MAX, phase := Decay1) else v.(envelope := e)
    case Decay1 =>
      var e := v.envelope - Decay1Step(r);
      if e <= Sustain(r) then v.(envelope := Sustain(r), phase := Decay2) else v.(envelope := e)
    case Decay2 =>
      var e := v.envelope - Decay2Step(r);
      v.(envelope := if e <= Sustain(r) then Sustain(r) else e)
    case Release =>
      var e := v.envelope - ReleaseStep(r);
      if e <= 0 then v.(envelope := 0, active := false) else v.(envelope := e)
  }

  // ------------------------------------------------------------ position

  function Position(v: Voice): nat { v.address / 0x1000 }

  function Advance(v: Voice, r: Regs): Voice {
    var u := v.(address := U32(if v.backward then v.address - v.step else v.address + v.step));
    var p := Position(u);
    if LoopMode(r) == 0 then
      if r.loopEnd != 0 && p >= r.loopEnd then u.(active := false) else u
    else if LoopMode(r) == 1 then
      if r.loopEnd != 0 && p >= r.loopEnd then u.(address := U32((r.loopStart + (p - r.loopEnd)) * 0x1000)) else u
    else if !u.backward && r.loopEnd != 0 && p >= r.loopEnd then u.(backward := true)
    else if u.backward && p <= r.loopStart then u.(backward := false)
    else u
  }

  // One rendered frame of a slot.
  function Frame(v: Voice, r: Regs): Voice {
    var u := Synchronize(v, r);
    if u.active then Advance(Envelope(u, r), r) else u
  }

  // What happens to a slot: a rendered frame, or a write to its control or pitch word, which
  // takes effect at once. Both see the registers as they then are.
  datatype Event = Rendered(r: Regs) | Written(r: Regs)

  function Happens(v: Voice, e: Event): Voice {
    match e
    case Rendered(r) => Frame(v, r)
    case Written(r) => Synchronize(v, r)
  }

  // A run of events; the other registers may change before each.
  function Run(v: Voice, es: seq<Event>): Voice
    decreases |es|
  {
    if es == [] then v else Happens(Run(v, es[..|es| - 1]), es[|es| - 1])
  }

  function Frames(es: seq<Event>): (n: nat)
    decreases |es|
  {
    if es == [] then 0 else Frames(es[..|es| - 1]) + (if es[|es| - 1].Rendered? then 1 else 0)
  }

  // ------------------------------------------------------------ envelope range

  predicate InRange(v: Voice) { 0 <= v.envelope <= ENVELOPE_MAX }

  lemma BitsBelow(w: word, low: nat, count: nat)
    ensures Bits(w, low, count) < Pow2(count)
  {
  }

  lemma FiveBits(r: Regs)
    ensures 0 <= Sustain(r) <= 31744
    ensures Bits(r.attackDecay, 0, 5) < 32 && Bits(r.attackDecay, 6, 5) < 32 && Bits(r.attackDecay, 11, 5) < 32
    ensures Bits(r.sustainRelease, 0, 5) < 32
  {
    assert Pow2(5) == 32;
    BitsBelow(r.sustainRelease, 5, 5);
    BitsBelow(r.sustainRelease, 0, 5);
    BitsBelow(r.attackDecay, 0, 5);
    BitsBelow(r.attackDecay, 6, 5);
    BitsBelow(r.attackDecay, 11, 5);
  }

  lemma SynchronizeInRange(v: Voice, r: Regs)
    requires InRange(v)
    ensures InRange(Synchronize(v, r))
  {
  }

  lemma FrameInRange(v: Voice, r: Regs)
    requires InRange(v)
    ensures InRange(Frame(v, r))
  {
    FiveBits(r);
  }

  /** Over every run of frames and register writes the envelope stays in 0..32767. */
  lemma {:induction false} RunInRange(v: Voice, es: seq<Event>)
    requires InRange(v)
    ensures InRange(Run(v, es))
    decreases |es|
  {
    if es != [] {
      RunInRange(v, es[..|es| - 1]);
      FrameInRange(Run(v, es[..|es| - 1]), es[|es| - 1].r);
      SynchronizeInRange(Run(v, es[..|es| - 1]), es[|es| - 1].r);
    }
  }

  // ------------------------------------------------------------ release

  predicate HeldOff(es: seq<Event>) { forall k :: 0 <= k < |es| ==> !KeyOn(es[k].r) }

  lemma OffFrame(v: Voice, r: Regs)
    requires !KeyOn(r)
    ensures !v.active ==> Frame(v, r) == v
    ensures Frame(v, r).active ==>
              v.active && Frame(v, r).envelope == v.envelope - ReleaseStep(r) && Frame(v, r).envelope > 0
    ensures Synchronize(v, r).active == v.active && Synchronize(v, r).envelope == v.envelope
    ensures LoopMode(r) != 0 || r.loopEnd == 0 ==> (Frame(v, r).active <==> v.active && v.envelope > ReleaseStep(r))
  {
  }

  // Every keyed-off frame that leaves the slot active has cost it at least 64.
  lemma {:induction false} OffRun(v: Voice, es: seq<Event>)
    requires HeldOff(es)
    ensures Run(v, es).active ==> v.active && Run(v, es).envelope + 64 * Frames(es) <= v.envelope
    ensures Run(v, es).active && Frames(es) > 0 ==> Run(v, es).envelope > 0
    decreases |es|
  {
    if es != [] {
      OffRun(v, es[..|es| - 1]);
      OffFrame(Run(v, es[..|es| - 1]), es[|es| - 1].r);
    }
  }

  /** A slot held keyed off is inactive after 512 frames, whatever else its registers do. */
  lemma SilentWithin512(v: Voice, es: seq<Event>)
    requires InRange(v) && HeldOff(es) && Frames(es) >= 512
    ensures !Run(v, es).active
  {
    OffRun(v, es);
  }

  // n frames with the same registers.
  function Repeat(r: Regs, n: nat): (es: seq<Event>)
    ensures |es| == n
  {
    seq(n, i => Rendered(r))
  }

  /** With steady registers that do not stop the slot at its loop end, it is still active after n
      frames exactly while n release steps have not used up its envelope. */
  lemma {:induction false} ReleaseExact(v: Voice, r: Regs, n: nat)
    requires v.active && InRange(v) && !KeyOn(r) && (LoopMode(r) != 0 || r.loopEnd == 0)
    ensures n > 0 ==> (Run(v, Repeat(r, n)).active <==> n * ReleaseStep(r) < v.envelope)
    ensures Run(v, Repeat(r, n)).active ==> Run(v, Repeat(r, n)).envelope == v.envelope - n * ReleaseStep(r)
    decreases n
  {
    if n > 0 {
      ReleaseExact(v, r, n - 1);
      var u := Run(v, Repeat(r, n - 1));
      assert Repeat(r, n)[..n - 1] == Repeat(r, n - 1);
      OffFrame(u, r);
      OneMore(n - 1, ReleaseStep(r));
    }
  }

  lemma OneMore(n: nat, step: nat)
    ensures (n + 1) * step == n * step + step
  {
  }

  /** The bound of 512 is the least: the slowest release from a full envelope is still sounding
      after 511 frames. */
  lemma Needs512(v: Voice, r: Regs)
    requires v.active && v.envelope == ENVELOPE_MAX && r == Regs(0, 0, 0, 0, 0, 0, 0, 0, 0)
    ensures Run(v, Repeat(r, 511)).active && !Run(v, Repeat(r, 512)).active
  {
    ZeroRegs(r);
    ReleaseExact(v, r, 511);
    ReleaseExact(v, r, 512);
  }

  lemma ZeroRegs(r: Regs)
    requires r == Regs(0, 0, 0, 0, 0, 0, 0, 0, 0)
    ensures !KeyOn(r) && r.loopEnd == 0 && ReleaseStep(r) == 64
  {
    assert Pow2(11) == 2048 && Pow2(0) == 1;
    assert Pow2(1) == 2 && Pow2(5) == 32;
  }

  // ------------------------------------------------------------ pitch range

  /** The increment is at least 16, so the renderer's substitute of 1 for a zero increment is never
      used, and it always fits well inside 32 bits. */
  lemma StepBounds(r: Regs)
    ensures 16 <= StepOf(r) <= 1_048_064
    ensures StepOf(r) == Shifted(Bits(r.pitch, 0, 10) + 0x400, Octave(r))
  {
    assert Pow2(10) == 1024 && Pow2(4) == 16;
    BitsBelow(r.pitch, 0, 10);
    BitsBelow(r.pitch, 11, 4);
    ShiftRange(Bits(r.pitch, 0, 10) + 0x400, Octave(r));
  }

  lemma ShiftRange(n: nat, up: int)
    requires 1024 <= n <= 2047 && -6 <= up <= 9
    ensures 16 <= Shifted(n, up) <= 1_048_064
  {
    if up >= 0 { PowUpTo(up); } else { PowDownTo(n, -up); }
  }

  lemma PowUpTo(up: nat)
    requires up <= 9
    ensures Pow2(up) <= 512
  {
    assert Pow2(9) == 512;
    PowGrows(up, 9);
  }

  lemma {:induction false} PowGrows(a: nat, b: nat)
    requires a <= b
    ensures Pow2(a) <= Pow2(b)
  {
    if a < b { PowGrows(a, b - 1); }
  }

  lemma PowDownTo(n: nat, up: nat)
    requires 1024 <= n <= 2047 && up <= 6
    ensures 16 <= n / Pow2(up) <= n
  {
    assert Pow2(0) == 1 && Pow2(1) == 2 && Pow2(2) == 4 && Pow2(3) == 8;
    assert Pow2(4) == 16 && Pow2(5) == 32 && Pow2(6) == 64;
    assert n / Pow2(up) in {n, n / 2, n / 4, n / 8, n / 16, n / 32, n / 64};
  }
}
