/** The renderer: 32 slots advanced in place frame by frame and mixed in 32-bit arithmetic. The
    type int32 makes every intermediate value prove that it fits. */
module ScspOps {
  import opened Arithmetic
  import opened Bytes
  import opened Scsp
  import opened ScspMix

  newtype int32 = x: int | -0x8000_0000 <= x < 0x8000_0000

  const SLOTS := 32

  function AllRegs(registers: seq<byte>): (rs: seq<Regs>)
    requires |registers| == 0x1000
    ensures |rs| == SLOTS
  {
    seq(SLOTS, k requires 0 <= k < SLOTS => Read(registers, k))
  }

  function StepAll(vs: seq<Voice>, rs: seq<Regs>): (us: seq<Voice>)
    requires |vs| == |rs|
    ensures |us| == |vs|
  {
    seq(|vs|, k requires 0 <= k < |vs| => Frame(vs[k], rs[k]))
  }

  // The slots with the first n of them advanced.
  function Part(vs: seq<Voice>, rs: seq<Regs>, n: nat): (us: seq<Voice>)
    requires n <= |vs| == |rs|
    ensures |us| == |vs|
  {
    seq(|vs|, k requires 0 <= k < |vs| => if k < n then Frame(vs[k], rs[k]) else vs[k])
  }

  lemma PartEnds(vs: seq<Voice>, rs: seq<Regs>)
    requires |vs| == |rs|
    ensures Part(vs, rs, 0) == vs && Part(vs, rs, |vs|) == StepAll(vs, rs)
  {
  }

  lemma PartNext(vs: seq<Voice>, rs: seq<Regs>, n: nat)
    requires n < |vs| == |rs|
    ensures Part(vs, rs, n)[n] == vs[n] && Part(vs, rs, n + 1) == Part(vs, rs, n)[n := Frame(vs[n], rs[n])]
  {
  }

  lemma SumNext(m: Memory, vs: seq<Voice>, rs: seq<Regs>, n: nat)
    requires n < |vs| == |rs|
    ensures Sum(m, vs, rs, n + 1) == Add(Sum(m, vs, rs, n), Contribution(m, vs[n], rs[n]))
  {
  }

  // The slots after n frames of one call.
  function Steps(vs: seq<Voice>, rs: seq<Regs>, n: nat): (us: seq<Voice>)
    requires |vs| == |rs|
    ensures |us| == |vs|
  {
    if n == 0 then vs else StepAll(Steps(vs, rs, n - 1), rs)
  }

  /** What a call does to a slot is a run of that slot with steady registers. */
  lemma {:induction false} StepsAreRuns(vs: seq<Voice>, rs: seq<Regs>, n: nat, k: nat)
    requires |vs| == |rs| && k < |vs|
    ensures Steps(vs, rs, n)[k] == Run(vs[k], Repeat(rs[k], n))
  {
    if n > 0 {
      StepsAreRuns(vs, rs, n - 1, k);
      assert Repeat(rs[k], n)[..n - 1] == Repeat(rs[k], n - 1);
    }
  }

  // ------------------------------------------------------------ register writes

  // The two status registers take only bit 5, and only to set it.
  predicate Status(a: nat) { a == 0x420 || a == 0x42e }

  function PutRegister(registers: seq<byte>, a: nat, x: byte): (rs: seq<byte>)
    requires |registers| == 0x1000 && a < 0x1000
    ensures |rs| == 0x1000
  {
    registers[a := if !Status(a) then x else if Bit(x, 5) then Or(registers[a], 5) else registers[a]]
  }

  // A byte of a slot's control or pitch word.
  predicate Keys(a: nat) { a < 0x400 && (a % 0x20 <= 1 || a % 0x20 == 0x10 || a % 0x20 == 0x11) }

  // What a byte written to the chip does to its slots, given the registers after the write.
  function WriteAll(vs: seq<Voice>, rs: seq<Regs>, a: nat): (us: seq<Voice>)
    requires |vs| == |rs| == SLOTS
    ensures |us| == |vs|
  {
    if Keys(a) then vs[a / 0x20 := Synchronize(vs[a / 0x20], rs[a / 0x20])] else vs
  }

  // A whole history of the chip: byte writes and render calls.
  datatype ChipEvent = Write(a: nat, x: byte) | Call(frames: nat)
  datatype ChipState = ChipState(registers: seq<byte>, voices: seq<Voice>)

  predicate ChipOk(c: ChipState) { |c.registers| == 0x1000 && |c.voices| == SLOTS }

  function ChipStep(c: ChipState, e: ChipEvent): (d: ChipState)
    requires ChipOk(c)
    ensures ChipOk(d)
  {
    match e
    case Write(a, x) =>
      if a >= 0x1000 then c
      else var rs := PutRegister(c.registers, a, x); ChipState(rs, WriteAll(c.voices, AllRegs(rs), a))
    case Call(n) => c.(voices := Steps(c.voices, AllRegs(c.registers), n))
  }

  function ChipRun(c: ChipState, es: seq<ChipEvent>): (d: ChipState)
    requires ChipOk(c)
    ensures ChipOk(d)
    decreases |es|
  {
    if es == [] then c else ChipStep(ChipRun(c, es[..|es| - 1]), es[|es| - 1])
  }

  // What one event of the chip is to slot k.
  function SlotEvents(c: ChipState, e: ChipEvent, k: nat): seq<Event>
    requires ChipOk(c) && k < SLOTS
  {
    match e
    case Write(a, x) =>
      if a < 0x1000 && Keys(a) && a / 0x20 == k then [Written(Read(PutRegister(c.registers, a, x), k))] else []
    case Call(n) => Repeat(Read(c.registers, k), n)
  }

  function SlotRun(c: ChipState, es: seq<ChipEvent>, k: nat): seq<Event>
    requires ChipOk(c) && k < SLOTS
    decreases |es|
  {
    if es == [] then []
    else
      var before := es[..|es| - 1];
      SlotRun(c, before, k) + SlotEvents(ChipRun(c, before), es[|es| - 1], k)
  }

  lemma {:induction false} RunAppends(v: Voice, a: seq<Event>, b: seq<Event>)
    ensures Run(v, a + b) == Run(Run(v, a), b)
    decreases |b|
  {
    if b == [] {
      assert a + b == a;
    } else {
      RunAppends(v, a, b[..|b| - 1]);
      assert (a + b)[..|a + b| - 1] == a + b[..|b| - 1];
    }
  }

  lemma StepIsEvents(c: ChipState, e: ChipEvent, k: nat)
    requires ChipOk(c) && k < SLOTS
    ensures ChipStep(c, e).voices[k] == Run(c.voices[k], SlotEvents(c, e, k))
  {
    match e
    case Write(a, x) =>
      if a < 0x1000 && Keys(a) && a / 0x20 == k {
        RunOne(c.voices[k], Written(Read(PutRegister(c.registers, a, x), k)));
      }
    case Call(n) => StepsAreRuns(c.voices, AllRegs(c.registers), n, k);
  }

  lemma RunOne(v: Voice, e: Event)
    ensures Run(v, [e]) == Happens(v, e)
  {
    assert [e][..0] == [];
  }

  /** Over every history of byte writes and render calls a slot goes through one of its runs. */
  lemma {:induction false} ChipIsRuns(c: ChipState, es: seq<ChipEvent>, k: nat)
    requires ChipOk(c) && k < SLOTS
    ensures ChipRun(c, es).voices[k] == Run(c.voices[k], SlotRun(c, es, k))
    decreases |es|
  {
    if es != [] {
      var before, last := es[..|es| - 1], es[|es| - 1];
      ChipIsRuns(c, before, k);
      StepIsEvents(ChipRun(c, before), last, k);
      RunAppends(c.voices[k], SlotRun(c, before, k), SlotEvents(ChipRun(c, before), last, k));
    }
  }

  // C division of 32-bit values.
  function Quot32(a: int32, b: int32): (q: int32)
    requires b > 0
    ensures q as int == Quot(a as int, b as int)
  {
    QuotWithin(a as int, 1, b as nat);
    Quot(a as int, b as int) as int32
  }

  // A 16-bit sample times a gain below 2^15 fits.
  method Times(s: int32, gain: int32) returns (p: int32)
    requires -0x8000 <= s <= 0x8000 && 0 <= gain <= 0x8000
    ensures p as int == s as int * gain as int
  {
    ProductFits(s as int, gain as int);
    p := s * gain;
  }

  lemma ProductFits(s: int, gain: nat)
    requires -0x8000 <= s <= 0x8000 && gain <= 0x8000
    ensures -0x4000_0000 <= s * gain <= 0x4000_0000
  {
    if s >= 0 {
      ProductUpTo(s, gain);
    } else {
      ProductUpTo(-s, gain);
      assert s * gain == -(-s * gain);
    }
  }

  lemma ProductUpTo(s: nat, gain: nat)
    requires s <= 0x8000 && gain <= 0x8000
    ensures 0 <= s * gain <= 0x4000_0000
  {
    MulMono(s, gain, 0x8000);
  }

  method Gained(dry: int32, gain: int32) returns (part: int32)
    requires -0x8000 <= dry <= 0x8000 && 0 <= gain <= 0x8000
    ensures part as int == Quot(dry as int * gain as int, 32768)
  {
    var product := Times(dry, gain);
    part := Quot32(product, 32768);
  }

  class Chip {
    var registers: seq<byte>
    var memory: Memory
    const voices: array<Voice>

    ghost predicate Valid()
      reads this, voices
    {
      |registers| == 0x1000 && voices.Length == SLOTS && AllInRange(voices[..])
    }

    ghost function Control(): (rs: seq<Regs>)
      requires |registers| == 0x1000
      reads this
    {
      AllRegs(registers)
    }

    // vf2_scsp_initialize
    constructor ()
      ensures Valid() && fresh(voices) && forall k :: 0 <= k < SLOTS ==> !voices[k].active
    {
      registers := seq(0x1000, i => 0);
      memory := Memory([], []);
      voices := new Voice[SLOTS](i => Voice(0, 0, 0, Attack, false, false));
    }

    method SynchronizeSlot(slot: nat)
      requires |registers| == 0x1000 && voices.Length == SLOTS && slot < SLOTS
      modifies voices
      ensures voices[..] == old(voices[..])[slot := Synchronize(old(voices[slot]), Control()[slot])]
    {
      var r := Read(registers, slot);
      var v := voices[slot];
      if KeyOn(r) && !v.active {
        v := Voice(0, StepOf(r), 0, Attack, true, false);
      } else if KeyOn(r) && v.active && v.phase.Release? {
        v := v.(address := 0, envelope := 0, phase := Attack);
      } else if !KeyOn(r) && v.active {
        v := v.(phase := Release);
      }
      if v.active { v := v.(step := StepOf(r)); }
      voices[slot] := v;
    }

    // vf2_scsp_write_u8
    method WriteByte(a: nat, x: byte) returns (done: bool)
      requires Valid()
      modifies this`registers, voices
      ensures Valid() && done == (a < 0x1000)
      ensures ChipState(registers, voices[..]) == ChipStep(ChipState(old(registers), old(voices[..])), Write(a, x))
    {
      if a >= 0x1000 { return false; }
      registers := PutRegister(registers, a, x);
      if a < 0x400 && (a % 0x20 <= 1 || a % 0x20 == 0x10 || a % 0x20 == 0x11) {
        SynchronizeInRange(voices[a / 0x20], Control()[a / 0x20]);
        SynchronizeSlot(a / 0x20);
      }
      return true;
    }

    method AdvanceEnvelope(slot: nat)
      requires |registers| == 0x1000 && voices.Length == SLOTS && slot < SLOTS
      modifies voices
      ensures voices[..] == old(voices[..])[slot := Envelope(old(voices[slot]), Control()[slot])]
    {
      var r := Read(registers, slot);
      var v := voices[slot];
      match v.phase {
        case Attack =>
          v := v.(envelope := v.envelope + AttackStep(r));
          if v.envelope >= ENVELOPE_MAX { v := v.(envelope := ENVELOPE_MAX, phase := Decay1); }
        case Decay1 =>
          v := v.(envelope := v.envelope - Decay1Step(r));
          if v.envelope <= Sustain(r) { v := v.(envelope := Sustain(r), phase := Decay2); }
        case Decay2 =>
          v := v.(envelope := v.envelope - Decay2Step(r));
          if v.envelope <= Sustain(r) { v := v.(envelope := Sustain(r)); }
        case Release =>
          v := v.(envelope := v.envelope - ReleaseStep(r));
          if v.envelope <= 0 { v := v.(envelope := 0, active := false); }
      }
      voices[slot] := v;
    }

    method AdvanceSlot(slot: nat)
      requires |registers| == 0x1000 && voices.Length == SLOTS && slot < SLOTS
      modifies voices
      ensures voices[..] == old(voices[..])[slot := Advance(old(voices[slot]), Control()[slot])]
    {
      var r := Read(registers, slot);
      var v := voices[slot];
      v := v.(address := U32(if v.backward then v.address - v.step else v.address + v.step));
      var position := Position(v);
      if LoopMode(r) == 0 {
        if r.loopEnd != 0 && position >= r.loopEnd { v := v.(active := false); }
      } else if LoopMode(r) == 1 {
        if r.loopEnd != 0 && position >= r.loopEnd {
          v := v.(address := U32((r.loopStart + (position - r.loopEnd)) * 0x1000));
        }
      } else if !v.backward && r.loopEnd != 0 && position >= r.loopEnd {
        v := v.(backward := true);
      } else if v.backward && position <= r.loopStart {
        v := v.(backward := false);
      }
      voices[slot] := v;
    }

    // The gain chain of one sounding slot, whose envelope has already advanced.
    method DrySample(r: Regs, start: int32, envelope: int32) returns (dry: int32)
      requires -0x8000 <= start < 0x8000 && 0 <= envelope <= 32767
      ensures var s := Levelled(start as int, r);
              dry as int == Dry(Quot(s * envelope as int, 32767), r)
      ensures Within(dry as int, start as int)
    {
      var sample := start;
      if Bits(r.level, 8, 1) == 0 {
        var product := Times(sample, TotalLevel(r) as int32);
        QuotWithin(start as int, TotalLevel(r), 32767);
        sample := Quot32(product, 32767);
      }
      ghost var levelled := sample as int;
      var product := Times(sample, envelope);
      QuotWithin(levelled, envelope as nat, 32767);
      sample := Quot32(product, 32767);
      DryWithin(sample as int, r);
      dry := Divided(sample, r);
    }

    method Divided(sample: int32, r: Regs) returns (dry: int32)
      ensures dry as int == Dry(sample as int, r)
    {
      if Direct(r) == 0 { return 0; }
      var shift := if Direct(r) < 7 then 7 - Direct(r) else 0;
      ShiftFits(shift);
      dry := Quot32(sample, Pow2(shift) as int32);
    }

    // One slot of one frame: its parts of the two sums.
    method MixSlot(slot: nat) returns (left: int32, right: int32)
      requires Valid() && slot < SLOTS
      modifies voices
      ensures Valid() && voices[..] == old(voices[..])[slot := Frame(old(voices[slot]), Control()[slot])]
      ensures Stereo(left as int, right as int) == Contribution(memory, old(voices[slot]), Control()[slot])
      ensures -0x8000 <= left <= 0x8000 && -0x8000 <= right <= 0x8000
    {
      ghost var v, before := voices[slot], voices[..];
      var r := Read(registers, slot);
      FrameInRange(v, r);
      ContributionWithin(memory, v, r);
      InterpolationBetween(memory, Synchronize(v, r), r);
      SynchronizeSlot(slot);
      if !voices[slot].active { return 0, 0; }
      var sample := Interpolated(memory, voices[slot], r) as int32;
      EnvelopeBound(voices[slot], r);
      AdvanceEnvelope(slot);
      var dry := DrySample(r, sample, voices[slot].envelope as int32);
      PanBound(r);
      left := Gained(dry, LeftGain(r) as int32);
      right := Gained(dry, RightGain(r) as int32);
      AdvanceSlot(slot);
    }

    // The inner loop of vf2_scsp_render: all 32 slots of one frame.
    method RenderFrame() returns (left: int32, right: int32)
      requires Valid()
      modifies voices
      ensures Valid() && voices[..] == StepAll(old(voices[..]), Control())
      ensures var sum := Sum(memory, old(voices[..]), Control(), voices.Length);
              left as int == Clamp(sum.left) && right as int == Clamp(sum.right)
    {
      ghost var vs, rs := voices[..], Control();
      var mixLeft: int32, mixRight: int32 := 0, 0;
      PartEnds(vs, rs);
      for slot := 0 to voices.Length
        invariant Valid() && voices[..] == Part(vs, rs, slot)
        invariant Stereo(mixLeft as int, mixRight as int) == Sum(memory, vs, rs, slot)
      {
        SumBound(memory, vs, rs, slot);
        PartNext(vs, rs, slot);
        SumNext(memory, vs, rs, slot);
        var l, r := MixSlot(slot);
        mixLeft, mixRight := mixLeft + l, mixRight + r;
      }
      left, right := Clamp32(mixLeft), Clamp32(mixRight);
    }

    /** vf2_scsp_render: every frame is the clamped sum of the slots' contributions, and the slots
        end as that many frames leave them. */
    method Render(left: array<int32>, right: array<int32>, frames: nat)
      requires Valid() && left != right && frames <= left.Length && frames <= right.Length
      modifies voices, left, right
      ensures Valid() && voices[..] == Steps(old(voices[..]), Control(), frames)
      ensures forall f :: 0 <= f < frames ==> FrameIs(old(voices[..]), f, left[f], right[f])
    {
      ghost var vs, rs := voices[..], Control();
      for frame := 0 to frames
        invariant Valid() && voices[..] == Steps(vs, rs, frame)
        invariant forall f :: 0 <= f < frame ==> FrameIs(vs, f, left[f], right[f])
      {
        var l, r := RenderFrame();
        left[frame], right[frame] := l, r;
      }
    }

    ghost predicate FrameIs(vs: seq<Voice>, f: nat, l: int32, r: int32)
      requires |registers| == 0x1000 && |vs| == SLOTS
      reads this
    {
      var sum := Sum(memory, Steps(vs, Control(), f), Control(), |vs|);
      l as int == Clamp(sum.left) && r as int == Clamp(sum.right)
    }
  }

  function Clamp32(x: int32): (y: int32)
    ensures y as int == Clamp(x as int)
  {
    if x < -32768 then -32768 else if x > 32767 then 32767 else x
  }

  lemma ShiftFits(n: nat)
    requires n <= 7
    ensures 0 < Pow2(n) <= 128
  {
    assert Pow2(0) == 1 && Pow2(1) == 2 && Pow2(2) == 4 && Pow2(3) == 8;
    assert Pow2(4) == 16 && Pow2(5) == 32 && Pow2(6) == 64 && Pow2(7) == 128;
  }
}
