/** Constant propagation for i960 code: abstract values, the transfer of one instruction, and
    the merge of two register states. */
module Semantics {
  import opened Bytes
  import opened Wrappers

  const REGISTERS := 32
  const SP := 1
  const G0 := 16
  const G7 := 23
  const FP := 31

  // int64_t, wrapping as two's complement.
  type i64 = x: int | -0x8000_0000_0000_0000 <= x < 0x8000_0000_0000_0000

  function Wrap64(x: int): i64 {
    (x + 0x8000_0000_0000_0000) % 0x1_0000_0000_0000_0000 - 0x8000_0000_0000_0000
  }

  datatype Value =
    | Unknown
    | Constant(value: i64)
    | Stack(offset: i64)
    | Argument(register: nat)
    | Table(base: nat, scale: nat)

  type State = s: seq<Value> | |s| == REGISTERS witness seq(32, i => Unknown)
  type Reg = r: nat | r < REGISTERS

  // ------------------------------------------------------------ bitwise operators

  datatype BitOp = And | Or | Xor

  function Digit(op: BitOp, a: int, b: int): (d: nat)
    ensures d <= 1
  {
    match op
    case And => if a % 2 == 1 && b % 2 == 1 then 1 else 0
    case Or => if a % 2 == 1 || b % 2 == 1 then 1 else 0
    case Xor => if a % 2 != b % 2 then 1 else 0
  }

  // The low n bits of the two's complement operation.
  function Bitwise(op: BitOp, n: nat, a: int, b: int): (r: nat)
    ensures r < Pow2(n)
  {
    if n == 0 then 0 else Digit(op, a, b) + 2 * Bitwise(op, n - 1, a / 2, b / 2)
  }

  // ------------------------------------------------------------ instructions

  datatype Operand = Register(reg: Reg) | Literal(literal: int) | Address(address: nat) | OtherOperand

  // An effective address; scale is the shift of the index register.
  datatype Memory = Memory(base: Option<Reg>, index: Option<Reg>, scale: nat, absolute: bool,
                           ipRelative: bool, displacement: int, resolved: nat)

  // A signed right shift is shri, an unsigned one shro; the analyser folds both alike.
  datatype BinaryOp = AddOp | SubOp | Bits(op: BitOp) | ShiftLeft | ShiftRight(signed: bool) | MulOp | OtherOp

  datatype LoadKind = Ldob | Ldib | Ldos | Ldis | LdWord

  datatype Code =
    | Lda(memory: Memory, dst: Reg)
    | Load(kind: LoadKind, source: Memory, dst: Reg)
    | Mov(src: Operand, dst: Reg)
    | Binary(op: BinaryOp, left: Operand, right: Operand, dst: Reg)
    | Other(dsts: seq<Reg>)

  // Some instructions write further registers that the analyser does not look at: the second to
  // fourth of a ldl, ldt, ldq, movl, movt or movq, and the second result of emul and ediv.
  datatype Instruction = Instruction(code: Code, call: bool, also: seq<Reg>)

  // ------------------------------------------------------------ evaluation

  function EvaluateOperand(o: Operand, s: State): Value {
    match o
    case Register(r) => s[r]
    case Literal(k) => Constant(Wrap64(k))
    case Address(a) => Constant(Wrap64(a))
    case OtherOperand => Unknown
  }

  // The part of an effective address before the index, and whether it has any component.
  function BaseAddress(m: Memory, s: State): (Value, bool) {
    if m.base.Some? then
      match s[m.base.value]
      case Constant(k) => (Constant(Wrap64(k + m.displacement)), true)
      case Stack(k) => (Stack(Wrap64(k + m.displacement)), true)
      case _ => (Unknown, false)
    else if m.absolute || m.ipRelative then (Constant(Wrap64(m.resolved)), true)
    else (Constant(Wrap64(m.displacement)), m.displacement != 0)
  }

  function EvaluateMemory(m: Memory, s: State): Value {
    if m.base.Some? && s[m.base.value].Table? && m.index.None? && m.displacement == 0 then s[m.base.value]
    else
      var (base, has) := BaseAddress(m, s);
      var component := has || m.absolute || m.ipRelative || m.displacement != 0;
      if base.Unknown? then Unknown
      else if m.index.Some? then
        (if !s[m.index.value].Constant? then Unknown
         else
           var scaled := s[m.index.value].value * Pow2(m.scale);
           if !component then Unknown
           else if base.Constant? then Constant(Wrap64(base.value + scaled))
           else if base.Stack? then Stack(Wrap64(base.offset + scaled))
           else Unknown)
      else if component then base else Unknown
  }

  // The table base an indexed load with an unknown index would read.
  function TableBase(m: Memory, s: State): Option<nat> {
    var base := if m.absolute || m.ipRelative then m.resolved else m.displacement;
    if m.index.None? || m.scale != 2 || (m.base.Some? && !s[m.base.value].Constant?) then None
    else
      var sum := if m.base.Some? then base + s[m.base.value].value else base;
      if 0 <= sum < 0x1_0000_0000 then Some(sum) else None
  }

  function Le16(image: seq<byte>, a: nat): word
    requires a + 2 <= |image|
  {
    image[a] as int + 256 * image[a + 1] as int
  }

  function Le32(image: seq<byte>, a: nat): long
    requires a + 4 <= |image|
  {
    image[a] as int + 0x100 * image[a + 1] as int + 0x1_0000 * image[a + 2] as int + 0x100_0000 * image[a + 3] as int
  }

  // (int8_t) and (int16_t)
  function Signed(x: nat, bits: nat): int { if x < Pow2(bits) / 2 then x else x - Pow2(bits) }

  // What a load of this kind reads at an address of the image; nothing past its end.
  function ImageValue(image: seq<byte>, kind: LoadKind, a: nat): Option<int>
    requires a < |image|
  {
    match kind
    case Ldob => Some(image[a])
    case Ldib => Some(Signed(image[a], 8))
    case Ldos => if a + 2 <= |image| then Some(Le16(image, a)) else None
    case Ldis => if a + 2 <= |image| then Some(Signed(Le16(image, a), 16)) else None
    case LdWord => if a + 4 <= |image| then Some(Le32(image, a)) else None
  }

  function LoadValue(image: seq<byte>, kind: LoadKind, m: Memory, s: State): Value {
    var address, table := EvaluateMemory(m, s), TableBase(m, s);
    if m.index.Some? && !s[m.index.value].Constant? && table.Some? && U32(table.value + 4) <= |image|
    then Table(table.value, m.scale)
    else if !address.Constant? || address.value < 0 || address.value >= |image| then Unknown
    else
      var v := ImageValue(image, kind, address.value);
      if v.Some? then Constant(Wrap64(v.value)) else Unknown
  }

  function BinaryResult(op: BinaryOp, left: Value, right: Value): Value {
    if op.AddOp? && left.Stack? && right.Constant? then Stack(Wrap64(left.offset + right.value))
    else if op.AddOp? && right.Stack? && left.Constant? then Stack(Wrap64(right.offset + left.value))
    else if op.SubOp? && right.Stack? && left.Constant? then Stack(Wrap64(right.offset - left.value))
    else if !left.Constant? || !right.Constant? then Unknown
    else
      match op
      case AddOp => Constant(Wrap64(left.value + right.value))
      case SubOp => Constant(Wrap64(right.value - left.value))
      case MulOp => Constant(Wrap64(left.value * right.value))
      case Bits(b) => Constant(Wrap64(Bitwise(b, 64, left.value, right.value)))
      case ShiftLeft => Constant(Wrap64(right.value * Pow2(left.value % 32)))
      case ShiftRight(_) => Constant(Wrap64(right.value % 0x1_0000_0000_0000_0000 / Pow2(left.value % 32)))
      case OtherOp => Unknown
  }

  function Forget(s: State, dsts: seq<Reg>): State {
    seq(REGISTERS, r requires 0 <= r < REGISTERS => if r in dsts then Unknown else s[r])
  }

  // A call may change g0 to g14.
  function AfterCall(s: State): State {
    seq(REGISTERS, r requires 0 <= r < REGISTERS => if G0 <= r <= 30 then Unknown else s[r])
  }

  function TransferCode(image: seq<byte>, c: Code, s: State): State {
    match c
    case Lda(m, d) => s[d := EvaluateMemory(m, s)]
    case Load(kind, m, d) => s[d := LoadValue(image, kind, m, s)]
    case Mov(o, d) => s[d := EvaluateOperand(o, s)]
    case Binary(op, l, r, d) => s[d := BinaryResult(op, EvaluateOperand(l, s), EvaluateOperand(r, s))]
    case Other(ds) => Forget(s, ds)
  }

  function Transfer(image: seq<byte>, i: Instruction, s: State): State {
    var t := TransferCode(image, i.code, s);
    if i.call then AfterCall(t) else t
  }

  function TransferAll(image: seq<byte>, code: seq<Instruction>, s: State): State
    decreases |code|
  {
    if code == [] then s else TransferAll(image, code[1..], Transfer(image, code[0], s))
  }

  // ------------------------------------------------------------ merging

  function Merge(d: State, s: State): State {
    seq(REGISTERS, r requires 0 <= r < REGISTERS => if d[r] != s[r] && !d[r].Unknown? then Unknown else d[r])
  }

  function MergeChanges(d: State, s: State): bool {
    exists r :: 0 <= r < REGISTERS && d[r] != s[r] && !d[r].Unknown?
  }

  // d claims no more than s: register by register it says the same or nothing.
  ghost predicate Covers(d: State, s: State) {
    forall r :: 0 <= r < REGISTERS ==> d[r].Unknown? || d[r] == s[r]
  }

  lemma MergeCovers(d: State, s: State)
    ensures Covers(Merge(d, s), s) && Covers(Merge(d, s), d)
    ensures !MergeChanges(d, s) <==> Merge(d, s) == d
  {
    if !MergeChanges(d, s) { assert Merge(d, s) == d; }
  }

  lemma CoversTrans(a: State, b: State, c: State)
    requires Covers(a, b) && Covers(b, c)
    ensures Covers(a, c)
  {
  }
}
