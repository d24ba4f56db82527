/** Soundness of the propagated facts: at a post-fixpoint a Constant at a block's entry is the
    register's value modulo 2^32 and an Argument is the register's value on entry to the
    function, on every execution that reaches the block. */
module Facts {
  import opened Bytes
  import opened Folding
  import opened Semantics
  import opened Wrappers
  import opened Worklist
  import opened FixPoint

  type Regs = s: seq<long> | |s| == REGISTERS witness seq(32, i => 0)

  // ------------------------------------------------------------ 32-bit execution

  function OperandValue(o: Operand, r: Regs): long {
    match o
    case Register(k) => r[k]
    case Literal(k) => U32(k)
    case Address(a) => U32(a)
    case OtherOperand => 0
  }

  function EffectiveAddress(m: Memory, r: Regs): long {
    var base := if m.base.Some? then r[m.base.value] as int + m.displacement
                else if m.absolute || m.ipRelative then m.resolved else m.displacement;
    U32(base + (if m.index.Some? then r[m.index.value] as int * Pow2(m.scale) else 0))
  }

  // What one instruction may do; the image is read-only program memory.
  ghost predicate ExecCode(image: seq<byte>, c: Code, r: Regs, t: Regs) {
    match c
    case Lda(m, d) => t == r[d := EffectiveAddress(m, r)]
    case Mov(o, d) => t == r[d := OperandValue(o, r)] || (o.OtherOperand? && Same(r, t, [d]))
    case Load(kind, m, d) =>
      var a := EffectiveAddress(m, r);
      && Same(r, t, [d])
      && (a < |image| && ImageValue(image, kind, a).Some? ==> t[d] == U32(ImageValue(image, kind, a).value))
    case Binary(op, left, right, d) =>
      && Same(r, t, [d])
      && (!left.OtherOperand? && !right.OtherOperand? && !op.OtherOp? ==>
            t[d] == BinaryValue(op, OperandValue(left, r), OperandValue(right, r)))
    case Other(ds) => Same(r, t, ds)
  }

  ghost predicate Same(r: Regs, t: Regs, ds: seq<Reg>) {
    forall k: Reg :: k !in ds ==> t[k] == r[k]
  }

  ghost predicate Clobbered(r: Regs, t: Regs) {
    forall k: Reg :: !(G0 <= k <= 30) ==> t[k] == r[k]
  }

  // The code's own effect, then the further registers, then what a call leaves behind.
  ghost predicate Exec(image: seq<byte>, i: Instruction, r: Regs, t: Regs) {
    exists m: Regs, n: Regs ::
      ExecCode(image, i.code, r, m) && Same(m, n, i.also) && if i.call then Clobbered(n, t) else t == n
  }

  ghost predicate ExecAll(image: seq<byte>, code: seq<Instruction>, r: Regs, t: Regs)
    decreases |code|
  {
    if code == [] then t == r
    else exists m: Regs :: Exec(image, code[0], r, m) && ExecAll(image, code[1..], m, t)
  }

  // ------------------------------------------------------------ what a fact means

  predicate Means(v: Value, x: long, entry: Regs) {
    match v
    case Constant(k) => x == U32(k)
    case Argument(r) => r < REGISTERS && x == entry[r]
    case _ => true
  }

  ghost predicate Holds(s: State, r: Regs, entry: Regs) {
    forall k: Reg :: Means(s[k], r[k], entry)
  }

  // ------------------------------------------------------------ where the analyser is right

  // A folded operation of two constants is one the machine agrees with.
  predicate FoldsRight(c: Code, s: State) {
    c.Binary? ==>
      var left, right := EvaluateOperand(c.left, s), EvaluateOperand(c.right, s);
      left.Constant? && right.Constant? ==> FoldOk(c.op, left.value, right.value)
  }

  // Nothing is claimed about registers the analyser did not see written.
  predicate Quiet(s: State, also: seq<Reg>) {
    forall r: Reg :: r in also ==> !s[r].Constant? && !s[r].Argument?
  }

  /** The condition on one instruction, decided from the facts before it: its constants fold rightly
      and no fact is left on a further register it writes. */
  predicate InScope(image: seq<byte>, i: Instruction, s: State) {
    FoldsRight(i.code, s) && Quiet(TransferCode(image, i.code, s), i.also)
  }

  predicate AllInScope(image: seq<byte>, code: seq<Instruction>, s: State)
    decreases |code|
  {
    code != [] ==> InScope(image, code[0], s) && AllInScope(image, code[1..], Transfer(image, code[0], s))
  }

  // Instructions on which the condition holds whatever the facts.
  predicate Plain(i: Instruction) {
    (i.code.Binary? ==> !i.code.op.ShiftLeft? && !i.code.op.ShiftRight?) && i.also == []
  }

  lemma {:induction false} PlainInScope(image: seq<byte>, code: seq<Instruction>, s: State)
    requires forall k :: 0 <= k < |code| ==> Plain(code[k])
    ensures AllInScope(image, code, s)
    decreases |code|
  {
    if code != [] {
      assert Plain(code[0]);
      PlainInScope(image, code[1..], Transfer(image, code[0], s));
    }
  }

  // ------------------------------------------------------------ one instruction

  lemma OperandMeans(o: Operand, s: State, r: Regs, entry: Regs)
    requires Holds(s, r, entry)
    ensures o.OtherOperand? || Means(EvaluateOperand(o, s), OperandValue(o, r), entry)
  {
    match o
    case Literal(k) => WrapLow(k);
    case Address(a) => WrapLow(a);
    case _ =>
  }

  lemma BaseMeans(m: Memory, s: State, r: Regs, entry: Regs)
    requires Holds(s, r, entry)
    ensures var b := BaseAddress(m, s).0;
            b.Constant? ==> U32(b.value) == EffectiveAddress(m.(index := None), r)
    ensures !BaseAddress(m, s).0.Argument?
  {
    if m.base.Some? {
      var v := s[m.base.value];
      assert Means(v, r[m.base.value], entry);
      if v.Constant? {
        WrapLow(v.value + m.displacement);
        LowSum(v.value, m.displacement);
      }
    } else {
      WrapLow(m.resolved);
      WrapLow(m.displacement);
    }
  }

  lemma MemoryMeans(m: Memory, s: State, r: Regs, entry: Regs)
    requires Holds(s, r, entry)
    ensures var v := EvaluateMemory(m, s);
            !v.Argument? && (v.Constant? ==> U32(v.value) == EffectiveAddress(m, r))
  {
    BaseMeans(m, s, r, entry);
    var b := BaseAddress(m, s).0;
    if m.index.Some? {
      var i := s[m.index.value];
      assert Means(i, r[m.index.value], entry);
      if i.Constant? && b.Constant? { IndexMeans(b.value, i.value, Pow2(m.scale), m, r); }
    } else {
      assert m == m.(index := None);
    }
  }

  // The scaled index, added in 64 bits or in 32, gives the same low word.
  lemma IndexMeans(b: i64, i: i64, p: nat, m: Memory, r: Regs)
    requires m.index.Some? && p == Pow2(m.scale) && r[m.index.value] == U32(i)
    requires U32(b) == EffectiveAddress(m.(index := None), r)
    ensures U32(Wrap64(b + i * p)) == EffectiveAddress(m, r)
  {
    var base := if m.base.Some? then r[m.base.value] as int + m.displacement
                else if m.absolute || m.ipRelative then m.resolved else m.displacement;
    WrapLow(b + i * p);
    SumLow(b, i * p, base, U32(i) as int * p) by { LowProduct(i, p); }
  }

  lemma BinaryMeans(op: BinaryOp, left: Value, right: Value, x: long, y: long, entry: Regs)
    requires Means(left, x, entry) && Means(right, y, entry)
    requires left.Constant? && right.Constant? ==> FoldOk(op, left.value, right.value)
    ensures var v := BinaryResult(op, left, right);
            !v.Argument? && (v.Constant? ==> !op.OtherOp? && U32(v.value) == BinaryValue(op, x, y))
  {
    if left.Constant? && right.Constant? && !op.OtherOp? { FoldExact(op, left.value, right.value); }
  }

  lemma LoadMeans(image: seq<byte>, kind: LoadKind, m: Memory, s: State, r: Regs, entry: Regs)
    requires Holds(s, r, entry) && |image| <= 0x1_0000_0000
    ensures var v, a := LoadValue(image, kind, m, s), EffectiveAddress(m, r);
            && !v.Argument?
            && (v.Constant? ==> a < |image| && ImageValue(image, kind, a).Some?
                                && U32(v.value) == U32(ImageValue(image, kind, a).value))
  {
    MemoryMeans(m, s, r, entry);
    var v := LoadValue(image, kind, m, s);
    if v.Constant? {
      var a := EvaluateMemory(m, s).value;
      assert U32(a) == a;
      WrapLow(ImageValue(image, kind, a).value);
    }
  }

  lemma CodeMeans(image: seq<byte>, c: Code, s: State, r: Regs, t: Regs, entry: Regs)
    requires Holds(s, r, entry) && FoldsRight(c, s) && |image| <= 0x1_0000_0000 && ExecCode(image, c, r, t)
    ensures Holds(TransferCode(image, c, s), t, entry)
  {
    match c
    case Lda(m, d) => MemoryMeans(m, s, r, entry);
    case Load(kind, m, d) => LoadMeans(image, kind, m, s, r, entry);
    case Mov(o, d) => OperandMeans(o, s, r, entry);
    case Binary(op, left, right, d) =>
      OperandMeans(left, s, r, entry);
      OperandMeans(right, s, r, entry);
      if !left.OtherOperand? && !right.OtherOperand? {
        BinaryMeans(op, EvaluateOperand(left, s), EvaluateOperand(right, s),
                    OperandValue(left, r), OperandValue(right, r), entry);
      }
    case Other(ds) =>
  }

  /** Facts left on unseen registers survive whatever is written there exactly when there are none. */
  lemma QuietExact(s: State, also: seq<Reg>, m: Regs, entry: Regs)
    requires Holds(s, m, entry)
    ensures Quiet(s, also) <==> forall n: Regs :: Same(m, n, also) ==> Holds(s, n, entry)
  {
    if !Quiet(s, also) {
      var k: Reg :| k in also && (s[k].Constant? || s[k].Argument?);
      var n: Regs := m[k := U32(m[k] as int + 1)];
      assert Same(m, n, also) && !Means(s[k], n[k], entry);
    }
  }

  lemma StepMeans(image: seq<byte>, i: Instruction, s: State, r: Regs, t: Regs, entry: Regs)
    requires Holds(s, r, entry) && InScope(image, i, s) && |image| <= 0x1_0000_0000 && Exec(image, i, r, t)
    ensures Holds(Transfer(image, i, s), t, entry)
  {
    var m: Regs, n: Regs :|
      ExecCode(image, i.code, r, m) && Same(m, n, i.also) && if i.call then Clobbered(n, t) else t == n;
    CodeMeans(image, i.code, s, r, m, entry);
    QuietExact(TransferCode(image, i.code, s), i.also, m, entry);
  }

  lemma {:induction false} CodeRunMeans(image: seq<byte>, code: seq<Instruction>, s: State,
                                        r: Regs, t: Regs, entry: Regs)
    requires Holds(s, r, entry) && |image| <= 0x1_0000_0000 && ExecAll(image, code, r, t)
    requires AllInScope(image, code, s)
    ensures Holds(TransferAll(image, code, s), t, entry)
    decreases |code|
  {
    if code != [] {
      var m: Regs :| Exec(image, code[0], r, m) && ExecAll(image, code[1..], m, t);
      StepMeans(image, code[0], s, r, m, entry);
      CodeRunMeans(image, code[1..], Transfer(image, code[0], s), m, t, entry);
    }
  }

  // ------------------------------------------------------------ every path

  // A moment of an execution: about to enter a block with these registers.
  datatype At = At(block: nat, regs: Regs)

  ghost predicate StepsTo(f: Program, a: At, b: At) {
    && a.block < |f.blocks| && b.block < |f.blocks|
    && ExecAll(f.image, f.blocks[a.block].code, a.regs, b.regs)
    && exists j :: 0 <= j < |f.blocks[a.block].successors|
                   && BlockIndex(f, f.blocks[a.block].successors[j], 0) == b.block
  }

  // The block that starts at the function's entry, or the number of blocks.
  function EntryBlock(f: Program): (e: nat)
    ensures e <= |f.blocks|
  {
    BlockIndex(f, f.entry, 0)
  }

  // An execution from the function's entry.
  ghost predicate Path(f: Program, p: seq<At>) {
    && |p| > 0 && p[0].block == EntryBlock(f) < |f.blocks|
    && forall k :: 0 <= k < |p| - 1 ==> StepsTo(f, p[k], p[k + 1])
  }

  // Every instruction of every block reached meets its condition on the facts found there.
  predicate RunInScope(f: Program, w: Work)
    requires Fits(f, w)
  {
    && |f.image| <= 0x1_0000_0000
    && forall b :: 0 <= b < |f.blocks| && w.init[b] ==> AllInScope(f.image, f.blocks[b].code, w.inputs[b])
  }

  lemma CoverHolds(d: State, s: State, r: Regs, entry: Regs)
    requires Covers(d, s) && Holds(s, r, entry)
    ensures Holds(d, r, entry)
  {
  }

  // The facts at the block an execution has come to hold there.
  ghost predicate FactsAt(f: Program, w: Work, p: seq<At>)
    requires Fits(f, w) && Path(f, p)
  {
    var last := p[|p| - 1];
    last.block < |f.blocks| && w.init[last.block] && Holds(w.inputs[last.block], last.regs, p[0].regs)
  }

  // The entry block's facts say nothing that is not so on entry: at most that a register still
  // holds its own entry value.
  predicate EntryMeans(f: Program, w: Work)
    requires Fits(f, w)
  {
    var e := EntryBlock(f);
    && e < |f.blocks| && w.init[e]
    && forall r: Reg :: !w.inputs[e][r].Constant? && (w.inputs[e][r].Argument? ==> w.inputs[e][r].register == r)
  }

  /** The facts at a post-fixpoint hold on every execution that starts at the entry, if the entry
      block's facts do. */
  lemma {:induction false} FactsHold(f: Program, w: Work, p: seq<At>)
    requires Fits(f, w) && RunInScope(f, w) && PostFixpoint(f, w) && EntryMeans(f, w) && Path(f, p)
    ensures FactsAt(f, w, p)
    decreases |p|
  {
    var entry := p[0].regs;
    if |p| > 1 {
      var q := p[..|p| - 1];
      FactsHold(f, w, q);
      var a, b := p[|p| - 2], p[|p| - 1];
      assert StepsTo(f, p[|p| - 2], p[|p| - 2 + 1]);
      var s := w.inputs[a.block];
      CodeRunMeans(f.image, f.blocks[a.block].code, s, a.regs, b.regs, entry);
      var j :| 0 <= j < |f.blocks[a.block].successors|
               && BlockIndex(f, f.blocks[a.block].successors[j], 0) == b.block;
      assert EdgeOk(f, w, f.blocks[a.block].successors[j], Exit(f, a.block, s));
      CoverHolds(w.inputs[b.block], Exit(f, a.block, s), b.regs, entry);
    }
  }

  // Registers on which a fact that is not so on entry shows.
  lemma EntryFactFails(f: Program, w: Work, r: Reg) returns (p: seq<At>)
    requires Fits(f, w) && EntryBlock(f) < |f.blocks|
    requires var v := w.inputs[EntryBlock(f)][r]; v.Constant? || (v.Argument? && v.register != r)
    ensures |p| == 1 && Path(f, p) && !FactsAt(f, w, p)
  {
    var e := EntryBlock(f);
    var v := w.inputs[e][r];
    var zeros: Regs := seq(REGISTERS, k => 0);
    var regs: Regs := if v.Constant? then zeros[r := U32(U32(v.value) as int + 1)] else zeros[r := 1];
    p := [At(e, regs)];
    assert !Means(v, regs[r], regs);
  }

  /** Exactly when the facts at a post-fixpoint hold on every execution from the entry: when the
      entry block is initialised and claims nothing that is not so on entry. */
  lemma FactsExact(f: Program, w: Work)
    requires Fits(f, w) && RunInScope(f, w) && PostFixpoint(f, w) && EntryBlock(f) < |f.blocks|
    ensures EntryMeans(f, w) <==> forall p: seq<At> | Path(f, p) :: FactsAt(f, w, p)
  {
    var e := EntryBlock(f);
    if EntryMeans(f, w) {
      forall p: seq<At> | Path(f, p) ensures FactsAt(f, w, p) { FactsHold(f, w, p); }
    } else if !w.init[e] {
      var p := [At(e, seq(REGISTERS, k => 0))];
      assert Path(f, p) && !FactsAt(f, w, p);
    } else {
      var r: Reg :| w.inputs[e][r].Constant? || (w.inputs[e][r].Argument? && w.inputs[e][r].register != r);
      var p := EntryFactFails(f, w, r);
    }
  }

  /** A function whose first block is its entry meets the condition. */
  lemma FirstIsEntry(f: Program, w: Work)
    requires Fits(f, w) && PostFixpoint(f, w) && f.blocks[0].start == f.entry
    ensures EntryBlock(f) == 0 && EntryMeans(f, w)
  {
    forall r: Reg ensures !w.inputs[0][r].Constant? && (w.inputs[0][r].Argument? ==> w.inputs[0][r].register == r) {
      assert w.inputs[0][r].Unknown? || w.inputs[0][r] == EntryState()[r];
    }
  }

  /** The analysis is sound whenever the entry is the lowest block, its queue never overflowed and
      its result passes the instructions' conditions. */
  lemma AnalysisIsSound(f: Program, p: seq<At>)
    requires Path(f, p) && f.blocks[0].start == f.entry && f.slots > 0
    requires !Drain(f, Start(f)).suppressed && RunInScope(f, Drain(f, Start(f)))
    ensures FactsAt(f, Drain(f, Start(f)), p)
  {
    DrainedIsPostFixpoint(f);
    FirstIsEntry(f, Drain(f, Start(f)));
    FactsHold(f, Drain(f, Start(f)), p);
  }

  // All the instructions are plain.
  predicate PlainProgram(f: Program) {
    && |f.image| <= 0x1_0000_0000
    && forall b, k :: 0 <= b < |f.blocks| && 0 <= k < |f.blocks[b].code| ==> Plain(f.blocks[b].code[k])
  }

  lemma PlainRun(f: Program, w: Work)
    requires Fits(f, w) && PlainProgram(f)
    ensures RunInScope(f, w)
  {
    forall b | 0 <= b < |f.blocks| && w.init[b] ensures AllInScope(f.image, f.blocks[b].code, w.inputs[b]) {
      PlainInScope(f.image, f.blocks[b].code, w.inputs[b]);
    }
  }

  /** With the queue as allocated it is sound for every plain function that writes at most seven
      registers and whose entry is its lowest block. */
  lemma AllocatedIsSound(f: Program, p: seq<At>, ws: set<Reg>)
    requires Path(f, p) && f.blocks[0].start == f.entry && PlainProgram(f)
    requires f.slots == Allocated(|f.blocks|) && Writes(f, ws) && |ws| <= 7
    ensures FactsAt(f, Drain(f, Start(f)), p)
  {
    AllocatedSuffices(f, ws);
    PlainRun(f, Drain(f, Start(f)));
    AnalysisIsSound(f, p);
  }

  /** With 33 slots a block, which is more than is allocated, for every plain function whose entry
      is its lowest block. */
  lemma SufficientIsSound(f: Program, p: seq<At>)
    requires Path(f, p) && f.blocks[0].start == f.entry && PlainProgram(f)
    requires f.slots >= Sufficient(|f.blocks|)
    ensures FactsAt(f, Drain(f, Start(f)), p)
  {
    SufficientSlots(f);
    PlainRun(f, Drain(f, Start(f)));
    AnalysisIsSound(f, p);
  }

  /** A ldl through r3 into r4 and r5 keeps a stale constant in r5: the analyser still holds it to
      be 7 on an execution that leaves 8 there. */
  lemma PairLoadUnsound(image: seq<byte>, s: State, r: Regs, entry: Regs)
    requires s[5] == Constant(7) && Holds(s, r, entry)
    ensures var i := Instruction(Load(LdWord, Memory(Some(3), None, 0, false, false, 0, 0), 4), false, [5]);
            exists t: Regs :: Exec(image, i, r, t) && !Holds(Transfer(image, i, s), t, entry)
  {
    var m: Memory := Memory(Some(3), None, 0, false, false, 0, 0);
    var i := Instruction(Load(LdWord, m, 4), false, [5]);
    var a := EffectiveAddress(m, r);
    var v := if a < |image| && ImageValue(image, LdWord, a).Some? then U32(ImageValue(image, LdWord, a).value) else 0;
    var n: Regs := r[4 := v];
    var t: Regs := n[5 := 8];
    assert ExecCode(image, i.code, r, n);
    assert Same(n, t, i.also);
    assert Exec(image, i, r, t);
    assert Transfer(image, i, s)[5] == Constant(7) && !Means(Constant(7), t[5], entry);
  }
}
