/** The analyser from end to end: the facts recorded for the blocks recovered from an image, on the
    executions of that image from the function's entry. */
module ImageFacts {
  import opened Bytes
  import opened Facts
  import opened FixPoint
  import opened Semantics
  import opened Worklist
  import opened Wrappers

  import B = CfgBlocks
  import C = Cfg
  import D = CfgDiscovery
  import T = CfgTheory

  // An image with both readings of every word that decodes: where control may go from it, and what
  // it does to the registers.
  datatype Disassembly = Disassembly(image: seq<byte>, flow: C.Image, code: seq<Instruction>)

  // A function of a readable image whose reachable instructions do not overlap.
  ghost predicate Readable(d: Disassembly, entry: nat) {
    && C.ImageOk(d.flow) && d.flow.size == |d.image| && |d.code| == C.Words(d.flow)
    && C.ValidCode(d.flow, entry) && T.NoOverlap(d.flow, entry) && d.flow.decode[entry / 4].Some?
  }

  function CodeAt(d: Disassembly, a: nat): Instruction {
    if a / 4 < |d.code| then d.code[a / 4] else Instruction(Other([]), false, [])
  }

  function Members(d: Disassembly, b: C.Block): seq<Instruction> {
    seq(|b.members|, j requires 0 <= j < |b.members| => CodeAt(d, b.members[j]))
  }

  function Cut(d: Disassembly, entry: nat): seq<C.Block>
    requires C.ImageOk(d.flow) && C.ValidCode(d.flow, entry)
  {
    B.Blocks(d.flow, entry)
  }

  // What the analyser is run on: the recovered blocks, in their order.
  function Analysed(d: Disassembly, entry: nat, slots: nat): Program
    requires C.ImageOk(d.flow) && C.ValidCode(d.flow, entry)
  {
    var bs := Cut(d, entry);
    Program(d.image, entry,
            seq(|bs|, k requires 0 <= k < |bs| => Block(bs[k].start, Members(d, bs[k]), bs[k].successors)), slots)
  }

  // ------------------------------------------------------------ executions of the image

  // About to execute the instruction at an address with these registers.
  datatype Moment = Moment(address: nat, regs: Regs)

  ghost predicate Moves(d: Disassembly, a: Moment, b: Moment)
    requires C.ImageOk(d.flow)
  {
    && T.StepsTo(d.flow, a.address, b.address) && Exec(d.image, CodeAt(d, a.address), a.regs, b.regs)
    && C.ValidCode(d.flow, b.address) && d.flow.decode[b.address / 4].Some?
  }

  function Last(x: seq<Moment>): Moment
    requires |x| > 0
  {
    x[|x| - 1]
  }

  // From the entry by direct control flow, one instruction at a time.
  ghost predicate Execution(d: Disassembly, entry: nat, x: seq<Moment>)
    requires C.ImageOk(d.flow)
  {
    |x| > 0 && x[0].address == entry && forall k :: 0 <= k < |x| - 1 ==> Moves(d, x[k], x[k + 1])
  }

  // The instruction at the address is the j-th of block k.
  predicate Place(d: Disassembly, entry: nat, a: nat, k: nat, j: nat)
    requires C.ImageOk(d.flow) && C.ValidCode(d.flow, entry)
  {
    k < |Cut(d, entry)| && j < |Cut(d, entry)[k].members| && Cut(d, entry)[k].members[j] == a
  }

  // The recorded input of the block, carried over its first j instructions.
  function Before(f: Program, w: Work, k: nat, j: nat): State
    requires Fits(f, w) && k < |f.blocks| && j <= |f.blocks[k].code|
  {
    TransferAll(f.image, f.blocks[k].code[..j], w.inputs[k])
  }

  // The analyser reached that place, and its facts there hold.
  ghost predicate HoldAt(d: Disassembly, f: Program, w: Work, x: seq<Moment>, k: nat, j: nat)
    requires Readable(d, f.entry) && f == Analysed(d, f.entry, f.slots) && Fits(f, w) && |x| > 0
  {
    && Place(d, f.entry, Last(x).address, k, j) && w.init[k]
    && Holds(Before(f, w, k, j), Last(x).regs, x[0].regs)
  }

  // The instruction an execution has come to lies in one place, and the facts there hold.
  ghost predicate FactsThere(d: Disassembly, f: Program, w: Work, x: seq<Moment>)
    requires Readable(d, f.entry) && f == Analysed(d, f.entry, f.slots) && Fits(f, w) && |x| > 0
  {
    && (exists k: nat, j: nat :: Place(d, f.entry, Last(x).address, k, j))
    && (forall k: nat, j: nat :: Place(d, f.entry, Last(x).address, k, j) ==> HoldAt(d, f, w, x, k, j))
  }

  // ------------------------------------------------------------ places

  // Every block begins with the instruction at its start.
  lemma BlockHasStart(d: Disassembly, entry: nat, k: nat)
    requires Readable(d, entry) && k < |Cut(d, entry)|
    ensures Place(d, entry, Cut(d, entry)[k].start, k, 0)
  {
    var m := d.flow;
    var s, b := D.Found(m, entry), Cut(d, entry)[k];
    B.FoundReady(m, entry);
    B.BlockStarts(m, s, 0, k);
    B.MarkedDecodes(m, s, entry, b.start);
    B.FirstMember(m, s, b.start, b.start);
  }

  lemma PlaceUnique(d: Disassembly, entry: nat, a: nat, k: nat, j: nat, k2: nat, j2: nat)
    requires Readable(d, entry) && Place(d, entry, a, k, j) && Place(d, entry, a, k2, j2)
    requires C.ValidCode(d.flow, a) && T.Reach(d.flow, entry, a) && d.flow.decode[a / 4].Some?
    ensures k == k2 && j == j2
  {
    var m := d.flow;
    var s, bs := D.Found(m, entry), Cut(d, entry);
    var only := B.InExactlyOneBlock(m, entry, a);
    assert a in bs[k].members && a in bs[k2].members;
    B.BlockStarts(m, s, 0, k);
    if j < j2 { B.MembersAscend(m, s, bs[k].start, bs[k].start, j, j2); }
    if j2 < j { B.MembersAscend(m, s, bs[k].start, bs[k].start, j2, j); }
  }

  // The block that the analyser finds by an address is the one with that start.
  lemma {:induction false} IndexFinds(f: Program, address: nat, k: nat, n: nat)
    requires k <= n < |f.blocks| && f.blocks[n].start == address
    ensures BlockIndex(f, address, k) < |f.blocks| && f.blocks[BlockIndex(f, address, k)].start == address
    decreases |f.blocks| - k
  {
    if f.blocks[k].start != address { IndexFinds(f, address, k + 1, n); }
  }

  lemma SuccessorFound(d: Disassembly, f: Program, k: nat, t: nat)
    requires Readable(d, f.entry) && f == Analysed(d, f.entry, f.slots)
    requires k < |f.blocks| && t in f.blocks[k].successors && t % 4 == 0
    ensures BlockIndex(f, t, 0) < |f.blocks| && Place(d, f.entry, t, BlockIndex(f, t, 0), 0)
  {
    B.SuccessorsAreBlocks(d.flow, f.entry, k, t);
    var n: nat :| n < |Cut(d, f.entry)| && Cut(d, f.entry)[n].start == t;
    IndexFinds(f, t, 0, n);
    BlockHasStart(d, f.entry, BlockIndex(f, t, 0));
  }

  lemma EntryFound(d: Disassembly, f: Program)
    requires Readable(d, f.entry) && f == Analysed(d, f.entry, f.slots)
    ensures EntryBlock(f) < |f.blocks| && Place(d, f.entry, f.entry, EntryBlock(f), 0)
  {
    var n := B.EntryHasBlock(d.flow, f.entry);
    IndexFinds(f, f.entry, 0, n);
    BlockHasStart(d, f.entry, EntryBlock(f));
  }

  // ------------------------------------------------------------ one step

  lemma {:induction false} TransferSnoc(image: seq<byte>, code: seq<Instruction>, i: Instruction, s: State)
    ensures TransferAll(image, code + [i], s) == Transfer(image, i, TransferAll(image, code, s))
    decreases |code|
  {
    if code == [] {
      assert code + [i] == [i] && [i][1..] == [];
    } else {
      assert (code + [i])[1..] == code[1..] + [i];
      TransferSnoc(image, code[1..], i, Transfer(image, code[0], s));
    }
  }

  lemma {:induction false} ScopeAt(image: seq<byte>, code: seq<Instruction>, s: State, j: nat)
    requires AllInScope(image, code, s) && j < |code|
    ensures InScope(image, code[j], TransferAll(image, code[..j], s))
    decreases |code|
  {
    if j > 0 {
      assert code[..j][1..] == code[1..][..j - 1];
      ScopeAt(image, code[1..], Transfer(image, code[0], s), j - 1);
    }
  }

  // The facts are carried over the j-th instruction of an initialised block.
  lemma CarriedOver(f: Program, w: Work, k: nat, j: nat, r: Regs, t: Regs, entry: Regs)
    requires Fits(f, w) && RunInScope(f, w) && k < |f.blocks| && j < |f.blocks[k].code| && w.init[k]
    requires Holds(Before(f, w, k, j), r, entry) && Exec(f.image, f.blocks[k].code[j], r, t)
    ensures Holds(Before(f, w, k, j + 1), t, entry)
  {
    var code, s := f.blocks[k].code, w.inputs[k];
    ScopeAt(f.image, code, s, j);
    StepMeans(f.image, code[j], Before(f, w, k, j), r, t, entry);
    TransferSnoc(f.image, code[..j], code[j], s);
    assert code[..j + 1] == code[..j] + [code[j]];
  }

  // The facts at the end of an initialised block hold at the start of each successor.
  lemma CarriedAcross(f: Program, w: Work, k: nat, t: nat, r: Regs, entry: Regs)
    requires Fits(f, w) && PostFixpoint(f, w) && k < |f.blocks| && w.init[k]
    requires t in f.blocks[k].successors && BlockIndex(f, t, 0) < |f.blocks|
    requires Holds(Before(f, w, k, |f.blocks[k].code|), r, entry)
    ensures w.init[BlockIndex(f, t, 0)] && Holds(Before(f, w, BlockIndex(f, t, 0), 0), r, entry)
  {
    var b := f.blocks[k];
    var i :| 0 <= i < |b.successors| && b.successors[i] == t;
    assert b.code[..|b.code|] == b.code;
    assert EdgeOk(f, w, b.successors[i], Exit(f, k, w.inputs[k]));
    CoverHolds(w.inputs[BlockIndex(f, t, 0)], Exit(f, k, w.inputs[k]), r, entry);
  }

  // Where the instruction that follows the one at (k, j) lies.
  lemma NextPlace(d: Disassembly, f: Program, a: nat, k: nat, j: nat, t: nat)
    requires Readable(d, f.entry) && f == Analysed(d, f.entry, f.slots) && Place(d, f.entry, a, k, j)
    requires T.Reach(d.flow, f.entry, a) && T.StepsTo(d.flow, a, t)
    requires C.ValidCode(d.flow, t) && d.flow.decode[t / 4].Some?
    ensures if j + 1 < |f.blocks[k].code| then Place(d, f.entry, t, k, j + 1) else t in f.blocks[k].successors
  {
    var m := d.flow;
    var s, b := D.Found(m, f.entry), Cut(d, f.entry)[k];
    T.ReachStep(m, f.entry, a, t);
    D.MarksAreReachable(m, f.entry, t);
    B.BlockStarts(m, s, 0, k);
    B.MemberNext(m, s, b.start, b.start, j, t);
  }

  lemma StepHolds(d: Disassembly, f: Program, w: Work, a: Moment, b: Moment, k: nat, j: nat, entry: Regs)
    returns (k2: nat, j2: nat)
    requires Readable(d, f.entry) && f == Analysed(d, f.entry, f.slots) && Fits(f, w)
    requires RunInScope(f, w) && PostFixpoint(f, w)
    requires T.Reach(d.flow, f.entry, a.address) && Moves(d, a, b)
    requires Place(d, f.entry, a.address, k, j) && w.init[k] && Holds(Before(f, w, k, j), a.regs, entry)
    ensures Place(d, f.entry, b.address, k2, j2) && w.init[k2] && Holds(Before(f, w, k2, j2), b.regs, entry)
  {
    NextPlace(d, f, a.address, k, j, b.address);
    CarriedOver(f, w, k, j, a.regs, b.regs, entry);
    k2, j2 := k, j + 1;
    if j + 1 == |f.blocks[k].code| {
      SuccessorFound(d, f, k, b.address);
      CarriedAcross(f, w, k, b.address, b.regs, entry);
      k2, j2 := BlockIndex(f, b.address, 0), 0;
    }
  }

  // ------------------------------------------------------------ every execution

  lemma EntryHolds(f: Program, w: Work, r: Regs)
    requires Fits(f, w) && EntryMeans(f, w)
    ensures Holds(Before(f, w, EntryBlock(f), 0), r, r)
  {
  }

  lemma {:induction false} ExecutionReaches(d: Disassembly, entry: nat, x: seq<Moment>)
    requires Readable(d, entry) && Execution(d, entry, x)
    ensures var a := Last(x).address;
            T.Reach(d.flow, entry, a) && C.ValidCode(d.flow, a) && d.flow.decode[a / 4].Some?
    decreases |x|
  {
    if |x| == 1 {
      T.ReachEntry(d.flow, entry);
    } else {
      var y := x[..|x| - 1];
      ExecutionReaches(d, entry, y);
      assert Moves(d, x[|x| - 2], x[|x| - 2 + 1]);
      T.ReachStep(d.flow, entry, x[|x| - 2].address, Last(x).address);
    }
  }

  lemma {:induction false} ExecutionHolds(d: Disassembly, f: Program, w: Work, x: seq<Moment>)
    returns (k: nat, j: nat)
    requires Readable(d, f.entry) && f == Analysed(d, f.entry, f.slots) && Fits(f, w) && Execution(d, f.entry, x)
    requires RunInScope(f, w) && PostFixpoint(f, w) && EntryMeans(f, w)
    ensures HoldAt(d, f, w, x, k, j)
    decreases |x|
  {
    if |x| == 1 {
      EntryFound(d, f);
      EntryHolds(f, w, x[0].regs);
      k, j := EntryBlock(f), 0;
    } else {
      var y := x[..|x| - 1];
      k, j := ExecutionHolds(d, f, w, y);
      ExecutionReaches(d, f.entry, y);
      assert Moves(d, x[|x| - 2], x[|x| - 2 + 1]);
      k, j := StepHolds(d, f, w, x[|x| - 2], Last(x), k, j, x[0].regs);
    }
  }

  /** The facts at a post-fixpoint hold at every instruction of every execution from the entry, if
      the entry block's facts do. */
  lemma ImageFactsHold(d: Disassembly, f: Program, w: Work, x: seq<Moment>)
    requires Readable(d, f.entry) && f == Analysed(d, f.entry, f.slots) && Fits(f, w) && Execution(d, f.entry, x)
    requires RunInScope(f, w) && PostFixpoint(f, w) && EntryMeans(f, w)
    ensures FactsThere(d, f, w, x)
  {
    var a := Last(x).address;
    var k, j := ExecutionHolds(d, f, w, x);
    ExecutionReaches(d, f.entry, x);
    forall k2: nat, j2: nat | Place(d, f.entry, a, k2, j2) ensures HoldAt(d, f, w, x, k2, j2) {
      PlaceUnique(d, f.entry, a, k, j, k2, j2);
    }
  }

  // An execution of no step on which the entry block's facts are wrong.
  lemma EntryFails(d: Disassembly, f: Program, w: Work) returns (x: seq<Moment>)
    requires Readable(d, f.entry) && f == Analysed(d, f.entry, f.slots) && Fits(f, w) && !EntryMeans(f, w)
    ensures Execution(d, f.entry, x) && !FactsThere(d, f, w, x)
  {
    var e := EntryBlock(f);
    EntryFound(d, f);
    var regs: Regs := seq(REGISTERS, i => 0);
    if w.init[e] {
      var r: Reg :| w.inputs[e][r].Constant? || (w.inputs[e][r].Argument? && w.inputs[e][r].register != r);
      var p := EntryFactFails(f, w, r);
      regs := p[0].regs;
    }
    x := [Moment(f.entry, regs)];
    assert Before(f, w, e, 0) == w.inputs[e];
    assert Place(d, f.entry, x[0].address, e, 0) && !HoldAt(d, f, w, x, e, 0);
  }

  /** Exactly when they do so: when the entry block is initialised and claims nothing that is not so
      on entry. */
  lemma ImageFactsExact(d: Disassembly, f: Program, w: Work)
    requires Readable(d, f.entry) && f == Analysed(d, f.entry, f.slots) && Fits(f, w)
    requires RunInScope(f, w) && PostFixpoint(f, w)
    ensures EntryMeans(f, w) <==> forall x: seq<Moment> | Execution(d, f.entry, x) :: FactsThere(d, f, w, x)
  {
    if EntryMeans(f, w) {
      forall x: seq<Moment> | Execution(d, f.entry, x) ensures FactsThere(d, f, w, x) { ImageFactsHold(d, f, w, x); }
    } else {
      var x := EntryFails(d, f, w);
    }
  }

  /** Recovery and analysis together are sound on every execution of the image if the queue never
      overflowed, the instructions meet their conditions and no reachable one lies below the entry. */
  lemma ImageIsSound(d: Disassembly, f: Program, x: seq<Moment>)
    requires Readable(d, f.entry) && f == Analysed(d, f.entry, f.slots) && f.blocks != [] && f.slots > 0
    requires B.EntryLowest(d.flow, f.entry) && Execution(d, f.entry, x)
    requires !Drain(f, Start(f)).suppressed && RunInScope(f, Drain(f, Start(f)))
    ensures FactsThere(d, f, Drain(f, Start(f)), x)
  {
    B.FirstBlockExact(d.flow, f.entry);
    var w := Drain(f, Start(f));
    DrainedIsPostFixpoint(f);
    FirstIsEntry(f, w);
    ImageFactsHold(d, f, w, x);
  }

  // ------------------------------------------------------------ from the image alone

  // Every reachable instruction is plain and writes only these registers.
  ghost predicate PlainImage(d: Disassembly, entry: nat, ws: set<Reg>)
    requires C.ImageOk(d.flow)
  {
    forall a: nat :: C.ValidCode(d.flow, a) && T.Reach(d.flow, entry, a) && d.flow.decode[a / 4].Some? ==>
      Plain(CodeAt(d, a)) && WrittenBy(CodeAt(d, a)) <= ws
  }

  lemma MemberReached(d: Disassembly, entry: nat, k: nat, a: nat)
    requires Readable(d, entry) && k < |Cut(d, entry)| && a in Cut(d, entry)[k].members
    ensures C.ValidCode(d.flow, a) && T.Reach(d.flow, entry, a) && d.flow.decode[a / 4].Some?
  {
    var m := d.flow;
    var s, b := D.Found(m, entry), Cut(d, entry)[k];
    B.FoundReady(m, entry);
    B.BlockStarts(m, s, 0, k);
    B.MemberMarked(m, s, b.start, b.start, a);
    B.MarkedDecodes(m, s, entry, a);
    D.MarksAreReachable(m, entry, a);
  }

  lemma ImageIsPlain(d: Disassembly, f: Program, ws: set<Reg>)
    requires Readable(d, f.entry) && f == Analysed(d, f.entry, f.slots) && PlainImage(d, f.entry, ws)
    ensures PlainProgram(f) && Writes(f, ws)
  {
    forall b: nat, k: nat | b < |f.blocks| && k < |f.blocks[b].code|
      ensures Plain(f.blocks[b].code[k]) && WrittenBy(f.blocks[b].code[k]) <= ws
    {
      MemberReached(d, f.entry, b, Cut(d, f.entry)[b].members[k]);
    }
  }

  /** With the queue as allocated they are sound for every image whose reachable instructions are
      plain, write at most seven registers between them and do not lie below the entry. */
  lemma PlainImageIsSound(d: Disassembly, f: Program, ws: set<Reg>, x: seq<Moment>)
    requires Readable(d, f.entry) && f == Analysed(d, f.entry, f.slots) && f.slots == Allocated(|f.blocks|)
    requires PlainImage(d, f.entry, ws) && |ws| <= 7 && B.EntryLowest(d.flow, f.entry)
    requires Execution(d, f.entry, x)
    ensures |f.blocks| > 0 && FactsThere(d, f, Drain(f, Start(f)), x)
  {
    B.FirstBlockExact(d.flow, f.entry);
    ImageIsPlain(d, f, ws);
    AllocatedSuffices(f, ws);
    PlainRun(f, Drain(f, Start(f)));
    ImageIsSound(d, f, x);
  }

  // ------------------------------------------------------------ an entry above another block

  // A return at 0, then the entry: a load of 7 into g0 and a branch back to 0.
  function TailBranch(): Disassembly {
    Disassembly(
      seq(12, i => 0),
      C.Image(12, [Some(C.Instr(false, C.Return, false, 0, false)), Some(C.Instr(false, C.Plain, false, 0, true)),
                   Some(C.Instr(false, C.Branch, true, 0, false))]),
      [Instruction(Other([]), false, []),
       Instruction(Lda(Memory(None, None, 0, true, false, 7, 7), G0), false, []),
       Instruction(Other([]), false, [])])
  }

  lemma TailBranchFound()
    ensures D.Found(TailBranch().flow, 4) == C.Scan([1, 1, 1], [true, true, false], [4, 0], 2)
  {
    var m := TailBranch().flow;
    var s := C.Begin(m, 4);
    var t := C.Scan([0, 1, 1], [true, true, false], [4, 0], 1);
    var u := C.Scan([1, 1, 1], [true, true, false], [4, 0], 2);
    assert s.marks == [0, 0, 0] && s.leaders == [false, true, false];
    TailBranchWalk(s);
    assert C.Walk(m, t.(cursor := 2), 0) == C.Mark(m, t.(cursor := 2), 0, m.decode[0].value) == u;
    assert C.Discover(m, u) == u;
    assert C.Discover(m, t) == u;
  }

  lemma TailBranchWalk(s: C.Scan)
    requires s == C.Scan([0, 0, 0], [false, true, false], [4], 0)
    ensures C.Walk(TailBranch().flow, s.(cursor := 1), 4) == C.Scan([0, 1, 1], [true, true, false], [4, 0], 1)
  {
    var m := TailBranch().flow;
    var t := C.Scan([0, 1, 0], [false, true, false], [4], 1);
    assert C.Mark(m, s.(cursor := 1), 1, m.decode[1].value) == t;
    assert C.Mark(m, t, 2, m.decode[2].value) == t.(marks := [0, 1, 1]);
    assert C.Walk(m, t, 8) == C.Scan([0, 1, 1], [true, true, false], [4, 0], 1);
  }

  lemma TailBranchCut()
    ensures Cut(TailBranch(), 4) == [C.Block(0, 4, [], [0]), C.Block(4, 12, [0], [4, 8])]
  {
    var m := TailBranch().flow;
    TailBranchFound();
    var s := D.Found(m, 4);
    assert C.BlockFrom(m, s, 0, 0) == C.Block(0, 4, [], [0]);
    assert C.BlockFrom(m, s, 4, 8) == C.Block(4, 12, [0], [8]);
    assert C.BlockFrom(m, s, 4, 4) == C.Block(4, 12, [0], [4, 8]);
    assert C.BlocksFrom(m, s, 2) == [];
    assert C.BlocksFrom(m, s, 1) == [C.Block(4, 12, [0], [4, 8])];
  }

  // The block at 0 is visited first and leads nowhere, so that no other block is.
  lemma NothingFollows(f: Program)
    requires |f.blocks| > 0 && f.slots > 0 && f.blocks[0].successors == []
    ensures Drain(f, Start(f)) == Take(f, Start(f))
  {
    var v := Take(f, Start(f));
    assert Visit(f, Start(f)) == v;
    assert Drain(f, v) == v;
  }

  // Its facts are those of the entry, and an execution may come there otherwise.
  lemma SeededFails(d: Disassembly, f: Program, ws: set<Reg>, x: seq<Moment>)
    requires Readable(d, f.entry) && f == Analysed(d, f.entry, f.slots) && f.slots > 0 && PlainImage(d, f.entry, ws)
    requires f.blocks != [] && f.blocks[0].successors == []
    requires |x| > 0 && Place(d, f.entry, Last(x).address, 0, 0) && Last(x).regs[G0] != x[0].regs[G0]
    ensures var w := Drain(f, Start(f)); !w.suppressed && RunInScope(f, w) && !FactsThere(d, f, w, x)
  {
    NothingFollows(f);
    var w := Drain(f, Start(f));
    ImageIsPlain(d, f, ws);
    PlainRun(f, w);
    assert Before(f, w, 0, 0)[G0] == Argument(G0);
    assert !HoldAt(d, f, w, x, 0, 0);
  }

  lemma TailBranchRuns() returns (x: seq<Moment>)
    ensures Execution(TailBranch(), 4, x)
    ensures Last(x).address == 0 && Last(x).regs[G0] == 7 && x[0].regs[G0] == 0
  {
    var d := TailBranch();
    var zeros: Regs := seq(REGISTERS, i => 0);
    var sevens: Regs := zeros[G0 := 7];
    x := [Moment(4, zeros), Moment(8, sevens), Moment(0, sevens)];
    var lda, other := d.code[1], d.code[2];
    assert EffectiveAddress(lda.code.memory, zeros) == 7;
    assert ExecCode(d.image, lda.code, zeros, sevens) && Same(sevens, sevens, lda.also);
    assert Exec(d.image, lda, zeros, sevens);
    assert ExecCode(d.image, other.code, sevens, sevens) && Same(sevens, sevens, other.also);
    assert Exec(d.image, other, sevens, sevens);
  }

  // Nothing overlaps where no instruction has two words.
  lemma NarrowIsReadable(d: Disassembly, entry: nat)
    requires C.ImageOk(d.flow) && d.flow.size == |d.image| && |d.code| == C.Words(d.flow)
    requires C.ValidCode(d.flow, entry) && d.flow.decode[entry / 4].Some?
    requires forall w :: 0 <= w < C.Words(d.flow) && d.flow.decode[w].Some? ==> !d.flow.decode[w].value.wide
    ensures Readable(d, entry)
  {
    forall a: nat, b: nat ensures !T.Overlapping(d.flow, entry, a, b) {}
  }

  lemma TailBranchReadable()
    ensures Readable(TailBranch(), 4)
  {
    NarrowIsReadable(TailBranch(), 4);
  }

  lemma AllPlain(d: Disassembly, entry: nat, ws: set<Reg>)
    requires C.ImageOk(d.flow) && forall w :: 0 <= w < |d.code| ==> Plain(d.code[w]) && WrittenBy(d.code[w]) <= ws
    ensures PlainImage(d, entry, ws)
  {
    forall a: nat ensures Plain(CodeAt(d, a)) && WrittenBy(CodeAt(d, a)) <= ws {
      if a / 4 < |d.code| { assert CodeAt(d, a) == d.code[a / 4]; }
    }
  }

  lemma PlainLda(m: Memory, r: Reg)
    ensures var i := Instruction(Lda(m, r), false, []); Plain(i) && WrittenBy(i) == {r}
  {
  }

  lemma PlainOther()
    ensures var i := Instruction(Other([]), false, []); Plain(i) && WrittenBy(i) == {}
  {
  }

  lemma TailBranchPlain()
    ensures PlainImage(TailBranch(), 4, {G0})
  {
    var d := TailBranch();
    PlainLda(d.code[1].code.memory, G0);
    PlainOther();
    AllPlain(d, 4, {G0});
  }

  // Its two blocks, the first one at 0.
  lemma TailBranchBlocks(d: Disassembly, f: Program)
    requires d == TailBranch() && f.entry == 4 && Readable(d, 4) && f == Analysed(d, f.entry, f.slots)
    ensures |f.blocks| == 2 && f.blocks[0].successors == [] && Place(d, f.entry, 0, 0, 0)
  {
    TailBranchCut();
  }

  // Whatever is known of the queue, the facts fail on an execution of this kind.
  lemma TailBranchFails(d: Disassembly, f: Program, x: seq<Moment>)
    requires d == TailBranch() && f.entry == 4 && f.slots > 0 && Readable(d, f.entry) && PlainImage(d, f.entry, {G0})
    requires f == Analysed(d, f.entry, f.slots)
    requires |x| > 0 && Last(x).address == 0 && Last(x).regs[G0] != x[0].regs[G0]
    ensures |f.blocks| == 2
    ensures var w := Drain(f, Start(f)); !w.suppressed && RunInScope(f, w) && !FactsThere(d, f, w, x)
  {
    TailBranchBlocks(d, f);
    SeededFails(d, f, {G0}, x);
  }

  /** There the analysis ends with room to spare and every instruction meets its condition, yet it
      holds g0 to be its entry value in the block at 0, on an execution that comes there with 7 in
      it. */
  lemma EntryAboveFails() returns (x: seq<Moment>)
    ensures var d, f := TailBranch(), Analysed(TailBranch(), 4, Allocated(2));
            && Readable(d, 4) && |f.blocks| == 2 && PlainImage(d, 4, {G0})
            && !Drain(f, Start(f)).suppressed && RunInScope(f, Drain(f, Start(f)))
            && Execution(d, 4, x) && !FactsThere(d, f, Drain(f, Start(f)), x)
  {
    TailBranchReadable();
    TailBranchPlain();
    x := TailBranchRuns();
    TailBranchFails(TailBranch(), Analysed(TailBranch(), 4, Allocated(2)), x);
  }
}
