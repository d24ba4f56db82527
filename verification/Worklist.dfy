/** The worklist of one function's constant propagation, as a function: how many times a block
    is pushed, and what the inputs satisfy when the queue runs dry. */
module Worklist {
  import opened Bytes
  import opened Semantics

  // A block's decoded instructions and its recorded successor addresses.
  datatype Block = Block(start: nat, code: seq<Instruction>, successors: seq<nat>)

  // The blocks in ascending address order, so that the entry need not start the first; the queue
  // array has a fixed number of slots and is never compacted.
  datatype Program = Program(image: seq<byte>, entry: nat, blocks: seq<Block>, slots: nat)

  datatype Work = Work(inputs: seq<State>, init: seq<bool>, queued: seq<bool>, queue: seq<nat>,
                       cursor: nat, suppressed: bool)

  // What the analyser allocates for a function of n blocks.
  function Allocated(n: nat): nat { 8 * n + 1 }

  // One first visit a block, and one more for every register that can still lose its value.
  function Sufficient(n: nat): nat { 33 * n }

  predicate Fits(f: Program, w: Work) {
    && |w.inputs| == |w.init| == |w.queued| == |f.blocks| > 0
    && w.cursor <= |w.queue| <= f.slots
    && (forall k :: 0 <= k < |w.queue| ==> w.queue[k] < |f.blocks|)
  }

  // The first block that starts at the address, or the number of blocks.
  function BlockIndex(f: Program, address: nat, k: nat): (r: nat)
    requires k <= |f.blocks|
    ensures r <= |f.blocks|
    decreases |f.blocks| - k
  {
    if k == |f.blocks| || f.blocks[k].start == address then k else BlockIndex(f, address, k + 1)
  }

  // What the first block is seeded with: the state on entry to the function.
  function EntryState(): State {
    seq(REGISTERS, r requires 0 <= r < REGISTERS =>
      if r == SP || r == FP then Stack(0) else if G0 <= r <= G7 then Argument(r) else Unknown)
  }

  function Start(f: Program): (w: Work)
    requires |f.blocks| > 0 && f.slots > 0
    ensures Fits(f, w)
  {
    var n := |f.blocks|;
    Work(seq(n, i => EntryState()), seq(n, i => i == 0), seq(n, i => i == 0), [0], 0, false)
  }

  // One successor of a block whose exit state is out.
  function Relax(f: Program, w: Work, address: nat, out: State): (v: Work)
    requires Fits(f, w)
    ensures Fits(f, v) && v.cursor == w.cursor
  {
    var next := BlockIndex(f, address, 0);
    if next == |f.blocks| then w
    else
      var first := !w.init[next];
      var changed := first || MergeChanges(w.inputs[next], out);
      var input := if first then out else Merge(w.inputs[next], out);
      var v := w.(inputs := w.inputs[next := input], init := w.init[next := true]);
      if changed && !w.queued[next] then
        (if |w.queue| < f.slots
         then v.(queue := w.queue + [next], queued := w.queued[next := true])
         else v.(suppressed := true))
      else v
  }

  function RelaxFrom(f: Program, w: Work, successors: seq<nat>, k: nat, out: State): (v: Work)
    requires Fits(f, w) && k <= |successors|
    ensures Fits(f, v) && v.cursor == w.cursor
    decreases |successors| - k
  {
    if k == |successors| then w else RelaxFrom(f, Relax(f, w, successors[k], out), successors, k + 1, out)
  }

  function Exit(f: Program, b: nat, s: State): State
    requires b < |f.blocks|
  {
    TransferAll(f.image, f.blocks[b].code, s)
  }

  // The state in which the block at the cursor has been taken off the queue.
  function Take(f: Program, w: Work): (v: Work)
    requires Fits(f, w) && w.cursor < |w.queue|
    ensures Fits(f, v) && v.cursor == w.cursor + 1
  {
    w.(cursor := w.cursor + 1, queued := w.queued[w.queue[w.cursor] := false])
  }

  // Take the block at the cursor, run it, and relax its successors.
  function Visit(f: Program, w: Work): (v: Work)
    requires Fits(f, w) && w.cursor < |w.queue|
    ensures Fits(f, v) && v.cursor == w.cursor + 1
  {
    var b := w.queue[w.cursor];
    RelaxFrom(f, Take(f, w), f.blocks[b].successors, 0, Exit(f, b, w.inputs[b]))
  }

  function Drain(f: Program, w: Work): (v: Work)
    requires Fits(f, w)
    ensures Fits(f, v) && v.cursor == |v.queue|
    decreases f.slots - w.cursor
  {
    if w.cursor == |w.queue| then w else Drain(f, Visit(f, w))
  }

  // ------------------------------------------------------------ the registers a function writes

  function WrittenBy(i: Instruction): set<Reg> {
    (match i.code
     case Lda(_, d) => {d}
     case Load(_, _, d) => {d}
     case Mov(_, d) => {d}
     case Binary(_, _, _, d) => {d}
     case Other(ds) => set d | d in ds)
    + (if i.call then Clobbers() else {})
  }

  function RegistersBelow(n: nat): (s: set<Reg>)
    requires n <= REGISTERS
    ensures |s| == n && forall r: Reg :: r in s <==> r < n
  {
    if n == 0 then {} else RegistersBelow(n - 1) + {n - 1}
  }

  function AllRegisters(): (s: set<Reg>)
    ensures |s| == REGISTERS && forall r: Reg :: r in s
  {
    RegistersBelow(REGISTERS)
  }

  function Clobbers(): set<Reg> { set r | r in AllRegisters() && G0 <= r <= 30 }

  // The function's blocks change no register outside these.
  ghost predicate Writes(f: Program, ws: set<Reg>) {
    forall b, k :: 0 <= b < |f.blocks| && 0 <= k < |f.blocks[b].code| ==> WrittenBy(f.blocks[b].code[k]) <= ws
  }

  // Registers outside these say what they said on entry.
  ghost predicate Untouched(s: State, ws: set<Reg>) {
    forall r: Reg :: r !in ws ==> s[r] == EntryState()[r]
  }

  lemma TransferUntouched(image: seq<byte>, i: Instruction, s: State, ws: set<Reg>)
    requires WrittenBy(i) <= ws && Untouched(s, ws)
    ensures Untouched(Transfer(image, i, s), ws)
  {
    forall r: Reg | r !in ws ensures Transfer(image, i, s)[r] == s[r] { assert r !in WrittenBy(i); }
  }

  lemma {:induction false} CodeUntouched(image: seq<byte>, code: seq<Instruction>, s: State, ws: set<Reg>)
    requires forall k :: 0 <= k < |code| ==> WrittenBy(code[k]) <= ws
    requires Untouched(s, ws)
    ensures Untouched(TransferAll(image, code, s), ws)
    decreases |code|
  {
    if code != [] {
      assert WrittenBy(code[0]) <= ws;
      TransferUntouched(image, code[0], s, ws);
      CodeUntouched(image, code[1..], Transfer(image, code[0], s), ws);
    }
  }

  ghost predicate AllUntouched(f: Program, w: Work, ws: set<Reg>)
    requires Fits(f, w)
  {
    forall b :: 0 <= b < |f.blocks| ==> Untouched(w.inputs[b], ws)
  }

  // ------------------------------------------------------------ how often a block is pushed

  function Pushes(queue: seq<nat>, b: nat): (n: nat)
    ensures n <= |queue|
  {
    if queue == [] then 0 else Pushes(queue[..|queue| - 1], b) + (if queue[|queue| - 1] == b then 1 else 0)
  }

  // The written registers a state still says something about.
  function KnownOf(s: State, ws: set<Reg>): set<Reg> { set r | r in ws && !s[r].Unknown? }

  lemma {:induction false} SubsetSize(a: set<Reg>, b: set<Reg>)
    requires a <= b
    ensures |a| <= |b| && (a != b ==> |a| < |b|)
    decreases a
  {
    if a == {} {
      if b != {} { var x :| x in b; assert |b| == |b - {x}| + 1; }
    } else {
      var x :| x in a;
      SubsetSize(a - {x}, b - {x});
      assert a != b ==> a - {x} != b - {x} by { if a - {x} == b - {x} { assert a == b; } }
    }
  }

  // A state that says less about the written registers, and differs nowhere else.
  lemma KnownOfFalls(s: State, t: State, ws: set<Reg>)
    requires Covers(t, s) && Untouched(s, ws) && Untouched(t, ws)
    ensures |KnownOf(t, ws)| <= |KnownOf(s, ws)| && (t != s ==> |KnownOf(t, ws)| < |KnownOf(s, ws)|)
  {
    SubsetSize(KnownOf(t, ws), KnownOf(s, ws));
    if t != s {
      var r: Reg :| t[r] != s[r];
      assert r in KnownOf(s, ws) && r !in KnownOf(t, ws);
    }
  }

  // What a block can still be pushed for: its first initialisation, then a register forgotten.
  function Left(w: Work, ws: set<Reg>, b: nat): nat
    requires b < |w.inputs| == |w.init|
  {
    if w.init[b] then |KnownOf(w.inputs[b], ws)| else 1 + |ws|
  }

  ghost predicate Paid(f: Program, w: Work, ws: set<Reg>)
    requires Fits(f, w)
  {
    AllUntouched(f, w, ws) && forall b :: 0 <= b < |f.blocks| ==> Pushes(w.queue, b) + Left(w, ws, b) <= 1 + |ws|
  }

  lemma PushAdds(queue: seq<nat>, x: nat, b: nat)
    ensures Pushes(queue + [x], b) == Pushes(queue, b) + (if x == b then 1 else 0)
  {
    assert (queue + [x])[..|queue|] == queue;
  }

  lemma MergeUntouched(d: State, s: State, ws: set<Reg>)
    requires Untouched(d, ws) && Untouched(s, ws)
    ensures Untouched(Merge(d, s), ws)
  {
  }

  // The relaxed block's account.
  lemma RelaxLeft(f: Program, w: Work, address: nat, out: State, ws: set<Reg>)
    requires Fits(f, w) && AllUntouched(f, w, ws) && Untouched(out, ws)
    ensures var n, v := BlockIndex(f, address, 0), Relax(f, w, address, out);
            && AllUntouched(f, v, ws)
            && (forall b :: 0 <= b < |f.blocks| && b != n ==> Left(v, ws, b) == Left(w, ws, b))
            && (n < |f.blocks| ==> Left(v, ws, n) + (if v.queue != w.queue then 1 else 0) <= Left(w, ws, n))
  {
    var n := BlockIndex(f, address, 0);
    if n < |f.blocks| {
      MergeCovers(w.inputs[n], out);
      MergeUntouched(w.inputs[n], out, ws);
      KnownOfFalls(w.inputs[n], Merge(w.inputs[n], out), ws);
      SubsetSize(KnownOf(out, ws), ws);
    }
  }

  lemma RelaxPaid(f: Program, w: Work, address: nat, out: State, ws: set<Reg>)
    requires Fits(f, w) && Paid(f, w, ws) && Untouched(out, ws)
    ensures Paid(f, Relax(f, w, address, out), ws)
  {
    var n, v := BlockIndex(f, address, 0), Relax(f, w, address, out);
    RelaxLeft(f, w, address, out, ws);
    forall b | 0 <= b < |f.blocks| ensures Pushes(v.queue, b) + Left(v, ws, b) <= 1 + |ws| {
      PushAdds(w.queue, n, b);
      assert Pushes(w.queue, b) + Left(w, ws, b) <= 1 + |ws|;
    }
  }

  lemma {:induction false} RelaxFromPaid(f: Program, w: Work, successors: seq<nat>, k: nat, out: State, ws: set<Reg>)
    requires Fits(f, w) && Paid(f, w, ws) && Untouched(out, ws) && k <= |successors|
    ensures Paid(f, RelaxFrom(f, w, successors, k, out), ws)
    decreases |successors| - k
  {
    if k < |successors| {
      RelaxPaid(f, w, successors[k], out, ws);
      RelaxFromPaid(f, Relax(f, w, successors[k], out), successors, k + 1, out, ws);
    }
  }

  lemma ExitUntouched(f: Program, b: nat, s: State, ws: set<Reg>)
    requires Writes(f, ws) && b < |f.blocks| && Untouched(s, ws)
    ensures Untouched(Exit(f, b, s), ws)
  {
    CodeUntouched(f.image, f.blocks[b].code, s, ws);
  }

  lemma TakePaid(f: Program, w: Work, ws: set<Reg>)
    requires Fits(f, w) && w.cursor < |w.queue| && Paid(f, w, ws)
    ensures Paid(f, Take(f, w), ws)
  {
    forall b | 0 <= b < |f.blocks| ensures Left(Take(f, w), ws, b) == Left(w, ws, b) {}
  }

  lemma VisitPaid(f: Program, w: Work, ws: set<Reg>)
    requires Fits(f, w) && w.cursor < |w.queue| && Paid(f, w, ws) && Writes(f, ws)
    ensures Paid(f, Visit(f, w), ws)
  {
    var b := w.queue[w.cursor];
    TakePaid(f, w, ws);
    ExitUntouched(f, b, w.inputs[b], ws);
    RelaxFromPaid(f, Take(f, w), f.blocks[b].successors, 0, Exit(f, b, w.inputs[b]), ws);
  }

  lemma {:induction false} DrainPaid(f: Program, w: Work, ws: set<Reg>)
    requires Fits(f, w) && Paid(f, w, ws) && Writes(f, ws)
    ensures Paid(f, Drain(f, w), ws)
    decreases f.slots - w.cursor
  {
    if w.cursor < |w.queue| {
      VisitPaid(f, w, ws);
      DrainPaid(f, Visit(f, w), ws);
    }
  }

  lemma StartPaid(f: Program, ws: set<Reg>)
    requires |f.blocks| > 0 && f.slots > 0
    ensures Paid(f, Start(f), ws)
  {
    var w := Start(f);
    forall c | 0 <= c < |f.blocks| ensures Pushes(w.queue, c) + Left(w, ws, c) <= 1 + |ws| {
      PushAdds([], 0, c);
      assert w.queue == [] + [0];
      SubsetSize(KnownOf(w.inputs[c], ws), ws);
    }
  }

  /** Whatever the queue's size, a block is pushed at most once and once more for every register
      the function writes. */
  lemma PushesPerBlock(f: Program, ws: set<Reg>, b: nat)
    requires b < |f.blocks| && f.slots > 0 && Writes(f, ws)
    ensures Pushes(Drain(f, Start(f)).queue, b) <= 1 + |ws|
  {
    StartPaid(f, ws);
    DrainPaid(f, Start(f), ws);
  }

  /** So no block is ever pushed more than 33 times. */
  lemma AtMost33Pushes(f: Program, b: nat)
    requires b < |f.blocks| && f.slots > 0
    ensures Pushes(Drain(f, Start(f)).queue, b) <= 33
  {
    PushesPerBlock(f, AllRegisters(), b);
  }

  // ------------------------------------------------------------ a queue that never fills

  // The pushes of the blocks below n.
  function PushesBelow(queue: seq<nat>, n: nat): nat {
    if n == 0 then 0 else PushesBelow(queue, n - 1) + Pushes(queue, n - 1)
  }

  lemma {:induction false} PushesBelowAdds(queue: seq<nat>, x: nat, n: nat)
    ensures PushesBelow(queue + [x], n) == PushesBelow(queue, n) + (if x < n then 1 else 0)
  {
    if n > 0 {
      PushesBelowAdds(queue, x, n - 1);
      PushAdds(queue, x, n - 1);
    }
  }

  lemma {:induction false} PushesBelowNone(n: nat)
    ensures PushesBelow([], n) == 0
  {
    if n > 0 { PushesBelowNone(n - 1); }
  }

  // Every entry is some block's push.
  lemma {:induction false} PushesTotal(queue: seq<nat>, n: nat)
    requires forall k :: 0 <= k < |queue| ==> queue[k] < n
    ensures PushesBelow(queue, n) == |queue|
    decreases |queue|
  {
    if queue == [] {
      PushesBelowNone(n);
    } else {
      var rest, x := queue[..|queue| - 1], queue[|queue| - 1];
      assert queue == rest + [x];
      PushesTotal(rest, n);
      PushesBelowAdds(rest, x, n);
    }
  }

  lemma {:induction false} PushesBounded(queue: seq<nat>, n: nat, b: nat, most: nat)
    requires forall c :: 0 <= c < n ==> Pushes(queue, c) <= most && (c == b ==> Pushes(queue, c) < most)
    ensures PushesBelow(queue, n) <= n * most - (if b < n then 1 else 0)
  {
    if n > 0 {
      PushesBounded(queue, n - 1, b, most);
      assert n * most == (n - 1) * most + most;
    }
  }

  // A queue that holds one push and one more for every written register, for every block.
  ghost predicate Roomy(f: Program, ws: set<Reg>) {
    Writes(f, ws) && f.slots >= |f.blocks| * (1 + |ws|)
  }

  // A block that can still be pushed leaves room in such a queue.
  lemma RoomToPush(f: Program, w: Work, b: nat, ws: set<Reg>)
    requires Fits(f, w) && Paid(f, w, ws) && b < |f.blocks| && Left(w, ws, b) > 0
    ensures |w.queue| < |f.blocks| * (1 + |ws|)
  {
    var n := |f.blocks|;
    forall c | 0 <= c < n
      ensures Pushes(w.queue, c) <= 1 + |ws| && (c == b ==> Pushes(w.queue, c) < 1 + |ws|)
    {
      assert Pushes(w.queue, c) + Left(w, ws, c) <= 1 + |ws|;
    }
    PushesBounded(w.queue, n, b, 1 + |ws|);
    PushesTotal(w.queue, n);
  }

  lemma RelaxHasRoom(f: Program, w: Work, address: nat, out: State, ws: set<Reg>)
    requires Fits(f, w) && Paid(f, w, ws) && Untouched(out, ws) && Roomy(f, ws) && !w.suppressed
    ensures !Relax(f, w, address, out).suppressed
  {
    var next := BlockIndex(f, address, 0);
    if next < |f.blocks| && (w.init[next] ==> MergeChanges(w.inputs[next], out)) {
      MergeCovers(w.inputs[next], out);
      MergeUntouched(w.inputs[next], out, ws);
      KnownOfFalls(w.inputs[next], Merge(w.inputs[next], out), ws);
      RoomToPush(f, w, next, ws);
    }
  }

  lemma {:induction false} RelaxFromHasRoom(f: Program, w: Work, successors: seq<nat>, k: nat, out: State,
                                            ws: set<Reg>)
    requires Fits(f, w) && Paid(f, w, ws) && Untouched(out, ws) && Roomy(f, ws) && !w.suppressed && k <= |successors|
    ensures !RelaxFrom(f, w, successors, k, out).suppressed
    decreases |successors| - k
  {
    if k < |successors| {
      RelaxHasRoom(f, w, successors[k], out, ws);
      RelaxPaid(f, w, successors[k], out, ws);
      RelaxFromHasRoom(f, Relax(f, w, successors[k], out), successors, k + 1, out, ws);
    }
  }

  lemma VisitHasRoom(f: Program, w: Work, ws: set<Reg>)
    requires Fits(f, w) && Paid(f, w, ws) && Roomy(f, ws) && !w.suppressed && w.cursor < |w.queue|
    ensures !Visit(f, w).suppressed
  {
    var b := w.queue[w.cursor];
    TakePaid(f, w, ws);
    ExitUntouched(f, b, w.inputs[b], ws);
    RelaxFromHasRoom(f, Take(f, w), f.blocks[b].successors, 0, Exit(f, b, w.inputs[b]), ws);
  }

  lemma {:induction false} DrainHasRoom(f: Program, w: Work, ws: set<Reg>)
    requires Fits(f, w) && Paid(f, w, ws) && Roomy(f, ws) && !w.suppressed
    ensures !Drain(f, w).suppressed
    decreases f.slots - w.cursor
  {
    if w.cursor < |w.queue| {
      VisitPaid(f, w, ws);
      VisitHasRoom(f, w, ws);
      DrainHasRoom(f, Visit(f, w), ws);
    }
  }

  /** A queue with a slot a block, and one more a block for every register the function writes,
      never suppresses a push. */
  lemma RoomySuffices(f: Program, ws: set<Reg>)
    requires |f.blocks| > 0 && Roomy(f, ws)
    ensures !Drain(f, Start(f)).suppressed
  {
    assert f.slots > 0 by { assert |f.blocks| * (1 + |ws|) >= |f.blocks|; }
    StartPaid(f, ws);
    DrainHasRoom(f, Start(f), ws);
  }

  /** A queue of 33 slots a block never suppresses a push. */
  lemma SufficientSlots(f: Program)
    requires |f.blocks| > 0 && f.slots >= Sufficient(|f.blocks|)
    ensures !Drain(f, Start(f)).suppressed
  {
    RoomySuffices(f, AllRegisters());
  }

  /** The queue the analyser allocates never suppresses a push of a function that writes at most
      seven registers; a call counts as writing the fifteen it may change. */
  lemma AllocatedSuffices(f: Program, ws: set<Reg>)
    requires |f.blocks| > 0 && f.slots == Allocated(|f.blocks|) && Writes(f, ws) && |ws| <= 7
    ensures !Drain(f, Start(f)).suppressed
  {
    assert |f.blocks| * (1 + |ws|) <= |f.blocks| * 8;
    RoomySuffices(f, ws);
  }

  // ------------------------------------------------------------ exactly when a smaller queue suffices

  // What a run with c slots makes of a state, against what the run without suppression makes.
  ghost predicate Agrees(c: nat, capped: Work, whole: Work) {
    if capped.suppressed then |whole.queue| > c else capped == whole
  }

  lemma RelaxAgrees(f: Program, g: Program, w: Work, address: nat, out: State)
    requires g == f.(slots := g.slots) && Fits(f, w) && Fits(g, w) && !w.suppressed
    requires !Relax(f, w, address, out).suppressed
    ensures Agrees(g.slots, Relax(g, w, address, out), Relax(f, w, address, out))
  {
    SameIndex(f, g, address, 0);
  }

  lemma {:induction false} SameIndex(f: Program, g: Program, address: nat, k: nat)
    requires g == f.(slots := g.slots) && k <= |f.blocks|
    ensures BlockIndex(g, address, k) == BlockIndex(f, address, k)
    decreases |f.blocks| - k
  {
    if k < |f.blocks| { SameIndex(f, g, address, k + 1); }
  }

  // Queues only grow and suppression is never taken back.
  ghost predicate Later(w: Work, v: Work) {
    |w.queue| <= |v.queue| && (w.suppressed ==> v.suppressed)
  }

  lemma {:induction false} RelaxFromLater(f: Program, w: Work, successors: seq<nat>, k: nat, out: State)
    requires Fits(f, w) && k <= |successors|
    ensures Later(w, RelaxFrom(f, w, successors, k, out))
    decreases |successors| - k
  {
    if k < |successors| { RelaxFromLater(f, Relax(f, w, successors[k], out), successors, k + 1, out); }
  }

  lemma {:induction false} DrainLater(f: Program, w: Work)
    requires Fits(f, w)
    ensures Later(w, Drain(f, w))
    decreases f.slots - w.cursor
  {
    if w.cursor < |w.queue| {
      var b := w.queue[w.cursor];
      RelaxFromLater(f, Take(f, w), f.blocks[b].successors, 0, Exit(f, b, w.inputs[b]));
      DrainLater(f, Visit(f, w));
    }
  }

  lemma {:induction false} RelaxFromAgrees(f: Program, g: Program, w: Work, successors: seq<nat>, k: nat, out: State)
    requires g == f.(slots := g.slots) && Fits(f, w) && Fits(g, w) && !w.suppressed && k <= |successors|
    requires !RelaxFrom(f, w, successors, k, out).suppressed
    ensures Agrees(g.slots, RelaxFrom(g, w, successors, k, out), RelaxFrom(f, w, successors, k, out))
    decreases |successors| - k
  {
    if k < |successors| {
      var v, u := Relax(f, w, successors[k], out), Relax(g, w, successors[k], out);
      RelaxFromLater(f, v, successors, k + 1, out);
      RelaxFromLater(g, u, successors, k + 1, out);
      RelaxAgrees(f, g, w, successors[k], out);
      if !u.suppressed { RelaxFromAgrees(f, g, v, successors, k + 1, out); }
    }
  }

  lemma {:induction false} DrainAgrees(f: Program, g: Program, w: Work)
    requires g == f.(slots := g.slots) && Fits(f, w) && Fits(g, w) && !w.suppressed && !Drain(f, w).suppressed
    ensures Agrees(g.slots, Drain(g, w), Drain(f, w))
    decreases f.slots - w.cursor
  {
    if w.cursor < |w.queue| {
      var b := w.queue[w.cursor];
      var v, u := Visit(f, w), Visit(g, w);
      DrainLater(f, v);
      DrainLater(g, u);
      RelaxFromAgrees(f, g, Take(f, w), f.blocks[b].successors, 0, Exit(f, b, w.inputs[b]));
      if !u.suppressed { DrainAgrees(f, g, v); }
    }
  }

  /** A queue of any size loses a push exactly when the analysis needs more pushes than it has
      slots, and otherwise ends in the state the analysis is meant to reach. */
  lemma SuppressedExactly(f: Program, g: Program)
    requires |f.blocks| > 0 && f.slots >= Sufficient(|f.blocks|) && g == f.(slots := g.slots) && g.slots > 0
    ensures Drain(g, Start(g)).suppressed <==> |Drain(f, Start(f)).queue| > g.slots
    ensures !Drain(g, Start(g)).suppressed ==> Drain(g, Start(g)) == Drain(f, Start(f))
  {
    SufficientSlots(f);
    DrainAgrees(f, g, Start(f));
  }
}
