/** The queue the analyser allocates is smaller than the pushes a function may need: a two-block
    function whose loop forgets one register per round loses a push, and what is left is not a
    post-fixpoint. */
module Overflow {
  import opened Bytes
  import opened Wrappers
  import opened Semantics
  import opened Worklist
  import opened FixPoint

  const SEVEN := Constant(7)

  // lda 7, k: the one-word absolute form.
  function LoadSeven(k: Reg): Instruction {
    Instruction(Lda(Memory(None, None, 0, true, false, 7, 7), k), false, [])
  }

  function Move(src: Reg, dst: Reg): Instruction { Instruction(Mov(Register(src), dst), false, []) }

  // lda 7 into registers k to 30.
  function Loads(k: nat): (code: seq<Instruction>)
    requires 2 <= k <= 31
    ensures |code| == 31 - k
    decreases 31 - k
  {
    if k == 31 then [] else [LoadSeven(k)] + Loads(k + 1)
  }

  // mov each register from 30 down to k's lower neighbour, register 2 from register 0, and branch back.
  function Moves(k: nat): (code: seq<Instruction>)
    requires 2 <= k <= 30
  {
    if k == 2 then [Move(0, 2), Instruction(Other([]), false, [])] else [Move(k - 1, k)] + Moves(k - 1)
  }

  // The entry block's 29 instructions fill addresses 0 to 115; the loop block starts behind them.
  function Looping(image: seq<byte>): Program {
    Program(image, 0, [Block(0, Loads(2), [116]), Block(116, Moves(30), [116])], Allocated(2))
  }

  lemma LoopingIsLaidOut(image: seq<byte>)
    ensures var blocks := Looping(image).blocks;
            blocks[1].start == 4 * |blocks[0].code| && blocks[1].successors == [blocks[1].start]
  {
  }

  // Registers 2 to 30 hold 7 except that the first t of them are forgotten.
  function Level(t: nat): State {
    seq(REGISTERS, r requires 0 <= r < REGISTERS =>
      if r == SP || r == FP then Stack(0) else if 2 + t <= r <= 30 then SEVEN else Unknown)
  }

  function Loaded(k: nat, s: State): State {
    seq(REGISTERS, r requires 0 <= r < REGISTERS => if k <= r <= 30 then SEVEN else s[r])
  }

  function Shifted(k: nat, s: State): State {
    seq(REGISTERS, r requires 0 <= r < REGISTERS =>
      if 3 <= r <= k then s[r - 1] else if r == 2 then Unknown else s[r])
  }

  lemma {:induction false} LoadsExit(image: seq<byte>, k: nat, s: State)
    requires 2 <= k <= 31
    ensures TransferAll(image, Loads(k), s) == Loaded(k, s)
    decreases 31 - k
  {
    if k < 31 {
      var u: State := s[k := SEVEN];
      assert Loads(k)[0] == LoadSeven(k) && Loads(k)[1..] == Loads(k + 1);
      assert Transfer(image, LoadSeven(k), s) == u;
      LoadsExit(image, k + 1, u);
      assert Loaded(k + 1, u) == Loaded(k, s);
    } else {
      assert Loaded(k, s) == s;
    }
  }

  lemma BranchExit(image: seq<byte>, s: State)
    ensures TransferAll(image, [Instruction(Other([]), false, [])], s) == s
  {
    var code := [Instruction(Other([]), false, [])];
    assert code[1..] == [] && Forget(s, []) == s;
    assert Transfer(image, code[0], s) == s;
  }

  function Moved(k: nat, s: State): State
    requires 2 <= k <= 30
  {
    s[k := if k == 2 then s[0] else s[k - 1]]
  }

  lemma MovesStep(image: seq<byte>, k: nat, s: State)
    requires 2 < k <= 30
    ensures TransferAll(image, Moves(k), s) == TransferAll(image, Moves(k - 1), Moved(k, s))
  {
    var code := Moves(k);
    assert code[0] == Move(k - 1, k) && code[1..] == Moves(k - 1);
    assert Transfer(image, code[0], s) == Moved(k, s);
  }

  lemma MovesEnd(image: seq<byte>, s: State)
    ensures TransferAll(image, Moves(2), s) == Moved(2, s)
  {
    var code := Moves(2);
    assert code[0] == Move(0, 2) && code[1..] == [Instruction(Other([]), false, [])];
    assert Transfer(image, code[0], s) == Moved(2, s);
    BranchExit(image, Moved(2, s));
  }

  lemma {:induction false} MovesExit(image: seq<byte>, k: nat, s: State)
    requires 2 <= k <= 30 && s[0].Unknown?
    ensures TransferAll(image, Moves(k), s) == Shifted(k, s)
  {
    if k > 2 {
      MovesStep(image, k, s);
      MovesExit(image, k - 1, Moved(k, s));
      assert Shifted(k - 1, Moved(k, s)) == Shifted(k, s);
    } else {
      MovesEnd(image, s);
      assert Shifted(k, s) == Moved(2, s);
    }
  }

  lemma ExitLevels(image: seq<byte>, t: nat)
    ensures Exit(Looping(image), 0, EntryState()) == Level(0)
    ensures t <= 28 ==> Exit(Looping(image), 1, Level(t)) == Level(t + 1)
  {
    LoadsExit(image, 2, EntryState());
    LoadedLevel();
    if t <= 28 {
      MovesExit(image, 30, Level(t));
      ShiftedLevel(t);
    }
  }

  lemma LoadedLevel()
    ensures Loaded(2, EntryState()) == Level(0)
  {
  }

  lemma ShiftedLevel(t: nat)
    requires t <= 28
    ensures Shifted(30, Level(t)) == Level(t + 1)
  {
  }

  // After n visits, n from 1 to 16: the loop block's input has lost n - 1 registers.
  function Round(n: nat): Work
    requires 1 <= n <= 16
  {
    Work([EntryState(), Level(n - 1)], [true, true], [false, true], [0] + seq(n, i => 1), n, false)
  }

  lemma MergeLevels(t: nat)
    requires t <= 28
    ensures MergeChanges(Level(t), Level(t + 1)) && Merge(Level(t), Level(t + 1)) == Level(t + 1)
  {
    assert Level(t)[2 + t] != Level(t + 1)[2 + t];
  }

  // The entry block's visit reduces to relaxing its edge.
  lemma FirstVisit(image: seq<byte>)
    ensures Visit(Looping(image), Start(Looping(image))) == Round(1)
  {
    var f := Looping(image);
    ExitLevels(image, 0);
    Indexes(image);
    FirstTaken(f);
    VisitOne(f, Start(f), Opened(), 0, 116, Level(0));
    RelaxFirst(f, Opened());
  }

  function Opened(): Work { Work([EntryState(), EntryState()], [true, false], [false, false], [0], 1, false) }

  lemma RelaxOne(f: Program, v: Work, a: nat, out: State)
    requires Fits(f, v)
    ensures RelaxFrom(f, v, [a], 0, out) == Relax(f, v, a, out)
  {
    var u := Relax(f, v, a, out);
    assert RelaxFrom(f, v, [a], 0, out) == RelaxFrom(f, u, [a], 1, out);
  }

  lemma VisitOne(f: Program, w: Work, v: Work, b: nat, a: nat, out: State)
    requires Fits(f, w) && w.cursor < |w.queue| && b == w.queue[w.cursor] && v == Take(f, w)
    requires f.blocks[b].successors == [a] && Exit(f, b, w.inputs[b]) == out
    ensures Visit(f, w) == Relax(f, v, a, out)
  {
    RelaxOne(f, v, a, out);
  }

  lemma FirstTaken(f: Program)
    requires |f.blocks| == 2 && f.slots == 17
    ensures Fits(f, Opened()) && Take(f, Start(f)) == Opened()
  {
    assert Start(f).queued[0 := false] == [false, false];
  }

  lemma RelaxFirst(f: Program, v: Work)
    requires |f.blocks| == 2 && f.slots == 17 && BlockIndex(f, 116, 0) == 1 && Fits(f, v)
    requires v.inputs[0] == EntryState() && v.init == [true, false] && v.queued == [false, false]
    requires v.queue == [0] && v.cursor == 1 && !v.suppressed
    ensures Relax(f, v, 116, Level(0)) == Round(1)
  {
    var u := Relax(f, v, 116, Level(0));
    assert u.inputs == Round(1).inputs && u.init == Round(1).init && u.queued == Round(1).queued;
    assert u.queue == Round(1).queue;
  }

  lemma Indexes(image: seq<byte>)
    ensures BlockIndex(Looping(image), 116, 0) == 1
  {
    assert BlockIndex(Looping(image), 116, 0) == BlockIndex(Looping(image), 116, 1);
  }

  // The loop block's visit reduces to relaxing its own edge.
  function Taken(n: nat): Work
    requires 1 <= n <= 16
  {
    Work([EntryState(), Level(n - 1)], [true, true], [false, false], [0] + seq(n, i => 1), n + 1, false)
  }

  lemma RoundTaken(f: Program, n: nat)
    requires |f.blocks| == 2 && f.slots == 17 && 1 <= n <= 16
    ensures Fits(f, Round(n)) && Fits(f, Taken(n)) && Take(f, Round(n)) == Taken(n)
  {
    var w := Round(n);
    assert w.queue[w.cursor] == 1 && w.queued[1 := false] == [false, false];
  }

  lemma RelaxTaken(f: Program, n: nat)
    requires 1 <= n <= 16 && |f.blocks| == 2 && f.slots == 17 && BlockIndex(f, 116, 0) == 1 && Fits(f, Taken(n))
    ensures var u := Relax(f, Taken(n), 116, Level(n));
            if n < 16 then u == Round(n + 1)
            else u.suppressed && u.inputs[1] == Level(16) && u.init == [true, true] && u.cursor == |u.queue|
  {
    MergeLevels(n - 1);
    var u := Relax(f, Taken(n), 116, Level(n));
    assert u.inputs == [EntryState(), Level(n)];
    if n < 16 {
      assert u.queued == [false, true];
      assert u.queue == [0] + seq(n + 1, i => 1);
    }
  }

  lemma NextVisit(image: seq<byte>, n: nat)
    requires 1 <= n <= 16
    ensures Fits(Looping(image), Round(n))
    ensures var v := Visit(Looping(image), Round(n));
            if n < 16 then v == Round(n + 1)
            else v.suppressed && v.inputs[1] == Level(16) && v.init == [true, true] && v.cursor == |v.queue|
  {
    RoundTaken(Looping(image), n);
    ExitLevels(image, n - 1);
    VisitOne(Looping(image), Round(n), Taken(n), 1, 116, Level(n));
    Indexes(image);
    RelaxTaken(Looping(image), n);
  }

  lemma {:induction false} DrainRounds(image: seq<byte>, n: nat)
    requires 1 <= n <= 16
    ensures Fits(Looping(image), Round(n))
    ensures var v := Drain(Looping(image), Round(n));
            v.suppressed && v.inputs[1] == Level(16) && v.init == [true, true]
    decreases 16 - n
  {
    NextVisit(image, n);
    if n < 16 { DrainRounds(image, n + 1); }
  }

  lemma DrainLooping(image: seq<byte>)
    ensures var f := Looping(image); var v := Drain(f, Start(f));
            v.suppressed && v.inputs[1] == Level(16) && v.init == [true, true]
  {
    FirstVisit(image);
    DrainRounds(image, 1);
  }

  lemma LevelLost()
    ensures !Covers(Level(16), Level(17))
  {
    assert Level(16)[18] == SEVEN && Level(17)[18] == Unknown;
  }

  lemma NotPostFixpoint(f: Program, w: Work, out: State)
    requires Fits(f, w) && |f.blocks| == 2 && f.blocks[1].successors == [116] && BlockIndex(f, 116, 0) == 1
    requires w.init == [true, true] && out == Exit(f, 1, w.inputs[1]) && !Covers(w.inputs[1], out)
    ensures !PostFixpoint(f, w)
  {
    assert !EdgeOk(f, w, f.blocks[1].successors[0], out);
    assert !EdgesOk(f, w, 1);
  }

  /** The drained worklist of this function has dropped a push and is not a post-fixpoint. */
  lemma CapacityLosesAPush(image: seq<byte>)
    ensures var f := Looping(image); var w := Drain(f, Start(f));
            w.suppressed && !PostFixpoint(f, w)
  {
    DrainLooping(image);
    ExitLevels(image, 16);
    Indexes(image);
    LevelLost();
    NotPostFixpoint(Looping(image), Drain(Looping(image), Start(Looping(image))), Level(17));
  }

  /** With enough slots it would have pushed more than the 17 entries allocated. */
  lemma NeedsMorePushes(image: seq<byte>)
    ensures var f := Looping(image).(slots := Sufficient(2));
            |Drain(f, Start(f)).queue| > Allocated(2)
  {
    CapacityLosesAPush(image);
    SuppressedExactly(Looping(image).(slots := Sufficient(2)), Looping(image));
  }
}
