/** The analyser's loops over its state arrays and its queue, proved to compute the worklist
    function. */
module SemanticsOps {
  import opened Bytes
  import opened Semantics
  import opened Worklist

  // merge_state: register by register, a disagreement becomes Unknown.
  method MergeState(d: State, s: State) returns (m: State, changed: bool)
    ensures m == Merge(d, s) && changed == MergeChanges(d, s)
  {
    m, changed := d, false;
    for r := 0 to REGISTERS
      invariant forall k :: 0 <= k < REGISTERS ==> m[k] == if k < r then Merge(d, s)[k] else d[k]
      invariant changed <==> exists k :: 0 <= k < r && d[k] != s[k] && !d[k].Unknown?
    {
      if m[r] != s[r] && !m[r].Unknown? {
        m, changed := m[r := Unknown], true;
      }
    }
  }

  method FunctionBlockIndex(f: Program, address: nat) returns (k: nat)
    ensures k == BlockIndex(f, address, 0)
  {
    k := 0;
    while k < |f.blocks| && f.blocks[k].start != address
      invariant k <= |f.blocks| && BlockIndex(f, address, k) == BlockIndex(f, address, 0)
    {
      k := k + 1;
    }
  }

  method RunBlock(f: Program, b: nat, s: State) returns (t: State)
    requires b < |f.blocks|
    ensures t == Exit(f, b, s)
  {
    t := s;
    var code := f.blocks[b].code;
    for k := 0 to |code|
      invariant TransferAll(f.image, code[k..], t) == Exit(f, b, s)
    {
      t := Transfer(f.image, code[k], t);
      assert code[k..][1..] == code[k + 1..];
    }
  }

  class Analysis {
    const f: Program
    const inputs: array<State>
    const init: array<bool>
    const queued: array<bool>
    const queue: array<nat>
    var count: nat
    var cursor: nat
    ghost var suppressed: bool

    ghost predicate Valid()
      reads this, inputs, init, queued, queue
    {
      && queue.Length == f.slots && count <= queue.Length
      && init != queued
      && Fits(f, Now())
    }

    ghost function Now(): Work
      requires count <= queue.Length
      reads this, inputs, init, queued, queue
    {
      Work(inputs[..], init[..], queued[..], queue[..count], cursor, suppressed)
    }

    constructor (image: seq<byte>, entry: nat, blocks: seq<Block>)
      requires |blocks| > 0
      ensures f == Program(image, entry, blocks, Allocated(|blocks|)) && Valid() && Now() == Start(f)
      ensures fresh(inputs) && fresh(init) && fresh(queued) && fresh(queue)
    {
      f := Program(image, entry, blocks, 8 * |blocks| + 1);
      inputs := new State[|blocks|](i => EntryState());
      init := new bool[|blocks|](i => i == 0);
      queued := new bool[|blocks|](i => i == 0);
      queue := new nat[8 * |blocks| + 1](i => 0);
      count, cursor, suppressed := 1, 0, false;
      new;
      assert queue[..count] == [0];
    }

    method RelaxSuccessor(address: nat, out: State)
      requires Valid()
      modifies this, inputs, init, queued, queue
      ensures Valid() && Now() == Relax(f, old(Now()), address, out)
    {
      var next := FunctionBlockIndex(f, address);
      if next == |f.blocks| { return; }
      ghost var w := Now();
      var changed := true;
      if !init[next] {
        inputs[next], init[next] := out, true;
      } else {
        inputs[next], changed := MergeState(inputs[next], out);
        assert init[..] == w.init[next := true];
      }
      if changed && !queued[next] {
        if count < queue.Length {
          queue[count] := next;
          count, queued[next] := count + 1, true;
          assert queue[..count] == w.queue + [next];
        } else {
          suppressed := true;
        }
      }
    }

    method VisitBlock()
      requires Valid() && cursor < count
      modifies this, inputs, init, queued, queue
      ensures Valid() && Now() == Visit(f, old(Now()))
    {
      ghost var w := Now();
      var b := queue[cursor];
      assert b == w.queue[w.cursor];
      cursor := cursor + 1;
      queued[b] := false;
      var out := RunBlock(f, b, inputs[b]);
      var successors := f.blocks[b].successors;
      ghost var start := Now();
      for k := 0 to |successors|
        invariant Valid()
        invariant RelaxFrom(f, Now(), successors, k, out) == RelaxFrom(f, start, successors, 0, out)
      {
        RelaxSuccessor(successors[k], out);
      }
    }

    method Run()
      requires Valid()
      modifies this, inputs, init, queued, queue
      ensures Valid() && Now() == Drain(f, old(Now()))
    {
      while cursor < count
        invariant Valid() && Drain(f, Now()) == Drain(f, old(Now()))
        decreases f.slots - cursor
      {
        VisitBlock();
      }
    }
  }
}
