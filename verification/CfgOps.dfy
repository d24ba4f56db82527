/** Recovery of one function over its mark and leader arrays, as nested loops, proved to compute
    the discovery and block functions. */
module CfgOps {
  import opened Cfg
  import opened CfgDiscovery
  import opened CfgBlocks
  import opened Wrappers

  lemma DiscoverVisits(m: Image, s: Scan)
    requires ImageOk(m) && Shaped(m, s) && s.cursor < |s.queue|
    ensures Discover(m, s) == Discover(m, VisitOne(m, s)) && s.cursor < Words(m)
    ensures VisitOne(m, s).cursor == s.cursor + 1
  {
    QueueBound(m, s);
  }

  function Prefixed(taken: seq<nat>, b: Block): Block { b.(members := taken + b.members) }

  lemma PrefixedTwice(taken: seq<nat>, a: nat, rest: Block)
    ensures Prefixed(taken, rest.(members := [a] + rest.members)) == Prefixed(taken + [a], rest)
  {
    assert taken + ([a] + rest.members) == taken + [a] + rest.members;
  }

  class Recovery {
    const m: Image
    const reachable: array<nat>
    const leaders: array<bool>
    var queue: seq<nat>
    var cursor: nat
    var blocks: seq<Block>

    ghost predicate Valid()
      reads this, reachable, leaders
    {
      ImageOk(m) && Shaped(m, Now())
    }

    ghost function Now(): Scan
      reads this, reachable, leaders
    {
      Scan(reachable[..], leaders[..], queue, cursor)
    }

    constructor (m: Image)
      requires ImageOk(m)
      ensures this.m == m && Valid() && fresh(reachable) && fresh(leaders)
      ensures Now() == Scan(seq(Words(m), i => 0), seq(Words(m), i => false), [], 0) && blocks == []
    {
      this.m := m;
      reachable := new nat[Words(m)](i => 0);
      leaders := new bool[Words(m)](i => false);
      queue, cursor, blocks := [], 0, [];
    }

    // queue_push_unique
    method QueuePushUnique(a: nat)
      modifies this`queue
      ensures queue == PushUnique(old(queue), a)
    {
      for k := 0 to |queue|
        invariant queue == old(queue) && a !in queue[..k]
      {
        if queue[k] == a { return; }
      }
      queue := queue + [a];
    }

    method LeadAt(a: nat)
      requires Valid()
      modifies this`queue, leaders
      ensures Valid() && Now() == Lead(m, old(Now()), a)
    {
      if a % 4 == 0 && a + 4 <= m.size {
        leaders[a / 4] := true;
        QueuePushUnique(a);
      }
    }

    method MarkAt(w: nat, wide: bool)
      requires Valid() && w < Words(m) && m.decode[w].Some? && wide == m.decode[w].value.wide
      modifies reachable
      ensures Valid() && Now() == Mark(m, old(Now()), w, m.decode[w].value)
    {
      reachable[w] := 1;
      if wide && w + 1 < reachable.Length { reachable[w + 1] := 2; }
    }

    // The inner loop: follow straight-line code from one queued address.
    method FollowPath(start: nat)
      requires Valid()
      modifies this`queue, reachable, leaders
      ensures Valid() && Now() == Walk(m, old(Now()), start)
    {
      var a := start;
      while a % 4 == 0 && a + 4 <= m.size && reachable[a / 4] == 0
        invariant Valid() && Walk(m, Now(), a) == Walk(m, old(Now()), start)
        decreases m.size - a
      {
        ghost var s := Now();
        if m.decode[a / 4].None? {
          reachable[a / 4] := 3;
          assert Now() == Walk(m, s, a);
          return;
        }
        var i := m.decode[a / 4].value;
        MarkAt(a / 4, i.wide);
        if i.flow.Branch? {
          if i.hasTarget { LeadAt(i.target); }
          if i.fallsThrough { LeadAt(a + Size(i)); }
          assert Now() == Walk(m, s, a);
          return;
        }
        if i.flow.Return? || i.flow.Fault? || !i.fallsThrough {
          assert Now() == Walk(m, s, a);
          return;
        }
        a := a + Size(i);
      }
    }

    // discover_reachable_instructions, on the arrays as allocated.
    method DiscoverReachable(entry: nat)
      requires Valid() && ValidCode(m, entry)
      requires Now() == Scan(seq(Words(m), i => 0), seq(Words(m), i => false), [], 0)
      modifies this, reachable, leaders
      ensures Valid() && Now() == Found(m, entry) && blocks == old(blocks)
    {
      leaders[entry / 4] := true;
      QueuePushUnique(entry);
      assert Now() == Begin(m, entry);
      DrainQueue();
    }

    // The outer loop: one queued address after another.
    method DrainQueue()
      requires Valid()
      modifies this`queue, this`cursor, reachable, leaders
      ensures Valid() && Now() == Discover(m, old(Now()))
    {
      ghost var whole := Discover(m, Now());
      while cursor < |queue|
        invariant Valid() && Discover(m, Now()) == whole
        decreases Words(m) - cursor
      {
        DiscoverVisits(m, Now());
        VisitNext();
      }
    }

    method VisitNext()
      requires Valid() && cursor < |queue|
      modifies this`queue, this`cursor, reachable, leaders
      ensures Valid() && Now() == VisitOne(m, old(Now()))
    {
      var a := queue[cursor];
      cursor := cursor + 1;
      FollowPath(a);
    }

    method IsReachable(a: nat) returns (r: bool)
      requires Valid()
      ensures r == IsInstruction(m, Now(), a)
    {
      r := a / 4 < reachable.Length && reachable[a / 4] == 1;
    }

    method AddressIsLeader(a: nat) returns (r: bool)
      requires Valid()
      ensures r == IsLeader(m, Now(), a)
    {
      r := a / 4 < leaders.Length && leaders[a / 4];
    }

    method IfReachable(a: nat) returns (r: seq<nat>)
      requires Valid()
      ensures r == Recorded(m, Now(), a)
    {
      r := [];
      var code := IsReachable(a);
      if code { r := [a]; }
    }

    // The end of a block at the instruction i, where it does not run on.
    method CloseBlock(start: nat, a: nat, i: Instr) returns (b: Block)
      requires Valid() && IsInstruction(m, Now(), a) && m.decode[a / 4] == Some(i) && !GoesOn(m, Now(), a)
      ensures b == BlockFrom(m, Now(), start, a)
    {
      var next := a + Size(i);
      b := Block(start, next, [], [a]);
      if i.flow.Branch? {
        var taken, fallen := [], [];
        if i.hasTarget { taken := IfReachable(i.target); }
        if i.fallsThrough { fallen := IfReachable(next); }
        b := b.(successors := taken + fallen);
      } else if i.flow.Return? || i.flow.Fault? || !i.fallsThrough {
      } else {
        var onward := IfReachable(next);
        b := b.(successors := onward);
      }
    }

    // The inner loop of build_function_blocks: extend one block until it ends.
    method ScanBlock(start: nat) returns (b: Block)
      requires Valid()
      ensures b == BlockFrom(m, Now(), start, start)
    {
      ghost var whole := BlockFrom(m, Now(), start, start);
      var a: nat, taken: seq<nat> := start, [];
      var going := true;
      b := Block(start, start, [], []);
      while going
        invariant going ==> whole == Prefixed(taken, BlockFrom(m, Now(), start, a))
        invariant !going ==> b == whole
        decreases going, m.size + 4 - a
      {
        var code := IsReachable(a);
        if !code || m.decode[a / 4].None? {
          b, going := Block(start, a, [], taken), false;
        } else {
          var i := m.decode[a / 4].value;
          var next := a + Size(i);
          var leads := AddressIsLeader(next);
          if i.flow.Branch? || i.flow.Return? || i.flow.Fault? || !i.fallsThrough || leads {
            b := CloseBlock(start, a, i);
            b, going := Prefixed(taken, b), false;
          } else {
            BlockGoesOn(m, Now(), start, a);
            PrefixedTwice(taken, a, BlockFrom(m, Now(), start, next));
            a, taken := next, taken + [a];
          }
        }
      }
    }

    // build_function_blocks
    method BuildBlocks()
      requires Valid()
      modifies this`blocks
      ensures blocks == old(blocks) + BlocksFrom(m, Now(), 0)
    {
      for w := 0 to reachable.Length
        invariant blocks + BlocksFrom(m, Now(), w) == old(blocks) + BlocksFrom(m, Now(), 0)
      {
        ghost var before := blocks;
        if leaders[w] && reachable[w] == 1 {
          var b := ScanBlock(4 * w);
          blocks := blocks + [b];
          assert before + ([b] + BlocksFrom(m, Now(), w + 1)) == blocks + BlocksFrom(m, Now(), w + 1);
        }
      }
    }
  }

  /** One function recovered from its entry: the blocks built over the arrays are the function's
      blocks. */
  method RecoverFunction(m: Image, entry: nat) returns (blocks: seq<Block>)
    requires ImageOk(m) && ValidCode(m, entry)
    ensures blocks == Blocks(m, entry)
  {
    var r := new Recovery(m);
    r.DiscoverReachable(entry);
    r.BuildBlocks();
    blocks := r.blocks;
  }
}
