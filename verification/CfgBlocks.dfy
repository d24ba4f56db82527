/** The basic blocks partition the reachable instructions, and every direct step stays in its
    block, enters a recorded successor, or leaves decoded code. */
module CfgBlocks {
  import opened Cfg
  import opened CfgTheory
  import opened CfgDiscovery
  import opened Wrappers

  // What block building needs of a finished scan.
  ghost predicate Ready(m: Image, s: Scan, entry: nat)
    requires ImageOk(m)
  {
    Shaped(m, s) && MarksOk(m, s, entry) && Linked(m, s) && EdgesClosed(m, s, NOWHERE, {})
  }

  // The block runs on past the instruction at a.
  predicate GoesOn(m: Image, s: Scan, a: nat)
    requires ImageOk(m) && Shaped(m, s)
  {
    && IsInstruction(m, s, a) && m.decode[a / 4].Some? && Linear(m.decode[a / 4].value)
    && !IsLeader(m, s, a + Size(m.decode[a / 4].value))
  }

  lemma BlockGoesOn(m: Image, s: Scan, start: nat, a: nat)
    requires ImageOk(m) && Shaped(m, s) && GoesOn(m, s, a)
    ensures var rest := BlockFrom(m, s, start, a + Size(m.decode[a / 4].value));
            BlockFrom(m, s, start, a) == rest.(members := [a] + rest.members)
  {
  }

  lemma BlockEnds(m: Image, s: Scan, start: nat, a: nat)
    requires ImageOk(m) && Shaped(m, s) && !GoesOn(m, s, a)
    ensures forall b: nat :: b in BlockFrom(m, s, start, a).members ==> b == a
    ensures BlockFrom(m, s, start, a).members != [] ==> IsInstruction(m, s, a) && m.decode[a / 4].Some?
  {
  }

  lemma BlockBegins(m: Image, s: Scan, start: nat, a: nat)
    requires ImageOk(m) && Shaped(m, s) && IsInstruction(m, s, a) && m.decode[a / 4].Some?
    ensures a in BlockFrom(m, s, start, a).members
  {
    if GoesOn(m, s, a) { BlockGoesOn(m, s, start, a); }
  }

  // A member other than the first belongs to the rest of the block.
  lemma MemberLater(m: Image, s: Scan, start: nat, a: nat, b: nat) returns (next: nat)
    requires ImageOk(m) && Shaped(m, s) && a % 4 == 0 && b in BlockFrom(m, s, start, a).members && b != a
    ensures GoesOn(m, s, a) && next == a + Size(m.decode[a / 4].value) && b in BlockFrom(m, s, start, next).members
  {
    if GoesOn(m, s, a) { BlockGoesOn(m, s, start, a); } else { BlockEnds(m, s, start, a); }
    next := a + Size(m.decode[a / 4].value);
  }

  lemma RunsOnward(m: Image, s: Scan, a: nat)
    requires ImageOk(m) && Shaped(m, s) && a % 4 == 0 && GoesOn(m, s, a)
    ensures var next := a + Size(m.decode[a / 4].value);
            RunsFrom(m, s, a, next) && !IsLeader(m, s, next) && next % 4 == 0 && a < next
  {
  }

  lemma {:induction false} MemberMarked(m: Image, s: Scan, start: nat, a: nat, b: nat)
    requires ImageOk(m) && Shaped(m, s) && a % 4 == 0 && b in BlockFrom(m, s, start, a).members
    ensures IsInstruction(m, s, b) && b % 4 == 0 && a <= b && m.decode[b / 4].Some?
    decreases m.size + 4 - a
  {
    if b != a {
      var next := MemberLater(m, s, start, a, b);
      RunsOnward(m, s, a);
      MemberMarked(m, s, start, next, b);
    } else if !GoesOn(m, s, a) {
      BlockEnds(m, s, start, a);
    }
  }

  lemma RestBelongs(m: Image, s: Scan, start: nat, a: nat)
    requires ImageOk(m) && Shaped(m, s) && GoesOn(m, s, a)
    ensures var rest, whole := BlockFrom(m, s, start, a + Size(m.decode[a / 4].value)), BlockFrom(m, s, start, a);
            (forall b: nat :: b in rest.members ==> b in whole.members) && rest.successors == whole.successors
  {
    BlockGoesOn(m, s, start, a);
  }

  lemma RunsGoesOn(m: Image, s: Scan, p: nat, b: nat)
    requires ImageOk(m) && Shaped(m, s) && RunsFrom(m, s, p, b) && !IsLeader(m, s, b)
    ensures GoesOn(m, s, p)
  {
  }

  lemma FollowsFirst(m: Image, s: Scan, start: nat, a: nat, b: nat)
    requires ImageOk(m) && Shaped(m, s) && RunsFrom(m, s, a, b)
    requires !IsLeader(m, s, b) && IsInstruction(m, s, b) && m.decode[b / 4].Some?
    ensures b in BlockFrom(m, s, start, a).members
  {
    RunsGoesOn(m, s, a, b);
    BlockBegins(m, s, start, b);
    RestBelongs(m, s, start, a);
  }

  // Lists of members from every address, each going on as the blocks do.
  ghost predicate Chained(m: Image, s: Scan, ms: nat -> seq<nat>)
    requires ImageOk(m) && Shaped(m, s)
  {
    && (forall a: nat :: GoesOn(m, s, a) ==> ms(a) == [a] + ms(a + Size(m.decode[a / 4].value)))
    && (forall a: nat :: !GoesOn(m, s, a) ==> ms(a) == [] || ms(a) == [a])
  }

  lemma {:induction false} ChainCarries(m: Image, s: Scan, ms: nat -> seq<nat>, a: nat, p: nat, b: nat)
    requires ImageOk(m) && Shaped(m, s) && Chained(m, s, ms) && p in ms(a) && b in ms(p)
    ensures b in ms(a)
    decreases m.size + 4 - a
  {
    if p != a {
      assert GoesOn(m, s, a);
      ChainCarries(m, s, ms, a + Size(m.decode[a / 4].value), p, b);
    }
  }

  lemma {:induction false} ChainAbove(m: Image, s: Scan, ms: nat -> seq<nat>, a: nat, b: nat)
    requires ImageOk(m) && Shaped(m, s) && Chained(m, s, ms) && b in ms(a)
    ensures a <= b
    decreases m.size + 4 - a
  {
    if GoesOn(m, s, a) && b != a { ChainAbove(m, s, ms, a + Size(m.decode[a / 4].value), b); }
  }

  // A list with more than one member goes on.
  lemma ChainGoesOn(m: Image, s: Scan, ms: nat -> seq<nat>, a: nat, j: nat)
    requires ImageOk(m) && Shaped(m, s) && Chained(m, s, ms) && 0 < j < |ms(a)|
    ensures GoesOn(m, s, a)
    ensures var rest := ms(a + Size(m.decode[a / 4].value)); ms(a) == [a] + rest && rest[j - 1] == ms(a)[j]
  {
  }

  ghost predicate SameEnd(m: Image, s: Scan, ends: nat -> seq<nat>)
    requires ImageOk(m) && Shaped(m, s)
  {
    forall a: nat :: GoesOn(m, s, a) ==> ends(a) == ends(a + Size(m.decode[a / 4].value))
  }

  // From a member on, the list is that member's own.
  lemma {:induction false} ChainTail(m: Image, s: Scan, ms: nat -> seq<nat>, ends: nat -> seq<nat>, a: nat, j: nat)
    requires ImageOk(m) && Shaped(m, s) && Chained(m, s, ms) && SameEnd(m, s, ends) && j < |ms(a)|
    ensures ms(ms(a)[j]) == ms(a)[j..] && ends(ms(a)[j]) == ends(a)
    decreases j
  {
    if j == 0 {
      assert ms(a)[0] == a by { if GoesOn(m, s, a) {} }
    } else {
      ChainGoesOn(m, s, ms, a, j);
      ChainTail(m, s, ms, ends, a + Size(m.decode[a / 4].value), j - 1);
    }
  }

  lemma ChainRises(m: Image, s: Scan, ms: nat -> seq<nat>, a: nat, j: nat)
    requires ImageOk(m) && Shaped(m, s) && Chained(m, s, ms) && 0 < j < |ms(a)|
    ensures a < ms(a)[j]
  {
    ChainGoesOn(m, s, ms, a, j);
    ChainAbove(m, s, ms, a + Size(m.decode[a / 4].value), ms(a)[j]);
  }

  lemma EndsAlone(m: Image, s: Scan, start: nat, a: nat)
    requires ImageOk(m) && Shaped(m, s) && !GoesOn(m, s, a)
    ensures var ms := BlockFrom(m, s, start, a).members; ms == [] || ms == [a]
  {
  }

  function MembersFrom(m: Image, s: Scan, start: nat, a: nat): seq<nat> {
    if ImageOk(m) && Shaped(m, s) then BlockFrom(m, s, start, a).members else []
  }

  lemma BlocksChain(m: Image, s: Scan, start: nat)
    requires ImageOk(m) && Shaped(m, s)
    ensures Chained(m, s, a => MembersFrom(m, s, start, a))
  {
    forall a: nat | GoesOn(m, s, a)
      ensures MembersFrom(m, s, start, a) == [a] + MembersFrom(m, s, start, a + Size(m.decode[a / 4].value))
    {
      BlockGoesOn(m, s, start, a);
    }
    forall a: nat | !GoesOn(m, s, a) ensures MembersFrom(m, s, start, a) == [] || MembersFrom(m, s, start, a) == [a] {
      EndsAlone(m, s, start, a);
    }
  }

  // Once in the block at p, in every block that p belongs to.
  lemma MemberCarries(m: Image, s: Scan, start: nat, a: nat, p: nat, b: nat)
    requires ImageOk(m) && Shaped(m, s) && p in BlockFrom(m, s, start, a).members
    requires b in BlockFrom(m, s, start, p).members
    ensures b in BlockFrom(m, s, start, a).members
  {
    BlocksChain(m, s, start);
    ChainCarries(m, s, x => MembersFrom(m, s, start, x), a, p, b);
  }

  function EndsFrom(m: Image, s: Scan, start: nat, a: nat): seq<nat> {
    if ImageOk(m) && Shaped(m, s) then BlockFrom(m, s, start, a).successors else []
  }

  lemma BlocksEnd(m: Image, s: Scan, start: nat)
    requires ImageOk(m) && Shaped(m, s)
    ensures SameEnd(m, s, a => EndsFrom(m, s, start, a))
  {
    forall a: nat | GoesOn(m, s, a)
      ensures EndsFrom(m, s, start, a) == EndsFrom(m, s, start, a + Size(m.decode[a / 4].value))
    {
      BlockGoesOn(m, s, start, a);
    }
  }

  // From its j-th instruction on a block is the block from there.
  lemma BlockTail(m: Image, s: Scan, start: nat, a: nat, j: nat)
    requires ImageOk(m) && Shaped(m, s) && j < |BlockFrom(m, s, start, a).members|
    ensures var whole := BlockFrom(m, s, start, a);
            var rest := BlockFrom(m, s, start, whole.members[j]);
            rest.members == whole.members[j..] && rest.successors == whole.successors
  {
    BlocksChain(m, s, start);
    BlocksEnd(m, s, start);
    ChainTail(m, s, x => MembersFrom(m, s, start, x), x => EndsFrom(m, s, start, x), a, j);
  }

  lemma FirstLeast(m: Image, s: Scan, start: nat, a: nat, j: nat)
    requires ImageOk(m) && Shaped(m, s) && 0 < j < |BlockFrom(m, s, start, a).members|
    ensures a < BlockFrom(m, s, start, a).members[j]
  {
    BlocksChain(m, s, start);
    ChainRises(m, s, x => MembersFrom(m, s, start, x), a, j);
  }

  // A block's instructions lie in ascending order.
  lemma MembersAscend(m: Image, s: Scan, start: nat, a: nat, i: nat, j: nat)
    requires ImageOk(m) && Shaped(m, s) && i < j < |BlockFrom(m, s, start, a).members|
    ensures BlockFrom(m, s, start, a).members[i] < BlockFrom(m, s, start, a).members[j]
  {
    var whole := BlockFrom(m, s, start, a).members;
    BlockTail(m, s, start, a, i);
    assert whole[i..][j - i] == whole[j];
    FirstLeast(m, s, start, whole[i], j - i);
  }

  // A block goes on through an instruction that is run into and is no leader.
  lemma MemberAfter(m: Image, s: Scan, start: nat, a: nat, p: nat, b: nat)
    requires ImageOk(m) && Shaped(m, s) && a % 4 == 0 && p in BlockFrom(m, s, start, a).members
    requires RunsFrom(m, s, p, b) && !IsLeader(m, s, b) && IsInstruction(m, s, b) && m.decode[b / 4].Some?
    ensures b in BlockFrom(m, s, start, a).members
  {
    FollowsFirst(m, s, start, p, b);
    MemberCarries(m, s, start, a, p, b);
  }

  // A member other than the first is run into by a member and is no leader.
  lemma {:induction false} MemberBefore(m: Image, s: Scan, start: nat, a: nat, b: nat) returns (p: nat)
    requires ImageOk(m) && Shaped(m, s) && a % 4 == 0 && b in BlockFrom(m, s, start, a).members && b != a
    ensures p in BlockFrom(m, s, start, a).members && RunsFrom(m, s, p, b) && !IsLeader(m, s, b) && p < b
    decreases m.size + 4 - a
  {
    var next := MemberLater(m, s, start, a, b);
    RunsOnward(m, s, a);
    if b == next {
      p := a;
      BlockBegins(m, s, start, a);
    } else {
      p := MemberBefore(m, s, start, next, b);
      RestBelongs(m, s, start, a);
    }
  }

  // ------------------------------------------------------------ every instruction has a block

  ghost predicate Holder(m: Image, s: Scan, l: nat, b: nat)
    requires ImageOk(m) && Shaped(m, s)
  {
    l % 4 == 0 && IsLeader(m, s, l) && IsInstruction(m, s, l) && b in BlockFrom(m, s, l, l).members
  }

  lemma MarkedDecodes(m: Image, s: Scan, entry: nat, b: nat)
    requires ImageOk(m) && Ready(m, s, entry) && b % 4 == 0 && IsInstruction(m, s, b)
    ensures m.decode[b / 4].Some? && ValidCode(m, b)
  {
    assert 4 * (b / 4) == b;
  }

  lemma {:induction false} HolderExists(m: Image, s: Scan, entry: nat, b: nat) returns (l: nat)
    requires ImageOk(m) && Ready(m, s, entry) && b % 4 == 0 && IsInstruction(m, s, b)
    ensures Holder(m, s, l, b)
    decreases b
  {
    MarkedDecodes(m, s, entry, b);
    if IsLeader(m, s, b) {
      l := b;
      assert BlockFrom(m, s, b, b).members[0] == b;
    } else {
      var p := RunBefore(m, s, b);
      l := HolderExists(m, s, entry, p);
      MemberAfter(m, s, l, l, p, b);
    }
  }

  lemma RunBefore(m: Image, s: Scan, b: nat) returns (p: nat)
    requires ImageOk(m) && Shaped(m, s) && Linked(m, s) && b % 4 == 0 && IsInstruction(m, s, b) && !IsLeader(m, s, b)
    ensures RunsFrom(m, s, p, b) && p < b
  {
    assert 4 * (b / 4) == b && First(m, s, b / 4);
    p :| RunsFrom(m, s, p, b);
  }

  // ------------------------------------------------------------ and only one

  lemma OneBefore(m: Image, s: Scan, entry: nat, p: nat, q: nat, b: nat)
    requires ImageOk(m) && Ready(m, s, entry) && RunsFrom(m, s, p, b) && RunsFrom(m, s, q, b)
    ensures p == q
  {
    if p < q {
      NotInside(m, s, entry, p, q);
    } else if q < p {
      NotInside(m, s, entry, q, p);
    }
  }

  // The second word of a marked instruction is not itself an instruction.
  lemma NotInside(m: Image, s: Scan, entry: nat, p: nat, q: nat)
    requires ImageOk(m) && Ready(m, s, entry) && p % 4 == 0 && IsInstruction(m, s, p) && m.decode[p / 4].Some?
    ensures q == p + 4 && IsInstruction(m, s, q) ==> !m.decode[p / 4].value.wide
  {
    if q == p + 4 && IsInstruction(m, s, q) {
      assert q / 4 == p / 4 + 1;
      assert !Second(m, s, p / 4 + 1);
      assert !Wide(m, s, p / 4);
    }
  }

  lemma {:induction false} HolderUnique(m: Image, s: Scan, entry: nat, l1: nat, l2: nat, b: nat)
    requires ImageOk(m) && Ready(m, s, entry) && Holder(m, s, l1, b) && Holder(m, s, l2, b)
    ensures l1 == l2
    decreases b
  {
    if b != l1 && b != l2 {
      var p := MemberBefore(m, s, l1, l1, b);
      var q := MemberBefore(m, s, l2, l2, b);
      OneBefore(m, s, entry, p, q, b);
      HolderUnique(m, s, entry, l1, l2, p);
    } else if b != l1 {
      var p := MemberBefore(m, s, l1, l1, b);
    } else if b != l2 {
      var q := MemberBefore(m, s, l2, l2, b);
    }
  }

  // ------------------------------------------------------------ the list of blocks

  lemma {:induction false} BlockStarts(m: Image, s: Scan, w: nat, k: nat)
    requires ImageOk(m) && Shaped(m, s) && w <= Words(m) && k < |BlocksFrom(m, s, w)|
    ensures var b := BlocksFrom(m, s, w)[k];
            && b.start % 4 == 0 && b.start >= 4 * w && IsLeader(m, s, b.start) && IsInstruction(m, s, b.start)
            && b == BlockFrom(m, s, b.start, b.start)
    decreases Words(m) - w
  {
    BlockKeepsStart(m, s, 4 * w, 4 * w);
    if s.leaders[w] && s.marks[w] == 1 {
      if k > 0 { BlockStarts(m, s, w + 1, k - 1); }
    } else {
      BlockStarts(m, s, w + 1, k);
    }
  }

  lemma {:induction false} BlockKeepsStart(m: Image, s: Scan, start: nat, a: nat)
    requires ImageOk(m) && Shaped(m, s)
    ensures BlockFrom(m, s, start, a).start == start
    decreases m.size + 4 - a
  {
    if IsInstruction(m, s, a) && m.decode[a / 4].Some? {
      BlockKeepsStart(m, s, start, a + Size(m.decode[a / 4].value));
    }
  }

  lemma {:induction false} BlocksAscend(m: Image, s: Scan, w: nat, j: nat, k: nat)
    requires ImageOk(m) && Shaped(m, s) && w <= Words(m) && j < k < |BlocksFrom(m, s, w)|
    ensures BlocksFrom(m, s, w)[j].start < BlocksFrom(m, s, w)[k].start
    decreases Words(m) - w
  {
    if s.leaders[w] && s.marks[w] == 1 {
      if j > 0 {
        BlocksAscend(m, s, w + 1, j - 1, k - 1);
      } else {
        BlockKeepsStart(m, s, 4 * w, 4 * w);
        BlockStarts(m, s, w + 1, k - 1);
      }
    } else {
      BlocksAscend(m, s, w + 1, j, k);
    }
  }

  lemma {:induction false} LeaderHasBlock(m: Image, s: Scan, w: nat, l: nat) returns (k: nat)
    requires ImageOk(m) && Shaped(m, s) && w <= Words(m) && l % 4 == 0 && 4 * w <= l
    requires IsLeader(m, s, l) && IsInstruction(m, s, l)
    ensures k < |BlocksFrom(m, s, w)| && BlocksFrom(m, s, w)[k].start == l
    decreases Words(m) - w
  {
    BlockKeepsStart(m, s, 4 * w, 4 * w);
    if l == 4 * w {
      k := 0;
    } else {
      k := LeaderHasBlock(m, s, w + 1, l);
      if s.leaders[w] && s.marks[w] == 1 { k := k + 1; }
    }
  }

  function Blocks(m: Image, entry: nat): seq<Block>
    requires ImageOk(m) && ValidCode(m, entry)
  {
    BlocksFrom(m, Found(m, entry), 0)
  }

  lemma FoundReady(m: Image, entry: nat)
    requires ImageOk(m) && ValidCode(m, entry) && NoOverlap(m, entry)
    ensures Ready(m, Found(m, entry), entry)
  {
    FoundSound(m, entry);
  }

  /** Every reachable instruction lies in exactly one block of the function. */
  lemma InExactlyOneBlock(m: Image, entry: nat, b: nat) returns (k: nat)
    requires ImageOk(m) && ValidCode(m, entry) && NoOverlap(m, entry)
    requires ValidCode(m, b) && Reach(m, entry, b) && m.decode[b / 4].Some?
    ensures k < |Blocks(m, entry)| && b in Blocks(m, entry)[k].members
    ensures forall j :: 0 <= j < |Blocks(m, entry)| && b in Blocks(m, entry)[j].members ==> j == k
  {
    var s, bs := Found(m, entry), Blocks(m, entry);
    FoundReady(m, entry);
    MarksAreReachable(m, entry, b);
    var l := HolderExists(m, s, entry, b);
    k := LeaderHasBlock(m, s, 0, l);
    BlockStarts(m, s, 0, k);
    forall j: nat | j < |bs| && b in bs[j].members ensures j == k {
      BlockStarts(m, s, 0, j);
      HolderUnique(m, s, entry, bs[j].start, l, b);
      if j < k { BlocksAscend(m, s, 0, j, k); }
      if k < j { BlocksAscend(m, s, 0, k, j); }
    }
  }

  // ------------------------------------------------------------ successors

  lemma LastSuccessor(m: Image, s: Scan, start: nat, a: nat, t: nat)
    requires ImageOk(m) && Shaped(m, s) && !GoesOn(m, s, a) && t in BlockFrom(m, s, start, a).successors
    ensures IsInstruction(m, s, a) && m.decode[a / 4].Some? && IsInstruction(m, s, t)
    ensures IsLeader(m, s, t) || (m.decode[a / 4].value.flow.Branch? && Direct(m.decode[a / 4].value, a, t))
  {
  }

  lemma BranchTargetLed(m: Image, s: Scan, a: nat, t: nat)
    requires ImageOk(m) && Shaped(m, s) && EdgesClosed(m, s, NOWHERE, {}) && a % 4 == 0 && ValidCode(m, t)
    requires IsInstruction(m, s, a) && m.decode[a / 4].Some? && m.decode[a / 4].value.flow.Branch?
    requires Direct(m.decode[a / 4].value, a, t)
    ensures IsLeader(m, s, t)
  {
    assert 4 * (a / 4) == a;
    assert Edge(m, s, a / 4, t);
  }

  lemma LastSuccessorLed(m: Image, s: Scan, entry: nat, start: nat, a: nat, t: nat)
    requires ImageOk(m) && Ready(m, s, entry) && a % 4 == 0 && t % 4 == 0 && !GoesOn(m, s, a)
    requires t in BlockFrom(m, s, start, a).successors
    ensures IsInstruction(m, s, t) && IsLeader(m, s, t)
  {
    LastSuccessor(m, s, start, a, t);
    if !IsLeader(m, s, t) {
      MarkedDecodes(m, s, entry, t);
      BranchTargetLed(m, s, a, t);
    }
  }

  // The instruction that ends the block decides its successors.
  lemma {:induction false} LastOf(m: Image, s: Scan, start: nat, a: nat) returns (e: nat)
    requires ImageOk(m) && Shaped(m, s) && a % 4 == 0
    ensures e % 4 == 0 && !GoesOn(m, s, e)
    ensures BlockFrom(m, s, start, a).successors == BlockFrom(m, s, start, e).successors
    decreases m.size + 4 - a
  {
    e := a;
    if GoesOn(m, s, a) {
      BlockGoesOn(m, s, start, a);
      e := LastOf(m, s, start, a + Size(m.decode[a / 4].value));
    }
  }

  lemma SuccessorLed(m: Image, s: Scan, entry: nat, start: nat, a: nat, t: nat)
    requires ImageOk(m) && Ready(m, s, entry) && a % 4 == 0 && t % 4 == 0 && t in BlockFrom(m, s, start, a).successors
    ensures IsInstruction(m, s, t) && IsLeader(m, s, t)
  {
    var e := LastOf(m, s, start, a);
    LastSuccessorLed(m, s, entry, start, e, t);
  }

  /** A recorded successor is the start of a block of the function exactly when it is word
      aligned. */
  lemma SuccessorsAreBlocks(m: Image, entry: nat, k: nat, t: nat)
    requires ImageOk(m) && ValidCode(m, entry) && NoOverlap(m, entry)
    requires k < |Blocks(m, entry)| && t in Blocks(m, entry)[k].successors
    ensures t % 4 == 0 <==> exists j :: 0 <= j < |Blocks(m, entry)| && Blocks(m, entry)[j].start == t
  {
    var s, bs := Found(m, entry), Blocks(m, entry);
    FoundReady(m, entry);
    BlockStarts(m, s, 0, k);
    if t % 4 == 0 {
      SuccessorLed(m, s, entry, bs[k].start, bs[k].start, t);
      var j := LeaderHasBlock(m, s, 0, t);
    } else {
      forall j: nat | j < |bs| ensures bs[j].start != t { BlockStarts(m, s, 0, j); }
    }
  }

  lemma LastStep(m: Image, s: Scan, start: nat, a: nat, t: nat)
    requires ImageOk(m) && Shaped(m, s) && IsInstruction(m, s, a) && m.decode[a / 4].Some? && !GoesOn(m, s, a)
    requires Direct(m.decode[a / 4].value, a, t) && IsInstruction(m, s, t)
    ensures t in BlockFrom(m, s, start, a).successors
  {
  }

  lemma FirstStep(m: Image, s: Scan, start: nat, a: nat, t: nat)
    requires ImageOk(m) && Shaped(m, s) && a % 4 == 0 && IsInstruction(m, s, a) && m.decode[a / 4].Some?
    requires Direct(m.decode[a / 4].value, a, t) && IsInstruction(m, s, t) && (t % 4 == 0 ==> m.decode[t / 4].Some?)
    ensures var k := BlockFrom(m, s, start, a); t in k.members || t in k.successors
  {
    if GoesOn(m, s, a) {
      BlockBegins(m, s, start, t);
      RestBelongs(m, s, start, a);
    } else {
      LastStep(m, s, start, a, t);
    }
  }

  lemma {:induction false} StepInBlock(m: Image, s: Scan, start: nat, a: nat, b: nat, t: nat)
    requires ImageOk(m) && Shaped(m, s) && a % 4 == 0 && b in BlockFrom(m, s, start, a).members
    requires b / 4 < Words(m) && m.decode[b / 4].Some? && Direct(m.decode[b / 4].value, b, t)
    requires IsInstruction(m, s, t) && (t % 4 == 0 ==> m.decode[t / 4].Some?)
    ensures var k := BlockFrom(m, s, start, a); t in k.members || t in k.successors
    decreases m.size + 4 - a
  {
    if b == a {
      MemberMarked(m, s, start, a, b);
      FirstStep(m, s, start, a, t);
    } else {
      var next := MemberLater(m, s, start, a, b);
      StepInBlock(m, s, start, next, b, t);
      RestBelongs(m, s, start, a);
    }
  }

  /** From an instruction of a block every direct step stays in the block, enters one of its
      recorded successors, or leaves the decoded instructions. */
  lemma StepsAreRecorded(m: Image, entry: nat, k: nat, b: nat, t: nat)
    requires ImageOk(m) && ValidCode(m, entry) && NoOverlap(m, entry)
    requires k < |Blocks(m, entry)| && b in Blocks(m, entry)[k].members && StepsTo(m, b, t)
    ensures var block := Blocks(m, entry)[k];
            t in block.members || t in block.successors || !IsInstruction(m, Found(m, entry), t)
  {
    var s, bs := Found(m, entry), Blocks(m, entry);
    FoundReady(m, entry);
    BlockStarts(m, s, 0, k);
    if IsInstruction(m, s, t) {
      if t % 4 == 0 { MarkedDecodes(m, s, entry, t); }
      StepInBlock(m, s, bs[k].start, bs[k].start, b, t);
    }
  }

  lemma FirstMember(m: Image, s: Scan, start: nat, a: nat)
    requires ImageOk(m) && Shaped(m, s)
    ensures var ms := BlockFrom(m, s, start, a).members;
            if IsInstruction(m, s, a) && m.decode[a / 4].Some? then ms != [] && ms[0] == a else ms == []
  {
    if GoesOn(m, s, a) { BlockGoesOn(m, s, start, a); }
  }

  // From the first instruction a block goes on to its second, if it has one.
  lemma SecondMember(m: Image, s: Scan, start: nat, a: nat, t: nat)
    requires ImageOk(m) && Shaped(m, s) && GoesOn(m, s, a) && Direct(m.decode[a / 4].value, a, t)
    requires IsInstruction(m, s, t) && m.decode[t / 4].Some?
    ensures var ms := BlockFrom(m, s, start, a).members; |ms| > 1 && ms[1] == t
  {
    BlockGoesOn(m, s, start, a);
    FirstMember(m, s, start, t);
  }

  // A direct step from the first instruction of a block.
  lemma FirstNext(m: Image, s: Scan, start: nat, a: nat, t: nat)
    requires ImageOk(m) && Shaped(m, s) && BlockFrom(m, s, start, a).members != []
    requires a / 4 < Words(m) && m.decode[a / 4].Some? && Direct(m.decode[a / 4].value, a, t)
    requires IsInstruction(m, s, t) && m.decode[t / 4].Some?
    ensures var k := BlockFrom(m, s, start, a);
            k.members[0] == a && if 1 < |k.members| then k.members[1] == t else t in k.successors
  {
    FirstMember(m, s, start, a);
    if GoesOn(m, s, a) {
      SecondMember(m, s, start, a, t);
    } else {
      EndsAlone(m, s, start, a);
      LastStep(m, s, start, a, t);
    }
  }

  /** A direct step from the j-th instruction of a block goes to the next one, or, from the last, to
      a recorded successor. */
  lemma MemberNext(m: Image, s: Scan, start: nat, a: nat, j: nat, t: nat)
    requires ImageOk(m) && Shaped(m, s) && j < |BlockFrom(m, s, start, a).members|
    requires var b := BlockFrom(m, s, start, a).members[j];
             b / 4 < Words(m) && m.decode[b / 4].Some? && Direct(m.decode[b / 4].value, b, t)
    requires IsInstruction(m, s, t) && m.decode[t / 4].Some?
    ensures var k := BlockFrom(m, s, start, a);
            if j + 1 < |k.members| then k.members[j + 1] == t else t in k.successors
  {
    var b := BlockFrom(m, s, start, a).members[j];
    BlockTail(m, s, start, a, j);
    FirstNext(m, s, start, b, t);
  }

  // ------------------------------------------------------------ where the entry is

  // The least address of a reachable instruction is the entry.
  ghost predicate EntryLowest(m: Image, entry: nat)
    requires ImageOk(m)
  {
    forall a: nat :: ValidCode(m, a) && Reach(m, entry, a) && m.decode[a / 4].Some? ==> entry <= a
  }

  lemma EntryHasBlock(m: Image, entry: nat) returns (k: nat)
    requires ImageOk(m) && ValidCode(m, entry) && NoOverlap(m, entry) && m.decode[entry / 4].Some?
    ensures k < |Blocks(m, entry)| && Blocks(m, entry)[k].start == entry
  {
    var s := Found(m, entry);
    ReachEntry(m, entry);
    MarksAreReachable(m, entry, entry);
    FoundLeads(m, entry);
    k := LeaderHasBlock(m, s, 0, entry);
  }

  lemma {:induction false} DiscoverLeads(m: Image, s: Scan, l: nat)
    requires ImageOk(m) && Shaped(m, s) && IsLeader(m, s, l)
    ensures IsLeader(m, Discover(m, s), l)
    decreases Words(m) - s.cursor
  {
    if s.cursor < |s.queue| {
      QueueBound(m, s);
      WalkLeads(m, s.(cursor := s.cursor + 1), s.queue[s.cursor], l);
      DiscoverLeads(m, Walk(m, s.(cursor := s.cursor + 1), s.queue[s.cursor]), l);
    }
  }

  lemma {:induction false} WalkLeads(m: Image, s: Scan, a: nat, l: nat)
    requires ImageOk(m) && Shaped(m, s) && IsLeader(m, s, l)
    ensures IsLeader(m, Walk(m, s, a), l)
    decreases m.size - a
  {
    if ValidCode(m, a) && s.marks[a / 4] == 0 && m.decode[a / 4].Some? {
      var i := m.decode[a / 4].value;
      if !i.flow.Branch? && Linear(i) { WalkLeads(m, Mark(m, s, a / 4, i), a + Size(i), l); }
    }
  }

  lemma FoundLeads(m: Image, entry: nat)
    requires ImageOk(m) && ValidCode(m, entry)
    ensures IsLeader(m, Found(m, entry), entry)
  {
    DiscoverLeads(m, Begin(m, entry), entry);
  }

  /** The first block starts at the entry exactly when no reachable instruction lies below it: the
      blocks are appended in ascending address order. */
  lemma FirstBlockExact(m: Image, entry: nat)
    requires ImageOk(m) && ValidCode(m, entry) && NoOverlap(m, entry) && m.decode[entry / 4].Some?
    ensures Blocks(m, entry) != [] && (Blocks(m, entry)[0].start == entry <==> EntryLowest(m, entry))
  {
    var s, bs := Found(m, entry), Blocks(m, entry);
    var e := EntryHasBlock(m, entry);
    FoundReady(m, entry);
    BlockStarts(m, s, 0, 0);
    if EntryLowest(m, entry) {
      MarkedDecodes(m, s, entry, bs[0].start);
      MarksAreReachable(m, entry, bs[0].start);
      if e > 0 { BlocksAscend(m, s, 0, 0, e); }
    } else {
      var a: nat :| ValidCode(m, a) && Reach(m, entry, a) && m.decode[a / 4].Some? && a < entry;
      var k := InExactlyOneBlock(m, entry, a);
      BlockStarts(m, s, 0, k);
      MemberMarked(m, s, bs[k].start, bs[k].start, a);
      if k > 0 { BlocksAscend(m, s, 0, 0, k); }
    }
  }

  // ------------------------------------------------------------ a misaligned target

  // A branch at 0 to address 2.
  function Skewed(): (m: Image)
    ensures ImageOk(m) && ValidCode(m, 0)
  {
    Image(4, [Some(Instr(false, Branch, true, 2, false))])
  }

  /** Address 2 is recorded as a successor and starts no block. */
  lemma SkewedSuccessor()
    ensures Blocks(Skewed(), 0) == [Block(0, 4, [2], [0])]
  {
    var m := Skewed();
    var s := Begin(m, 0);
    assert s.marks == [0] && s.leaders == [true];
    var t := Scan([1], [true], [0], 1);
    assert Mark(m, s.(cursor := 1), 0, m.decode[0].value) == t;
    assert Walk(m, s.(cursor := 1), 0) == t;
    assert Found(m, 0) == t;
    assert BlockFrom(m, t, 0, 0) == Block(0, 4, [2], [0]);
    assert BlocksFrom(m, t, 1) == [];
  }
}
