/** The discovery worklist as a whole: its marks are the reachable instructions, and they are
    closed under direct control flow. */
module CfgDiscovery {
  import opened Cfg
  import opened CfgTheory

  lemma BranchReaches(m: Image, entry: nat, a: nat)
    requires ImageOk(m) && ValidCode(m, a) && Reach(m, entry, a) && m.decode[a / 4].Some?
    ensures var i := m.decode[a / 4].value;
            && (i.flow.Branch? && i.hasTarget ==> Reach(m, entry, i.target))
            && ((i.flow.Branch? || Linear(i)) && i.fallsThrough ==> Reach(m, entry, a + Size(i)))
  {
    var i := m.decode[a / 4].value;
    if i.flow.Branch? && i.hasTarget { ReachStep(m, entry, a, i.target); }
    if (i.flow.Branch? || Linear(i)) && i.fallsThrough { ReachStep(m, entry, a, a + Size(i)); }
  }

  // The address is handled and, if it is code, a leader.
  ghost predicate Led(m: Image, s: Scan, t: nat)
    requires Shaped(m, s)
  {
    Handled(m, s, NOWHERE, t) && (ValidCode(m, t) ==> s.leaders[t / 4])
  }

  lemma BranchSound(m: Image, u: Scan, entry: nat, a: nat)
    requires ImageOk(m) && Shaped(m, u) && ValidCode(m, a) && Reach(m, entry, a) && m.decode[a / 4].Some?
    requires SoundBut(m, u, entry, NOWHERE, {a / 4}) && m.decode[a / 4].value.flow.Branch?
    ensures Sound(m, BranchFrom(m, u, m.decode[a / 4].value, a), entry, NOWHERE)
  {
    BranchReaches(m, entry, a);
    BranchLeads(m, u, entry, a / 4, m.decode[a / 4].value, a);
    BranchCloses(m, BranchFrom(m, u, m.decode[a / 4].value, a), entry, a);
  }

  lemma BranchLeads(m: Image, u: Scan, entry: nat, w: nat, i: Instr, a: nat)
    requires ImageOk(m) && Shaped(m, u) && SoundBut(m, u, entry, NOWHERE, {w})
    requires (i.hasTarget ==> Reach(m, entry, i.target)) && (i.fallsThrough ==> Reach(m, entry, a + Size(i)))
    ensures var t := BranchFrom(m, u, i, a);
            && SoundBut(m, t, entry, NOWHERE, {w})
            && (i.hasTarget ==> Led(m, t, i.target)) && (i.fallsThrough ==> Led(m, t, a + Size(i)))
  {
    var q: Scan -> bool := s => Shaped(m, s) && SoundBut(m, s, entry, NOWHERE, {w});
    var led: (Scan, nat) -> bool := (s: Scan, x: nat) => Shaped(m, s) && Led(m, s, x);
    var reached: nat -> bool := (x: nat) => Reach(m, entry, x);
    forall s: Scan, x: nat | Shaped(m, s) && q(s) && reached(x)
      ensures q(Lead(m, s, x)) && led(Lead(m, s, x), x)
    {
      LeadOne(m, s, entry, w, x);
    }
    forall s: Scan, x: nat, y: nat | Shaped(m, s) && q(s) && reached(x) && led(s, y)
      ensures led(Lead(m, s, x), y)
    {
      LeadOne(m, s, entry, w, x);
    }
    LeadTwice(m, u, i, a, q, led, reached);
  }

  lemma BranchCloses(m: Image, t: Scan, entry: nat, a: nat)
    requires ImageOk(m) && Shaped(m, t) && ValidCode(m, a) && m.decode[a / 4].Some?
    requires SoundBut(m, t, entry, NOWHERE, {a / 4})
    requires var i := m.decode[a / 4].value;
             i.flow.Branch? && (i.hasTarget ==> Led(m, t, i.target)) && (i.fallsThrough ==> Led(m, t, a + Size(i)))
    ensures Sound(m, t, entry, NOWHERE)
  {
    BranchEdges(m, t, a);
  }

  // Leading at one or two addresses keeps what leading at one address keeps.
  lemma LeadTwice(m: Image, u: Scan, i: Instr, a: nat, q: Scan -> bool, led: (Scan, nat) -> bool, reached: nat -> bool)
    requires Shaped(m, u) && q(u)
    requires (i.hasTarget ==> reached(i.target)) && (i.fallsThrough ==> reached(a + Size(i)))
    requires forall s: Scan, x: nat :: Shaped(m, s) && q(s) && reached(x) ==>
               q(Lead(m, s, x)) && led(Lead(m, s, x), x)
    requires forall s: Scan, x: nat, y: nat :: Shaped(m, s) && q(s) && reached(x) && led(s, y) ==>
               led(Lead(m, s, x), y)
    ensures var t := BranchFrom(m, u, i, a);
            q(t) && (i.hasTarget ==> led(t, i.target)) && (i.fallsThrough ==> led(t, a + Size(i)))
  {
    var v := if i.hasTarget then Lead(m, u, i.target) else u;
    assert q(v);
  }

  lemma LeadOne(m: Image, u: Scan, entry: nat, w: nat, t: nat)
    requires ImageOk(m) && Shaped(m, u) && SoundBut(m, u, entry, NOWHERE, {w}) && Reach(m, entry, t)
    ensures SoundBut(m, Lead(m, u, t), entry, NOWHERE, {w}) && Led(m, Lead(m, u, t), t)
    ensures forall x: nat :: Led(m, u, x) ==> Led(m, Lead(m, u, t), x)
  {
    LeadSound(m, u, entry, NOWHERE, {w}, t);
  }

  lemma BranchEdges(m: Image, t: Scan, a: nat)
    requires ImageOk(m) && Shaped(m, t) && ValidCode(m, a) && m.decode[a / 4].Some?
    requires EdgesClosed(m, t, NOWHERE, {a / 4})
    requires var i := m.decode[a / 4].value;
             i.flow.Branch? && (i.hasTarget ==> Led(m, t, i.target)) && (i.fallsThrough ==> Led(m, t, a + Size(i)))
    ensures EdgesClosed(m, t, NOWHERE, {})
  {
    assert 4 * (a / 4) == a;
    forall w: nat, x: nat | Edge(m, t, w, x)
      ensures Handled(m, t, NOWHERE, x) && (m.decode[w].value.flow.Branch? && ValidCode(m, x) ==> t.leaders[x / 4])
    {
    }
  }

  lemma StraightEdges(m: Image, u: Scan, a: nat)
    requires ImageOk(m) && Shaped(m, u) && ValidCode(m, a) && m.decode[a / 4].Some?
    requires EdgesClosed(m, u, NOWHERE, {a / 4}) && Linear(m.decode[a / 4].value)
    ensures EdgesClosed(m, u, a + Size(m.decode[a / 4].value), {})
  {
    var next := a + Size(m.decode[a / 4].value);
    assert 4 * (a / 4) == a;
    forall w: nat, x: nat | Edge(m, u, w, x)
      ensures Handled(m, u, next, x) && (m.decode[w].value.flow.Branch? && ValidCode(m, x) ==> u.leaders[x / 4])
    {
      if w != a / 4 { assert Handled(m, u, NOWHERE, x); }
    }
  }

  lemma StraightSound(m: Image, u: Scan, entry: nat, a: nat)
    requires ImageOk(m) && Shaped(m, u) && ValidCode(m, a) && m.decode[a / 4].Some? && u.marks[a / 4] == 1
    requires SoundBut(m, u, entry, NOWHERE, {a / 4}) && Linear(m.decode[a / 4].value)
    ensures Sound(m, u, entry, a + Size(m.decode[a / 4].value)) && Entered(m, u, a + Size(m.decode[a / 4].value))
  {
    var next := a + Size(m.decode[a / 4].value);
    assert RunsFrom(m, u, a, next);
    StraightEdges(m, u, a);
    StraightQueue(m, u, next);
  }

  lemma StraightQueue(m: Image, u: Scan, next: nat)
    requires Shaped(m, u) && QueueClosed(m, u, NOWHERE)
    ensures QueueClosed(m, u, next)
  {
    forall k | 0 <= k < u.cursor ensures Handled(m, u, next, u.queue[k]) {
      assert Handled(m, u, NOWHERE, u.queue[k]);
    }
  }

  lemma StopSound(m: Image, u: Scan, entry: nat, a: nat)
    requires ImageOk(m) && Shaped(m, u) && ValidCode(m, a) && m.decode[a / 4].Some?
    requires SoundBut(m, u, entry, NOWHERE, {a / 4})
    requires !m.decode[a / 4].value.flow.Branch? && !Linear(m.decode[a / 4].value)
    ensures Sound(m, u, entry, NOWHERE)
  {
    forall w: nat, x: nat | Edge(m, u, w, x)
      ensures Handled(m, u, NOWHERE, x) && (m.decode[w].value.flow.Branch? && ValidCode(m, x) ==> u.leaders[x / 4])
    {
      assert w != a / 4;
    }
  }

  // An address that is no code or already marked needs nothing more.
  lemma SettledNow(m: Image, s: Scan, entry: nat, a: nat)
    requires ImageOk(m) && Shaped(m, s) && Sound(m, s, entry, a)
    requires !ValidCode(m, a) || s.marks[a / 4] != 0
    ensures Sound(m, s, entry, NOWHERE)
  {
    forall w: nat, x: nat | Edge(m, s, w, x)
      ensures Handled(m, s, NOWHERE, x) && (m.decode[w].value.flow.Branch? && ValidCode(m, x) ==> s.leaders[x / 4])
    {
      assert Handled(m, s, a, x);
    }
    forall k | 0 <= k < s.cursor ensures Handled(m, s, NOWHERE, s.queue[k]) {
      assert Handled(m, s, a, s.queue[k]);
    }
  }

  lemma InvalidSound(m: Image, s: Scan, entry: nat, a: nat)
    requires ImageOk(m) && Shaped(m, s) && Sound(m, s, entry, a) && ValidCode(m, a) && s.marks[a / 4] == 0
    requires Reach(m, entry, a) && m.decode[a / 4].None? && Entered(m, s, a)
    ensures Sound(m, s.(marks := s.marks[a / 4 := 3]), entry, NOWHERE)
  {
    var t := s.(marks := s.marks[a / 4 := 3]);
    assert 4 * (a / 4) == a;
    InvalidSeconds(m, s, a);
    GrownLinked(m, s, t, a);
    GrownClosed(m, s, t, a);
    GrownQueue(m, s, t, entry);
    NoEdges(m, t, a / 4);
  }

  lemma InvalidSeconds(m: Image, s: Scan, a: nat)
    requires ImageOk(m) && Shaped(m, s) && ValidCode(m, a) && SecondsOk(m, s) && WidesOk(m, s) && s.marks[a / 4] == 0
    ensures var t := s.(marks := s.marks[a / 4 := 3]); SecondsOk(m, t) && WidesOk(m, t)
  {
    var t := s.(marks := s.marks[a / 4 := 3]);
    forall w: nat | Second(m, t, w) ensures w >= 1 && Wide(m, t, w - 1) {
      assert Second(m, s, w) && Wide(m, s, w - 1);
    }
    forall w: nat | w < Words(m) - 1 && Wide(m, t, w) ensures Second(m, t, w + 1) {
      assert Wide(m, s, w) && Second(m, s, w + 1);
    }
  }

  lemma NoEdges(m: Image, t: Scan, w0: nat)
    requires ImageOk(m) && Shaped(m, t) && w0 < Words(m) && t.marks[w0] != 1 && EdgesClosed(m, t, NOWHERE, {w0})
    ensures EdgesClosed(m, t, NOWHERE, {})
  {
  }

  // A walk that ends at this address.
  lemma WalkEndsSound(m: Image, s: Scan, entry: nat, a: nat)
    requires ImageOk(m) && Shaped(m, s) && NoOverlap(m, entry) && Sound(m, s, entry, a)
    requires Reach(m, entry, a) && Entered(m, s, a)
    requires ValidCode(m, a) && s.marks[a / 4] == 0 && m.decode[a / 4].Some? ==> !Linear(m.decode[a / 4].value)
    ensures Sound(m, Walk(m, s, a), entry, NOWHERE)
  {
    if !ValidCode(m, a) || s.marks[a / 4] != 0 {
      SettledNow(m, s, entry, a);
    } else if m.decode[a / 4].None? {
      InvalidSound(m, s, entry, a);
    } else {
      MarkSound(m, s, entry, a);
      var u := Mark(m, s, a / 4, m.decode[a / 4].value);
      if m.decode[a / 4].value.flow.Branch? { BranchSound(m, u, entry, a); } else { StopSound(m, u, entry, a); }
    }
  }

  predicate RunsOn(m: Image, s: Scan, a: nat)
    requires ImageOk(m) && Shaped(m, s)
  {
    ValidCode(m, a) && s.marks[a / 4] == 0 && m.decode[a / 4].Some? && Linear(m.decode[a / 4].value)
  }

  function OneOn(m: Image, s: Scan, a: nat): (t: Scan)
    requires ImageOk(m) && Shaped(m, s) && RunsOn(m, s, a)
    ensures Shaped(m, t)
  {
    Mark(m, s, a / 4, m.decode[a / 4].value)
  }

  // Induction along a walk: p holds before each instruction, q once the walk has ended.
  lemma {:induction false} WalkInduction(m: Image, s: Scan, a: nat, p: (Scan, nat) -> bool, q: Scan -> bool)
    requires ImageOk(m) && Shaped(m, s) && p(s, a)
    requires forall u: Scan, b: nat :: Shaped(m, u) && p(u, b) && RunsOn(m, u, b) ==>
               p(OneOn(m, u, b), b + Size(m.decode[b / 4].value))
    requires forall u: Scan, b: nat :: Shaped(m, u) && p(u, b) && !RunsOn(m, u, b) ==> q(Walk(m, u, b))
    ensures q(Walk(m, s, a))
    decreases m.size - a
  {
    if RunsOn(m, s, a) {
      var next := a + Size(m.decode[a / 4].value);
      WalkInduction(m, OneOn(m, s, a), next, p, q);
      assert Walk(m, s, a) == Walk(m, OneOn(m, s, a), next);
    }
  }

  ghost predicate Walking(m: Image, s: Scan, entry: nat, a: nat)
    requires ImageOk(m)
  {
    Shaped(m, s) && Sound(m, s, entry, a) && Reach(m, entry, a) && Entered(m, s, a)
  }

  ghost predicate Resting(m: Image, s: Scan, entry: nat)
    requires ImageOk(m)
  {
    Shaped(m, s) && Sound(m, s, entry, NOWHERE)
  }

  lemma OneOnSound(m: Image, u: Scan, entry: nat, b: nat)
    requires ImageOk(m) && NoOverlap(m, entry) && Walking(m, u, entry, b) && RunsOn(m, u, b)
    ensures Walking(m, OneOn(m, u, b), entry, b + Size(m.decode[b / 4].value))
  {
    MarkSound(m, u, entry, b);
    StraightSound(m, OneOn(m, u, b), entry, b);
    BranchReaches(m, entry, b);
  }

  lemma EveryStepSound(m: Image, entry: nat)
    requires ImageOk(m) && NoOverlap(m, entry)
    ensures forall u: Scan, b: nat :: Walking(m, u, entry, b) && RunsOn(m, u, b) ==>
              Walking(m, OneOn(m, u, b), entry, b + Size(m.decode[b / 4].value))
  {
    forall u: Scan, b: nat | Walking(m, u, entry, b) && RunsOn(m, u, b)
      ensures Walking(m, OneOn(m, u, b), entry, b + Size(m.decode[b / 4].value))
    {
      OneOnSound(m, u, entry, b);
    }
  }

  lemma EveryEndSound(m: Image, entry: nat)
    requires ImageOk(m) && NoOverlap(m, entry)
    ensures forall u: Scan, b: nat :: Walking(m, u, entry, b) && !RunsOn(m, u, b) ==> Resting(m, Walk(m, u, b), entry)
  {
    forall u: Scan, b: nat | Walking(m, u, entry, b) && !RunsOn(m, u, b) ensures Resting(m, Walk(m, u, b), entry) {
      WalkEndsSound(m, u, entry, b);
    }
  }

  lemma WalkSound(m: Image, s: Scan, entry: nat, a: nat)
    requires ImageOk(m) && NoOverlap(m, entry) && Walking(m, s, entry, a)
    ensures Resting(m, Walk(m, s, a), entry)
  {
    EveryStepSound(m, entry);
    EveryEndSound(m, entry);
    WalkInduction(m, s, a, (u: Scan, b: nat) => Walking(m, u, entry, b), u => Resting(m, u, entry));
  }

  lemma TakeSound(m: Image, s: Scan, entry: nat)
    requires ImageOk(m) && Shaped(m, s) && s.cursor < |s.queue| && Sound(m, s, entry, NOWHERE)
    ensures var a, t := s.queue[s.cursor], s.(cursor := s.cursor + 1);
            Sound(m, t, entry, a) && Reach(m, entry, a) && Entered(m, t, a)
  {
    var a, t := s.queue[s.cursor], s.(cursor := s.cursor + 1);
    SameMarks(m, s, t, entry);
    TakeClosed(m, s);
    TakeLinked(m, s, t);
  }

  lemma TakeClosed(m: Image, s: Scan)
    requires ImageOk(m) && Shaped(m, s) && s.cursor < |s.queue|
    requires EdgesClosed(m, s, NOWHERE, {}) && QueueClosed(m, s, NOWHERE)
    ensures var a, t := s.queue[s.cursor], s.(cursor := s.cursor + 1);
            EdgesClosed(m, t, a, {}) && QueueClosed(m, t, a)
  {
    var a, t := s.queue[s.cursor], s.(cursor := s.cursor + 1);
    assert s.queue[s.cursor..] == [a] + t.queue[t.cursor..];
    forall x: nat | Handled(m, s, NOWHERE, x) ensures Handled(m, t, a, x) {}
    forall w: nat, x: nat | Edge(m, t, w, x)
      ensures Handled(m, t, a, x) && (m.decode[w].value.flow.Branch? && ValidCode(m, x) ==> t.leaders[x / 4])
    {
      assert Edge(m, s, w, x) && Handled(m, s, NOWHERE, x);
    }
    forall k | 0 <= k < t.cursor ensures Handled(m, t, a, t.queue[k]) {
      if k < s.cursor { assert Handled(m, s, NOWHERE, s.queue[k]); }
    }
  }

  lemma TakeLinked(m: Image, s: Scan, t: Scan)
    requires ImageOk(m) && Shaped(m, s) && Shaped(m, t) && t.marks == s.marks && t.leaders == s.leaders && Linked(m, s)
    ensures Linked(m, t)
  {
    forall w: nat | First(m, t, w) ensures t.leaders[w] || RunsInto(m, t, 4 * w) {
      assert First(m, s, w);
      if !s.leaders[w] {
        var p: nat :| RunsFrom(m, s, p, 4 * w);
        assert RunsFrom(m, t, p, 4 * w);
      }
    }
  }

  function VisitOne(m: Image, s: Scan): (t: Scan)
    requires ImageOk(m) && Shaped(m, s) && s.cursor < |s.queue|
    ensures Shaped(m, t)
  {
    Walk(m, s.(cursor := s.cursor + 1), s.queue[s.cursor])
  }

  lemma VisitSound(m: Image, s: Scan, entry: nat)
    requires ImageOk(m) && NoOverlap(m, entry) && Resting(m, s, entry) && s.cursor < |s.queue|
    ensures Resting(m, VisitOne(m, s), entry)
  {
    TakeSound(m, s, entry);
    WalkSound(m, s.(cursor := s.cursor + 1), entry, s.queue[s.cursor]);
  }

  // Induction along the discovery worklist.
  lemma {:induction false} DiscoverInduction(m: Image, s: Scan, q: Scan -> bool)
    requires ImageOk(m) && Shaped(m, s) && q(s)
    requires forall u: Scan :: Shaped(m, u) && q(u) && u.cursor < |u.queue| ==> q(VisitOne(m, u))
    ensures q(Discover(m, s))
    decreases Words(m) - s.cursor
  {
    if s.cursor < |s.queue| {
      QueueBound(m, s);
      DiscoverInduction(m, VisitOne(m, s), q);
    }
  }

  lemma DiscoverSound(m: Image, s: Scan, entry: nat)
    requires ImageOk(m) && NoOverlap(m, entry) && Resting(m, s, entry)
    ensures Resting(m, Discover(m, s), entry)
  {
    var q: Scan -> bool := u => Resting(m, u, entry);
    forall u: Scan | Shaped(m, u) && q(u) && u.cursor < |u.queue| ensures q(VisitOne(m, u)) {
      VisitSound(m, u, entry);
    }
    DiscoverInduction(m, s, q);
  }

  lemma BeginSound(m: Image, entry: nat)
    requires ImageOk(m) && ValidCode(m, entry)
    ensures Sound(m, Begin(m, entry), entry, NOWHERE)
  {
    ReachEntry(m, entry);
    assert 4 * (entry / 4) == entry;
  }

  function Found(m: Image, entry: nat): (s: Scan)
    requires ImageOk(m) && ValidCode(m, entry)
    ensures Shaped(m, s) && s.cursor == |s.queue|
  {
    Discover(m, Begin(m, entry))
  }

  lemma FoundSound(m: Image, entry: nat)
    requires ImageOk(m) && ValidCode(m, entry) && NoOverlap(m, entry)
    ensures Sound(m, Found(m, entry), entry, NOWHERE)
    ensures entry in Found(m, entry).queue
  {
    BeginSound(m, entry);
    DiscoverSound(m, Begin(m, entry), entry);
    DiscoverKeeps(m, Begin(m, entry), entry);
  }

  lemma {:induction false} WalkKeeps(m: Image, s: Scan, a: nat, x: nat)
    requires ImageOk(m) && Shaped(m, s) && x in s.queue
    ensures x in Walk(m, s, a).queue
    decreases m.size - a
  {
    if ValidCode(m, a) && s.marks[a / 4] == 0 && m.decode[a / 4].Some? && Linear(m.decode[a / 4].value) {
      WalkKeeps(m, Mark(m, s, a / 4, m.decode[a / 4].value), a + Size(m.decode[a / 4].value), x);
    }
  }

  lemma {:induction false} DiscoverKeeps(m: Image, s: Scan, x: nat)
    requires ImageOk(m) && Shaped(m, s) && x in s.queue
    ensures x in Discover(m, s).queue
    decreases Words(m) - s.cursor
  {
    if s.cursor < |s.queue| {
      QueueBound(m, s);
      var t := s.(cursor := s.cursor + 1);
      WalkKeeps(m, t, s.queue[s.cursor], x);
      DiscoverKeeps(m, Walk(m, t, s.queue[s.cursor]), x);
    }
  }

  // ------------------------------------------------------------ what was found

  // A reached address that decodes is marked as an instruction; one that does not is marked as
  // undecodable, or as the second word of the instruction around it.
  predicate Settled(m: Image, s: Scan, a: nat)
    requires Shaped(m, s) && ValidCode(m, a) && ImageOk(m)
  {
    if m.decode[a / 4].Some? then s.marks[a / 4] == 1 else s.marks[a / 4] in {2, 3}
  }

  lemma SeenNotSecond(m: Image, s: Scan, entry: nat, a: nat)
    requires ImageOk(m) && Shaped(m, s) && NoOverlap(m, entry) && MarksOk(m, s, entry)
    requires ValidCode(m, a) && Reach(m, entry, a) && s.marks[a / 4] != 0
    ensures Settled(m, s, a)
  {
    var w := a / 4;
    assert 4 * w == a;
    assert s.marks[w] <= 3;
    if m.decode[w].Some? {
      if w >= 1 { assert !Overlapping(m, entry, 4 * (w - 1), a); }
      assert !Second(m, s, w);
    }
  }

  lemma EntryMarked(m: Image, entry: nat)
    requires ImageOk(m) && ValidCode(m, entry) && NoOverlap(m, entry)
    ensures Found(m, entry).marks[entry / 4] != 0
  {
    var s := Found(m, entry);
    FoundSound(m, entry);
    var k :| 0 <= k < |s.queue| && s.queue[k] == entry;
    assert Handled(m, s, NOWHERE, s.queue[k]);
  }

  lemma StepMarked(m: Image, entry: nat, p: nat, a: nat)
    requires ImageOk(m) && ValidCode(m, entry) && NoOverlap(m, entry)
    requires StepsTo(m, p, a) && ValidCode(m, a) && Found(m, entry).marks[p / 4] == 1
    ensures Found(m, entry).marks[a / 4] != 0
  {
    var s := Found(m, entry);
    FoundSound(m, entry);
    assert 4 * (p / 4) == p;
    assert Edge(m, s, p / 4, a);
    assert Handled(m, s, NOWHERE, a);
  }

  lemma FoundNotSecond(m: Image, entry: nat, a: nat)
    requires ImageOk(m) && ValidCode(m, entry) && NoOverlap(m, entry)
    requires ValidCode(m, a) && Reach(m, entry, a) && Found(m, entry).marks[a / 4] != 0
    ensures Settled(m, Found(m, entry), a)
  {
    FoundSound(m, entry);
    SeenNotSecond(m, Found(m, entry), entry, a);
  }

  lemma {:induction false} ReachedIsMarked(m: Image, entry: nat, a: nat, n: nat)
    requires ImageOk(m) && ValidCode(m, entry) && NoOverlap(m, entry)
    requires ReachIn(m, entry, a, n) && ValidCode(m, a)
    ensures Settled(m, Found(m, entry), a)
    decreases n
  {
    if n == 0 {
      EntryMarked(m, entry);
    } else {
      var p: nat :| ReachIn(m, entry, p, n - 1) && StepsTo(m, p, a);
      ReachedIsMarked(m, entry, p, n - 1);
      StepMarked(m, entry, p, a);
    }
    FoundNotSecond(m, entry, a);
  }

  /** Discovery marks an aligned address as an instruction exactly when it is reachable by
      direct control flow from the entry and decodes. */
  lemma MarksAreReachable(m: Image, entry: nat, a: nat)
    requires ImageOk(m) && ValidCode(m, entry) && NoOverlap(m, entry) && ValidCode(m, a)
    ensures IsInstruction(m, Found(m, entry), a) <==> Reach(m, entry, a) && m.decode[a / 4].Some?
  {
    assert 4 * (a / 4) == a;
    FoundSound(m, entry);
    if Reach(m, entry, a) {
      var n: nat :| ReachIn(m, entry, a, n);
      ReachedIsMarked(m, entry, a, n);
    }
  }

  /** The marks are closed: from a marked instruction every direct successor inside the image
      is marked too, as an instruction exactly when it decodes. */
  lemma MarksAreClosed(m: Image, entry: nat, a: nat, t: nat)
    requires ImageOk(m) && ValidCode(m, entry) && NoOverlap(m, entry) && ValidCode(m, a) && ValidCode(m, t)
    requires IsInstruction(m, Found(m, entry), a) && StepsTo(m, a, t)
    ensures Settled(m, Found(m, entry), t)
  {
    MarksAreReachable(m, entry, a);
    ReachStep(m, entry, a, t);
    var n: nat :| ReachIn(m, entry, t, n);
    ReachedIsMarked(m, entry, t, n);
  }
}
