/** What discovery guarantees of any image, overlapping instructions or not, and that its marks
    are exact only without them. */
module CfgExact {
  import opened Cfg
  import opened CfgTheory
  import opened CfgDiscovery
  import opened Wrappers

  // The part of the invariant that needs no assumption about the image.
  ghost predicate Kempt(m: Image, s: Scan, now: nat, but: set<nat>)
    requires ImageOk(m)
  {
    Shaped(m, s) && WidesOk(m, s) && EdgesClosed(m, s, now, but) && QueueClosed(m, s, now)
  }

  lemma WidesMarked(m: Image, s: Scan, a: nat)
    requires ImageOk(m) && Shaped(m, s) && WidesOk(m, s)
    requires ValidCode(m, a) && s.marks[a / 4] == 0 && m.decode[a / 4].Some?
    ensures WidesOk(m, Mark(m, s, a / 4, m.decode[a / 4].value))
  {
    var w0, i := a / 4, m.decode[a / 4].value;
    var t := Mark(m, s, w0, i);
    forall w: nat | w < Words(m) - 1 && Wide(m, t, w) ensures Second(m, t, w + 1) {
      assert w == w0 || (Wide(m, s, w) && Second(m, s, w + 1));
    }
  }

  lemma MarkKempt(m: Image, s: Scan, a: nat)
    requires ImageOk(m) && Kempt(m, s, a, {}) && ValidCode(m, a) && s.marks[a / 4] == 0 && m.decode[a / 4].Some?
    ensures Kempt(m, Mark(m, s, a / 4, m.decode[a / 4].value), NOWHERE, {a / 4})
  {
    WidesMarked(m, s, a);
    GrownClosed(m, s, Mark(m, s, a / 4, m.decode[a / 4].value), a);
  }

  // ------------------------------------------------------------ the ends of a walk

  lemma LeadKempt(m: Image, s: Scan, w: nat, x: nat)
    requires ImageOk(m) && Kempt(m, s, NOWHERE, {w})
    ensures Kempt(m, Lead(m, s, x), NOWHERE, {w}) && Led(m, Lead(m, s, x), x)
    ensures forall y: nat :: Led(m, s, y) ==> Led(m, Lead(m, s, x), y)
  {
    if ValidCode(m, x) {
      var t := Lead(m, s, x);
      LeadHandles(m, s, NOWHERE, x);
      KeptEdges(m, s, t, NOWHERE, {w});
      WidesSame(m, s, t);
      forall k | 0 <= k < t.cursor ensures Handled(m, t, NOWHERE, t.queue[k]) {
        assert Handled(m, s, NOWHERE, s.queue[k]) && t.queue[k] == s.queue[k];
      }
    }
  }

  lemma WidesSame(m: Image, s: Scan, t: Scan)
    requires ImageOk(m) && Shaped(m, s) && Shaped(m, t) && t.marks == s.marks && WidesOk(m, s)
    ensures WidesOk(m, t)
  {
    forall w: nat | w < Words(m) - 1 && Wide(m, t, w) ensures Second(m, t, w + 1) {
      assert Wide(m, s, w) && Second(m, s, w + 1);
    }
  }

  lemma BranchKempt(m: Image, u: Scan, a: nat)
    requires ImageOk(m) && ValidCode(m, a) && m.decode[a / 4].Some? && Kempt(m, u, NOWHERE, {a / 4})
    requires m.decode[a / 4].value.flow.Branch?
    ensures Kempt(m, BranchFrom(m, u, m.decode[a / 4].value, a), NOWHERE, {})
  {
    BranchLed(m, u, a / 4, m.decode[a / 4].value, a);
    BranchEdges(m, BranchFrom(m, u, m.decode[a / 4].value, a), a);
  }

  lemma BranchLed(m: Image, u: Scan, w: nat, i: Instr, a: nat)
    requires ImageOk(m) && Kempt(m, u, NOWHERE, {w})
    ensures var t := BranchFrom(m, u, i, a);
            && Kempt(m, t, NOWHERE, {w})
            && (i.hasTarget ==> Led(m, t, i.target)) && (i.fallsThrough ==> Led(m, t, a + Size(i)))
  {
    var q: Scan -> bool := s => Kempt(m, s, NOWHERE, {w});
    var led: (Scan, nat) -> bool := (s: Scan, x: nat) => Shaped(m, s) && Led(m, s, x);
    var any: nat -> bool := (x: nat) => true;
    forall s: Scan, x: nat | Shaped(m, s) && q(s) && any(x) ensures q(Lead(m, s, x)) && led(Lead(m, s, x), x) {
      LeadKempt(m, s, w, x);
    }
    forall s: Scan, x: nat, y: nat | Shaped(m, s) && q(s) && any(x) && led(s, y) ensures led(Lead(m, s, x), y) {
      LeadKempt(m, s, w, x);
    }
    LeadTwice(m, u, i, a, q, led, any);
  }

  lemma StopKempt(m: Image, u: Scan, a: nat)
    requires ImageOk(m) && ValidCode(m, a) && m.decode[a / 4].Some? && Kempt(m, u, NOWHERE, {a / 4})
    requires !m.decode[a / 4].value.flow.Branch? && !Linear(m.decode[a / 4].value)
    ensures Kempt(m, u, NOWHERE, {})
  {
    forall w: nat, x: nat | Edge(m, u, w, x)
      ensures Handled(m, u, NOWHERE, x) && (m.decode[w].value.flow.Branch? && ValidCode(m, x) ==> u.leaders[x / 4])
    {
      assert w != a / 4;
    }
  }

  lemma InvalidKempt(m: Image, s: Scan, a: nat)
    requires ImageOk(m) && Kempt(m, s, a, {}) && ValidCode(m, a) && s.marks[a / 4] == 0
    ensures Kempt(m, s.(marks := s.marks[a / 4 := 3]), NOWHERE, {})
  {
    var t := s.(marks := s.marks[a / 4 := 3]);
    GrownClosed(m, s, t, a);
    NoEdges(m, t, a / 4);
    forall w: nat | w < Words(m) - 1 && Wide(m, t, w) ensures Second(m, t, w + 1) {
      assert Wide(m, s, w) && Second(m, s, w + 1);
    }
  }

  lemma RestKempt(m: Image, s: Scan, a: nat)
    requires ImageOk(m) && Kempt(m, s, a, {}) && (!ValidCode(m, a) || s.marks[a / 4] != 0)
    ensures Kempt(m, s, NOWHERE, {})
  {
    forall w: nat, x: nat | Edge(m, s, w, x)
      ensures Handled(m, s, NOWHERE, x) && (m.decode[w].value.flow.Branch? && ValidCode(m, x) ==> s.leaders[x / 4])
    {
      assert Handled(m, s, a, x);
    }
    forall k | 0 <= k < s.cursor ensures Handled(m, s, NOWHERE, s.queue[k]) {
      assert Handled(m, s, a, s.queue[k]);
    }
  }

  lemma EndKempt(m: Image, s: Scan, a: nat)
    requires ImageOk(m) && Kempt(m, s, a, {}) && !RunsOn(m, s, a)
    ensures Kempt(m, Walk(m, s, a), NOWHERE, {})
  {
    if !ValidCode(m, a) || s.marks[a / 4] != 0 {
      RestKempt(m, s, a);
    } else if m.decode[a / 4].None? {
      InvalidKempt(m, s, a);
    } else {
      MarkKempt(m, s, a);
      var u := Mark(m, s, a / 4, m.decode[a / 4].value);
      if m.decode[a / 4].value.flow.Branch? { BranchKempt(m, u, a); } else { StopKempt(m, u, a); }
    }
  }

  lemma StepKempt(m: Image, s: Scan, a: nat)
    requires ImageOk(m) && Kempt(m, s, a, {}) && RunsOn(m, s, a)
    ensures Kempt(m, OneOn(m, s, a), a + Size(m.decode[a / 4].value), {})
  {
    MarkKempt(m, s, a);
    StraightEdges(m, OneOn(m, s, a), a);
    StraightQueue(m, OneOn(m, s, a), a + Size(m.decode[a / 4].value));
  }

  // ------------------------------------------------------------ whole runs

  lemma WalkKempt(m: Image, s: Scan, a: nat)
    requires ImageOk(m) && Kempt(m, s, a, {})
    ensures Kempt(m, Walk(m, s, a), NOWHERE, {})
  {
    var p: (Scan, nat) -> bool := (u: Scan, b: nat) => Kempt(m, u, b, {});
    var q: Scan -> bool := u => Kempt(m, u, NOWHERE, {});
    forall u: Scan, b: nat | Shaped(m, u) && p(u, b) && RunsOn(m, u, b)
      ensures p(OneOn(m, u, b), b + Size(m.decode[b / 4].value))
    {
      StepKempt(m, u, b);
    }
    forall u: Scan, b: nat | Shaped(m, u) && p(u, b) && !RunsOn(m, u, b) ensures q(Walk(m, u, b)) {
      EndKempt(m, u, b);
    }
    WalkInduction(m, s, a, p, q);
  }

  lemma VisitKempt(m: Image, s: Scan)
    requires ImageOk(m) && Kempt(m, s, NOWHERE, {}) && s.cursor < |s.queue|
    ensures Kempt(m, VisitOne(m, s), NOWHERE, {})
  {
    TakeClosed(m, s);
    WidesSame(m, s, s.(cursor := s.cursor + 1));
    WalkKempt(m, s.(cursor := s.cursor + 1), s.queue[s.cursor]);
  }

  lemma FoundKempt(m: Image, entry: nat)
    requires ImageOk(m) && ValidCode(m, entry)
    ensures Kempt(m, Found(m, entry), NOWHERE, {})
  {
    var q: Scan -> bool := u => Kempt(m, u, NOWHERE, {});
    forall u: Scan | Shaped(m, u) && q(u) && u.cursor < |u.queue| ensures q(VisitOne(m, u)) { VisitKempt(m, u); }
    DiscoverInduction(m, Begin(m, entry), q);
  }

  /** Of any image, overlapping instructions or not: from a marked instruction every direct
      successor inside the image is marked. */
  lemma MarksClosedAlways(m: Image, entry: nat, a: nat, t: nat)
    requires ImageOk(m) && ValidCode(m, entry) && ValidCode(m, a) && ValidCode(m, t)
    requires IsInstruction(m, Found(m, entry), a) && StepsTo(m, a, t)
    ensures Found(m, entry).marks[t / 4] != 0
  {
    var s := Found(m, entry);
    FoundKempt(m, entry);
    assert 4 * (a / 4) == a;
    assert Edge(m, s, a / 4, t);
    assert Handled(m, s, NOWHERE, t);
  }

  ghost predicate Exact(m: Image, entry: nat, a: nat)
    requires ImageOk(m) && ValidCode(m, entry) && ValidCode(m, a)
  {
    IsInstruction(m, Found(m, entry), a) <==> Reach(m, entry, a) && m.decode[a / 4].Some?
  }

  /** Discovery marks exactly the reachable instructions exactly when no two of them overlap: in
      any overlapping pair one is lost. */
  lemma MarksExact(m: Image, entry: nat)
    requires ImageOk(m) && ValidCode(m, entry)
    ensures (forall a: nat :: ValidCode(m, a) ==> Exact(m, entry, a)) <==> NoOverlap(m, entry)
  {
    if NoOverlap(m, entry) {
      forall a: nat | ValidCode(m, a) ensures Exact(m, entry, a) { MarksAreReachable(m, entry, a); }
    } else {
      var a: nat, b: nat :| Overlapping(m, entry, a, b);
      OverlapLoses(m, entry, a, b);
    }
  }

  lemma OverlapLoses(m: Image, entry: nat, a: nat, b: nat)
    requires ImageOk(m) && ValidCode(m, entry) && Overlapping(m, entry, a, b)
    ensures !Exact(m, entry, a) || !Exact(m, entry, b)
  {
    var s := Found(m, entry);
    FoundKempt(m, entry);
    assert b / 4 == a / 4 + 1;
    if IsInstruction(m, s, a) {
      assert Wide(m, s, a / 4) && Second(m, s, a / 4 + 1);
    }
  }

  // ------------------------------------------------------------ a failing image

  // A two-word branch at 0 whose target is its own second word, where a return decodes.
  function Overlay(): (m: Image)
    ensures ImageOk(m) && ValidCode(m, 0) && ValidCode(m, 4)
  {
    Image(8, [Some(Instr(true, Branch, true, 4, false)), Some(Instr(false, Return, false, 0, false))])
  }

  lemma OverlayWalk()
    ensures Walk(Overlay(), Begin(Overlay(), 0).(cursor := 1), 0) == Scan([1, 2], [true, true], [0, 4], 1)
  {
    var m, s := Overlay(), Begin(Overlay(), 0).(cursor := 1);
    assert s.marks == [0, 0] && s.leaders == [true, false];
    var u := Mark(m, s, 0, m.decode[0].value);
    assert u.marks == [1, 2];
    assert BranchFrom(m, u, m.decode[0].value, 0) == Lead(m, u, 4);
    assert Lead(m, u, 4).leaders == [true, true];
  }

  /** The instruction at 4 is reachable and decodes, and stays marked as a second word. */
  lemma OverlayLosesAnInstruction()
    ensures Found(Overlay(), 0).marks == [1, 2]
    ensures Reach(Overlay(), 0, 4) && !Exact(Overlay(), 0, 4) && !NoOverlap(Overlay(), 0)
  {
    var m := Overlay();
    var t := Scan([1, 2], [true, true], [0, 4], 1);
    OverlayWalk();
    assert Walk(m, t.(cursor := 2), 4) == t.(cursor := 2);
    assert Discover(m, t) == Discover(m, t.(cursor := 2));
    OverlayReached(m);
    if NoOverlap(m, 0) { MarksExact(m, 0); assert Exact(m, 0, 4); }
  }

  lemma OverlayReached(m: Image)
    requires m == Overlay()
    ensures Reach(m, 0, 4)
  {
    assert ReachIn(m, 0, 0, 0);
    assert Direct(m.decode[0].value, 0, 4) && StepsTo(m, 0, 4);
    assert ReachIn(m, 0, 4, 1);
  }
}
