/** Discovery marks exactly the reachable instructions and is closed under direct control
    flow, as long as no reachable instruction overlaps another. */
module CfgTheory {
  import opened Cfg

  // ------------------------------------------------------------ reachability

  ghost predicate StepsTo(m: Image, a: nat, t: nat)
    requires ImageOk(m)
  {
    ValidCode(m, a) && m.decode[a / 4].Some? && Direct(m.decode[a / 4].value, a, t)
  }

  ghost predicate ReachIn(m: Image, entry: nat, a: nat, n: nat)
    requires ImageOk(m)
    decreases n
  {
    if n == 0 then a == entry else exists p: nat :: ReachIn(m, entry, p, n - 1) && StepsTo(m, p, a)
  }

  // Some chain of direct steps leads from the entry to this address.
  ghost predicate Reach(m: Image, entry: nat, a: nat)
    requires ImageOk(m)
  {
    exists n: nat :: ReachIn(m, entry, a, n)
  }

  lemma ReachEntry(m: Image, entry: nat)
    requires ImageOk(m)
    ensures Reach(m, entry, entry)
  {
    assert ReachIn(m, entry, entry, 0);
  }

  lemma ReachStep(m: Image, entry: nat, a: nat, t: nat)
    requires ImageOk(m) && Reach(m, entry, a) && StepsTo(m, a, t)
    ensures Reach(m, entry, t)
  {
    var n: nat :| ReachIn(m, entry, a, n);
    assert ReachIn(m, entry, t, n + 1);
  }

  ghost predicate Overlapping(m: Image, entry: nat, a: nat, b: nat)
    requires ImageOk(m)
  {
    && Reach(m, entry, a) && Reach(m, entry, b) && ValidCode(m, a) && ValidCode(m, b)
    && m.decode[a / 4].Some? && m.decode[a / 4].value.wide && b == a + 4 && m.decode[b / 4].Some?
  }

  // No reachable two-word instruction has another reachable instruction in its second word.
  ghost predicate NoOverlap(m: Image, entry: nat)
    requires ImageOk(m)
  {
    forall a: nat, b: nat :: !Overlapping(m, entry, a, b)
  }

  // ------------------------------------------------------------ what the marks mean

  ghost predicate Wide(m: Image, s: Scan, w: nat)
    requires ImageOk(m) && Shaped(m, s) && w < Words(m)
  {
    s.marks[w] == 1 && m.decode[w].Some? && m.decode[w].value.wide
  }

  // Named so that the invariants below are only consulted about words someone asks about.
  predicate Second(m: Image, s: Scan, w: nat)
    requires Shaped(m, s)
  {
    w < Words(m) && s.marks[w] == 2
  }

  predicate First(m: Image, s: Scan, w: nat)
    requires Shaped(m, s)
  {
    w < Words(m) && s.marks[w] == 1
  }

  ghost predicate SeenOk(m: Image, s: Scan, entry: nat)
    requires ImageOk(m) && Shaped(m, s)
  {
    forall w :: 0 <= w < Words(m) ==>
      && s.marks[w] <= 3
      && (s.marks[w] == 1 || s.marks[w] == 3 ==>
            Reach(m, entry, 4 * w) && ValidCode(m, 4 * w) && (m.decode[w].Some? <==> s.marks[w] == 1))
  }

  ghost predicate SecondsOk(m: Image, s: Scan)
    requires ImageOk(m) && Shaped(m, s)
  {
    forall w: nat :: Second(m, s, w) ==> w >= 1 && Wide(m, s, w - 1)
  }

  ghost predicate WidesOk(m: Image, s: Scan)
    requires ImageOk(m) && Shaped(m, s)
  {
    forall w: nat :: w < Words(m) - 1 && Wide(m, s, w) ==> Second(m, s, w + 1)
  }

  ghost predicate MarksOk(m: Image, s: Scan, entry: nat)
    requires ImageOk(m) && Shaped(m, s)
  {
    SeenOk(m, s, entry) && SecondsOk(m, s) && WidesOk(m, s)
  }

  ghost predicate QueueOk(m: Image, s: Scan, entry: nat)
    requires ImageOk(m) && Shaped(m, s)
  {
    && (forall k :: 0 <= k < |s.queue| ==> Reach(m, entry, s.queue[k]) && s.leaders[s.queue[k] / 4])
    && (forall w :: 0 <= w < Words(m) && s.leaders[w] ==> 4 * w in s.queue)
  }

  // The address has been seen, is about to be, or is waiting.
  ghost predicate Handled(m: Image, s: Scan, now: nat, t: nat)
    requires Shaped(m, s)
  {
    ValidCode(m, t) ==> s.marks[t / 4] != 0 || t == now || t in s.queue[s.cursor..]
  }

  // The instruction marked at word w can go directly to t.
  ghost predicate Edge(m: Image, s: Scan, w: nat, t: nat)
    requires ImageOk(m) && Shaped(m, s)
  {
    w < Words(m) && s.marks[w] == 1 && m.decode[w].Some? && Direct(m.decode[w].value, 4 * w, t)
  }

  // Every direct successor is handled and, after a branch, a leader; words in but are exempt.
  ghost predicate EdgesClosed(m: Image, s: Scan, now: nat, but: set<nat>)
    requires ImageOk(m) && Shaped(m, s)
  {
    forall w: nat, t: nat :: Edge(m, s, w, t) && w !in but ==>
      Handled(m, s, now, t) && (m.decode[w].value.flow.Branch? && ValidCode(m, t) ==> s.leaders[t / 4])
  }

  ghost predicate QueueClosed(m: Image, s: Scan, now: nat)
    requires Shaped(m, s)
  {
    forall k :: 0 <= k < s.cursor ==> Handled(m, s, now, s.queue[k])
  }

  // The instruction before it runs on into this one.
  ghost predicate RunsInto(m: Image, s: Scan, a: nat)
    requires ImageOk(m) && Shaped(m, s)
  {
    exists p: nat :: RunsFrom(m, s, p, a)
  }

  ghost predicate RunsFrom(m: Image, s: Scan, p: nat, a: nat)
    requires ImageOk(m) && Shaped(m, s)
  {
    p % 4 == 0 && IsInstruction(m, s, p) && m.decode[p / 4].Some? && Linear(m.decode[p / 4].value)
    && a == p + Size(m.decode[p / 4].value)
  }

  ghost predicate Linked(m: Image, s: Scan)
    requires ImageOk(m) && Shaped(m, s)
  {
    forall w: nat :: First(m, s, w) ==> s.leaders[w] || RunsInto(m, s, 4 * w)
  }

  // Everything holds except perhaps for the outgoing edges of the words in but.
  ghost predicate SoundBut(m: Image, s: Scan, entry: nat, now: nat, but: set<nat>)
    requires ImageOk(m) && Shaped(m, s)
  {
    && MarksOk(m, s, entry) && QueueOk(m, s, entry) && EdgesClosed(m, s, now, but)
    && QueueClosed(m, s, now) && Linked(m, s)
  }

  ghost predicate Sound(m: Image, s: Scan, entry: nat, now: nat)
    requires ImageOk(m) && Shaped(m, s)
  {
    SoundBut(m, s, entry, now, {})
  }

  // An address at which no instruction can start.
  const NOWHERE := 1

  // ------------------------------------------------------------ one step keeps them

  lemma MarkKeepsMarks(m: Image, s: Scan, entry: nat, a: nat)
    requires ImageOk(m) && Shaped(m, s) && NoOverlap(m, entry) && MarksOk(m, s, entry)
    requires ValidCode(m, a) && s.marks[a / 4] == 0 && Reach(m, entry, a) && m.decode[a / 4].Some?
    ensures MarksOk(m, Mark(m, s, a / 4, m.decode[a / 4].value), entry)
  {
    var w0, i := a / 4, m.decode[a / 4].value;
    if i.wide && w0 + 1 < Words(m) { SecondWordFree(m, s, entry, a); }
    assert 4 * w0 == a;
    MarkSeconds(m, s, entry, a);
    MarkWides(m, s, entry, a);
  }

  lemma MarkSeconds(m: Image, s: Scan, entry: nat, a: nat)
    requires ImageOk(m) && Shaped(m, s) && NoOverlap(m, entry) && MarksOk(m, s, entry)
    requires ValidCode(m, a) && s.marks[a / 4] == 0 && Reach(m, entry, a) && m.decode[a / 4].Some?
    ensures SecondsOk(m, Mark(m, s, a / 4, m.decode[a / 4].value))
  {
    var w0, i := a / 4, m.decode[a / 4].value;
    var t := Mark(m, s, w0, i);
    if i.wide && w0 + 1 < Words(m) { SecondWordFree(m, s, entry, a); }
    forall w: nat | Second(m, t, w) ensures w >= 1 && Wide(m, t, w - 1) {
      assert (i.wide && w == w0 + 1) || (Second(m, s, w) && w >= 1 && Wide(m, s, w - 1));
    }
  }

  lemma MarkWides(m: Image, s: Scan, entry: nat, a: nat)
    requires ImageOk(m) && Shaped(m, s) && NoOverlap(m, entry) && MarksOk(m, s, entry)
    requires ValidCode(m, a) && s.marks[a / 4] == 0 && Reach(m, entry, a) && m.decode[a / 4].Some?
    ensures WidesOk(m, Mark(m, s, a / 4, m.decode[a / 4].value))
  {
    var w0, i := a / 4, m.decode[a / 4].value;
    var t := Mark(m, s, w0, i);
    forall w: nat | w < Words(m) - 1 && Wide(m, t, w) ensures Second(m, t, w + 1) {
      assert w == w0 || (Wide(m, s, w) && Second(m, s, w + 1));
    }
  }

  lemma SecondWordFree(m: Image, s: Scan, entry: nat, a: nat)
    requires ImageOk(m) && Shaped(m, s) && NoOverlap(m, entry) && MarksOk(m, s, entry)
    requires ValidCode(m, a) && s.marks[a / 4] == 0 && Reach(m, entry, a)
    requires m.decode[a / 4].Some? && m.decode[a / 4].value.wide && a / 4 + 1 < Words(m)
    ensures s.marks[a / 4 + 1] == 0 || s.marks[a / 4 + 1] == 3
  {
    var w := a / 4 + 1;
    assert 4 * w == a + 4;
    assert !Overlapping(m, entry, a, 4 * w);
    assert !Wide(m, s, w - 1);
    assert !Second(m, s, w);
    assert s.marks[w] <= 3;
  }

  // ------------------------------------------------------------ leading

  lemma LeadSound(m: Image, s: Scan, entry: nat, now: nat, but: set<nat>, a: nat)
    requires ImageOk(m) && Shaped(m, s) && SoundBut(m, s, entry, now, but)
    requires ValidCode(m, a) ==> Reach(m, entry, a)
    ensures var t := Lead(m, s, a);
            && SoundBut(m, t, entry, now, but) && Handled(m, t, now, a) && t.marks == s.marks
            && (ValidCode(m, a) ==> t.leaders[a / 4])
            && Kept(m, s, t, now)
  {
    if ValidCode(m, a) {
      var t := Lead(m, s, a);
      LeadHandles(m, s, now, a);
      SameMarks(m, s, t, entry);
      LeadQueueOk(m, s, entry, a);
      LeadLinked(m, s, a);
      KeptEdges(m, s, t, now, but);
      forall k | 0 <= k < t.cursor ensures Handled(m, t, now, t.queue[k]) {
        assert t.queue[k] == s.queue[k];
      }
    }
  }

  // Nothing that was handled or led stops being so.
  ghost predicate Kept(m: Image, s: Scan, t: Scan, now: nat)
    requires Shaped(m, s) && Shaped(m, t)
  {
    && (forall w :: 0 <= w < Words(m) && s.leaders[w] ==> t.leaders[w])
    && (forall x: nat :: Handled(m, s, now, x) ==> Handled(m, t, now, x))
  }

  lemma LeadHandles(m: Image, s: Scan, now: nat, a: nat)
    requires Shaped(m, s) && ValidCode(m, a) && QueueClosed(m, s, now)
    ensures Kept(m, s, Lead(m, s, a), now) && Handled(m, Lead(m, s, a), now, a)
  {
    var t := Lead(m, s, a);
    if a in s.queue {
      QueueSplit(s, a);
      if k :| 0 <= k < s.cursor && s.queue[k] == a { assert Handled(m, s, now, s.queue[k]); }
    } else {
      assert t.queue[t.cursor..] == s.queue[s.cursor..] + [a];
    }
  }

  lemma SameMarks(m: Image, s: Scan, t: Scan, entry: nat)
    requires ImageOk(m) && Shaped(m, s) && Shaped(m, t) && t.marks == s.marks && MarksOk(m, s, entry)
    ensures MarksOk(m, t, entry)
  {
    assert forall w: nat :: w < Words(m) ==> (Wide(m, t, w) <==> Wide(m, s, w));
    assert forall w: nat :: Second(m, t, w) <==> Second(m, s, w);
  }

  lemma KeptEdges(m: Image, s: Scan, t: Scan, now: nat, but: set<nat>)
    requires ImageOk(m) && Shaped(m, s) && Shaped(m, t) && t.marks == s.marks && Kept(m, s, t, now)
    requires EdgesClosed(m, s, now, but)
    ensures EdgesClosed(m, t, now, but)
  {
    forall w: nat, x: nat | Edge(m, t, w, x) && w !in but
      ensures Handled(m, t, now, x) && (m.decode[w].value.flow.Branch? && ValidCode(m, x) ==> t.leaders[x / 4])
    {
      assert Edge(m, s, w, x);
      assert Handled(m, s, now, x);
    }
  }

  lemma QueueSplit(s: Scan, a: nat)
    requires a in s.queue && s.cursor <= |s.queue|
    ensures a in s.queue[s.cursor..] || exists k :: 0 <= k < s.cursor && s.queue[k] == a
  {
    var k :| 0 <= k < |s.queue| && s.queue[k] == a;
    if k >= s.cursor { assert s.queue[s.cursor..][k - s.cursor] == a; }
  }

  lemma LeadQueueOk(m: Image, s: Scan, entry: nat, a: nat)
    requires ImageOk(m) && Shaped(m, s) && QueueOk(m, s, entry) && ValidCode(m, a) && Reach(m, entry, a)
    ensures QueueOk(m, Lead(m, s, a), entry)
  {
    var t := Lead(m, s, a);
    forall w | 0 <= w < Words(m) && t.leaders[w] ensures 4 * w in t.queue {
      if w == a / 4 { assert 4 * w == a; assert a in t.queue; } else { assert 4 * w in s.queue; }
    }
  }

  lemma LeadLinked(m: Image, s: Scan, a: nat)
    requires ImageOk(m) && Shaped(m, s) && Linked(m, s) && ValidCode(m, a)
    ensures Linked(m, Lead(m, s, a))
  {
    var t := Lead(m, s, a);
    forall w: nat | First(m, t, w) ensures t.leaders[w] || RunsInto(m, t, 4 * w) {
      assert First(m, s, w);
      if !s.leaders[w] {
        var p: nat :| RunsFrom(m, s, p, 4 * w);
        assert RunsFrom(m, t, p, 4 * w);
      }
    }
  }

  // ------------------------------------------------------------ marking

  ghost predicate Entered(m: Image, s: Scan, a: nat)
    requires ImageOk(m) && Shaped(m, s)
  {
    ValidCode(m, a) ==> s.leaders[a / 4] || RunsInto(m, s, a)
  }

  // No mark is ever cleared.
  ghost predicate Filled(m: Image, s: Scan, t: Scan)
    requires Shaped(m, s) && Shaped(m, t)
  {
    && t.leaders == s.leaders && t.queue == s.queue && t.cursor == s.cursor
    && forall w :: 0 <= w < Words(m) && s.marks[w] != 0 ==> t.marks[w] != 0
  }

  // Nor is an instruction's mark overwritten.
  ghost predicate Grown(m: Image, s: Scan, t: Scan)
    requires Shaped(m, s) && Shaped(m, t)
  {
    Filled(m, s, t) && forall w :: 0 <= w < Words(m) && s.marks[w] == 1 ==> t.marks[w] == 1
  }

  lemma GrownLinked(m: Image, s: Scan, t: Scan, a: nat)
    requires ImageOk(m) && Shaped(m, s) && Shaped(m, t) && Grown(m, s, t)
    requires Linked(m, s) && Entered(m, s, a) && ValidCode(m, a)
    requires forall w :: 0 <= w < Words(m) && w != a / 4 && t.marks[w] == 1 ==> s.marks[w] == 1
    ensures Linked(m, t)
  {
    forall w: nat | First(m, t, w) ensures t.leaders[w] || RunsInto(m, t, 4 * w) {
      if w != a / 4 { assert First(m, s, w); }
      if !s.leaders[w] {
        if w == a / 4 { assert 4 * w == a; }
        var p: nat :| RunsFrom(m, s, p, 4 * w);
        assert RunsFrom(m, t, p, 4 * w);
      }
    }
  }

  lemma GrownClosed(m: Image, s: Scan, t: Scan, a: nat)
    requires ImageOk(m) && Shaped(m, s) && Shaped(m, t) && Filled(m, s, t) && ValidCode(m, a) && t.marks[a / 4] != 0
    requires EdgesClosed(m, s, a, {}) && QueueClosed(m, s, a)
    requires forall w :: 0 <= w < Words(m) && w != a / 4 && t.marks[w] == 1 ==> s.marks[w] == 1
    ensures EdgesClosed(m, t, NOWHERE, {a / 4}) && QueueClosed(m, t, NOWHERE)
  {
    forall w: nat, x: nat | Edge(m, t, w, x) && w !in {a / 4}
      ensures Handled(m, t, NOWHERE, x) && (m.decode[w].value.flow.Branch? && ValidCode(m, x) ==> t.leaders[x / 4])
    {
      assert Edge(m, s, w, x);
    }
    forall k | 0 <= k < t.cursor ensures Handled(m, t, NOWHERE, t.queue[k]) {
      assert Handled(m, s, a, s.queue[k]);
    }
  }

  lemma MarkGrows(m: Image, s: Scan, entry: nat, a: nat)
    requires ImageOk(m) && Shaped(m, s) && NoOverlap(m, entry) && MarksOk(m, s, entry)
    requires ValidCode(m, a) && s.marks[a / 4] == 0 && Reach(m, entry, a) && m.decode[a / 4].Some?
    ensures var t := Mark(m, s, a / 4, m.decode[a / 4].value);
            && Grown(m, s, t) && t.marks[a / 4] == 1
            && forall w :: 0 <= w < Words(m) && w != a / 4 && t.marks[w] == 1 ==> s.marks[w] == 1
  {
    if m.decode[a / 4].value.wide && a / 4 + 1 < Words(m) { SecondWordFree(m, s, entry, a); }
  }

  lemma MarkSound(m: Image, s: Scan, entry: nat, a: nat)
    requires ImageOk(m) && Shaped(m, s) && NoOverlap(m, entry) && Sound(m, s, entry, a)
    requires ValidCode(m, a) && s.marks[a / 4] == 0 && Reach(m, entry, a) && m.decode[a / 4].Some? && Entered(m, s, a)
    ensures var t := Mark(m, s, a / 4, m.decode[a / 4].value);
            SoundBut(m, t, entry, NOWHERE, {a / 4}) && t.marks[a / 4] == 1
  {
    var t := Mark(m, s, a / 4, m.decode[a / 4].value);
    MarkGrows(m, s, entry, a);
    MarkKeepsMarks(m, s, entry, a);
    GrownLinked(m, s, t, a);
    GrownClosed(m, s, t, a);
    GrownQueue(m, s, t, entry);
  }

  lemma GrownQueue(m: Image, s: Scan, t: Scan, entry: nat)
    requires ImageOk(m) && Shaped(m, s) && Shaped(m, t) && Grown(m, s, t) && QueueOk(m, s, entry)
    ensures QueueOk(m, t, entry)
  {
  }
}
