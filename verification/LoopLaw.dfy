/** The arithmetic of a looping stream: where the ideal looped sample is after n bytes, and
    where the walker's source and remaining fields actually are after k pages. */
module LoopLaw {
  import opened Arithmetic
  import opened Bytes

  const PAGE := 512

  // A looping sample as the key-on table gives it: first pass start and length, then the
  // loop's start and length, both 24 bits wide.
  datatype Sample = Sample(start: nat, length: nat, loopStart: nat, loopLength: nat)

  predicate Fits(x: Sample) {
    x.start + x.length < 0x1_0000_0000 && x.loopStart < 0x100_0000 && 0 < x.loopLength < 0x100_0000
  }

  // The address of byte n of the endless sample: once through, then round the loop.
  function Position(x: Sample, n: nat): nat
    requires x.loopLength > 0
  {
    if n < x.length then x.start + n else x.loopStart + (n - x.length) % x.loopLength
  }

  // One past the last address of the pass that byte n belongs to.
  function PassEnd(x: Sample, n: nat): nat {
    if n < x.length then x.start + x.length else x.loopStart + x.loopLength
  }

  datatype Cursor = Cursor(src: long, remaining: long)

  // The key-on seed: one page is copied by the key-on itself.
  function Seed(x: Sample): Cursor
    requires Fits(x)
  {
    Cursor(U32(x.start + PAGE), U32(x.length - PAGE))
  }

  // The full-page arm and the short looping arm, on the two fields they share.
  function NextPage(x: Sample, c: Cursor): Cursor {
    if c.remaining > PAGE then Cursor(U32(c.src + PAGE), c.remaining - PAGE)
    else
      var padding := PAGE - c.remaining;
      Cursor(U32(x.loopStart + padding), U32(x.loopLength - padding))
  }

  function AfterPages(x: Sample, k: nat): Cursor
    requires Fits(x) && k >= 1
  {
    if k == 1 then Seed(x) else NextPage(x, AfterPages(x, k - 1))
  }

  /** The law: after k pages the source is the ideal position of byte 512k, and source plus
      remaining is the end of the current pass. */
  predicate Law(x: Sample, k: nat, c: Cursor)
    requires x.loopLength > 0
  {
    c.src == Position(x, PAGE * k) && c.src + c.remaining == PassEnd(x, PAGE * k)
  }

  lemma ModWithin(a: nat, d: nat, l: nat)
    requires l > 0 && a % l + d < l
    ensures (a + d) % l == a % l + d
  {
    var q, r := a / l, a % l;
    assert a + d == l * q + (r + d);
    ModUnique(a + d, l, q, r + d);
  }

  lemma ModWrap(a: nat, p: nat, l: nat)
    requires p < l
    ensures (a + (l - a % l) + p) % l == p
  {
    var q, r := a / l, a % l;
    assert a + (l - r) + p == l * (q + 1) + p by { assert l * (q + 1) == l * q + l; }
    ModUnique(a + (l - r) + p, l, q + 1, p);
  }

  lemma FullPageKeepsLaw(x: Sample, k: nat, c: Cursor)
    requires Fits(x) && Law(x, k, c) && c.remaining > PAGE
    ensures Law(x, k + 1, NextPage(x, c))
  {
    var n := PAGE * k;
    assert PAGE * (k + 1) == n + PAGE;
    if n >= x.length { ModWithin(n - x.length, PAGE, x.loopLength); }
  }

  lemma ShortPageKeepsLaw(x: Sample, k: nat, c: Cursor)
    requires Fits(x) && x.loopLength >= PAGE && Law(x, k, c) && 0 < c.remaining <= PAGE
    ensures Law(x, k + 1, NextPage(x, c))
  {
    var n, padding := PAGE * k, PAGE - c.remaining;
    assert PAGE * (k + 1) == n + PAGE;
    assert Position(x, n + PAGE) == x.loopStart + padding && n + PAGE >= x.length by {
      if n < x.length {
        ModUnique(padding, x.loopLength, 0, padding);
      } else {
        assert n + PAGE - x.length == (n - x.length) + (x.loopLength - (n - x.length) % x.loopLength) + padding;
        ModWrap(n - x.length, padding, x.loopLength);
      }
    }
  }

  lemma LawLeavesSomething(x: Sample, k: nat, c: Cursor)
    requires Fits(x) && Law(x, k, c)
    ensures c.remaining > 0
  {
  }

  lemma PageKeepsLaw(x: Sample, k: nat, c: Cursor)
    requires Fits(x) && x.loopLength >= PAGE && Law(x, k, c)
    ensures Law(x, k + 1, NextPage(x, c))
  {
    LawLeavesSomething(x, k, c);
    if c.remaining > PAGE { FullPageKeepsLaw(x, k, c); } else { ShortPageKeepsLaw(x, k, c); }
  }

  lemma {:induction false} LawHolds(x: Sample, k: nat)
    requires Fits(x) && x.length > PAGE && x.loopLength >= PAGE && k >= 1
    ensures Law(x, k, AfterPages(x, k))
  {
    if k > 1 {
      LawHolds(x, k - 1);
      PageKeepsLaw(x, k - 1, AfterPages(x, k - 1));
    }
  }

  // A loop shorter than a page loses ground on every page until it no longer covers one.
  lemma {:induction false} ShortLoopDrifts(x: Sample, k: nat) returns (j: nat)
    requires Fits(x) && x.length > PAGE && x.loopLength < PAGE && k >= 1
    ensures j >= k && !Law(x, j, AfterPages(x, j))
    decreases AfterPages(x, k).remaining
  {
    var c := AfterPages(x, k);
    if !Law(x, k, c) { return k; }
    var d := AfterPages(x, k + 1);
    if !Law(x, k + 1, d) { return k + 1; }
    DriftLess(x, k);
    j := ShortLoopDrifts(x, k + 1);
  }

  lemma DriftLess(x: Sample, k: nat)
    requires Fits(x) && x.length > PAGE && x.loopLength < PAGE && k >= 1
    requires Law(x, k, AfterPages(x, k)) && Law(x, k + 1, AfterPages(x, k + 1))
    ensures AfterPages(x, k + 1).remaining < AfterPages(x, k).remaining
  {
    var c, d := AfterPages(x, k), AfterPages(x, k + 1);
    if c.remaining <= PAGE {
      assert PassEnd(x, PAGE * (k + 1)) <= x.loopStart + x.loopLength by { LastPageLeaves(x, k, c); }
      assert d.src == x.loopStart + (PAGE - c.remaining);
    }
  }

  lemma LastPageLeaves(x: Sample, k: nat, c: Cursor)
    requires Fits(x) && Law(x, k, c) && c.remaining <= PAGE
    ensures PAGE * (k + 1) >= x.length
  {
  }

  /** Exactly when the walker follows the ideal looped sample for ever: a first pass longer
      than one page and a loop of at least one page. */
  lemma LawExact(x: Sample)
    requires Fits(x)
    ensures (forall k: nat :: k >= 1 ==> Law(x, k, AfterPages(x, k)))
            <==> x.length > PAGE && x.loopLength >= PAGE
  {
    if x.length > PAGE && x.loopLength >= PAGE {
      forall k: nat | k >= 1 ensures Law(x, k, AfterPages(x, k)) { LawHolds(x, k); }
    } else if x.length > PAGE {
      var j := ShortLoopDrifts(x, 1);
    } else {
      SeedBreaks(x);
    }
  }

  lemma SeedBreaks(x: Sample)
    requires Fits(x) && x.length <= PAGE
    ensures !Law(x, 1, AfterPages(x, 1))
  {
    var c := Seed(x);
    assert AfterPages(x, 1) == c;
    if x.length < PAGE {
      assert c.remaining == 0x1_0000_0000 + x.length - PAGE;
    } else {
      assert c.remaining == 0 && PassEnd(x, PAGE) == x.loopStart + x.loopLength;
      ModUnique(0, x.loopLength, 0, 0);
    }
  }

  /** A loop of 100 bytes behind two pages: the third page starts 400 bytes off the ideal sample. */
  lemma ShortLoopFails(x: Sample)
    requires Fits(x) && x.length == 2 * PAGE && x.loopLength == 100
    ensures AfterPages(x, 3).src == x.loopStart + 412 && Position(x, 3 * PAGE) == x.loopStart + 12
    ensures !Law(x, 3, AfterPages(x, 3))
  {
    var c1, c2 := AfterPages(x, 1), AfterPages(x, 2);
    assert c1 == Seed(x) && c1.remaining == PAGE;
    assert c2 == NextPage(x, c1) && c2 == Cursor(x.loopStart, 100);
    assert AfterPages(x, 3) == NextPage(x, c2);
  }

  // ------------------------------------------------------------ pages the copy accepts

  // Every pass starts and every page ends at an even address.
  predicate Even(x: Sample) {
    x.start % 2 == 0 && x.loopLength % 2 == 0 && (x.loopStart + x.length) % 2 == 0
  }

  lemma TwiceProduct(l: nat, h: nat, q: nat)
    requires l == 2 * h
    ensures l * q == 2 * (h * q)
  {
  }

  lemma EvenApart(a: nat, b: nat, t: nat)
    requires a == 2 * t + b
    ensures a % 2 == b % 2
  {
  }

  lemma Divided(a: nat, l: nat) returns (q: nat)
    requires l > 0
    ensures a == l * q + a % l
  {
    q := a / l;
  }

  lemma EvenInLoop(start: nat, length: nat, l: nat, q: nat, d: nat, r: nat)
    requires l % 2 == 0 && d == l * q + r && (start + length) % 2 == 0 && (length + d) % 2 == 0
    ensures (start + r) % 2 == 0
  {
    var h := l / 2;
    TwiceProduct(l, h, q);
    EvenApart(d, r, h * q);
  }

  lemma EvenPosition(x: Sample, n: nat)
    requires x.loopLength > 0 && Even(x) && n % 2 == 0
    ensures Position(x, n) % 2 == 0
  {
    if n >= x.length {
      var q := Divided(n - x.length, x.loopLength);
      EvenInLoop(x.loopStart, x.length, x.loopLength, q, n - x.length, (n - x.length) % x.loopLength);
    }
  }

  // The first page that starts at a or later.
  lemma PageFrom(a: nat) returns (k: nat)
    ensures a <= PAGE * k < a + PAGE
  {
    k := (a + PAGE - 1) / PAGE;
  }

  lemma RoundOnce(x: Sample, n: nat)
    requires x.loopLength > 0 && x.length + x.loopLength <= n < x.length + 2 * x.loopLength
    ensures Position(x, n) == x.loopStart + n - x.length - x.loopLength
  {
    ModUnique(n - x.length, x.loopLength, 1, n - x.length - x.loopLength);
  }

  lemma RoundNone(x: Sample, n: nat)
    requires x.loopLength > 0 && x.length <= n < x.length + x.loopLength
    ensures Position(x, n) == x.loopStart + n - x.length
  {
    ModUnique(n - x.length, x.loopLength, 0, n - x.length);
  }

  // The positions of the second page, the first in the loop and the first in its second round.
  lemma OddShows(x: Sample) returns (k: nat)
    requires x.length > PAGE && x.loopLength >= PAGE && !Even(x)
    ensures k >= 1 && Position(x, PAGE * k) % 2 == 1
  {
    var j := PageFrom(x.length);
    var i := PageFrom(x.length + x.loopLength);
    RoundNone(x, PAGE * j);
    RoundOnce(x, PAGE * i);
    k := if x.start % 2 == 1 then 1 else if (x.loopStart + x.length) % 2 == 1 then j else i;
  }

  /** On the ideal run every page starts at an even address exactly when the sample does, its loop's
      length is even, and the loop starts as its first pass ends, even or odd. */
  lemma SourcesEvenExact(x: Sample)
    requires Fits(x) && x.length > PAGE && x.loopLength >= PAGE
    ensures (forall k: nat :: k >= 1 ==> AfterPages(x, k).src % 2 == 0) <==> Even(x)
  {
    if Even(x) {
      forall k: nat | k >= 1 ensures AfterPages(x, k).src % 2 == 0 {
        LawHolds(x, k);
        EvenPosition(x, PAGE * k);
      }
    } else {
      var k := OddShows(x);
      LawHolds(x, k);
      assert AfterPages(x, k).src % 2 == 1;
    }
  }
}
