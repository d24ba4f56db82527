/** The 4 KiB command ring: its abstract queue, the stores its three producers and one
    consumer make in sound RAM, and the FIFO law over every interleaving. */
module Ring {
  import opened Arithmetic
  import opened Bytes
  import opened SoundBoard

  const RING := 0x1000
  const WRITE_CURSOR := 0x2504
  const COUNT := 0x2506
  const READ_CURSOR := 0x2508
  const CURRENT := 0x250e

  // ------------------------------------------------------------ the queue in the ring

  datatype Ring = Ring(bytes: seq<byte>, w: nat, r: nat, count: byte)

  predicate Sound(q: Ring) {
    && |q.bytes| == 4096 && q.w < 4096 && q.r < 4096 && q.r % 4 == 0 && q.w % 4 == 0
    && q.w == At(q.r, q.count)
  }

  // The cursor k slots after r.
  function At(r: nat, k: nat): (c: nat)
    ensures c < 4096
  {
    if k == 0 then r % 4096 else (At(r, k - 1) + 4) % 4096
  }

  lemma {:induction false} AtClosed(r: nat, k: nat)
    ensures At(r, k) == (r + 4 * k) % 4096
  {
    if k > 0 {
      AtClosed(r, k - 1);
      ModAdds(r + 4 * (k - 1), 4);
    }
  }

  /** The write cursor is the read cursor plus four times the count, round the ring. */
  lemma CursorLaw(q: Ring)
    requires Sound(q)
    ensures q.w == (q.r + 4 * q.count) % 4096
  {
    AtClosed(q.r, q.count);
  }

  lemma {:induction false} AtFits(r: nat, k: nat)
    requires r % 4 == 0
    ensures At(r, k) % 4 == 0 && At(r, k) + 4 <= 4096
  {
    if k == 0 {
      SlotFits(r);
    } else {
      AtFits(r, k - 1);
      SlotFits(At(r, k - 1) + 4);
    }
  }

  lemma {:induction false} AtNext(r: nat, k: nat)
    ensures At((r + 4) % 4096, k) == At(r, k + 1)
  {
    if k == 0 { ModAdds(r, 4); } else { AtNext(r, k - 1); }
  }

  lemma ModAdds(a: nat, b: nat)
    ensures (a % 4096 + b) % 4096 == (a + b) % 4096
  {
    var m := a / 4096;
    assert a == 4096 * m + a % 4096;
    ModUnique(a + b, 4096, m + (a % 4096 + b) / 4096, (a % 4096 + b) % 4096);
  }

  lemma SlotFits(c: nat)
    requires c % 4 == 0
    ensures c % 4096 % 4 == 0 && c % 4096 + 4 <= 4096
  {
    var n := c / 4096;
    assert c % 4096 == c - 4096 * n;
  }

  function Slot(q: Ring, k: nat): seq<byte>
    requires Sound(q)
  {
    AtFits(q.r, k);
    q.bytes[At(q.r, k)..At(q.r, k) + 4]
  }

  // The packets filed and not yet retired, oldest first.
  function Pending(q: Ring): (p: seq<seq<byte>>)
    requires Sound(q)
    ensures |p| == q.count
  {
    seq(q.count, k requires 0 <= k < q.count => Slot(q, k))
  }

  function Push(q: Ring, p: seq<byte>): Ring
    requires Sound(q) && |p| == 4
  {
    Ring(q.bytes[..q.w] + p + q.bytes[q.w + 4..], (q.w + 4) % 4096, q.r, Inc(q.count))
  }

  function Pop(q: Ring): Ring
    requires Sound(q)
  {
    Ring(q.bytes, q.w, (q.r + 4) % 4096, Dec(q.count))
  }

  lemma SlotsApart(r: nat, j: nat, k: nat)
    requires r < 4096 && r % 4 == 0 && j < k < 1024
    ensures At(r, j) + 4 <= At(r, k) || At(r, k) + 4 <= At(r, j)
  {
    AtClosed(r, j);
    AtClosed(r, k);
    ApartClosed(r, j, k);
  }

  lemma ApartClosed(r: nat, j: nat, k: nat)
    requires r < 4096 && r % 4 == 0 && j < k < 1024
    ensures var a, b := (r + 4 * j) % 4096, (r + 4 * k) % 4096; a + 4 <= b || b + 4 <= a
  {
  }

  lemma Splice(b: seq<byte>, w: nat, p: seq<byte>, c: nat)
    requires |b| == 4096 && |p| == 4 && w + 4 <= 4096 && c + 4 <= 4096
    ensures var t := b[..w] + p + b[w + 4..];
            |t| == 4096 && t[w..w + 4] == p && (c + 4 <= w || w + 4 <= c ==> t[c..c + 4] == b[c..c + 4])
  {
  }

  lemma PushSound(q: Ring, p: seq<byte>)
    requires Sound(q) && |p| == 4 && q.count < 255
    ensures Sound(Push(q, p))
  {
    AtFits(q.r, q.count + 1);
    Splice(q.bytes, q.w, p, 0);
  }

  /** Filing below 255 appends exactly one packet and overwrites no pending one. */
  lemma PushAppends(q: Ring, p: seq<byte>)
    requires Sound(q) && |p| == 4 && q.count < 255
    ensures Sound(Push(q, p)) && Pending(Push(q, p)) == Pending(q) + [p]
  {
    PushSound(q, p);
    var n := Push(q, p);
    forall k | 0 <= k < q.count ensures Slot(n, k) == Slot(q, k) {
      AtFits(q.r, k);
      SlotsApart(q.r, k, q.count);
      Splice(q.bytes, q.w, p, At(q.r, k));
    }
    Splice(q.bytes, q.w, p, 0);
    assert Slot(n, q.count) == p;
  }

  /** At 255 the byte-sized count wraps to 0 and every pending packet is lost. */
  lemma PushOverruns(q: Ring, p: seq<byte>)
    requires Sound(q) && |p| == 4 && q.count == 255
    ensures Push(q, p).count == 0 && !Sound(Push(q, p))
  {
    var n := Push(q, p);
    assert n.w == At(q.r, 256);
    HalfTurn(q.r);
  }

  lemma HalfTurn(r: nat)
    requires r < 4096
    ensures At(r, 256) != At(r, 0)
  {
    AtClosed(r, 256);
  }

  lemma PopSound(q: Ring)
    requires Sound(q) && q.count > 0
    ensures Sound(Pop(q))
  {
    SlotFits(q.r + 4);
    AtNext(q.r, q.count - 1);
  }

  lemma PopRemoves(q: Ring)
    requires Sound(q) && q.count > 0
    ensures Sound(Pop(q)) && Pending(q) == [Slot(q, 0)] + Pending(Pop(q))
  {
    PopSound(q);
    var n := Pop(q);
    forall k | 0 <= k < n.count ensures Slot(n, k) == Slot(q, k + 1) { AtNext(q.r, k); }
  }

  // ------------------------------------------------------------ the ring in RAM

  function RingOf(s: seq<byte>): Ring
    requires |s| == RAM_BYTES
  {
    Ring(s[RING..RING + 4096], Be16(s, WRITE_CURSOR) % 4096, Be16(s, READ_CURSOR) % 4096, s[COUNT])
  }

  // The bytes the ring is made of; every other store leaves RingOf alone.
  predicate RingByte(a: nat) {
    RING <= a < RING + 4096 || WRITE_CURSOR <= a <= COUNT || READ_CURSOR <= a < READ_CURSOR + 2
  }

  lemma ElsewhereKeepsRing(s: seq<byte>, a: nat, x: byte)
    requires |s| == RAM_BYTES && a < RAM_BYTES && !RingByte(a)
    ensures RingOf(s[a := x]) == RingOf(s)
  {
  }

  // Store a packet's bytes from a cursor on.
  function PutSlot(s: seq<byte>, c: nat, p: seq<byte>): (t: seq<byte>)
    requires |s| == RAM_BYTES && c < 4096 && |p| <= 4
    ensures |t| == RAM_BYTES
  {
    s[..RING + c] + p + s[RING + c + |p|..]
  }

  function PutWrite(s: seq<byte>, w: nat, n: byte): (t: seq<byte>)
    requires |s| == RAM_BYTES && w < 4096
    ensures |t| == RAM_BYTES
  {
    PutBe16(s, WRITE_CURSOR, w)[COUNT := n]
  }

  // The same with every index masked to the ring, as emit_command stores its four bytes.
  function PutWrapped(s: seq<byte>, c: nat, p: seq<byte>): (t: seq<byte>)
    requires |s| == RAM_BYTES && c < 4096 && |p| <= 4
    ensures |t| == RAM_BYTES
  {
    if p == [] then s else PutWrapped(s, c, p[..|p| - 1])[RING + (c + |p| - 1) % 4096 := p[|p| - 1]]
  }

  // A slot that does not reach past the ring's end is stored alike.
  lemma {:induction false} PutWrappedFits(s: seq<byte>, c: nat, p: seq<byte>)
    requires |s| == RAM_BYTES && c + 4 <= 4096 && |p| <= 4
    ensures PutWrapped(s, c, p) == PutSlot(s, c, p)
  {
    if p == [] {
      assert PutSlot(s, c, p) == s;
    } else {
      var n := |p| - 1;
      PutWrappedFits(s, c, p[..n]);
      assert PutSlot(s, c, p[..n])[RING + c + n := p[n]] == PutSlot(s, c, p);
    }
  }

  // One packet filed at the write cursor: a packet shorter than four bytes leaves the rest
  // of the slot as it was.
  function Filed(s: seq<byte>, p: seq<byte>): (t: seq<byte>)
    requires |s| == RAM_BYTES && |p| <= 4
    ensures |t| == RAM_BYTES
  {
    var w := Be16(s, WRITE_CURSOR) % 4096;
    PutWrite(PutSlot(s, w, p), (w + 4) % 4096, Inc(s[COUNT]))
  }

  // The four bytes the slot holds once p is in it.
  function Padded(s: seq<byte>, p: seq<byte>): (f: seq<byte>)
    requires |s| == RAM_BYTES && |p| <= 4 && Sound(RingOf(s))
    ensures |f| == 4 && f[..|p|] == p
  {
    var w := RingOf(s).w;
    p + s[RING + w + |p|..RING + w + 4]
  }

  lemma FiledPushes(s: seq<byte>, p: seq<byte>)
    requires |s| == RAM_BYTES && |p| <= 4 && Sound(RingOf(s))
    ensures RingOf(Filed(s, p)) == Push(RingOf(s), Padded(s, p))
  {
    var q, w := RingOf(s), RingOf(s).w;
    var t := PutSlot(s, w, p);
    assert t[RING..RING + w] == q.bytes[..w];
    assert t[RING + w..RING + w + 4] == Padded(s, p);
    assert t[RING + w + 4..RING + 4096] == q.bytes[w + 4..];
    assert t[RING..RING + 4096] == t[RING..RING + w] + t[RING + w..RING + w + 4] + t[RING + w + 4..RING + 4096];
    PutGet16(t, WRITE_CURSOR, (w + 4) % 4096);
    assert Filed(s, p)[RING..RING + 4096] == t[RING..RING + 4096];
  }
}
