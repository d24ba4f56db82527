/** The ledger invariant is kept by every path, and the age bytes are the positions in the
    two key-on-ordered queues. */
module VoiceTheory {
  import opened Arithmetic
  import opened Bytes
  import opened VoiceLedger

  // ------------------------------------------------------------ queues

  lemma PlayAppend(log: seq<Event>, e: Event)
    ensures Play(log + [e]) == PlayOne(Play(log), e)
  {
    assert (log + [e])[..|log|] == log;
  }

  lemma {:induction false} WithoutMissing(s: seq<nat>, i: nat)
    requires i !in s
    ensures Without(s, i) == s
  {
    if s != [] { WithoutMissing(s[1..], i); }
  }

  lemma {:induction false} WithoutAt(s: seq<nat>, k: nat)
    requires k < |s| && forall a :: 0 <= a < k ==> s[a] != s[k]
    ensures Without(s, s[k]) == Cut(s, k)
  {
    if k > 0 { WithoutAt(s[1..], k - 1); }
  }

  lemma LastOnOther(log: seq<Event>, e: Event, i: nat)
    requires e.Off? || e.voice != i
    ensures LastOn(log + [e], i) == LastOn(log, i)
  {
    assert (log + [e])[..|log|] == log;
  }

  lemma AscendingOff(log: seq<Event>, i: nat, s: seq<nat>)
    requires Ascending(log, s)
    ensures Ascending(log + [Off(i)], s)
  {
    forall a | 0 <= a < |s| ensures LastOn(log + [Off(i)], s[a]) == LastOn(log, s[a]) {
      LastOnOther(log, Off(i), s[a]);
    }
  }

  lemma AscendingCut(log: seq<Event>, s: seq<nat>, k: nat)
    requires Ascending(log, s) && k < |s|
    ensures Ascending(log, Cut(s, k))
  {
  }

  lemma AscendingOn(log: seq<Event>, e: Event, s: seq<nat>)
    requires Ascending(log, s) && !e.Off? && e.voice !in s
    ensures Ascending(log + [e], s) && Ascending(log + [e], s + [e.voice])
  {
    forall a | 0 <= a < |s| ensures LastOn(log + [e], s[a]) == LastOn(log, s[a]) {
      LastOnOther(log, e, s[a]);
    }
  }

  // ------------------------------------------------------------ ranks under one move

  lemma CutKeepsNormal(v: seq<Voice>, n: seq<nat>, i: nat)
    requires |v| == 32 && RanksNormal(v, n) && i < 32 && Normal(v[i])
    requires |n| <= 255
    ensures RanksNormal(RebalanceNormal(v[i := v[i].(flags := 0, age := 0)], v[i].age), Cut(n, v[i].age))
  {
    var f: nat := v[i].age;
    var c := Cut(n, f);
    var w := RebalanceNormal(v[i := v[i].(flags := 0, age := 0)], f);
    forall k | 0 <= k < |c| ensures c[k] < 32 && Normal(w[c[k]]) && w[c[k]].age == k {
      var src := if k < f then k else k + 1;
      assert c[k] == n[src];
    }
    forall j | 0 <= j < 32 && Normal(w[j]) ensures w[j].age < |c| && c[w[j].age] == j {
      assert j != i && Normal(v[j]);
      assert n[v[j].age] == j;
    }
  }

  lemma CutKeepsDrum(v: seq<Voice>, d: seq<nat>, i: nat)
    requires |v| == 32 && RanksDrum(v, d) && i < 32 && Drum(v[i])
    requires forall j :: 0 <= j < 32 ==> (Drum(v[j]) <==> v[j].age == 255)
    ensures RanksDrum(RebalanceDrum(v[i := v[i].(flags := 0, age := 0, rank5 := 0)], v[i].rank5), Cut(d, v[i].rank5))
  {
    var f: nat := v[i].rank5;
    var c := Cut(d, f);
    var w := RebalanceDrum(v[i := v[i].(flags := 0, age := 0, rank5 := 0)], f);
    forall k | 0 <= k < |c| ensures c[k] < 32 && Drum(w[c[k]]) && w[c[k]].rank5 == k {
      var src := if k < f then k else k + 1;
      assert c[k] == d[src];
    }
    forall j | 0 <= j < 32 && Drum(w[j]) ensures w[j].rank5 < |c| && c[w[j].rank5] == j {
      assert j != i && Drum(v[j]);
      assert d[v[j].rank5] == j;
    }
  }

  // A move on one class leaves the other class's ranks alone.
  lemma SameNormal(v: seq<Voice>, w: seq<Voice>, n: seq<nat>)
    requires |v| == |w| && RanksNormal(v, n)
    requires forall j :: 0 <= j < |v| ==> (Normal(w[j]) <==> Normal(v[j])) && (Normal(v[j]) ==> w[j].age == v[j].age)
    ensures RanksNormal(w, n)
  {
  }

  lemma SameDrum(v: seq<Voice>, w: seq<Voice>, d: seq<nat>)
    requires |v| == |w| && RanksDrum(v, d)
    requires forall j :: 0 <= j < |v| ==> (Drum(w[j]) <==> Drum(v[j])) && (Drum(v[j]) ==> w[j].rank5 == v[j].rank5)
    ensures RanksDrum(w, d)
  {
  }

  lemma NotQueuedNormal(l: Ledger, i: nat)
    requires Inv(l) && i < 32 && !Normal(l.v[i])
    ensures i !in Play(l.log).normal
  {
  }

  lemma NotQueuedDrum(l: Ledger, i: nat)
    requires Inv(l) && i < 32 && !Drum(l.v[i])
    ensures i !in Play(l.log).drum
  {
  }

  // ------------------------------------------------------------ removal

  lemma DropNormalEach(l: Ledger, i: nat)
    requires Shape(l) && EachOk(l) && i < 32
    ensures EachOk(DropNormal(l, i))
  {
    var m := DropNormal(l, i);
    forall j | 0 <= j < 32 ensures VoiceOk(m.v[j]) && m.v[j].slot == 32 * j && (Bit(m.streams[j], 7) ==> Live(m.v[j])) {
      assert VoiceOk(l.v[j]) && l.v[j].slot == 32 * j;
    }
  }

  /** Tearing a normal voice down deletes exactly it from the normal queue. */
  lemma DropNormalKeeps(l: Ledger, i: nat)
    requires Inv(l) && i < 32 && Normal(l.v[i])
    ensures Inv(DropNormal(l, i))
    ensures Play(DropNormal(l, i).log) == Queues(Cut(Play(l.log).normal, l.v[i].age), Play(l.log).drum)
  {
    var q, m := Play(l.log), DropNormal(l, i);
    PlayAppend(l.log, Off(i));
    DropNormalEach(l, i);
    WithoutAt(q.normal, l.v[i].age);
    NotQueuedDrum(l, i);
    WithoutMissing(q.drum, i);
    CutKeepsNormal(l.v, q.normal, i);
    SameDrum(l.v, m.v, q.drum);
    AscendingCut(l.log, q.normal, l.v[i].age);
    AscendingOff(l.log, i, Cut(q.normal, l.v[i].age));
    AscendingOff(l.log, i, q.drum);
  }

  lemma DropDrumKeeps(l: Ledger, i: nat)
    requires Inv(l) && i < 32 && Drum(l.v[i])
    ensures Inv(DropDrum(l, i))
    ensures Play(DropDrum(l, i).log) == Queues(Play(l.log).normal, Cut(Play(l.log).drum, l.v[i].rank5))
  {
    var q, m := Play(l.log), DropDrum(l, i);
    DropDrumEach(l, i);
    DropDrumQueues(l, i);
    CutKeepsDrum(l.v, q.drum, i);
    SameNormal(l.v, m.v, q.normal);
    AscendingCut(l.log, q.drum, l.v[i].rank5);
    AscendingOff(l.log, i, Cut(q.drum, l.v[i].rank5));
    AscendingOff(l.log, i, q.normal);
  }

  lemma DropDrumEach(l: Ledger, i: nat)
    requires Shape(l) && EachOk(l) && i < 32
    ensures EachOk(DropDrum(l, i))
  {
    var m := DropDrum(l, i);
    forall j | 0 <= j < 32 ensures VoiceOk(m.v[j]) && m.v[j].slot == 32 * j && (Bit(m.streams[j], 7) ==> Live(m.v[j])) {
      assert VoiceOk(l.v[j]) && l.v[j].slot == 32 * j;
    }
  }

  lemma DropDrumQueues(l: Ledger, i: nat)
    requires Inv(l) && i < 32 && Drum(l.v[i])
    ensures l.v[i].rank5 < |Play(l.log).drum|
    ensures Play(DropDrum(l, i).log) == Queues(Play(l.log).normal, Cut(Play(l.log).drum, l.v[i].rank5))
  {
    var q := Play(l.log);
    PlayAppend(l.log, Off(i));
    WithoutAt(q.drum, l.v[i].rank5);
    NotQueuedNormal(l, i);
    WithoutMissing(q.normal, i);
  }

  lemma DropKeeps(l: Ledger, i: nat)
    requires Inv(l) && i < 32 && Live(l.v[i])
    ensures Inv(Drop(l, i))
  {
    if Drum(l.v[i]) { DropDrumKeeps(l, i); } else { DropNormalKeeps(l, i); }
  }

  // Changing flag bits that carry no class, or the rate, moves nothing.
  predicate SameStanding(x: Voice, y: Voice) {
    && (Live(x) <==> Live(y)) && (Drum(x) <==> Drum(y))
    && y.slot == x.slot && y.age == x.age && y.channel == x.channel
    && (Drum(x) ==> y.rank5 == x.rank5)
    && (Bit(x.flags, 6) <==> Bit(y.flags, 6)) && (Bit(y.flags, 4) ==> Bit(x.flags, 4))
  }

  lemma TouchKeeps(l: Ledger, i: nat, y: Voice)
    requires Inv(l) && i < 32 && SameStanding(l.v[i], y)
    ensures Inv(l.(v := l.v[i := y]))
  {
    var v := l.v[i := y];
    SameNormal(l.v, v, Play(l.log).normal);
    SameDrum(l.v, v, Play(l.log).drum);
  }

  // The chip's registers are no part of the invariant.
  lemma ChipKeeps(l: Ledger, c: seq<byte>)
    requires Inv(l) && |c| == CHIP_BYTES
    ensures Inv(l.(chip := c))
  {
    assert Play(l.(chip := c).log) == Play(l.log);
  }

  lemma OrStanding(x: Voice, n: nat)
    requires Live(x) && (n == 0 || n == 1)
    ensures SameStanding(x, x.(flags := Or(x.flags, n)))
  {
    SetBitBits(x.flags, n, 3);
    SetBitBits(x.flags, n, 4);
    SetBitBits(x.flags, n, 6);
  }

  lemma AndNotStanding(x: Voice, n: nat)
    requires VoiceOk(x) && (n == 4 || n == 7)
    ensures SameStanding(x, x.(flags := AndNot(x.flags, n)))
  {
    ClearBitBits(x.flags, n, 3);
    ClearBitBits(x.flags, n, 4);
    ClearBitBits(x.flags, n, 6);
  }

  lemma CountDownKeeps(l: Ledger, i: nat)
    requires Inv(l) && i < 32
    ensures Inv(CountDown(l, i))
  {
    TouchKeeps(l, i, CountDown(l, i).v[i]);
  }

  lemma DropOffKeeps(l: Ledger, i: nat, c: seq<byte>)
    requires Inv(l) && i < 32 && Live(l.v[i]) && |c| == CHIP_BYTES
    ensures Inv(Drop(l, i).(chip := c))
  {
    DropKeeps(l, i);
    ChipKeeps(Drop(l, i), c);
  }

  lemma MaintainOneKeeps(l: Ledger, i: nat)
    requires Inv(l) && i < 32
    ensures Inv(MaintainOne(l, i))
  {
    if Bit(l.v[i].flags, 0) {
      CountDownKeeps(l, i);
      if CountDown(l, i).v[i].rate == 0 { DropOffKeeps(CountDown(l, i), i, FastRelease(l.chip, i)); }
    }
  }

  lemma {:induction false} MaintainFromKeeps(l: Ledger, i: nat)
    requires Inv(l) && i <= 32
    ensures Inv(MaintainFrom(l, i))
    decreases 32 - i
  {
    if i < 32 {
      MaintainOneKeeps(l, i);
      MaintainFromKeeps(MaintainOne(l, i), i + 1);
    }
  }

  lemma MaintainKeeps(l: Ledger)
    requires Inv(l)
    ensures Inv(Maintain(l))
  {
    ChipKeeps(l, VoicePokes(l.chip));
    MaintainFromKeeps(l.(chip := VoicePokes(l.chip)), 0);
  }

  lemma Sub11d0Keeps(l: Ledger, i: nat, deferred: bool)
    requires Inv(l) && i < 32 && Live(l.v[i])
    ensures Inv(Sub11d0(l, i, deferred))
  {
    if deferred || l.v[i].rate != 0 {
      var n := if deferred then 1 else 0;
      OrStanding(l.v[i], n);
      TouchKeeps(l, i, l.v[i].(flags := Or(l.v[i].flags, n)));
      ChipKeeps(l.(v := l.v[i := l.v[i].(flags := Or(l.v[i].flags, n))]), KeyClear(l.chip, i));
    } else {
      DropOffKeeps(l, i, KeyOff(l.chip, i));
    }
  }

  lemma ReleaseOneKeeps(l: Ledger, i: nat, r: Request, deferred: bool)
    requires Inv(l) && i < 32
    ensures Inv(ReleaseOne(l, i, r, deferred))
  {
    var y := l.v[i].(flags := AndNot(l.v[i].flags, 7));
    AndNotStanding(l.v[i], 7);
    TouchKeeps(l, i, y);
    if y.flags != 0 { Sub11d0Keeps(l.(v := l.v[i := y]), i, deferred); }
  }

  lemma {:induction false} ReleaseKeeps(l: Ledger, i: nat, r: Request, deferred: bool)
    requires Inv(l) && i <= 32
    ensures Inv(ReleaseFrom(l, i, r, deferred))
    decreases 32 - i
  {
    if i < 32 {
      ReleaseOneKeeps(l, i, r, deferred);
      ReleaseKeeps(ReleaseOne(l, i, r, deferred), i + 1, r, deferred);
    }
  }

  lemma {:induction false} SetupScanKeeps(l: Ledger, i: nat)
    requires Inv(l) && i <= 32
    ensures Inv(SetupScanFrom(l, i)) && SetupScanFrom(l, i).drums == l.drums
    decreases 32 - i
  {
    if i < 32 {
      if Live(l.v[i]) && l.v[i].tag == 0xba && l.v[i].channel == 15 {
        var c := KeyClear(l.chip, i);
        DropNormalKeeps(l, i);
        ChipKeeps(DropNormal(l, i), c);
        SetupScanKeeps(DropNormal(l, i).(chip := c), i + 1);
      } else {
        SetupScanKeeps(l, i + 1);
      }
    }
  }

  // ------------------------------------------------------------ how full the queues are

  // A voice outside the normal queue leaves room for one more rank below 0xff.
  lemma RoomForOne(l: Ledger, i: nat)
    requires Inv(l) && i < 32 && !Live(l.v[i])
    ensures l.normals < 32 && l.drums < 32
  {
    var q := Play(l.log);
    NotQueuedNormal(l, i);
    NotQueuedDrum(l, i);
    Pigeonhole(q.normal + [i], 32);
    Pigeonhole(q.drum + [i], 32);
  }

  lemma BusyBoardHasNormal(l: Ledger)
    requires Inv(l) && l.drums <= 5 && forall j :: 0 <= j < 32 ==> Live(l.v[j])
    ensures l.normals > 0
  {
    var q := Play(l.log);
    if l.normals == 0 {
      assert forall j :: 0 <= j < 32 ==> !Normal(l.v[j]);
      var s: seq<nat> := seq(6, j requires 0 <= j < 6 => l.v[j].rank5);
      forall a, b | 0 <= a < b < 6 ensures s[a] != s[b] {
        assert q.drum[l.v[a].rank5] == a && q.drum[l.v[b].rank5] == b;
      }
      Pigeonhole(s, 5);
    }
  }

  // ------------------------------------------------------------ keying on

  // The ledger with voice i taken out of play.
  function Blank(l: Ledger, i: nat): (m: Ledger)
    requires Shape(l) && i < 32
    ensures Shape(m)
  {
    l.(v := l.v[i := l.v[i].(flags := 0, age := 0)], streams := l.streams[i := 0])
  }

  predicate KeyFlags(f: byte, drum: bool, high: bool) {
    f != 0 && Bit(f, 6) && (Bit(f, 3) <==> drum) && (Bit(f, 4) ==> high)
  }

  lemma HighFlags(f: byte)
    requires Bit(f, 6) && !Bit(f, 3)
    ensures KeyFlags(Or(f, 4), false, true) && KeyFlags(Or(Or(f, 4), 3), true, true)
  {
    SetBitBits(f, 4, 3);
    SetBitBits(f, 4, 6);
    SetBitBits(Or(f, 4), 3, 3);
    SetBitBits(Or(f, 4), 3, 6);
  }

  lemma TailFlags(f: byte, drum: bool, high: bool)
    requires KeyFlags(f, drum, high)
    ensures KeyFlags(AndNot(f, 4), drum, high)
  {
    ClearBitBits(f, 4, 3);
    ClearBitBits(f, 4, 4);
    ClearBitBits(f, 4, 6);
  }

  lemma AuthoredFlags(x: Voice, r: Request, normals: byte, drums: byte)
    ensures KeyFlags(AuthorVoice(x, r, normals, drums).flags, AsksForDrum(r), r.high)
  {
    assert Bit(0x40, 6) && !Bit(0x40, 3) && !Bit(0x40, 4);
    HighFlags(0x40);
  }

  lemma AuthoredVoice(x: Voice, r: Request, t: Tail, normals: byte, drums: byte)
    requires normals < 255
    ensures var y := AuthorTail(AuthorVoice(x, r, normals, drums), t);
            && VoiceOk(y) && Live(y) && y.slot == x.slot && (Drum(y) <==> AsksForDrum(r))
            && (Drum(y) ==> y.rank5 == drums) && (!Drum(y) ==> y.age == normals)
  {
    AuthoredFlags(x, r, normals, drums);
    TailFlags(AuthorVoice(x, r, normals, drums).flags, AsksForDrum(r), r.high);
  }

  /** The setup author appends its voice to the queue of its class, whatever it finds in the
      record, as long as the voice is out of play. */
  lemma AuthorKeeps(l: Ledger, i: nat, r: Request, t: Tail)
    requires Shape(l) && i < 32 && Inv(Blank(l, i))
    ensures Inv(Author(l, i, r, t))
    ensures Play(Author(l, i, r, t).log) == if AsksForDrum(r) then Play(l.log).(drum := Play(l.log).drum + [i])
                                            else Play(l.log).(normal := Play(l.log).normal + [i])
  {
    RoomForOne(Blank(l, i), i);
    PlayAppend(l.log, if AsksForDrum(r) then OnDrum(i) else OnNormal(i));
    AuthorRanked(l, i, r, t);
    AuthorEach(l, i, r, t);
  }

  function KeyedOn(q: Queues, i: nat, drum: bool): Queues {
    if drum then q.(drum := q.drum + [i]) else q.(normal := q.normal + [i])
  }

  lemma AuthorRanked(l: Ledger, i: nat, r: Request, t: Tail)
    requires Shape(l) && i < 32 && Inv(Blank(l, i)) && l.normals < 255 && l.drums < 255
    ensures Ranked(Author(l, i, r, t), KeyedOn(Play(l.log), i, AsksForDrum(r)))
  {
    AuthorOrder(l, i, r, t);
    AuthorRanks(l, i, r, t);
    AuthorCounts(l, i, r, t);
  }

  lemma AuthorCounts(l: Ledger, i: nat, r: Request, t: Tail)
    requires Shape(l) && i < 32 && l.normals < 255 && l.drums < 255
    requires |Play(l.log).normal| == l.normals && |Play(l.log).drum| == l.drums
    ensures var k, m := KeyedOn(Play(l.log), i, AsksForDrum(r)), Author(l, i, r, t);
            |k.normal| == m.normals && |k.drum| == m.drums
  {
    var m := Author(l, i, r, t);
    if AsksForDrum(r) {
      assert m.drums == l.drums + 1 && m.normals == l.normals;
    } else {
      assert m.normals == l.normals + 1 && m.drums == l.drums;
    }
  }

  // Keying on appends: the queues stay in key-on order.
  lemma AuthorOrder(l: Ledger, i: nat, r: Request, t: Tail)
    requires Shape(l) && i < 32 && Inv(Blank(l, i))
    ensures var k, m := KeyedOn(Play(l.log), i, AsksForDrum(r)), Author(l, i, r, t);
            Ascending(m.log, k.normal) && Ascending(m.log, k.drum)
  {
    var b, q := Blank(l, i), Play(l.log);
    var e := if AsksForDrum(r) then OnDrum(i) else OnNormal(i);
    NotQueuedNormal(b, i);
    NotQueuedDrum(b, i);
    AscendingOn(l.log, e, q.normal);
    AscendingOn(l.log, e, q.drum);
  }

  lemma AuthorRanks(l: Ledger, i: nat, r: Request, t: Tail)
    requires Shape(l) && i < 32 && Inv(Blank(l, i)) && l.normals < 255 && l.drums < 255
    ensures var k, m := KeyedOn(Play(l.log), i, AsksForDrum(r)), Author(l, i, r, t);
            RanksNormal(m.v, k.normal) && RanksDrum(m.v, k.drum)
  {
    var b, m, q := Blank(l, i), Author(l, i, r, t), Play(l.log);
    AuthoredVoice(l.v[i], r, t, l.normals, l.drums);
    assert forall j :: 0 <= j < 32 && j != i ==> m.v[j] == b.v[j];
    AppendedRanks(b.v, m.v, q, i, AsksForDrum(r));
  }

  lemma AuthorEach(l: Ledger, i: nat, r: Request, t: Tail)
    requires Shape(l) && i < 32 && EachOk(Blank(l, i)) && l.normals < 255
    ensures EachOk(Author(l, i, r, t))
  {
    var b, m := Blank(l, i), Author(l, i, r, t);
    AuthoredVoice(l.v[i], r, t, l.normals, l.drums);
    assert l.v[i].slot == b.v[i].slot;
    forall j | 0 <= j < 32 && j != i ensures m.v[j] == b.v[j] && m.streams[j] == b.streams[j] {}
  }

  lemma AppendedRanks(v: seq<Voice>, w: seq<Voice>, q: Queues, i: nat, drum: bool)
    requires |v| == |w| == 32 && i < 32 && !Live(v[i])
    requires RanksNormal(v, q.normal) && RanksDrum(v, q.drum)
    requires forall j :: 0 <= j < 32 && j != i ==> w[j] == v[j]
    requires Live(w[i]) && (Drum(w[i]) <==> drum)
    requires drum ==> w[i].rank5 == |q.drum|
    requires !drum ==> w[i].age == |q.normal|
    ensures RanksNormal(w, KeyedOn(q, i, drum).normal) && RanksDrum(w, KeyedOn(q, i, drum).drum)
  {
    if drum {
      var d := q.drum + [i];
      forall k | 0 <= k < |d| ensures d[k] < 32 && Drum(w[d[k]]) && w[d[k]].rank5 == k {}
      forall j | 0 <= j < 32 && Drum(w[j]) ensures w[j].rank5 < |d| && d[w[j].rank5] == j {}
    } else {
      var n := q.normal + [i];
      forall k | 0 <= k < |n| ensures n[k] < 32 && Normal(w[n[k]]) && w[n[k]].age == k {}
      forall j | 0 <= j < 32 && Normal(w[j]) ensures w[j].age < |n| && n[w[j].age] == j {}
    }
  }

  lemma IdleBlank(l: Ledger, i: nat)
    requires Inv(l) && i < 32 && !Live(l.v[i])
    ensures Inv(Blank(l, i))
  {
    assert Blank(l, i).v == l.v;
  }

  // ------------------------------------------------------------ stealing

  lemma SameNormalRank(l: Ledger, i: nat, j: nat)
    requires Inv(l) && i < 32 && j < 32 && Normal(l.v[i]) && Normal(l.v[j]) && l.v[i].age == l.v[j].age
    ensures i == j
  {
    assert Play(l.log).normal[l.v[i].age] == i;
  }

  lemma SameDrumRank(l: Ledger, i: nat, j: nat)
    requires Inv(l) && i < 32 && j < 32 && Drum(l.v[i]) && Drum(l.v[j]) && l.v[i].rank5 == l.v[j].rank5
    ensures i == j
  {
    assert Play(l.log).drum[l.v[i].rank5] == i;
  }

  /** With every voice busy the reaper's pop is an ordinary removal of the queue head. */
  lemma StealNormalIsDrop(l: Ledger, i: nat)
    requires Inv(l) && i < 32 && l.v[i].age == 0 && forall j :: 0 <= j < 32 ==> Live(l.v[j])
    ensures Blank(StealNormal(l, i), i) == DropNormal(l, i).(chip := KeyOff(l.chip, i))
    ensures Normal(l.v[i]) && Play(l.log).normal[0] == i
  {
    var a, b := Blank(StealNormal(l, i), i), DropNormal(l, i);
    assert VoiceOk(l.v[i]);
    forall j | 0 <= j < 32 ensures a.v[j] == b.v[j] {
      assert VoiceOk(l.v[j]);
      if l.v[j].age == 0 { SameNormalRank(l, i, j); }
    }
    assert a.v == b.v;
  }

  lemma StealDrumIsDrop(l: Ledger, i: nat)
    requires Inv(l) && i < 32 && l.v[i].age == 255 && l.v[i].rank5 == 0
    ensures Drum(l.v[i]) && Play(l.log).drum[0] == i
    ensures var d := DropDrum(l, i);
            Blank(StealDrum(l, i), i) == d.(v := d.v[i := d.v[i].(rank5 := 4)], chip := KeyOff(l.chip, i))
  {
    var d := DropDrum(l, i);
    var a, b := Blank(StealDrum(l, i), i), d.(v := d.v[i := d.v[i].(rank5 := 4)]);
    assert VoiceOk(l.v[i]);
    forall j | 0 <= j < 32 ensures a.v[j] == b.v[j] {
      assert VoiceOk(l.v[j]);
      if l.v[j].age == 255 && l.v[j].rank5 == 0 { SameDrumRank(l, i, j); }
    }
    assert a.v == b.v;
  }
}
