/** The B0/50 7F full stop: every sounding voice is stopped in table order while the ages of
    the others are swept on the fly. */
module FullStop {
  import opened Bytes
  import opened VoiceLedger
  import VT = VoiceTheory

  // A voice is counted out of $151e when it sits on channel 15 or has flag bit 4 clear.
  predicate CountedOut(x: Voice) { x.channel == 15 || !Bit(x.flags, 4) }

  function StopOne(l: Ledger, i: nat): (r: Ledger)
    requires Shape(l) && i < 32
    ensures Shape(r)
  {
    var x := l.v[i];
    if !Bit(x.flags, 6) then l
    else
      var v := l.v[i := x.(flags := 0, channel := 0)];
      var m := l.(v := v, streams := l.streams[i := 0], chip := KeyOff(l.chip, i), log := l.log + [Off(i)]);
      if CountedOut(x) then m.(v := RebalanceNormal(v, x.age), normals := U8(l.normals - 1)) else m
  }

  function StopFrom(l: Ledger, i: nat): (r: Ledger)
    requires Shape(l) && i <= 32
    ensures Shape(r)
    decreases 32 - i
  {
    if i == 32 then l else StopFrom(StopOne(l, i), i + 1)
  }

  // Normal voices at i or later in the table whose age is below a.
  function Below(v: seq<Voice>, i: nat, a: nat): (r: nat)
    requires i <= |v|
    decreases |v| - i
  {
    if i == |v| then 0
    else (if Normal(v[i]) && v[i].age < a then 1 else 0) + Below(v, i + 1, a)
  }

  // Live drums at i or later that the looping engine arm left without flag bit 4.
  function Leaks(v: seq<Voice>, i: nat): (r: nat)
    requires i <= |v|
    ensures r <= |v| - i
    ensures r == 0 <==> forall k :: i <= k < |v| && Drum(v[k]) ==> Bit(v[k].flags, 4)
    decreases |v| - i
  {
    if i == |v| then 0
    else (if Drum(v[i]) && !Bit(v[i].flags, 4) then 1 else 0) + Leaks(v, i + 1)
  }

  lemma {:induction false} BelowMonotone(v: seq<Voice>, i: nat, a: nat, b: nat)
    requires i <= |v| && a <= b
    ensures Below(v, i, a) <= Below(v, i, b)
    decreases |v| - i
  {
    if i < |v| { BelowMonotone(v, i + 1, a, b); }
  }

  lemma {:induction false} BelowNone(v: seq<Voice>, i: nat)
    requires i <= |v|
    ensures Below(v, i, 0) == 0
    decreases |v| - i
  {
    if i < |v| { BelowNone(v, i + 1); }
  }

  // Exactly one voice has age a, so counting one rank further adds one.
  lemma {:induction false} BelowStep(v: seq<Voice>, n: seq<nat>, i: nat, a: nat)
    requires RanksNormal(v, n) && i <= |v| && a < |n|
    ensures Below(v, i, a + 1) == Below(v, i, a) + (if i <= n[a] then 1 else 0)
    decreases |v| - i
  {
    if i < |v| {
      assert Normal(v[i]) && v[i].age == a <==> i == n[a];
      BelowStep(v, n, i + 1, a);
    }
  }

  /** In a ranked table as many normal voices lie below an age as the age says. */
  lemma {:induction false} BelowIsRank(v: seq<Voice>, n: seq<nat>, a: nat)
    requires RanksNormal(v, n) && a <= |n|
    ensures Below(v, 0, a) == a
  {
    if a == 0 {
      BelowNone(v, 0);
    } else {
      BelowIsRank(v, n, a - 1);
      BelowStep(v, n, 0, a - 1);
    }
  }

  // The loop invariant: l is the table before the stop, m the table with i voices done.
  ghost predicate Swept(l: Ledger, m: Ledger, i: nat)
    requires Shape(l) && Shape(m) && i <= 32
  {
    AgesSwept(l, m, i) && FlagsSwept(l, m, i) && CountSwept(l, m, i)
  }

  // Each normal voice's age is the number of normal voices below it not yet stopped.
  ghost predicate AgesSwept(l: Ledger, m: Ledger, i: nat)
    requires Shape(l) && Shape(m) && i <= 32
  {
    forall j :: 0 <= j < 32 ==> m.v[j].age == if Normal(l.v[j]) then Below(l.v, i, l.v[j].age) else l.v[j].age
  }

  ghost predicate FlagsSwept(l: Ledger, m: Ledger, i: nat)
    requires Shape(l) && Shape(m) && i <= 32
  {
    && (forall j :: i <= j < 32 ==> m.v[j].flags == l.v[j].flags && m.v[j].channel == l.v[j].channel)
    && (forall j :: 0 <= j < i ==> m.v[j].flags == 0 && m.v[j].channel == if Live(l.v[j]) then 0 else l.v[j].channel)
  }

  ghost predicate CountSwept(l: Ledger, m: Ledger, i: nat)
    requires Shape(l) && Shape(m) && i <= 32
  {
    m.normals == U8(Remaining(l, i)) && m.drums == l.drums
  }

  lemma SweptAtStart(l: Ledger)
    requires Inv(l)
    ensures Swept(l, l, 0)
  {
    var n := Play(l.log).normal;
    forall j | 0 <= j < 32 && Normal(l.v[j]) ensures l.v[j].age == Below(l.v, 0, l.v[j].age) {
      BelowIsRank(l.v, n, l.v[j].age);
    }
    BelowIsRank(l.v, n, |n|);
    BelowAll(l.v, 0, |n|);
  }

  lemma {:induction false} BelowAll(v: seq<Voice>, i: nat, c: nat)
    requires i <= |v| && c <= 255 && forall j :: 0 <= j < |v| && Normal(v[j]) ==> v[j].age < c
    ensures Below(v, i, c) == Below(v, i, 255)
    decreases |v| - i
  {
    if i < |v| { BelowAll(v, i + 1, c); }
  }

  lemma SweptAges(l: Ledger, m: Ledger, i: nat, j: nat)
    requires Inv(l) && Shape(m) && i < 32 && AgesSwept(l, m, i) && FlagsSwept(l, m, i)
    requires j < 32 && Normal(l.v[i]) && Normal(l.v[j])
    ensures StopOne(m, i).v[j].age == Below(l.v, i + 1, l.v[j].age)
  {
    assert VoiceOk(l.v[i]);
    if l.v[i].age < l.v[j].age {
      BelowMonotone(l.v, i + 1, l.v[i].age, l.v[j].age);
    } else {
      BelowMonotone(l.v, i + 1, l.v[j].age, l.v[i].age);
    }
    BelowSmall(l.v, i + 1, l.v[j].age);
    BelowSmall(l.v, i, l.v[j].age);
  }

  lemma {:induction false} BelowSmall(v: seq<Voice>, i: nat, a: nat)
    requires i <= |v|
    ensures Below(v, i, a) <= |v| - i
    decreases |v| - i
  {
    if i < |v| { BelowSmall(v, i + 1, a); }
  }

  lemma SweptStep(l: Ledger, m: Ledger, i: nat)
    requires Inv(l) && Shape(m) && i < 32 && Swept(l, m, i)
    ensures Swept(l, StopOne(m, i), i + 1)
  {
    forall j: nat | j < 32
      ensures StopOne(m, i).v[j].age == if Normal(l.v[j]) then Below(l.v, i + 1, l.v[j].age) else l.v[j].age
    {
      SweptAge(l, m, i, j);
    }
    SweptFlags(l, m, i);
    SweptCount(l, m, i);
  }

  lemma SweptFlags(l: Ledger, m: Ledger, i: nat)
    requires Inv(l) && Shape(m) && i < 32 && FlagsSwept(l, m, i)
    ensures FlagsSwept(l, StopOne(m, i), i + 1)
  {
    assert VoiceOk(l.v[i]);
  }

  lemma SweptCount(l: Ledger, m: Ledger, i: nat)
    requires Inv(l) && Shape(m) && i < 32 && FlagsSwept(l, m, i) && CountSwept(l, m, i)
    ensures CountSwept(l, StopOne(m, i), i + 1)
  {
    CountedOutMeans(l.v[i]);
    StopCounts(m, i, l.v[i]);
    var now, next := Remaining(l, i), Remaining(l, i + 1);
    U8Less(now);
    assert next == if Bit(l.v[i].flags, 6) && CountedOut(l.v[i]) then now - 1 else now;
  }

  // What is left to count out of $151e, less the drums already wrongly counted out.
  function Remaining(l: Ledger, i: nat): int
    requires Shape(l) && i <= 32
  {
    Below(l.v, i, 255) + Leaks(l.v, i) - Leaks(l.v, 0)
  }

  lemma StopCounts(m: Ledger, i: nat, x: Voice)
    requires Shape(m) && i < 32 && m.v[i].flags == x.flags && m.v[i].channel == x.channel
    ensures StopOne(m, i).normals == if Bit(x.flags, 6) && CountedOut(x) then U8(m.normals - 1) else m.normals
    ensures StopOne(m, i).drums == m.drums
  {
  }

  lemma CountedOutMeans(x: Voice)
    requires VoiceOk(x)
    ensures Live(x) <==> Bit(x.flags, 6)
    ensures Live(x) ==> (CountedOut(x) <==> Normal(x) || !Bit(x.flags, 4))
    ensures Normal(x) ==> x.age < 255
  {
  }

  lemma U8Less(z: int)
    ensures U8(U8(z) - 1) == U8(z - 1)
  {
  }

  lemma U8Negative(k: nat)
    requires k <= 32
    ensures U8(0 - k) == 0 <==> k == 0
  {
  }

  lemma SweptAge(l: Ledger, m: Ledger, i: nat, j: nat)
    requires Inv(l) && Shape(m) && i < 32 && AgesSwept(l, m, i) && FlagsSwept(l, m, i) && j < 32
    ensures StopOne(m, i).v[j].age == if Normal(l.v[j]) then Below(l.v, i + 1, l.v[j].age) else l.v[j].age
  {
    assert VoiceOk(l.v[i]) && VoiceOk(l.v[j]);
    if Normal(l.v[i]) && Normal(l.v[j]) { SweptAges(l, m, i, j); }
  }

  lemma {:induction false} StopSweeps(l: Ledger, m: Ledger, i: nat)
    requires Inv(l) && Shape(m) && i <= 32 && Swept(l, m, i)
    ensures Swept(l, StopFrom(m, i), 32)
    decreases 32 - i
  {
    if i < 32 {
      SweptStep(l, m, i);
      StopSweeps(l, StopOne(m, i), i + 1);
    }
  }

  /** Whatever the table order, 7F silences every voice, leaves every normal voice with age
      0, and ends with $151e = 0 exactly when every live drum still has flag bit 4. */
  lemma FullStopClears(l: Ledger)
    requires Inv(l)
    ensures var m := StopFrom(l, 0);
            && (forall j :: 0 <= j < 32 ==> m.v[j].flags == 0)
            && (forall j :: 0 <= j < 32 && Normal(l.v[j]) ==> m.v[j].age == 0)
            && (m.normals == 0 <==> forall j :: 0 <= j < 32 && Drum(l.v[j]) ==> Bit(l.v[j].flags, 4))
  {
    SweptAtStart(l);
    StopSweeps(l, l, 0);
    SweptAtEnd(l, StopFrom(l, 0));
  }

  lemma SweptAtEnd(l: Ledger, m: Ledger)
    requires Shape(l) && Shape(m) && Swept(l, m, 32)
    ensures forall j :: 0 <= j < 32 ==> m.v[j].flags == 0
    ensures forall j :: 0 <= j < 32 && Normal(l.v[j]) ==> m.v[j].age == 0
    ensures m.normals == 0 <==> forall j :: 0 <= j < 32 && Drum(l.v[j]) ==> Bit(l.v[j].flags, 4)
  {
    var leaks: int := Leaks(l.v, 0);
    U8Negative(leaks);
    assert m.normals == U8(0 - leaks);
  }

  // ------------------------------------------------------------ what it leaves of the ledger

  predicate Drumless(l: Ledger)
    requires Shape(l)
  {
    forall j :: 0 <= j < 32 ==> !Drum(l.v[j])
  }

  predicate Distinct(s: seq<nat>) { forall a, b :: 0 <= a < b < |s| ==> s[a] != s[b] }

  lemma DistinctCons(x: nat, s: seq<nat>)
    ensures Distinct([x] + s) <==> Distinct(s) && x !in s
  {
    var t := [x] + s;
    if Distinct(t) {
      forall a, b | 0 <= a < b < |s| ensures s[a] != s[b] { assert t[a + 1] != t[b + 1]; }
      forall b | 0 <= b < |s| ensures s[b] != x { assert t[0] != t[b + 1]; }
    }
  }

  lemma {:induction false} WithoutLeaves(s: seq<nat>, i: nat)
    requires Distinct(s)
    ensures Distinct(Without(s, i)) && forall x: nat :: x in Without(s, i) <==> x in s && x != i
  {
    if s != [] {
      assert s == [s[0]] + s[1..];
      DistinctCons(s[0], s[1..]);
      WithoutLeaves(s[1..], i);
      DistinctCons(s[0], Without(s[1..], i));
    }
  }

  // The normals not yet stopped are all that is left in the queues.
  ghost predicate QueueSwept(l: Ledger, m: Ledger, i: nat)
    requires Shape(l) && Shape(m) && i <= 32
  {
    var q := Play(m.log);
    && q.drum == [] && Distinct(q.normal)
    && forall x: nat :: x in q.normal ==> i <= x < 32 && Normal(l.v[x])
  }

  ghost predicate StreamsSwept(l: Ledger, m: Ledger, i: nat)
    requires Shape(l) && Shape(m) && i <= 32
  {
    forall j :: 0 <= j < 32 ==>
      m.v[j].slot == l.v[j].slot && (if j < i then !Bit(m.streams[j], 7) else m.streams[j] == l.streams[j])
  }

  lemma QueueStep(l: Ledger, m: Ledger, i: nat)
    requires Inv(l) && Shape(m) && i < 32 && FlagsSwept(l, m, i) && QueueSwept(l, m, i)
    ensures QueueSwept(l, StopOne(m, i), i + 1)
  {
    assert VoiceOk(l.v[i]);
    if Bit(m.v[i].flags, 6) {
      VT.PlayAppend(m.log, Off(i));
      WithoutLeaves(Play(m.log).normal, i);
    }
  }

  lemma StreamStep(l: Ledger, m: Ledger, i: nat)
    requires Inv(l) && Shape(m) && i < 32 && FlagsSwept(l, m, i) && StreamsSwept(l, m, i)
    ensures StreamsSwept(l, StopOne(m, i), i + 1)
  {
    assert VoiceOk(l.v[i]);
  }

  lemma {:induction false} StopEmpties(l: Ledger, m: Ledger, i: nat)
    requires Inv(l) && Shape(m) && i <= 32
    requires FlagsSwept(l, m, i) && QueueSwept(l, m, i) && StreamsSwept(l, m, i)
    ensures QueueSwept(l, StopFrom(m, i), 32) && StreamsSwept(l, StopFrom(m, i), 32)
    decreases 32 - i
  {
    if i < 32 {
      QueueStep(l, m, i);
      StreamStep(l, m, i);
      SweptFlags(l, m, i);
      StopEmpties(l, StopOne(m, i), i + 1);
    }
  }

  lemma NoDrumCounted(l: Ledger)
    requires Inv(l)
    ensures Drumless(l) <==> l.drums == 0
  {
    var d := Play(l.log).drum;
    if d != [] { assert Drum(l.v[d[0]]); }
  }

  lemma QueueAtStart(l: Ledger)
    requires Inv(l) && Drumless(l)
    ensures QueueSwept(l, l, 0)
  {
    var q := Play(l.log);
    NoDrumCounted(l);
    forall a, b | 0 <= a < b < |q.normal| ensures q.normal[a] != q.normal[b] {
      assert l.v[q.normal[a]].age == a && l.v[q.normal[b]].age == b;
    }
  }

  /** Exactly when the stop keeps the ledger: when no drum sounds. It neither counts a drum out of
      $152e nor clears its age. */
  lemma FullStopExact(l: Ledger)
    requires Inv(l)
    ensures Inv(StopFrom(l, 0)) <==> Drumless(l)
    ensures StopFrom(l, 0).drums == l.drums
    ensures forall j :: 0 <= j < 32 && Drum(l.v[j]) ==> StopFrom(l, 0).v[j].age == 255
  {
    var m := StopFrom(l, 0);
    forall j | 0 <= j < 32 ensures VoiceOk(l.v[j]) {}
    SweptAtStart(l);
    StopSweeps(l, l, 0);
    SweptAtEnd(l, m);
    if Drumless(l) {
      QueueAtStart(l);
      StopEmpties(l, l, 0);
      StoppedIsSound(l, m);
    } else {
      var j :| 0 <= j < 32 && Drum(l.v[j]);
      assert VoiceOk(l.v[j]);
      assert m.v[j].age == 255 && m.v[j].flags == 0 && !VoiceOk(m.v[j]);
    }
  }

  lemma NothingIn(s: seq<nat>)
    ensures s == [] <==> forall x: nat :: x !in s
  {
    if s != [] { assert s[0] in s; }
  }

  lemma StoppedIsSound(l: Ledger, m: Ledger)
    requires Inv(l) && Shape(m) && Drumless(l) && Swept(l, m, 32) && m.normals == 0
    requires QueueSwept(l, m, 32) && StreamsSwept(l, m, 32)
    ensures Inv(m)
  {
    NoDrumCounted(l);
    var q := Play(m.log);
    NothingIn(q.normal);
    forall j | 0 <= j < 32 ensures VoiceOk(m.v[j]) && m.v[j].slot == 32 * j && !Bit(m.streams[j], 7) {
      assert VoiceOk(l.v[j]);
    }
  }
}
