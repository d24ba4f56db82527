/** Coverage accounting of the progress report: merging address ranges computes the measure of
    their union. */
module Coverage {
  import opened Wrappers

  datatype Range = Range(start: int, end: int)

  predicate Proper(r: Range) { r.start <= r.end }
  predicate AllProper(rs: seq<Range>) { forall k :: 0 <= k < |rs| ==> Proper(rs[k]) }

  // The addresses of a half-open range and of several.
  predicate Inside(r: Range, x: int) { r.start <= x < r.end }
  function Addresses(r: Range): set<int> { set x | r.start <= x < r.end && Inside(r, x) }

  function Union(rs: seq<Range>): set<int>
    decreases |rs|
  {
    if rs == [] then {} else Union(rs[..|rs| - 1]) + Addresses(rs[|rs| - 1])
  }

  function Total(rs: seq<Range>): int
    decreases |rs|
  {
    if rs == [] then 0 else Total(rs[..|rs| - 1]) + (rs[|rs| - 1].end - rs[|rs| - 1].start)
  }

  // Python's order on pairs.
  predicate Before(a: Range, b: Range) { a.start < b.start || (a.start == b.start && a.end <= b.end) }

  predicate Ordered(rs: seq<Range>) { forall j, k :: 0 <= j < k < |rs| ==> Before(rs[j], rs[k]) }

  function Insert(rs: seq<Range>, r: Range): (s: seq<Range>)
    ensures |s| == |rs| + 1
    decreases |rs|
  {
    if rs == [] || Before(rs[|rs| - 1], r) then rs + [r] else Insert(rs[..|rs| - 1], r) + [rs[|rs| - 1]]
  }

  function Sorted(rs: seq<Range>): (s: seq<Range>)
    ensures |s| == |rs|
    decreases |rs|
  {
    if rs == [] then [] else Insert(Sorted(rs[..|rs| - 1]), rs[|rs| - 1])
  }

  // One step of merge_ranges.
  function Absorb(merged: seq<Range>, r: Range): seq<Range> {
    if merged == [] || r.start > merged[|merged| - 1].end then merged + [r]
    else if r.end > merged[|merged| - 1].end then
      merged[..|merged| - 1] + [merged[|merged| - 1].(end := r.end)]
    else merged
  }

  function MergeSorted(rs: seq<Range>): seq<Range>
    decreases |rs|
  {
    if rs == [] then [] else Absorb(MergeSorted(rs[..|rs| - 1]), rs[|rs| - 1])
  }

  function Merge(rs: seq<Range>): seq<Range> { MergeSorted(Sorted(rs)) }

  function RangeBytes(rs: seq<Range>): int { Total(Merge(rs)) }

  // ------------------------------------------------------------ membership

  lemma {:induction false} InUnion(rs: seq<Range>, x: int)
    ensures x in Union(rs) <==> exists k :: 0 <= k < |rs| && x in Addresses(rs[k])
    decreases |rs|
  {
    if rs != [] {
      var n := |rs| - 1;
      InUnion(rs[..n], x);
      if x in Union(rs) {
        if x in Union(rs[..n]) {
          var k :| 0 <= k < n && x in Addresses(rs[..n][k]);
          assert x in Addresses(rs[k]);
        } else {
          assert x in Addresses(rs[n]);
        }
      }
      if k :| 0 <= k < |rs| && x in Addresses(rs[k]) {
        if k < n { assert x in Addresses(rs[..n][k]); }
      }
    }
  }

  lemma {:induction false} InsertUnion(rs: seq<Range>, r: Range)
    ensures Union(Insert(rs, r)) == Union(rs) + Addresses(r)
    decreases |rs|
  {
    if rs == [] || Before(rs[|rs| - 1], r) {
      assert (rs + [r])[..|rs|] == rs;
    } else {
      var n := |rs| - 1;
      InsertUnion(rs[..n], r);
      assert (Insert(rs[..n], r) + [rs[n]])[..n + 1] == Insert(rs[..n], r);
    }
  }

  lemma {:induction false} SortedUnion(rs: seq<Range>)
    ensures Union(Sorted(rs)) == Union(rs)
    decreases |rs|
  {
    if rs != [] {
      SortedUnion(rs[..|rs| - 1]);
      InsertUnion(Sorted(rs[..|rs| - 1]), rs[|rs| - 1]);
    }
  }

  lemma {:induction false} InsertOrdered(rs: seq<Range>, r: Range)
    requires Ordered(rs)
    ensures Ordered(Insert(rs, r)) && multiset(Insert(rs, r)) == multiset(rs) + multiset{r}
    decreases |rs|
  {
    if rs != [] && !Before(rs[|rs| - 1], r) {
      var n := |rs| - 1;
      InsertOrdered(rs[..n], r);
      assert rs == rs[..n] + [rs[n]];
      var s := Insert(rs[..n], r);
      forall j | 0 <= j < |s| ensures Before(s[j], rs[n]) {
        assert s[j] in multiset(s);
        assert s[j] in rs[..n] || s[j] == r;
      }
    }
  }

  lemma {:induction false} SortedOrdered(rs: seq<Range>)
    ensures Ordered(Sorted(rs)) && multiset(Sorted(rs)) == multiset(rs)
    decreases |rs|
  {
    if rs != [] {
      SortedOrdered(rs[..|rs| - 1]);
      InsertOrdered(Sorted(rs[..|rs| - 1]), rs[|rs| - 1]);
      assert rs == rs[..|rs| - 1] + [rs[|rs| - 1]];
    }
  }

  lemma SortedProper(rs: seq<Range>)
    requires AllProper(rs)
    ensures AllProper(Sorted(rs))
  {
    SortedOrdered(rs);
    forall k | 0 <= k < |rs| ensures Proper(Sorted(rs)[k]) {
      assert Sorted(rs)[k] in multiset(Sorted(rs));
      assert Sorted(rs)[k] in rs;
    }
  }

  // ------------------------------------------------------------ merged ranges stand apart

  predicate Apart(m: seq<Range>) {
    AllProper(m) && forall j, k :: 0 <= j < k < |m| ==> m[j].end < m[k].start
  }

  // Merging keeps the union, and the last merged range starts no later than any range to come.
  lemma {:induction false} MergeKeeps(rs: seq<Range>)
    requires Ordered(rs) && AllProper(rs)
    ensures var m := MergeSorted(rs);
            && Union(m) == Union(rs) && Apart(m)
            && (rs != [] ==> m != [] && m[|m| - 1].start <= rs[|rs| - 1].start)
    decreases |rs|
  {
    if rs != [] {
      var n := |rs| - 1;
      MergeKeeps(rs[..n]);
      var m, r := MergeSorted(rs[..n]), rs[n];
      if n > 0 { assert Before(rs[n - 1], r); }
      AbsorbKeeps(m, r);
    }
  }

  lemma AbsorbKeeps(m: seq<Range>, r: Range)
    requires Apart(m) && Proper(r) && (m != [] ==> m[|m| - 1].start <= r.start)
    ensures var t := Absorb(m, r);
            Union(t) == Union(m) + Addresses(r) && Apart(t) && t != [] && t[|t| - 1].start <= r.start
  {
    var t, n := Absorb(m, r), |m| - 1;
    if m == [] || r.start > m[n].end {
      assert t[..|t| - 1] == m;
    } else if r.end > m[n].end {
      assert t[..|t| - 1] == m[..n];
      assert Addresses(t[n]) == Addresses(m[n]) + Addresses(r);
    } else {
      assert Addresses(r) <= Addresses(m[n]);
    }
  }

  // ------------------------------------------------------------ measure

  lemma {:induction false} Measure(r: Range)
    requires Proper(r)
    ensures |Addresses(r)| == r.end - r.start
    decreases r.end - r.start
  {
    if r.start < r.end {
      var s := r.(end := r.end - 1);
      Measure(s);
      assert Addresses(r) == Addresses(s) + {r.end - 1};
    } else {
      assert Addresses(r) == {};
    }
  }

  predicate Meet(a: Range, b: Range) { Addresses(a) * Addresses(b) != {} }

  predicate Disjoint(rs: seq<Range>) { forall j, k :: 0 <= j < k < |rs| ==> !Meet(rs[j], rs[k]) }

  lemma SumOfSets(a: set<int>, b: set<int>)
    ensures |a + b| == |a| + |b| - |a * b|
  {
    assert a + b == a + (b - a);
    assert b == (b - a) + (a * b);
  }

  /** The sizes of ranges add up to at least the measure of their union, and to exactly that when
      no two of them overlap. */
  lemma {:induction false} TotalExact(rs: seq<Range>)
    requires AllProper(rs)
    ensures Total(rs) >= |Union(rs)| && (Total(rs) == |Union(rs)| <==> Disjoint(rs))
    decreases |rs|
  {
    if rs != [] {
      var n := |rs| - 1;
      TotalExact(rs[..n]);
      Measure(rs[n]);
      SumOfSets(Union(rs[..n]), Addresses(rs[n]));
      LastApart(rs);
      DisjointSplits(rs);
    }
  }

  predicate LastMeetsNone(rs: seq<Range>)
    requires rs != []
  {
    forall j :: 0 <= j < |rs| - 1 ==> !Meet(rs[j], rs[|rs| - 1])
  }

  lemma DisjointSplits(rs: seq<Range>)
    requires rs != []
    ensures Disjoint(rs) <==> Disjoint(rs[..|rs| - 1]) && LastMeetsNone(rs)
  {
    var n := |rs| - 1;
    if Disjoint(rs[..n]) && LastMeetsNone(rs) {
      forall j, k | 0 <= j < k < |rs| ensures !Meet(rs[j], rs[k]) {
        if k < n { assert rs[..n][j] == rs[j] && rs[..n][k] == rs[k]; }
      }
    }
  }

  lemma LastApart(rs: seq<Range>)
    requires rs != []
    ensures |Union(rs[..|rs| - 1]) * Addresses(rs[|rs| - 1])| == 0 <==> LastMeetsNone(rs)
  {
    var n := |rs| - 1;
    var both := Union(rs[..n]) * Addresses(rs[n]);
    if LastMeetsNone(rs) {
      forall x ensures x !in both {
        InUnion(rs[..n], x);
        if x in Union(rs[..n]) {
          var j :| 0 <= j < n && x in Addresses(rs[..n][j]);
          assert !Meet(rs[j], rs[n]);
          assert x !in Addresses(rs[j]) * Addresses(rs[n]);
        }
      }
      assert both == {};
    } else {
      var j :| 0 <= j < n && Meet(rs[j], rs[n]);
      var x :| x in Addresses(rs[j]) * Addresses(rs[n]);
      assert x in Addresses(rs[..n][j]);
      InUnion(rs[..n], x);
      assert x in both;
    }
  }

  lemma ApartDisjoint(m: seq<Range>)
    requires Apart(m)
    ensures Disjoint(m)
  {
    forall j, k | 0 <= j < k < |m| ensures !Meet(m[j], m[k]) {
      assert m[j].end < m[k].start;
    }
  }

  /** range_bytes is the number of addresses that lie in at least one of the ranges. */
  lemma RangeBytesIsMeasure(rs: seq<Range>)
    requires AllProper(rs)
    ensures RangeBytes(rs) == |Union(rs)| && Apart(Merge(rs)) && Union(Merge(rs)) == Union(rs)
  {
    SortedOrdered(rs);
    SortedProper(rs);
    SortedUnion(rs);
    MergeKeeps(Sorted(rs));
    ApartDisjoint(Merge(rs));
    TotalExact(Merge(rs));
  }

  // ------------------------------------------------------------ the report

  // A row of the function table; a blank end is None.
  datatype Row = Row(status: string, address: int, end: Option<int>)

  const FULL: set<string> := {"recovered", "recovered-rom-anchor"}
  const OPEN: set<string> := {"candidate"}

  predicate Counts(r: Row) { r.status in FULL + OPEN && r.end.Some? && r.address < r.end.value }
  predicate Complete(r: Row) { r.status in FULL }

  function RangeOf(r: Row): Range
    requires Counts(r)
  {
    Range(r.address, r.end.value)
  }

  function Tracked(rows: seq<Row>): (rs: seq<Range>)
    ensures AllProper(rs)
    decreases |rows|
  {
    if rows == [] then []
    else
      var rest, r := Tracked(rows[..|rows| - 1]), rows[|rows| - 1];
      if Counts(r) then rest + [RangeOf(r)] else rest
  }

  function Recovered(rows: seq<Row>): (rs: seq<Range>)
    ensures AllProper(rs)
    decreases |rows|
  {
    if rows == [] then []
    else
      var rest, r := Recovered(rows[..|rows| - 1]), rows[|rows| - 1];
      if Counts(r) && Complete(r) then rest + [RangeOf(r)] else rest
  }

  lemma {:induction false} RecoveredWithin(rows: seq<Row>)
    ensures Union(Recovered(rows)) <= Union(Tracked(rows))
    decreases |rows|
  {
    if rows != [] {
      var n, r := |rows| - 1, rows[|rows| - 1];
      RecoveredWithin(rows[..n]);
      if Counts(r) {
        UnionGrows(Tracked(rows[..n]), RangeOf(r));
        UnionGrows(Recovered(rows[..n]), RangeOf(r));
      }
    }
  }

  lemma UnionGrows(rs: seq<Range>, r: Range)
    ensures Union(rs + [r]) == Union(rs) + Addresses(r)
  {
    assert (rs + [r])[..|rs|] == rs;
  }

  lemma SubsetMeasure(a: set<int>, b: set<int>)
    requires a <= b
    ensures |a| <= |b|
  {
    assert b == a + (b - a);
  }

  /** Recovered coverage never exceeds tracked coverage, whatever the table holds: the second half
      of the report's error test cannot be what raises it. */
  lemma RecoveredBelowTracked(rows: seq<Row>)
    ensures 0 <= RangeBytes(Recovered(rows)) <= RangeBytes(Tracked(rows))
  {
    RangeBytesIsMeasure(Recovered(rows));
    RangeBytesIsMeasure(Tracked(rows));
    RecoveredWithin(rows);
    SubsetMeasure(Union(Recovered(rows)), Union(Tracked(rows)));
  }

  // ------------------------------------------------------------ the loops

  method MergeRanges(ranges: seq<Range>) returns (merged: seq<Range>)
    ensures merged == Merge(ranges)
  {
    var s := Sorted(ranges);
    merged := [];
    for k := 0 to |s|
      invariant merged == MergeSorted(s[..k])
    {
      assert s[..k + 1][..k] == s[..k];
      var r, last := s[k], |merged| - 1;
      if merged == [] || r.start > merged[last].end {
        merged := merged + [r];
      } else if r.end > merged[last].end {
        merged := merged[..last] + [merged[last].(end := r.end)];
      }
    }
    assert s[..|s|] == s;
  }

  method CountBytes(ranges: seq<Range>) returns (bytes: int)
    requires AllProper(ranges)
    ensures bytes == |Union(ranges)|
  {
    RangeBytesIsMeasure(ranges);
    var m := MergeRanges(ranges);
    bytes := 0;
    for k := 0 to |m|
      invariant bytes == Total(m[..k])
    {
      assert m[..k + 1][..k] == m[..k];
      bytes := bytes + (m[k].end - m[k].start);
    }
    assert m[..|m|] == m;
  }

  // A unit of the report: its size and how much of it is recovered.
  datatype Unit = Unit(totalCode: int, matchedCode: int)

  function Units(rows: seq<Row>): seq<Unit>
    decreases |rows|
  {
    if rows == [] then []
    else
      var rest, r := Units(rows[..|rows| - 1]), rows[|rows| - 1];
      if !Counts(r) then rest
      else
        var size := r.end.value - r.address;
        rest + [Unit(size, if Complete(r) then size else 0)]
  }

  method LoadUnits(rows: seq<Row>) returns (units: seq<Unit>, recovered: seq<Range>, tracked: seq<Range>)
    ensures units == Units(rows) && recovered == Recovered(rows) && tracked == Tracked(rows)
  {
    units, recovered, tracked := [], [], [];
    for k := 0 to |rows|
      invariant units == Units(rows[..k]) && recovered == Recovered(rows[..k]) && tracked == Tracked(rows[..k])
    {
      assert rows[..k + 1][..k] == rows[..k];
      var row := rows[k];
      if row.status in FULL + OPEN && row.end.Some? && row.address < row.end.value {
        var size, complete := row.end.value - row.address, row.status in FULL;
        tracked := tracked + [Range(row.address, row.end.value)];
        if complete { recovered := recovered + [Range(row.address, row.end.value)]; }
        units := units + [Unit(size, if complete then size else 0)];
      }
    }
    assert rows[..|rows|] == rows;
  }

  datatype Report = Exceeds | Report(totalCode: int, matchedCode: int, units: seq<Unit>)

  /** build_report fails exactly when the tracked addresses outnumber the program's bytes; otherwise
      its matched figure is the number of recovered addresses and never above the total. */
  method BuildReport(rows: seq<Row>, programBytes: nat) returns (r: Report)
    ensures r.Exceeds? <==> |Union(Tracked(rows))| > programBytes
    ensures r.Report? ==>
              && r.totalCode == programBytes && r.matchedCode == |Union(Recovered(rows))| <= r.totalCode
              && r.units == Units(rows) + [Unit(programBytes - |Union(Tracked(rows))|, 0)]
  {
    var units, recovered, tracked := LoadUnits(rows);
    var recoveredBytes := CountBytes(recovered);
    var trackedBytes := CountBytes(tracked);
    RecoveredWithin(rows);
    SubsetMeasure(Union(recovered), Union(tracked));
    if trackedBytes > programBytes || recoveredBytes > trackedBytes { return Exceeds; }
    var remaining := programBytes - trackedBytes;
    return Report(programBytes, recoveredBytes, units + [Unit(remaining, 0)]);
  }

  function CodeOf(units: seq<Unit>): int
    decreases |units|
  {
    if units == [] then 0 else CodeOf(units[..|units| - 1]) + units[|units| - 1].totalCode
  }

  lemma {:induction false} UnitsTotal(rows: seq<Row>)
    ensures CodeOf(Units(rows)) == Total(Tracked(rows))
    decreases |rows|
  {
    if rows != [] { UnitsTotal(rows[..|rows| - 1]); }
  }

  /** The unit sizes of a report, which the category figures add up, reach at least the program's
      total, and exactly it when no two counted functions overlap. */
  lemma UnitsCoverExactly(rows: seq<Row>, programBytes: nat)
    ensures var all := Units(rows) + [Unit(programBytes - |Union(Tracked(rows))|, 0)];
            CodeOf(all) >= programBytes && (CodeOf(all) == programBytes <==> Disjoint(Tracked(rows)))
  {
    var units := Units(rows);
    var all := units + [Unit(programBytes - |Union(Tracked(rows))|, 0)];
    assert all[..|units|] == units;
    UnitsTotal(rows);
    TotalExact(Tracked(rows));
  }
}
