/** Polygon strips in their two encodings, inline in a direct command and in polygon memory, and
    the two decoders that must agree on them. */
module TgpStrips {
  import opened Bytes
  import opened Wrappers

  // Coordinates are opaque 32-bit words.
  datatype Point = Point(x: long, y: long, z: long)
  type Polygon = seq<Point>

  // One link of a strip; q is the fourth corner, used when the attribute asks for one.
  datatype Link = Link(attribute: long, p: Point, q: Point)
  datatype Edge = Edge(p0: Point, p1: Point)

  predicate Ends(attribute: long) { attribute as int % 4 == 0 }
  predicate Quad(attribute: long) { attribute as int % 2 == 1 }
  function Linkage(attribute: long): nat { attribute as int / 0x100 % 4 }

  function Corners(e: Edge, l: Link): Polygon {
    if Quad(l.attribute) then [e.p0, e.p1, l.p, l.q] else [e.p0, e.p1, l.p]
  }

  function Last(l: Link): Point { if Quad(l.attribute) then l.q else l.p }

  // The edge the next polygon starts from.
  function NextEdge(e: Edge, l: Link): Edge {
    match Linkage(l.attribute)
    case 1 => Edge(e.p0, l.p)
    case 3 => Edge(Last(l), e.p1)
    case _ => Edge(l.p, Last(l))
  }

  // What a strip means.
  function Polygons(e: Edge, links: seq<Link>): (ps: seq<Polygon>)
    ensures |ps| == |links|
    decreases |links|
  {
    if links == [] then [] else [Corners(e, links[0])] + Polygons(NextEdge(e, links[0]), links[1..])
  }

  datatype Status = Done | OutOfBounds | Unsupported | RenderFailed
  datatype Outcome = Outcome(status: Status, drawn: seq<Polygon>)

  // Drawing a strip with a renderer that may refuse a polygon.
  function Paint(ok: Polygon -> bool, e: Edge, links: seq<Link>): Outcome
    decreases |links|
  {
    if links == [] then Outcome(Done, [])
    else if !ok(Corners(e, links[0])) then Outcome(RenderFailed, [])
    else Then(Corners(e, links[0]), Paint(ok, NextEdge(e, links[0]), links[1..]))
  }

  function Then(p: Polygon, rest: Outcome): Outcome { rest.(drawn := [p] + rest.drawn) }

  lemma {:induction false} PaintAll(ok: Polygon -> bool, e: Edge, links: seq<Link>)
    requires forall p :: ok(p)
    ensures Paint(ok, e, links) == Outcome(Done, Polygons(e, links))
    decreases |links|
  {
    if links != [] { PaintAll(ok, NextEdge(e, links[0]), links[1..]); }
  }

  // ------------------------------------------------------------ the direct encoding

  function PointAt(words: seq<long>, at: nat): Point
    requires at + 3 <= |words|
  {
    Point(words[at], words[at + 1], words[at + 2])
  }

  // Where the next link starts: an attribute, two words unused here, and three or six more.
  function DirectNext(attribute: long, at: nat): nat { if Quad(attribute) then at + 9 else at + 6 }

  // The framing loop: the length of a direct command, read no further than its stream.
  function DirectLength(words: seq<long>, at: nat): (n: Option<nat>)
    requires at <= |words|
    ensures n.Some? ==> at < n.value <= |words|
    decreases |words| - at
  {
    if at == |words| then None
    else if Ends(words[at]) then Some(at + 1)
    else if DirectNext(words[at], at) > |words| then None
    else DirectLength(words, DirectNext(words[at], at))
  }

  function LinkAt(words: seq<long>, at: nat): Link
    requires at < |words| && DirectNext(words[at], at) <= |words|
  {
    Link(words[at], PointAt(words, at + 3), if Quad(words[at]) then PointAt(words, at + 6) else PointAt(words, at + 3))
  }

  // The drawing loop of a direct command, with its own bounds tests; the second result is where
  // it stopped.
  function DirectFrom(ok: Polygon -> bool, words: seq<long>, at: nat, e: Edge): (Outcome, nat)
    requires at <= |words|
    decreases |words| - at
  {
    if at == |words| then (Outcome(Done, []), at)
    else if Ends(words[at]) then (Outcome(Done, []), at + 1)
    else if DirectNext(words[at], at) > |words| then (Outcome(OutOfBounds, []), at)
    else
      var l := LinkAt(words, at);
      if !ok(Corners(e, l)) then (Outcome(RenderFailed, []), at)
      else
        var rest := DirectFrom(ok, words, DirectNext(words[at], at), NextEdge(e, l));
        (Then(Corners(e, l), rest.0), rest.1)
  }

  // The links a framed direct command spells.
  function DirectLinks(words: seq<long>, at: nat): seq<Link>
    requires at <= |words| && DirectLength(words, at).Some?
    decreases |words| - at
  {
    if Ends(words[at]) then [] else [LinkAt(words, at)] + DirectLinks(words, DirectNext(words[at], at))
  }

  /** A direct command of framed length is drawn as its strip, never meets the decoder's own bounds
      tests, and, unless the renderer refuses a polygon, is read to exactly its framed length. */
  lemma {:induction false} DirectDraws(ok: Polygon -> bool, words: seq<long>, at: nat, e: Edge)
    requires at <= |words| && DirectLength(words, at) == Some(|words|)
    ensures var r := DirectFrom(ok, words, at, e);
            && r.0 == Paint(ok, e, DirectLinks(words, at)) && r.0.status != OutOfBounds
            && (r.0.status.Done? ==> r.1 == |words|)
    decreases |words| - at
  {
    if !Ends(words[at]) {
      DirectDraws(ok, words, DirectNext(words[at], at), NextEdge(e, LinkAt(words, at)));
    }
  }

  // Framing does not look past the length it finds.
  lemma {:induction false} FramedAlone(words: seq<long>, at: nat, n: nat)
    requires at <= |words| && DirectLength(words, at) == Some(n)
    ensures at <= n <= |words| && DirectLength(words[..n], at) == Some(n)
    decreases |words| - at
  {
    if !Ends(words[at]) {
      FramedAlone(words, DirectNext(words[at], at), n);
    }
  }

  // ------------------------------------------------------------ the encoding in polygon memory

  // RAM ends where it ends; ROM wraps, and reads only if its size is a power of two.
  datatype Source = Ram(words: seq<long>, base: nat) | Rom(words: seq<long>, base: nat)

  predicate PowerOfTwo(n: nat) { n == 1 || (n > 1 && n % 2 == 0 && PowerOfTwo(n / 2)) }

  function Fetch(s: Source, offset: nat): Option<long> {
    match s
    case Ram(words, base) => if base + offset < |words| then Some(words[base + offset]) else None
    case Rom(words, base) => if PowerOfTwo(|words|) then Some(words[U32(base + offset) as int % |words|]) else None
  }

  function FetchPoint(s: Source, at: nat): Option<Point> {
    var x, y, z := Fetch(s, at), Fetch(s, at + 1), Fetch(s, at + 2);
    if x.Some? && y.Some? && z.Some? then Some(Point(x.value, y.value, z.value)) else None
  }

  // Below mode 2 each link carries three words the decoder skips.
  function Skipped(mode: long): nat { if mode as int % 4 < 2 then 3 else 0 }

  function ObjectNext(mode: long, attribute: long, at: nat): nat {
    at + 1 + Skipped(mode) + if Quad(attribute) then 6 else 3
  }

  function ObjectLinkAt(s: Source, mode: long, at: nat): Option<Link> {
    var attribute, skip := Fetch(s, at), FetchPoint(s, at + 1);
    if attribute.None? || (Skipped(mode) == 3 && skip.None?) then None
    else
      var from := at + 1 + Skipped(mode);
      var p := FetchPoint(s, from);
      var q := if Quad(attribute.value) then FetchPoint(s, from + 3) else p;
      if p.None? || q.None? then None else Some(Link(attribute.value, p.value, q.value))
  }

  // The drawing loop of an object, from its k-th link.
  function ObjectFrom(ok: Polygon -> bool, s: Source, mode: long, limit: nat, k: nat, at: nat, e: Edge): Outcome
    decreases limit - k
  {
    if k >= limit then Outcome(Done, [])
    else if Fetch(s, at).None? then Outcome(OutOfBounds, [])
    else if Ends(Fetch(s, at).value) then Outcome(Done, [])
    else
      var l := ObjectLinkAt(s, mode, at);
      if l.None? then Outcome(OutOfBounds, [])
      else if !ok(Corners(e, l.value)) then Outcome(RenderFailed, [])
      else Then(Corners(e, l.value),
                ObjectFrom(ok, s, mode, limit, k + 1, ObjectNext(mode, l.value.attribute, at), NextEdge(e, l.value)))
  }

  // The words at an offset spell these links and an end.
  predicate Spells(s: Source, mode: long, at: nat, links: seq<Link>)
    decreases |links|
  {
    if links == [] then Fetch(s, at).Some? && Ends(Fetch(s, at).value)
    else
      && !Ends(links[0].attribute) && ObjectLinkAt(s, mode, at) == Some(links[0])
      && Spells(s, mode, ObjectNext(mode, links[0].attribute, at), links[1..])
  }

  function Least(a: nat, b: nat): nat { if a < b then a else b }

  /** An object is drawn as the strip its memory spells, cut at the link limit. */
  lemma {:induction false} ObjectDraws(ok: Polygon -> bool, s: Source, mode: long, limit: nat, k: nat, at: nat,
                                      e: Edge, links: seq<Link>)
    requires k <= limit && Spells(s, mode, at, links)
    ensures ObjectFrom(ok, s, mode, limit, k, at, e) == Paint(ok, e, links[..Least(limit - k, |links|)])
    decreases |links|
  {
    var cut := links[..Least(limit - k, |links|)];
    if k < limit && links != [] {
      var l := links[0];
      var next := ObjectNext(mode, l.attribute, at);
      LinkFetched(s, mode, at, l);
      ObjectDraws(ok, s, mode, limit, k + 1, next, NextEdge(e, l), links[1..]);
      assert cut[1..] == links[1..][..Least(limit - k - 1, |links| - 1)];
    }
  }

  lemma LinkFetched(s: Source, mode: long, at: nat, l: Link)
    requires ObjectLinkAt(s, mode, at) == Some(l)
    ensures Fetch(s, at) == Some(l.attribute)
  {
  }

  // ------------------------------------------------------------ the two decoders

  /** For the same strip, framed inline and spelled in memory, the two decoders draw the same
      polygons exactly when the link limit does not cut it short. */
  lemma DecodersAgree(ok: Polygon -> bool, words: seq<long>, s: Source, mode: long, limit: nat, at: nat, e: Edge)
    requires forall p :: ok(p)
    requires 9 <= |words| && DirectLength(words, 9) == Some(|words|)
    requires Spells(s, mode, at, DirectLinks(words, 9))
    ensures ObjectFrom(ok, s, mode, limit, 0, at, e) == DirectFrom(ok, words, 9, e).0
            <==> |DirectLinks(words, 9)| <= limit
  {
    var links := DirectLinks(words, 9);
    var n := Least(limit, |links|);
    DirectDraws(ok, words, 9, e);
    ObjectDraws(ok, s, mode, limit, 0, at, e, links);
    PaintAll(ok, e, links);
    PaintAll(ok, e, links[..n]);
    if |links| <= limit { assert links[..n] == links; }
  }

  /** Under the limit they agree under every renderer, down to the polygon it refuses. */
  lemma DecodersAgreeUnderRefusal(ok: Polygon -> bool, words: seq<long>, s: Source, mode: long, limit: nat, at: nat,
                                  e: Edge)
    requires 9 <= |words| && DirectLength(words, 9) == Some(|words|)
    requires Spells(s, mode, at, DirectLinks(words, 9)) && |DirectLinks(words, 9)| <= limit
    ensures ObjectFrom(ok, s, mode, limit, 0, at, e) == DirectFrom(ok, words, 9, e).0
  {
    var links := DirectLinks(words, 9);
    DirectDraws(ok, words, 9, e);
    ObjectDraws(ok, s, mode, limit, 0, at, e, links);
    assert links[..Least(limit, |links|)] == links;
  }

  // ------------------------------------------------------------ writing a strip

  // A triangle's link has no fourth corner of its own.
  predicate Writable(l: Link) { !Ends(l.attribute) && (Quad(l.attribute) || l.q == l.p) }
  predicate AllWritable(links: seq<Link>) { forall k :: 0 <= k < |links| ==> Writable(links[k]) }

  function PointWords(p: Point): seq<long> { [p.x, p.y, p.z] }

  function CornerWords(l: Link): seq<long> { PointWords(l.p) + if Quad(l.attribute) then PointWords(l.q) else [] }

  function LinkWords(l: Link, unused: seq<long>): seq<long> { [l.attribute] + unused + CornerWords(l) }

  function StripWords(links: seq<Link>, unused: seq<long>): seq<long>
    decreases |links|
  {
    if links == [] then [0] else LinkWords(links[0], unused) + StripWords(links[1..], unused)
  }

  lemma WritableTail(links: seq<Link>)
    requires links != [] && AllWritable(links)
    ensures Writable(links[0]) && AllWritable(links[1..])
  {
  }

  lemma CornersRead(words: seq<long>, at: nat, l: Link)
    requires at + |CornerWords(l)| <= |words| && words[at..at + |CornerWords(l)|] == CornerWords(l)
    ensures PointAt(words, at) == l.p && (Quad(l.attribute) ==> at + 6 <= |words| && PointAt(words, at + 3) == l.q)
  {
    var c := CornerWords(l);
    assert words[at] == c[0] && words[at + 1] == c[1] && words[at + 2] == c[2];
    if Quad(l.attribute) {
      assert words[at + 3] == c[3] && words[at + 4] == c[4] && words[at + 5] == c[5];
    }
  }

  /** Every strip can be written inline: framing it gives the whole command and reading it back
      gives the strip. */
  lemma {:induction false} WrittenDirect(before: seq<long>, links: seq<Link>)
    requires AllWritable(links)
    ensures var words := before + StripWords(links, [0, 0]);
            DirectLength(words, |before|) == Some(|words|) && DirectLinks(words, |before|) == links
    decreases |links|
  {
    var words := before + StripWords(links, [0, 0]);
    if links == [] {
      assert words[|before|] == 0;
    } else {
      var l, at := links[0], |before|;
      var one := LinkWords(l, [0, 0]);
      WritableTail(links);
      assert words == (before + one) + StripWords(links[1..], [0, 0]);
      assert words[at] == l.attribute;
      assert words[at + 3..at + 3 + |CornerWords(l)|] == CornerWords(l);
      CornersRead(words, at + 3, l);
      WrittenDirect(before + one, links[1..]);
      assert DirectNext(words[at], at) == |before + one|;
      assert links == [l] + links[1..];
    }
  }

  /** Every strip can be written to polygon memory: what is written spells it. */
  lemma {:induction false} WrittenObject(mode: long, before: seq<long>, links: seq<Link>, unused: seq<long>)
    requires AllWritable(links) && |unused| == Skipped(mode)
    ensures Spells(Ram(before + StripWords(links, unused), 0), mode, |before|, links)
    decreases |links|
  {
    var words := before + StripWords(links, unused);
    if links == [] {
      assert words[|before|] == 0;
    } else {
      var l, at := links[0], |before|;
      var one, from := LinkWords(l, unused), |before| + 1 + |unused|;
      WritableTail(links);
      assert words == (before + one) + StripWords(links[1..], unused);
      assert words[at] == l.attribute;
      assert words[from..from + |CornerWords(l)|] == CornerWords(l);
      CornersRead(words, from, l);
      LinkReads(mode, words, at, l);
      WrittenObject(mode, before + one, links[1..], unused);
    }
  }

  lemma LinkReads(mode: long, words: seq<long>, at: nat, l: Link)
    requires Writable(l) && at < |words| && words[at] == l.attribute
    requires var from := at + 1 + Skipped(mode);
             && from + |CornerWords(l)| <= |words| && PointAt(words, from) == l.p
             && (Quad(l.attribute) ==> from + 6 <= |words| && PointAt(words, from + 3) == l.q)
    ensures ObjectLinkAt(Ram(words, 0), mode, at) == Some(l)
  {
  }
}
