/** The framing, scanning and drawing loops of the geometry processor, over its two polygon RAM
    banks, proved to compute the stream functions. */
module TgpOps {
  import opened Bytes
  import opened TgpStrips
  import opened TgpGeometry
  import opened Wrappers

  // The framing loop of a direct command.
  method CountDirect(words: seq<long>) returns (n: Option<nat>)
    requires |words| >= 9
    ensures n == DirectLength(words, 9)
  {
    var required := 9;
    while true
      invariant 9 <= required <= |words| && DirectLength(words, required) == DirectLength(words, 9)
      decreases |words| - required
    {
      if required == |words| { return None; }
      var attribute := words[required];
      if Ends(attribute) { return Some(required + 1); }
      if |words| - (required + 1) < 5 { return None; }
      if Quad(attribute) && |words| - (required + 6) < 3 { return None; }
      required := required + if Quad(attribute) then 9 else 6;
    }
  }

  // geometry_count_words, behind its wrapper's test of bit 31.
  method CountWords(words: seq<long>) returns (f: Framing)
    requires words != []
    ensures f == Frame(words)
  {
    if words[0] >= 0x8000_0000 { return Unframed(Unsupported); }
    var c := Class(words[0]);
    var required := 1;
    if c == 0x02 {
      if |words| < 9 { return Unframed(OutOfBounds); }
      var n := CountDirect(words);
      if n.None? { return Unframed(OutOfBounds); }
      required := n.value;
    } else if c == 0x04 || c == 0x05 || c == 0x15 || c == 0x14 || c == 0x06 {
      if |words| < 3 { return Unframed(OutOfBounds); }
      required := 3 + if c == 0x06 then 2 * words[2] as nat else words[2] as nat;
    } else {
      var fixed := FixedWords(c);
      if fixed.None? { return Unframed(Unsupported); }
      required := fixed.value;
    }
    f := if required > |words| then Unframed(OutOfBounds) else Framed(required);
  }

  lemma ScanStep(words: seq<long>, r: Report, c: nat, n: nat)
    requires words != [] && Frame(words) == Framed(n) && c == Class(words[0])
    ensures var t := Counted(r, c, n, if n >= 3 then n - 3 else 0);
            Scan(words, r) == if IsEnd(c) then Ok(t) else Scan(words[n..], t)
  {
  }

  // vf2_tgp_scan_geometry_stream
  method ScanStream(words: seq<long>) returns (r: Result<Report>)
    ensures r == Scan(words, EMPTY)
  {
    var local, rest := EMPTY, words;
    while rest != []
      invariant local.consumed + |rest| == |words| && rest == words[local.consumed..]
      invariant Scan(words, EMPTY) == Scan(rest, local)
      decreases |rest|
    {
      var f := CountWords(rest);
      if f.Unframed? { return Err(f.status); }
      var c, n := Class(rest[0]), f.words;
      ScanStep(rest, local, c, n);
      local := Counted(local, c, n, if n >= 3 then n - 3 else 0);
      if IsEnd(c) { return Ok(local); }
      rest := rest[n..];
    }
    return Ok(local);
  }

  function Prefixed(ps: seq<Polygon>, o: Outcome): Outcome { o.(drawn := ps + o.drawn) }

  lemma PrefixedThen(ps: seq<Polygon>, p: Polygon, rest: Outcome)
    ensures Prefixed(ps, Then(p, rest)) == Prefixed(ps + [p], rest)
  {
    assert ps + ([p] + rest.drawn) == ps + [p] + rest.drawn;
  }

  lemma PrefixedNone(ps: seq<Polygon>, status: Status)
    ensures Prefixed(ps, Outcome(status, [])) == Outcome(status, ps)
  {
    assert ps + [] == ps;
  }

  // A link drawn: the loop's state carries the outcome over.
  lemma LinkDrawn(paint: Polygon -> bool, s: Source, mode: long, limit: nat, k: nat, at: nat, e: Edge, l: Link,
                  drawn: seq<Polygon>)
    requires k < limit && Fetch(s, at).Some? && !Ends(Fetch(s, at).value) && ObjectLinkAt(s, mode, at) == Some(l)
    requires paint(Corners(e, l))
    ensures Prefixed(drawn, ObjectFrom(paint, s, mode, limit, k, at, e)) ==
            Prefixed(drawn + [Corners(e, l)],
                     ObjectFrom(paint, s, mode, limit, k + 1, ObjectNext(mode, l.attribute, at), NextEdge(e, l)))
  {
    PrefixedThen(drawn, Corners(e, l),
                 ObjectFrom(paint, s, mode, limit, k + 1, ObjectNext(mode, l.attribute, at), NextEdge(e, l)));
  }

  lemma LogOne(log: seq<Drawn>, s: Scene, ps: seq<Polygon>, p: Polygon)
    ensures log + LogAll(s, ps) + [Drawn(s, p)] == log + LogAll(s, ps + [p])
  {
    assert LogAll(s, ps + [p]) == LogAll(s, ps) + [Drawn(s, p)];
  }

  class Tgp {
    const ok: Renderer
    const rom: seq<long>
    const ram0: array<long>
    const ram1: array<long>
    var mode: long
    var scene: Scene
    var log: seq<Drawn>

    ghost predicate Valid()
      reads this, ram0, ram1
    {
      ram0 != ram1 && MachineOk(Now())
    }

    ghost function Now(): Machine
      reads this, ram0, ram1
    {
      Machine(ram0[..], ram1[..], rom, mode, scene, log)
    }

    constructor (ok: Renderer, rom: seq<long>)
      ensures Valid() && fresh(ram0) && fresh(ram1) && this.ok == ok && this.rom == rom && log == []
    {
      this.ok := ok;
      this.rom := rom;
      ram0 := new long[RAM](i => 0);
      ram1 := new long[RAM](i => 0);
      mode, scene, log := 0, Scene(seq(16, i => 0), (0, 0)), [];
    }

    // geometry_render_polygon, with recording in place of drawing.
    method RenderPolygon(p: Polygon) returns (done: bool)
      modifies this`log
      ensures done == ok(scene, p) && log == if done then old(log) + [Drawn(scene, p)] else old(log)
    {
      done := ok(scene, p);
      if done { log := log + [Drawn(scene, p)]; }
    }

    // geometry_execute_direct
    method ExecuteDirect(command: seq<long>) returns (status: Status)
      requires Valid() && |command| >= 9
      modifies this`log
      ensures var o := DrawDirect(ok, old(Now()), command).0;
              status == o.status && log == old(log) + LogAll(scene, o.drawn)
    {
      var e, offset := Edge(PointAt(command, 3), PointAt(command, 6)), 9;
      ghost var paint, drawn: seq<Polygon> := Under(ok, scene), [];
      ghost var whole := DirectFrom(paint, command, 9, e).0;
      while offset < |command|
        invariant 9 <= offset <= |command| && log == old(log) + LogAll(scene, drawn)
        invariant whole == Prefixed(drawn, DirectFrom(paint, command, offset, e).0)
      {
        var attribute := command[offset];
        assert drawn + [] == drawn;
        if Ends(attribute) { return Done; }
        if offset + 6 > |command| { return OutOfBounds; }
        if Quad(attribute) && offset + 9 > |command| { return OutOfBounds; }
        var l := LinkAt(command, offset);
        var done := RenderPolygon(Corners(e, l));
        if !done { return RenderFailed; }
        PrefixedThen(drawn, Corners(e, l), DirectFrom(paint, command, DirectNext(attribute, offset), NextEdge(e, l)).0);
        LogOne(old(log), scene, drawn, Corners(e, l));
        drawn := drawn + [Corners(e, l)];
        offset, e := DirectNext(attribute, offset), NextEdge(e, l);
      }
      assert drawn + [] == drawn;
      return Done;
    }

    // geometry_execute_object
    method ExecuteObject(address: long, count: long) returns (status: Status)
      requires Valid()
      modifies this`log
      ensures var o := DrawObject(ok, old(Now()), address, count);
              status == o.status && log == old(log) + LogAll(scene, o.drawn)
    {
      var s := if address / 0x80_0000 % 2 == 1 then Rom(rom, address % 0x80_0000)
               else Ram(if Bank1(address) then ram1[..] else ram0[..], address % RAM);
      assert s == SourceOf(Now(), address);
      var p0, p1 := FetchPoint(s, 0), FetchPoint(s, 3);
      if p0.None? || p1.None? {
        assert log == log + LogAll(scene, []);
        return OutOfBounds;
      }
      status := DrawLinks(s, LinkLimit(count), Edge(p0.value, p1.value));
    }

    // The link loop of geometry_execute_object.
    method DrawLinks(s: Source, limit: nat, start: Edge) returns (status: Status)
      requires Valid()
      modifies this`log
      ensures var o := ObjectFrom(Under(ok, scene), s, mode, limit, 0, 6, start);
              status == o.status && log == old(log) + LogAll(scene, o.drawn)
    {
      var e, offset, link := start, 6, 0;
      ghost var paint, drawn: seq<Polygon> := Under(ok, scene), [];
      ghost var whole := ObjectFrom(paint, s, mode, limit, 0, 6, start);
      while link < limit
        invariant link <= limit && log == old(log) + LogAll(scene, drawn)
        invariant whole == Prefixed(drawn, ObjectFrom(paint, s, mode, limit, link, offset, e))
      {
        var attribute := Fetch(s, offset);
        PrefixedNone(drawn, OutOfBounds);
        if attribute.None? { return OutOfBounds; }
        PrefixedNone(drawn, Done);
        if Ends(attribute.value) { return Done; }
        var l := ObjectLinkAt(s, mode, offset);
        if l.None? { return OutOfBounds; }
        var polygon := Corners(e, l.value);
        var done := RenderPolygon(polygon);
        PrefixedNone(drawn, RenderFailed);
        if !done { return RenderFailed; }
        LinkDrawn(paint, s, mode, limit, link, offset, e, l.value, drawn);
        LogOne(old(log), scene, drawn, polygon);
        drawn := drawn + [polygon];
        link, offset, e := link + 1, ObjectNext(mode, l.value.attribute, offset), NextEdge(e, l.value);
      }
      PrefixedNone(drawn, Done);
      return Done;
    }

    // The copy of a data command into its bank.
    method StoreData(address: long, data: seq<long>) returns (status: Status)
      requires Valid()
      modifies ram0, ram1
      ensures Valid()
      ensures LoadData(old(Now()), address, data) == Performed(Now(), status)
    {
      var index := address % RAM;
      if |data| > RAM - index { return OutOfBounds; }
      if Bank1(address) { Copy(ram1, index, data); } else { Copy(ram0, index, data); }
      return Done;
    }

    // One command already framed.
    method PerformCommand(command: seq<long>) returns (status: Status)
      requires Valid() && command != [] && Frame(command) == Framed(|command|)
      modifies this, ram0, ram1
      ensures Valid()
      ensures Perform(ok, old(Now()), command) == Performed(Now(), status)
    {
      var c := Class(command[0]);
      status := Done;
      if c == 0x01 {
        status := ExecuteObject(command[3], command[4]);
      } else if c == 0x02 {
        status := ExecuteDirect(command);
      } else if c == 0x05 || c == 0x15 {
        status := StoreData(command[1], command[3..]);
      } else if c == 0x07 {
        mode := command[1];
      } else if c == 0x09 {
        scene := scene.(focus := (command[1], command[2]));
      } else if c == 0x0b {
        scene := scene.(matrix := MatrixOf(command));
      } else if c == 0x0c {
        scene := scene.(matrix := scene.matrix[12 := command[1]][13 := command[2]][14 := command[3]]);
      }
    }

    // vf2_tgp_execute_geometry_stream
    method ExecuteStream(words: seq<long>) returns (r: Result<Report>)
      requires Valid()
      modifies this, ram0, ram1
      ensures Valid()
      ensures Execute(ok, old(Now()), words, EMPTY) == (Now(), r)
    {
      var local, rest := EMPTY, words;
      ghost var whole := Execute(ok, Now(), words, EMPTY);
      while rest != []
        invariant Valid() && whole == Execute(ok, Now(), rest, local)
        decreases |rest|
      {
        var f := CountWords(rest);
        if f.Unframed? { return Err(f.status); }
        var c, n := Class(rest[0]), f.words;
        FrameAlone(rest);
        ExecuteStep(ok, Now(), rest, local);
        var status := PerformCommand(rest[..n]);
        if !status.Done? { return Err(status); }
        local := Counted(local, c, n, if IsData(c) then rest[2] as nat else 0);
        if IsEnd(c) { return Ok(local); }
        rest := rest[n..];
      }
      return Ok(local);
    }
  }

  lemma ExecuteStep(ok: Renderer, m: Machine, words: seq<long>, r: Report)
    requires MachineOk(m) && words != [] && Frame(words).Framed?
    requires Frame(words[..Frame(words).words]) == Framed(Frame(words).words)
    ensures var n, c := Frame(words).words, Class(words[0]);
            var t := Counted(r, c, n, if IsData(c) then words[2] as nat else 0);
            var p := Perform(ok, m, words[..n]);
            Execute(ok, m, words, r) ==
            if !p.status.Done? then (p.machine, Err(p.status))
            else if IsEnd(c) then (p.machine, Ok(t)) else Execute(ok, p.machine, words[n..], t)
  {
  }

  method Copy(bank: array<long>, index: nat, data: seq<long>)
    requires index + |data| <= bank.Length
    modifies bank
    ensures bank[..] == Splice(old(bank[..]), index, data)
  {
    forall k | 0 <= k < |data| { bank[index + k] := data[k]; }
  }
}
