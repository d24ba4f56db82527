/** Geometry streams: framing, the scanner that only counts, and the executor that must count the
    same. */
module TgpGeometry {
  import opened Bytes
  import opened TgpStrips
  import opened Wrappers

  function Class(w: long): nat { w as int / 0x80_0000 % 0x20 }

  datatype Framing = Framed(words: nat) | Unframed(status: Status)

  predicate IsData(c: nat) { c == 0x05 || c == 0x15 }
  predicate IsEnd(c: nat) { c == 0x0f || c == 0x1f }

  // Words of the commands whose length is fixed.
  function FixedWords(c: nat): Option<nat> {
    if c == 0x00 || IsEnd(c) then Some(1)
    else if c == 0x07 || c == 0x08 || c == 0x10 || 0x16 <= c <= 0x1c then Some(2)
    else if c == 0x09 || c == 0x0d then Some(3)
    else if c == 0x0a || c == 0x0c then Some(4)
    else if c == 0x01 then Some(5)
    else if c == 0x03 then Some(7)
    else if c == 0x0b then Some(13)
    else None
  }

  // Words each counted item takes, for the commands with a count in their third word.
  function ItemWords(c: nat): Option<nat> {
    if c == 0x04 || IsData(c) || c == 0x14 then Some(1) else if c == 0x06 then Some(2) else None
  }

  function Fit(n: nat, words: seq<long>): Framing { if n <= |words| then Framed(n) else Unframed(OutOfBounds) }

  // vf2_tgp_geometry_command_words on a non-empty stream.
  function Frame(words: seq<long>): (f: Framing)
    requires words != []
    ensures f.Framed? ==> 1 <= f.words <= |words|
  {
    var c := Class(words[0]);
    if words[0] as int >= 0x8000_0000 then Unframed(Unsupported)
    else if FixedWords(c).Some? then Fit(FixedWords(c).value, words)
    else if ItemWords(c).Some? then
      if |words| < 3 then Unframed(OutOfBounds) else Fit(3 + ItemWords(c).value * words[2] as nat, words)
    else if c == 0x02 then
      if |words| < 9 then Unframed(OutOfBounds)
      else match DirectLength(words, 9) case None => Unframed(OutOfBounds) case Some(n) => Framed(n)
    else Unframed(Unsupported)
  }

  // ------------------------------------------------------------ the scanner

  datatype Report = Report(consumed: nat, commands: nat, objects: nat, directs: nat,
                           dataCommands: nat, dataWords: nat, longest: nat, ended: bool)

  const EMPTY := Report(0, 0, 0, 0, 0, 0, 0, false)

  function Counted(r: Report, c: nat, n: nat, data: nat): Report {
    Report(r.consumed + n, r.commands + 1,
           r.objects + (if c == 0x01 then 1 else 0), r.directs + (if c == 0x02 then 1 else 0),
           r.dataCommands + (if IsData(c) then 1 else 0), r.dataWords + (if IsData(c) then data else 0),
           if n > r.longest then n else r.longest, r.ended || IsEnd(c))
  }

  datatype Result<T> = Ok(value: T) | Err(status: Status)

  function Scan(words: seq<long>, r: Report): Result<Report>
    decreases |words|
  {
    if words == [] then Ok(r)
    else
      match Frame(words)
      case Unframed(status) => Err(status)
      case Framed(n) =>
        var c := Class(words[0]);
        var t := Counted(r, c, n, if n >= 3 then n - 3 else 0);
        if IsEnd(c) then Ok(t) else Scan(words[n..], t)
  }

  // ------------------------------------------------------------ the executor

  const RAM := 0x8000

  // A polygon together with what it is transformed by.
  datatype Scene = Scene(matrix: seq<long>, focus: (long, long))
  datatype Drawn = Drawn(scene: Scene, polygon: Polygon)

  // log: every polygon drawn so far.
  datatype Machine = Machine(ram0: seq<long>, ram1: seq<long>, rom: seq<long>, mode: long, scene: Scene,
                             log: seq<Drawn>)

  predicate MachineOk(m: Machine) { |m.ram0| == |m.ram1| == RAM && |m.scene.matrix| == 16 }

  type Renderer = (Scene, Polygon) -> bool

  function Under(ok: Renderer, s: Scene): Polygon -> bool { p => ok(s, p) }

  function LogAll(s: Scene, ps: seq<Polygon>): seq<Drawn> { seq(|ps|, k requires 0 <= k < |ps| => Drawn(s, ps[k])) }

  // The second bank is chosen by bit 24 of an address.
  predicate Bank1(address: long) { address as int / 0x100_0000 % 2 == 1 }

  function Bank(m: Machine, address: long): seq<long> { if Bank1(address) then m.ram1 else m.ram0 }

  function SourceOf(m: Machine, address: long): Source {
    if address as int / 0x80_0000 % 2 == 1 then Rom(m.rom, address as int % 0x80_0000)
    else Ram(Bank(m, address), address as int % RAM)
  }

  function LinkLimit(count: long): nat { if count == 0 then 0xf_ffff else count as nat }

  function DrawObject(ok: Renderer, m: Machine, address: long, count: long): Outcome {
    var s := SourceOf(m, address);
    var p0, p1 := FetchPoint(s, 0), FetchPoint(s, 3);
    if p0.None? || p1.None? then Outcome(OutOfBounds, [])
    else ObjectFrom(Under(ok, m.scene), s, m.mode, LinkLimit(count), 0, 6, Edge(p0.value, p1.value))
  }

  function DrawDirect(ok: Renderer, m: Machine, command: seq<long>): (Outcome, nat)
    requires |command| >= 9
  {
    DirectFrom(Under(ok, m.scene), command, 9, Edge(PointAt(command, 3), PointAt(command, 6)))
  }

  // What a command leaves, also when it fails: polygons drawn before a failure stay drawn.
  datatype Performed = Performed(machine: Machine, status: Status)

  function Finish(m: Machine, o: Outcome): Performed {
    Performed(m.(log := m.log + LogAll(m.scene, o.drawn)), o.status)
  }

  predicate DataFits(address: long, count: nat) { count <= RAM - address as int % RAM }

  function Splice(ram: seq<long>, index: nat, data: seq<long>): (r: seq<long>)
    requires index + |data| <= |ram|
    ensures |r| == |ram|
  {
    ram[..index] + data + ram[index + |data|..]
  }

  function LoadData(m: Machine, address: long, data: seq<long>): Performed
    requires MachineOk(m)
  {
    var index := address as int % RAM;
    if !DataFits(address, |data|) then Performed(m, OutOfBounds)
    else if Bank1(address) then Performed(m.(ram1 := Splice(m.ram1, index, data)), Done)
    else Performed(m.(ram0 := Splice(m.ram0, index, data)), Done)
  }

  // geometry_write_matrix; the last row is 0, 0, 0 and the float 1.
  function MatrixOf(w: seq<long>): (x: seq<long>)
    requires |w| == 13
    ensures |x| == 16
  {
    [w[1], w[2], w[3], 0, w[4], w[5], w[6], 0, w[7], w[8], w[9], 0, w[10], w[11], w[12], 0x3f80_0000]
  }

  // One framed command.
  function Perform(ok: Renderer, m: Machine, command: seq<long>): (r: Performed)
    requires MachineOk(m) && command != [] && Frame(command) == Framed(|command|)
    ensures MachineOk(r.machine)
  {
    var c := Class(command[0]);
    if c == 0x01 then Finish(m, DrawObject(ok, m, command[3], command[4]))
    else if c == 0x02 then Finish(m, DrawDirect(ok, m, command).0)
    else if IsData(c) then LoadData(m, command[1], command[3..])
    else if c == 0x07 then Performed(m.(mode := command[1]), Done)
    else if c == 0x09 then Performed(m.(scene := m.scene.(focus := (command[1], command[2]))), Done)
    else if c == 0x0b then Performed(m.(scene := m.scene.(matrix := MatrixOf(command))), Done)
    else if c == 0x0c then
      var matrix := m.scene.matrix[12 := command[1]][13 := command[2]][14 := command[3]];
      Performed(m.(scene := m.scene.(matrix := matrix)), Done)
    else Performed(m, Done)
  }

  lemma FrameAlone(words: seq<long>)
    requires words != [] && Frame(words).Framed?
    ensures var n := Frame(words).words; Frame(words[..n]) == Framed(n)
  {
    if Class(words[0]) == 0x02 && |words| >= 9 && DirectLength(words, 9).Some? {
      FramedAlone(words, 9, DirectLength(words, 9).value);
    }
  }

  // The machine the stream leaves, and its report or the status of the command that failed.
  function Execute(ok: Renderer, m: Machine, words: seq<long>, r: Report): (Machine, Result<Report>)
    requires MachineOk(m)
    decreases |words|
  {
    if words == [] then (m, Ok(r))
    else
      match Frame(words)
      case Unframed(status) => (m, Err(status))
      case Framed(n) =>
        var c := Class(words[0]);
        FrameAlone(words);
        var p := Perform(ok, m, words[..n]);
        if !p.status.Done? then (p.machine, Err(p.status))
        else
          var t := Counted(r, c, n, if IsData(c) then words[2] as nat else 0);
          if IsEnd(c) then (p.machine, Ok(t)) else Execute(ok, p.machine, words[n..], t)
  }

  // The scanner's n - 3 is the executor's count.
  lemma SameCount(words: seq<long>, r: Report)
    requires words != [] && Frame(words).Framed?
    ensures var n, c := Frame(words).words, Class(words[0]);
            Counted(r, c, n, if n >= 3 then n - 3 else 0) == Counted(r, c, n, if IsData(c) then words[2] as nat else 0)
  {
  }

  /** Whenever execution succeeds the scanner succeeds with the same report: the same words
      consumed, commands, object, direct and data totals, longest command and end flag. */
  lemma {:induction false} ExecuteIsScanned(ok: Renderer, m: Machine, words: seq<long>, r: Report)
    requires MachineOk(m) && Execute(ok, m, words, r).1.Ok?
    ensures Scan(words, r) == Execute(ok, m, words, r).1
    decreases |words|
  {
    if words != [] {
      var n, c := Frame(words).words, Class(words[0]);
      FrameAlone(words);
      SameCount(words, r);
      var m' := Perform(ok, m, words[..n]).machine;
      if !IsEnd(c) {
        ExecuteIsScanned(ok, m', words[n..], Counted(r, c, n, if IsData(c) then words[2] as nat else 0));
      }
    }
  }

  // Every data command stays inside polygon RAM.
  predicate DataStays(words: seq<long>)
    decreases |words|
  {
    words == [] || Frame(words).Unframed? ||
    var n, c := Frame(words).words, Class(words[0]);
    && (IsData(c) ==> DataFits(words[1], words[2] as nat))
    && (IsEnd(c) || DataStays(words[n..]))
  }

  predicate NoObjects(words: seq<long>)
    decreases |words|
  {
    words == [] || Frame(words).Unframed? ||
    (Class(words[0]) != 0x01 && (IsEnd(Class(words[0])) || NoObjects(words[Frame(words).words..])))
  }

  ghost predicate AlwaysDraws(ok: Renderer) { forall s, p {:trigger ok(s, p)} :: ok(s, p) }

  lemma DirectPerforms(ok: Renderer, m: Machine, command: seq<long>)
    requires AlwaysDraws(ok) && |command| >= 9 && DirectLength(command, 9) == Some(|command|)
    ensures DrawDirect(ok, m, command).0.status.Done?
  {
    var e := Edge(PointAt(command, 3), PointAt(command, 6));
    DirectDraws(Under(ok, m.scene), command, 9, e);
    PaintAll(Under(ok, m.scene), e, DirectLinks(command, 9));
  }

  lemma TamePerforms(ok: Renderer, m: Machine, command: seq<long>)
    requires MachineOk(m) && AlwaysDraws(ok) && command != [] && Frame(command) == Framed(|command|)
    requires Class(command[0]) != 0x01
    ensures Perform(ok, m, command).status.Done? <==>
              (IsData(Class(command[0])) ==> DataFits(command[1], command[2] as nat))
  {
    if Class(command[0]) == 0x02 { DirectPerforms(ok, m, command); }
  }

  /** Without object commands and with a renderer that refuses nothing, a stream that scans executes
      exactly when its data commands stay inside polygon RAM: nothing in a direct command can fail. */
  lemma {:induction false} TameExecutes(ok: Renderer, m: Machine, words: seq<long>, r: Report)
    requires MachineOk(m) && AlwaysDraws(ok) && Scan(words, r).Ok? && NoObjects(words)
    ensures Execute(ok, m, words, r).1.Ok? <==> DataStays(words)
    decreases |words|
  {
    if words != [] {
      var n, c := Frame(words).words, Class(words[0]);
      FrameAlone(words);
      SameCount(words, r);
      TamePerforms(ok, m, words[..n]);
      var p := Perform(ok, m, words[..n]);
      if !IsEnd(c) && p.status.Done? {
        TameExecutes(ok, p.machine, words[n..], Counted(r, c, n, if IsData(c) then words[2] as nat else 0));
      }
    }
  }

  // ------------------------------------------------------------ upload, then draw

  // Where s can be read, t reads the same.
  ghost predicate Covers(s: Source, t: Source) {
    forall o: nat {:trigger Fetch(s, o)} :: Fetch(s, o).Some? ==> Fetch(t, o) == Fetch(s, o)
  }

  lemma CoversPoint(s: Source, t: Source, at: nat)
    requires Covers(s, t) && FetchPoint(s, at).Some?
    ensures FetchPoint(t, at) == FetchPoint(s, at)
  {
  }

  lemma CoversLink(s: Source, t: Source, mode: long, at: nat)
    requires Covers(s, t) && ObjectLinkAt(s, mode, at).Some?
    ensures ObjectLinkAt(t, mode, at) == ObjectLinkAt(s, mode, at)
  {
    var from := at + 1 + Skipped(mode);
    if Skipped(mode) == 3 { CoversPoint(s, t, at + 1); }
    CoversPoint(s, t, from);
    if Quad(Fetch(s, at).value) { CoversPoint(s, t, from + 3); }
  }

  lemma {:induction false} CoversSpelling(s: Source, t: Source, mode: long, at: nat, links: seq<Link>)
    requires Covers(s, t) && Spells(s, mode, at, links)
    ensures Spells(t, mode, at, links)
    decreases |links|
  {
    if links != [] {
      CoversLink(s, t, mode, at);
      CoversSpelling(s, t, mode, ObjectNext(mode, links[0].attribute, at), links[1..]);
    }
  }

  lemma LoadedCovers(m: Machine, address: long, data: seq<long>, at: long)
    requires MachineOk(m) && DataFits(address, |data|)
    requires at as int % RAM == address as int % RAM && (Bank1(at) <==> Bank1(address))
    requires at as int / 0x80_0000 % 2 == 0
    ensures Covers(Ram(data, 0), SourceOf(LoadData(m, address, data).machine, at))
  {
    var index, before := address as int % RAM, Bank(m, address);
    var ram := Splice(before, index, data);
    assert forall o :: 0 <= o < |data| ==> ram[index + o] == data[o];
  }

  // The strip a block of words holds when it starts an object.
  predicate Holds(data: seq<long>, mode: long, e: Edge, links: seq<Link>) {
    var s := Ram(data, 0);
    FetchPoint(s, 0) == Some(e.p0) && FetchPoint(s, 3) == Some(e.p1) && Spells(s, mode, 6, links)
  }

  /** An object command aimed at a strip that a data command has just loaded draws exactly what a
      direct command carrying that strip inline draws, whatever was in polygon RAM before. */
  lemma UploadThenDraw(ok: Renderer, m: Machine, upload: seq<long>, drawing: seq<long>, direct: seq<long>)
    requires MachineOk(m) && upload != [] && drawing != [] && direct != []
    requires Frame(upload) == Framed(|upload|) && IsData(Class(upload[0])) && DataFits(upload[1], |upload| - 3)
    requires Frame(drawing) == Framed(|drawing|) && Class(drawing[0]) == 0x01
    requires Frame(direct) == Framed(|direct|) && Class(direct[0]) == 0x02
    requires drawing[3] as int % RAM == upload[1] as int % RAM && (Bank1(drawing[3]) <==> Bank1(upload[1]))
    requires drawing[3] as int / 0x80_0000 % 2 == 0
    requires Holds(upload[3..], m.mode, Edge(PointAt(direct, 3), PointAt(direct, 6)), DirectLinks(direct, 9))
    requires |DirectLinks(direct, 9)| <= LinkLimit(drawing[4])
    ensures var loaded := Perform(ok, m, upload).machine;
            Perform(ok, loaded, drawing) == Perform(ok, loaded, direct)
  {
    var loaded := LoadData(m, upload[1], upload[3..]).machine;
    var s, t := Ram(upload[3..], 0), SourceOf(loaded, drawing[3]);
    var e, links := Edge(PointAt(direct, 3), PointAt(direct, 6)), DirectLinks(direct, 9);
    LoadedCovers(m, upload[1], upload[3..], drawing[3]);
    CoversHolds(s, t, m.mode, e, links);
    DecodersAgreeUnderRefusal(Under(ok, m.scene), direct, t, m.mode, LinkLimit(drawing[4]), 6, e);
  }

  lemma CoversHolds(s: Source, t: Source, mode: long, e: Edge, links: seq<Link>)
    requires Covers(s, t)
    requires FetchPoint(s, 0) == Some(e.p0) && FetchPoint(s, 3) == Some(e.p1) && Spells(s, mode, 6, links)
    ensures FetchPoint(t, 0) == Some(e.p0) && FetchPoint(t, 3) == Some(e.p1) && Spells(t, mode, 6, links)
  {
    CoversPoint(s, t, 0);
    CoversPoint(s, t, 3);
    CoversSpelling(s, t, mode, 6, links);
  }
}
