/** The geometry processor's self-describing command stream as a parser and printer pair. */
module TgpCommands {
  import opened Bytes

  // The measured payload words of each opcode; -1 where none was measured. The parser is stated
  // for any such table.
  type Table = seq<int>

  const FIRMWARE: Table := [
    0, 0, 0, 0, -1, 0, 3, 3, -1, -1, -1, 12, 0, 0, 3, 0,
    -1, 9, 0, 2, 2, 2, 2, 1, 1, -1, 1, -1, -1, -1, -1, -1,
    -1, 1, 1, -1, 2, 2, 1, 2, -1, 3, -1, 4, 6, 2, -1, 4,
    3, 4, 6, -1, 1, 2, 2, 2, 1, 3, 0, 5, -1, 6, 5, 3,
    -1, 0, 0, 1, 1, 1, 1, -1, -1, -1, 1, -1, -1, -1, -1, -1,
    -1, -1, -1, -1, 9, 9, 0, 0, -1, 4, 2, 3, 6, -1, 4, -1,
    -1, -1, 9, 7, -1, -1, -1, 1, -1, 2, 3, 17, 0, 0, 0, 0]

  function PayloadWords(t: Table, opcode: nat): int { if opcode < |t| then t[opcode] else -1 }

  function OpcodeOf(w: long): nat { w as int / 0x80_0000 % 0x80 }

  // The opcode in bits 23-29, again in bits 8-14 and in bits 0-6.
  function Header(opcode: nat): long
    requires opcode < 0x80
  {
    opcode * 0x80_0000 + opcode * 0x100 + opcode
  }

  predicate IsHeader(w: long) { w == Header(OpcodeOf(w)) }

  lemma HeaderReads(opcode: nat)
    requires opcode < 0x80
    ensures OpcodeOf(Header(opcode)) == opcode && IsHeader(Header(opcode))
  {
  }

  datatype Packet = Packet(opcode: nat, payload: seq<long>)

  datatype Step = Stop | Take(packet: Packet, words: nat)

  // The words before the next header.
  function Span(s: seq<long>): (n: nat)
    ensures n <= |s|
    decreases |s|
  {
    if s == [] || IsHeader(s[0]) then 0 else 1 + Span(s[1..])
  }

  // One command at the front of a stream.
  function First(t: Table, s: seq<long>): (r: Step)
    ensures r.Take? ==> 1 <= r.words <= |s|
  {
    if s == [] || !IsHeader(s[0]) then Stop
    else
      var opcode := OpcodeOf(s[0]);
      var fixed := PayloadWords(t, opcode);
      var payload := if fixed >= 0 then fixed else Span(s[1..]);
      if 1 + payload > |s| then Stop else Take(Packet(opcode, s[1..1 + payload]), 1 + payload)
  }

  datatype Parsed = Parsed(packets: seq<Packet>, rest: seq<long>)

  // Commands until one fails to parse.
  function Parse(t: Table, s: seq<long>): Parsed
    decreases |s|
  {
    match First(t, s)
    case Stop => Parsed([], s)
    case Take(packet, words) =>
      var tail := Parse(t, s[words..]);
      Parsed([packet] + tail.packets, tail.rest)
  }

  predicate Printable(p: Packet) { p.opcode < 0x80 }

  function PrintOne(p: Packet): seq<long>
    requires Printable(p)
  {
    [Header(p.opcode)] + p.payload
  }

  predicate AllPrintable(ps: seq<Packet>) { forall k :: 0 <= k < |ps| ==> Printable(ps[k]) }

  function Print(ps: seq<Packet>): seq<long>
    requires AllPrintable(ps)
    decreases |ps|
  {
    if ps == [] then [] else PrintOne(ps[0]) + Print(ps[1..])
  }

  // ------------------------------------------------------------ the C loops

  // The fields of a parsed command, as positions in the stream.
  datatype Command = Command(opcode: nat, headerIndex: nat, payloadIndex: nat, payloadCount: nat, lengthVerified: bool)

  method WordsToHeader(words: seq<long>, from: nat) returns (n: nat)
    requires from <= |words|
    ensures n == Span(words[from..])
  {
    var j := from;
    while j < |words| && !IsHeader(words[j])
      invariant from <= j <= |words| && Span(words[from..]) == j - from + Span(words[j..])
    {
      assert words[j..][1..] == words[j + 1..];
      j := j + 1;
    }
    n := j - from;
  }

  // vf2_tgp_next_command: the next position, or 0 when there is no whole command here.
  method NextCommand(t: Table, words: seq<long>, pos: nat) returns (next: nat, cmd: Command)
    ensures pos < |words| ==>
              match First(t, words[pos..])
              case Stop => next == 0
              case Take(packet, n) =>
                && next == pos + n && cmd.headerIndex == pos && cmd.payloadIndex == pos + 1
                && cmd.payloadCount == n - 1 && cmd.opcode == packet.opcode
                && packet.payload == words[cmd.payloadIndex..next]
                && (cmd.lengthVerified <==> PayloadWords(t, packet.opcode) >= 0)
    ensures pos >= |words| ==> next == 0
  {
    next, cmd := 0, Command(0, 0, 0, 0, false);
    if pos >= |words| || !IsHeader(words[pos]) { return; }
    ghost var s := words[pos..];
    var opcode := OpcodeOf(words[pos]);
    var fixed := PayloadWords(t, opcode);
    var payload: nat := 0;
    if fixed >= 0 {
      payload := fixed;
      if pos + 1 + payload > |words| { return; }
    } else {
      payload := WordsToHeader(words, pos + 1);
      assert s[1..] == words[pos + 1..];
    }
    next, cmd := pos + 1 + payload, Command(opcode, pos, pos + 1, payload, fixed >= 0);
  }

  method NextPacket(t: Table, words: seq<long>, pos: nat) returns (next: nat, packet: Packet)
    requires pos <= |words|
    ensures Offers(First(t, words[pos..]), pos, next, packet)
  {
    var cmd;
    next, cmd := NextCommand(t, words, pos);
    packet := Packet(0, []);
    if next > 0 { packet := Packet(cmd.opcode, words[cmd.payloadIndex..next]); }
  }

  /** Iterating next_command from the front gives the parse. */
  method ParseAll(t: Table, words: seq<long>) returns (packets: seq<Packet>, pos: nat)
    ensures pos <= |words| && Parsed(packets, words[pos..]) == Parse(t, words)
  {
    packets, pos := [], 0;
    ghost var whole, rest := Parse(t, words), words;
    JoinNone(whole);
    var next, packet := NextPacket(t, words, pos);
    while next != 0
      invariant pos <= |words| && rest == words[pos..] && whole == Join(packets, Parse(t, rest))
      invariant Offers(First(t, rest), pos, next, packet)
      decreases |words| - pos
    {
      JoinTake(t, packets, rest);
      rest := rest[First(t, rest).words..];
      packets, pos := packets + [packet], next;
      next, packet := NextPacket(t, words, pos);
    }
    JoinStop(t, packets, rest);
  }

  // What next_command answers at a position for a parsing step there.
  predicate Offers(step: Step, pos: nat, next: nat, packet: Packet) {
    if step.Stop? then next == 0 else next == pos + step.words && packet == step.packet
  }

  function Join(ps: seq<Packet>, r: Parsed): Parsed { Parsed(ps + r.packets, r.rest) }

  lemma JoinNone(r: Parsed)
    ensures Join([], r) == r
  {
  }

  lemma JoinStop(t: Table, ps: seq<Packet>, rest: seq<long>)
    requires First(t, rest).Stop?
    ensures Join(ps, Parse(t, rest)) == Parsed(ps, rest)
  {
  }

  lemma JoinTake(t: Table, ps: seq<Packet>, rest: seq<long>)
    requires First(t, rest).Take?
    ensures var step := First(t, rest);
            Join(ps, Parse(t, rest)) == Join(ps + [step.packet], Parse(t, rest[step.words..]))
  {
    var step := First(t, rest);
    var tail := Parse(t, rest[step.words..]);
    assert ps + ([step.packet] + tail.packets) == ps + [step.packet] + tail.packets;
  }

  // ------------------------------------------------------------ round trips

  predicate Measured(t: Table, p: Packet) { PayloadWords(t, p.opcode) >= 0 }

  // A packet whose opcode has a measured count carries that many words.
  predicate Sized(t: Table, p: Packet) { Printable(p) && (Measured(t, p) ==> |p.payload| == PayloadWords(t, p.opcode)) }

  predicate Plain(payload: seq<long>) { forall k :: 0 <= k < |payload| ==> !IsHeader(payload[k]) }

  // No word of an unmeasured packet looks like a header.
  predicate Clear(t: Table, p: Packet) { Measured(t, p) || Plain(p.payload) }

  lemma {:induction false} SpanExact(payload: seq<long>, rest: seq<long>)
    requires rest == [] || IsHeader(rest[0])
    ensures Span(payload + rest) == |payload| <==> Plain(payload)
    ensures Span(payload + rest) <= |payload|
    decreases |payload|
  {
    if payload == [] {
      assert payload + rest == rest;
    } else {
      assert (payload + rest)[1..] == payload[1..] + rest;
      SpanExact(payload[1..], rest);
      PlainTail(payload);
    }
  }

  lemma PlainTail(payload: seq<long>)
    requires payload != []
    ensures Plain(payload) <==> !IsHeader(payload[0]) && Plain(payload[1..])
  {
    forall k | 0 < k < |payload| ensures payload[k] == payload[1..][k - 1] {}
    if !IsHeader(payload[0]) && Plain(payload[1..]) {
      forall k | 0 <= k < |payload| ensures !IsHeader(payload[k]) {
        if k > 0 { assert payload[k] == payload[1..][k - 1]; }
      }
    }
  }

  lemma FirstOfPrinted(t: Table, p: Packet, rest: seq<long>)
    requires Sized(t, p) && (rest == [] || IsHeader(rest[0]))
    ensures var step := First(t, PrintOne(p) + rest);
            step.Take? && (step == Take(p, 1 + |p.payload|) <==> Clear(t, p)) &&
            (step.packet == p ==> step.words == 1 + |p.payload|)
  {
    var s := PrintOne(p) + rest;
    HeaderReads(p.opcode);
    assert s[0] == Header(p.opcode) && s[1..] == p.payload + rest;
    SpanExact(p.payload, rest);
    assert s[1..1 + |p.payload|] == p.payload;
  }

  lemma PrintedStarts(ps: seq<Packet>)
    requires AllPrintable(ps)
    ensures Print(ps) == [] || IsHeader(Print(ps)[0])
  {
    if ps != [] { HeaderReads(ps[0].opcode); }
  }

  predicate AllSized(t: Table, ps: seq<Packet>) { forall k :: 0 <= k < |ps| ==> Sized(t, ps[k]) }
  predicate AllClear(t: Table, ps: seq<Packet>) { forall k :: 0 <= k < |ps| ==> Clear(t, ps[k]) }

  lemma SizedPrintable(t: Table, ps: seq<Packet>)
    requires AllSized(t, ps)
    ensures AllPrintable(ps)
  {
    forall k | 0 <= k < |ps| ensures Printable(ps[k]) { assert Sized(t, ps[k]); }
  }

  lemma ClearSplits(t: Table, ps: seq<Packet>)
    requires ps != []
    ensures AllClear(t, ps) <==> Clear(t, ps[0]) && AllClear(t, ps[1..])
  {
    assert forall k :: 0 <= k < |ps| - 1 ==> ps[1..][k] == ps[k + 1];
    if Clear(t, ps[0]) && AllClear(t, ps[1..]) {
      forall k | 0 <= k < |ps| ensures Clear(t, ps[k]) {
        if k > 0 { assert ps[1..][k - 1] == ps[k]; }
      }
    }
  }

  predicate Returns(t: Table, ps: seq<Packet>)
    requires AllSized(t, ps)
  {
    SizedPrintable(t, ps);
    Parse(t, Print(ps)) == Parsed(ps, [])
  }

  /** A printed list of packets parses back to itself exactly when no packet of unmeasured length
      has a payload word shaped like a header; packets of measured length may carry anything. */
  lemma {:induction false} RoundTrip(t: Table, ps: seq<Packet>)
    requires AllSized(t, ps)
    ensures Returns(t, ps) <==> AllClear(t, ps)
    decreases |ps|
  {
    if ps != [] {
      SizedPrintable(t, ps);
      var p, tail := ps[0], ps[1..];
      RoundTrip(t, tail);
      PrintedStarts(tail);
      FirstOfPrinted(t, p, Print(tail));
      RoundTripStep(t, p, tail);
      ClearSplits(t, ps);
      assert ps == [p] + tail;
    }
  }

  lemma RoundTripStep(t: Table, p: Packet, tail: seq<Packet>)
    requires Sized(t, p) && AllPrintable(tail)
    requires var step := First(t, PrintOne(p) + Print(tail));
             step.Take? && (step == Take(p, 1 + |p.payload|) <==> Clear(t, p)) &&
             (step.packet == p ==> step.words == 1 + |p.payload|)
    ensures Parse(t, PrintOne(p) + Print(tail)) == Parsed([p] + tail, [])
            <==> Clear(t, p) && Parse(t, Print(tail)) == Parsed(tail, [])
  {
    var s := PrintOne(p) + Print(tail);
    var step := First(t, s);
    var r := Parse(t, s[step.words..]);
    assert Parse(t, s) == Parsed([step.packet] + r.packets, r.rest);
    ConsEqual(step.packet, r.packets, p, tail);
    if step.packet == p { assert s[step.words..] == Print(tail); }
  }

  lemma ConsEqual(a: Packet, x: seq<Packet>, b: Packet, y: seq<Packet>)
    ensures [a] + x == [b] + y <==> a == b && x == y
  {
    assert ([a] + x)[0] == a && ([b] + y)[0] == b;
    assert ([a] + x)[1..] == x && ([b] + y)[1..] == y;
  }

  /** In particular for the firmware's own table. */
  lemma FirmwareRoundTrip(ps: seq<Packet>)
    requires AllSized(FIRMWARE, ps)
    ensures Returns(FIRMWARE, ps) <==> AllClear(FIRMWARE, ps)
  {
    RoundTrip(FIRMWARE, ps);
  }

  /** Packets of measured length come back whatever their payload words look like. */
  lemma MeasuredRoundTrip(t: Table, ps: seq<Packet>)
    requires AllSized(t, ps) && forall k :: 0 <= k < |ps| ==> Measured(t, ps[k])
    ensures Returns(t, ps)
  {
    RoundTrip(t, ps);
  }

  lemma FirstPrints(t: Table, s: seq<long>)
    requires First(t, s).Take?
    ensures var step := First(t, s); Printable(step.packet) && PrintOne(step.packet) == s[..step.words]
  {
  }

  /** The other way round: printing what was parsed of any stream, followed by the unparsed rest,
      is that stream. */
  lemma {:induction false} PrintOfParse(t: Table, s: seq<long>)
    ensures AllPrintable(Parse(t, s).packets)
    ensures Print(Parse(t, s).packets) + Parse(t, s).rest == s
    decreases |s|
  {
    var step := First(t, s);
    if step.Take? {
      PrintOfParse(t, s[step.words..]);
      PrintOfTaken(t, s);
    }
  }

  lemma PrintOfTaken(t: Table, s: seq<long>)
    requires First(t, s).Take?
    requires var tail := Parse(t, s[First(t, s).words..]);
             AllPrintable(tail.packets) && Print(tail.packets) + tail.rest == s[First(t, s).words..]
    ensures AllPrintable(Parse(t, s).packets) && Print(Parse(t, s).packets) + Parse(t, s).rest == s
  {
    var step := First(t, s);
    var tail := Parse(t, s[step.words..]);
    FirstPrints(t, s);
    ParseCons(t, s);
    PrintCons(step.packet, tail.packets);
    Rejoin(PrintOne(step.packet), Print(tail.packets), tail.rest, s, step.words);
  }

  lemma Rejoin(a: seq<long>, b: seq<long>, c: seq<long>, s: seq<long>, n: nat)
    requires n <= |s| && a == s[..n] && b + c == s[n..]
    ensures a + b + c == s
  {
    assert a + b + c == a + (b + c);
    assert s == s[..n] + s[n..];
  }

  lemma ParseCons(t: Table, s: seq<long>)
    requires First(t, s).Take?
    ensures var step := First(t, s); var tail := Parse(t, s[step.words..]);
            Parse(t, s) == Parsed([step.packet] + tail.packets, tail.rest)
  {
  }

  lemma PrintCons(p: Packet, ps: seq<Packet>)
    requires Printable(p) && AllPrintable(ps)
    ensures AllPrintable([p] + ps) && Print([p] + ps) == PrintOne(p) + Print(ps)
  {
    assert ([p] + ps)[1..] == ps;
  }
}
