/** The UART receiver's packet assembler and the running-status grammar it implements. */
module Uart {
  import opened Bytes

  // $1500 status, $1501 first data byte, $1502 data bytes per packet, $1503 bytes to go.
  datatype Stage = Stage(status: byte, first: byte, need: byte, left: byte)

  datatype Taken = Refused | Quiet(stage: Stage) | Packet(stage: Stage, bytes: seq<byte>)

  function DataBytes(status: byte): byte { if 0xc0 <= status < 0xe0 then 1 else 2 }

  function Take(u: Stage, x: byte): (t: Taken)
    ensures t.Packet? ==> 2 <= |t.bytes| <= 3
  {
    if x == 0xff then Refused
    else if x >= 0xf0 then Quiet(u)
    else if x >= 0x80 then Quiet(u.(status := x, need := DataBytes(x), left := DataBytes(x)))
    else
      var select := if u.left == 0 then u.need else u.left;
      if select == 1
      then Packet(u.(left := 0), if Dec(u.need) != 0 then [u.status, u.first, x] else [u.status, x])
      else Quiet(u.(first := x, left := Dec(select)))
  }

  // The packets a byte stream files and the stage it leaves.
  function Assemble(u: Stage, s: seq<byte>): (seq<seq<byte>>, Stage)
    decreases |s|
  {
    if s == [] then ([], u)
    else match Take(u, s[0])
      case Refused => Assemble(u, s[1..])
      case Quiet(v) => Assemble(v, s[1..])
      case Packet(v, p) => var (ps, w) := Assemble(v, s[1..]); ([p] + ps, w)
  }

  // ------------------------------------------------------------ the grammar

  function WithoutRealtime(s: seq<byte>): (t: seq<byte>)
    ensures |t| <= |s|
  {
    if s == [] then []
    else if s[0] >= 0xf0 then WithoutRealtime(s[1..])
    else [s[0]] + WithoutRealtime(s[1..])
  }

  // Under a running status: whole groups of data bytes are packets, a group cut short by
  // the next status or the end is dropped.
  function Messages(status: byte, s: seq<byte>): seq<seq<byte>>
    decreases |s|
  {
    if s == [] then []
    else if s[0] >= 0x80 then Messages(s[0], s[1..])
    else if DataBytes(status) == 1 then [[status, s[0]]] + Messages(status, s[1..])
    else if |s| >= 2 && s[1] < 0x80 then [[status, s[0], s[1]]] + Messages(status, s[2..])
    else Messages(status, s[1..])
  }

  predicate NoReboot(s: seq<byte>) { 0xff !in s }

  // ------------------------------------------------------------ refinement

  /** Deleting every byte 0xf0-0xfe changes neither the packets nor the stage. */
  lemma {:induction false} RealtimeTransparent(u: Stage, s: seq<byte>)
    requires NoReboot(s)
    ensures Assemble(u, WithoutRealtime(s)) == Assemble(u, s)
    decreases |s|
  {
    if s != [] {
      assert NoReboot(s[1..]);
      var t := WithoutRealtime(s);
      if s[0] >= 0xf0 {
        RealtimeTransparent(u, s[1..]);
      } else {
        assert t[0] == s[0] && t[1..] == WithoutRealtime(s[1..]);
        match Take(u, s[0])
        case Quiet(v) => RealtimeTransparent(v, s[1..]);
        case Packet(v, p) => RealtimeTransparent(v, s[1..]);
      }
    }
  }

  predicate Plain(s: seq<byte>) { forall k :: 0 <= k < |s| ==> s[k] < 0xf0 }

  // Between packets, and after the first of two data bytes.
  predicate Between(u: Stage) {
    0x80 <= u.status && u.need == DataBytes(u.status) && (u.left == 0 || u.left == u.need)
  }

  predicate Halfway(u: Stage) {
    0x80 <= u.status && u.need == DataBytes(u.status) == 2 && u.left == 1 && u.first < 0x80
  }

  lemma {:induction false} BetweenRefines(u: Stage, s: seq<byte>)
    requires Plain(s) && Between(u)
    ensures Assemble(u, s).0 == Messages(u.status, s)
    decreases |s|, 1
  {
    if s != [] {
      if s[0] >= 0x80 {
        BetweenRefines(Take(u, s[0]).stage, s[1..]);
      } else if u.need == 1 {
        BetweenRefines(Take(u, s[0]).stage, s[1..]);
      } else {
        HalfwayRefines(Take(u, s[0]).stage, s[1..]);
        assert [s[0]] + s[1..] == s;
      }
    }
  }

  lemma {:induction false} HalfwayRefines(u: Stage, s: seq<byte>)
    requires Plain(s) && Halfway(u)
    ensures Assemble(u, s).0 == Messages(u.status, [u.first] + s)
    decreases |s|, 0
  {
    var t := [u.first] + s;
    assert t[1..] == s;
    if s != [] {
      BetweenRefines(Take(u, s[0]).stage, s[1..]);
      if s[0] < 0x80 { assert t[2..] == s[1..]; }
    }
  }

  lemma {:induction false} WithoutRealtimePlain(s: seq<byte>)
    ensures Plain(WithoutRealtime(s))
  {
    if s != [] { WithoutRealtimePlain(s[1..]); }
  }

  /** Whatever was staged before, a stream that starts with a status byte and holds no 0xff
      files exactly the packets the running-status grammar reads in it. */
  lemma AssemblerRefinesGrammar(u: Stage, s: seq<byte>)
    requires s != [] && 0x80 <= s[0] < 0xf0 && NoReboot(s)
    ensures Assemble(u, s).0 == Messages(s[0], WithoutRealtime(s[1..]))
  {
    var v := Take(u, s[0]).stage;
    assert NoReboot(s[1..]);
    RealtimeTransparent(v, s[1..]);
    WithoutRealtimePlain(s[1..]);
    BetweenRefines(v, WithoutRealtime(s[1..]));
  }
}
