/** Control-flow recovery of one i960 function: marking reachable instructions from its entry
    and cutting them into basic blocks. */
module Cfg {
  import opened Arithmetic
  import opened Wrappers

  datatype Flow = Plain | Branch | Call | Return | Fault

  // A decoded instruction: its size in words (one or two) and where control may go.
  datatype Instr = Instr(wide: bool, flow: Flow, hasTarget: bool, target: nat, fallsThrough: bool)

  // The decoder is a total function on the image's words.
  datatype Image = Image(size: nat, decode: seq<Option<Instr>>)

  function Words(m: Image): nat { (m.size + 3) / 4 }

  predicate ImageOk(m: Image) {
    && |m.decode| == Words(m) && m.size < 0x1_0000_0000
    && forall w :: 0 <= w < Words(m) && m.decode[w].Some? && m.decode[w].value.wide ==> 4 * w + 8 <= m.size
  }

  predicate ValidCode(m: Image, a: nat) { a % 4 == 0 && a + 4 <= m.size }

  function Size(i: Instr): nat { if i.wide then 8 else 4 }

  // Runs on into the next instruction without starting a new block.
  predicate Linear(i: Instr) { (i.flow.Plain? || i.flow.Call?) && i.fallsThrough }

  // Where control can go directly from the instruction at a.
  predicate Direct(i: Instr, a: nat, t: nat) {
    || (i.flow.Branch? && i.hasTarget && t == i.target)
    || ((i.flow.Branch? || Linear(i)) && i.fallsThrough && t == a + Size(i))
  }

  // ------------------------------------------------------------ discovery

  // Marks: 0 unseen, 1 instruction, 2 second word of one, 3 undecodable.
  datatype Scan = Scan(marks: seq<nat>, leaders: seq<bool>, queue: seq<nat>, cursor: nat)

  predicate Shaped(m: Image, s: Scan) {
    && |s.marks| == |s.leaders| == Words(m) && s.cursor <= |s.queue|
    && (forall k :: 0 <= k < |s.queue| ==> ValidCode(m, s.queue[k]))
    && (forall j, k :: 0 <= j < k < |s.queue| ==> s.queue[j] != s.queue[k])
  }

  function PushUnique(queue: seq<nat>, a: nat): seq<nat> {
    if a in queue then queue else queue + [a]
  }

  // Make an address a leader and queue it, if it is code.
  function Lead(m: Image, s: Scan, a: nat): (t: Scan)
    requires Shaped(m, s)
    ensures Shaped(m, t)
  {
    if ValidCode(m, a) then s.(leaders := s.leaders[a / 4 := true], queue := PushUnique(s.queue, a)) else s
  }

  function Mark(m: Image, s: Scan, w: nat, i: Instr): (t: Scan)
    requires Shaped(m, s) && w < Words(m)
    ensures Shaped(m, t)
  {
    var marks := s.marks[w := 1];
    s.(marks := if i.wide && w + 1 < Words(m) then marks[w + 1 := 2] else marks)
  }

  function BranchFrom(m: Image, s: Scan, i: Instr, a: nat): (t: Scan)
    requires Shaped(m, s)
    ensures Shaped(m, t)
  {
    var u := if i.hasTarget then Lead(m, s, i.target) else s;
    if i.fallsThrough then Lead(m, u, a + Size(i)) else u
  }

  // Follow straight-line code from an address.
  function Walk(m: Image, s: Scan, a: nat): (t: Scan)
    requires ImageOk(m) && Shaped(m, s)
    ensures Shaped(m, t) && t.cursor == s.cursor
    decreases m.size - a
  {
    if !ValidCode(m, a) || s.marks[a / 4] != 0 then s
    else if m.decode[a / 4].None? then s.(marks := s.marks[a / 4 := 3])
    else
      var i := m.decode[a / 4].value;
      var u := Mark(m, s, a / 4, i);
      if i.flow.Branch? then BranchFrom(m, u, i, a)
      else if !Linear(i) then u
      else Walk(m, u, a + Size(i))
  }

  lemma QueueBound(m: Image, s: Scan)
    requires Shaped(m, s)
    ensures |s.queue| <= Words(m)
  {
    var words: seq<nat> := seq(|s.queue|, k requires 0 <= k < |s.queue| => s.queue[k] / 4);
    forall j, k | 0 <= j < k < |words| ensures words[j] != words[k] {
      assert s.queue[j] != s.queue[k];
    }
    Pigeonhole(words, Words(m));
  }

  function Discover(m: Image, s: Scan): (t: Scan)
    requires ImageOk(m) && Shaped(m, s)
    ensures Shaped(m, t) && t.cursor == |t.queue|
    decreases Words(m) - s.cursor
  {
    if s.cursor == |s.queue| then s
    else
      QueueBound(m, s);
      Discover(m, Walk(m, s.(cursor := s.cursor + 1), s.queue[s.cursor]))
  }

  function Begin(m: Image, entry: nat): (s: Scan)
    requires ValidCode(m, entry)
    ensures Shaped(m, s)
  {
    Scan(seq(Words(m), i => 0), seq(Words(m), i => false)[entry / 4 := true], [entry], 0)
  }

  // ------------------------------------------------------------ blocks

  datatype Block = Block(start: nat, end: nat, successors: seq<nat>, members: seq<nat>)

  predicate IsInstruction(m: Image, s: Scan, a: nat)
    requires Shaped(m, s)
  {
    a / 4 < Words(m) && s.marks[a / 4] == 1
  }

  predicate IsLeader(m: Image, s: Scan, a: nat)
    requires Shaped(m, s)
  {
    a / 4 < Words(m) && s.leaders[a / 4]
  }

  function Recorded(m: Image, s: Scan, a: nat): seq<nat>
    requires Shaped(m, s)
  {
    if IsInstruction(m, s, a) then [a] else []
  }

  // Scan one block from an address; members are the instructions it takes in.
  function BlockFrom(m: Image, s: Scan, start: nat, a: nat): (b: Block)
    requires ImageOk(m) && Shaped(m, s)
    decreases m.size + 4 - a
  {
    if !IsInstruction(m, s, a) || m.decode[a / 4].None? then Block(start, a, [], [])
    else
      var i := m.decode[a / 4].value;
      var next := a + Size(i);
      if i.flow.Branch? then
        Block(start, next, (if i.hasTarget then Recorded(m, s, i.target) else [])
                           + (if i.fallsThrough then Recorded(m, s, next) else []), [a])
      else if !Linear(i) then Block(start, next, [], [a])
      else if IsLeader(m, s, next) then Block(start, next, Recorded(m, s, next), [a])
      else
        var rest := BlockFrom(m, s, start, next);
        rest.(members := [a] + rest.members)
  }

  function BlocksFrom(m: Image, s: Scan, w: nat): (bs: seq<Block>)
    requires ImageOk(m) && Shaped(m, s) && w <= Words(m)
    decreases Words(m) - w
  {
    if w == Words(m) then []
    else if s.leaders[w] && s.marks[w] == 1 then [BlockFrom(m, s, 4 * w, 4 * w)] + BlocksFrom(m, s, w + 1)
    else BlocksFrom(m, s, w + 1)
  }
}
