/** The sound board's 32 voice records seen as values, the operations that key voices on,
    expire them, tear them down and steal them, and the two key-on-ordered queues that
    their age bytes encode. */
module VoiceLedger {
  import opened Bytes
  import opened Wrappers

  // +0 slot word, +2 flags, +3 tag, +4 channel, +5 rank5 (drum age), +6 select word,
  // +8 mode, +9 age, +0xa meta, +0xb rate.
  datatype Voice = Voice(slot: word, flags: byte, tag: byte, channel: byte, rank5: byte,
                         select: word, mode: byte, age: byte, meta: byte, rate: byte)

  // What happened to a voice: the history the age bytes have to agree with.
  datatype Event = OnNormal(voice: nat) | OnDrum(voice: nat) | Off(voice: nat)

  datatype Queues = Queues(normal: seq<nat>, drum: seq<nat>)

  const MEMORY := 0x8_0000
  const TABLE := 0x2800
  const CHIP_BYTES := 0x1000

  // normals is $151e, drums is $152e, streams are the +0 bytes of the 32 stream records
  // that every key-off clears, next numbers the record at $151a where the allocator's scan
  // starts (32 is the table's end), chip is the SCSP's registers; log is the history, which no
  // operation reads.
  datatype Ledger = Ledger(v: seq<Voice>, normals: byte, drums: byte, streams: seq<byte>, next: nat,
                           chip: seq<byte>, log: seq<Event>)

  predicate Live(x: Voice) { x.flags != 0 }
  predicate Drum(x: Voice) { Bit(x.flags, 3) }
  predicate Normal(x: Voice) { Live(x) && !Drum(x) }

  predicate Shape(l: Ledger) { |l.v| == 32 && |l.streams| == 32 && |l.chip| == CHIP_BYTES }

  // The slot words initialize loads: voice i sits at SCSP slot i.
  predicate Slots(l: Ledger)
    requires Shape(l)
  {
    forall i :: 0 <= i < 32 ==> l.v[i].slot == 32 * i
  }

  // ------------------------------------------------------------ the chip

  // SCSP[slot + 0x0b] = 0x1f: the fastest release.
  function FastRelease(c: seq<byte>, i: nat): (d: seq<byte>)
    requires |c| == CHIP_BYTES && i < 32
    ensures |d| == CHIP_BYTES
  {
    c[32 * i + 11 := 0x1f]
  }

  // SCSP[slot] = 0x10: slot control without the key-on bit.
  function KeyClear(c: seq<byte>, i: nat): (d: seq<byte>)
    requires |c| == CHIP_BYTES && i < 32
    ensures |d| == CHIP_BYTES
  {
    c[32 * i := 0x10]
  }

  function KeyOff(c: seq<byte>, i: nat): (d: seq<byte>)
    requires |c| == CHIP_BYTES && i < 32
    ensures |d| == CHIP_BYTES
  {
    KeyClear(FastRelease(c, i), i)
  }

  // A byte written to one of a slot's 32 register bytes.
  type SlotRegister = k: nat | k < 32
  datatype Store = Store(register: SlotRegister, value: byte)

  function StoreAll(c: seq<byte>, i: nat, stores: seq<Store>): (d: seq<byte>)
    requires |c| == CHIP_BYTES && i < 32
    ensures |d| == CHIP_BYTES
    decreases |stores|
  {
    if stores == [] then c
    else StoreAll(c[32 * i + stores[0].register := stores[0].value], i, stores[1..])
  }

  // The voice interrupt's pokes on entry: 0x41a = 0x03c0 and 0x422 = 0x0080.
  function VoicePokes(c: seq<byte>): (d: seq<byte>)
    requires |c| == CHIP_BYTES
    ensures |d| == CHIP_BYTES
  {
    PutBe16(PutBe16(c, 0x41a, 0x3c0), 0x422, 0x80)
  }

  // ------------------------------------------------------------ history and queues

  function Without(s: seq<nat>, i: nat): seq<nat> {
    if s == [] then [] else if s[0] == i then s[1..] else [s[0]] + Without(s[1..], i)
  }

  function PlayOne(q: Queues, e: Event): Queues {
    match e
    case OnNormal(i) => q.(normal := q.normal + [i])
    case OnDrum(i) => q.(drum := q.drum + [i])
    case Off(i) => Queues(Without(q.normal, i), Without(q.drum, i))
  }

  // Key-on appends a voice to its class, key-off deletes it: the meaning of a history.
  function Play(log: seq<Event>): Queues {
    if log == [] then Queues([], []) else PlayOne(Play(log[..|log| - 1]), log[|log| - 1])
  }

  // One plus the position of the voice's last key-on, or 0.
  function LastOn(log: seq<Event>, i: nat): (r: nat)
    ensures r <= |log|
  {
    if log == [] then 0
    else if !log[|log| - 1].Off? && log[|log| - 1].voice == i then |log|
    else LastOn(log[..|log| - 1], i)
  }

  ghost predicate Ascending(log: seq<Event>, s: seq<nat>) {
    forall a, b :: 0 <= a < b < |s| ==> LastOn(log, s[a]) < LastOn(log, s[b])
  }

  // ------------------------------------------------------------ the invariant

  ghost predicate RanksNormal(v: seq<Voice>, n: seq<nat>) {
    && (forall k :: 0 <= k < |n| ==> n[k] < |v| && Normal(v[n[k]]) && v[n[k]].age == k)
    && (forall i :: 0 <= i < |v| && Normal(v[i]) ==> v[i].age < |n| && n[v[i].age] == i)
  }

  ghost predicate RanksDrum(v: seq<Voice>, d: seq<nat>) {
    && (forall k :: 0 <= k < |d| ==> d[k] < |v| && Drum(v[d[k]]) && v[d[k]].rank5 == k)
    && (forall i :: 0 <= i < |v| && Drum(v[i]) ==> v[i].rank5 < |d| && d[v[i].rank5] == i)
  }

  predicate VoiceOk(x: Voice) {
    && (!Live(x) ==> x.age == 0)
    && (Live(x) ==> Bit(x.flags, 6) && (Drum(x) <==> x.age == 255))
    && (Drum(x) ==> x.channel != 15)
    && (Normal(x) && Bit(x.flags, 4) ==> x.channel == 15)
  }

  ghost predicate EachOk(l: Ledger)
    requires Shape(l)
  {
    && (forall i :: 0 <= i < 32 ==> VoiceOk(l.v[i]) && l.v[i].slot == 32 * i)
    && (forall i :: 0 <= i < 32 && Bit(l.streams[i], 7) ==> Live(l.v[i]))
  }

  ghost predicate Ranked(l: Ledger, q: Queues)
    requires Shape(l)
  {
    && |q.normal| == l.normals && RanksNormal(l.v, q.normal)
    && |q.drum| == l.drums && RanksDrum(l.v, q.drum)
    && Ascending(l.log, q.normal) && Ascending(l.log, q.drum)
  }

  ghost predicate Inv(l: Ledger) {
    Shape(l) && EachOk(l) && Ranked(l, Play(l.log))
  }

  // ------------------------------------------------------------ the local moves

  // Every age other than 0xff above the freed one comes down by one.
  function RebalanceNormal(v: seq<Voice>, freed: byte): (r: seq<Voice>)
    ensures |r| == |v|
  {
    seq(|v|, j requires 0 <= j < |v| =>
      if v[j].age != 255 && freed < v[j].age then v[j].(age := v[j].age - 1) else v[j])
  }

  function RebalanceDrum(v: seq<Voice>, freed: byte): (r: seq<Voice>)
    ensures |r| == |v|
  {
    seq(|v|, j requires 0 <= j < |v| =>
      if v[j].age == 255 && freed < v[j].rank5 then v[j].(rank5 := v[j].rank5 - 1) else v[j])
  }

  function DropNormal(l: Ledger, i: nat): (r: Ledger)
    requires Shape(l) && i < 32
    ensures Shape(r) && r.next == l.next
  {
    l.(v := RebalanceNormal(l.v[i := l.v[i].(flags := 0, age := 0)], l.v[i].age),
       normals := U8(l.normals - 1), streams := l.streams[i := 0], log := l.log + [Off(i)])
  }

  function DropDrum(l: Ledger, i: nat): (r: Ledger)
    requires Shape(l) && i < 32
    ensures Shape(r) && r.next == l.next
  {
    l.(v := RebalanceDrum(l.v[i := l.v[i].(flags := 0, age := 0, rank5 := 0)], l.v[i].rank5),
       drums := U8(l.drums - 1), streams := l.streams[i := 0], log := l.log + [Off(i)])
  }

  // The two classes of teardown are told apart by flag bit 3.
  function Drop(l: Ledger, i: nat): (r: Ledger)
    requires Shape(l) && i < 32
    ensures Shape(r) && r.next == l.next
  {
    if Drum(l.v[i]) then DropDrum(l, i) else DropNormal(l, i)
  }

  // Every age other than 0xff down by one, with byte wrap-around: the reaper's sweep.
  function AllAgesDown(v: seq<Voice>): (r: seq<Voice>)
    ensures |r| == |v|
  {
    seq(|v|, j requires 0 <= j < |v| => if v[j].age != 255 then v[j].(age := Dec(v[j].age)) else v[j])
  }

  // Every 0xff-aged voice's rank down by one, with byte wrap-around: Loop-B's sweep.
  function AllRanksDown(v: seq<Voice>): (r: seq<Voice>)
    ensures |r| == |v|
  {
    seq(|v|, j requires 0 <= j < |v| => if v[j].age == 255 then v[j].(rank5 := Dec(v[j].rank5)) else v[j])
  }

  // Loop-B: the stolen voice is given rank 5 and then every 0xff-aged voice, itself
  // included, comes down by one; its flags and age stay as they were.
  function StealDrum(l: Ledger, i: nat): (r: Ledger)
    requires Shape(l) && i < 32
    ensures Shape(r) && r.next == l.next
  {
    l.(v := AllRanksDown(l.v[i := l.v[i].(rank5 := 5)]), drums := U8(l.drums - 1),
       streams := l.streams[i := 0], chip := KeyOff(l.chip, i), log := l.log + [Off(i)])
  }

  // The reaper: flags cleared, then every age other than 0xff comes down by one, the
  // freed voice's own 0 wrapping to 0xff.
  function StealNormal(l: Ledger, i: nat): (r: Ledger)
    requires Shape(l) && i < 32
    ensures Shape(r) && r.next == l.next
  {
    l.(v := AllAgesDown(l.v[i := l.v[i].(flags := 0)]), normals := U8(l.normals - 1),
       streams := l.streams[i := 0], chip := KeyOff(l.chip, i), log := l.log + [Off(i)])
  }

  // What the staging bytes and the descriptor ask of the setup author.
  datatype Request = Request(high: bool, channel: byte, tag: byte, mode: byte, select: word,
                             meta: byte)

  // What the audio ROM's tables decide: the rate byte if the sample tail got that far, flag
  // bit 4 cleared by the looping engine arm, the stream flag byte if the voice was keyed on,
  // and the slot's register bytes in the order they are written.
  datatype Tail = Tail(rate: Option<byte>, looping: bool, stream: Option<byte>, stores: seq<Store>)

  function AuthorVoice(x: Voice, r: Request, normals: byte, drums: byte): Voice {
    var base := x.(flags := 0x40, select := r.select, tag := r.tag, mode := r.mode,
                   channel := r.channel);
    if !r.high then base.(age := normals, meta := r.meta)
    else if r.channel == 15 then base.(flags := Or(base.flags, 4), age := normals)
    else base.(flags := Or(Or(base.flags, 4), 3), age := 255, rank5 := drums)
  }

  predicate AsksForDrum(r: Request) { r.high && r.channel != 15 }

  function AuthorTail(x: Voice, t: Tail): Voice {
    var y := if t.rate.Some? then x.(rate := t.rate.value) else x;
    if t.looping then y.(flags := AndNot(y.flags, 4)) else y
  }

  function Author(l: Ledger, i: nat, r: Request, t: Tail): (m: Ledger)
    requires Shape(l) && i < 32
    ensures Shape(m) && m.next == l.next
  {
    var x := AuthorTail(AuthorVoice(l.v[i], r, l.normals, l.drums), t);
    l.(v := l.v[i := x],
       normals := if AsksForDrum(r) then l.normals else U8(l.normals + 1),
       drums := if AsksForDrum(r) then U8(l.drums + 1) else l.drums,
       streams := if t.stream.Some? then l.streams[i := t.stream.value] else l.streams,
       chip := StoreAll(KeyClear(l.chip, i), i, t.stores),
       log := l.log + [if AsksForDrum(r) then OnDrum(i) else OnNormal(i)])
  }

  // ------------------------------------------------------------ the seven paths

  function CountDown(l: Ledger, i: nat): (r: Ledger)
    requires Shape(l) && i < 32
    ensures Shape(r) && r.next == l.next
  {
    l.(v := l.v[i := l.v[i].(rate := U8(l.v[i].rate - 1))])
  }

  // L1, the voice interrupt: bit 0 arms a countdown in the rate byte.
  function MaintainOne(l: Ledger, i: nat): (r: Ledger)
    requires Shape(l) && i < 32
    ensures Shape(r) && r.next == l.next
  {
    if !Bit(l.v[i].flags, 0) then l
    else
      var m := CountDown(l, i);
      if m.v[i].rate != 0 then m else Drop(m, i).(chip := FastRelease(l.chip, i))
  }

  function MaintainFrom(l: Ledger, i: nat): (r: Ledger)
    requires Shape(l) && i <= 32
    ensures Shape(r) && r.next == l.next
    decreases 32 - i
  {
    if i == 32 then l else MaintainFrom(MaintainOne(l, i), i + 1)
  }

  function Maintain(l: Ledger): (r: Ledger)
    requires Shape(l)
    ensures Shape(r) && r.next == l.next
  {
    MaintainFrom(l.(chip := VoicePokes(l.chip)), 0)
  }

  // 0x11d0: defer, arm the countdown, or tear down.
  function Sub11d0(l: Ledger, i: nat, deferred: bool): (r: Ledger)
    requires Shape(l) && i < 32
    ensures Shape(r) && r.next == l.next
  {
    if deferred then l.(v := l.v[i := l.v[i].(flags := Or(l.v[i].flags, 1))])
    else if l.v[i].rate != 0
    then l.(v := l.v[i := l.v[i].(flags := Or(l.v[i].flags, 0))], chip := KeyClear(l.chip, i))
    else Drop(l, i).(chip := KeyOff(l.chip, i))
  }

  // The 0x80 scan: tag, channel and select match, flag bits 4 and 1 clear; bit 7 is
  // cleared in place before the call.
  function ReleaseOne(l: Ledger, i: nat, r: Request, deferred: bool): (m: Ledger)
    requires Shape(l) && i < 32
    ensures Shape(m) && m.next == l.next
  {
    var x := l.v[i];
    if x.tag != r.tag || x.channel != r.channel || x.select != r.select
       || Bit(x.flags, 4) || Bit(x.flags, 1) then l
    else
      var m := l.(v := l.v[i := x.(flags := AndNot(x.flags, 7))]);
      if m.v[i].flags == 0 then m else Sub11d0(m, i, deferred)
  }

  function ReleaseFrom(l: Ledger, i: nat, r: Request, deferred: bool): (m: Ledger)
    requires Shape(l) && i <= 32
    ensures Shape(m) && m.next == l.next
    decreases 32 - i
  {
    if i == 32 then l else ReleaseFrom(ReleaseOne(l, i, r, deferred), i + 1, r, deferred)
  }

  // The setup scan drops every live voice tagged 0xba on channel 15.
  function SetupScanFrom(l: Ledger, i: nat): (r: Ledger)
    requires Shape(l) && i <= 32
    ensures Shape(r) && r.next == l.next
    decreases 32 - i
  {
    if i == 32 then l
    else if Live(l.v[i]) && l.v[i].tag == 0xba && l.v[i].channel == 15
    then SetupScanFrom(DropNormal(l, i).(chip := KeyClear(l.chip, i)), i + 1)
    else SetupScanFrom(l, i + 1)
  }

  function FirstAgeZero(v: seq<Voice>, j: nat): (r: nat)
    requires j <= |v|
    ensures j <= r <= |v| && (r < |v| ==> v[r].age == 0)
    ensures forall k :: j <= k < r ==> v[k].age != 0
    decreases |v| - j
  {
    if j == |v| || v[j].age == 0 then j else FirstAgeZero(v, j + 1)
  }

  function FirstDrumHead(v: seq<Voice>, j: nat): (r: nat)
    requires j <= |v|
    ensures j <= r <= |v| && (r < |v| ==> v[r].age == 255 && v[r].rank5 == 0)
    ensures forall k :: j <= k < r ==> !(v[k].age == 255 && v[k].rank5 == 0)
    decreases |v| - j
  {
    if j == |v| || (v[j].age == 255 && v[j].rank5 == 0) then j else FirstDrumHead(v, j + 1)
  }

  // The reaper; running out of the scan silently drops the request.
  function Reap(l: Ledger, r: Request, t: Tail): (m: Ledger)
    requires Shape(l)
    ensures Shape(m) && m.next == l.next
  {
    var i := FirstAgeZero(l.v, 0);
    if i == 32 then l else Author(StealNormal(l, i), i, r, t)
  }

  // ------------------------------------------------------------ the allocator

  // The flag bytes found at 32 record positions past the table.
  type Past = s: seq<byte> | |s| == 32 witness seq(32, i => 0)

  function RecordAt(n: nat): nat { TABLE + 16 * n }

  // The flag byte of record n: a voice's, or past the table whatever lies there.
  function FlagsAt(l: Ledger, past: Past, i: nat): byte
    requires Shape(l) && i < 32
  {
    if l.next + i < 32 then l.v[l.next + i].flags else past[i]
  }

  // Where the scan stops: at a record that looks free or lies outside RAM, or after 32.
  function Scan(l: Ledger, past: Past, i: nat): (r: nat)
    requires Shape(l) && i <= 32
    ensures i <= r <= 32
    ensures forall k :: i <= k < r ==> FlagsAt(l, past, k) != 0
    ensures r < 32 ==> FlagsAt(l, past, r) == 0 || RecordAt(l.next + r) + 2 >= MEMORY
    decreases 32 - i
  {
    if i == 32 || RecordAt(l.next + i) + 2 >= MEMORY || FlagsAt(l, past, i) == 0 then i else Scan(l, past, i + 1)
  }

  // A cursor at the table's end goes back to its start.
  function Wrapped(l: Ledger): Ledger { if l.next == 32 then l.(next := 0) else l }

  /** The allocator scans 32 records from its cursor, not wrapping at the table's end. A free
      record moves the cursor behind it and is authored only if it is voice 0 and the packet is
      admitted; otherwise the packet is refused. With none free the reaper decides. */
  function Allocate(l: Ledger, r: Request, t: Tail, admitted: bool, past: Past): (m: Ledger)
    requires Shape(l)
    ensures Shape(m)
  {
    var w := Wrapped(l);
    var i := Scan(w, past, 0);
    if i == 32 then Reap(w, r, t)
    else if RecordAt(w.next + i) + 19 >= MEMORY then w
    else
      var n := w.(next := w.next + i + 1);
      if admitted && w.next + i == 0 then Author(n, 0, r, t) else n
  }

  // The ledger with which Loop-B enters the allocator.
  function LoopBEntry(l: Ledger, r: Request): (m: Ledger)
    requires Shape(l)
    ensures Shape(m) && m.next == l.next
  {
    if r.channel == 15 then (if r.tag == 0xb6 || r.tag == 0xb8 then SetupScanFrom(l, 0) else l)
    else if l.drums < 5 then l
    else l.(drums := 0)
  }

  // At five drums a drum head is stolen instead.
  predicate LoopBSteals(l: Ledger, r: Request)
    requires Shape(l)
  {
    r.channel != 15 && l.drums >= 5 && FirstDrumHead(l.v, 0) < 32
  }

  function LoopB(l: Ledger, r: Request, t: Tail, admitted: bool, past: Past): (m: Ledger)
    requires Shape(l)
    ensures Shape(m)
  {
    if LoopBSteals(l, r) then
      var i := FirstDrumHead(l.v, 0);
      Author(StealDrum(l, i), i, r, t)
    else
      Allocate(LoopBEntry(l, r), r, t, admitted, past)
  }

  // The stream walker's last page arms a release.
  function WalkerArm(l: Ledger, i: nat): (r: Ledger)
    requires Shape(l) && i < 32
    ensures Shape(r) && r.next == l.next
  {
    l.(streams := l.streams[i := Or(l.streams[i], 3)])
  }

  // The walker hands an ended stream back to the voice interrupt.
  function WalkerRelease(l: Ledger, i: nat): (r: Ledger)
    requires Shape(l) && i < 32
    ensures Shape(r) && r.next == l.next
  {
    var x := l.v[i];
    l.(v := l.v[i := x.(rate := U8(x.rate + (if Bit(x.flags, 3) then 0x50 else 3)),
                        flags := Or(x.flags, 0))],
       streams := l.streams[i := 0])
  }
}
