/** The per-publication video frame buffer: reassembly of RTP packets into whole
    frames, with the wrapping field arithmetic of section 5.1 of RFC 3550 and the
    serial comparisons of section 3.2 of RFC 1982. */
module VideoFrames {

  type U16 = x: int | 0 <= x < 0x1_0000
  type U32 = x: int | 0 <= x < 0x1_0000_0000

  // `size` is the marshalled size, `id` tells otherwise equal packets apart.
  datatype Packet = Packet(timestamp: U32, sequence: U16, marker: bool, size: nat, id: nat)

  const MAX_FRAME_BYTES := 0x100_0000
  const MAX_FRAME_PACKETS := 128

  // int32(timestamp - previous) > 0
  predicate TimestampAfter(timestamp: U32, previous: U32) {
    0 < (timestamp - previous) % 0x1_0000_0000 < 0x8000_0000
  }

  // int16(a - b) > 0
  predicate SequenceAfter(a: U16, b: U16) {
    0 < (a - b) % 0x1_0000 < 0x8000
  }

  predicate After(p: Packet, q: Packet) {
    SequenceAfter(p.sequence, q.sequence)
  }

  function Bytes(ps: seq<Packet>): nat {
    if ps == [] then 0 else Bytes(ps[..|ps| - 1]) + ps[|ps| - 1].size
  }

  predicate Duplicate(ps: seq<Packet>, sequence: U16) {
    exists i :: 0 <= i < |ps| && ps[i].sequence == sequence
  }

  // -- Ordering one frame -----------------------------------------------------

  function Insert(ps: seq<Packet>, p: Packet): seq<Packet> {
    if ps == [] || !After(ps[|ps| - 1], p) then ps + [p]
    else Insert(ps[..|ps| - 1], p) + [ps[|ps| - 1]]
  }

  function Sort(ps: seq<Packet>): seq<Packet> {
    if ps == [] then [] else Insert(Sort(ps[..|ps| - 1]), ps[|ps| - 1])
  }

  // No packet serially follows its right neighbour.
  ghost predicate Stepwise(ps: seq<Packet>) {
    forall i :: 0 < i < |ps| ==> !After(ps[i - 1], ps[i])
  }

  // How often `x` occurs.
  function Count(ps: seq<Packet>, x: Packet): nat {
    if ps == [] then 0 else Count(ps[..|ps| - 1], x) + if ps[|ps| - 1] == x then 1 else 0
  }

  lemma CountOneMore(ps: seq<Packet>, p: Packet, x: Packet)
    ensures Count(ps + [p], x) == Count(ps, x) + if p == x then 1 else 0
  {
    assert (ps + [p])[..|ps|] == ps;
  }

  lemma {:induction false} InsertPermutes(ps: seq<Packet>, p: Packet, x: Packet)
    ensures Count(Insert(ps, p), x) == Count(ps, x) + if p == x then 1 else 0
    ensures |Insert(ps, p)| == |ps| + 1
    decreases |ps|
  {
    if ps == [] || !After(ps[|ps| - 1], p) {
      CountOneMore(ps, p, x);
    } else {
      InsertPermutes(ps[..|ps| - 1], p, x);
      CountOneMore(Insert(ps[..|ps| - 1], p), ps[|ps| - 1], x);
    }
  }

  lemma {:induction false} InsertStepwise(ps: seq<Packet>, p: Packet)
    requires Stepwise(ps)
    ensures Stepwise(Insert(ps, p))
    ensures Insert(ps, p)[|Insert(ps, p)| - 1] == if ps == [] || !After(ps[|ps| - 1], p) then p else ps[|ps| - 1]
    decreases |ps|
  {
    if ps != [] && After(ps[|ps| - 1], p) {
      InsertStepwise(ps[..|ps| - 1], p);
    }
  }

  lemma {:induction false} SortPermutes(ps: seq<Packet>, x: Packet)
    ensures Count(Sort(ps), x) == Count(ps, x) && |Sort(ps)| == |ps|
    decreases |ps|
  {
    if ps != [] {
      SortPermutes(ps[..|ps| - 1], x);
      InsertPermutes(Sort(ps[..|ps| - 1]), ps[|ps| - 1], x);
    }
  }

  lemma {:induction false} SortKeepsBytes(ps: seq<Packet>)
    ensures Bytes(Sort(ps)) == Bytes(ps)
    decreases |ps|
  {
    if ps != [] {
      SortKeepsBytes(ps[..|ps| - 1]);
      InsertBytes(Sort(ps[..|ps| - 1]), ps[|ps| - 1]);
    }
  }

  lemma {:induction false} InsertBytes(ps: seq<Packet>, p: Packet)
    ensures Bytes(Insert(ps, p)) == Bytes(ps) + p.size
    decreases |ps|
  {
    if ps == [] || !After(ps[|ps| - 1], p) {
      assert (ps + [p])[..|ps|] == ps;
    } else {
      var rest := Insert(ps[..|ps| - 1], p);
      InsertBytes(ps[..|ps| - 1], p);
      assert (rest + [ps[|ps| - 1]])[..|rest|] == rest;
    }
  }

  // The comparison is not transitive over a whole frame of arbitrary sequence
  // numbers; adjacent pairs come out in order all the same.
  lemma {:induction false} SortIsStepwise(ps: seq<Packet>)
    ensures Stepwise(Sort(ps))
    decreases |ps|
  {
    if ps != [] {
      SortIsStepwise(ps[..|ps| - 1]);
      InsertStepwise(Sort(ps[..|ps| - 1]), ps[|ps| - 1]);
    }
  }

  // A packet goes in behind the last one that it does not precede.
  lemma {:induction false} InsertHere(ps: seq<Packet>, k: nat, p: Packet)
    requires k <= |ps| && (k > 0 ==> !After(ps[k - 1], p)) && forall m :: k <= m < |ps| ==> After(ps[m], p)
    ensures Insert(ps, p) == ps[..k] + [p] + ps[k..]
    decreases |ps|
  {
    if k == |ps| {
      assert ps[..k] == ps && ps[k..] == [];
    } else {
      var front, last := ps[..|ps| - 1], ps[|ps| - 1];
      InsertHere(front, k, p);
      InsertMiddle(front, last, k, p);
      assert front + [last] == ps;
    }
  }

  lemma InsertMiddle(front: seq<Packet>, last: Packet, k: nat, p: Packet)
    requires k <= |front|
    ensures (front[..k] + [p] + front[k..]) + [last] == (front + [last])[..k] + [p] + (front + [last])[k..]
  {
  }

  // Packet i has moved left to place j + 1, and those it passed one place right.
  ghost predicate Moved(was: seq<Packet>, now: seq<Packet>, i: nat, j: int)
    requires -1 <= j < i < |was| == |now|
  {
    && (forall k :: 0 <= k <= j ==> now[k] == was[k])
    && now[j + 1] == was[i]
    && (forall k :: j + 1 < k <= i ==> now[k] == was[k - 1])
    && (forall k :: i < k < |was| ==> now[k] == was[k])
  }

  lemma MovedIsInserted(was: seq<Packet>, now: seq<Packet>, i: nat, j: int)
    requires -1 <= j < i < |was| == |now| && Moved(was, now, i, j)
    requires (j >= 0 ==> !After(was[j], was[i])) && forall k :: j < k < i ==> After(was[k], was[i])
    ensures now == Insert(was[..i], was[i]) + was[i + 1..]
  {
    InsertHere(was[..i], j + 1, was[i]);
    MovedParts(was, now, i, j);
  }

  lemma MovedParts(was: seq<Packet>, now: seq<Packet>, i: nat, j: int)
    requires -1 <= j < i < |was| == |now| && Moved(was, now, i, j)
    ensures now == was[..i][..j + 1] + [was[i]] + was[..i][j + 1..] + was[i + 1..]
  {
    var front, passed, rest := was[..i][..j + 1], was[..i][j + 1..], was[i + 1..];
    var whole := front + [was[i]] + passed + rest;
    assert |whole| == |now|;
    forall k | 0 <= k < |now| ensures whole[k] == now[k] {
      if j + 1 < k <= i { assert whole[k] == passed[k - j - 2] == was[k - 1]; }
    }
  }

  // The body of the insertion sort: packets[i] moves left past every packet
  // that serially follows it.
  method MoveLeft(packets: array<Packet>, i: int) returns (j: int)
    requires 0 < i < packets.Length
    modifies packets
    ensures -1 <= j < i && (j >= 0 ==> !After(old(packets[j]), old(packets[i])))
    ensures forall k :: j < k < i ==> After(old(packets[k]), old(packets[i]))
    ensures Moved(old(packets[..]), packets[..], i, j)
  {
    var packet := packets[i];
    j := i - 1;
    while j >= 0 && After(packets[j], packet)
      invariant -1 <= j < i
      invariant forall k :: 0 <= k <= j ==> packets[k] == old(packets[k])
      invariant forall k :: j + 1 < k <= i ==> packets[k] == old(packets[k - 1])
      invariant forall k :: i < k < packets.Length ==> packets[k] == old(packets[k])
      invariant forall k :: j < k < i ==> After(old(packets[k]), packet)
    {
      packets[j + 1] := packets[j];
      j := j - 1;
    }
    packets[j + 1] := packet;
  }

  method InsertAt(packets: array<Packet>, i: int)
    requires 0 < i < packets.Length
    modifies packets
    ensures packets[..] == Insert(old(packets[..])[..i], old(packets[i])) + old(packets[..])[i + 1..]
  {
    ghost var was := packets[..];
    var j := MoveLeft(packets, i);
    MovedIsInserted(was, packets[..], i, j);
  }

  lemma SortOneMore(ps: seq<Packet>, i: nat)
    requires i < |ps|
    ensures Sort(ps[..i + 1]) == Insert(Sort(ps[..i]), ps[i])
  {
    assert ps[..i + 1][..i] == ps[..i];
  }

  // The slice once its first `i` packets are in order.
  ghost function PartSorted(ps: seq<Packet>, i: nat): (r: seq<Packet>)
    requires i <= |ps|
    ensures |r| == |ps| && r[..i] == Sort(ps[..i]) && r[i..] == ps[i..]
  {
    SortLength(ps[..i]);
    Sort(ps[..i]) + ps[i..]
  }

  lemma {:induction false} SortLength(ps: seq<Packet>)
    ensures |Sort(ps)| == |ps|
    decreases |ps|
  {
    if ps != [] {
      SortLength(ps[..|ps| - 1]);
      InsertPermutes(Sort(ps[..|ps| - 1]), ps[|ps| - 1], ps[|ps| - 1]);
    }
  }

  lemma SortGrows(ps: seq<Packet>, i: nat)
    requires i < |ps|
    ensures var now := PartSorted(ps, i);
            now[i] == ps[i] && Insert(now[..i], now[i]) + now[i + 1..] == PartSorted(ps, i + 1)
  {
    var now := PartSorted(ps, i);
    SortOneMore(ps, i);
    assert now[i] == now[i..][0] && ps[i] == ps[i..][0];
    assert now[i + 1..] == now[i..][1..] && ps[i + 1..] == ps[i..][1..];
  }

  // sortFramePackets: an in-place insertion sort.
  method SortFramePackets(packets: array<Packet>)
    modifies packets
    ensures packets[..] == Sort(old(packets[..]))
  {
    ghost var was := packets[..];
    if packets.Length == 0 { return; }
    SortOneMore(was, 0);
    var i := 1;
    while i < packets.Length
      invariant 1 <= i <= packets.Length
      invariant packets[..] == PartSorted(was, i)
    {
      SortGrows(was, i);
      InsertAt(packets, i);
      i := i + 1;
    }
    assert was[..i] == was && was[i..] == [];
  }

  // -- The buffer -------------------------------------------------------------

  datatype Buffer = Buffer(
    timestamp: U32,
    lastTimestamp: U32,
    packets: seq<Packet>,
    bytes: nat,
    active: bool,
    dropping: bool,
    hasLastTimestamp: bool)

  datatype Emission = Emission(packets: seq<Packet>, bytes: nat)

  const Fresh := Buffer(0, 0, [], 0, false, false, false)

  function Start(b: Buffer, timestamp: U32): Buffer {
    Buffer(timestamp, b.lastTimestamp, [], 0, true, false, b.hasLastTimestamp)
  }

  // A packet of a frame already passed.
  predicate Ignored(b: Buffer, p: Packet) {
    if !b.active then b.hasLastTimestamp && !TimestampAfter(p.timestamp, b.lastTimestamp)
    else b.timestamp != p.timestamp && !TimestampAfter(p.timestamp, b.timestamp)
  }

  function Opened(b: Buffer, p: Packet): Buffer {
    if b.active && b.timestamp == p.timestamp then b else Start(b, p.timestamp)
  }

  function Stored(b: Buffer, p: Packet): Buffer {
    if b.dropping then b
    else if p.size > MAX_FRAME_BYTES - b.bytes || |b.packets| >= MAX_FRAME_PACKETS
    then b.(packets := [], bytes := 0, dropping := true)
    else b.(packets := b.packets + [p], bytes := b.bytes + p.size)
  }

  function Closed(b: Buffer): Buffer {
    Buffer(0, b.timestamp, [], 0, false, false, true)
  }

  function Add(b: Buffer, p: Packet): (Buffer, seq<Emission>) {
    if Ignored(b, p) then (b, []) else
    var o := Opened(b, p);
    if !o.dropping && Duplicate(o.packets, p.sequence) then (o, []) else
    var s := Stored(o, p);
    if !p.marker then (s, [])
    else (Closed(s), if s.dropping then [] else [Emission(Sort(s.packets), s.bytes)])
  }

  class VideoFrameBuffer {
    var timestamp: U32
    var lastTimestamp: U32
    var packets: seq<Packet>
    var bytes: nat
    var active: bool
    var dropping: bool
    var hasLastTimestamp: bool

    function State(): Buffer
      reads this
    {
      Buffer(timestamp, lastTimestamp, packets, bytes, active, dropping, hasLastTimestamp)
    }

    constructor ()
      ensures State() == Fresh
    {
      timestamp, lastTimestamp, packets, bytes := 0, 0, [], 0;
      active, dropping, hasLastTimestamp := false, false, false;
    }

    method StartFrame(ts: U32)
      modifies this
      ensures State() == Start(old(State()), ts)
    {
      timestamp, packets, bytes, active, dropping := ts, [], 0, true, false;
    }

    method IsDuplicate(sequence: U16) returns (found: bool)
      ensures found == Duplicate(packets, sequence)
    {
      for i := 0 to |packets|
        invariant forall j :: 0 <= j < i ==> packets[j].sequence != sequence
      {
        if packets[i].sequence == sequence {
          return true;
        }
      }
      return false;
    }

    // Begins a new frame unless the packet belongs to one already passed.
    method Open(packet: Packet) returns (accepted: bool)
      modifies this
      ensures accepted == !Ignored(old(State()), packet)
      ensures State() == if accepted then Opened(old(State()), packet) else old(State())
    {
      if !active {
        if hasLastTimestamp && !TimestampAfter(packet.timestamp, lastTimestamp) {
          return false;
        }
        StartFrame(packet.timestamp);
      } else if timestamp != packet.timestamp {
        if !TimestampAfter(packet.timestamp, timestamp) {
          return false;
        }
        StartFrame(packet.timestamp);
      }
      return true;
    }

    method Store(packet: Packet)
      modifies this
      ensures State() == Stored(old(State()), packet)
    {
      if !dropping {
        if packet.size > MAX_FRAME_BYTES - bytes || |packets| >= MAX_FRAME_PACKETS {
          packets, bytes, dropping := [], 0, true;
        } else {
          packets, bytes := packets + [packet], bytes + packet.size;
        }
      }
    }

    // Returns a frame exactly when a marker completes one.
    method AddPacket(packet: Packet) returns (frame: seq<Packet>, frameBytes: nat, complete: bool)
      modifies this
      ensures State() == Add(old(State()), packet).0
      ensures Add(old(State()), packet).1 == if complete then [Emission(frame, frameBytes)] else []
    {
      frame, frameBytes, complete := [], 0, false;
      var accepted := Open(packet);
      if !accepted {
        return;
      }
      if !dropping {
        var duplicate := IsDuplicate(packet.sequence);
        if duplicate {
          return;
        }
      }
      Store(packet);
      if !packet.marker {
        return;
      }
      frame, frameBytes, complete := packets, bytes, !dropping;
      lastTimestamp, hasLastTimestamp := timestamp, true;
      timestamp, packets, bytes, active, dropping := 0, [], 0, false, false;
      if !complete {
        return;
      }
      frame := SortedFrame(frame);
    }

    method SortedFrame(collected: seq<Packet>) returns (frame: seq<Packet>)
      ensures frame == Sort(collected)
    {
      if |collected| > 1 {
        var slice := new Packet[|collected|](i requires 0 <= i < |collected| => collected[i]);
        assert slice[..] == collected;
        SortFramePackets(slice);
        return slice[..];
      }
      if |collected| == 1 {
        assert collected[..0] == [] && Sort(collected) == Insert([], collected[0]);
      }
      return collected;
    }
  }

  // -- Any arrival --------------------------------------------------------------

  // The timestamp of the frame being collected, or of the last one closed.
  datatype Clock = Unset | At(ts: U32)

  function Current(b: Buffer): Clock {
    if b.active then At(b.timestamp) else if b.hasLastTimestamp then At(b.lastTimestamp) else Unset
  }

  // What the buffer has done so far: its state, the frames it emitted, its
  // clock without wraparound, and that clock at each emission.
  datatype Trace = Trace(buffer: Buffer, frames: seq<Emission>, clock: int, stamps: seq<int>)

  function Advance(t: Trace, p: Packet): Trace {
    var (b, out) := Add(t.buffer, p);
    var clock := match (Current(t.buffer), Current(b))
      case (At(before), At(after)) => t.clock + (after - before) % 0x1_0000_0000
      case (Unset, At(after)) => after
      case _ => t.clock;
    Trace(b, t.frames + out, clock, t.stamps + if out == [] then [] else [clock])
  }

  function Feed(t: Trace, ps: seq<Packet>): Trace {
    if ps == [] then t else Advance(Feed(t, ps[..|ps| - 1]), ps[|ps| - 1])
  }

  const Idle := Trace(Fresh, [], 0, [])

  function Flatten(frames: seq<Emission>): seq<Packet> {
    if frames == [] then [] else Flatten(frames[..|frames| - 1]) + frames[|frames| - 1].packets
  }

  ghost predicate DistinctSequences(ps: seq<Packet>) {
    forall i, j :: 0 <= i < j < |ps| ==> ps[i].sequence != ps[j].sequence
  }

  ghost predicate OneTimestamp(ps: seq<Packet>, ts: int) {
    forall i :: 0 <= i < |ps| ==> ps[i].timestamp == ts
  }

  ghost predicate SafeFrame(e: Emission, stamp: int) {
    && 0 < |e.packets| <= MAX_FRAME_PACKETS
    && e.bytes == Bytes(e.packets) <= MAX_FRAME_BYTES
    && OneTimestamp(e.packets, stamp % 0x1_0000_0000)
    && DistinctSequences(e.packets)
    && Stepwise(e.packets)
    && exists i :: 0 <= i < |e.packets| && e.packets[i].marker
  }

  ghost predicate SafeBuffer(b: Buffer) {
    && (b.active ==> OneTimestamp(b.packets, b.timestamp))
    && (!b.active || b.dropping ==> b.packets == [])
    && (!b.active ==> !b.dropping)
    && DistinctSequences(b.packets)
    && b.bytes == Bytes(b.packets) <= MAX_FRAME_BYTES
    && |b.packets| <= MAX_FRAME_PACKETS
  }

  ghost predicate SafeClock(t: Trace) {
    && (Current(t.buffer).At? ==> t.clock % 0x1_0000_0000 == Current(t.buffer).ts)
    && (t.stamps != [] ==> Current(t.buffer).At?)
    && (forall i :: 0 < i < |t.stamps| ==> t.stamps[i - 1] < t.stamps[i])
    && (t.stamps != [] ==> t.stamps[|t.stamps| - 1] <= t.clock)
    && (t.stamps != [] && t.buffer.active ==> t.stamps[|t.stamps| - 1] < t.clock)
  }

  ghost predicate Safe(t: Trace) {
    && SafeBuffer(t.buffer)
    && SafeClock(t)
    && |t.frames| == |t.stamps|
    && forall i :: 0 <= i < |t.frames| ==> SafeFrame(t.frames[i], t.stamps[i])
  }

  lemma StoredIsSafe(b: Buffer, p: Packet)
    requires SafeBuffer(b) && b.active && p.timestamp == b.timestamp
    requires !b.dropping ==> !Duplicate(b.packets, p.sequence)
    ensures SafeBuffer(Stored(b, p))
  {
    assert (b.packets + [p])[..|b.packets|] == b.packets;
  }

  lemma AddIsSafe(b: Buffer, p: Packet)
    requires SafeBuffer(b)
    ensures SafeBuffer(Add(b, p).0)
  {
    if !Ignored(b, p) {
      var o := Opened(b, p);
      if o.dropping || !Duplicate(o.packets, p.sequence) { StoredIsSafe(o, p); }
    }
  }

  lemma {:induction false} CountIsMembership(ps: seq<Packet>, x: Packet)
    ensures Count(ps, x) > 0 <==> x in ps
    decreases |ps|
  {
    if ps != [] {
      CountIsMembership(ps[..|ps| - 1], x);
      assert ps == ps[..|ps| - 1] + [ps[|ps| - 1]];
    }
  }

  lemma {:induction false} CountTwice(ps: seq<Packet>, i: nat, j: nat)
    requires i < j < |ps| && ps[i] == ps[j]
    ensures Count(ps, ps[i]) >= 2
    decreases |ps|
  {
    if j < |ps| - 1 {
      CountTwice(ps[..|ps| - 1], i, j);
    } else {
      CountIsMembership(ps[..|ps| - 1], ps[i]);
      assert ps[..|ps| - 1][i] == ps[i];
    }
  }

  lemma {:induction false} CountDistinct(ps: seq<Packet>, x: Packet)
    requires DistinctSequences(ps)
    ensures Count(ps, x) <= 1
    decreases |ps|
  {
    if ps != [] {
      CountDistinct(ps[..|ps| - 1], x);
      CountIsMembership(ps[..|ps| - 1], x);
    }
  }

  // A rearrangement keeps the one timestamp and the distinct sequence numbers.
  lemma RearrangedFrame(ps: seq<Packet>, qs: seq<Packet>, ts: int)
    requires forall x :: Count(qs, x) == Count(ps, x)
    requires OneTimestamp(ps, ts) && DistinctSequences(ps)
    ensures OneTimestamp(qs, ts) && DistinctSequences(qs)
  {
    forall i | 0 <= i < |qs| ensures qs[i] in ps {
      CountIsMembership(ps, qs[i]);
      CountIsMembership(qs, qs[i]);
    }
    forall i, j | 0 <= i < j < |qs| ensures qs[i] != qs[j] {
      CountDistinct(ps, qs[i]);
      if qs[i] == qs[j] { CountTwice(qs, i, j); }
    }
    forall i, j | 0 <= i < j < |qs| ensures qs[i].sequence != qs[j].sequence {
      assert qs[i] in ps && qs[j] in ps && qs[i] != qs[j];
    }
  }

  lemma EmissionShape(b: Buffer, p: Packet)
    requires Add(b, p).1 != []
    ensures var o := Opened(b, p);
            && !Ignored(b, p) && p.marker && !o.dropping && !Duplicate(o.packets, p.sequence) && !Stored(o, p).dropping
            && Stored(o, p).packets == o.packets + [p]
            && Add(b, p).1 == [Emission(Sort(Stored(o, p).packets), Stored(o, p).bytes)]
  {
  }

  lemma EmissionIsSafe(b: Buffer, p: Packet, stamp: int)
    requires SafeBuffer(b) && Add(b, p).1 != []
    requires stamp % 0x1_0000_0000 == p.timestamp
    ensures |Add(b, p).1| == 1 && SafeFrame(Add(b, p).1[0], stamp)
  {
    var o := Opened(b, p);
    EmissionShape(b, p);
    StoredIsSafe(o, p);
    SortedFrameIsSafe(Stored(o, p).packets, p, stamp);
  }

  lemma SortedFrameIsSafe(ps: seq<Packet>, p: Packet, stamp: int)
    requires 0 < |ps| <= MAX_FRAME_PACKETS && Bytes(ps) <= MAX_FRAME_BYTES && DistinctSequences(ps)
    requires OneTimestamp(ps, stamp % 0x1_0000_0000) && p in ps && p.marker
    ensures SafeFrame(Emission(Sort(ps), Bytes(ps)), stamp)
  {
    forall x ensures Count(Sort(ps), x) == Count(ps, x) { SortPermutes(ps, x); }
    SortPermutes(ps, p);
    SortKeepsBytes(ps);
    SortIsStepwise(ps);
    RearrangedFrame(ps, Sort(ps), stamp % 0x1_0000_0000);
    CountIsMembership(ps, p);
    CountIsMembership(Sort(ps), p);
  }

  lemma Unwraps(clock: int, before: U32, after: U32)
    requires clock % 0x1_0000_0000 == before
    ensures (clock + (after - before) % 0x1_0000_0000) % 0x1_0000_0000 == after
  {
  }

  // How one packet moves the buffer's current timestamp.
  lemma AddMovesClock(b: Buffer, p: Packet)
    ensures var n := Add(b, p).0;
            if Ignored(b, p) then n == b && Add(b, p).1 == []
            else && Current(n) == At(p.timestamp)
                 && (Current(b).At? ==>
                       if b.active && b.timestamp == p.timestamp then Current(b).ts == p.timestamp
                       else TimestampAfter(p.timestamp, Current(b).ts))
                 && (Add(b, p).1 != [] ==> !n.active && |Add(b, p).1| == 1)
                 && (n.active && !(b.active && b.timestamp == p.timestamp) ==>
                      Current(b) == Unset || Current(b).ts != p.timestamp)
  {
  }

  lemma ClockMoves(t: Trace, p: Packet)
    requires SafeBuffer(t.buffer) && SafeClock(t) && !Ignored(t.buffer, p)
    ensures Current(Advance(t, p).buffer) == At(p.timestamp)
    ensures Advance(t, p).clock % 0x1_0000_0000 == p.timestamp
    ensures t.stamps != [] ==> t.stamps[|t.stamps| - 1] < Advance(t, p).clock
    ensures Add(t.buffer, p).1 != [] ==> !Advance(t, p).buffer.active && |Add(t.buffer, p).1| == 1
  {
    AddMovesClock(t.buffer, p);
    if Current(t.buffer).At? { Unwraps(t.clock, Current(t.buffer).ts, p.timestamp); }
  }

  lemma IgnoredAdvancesNothing(t: Trace, p: Packet)
    requires Ignored(t.buffer, p)
    ensures Advance(t, p) == t
  {
    if Current(t.buffer).At? { assert (Current(t.buffer).ts - Current(t.buffer).ts) % 0x1_0000_0000 == 0; }
  }

  lemma AdvanceKeepsClock(t: Trace, p: Packet)
    requires SafeBuffer(t.buffer) && SafeClock(t)
    ensures SafeClock(Advance(t, p))
    ensures Advance(t, p).frames != t.frames ==> Advance(t, p).clock % 0x1_0000_0000 == p.timestamp
  {
    if Ignored(t.buffer, p) { IgnoredAdvancesNothing(t, p); } else { ClockMoves(t, p); }
  }

  lemma AdvanceKeepsSafe(t: Trace, p: Packet)
    requires Safe(t)
    ensures Safe(Advance(t, p))
  {
    var out := Add(t.buffer, p).1;
    AddIsSafe(t.buffer, p);
    AdvanceKeepsClock(t, p);
    if out != [] {
      EmissionIsSafe(t.buffer, p, Advance(t, p).clock);
    }
  }

  // On any packets in any order, every frame the buffer emits is whole and
  // ordered, and the unwrapped clock strictly advances from frame to frame.
  lemma {:induction false} EveryFeedIsSafe(ps: seq<Packet>)
    ensures Safe(Feed(Idle, ps))
    decreases |ps|
  {
    if ps != [] {
      EveryFeedIsSafe(ps[..|ps| - 1]);
      AdvanceKeepsSafe(Feed(Idle, ps[..|ps| - 1]), ps[|ps| - 1]);
    }
  }

  lemma FlattenOne(e: Emission)
    ensures Flatten([e]) == e.packets
  {
    assert [e][..0] == [] && Flatten([]) == [];
  }

  lemma StoredConserves(b: Buffer, p: Packet, x: Packet)
    ensures Count(Stored(b, p).packets, x) <= Count(b.packets, x) + if x == p then 1 else 0
  {
    CountOneMore(b.packets, p, x);
  }

  lemma EmittedConserves(s: Buffer, x: Packet)
    ensures Count(Flatten([Emission(Sort(s.packets), s.bytes)]), x) == Count(s.packets, x)
  {
    SortPermutes(s.packets, x);
    FlattenOne(Emission(Sort(s.packets), s.bytes));
  }

  lemma AddConserves(b: Buffer, p: Packet, x: Packet)
    ensures Count(Add(b, p).0.packets, x) + Count(Flatten(Add(b, p).1), x) <=
            Count(b.packets, x) + if x == p then 1 else 0
  {
    var o := Opened(b, p);
    assert Count(o.packets, x) <= Count(b.packets, x);
    StoredConserves(o, p, x);
    EmittedConserves(Stored(o, p), x);
  }

  lemma {:induction false} CountSplits(a: seq<Packet>, b: seq<Packet>, x: Packet)
    ensures Count(a + b, x) == Count(a, x) + Count(b, x)
    decreases |b|
  {
    if b == [] {
      assert a + b == a;
    } else {
      CountSplits(a, b[..|b| - 1], x);
      assert (a + b)[..|a + b| - 1] == a + b[..|b| - 1];
    }
  }

  lemma FlattenMore(frames: seq<Emission>, out: seq<Emission>)
    requires |out| <= 1
    ensures Flatten(frames + out) == Flatten(frames) + Flatten(out)
  {
    if out == [] {
      assert frames + out == frames;
    } else {
      FlattenOne(out[0]);
      assert (frames + out)[..|frames|] == frames && out == [out[0]];
    }
  }

  // No packet is emitted more often than it arrived, whichever frame it is in.
  lemma {:induction false} NothingEmittedTwice(ps: seq<Packet>, x: Packet)
    ensures var t := Feed(Idle, ps);
            Count(Flatten(t.frames), x) + Count(t.buffer.packets, x) <= Count(ps, x)
    decreases |ps|
  {
    if ps != [] {
      var t := Feed(Idle, ps[..|ps| - 1]);
      var out := Add(t.buffer, ps[|ps| - 1]).1;
      NothingEmittedTwice(ps[..|ps| - 1], x);
      EveryFeedIsSafe(ps[..|ps| - 1]);
      AddConserves(t.buffer, ps[|ps| - 1], x);
      FlattenMore(t.frames, out);
      CountSplits(Flatten(t.frames), Flatten(out), x);
    }
  }
}
