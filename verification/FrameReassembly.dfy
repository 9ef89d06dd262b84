/** Reassembly refines grouping: whatever order a publisher's frames arrive in,
    each one comes out once, whole and in sequence order. */
module FrameReassembly {
  import opened VideoFrames

  // A frame as its publisher sent it.  Its sequence numbers fit in half the
  // 16-bit range: each packet serially follows every packet before it.
  ghost predicate WellFormedFrame(f: seq<Packet>, stamp: int) {
    && 0 < |f| <= MAX_FRAME_PACKETS
    && Bytes(f) <= MAX_FRAME_BYTES
    && OneTimestamp(f, stamp % 0x1_0000_0000)
    && forall i, j :: 0 <= i < j < |f| ==> After(f[j], f[i])
  }

  // Timestamps that advance serially, unwrapped.
  ghost predicate Advancing(stamps: seq<int>) {
    forall i :: 0 < i < |stamps| ==> 0 < stamps[i] - stamps[i - 1] < 0x8000_0000
  }

  // One packet reaching the buffer while frame k is due: a packet of frame k
  // for the first time, a repeat of one, or a late packet of frame `origin`.
  datatype Arrival =
    | First(packet: Packet)
    | Repeat(packet: Packet)
    | Late(packet: Packet, origin: nat)

  function Packets(arrivals: seq<Arrival>): seq<Packet> {
    if arrivals == [] then [] else Packets(arrivals[..|arrivals| - 1]) + [arrivals[|arrivals| - 1].packet]
  }

  function Firsts(arrivals: seq<Arrival>): seq<Packet> {
    if arrivals == [] then []
    else
      var last := arrivals[|arrivals| - 1];
      Firsts(arrivals[..|arrivals| - 1]) + if last.First? then [last.packet] else []
  }

  // A late packet belongs to an earlier frame, at most half the timestamp range back.
  ghost predicate LateOk(a: Arrival, stamps: seq<int>, k: nat)
    requires a.Late? && k < |stamps|
  {
    a.origin < k && stamps[k] - stamps[a.origin] <= 0x8000_0000 &&
    a.packet.timestamp == stamps[a.origin] % 0x1_0000_0000
  }

  ghost predicate NoiseOk(arrivals: seq<Arrival>, i: nat, stamps: seq<int>, k: nat)
    requires i < |arrivals| && k < |stamps|
  {
    match arrivals[i]
    case First(p) => p.marker <==> i == |arrivals| - 1
    case Repeat(p) => p.timestamp == stamps[k] % 0x1_0000_0000 && Duplicate(Firsts(arrivals[..i]), p.sequence)
    case Late(_, _) => LateOk(arrivals[i], stamps, k)
  }

  // The packets that arrive from the end of frame k - 1 to the end of frame k:
  // frame k in some order, its marker last, among repeats and late packets.
  ghost predicate Delivers(arrivals: seq<Arrival>, f: seq<Packet>, stamps: seq<int>, k: nat)
    requires k < |stamps|
  {
    && arrivals != [] && arrivals[|arrivals| - 1].First?
    && (forall x :: Count(Firsts(arrivals), x) == Count(f, x))
    && forall i :: 0 <= i < |arrivals| ==> NoiseOk(arrivals, i, stamps, k)
  }

  // -- A sorted frame is the frame ---------------------------------------------

  lemma FollowsOneWay(f: seq<Packet>, i: nat, j: nat)
    requires forall a, b :: 0 <= a < b < |f| ==> After(f[b], f[a])
    requires i < |f| && j < |f| && f[i] != f[j] && !After(f[i], f[j])
    ensures i < j
  {
  }

  ghost function Position(f: seq<Packet>, p: Packet): (i: nat)
    requires p in f
    ensures i < |f| && f[i] == p
  {
    var i :| 0 <= i < |f| && f[i] == p;
    i
  }

  lemma InOrderDistinct(f: seq<Packet>)
    requires forall i, j :: 0 <= i < j < |f| ==> After(f[j], f[i])
    ensures DistinctSequences(f)
  {
  }

  // Positions of a stepwise rearrangement climb one at a time.
  lemma {:induction false} PositionsClimb(f: seq<Packet>, r: seq<Packet>, i: nat)
    requires i < |r| && Stepwise(r) && DistinctSequences(r)
    requires forall k :: 0 <= k < |r| ==> r[k] in f
    requires forall a, b :: 0 <= a < b < |f| ==> After(f[b], f[a])
    ensures i <= Position(f, r[i])
  {
    if i > 0 {
      PositionsClimb(f, r, i - 1);
      assert r[i - 1].sequence != r[i].sequence;
      FollowsOneWay(f, Position(f, r[i - 1]), Position(f, r[i]));
    }
  }

  lemma {:induction false} PositionsFit(f: seq<Packet>, r: seq<Packet>, i: nat)
    requires i < |r| == |f| && Stepwise(r) && DistinctSequences(r)
    requires forall k :: 0 <= k < |r| ==> r[k] in f
    requires forall a, b :: 0 <= a < b < |f| ==> After(f[b], f[a])
    ensures Position(f, r[i]) <= i
    decreases |r| - i
  {
    if i < |r| - 1 {
      PositionsFit(f, r, i + 1);
      assert r[i].sequence != r[i + 1].sequence;
      FollowsOneWay(f, Position(f, r[i]), Position(f, r[i + 1]));
    }
  }

  lemma {:induction false} CountsGiveLength(ps: seq<Packet>, qs: seq<Packet>)
    requires DistinctSequences(ps) && forall x :: Count(ps, x) == Count(qs, x)
    ensures |ps| <= |qs|
    decreases |ps|
  {
    if ps != [] {
      var init, last := ps[..|ps| - 1], ps[|ps| - 1];
      CountIsMembership(ps, last);
      CountIsMembership(qs, last);
      var i :| 0 <= i < |qs| && qs[i] == last;
      var rest := qs[..i] + qs[i + 1..];
      forall x ensures Count(init, x) == Count(rest, x) { CountWithout(qs, i, x); }
      CountsGiveLength(init, rest);
    }
  }

  lemma CountWithout(qs: seq<Packet>, i: nat, x: Packet)
    requires i < |qs|
    ensures Count(qs, x) == Count(qs[..i] + qs[i + 1..], x) + if qs[i] == x then 1 else 0
  {
    assert qs == (qs[..i] + [qs[i]]) + qs[i + 1..];
    CountSplits(qs[..i] + [qs[i]], qs[i + 1..], x);
    CountOneMore(qs[..i], qs[i], x);
    CountSplits(qs[..i], qs[i + 1..], x);
  }

  // Sorting any arrival order of a frame gives the frame back.
  lemma SortRestores(f: seq<Packet>, ps: seq<Packet>, stamp: int)
    requires WellFormedFrame(f, stamp) && forall x :: Count(ps, x) == Count(f, x)
    ensures Sort(ps) == f && Bytes(ps) == Bytes(f) && |ps| == |f|
    ensures OneTimestamp(ps, stamp % 0x1_0000_0000) && DistinctSequences(ps)
  {
    var r := Sort(ps);
    InOrderDistinct(f);
    RearrangedFrame(f, ps, stamp % 0x1_0000_0000);
    forall x ensures Count(r, x) == Count(ps, x) { SortPermutes(ps, x); }
    RearrangedFrame(f, r, stamp % 0x1_0000_0000);
    SortIsStepwise(ps);
    SortKeepsBytes(ps);
    CountsGiveLength(r, f);
    CountsGiveLength(f, r);
    SortPermutes(ps, f[0]);
    forall k | 0 <= k < |r| ensures r[k] in f { CountIsMembership(r, r[k]); CountIsMembership(f, r[k]); }
    forall i | 0 <= i < |r| ensures r[i] == f[i] {
      PositionsClimb(f, r, i);
      PositionsFit(f, r, i);
    }
  }

  // -- Feeding one delivery ------------------------------------------------------

  // The buffer between frame k - 1 and frame k.
  ghost predicate Waiting(b: Buffer, stamps: seq<int>, k: nat)
    requires k <= |stamps|
  {
    && !b.active && !b.dropping && b.packets == [] && b.bytes == 0
    && b.hasLastTimestamp == (k > 0)
    && (k > 0 ==> b.lastTimestamp == stamps[k - 1] % 0x1_0000_0000)
  }

  // The buffer once the packets `got` of frame k have arrived.
  ghost function Holding(b: Buffer, got: seq<Packet>, stamp: int): Buffer {
    if got == [] then b
    else Buffer(stamp % 0x1_0000_0000, b.lastTimestamp, got, Bytes(got), true, false, b.hasLastTimestamp)
  }

  lemma {:induction false} StampsClimb(stamps: seq<int>, i: nat, j: nat)
    requires Advancing(stamps) && i < j < |stamps|
    ensures stamps[i] < stamps[j]
    decreases j
  {
    if i < j - 1 { StampsClimb(stamps, i, j - 1); }
  }

  lemma SerialSteps(before: int, after: int)
    requires 0 < after - before < 0x8000_0000
    ensures TimestampAfter(after % 0x1_0000_0000, before % 0x1_0000_0000)
  {
  }

  lemma SerialPast(before: int, after: int)
    requires 0 < after - before <= 0x8000_0000
    ensures !TimestampAfter(before % 0x1_0000_0000, after % 0x1_0000_0000)
    ensures before % 0x1_0000_0000 != after % 0x1_0000_0000
  {
  }

  lemma LateIsIgnored(b: Buffer, got: seq<Packet>, stamps: seq<int>, k: nat, a: Arrival)
    requires Advancing(stamps) && k < |stamps| && Waiting(b, stamps, k) && a.Late? && LateOk(a, stamps, k)
    ensures Ignored(Holding(b, got, stamps[k]), a.packet)
  {
    StampsClimb(stamps, a.origin, k);
    SerialPast(stamps[a.origin], stamps[k]);
    if got == [] && a.origin < k - 1 {
      StampsClimb(stamps, a.origin, k - 1);
      SerialPast(stamps[a.origin], stamps[k - 1]);
    }
  }

  lemma FirstOpens(b: Buffer, stamps: seq<int>, k: nat, p: Packet)
    requires Advancing(stamps) && k < |stamps| && Waiting(b, stamps, k)
    requires p.timestamp == stamps[k] % 0x1_0000_0000
    ensures !Ignored(b, p) && Opened(b, p) == Start(b, p.timestamp)
  {
    if k > 0 { SerialSteps(stamps[k - 1], stamps[k]); }
  }

  lemma FirstIsHeld(b: Buffer, got: seq<Packet>, stamps: seq<int>, k: nat, p: Packet)
    requires Advancing(stamps) && k < |stamps| && Waiting(b, stamps, k)
    requires p.timestamp == stamps[k] % 0x1_0000_0000 && !Duplicate(got, p.sequence)
    requires |got| < MAX_FRAME_PACKETS && Bytes(got) + p.size <= MAX_FRAME_BYTES
    ensures var h := Holding(b, got, stamps[k]);
            !Ignored(h, p) && !Opened(h, p).dropping && !Duplicate(Opened(h, p).packets, p.sequence) &&
            Stored(Opened(h, p), p) == Holding(b, got + [p], stamps[k])
  {
    if got == [] { OpenerIsHeld(b, stamps, k, p); } else { LaterIsHeld(b, got, stamps[k], p); }
  }

  lemma LaterIsHeld(b: Buffer, got: seq<Packet>, stamp: int, p: Packet)
    requires got != [] && p.timestamp == stamp % 0x1_0000_0000 && !Duplicate(got, p.sequence)
    requires |got| < MAX_FRAME_PACKETS && Bytes(got) + p.size <= MAX_FRAME_BYTES
    ensures var h := Holding(b, got, stamp);
            !Ignored(h, p) && Opened(h, p) == h && !h.dropping && h.packets == got &&
            Stored(h, p) == Holding(b, got + [p], stamp)
  {
    assert (got + [p])[..|got|] == got;
  }

  lemma OpenerIsHeld(b: Buffer, stamps: seq<int>, k: nat, p: Packet)
    requires Advancing(stamps) && k < |stamps| && Waiting(b, stamps, k)
    requires p.timestamp == stamps[k] % 0x1_0000_0000 && p.size <= MAX_FRAME_BYTES
    ensures !Ignored(b, p) && !Opened(b, p).dropping && !Duplicate(Opened(b, p).packets, p.sequence)
    ensures Stored(Opened(b, p), p) == Holding(b, [] + [p], stamps[k])
  {
    FirstOpens(b, stamps, k, p);
    assert [] + [p] == [p] && [p][..0] == [] && Bytes([p]) == p.size;
  }

  lemma {:induction false} FirstsPrefix(arrivals: seq<Arrival>, i: nat)
    requires i <= |arrivals|
    ensures |Firsts(arrivals[..i])| <= |Firsts(arrivals)|
    ensures Firsts(arrivals[..i]) == Firsts(arrivals)[..|Firsts(arrivals[..i])|]
    decreases |arrivals|
  {
    if i == |arrivals| {
      assert arrivals[..i] == arrivals;
    } else {
      FirstsPrefix(arrivals[..|arrivals| - 1], i);
      assert arrivals[..|arrivals| - 1][..i] == arrivals[..i];
    }
  }

  lemma {:induction false} BytesGrow(ps: seq<Packet>, m: nat)
    requires m <= |ps|
    ensures Bytes(ps[..m]) <= Bytes(ps)
    decreases |ps|
  {
    if m == |ps| {
      assert ps[..m] == ps;
    } else {
      BytesGrow(ps[..|ps| - 1], m);
      assert ps[..|ps| - 1][..m] == ps[..m];
    }
  }

  lemma NextFirst(arrivals: seq<Arrival>, f: seq<Packet>, stamps: seq<int>, k: nat, i: nat)
    requires k < |stamps| && WellFormedFrame(f, stamps[k]) && Delivers(arrivals, f, stamps, k)
    requires i < |arrivals| && arrivals[i].First?
    ensures var got, p := Firsts(arrivals[..i]), arrivals[i].packet;
            && p.timestamp == stamps[k] % 0x1_0000_0000 && !Duplicate(got, p.sequence)
            && |got| < MAX_FRAME_PACKETS && Bytes(got) + p.size <= MAX_FRAME_BYTES
            && Firsts(arrivals[..i + 1]) == got + [p]
  {
    var all, got, p := Firsts(arrivals), Firsts(arrivals[..i]), arrivals[i].packet;
    SortRestores(f, all, stamps[k]);
    assert arrivals[..i + 1][..i] == arrivals[..i];
    FirstsPrefix(arrivals, i + 1);
    assert all[..|got| + 1] == got + [p];
    assert all[|got|] == (got + [p])[|got|] == p;
    forall j | 0 <= j < |got| ensures got[j].sequence != p.sequence { assert got[j] == (got + [p])[j] == all[j]; }
    BytesGrow(all, |got| + 1);
    assert (got + [p])[..|got|] == got;
  }

  lemma ArrivalHolds(b: Buffer, arrivals: seq<Arrival>, f: seq<Packet>, stamps: seq<int>, k: nat, i: nat)
    requires Advancing(stamps) && k < |stamps| && Waiting(b, stamps, k)
    requires WellFormedFrame(f, stamps[k]) && Delivers(arrivals, f, stamps, k) && i < |arrivals| - 1
    ensures Add(Holding(b, Firsts(arrivals[..i]), stamps[k]), arrivals[i].packet) ==
            (Holding(b, Firsts(arrivals[..i + 1]), stamps[k]), [])
  {
    var got := Firsts(arrivals[..i]);
    assert arrivals[..i + 1][..i] == arrivals[..i];
    assert NoiseOk(arrivals, i, stamps, k);
    match arrivals[i]
    case First(p) =>
      NextFirst(arrivals, f, stamps, k, i);
      FirstIsHeld(b, got, stamps, k, p);
    case Repeat(p) =>
      assert Firsts(arrivals[..i + 1]) == got;
    case Late(_, _) =>
      LateIsIgnored(b, got, stamps, k, arrivals[i]);
      assert Firsts(arrivals[..i + 1]) == got;
  }

  // Before the marker, the buffer holds exactly the first arrivals.
  lemma {:induction false} DeliveryHolds(t: Trace, arrivals: seq<Arrival>, f: seq<Packet>, stamps: seq<int>, k: nat,
                                         i: nat)
    requires Advancing(stamps) && k < |stamps| && Waiting(t.buffer, stamps, k)
    requires WellFormedFrame(f, stamps[k]) && Delivers(arrivals, f, stamps, k) && i < |arrivals|
    ensures Held(t, Feed(t, Packets(arrivals[..i])), Firsts(arrivals[..i]), stamps[k])
    decreases i
  {
    if i == 0 {
      NothingHeld(t, arrivals, stamps[k]);
    } else {
      var j := i - 1;
      DeliveryHolds(t, arrivals, f, stamps, k, j);
      DeliveryStep(t, arrivals, f, stamps, k, j);
    }
  }

  lemma NothingHeld(t: Trace, arrivals: seq<Arrival>, stamp: int)
    ensures Held(t, Feed(t, Packets(arrivals[..0])), Firsts(arrivals[..0]), stamp)
  {
    assert Packets(arrivals[..0]) == [] && Firsts(arrivals[..0]) == [];
  }

  lemma DeliveryStep(t: Trace, arrivals: seq<Arrival>, f: seq<Packet>, stamps: seq<int>, k: nat, i: nat)
    requires Advancing(stamps) && k < |stamps| && Waiting(t.buffer, stamps, k)
    requires WellFormedFrame(f, stamps[k]) && Delivers(arrivals, f, stamps, k) && i < |arrivals| - 1
    requires Held(t, Feed(t, Packets(arrivals[..i])), Firsts(arrivals[..i]), stamps[k])
    ensures Held(t, Feed(t, Packets(arrivals[..i + 1])), Firsts(arrivals[..i + 1]), stamps[k])
  {
    ArrivalHolds(t.buffer, arrivals, f, stamps, k, i);
    FeedOneMore(t, arrivals, i);
    HeldAdvances(t, Feed(t, Packets(arrivals[..i])), arrivals[i].packet,
                 Firsts(arrivals[..i]), Firsts(arrivals[..i + 1]), stamps[k]);
  }

  // `now` has emitted nothing since `t` and holds the packets `got`.
  ghost predicate Held(t: Trace, now: Trace, got: seq<Packet>, stamp: int) {
    now.buffer == Holding(t.buffer, got, stamp) && now.frames == t.frames
  }

  lemma HeldAdvances(t: Trace, now: Trace, p: Packet, got: seq<Packet>, more: seq<Packet>, stamp: int)
    requires Held(t, now, got, stamp)
    requires Add(Holding(t.buffer, got, stamp), p) == (Holding(t.buffer, more, stamp), [])
    ensures Held(t, Advance(now, p), more, stamp)
  {
  }

  lemma FeedOneMore(t: Trace, arrivals: seq<Arrival>, i: nat)
    requires i < |arrivals|
    ensures Feed(t, Packets(arrivals[..i + 1])) == Advance(Feed(t, Packets(arrivals[..i])), arrivals[i].packet)
  {
    assert arrivals[..i + 1][..i] == arrivals[..i];
    var ps := Packets(arrivals[..i]);
    assert (ps + [arrivals[i].packet])[..|ps|] == ps;
  }

  lemma DeliveryEmits(t: Trace, arrivals: seq<Arrival>, f: seq<Packet>, stamps: seq<int>, k: nat)
    requires Advancing(stamps) && k < |stamps| && Waiting(t.buffer, stamps, k)
    requires WellFormedFrame(f, stamps[k]) && Delivers(arrivals, f, stamps, k)
    ensures Waiting(Feed(t, Packets(arrivals)).buffer, stamps, k + 1)
    ensures Feed(t, Packets(arrivals)).frames == t.frames + [Emission(f, Bytes(f))]
  {
    var n := |arrivals| - 1;
    var p := arrivals[n].packet;
    DeliveryHolds(t, arrivals, f, stamps, k, n);
    NextFirst(arrivals, f, stamps, k, n);
    FirstIsHeld(t.buffer, Firsts(arrivals[..n]), stamps, k, p);
    FeedOneMore(t, arrivals, n);
    assert arrivals[..n + 1] == arrivals;
    assert NoiseOk(arrivals, n, stamps, k);
    SortRestores(f, Firsts(arrivals), stamps[k]);
  }

  // -- The whole stream --------------------------------------------------------

  function Stream(deliveries: seq<seq<Arrival>>): seq<Packet> {
    if deliveries == [] then [] else Stream(deliveries[..|deliveries| - 1]) + Packets(deliveries[|deliveries| - 1])
  }

  function Emissions(frames: seq<seq<Packet>>): seq<Emission> {
    if frames == [] then []
    else
      var last := frames[|frames| - 1];
      Emissions(frames[..|frames| - 1]) + [Emission(last, Bytes(last))]
  }

  lemma {:induction false} FeedSplits(t: Trace, a: seq<Packet>, b: seq<Packet>)
    ensures Feed(t, a + b) == Feed(Feed(t, a), b)
    decreases |b|
  {
    if b == [] {
      assert a + b == a;
    } else {
      FeedSplits(t, a, b[..|b| - 1]);
      assert (a + b)[..|a + b| - 1] == a + b[..|b| - 1];
    }
  }

  lemma StreamOneMore(deliveries: seq<seq<Arrival>>, frames: seq<seq<Packet>>, n: nat)
    requires n < |deliveries| == |frames|
    ensures Feed(Idle, Stream(deliveries[..n + 1])) == Feed(Feed(Idle, Stream(deliveries[..n])), Packets(deliveries[n]))
    ensures Emissions(frames[..n + 1]) == Emissions(frames[..n]) + [Emission(frames[n], Bytes(frames[n]))]
  {
    assert deliveries[..n + 1][..n] == deliveries[..n] && frames[..n + 1][..n] == frames[..n];
    FeedSplits(Idle, Stream(deliveries[..n]), Packets(deliveries[n]));
  }

  // The buffer emits exactly the frames that were sent, in order.
  lemma {:induction false} Reassembles(deliveries: seq<seq<Arrival>>, frames: seq<seq<Packet>>, stamps: seq<int>,
                                       n: nat)
    requires n <= |deliveries| == |frames| == |stamps| && Advancing(stamps)
    requires forall k :: 0 <= k < |frames| ==> WellFormedFrame(frames[k], stamps[k])
    requires forall k :: 0 <= k < |frames| ==> Delivers(deliveries[k], frames[k], stamps, k)
    ensures Waiting(Feed(Idle, Stream(deliveries[..n])).buffer, stamps, n)
    ensures Feed(Idle, Stream(deliveries[..n])).frames == Emissions(frames[..n])
  {
    if n > 0 {
      Reassembles(deliveries, frames, stamps, n - 1);
      ReassemblesOne(deliveries, frames, stamps, n - 1);
    }
  }

  lemma ReassemblesOne(deliveries: seq<seq<Arrival>>, frames: seq<seq<Packet>>, stamps: seq<int>, n: nat)
    requires n < |deliveries| == |frames| == |stamps| && Advancing(stamps)
    requires WellFormedFrame(frames[n], stamps[n]) && Delivers(deliveries[n], frames[n], stamps, n)
    requires Waiting(Feed(Idle, Stream(deliveries[..n])).buffer, stamps, n)
    requires Feed(Idle, Stream(deliveries[..n])).frames == Emissions(frames[..n])
    ensures Waiting(Feed(Idle, Stream(deliveries[..n + 1])).buffer, stamps, n + 1)
    ensures Feed(Idle, Stream(deliveries[..n + 1])).frames == Emissions(frames[..n + 1])
  {
    StreamOneMore(deliveries, frames, n);
    DeliveryEmits(Feed(Idle, Stream(deliveries[..n])), deliveries[n], frames[n], stamps, n);
  }
}
