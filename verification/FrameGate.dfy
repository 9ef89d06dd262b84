/** The wrapping frame-rate gate against the plain one on an unwrapped clock: which
    frames it admits, and exactly when the two differ. */
module FrameGate {
  import opened VideoFrames
  import opened BitrateLimiter
  import opened FrameRate

  const WRAP := 0x1_0000_0000

  // On a clock that never wraps: admit a frame once an interval has passed.
  function Greedy(offered: seq<int>, ticks: int): seq<int> {
    if offered == [] then []
    else
      var earlier, stamp := Greedy(offered[..|offered| - 1], ticks), offered[|offered| - 1];
      if earlier == [] || stamp - earlier[|earlier| - 1] >= ticks then earlier + [stamp] else earlier
  }

  // A frame that is due but looks as if it came right behind the last one
  // admitted: it is a whole number of wraps and less than an interval later.  One
  // that looks like that very frame, with none offered between, still goes.
  predicate Lost(admitted: int, newest: int, stamp: int, ticks: int) {
    stamp - admitted >= WRAP && (stamp - admitted) % WRAP < ticks &&
    !((stamp - admitted) % WRAP == 0 && newest == admitted)
  }

  // What the wrapping gate does, on the unwrapped clock.
  function Wrapped(offered: seq<int>, ticks: int): seq<int> {
    if offered == [] then []
    else
      var earlier, stamp := Wrapped(offered[..|offered| - 1], ticks), offered[|offered| - 1];
      if earlier == [] || |offered| == 1 then earlier + [stamp]
      else
        var last := earlier[|earlier| - 1];
        if stamp - last >= ticks && !Lost(last, offered[|offered| - 2], stamp, ticks) then earlier + [stamp]
          else earlier
  }

  // -- One frame -------------------------------------------------------------------------

  // The gate knows whether the newest frame went, and if not that it looked close.
  ghost predicate Knows(gate: Gate, admitted: seq<int>, offered: seq<int>, ticks: int) {
    offered != [] && admitted != [] ==>
      var newest, last := offered[|offered| - 1], admitted[|admitted| - 1];
      && (gate.currentAllowed <==> newest == last)
      && (!gate.currentAllowed ==> (newest - last) % WRAP < ticks)
  }

  lemma WrappedDifference(before: int, after: int)
    ensures (after % WRAP - before % WRAP) % WRAP == (after - before) % WRAP
    ensures after % WRAP == before % WRAP <==> (after - before) % WRAP == 0
  {
    assert after == WRAP * (after / WRAP) + after % WRAP;
    assert before == WRAP * (before / WRAP) + before % WRAP;
  }

  lemma SameDifference(last: int, newest: int, stamp: int)
    requires stamp % WRAP == newest % WRAP
    ensures (stamp - last) % WRAP == (newest - last) % WRAP
  {
    WrappedDifference(last, stamp);
    WrappedDifference(last, newest);
  }

  lemma FarOrExact(last: int, newest: int, stamp: int)
    requires last <= newest < stamp
    ensures stamp - last < WRAP ==> (stamp - last) % WRAP == stamp - last
    ensures stamp % WRAP == newest % WRAP ==> stamp - newest >= WRAP
  {
    if stamp % WRAP == newest % WRAP { SameResidueFar(newest, stamp); }
  }

  lemma OfferedExactly(gate: Gate, admitted: seq<int>, offered: seq<int>, fps: int, stamp: int)
    requires fps > 0 && Remembers(gate, admitted, offered, fps) && Knows(gate, admitted, offered, VIDEO_CLOCK / fps)
    requires offered != [] ==> offered[|offered| - 1] < stamp
    ensures AllowFrame(gate, stamp % WRAP).1 ==
            (offered == [] ||
             (stamp - admitted[|admitted| - 1] >= VIDEO_CLOCK / fps &&
              !Lost(admitted[|admitted| - 1], offered[|offered| - 1], stamp, VIDEO_CLOCK / fps)))
  {
    if gate.haveFrame {
      var newest, last := offered[|offered| - 1], admitted[|admitted| - 1];
      TicksAreSmall(fps);
      FarOrExact(last, newest, stamp);
      WrappedDifference(last, stamp);
      if gate.currentFrame == stamp % WRAP { SameDifference(last, newest, stamp); }
    }
  }

  lemma TicksAreSmall(fps: int)
    requires fps > 0
    ensures 0 <= VIDEO_CLOCK / fps <= VIDEO_CLOCK
  {
  }

  lemma OfferIsKnown(gate: Gate, admitted: seq<int>, offered: seq<int>, fps: int, stamp: int, g: Gate, allowed: bool)
    requires fps > 0 && Remembers(gate, admitted, offered, fps) && Knows(gate, admitted, offered, VIDEO_CLOCK / fps)
    requires offered != [] ==> offered[|offered| - 1] < stamp
    requires (g, allowed) == AllowFrame(gate, stamp % WRAP)
    ensures Knows(g, admitted + (if allowed then [stamp] else []), offered + [stamp], VIDEO_CLOCK / fps)
  {
    if gate.haveFrame && !allowed {
      var newest, last := offered[|offered| - 1], admitted[|admitted| - 1];
      WrappedDifference(last, stamp);
      if gate.currentFrame == stamp % WRAP { SameDifference(last, newest, stamp); }
    }
  }

  lemma WrappedNext(offered: seq<int>, stamp: int, ticks: int)
    ensures var earlier := Wrapped(offered, ticks);
            (earlier == [] <==> offered == []) &&
            Wrapped(offered + [stamp], ticks) ==
            if offered == [] then [stamp]
            else if stamp - earlier[|earlier| - 1] >= ticks &&
                    !Lost(earlier[|earlier| - 1], offered[|offered| - 1], stamp, ticks)
            then earlier + [stamp] else earlier
  {
    WrappedAdmits(offered, ticks);
    assert (offered + [stamp])[..|offered|] == offered;
    assert Wrapped([], ticks) + [stamp] == [stamp];
  }

  lemma {:induction false} WrappedAdmits(offered: seq<int>, ticks: int)
    ensures Wrapped(offered, ticks) == [] <==> offered == []
    decreases |offered|
  {
    if offered != [] { WrappedAdmits(offered[..|offered| - 1], ticks); }
  }

  // -- Every run ---------------------------------------------------------------------------

  lemma ReadOffers(p: Pipe, packet: Packet)
    requires Safe(p.trace) && Add(p.trace.buffer, packet).1 != []
    ensures var d := Read(p, packet);
            var stamp := Advance(p.trace, packet).clock;
            var (gate, allowed) := AllowFrame(p.gate, stamp % WRAP);
            && d.gate == gate && d.admitted == p.admitted + (if allowed then [stamp] else [])
            && d.trace.stamps == p.trace.stamps + [stamp]
            && (p.trace.stamps != [] ==> p.trace.stamps[|p.trace.stamps| - 1] < stamp)
  {
    EmissionIsStamped(p.trace, packet);
  }

  lemma ReadPasses(p: Pipe, packet: Packet)
    requires Add(p.trace.buffer, packet).1 == []
    ensures var d := Read(p, packet); d.gate == p.gate && d.admitted == p.admitted && d.trace.stamps == p.trace.stamps
  {
    assert p.trace.stamps + [] == p.trace.stamps;
  }

  lemma OfferIsWrapped(gate: Gate, offered: seq<int>, fps: int, stamp: int, g: Gate, allowed: bool)
    requires fps > 0
    requires var admitted := Wrapped(offered, VIDEO_CLOCK / fps);
             Remembers(gate, admitted, offered, fps) && Knows(gate, admitted, offered, VIDEO_CLOCK / fps)
    requires offered != [] ==> offered[|offered| - 1] < stamp
    requires (g, allowed) == AllowFrame(gate, stamp % WRAP)
    ensures Wrapped(offered, VIDEO_CLOCK / fps) + (if allowed then [stamp] else []) ==
            Wrapped(offered + [stamp], VIDEO_CLOCK / fps)
  {
    OfferedExactly(gate, Wrapped(offered, VIDEO_CLOCK / fps), offered, fps, stamp);
    WrappedNext(offered, stamp, VIDEO_CLOCK / fps);
  }

  lemma ReadIsWrapped(p: Pipe, fps: int, packet: Packet)
    requires fps > 0 && Safe(p.trace) && GateFollows(p, fps)
    requires Knows(p.gate, p.admitted, p.trace.stamps, VIDEO_CLOCK / fps)
    requires p.admitted == Wrapped(p.trace.stamps, VIDEO_CLOCK / fps)
    ensures var d := Read(p, packet);
            && Knows(d.gate, d.admitted, d.trace.stamps, VIDEO_CLOCK / fps)
            && d.admitted == Wrapped(d.trace.stamps, VIDEO_CLOCK / fps)
  {
    if Add(p.trace.buffer, packet).1 != [] {
      ReadOffers(p, packet);
      var stamp := Advance(p.trace, packet).clock;
      var (g, allowed) := AllowFrame(p.gate, stamp % WRAP);
      OfferIsKnown(p.gate, p.admitted, p.trace.stamps, fps, stamp, g, allowed);
      OfferIsWrapped(p.gate, p.trace.stamps, fps, stamp, g, allowed);
    } else {
      ReadPasses(p, packet);
    }
  }

  // Whatever arrives: frame by frame, the gate admits what is due and not lost.
  lemma {:induction false} AdmitsTheDueNotLost(fps: int, packets: seq<Packet>)
    requires fps > 0
    ensures var p := ReadAll(Opening(fps), packets);
            && Knows(p.gate, p.admitted, p.trace.stamps, VIDEO_CLOCK / fps)
            && p.admitted == Wrapped(p.trace.stamps, VIDEO_CLOCK / fps)
    decreases |packets|
  {
    if packets != [] {
      var init := packets[..|packets| - 1];
      AdmitsTheDueNotLost(fps, init);
      AdmittedFramesAreSpaced(fps, init);
      ReadIsWrapped(ReadAll(Opening(fps), init), fps, packets[|packets| - 1]);
    }
  }

  // -- Exactly when it is the plain gate -----------------------------------------------------

  // No whole frame is lost, by the plain gate's own reckoning.
  predicate NoneLost(offered: seq<int>, ticks: int) {
    |offered| <= 1 ||
    var init, earlier := offered[..|offered| - 1], Greedy(offered[..|offered| - 1], ticks);
    NoneLost(init, ticks) && earlier != [] &&
    !Lost(earlier[|earlier| - 1], init[|init| - 1], offered[|offered| - 1], ticks)
  }

  predicate Increasing(stamps: seq<int>) {
    forall i, j :: 0 <= i < j < |stamps| ==> stamps[i] < stamps[j]
  }

  lemma {:induction false} AdmittedWereOffered(offered: seq<int>, ticks: int)
    ensures forall x :: x in Greedy(offered, ticks) || x in Wrapped(offered, ticks) ==> x in offered
    ensures Greedy(offered, ticks) == [] <==> offered == []
    decreases |offered|
  {
    if offered != [] { AdmittedWereOffered(offered[..|offered| - 1], ticks); }
  }

  lemma GreedyNext(offered: seq<int>, stamp: int, ticks: int)
    ensures var earlier := Greedy(offered, ticks);
            Greedy(offered + [stamp], ticks) ==
            if earlier == [] || stamp - earlier[|earlier| - 1] >= ticks then earlier + [stamp] else earlier
  {
    assert (offered + [stamp])[..|offered|] == offered;
  }

  // Once the two differ they differ for good: a later frame is a later stamp.
  lemma SameSoFar(a: seq<int>, b: seq<int>, stamp: int, inA: bool, inB: bool)
    requires stamp !in a && stamp !in b
    ensures a + (if inA then [stamp] else []) == b + (if inB then [stamp] else []) <==> a == b && inA == inB
  {
    var c, d := a + (if inA then [stamp] else []), b + (if inB then [stamp] else []);
    assert stamp in c <==> inA;
    assert stamp in d <==> inB;
    if c == d && inA { assert a == c[..|c| - 1] && b == d[..|d| - 1]; }
    if c == d && !inA { assert a == c && b == d; }
  }

  lemma {:induction false} PlainIffNoneLost(offered: seq<int>, ticks: int)
    requires Increasing(offered) && ticks <= WRAP
    ensures Wrapped(offered, ticks) == Greedy(offered, ticks) <==> NoneLost(offered, ticks)
    decreases |offered|
  {
    if offered != [] {
      var init, stamp := offered[..|offered| - 1], offered[|offered| - 1];
      assert init + [stamp] == offered;
      PlainIffNoneLost(init, ticks);
      AdmittedWereOffered(init, ticks);
      WrappedNext(init, stamp, ticks);
      GreedyNext(init, stamp, ticks);
      NoneLostNext(init, stamp, ticks);
      if init != [] { LastFrameDecides(init, stamp, ticks); }
    }
  }

  lemma NoneLostNext(init: seq<int>, stamp: int, ticks: int)
    ensures var earlier := Greedy(init, ticks);
            NoneLost(init + [stamp], ticks) <==>
            init == [] || (NoneLost(init, ticks) && earlier != [] &&
                           !Lost(earlier[|earlier| - 1], init[|init| - 1], stamp, ticks))
  {
    assert (init + [stamp])[..|init|] == init;
  }

  lemma LastFrameDecides(init: seq<int>, stamp: int, ticks: int)
    requires init != [] && ticks <= WRAP && stamp !in init
    requires forall x :: x in Greedy(init, ticks) || x in Wrapped(init, ticks) ==> x in init
    requires Greedy(init, ticks) != [] && Wrapped(init, ticks) != []
    ensures Wrapped(init + [stamp], ticks) == Greedy(init + [stamp], ticks) <==>
            Wrapped(init, ticks) == Greedy(init, ticks) &&
            var earlier := Greedy(init, ticks);
            !Lost(earlier[|earlier| - 1], init[|init| - 1], stamp, ticks)
  {
    WrappedNext(init, stamp, ticks);
    GreedyNext(init, stamp, ticks);
    NextDecides(Wrapped(init, ticks), Greedy(init, ticks), init[|init| - 1], stamp, ticks);
  }

  lemma NextDecides(a: seq<int>, b: seq<int>, newest: int, stamp: int, ticks: int)
    requires a != [] && b != [] && ticks <= WRAP && stamp !in a && stamp !in b
    ensures var goes := stamp - a[|a| - 1] >= ticks && !Lost(a[|a| - 1], newest, stamp, ticks);
            (if goes then a + [stamp] else a) == (if stamp - b[|b| - 1] >= ticks then b + [stamp] else b) <==>
            a == b && !Lost(b[|b| - 1], newest, stamp, ticks)
  {
    var inA := stamp - a[|a| - 1] >= ticks && !Lost(a[|a| - 1], newest, stamp, ticks);
    var inB := stamp - b[|b| - 1] >= ticks;
    SameSoFar(a, b, stamp, inA, inB);
    assert a + [] == a && b + [] == b;
  }

  lemma {:induction false} StampsIncrease(stamps: seq<int>)
    requires forall i :: 0 < i < |stamps| ==> stamps[i - 1] < stamps[i]
    ensures Increasing(stamps)
    decreases |stamps|
  {
    if stamps != [] {
      var init := stamps[..|stamps| - 1];
      StampsIncrease(init);
      forall i | 0 <= i < |stamps| - 1 ensures stamps[i] < stamps[|stamps| - 1] {
        assert init[i] <= init[|init| - 1];
      }
    }
  }

  // In every run, the wrapping gate admits exactly the frames a limit on an
  // unwrapped clock would if and only if none of the whole frames is lost.
  lemma GateIsGreedyExactly(fps: int, packets: seq<Packet>)
    requires fps > 0
    ensures var p := ReadAll(Opening(fps), packets);
            p.admitted == Greedy(p.trace.stamps, VIDEO_CLOCK / fps) <==> NoneLost(p.trace.stamps, VIDEO_CLOCK / fps)
  {
    var p := ReadAll(Opening(fps), packets);
    AdmitsTheDueNotLost(fps, packets);
    AdmittedFramesAreSpaced(fps, packets);
    StampsIncrease(p.trace.stamps);
    TicksAreSmall(fps);
    PlainIffNoneLost(p.trace.stamps, VIDEO_CLOCK / fps);
  }

  // No two consecutive whole frames are more than half the 32-bit range apart.
  predicate NoLongGap(offered: seq<int>) {
    forall i :: 0 < i < |offered| ==> offered[i] - offered[i - 1] <= 0x8000_0000
  }

  lemma {:induction false} GreedyStaysNear(offered: seq<int>, ticks: int)
    requires offered != []
    ensures var admitted := Greedy(offered, ticks);
            admitted != [] &&
            (offered[|offered| - 1] == admitted[|admitted| - 1] ||
             offered[|offered| - 1] - admitted[|admitted| - 1] < ticks)
    decreases |offered|
  {
    if |offered| > 1 { GreedyStaysNear(offered[..|offered| - 1], ticks); }
  }

  lemma {:induction false} ShortGapsLoseNone(offered: seq<int>, ticks: int)
    requires NoLongGap(offered) && 0 <= ticks <= VIDEO_CLOCK
    ensures NoneLost(offered, ticks)
    decreases |offered|
  {
    if |offered| > 1 {
      var init := offered[..|offered| - 1];
      ShortGapsLoseNone(init, ticks);
      GreedyStaysNear(init, ticks);
      assert offered[|offered| - 1] - offered[|offered| - 2] <= 0x8000_0000;
    }
  }

  // So it is the plain gate whenever whole frames keep coming.
  lemma GateIsGreedy(fps: int, packets: seq<Packet>)
    requires fps > 0 && NoLongGap(ReadAll(Opening(fps), packets).trace.stamps)
    ensures var p := ReadAll(Opening(fps), packets); p.admitted == Greedy(p.trace.stamps, VIDEO_CLOCK / fps)
  {
    GateIsGreedyExactly(fps, packets);
    TicksAreSmall(fps);
    ShortGapsLoseNone(ReadAll(Opening(fps), packets).trace.stamps, VIDEO_CLOCK / fps);
  }

  // -- A run that loses a frame -----------------------------------------------------------

  function Bare(timestamp: U32, sequence: U16, marker: bool): Packet {
    Packet(timestamp, sequence, marker, 1, sequence)
  }

  lemma ReadsTo(p: Pipe, packets: seq<Packet>, packet: Packet)
    ensures ReadAll(p, packets + [packet]) == Read(ReadAll(p, packets), packet)
  {
    assert (packets + [packet])[..|packets|] == packets;
  }

  // A packet that opens a new frame, and closes it if it carries the marker.
  predicate Opens(b: Buffer, packet: Packet) {
    !Ignored(b, packet) && !(b.active && b.timestamp == packet.timestamp)
  }

  lemma SortOne(packet: Packet)
    ensures Sort([packet]) == [packet] && Bytes([packet]) == packet.size
  {
    assert [packet][..0] == [] && Sort([]) == [] && Insert([], packet) == [packet] && Bytes([]) == 0;
  }

  lemma OnePacketFrame(b: Buffer, packet: Packet)
    requires Opens(b, packet) && packet.size == 1
    ensures var started := Start(b, packet.timestamp);
            var stored := started.(packets := [packet], bytes := 1);
            Add(b, packet) == if packet.marker then (Closed(stored), [Emission([packet], 1)]) else (stored, [])
  {
    SortOne(packet);
    assert [] + [packet] == [packet];
  }

  lemma OpensUnfinished(p: Pipe, packet: Packet, before: U32)
    requires Opens(p.trace.buffer, packet) && packet.size == 1 && !packet.marker
    requires Current(p.trace.buffer) == At(before)
    ensures var q := Read(p, packet);
            && q.gate == p.gate && q.admitted == p.admitted && q.trace.stamps == p.trace.stamps
            && q.trace.clock == p.trace.clock + (packet.timestamp - before) % WRAP
            && q.trace.buffer.active && q.trace.buffer.timestamp == packet.timestamp
  {
    OnePacketFrame(p.trace.buffer, packet);
    ReadPasses(p, packet);
  }

  lemma ClosesAtOnce(p: Pipe, packet: Packet, clock: int)
    requires Opens(p.trace.buffer, packet) && packet.size == 1 && packet.marker
    requires clock == Advance(p.trace, packet).clock
    ensures var q := Read(p, packet);
            var (gate, allowed) := AllowFrame(p.gate, packet.timestamp);
            && q.gate == gate && q.admitted == p.admitted + (if allowed then [clock] else [])
            && q.trace.stamps == p.trace.stamps + [clock] && Current(q.trace.buffer) == At(packet.timestamp)
            && !q.trace.buffer.active
  {
    OnePacketFrame(p.trace.buffer, packet);
  }

  lemma ClockAfter(t: Trace, packet: Packet, before: U32)
    requires Opens(t.buffer, packet) && packet.size == 1 && Current(t.buffer) == At(before)
    ensures Advance(t, packet).clock == t.clock + (packet.timestamp - before) % WRAP
  {
    OnePacketFrame(t.buffer, packet);
  }

  // The publisher leaves two frames unfinished, each half the range on: the next
  // whole frame is a wrap and one tick after the first, and is refused.
  lemma LongGapIsRefused()
    ensures var packets :=
              [Bare(0, 0, true), Bare(0x7000_0000, 1, false), Bare(0xE000_0000, 2, false), Bare(1, 3, true)];
            var p := ReadAll(Opening(30), packets);
            && p.trace.stamps == [0, WRAP + 1] && p.admitted == [0]
            && Greedy(p.trace.stamps, VIDEO_CLOCK / 30) == p.trace.stamps
  {
    var a, b, c, d := Bare(0, 0, true), Bare(0x7000_0000, 1, false), Bare(0xE000_0000, 2, false), Bare(1, 3, true);
    FourReads(a, b, c, d);
    LongGapSteps(a, b, c, d);
    GreedyNext([0], WRAP + 1, VIDEO_CLOCK / 30);
    assert [0] + [WRAP + 1] == [0, WRAP + 1] && Greedy([0], VIDEO_CLOCK / 30) == [0];
  }

  lemma FourReads(a: Packet, b: Packet, c: Packet, d: Packet)
    ensures ReadAll(Opening(30), [a, b, c, d]) == Read(Read(Read(Read(Opening(30), a), b), c), d)
  {
    assert [] + [a] == [a] && [a] + [b] == [a, b] && [a, b] + [c] == [a, b, c] && [a, b, c] + [d] == [a, b, c, d];
    ReadsTo(Opening(30), [], a);
    ReadsTo(Opening(30), [a], b);
    ReadsTo(Opening(30), [a, b], c);
    ReadsTo(Opening(30), [a, b, c], d);
  }

  lemma FirstFrameGoes(a: Packet)
    requires a == Bare(0, 0, true)
    ensures var p := Read(Opening(30), a);
            OneGone(p, 0, 0)
  {
    OnePacketFrame(Fresh, a);
    ClosesAtOnce(Opening(30), a, 0);
    assert Opening(30).admitted + [0] == [0] && Idle.stamps + [0] == [0];
  }

  lemma LaterOpens(b: Buffer, packet: Packet, before: U32)
    requires Current(b) == At(before) && TimestampAfter(packet.timestamp, before)
    ensures Opens(b, packet)
  {
  }

  lemma GoesOn(p: Pipe, packet: Packet, before: U32, clock: int)
    requires Current(p.trace.buffer) == At(before) && TimestampAfter(packet.timestamp, before)
    requires packet.size == 1 && !packet.marker && clock == p.trace.clock + (packet.timestamp - before) % WRAP
    ensures var q := Read(p, packet);
            && q.gate == p.gate && q.admitted == p.admitted && q.trace.stamps == p.trace.stamps
            && q.trace.clock == clock && Current(q.trace.buffer) == At(packet.timestamp)
  {
    LaterOpens(p.trace.buffer, packet, before);
    OpensUnfinished(p, packet, before);
  }

  lemma Quarters()
    ensures TimestampAfter(0x7000_0000, 0) && TimestampAfter(0xE000_0000, 0x7000_0000) && TimestampAfter(1, 0xE000_0000)
    ensures (0x7000_0000 - 0) % WRAP == 0x7000_0000 && (0xE000_0000 - 0x7000_0000) % WRAP == 0x7000_0000
    ensures (1 - 0xE000_0000) % WRAP == 0x2000_0001
  {
  }

  lemma WrapLooksClose(gate: Gate)
    requires gate == Gate(30, true, 0, 0, true)
    ensures !AllowFrame(gate, 1).1
  {
  }

  // One frame has gone at 0, and the clock has moved on since.
  ghost predicate OneGone(p: Pipe, clock: int, newest: U32) {
    && p.gate == Gate(30, true, 0, 0, true) && p.admitted == [0] && p.trace.stamps == [0]
    && p.trace.clock == clock && Current(p.trace.buffer) == At(newest)
  }

  lemma TwoUnfinished(p: Pipe, b: Packet, c: Packet)
    requires OneGone(p, 0, 0) && b == Bare(0x7000_0000, 1, false) && c == Bare(0xE000_0000, 2, false)
    ensures OneGone(Read(Read(p, b), c), 0xE000_0000, 0xE000_0000)
  {
    Quarters();
    GoesOn(p, b, 0, 0x7000_0000);
    GoesOn(Read(p, b), c, 0x7000_0000, 0xE000_0000);
  }

  lemma LongGapSteps(a: Packet, b: Packet, c: Packet, d: Packet)
    requires a == Bare(0, 0, true) && b == Bare(0x7000_0000, 1, false)
    requires c == Bare(0xE000_0000, 2, false) && d == Bare(1, 3, true)
    ensures var p := Read(Read(Read(Read(Opening(30), a), b), c), d);
            p.trace.stamps == [0, WRAP + 1] && p.admitted == [0]
  {
    FirstFrameGoes(a);
    var p0 := Read(Opening(30), a);
    TwoUnfinished(p0, b, c);
    var p2 := Read(Read(p0, b), c);
    LastIsRefused(p2, d);
  }

  lemma LastIsRefused(p: Pipe, d: Packet)
    requires d == Bare(1, 3, true) && OneGone(p, 0xE000_0000, 0xE000_0000)
    ensures var q := Read(p, d); q.trace.stamps == [0, WRAP + 1] && q.admitted == [0]
  {
    Quarters();
    LaterOpens(p.trace.buffer, d, 0xE000_0000);
    ClockAfter(p.trace, d, 0xE000_0000);
    WrapLooksClose(p.gate);
    ClosesAtOnce(p, d, WRAP + 1);
    assert [0] + [WRAP + 1] == [0, WRAP + 1] && [0] + [] == [0];
  }
}
