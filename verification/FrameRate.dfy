/** The frame-rate gate fed by the frame buffer, on the unwrapped RTP clock. */
module FrameRate {
  import opened VideoFrames
  import opened BitrateLimiter

  // What a video publication's read loop has done: the buffer's trace, the
  // gate, and the unwrapped clock at each frame the gate let through.
  datatype Pipe = Pipe(trace: Trace, gate: Gate, admitted: seq<int>)

  function Read(p: Pipe, packet: Packet): Pipe {
    var (_, out) := Add(p.trace.buffer, packet);
    var trace := Advance(p.trace, packet);
    if out == [] || out[0].packets == [] then p.(trace := trace)
    else
      var (gate, allowed) := AllowFrame(p.gate, out[0].packets[0].timestamp);
      Pipe(trace, gate, p.admitted + if allowed then [trace.clock] else [])
  }

  function ReadAll(p: Pipe, packets: seq<Packet>): Pipe {
    if packets == [] then p else Read(ReadAll(p, packets[..|packets| - 1]), packets[|packets| - 1])
  }

  function Opening(fps: int): Pipe {
    Pipe(Idle, Gate(fps, false, 0, 0, false), [])
  }

  // Consecutive admitted frames are at least `ticks` apart.
  ghost predicate Spaced(stamps: seq<int>, ticks: int) {
    forall i :: 0 < i < |stamps| ==> stamps[i] - stamps[i - 1] >= ticks
  }

  // The gate remembers the newest frame offered and the newest one admitted.
  ghost predicate Remembers(gate: Gate, admitted: seq<int>, offered: seq<int>, fps: int) {
    && gate.maxFPS == fps
    && gate.haveFrame == (offered != [])
    && (gate.haveFrame ==>
          var newest := offered[|offered| - 1];
          && admitted != []
          && gate.currentFrame == newest % 0x1_0000_0000
          && gate.lastFrame == admitted[|admitted| - 1] % 0x1_0000_0000
          && admitted[|admitted| - 1] <= newest
          && (gate.currentAllowed ==> admitted[|admitted| - 1] == newest))
    && (!gate.haveFrame ==> admitted == [])
  }

  ghost predicate GateFollows(p: Pipe, fps: int) {
    Remembers(p.gate, p.admitted, p.trace.stamps, fps)
  }

  // A wrapped difference never exceeds the true one.
  lemma WrappedDelta(before: int, after: int)
    requires before <= after
    ensures (after % 0x1_0000_0000 - before % 0x1_0000_0000) % 0x1_0000_0000 <= after - before
  {
    var m := 0x1_0000_0000;
    assert (after % m - before % m) % m == (after - before) % m by {
      assert after == m * (after / m) + after % m;
      assert before == m * (before / m) + before % m;
    }
  }

  lemma SameResidueFar(before: int, after: int)
    requires before < after && before % 0x1_0000_0000 == after % 0x1_0000_0000
    ensures after - before >= 0x1_0000_0000
  {
  }

  lemma AdmittedApart(g: Gate, newest: int, admitted: int, stamp: int)
    requires g.maxFPS > 0 && g.haveFrame
    requires g.currentFrame == newest % 0x1_0000_0000 && g.lastFrame == admitted % 0x1_0000_0000
    requires admitted <= newest < stamp && (g.currentAllowed ==> admitted == newest)
    requires AllowFrame(g, stamp % 0x1_0000_0000).1
    ensures stamp - admitted >= VIDEO_CLOCK / g.maxFPS
    ensures AllowFrame(g, stamp % 0x1_0000_0000).0.lastFrame == stamp % 0x1_0000_0000
  {
    assert VIDEO_CLOCK / g.maxFPS <= VIDEO_CLOCK;
    if g.currentFrame == stamp % 0x1_0000_0000 {
      SameResidueFar(newest, stamp);
    } else {
      WrappedDelta(admitted, stamp);
    }
  }

  lemma OfferKeepsSpacing(gate: Gate, admitted: seq<int>, offered: seq<int>, fps: int, stamp: int)
    requires fps > 0 && Remembers(gate, admitted, offered, fps) && Spaced(admitted, VIDEO_CLOCK / fps)
    requires offered != [] ==> offered[|offered| - 1] < stamp
    ensures var (g, allowed) := AllowFrame(gate, stamp % 0x1_0000_0000);
            var more := admitted + if allowed then [stamp] else [];
            Remembers(g, more, offered + [stamp], fps) && Spaced(more, VIDEO_CLOCK / fps)
  {
    if gate.haveFrame && AllowFrame(gate, stamp % 0x1_0000_0000).1 {
      AdmittedApart(gate, offered[|offered| - 1], admitted[|admitted| - 1], stamp);
    }
  }

  lemma EmissionIsStamped(t: Trace, packet: Packet)
    requires Safe(t) && Add(t.buffer, packet).1 != []
    ensures var out, n := Add(t.buffer, packet).1, Advance(t, packet);
            && out[0].packets != [] && out[0].packets[0].timestamp == n.clock % 0x1_0000_0000
            && n.stamps == t.stamps + [n.clock]
            && (t.stamps != [] ==> t.stamps[|t.stamps| - 1] < n.clock)
  {
    AdvanceKeepsSafe(t, packet);
    EmissionShape(t.buffer, packet);
    ClockMoves(t, packet);
    EmissionIsSafe(t.buffer, packet, Advance(t, packet).clock);
  }

  lemma ReadKeepsSpacing(p: Pipe, fps: int, packet: Packet)
    requires fps > 0 && Safe(p.trace) && GateFollows(p, fps) && Spaced(p.admitted, VIDEO_CLOCK / fps)
    ensures GateFollows(Read(p, packet), fps) && Spaced(Read(p, packet).admitted, VIDEO_CLOCK / fps)
  {
    if Add(p.trace.buffer, packet).1 != [] {
      EmissionIsStamped(p.trace, packet);
      OfferKeepsSpacing(p.gate, p.admitted, p.trace.stamps, fps, Advance(p.trace, packet).clock);
    }
  }

  // Whatever arrives and however often the 32-bit timestamp wraps, the frames a
  // fixed limit admits are at least one frame interval apart.
  lemma {:induction false} AdmittedFramesAreSpaced(fps: int, packets: seq<Packet>)
    requires fps > 0
    ensures var p := ReadAll(Opening(fps), packets);
            Safe(p.trace) && GateFollows(p, fps) && Spaced(p.admitted, VIDEO_CLOCK / fps)
    decreases |packets|
  {
    if packets != [] {
      var init, last := packets[..|packets| - 1], packets[|packets| - 1];
      AdmittedFramesAreSpaced(fps, init);
      AdvanceKeepsSafe(ReadAll(Opening(fps), init).trace, last);
      ReadKeepsSpacing(ReadAll(Opening(fps), init), fps, last);
    }
  }

  lemma {:induction false} SpacedSpans(stamps: seq<int>, ticks: int)
    requires stamps != [] && Spaced(stamps, ticks)
    ensures stamps[|stamps| - 1] - stamps[0] >= (|stamps| - 1) * ticks
    decreases |stamps|
  {
    if |stamps| > 1 {
      var init := stamps[..|stamps| - 1];
      SpacedSpans(init, ticks);
      assert stamps[|stamps| - 1] - init[|init| - 1] >= ticks;
      assert (|init| - 1) * ticks + ticks == (|stamps| - 1) * ticks;
    }
  }

  lemma AdmittedFramesSpan(fps: int, packets: seq<Packet>)
    requires fps > 0 && ReadAll(Opening(fps), packets).admitted != []
    ensures var a := ReadAll(Opening(fps), packets).admitted;
            a[|a| - 1] - a[0] >= (|a| - 1) * (VIDEO_CLOCK / fps)
  {
    AdmittedFramesAreSpaced(fps, packets);
    SpacedSpans(ReadAll(Opening(fps), packets).admitted, VIDEO_CLOCK / fps);
  }
}
