/** However the buffer was left, by lost markers or by frames over its caps, the
    next newer frame that arrives whole comes out whole. */
module FrameRecovery {
  import opened VideoFrames
  import opened FrameReassembly

  // Equal but for what an active buffer does not look at.
  predicate Alike(x: Buffer, y: Buffer) {
    x == y ||
    (x.active && y.active && x == y.(lastTimestamp := x.lastTimestamp, hasLastTimestamp := x.hasLastTimestamp))
  }

  lemma AlikeStay(x: Buffer, y: Buffer, p: Packet)
    requires Alike(x, y)
    ensures Alike(Add(x, p).0, Add(y, p).0) && Add(x, p).1 == Add(y, p).1
  {
    if x != y {
      OpenAlike(x, y, p);
      if !Ignored(x, p) { AddAlike(x, y, p); }
    }
  }

  lemma OpenAlike(x: Buffer, y: Buffer, p: Packet)
    requires Alike(x, y) && x.active && y.active
    ensures Ignored(x, p) == Ignored(y, p) && Alike(Opened(x, p), Opened(y, p))
    ensures Opened(x, p).active && Opened(y, p).active
  {
  }

  lemma StoreAlike(x: Buffer, y: Buffer, p: Packet)
    requires Alike(x, y) && x.active && y.active
    ensures Alike(Stored(x, p), Stored(y, p)) && Stored(x, p).active && Stored(y, p).active
    ensures Closed(Stored(x, p)) == Closed(Stored(y, p))
  {
  }

  lemma AddAlike(x: Buffer, y: Buffer, p: Packet)
    requires !Ignored(x, p) && !Ignored(y, p) && Alike(Opened(x, p), Opened(y, p))
    requires Opened(x, p).active && Opened(y, p).active
    ensures Alike(Add(x, p).0, Add(y, p).0) && Add(x, p).1 == Add(y, p).1
  {
    StoreAlike(Opened(x, p), Opened(y, p), p);
  }

  lemma AlikeOpened(x: Buffer, y: Buffer, p: Packet)
    requires !Ignored(x, p) && !Ignored(y, p) && Opened(x, p) == Start(x, p.timestamp)
    requires Opened(y, p) == Start(y, p.timestamp)
    ensures Alike(Add(x, p).0, Add(y, p).0) && Add(x, p).1 == Add(y, p).1
  {
    AddAlike(x, y, p);
  }

  // As if the frame before had just been closed.
  function AfterFrame(prev: int): Buffer {
    Buffer(0, prev % 0x1_0000_0000, [], 0, false, false, true)
  }

  lemma NewerOpens(b: Buffer, prev: int, stamp: int, p: Packet)
    requires Current(b) == At(prev % 0x1_0000_0000) && 0 < stamp - prev < 0x8000_0000
    requires p.timestamp == stamp % 0x1_0000_0000
    ensures !Ignored(b, p) && Opened(b, p) == Start(b, p.timestamp)
  {
    SerialSteps(prev, stamp);
    if b.active && b.timestamp == p.timestamp { SerialPast(prev, stamp); }
  }

  lemma {:induction false} FeedsAlike(t: Trace, u: Trace, arrivals: seq<Arrival>, prev: int, stamp: int, i: nat)
    requires 0 < i <= |arrivals| && t.frames == u.frames && u.buffer == AfterFrame(prev)
    requires Current(t.buffer) == At(prev % 0x1_0000_0000) && 0 < stamp - prev < 0x8000_0000
    requires arrivals[0].packet.timestamp == stamp % 0x1_0000_0000
    ensures var x, y := Feed(t, Packets(arrivals[..i])), Feed(u, Packets(arrivals[..i]));
            Alike(x.buffer, y.buffer) && x.frames == y.frames
    decreases i
  {
    var p := arrivals[i - 1].packet;
    FeedOneMore(t, arrivals, i - 1);
    FeedOneMore(u, arrivals, i - 1);
    if i == 1 {
      assert Packets(arrivals[..0]) == [];
      NewerOpens(t.buffer, prev, stamp, p);
      NewerOpens(u.buffer, prev, stamp, p);
      AlikeOpened(t.buffer, u.buffer, p);
    } else {
      FeedsAlike(t, u, arrivals, prev, stamp, i - 1);
      AlikeStay(Feed(t, Packets(arrivals[..i - 1])).buffer, Feed(u, Packets(arrivals[..i - 1])).buffer, p);
    }
  }

  // Any buffer at all, with a frame unfinished or given up: a newer frame whose
  // packets arrive in any order, its marker last, among repeats and late packets,
  // is emitted whole, and nothing else is.
  lemma AnyBufferRecovers(t: Trace, arrivals: seq<Arrival>, f: seq<Packet>, prev: int, stamp: int)
    requires Current(t.buffer) == At(prev % 0x1_0000_0000) && 0 < stamp - prev < 0x8000_0000
    requires WellFormedFrame(f, stamp) && Delivers(arrivals, f, [prev, stamp], 1) && arrivals[0].First?
    ensures var d := Feed(t, Packets(arrivals));
            d.frames == t.frames + [Emission(f, Bytes(f))] && Waiting(d.buffer, [prev, stamp], 2)
  {
    var u := t.(buffer := AfterFrame(prev));
    DeliveryEmits(u, arrivals, f, [prev, stamp], 1);
    var p := arrivals[0].packet;
    NextFirst(arrivals, f, [prev, stamp], 1, 0);
    FeedsAlike(t, u, arrivals, prev, stamp, |arrivals|);
    assert arrivals[..|arrivals|] == arrivals;
  }
}
