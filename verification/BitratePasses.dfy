/** What the limiter lets through: packets, bytes paced by a wait, and frames. */
module BitratePasses {
  import opened BitrateLimiter
  import opened TokenClock
  import opened VideoFrames

  function Smaller(a: real, b: real): real {
    if a <= b then a else b
  }

  // -- allow --------------------------------------------------------------------------

  // Without a rate everything passes and costs nothing.
  lemma UnlimitedAllows(b: Bucket, bytes: int, now: int)
    requires b.rate <= 0.0
    ensures var (c, allowed) := Allow(b, bytes, now); allowed && c.tokens == b.tokens && c.rate == b.rate
  {
  }

  // At a rate a packet passes exactly when it fits what is there and what the time
  // has earned, up to the burst, and costs its size.
  lemma AllowExactly(b: Bucket, bytes: int, now: int)
    requires b.rate > 0.0 && bytes > 0 && b.last <= now
    ensures var (c, allowed) := Allow(b, bytes, now);
            var had := Smaller(b.tokens + (now - b.last) as real / 1_000_000_000.0 * b.rate, Burst(b.rate));
            && (allowed <==> bytes as real <= had)
            && c.tokens == (if allowed then had - bytes as real else had) && c.last == now && c.rate == b.rate
  {
  }

  // Nothing of no size is ever held up, nor is the clock read for it.
  lemma EmptyAllows(b: Bucket, bytes: int, now: int)
    requires bytes <= 0
    ensures Allow(b, bytes, now) == (b, true)
  {
  }

  datatype Packet = Packet(bytes: int, now: int)

  function Total(packets: seq<Packet>): int {
    if packets == [] then 0 else (if packets[0].bytes > 0 then packets[0].bytes else 0) + Total(packets[1..])
  }

  // Readings in order, the first not before `from`.
  predicate InOrder(packets: seq<Packet>, from: int)
    decreases |packets|
  {
    packets == [] || (from <= packets[0].now && InOrder(packets[1..], packets[0].now))
  }

  function Feed(b: Bucket, packets: seq<Packet>): seq<bool>
    decreases |packets|
  {
    if packets == [] then []
    else
      var (c, allowed) := Allow(b, packets[0].bytes, packets[0].now);
      [allowed] + Feed(c, packets[1..])
  }

  lemma {:induction false} TotalIsNat(packets: seq<Packet>)
    ensures Total(packets) >= 0
    decreases |packets|
  {
    if packets != [] { TotalIsNat(packets[1..]); }
  }

  lemma OneFits(b: Bucket, bytes: int, now: int, rest: int)
    requires b.rate > 0.0 && b.tokens <= Burst(b.rate) && b.last <= now && rest >= 0
    requires (if bytes > 0 then bytes else 0) + rest <= b.tokens.Floor
    ensures var (c, allowed) := Allow(b, bytes, now);
            && allowed && c.rate == b.rate && rest <= c.tokens.Floor && c.tokens <= Burst(c.rate)
            && c.last == (if bytes > 0 then now else b.last)
  {
    GainGrows(b.rate, 0, now - b.last);
    if bytes > 0 { AllowExactly(b, bytes, now); }
  }

  // Packets that together stay within the tokens there at the start all pass.
  lemma {:induction false} WithinTokensAllPass(b: Bucket, packets: seq<Packet>)
    requires b.rate > 0.0 && b.tokens <= Burst(b.rate) && InOrder(packets, b.last) && Total(packets) as real <= b.tokens
    ensures |Feed(b, packets)| == |packets|
    ensures forall i :: 0 <= i < |packets| ==> Feed(b, packets)[i]
    decreases |packets|
  {
    if packets != [] {
      var p, rest := packets[0], packets[1..];
      TotalIsNat(rest);
      OneFits(b, p.bytes, p.now, Total(rest));
      var c := Allow(b, p.bytes, p.now).0;
      LaterInOrder(rest, c.last, p.now);
      WithinTokensAllPass(c, rest);
      assert Feed(b, packets) == [true] + Feed(c, rest);
    }
  }

  lemma LaterInOrder(packets: seq<Packet>, from: int, now: int)
    requires from <= now && InOrder(packets, now)
    ensures InOrder(packets, from)
  {
  }

  // A limiter that starts at a rate has its whole burst to give.
  lemma NewLimiterIsFull(rate: int, now: int)
    requires rate > 0
    ensures var b := SetRate(Bucket(0.0, 0.0, now), rate, now);
            && b.rate == rate as real && b.last == now && b.tokens == Burst(b.rate)
            && b.tokens >= 1200.0 && b.tokens >= rate as real / 10.0
  {
  }

  // A change from one rate to another keeps what was earned at the old one, up to
  // the new burst; an empty bucket starts full.
  lemma RateChangeKeepsTokens(b: Bucket, rate: int, now: int)
    requires rate > 0 && b.rate > 0.0 && b.last <= now
    ensures var c := SetRate(b, rate, now);
            var had := Smaller(b.tokens + (now - b.last) as real / 1_000_000_000.0 * b.rate, Burst(b.rate));
            && c.rate == rate as real && c.last == now
            && c.tokens == if had == 0.0 then Burst(c.rate) else Smaller(had, Burst(c.rate))
  {
  }

  lemma RateOffEmpties(b: Bucket, rate: int, now: int)
    requires rate <= 0
    ensures SetRate(b, rate, now).rate == 0.0 && SetRate(b, rate, now).tokens == 0.0
  {
  }

  // -- waitForBytes -----------------------------------------------------------------------

  // It returns at the first reading exactly when the packet is empty, no rate is
  // set or the tokens are there; nothing is ever kept waiting without a rate.
  lemma PassesAtOnceExactly(b: Bucket, bytes: int, now: int)
    requires b.last <= now
    ensures var had := Smaller(b.tokens + (now - b.last) as real / 1_000_000_000.0 * b.rate, Burst(b.rate));
            && (Pauses(b, bytes, [now]) == [] <==> bytes <= 0 || b.rate <= 0.0 || bytes as real <= had)
            && (Pauses(b, bytes, [now]) == [] ==> WaitForBytes(b, bytes, [now]).1)
            && (Pauses(b, bytes, [now]) == [] && bytes > 0 && b.rate > 0.0 ==>
                  WaitForBytes(b, bytes, [now]).0.tokens == had - bytes as real)
  {
    if bytes > 0 { HoldDecides(b, bytes, now); }
  }

  lemma HoldDecides(b: Bucket, bytes: int, now: int)
    requires b.last <= now && bytes > 0
    ensures var r := Refill(b, now);
            && (Pauses(b, bytes, [now]) == [] <==> b.rate <= 0.0 || bytes as real <= r.tokens)
            && (Pauses(b, bytes, [now]) == [] ==> WaitForBytes(b, bytes, [now]).1)
            && (Pauses(b, bytes, [now]) == [] && b.rate > 0.0 ==>
                  WaitForBytes(b, bytes, [now]).0.tokens == r.tokens - bytes as real)
  {
    var r := Refill(b, now);
    assert [now][0..] == [now];
    if b.rate <= 0.0 || bytes as real <= r.tokens {
      HoldPasses(b, bytes, [now], 0);
    } else {
      HoldSleeps(b, bytes, [now], 0, []);
      assert Pauses(b, bytes, [now]) == [] + Pauses(b, bytes, [now]);
    }
  }

  // A pause is no longer than it takes to earn what is missing, or a millisecond.
  lemma PauseIsNoLonger(b: Bucket, bytes: int)
    requires b.rate > 0.0 && b.tokens < bytes as real && b.tokens <= Burst(b.rate)
    ensures var missing := Smaller(bytes as real, Burst(b.rate)) - b.tokens;
            Pause(b, bytes) == MILLISECOND || Gain(b.rate, Pause(b, bytes)) <= missing
  {
    var missing := Smaller(bytes as real, Burst(b.rate)) - b.tokens;
    var x := missing / b.rate * SECOND as real;
    var ns := x.Floor;
    if ns > MILLISECOND {
      var y := ns as real / SECOND as real;
      assert ns as real <= x;
      assert y <= missing / b.rate;
      assert missing / b.rate * b.rate == missing;
      assert (missing / b.rate - y) * b.rate >= 0.0;
    }
  }

  // -- Frames -------------------------------------------------------------------------------

  // Without a limit every frame passes, and after a change of limit the first does.
  lemma UnlimitedAdmitsFrames(g: Gate, timestamp: U32)
    requires g.maxFPS <= 0 || !g.haveFrame
    ensures AllowFrame(g, timestamp).1
  {
  }

  // All packets of one frame share its fate.
  lemma FrameIsDecidedOnce(g: Gate, timestamp: U32)
    ensures var (h, allowed) := AllowFrame(g, timestamp); AllowFrame(h, timestamp) == (h, allowed)
  {
  }
}
