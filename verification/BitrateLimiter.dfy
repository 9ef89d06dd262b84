/** The per-publication limiter: a token bucket for bytes, which lets one
    oversized packet through on credit, and a gate on the frame rate. */
module BitrateLimiter {
  import opened TokenClock
  import opened VideoFrames

  // -- The bucket ---------------------------------------------------------------

  // `last` is a clock reading in nanoseconds.
  datatype Bucket = Bucket(rate: real, tokens: real, last: int)

  const MILLISECOND := 1_000_000

  function Burst(rate: real): real {
    if rate / 10.0 < 1200.0 then 1200.0 else rate / 10.0
  }

  function Refill(b: Bucket, now: int): Bucket {
    if now < b.last then b.(last := now)
    else if b.rate > 0.0 then b.(tokens := Min(b.tokens + Gain(b.rate, now - b.last), Burst(b.rate)), last := now)
    else b.(last := now)
  }

  function SetRate(b: Bucket, rate: int, now: int): Bucket {
    var r := Refill(b, now);
    if rate <= 0 then r.(rate := 0.0, tokens := 0.0)
    else
      var burst := Burst(rate as real);
      var tokens := Min(r.tokens, burst);
      Bucket(rate as real, if tokens == 0.0 then burst else tokens, r.last)
  }

  function Allow(b: Bucket, bytes: int, now: int): (Bucket, bool) {
    if bytes <= 0 then (b, true)
    else
      var r := Refill(b, now);
      if r.rate <= 0.0 then (r, true)
      else if bytes as real > r.tokens then (r, false)
      else (r.(tokens := r.tokens - bytes as real), true)
  }

  // One lock hold of waitForBytes: either the packet goes, or the pacer sleeps
  // for `ns`.  After an oversized sleep the packet goes on credit.
  datatype Verdict = Go | Sleep(ns: int, oversized: bool)

  // The time that earns `deficit`, truncated to whole nanoseconds.
  function Duration(deficit: real, rate: real): int
    requires rate > 0.0
  {
    (deficit / rate * SECOND as real).Floor
  }

  function Pause(b: Bucket, bytes: int): int
    requires b.rate > 0.0
  {
    var deficit := if bytes as real > Burst(b.rate) then Burst(b.rate) - b.tokens else bytes as real - b.tokens;
    var ns := Duration(deficit, b.rate);
    if ns < MILLISECOND then MILLISECOND else ns
  }

  function Check(b: Bucket, bytes: int, now: int): (Bucket, Verdict) {
    var r := Refill(b, now);
    if r.rate <= 0.0 then (r, Go)
    else if r.tokens >= bytes as real then (r.(tokens := r.tokens - bytes as real), Go)
    else (r, Sleep(Pause(r, bytes), bytes as real > Burst(r.rate)))
  }

  function Debit(b: Bucket, bytes: int, now: int): Bucket {
    var r := Refill(b, now);
    r.(tokens := r.tokens - bytes as real)
  }

  // The whole call, given the clock readings it makes before `stop` closes.
  function WaitForBytes(b: Bucket, bytes: int, readings: seq<int>): (Bucket, bool)
    decreases |readings|
  {
    if bytes <= 0 then (b, true)
    else if readings == [] then (b, false)
    else
      var (c, verdict) := Check(b, bytes, readings[0]);
      match verdict
      case Go => (c, true)
      case Sleep(_, false) => WaitForBytes(c, bytes, readings[1..])
      case Sleep(_, true) => if |readings| == 1 then (c, false) else (Debit(c, bytes, readings[1]), true)
  }

  // How long the call sleeps after each reading.
  function Pauses(b: Bucket, bytes: int, readings: seq<int>): seq<int>
    decreases |readings|
  {
    if bytes <= 0 || readings == [] then []
    else
      var (c, verdict) := Check(b, bytes, readings[0]);
      match verdict
      case Go => []
      case Sleep(ns, oversized) => [ns] + if oversized then [] else Pauses(c, bytes, readings[1..])
  }

  // What follows the lock hold at reading i: the packet passes, or the call
  // sleeps and goes on with the readings after it.
  lemma HoldPasses(b: Bucket, bytes: int, readings: seq<int>, i: nat)
    requires bytes > 0 && i < |readings|
    requires var r := Refill(b, readings[i]); r.rate <= 0.0 || r.tokens >= bytes as real
    ensures var r := Refill(b, readings[i]);
            && Pauses(b, bytes, readings[i..]) == []
            && WaitForBytes(b, bytes, readings[i..]) ==
               (if r.rate > 0.0 then r.(tokens := r.tokens - bytes as real) else r, true)
  {
  }

  lemma HoldSleeps(b: Bucket, bytes: int, readings: seq<int>, i: nat, slept: seq<int>)
    requires bytes > 0 && i < |readings|
    requires var r := Refill(b, readings[i]); r.rate > 0.0 && r.tokens < bytes as real
    ensures var r := Refill(b, readings[i]);
            var oversized := bytes as real > Burst(r.rate);
            && slept + Pauses(b, bytes, readings[i..]) ==
               (slept + [Pause(r, bytes)]) + (if oversized then [] else Pauses(r, bytes, readings[i + 1..]))
            && WaitForBytes(b, bytes, readings[i..]) ==
               if !oversized then WaitForBytes(r, bytes, readings[i + 1..])
               else if i + 1 == |readings| then (r, false) else (Debit(r, bytes, readings[i + 1]), true)
  {
    assert readings[i..][1..] == readings[i + 1..];
  }

  // -- The gate -----------------------------------------------------------------

  const VIDEO_CLOCK := 90000

  datatype Gate = Gate(maxFPS: int, haveFrame: bool, lastFrame: U32, currentFrame: U32, currentAllowed: bool)

  function AllowFrame(g: Gate, timestamp: U32): (Gate, bool) {
    if g.maxFPS <= 0 then (g, true)
    else if g.haveFrame && g.currentFrame == timestamp then (g, g.currentAllowed)
    else
      var delta := (timestamp - g.lastFrame) % 0x1_0000_0000;
      var minTicks := VIDEO_CLOCK / g.maxFPS;
      var allowed := !g.haveFrame || !(minTicks > 0 && delta < minTicks);
      (Gate(g.maxFPS, true, if allowed then timestamp else g.lastFrame, timestamp, allowed), allowed)
  }

  class Limiter {
    var rate: real
    var tokens: real
    var last: int
    var maxFPS: int
    var haveFrame: bool
    var lastFrameTimestamp: U32
    var currentFrame: U32
    var currentFrameAllowed: bool

    function Tokens(): Bucket
      reads this
    {
      Bucket(rate, tokens, last)
    }

    function Frames(): Gate
      reads this
    {
      Gate(maxFPS, haveFrame, lastFrameTimestamp, currentFrame, currentFrameAllowed)
    }

    constructor (bytesPerSecond: int, now: int)
      ensures Tokens() == SetRate(Bucket(0.0, 0.0, now), bytesPerSecond, now)
      ensures !haveFrame && maxFPS == 0
    {
      rate, tokens, last := 0.0, 0.0, now;
      maxFPS, haveFrame, lastFrameTimestamp, currentFrame, currentFrameAllowed := 0, false, 0, 0, false;
      new;
      ChangeRate(bytesPerSecond, now);
    }

    method RefillTokens(now: int)
      modifies this`tokens, this`last
      ensures Tokens() == Refill(old(Tokens()), now)
    {
      if now < last {
        last := now;
        return;
      }
      if rate > 0.0 {
        var burst := rate / 10.0;
        if burst < 1200.0 {
          burst := 1200.0;
        }
        tokens := tokens + Gain(rate, now - last);
        if tokens > burst {
          tokens := burst;
        }
      }
      last := now;
    }

    method ChangeRate(bytesPerSecond: int, now: int)
      modifies this`rate, this`tokens, this`last
      ensures Tokens() == SetRate(old(Tokens()), bytesPerSecond, now)
    {
      RefillTokens(now);
      if bytesPerSecond <= 0 {
        rate, tokens := 0.0, 0.0;
        return;
      }
      rate := bytesPerSecond as real;
      var burst := rate / 10.0;
      if burst < 1200.0 {
        burst := 1200.0;
      }
      if tokens > burst {
        tokens := burst;
      }
      if tokens == 0.0 {
        tokens := burst;
      }
    }

    method AllowBytes(bytes: int, now: int) returns (allowed: bool)
      modifies this`tokens, this`last
      ensures (Tokens(), allowed) == Allow(old(Tokens()), bytes, now)
    {
      if bytes <= 0 {
        return true;
      }
      RefillTokens(now);
      if rate <= 0.0 {
        return true;
      }
      if bytes as real > tokens {
        return false;
      }
      tokens := tokens - bytes as real;
      return true;
    }

    // `readings` are the clock readings made before `stop` closes.
    method Wait(bytes: int, readings: seq<int>) returns (admitted: bool, pauses: seq<int>)
      modifies this`tokens, this`last
      ensures (Tokens(), admitted) == WaitForBytes(old(Tokens()), bytes, readings)
      ensures pauses == Pauses(old(Tokens()), bytes, readings)
    {
      pauses := [];
      if bytes <= 0 {
        return true, pauses;
      }
      var i := 0;
      ghost var outcome := WaitForBytes(Tokens(), bytes, readings);
      ghost var every := Pauses(Tokens(), bytes, readings);
      assert readings[0..] == readings;
      while i < |readings|
        invariant 0 <= i <= |readings|
        invariant outcome == WaitForBytes(Tokens(), bytes, readings[i..])
        invariant every == pauses + Pauses(Tokens(), bytes, readings[i..])
      {
        ghost var before := Tokens();
        RefillTokens(readings[i]);
        if rate <= 0.0 || tokens >= bytes as real {
          HoldPasses(before, bytes, readings, i);
          if rate > 0.0 {
            tokens := tokens - bytes as real;
          }
          return true, pauses;
        }
        var deficit := bytes as real - tokens;
        var burst := rate / 10.0;
        if burst < 1200.0 {
          burst := 1200.0;
        }
        var oversizedPacket := bytes as real > burst;
        if oversizedPacket {
          deficit := burst - tokens;
        }
        var wait := Duration(deficit, rate);
        if wait < MILLISECOND {
          wait := MILLISECOND;
        }
        assert wait == Pause(Tokens(), bytes);
        HoldSleeps(before, bytes, readings, i, pauses);
        pauses := pauses + [wait];
        i := i + 1;
        if oversizedPacket {
          if i == |readings| {
            return false, pauses;
          }
          RefillTokens(readings[i]);
          tokens := tokens - bytes as real;
          return true, pauses;
        }
      }
      return false, pauses;
    }

    method ChangeFPS(fps: int)
      modifies this`maxFPS, this`haveFrame
      ensures maxFPS == fps && !haveFrame
    {
      maxFPS, haveFrame := fps, false;
    }

    method AdmitFrame(timestamp: U32) returns (allowed: bool)
      modifies this`haveFrame, this`lastFrameTimestamp, this`currentFrame, this`currentFrameAllowed
      ensures (Frames(), allowed) == AllowFrame(old(Frames()), timestamp)
    {
      if maxFPS <= 0 {
        return true;
      }
      if haveFrame && currentFrame == timestamp {
        return currentFrameAllowed;
      }
      allowed := true;
      if haveFrame {
        var delta := (timestamp - lastFrameTimestamp) % 0x1_0000_0000;
        var minTicks := VIDEO_CLOCK / maxFPS;
        if minTicks > 0 && delta < minTicks {
          allowed := false;
        }
      }
      if allowed || !haveFrame {
        lastFrameTimestamp := timestamp;
      }
      haveFrame, currentFrame, currentFrameAllowed := true, timestamp, allowed;
    }
  }
}
