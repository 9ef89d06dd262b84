/** How many bytes the limiter can admit in a window of time. */
module BitrateBound {
  import opened BitrateLimiter
  import opened TokenClock

  // The one goroutine that forwards a publication is either between calls or
  // asleep inside waitForBytes until its timer fires, no earlier than `until`.
  datatype Phase = Ready | Asleep(bytes: int, until: int, oversized: bool)

  datatype Meter = Meter(bucket: Bucket, phase: Phase, admitted: int)

  datatype Step =
    | Allows(bytes: int, now: int)
    | Checks(bytes: int, now: int)
    | Wakes(now: int)
    | Stops

  function Bill(admitted: int, bytes: int): int {
    if bytes <= 0 then admitted else admitted + bytes
  }

  function Lock(m: Meter, bytes: int, now: int): Meter {
    if bytes <= 0 then m
    else
      var (b, verdict) := Check(m.bucket, bytes, now);
      match verdict
      case Go => Meter(b, Ready, m.admitted + bytes)
      case Sleep(ns, oversized) => Meter(b, Asleep(bytes, now + ns, oversized), m.admitted)
  }

  // One lock hold.  A step that does not fit the phase, or a clock reading that
  // goes backward or fires a timer early, changes nothing.
  function Next(m: Meter, s: Step): Meter {
    match s
    case Allows(bytes, now) =>
      if m.phase != Ready || now < m.bucket.last then m else
      var (b, allowed) := Allow(m.bucket, bytes, now);
      Meter(b, Ready, if allowed then Bill(m.admitted, bytes) else m.admitted)
    case Checks(bytes, now) =>
      if m.phase != Ready || now < m.bucket.last then m else Lock(m, bytes, now)
    case Wakes(now) =>
      if m.phase == Ready || now < m.phase.until || now < m.bucket.last then m
      else if m.phase.oversized then Meter(Debit(m.bucket, m.phase.bytes, now), Ready, m.admitted + m.phase.bytes)
      else Lock(m, m.phase.bytes, now)
    case Stops => m.(phase := Ready)
  }

  function Run(m: Meter, steps: seq<Step>): Meter
    decreases |steps|
  {
    if steps == [] then m else Run(Next(m, steps[0]), steps[1..])
  }

  // A pause truncated to whole nanoseconds earns the deficit less at most what
  // one nanosecond earns.
  lemma PauseEarns(rate: real, deficit: real)
    requires rate > 0.0
    ensures Gain(rate, (deficit / rate * SECOND as real).Floor) >= deficit - Gain(rate, 1)
  {
    var x := deficit / rate * SECOND as real;
    var ns := x.Floor;
    var y := ns as real / SECOND as real;
    assert x < ns as real + 1.0;
    assert deficit / rate <= y + 1.0 / SECOND as real;
    assert deficit / rate * rate == deficit;
    assert (y + 1.0 / SECOND as real - deficit / rate) * rate >= 0.0;
    assert (y + 1.0 / SECOND as real - deficit / rate) * rate == y * rate +
           1.0 / SECOND as real * rate - deficit / rate * rate;
    assert Gain(rate, 1) == 1.0 / SECOND as real * rate;
  }

  // -- The bound ------------------------------------------------------------------

  // A sleeping oversized packet will find the bucket all but full.
  ghost predicate Fit(m: Meter) {
    && m.bucket.rate > 0.0
    && m.bucket.tokens <= Burst(m.bucket.rate)
    && (m.phase.Asleep? && m.phase.oversized ==>
          && m.bucket.last <= m.phase.until
          && m.phase.bytes as real > Burst(m.bucket.rate)
          && m.bucket.tokens + Gain(m.bucket.rate, m.phase.until - m.bucket.last) >=
             Burst(m.bucket.rate) - Gain(m.bucket.rate, 1))
    && (m.phase.Asleep? ==> m.phase.bytes > 0)
  }

  ghost predicate Within(s: Step, m: Meter, largest: int) {
    match s
    case Allows(bytes, _) => bytes <= largest
    case Checks(bytes, _) => bytes <= largest
    case Wakes(_) => m.phase.Asleep? ==> m.phase.bytes <= largest
    case Stops => true
  }

  // The lowest level an admission can leave behind: only a packet larger than
  // the burst goes on credit.
  function Floor(rate: real, largest: int): real {
    if largest as real <= Burst(rate) then 0.0 else Burst(rate) - Gain(rate, 1) - largest as real
  }

  lemma RefillEarns(b: Bucket, now: int)
    requires b.rate > 0.0 && b.last <= now && b.tokens <= Burst(b.rate)
    ensures var r := Refill(b, now);
            && r.rate == b.rate && r.last == now && b.tokens <= r.tokens <= Burst(b.rate)
            && r.tokens <= b.tokens + Gain(b.rate, now - b.last)
            && (r.tokens == b.tokens + Gain(b.rate, now - b.last) || r.tokens == Burst(b.rate))
  {
    GainGrows(b.rate, 0, now - b.last);
  }

  // What one step may do to the bytes admitted and the tokens left.
  ghost predicate Accounted(m: Meter, n: Meter, largest: int) {
    && n.bucket.rate == m.bucket.rate && m.bucket.last <= n.bucket.last && m.admitted <= n.admitted
    && (n.admitted - m.admitted) as real + n.bucket.tokens <=
         m.bucket.tokens + Gain(m.bucket.rate, n.bucket.last - m.bucket.last)
    && (n.admitted == m.admitted ==> n.bucket.tokens >= m.bucket.tokens)
    && (n.admitted > m.admitted ==> n.bucket.tokens >= Floor(m.bucket.rate, largest))
  }

  lemma LockIsAccounted(m: Meter, bytes: int, now: int, largest: int)
    requires Fit(m) && m.bucket.last <= now && bytes <= largest
    ensures bytes > 0 ==> Fit(Lock(m, bytes, now)) && Accounted(m, Lock(m, bytes, now), largest)
  {
    RefillEarns(m.bucket, now);
    var r := Refill(m.bucket, now);
    var burst := Burst(r.rate);
    if bytes > 0 && r.tokens < bytes as real && bytes as real > burst {
      PauseEarns(r.rate, burst - r.tokens);
      var ns := ((burst - r.tokens) / r.rate * SECOND as real).Floor;
      GainGrows(r.rate, ns, Pause(r, bytes));
    }
  }

  lemma WakeIsAccounted(m: Meter, now: int, largest: int)
    requires Fit(m) && m.phase.Asleep? && m.phase.oversized && m.bucket.last <= now && m.phase.until <= now
    requires m.phase.bytes <= largest
    ensures Fit(Next(m, Wakes(now))) && Accounted(m, Next(m, Wakes(now)), largest)
  {
    RefillEarns(m.bucket, now);
    GainGrows(m.bucket.rate, m.phase.until - m.bucket.last, now - m.bucket.last);
    GainGrows(m.bucket.rate, 0, 1);
  }

  lemma NextIsAccounted(m: Meter, s: Step, largest: int)
    requires Fit(m) && Within(s, m, largest)
    ensures Fit(Next(m, s)) && Accounted(m, Next(m, s), largest)
  {
    GainGrows(m.bucket.rate, 0, 0);
    match s
    case Allows(bytes, now) =>
      if m.bucket.last <= now { RefillEarns(m.bucket, now); }
    case Checks(bytes, now) =>
      if m.bucket.last <= now { LockIsAccounted(m, bytes, now, largest); }
    case Wakes(now) =>
      if m.phase.Asleep? && m.phase.until <= now && m.bucket.last <= now {
        if m.phase.oversized {
          WakeIsAccounted(m, now, largest);
        } else {
          LockIsAccounted(m, m.phase.bytes, now, largest);
        }
      }
    case Stops =>
  }

  ghost predicate AllWithin(m: Meter, steps: seq<Step>, largest: int)
    decreases |steps|
  {
    steps == [] || (Within(steps[0], m, largest) && AllWithin(Next(m, steps[0]), steps[1..], largest))
  }

  lemma {:induction false} RunIsAccounted(m: Meter, steps: seq<Step>, largest: int)
    requires Fit(m) && AllWithin(m, steps, largest)
    ensures Fit(Run(m, steps)) && Accounted(m, Run(m, steps), largest)
    decreases |steps|
  {
    if steps == [] {
      GainGrows(m.bucket.rate, 0, 0);
    } else {
      var n := Next(m, steps[0]);
      NextIsAccounted(m, steps[0], largest);
      RunIsAccounted(n, steps[1..], largest);
      var e := Run(n, steps[1..]);
      GainAdds(m.bucket.rate, n.bucket.last - m.bucket.last, e.bucket.last - n.bucket.last);
    }
  }

  // In any window between rate changes, the bytes admitted are at most what the
  // window earns plus the burst, or plus the largest packet if that is larger.
  // Truncating pauses to whole nanoseconds costs at most one nanosecond's worth.
  lemma WindowBound(m: Meter, steps: seq<Step>, largest: nat)
    requires Fit(m) && AllWithin(m, steps, largest)
    ensures var e := Run(m, steps);
            var earned := Gain(m.bucket.rate, e.bucket.last - m.bucket.last);
            (e.admitted - m.admitted) as real <=
              earned + if largest as real <= Burst(m.bucket.rate) then Burst(m.bucket.rate)
                       else largest as real + Gain(m.bucket.rate, 1)
  {
    RunIsAccounted(m, steps, largest);
    var e := Run(m, steps);
    GainGrows(m.bucket.rate, 0, e.bucket.last - m.bucket.last);
    GainGrows(m.bucket.rate, 0, 1);
  }

  // Tokens stay within the burst, and packets that fit the burst never take the
  // bucket below zero.
  lemma NoDebtWithoutOversize(m: Meter, steps: seq<Step>, largest: nat)
    requires Fit(m) && m.bucket.tokens >= 0.0 && AllWithin(m, steps, largest)
    requires largest as real <= Burst(m.bucket.rate)
    ensures 0.0 <= Run(m, steps).bucket.tokens <= Burst(m.bucket.rate)
  {
    RunIsAccounted(m, steps, largest);
  }

  // `allow` spends only tokens that are there, even while a debt is being repaid.
  lemma AllowNeverOverdraws(b: Bucket, bytes: int, now: int)
    requires b.rate > 0.0 && b.last <= now && b.tokens <= Burst(b.rate)
    ensures var (n, allowed) := Allow(b, bytes, now);
            n.tokens < 0.0 ==> b.tokens <= n.tokens && (bytes > 0 ==> !allowed)
  {
    RefillEarns(b, now);
  }

  // A rate change leaves a meter to which the bound applies.
  lemma RateChangeIsFit(b: Bucket, rate: int, now: int, admitted: int)
    requires rate > 0
    ensures Fit(Meter(SetRate(b, rate, now), Ready, admitted))
  {
  }

  // -- waitForBytes is such a run ---------------------------------------------------

  function Wakings(readings: seq<int>): seq<Step> {
    if readings == [] then [Stops] else [Wakes(readings[0])] + Wakings(readings[1..])
  }

  ghost predicate OnTime(m: Meter, readings: seq<int>)
    decreases |readings|
  {
    readings == [] || m.phase == Ready ||
    (m.phase.until <= readings[0] && m.bucket.last <= readings[0] && OnTime(Next(m, Wakes(readings[0])), readings[1..]))
  }

  lemma {:induction false} ReadyStaysPut(m: Meter, readings: seq<int>)
    requires m.phase == Ready
    ensures Run(m, Wakings(readings)) == m
    decreases |readings|
  {
    if readings != [] {
      assert Wakings(readings)[1..] == Wakings(readings[1..]);
      ReadyStaysPut(m, readings[1..]);
    } else {
      assert Run(Next(m, Stops), []) == m;
      assert [Stops][1..] == [];
    }
  }

  // The call's outcome is the outcome of its lock holds, one by one.
  lemma {:induction false} SleepingWaitIsARun(m: Meter, readings: seq<int>)
    requires m.phase.Asleep? && !m.phase.oversized && m.phase.bytes > 0 && OnTime(m, readings)
    ensures var (b, sent) := WaitForBytes(m.bucket, m.phase.bytes, readings);
            Run(m, Wakings(readings)) == Meter(b, Ready, if sent then m.admitted + m.phase.bytes else m.admitted)
    decreases |readings|
  {
    if readings == [] {
      assert [Stops][1..] == [];
      assert Run(m, [Stops]) == Run(Next(m, Stops), []);
    } else {
      assert Wakings(readings)[1..] == Wakings(readings[1..]);
      LockedWaitIsARun(m, m.phase.bytes, readings);
    }
  }

  lemma {:induction false} LockedWaitIsARun(m: Meter, bytes: int, readings: seq<int>)
    requires bytes > 0 && readings != [] && OnTime(Lock(m, bytes, readings[0]), readings[1..])
    ensures var (b, sent) := WaitForBytes(m.bucket, bytes, readings);
            Run(Lock(m, bytes, readings[0]), Wakings(readings[1..])) ==
            Meter(b, Ready, if sent then m.admitted + bytes else m.admitted)
    decreases |readings|, 0
  {
    var n := Lock(m, bytes, readings[0]);
    var rest := readings[1..];
    if n.phase == Ready {
      ReadyStaysPut(n, rest);
    } else if !n.phase.oversized {
      SleepingWaitIsARun(n, rest);
    } else if rest == [] {
      assert [Stops][1..] == [];
      assert Run(n, [Stops]) == Run(Next(n, Stops), []);
    } else {
      assert Wakings(rest)[1..] == Wakings(rest[1..]);
      ReadyStaysPut(Next(n, Wakes(rest[0])), rest[1..]);
    }
  }

  // No timer fires before its pause is over.
  predicate NoneEarly(readings: seq<int>, pauses: seq<int>) {
    forall i :: 0 <= i < |pauses| && i + 1 < |readings| ==> readings[i] + pauses[i] <= readings[i + 1]
  }

  lemma {:induction false} NoneEarlyIsOnTime(m: Meter, bytes: int, readings: seq<int>)
    requires bytes > 0 && readings != [] && NoneEarly(readings, Pauses(m.bucket, bytes, readings))
    ensures OnTime(Lock(m, bytes, readings[0]), readings[1..])
    decreases |readings|
  {
    var n := Lock(m, bytes, readings[0]);
    var rest := readings[1..];
    var pauses := Pauses(m.bucket, bytes, readings);
    if n.phase != Ready && rest != [] {
      assert readings[0] + pauses[0] <= readings[1];
      if n.phase.oversized {
        assert Next(n, Wakes(rest[0])).phase == Ready;
      } else {
        assert NoneEarly(rest, Pauses(n.bucket, bytes, rest)) by {
          assert Pauses(n.bucket, bytes, rest) == pauses[1..];
          assert forall i :: 0 <= i < |pauses[1..]| ==> pauses[1..][i] == pauses[i + 1];
          assert forall i :: 0 <= i < |rest| ==> rest[i] == readings[i + 1];
        }
        NoneEarlyIsOnTime(n, bytes, rest);
      }
    }
  }

  lemma WaitIsARun(b: Bucket, bytes: int, readings: seq<int>, admitted: int)
    requires bytes > 0 && readings != [] && b.last <= readings[0]
    requires NoneEarly(readings, Pauses(b, bytes, readings))
    ensures var (c, sent) := WaitForBytes(b, bytes, readings);
            Run(Meter(b, Ready, admitted), [Checks(bytes, readings[0])] + Wakings(readings[1..])) ==
            Meter(c, Ready, if sent then admitted + bytes else admitted)
  {
    var steps := [Checks(bytes, readings[0])] + Wakings(readings[1..]);
    assert steps[1..] == Wakings(readings[1..]);
    NoneEarlyIsOnTime(Meter(b, Ready, admitted), bytes, readings);
    LockedWaitIsARun(Meter(b, Ready, admitted), bytes, readings);
  }

  // -- No wait is endless -------------------------------------------------------------

  lemma PausedEnough(r: Bucket, bytes: int, now: int)
    requires r.rate > 0.0 && bytes as real <= Burst(r.rate) && r.tokens < bytes as real
    requires now >= r.last + Pause(r, bytes)
    ensures Refill(r, now).tokens >= bytes as real - Gain(r.rate, 1)
  {
    var deficit := bytes as real - r.tokens;
    PauseEarns(r.rate, deficit);
    GainGrows(r.rate, (deficit / r.rate * SECOND as real).Floor, now - r.last);
    GainGrows(r.rate, 0, 1);
  }

  lemma AMillisecondMore(r: Bucket, bytes: int, now: int)
    requires r.rate > 0.0 && bytes as real <= Burst(r.rate) && r.tokens >= bytes as real - Gain(r.rate, 1)
    requires now >= r.last + MILLISECOND
    ensures Refill(r, now).tokens >= bytes as real
  {
    GainGrows(r.rate, 1, now - r.last);
  }

  // A packet waits for at most two pauses: whatever its size and however deep
  // the debt, it goes by the third reading.
  lemma WaitEndsByThirdReading(b: Bucket, bytes: int, readings: seq<int>)
    requires b.rate > 0.0 && b.tokens <= Burst(b.rate) && bytes > 0
    requires |readings| >= 3 && b.last <= readings[0]
    requires readings[1] >= readings[0] + Pause(Refill(b, readings[0]), bytes)
    requires readings[2] >= readings[1] + MILLISECOND
    ensures WaitForBytes(b, bytes, readings).1
  {
    var r := Refill(b, readings[0]);
    if r.tokens < bytes as real && bytes as real <= Burst(r.rate) {
      PausedEnough(r, bytes, readings[1]);
      var s := Refill(r, readings[1]);
      AMillisecondMore(s, bytes, readings[2]);
      var rest := readings[1..];
      assert rest[0] == readings[1] && rest[1..][0] == readings[2];
      if s.tokens < bytes as real {
        assert WaitForBytes(s, bytes, rest[1..]).1;
      }
      assert WaitForBytes(r, bytes, rest).1;
    }
  }
}
