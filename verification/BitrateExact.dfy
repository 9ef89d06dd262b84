/** For which rates and packet sizes the limiter keeps the plain bound, without the
    nanosecond that a truncated wait can lose. */
module BitrateExact {
  import opened BitrateBound
  import opened BitrateLimiter
  import opened TokenClock

  function Max(a: real, b: real): real {
    if a < b then b else a
  }

  // Bytes admitted in the window are within what it earns plus the burst or the
  // largest packet, whichever is more.
  predicate PlainlyBounded(m: Meter, steps: seq<Step>, largest: nat) {
    var e := Run(m, steps);
    (e.admitted - m.admitted) as real <=
      Gain(m.bucket.rate, e.bucket.last - m.bucket.last) + Max(largest as real, Burst(m.bucket.rate))
  }

  // A window of a run that starts with a rate change.
  ghost predicate WindowAfter(b: Bucket, rate: int, now: int, before: seq<Step>, steps: seq<Step>, largest: nat) {
    var m := Meter(SetRate(b, rate, now), Ready, 0);
    AllWithin(m, before, largest) && AllWithin(Run(m, before), steps, largest)
  }

  // Every window of every run at this rate, with packets up to `largest`.
  ghost predicate KeepsPlainBound(rate: int, largest: nat) {
    forall b, now: int, before, steps :: WindowAfter(b, rate, now, before, steps, largest) ==>
      PlainlyBounded(Run(Meter(SetRate(b, rate, now), Ready, 0), before), steps, largest)
  }

  // -- A rate that divides a second's nanoseconds --------------------------------------------

  predicate Equals(x: real, n: int) {
    x == n as real
  }

  ghost predicate IsWhole(x: real) {
    exists n: int :: Equals(x, n)
  }

  lemma WholeSum(x: real, n: int)
    requires IsWhole(x)
    ensures IsWhole(x + n as real) && IsWhole(x - n as real)
  {
    var k: int :| Equals(x, k);
    assert Equals(x + n as real, k + n) && Equals(x - n as real, k - n);
  }

  // `per` nanoseconds earn one token.
  predicate Divides(rate: real, per: int) {
    rate > 0.0 && per > 0 && rate * per as real == SECOND as real
  }

  // The nanoseconds that earn `x` tokens.
  function Time(x: real, per: int): real {
    x * per as real
  }

  lemma TimeAdds(x: real, y: real, per: int)
    ensures Time(x + y, per) == Time(x, per) + Time(y, per) && Time(x - y, per) == Time(x, per) - Time(y, per)
  {
  }

  lemma TimeOrders(x: real, y: real, per: int)
    requires per > 0
    ensures Time(x, per) <= Time(y, per) <==> x <= y
  {
    if x <= y { assert (y - x) * per as real >= 0.0; } else { assert (x - y) * per as real > 0.0; }
  }

  lemma TimeOfGain(rate: real, per: int, ns: int)
    requires Divides(rate, per)
    ensures Time(Gain(rate, ns), per) == ns as real
  {
    var x := ns as real / SECOND as real;
    assert x * rate * per as real == x * (rate * per as real);
  }

  lemma TimeOfPause(rate: real, per: int, deficit: real)
    requires Divides(rate, per)
    ensures deficit / rate * SECOND as real == Time(deficit, per)
  {
    var x := deficit / rate;
    assert x * rate == deficit;
    assert x * (rate * per as real) == x * rate * per as real;
  }

  // The bucket is a whole number of nanoseconds away from where the window
  // started, or from full.
  ghost predicate Aligned(b: Bucket, start: real, per: int) {
    IsWhole(Time(b.tokens, per) - Time(start, per)) || IsWhole(Time(Burst(b.rate), per) - Time(b.tokens, per))
  }

  // And a sleeping oversized packet will find at least what the window started with.
  ghost predicate Steady(m: Meter, start: real, per: int) {
    && Aligned(m.bucket, start, per)
    && (m.phase.Asleep? && m.phase.oversized ==>
          m.bucket.tokens + Gain(m.bucket.rate, m.phase.until - m.bucket.last) >= start)
  }

  lemma ShiftStaysAligned(b: Bucket, c: Bucket, start: real, per: int, n: int)
    requires c.rate == b.rate && Aligned(b, start, per) && Time(c.tokens, per) == Time(b.tokens, per) + n as real
    ensures Aligned(c, start, per)
  {
    if IsWhole(Time(b.tokens, per) - Time(start, per)) {
      WholeSum(Time(b.tokens, per) - Time(start, per), n);
      assert Time(b.tokens, per) - Time(start, per) + n as real == Time(c.tokens, per) - Time(start, per);
    } else {
      WholeSum(Time(Burst(b.rate), per) - Time(b.tokens, per), n);
      assert Time(Burst(b.rate), per) - Time(b.tokens, per) - n as real ==
             Time(Burst(b.rate), per) - Time(c.tokens, per);
    }
  }

  lemma RefillStaysAligned(b: Bucket, start: real, per: int, now: int)
    requires Divides(b.rate, per) && b.last <= now && b.tokens <= Burst(b.rate) && Aligned(b, start, per)
    ensures Aligned(Refill(b, now), start, per)
  {
    var r, earned := Refill(b, now), Gain(b.rate, now - b.last);
    if r.tokens == b.tokens + earned {
      TimeOfGain(b.rate, per, now - b.last);
      TimeAdds(b.tokens, earned, per);
      ShiftStaysAligned(b, r, start, per, now - b.last);
    } else {
      assert Equals(Time(Burst(b.rate), per) - Time(r.tokens, per), 0);
    }
  }

  lemma SpendStaysAligned(b: Bucket, start: real, per: int, bytes: int)
    requires Aligned(b, start, per)
    ensures Aligned(b.(tokens := b.tokens - bytes as real), start, per)
  {
    TimeAdds(b.tokens, bytes as real, per);
    assert Time(bytes as real, per) == (bytes * per) as real;
    ShiftStaysAligned(b, b.(tokens := b.tokens - bytes as real), start, per, -(bytes * per));
  }

  lemma FloorReaches(x: real, n: int)
    requires x >= n as real
    ensures x.Floor >= n
  {
  }

  // In nanoseconds: `tokens` is where the bucket is, `burst` where it is full.
  lemma TruncationReaches(tokens: real, start: real, burst: real)
    requires tokens <= burst && start <= burst && (IsWhole(tokens - start) || IsWhole(burst - tokens))
    ensures (burst - tokens).Floor as real >= start - tokens
  {
    if IsWhole(burst - tokens) {
      var n: int :| Equals(burst - tokens, n);
      FloorReaches(burst - tokens, n);
    } else {
      var n: int :| Equals(tokens - start, n);
      FloorReaches(burst - tokens, -n);
    }
  }

  lemma EarnsBack(r: Bucket, start: real, per: int, ns: int)
    requires Divides(r.rate, per) && ns as real >= Time(start, per) - Time(r.tokens, per)
    ensures r.tokens + Gain(r.rate, ns) >= start
  {
    TimeOfGain(r.rate, per, ns);
    TimeAdds(r.tokens, Gain(r.rate, ns), per);
    TimeOrders(start, r.tokens + Gain(r.rate, ns), per);
  }

  // The truncated pause earns a full bucket back, or at least the start.
  lemma PauseEarnsStart(r: Bucket, start: real, per: int, bytes: int)
    requires Divides(r.rate, per) && r.tokens <= Burst(r.rate) && start <= Burst(r.rate) && Aligned(r, start, per)
    requires bytes as real > Burst(r.rate)
    ensures r.tokens + Gain(r.rate, Pause(r, bytes)) >= start
  {
    var burst := Burst(r.rate);
    TimeOfPause(r.rate, per, burst - r.tokens);
    TimeAdds(burst, r.tokens, per);
    TimeOrders(start, burst, per);
    TimeOrders(r.tokens, burst, per);
    TruncationReaches(Time(r.tokens, per), Time(start, per), Time(burst, per));
    var ns := Time(burst - r.tokens, per).Floor;
    EarnsBack(r, start, per, ns);
    PauseIsAtLeast(r, bytes);
    GainGrows(r.rate, ns, Pause(r, bytes));
  }

  lemma PauseIsAtLeast(r: Bucket, bytes: int)
    requires r.rate > 0.0 && bytes as real > Burst(r.rate)
    ensures Pause(r, bytes) >= ((Burst(r.rate) - r.tokens) / r.rate * SECOND as real).Floor
  {
  }

  lemma LockIsSteady(m: Meter, bytes: int, now: int, largest: nat, start: real, per: int)
    requires Fit(m) && Divides(m.bucket.rate, per) && Steady(m, start, per) && start <= Burst(m.bucket.rate)
    requires m.bucket.last <= now && 0 < bytes <= largest
    ensures var n := Lock(m, bytes, now);
            Steady(n, start, per) &&
            (n.admitted > m.admitted ==> n.bucket.tokens >= start - Max(largest as real, Burst(m.bucket.rate)))
  {
    RefillEarns(m.bucket, now);
    RefillStaysAligned(m.bucket, start, per, now);
    var r := Refill(m.bucket, now);
    if r.tokens >= bytes as real {
      SpendStaysAligned(r, start, per, bytes);
    } else if bytes as real > Burst(r.rate) {
      PauseEarnsStart(r, start, per, bytes);
    }
  }

  lemma WakeIsSteady(m: Meter, now: int, largest: nat, start: real, per: int)
    requires Fit(m) && Divides(m.bucket.rate, per) && Steady(m, start, per) && start <= Burst(m.bucket.rate)
    requires m.phase.Asleep? && m.phase.oversized && m.phase.until <= now && m.bucket.last <= now &&
             m.phase.bytes <= largest
    ensures var n := Next(m, Wakes(now));
            Steady(n, start, per) && n.bucket.tokens >= start - Max(largest as real, Burst(m.bucket.rate))
  {
    RefillEarns(m.bucket, now);
    RefillStaysAligned(m.bucket, start, per, now);
    SpendStaysAligned(Refill(m.bucket, now), start, per, m.phase.bytes);
    GainGrows(m.bucket.rate, m.phase.until - m.bucket.last, now - m.bucket.last);
  }

  lemma AllowIsSteady(m: Meter, bytes: int, now: int, largest: nat, start: real, per: int)
    requires Fit(m) && Divides(m.bucket.rate, per) && Steady(m, start, per) && start <= Burst(m.bucket.rate)
    requires m.phase == Ready && m.bucket.last <= now
    ensures var n := Next(m, Allows(bytes, now));
            Steady(n, start, per) &&
            (n.admitted > m.admitted ==> n.bucket.tokens >= start - Max(largest as real, Burst(m.bucket.rate)))
  {
    if bytes > 0 {
      RefillEarns(m.bucket, now);
      RefillStaysAligned(m.bucket, start, per, now);
      SpendStaysAligned(Refill(m.bucket, now), start, per, bytes);
    }
  }

  lemma NextIsSteady(m: Meter, s: Step, largest: nat, start: real, per: int)
    requires Fit(m) && Divides(m.bucket.rate, per) && Steady(m, start, per) && start <= Burst(m.bucket.rate)
    requires Within(s, m, largest)
    ensures var n := Next(m, s);
            Steady(n, start, per) &&
            (n.admitted > m.admitted ==> n.bucket.tokens >= start - Max(largest as real, Burst(m.bucket.rate)))
  {
    match s
    case Allows(bytes, now) =>
      if m.phase == Ready && m.bucket.last <= now { AllowIsSteady(m, bytes, now, largest, start, per); }
    case Checks(bytes, now) =>
      if m.phase == Ready && m.bucket.last <= now && bytes > 0 { LockIsSteady(m, bytes, now, largest, start, per); }
    case Wakes(now) =>
      if m.phase.Asleep? && m.phase.until <= now && m.bucket.last <= now {
        if m.phase.oversized {
          WakeIsSteady(m, now, largest, start, per);
        } else {
          LockIsSteady(m, m.phase.bytes, now, largest, start, per);
        }
      }
    case Stops =>
  }

  lemma {:induction false} RunIsSteady(m: Meter, steps: seq<Step>, largest: nat, start: real, per: int)
    requires Fit(m) && Divides(m.bucket.rate, per) && Steady(m, start, per) && start <= Burst(m.bucket.rate)
    requires AllWithin(m, steps, largest)
    ensures var e := Run(m, steps);
            e.admitted > m.admitted ==> e.bucket.tokens >= start - Max(largest as real, Burst(m.bucket.rate))
    decreases |steps|
  {
    if steps != [] {
      var n := Next(m, steps[0]);
      NextIsAccounted(m, steps[0], largest);
      NextIsSteady(m, steps[0], largest, start, per);
      RunIsSteady(n, steps[1..], largest, start, per);
      RunIsAccounted(n, steps[1..], largest);
    }
  }

  lemma ExactRatesKeep(m: Meter, steps: seq<Step>, largest: nat, per: int)
    requires Fit(m) && Divides(m.bucket.rate, per) && AllWithin(m, steps, largest)
    ensures PlainlyBounded(m, steps, largest)
  {
    var start, e := m.bucket.tokens, Run(m, steps);
    assert Equals(Time(start, per) - Time(start, per), 0);
    if m.phase.Asleep? && m.phase.oversized { GainGrows(m.bucket.rate, 0, m.phase.until - m.bucket.last); }
    RunIsSteady(m, steps, largest, start, per);
    RunIsAccounted(m, steps, largest);
    GainGrows(m.bucket.rate, 0, e.bucket.last - m.bucket.last);
  }

  lemma SmallPacketsKeep(m: Meter, steps: seq<Step>, largest: nat)
    requires Fit(m) && AllWithin(m, steps, largest) && largest as real <= Burst(m.bucket.rate)
    ensures PlainlyBounded(m, steps, largest)
  {
    WindowBound(m, steps, largest);
  }

  // -- Any other rate, and a packet larger than the burst -----------------------------------

  // Of two packets of neighbouring sizes, one takes no whole number of nanoseconds.
  lemma UnevenSize(rate: int) returns (size: nat)
    requires rate > 0 && SECOND % rate != 0
    ensures (size * SECOND) % rate != 0 && rate <= 1000 * size && 0 < size && size as real <= Burst(rate as real)
  {
    size := rate / 1000 + 1;
    if (size * SECOND) % rate == 0 {
      ModOfNext(size * SECOND, SECOND, rate);
      assert (size + 1) * SECOND == size * SECOND + SECOND;
      size := size + 1;
    }
  }

  lemma ModOfNext(a: int, b: int, rate: int)
    requires rate > 0 && a % rate == 0
    ensures (a + b) % rate == b % rate
  {
    var q := a / rate;
    assert a == rate * q;
    var k, r := b / rate, b % rate;
    assert a + b == rate * (q + k) + r;
    ModIsRest(q + k, r, rate);
  }

  lemma ProductIsFar(rate: int, d: int)
    requires rate > 0
    ensures d >= 1 ==> rate * d >= rate
    ensures d <= -1 ==> rate * d <= -rate
  {
  }

  lemma ModIsRest(q: int, r: int, rate: int)
    requires rate > 0 && 0 <= r < rate
    ensures (rate * q + r) % rate == r && (rate * q + r) / rate == q
  {
    var n := rate * q + r;
    var d := n / rate - q;
    assert n == rate * (n / rate) + n % rate;
    assert rate * d == rate * (n / rate) - rate * q;
    ProductIsFar(rate, d);
  }

  lemma ScaledOrder(a: real, b: real, rate: real)
    requires rate > 0.0
    ensures a < b <==> a * rate < b * rate
  {
    if a < b { assert (b - a) * rate > 0.0; } else { assert (a - b) * rate >= 0.0; }
  }

  lemma FloorBetween(x: real, q: int)
    requires q as real <= x < (q + 1) as real
    ensures x.Floor == q
  {
  }

  lemma FloorOfQuotient(n: int, rate: int)
    requires rate > 0
    ensures (n as real / rate as real).Floor == n / rate
  {
    var x, q := n as real / rate as real, n / rate;
    assert n == rate * q + n % rate;
    assert x * rate as real == n as real;
    QuotientOrder(n, q, rate);
    ScaledOrder(x, q as real, rate as real);
    ScaledOrder(x, (q + 1) as real, rate as real);
    FloorBetween(x, q);
  }

  lemma QuotientOrder(n: int, q: int, rate: int)
    requires rate > 0 && n == rate * q + n % rate
    ensures q as real * rate as real <= n as real < (q + 1) as real * rate as real
  {
    assert (rate * q) as real == q as real * rate as real;
    assert (rate * q + rate) as real == (q + 1) as real * rate as real;
  }

  // The wait for the deficit such a packet leaves is cut short.
  lemma WaitIsCutShort(rate: int, size: nat)
    requires rate > 0 && (size * SECOND) % rate != 0 && rate <= 1000 * size
    ensures var ns := (size as real / rate as real * SECOND as real).Floor;
            ns >= MILLISECOND && Gain(rate as real, ns) < size as real
  {
    var n, r := size * SECOND, rate as real;
    var q := n / rate;
    assert size as real / r * SECOND as real == n as real / r;
    FloorOfQuotient(n, rate);
    assert n == rate * q + n % rate;
    assert (rate * q) as real == r * q as real;
    assert Gain(r, q) == q as real * r / SECOND as real;
    ProductIsFar(rate, MILLISECOND - q);
    assert rate * (MILLISECOND - q) == rate * MILLISECOND - rate * q;
  }

  lemma UnevenRateExceeds(rate: int, largest: nat, size: nat)
    requires rate > 0 && largest as real > Burst(rate as real) && size as real <= Burst(rate as real) && size > 0
    requires (size * SECOND) % rate != 0 && rate <= 1000 * size
    ensures var ns := (size as real / rate as real * SECOND as real).Floor;
            var m := Meter(SetRate(Bucket(0.0, 0.0, 0), rate, 0), Ready, 0);
            var steps := [Checks(size, 0), Checks(largest, 0), Wakes(ns)];
            AllWithin(m, steps, largest) && !PlainlyBounded(m, steps, largest)
  {
    WaitIsCutShort(rate, size);
    var r, burst := rate as real, Burst(rate as real);
    var ns := (size as real / r * SECOND as real).Floor;
    var m := Meter(SetRate(Bucket(0.0, 0.0, 0), rate, 0), Ready, 0);
    assert Gain(r, 0) == 0.0;
    var m1 := Next(m, Checks(size, 0));
    assert m1 == Meter(Bucket(r, burst - size as real, 0), Ready, size);
    var m2 := Next(m1, Checks(largest, 0));
    assert burst - (burst - size as real) == size as real;
    assert m2 == Meter(m1.bucket, Asleep(largest, ns, true), size);
    var m3 := Next(m2, Wakes(ns));
    assert m3.admitted == size + largest && m3.bucket.last == ns;
    ThreeSteps(m, Checks(size, 0), Checks(largest, 0), Wakes(ns), largest);
  }

  lemma ThreeSteps(m: Meter, a: Step, b: Step, c: Step, largest: nat)
    ensures Run(m, [a, b, c]) == Next(Next(Next(m, a), b), c)
    ensures AllWithin(m, [a, b, c], largest) <==>
            Within(a, m, largest) && Within(b, Next(m, a), largest) && Within(c, Next(Next(m, a), b), largest)
  {
    var m1 := Next(m, a);
    var m2 := Next(m1, b);
    assert [a, b, c][1..] == [b, c] && [b, c][1..] == [c];
    assert Run(m2, [c]) == Run(Next(m2, c), []) == Next(m2, c) && Run(m1, [b, c]) == Run(m2, [c]);
    assert AllWithin(m2, [c], largest) == Within(c, m2, largest);
  }

  // At a rate of whole bytes a second, every window of every run keeps the plain
  // bound exactly when no packet exceeds the burst or the rate divides the
  // nanoseconds of a second.
  lemma PlainBoundExactly(rate: int, largest: nat)
    requires rate > 0
    ensures KeepsPlainBound(rate, largest) <==> largest as real <= Burst(rate as real) || SECOND % rate == 0
  {
    if largest as real <= Burst(rate as real) || SECOND % rate == 0 {
      forall b, now: int, before, steps | WindowAfter(b, rate, now, before, steps, largest)
        ensures PlainlyBounded(Run(Meter(SetRate(b, rate, now), Ready, 0), before), steps, largest)
      {
        EveryWindowKeeps(b, rate, now, before, steps, largest);
      }
    } else {
      var size := UnevenSize(rate);
      var ns := (size as real / rate as real * SECOND as real).Floor;
      var steps := [Checks(size, 0), Checks(largest, 0), Wakes(ns)];
      UnevenRateExceeds(rate, largest, size);
      assert WindowAfter(Bucket(0.0, 0.0, 0), rate, 0, [], steps, largest);
    }
  }

  lemma EveryWindowKeeps(b: Bucket, rate: int, now: int, before: seq<Step>, steps: seq<Step>, largest: nat)
    requires rate > 0 && WindowAfter(b, rate, now, before, steps, largest)
    requires largest as real <= Burst(rate as real) || SECOND % rate == 0
    ensures PlainlyBounded(Run(Meter(SetRate(b, rate, now), Ready, 0), before), steps, largest)
  {
    var m := Meter(SetRate(b, rate, now), Ready, 0);
    RateChangeIsFit(b, rate, now, 0);
    RunIsAccounted(m, before, largest);
    if largest as real <= Burst(rate as real) {
      SmallPacketsKeep(Run(m, before), steps, largest);
    } else {
      var per := SECOND / rate;
      assert rate * per == SECOND;
      assert rate as real * per as real == (rate * per) as real;
      ExactRatesKeep(Run(m, before), steps, largest, per);
    }
  }

  // The nanosecond is really lost: after 1200 bytes, a 1300-byte packet at 12001
  // bytes a second goes out a fraction of a byte early.
  lemma TruncationExceedsPlainBound()
    ensures var m := Meter(SetRate(Bucket(0.0, 0.0, 0), 12001, 0), Ready, 0);
            var steps := [Checks(1200, 0), Checks(1300, 0), Wakes(99_991_667)];
            AllWithin(m, steps, 1300) && Run(m, steps).admitted == 2500 && !PlainlyBounded(m, steps, 1300)
  {
    var x := 1200.0 / 12001.0 * SECOND as real;
    assert 99_991_667.0 <= x < 99_991_668.0;
    assert x.Floor == 99_991_667;
    UnevenRateExceeds(12001, 1300, 1200);
    assert Gain(12001.0, 0) == 0.0;
    var m := Meter(SetRate(Bucket(0.0, 0.0, 0), 12001, 0), Ready, 0);
    ThreeSteps(m, Checks(1200, 0), Checks(1300, 0), Wakes(99_991_667), 1300);
  }
}
