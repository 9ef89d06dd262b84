/** The exact number of attempts of one key the password limiter can be made to
    allow at given clock readings, and so exactly when its window keeps it within
    the burst and the rate. */
module RateExact {
  import opened RateLimiter
  import opened RateBound
  import opened TokenClock

  function Forwards(readings: seq<int>, from: int): nat {
    if readings == [] then 0 else Ahead(from, readings[0]) + Forwards(readings[1..], readings[0])
  }

  function Latest(readings: seq<int>): int
    requires readings != []
  {
    if |readings| == 1 then readings[0]
    else
      var later := Latest(readings[1..]);
      if later > readings[0] then later else readings[0]
  }

  function Earliest(readings: seq<int>): int
    requires readings != []
  {
    if |readings| == 1 then readings[0]
    else
      var earlier := Earliest(readings[1..]);
      if earlier < readings[0] then earlier else readings[0]
  }

  // The shortest window that holds all the readings.
  function Window(readings: seq<int>): int
    requires readings != []
  {
    Latest(readings) - Earliest(readings)
  }

  // The calls read the clock as listed, one or more calls at each reading.
  predicate At(calls: seq<Call>, readings: seq<int>)
    decreases |calls|
  {
    if calls == [] || readings == [] then calls == [] && readings == []
    else
      calls[0].now == readings[0] &&
      (At(calls[1..], readings[1..]) || (|calls| > 1 && At(calls[1..], readings)))
  }

  lemma {:induction false} AtAdvances(calls: seq<Call>, readings: seq<int>, from: int)
    requires At(calls, readings)
    ensures Advance(calls, from) == Forwards(readings, from)
    decreases |calls|
  {
    if calls != [] {
      if At(calls[1..], readings[1..]) {
        AtAdvances(calls[1..], readings[1..], calls[0].now);
      } else {
        AtAdvances(calls[1..], readings, calls[0].now);
      }
    }
  }


  // The most a key can be allowed: at every reading, each whole token it has.
  function Most(limits: Limits, readings: seq<int>, from: int, tokens: real): int {
    if readings == [] then 0
    else
      var level := Min(tokens + Gain(limits.rate, Ahead(from, readings[0])), limits.burst);
      level.Floor + Most(limits, readings[1..], readings[0], level - level.Floor as real)
  }

  // A full bucket's tokens at the first reading.
  function Peak(limits: Limits, readings: seq<int>): int
    requires readings != []
  {
    Most(limits, readings, readings[0], limits.burst)
  }

  // -- Nothing allows more ------------------------------------------------------------------

  lemma MostFromHere(limits: Limits, readings: seq<int>, from: int, tokens: real)
    requires readings != []
    ensures Most(limits, readings, from, tokens) ==
            Most(limits, readings, readings[0],
                 Min(tokens + Gain(limits.rate, Ahead(from, readings[0])), limits.burst))
  {
    var level := Min(tokens + Gain(limits.rate, Ahead(from, readings[0])), limits.burst);
    assert Gain(limits.rate, 0) == 0.0;
    assert Min(level + 0.0, limits.burst) == level;
  }

  // The key has at most `tokens` and `lead` more than the one that takes each
  // whole token; a lead is a whole number, so it outlasts a full bucket.
  lemma {:induction false} NoMoreThanLead(limits: Limits, s: State, calls: seq<Call>, key: Key, readings: seq<int>,
                                          tokens: real, lead: int)
    requires Fit(limits) && Held(limits, s.buckets) && readings != [] && At(calls, readings)
    requires 0.0 <= tokens <= limits.burst
    requires Level(limits, s.buckets, key, readings[0]) <= lead as real + tokens
    ensures Spent(calls, Outcomes(limits, s, calls), key) <= lead + Most(limits, readings, readings[0], tokens)
    decreases |calls|, 0
  {
    var (d, ok) := Step(limits, s, calls[0]);
    var now, spent := readings[0], Spent([calls[0]], [ok], key);
    CallSpends(limits, s, calls[0], key);
    SpentSplits([calls[0]], calls[1..], [ok], Outcomes(limits, d, calls[1..]), key);
    assert [calls[0]] + calls[1..] == calls && [ok] + Outcomes(limits, d, calls[1..]) == Outcomes(limits, s, calls);
    LevelMoves(limits, d.buckets, key, now, now);
    if At(calls[1..], readings[1..]) {
      NextReading(limits, d, calls[1..], key, readings, tokens, lead - spent);
    } else {
      NoMoreThanLead(limits, d, calls[1..], key, readings, tokens, lead - spent);
    }
  }

  lemma MostHere(limits: Limits, readings: seq<int>, tokens: real)
    requires readings != [] && tokens <= limits.burst
    ensures Most(limits, readings, readings[0], tokens) ==
            tokens.Floor + Most(limits, readings[1..], readings[0], tokens - tokens.Floor as real)
  {
    assert Gain(limits.rate, Ahead(readings[0], readings[0])) == 0.0;
    MostAt(limits, readings, readings[0], tokens, tokens);
  }

  lemma MostAt(limits: Limits, readings: seq<int>, from: int, tokens: real, level: real)
    requires readings != []
    requires level == Min(tokens + Gain(limits.rate, Ahead(from, readings[0])), limits.burst)
    ensures Most(limits, readings, from, tokens) ==
            level.Floor + Most(limits, readings[1..], readings[0], level - level.Floor as real)
  {
  }

  lemma LeadStays(level: real, next: real, gained: real, burst: real, tokens: real, lead: int)
    requires 0.0 <= level <= lead as real + tokens && next <= level + gained && next <= burst
    ensures lead + tokens.Floor >= 0
    ensures next <= (lead + tokens.Floor) as real + Min(tokens - tokens.Floor as real + gained, burst)
  {
    var n := tokens.Floor;
    assert tokens < n as real + 1.0;
    assert (lead + n) as real == lead as real + n as real;
    assert (lead + n) as real > -1.0;
  }

  lemma LeadMoves(limits: Limits, d: State, key: Key, now: int, next: int, tokens: real, lead: int)
    returns (more: real)
    requires Fit(limits) && Held(limits, d.buckets) && 0.0 <= tokens <= limits.burst
    requires Level(limits, d.buckets, key, now) <= lead as real + tokens
    ensures more == Min(tokens - tokens.Floor as real + Gain(limits.rate, Ahead(now, next)), limits.burst)
    ensures 0.0 <= more <= limits.burst
    ensures Level(limits, d.buckets, key, next) <= (lead + tokens.Floor) as real + more
  {
    var gained := Gain(limits.rate, Ahead(now, next));
    more := Min(tokens - tokens.Floor as real + gained, limits.burst);
    GainGrows(limits.rate, 0, Ahead(now, next));
    LevelMoves(limits, d.buckets, key, now, now);
    LevelMoves(limits, d.buckets, key, now, next);
    LeadStays(Level(limits, d.buckets, key, now), Level(limits, d.buckets, key, next), gained, limits.burst, tokens,
              lead);
  }

  // The calls at the first reading are over.
  lemma {:induction false} NextReading(limits: Limits, d: State, rest: seq<Call>, key: Key, readings: seq<int>,
                                       tokens: real, lead: int)
    requires Fit(limits) && Held(limits, d.buckets) && readings != [] && At(rest, readings[1..])
    requires 0.0 <= tokens <= limits.burst
    requires Level(limits, d.buckets, key, readings[0]) <= lead as real + tokens
    ensures Spent(rest, Outcomes(limits, d, rest), key) <= lead + Most(limits, readings, readings[0], tokens)
    decreases |rest|, 1
  {
    var now, later, left := readings[0], readings[1..], tokens - tokens.Floor as real;
    MostHere(limits, readings, tokens);
    if rest == [] {
      LeadIsLeft(limits, d, key, now, tokens, lead);
    } else {
      MostFromHere(limits, later, now, left);
      var more := LeadMoves(limits, d, key, now, later[0], tokens, lead);
      NoMoreThanLead(limits, d, rest, key, later, more, lead + tokens.Floor);
    }
  }

  lemma LeadIsLeft(limits: Limits, d: State, key: Key, now: int, tokens: real, lead: int)
    requires Fit(limits) && Held(limits, d.buckets)
    requires Level(limits, d.buckets, key, now) <= lead as real + tokens
    ensures lead + tokens.Floor >= 0
  {
    var level := Level(limits, d.buckets, key, now);
    LevelMoves(limits, d.buckets, key, now, now);
    LeadStays(level, level, 0.0, limits.burst, tokens, lead);
  }

  lemma NoMoreThanPeak(limits: Limits, s: State, calls: seq<Call>, key: Key, readings: seq<int>)
    requires Fit(limits) && Held(limits, s.buckets) && readings != [] && At(calls, readings)
    ensures Spent(calls, Outcomes(limits, s, calls), key) <= Peak(limits, readings)
  {
    LevelMoves(limits, s.buckets, key, readings[0], readings[0]);
    NoMoreThanLead(limits, s, calls, key, readings, limits.burst, 0);
  }

  // -- Some calls are allowed as many -----------------------------------------------------------

  function Hits(now: int, n: nat): seq<Call> {
    seq(n, _ => Attempts("a", now))
  }

  function After(limits: Limits, s: State, calls: seq<Call>): State
    requires Fit(limits)
    decreases |calls|
  {
    if calls == [] then s else After(limits, Step(limits, s, calls[0]).0, calls[1..])
  }

  lemma {:induction false} OutcomesSplit(limits: Limits, s: State, a: seq<Call>, b: seq<Call>)
    requires Fit(limits)
    ensures Outcomes(limits, s, a + b) == Outcomes(limits, s, a) + Outcomes(limits, After(limits, s, a), b)
    ensures After(limits, s, a + b) == After(limits, After(limits, s, a), b)
    decreases |a|
  {
    if a == [] {
      assert a + b == b;
    } else {
      assert (a + b)[1..] == a[1..] + b;
      OutcomesSplit(limits, Step(limits, s, a[0]).0, a[1..], b);
    }
  }

  lemma SpentOver(limits: Limits, s: State, a: seq<Call>, b: seq<Call>, key: Key)
    requires Fit(limits)
    ensures Spent(a + b, Outcomes(limits, s, a + b), key) ==
            Spent(a, Outcomes(limits, s, a), key) + Spent(b, Outcomes(limits, After(limits, s, a), b), key)
  {
    OutcomesSplit(limits, s, a, b);
    SpentSplits(a, b, Outcomes(limits, s, a), Outcomes(limits, After(limits, s, a), b), key);
  }

  // No other key has a bucket, and this one has `tokens` at `now`.
  ghost predicate Holds(limits: Limits, s: State, now: int, tokens: real) {
    Held(limits, s.buckets) && s.buckets.Keys <= {"a"} && Level(limits, s.buckets, "a", now) == tokens
  }

  lemma OneHit(limits: Limits, s: State, now: int, tokens: real)
    requires Fit(limits) && Holds(limits, s, now, tokens)
    ensures var (d, ok) := Step(limits, s, Attempts("a", now));
            ok == (tokens >= 1.0) && d.buckets == map["a" := Bucket(if ok then tokens - 1.0 else tokens, now)]
  {
    var t := Swept(limits, s, now);
    SweepsTheFull(limits, s, "a", now);
    if "a" !in t.buckets { assert t.buckets == map[]; }
    var b := Attempt(limits, BucketOf(limits, t, "a", now), now).0;
    assert t.buckets["a" := b] == map["a" := b];
  }

  // Attempts until less than a token is left are all allowed.
  lemma {:induction false} HitsSpend(limits: Limits, s: State, now: int, tokens: real)
    requires Fit(limits) && Holds(limits, s, now, tokens) && tokens >= 0.0
    ensures var n := tokens.Floor;
            var calls := Hits(now, if n > 0 then n else 1);
            && After(limits, s, calls).buckets == map["a" := Bucket(tokens - n as real, now)]
            && Spent(calls, Outcomes(limits, s, calls), "a") == n
    decreases tokens.Floor
  {
    var n, call := tokens.Floor, Attempts("a", now);
    OneSpends(limits, s, now, tokens);
    if n <= 1 {
      assert Hits(now, 1) == [call];
    } else {
      HitsSpend(limits, After(limits, s, [call]), now, tokens - 1.0);
      assert (tokens - 1.0).Floor == n - 1;
      assert Hits(now, n) == [call] + Hits(now, n - 1);
      OutcomesSplit(limits, s, [call], Hits(now, n - 1));
      SpentOver(limits, s, [call], Hits(now, n - 1), "a");
    }
  }

  lemma OneSpends(limits: Limits, s: State, now: int, tokens: real)
    requires Fit(limits) && Holds(limits, s, now, tokens) && tokens >= 0.0
    ensures var left := if tokens >= 1.0 then tokens - 1.0 else tokens;
            var d := After(limits, s, [Attempts("a", now)]);
            && d.buckets == map["a" := Bucket(left, now)] && Holds(limits, d, now, left)
    ensures Spent([Attempts("a", now)], Outcomes(limits, s, [Attempts("a", now)]), "a") ==
            if tokens >= 1.0 then 1 else 0
  {
    var call := Attempts("a", now);
    OneHit(limits, s, now, tokens);
    LevelMoves(limits, s.buckets, "a", now, now);
    assert After(limits, s, [call]) == Step(limits, s, call).0;
    assert Outcomes(limits, s, [call]) == [Step(limits, s, call).1];
  }

  lemma {:induction false} HitsThenAt(readings: seq<int>, n: nat, rest: seq<Call>)
    requires readings != [] && n > 0 && At(rest, readings[1..])
    ensures At(Hits(readings[0], n) + rest, readings)
    decreases n
  {
    var calls := Hits(readings[0], n) + rest;
    if n == 1 {
      assert calls[1..] == rest;
    } else {
      HitsThenAt(readings, n - 1, rest);
      assert calls[1..] == Hits(readings[0], n - 1) + rest;
    }
  }

  lemma TimeEarns(limits: Limits, s: State, from: int, now: int, tokens: real)
    requires Fit(limits) && Holds(limits, s, from, tokens) && ReadAt(s, from)
    ensures Holds(limits, s, now, Min(tokens + Gain(limits.rate, Ahead(from, now)), limits.burst))
  {
    assert Gain(limits.rate, 0) == 0.0;
    GainGrows(limits.rate, 0, Ahead(from, now));
  }

  // The key's bucket, if it has one, was last read at `from`.
  predicate ReadAt(s: State, from: int) {
    "a" in s.buckets ==> s.buckets["a"].last == from
  }

  // Every whole token at one reading, then the rest.
  lemma ReadingSpends(limits: Limits, s: State, readings: seq<int>, level: real, rest: seq<Call>)
    requires Fit(limits) && readings != [] && Holds(limits, s, readings[0], level) && level >= 0.0
    requires At(rest, readings[1..])
    ensures var n := level.Floor;
            var first := Hits(readings[0], if n > 0 then n else 1);
            && At(first + rest, readings)
            && Spent(first + rest, Outcomes(limits, s, first + rest), "a") ==
               n + Spent(rest, Outcomes(limits, After(limits, s, first), rest), "a")
  {
    var n := if level.Floor > 0 then level.Floor else 1;
    HitsSpend(limits, s, readings[0], level);
    SpentOver(limits, s, Hits(readings[0], n), rest, "a");
    HitsThenAt(readings, n, rest);
  }

  lemma ReadingLeaves(limits: Limits, s: State, now: int, level: real)
    requires Fit(limits) && Holds(limits, s, now, level) && level >= 0.0
    ensures var n := level.Floor;
            var d := After(limits, s, Hits(now, if n > 0 then n else 1));
            Holds(limits, d, now, level - n as real) && ReadAt(d, now)
  {
    HitsSpend(limits, s, now, level);
    LevelMoves(limits, s.buckets, "a", now, now);
    var n := level.Floor;
    var d := After(limits, s, Hits(now, if n > 0 then n else 1));
    HoldsOne(limits, d, now, level - n as real);
  }

  lemma HoldsOne(limits: Limits, d: State, now: int, tokens: real)
    requires 0.0 <= tokens <= limits.burst && d.buckets == map["a" := Bucket(tokens, now)]
    ensures Holds(limits, d, now, tokens)
  {
  }

  // The calls that take every whole token at every reading, and one more where
  // there is none.
  lemma {:induction false} MostIsReached(limits: Limits, s: State, readings: seq<int>, from: int, tokens: real)
    returns (calls: seq<Call>)
    requires Fit(limits) && Holds(limits, s, from, tokens) && ReadAt(s, from)
    ensures At(calls, readings)
    ensures Spent(calls, Outcomes(limits, s, calls), "a") == Most(limits, readings, from, tokens)
    decreases |readings|
  {
    calls := [];
    if readings != [] {
      var now := readings[0];
      var level := Min(tokens + Gain(limits.rate, Ahead(from, now)), limits.burst);
      TimeEarns(limits, s, from, now, tokens);
      LevelMoves(limits, s.buckets, "a", now, now);
      ReadingLeaves(limits, s, now, level);
      var first := Hits(now, if level.Floor > 0 then level.Floor else 1);
      var rest := MostIsReached(limits, After(limits, s, first), readings[1..], now, level - level.Floor as real);
      ReadingSpends(limits, s, readings, level, rest);
      MostAt(limits, readings, from, tokens, level);
      calls := first + rest;
    }
  }

  lemma PeakIsReached(limits: Limits, readings: seq<int>) returns (calls: seq<Call>)
    requires Fit(limits) && readings != []
    ensures At(calls, readings)
    ensures Spent(calls, Outcomes(limits, State(map[], readings[0]), calls), "a") == Peak(limits, readings)
  {
    calls := MostIsReached(limits, State(map[], readings[0]), readings, readings[0], limits.burst);
  }

  // -- One limiter ---------------------------------------------------------------------------------

  predicate BoundedBy(limits: Limits, s: State, calls: seq<Call>, key: Key, window: int)
    requires Fit(limits)
  {
    Spent(calls, Outcomes(limits, s, calls), key) as real <= limits.burst + Gain(limits.rate, window)
  }

  // Whatever the limiter remembers, no key exceeds the burst and the rate times
  // the window, with any calls at these readings.
  ghost predicate KeepsBound(limits: Limits, readings: seq<int>)
    requires Fit(limits) && readings != []
  {
    forall s: State, calls, key :: At(calls, readings) && Held(limits, s.buckets) ==>
      BoundedBy(limits, s, calls, key, Window(readings))
  }

  lemma BoundIffPeakFits(limits: Limits, readings: seq<int>)
    requires Fit(limits) && readings != []
    ensures KeepsBound(limits, readings) <==>
            Peak(limits, readings) as real <= limits.burst + Gain(limits.rate, Window(readings))
  {
    var calls := PeakIsReached(limits, readings);
    if KeepsBound(limits, readings) {
      assert BoundedBy(limits, State(map[], readings[0]), calls, "a", Window(readings));
    }
    forall s: State, calls, key | At(calls, readings) && Held(limits, s.buckets)
      ensures Spent(calls, Outcomes(limits, s, calls), key) <= Peak(limits, readings)
    {
      NoMoreThanPeak(limits, s, calls, key, readings);
    }
  }

  // -- Readings that never fill the bucket ---------------------------------------------------------

  // No single move forward earns more than the burst less one.
  predicate SmallMoves(limits: Limits, readings: seq<int>, from: int) {
    readings == [] ||
    (Gain(limits.rate, Ahead(from, readings[0])) <= limits.burst - 1.0 &&
     SmallMoves(limits, readings[1..], readings[0]))
  }

  lemma {:induction false} SmallMovesEarnAll(limits: Limits, readings: seq<int>, from: int, tokens: real)
    requires Fit(limits) && 0.0 <= tokens < 1.0 && SmallMoves(limits, readings, from)
    ensures Most(limits, readings, from, tokens) == (tokens + Gain(limits.rate, Forwards(readings, from))).Floor
    decreases |readings|
  {
    assert Gain(limits.rate, 0) == 0.0;
    if readings != [] {
      var ahead := Ahead(from, readings[0]);
      var level := tokens + Gain(limits.rate, ahead);
      GainGrows(limits.rate, 0, ahead);
      GainAdds(limits.rate, ahead, Forwards(readings[1..], readings[0]));
      SmallMovesEarnAll(limits, readings[1..], readings[0], level - level.Floor as real);
    }
  }

  // Then the peak is the burst and all that the forward movement earns.
  lemma PeakOfSmallMoves(limits: Limits, readings: seq<int>)
    requires Fit(limits) && readings != [] && SmallMoves(limits, readings[1..], readings[0])
    ensures Peak(limits, readings) == (limits.burst + Gain(limits.rate, Forwards(readings, readings[0]))).Floor
  {
    assert Gain(limits.rate, 0) == 0.0;
    var left := limits.burst - limits.burst.Floor as real;
    SmallMovesEarnAll(limits, readings[1..], readings[0], left);
  }

  // -- Every limiter ---------------------------------------------------------------------------------

  lemma {:induction false} FastMovesAreSmall(attempts: nat, readings: seq<int>, from: int)
    requires attempts > Forwards(readings, from)
    ensures SmallMoves(Fast(attempts), readings, from)
    decreases |readings|
  {
    if readings != [] {
      FastGains(attempts, Ahead(from, readings[0]));
      FastMovesAreSmall(attempts, readings[1..], readings[0]);
    }
  }

  // A billion attempts a second: every nanosecond earns one.
  function Fast(attempts: nat): Limits {
    Configure(60 * SECOND, attempts)
  }

  lemma FastGains(attempts: nat, ns: int)
    ensures Gain(Fast(attempts).rate, ns) == ns as real
    ensures attempts > 0 ==> Fast(attempts).burst == attempts as real
  {
    assert Fast(attempts).rate == SECOND as real;
  }

  // The bound of the window holds, for every configured limiter and all calls at
  // these readings, exactly when the readings do not move forward by more than
  // the window in all.
  lemma BoundIffShortForwards(readings: seq<int>)
    requires readings != []
    ensures (forall perMinute: int, attempts: int :: KeepsBound(Configure(perMinute, attempts), readings)) <==>
            Forwards(readings, readings[0]) <= Window(readings)
  {
    if Forwards(readings, readings[0]) <= Window(readings) {
      forall perMinute: int, attempts: int ensures KeepsBound(Configure(perMinute, attempts), readings) {
        ShortForwardsKeep(Configure(perMinute, attempts), readings);
      }
    } else {
      var attempts := Forwards(readings, readings[0]) + 1;
      FastMovesAreSmall(attempts, readings[1..], readings[0]);
      PeakOfSmallMoves(Fast(attempts), readings);
      FastGains(attempts, Forwards(readings, readings[0]));
      FastGains(attempts, Window(readings));
      BoundIffPeakFits(Fast(attempts), readings);
      assert !KeepsBound(Configure(60 * SECOND, attempts), readings);
    }
  }

  lemma ShortForwardsKeep(limits: Limits, readings: seq<int>)
    requires Fit(limits) && readings != [] && Forwards(readings, readings[0]) <= Window(readings)
    ensures KeepsBound(limits, readings)
  {
    forall s: State, calls, key | At(calls, readings) && Held(limits, s.buckets)
      ensures BoundedBy(limits, s, calls, key, Window(readings))
    {
      AnyOrderBound(limits, s, calls, key, readings[0]);
      AtAdvances(calls, readings, readings[0]);
      GainGrows(limits.rate, Forwards(readings, readings[0]), Window(readings));
    }
  }

  // The join limiter, twenty a minute with a burst of twenty: a reading that
  // reaches the lock three seconds late lets twenty-two attempts through within
  // three seconds, where twenty-one are due.
  lemma LateReadingExceedsWindow() returns (calls: seq<Call>)
    ensures At(calls, [0, 3 * SECOND, 0, 3 * SECOND])
    ensures var limits := Configure(20, 20);
            && limits.burst + Gain(limits.rate, 3 * SECOND) == 21.0
            && Spent(calls, Outcomes(limits, State(map[], 0), calls), "a") == 22
  {
    var limits, readings := Configure(20, 20), [0, 3 * SECOND, 0, 3 * SECOND];
    calls := PeakIsReached(limits, readings);
    LateMoves(limits);
    PeakOfSmallMoves(limits, readings);
  }

  lemma LateMoves(limits: Limits)
    requires limits == Configure(20, 20)
    ensures var readings := [0, 3 * SECOND, 0, 3 * SECOND];
            SmallMoves(limits, readings[1..], 0) && Forwards(readings, 0) == 6 * SECOND
    ensures Gain(limits.rate, 3 * SECOND) == 1.0 && Gain(limits.rate, 6 * SECOND) == 2.0
  {
    var t := 3 * SECOND;
    assert limits.rate == 20.0 / 60.0;
    assert Gain(limits.rate, 0) == 0.0;
    assert [0, t, 0, t][1..] == [t, 0, t] && [t, 0, t][1..] == [0, t] && [0, t][1..] == [t] && [t][1..] == [];
    assert SmallMoves(limits, [t], 0) && Forwards([t], 0) == t;
    assert SmallMoves(limits, [0, t], t) && Forwards([0, t], t) == t;
    assert SmallMoves(limits, [t, 0, t], 0) && Forwards([t, 0, t], 0) == 2 * t;
  }

  // -- One answer ------------------------------------------------------------------------------------

  // The keys whose bucket a call at `now` keeps: once a minute those idle for twice
  // the time it takes to fill go.
  function Lasting(limits: Limits, s: State, now: int): set<Key>
    requires Fit(limits)
  {
    set k | k in s.buckets &&
            (now - s.lastSweep < 60_000_000_000 ||
             now - s.buckets[k].last <= 2 * (limits.burst / limits.rate * 1_000_000_000.0).Floor)
  }

  // An attempt is allowed if and only if it names a key, the key has a token, and
  // there is a bucket for it or room for one; it is then the only key to pay, and
  // every bucket that has been idle for too long is gone.
  lemma AllowedExactly(limits: Limits, s: State, key: Key, now: int)
    requires Fit(limits) && Held(limits, s.buckets)
    ensures var (d, ok) := Step(limits, s, Attempts(key, now));
            && (ok <==> key != "" && Level(limits, s.buckets, key, now) >= 1.0 &&
                        (key in Lasting(limits, s, now) || |Lasting(limits, s, now)| < 4096))
            && (ok ==> d.buckets.Keys == Lasting(limits, s, now) + {key} &&
                       Level(limits, d.buckets, key, now) == Level(limits, s.buckets, key, now) - 1.0)
            && (forall k :: k in Lasting(limits, s, now) && k != key && key != "" ==>
                  k in d.buckets && d.buckets[k] == s.buckets[k])
  {
    if key != "" {
      var t := Swept(limits, s, now);
      SweepsTheFull(limits, s, key, now);
      assert t.buckets.Keys == Lasting(limits, s, now);
      KeysCount(t.buckets);
      AttemptSpends(limits, t, key, now);
    }
  }

  lemma KeysCount(buckets: map<Key, Bucket>)
    ensures |buckets| == |buckets.Keys|
  {
  }
}
