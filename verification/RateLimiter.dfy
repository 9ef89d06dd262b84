/** The password limiter: a token bucket per key, with idle buckets swept away.
    Clock readings are in nanoseconds and are taken before the lock. */
module RateLimiter {
  import opened TokenClock

  type Key = string

  const MAX_BUCKETS := 4096
  const MINUTE := 60 * SECOND

  datatype Bucket = Bucket(tokens: real, last: int)

  datatype Limits = Limits(rate: real, burst: real)

  function Configure(failuresPerMinute: int, attempts: int): (limits: Limits)
    ensures Fit(limits)
  {
    Limits((if failuresPerMinute <= 0 then 1 else failuresPerMinute) as real / 60.0,
           (if attempts <= 0 then 1 else attempts) as real)
  }

  predicate Fit(limits: Limits) {
    limits.rate > 0.0 && limits.burst >= 1.0
  }

  datatype State = State(buckets: map<Key, Bucket>, lastSweep: int)

  function Refilled(limits: Limits, b: Bucket, now: int): Bucket {
    Bucket(if now > b.last then Min(b.tokens + Gain(limits.rate, now - b.last), limits.burst) else b.tokens, now)
  }

  // One attempt, and one refund, on a key's own bucket.
  function Attempt(limits: Limits, b: Bucket, now: int): (Bucket, bool) {
    var r := Refilled(limits, b, now);
    if r.tokens < 1.0 then (r, false) else (r.(tokens := r.tokens - 1.0), true)
  }

  function Refund(limits: Limits, b: Bucket, now: int): Bucket {
    var r := Refilled(limits, b, now);
    r.(tokens := Min(r.tokens + 1.0, limits.burst))
  }

  // Twice the time a bucket takes to fill, in whole nanoseconds.
  function IdleLimit(limits: Limits): int
    requires Fit(limits)
  {
    2 * (limits.burst / limits.rate * SECOND as real).Floor
  }

  function Swept(limits: Limits, s: State, now: int): State
    requires Fit(limits)
  {
    if now - s.lastSweep < MINUTE then s
    else State(map k | k in s.buckets && now - s.buckets[k].last <= IdleLimit(limits) :: s.buckets[k], now)
  }

  predicate TurnsAway(limits: Limits, s: State, key: Key, now: int)
    requires Fit(limits)
  {
    var t := Swept(limits, s, now);
    key !in t.buckets && |t.buckets| >= MAX_BUCKETS
  }

  function BucketOf(limits: Limits, s: State, key: Key, now: int): Bucket {
    if key in s.buckets then s.buckets[key] else Bucket(limits.burst, now)
  }

  function AllowAttempt(limits: Limits, s: State, key: Key, now: int): (State, bool)
    requires Fit(limits)
  {
    if key == "" then (s, false)
    else
      var t := Swept(limits, s, now);
      if TurnsAway(limits, s, key, now) then (t, false)
      else
        var (b, ok) := Attempt(limits, BucketOf(limits, t, key, now), now);
        (t.(buckets := t.buckets[key := b]), ok)
  }

  function RefundAttempt(limits: Limits, s: State, key: Key, now: int): State {
    if key == "" || key !in s.buckets then s else s.(buckets := s.buckets[key := Refund(limits, s.buckets[key], now)])
  }

  class Limiter {
    var buckets: map<Key, Bucket>
    const rate: real
    const burst: real
    var lastSweep: int

    ghost function View(): State
      reads this
    {
      State(buckets, lastSweep)
    }

    function Terms(): Limits {
      Limits(rate, burst)
    }

    constructor (failuresPerMinute: int, attempts: int, now: int)
      ensures Fit(Terms()) && Terms() == Configure(failuresPerMinute, attempts) && View() == State(map[], now)
    {
      rate := (if failuresPerMinute <= 0 then 1 else failuresPerMinute) as real / 60.0;
      burst := (if attempts <= 0 then 1 else attempts) as real;
      buckets, lastSweep := map[], now;
    }

    method Sweep(now: int)
      requires Fit(Terms())
      modifies this`buckets, this`lastSweep
      ensures View() == Swept(Terms(), old(View()), now)
    {
      if now - lastSweep < MINUTE {
        return;
      }
      lastSweep := now;
      var idleLimit := IdleLimit(Terms());
      var left := buckets.Keys;
      while left != {}
        invariant lastSweep == now && left <= old(buckets).Keys
        invariant forall k :: k in buckets <==>
                    k in old(buckets) && (k in left || now - old(buckets)[k].last <= idleLimit)
        invariant forall k :: k in buckets ==> buckets[k] == old(buckets)[k]
        decreases |left|
      {
        var key :| key in left;
        left := left - {key};
        if now - buckets[key].last > idleLimit {
          buckets := buckets - {key};
        }
      }
    }

    method Allow(key: Key, now: int) returns (ok: bool)
      requires Fit(Terms())
      modifies this`buckets, this`lastSweep
      ensures (View(), ok) == AllowAttempt(Terms(), old(View()), key, now)
    {
      if key == "" {
        return false;
      }
      Sweep(now);
      ghost var swept := buckets;
      if key !in buckets {
        if |buckets| >= MAX_BUCKETS {
          return false;
        }
        buckets := buckets[key := Bucket(burst, now)];
      }
      var b := buckets[key];
      if now > b.last {
        b := b.(tokens := Min(b.tokens + Gain(rate, now - b.last), burst));
      }
      b := b.(last := now);
      buckets := buckets[key := b];
      if b.tokens < 1.0 {
        return false;
      }
      buckets := buckets[key := b.(tokens := b.tokens - 1.0)];
      assert buckets == swept[key := b.(tokens := b.tokens - 1.0)];
      return true;
    }

    method GiveBack(key: Key, now: int)
      modifies this`buckets
      ensures View() == RefundAttempt(Terms(), old(View()), key, now)
    {
      if key == "" {
        return;
      }
      if key !in buckets {
        return;
      }
      var b := buckets[key];
      if now > b.last {
        b := b.(tokens := Min(b.tokens + Gain(rate, now - b.last), burst));
      }
      buckets := buckets[key := Bucket(Min(b.tokens + 1.0, burst), now)];
    }
  }

  // -- Against a limiter that never forgets -------------------------------------------

  datatype Call = Attempts(key: Key, now: int) | Refunds(key: Key, now: int)

  // What `key` would have at time `t`: an absent bucket reads as full.
  function Level(limits: Limits, buckets: map<Key, Bucket>, key: Key, t: int): real {
    if key in buckets then Refilled(limits, buckets[key], t).tokens else limits.burst
  }

  ghost predicate Sane(limits: Limits, buckets: map<Key, Bucket>, now: int) {
    && "" !in buckets
    && (forall k :: k in buckets ==> buckets[k].last <= now && 0.0 <= buckets[k].tokens <= limits.burst)
  }

  function Step(limits: Limits, s: State, call: Call): (State, bool)
    requires Fit(limits)
  {
    match call
    case Attempts(key, now) => AllowAttempt(limits, s, key, now)
    case Refunds(key, now) => (RefundAttempt(limits, s, key, now), false)
  }

  // The plain limiter keeps every bucket; a call turned away never reaches it.
  function PlainStep(limits: Limits, buckets: map<Key, Bucket>, call: Call, away: bool): (map<Key, Bucket>, bool) {
    match call
    case Attempts(key, now) =>
      if key == "" || away then (buckets, false)
      else
        var (b, ok) := Attempt(limits, if key in buckets then buckets[key] else Bucket(limits.burst, now), now);
        (buckets[key := b], ok)
    case Refunds(key, now) =>
      if key == "" || key !in buckets then (buckets, false)
      else (buckets[key := Refund(limits, buckets[key], now)], false)
  }

  predicate Away(limits: Limits, s: State, call: Call)
    requires Fit(limits)
  {
    call.Attempts? && TurnsAway(limits, s, call.key, call.now)
  }

  ghost predicate Agree(limits: Limits, kept: map<Key, Bucket>, all: map<Key, Bucket>, now: int) {
    forall k, t: int :: now <= t ==> Level(limits, kept, k, t) == Level(limits, all, k, t)
  }

  // A bucket idle for longer than the limit has had time to fill, even for a
  // reading that lags half the limit behind the sweep.
  lemma IdleIsFull(limits: Limits, b: Bucket, t: int)
    requires Fit(limits) && b.tokens >= 0.0 && t - b.last > IdleLimit(limits) / 2
    ensures Refilled(limits, b, t).tokens == limits.burst || b.tokens > limits.burst
  {
    var x := limits.burst / limits.rate * SECOND as real;
    var ns := t - b.last;
    assert ns as real >= x by { assert IdleLimit(limits) / 2 == x.Floor; }
    assert limits.burst / limits.rate > 0.0;
    assert ns > 0 by { assert x.Floor >= 0; }
    FillsIn(limits, ns);
  }

  lemma FillsIn(limits: Limits, ns: int)
    requires Fit(limits) && ns as real >= limits.burst / limits.rate * SECOND as real
    ensures Gain(limits.rate, ns) >= limits.burst
  {
    var s := ns as real / SECOND as real;
    assert s >= limits.burst / limits.rate;
    assert s * limits.rate >= limits.burst / limits.rate * limits.rate;
  }

  // Sweeping never changes what any key has, at any later reading.
  lemma SweepKeepsLevels(limits: Limits, s: State, now: int)
    requires Fit(limits) && Sane(limits, s.buckets, now)
    ensures forall k, t: int :: now - IdleLimit(limits) / 2 <= t ==>
              Level(limits, Swept(limits, s, now).buckets, k, t) == Level(limits, s.buckets, k, t)
  {
    forall k, t: int | now - IdleLimit(limits) / 2 <= t
      ensures Level(limits, Swept(limits, s, now).buckets, k, t) == Level(limits, s.buckets, k, t)
    {
      if k in s.buckets && k !in Swept(limits, s, now).buckets { IdleIsFull(limits, s.buckets[k], t); }
    }
  }

  // Refilling in two readings is refilling in one.
  lemma RefillsTwice(limits: Limits, b: Bucket, now: int, t: int)
    requires Fit(limits) && b.last <= now <= t && b.tokens <= limits.burst
    ensures Refilled(limits, Refilled(limits, b, now), t) == Refilled(limits, b, t)
  {
    GainAdds(limits.rate, now - b.last, t - now);
    GainGrows(limits.rate, 0, t - now);
    GainGrows(limits.rate, 0, now - b.last);
  }

  lemma RefilledIsSane(limits: Limits, b: Bucket, now: int)
    requires Fit(limits) && 0.0 <= b.tokens <= limits.burst
    ensures b.tokens <= Refilled(limits, b, now).tokens <= limits.burst
  {
    if now > b.last { GainGrows(limits.rate, 0, now - b.last); }
  }

  lemma StepIsSane(limits: Limits, s: State, call: Call)
    requires Fit(limits) && Sane(limits, s.buckets, call.now)
    ensures Sane(limits, Step(limits, s, call).0.buckets, call.now)
    ensures |s.buckets| <= MAX_BUCKETS ==> |Step(limits, s, call).0.buckets| <= MAX_BUCKETS
  {
    var t := Swept(limits, s, call.now);
    SubmapIsSmaller(t.buckets, s.buckets);
    match call
    case Attempts(key, now) =>
      RefilledIsSane(limits, BucketOf(limits, t, key, now), now);
      if key in t.buckets { InsertedSize(t.buckets, key, Step(limits, s, call).0.buckets[key]); }
    case Refunds(key, now) =>
      if key in s.buckets {
        RefilledIsSane(limits, s.buckets[key], now);
        InsertedSize(s.buckets, key, Refund(limits, s.buckets[key], now));
      }
  }

  lemma SubmapIsSmaller<K, V>(a: map<K, V>, b: map<K, V>)
    requires a.Keys <= b.Keys
    ensures |a| <= |b|
  {
    assert |a| == |a.Keys| && |b| == |b.Keys|;
    SubsetIsSmaller(a.Keys, b.Keys);
  }

  lemma {:induction false} SubsetIsSmaller<K>(a: set<K>, b: set<K>)
    requires a <= b
    ensures |a| <= |b|
  {
    if a != {} {
      var k :| k in a;
      SubsetIsSmaller(a - {k}, b - {k});
    }
  }

  lemma InsertedSize<K, V>(m: map<K, V>, k: K, v: V)
    ensures |m[k := v]| == if k in m then |m| else |m| + 1
  {
    assert m[k := v].Keys == m.Keys + {k};
    assert |m| == |m.Keys| && |m[k := v]| == |m[k := v].Keys|;
  }

  lemma AttemptReadsLevel(limits: Limits, kept: map<Key, Bucket>, key: Key, now: int)
    requires Fit(limits) && Sane(limits, kept, now)
    ensures Refilled(limits, BucketOf(limits, State(kept, 0), key, now), now) ==
            Bucket(Level(limits, kept, key, now), now)
  {
  }

  lemma PutAgrees(limits: Limits, kept: map<Key, Bucket>, all: map<Key, Bucket>, now: int, key: Key, b: Bucket)
    requires Agree(limits, kept, all, now)
    ensures Agree(limits, kept[key := b], all[key := b], now)
  {
    var kept', all' := kept[key := b], all[key := b];
    forall k, t: int | now <= t ensures Level(limits, kept', k, t) == Level(limits, all', k, t) {
      assert Level(limits, kept, k, t) == Level(limits, all, k, t);
    }
  }

  lemma SweepAgrees(limits: Limits, s: State, all: map<Key, Bucket>, from: int, now: int)
    requires Fit(limits) && Sane(limits, s.buckets, now) && Agree(limits, s.buckets, all, from) && from <= now
    ensures Agree(limits, Swept(limits, s, now).buckets, all, now)
  {
    SweepKeepsLevels(limits, s, now);
    var swept := Swept(limits, s, now).buckets;
    assert IdleLimit(limits) >= 0 by { assert limits.burst / limits.rate > 0.0; }
    forall k, t: int | now <= t ensures Level(limits, swept, k, t) == Level(limits, all, k, t) {
      assert Level(limits, s.buckets, k, t) == Level(limits, all, k, t);
    }
  }

  lemma AttemptAgrees(limits: Limits, s: State, all: map<Key, Bucket>, from: int, key: Key, now: int)
    requires Fit(limits) && from <= now && key != ""
    requires Sane(limits, s.buckets, now) && Sane(limits, all, now) && Agree(limits, s.buckets, all, from)
    ensures var (d, ok) := AllowAttempt(limits, s, key, now);
            var (plain, plainOk) := PlainStep(limits, all, Attempts(key, now), TurnsAway(limits, s, key, now));
            ok == plainOk && Agree(limits, d.buckets, plain, now)
  {
    SweepAgrees(limits, s, all, from, now);
    var t := Swept(limits, s, now);
    if !TurnsAway(limits, s, key, now) {
      assert Level(limits, t.buckets, key, now) == Level(limits, all, key, now);
      AttemptReadsLevel(limits, t.buckets, key, now);
      AttemptReadsLevel(limits, all, key, now);
      var (b, ok) := Attempt(limits, BucketOf(limits, t, key, now), now);
      PutAgrees(limits, t.buckets, all, now, key, b);
    }
  }

  // Refunding a full bucket that was swept away changes nothing.
  lemma RefundAgrees(limits: Limits, s: State, all: map<Key, Bucket>, from: int, key: Key, now: int)
    requires Fit(limits) && from <= now && s.buckets.Keys <= all.Keys
    requires Sane(limits, s.buckets, now) && Sane(limits, all, now) && Agree(limits, s.buckets, all, from)
    ensures Agree(limits, RefundAttempt(limits, s, key, now).buckets,
                  PlainStep(limits, all, Refunds(key, now), false).0, now)
  {
    var d, plain := RefundAttempt(limits, s, key, now).buckets, PlainStep(limits, all, Refunds(key, now), false).0;
    assert Level(limits, s.buckets, key, now) == Level(limits, all, key, now);
    if key in s.buckets {
      PutAgrees(limits, s.buckets, all, now, key, Refund(limits, all[key], now));
    } else if key in all {
      forall k, t: int | now <= t ensures Level(limits, d, k, t) == Level(limits, plain, k, t) {
        assert Level(limits, s.buckets, k, t) == Level(limits, all, k, t);
        if t > now { GainGrows(limits.rate, 0, t - now); }
      }
    }
  }

  lemma PlainIsSane(limits: Limits, all: map<Key, Bucket>, call: Call, away: bool)
    requires Fit(limits) && Sane(limits, all, call.now)
    ensures Sane(limits, PlainStep(limits, all, call, away).0, call.now)
  {
    RefilledIsSane(limits, if call.key in all then all[call.key] else Bucket(limits.burst, call.now), call.now);
  }

  // -- Runs ------------------------------------------------------------------------------

  ghost predicate Forward(calls: seq<Call>, from: int) {
    calls != [] ==> from <= calls[0].now && Forward(calls[1..], calls[0].now)
  }

  function Outcomes(limits: Limits, s: State, calls: seq<Call>): (outcomes: seq<bool>)
    requires Fit(limits)
    ensures |outcomes| == |calls|
    decreases |calls|
  {
    if calls == [] then []
    else
      var (d, ok) := Step(limits, s, calls[0]);
      [ok] + Outcomes(limits, d, calls[1..])
  }

  // The never-forgetting limiter on the same calls; it is not asked about an
  // unseen key that arrives while 4096 buckets exist.
  function PlainOutcomes(limits: Limits, s: State, all: map<Key, Bucket>, calls: seq<Call>): seq<bool>
    requires Fit(limits)
    decreases |calls|
  {
    if calls == [] then []
    else
      var (plain, ok) := PlainStep(limits, all, calls[0], Away(limits, s, calls[0]));
      [ok] + PlainOutcomes(limits, Step(limits, s, calls[0]).0, plain, calls[1..])
  }

  lemma {:induction false} SweepingRefinesPlain(limits: Limits, s: State, all: map<Key, Bucket>, calls: seq<Call>,
                                                from: int)
    requires Fit(limits) && Forward(calls, from)
    requires Sane(limits, s.buckets, from) && Sane(limits, all, from)
    requires Agree(limits, s.buckets, all, from) && s.buckets.Keys <= all.Keys
    ensures Outcomes(limits, s, calls) == PlainOutcomes(limits, s, all, calls)
    decreases |calls|
  {
    if calls != [] {
      var call := calls[0];
      StepIsSane(limits, s, call);
      PlainIsSane(limits, all, call, Away(limits, s, call));
      match call {
        case Attempts(key, now) => if key != "" { AttemptAgrees(limits, s, all, from, key, now); }
        case Refunds(key, now) => RefundAgrees(limits, s, all, from, key, now);
      }
      SweepingRefinesPlain(limits, Step(limits, s, call).0, PlainStep(limits, all, call, Away(limits, s, call)).0,
                           calls[1..], call.now);
    }
  }

  // From a new limiter, on a clock that does not go back: every call is answered
  // as the plain per-key bucket answers it, except for the turned-away ones.
  lemma LimiterRefinesPlain(limits: Limits, calls: seq<Call>, start: int)
    requires Fit(limits) && Forward(calls, start)
    ensures Outcomes(limits, State(map[], start), calls) == PlainOutcomes(limits, State(map[], start), map[], calls)
  {
    SweepingRefinesPlain(limits, State(map[], start), map[], calls, start);
  }

  // -- Refunds -------------------------------------------------------------------------------

  // An attempt and its refund cancel out, whatever was earned in between.
  lemma RefundCancels(limits: Limits, b: Bucket, now: int, later: int)
    requires Fit(limits) && 0.0 <= b.tokens <= limits.burst && b.last <= now <= later && Attempt(limits, b, now).1
    ensures Refund(limits, Attempt(limits, b, now).0, later) == Refilled(limits, b, later)
  {
    RefillsTwice(limits, b, now, later);
    RefilledIsSane(limits, b, now);
    GainGrows(limits.rate, 0, later - now);
  }

  // A correct password costs nothing: after its attempt is refunded, every key
  // has what it would have had without either call.
  lemma SuccessCostsNothing(limits: Limits, s: State, key: Key, now: int, later: int, k: Key, t: int)
    requires Fit(limits) && Sane(limits, s.buckets, now) && now <= later <= t
    requires AllowAttempt(limits, s, key, now).1
    ensures var d := RefundAttempt(limits, AllowAttempt(limits, s, key, now).0, key, later);
            Level(limits, d.buckets, k, t) == Level(limits, s.buckets, k, t)
  {
    SweepKeepsLevels(limits, s, now);
    assert IdleLimit(limits) >= 0 by { assert limits.burst / limits.rate > 0.0; }
    var swept := Swept(limits, s, now);
    assert Level(limits, swept.buckets, k, t) == Level(limits, s.buckets, k, t);
    if k == key { RefundedLevel(limits, swept, key, now, later, t); }
  }

  // The bucket that paid and was paid back reads as it would have.
  lemma RefundedLevel(limits: Limits, s: State, key: Key, now: int, later: int, t: int)
    requires Fit(limits) && Sane(limits, s.buckets, now) && now <= later <= t
    requires Attempt(limits, BucketOf(limits, s, key, now), now).1
    ensures Refilled(limits, Refund(limits, Attempt(limits, BucketOf(limits, s, key, now), now).0, later), t).tokens ==
            Level(limits, s.buckets, key, t)
  {
    var b := BucketOf(limits, s, key, now);
    RefundCancels(limits, b, now, later);
    RefillsTwice(limits, b, later, t);
    if t > now { GainGrows(limits.rate, 0, t - now); }
  }
}
