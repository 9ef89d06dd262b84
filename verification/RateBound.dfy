/** How many attempts of one key the password limiter can allow, for clock
    readings that reach its lock in any order. */
module RateBound {
  import opened RateLimiter
  import opened TokenClock

  // How many attempts of a key were allowed, less how many were refunded.
  function Spent(calls: seq<Call>, outcomes: seq<bool>, key: Key): int
    requires |calls| == |outcomes|
  {
    if calls == [] then 0
    else
      Spent(calls[1..], outcomes[1..], key) +
      if calls[0].key != key then 0
      else if calls[0].Refunds? then -1
      else if outcomes[0] then 1 else 0
  }

  // How far the clock moves forward between two readings, and over a list.
  function Ahead(from: int, now: int): nat {
    if now > from then now - from else 0
  }

  function Advance(calls: seq<Call>, from: int): nat {
    if calls == [] then 0 else Ahead(from, calls[0].now) + Advance(calls[1..], calls[0].now)
  }

  ghost predicate Held(limits: Limits, buckets: map<Key, Bucket>) {
    "" !in buckets && forall k :: k in buckets ==> 0.0 <= buckets[k].tokens <= limits.burst
  }

  // -- One call ------------------------------------------------------------------------

  lemma LevelMoves(limits: Limits, buckets: map<Key, Bucket>, key: Key, from: int, now: int)
    requires Fit(limits) && Held(limits, buckets)
    ensures Level(limits, buckets, key, now) <= Level(limits, buckets, key, from) + Gain(limits.rate, Ahead(from, now))
    ensures 0.0 <= Level(limits, buckets, key, now) <= limits.burst
  {
    GainGrows(limits.rate, 0, Ahead(from, now));
    if key in buckets {
      var last := buckets[key].last;
      RefilledIsSane(limits, buckets[key], now);
      RefilledIsSane(limits, buckets[key], from);
      if last <= from <= now {
        GainAdds(limits.rate, from - last, now - from);
      } else if from < last < now {
        GainGrows(limits.rate, now - last, now - from);
      } else if last < now < from {
        GainGrows(limits.rate, now - last, from - last);
      }
    }
  }

  lemma IdleLimitIsNat(limits: Limits)
    requires Fit(limits)
    ensures IdleLimit(limits) >= 0
  {
    assert limits.burst / limits.rate > 0.0;
  }

  // At its own reading a sweep drops full buckets only, however late it comes.
  lemma SweepsTheFull(limits: Limits, s: State, key: Key, now: int)
    requires Fit(limits) && Held(limits, s.buckets)
    ensures Level(limits, Swept(limits, s, now).buckets, key, now) == Level(limits, s.buckets, key, now)
    ensures Held(limits, Swept(limits, s, now).buckets)
  {
    IdleLimitIsNat(limits);
    if key in s.buckets && key !in Swept(limits, s, now).buckets { IdleIsFull(limits, s.buckets[key], now); }
  }

  lemma AttemptSpends(limits: Limits, t: State, key: Key, now: int)
    requires Fit(limits) && Held(limits, t.buckets) && key != ""
    ensures var (b, ok) := Attempt(limits, BucketOf(limits, t, key, now), now);
            && 0.0 <= b.tokens <= limits.burst && b.last == now
            && b.tokens + (if ok then 1.0 else 0.0) == Level(limits, t.buckets, key, now)
  {
    RefilledIsSane(limits, BucketOf(limits, t, key, now), now);
  }

  lemma CallSpends(limits: Limits, s: State, call: Call, key: Key)
    requires Fit(limits) && Held(limits, s.buckets)
    ensures var (d, ok) := Step(limits, s, call);
            && Held(limits, d.buckets)
            && Level(limits, d.buckets, key, call.now) + Spent([call], [ok], key) as real <=
               Level(limits, s.buckets, key, call.now)
  {
    SweepsTheFull(limits, s, key, call.now);
    match call
    case Attempts(k, now) => if k != "" { AttemptSpends(limits, Swept(limits, s, now), k, now); }
    case Refunds(k, now) => if k in s.buckets { RefilledIsSane(limits, s.buckets[k], now); }
  }

  lemma SpentSplits(calls: seq<Call>, more: seq<Call>, outcomes: seq<bool>, rest: seq<bool>, key: Key)
    requires |calls| == |outcomes| && |more| == |rest|
    ensures Spent(calls + more, outcomes + rest, key) == Spent(calls, outcomes, key) + Spent(more, rest, key)
    decreases |calls|
  {
    if calls == [] {
      assert calls + more == more && outcomes + rest == rest;
    } else {
      assert (calls + more)[1..] == calls[1..] + more && (outcomes + rest)[1..] == outcomes[1..] + rest;
      SpentSplits(calls[1..], more, outcomes[1..], rest, key);
    }
  }

  // -- Any readings ------------------------------------------------------------------------

  // In whatever order the readings reach the lock, whichever keys they are for
  // and whatever a sweep drops in between: the attempts of a key allowed and not
  // refunded stay within what it had and what all the forward movement earns.
  lemma {:induction false} AnyOrderBound(limits: Limits, s: State, calls: seq<Call>, key: Key, from: int)
    requires Fit(limits) && Held(limits, s.buckets)
    ensures Level(limits, s.buckets, key, from) <= limits.burst
    ensures Spent(calls, Outcomes(limits, s, calls), key) as real <=
            Level(limits, s.buckets, key, from) + Gain(limits.rate, Advance(calls, from))
    decreases |calls|
  {
    LevelMoves(limits, s.buckets, key, from, from);
    if calls == [] {
      GainGrows(limits.rate, 0, 0);
    } else {
      var call := calls[0];
      var (d, ok) := Step(limits, s, call);
      var rest := Outcomes(limits, d, calls[1..]);
      LevelMoves(limits, s.buckets, key, from, call.now);
      CallSpends(limits, s, call, key);
      AnyOrderBound(limits, d, calls[1..], key, call.now);
      SpentSplits([call], calls[1..], [ok], rest, key);
      assert [call] + calls[1..] == calls && [ok] + rest == Outcomes(limits, s, calls);
      GainAdds(limits.rate, Ahead(from, call.now), Advance(calls[1..], call.now));
    }
  }

  function EndOf(calls: seq<Call>, from: int): int {
    if calls == [] then from else calls[|calls| - 1].now
  }

  // Readings that do not go back move forward by the length of their window.
  lemma {:induction false} ForwardAdvance(calls: seq<Call>, from: int)
    requires Forward(calls, from)
    ensures Advance(calls, from) == EndOf(calls, from) - from
    decreases |calls|
  {
    if calls != [] {
      ForwardAdvance(calls[1..], calls[0].now);
      assert EndOf(calls[1..], calls[0].now) == EndOf(calls, from);
    }
  }

  // On a clock that does not go back: within the burst and the rate times the window.
  lemma WindowBound(limits: Limits, s: State, calls: seq<Call>, key: Key, from: int)
    requires Fit(limits) && Held(limits, s.buckets) && Forward(calls, from)
    ensures Spent(calls, Outcomes(limits, s, calls), key) as real <=
            limits.burst + Gain(limits.rate, EndOf(calls, from) - from)
  {
    AnyOrderBound(limits, s, calls, key, from);
    ForwardAdvance(calls, from);
  }
}
