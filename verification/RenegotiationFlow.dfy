/** That what gathers in the browser's renegotiation queue goes out, what each
    callback settles, and what can leave requests waiting. */
module RenegotiationFlow {
  import opened RenegotiationQueues

  // The requests not settled yet, in arrival order.
  function Unsettled(q: Queue): seq<Req> {
    seq(if q.arrived > |q.settled| then q.arrived - |q.settled| else 0, i => |q.settled| + i)
  }

  // The callback pumps the queue and finds the connection current and stable.
  predicate FindsStable(w: World, e: Event) {
    match e
    case Requests(current, pumpCurrent, stable) => current && pumpCurrent && stable
    case Answers(current, pumpCurrent, stable) => current && pumpCurrent && stable
    case Fails(pumpCurrent, stable) => pumpCurrent && stable && w.q.inFlight.Some?
    case Resumes(pumpCurrent, stable) => pumpCurrent && stable
    case Finishes(i, pumpCurrent, stable) =>
      pumpCurrent && stable && i < |w.chains| && w.chains[i].stage == Settled
    case _ => false
  }

  // Nothing but the callback itself stands in the way: no chain runs, or the last
  // one just ends, and no offer is in flight, or it just lands.
  predicate Clear(w: World, e: Event) {
    (w.chains == [] || e.Finishes?) && (w.q.inFlight.None? || e.Answers? || e.Fails?)
  }

  function Each(batch: seq<Req>, how: Outcome): seq<(Req, Outcome)> {
    seq(|batch|, i requires 0 <= i < |batch| => (batch[i], how))
  }

  // What the callback itself settles: an answer resolves the batch in flight, a
  // failure rejects it.
  function Landing(q: Queue, e: Event): seq<(Req, Outcome)> {
    if q.inFlight.None? then []
    else if e.Answers? then Each(q.inFlight.value.requests, Resolved)
    else if e.Fails? then Each(q.inFlight.value.requests, Refused)
    else []
  }

  function ArrivedAfter(q: Queue, e: Event): nat {
    if e.Requests? then q.arrived + 1 else q.arrived
  }

  // Everything unsettled is in flight as one batch, and its chain is scheduled.
  predicate AllOut(d: World) {
    && d.q.pending == []
    && (if Unsettled(d.q) == [] then d.q.inFlight.None? && d.chains == []
        else d.q.inFlight.Some? && d.q.inFlight.value.requests == Unsettled(d.q) && d.q.watchdog &&
             d.chains == [Chain(d.q.inFlight.value, Scheduled)])
  }

  lemma OrderSplits(q: Queue, flying: seq<Req>, pending: seq<Req>)
    requires Ids(q.settled) + flying + pending == FirstN(q.arrived)
    ensures flying + pending == Unsettled(q)
  {
    SplitOrder(Ids(q.settled), flying, pending, q.arrived);
  }

  lemma RequestGoesOut(w: World, e: Event)
    requires Inv(w) && !w.q.closed && FindsStable(w, e) && Clear(w, e) && e.Requests?
    ensures var d := Next(w, e);
            !d.q.closed && d.q.settled == w.q.settled && d.q.arrived == w.q.arrived + 1 && AllOut(d)
  {
    NextKeepsInv(w, e);
    var d := Next(w, e);
    OrderSplits(d.q, Flying(d.q), d.q.pending);
    assert Flying(d.q) + [] == Flying(d.q);
  }

  lemma LandingGoesOut(w: World, e: Event)
    requires Inv(w) && !w.q.closed && FindsStable(w, e) && Clear(w, e) && (e.Answers? || e.Fails?)
    ensures var d := Next(w, e);
            !d.q.closed && d.q.settled == w.q.settled + Landing(w.q, e) && d.q.arrived == w.q.arrived && AllOut(d)
  {
    NextKeepsInv(w, e);
    var d := Next(w, e);
    OrderSplits(d.q, Flying(d.q), d.q.pending);
    assert Flying(d.q) + d.q.pending == Flying(d.q) || d.q.pending == Flying(d.q) + d.q.pending;
    assert w.q.settled + Each([], Resolved) == w.q.settled;
  }

  lemma ResumeGoesOut(w: World, e: Event)
    requires Inv(w) && !w.q.closed && FindsStable(w, e) && Clear(w, e) && (e.Resumes? || e.Finishes?)
    ensures var d := Next(w, e);
            !d.q.closed && d.q.settled == w.q.settled && d.q.arrived == w.q.arrived && AllOut(d)
  {
    NextKeepsInv(w, e);
    var d := Next(w, e);
    OrderSplits(d.q, Flying(d.q), d.q.pending);
    assert Flying(d.q) + d.q.pending == Flying(d.q) || d.q.pending == Flying(d.q) + d.q.pending;
  }

  // Whenever a callback finds the connection current and stable and nothing in
  // its way, all that is left unsettled is in flight at once, in arrival order.
  lemma GatheredGoOut(events: seq<Event>, e: Event)
    requires var w := Run(Begin, events); !w.q.closed && FindsStable(w, e) && Clear(w, e)
    ensures var w, d := Run(Begin, events), Next(Run(Begin, events), e);
            && !d.q.closed && d.q.settled == w.q.settled + Landing(w.q, e)
            && d.q.arrived == ArrivedAfter(w.q, e) && AllOut(d)
  {
    RunKeepsInv(Begin, events);
    var w := Run(Begin, events);
    match e
    case Requests(_, _, _) => RequestGoesOut(w, e);
    case Answers(_, _, _) => LandingGoesOut(w, e);
    case Fails(_, _) => LandingGoesOut(w, e);
    case Resumes(_, _) => ResumeGoesOut(w, e);
    case Finishes(_, _, _) => ResumeGoesOut(w, e);
  }

  // -- What can leave requests waiting -----------------------------------------------------

  // Open, with requests pending that nothing is about to send.
  predicate Idling(w: World) {
    !w.q.closed && w.q.pending != [] && w.q.inFlight.None? && w.chains == []
  }

  // The callback pumped and found signaling unstable, or rolled an offer back.
  predicate Blamed(e: Event) {
    match e
    case Requests(_, _, stable) => !stable
    case Answers(_, _, stable) => !stable
    case Fails(_, stable) => !stable
    case Resumes(_, stable) => !stable
    case Finishes(_, _, stable) => !stable
    case RollsBack => true
    case _ => false
  }

  lemma IdlingIsBlamed(w: World, e: Event)
    requires Inv(w) && Idling(Next(w, e)) && !Blamed(e)
    ensures Idling(w)
  {
    NextKeepsInv(w, e);
  }

  lemma {:induction false} RunMore(w: World, events: seq<Event>, e: Event)
    ensures Run(w, events + [e]) == Next(Run(w, events), e)
    decreases |events|
  {
    if events == [] {
      assert [e][1..] == [];
    } else {
      assert (events + [e])[1..] == events[1..] + [e];
      RunMore(Next(w, events[0]), events[1..], e);
    }
  }

  // Requests wait with nothing under way only because some callback found
  // signaling unstable or rolled an offer back, and have waited ever since.
  lemma {:induction false} OnlyInstabilityIdles(events: seq<Event>) returns (i: nat)
    requires Idling(Run(Begin, events))
    ensures i < |events| && Blamed(events[i])
    ensures forall j :: i < j <= |events| ==> Idling(Run(Begin, events[..j]))
    decreases |events|
  {
    assert events[..|events|] == events;
    var n := |events| - 1;
    var e := events[n];
    assert events == events[..n] + [e];
    RunMore(Begin, events[..n], e);
    RunKeepsInv(Begin, events[..n]);
    if Blamed(e) {
      i := n;
    } else {
      IdlingIsBlamed(Run(Begin, events[..n]), e);
      i := OnlyInstabilityIdles(events[..n]);
      IdlesOn(events, n, i);
    }
  }

  lemma IdlesOn(events: seq<Event>, n: nat, i: nat)
    requires n + 1 == |events| && Idling(Run(Begin, events))
    requires forall j :: i < j <= n ==> Idling(Run(Begin, events[..n][..j]))
    ensures forall j :: i < j <= |events| ==> Idling(Run(Begin, events[..j]))
  {
    assert events[..|events|] == events;
    forall j | i < j <= n ensures Idling(Run(Begin, events[..j])) { assert events[..n][..j] == events[..j]; }
  }

  // -- What each callback settles ------------------------------------------------------------

  predicate BatchIs(w: World, i: nat, stage: Stage) {
    i < |w.chains| && w.chains[i].stage == stage && w.q.inFlight == Some(w.chains[i].batch)
  }

  // A rollback, and an offer that was not sent, settle nothing and put their
  // requests before those that gathered meanwhile.
  lemma ReturnsToFront(w: World, e: Event)
    requires Inv(w) && !w.q.closed && w.q.inFlight.Some?
    requires e == RollsBack || (e.Thens? && BatchIs(w, e.i, Fulfilled(false)))
    ensures var d := Next(w, e);
            && d.q.settled == w.q.settled && d.q.inFlight.None?
            && d.q.pending == w.q.inFlight.value.requests + w.q.pending
            && (e == RollsBack ==> d.q.watchdog)
  {
  }

  // An offer that went out stays in flight until its answer.
  lemma SentStaysInFlight(w: World, i: nat)
    requires i < |w.chains| && w.chains[i].stage == Fulfilled(true)
    ensures Next(w, Thens(i)).q == w.q
  {
  }

  // A send that failed rejects its own batch and nothing else.
  lemma FailedSendRejectsItsBatch(w: World, i: nat)
    requires Inv(w) && BatchIs(w, i, Rejected)
    ensures var d := Next(w, Thens(i));
            && d.q.settled == w.q.settled + Each(w.q.inFlight.value.requests, Refused)
            && d.q.inFlight.None? && d.q.pending == w.q.pending
  {
  }

  // A stale connection closes the queue, and closing rejects all that is unsettled.
  lemma StaleCloses(w: World, e: Event)
    requires Inv(w) && !w.q.closed
    requires (e.Requests? && !e.current) || (e.Answers? && !e.current) || e.Closes? ||
             (e.Times? && w.q.watchdog && |w.q.settled| < w.q.arrived)
    ensures var d := Next(w, e);
            && d.q.closed && d.q.settled == w.q.settled + Each(Unsettled(w.q), Refused) && d.q.arrived == w.q.arrived
            && d.q.pending == [] && d.q.inFlight.None?
  {
    OrderSplits(w.q, Flying(w.q), w.q.pending);
    assert Each(Flying(w.q), Refused) + Each(w.q.pending, Refused) == Each(Flying(w.q) + w.q.pending, Refused);
  }

  // A closed queue takes nothing and settles nothing.
  lemma ClosedIsOver(w: World, e: Event)
    requires Inv(w) && w.q.closed
    ensures var d := Next(w, e);
            && d.q.closed && d.q.settled == w.q.settled && d.q.arrived == w.q.arrived
            && d.q.pending == [] && d.q.inFlight.None?
  {
  }
}
