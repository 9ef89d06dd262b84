/** The browser's renegotiation queue: requests gather, go out together as one
    offer, and settle when its answer comes.  One sendOffer chain of promise
    callbacks runs beside the calls of the application. */
module RenegotiationQueues {

  type Req = nat

  datatype Option<T> = None | Some(value: T)

  datatype Outcome = Resolved | Refused

  // A batch is known by its identity: two batches may hold the same requests.
  datatype Batch = Batch(id: nat, requests: seq<Req>)

  // `settled` records every call of a request's resolve or reject; requests are
  // numbered in the order they arrive.
  datatype Queue = Queue(
    pending: seq<Req>,
    inFlight: Option<Batch>,
    pumping: bool,
    closed: bool,
    watchdog: bool,
    settled: seq<(Req, Outcome)>,
    arrived: nat,
    batches: nat)

  const Empty := Queue([], None, false, false, false, [], 0, 0)

  function Flying(q: Queue): seq<Req> {
    if q.inFlight.Some? then q.inFlight.value.requests else []
  }

  function SettleAll(settled: seq<(Req, Outcome)>, batch: seq<Req>, how: Outcome): seq<(Req, Outcome)> {
    settled + seq(|batch|, i requires 0 <= i < |batch| => (batch[i], how))
  }

  function Close(q: Queue): Queue {
    if q.closed then q
    else q.(closed := true, watchdog := false, inFlight := None, pending := [],
            settled := SettleAll(SettleAll(q.settled, Flying(q), Refused), q.pending, Refused))
  }

  predicate Pumps(q: Queue, current: bool, stable: bool) {
    !q.closed && !q.pumping && q.inFlight.None? && q.pending != [] && current && stable
  }

  function Pump(q: Queue, current: bool, stable: bool): Queue {
    if q.closed || q.pumping || q.inFlight.Some? || q.pending == [] then q
    else if !current then Close(q)
    else if !stable then q.(watchdog := true)
    else q.(watchdog := true, inFlight := Some(Batch(q.batches, q.pending)), pending := [], pumping := true,
            batches := q.batches + 1)
  }

  // A refused request is never numbered: its promise is rejected on the spot.
  predicate Takes(q: Queue, current: bool) {
    !q.closed && current
  }

  function Request(q: Queue, current: bool, pumpCurrent: bool, stable: bool): Queue {
    if q.closed then q
    else if !current then Close(q)
    else Pump(q.(pending := q.pending + [q.arrived], arrived := q.arrived + 1), pumpCurrent, stable)
  }

  function Landed(q: Queue, how: Outcome): Queue {
    q.(watchdog := false, settled := SettleAll(q.settled, Flying(q), how), inFlight := None)
  }

  function Answer(q: Queue, current: bool, pumpCurrent: bool, stable: bool): Queue {
    if q.closed then q
    else if !current then Close(q)
    else Pump(Landed(q, Resolved), pumpCurrent, stable)
  }

  function Returned(q: Queue, watchdog: bool): Queue {
    q.(pending := Flying(q) + q.pending, inFlight := None, watchdog := watchdog)
  }

  function Rollback(q: Queue): Queue {
    if q.closed || q.inFlight.None? then q else Returned(q, true)
  }

  function Fail(q: Queue, pumpCurrent: bool, stable: bool): Queue {
    if q.closed || q.inFlight.None? then q else Pump(Landed(q, Refused), pumpCurrent, stable)
  }

  predicate InFlightIs(q: Queue, batch: Batch) {
    q.inFlight.Some? && q.inFlight.value.id == batch.id
  }

  function Sent(q: Queue, batch: Batch, sent: bool): Queue {
    if !InFlightIs(q, batch) || sent then q else Returned(q, false)
  }

  function Caught(q: Queue, batch: Batch): Queue {
    if !InFlightIs(q, batch) then q else Landed(q, Refused)
  }

  function Finally(q: Queue, current: bool, stable: bool): Queue {
    Pump(q.(pumping := false), current, stable)
  }

  function WatchdogFires(q: Queue): Queue {
    if q.closed || (q.inFlight.None? && q.pending == []) then q.(watchdog := false) else Close(q)
  }

  class RenegotiationQueue {
    var pending: seq<Req>
    var inFlight: Option<Batch>
    var pumping: bool
    var closed: bool
    var watchdog: bool
    ghost var settled: seq<(Req, Outcome)>
    var arrived: nat
    var batches: nat

    ghost function View(): Queue
      reads this
    {
      Queue(pending, inFlight, pumping, closed, watchdog, settled, arrived, batches)
    }

    constructor ()
      ensures View() == Empty
    {
      pending, inFlight, pumping, closed, watchdog := [], None, false, false, false;
      settled, arrived, batches := [], 0, 0;
    }

    method Settle(batch: seq<Req>, how: Outcome)
      modifies this`settled
      ensures settled == SettleAll(old(settled), batch, how)
    {
      for index := 0 to |batch|
        invariant settled == SettleAll(old(settled), batch[..index], how)
      {
        settled := settled + [(batch[index], how)];
      }
      assert batch[..|batch|] == batch;
    }

    method Shut()
      modifies this
      ensures View() == Close(old(View()))
    {
      if closed {
        return;
      }
      closed := true;
      watchdog := false;
      if inFlight.Some? {
        Settle(inFlight.value.requests, Refused);
      }
      Settle(pending, Refused);
      inFlight, pending := None, [];
    }

    method Start(current: bool, stable: bool) returns (started: bool)
      modifies this
      ensures View() == Pump(old(View()), current, stable)
      ensures started == Pumps(old(View()), current, stable)
    {
      if closed || pumping || inFlight.Some? || pending == [] {
        return false;
      }
      if !current {
        Shut();
        return false;
      }
      if !stable {
        watchdog := true;
        return false;
      }
      watchdog := false;
      var batch := Batch(batches, pending);
      batches := batches + 1;
      pending := [];
      inFlight := Some(batch);
      watchdog := true;
      pumping := true;
      return true;
    }

    method Ask(current: bool, pumpCurrent: bool, stable: bool) returns (taken: Option<Req>)
      modifies this
      ensures View() == Request(old(View()), current, pumpCurrent, stable)
      ensures taken == if Takes(old(View()), current) then Some(old(arrived)) else None
    {
      if closed {
        return None;
      }
      if !current {
        Shut();
        return None;
      }
      taken := Some(arrived);
      pending := pending + [arrived];
      arrived := arrived + 1;
      var _ := Start(pumpCurrent, stable);
    }

    method OnAnswer(current: bool, pumpCurrent: bool, stable: bool)
      modifies this
      ensures View() == Answer(old(View()), current, pumpCurrent, stable)
    {
      if closed {
        return;
      }
      if !current {
        Shut();
        return;
      }
      watchdog := false;
      if inFlight.Some? {
        Settle(inFlight.value.requests, Resolved);
        inFlight := None;
      }
      var _ := Start(pumpCurrent, stable);
    }

    method OnRollback()
      modifies this
      ensures View() == Rollback(old(View()))
    {
      if closed || inFlight.None? {
        return;
      }
      watchdog := false;
      pending := inFlight.value.requests + pending;
      inFlight := None;
      watchdog := true;
    }

    method OnFail(pumpCurrent: bool, stable: bool)
      modifies this
      ensures View() == Fail(old(View()), pumpCurrent, stable)
    {
      if closed || inFlight.None? {
        return;
      }
      watchdog := false;
      Settle(inFlight.value.requests, Refused);
      inFlight := None;
      var _ := Start(pumpCurrent, stable);
    }

    // The callbacks of the chain started for `batch`.
    method OnSent(batch: Batch, sent: bool)
      modifies this
      ensures View() == Sent(old(View()), batch, sent)
    {
      if inFlight.None? || inFlight.value.id != batch.id {
        return;
      }
      if sent {
        return;
      }
      watchdog := false;
      pending := inFlight.value.requests + pending;
      inFlight := None;
    }

    method OnCaught(batch: Batch)
      modifies this
      ensures View() == Caught(old(View()), batch)
    {
      if inFlight.None? || inFlight.value.id != batch.id {
        return;
      }
      watchdog := false;
      Settle(inFlight.value.requests, Refused);
      inFlight := None;
    }

    method OnFinally(current: bool, stable: bool)
      modifies this
      ensures View() == Finally(old(View()), current, stable)
    {
      pumping := false;
      if |pending| > 0 && inFlight.None? && !closed {
        var _ := Start(current, stable);
      }
    }

    method OnWatchdog()
      modifies this
      ensures View() == WatchdogFires(old(View()))
    {
      watchdog := false;
      if closed || (inFlight.None? && |pending| == 0) {
        return;
      }
      Shut();
    }

    method HasPending() returns (r: bool)
      ensures r == (inFlight.Some? || pending != [])
    {
      r := inFlight.Some? || |pending| > 0;
    }
  }

  // -- Runs --------------------------------------------------------------------------

  // How far a sendOffer chain has got.
  datatype Stage = Scheduled | Sending | Fulfilled(sent: bool) | Rejected | Settled

  datatype Chain = Chain(batch: Batch, stage: Stage)

  datatype World = World(q: Queue, chains: seq<Chain>)

  const Begin := World(Empty, [])

  datatype Event =
    | Requests(current: bool, pumpCurrent: bool, stable: bool)
    | Answers(current: bool, pumpCurrent: bool, stable: bool)
    | RollsBack
    | Fails(pumpCurrent: bool, stable: bool)
    | Resumes(pumpCurrent: bool, stable: bool)
    | Closes
    | Times
    | Sends(i: nat)                   // the chain calls sendOffer
    | Returns(i: nat, outcome: Stage) // which fulfils, with `sent`, or rejects
    | Thens(i: nat)                   // then and catch, of which one does the work
    | Finishes(i: nat, pumpCurrent: bool, stable: bool)

  // A pump that starts a batch starts its chain.
  function With(w: World, q: Queue): World {
    if q.pumping && !w.q.pumping && q.inFlight.Some?
    then World(q, w.chains + [Chain(q.inFlight.value, Scheduled)])
    else w.(q := q)
  }

  function Advance(w: World, i: nat, stage: Stage): World
    requires i < |w.chains|
  {
    w.(chains := w.chains[i := w.chains[i].(stage := stage)])
  }

  function OnThens(w: World, i: nat): World
    requires i < |w.chains|
  {
    var chain := w.chains[i];
    match chain.stage
    case Fulfilled(sent) => Advance(w, i, Settled).(q := Sent(w.q, chain.batch, sent))
    case Rejected => Advance(w, i, Settled).(q := Caught(w.q, chain.batch))
    case _ => w
  }

  function OnFinishes(w: World, i: nat, current: bool, stable: bool): World
    requires i < |w.chains|
  {
    if w.chains[i].stage != Settled then w
    else With(World(w.q.(pumping := false), w.chains[..i] + w.chains[i + 1..]), Finally(w.q, current, stable))
  }

  function ChainStep(w: World, e: Event): World
    requires e.Sends? || e.Returns? || e.Thens? || e.Finishes?
  {
    if e.i >= |w.chains| then w
    else
      match e
      case Sends(i) => if w.chains[i].stage == Scheduled then Advance(w, i, Sending) else w
      case Returns(i, outcome) =>
        if w.chains[i].stage == Sending && (outcome.Fulfilled? || outcome.Rejected?) then Advance(w, i, outcome) else w
      case Thens(i) => OnThens(w, i)
      case Finishes(i, current, stable) => OnFinishes(w, i, current, stable)
  }

  function Next(w: World, e: Event): World {
    match e
    case Requests(current, pumpCurrent, stable) => With(w, Request(w.q, current, pumpCurrent, stable))
    case Answers(current, pumpCurrent, stable) => With(w, Answer(w.q, current, pumpCurrent, stable))
    case RollsBack => With(w, Rollback(w.q))
    case Fails(pumpCurrent, stable) => With(w, Fail(w.q, pumpCurrent, stable))
    case Resumes(pumpCurrent, stable) => With(w, Pump(w.q, pumpCurrent, stable))
    case Closes => With(w, Close(w.q))
    case Times => if w.q.watchdog then With(w, WatchdogFires(w.q)) else w
    case _ => ChainStep(w, e)
  }

  function Run(w: World, events: seq<Event>): World
    decreases |events|
  {
    if events == [] then w else Run(Next(w, events[0]), events[1..])
  }

  function Ids(settled: seq<(Req, Outcome)>): seq<Req> {
    seq(|settled|, i requires 0 <= i < |settled| => settled[i].0)
  }

  function FirstN(n: nat): seq<Req> {
    seq(n, i => i)
  }

  // Settled, then in flight, then pending: all requests, in arrival order.
  predicate InOrder(q: Queue) {
    Ids(q.settled) + Flying(q) + q.pending == FirstN(q.arrived)
  }

  predicate Guarded(q: Queue) {
    && (q.closed ==> q.inFlight.None? && q.pending == [] && !q.watchdog)
    && (q.inFlight.Some? ==> q.watchdog && q.inFlight.value.id < q.batches)
    && (q.pending != [] ==> q.watchdog || q.pumping)
  }

  // At most one chain runs, and only while pumping.
  predicate OneChain(w: World) {
    && |w.chains| == (if w.q.pumping then 1 else 0)
    && forall i :: 0 <= i < |w.chains| ==> w.chains[i].batch.id < w.q.batches
  }

  // A chain that finds its batch in flight has the very requests it took.
  predicate SameBatch(w: World) {
    forall i :: 0 <= i < |w.chains| && InFlightIs(w.q, w.chains[i].batch) ==> w.q.inFlight.value == w.chains[i].batch
  }

  predicate Inv(w: World) {
    InOrder(w.q) && Guarded(w.q) && OneChain(w) && SameBatch(w)
  }

  lemma SettleAllIds(settled: seq<(Req, Outcome)>, batch: seq<Req>, how: Outcome)
    ensures Ids(SettleAll(settled, batch, how)) == Ids(settled) + batch
  {
  }

  lemma CloseKeeps(q: Queue)
    requires InOrder(q) && Guarded(q)
    ensures InOrder(Close(q)) && Guarded(Close(q)) && Close(q).batches == q.batches && Close(q).pumping == q.pumping
  {
    if !q.closed {
      SettleAllIds(q.settled, Flying(q), Refused);
      SettleAllIds(SettleAll(q.settled, Flying(q), Refused), q.pending, Refused);
    }
  }

  lemma LandedKeepsOrder(q: Queue, how: Outcome)
    requires InOrder(q)
    ensures InOrder(Landed(q, how))
  {
    SettleAllIds(q.settled, Flying(q), how);
  }

  lemma ReturnedKeepsOrder(q: Queue, watchdog: bool)
    requires InOrder(q)
    ensures InOrder(Returned(q, watchdog))
  {
    assert Ids(q.settled) + [] + (Flying(q) + q.pending) == Ids(q.settled) + Flying(q) + q.pending;
  }

  // Pump is called where something may be left unguarded, and guards it.
  predicate Loose(q: Queue) {
    && (q.closed ==> q.inFlight.None? && q.pending == [] && !q.watchdog)
    && (q.inFlight.Some? ==> q.watchdog && q.inFlight.value.id < q.batches)
  }

  lemma PumpGuards(q: Queue, current: bool, stable: bool)
    requires InOrder(q) && Loose(q)
    ensures var d := Pump(q, current, stable);
            && InOrder(d) && Guarded(d) && d.batches >= q.batches && (q.pumping ==> d.pumping)
            && (d.pumping && !q.pumping ==> d.inFlight == Some(Batch(q.batches, q.pending)) && d.batches > q.batches)
            && (d.pumping == q.pumping ==> d.inFlight == q.inFlight || d.inFlight.None?)
  {
    if !q.closed && !current && !q.pumping && q.inFlight.None? {
      SettleAllIds(q.settled, Flying(q), Refused);
      SettleAllIds(SettleAll(q.settled, Flying(q), Refused), q.pending, Refused);
    }
    assert Ids(q.settled) + [] + q.pending == Ids(q.settled) + q.pending + [];
  }

  // How one call may leave the queue.
  predicate Follows(q: Queue, d: Queue) {
    && InOrder(d) && Guarded(d) && d.batches >= q.batches && (q.pumping ==> d.pumping)
    && (d.pumping && !q.pumping ==> d.inFlight.Some? && d.inFlight.value.id == q.batches && d.batches > q.batches)
    && (d.pumping == q.pumping ==> d.inFlight == q.inFlight || d.inFlight.None?)
  }

  lemma WithKeepsInv(w: World, d: Queue)
    requires Inv(w) && Follows(w.q, d)
    ensures Inv(With(w, d))
  {
  }

  lemma RequestFollows(q: Queue, current: bool, pumpCurrent: bool, stable: bool)
    requires InOrder(q) && Guarded(q)
    ensures Follows(q, Request(q, current, pumpCurrent, stable))
  {
    CloseKeeps(q);
    if Takes(q, current) {
      var more := q.(pending := q.pending + [q.arrived], arrived := q.arrived + 1);
      assert FirstN(q.arrived + 1) == FirstN(q.arrived) + [q.arrived];
      assert Ids(q.settled) + Flying(q) + more.pending == Ids(q.settled) + Flying(q) + q.pending + [q.arrived];
      PumpGuards(more, pumpCurrent, stable);
    }
  }

  lemma AnswerFollows(q: Queue, current: bool, pumpCurrent: bool, stable: bool)
    requires InOrder(q) && Guarded(q)
    ensures Follows(q, Answer(q, current, pumpCurrent, stable))
  {
    CloseKeeps(q);
    if Takes(q, current) {
      LandedKeepsOrder(q, Resolved);
      PumpGuards(Landed(q, Resolved), pumpCurrent, stable);
    }
  }

  lemma FailFollows(q: Queue, pumpCurrent: bool, stable: bool)
    requires InOrder(q) && Guarded(q)
    ensures Follows(q, Fail(q, pumpCurrent, stable))
  {
    if !q.closed && q.inFlight.Some? {
      LandedKeepsOrder(q, Refused);
      PumpGuards(Landed(q, Refused), pumpCurrent, stable);
    }
  }

  lemma SentKeepsInv(w: World, i: nat, sent: bool)
    requires Inv(w) && i < |w.chains| && w.chains[i].stage == Fulfilled(sent)
    ensures Inv(OnThens(w, i))
  {
    ReturnedKeepsOrder(w.q, false);
  }

  lemma CaughtKeepsInv(w: World, i: nat)
    requires Inv(w) && i < |w.chains| && w.chains[i].stage == Rejected
    ensures Inv(OnThens(w, i))
  {
    LandedKeepsOrder(w.q, Refused);
  }

  lemma FinishesKeepsInv(w: World, i: nat, current: bool, stable: bool)
    requires Inv(w) && i < |w.chains|
    ensures Inv(OnFinishes(w, i, current, stable))
  {
    if w.chains[i].stage == Settled {
      var q := w.q.(pumping := false);
      PumpGuards(q, current, stable);
      var rest := w.chains[..i] + w.chains[i + 1..];
      assert rest == [];
    }
  }

  lemma ChainStepKeepsInv(w: World, e: Event)
    requires Inv(w) && (e.Sends? || e.Returns? || e.Thens? || e.Finishes?)
    ensures Inv(ChainStep(w, e))
  {
    if e.i < |w.chains| {
      match e
      case Thens(i) =>
        if w.chains[i].stage.Fulfilled? { SentKeepsInv(w, i, w.chains[i].stage.sent); }
        if w.chains[i].stage.Rejected? { CaughtKeepsInv(w, i); }
      case Finishes(i, current, stable) => FinishesKeepsInv(w, i, current, stable);
      case _ =>
    }
  }

  lemma NextKeepsInv(w: World, e: Event)
    requires Inv(w)
    ensures Inv(Next(w, e))
  {
    match e
    case Requests(current, pumpCurrent, stable) =>
      RequestFollows(w.q, current, pumpCurrent, stable);
      WithKeepsInv(w, Request(w.q, current, pumpCurrent, stable));
    case Answers(current, pumpCurrent, stable) =>
      AnswerFollows(w.q, current, pumpCurrent, stable);
      WithKeepsInv(w, Answer(w.q, current, pumpCurrent, stable));
    case RollsBack =>
      ReturnedKeepsOrder(w.q, true);
      WithKeepsInv(w, Rollback(w.q));
    case Fails(pumpCurrent, stable) =>
      FailFollows(w.q, pumpCurrent, stable);
      WithKeepsInv(w, Fail(w.q, pumpCurrent, stable));
    case Resumes(pumpCurrent, stable) =>
      PumpGuards(w.q, pumpCurrent, stable);
      WithKeepsInv(w, Pump(w.q, pumpCurrent, stable));
    case Closes =>
      CloseKeeps(w.q);
      WithKeepsInv(w, Close(w.q));
    case Times =>
      CloseKeeps(w.q);
      if w.q.watchdog { WithKeepsInv(w, WatchdogFires(w.q)); }
    case _ => ChainStepKeepsInv(w, e);
  }

  lemma {:induction false} RunKeepsInv(w: World, events: seq<Event>)
    requires Inv(w)
    ensures Inv(Run(w, events))
    decreases |events|
  {
    if events != [] {
      NextKeepsInv(w, events[0]);
      RunKeepsInv(Next(w, events[0]), events[1..]);
    }
  }

  lemma SplitOrder(a: seq<Req>, b: seq<Req>, c: seq<Req>, n: nat)
    requires a + b + c == FirstN(n)
    ensures |a| + |b| + |c| == n && a == FirstN(|a|)
    ensures forall i :: 0 <= i < |b + c| ==> (b + c)[i] == |a| + i
  {
    var all := a + b + c;
    forall i | 0 <= i < |a| ensures a[i] == i { assert all[i] == i; }
    forall i | 0 <= i < |b + c| ensures (b + c)[i] == |a| + i { assert all[|a| + i] == |a| + i; }
  }

  // The requests settled so far are the first to arrive, each settled once and in
  // order; those in flight and then those pending are all the rest, in order.
  lemma SettlesInArrivalOrder(events: seq<Event>)
    ensures var q := Run(Begin, events).q;
            && |q.settled| + |Flying(q)| + |q.pending| == q.arrived
            && (forall i :: 0 <= i < |q.settled| ==> q.settled[i].0 == i)
            && (forall i :: 0 <= i < |Flying(q) + q.pending| ==> (Flying(q) + q.pending)[i] == |q.settled| + i)
  {
    RunKeepsInv(Begin, events);
    var q := Run(Begin, events).q;
    SplitOrder(Ids(q.settled), Flying(q), q.pending, q.arrived);
    forall i | 0 <= i < |q.settled| ensures q.settled[i].0 == i { assert Ids(q.settled)[i] == i; }
  }

  // An answer resolves the batch then in flight, whole; nothing else is settled
  // unless the connection turns out to be stale and the queue closes.
  lemma AnswerSettlesItsBatch(q: Queue, pumpCurrent: bool, stable: bool)
    requires !q.closed
    ensures var d := Answer(q, true, pumpCurrent, stable);
            && SettleAll(q.settled, Flying(q), Resolved) <= d.settled
            && (!d.closed ==> d.settled == SettleAll(q.settled, Flying(q), Resolved))
            && (forall k :: 0 <= k < |Flying(q)| ==> d.settled[|q.settled| + k] == (Flying(q)[k], Resolved))
  {
    var landed := Landed(q, Resolved);
    forall k | 0 <= k < |Flying(q)| ensures landed.settled[|q.settled| + k] == (Flying(q)[k], Resolved) {}
  }

  // While open, whatever is unsettled has an armed watchdog or a chain running.
  lemma NeverStallsUnguarded(events: seq<Event>)
    ensures var w := Run(Begin, events);
            && |w.chains| <= 1 && (w.q.pumping <==> |w.chains| == 1)
            && (w.q.inFlight.Some? ==> w.q.watchdog)
            && (|w.q.settled| < w.q.arrived ==> w.q.watchdog || |w.chains| == 1)
            && (w.q.closed ==> |w.q.settled| == w.q.arrived)
  {
    RunKeepsInv(Begin, events);
    SettlesInArrivalOrder(events);
  }

  // Every firing of the watchdog, and every close, leaves nothing unsettled.
  lemma FiringLeavesNothing(events: seq<Event>, e: Event)
    requires e == Closes || (e == Times && Run(Begin, events).q.watchdog)
    ensures var q := Next(Run(Begin, events), e).q; |q.settled| == q.arrived && q.pending == [] && q.inFlight.None?
  {
    RunKeepsInv(Begin, events);
    var w := Run(Begin, events);
    NextKeepsInv(w, e);
    var q := Next(w, e).q;
    SplitOrder(Ids(q.settled), Flying(q), q.pending, q.arrived);
  }

  // A chain whose batch is no longer in flight can neither settle nor move
  // anything: the outcome of a superseded offer is ignored.
  lemma StaleOutcomeIsIgnored(events: seq<Event>, i: nat)
    requires var w := Run(Begin, events); i < |w.chains| && w.q.inFlight != Some(w.chains[i].batch)
    ensures var w := Run(Begin, events); OnThens(w, i).q == w.q
  {
    RunKeepsInv(Begin, events);
  }

  // What is settled stays settled, and a step may only add refusals.
  predicate OnlyRefuses(settled: seq<(Req, Outcome)>, more: seq<(Req, Outcome)>) {
    settled <= more && forall i :: |settled| <= i < |more| ==> more[i].1 == Refused
  }

  lemma PumpRefuses(q: Queue, current: bool, stable: bool)
    ensures OnlyRefuses(q.settled, Pump(q, current, stable).settled)
  {
  }

  lemma CallsOnlyRefuse(q: Queue, current: bool, pumpCurrent: bool, stable: bool)
    ensures OnlyRefuses(q.settled, Request(q, current, pumpCurrent, stable).settled)
    ensures q.settled <= Answer(q, current, pumpCurrent, stable).settled
    ensures OnlyRefuses(q.settled, Fail(q, pumpCurrent, stable).settled)
  {
    PumpRefuses(q.(pending := q.pending + [q.arrived], arrived := q.arrived + 1), pumpCurrent, stable);
    PumpRefuses(Landed(q, Resolved), pumpCurrent, stable);
    PumpRefuses(Landed(q, Refused), pumpCurrent, stable);
  }

  lemma ChainOnlyRefuses(w: World, e: Event)
    requires e.Sends? || e.Returns? || e.Thens? || e.Finishes?
    ensures OnlyRefuses(w.q.settled, ChainStep(w, e).q.settled)
  {
    if e.Finishes? { PumpRefuses(w.q.(pumping := false), e.pumpCurrent, e.stable); }
  }

  // A request is resolved by an answer and by nothing else: a failure, a stale
  // connection, the watchdog and close only refuse, and nothing is taken back.
  lemma OnlyAnswersResolve(w: World, e: Event)
    ensures w.q.settled <= Next(w, e).q.settled
    ensures !e.Answers? ==> OnlyRefuses(w.q.settled, Next(w, e).q.settled)
  {
    if e.Sends? || e.Returns? || e.Thens? || e.Finishes? {
      ChainOnlyRefuses(w, e);
    } else {
      match e
      case Requests(current, pumpCurrent, stable) => CallsOnlyRefuse(w.q, current, pumpCurrent, stable);
      case Answers(current, pumpCurrent, stable) => CallsOnlyRefuse(w.q, current, pumpCurrent, stable);
      case Fails(pumpCurrent, stable) => CallsOnlyRefuse(w.q, true, pumpCurrent, stable);
      case Resumes(pumpCurrent, stable) => PumpRefuses(w.q, pumpCurrent, stable);
      case RollsBack =>
      case Closes =>
      case Times =>
    }
  }
}
