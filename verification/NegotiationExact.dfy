/** Exactly which failures cost the negotiation something: a call to sendOffer, or
    the agreement between the hub and the peer connection. */
module NegotiationExact {
  import opened Negotiation
  import opened NegotiationRuns

  // -- Lost calls --------------------------------------------------------------------

  // The peer is asked for an offer, and it cannot be made or cannot be enqueued.
  predicate FailsOffer(w: World, e: Event) {
    match e
    case SendsOffer(_, created, room) => OffersNow(w.n) && !(created && room)
    case Reoffers(created, room) => w.reader.Reoffering? && OffersNow(w.n) && !(created && room)
    case _ => false
  }

  predicate SomeOfferFails(w: World, bad: set<Cand>, events: seq<Event>)
    decreases |events|
  {
    events != [] && (FailsOffer(w, events[0]) || SomeOfferFails(Next(w, bad, events[0]), bad, events[1..]))
  }

  predicate Has(place: seq<Place>, p: Place) {
    exists k :: 0 <= k < |place| && place[k] == p
  }

  // An offer owed is owed to some call.
  predicate Owed(w: World) {
    && (w.n.pendingOffer ==> Has(w.calls.place, Waiting))
    && (w.reader.Reoffering? ==> Has(w.calls.place, Carried))
  }

  lemma MoveHas(place: seq<Place>, from: Place, to: Place)
    ensures forall p :: Has(Move(place, from, to), p) <==> (p != from && Has(place, p)) || (p == to && Has(place, from))
  {
    var moved := Move(place, from, to);
    forall p ensures Has(moved, p) <==> (p != from && Has(place, p)) || (p == to && Has(place, from)) {
      if Has(moved, p) {
        var k :| 0 <= k < |moved| && moved[k] == p;
        assert place[k] == p || place[k] == from;
      }
      if p != from && Has(place, p) {
        var k :| 0 <= k < |place| && place[k] == p;
        assert moved[k] == p;
      }
      if p == to && Has(place, from) {
        var k :| 0 <= k < |place| && place[k] == from;
        assert moved[k] == p;
      }
    }
  }

  lemma MoreHas(place: seq<Place>, last: Place)
    ensures forall p :: Has(place + [last], p) <==> Has(place, p) || p == last
  {
    var more := place + [last];
    forall p ensures Has(more, p) <==> Has(place, p) || p == last {
      if Has(place, p) {
        var k :| 0 <= k < |place| && place[k] == p;
        assert more[k] == p;
      }
      assert more[|place|] == last;
    }
  }

  lemma SendsOfferDrops(w: World, restart: bool, created: bool, room: bool)
    requires Owed(w)
    ensures var d := OnSendsOffer(w, restart, created, room);
            && Owed(d)
            && (Has(d.calls.place, Dropped) <==>
                Has(w.calls.place, Dropped) || FailsOffer(w, SendsOffer(restart, created, room)))
  {
    MoreHas(w.calls.place, Landing(w, created, room));
  }

  lemma ReoffersDrops(w: World, created: bool, room: bool)
    requires Owed(w) && w.reader.Reoffering?
    ensures var d := OnReoffers(w, created, room);
            && Owed(d)
            && (Has(d.calls.place, Dropped) <==> Has(w.calls.place, Dropped) || FailsOffer(w, Reoffers(created, room)))
  {
    MoveHas(w.calls.place, Carried, Landing(w, created, room));
  }

  lemma ResumingDropsNone(w: World, d: World)
    requires Owed(w) && !w.reader.Reoffering?
    requires d.calls == Resuming(w).calls && d.reader == Resuming(w).reader && !d.n.pendingOffer
    ensures Owed(d) && (Has(d.calls.place, Dropped) <==> Has(w.calls.place, Dropped))
  {
    if w.n.pendingOffer { MoveHas(w.calls.place, Waiting, Carried); }
  }

  lemma OthersDropNone(w: World, bad: set<Cand>, e: Event)
    requires Owed(w) && (e.GetsOffer? || e.WritesAnswer? || e.GetsCandidate? || e.Gathers?)
    ensures var d := Next(w, bad, e); Owed(d) && d.calls == w.calls
  {
  }

  // A step drops a call exactly when it asks the peer for an offer and fails.
  lemma StepDrops(w: World, bad: set<Cand>, e: Event)
    requires Owed(w)
    ensures Owed(Next(w, bad, e))
    ensures Has(Next(w, bad, e).calls.place, Dropped) <==> Has(w.calls.place, Dropped) || FailsOffer(w, e)
  {
    match e
    case SendsOffer(restart, created, room) => SendsOfferDrops(w, restart, created, room);
    case Reoffers(created, room) => if w.reader.Reoffering? { ReoffersDrops(w, created, room); }
    case CompletesAnswer(slots) => if w.reader == Answered { ResumingDropsNone(w, OnCompletesAnswer(w, slots)); }
    case GetsAnswer(set_) =>
      if w.reader == Idle && w.n.offerInFlight { ResumingDropsNone(w, OnGetsAnswer(w, bad, set_)); }
    case _ => OthersDropNone(w, bad, e);
  }

  lemma {:induction false} RunDrops(w: World, bad: set<Cand>, events: seq<Event>)
    requires Owed(w)
    ensures Has(Run(w, bad, events).calls.place, Dropped) <==>
            Has(w.calls.place, Dropped) || SomeOfferFails(w, bad, events)
    decreases |events|
  {
    if events != [] {
      StepDrops(w, bad, events[0]);
      RunDrops(Next(w, bad, events[0]), bad, events[1..]);
    }
  }

  // The call is answered by an offer sent at or after it, restarting ICE if asked.
  predicate Served(w: World, k: nat) {
    && k < |w.calls.place| && k < |w.calls.asked| && w.calls.place[k].CoveredBy?
    && var i := w.calls.place[k].offer;
       i < |w.calls.offers| && k < w.calls.offers[i].after && (w.calls.asked[k] ==> w.calls.offers[i].restart)
  }

  predicate AtRest(w: World) {
    w.reader == Idle && w.n.negotiationReady && !w.n.offerInFlight
  }

  lemma RestingCallIsSettled(w: World, k: nat)
    requires Inv(w) && AtRest(w) && k < |w.calls.asked|
    ensures k < |w.calls.place| && (Served(w, k) <==> w.calls.place[k] != Dropped)
  {
  }

  // No renegotiation is lost, exactly: with nothing in flight, every call is
  // served if and only if no attempt to make an offer failed, and any other call
  // was dropped by such a failure.
  lemma NoLostRenegotiation(bad: set<Cand>, events: seq<Event>)
    requires AtRest(Run(Start, bad, events))
    ensures var w := Run(Start, bad, events);
            && ((forall k: nat :: k < |w.calls.asked| ==> Served(w, k)) <==> !SomeOfferFails(Start, bad, events))
            && |w.calls.place| == |w.calls.asked|
            && (forall k: nat :: k < |w.calls.asked| ==> Served(w, k) || w.calls.place[k] == Dropped)
  {
    var w := Run(Start, bad, events);
    EveryRunNegotiates(bad, events);
    RunDrops(Start, bad, events);
    forall k: nat | k < |w.calls.asked| ensures Served(w, k) <==> w.calls.place[k] != Dropped {
      RestingCallIsSettled(w, k);
    }
  }

  // -- Hub and peer out of step --------------------------------------------------------

  predicate InStep(w: World) {
    w.peer.state == if w.n.offerInFlight then HaveLocalOffer else Stable
  }

  // An offer made but not enqueued; a browser's offer taken but not answered,
  // because a queued candidate was refused or no answer could be made; an
  // expected answer the peer does not take.
  predicate Upsets(w: World, bad: set<Cand>, e: Event) {
    match e
    case SendsOffer(_, created, room) => OffersNow(w.n) && created && !room
    case Reoffers(created, room) => w.reader.Reoffering? && OffersNow(w.n) && created && !room
    case GetsOffer(set_, answered) =>
      w.reader == Idle && !w.n.offerInFlight && set_ && !(AllTaken(w.n.pendingCandidates, bad) && answered)
    case GetsAnswer(set_) => w.reader == Idle && w.n.offerInFlight && !set_
    case _ => false
  }

  lemma SendsOfferStaysInStep(w: World, bad: set<Cand>, restart: bool, created: bool, room: bool)
    requires InStep(w)
    ensures var d := OnSendsOffer(w, restart, created, room);
            (InStep(d) <==> !Upsets(w, bad, SendsOffer(restart, created, room))) &&
              (!Upsets(w, bad, SendsOffer(restart, created, room)) ==> d.peer.illegal == w.peer.illegal)
  {
  }

  lemma ReoffersStaysInStep(w: World, bad: set<Cand>, created: bool, room: bool)
    requires InStep(w)
    ensures var d := OnReoffers(w, created, room);
            (InStep(d) <==> !Upsets(w, bad, Reoffers(created, room))) &&
              (!Upsets(w, bad, Reoffers(created, room)) ==> d.peer.illegal == w.peer.illegal)
  {
  }

  lemma GetsOfferStaysInStep(w: World, bad: set<Cand>, set_: bool, answered: bool)
    requires InStep(w)
    ensures var d := OnGetsOffer(w, bad, set_, answered);
            && (InStep(d) <==> !Upsets(w, bad, GetsOffer(set_, answered)))
            && (!Upsets(w, bad, GetsOffer(set_, answered)) ==> d.peer.illegal == w.peer.illegal)
  {
    if w.reader == Idle && !w.n.offerInFlight && set_ && AllTaken(w.n.pendingCandidates, bad) {
      PassesInStep(w, answered);
    }
  }

  lemma PassesInStep(w: World, answered: bool)
    requires InStep(w) && w.reader == Idle && !w.n.offerInFlight
    ensures var d := OfferPasses(w, answered);
            (InStep(d) <==> answered) && (answered ==> d.peer.illegal == w.peer.illegal)
  {
  }

  lemma GetsAnswerStaysInStep(w: World, bad: set<Cand>, set_: bool)
    requires InStep(w)
    ensures var d := OnGetsAnswer(w, bad, set_);
            (InStep(d) <==> !Upsets(w, bad, GetsAnswer(set_))) &&
              (!Upsets(w, bad, GetsAnswer(set_)) ==> d.peer.illegal == w.peer.illegal)
  {
  }

  lemma OthersStayInStep(w: World, bad: set<Cand>, e: Event)
    requires InStep(w) && (e.WritesAnswer? || e.CompletesAnswer? || e.GetsCandidate? || e.Gathers?)
    ensures InStep(Next(w, bad, e)) && Next(w, bad, e).peer.illegal == w.peer.illegal
  {
  }

  lemma StepStaysInStep(w: World, bad: set<Cand>, e: Event)
    requires InStep(w)
    ensures InStep(Next(w, bad, e)) <==> !Upsets(w, bad, e)
    ensures !Upsets(w, bad, e) ==> Next(w, bad, e).peer.illegal == w.peer.illegal
  {
    match e
    case SendsOffer(restart, created, room) => SendsOfferStaysInStep(w, bad, restart, created, room);
    case Reoffers(created, room) => ReoffersStaysInStep(w, bad, created, room);
    case GetsOffer(set_, answered) => GetsOfferStaysInStep(w, bad, set_, answered);
    case GetsAnswer(set_) => GetsAnswerStaysInStep(w, bad, set_);
    case _ => OthersStayInStep(w, bad, e);
  }

  predicate AlwaysInStep(w: World, bad: set<Cand>, events: seq<Event>)
    decreases |events|
  {
    InStep(w) && (events != [] ==> AlwaysInStep(Next(w, bad, events[0]), bad, events[1..]))
  }

  predicate NeverUpset(w: World, bad: set<Cand>, events: seq<Event>)
    decreases |events|
  {
    events != [] ==> !Upsets(w, bad, events[0]) && NeverUpset(Next(w, bad, events[0]), bad, events[1..])
  }

  lemma {:induction false} InStepExactly(w: World, bad: set<Cand>, events: seq<Event>)
    requires InStep(w)
    ensures AlwaysInStep(w, bad, events) <==> NeverUpset(w, bad, events)
    ensures NeverUpset(w, bad, events) ==> Run(w, bad, events).peer.illegal == w.peer.illegal
    decreases |events|
  {
    if events != [] {
      StepStaysInStep(w, bad, events[0]);
      if !Upsets(w, bad, events[0]) { InStepExactly(Next(w, bad, events[0]), bad, events[1..]); }
    }
  }

  // Throughout a run the peer has a local offer exactly while one is in flight,
  // and is stable otherwise, if and only if none of those failures happens; and
  // then no description ever reaches it in a state that does not take it, whatever
  // else fails (section 3.2 of RFC 8829).
  lemma PeerFollowsExactly(bad: set<Cand>, events: seq<Event>)
    ensures AlwaysInStep(Start, bad, events) <==> NeverUpset(Start, bad, events)
    ensures NeverUpset(Start, bad, events) ==> !Run(Start, bad, events).peer.illegal
  {
    InStepExactly(Start, bad, events);
  }

  // -- A call that is lost ---------------------------------------------------------------

  function FirstOffer(): seq<Event> {
    [GetsOffer(true, true), WritesAnswer(true), CompletesAnswer(0), SendsOffer(false, true, true)]
  }

  lemma RunsTo(w: World, d: World, e: Event, rest: seq<Event>)
    requires Next(w, {}, e) == d
    ensures Run(w, {}, [e] + rest) == Run(d, {}, rest)
  {
    assert ([e] + rest)[1..] == rest;
  }

  lemma FirstOfferFlies()
    ensures var w := Run(Start, {}, FirstOffer());
            && w.reader == Idle && w.n.negotiationReady && w.n.offerInFlight && !w.n.pendingOffer
            && w.calls.place == [CoveredBy(0)]
  {
    var offered := Next(Start, {}, GetsOffer(true, true));
    assert offered.reader == Answering && offered.n == Fresh.(remoteDescription := true);
    var answered := Next(offered, {}, WritesAnswer(true));
    var ready := Next(answered, {}, CompletesAnswer(0));
    assert ready.reader == Idle && ready.calls == Calls([], [], []) && OffersNow(ready.n) && !ready.n.pendingOffer;
    var flying := Next(ready, {}, SendsOffer(false, true, true));
    RunsTo(ready, flying, SendsOffer(false, true, true), []);
    RunsTo(answered, ready, CompletesAnswer(0), [SendsOffer(false, true, true)]);
    RunsTo(offered, answered, WritesAnswer(true), [CompletesAnswer(0), SendsOffer(false, true, true)]);
    RunsTo(Start, offered, GetsOffer(true, true), [WritesAnswer(true), CompletesAnswer(0),
      SendsOffer(false, true, true)]);
  }

  lemma Merges(w: World)
    requires w.reader == Idle && w.n.negotiationReady && w.n.offerInFlight && !w.n.pendingOffer
    requires w.calls.place == [CoveredBy(0)]
    ensures var m := Next(w, {}, SendsOffer(true, true, true));
            && m.calls.place == [CoveredBy(0), Waiting] && m.n.pendingOffer
            && m.reader == Idle && m.n.negotiationReady && m.n.offerInFlight
  {
  }

  lemma CarriesOn(m: World)
    requires m.calls.place == [CoveredBy(0), Waiting] && m.n.pendingOffer
    requires m.reader == Idle && m.n.negotiationReady && m.n.offerInFlight
    ensures var c := Next(m, {}, GetsAnswer(true));
            c.calls.place == [CoveredBy(0), Carried] && c.reader.Reoffering? && OffersNow(c.n)
  {
  }

  lemma Loses(c: World)
    requires c.calls.place == [CoveredBy(0), Carried] && c.reader.Reoffering? && OffersNow(c.n)
    ensures var d := Next(c, {}, Reoffers(false, true));
            d.reader == Idle && OffersNow(d.n) && d.calls.place == [CoveredBy(0), Dropped]
  {
  }

  lemma MergedThenLost(w: World)
    requires w.reader == Idle && w.n.negotiationReady && w.n.offerInFlight && !w.n.pendingOffer
    requires w.calls.place == [CoveredBy(0)]
    ensures var d := Run(w, {}, [SendsOffer(true, true, true), GetsAnswer(true), Reoffers(false, true)]);
            d.reader == Idle && d.n.negotiationReady && !d.n.offerInFlight && d.calls.place == [CoveredBy(0), Dropped]
  {
    var merged := Next(w, {}, SendsOffer(true, true, true));
    var carried := Next(merged, {}, GetsAnswer(true));
    Merges(w);
    CarriesOn(merged);
    Loses(carried);
    RunsTo(carried, Next(carried, {}, Reoffers(false, true)), Reoffers(false, true), []);
    RunsTo(merged, carried, GetsAnswer(true), [Reoffers(false, true)]);
    RunsTo(w, merged, SendsOffer(true, true, true), [GetsAnswer(true), Reoffers(false, true)]);
  }

  // A call merged behind an offer in flight is lost when the offer made for it
  // fails: nobody is told.
  lemma MergedCallCanBeDropped()
    ensures var events := [SendsOffer(true, true, true), GetsAnswer(true), Reoffers(false, true)];
            var w := Run(Run(Start, {}, FirstOffer()), {}, events);
            w.reader == Idle && w.n.negotiationReady && !w.n.offerInFlight && w.calls.place == [CoveredBy(0), Dropped]
  {
    FirstOfferFlies();
    MergedThenLost(Run(Start, {}, FirstOffer()));
  }
}
