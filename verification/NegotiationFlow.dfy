/** What goes on flowing: where each remote candidate goes, and that a browser's
    offer is answered and the server's own offers end. */
module NegotiationFlow {
  import opened Negotiation
  import opened NegotiationRuns

  // -- Remote candidates ---------------------------------------------------------------

  // Candidates go to the peer exactly while it has a remote description and no
  // offer that restarts ICE is open.
  predicate Open(w: World) {
    w.n.remoteDescription <==> w.peer.hasRemote && !(w.n.offerInFlight && w.n.offerICERestart)
  }

  // A first offer of the browser whose queued candidates the peer refuses; an
  // answer to a restart that the peer does not take.
  predicate Shuts(w: World, bad: set<Cand>, e: Event) {
    match e
    case GetsOffer(set_, _) =>
      w.reader == Idle && !w.n.offerInFlight && set_ && (exists c :: c in w.n.pendingCandidates && c in bad) &&
      !w.n.remoteDescription
    case GetsAnswer(set_) =>
      w.reader == Idle && w.n.offerInFlight && w.n.offerICERestart && !set_ && w.peer.hasRemote
    case _ => false
  }

  lemma OfferStaysOpen(w: World, bad: set<Cand>, set_: bool, answered: bool)
    requires Open(w)
    ensures Open(OnGetsOffer(w, bad, set_, answered)) <==> !Shuts(w, bad, GetsOffer(set_, answered))
  {
    if w.reader == Idle && !w.n.offerInFlight && set_ {
      if AllTaken(w.n.pendingCandidates, bad) { PassingOpens(w, answered); } else { StoppingOpens(w, bad); }
    }
  }

  lemma PassingOpens(w: World, answered: bool)
    requires !w.n.offerInFlight
    ensures Open(OfferPasses(w, answered))
  {
  }

  lemma StoppingOpens(w: World, bad: set<Cand>)
    requires !w.n.offerInFlight
    ensures Open(OfferStops(w, bad)) <==> w.n.remoteDescription
  {
  }

  lemma AnswerStaysOpen(w: World, bad: set<Cand>, set_: bool)
    requires Open(w)
    ensures Open(OnGetsAnswer(w, bad, set_)) <==> !Shuts(w, bad, GetsAnswer(set_))
  {
  }

  // An offer that cannot be made or enqueued puts back what was there.
  lemma SendingStaysOpen(w: World, restart: bool, created: bool, room: bool)
    requires Open(w)
    ensures Open(OnSendsOffer(w, restart, created, room)) && Open(OnReoffers(w, created, room))
  {
  }

  lemma StepStaysOpen(w: World, bad: set<Cand>, e: Event)
    requires Open(w)
    ensures Open(Next(w, bad, e)) <==> !Shuts(w, bad, e)
  {
    match e
    case GetsOffer(set_, answered) => OfferStaysOpen(w, bad, set_, answered);
    case GetsAnswer(set_) => AnswerStaysOpen(w, bad, set_);
    case SendsOffer(restart, created, room) => SendingStaysOpen(w, restart, created, room);
    case Reoffers(created, room) => SendingStaysOpen(w, false, created, room);
    case _ =>
  }

  predicate AlwaysOpen(w: World, bad: set<Cand>, events: seq<Event>)
    decreases |events|
  {
    Open(w) && (events != [] ==> AlwaysOpen(Next(w, bad, events[0]), bad, events[1..]))
  }

  predicate NeverShuts(w: World, bad: set<Cand>, events: seq<Event>)
    decreases |events|
  {
    events != [] ==> !Shuts(w, bad, events[0]) && NeverShuts(Next(w, bad, events[0]), bad, events[1..])
  }

  lemma {:induction false} OpenExactly(w: World, bad: set<Cand>, events: seq<Event>)
    requires Open(w)
    ensures AlwaysOpen(w, bad, events) <==> NeverShuts(w, bad, events)
    ensures AlwaysOpen(w, bad, events) ==> Open(Run(w, bad, events))
    decreases |events|
  {
    if events != [] {
      StepStaysOpen(w, bad, events[0]);
      if !Shuts(w, bad, events[0]) { OpenExactly(Next(w, bad, events[0]), bad, events[1..]); }
    }
  }

  // Throughout a run candidates go to the peer exactly when they should, if and
  // only if neither failure happens.
  lemma CandidatesFlowExactly(bad: set<Cand>, events: seq<Event>)
    ensures AlwaysOpen(Start, bad, events) <==> NeverShuts(Start, bad, events)
  {
    OpenExactly(Start, bad, events);
  }

  lemma {:induction false} CleanNeverShuts(w: World, bad: set<Cand>, events: seq<Event>)
    requires !Run(w, bad, events).peerFailed && !Run(w, bad, events).refused
    ensures NeverShuts(w, bad, events) && !w.peerFailed && !w.refused
    decreases |events|
  {
    if events != [] {
      CleanNeverShuts(Next(w, bad, events[0]), bad, events[1..]);
      if Shuts(w, bad, events[0]) { ShuttingFails(w, bad, events[0]); }
      if w.peerFailed || w.refused { FailuresStay(w, bad, events[0]); }
    }
  }

  lemma ShuttingFails(w: World, bad: set<Cand>, e: Event)
    requires Shuts(w, bad, e)
    ensures Next(w, bad, e).peerFailed || Next(w, bad, e).refused
  {
  }

  lemma FailuresStay(w: World, bad: set<Cand>, e: Event)
    requires w.peerFailed || w.refused
    ensures Next(w, bad, e).peerFailed || Next(w, bad, e).refused
  {
  }

  // With no peer call refused, none of it has happened.
  lemma RemoteDescriptionFollows(bad: set<Cand>, events: seq<Event>)
    requires !Run(Start, bad, events).peerFailed && !Run(Start, bad, events).refused
    ensures var w := Run(Start, bad, events);
            w.n.remoteDescription <==> w.peer.hasRemote && !(w.n.offerInFlight && w.n.offerICERestart)
  {
    CleanNeverShuts(Start, bad, events);
    OpenExactly(Start, bad, events);
  }

  // With no peer call refused, a candidate that arrives while the read loop is
  // idle is given to the peer if the peer has a remote description and no restart
  // is open, is queued otherwise, and is refused only behind 512 queued ones.
  lemma CandidateGoes(bad: set<Cand>, events: seq<Event>)
    requires var w := Run(Start, bad, events); !w.peerFailed && !w.refused && w.reader == Idle
    ensures var w := Run(Start, bad, events);
            var d := Next(w, bad, GetsCandidate);
            if w.peer.hasRemote && !(w.n.offerInFlight && w.n.offerICERestart)
            then d.handled == w.handled + [w.received] && d.n == w.n && d.received == w.received + 1
            else if |w.n.pendingCandidates| < 512
            then d.handled == w.handled && d.n.pendingCandidates == w.n.pendingCandidates + [w.received] &&
                 d.received == w.received + 1
            else d == w
  {
    RemoteDescriptionFollows(bad, events);
  }

  // A restart whose answer the peer does not take: no offer is in flight any more,
  // and candidates are held back all the same.
  lemma RefusedRestartHoldsBack(bad: set<Cand>)
    ensures var w := Run(Start, bad, Restarted() + [GetsAnswer(false)]);
            var d := Next(w, bad, GetsCandidate);
            && w.reader == Idle && !w.n.offerInFlight && w.peer.hasRemote
            && d.handled == [] && d.n.pendingCandidates == [0]
  {
    RestartsOffer(bad);
    RunThen(Start, bad, Restarted(), GetsAnswer(false));
  }

  function Restarted(): seq<Event> {
    [GetsOffer(true, true), WritesAnswer(true), CompletesAnswer(0), SendsOffer(true, true, true)]
  }

  lemma FirstOfferAnswered(bad: set<Cand>)
    ensures var c := Next(Next(Next(Start, bad, GetsOffer(true, true)), bad, WritesAnswer(true)), bad,
                          CompletesAnswer(0));
            && c.reader == Idle && c.n.negotiationReady && !c.n.offerInFlight && c.n.remoteDescription
            && c.n.pendingCandidates == [] && c.handled == [] && c.received == 0 && !c.n.pendingOffer
            && c.peer.hasRemote
  {
    var b := Next(Next(Start, bad, GetsOffer(true, true)), bad, WritesAnswer(true));
    assert b.reader == Answered && b.n.pendingLocalCandidates == [];
  }

  lemma RestartsOffer(bad: set<Cand>)
    ensures var w := Run(Start, bad, Restarted());
            && w.reader == Idle && w.n.offerInFlight && w.n.offerICERestart && !w.n.remoteDescription
            && w.n.pendingCandidates == [] && w.handled == [] && w.received == 0 && !w.n.pendingOffer
            && w.peer.hasRemote
  {
    FirstOfferAnswered(bad);
    var events := Restarted();
    assert events[..0] == [] && events[..4] == events;
    forall i | 0 <= i < 4
      ensures Run(Start, bad, events[..i + 1]) == Next(Run(Start, bad, events[..i]), bad, events[i])
    {
      assert events[..i + 1] == events[..i] + [events[i]];
      RunThen(Start, bad, events[..i], events[i]);
    }
    OfferGoesOut(Run(Start, bad, events[..3]), bad, true);
  }

  lemma {:induction false} RunThen(w: World, bad: set<Cand>, events: seq<Event>, e: Event)
    ensures Run(w, bad, events + [e]) == Next(Run(w, bad, events), bad, e)
    decreases |events|
  {
    if events == [] {
      assert events + [e] == [e] && [e][1..] == [];
    } else {
      assert (events + [e])[1..] == events[1..] + [e];
      RunThen(Next(w, bad, events[0]), bad, events[1..], e);
    }
  }

  // -- Answering the browser -------------------------------------------------------------

  // What other callers do while the read loop is between two holds.
  predicate Others(events: seq<Event>) {
    forall i :: 0 <= i < |events| ==> events[i].SendsOffer? || events[i].Gathers?
  }

  predicate Unready(w: World, d: World) {
    && d.reader == w.reader && !d.n.negotiationReady && d.n.sent == w.n.sent
    && d.n.offerInFlight == w.n.offerInFlight && d.n.remoteDescription == w.n.remoteDescription && d.peer == w.peer
    && d.n.pendingCandidates == w.n.pendingCandidates && d.handled == w.handled
  }

  lemma {:induction false} OthersWait(w: World, bad: set<Cand>, events: seq<Event>)
    requires Others(events) && !w.n.negotiationReady
    ensures Unready(w, Run(w, bad, events))
    decreases |events|
  {
    if events != [] {
      OtherWaits(w, bad, events[0]);
      OthersWait(Next(w, bad, events[0]), bad, events[1..]);
      UnreadyStays(w, Next(w, bad, events[0]), Run(w, bad, events));
    }
  }

  lemma OtherWaits(w: World, bad: set<Cand>, e: Event)
    requires (e.SendsOffer? || e.Gathers?) && !w.n.negotiationReady
    ensures Unready(w, Next(w, bad, e))
  {
  }

  lemma UnreadyStays(w: World, a: World, b: World)
    requires Unready(w, a) && Unready(a, b)
    ensures Unready(w, b)
  {
  }

  lemma OfferIsTaken(w: World, bad: set<Cand>)
    requires w.reader == Idle && !w.n.offerInFlight && (forall c :: c in w.n.pendingCandidates ==> c !in bad)
    ensures var d := Next(w, bad, GetsOffer(true, true));
            && d.reader == Answering && !d.n.negotiationReady && !d.n.offerInFlight && d.n.remoteDescription
            && d.n.sent == w.n.sent && d.n.pendingCandidates == [] && d.handled == w.handled + w.n.pendingCandidates
            && d.peer.state == Stable && d.peer.hasRemote
  {
  }

  // A browser's offer that meets no offer of the server, and that the peer takes
  // and answers, gives the peer the queued candidates and is answered before
  // anything else goes out; the server may then offer again.
  lemma OfferIsAnswered(w: World, bad: set<Cand>, x: seq<Event>, y: seq<Event>, slots: nat)
    requires w.reader == Idle && !w.n.offerInFlight && (forall c :: c in w.n.pendingCandidates ==> c !in bad)
    requires Others(x) && Others(y)
    ensures var a := Run(Next(w, bad, GetsOffer(true, true)), bad, x);
            var b := Run(Next(a, bad, WritesAnswer(true)), bad, y);
            var d := Next(b, bad, CompletesAnswer(slots));
            && w.n.sent + [AnswerMsg] <= d.n.sent && d.n.negotiationReady && !d.n.offerInFlight
            && d.handled == w.handled + w.n.pendingCandidates && d.n.pendingCandidates == []
            && d.n.remoteDescription && d.peer.state == Stable && d.peer.hasRemote
            && (b.n.pendingOffer <==> d.reader.Reoffering?) && (!b.n.pendingOffer <==> d.reader == Idle)
  {
    OfferIsTaken(w, bad);
    var o := Next(w, bad, GetsOffer(true, true));
    OthersWait(o, bad, x);
    var a := Run(o, bad, x);
    var s := Next(a, bad, WritesAnswer(true));
    assert s.reader == Answered && s.n.sent == w.n.sent + [AnswerMsg];
    OthersWait(s, bad, y);
    AnswerCompletes(Run(s, bad, y), bad, slots);
  }

  lemma AnswerCompletes(b: World, bad: set<Cand>, slots: nat)
    requires b.reader == Answered
    ensures var d := Next(b, bad, CompletesAnswer(slots));
            && b.n.sent <= d.n.sent && d.n.negotiationReady && d.n.offerInFlight == b.n.offerInFlight
            && d.handled == b.handled && d.n.pendingCandidates == b.n.pendingCandidates
            && d.n.remoteDescription == b.n.remoteDescription && d.peer == b.peer
            && (b.n.pendingOffer <==> d.reader.Reoffering?) && (!b.n.pendingOffer <==> d.reader == Idle)
  {
  }

  // One that meets an offer of the server is passed over.
  lemma CollisionIsIgnored(w: World, bad: set<Cand>, set_: bool, answered: bool)
    requires w.n.offerInFlight
    ensures Next(w, bad, GetsOffer(set_, answered)) == w
  {
  }

  // -- Ending an offer ----------------------------------------------------------------------

  // Any answer to an offer in flight ends it, taken by the peer or not; the calls
  // merged behind it are taken up, with a restart if one of them asked.
  lemma AnswerEndsOffer(w: World, bad: set<Cand>, set_: bool)
    requires w.reader == Idle && w.n.offerInFlight
    ensures var d := Next(w, bad, GetsAnswer(set_));
            && !d.n.offerInFlight && d.n.negotiationReady == w.n.negotiationReady && d.n.sent == w.n.sent
            && !d.n.pendingOffer && !d.n.pendingICERestart
            && d.reader == (if w.n.pendingOffer then Reoffering(w.n.pendingICERestart) else Idle)
            && (set_ ==> d.n.remoteDescription && d.peer.state == Stable)
  {
  }

  // A ready client with nothing in flight sends what it is asked for at once; a
  // restart holds remote candidates back until its answer.
  lemma OfferGoesOut(w: World, bad: set<Cand>, restart: bool)
    requires w.n.negotiationReady && !w.n.offerInFlight
    ensures var d := Next(w, bad, SendsOffer(restart, true, true));
            && d.n.offerInFlight && d.n.sent == w.n.sent + [OfferMsg] && d.peer.state == HaveLocalOffer
            && (d.n.remoteDescription <==> w.n.remoteDescription && !restart)
            && (d.n.offerICERestart <==> restart)
  {
  }
}
