/** One client's negotiation over every interleaving of its read loop, the
    router's requests to renegotiate and the peer's own candidates, with any
    peer call refused and any write failing. */
module NegotiationRuns {
  import opened Negotiation

  // Where the client's read loop is; the other callers hold nothing between locks.
  datatype Reader = Idle | Answering | Answered | Reoffering(restart: bool)

  // The peer connection's signaling states (section 3.2 of RFC 8829).
  datatype Jsep = Stable | HaveLocalOffer | HaveRemoteOffer

  // `illegal`: an offer or answer was given to the peer in a state that does not
  // take it.  `early`: a candidate was given to it before any remote description.
  datatype Peer = Peer(state: Jsep, hasRemote: bool, illegal: bool, early: bool)

  // What became of each call to sendOffer.
  datatype Place = Waiting | Carried | Dropped | CoveredBy(offer: nat)

  // An offer sent when `after` calls had been made.
  datatype Offer = Offer(restart: bool, after: nat)

  datatype Calls = Calls(asked: seq<bool>, place: seq<Place>, offers: seq<Offer>)

  datatype World = World(
    n: Neg,
    reader: Reader,
    peer: Peer,
    calls: Calls,
    gathered: Cand,             // local candidates 0..gathered exist
    received: Cand,             // remote candidates 0..received were accepted
    handled: seq<Cand>,         // AddICECandidate calls, in order
    accepted: seq<nat>,         // how much had been sent when each answer was made
    writeFailed: bool,
    peerFailed: bool,
    refused: bool)

  const Start :=
    World(Fresh, Idle, Peer(Stable, false, false, false), Calls([], [], []), 0, 0, [], [], false, false, false)

  datatype Event =
    | SendsOffer(restart: bool, created: bool, room: bool)
    | GetsOffer(set_: bool, answered: bool)
    | WritesAnswer(room: bool)
    | CompletesAnswer(slots: nat)
    | Reoffers(created: bool, room: bool)
    | GetsAnswer(set_: bool)
    | GetsCandidate
    | Gathers(room: bool)

  function Move(place: seq<Place>, from: Place, to: Place): seq<Place> {
    seq(|place|, k requires 0 <= k < |place| => if place[k] == from then to else place[k])
  }

  // Where a call lands: the peer was asked for an offer, or it has to wait.
  function Landing(w: World, created: bool, room: bool): Place {
    if !OffersNow(w.n) then Waiting
    else if created && room then CoveredBy(|w.calls.offers|)
    else Dropped
  }

  function OffersAfter(w: World, restart: bool, created: bool, room: bool): seq<Offer> {
    if Landing(w, created, room).CoveredBy? then w.calls.offers + [Offer(restart, |w.calls.asked|)] else w.calls.offers
  }

  function PeerOffers(w: World, created: bool): Peer {
    if OffersNow(w.n) && created
    then w.peer.(state := HaveLocalOffer, illegal := w.peer.illegal || w.peer.state == HaveRemoteOffer)
    else w.peer
  }

  function Offering(w: World, restart: bool, created: bool, room: bool): World {
    w.(n := SendOffer(w.n, restart, created, room), peer := PeerOffers(w, created),
       peerFailed := w.peerFailed || (OffersNow(w.n) && !created),
       writeFailed := w.writeFailed || (OffersNow(w.n) && created && !room))
  }

  function OnSendsOffer(w: World, restart: bool, created: bool, room: bool): World {
    var asked := w.(calls := w.calls.(asked := w.calls.asked + [restart]));
    Offering(w, restart, created, room).(
      calls := Calls(w.calls.asked + [restart], w.calls.place + [Landing(w, created, room)],
                     OffersAfter(asked, restart, created, room)))
  }

  function OnReoffers(w: World, created: bool, room: bool): World {
    if !w.reader.Reoffering? then w
    else
      Offering(w, w.reader.restart, created, room).(
        reader := Idle,
        calls := w.calls.(place := Move(w.calls.place, Carried, Landing(w, created, room)),
                          offers := OffersAfter(w, w.reader.restart, created, room)))
  }

  function PeerAnswers(w: World, answered: bool): Peer {
    w.peer.(state := if answered then Stable else HaveRemoteOffer, hasRemote := true,
            illegal := w.peer.illegal || w.peer.state == HaveLocalOffer)
  }

  // The peer took the offer but refused a queued candidate.
  function OfferStops(w: World, bad: set<Cand>): World {
    var pending := w.n.pendingCandidates;
    w.(n := WithPendingApplied(w.n, bad), handled := w.handled + pending[..Taken(pending, bad)],
       peer := PeerAnswers(w, false), refused := true)
  }

  function OfferPasses(w: World, answered: bool): World {
    var n := w.n.(pendingCandidates := [], remoteDescription := true,
                  negotiationReady := w.n.negotiationReady && !answered);
    w.(n := n, handled := w.handled + w.n.pendingCandidates, peer := PeerAnswers(w, answered),
       peerFailed := w.peerFailed || !answered,
       reader := if answered then Answering else w.reader,
       accepted := if answered then w.accepted + [|w.n.sent|] else w.accepted)
  }

  function OnGetsOffer(w: World, bad: set<Cand>, set_: bool, answered: bool): World {
    if w.reader != Idle || w.n.offerInFlight then w
    else if !set_ then w.(peerFailed := true)
    else if !AllTaken(w.n.pendingCandidates, bad) then OfferStops(w, bad)
    else OfferPasses(w, answered)
  }

  function OnWritesAnswer(w: World, room: bool): World {
    if w.reader != Answering then w
    else if room then w.(n := w.n.(sent := w.n.sent + [AnswerMsg]), reader := Answered)
    else w.(reader := Idle, writeFailed := true)
  }

  function Resuming(w: World): World {
    if w.n.pendingOffer
    then w.(reader := Reoffering(w.n.pendingICERestart),
            calls := w.calls.(place := Move(w.calls.place, Waiting, Carried)))
    else w.(reader := Idle)
  }

  function OnCompletesAnswer(w: World, slots: nat): World {
    if w.reader != Answered then w
    else
      Resuming(w).(n := FinishAnswer(w.n, slots),
                   writeFailed := w.writeFailed || slots < |w.n.pendingLocalCandidates|)
  }

  function OnGetsAnswer(w: World, bad: set<Cand>, set_: bool): World {
    if w.reader != Idle || !w.n.offerInFlight then w
    else
      var pending := w.n.pendingCandidates;
      var d := Resuming(w).(n := AcceptAnswer(w.n, bad, set_));
      if !set_ then d.(peerFailed := true)
      else d.(handled := w.handled + pending[..Taken(pending, bad)],
              refused := w.refused || !AllTaken(pending, bad),
              peer := w.peer.(state := Stable, hasRemote := true,
                              illegal := w.peer.illegal || w.peer.state != HaveLocalOffer))
  }

  function CandidateGiven(w: World, bad: set<Cand>): World {
    w.(handled := w.handled + [w.received], received := w.received + 1, refused := w.refused || w.received in bad,
       peer := w.peer.(early := w.peer.early || !w.peer.hasRemote))
  }

  function CandidateKept(w: World): World {
    w.(n := TakeCandidate(w.n, w.received), received := w.received + 1)
  }

  function OnGetsCandidate(w: World, bad: set<Cand>): World {
    if w.reader != Idle then w
    else if w.n.remoteDescription then CandidateGiven(w, bad)
    else if |w.n.pendingCandidates| >= MAX_PENDING_CANDIDATES then w
    else CandidateKept(w)
  }

  function OnGathers(w: World, room: bool): World {
    w.(n := GatherCandidate(w.n, w.gathered, room), gathered := w.gathered + 1,
       writeFailed := w.writeFailed || (w.n.negotiationReady && !room))
  }

  function Next(w: World, bad: set<Cand>, e: Event): World {
    match e
    case SendsOffer(restart, created, room) => OnSendsOffer(w, restart, created, room)
    case GetsOffer(set_, answered) => OnGetsOffer(w, bad, set_, answered)
    case WritesAnswer(room) => OnWritesAnswer(w, room)
    case CompletesAnswer(slots) => OnCompletesAnswer(w, slots)
    case Reoffers(created, room) => OnReoffers(w, created, room)
    case GetsAnswer(set_) => OnGetsAnswer(w, bad, set_)
    case GetsCandidate => OnGetsCandidate(w, bad)
    case Gathers(room) => OnGathers(w, room)
  }

  function Run(w: World, bad: set<Cand>, events: seq<Event>): World
    decreases |events|
  {
    if events == [] then w else Run(Next(w, bad, events[0]), bad, events[1..])
  }

  // What the client's methods do, event by event: an event of the read loop that
  // finds it elsewhere changes nothing.
  function Region(w: World, bad: set<Cand>, e: Event): Neg {
    match e
    case SendsOffer(restart, created, room) => SendOffer(w.n, restart, created, room)
    case GetsOffer(set_, answered) => if w.reader == Idle then AcceptOffer(w.n, bad, set_, answered) else w.n
    case WritesAnswer(room) => if w.reader == Answering && room then w.n.(sent := w.n.sent + [AnswerMsg]) else w.n
    case CompletesAnswer(slots) => if w.reader == Answered then FinishAnswer(w.n, slots) else w.n
    case Reoffers(created, room) =>
      if w.reader.Reoffering? then SendOffer(w.n, w.reader.restart, created, room) else w.n
    case GetsAnswer(set_) => if w.reader == Idle then AcceptAnswer(w.n, bad, set_) else w.n
    case GetsCandidate => if w.reader == Idle then TakeCandidate(w.n, w.received) else w.n
    case Gathers(room) => GatherCandidate(w.n, w.gathered, room)
  }

  // Every step does to the negotiation what the method of its lock region does.
  lemma StepIsRegion(w: World, bad: set<Cand>, e: Event)
    ensures Next(w, bad, e).n == Region(w, bad, e)
  {
    match e
    case GetsOffer(set_, answered) => OfferIsRegion(w, bad, set_, answered);
    case GetsAnswer(set_) => AnswerIsRegion(w, bad, set_);
    case _ =>
  }

  lemma OfferIsRegion(w: World, bad: set<Cand>, set_: bool, answered: bool)
    ensures OnGetsOffer(w, bad, set_, answered).n == if w.reader == Idle
            then AcceptOffer(w.n, bad, set_, answered) else w.n
  {
  }

  lemma AnswerIsRegion(w: World, bad: set<Cand>, set_: bool)
    ensures OnGetsAnswer(w, bad, set_).n == if w.reader == Idle then AcceptAnswer(w.n, bad, set_) else w.n
  {
  }

  // -- Invariants --------------------------------------------------------------------

  predicate Flags(w: World) {
    && (w.n.offerInFlight ==> w.n.negotiationReady)
    && (w.n.pendingOffer ==> w.n.offerInFlight || !w.n.negotiationReady)
    && (w.n.pendingICERestart ==> w.n.pendingOffer)
    && (w.reader.Answering? || w.reader.Answered? ==> !w.n.negotiationReady)
    && (w.n.offerInFlight && w.n.offerICERestart ==> !w.n.remoteDescription)
  }

  // Every call waits in the queue, is carried by the read loop, was refused to
  // its caller, or is covered by an offer made after it; and an offer restarts
  // ICE exactly when one of the calls it covers asked for that.
  predicate Waits(w: World) {
    && |w.calls.place| == |w.calls.asked|
    && (forall k :: 0 <= k < |w.calls.place| && w.calls.place[k].Waiting? ==>
          w.n.pendingOffer && (w.calls.asked[k] ==> w.n.pendingICERestart))
    && (forall k :: 0 <= k < |w.calls.place| && w.calls.place[k].Carried? ==>
          w.reader.Reoffering? && (w.calls.asked[k] ==> w.reader.restart))
  }

  predicate Covered(w: World) {
    forall k :: 0 <= k < |w.calls.place| && w.calls.place[k].CoveredBy? ==>
      var i := w.calls.place[k].offer;
      i < |w.calls.offers| && k < w.calls.offers[i].after && k < |w.calls.asked| &&
        (w.calls.asked[k] ==> w.calls.offers[i].restart)
  }

  predicate Asked(calls: Calls, at: Place) {
    exists k :: 0 <= k < |calls.place| && k < |calls.asked| && calls.place[k] == at && calls.asked[k]
  }

  predicate Justified(w: World) {
    && (w.n.pendingICERestart ==> Asked(w.calls, Waiting))
    && (w.reader.Reoffering? && w.reader.restart ==> Asked(w.calls, Carried))
    && (forall i: nat :: i < |w.calls.offers| && w.calls.offers[i].restart ==> Asked(w.calls, CoveredBy(i)))
  }

  // With no failure so far, the peer has a local offer exactly while one is in
  // flight, and was never given a description it could not take.
  predicate Clean(w: World) {
    !w.writeFailed && !w.peerFailed && !w.refused
  }

  predicate Agreed(w: World) {
    && (Clean(w) ==> !w.peer.illegal && w.peer.state == if w.n.offerInFlight then HaveLocalOffer else Stable)
    && !w.peer.early && (w.n.remoteDescription ==> w.peer.hasRemote)
    && (Clean(w) ==> forall k :: 0 <= k < |w.calls.place| ==> w.calls.place[k] != Dropped)
  }

  function LocalSent(sent: seq<Wire>): seq<Cand> {
    if sent == [] then []
    else
      var last := sent[|sent| - 1];
      LocalSent(sent[..|sent| - 1]) + if last.CandidateMsg? then [last.c] else []
  }

  function FirstN(n: nat): seq<Cand> {
    seq(n, i => i)
  }

  // Local candidates go out once each, in the order they were gathered.
  predicate LocalInOrder(w: World) {
    !w.writeFailed ==>
      && LocalSent(w.n.sent) + w.n.pendingLocalCandidates == FirstN(w.gathered)
      && (w.n.negotiationReady ==> w.n.pendingLocalCandidates == [])
  }

  // Nothing is enqueued between making an answer and enqueueing an answer.
  predicate Quiet(w: World) {
    && (forall i :: 0 <= i < |w.accepted| ==> w.accepted[i] <= |w.n.sent|)
    && (forall i :: 0 <= i < |w.accepted| && w.accepted[i] < |w.n.sent| ==> w.n.sent[w.accepted[i]] == AnswerMsg)
    && (w.n.negotiationReady || w.reader.Answered? ==> forall i :: 0 <= i < |w.accepted| ==> w.accepted[i] < |w.n.sent|)
  }

  // Each accepted remote candidate is still queued or was given to the peer, once.
  ghost predicate RemoteOnce(w: World) {
    var all := w.handled + w.n.pendingCandidates;
    && |w.n.pendingCandidates| <= MAX_PENDING_CANDIDATES
    && Distinct(all)
    && (forall c: Cand :: c in all <==> c < w.received)
  }

  predicate RemoteInOrder(w: World) {
    !w.refused ==>
      && w.handled + w.n.pendingCandidates == FirstN(w.received)
      && (w.n.remoteDescription ==> w.n.pendingCandidates == [])
  }

  predicate Negotiates(w: World) {
    Flags(w) && Waits(w) && Covered(w) && Agreed(w) && Quiet(w)
  }

  ghost predicate Conserves(w: World) {
    LocalInOrder(w) && RemoteInOrder(w) && RemoteOnce(w)
  }

  ghost predicate Inv(w: World) {
    Negotiates(w) && Justified(w) && Conserves(w)
  }

  lemma LocalSentMore(sent: seq<Wire>, candidates: seq<Cand>)
    ensures LocalSent(sent + Messages(candidates)) == LocalSent(sent) + candidates
    decreases |candidates|
  {
    if candidates == [] {
      assert sent + Messages(candidates) == sent;
    } else {
      var front := candidates[..|candidates| - 1];
      LocalSentMore(sent, front);
      assert (sent + Messages(candidates))[..|sent| + |front|] == sent + Messages(front);
      assert LocalSent(sent) + candidates == LocalSent(sent) + front + [candidates[|front|]];
    }
  }

  lemma FirstNMore(n: nat)
    ensures FirstN(n + 1) == FirstN(n) + [n]
  {
  }

  predicate Distinct(s: seq<Cand>) {
    forall i, j :: 0 <= i < j < |s| ==> s[i] != s[j]
  }

  lemma DistinctInserted(a: seq<Cand>, b: seq<Cand>, c: Cand)
    requires Distinct(a + b) && c !in a + b
    ensures Distinct(a + [c] + b)
    ensures forall x :: x in a + [c] + b <==> x in a + b || x == c
  {
    var all, more := a + b, a + [c] + b;
    forall i, j | 0 <= i < j < |more| ensures more[i] != more[j] {
      var i', j' := if i > |a| then i - 1 else i, if j > |a| then j - 1 else j;
      assert i != |a| ==> more[i] == all[i'] && more[i] in all;
      assert j != |a| ==> more[j] == all[j'] && more[j] in all;
    }
    forall x ensures x in more <==> x in all || x == c {}
  }

  lemma Regrouped(a: seq<Cand>, b: seq<Cand>, k: nat)
    requires k <= |b|
    ensures (a + b[..k]) + b[k..] == a + b
  {
    assert b[..k] + b[k..] == b;
  }

  lemma SendsOfferKeepsPlaces(w: World, restart: bool, created: bool, room: bool)
    requires Flags(w) && Waits(w) && Covered(w)
    ensures Flags(OnSendsOffer(w, restart, created, room)) && Waits(OnSendsOffer(w, restart, created, room))
    ensures Covered(OnSendsOffer(w, restart, created, room))
  {
  }

  lemma SendsOfferKeepsOrder(w: World, restart: bool, created: bool, room: bool)
    requires Flags(w) && Agreed(w) && Quiet(w)
    ensures Agreed(OnSendsOffer(w, restart, created, room)) && Quiet(OnSendsOffer(w, restart, created, room))
  {
  }

  lemma SendsOfferKeepsCalls(w: World, restart: bool, created: bool, room: bool)
    requires Negotiates(w)
    ensures Negotiates(OnSendsOffer(w, restart, created, room))
  {
    SendsOfferKeepsPlaces(w, restart, created, room);
    SendsOfferKeepsOrder(w, restart, created, room);
  }

  lemma OfferStopsKeepsCalls(w: World, bad: set<Cand>)
    requires Negotiates(w) && w.reader == Idle && !w.n.offerInFlight
    ensures Negotiates(OfferStops(w, bad))
  {
  }

  lemma OfferPassesKeepsCalls(w: World, answered: bool)
    requires Negotiates(w) && w.reader == Idle && !w.n.offerInFlight
    ensures Negotiates(OfferPasses(w, answered))
  {
  }

  lemma WritesAnswerKeepsCalls(w: World, room: bool)
    requires Negotiates(w) && w.reader == Answering
    ensures Negotiates(OnWritesAnswer(w, room))
  {
  }

  lemma CompletesAnswerKeepsPlaces(w: World, slots: nat)
    requires Flags(w) && Waits(w) && Covered(w) && w.reader == Answered
    ensures Flags(OnCompletesAnswer(w, slots)) && Waits(OnCompletesAnswer(w, slots))
    ensures Covered(OnCompletesAnswer(w, slots))
  {
  }

  lemma CompletesAnswerKeepsOrder(w: World, slots: nat)
    requires Flags(w) && Agreed(w) && Quiet(w) && w.reader == Answered
    ensures Agreed(OnCompletesAnswer(w, slots)) && Quiet(OnCompletesAnswer(w, slots))
  {
  }

  lemma CompletesAnswerKeepsCalls(w: World, slots: nat)
    requires Negotiates(w) && w.reader == Answered
    ensures Negotiates(OnCompletesAnswer(w, slots))
  {
    CompletesAnswerKeepsPlaces(w, slots);
    CompletesAnswerKeepsOrder(w, slots);
  }

  lemma ReoffersKeepsCalls(w: World, created: bool, room: bool)
    requires Negotiates(w) && w.reader.Reoffering?
    ensures Negotiates(OnReoffers(w, created, room))
  {
  }

  lemma GetsAnswerKeepsPlaces(w: World, bad: set<Cand>, set_: bool)
    requires Flags(w) && Waits(w) && Covered(w) && w.reader == Idle && w.n.offerInFlight
    ensures Flags(OnGetsAnswer(w, bad, set_)) && Waits(OnGetsAnswer(w, bad, set_))
    ensures Covered(OnGetsAnswer(w, bad, set_))
  {
  }

  lemma GetsAnswerKeepsOrder(w: World, bad: set<Cand>, set_: bool)
    requires Flags(w) && Agreed(w) && Quiet(w) && w.reader == Idle && w.n.offerInFlight
    ensures Agreed(OnGetsAnswer(w, bad, set_)) && Quiet(OnGetsAnswer(w, bad, set_))
  {
  }

  lemma GetsAnswerKeepsCalls(w: World, bad: set<Cand>, set_: bool)
    requires Negotiates(w) && w.reader == Idle && w.n.offerInFlight
    ensures Negotiates(OnGetsAnswer(w, bad, set_))
  {
    GetsAnswerKeepsPlaces(w, bad, set_);
    GetsAnswerKeepsOrder(w, bad, set_);
  }

  lemma CandidateGivenKeepsCalls(w: World, bad: set<Cand>)
    requires Negotiates(w) && w.reader == Idle && w.n.remoteDescription
    ensures Negotiates(CandidateGiven(w, bad))
  {
  }

  lemma CandidateKeptKeepsCalls(w: World)
    requires Negotiates(w) && w.reader == Idle && !w.n.remoteDescription &&
             |w.n.pendingCandidates| < MAX_PENDING_CANDIDATES
    ensures Negotiates(CandidateKept(w))
  {
  }

  lemma GathersKeepsCalls(w: World, room: bool)
    requires Negotiates(w)
    ensures Negotiates(OnGathers(w, room))
  {
  }

  lemma SendsOfferKeepsCandidates(w: World, restart: bool, created: bool, room: bool)
    requires Flags(w) && Conserves(w)
    ensures Conserves(OnSendsOffer(w, restart, created, room))
  {
  }

  lemma OfferStopsKeepsCandidates(w: World, bad: set<Cand>)
    requires Flags(w) && Conserves(w) && w.reader == Idle && !w.n.offerInFlight
    ensures Conserves(OfferStops(w, bad))
  {
    Regrouped(w.handled, w.n.pendingCandidates, Taken(w.n.pendingCandidates, bad));
  }

  lemma OfferPassesKeepsCandidates(w: World, answered: bool)
    requires Flags(w) && Conserves(w) && w.reader == Idle && !w.n.offerInFlight
    ensures Conserves(OfferPasses(w, answered))
  {
    Regrouped(w.handled, w.n.pendingCandidates, |w.n.pendingCandidates|);
  }

  lemma WritesAnswerKeepsCandidates(w: World, room: bool)
    requires Flags(w) && Conserves(w) && w.reader == Answering
    ensures Conserves(OnWritesAnswer(w, room))
  {
  }

  lemma CompletesAnswerKeepsCandidates(w: World, slots: nat)
    requires Flags(w) && Conserves(w) && w.reader == Answered
    ensures Conserves(OnCompletesAnswer(w, slots))
  {
    if slots >= |w.n.pendingLocalCandidates| {
      LocalSentMore(w.n.sent, w.n.pendingLocalCandidates);
      assert w.n.pendingLocalCandidates[..|w.n.pendingLocalCandidates|] == w.n.pendingLocalCandidates;
    }
  }

  lemma ReoffersKeepsCandidates(w: World, created: bool, room: bool)
    requires Flags(w) && Conserves(w) && w.reader.Reoffering?
    ensures Conserves(OnReoffers(w, created, room))
  {
  }

  lemma AnswerTakenKeepsCandidates(w: World, bad: set<Cand>)
    requires Flags(w) && Conserves(w) && w.reader == Idle && w.n.offerInFlight
    ensures var d := OnGetsAnswer(w, bad, true); Conserves(d)
  {
    Regrouped(w.handled, w.n.pendingCandidates, Taken(w.n.pendingCandidates, bad));
    TakenAll(w.n.pendingCandidates, bad);
  }

  lemma GetsAnswerKeepsCandidates(w: World, bad: set<Cand>, set_: bool)
    requires Flags(w) && Conserves(w) && w.reader == Idle && w.n.offerInFlight
    ensures var d := OnGetsAnswer(w, bad, set_); Conserves(d)
  {
    if set_ { AnswerTakenKeepsCandidates(w, bad); }
  }

  lemma CandidateGivenKeepsCandidates(w: World, bad: set<Cand>)
    requires Flags(w) && Conserves(w) && w.reader == Idle && w.n.remoteDescription
    ensures Conserves(CandidateGiven(w, bad))
  {
    FirstNMore(w.received);
    DistinctInserted(w.handled, w.n.pendingCandidates, w.received);
  }

  lemma CandidateKeptKeepsCandidates(w: World)
    requires Flags(w) && Conserves(w) && w.reader == Idle && !w.n.remoteDescription &&
             |w.n.pendingCandidates| < MAX_PENDING_CANDIDATES
    ensures Conserves(CandidateKept(w))
  {
    FirstNMore(w.received);
    DistinctInserted(w.handled + w.n.pendingCandidates, [], w.received);
    assert w.handled + (w.n.pendingCandidates + [w.received]) == w.handled + w.n.pendingCandidates + [w.received] + [];
    assert w.handled + w.n.pendingCandidates + [] == w.handled + w.n.pendingCandidates;
  }

  lemma GathersKeepsCandidates(w: World, room: bool)
    requires Flags(w) && Conserves(w)
    ensures Conserves(OnGathers(w, room))
  {
    FirstNMore(w.gathered);
  }

  lemma AskedMoves(calls: Calls, d: Calls, from: Place, to: Place)
    requires d.asked == calls.asked && d.place == Move(calls.place, from, to)
    ensures forall at :: Asked(calls, at) ==> Asked(d, if at == from then to else at)
  {
    forall at | Asked(calls, at) ensures Asked(d, if at == from then to else at) {
      var k :| 0 <= k < |calls.place| && k < |calls.asked| && calls.place[k] == at && calls.asked[k];
      assert d.place[k] == if at == from then to else at;
    }
  }

  lemma AskedGrows(calls: Calls, d: Calls, restart: bool, at: Place)
    requires |calls.place| == |calls.asked|
    requires d.asked == calls.asked + [restart] && d.place == calls.place + [at]
    ensures forall x :: Asked(calls, x) ==> Asked(d, x)
    ensures restart ==> Asked(d, at)
  {
    forall x | Asked(calls, x) ensures Asked(d, x) {
      var k :| 0 <= k < |calls.place| && k < |calls.asked| && calls.place[k] == x && calls.asked[k];
      assert d.place[k] == x && d.asked[k];
    }
    assert d.place[|calls.place|] == at;
  }

  lemma SendsOfferKeepsJustified(w: World, restart: bool, created: bool, room: bool)
    requires Waits(w) && Justified(w)
    ensures Justified(OnSendsOffer(w, restart, created, room))
  {
    AskedGrows(w.calls, OnSendsOffer(w, restart, created, room).calls, restart, Landing(w, created, room));
  }

  lemma ReoffersKeepsJustified(w: World, created: bool, room: bool)
    requires Waits(w) && Justified(w) && w.reader.Reoffering?
    ensures Justified(OnReoffers(w, created, room))
  {
    AskedMoves(w.calls, OnReoffers(w, created, room).calls, Carried, Landing(w, created, room));
  }

  lemma ResumingKeepsJustified(w: World, d: World)
    requires Flags(w) && Justified(w) && !w.reader.Reoffering?
    requires d.calls == Resuming(w).calls && d.reader == Resuming(w).reader && !d.n.pendingICERestart
    ensures Justified(d)
  {
    if w.n.pendingOffer { AskedMoves(w.calls, d.calls, Waiting, Carried); }
  }

  lemma JustifiedStays(w: World, d: World)
    requires Justified(w) && d.calls == w.calls && d.n.pendingICERestart == w.n.pendingICERestart
    requires d.reader.Reoffering? ==> d.reader == w.reader
    ensures Justified(d)
  {
  }

  lemma SendsOfferKeepsInv(w: World, restart: bool, created: bool, room: bool)
    requires Inv(w)
    ensures Inv(OnSendsOffer(w, restart, created, room))
  {
    SendsOfferKeepsCalls(w, restart, created, room);
    SendsOfferKeepsCandidates(w, restart, created, room);
    SendsOfferKeepsJustified(w, restart, created, room);
  }

  lemma ReoffersKeepsInv(w: World, created: bool, room: bool)
    requires Inv(w)
    ensures Inv(OnReoffers(w, created, room))
  {
    if w.reader.Reoffering? {
      ReoffersKeepsCalls(w, created, room);
      ReoffersKeepsCandidates(w, created, room);
      ReoffersKeepsJustified(w, created, room);
    }
  }

  lemma OfferPassesKeepsInv(w: World, answered: bool)
    requires Inv(w) && w.reader == Idle && !w.n.offerInFlight
    ensures Inv(OfferPasses(w, answered))
  {
    OfferPassesKeepsCalls(w, answered);
    OfferPassesKeepsCandidates(w, answered);
    JustifiedStays(w, OfferPasses(w, answered));
  }

  lemma OfferStopsKeepsInv(w: World, bad: set<Cand>)
    requires Inv(w) && w.reader == Idle && !w.n.offerInFlight
    ensures Inv(OfferStops(w, bad))
  {
    OfferStopsKeepsCalls(w, bad);
    OfferStopsKeepsCandidates(w, bad);
    JustifiedStays(w, OfferStops(w, bad));
  }

  lemma GetsOfferKeepsInv(w: World, bad: set<Cand>, set_: bool, answered: bool)
    requires Inv(w)
    ensures Inv(OnGetsOffer(w, bad, set_, answered))
  {
    if w.reader == Idle && !w.n.offerInFlight {
      if !set_ {
        JustifiedStays(w, w.(peerFailed := true));
      } else if !AllTaken(w.n.pendingCandidates, bad) {
        OfferStopsKeepsInv(w, bad);
      } else {
        OfferPassesKeepsInv(w, answered);
      }
    }
  }

  lemma WritesAnswerKeepsInv(w: World, room: bool)
    requires Inv(w)
    ensures Inv(OnWritesAnswer(w, room))
  {
    if w.reader == Answering {
      WritesAnswerKeepsCalls(w, room);
      WritesAnswerKeepsCandidates(w, room);
      JustifiedStays(w, OnWritesAnswer(w, room));
    }
  }

  lemma CompletesAnswerKeepsInv(w: World, slots: nat)
    requires Inv(w)
    ensures Inv(OnCompletesAnswer(w, slots))
  {
    if w.reader == Answered {
      CompletesAnswerKeepsCalls(w, slots);
      CompletesAnswerKeepsCandidates(w, slots);
      ResumingKeepsJustified(w, OnCompletesAnswer(w, slots));
    }
  }

  lemma GetsAnswerKeepsInv(w: World, bad: set<Cand>, set_: bool)
    requires Inv(w)
    ensures Inv(OnGetsAnswer(w, bad, set_))
  {
    if w.reader == Idle && w.n.offerInFlight {
      GetsAnswerKeepsCalls(w, bad, set_);
      GetsAnswerKeepsCandidates(w, bad, set_);
      ResumingKeepsJustified(w, OnGetsAnswer(w, bad, set_));
    }
  }

  lemma GetsCandidateKeepsInv(w: World, bad: set<Cand>)
    requires Inv(w)
    ensures Inv(OnGetsCandidate(w, bad))
  {
    if w.reader == Idle && w.n.remoteDescription {
      CandidateGivenKeepsCalls(w, bad);
      CandidateGivenKeepsCandidates(w, bad);
      JustifiedStays(w, CandidateGiven(w, bad));
    } else if w.reader == Idle && |w.n.pendingCandidates| < MAX_PENDING_CANDIDATES {
      CandidateKeptKeepsCalls(w);
      CandidateKeptKeepsCandidates(w);
      JustifiedStays(w, CandidateKept(w));
    }
  }

  lemma GathersKeepsInv(w: World, room: bool)
    requires Inv(w)
    ensures Inv(OnGathers(w, room))
  {
    GathersKeepsCalls(w, room);
    GathersKeepsCandidates(w, room);
    JustifiedStays(w, OnGathers(w, room));
  }

  lemma NextKeepsInv(w: World, bad: set<Cand>, e: Event)
    requires Inv(w)
    ensures Inv(Next(w, bad, e))
  {
    match e
    case SendsOffer(restart, created, room) => SendsOfferKeepsInv(w, restart, created, room);
    case GetsOffer(set_, answered) => GetsOfferKeepsInv(w, bad, set_, answered);
    case WritesAnswer(room) => WritesAnswerKeepsInv(w, room);
    case CompletesAnswer(slots) => CompletesAnswerKeepsInv(w, slots);
    case Reoffers(created, room) => ReoffersKeepsInv(w, created, room);
    case GetsAnswer(set_) => GetsAnswerKeepsInv(w, bad, set_);
    case GetsCandidate => GetsCandidateKeepsInv(w, bad);
    case Gathers(room) => GathersKeepsInv(w, room);
  }

  lemma {:induction false} RunKeepsInv(w: World, bad: set<Cand>, events: seq<Event>)
    requires Inv(w)
    ensures Inv(Run(w, bad, events))
    decreases |events|
  {
    if events != [] {
      NextKeepsInv(w, bad, events[0]);
      RunKeepsInv(Next(w, bad, events[0]), bad, events[1..]);
    }
  }

  // -- What every run keeps --------------------------------------------------------------

  lemma EveryRunNegotiates(bad: set<Cand>, events: seq<Event>)
    ensures Inv(Run(Start, bad, events))
  {
    RunKeepsInv(Start, bad, events);
  }

  // Section 3.2 of RFC 8829: with no failure, no description is ever given to
  // the peer in a state that does not take it.
  lemma PeerIsNeverMisused(bad: set<Cand>, events: seq<Event>)
    requires Clean(Run(Start, bad, events))
    ensures var w := Run(Start, bad, events);
            && !w.peer.illegal && !w.peer.early
            && (w.peer.state == HaveLocalOffer <==> w.n.offerInFlight)
            && (w.peer.state == Stable <==> !w.n.offerInFlight)
  {
    EveryRunNegotiates(bad, events);
  }

  // Whatever is enqueued after an answer was made comes after an answer.
  lemma AnswerGoesFirst(bad: set<Cand>, events: seq<Event>, i: nat, j: nat)
    requires var w := Run(Start, bad, events); i < |w.accepted| && w.accepted[i] <= j < |w.n.sent|
    ensures var w := Run(Start, bad, events); w.n.sent[w.accepted[i]] == AnswerMsg
  {
    EveryRunNegotiates(bad, events);
  }

  // With no failed write, the local candidates sent and those waiting for the
  // answer are all that were gathered, once each and in order.
  lemma LocalCandidatesGoOutOnce(bad: set<Cand>, events: seq<Event>)
    requires !Run(Start, bad, events).writeFailed
    ensures var w := Run(Start, bad, events);
            && LocalSent(w.n.sent) + w.n.pendingLocalCandidates == FirstN(w.gathered)
            && (w.n.negotiationReady ==> LocalSent(w.n.sent) == FirstN(w.gathered))
  {
    EveryRunNegotiates(bad, events);
    var w := Run(Start, bad, events);
    assert LocalSent(w.n.sent) + [] == LocalSent(w.n.sent);
  }

  // No remote candidate is given to the peer twice; if it refuses none, they go
  // in arrival order; and none goes in while an ICE-restart offer is open.
  lemma RemoteCandidatesAreConserved(bad: set<Cand>, events: seq<Event>)
    ensures var w := Run(Start, bad, events);
            && Distinct(w.handled) && |w.n.pendingCandidates| <= MAX_PENDING_CANDIDATES
            && (forall c: Cand :: c < w.received <==> c in w.handled || c in w.n.pendingCandidates)
            && (forall c: Cand :: !(c in w.handled && c in w.n.pendingCandidates))
            && (!w.refused ==> w.handled + w.n.pendingCandidates == FirstN(w.received))
            && (w.n.offerInFlight && w.n.offerICERestart ==> Next(w, bad, GetsCandidate).handled == w.handled)
  {
    EveryRunNegotiates(bad, events);
    var w := Run(Start, bad, events);
    DistinctParts(w.handled, w.n.pendingCandidates);
  }

  lemma DistinctParts(a: seq<Cand>, b: seq<Cand>)
    requires Distinct(a + b)
    ensures Distinct(a) && forall c :: !(c in a && c in b)
    ensures forall c :: c in a + b <==> c in a || c in b
  {
    var all := a + b;
    forall i, j | 0 <= i < j < |a| ensures a[i] != a[j] { assert all[i] != all[j]; }
    forall i, j | 0 <= i < |a| && 0 <= j < |b| ensures a[i] != b[j] { assert all[i] != all[|a| + j]; }
  }
}
