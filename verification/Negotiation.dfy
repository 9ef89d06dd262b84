/** The server's side of one client's offer/answer exchange.  The server is the
    impolite side: it ignores a browser offer that collides with its own.  Every
    method of Client is one hold of the client's negotiation lock; whether the
    peer connection accepts a call and whether the outbound queue has room are
    parameters. */
module Negotiation {

  type Cand = nat

  const MAX_PENDING_CANDIDATES := 512

  datatype Wire = OfferMsg | AnswerMsg | CandidateMsg(c: Cand)

  datatype Neg = Neg(
    negotiationReady: bool,
    remoteDescription: bool,
    pendingCandidates: seq<Cand>,
    pendingLocalCandidates: seq<Cand>,
    offerInFlight: bool,
    offerICERestart: bool,
    pendingOffer: bool,
    pendingICERestart: bool,
    sent: seq<Wire>)

  const Fresh := Neg(false, false, [], [], false, false, false, false, [])

  // How many queued candidates the peer is given: it refuses those in `bad`, and
  // the first refusal stops the pass.
  function Taken(pending: seq<Cand>, bad: set<Cand>): (n: nat)
    ensures n <= |pending| && (pending != [] ==> n > 0)
    ensures forall i :: 0 <= i < n - 1 ==> pending[i] !in bad
    ensures n < |pending| ==> pending[n - 1] in bad
  {
    if pending == [] then 0
    else if pending[0] in bad then 1
    else 1 + Taken(pending[1..], bad)
  }

  predicate AllTaken(pending: seq<Cand>, bad: set<Cand>) {
    forall c :: c in pending ==> c !in bad
  }

  function WithPendingApplied(n: Neg, bad: set<Cand>): Neg {
    n.(pendingCandidates := n.pendingCandidates[Taken(n.pendingCandidates, bad)..])
  }

  // -- What each hold of the lock does -----------------------------------------------

  predicate OffersNow(n: Neg) {
    n.negotiationReady && !n.offerInFlight
  }

  function SendOffer(n: Neg, iceRestart: bool, created: bool, room: bool): Neg {
    if !OffersNow(n) then n.(pendingOffer := true, pendingICERestart := n.pendingICERestart || iceRestart)
    else if created && room then
      n.(offerInFlight := true, offerICERestart := iceRestart,
         remoteDescription := n.remoteDescription && !iceRestart, sent := n.sent + [OfferMsg])
    else n.(offerICERestart := false)
  }

  datatype OfferFate = Collides | Rejected | Answers

  function FateOfOffer(n: Neg, bad: set<Cand>, set_: bool, answered: bool): OfferFate {
    if n.offerInFlight then Collides
    else if !set_ || !AllTaken(n.pendingCandidates, bad) || !answered then Rejected
    else Answers
  }

  function AcceptOffer(n: Neg, bad: set<Cand>, set_: bool, answered: bool): Neg {
    if n.offerInFlight || !set_ then n
    else if !AllTaken(n.pendingCandidates, bad) then WithPendingApplied(n, bad)
    else n.(pendingCandidates := [], remoteDescription := true, negotiationReady := n.negotiationReady && !answered)
  }

  function Messages(candidates: seq<Cand>): seq<Wire> {
    seq(|candidates|, i requires 0 <= i < |candidates| => CandidateMsg(candidates[i]))
  }

  function FinishAnswer(n: Neg, room: nat): Neg {
    var k := if room < |n.pendingLocalCandidates| then room else |n.pendingLocalCandidates|;
    n.(pendingLocalCandidates := n.pendingLocalCandidates[k..],
       sent := n.sent + Messages(n.pendingLocalCandidates[..k]),
       negotiationReady := true, pendingOffer := false, pendingICERestart := false)
  }

  function AcceptAnswer(n: Neg, bad: set<Cand>, set_: bool): Neg {
    if !n.offerInFlight then n
    else
      var m := if set_ then WithPendingApplied(n, bad).(remoteDescription := true) else n;
      m.(offerInFlight := false, offerICERestart := false, pendingOffer := false, pendingICERestart := false)
  }

  function TakeCandidate(n: Neg, c: Cand): Neg {
    if n.remoteDescription || |n.pendingCandidates| >= MAX_PENDING_CANDIDATES then n
    else n.(pendingCandidates := n.pendingCandidates + [c])
  }

  function GatherCandidate(n: Neg, c: Cand, room: bool): Neg {
    if !n.negotiationReady then n.(pendingLocalCandidates := n.pendingLocalCandidates + [c])
    else if room then n.(sent := n.sent + [CandidateMsg(c)])
    else n
  }

  lemma TakenAll(pending: seq<Cand>, bad: set<Cand>)
    ensures AllTaken(pending, bad) <==>
            Taken(pending, bad) == |pending| && (pending != [] ==> pending[|pending| - 1] !in bad)
  {
    if Taken(pending, bad) < |pending| { assert pending[Taken(pending, bad) - 1] in pending; }
  }

  datatype CandidateFate = Queued | TooMany | Given

  class Client {
    var negotiationReady: bool
    var remoteDescription: bool
    var pendingCandidates: seq<Cand>
    var pendingLocalCandidates: seq<Cand>
    var offerInFlight: bool
    var offerICERestart: bool
    var pendingOffer: bool
    var pendingICERestart: bool
    var outbound: seq<Wire>

    ghost function View(): Neg
      reads this
    {
      Neg(negotiationReady, remoteDescription, pendingCandidates, pendingLocalCandidates,
          offerInFlight, offerICERestart, pendingOffer, pendingICERestart, outbound)
    }

    constructor ()
      ensures View() == Fresh
    {
      negotiationReady, remoteDescription, pendingCandidates, pendingLocalCandidates := false, false, [], [];
      offerInFlight, offerICERestart, pendingOffer, pendingICERestart, outbound := false, false, false, false, [];
    }

    method Write(msg: Wire, room: bool) returns (ok: bool)
      modifies this`outbound
      ensures ok == room && outbound == if room then old(outbound) + [msg] else old(outbound)
    {
      if room {
        outbound := outbound + [msg];
      }
      return room;
    }

    // The candidates handed to the peer, in order; the last of them was refused
    // unless all went through.
    method ApplyPendingCandidates(bad: set<Cand>) returns (ok: bool, given: seq<Cand>)
      modifies this`pendingCandidates
      ensures ok == AllTaken(old(pendingCandidates), bad)
      ensures View() == WithPendingApplied(old(View()), bad)
      ensures given == old(pendingCandidates)[..Taken(old(pendingCandidates), bad)]
    {
      var pending := pendingCandidates;
      pendingCandidates := [];
      given := [];
      for index := 0 to |pending|
        invariant pendingCandidates == [] && given == pending[..index]
        invariant forall i :: 0 <= i < index ==> pending[i] !in bad
      {
        given := given + [pending[index]];
        if pending[index] in bad {
          pendingCandidates := pending[index + 1..] + pendingCandidates;
          TakenStops(pending, bad, index);
          return false, given;
        }
      }
      TakenStops(pending, bad, |pending|);
      return true, given;
    }

    // `room` candidates fit into the outbound queue.
    method FlushPendingLocalCandidates(room: nat) returns (ok: bool)
      modifies this`pendingLocalCandidates, this`outbound
      ensures var k := if room < |old(pendingLocalCandidates)| then room else |old(pendingLocalCandidates)|;
              && ok == (k == |old(pendingLocalCandidates)|)
              && pendingLocalCandidates == old(pendingLocalCandidates)[k..]
              && outbound == old(outbound) + Messages(old(pendingLocalCandidates)[..k])
    {
      var pending := pendingLocalCandidates;
      pendingLocalCandidates := [];
      for index := 0 to |pending|
        invariant index <= room && pendingLocalCandidates == []
        invariant outbound == old(outbound) + Messages(pending[..index])
      {
        assert Messages(pending[..index + 1]) == Messages(pending[..index]) + [CandidateMsg(pending[index])];
        var sent := Write(CandidateMsg(pending[index]), index < room);
        if !sent {
          pendingLocalCandidates := pending[index..] + pendingLocalCandidates;
          return false;
        }
      }
      assert pending[..|pending|] == pending;
      return true;
    }

    // `err` is what the caller is told; a merged call is told nothing went wrong.
    method Send(iceRestart: bool, created: bool, room: bool) returns (err: bool)
      modifies this
      ensures View() == SendOffer(old(View()), iceRestart, created, room)
      ensures err <==> OffersNow(old(View())) && !(created && room)
    {
      if !negotiationReady {
        pendingOffer := true;
        pendingICERestart := pendingICERestart || iceRestart;
        return false;
      }
      if offerInFlight {
        pendingOffer := true;
        pendingICERestart := pendingICERestart || iceRestart;
        return false;
      }
      offerInFlight := true;
      offerICERestart := iceRestart;
      var previousRemoteDescription := remoteDescription;
      if iceRestart {
        remoteDescription := false;
      }
      if !created {
        offerInFlight, offerICERestart, remoteDescription := false, false, previousRemoteDescription;
        return true;
      }
      var ok := Write(OfferMsg, room);
      if !ok {
        offerInFlight, offerICERestart, remoteDescription := false, false, previousRemoteDescription;
      }
      return !ok;
    }

    // First hold of the offer path, up to the answer that is then written.
    method ReceiveOffer(bad: set<Cand>, set_: bool, answered: bool) returns (fate: OfferFate, given: seq<Cand>)
      modifies this
      ensures View() == AcceptOffer(old(View()), bad, set_, answered)
      ensures fate == FateOfOffer(old(View()), bad, set_, answered)
      ensures given == if old(offerInFlight) || !set_ then []
                       else old(pendingCandidates)[..Taken(old(pendingCandidates), bad)]
    {
      if offerInFlight {
        return Collides, [];
      }
      if !set_ {
        return Rejected, [];
      }
      TakenAll(pendingCandidates, bad);
      var ok, applied := ApplyPendingCandidates(bad);
      given := applied;
      if !ok {
        return Rejected, given;
      }
      remoteDescription := true;
      var wasNegotiationReady := negotiationReady;
      negotiationReady := false;
      if !answered {
        negotiationReady := wasNegotiationReady;
        return Rejected, given;
      }
      return Answers, given;
    }

    // Second hold of the offer path, after the answer is enqueued.
    method CompleteAnswer(room: nat) returns (shouldOffer: bool, iceRestart: bool)
      modifies this
      ensures View() == FinishAnswer(old(View()), room)
      ensures shouldOffer == old(pendingOffer) && iceRestart == old(pendingICERestart)
    {
      var _ := FlushPendingLocalCandidates(room);
      negotiationReady := true;
      shouldOffer, iceRestart := pendingOffer, pendingICERestart;
      pendingOffer, pendingICERestart := false, false;
    }

    method ReceiveAnswer(bad: set<Cand>, set_: bool)
      returns (expected: bool, completedICERestart: bool, shouldOffer: bool, iceRestart: bool, given: seq<Cand>)
      modifies this
      ensures View() == AcceptAnswer(old(View()), bad, set_)
      ensures expected == old(offerInFlight) && completedICERestart == (expected && old(offerICERestart))
      ensures shouldOffer == (expected && old(pendingOffer)) && iceRestart == (expected && old(pendingICERestart))
      ensures given == if expected && set_ then old(pendingCandidates)[..Taken(old(pendingCandidates), bad)] else []
    {
      given := [];
      if !offerInFlight {
        return false, false, false, false, [];
      }
      if set_ {
        remoteDescription := true;
        var _, applied := ApplyPendingCandidates(bad);
        given := applied;
      }
      completedICERestart := offerICERestart;
      offerICERestart := false;
      shouldOffer := offerInFlight && pendingOffer;
      iceRestart := pendingICERestart;
      offerInFlight, pendingOffer, pendingICERestart := false, false, false;
      expected := true;
    }

    method AddOrQueueCandidate(c: Cand) returns (fate: CandidateFate)
      modifies this`pendingCandidates
      ensures View() == TakeCandidate(old(View()), c)
      ensures fate == if remoteDescription then Given
                      else if |old(pendingCandidates)| >= MAX_PENDING_CANDIDATES then TooMany
                      else Queued
    {
      if !remoteDescription {
        if |pendingCandidates| >= MAX_PENDING_CANDIDATES {
          return TooMany;
        }
        pendingCandidates := pendingCandidates + [c];
        return Queued;
      }
      return Given;
    }

    method SendOrQueueLocalCandidate(c: Cand, room: bool) returns (ok: bool)
      modifies this`pendingLocalCandidates, this`outbound
      ensures View() == GatherCandidate(old(View()), c, room)
      ensures ok == (!negotiationReady || room)
    {
      if !negotiationReady {
        pendingLocalCandidates := pendingLocalCandidates + [c];
        return true;
      }
      ok := Write(CandidateMsg(c), room);
    }
  }

  lemma {:induction false} TakenStops(pending: seq<Cand>, bad: set<Cand>, n: nat)
    requires n <= |pending| && forall i :: 0 <= i < n ==> pending[i] !in bad
    requires n < |pending| ==> pending[n] in bad
    ensures Taken(pending, bad) == if n < |pending| then n + 1 else n
    ensures AllTaken(pending, bad) <==> n == |pending|
    decreases |pending|
  {
    if n < |pending| { assert pending[n] in pending; }
    if n > 0 { TakenStops(pending[1..], bad, n - 1); }
  }
}
