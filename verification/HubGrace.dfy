/** Who gets a grace window: from the first hold of a disconnect to the second,
    with anything in between. */
module HubGrace {
  import opened HubSlots

  predicate SameFlags(was: Client, now: Client) {
    now.joined == was.joined && now.leaving == was.leaving && now.resumed == was.resumed
  }

  lemma OtherArrivalsKeepFlags(s: System, e: Event, c: ClientRef)
    requires c in s.h.clients && (e.Connects? || e.JoinsMeeting? || e.Claims?)
    ensures c in Next(s, e).h.clients && SameFlags(s.h.clients[c], Next(s, e).h.clients[c])
  {
  }

  lemma DeparturesKeepFlags(s: System, e: Event, c: ClientRef)
    requires c in s.h.clients && !Arrival(e)
    ensures c in Next(s, e).h.clients && Next(s, e).h.clients[c] == s.h.clients[c]
  {
  }

  // What becomes of a session's flags: it has joined once it was admitted, resumed
  // once it reclaimed a token, and asked to leave once it did.
  lemma FlagsFollowEvents(s: System, e: Event, c: ClientRef)
    requires c in s.h.clients
    ensures c in Next(s, e).h.clients
    ensures Next(s, e).h.clients[c].joined <==>
            s.h.clients[c].joined || (e == Admits(c) && AtPhase(s, c, InSession) && !s.h.closed)
    ensures Next(s, e).h.clients[c].leaving <==>
            s.h.clients[c].leaving || (e == AsksToLeave(c) && AtPhase(s, c, InSession))
    ensures Next(s, e).h.clients[c].resumed <==>
            s.h.clients[c].resumed || (e.Reclaims? && e.c == c && Reclaiming(s, c, e.token))
  {
    if !Arrival(e) {
      DeparturesKeepFlags(s, e, c);
    } else if e.Connects? || e.JoinsMeeting? || e.Claims? {
      OtherArrivalsKeepFlags(s, e, c);
    } else {
      match e
      case Admits(x) => AdmitJoins(s, x, c);
      case AsksToLeave(x) => AskingLeaves(s, x, c);
      case Reclaims(x, t) => ReclaimResumes(s, x, t, c);
    }
  }

  lemma AdmitJoins(s: System, x: ClientRef, c: ClientRef)
    requires c in s.h.clients
    ensures var n := OnAdmit(s, x);
            && c in n.h.clients
            && n.h.clients[c] ==
               s.h.clients[c].(joined := s.h.clients[c].joined || (x == c && AtPhase(s, c, InSession) && !s.h.closed))
  {
  }

  lemma AskingLeaves(s: System, x: ClientRef, c: ClientRef)
    requires c in s.h.clients
    ensures var n := OnAskToLeave(s, x);
            && c in n.h.clients
            && n.h.clients[c] ==
               s.h.clients[c].(leaving := s.h.clients[c].leaving || (x == c && AtPhase(s, c, InSession)))
  {
  }

  lemma ReclaimResumes(s: System, x: ClientRef, t: Token, c: ClientRef)
    requires c in s.h.clients
    ensures var n := OnReclaim(s, x, t);
            && c in n.h.clients
            && n.h.clients[c].joined == s.h.clients[c].joined && n.h.clients[c].leaving == s.h.clients[c].leaving
            && n.h.clients[c].resumed == (s.h.clients[c].resumed || (x == c && Reclaiming(s, c, t)))
  {
  }

  predicate Reclaiming(s: System, c: ClientRef, t: Token) {
    AtPhase(s, c, Reading) &&
    ((t in s.h.pending && s.h.pending[t] in s.h.reservations) || (t in s.h.active && s.h.active[t] in s.h.clients))
  }

  // Between its two holds nothing changes a session but the second hold itself.
  lemma DisconnectWaits(s: System, e: Event, c: ClientRef)
    requires c in s.h.clients && c in s.at && s.at[c].Disconnecting? && e != Decides(c)
    ensures var n := Next(s, e);
            c in n.h.clients && n.h.clients[c] == s.h.clients[c] && c in n.at && n.at[c] == s.at[c]
  {
    if Arrival(e) {
      ArrivalsPassBy(s, e, c);
    } else {
      DeparturesKeepFlags(s, e, c);
      DeparturesPassBy(s, e, c);
    }
  }

  lemma ArrivalsPassBy(s: System, e: Event, c: ClientRef)
    requires c in s.h.clients && c in s.at && s.at[c].Disconnecting? && Arrival(e)
    ensures var n := Next(s, e);
            c in n.h.clients && n.h.clients[c] == s.h.clients[c] && c in n.at && n.at[c] == s.at[c]
  {
  }

  lemma DeparturesPassBy(s: System, e: Event, c: ClientRef)
    requires c in s.h.clients && c in s.at && s.at[c].Disconnecting? && !Arrival(e) && e != Decides(c)
    ensures c in Next(s, e).at && Next(s, e).at[c] == s.at[c]
  {
  }

  lemma {:induction false} DisconnectWaitsThrough(s: System, between: seq<Event>, c: ClientRef)
    requires c in s.h.clients && c in s.at && s.at[c].Disconnecting? && Decides(c) !in between
    ensures var n := Run(s, between);
            c in n.h.clients && n.h.clients[c] == s.h.clients[c] && c in n.at && n.at[c] == s.at[c]
    decreases |between|
  {
    if between != [] {
      DisconnectWaits(s, between[0], c);
      DisconnectWaitsThrough(Next(s, between[0]), between[1..], c);
    }
  }

  // In session, with its token still its own.
  predicate LiveSession(s: System, c: ClientRef, t: Token) {
    AtPhase(s, c, InSession) && s.h.clients[c].token == Some(t) && t in s.h.active && s.h.active[t] == c
  }

  lemma DropBegins(s: System, c: ClientRef, t: Token, noGrace: bool)
    requires LiveSession(s, c, t)
    ensures var d := Next(s, Drops(c, noGrace));
            && c in d.h.clients && d.h.clients[c] == s.h.clients[c]
            && c in d.at && d.at[c] == Disconnecting(false, noGrace)
  {
  }

  // It was in the room or had come back to it, did not ask to leave, and both the
  // timeout and the hub leave room for a window.
  predicate Owed(client: Client, noGrace: bool, closed: bool) {
    (client.joined || client.resumed) && !client.leaving && !noGrace && !closed
  }

  lemma TransitIsAlone(n: System, c: ClientRef, t: Token)
    requires Tokens(n) && Slots(n) && c in n.h.clients && c in n.at && Disconnects(n.at[c])
    requires n.h.clients[c].token == Some(t)
    ensures t in n.owner && n.h.clients[c].participant == Some(n.owner[t]) && n.owner[t] in n.h.meeting
    ensures t !in n.h.active && t !in n.h.pending
  {
    assert Holds(n, ByGoroutine(c), n.owner[t]);
    if t in n.h.active {
      assert Holds(n, ByToken(t), n.owner[t]);
      HoldersAgree(n, n.owner[t], ByGoroutine(c), ByToken(t));
    }
    if t in n.h.pending {
      assert Holds(n, ByPending(t), n.owner[t]);
      HoldersAgree(n, n.owner[t], ByGoroutine(c), ByPending(t));
    }
  }

  predicate Disconnects(phase: Phase) {
    phase.Disconnecting? && !phase.superseded
  }

  lemma SecondHold(n: System, c: ClientRef, t: Token, noGrace: bool)
    requires c in n.h.clients && c in n.at && n.at[c] == Disconnecting(false, noGrace)
    requires n.h.clients[c].token == Some(t) && n.h.clients[c].participant.Some?
    requires t !in n.h.active && t !in n.h.pending
    ensures var d := Next(n, Decides(c));
            && d.owner == n.owner && d.h.meeting == n.h.meeting && d.h.active == n.h.active
            && (t in d.h.pending <==> Owed(n.h.clients[c], noGrace, n.h.closed))
            && (t in d.h.pending ==> d.h.pending[t] in d.h.reservations)
            && (t !in d.h.pending ==> AtPhase(d, c, Removing))
  {
  }

  // A live session that drops gets a grace window if and only if it is owed one
  // when the second hold decides, whatever happens in between: its token can then
  // be resumed and its participant is still in the meeting; otherwise the
  // participant is on its way out.
  lemma GraceExactly(before: seq<Event>, between: seq<Event>, c: ClientRef, t: Token, noGrace: bool)
    requires LiveSession(Run(Start, before), c, t) && Decides(c) !in between
    ensures var s := Run(Start, before);
            var n := Run(Next(s, Drops(c, noGrace)), between);
            var d := Next(n, Decides(c));
            && (t in d.h.pending <==> Owed(s.h.clients[c], noGrace, n.h.closed))
            && (t in d.h.pending ==> Reclaimable(d.h, t))
            && (t !in d.h.pending ==> AtPhase(d, c, Removing))
            && t in d.owner && s.h.clients[c].participant == Some(d.owner[t]) && d.owner[t] in d.h.meeting
            && t !in d.h.active
  {
    var s := Run(Start, before);
    var b := Next(s, Drops(c, noGrace));
    var n := Run(b, between);
    EveryRunKeepsSlots(before);
    NextKeepsInv(s, Drops(c, noGrace));
    RunKeepsInv(b, between);
    DropBegins(s, c, t, noGrace);
    DisconnectWaitsThrough(b, between, c);
    TransitIsAlone(n, c, t);
    SecondHold(n, c, t, noGrace);
  }

  // A session whose token went to another takes nothing with it.
  lemma SupersededLeavesNothing(s: System, c: ClientRef, noGrace: bool)
    requires c in s.h.clients && c in s.at && s.at[c] == Disconnecting(true, noGrace)
    ensures Next(s, Decides(c)).h == s.h
  {
  }

  // -- Getting in ----------------------------------------------------------------------

  // An open hub lets a connection join, and gives it a token of its own.
  lemma NewcomerGetsIn(s: System, c: ClientRef)
    requires Inv(s) && !s.h.closed && c !in s.h.clients
    ensures var t, pid := s.nextToken, s.nextPid;
            var d := Next(Next(Next(s, Connects(c)), JoinsMeeting(c)), Claims(c));
            && LiveSession(d, c, t) && t !in s.owner && pid !in s.h.meeting
            && d.owner == s.owner[t := pid] && d.h.meeting == s.h.meeting + {pid} && !d.h.closed
            && d.h.clients[c] == Client(Some(pid), Some(t), false, false, false)
  {
    Arrives(s, c);
    var b := Next(Next(s, Connects(c)), JoinsMeeting(c));
    ArrivalClaims(b, c);
  }

  lemma Arrives(s: System, c: ClientRef)
    requires !s.h.closed && c !in s.h.clients
    ensures var b := Next(Next(s, Connects(c)), JoinsMeeting(c));
            && c in b.at && b.at[c] == Claiming(s.nextPid) && c in b.h.clients && b.h.clients[c] == NewClient
            && b.h.meeting == s.h.meeting + {s.nextPid} && b.owner == s.owner && b.nextToken == s.nextToken
            && !b.h.closed
  {
  }

  lemma ArrivalClaims(b: System, c: ClientRef)
    requires c in b.at && b.at[c].Claiming? && c in b.h.clients && b.h.clients[c] == NewClient
    ensures var t, d := b.nextToken, Next(b, Claims(c));
            && LiveSession(d, c, t) && d.owner == b.owner[t := b.at[c].pid]
            && d.h.meeting == b.h.meeting && d.h.closed == b.h.closed
            && d.h.clients[c] == Client(Some(b.at[c].pid), Some(t), false, false, false)
  {
  }

  // A closed one takes nobody in, and stays closed.
  lemma ClosedTakesNobodyIn(s: System, e: Event)
    requires s.h.closed
    ensures Next(s, e).h.closed && Next(s, e).h.clients.Keys == s.h.clients.Keys
    ensures forall c :: c in s.h.clients ==> Next(s, e).h.clients[c].joined == s.h.clients[c].joined
  {
    if Arrival(e) { ClosedArrivals(s, e); } else { ClosedDepartures(s, e); }
    forall c | c in s.h.clients ensures Next(s, e).h.clients[c].joined == s.h.clients[c].joined {
      FlagsFollowEvents(s, e, c);
    }
  }

  lemma ClosedArrivals(s: System, e: Event)
    requires s.h.closed && Arrival(e)
    ensures Next(s, e).h.closed && Next(s, e).h.clients.Keys == s.h.clients.Keys
  {
  }

  lemma ClosedDepartures(s: System, e: Event)
    requires s.h.closed && !Arrival(e)
    ensures Next(s, e).h.closed && Next(s, e).h.clients.Keys == s.h.clients.Keys
  {
  }
}
