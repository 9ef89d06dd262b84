/** The signaling hub's meeting slots, reconnect tokens and grace reservations.
    Each function below is what one hold of the hub's lock (or of the meeting's)
    does; between holds, goroutines carry decisions that others cannot see. */
module HubSlots {

  type Pid = nat
  type Token = nat
  type ClientRef = nat
  type PendRef = nat

  datatype Option<T> = None | Some(value: T)

  datatype Client = Client(participant: Option<Pid>, token: Option<Token>, joined: bool, resumed: bool, leaving: bool)

  // A reservation kept for a dropped client during its grace window.
  datatype Reservation = Reservation(participant: Pid, token: Token, client: ClientRef)

  datatype Hub = Hub(
    meeting: set<Pid>,
    active: map<Token, ClientRef>,
    pending: map<Token, PendRef>,
    reservations: map<PendRef, Reservation>,
    clients: map<ClientRef, Client>,
    closed: bool)

  const EmptyHub := Hub({}, map[], map[], map[], map[], false)
  const NewClient := Client(None, None, false, false, false)

  // -- Lock regions ---------------------------------------------------------------

  function Claim(h: Hub, c: ClientRef, pid: Pid, token: Token): Hub
    requires c in h.clients
  {
    h.(clients := h.clients[c := h.clients[c].(participant := Some(pid), token := Some(token))],
       active := h.active[token := c])
  }

  predicate Reclaimable(h: Hub, token: Token) {
    (token in h.pending && h.pending[token] in h.reservations) ||
    (token in h.active && h.active[token] in h.clients)
  }

  // A pending reservation is resumed; failing that, a live session is taken over.
  function Reclaim(h: Hub, c: ClientRef, token: Token): Hub
    requires c in h.clients
  {
    if token in h.pending && h.pending[token] in h.reservations then
      var pid := h.reservations[h.pending[token]].participant;
      var client := h.clients[c].(participant := Some(pid), token := Some(token), resumed := true);
      h.(pending := h.pending - {token}, clients := h.clients[c := client], active := h.active[token := c])
    else if token in h.active && h.active[token] in h.clients then
      var previous := h.clients[h.active[token]];
      var client := h.clients[c].(participant := previous.participant, token := Some(token), resumed := true);
      h.(clients := h.clients[c := client], active := h.active[token := c])
    else h
  }

  predicate Superseded(h: Hub, c: ClientRef)
    requires c in h.clients
  {
    var token := h.clients[c].token;
    token.Some? && !(token.value in h.active && h.active[token.value] == c)
  }

  // First hold of disconnect: the session's token stops being active.
  function BeginDisconnect(h: Hub, c: ClientRef): Hub
    requires c in h.clients
  {
    var token := h.clients[c].token;
    if token.Some? && !Superseded(h, c) then h.(active := h.active - {token.value}) else h
  }

  datatype Fate = Ignored | Removed | Parked

  function Decide(h: Hub, c: ClientRef, superseded: bool, noGrace: bool): Fate
    requires c in h.clients
  {
    var client := h.clients[c];
    if superseded then Ignored
    else if client.leaving || h.closed || client.token.None? || (!client.joined && !client.resumed) then Removed
    else if noGrace then Removed
    else Parked
  }

  // Second hold of disconnect, when it decides to park the participant.
  function Park(h: Hub, c: ClientRef, p: PendRef): Hub
    requires c in h.clients && h.clients[c].participant.Some? && h.clients[c].token.Some?
  {
    var r := Reservation(h.clients[c].participant.value, h.clients[c].token.value, c);
    h.(reservations := h.reservations[p := r], pending := h.pending[r.token := p])
  }

  predicate StillPending(h: Hub, p: PendRef) {
    p in h.reservations && h.reservations[p].token in h.pending && h.pending[h.reservations[p].token] == p
  }

  // The grace timer's callback.
  function Expire(h: Hub, p: PendRef): Hub {
    if StillPending(h, p) then h.(pending := h.pending - {h.reservations[p].token}) else h
  }

  function Shut(h: Hub): Hub {
    h.(closed := true, pending := map[])
  }

  function Leave(h: Hub, pid: Pid): Hub {
    h.(meeting := h.meeting - {pid})
  }

  // -- The goroutines ---------------------------------------------------------------

  // Where each connection's goroutine is.
  datatype Phase =
    | Reading                                     // no participant yet
    | Claiming(pid: Pid)                          // joined the meeting, token not yet recorded
    | InSession
    | Disconnecting(superseded: bool, noGrace: bool)
    | Removing
    | Parking(pend: PendRef)                      // reserved, timer not yet armed
    | Finished

  datatype End = ByResume | ByExpiry | ByClose

  // `armed` timers may fire at any time: a Stop that comes too late stops
  // nothing.  `expiring` and `closing` reservations are on their way to
  // Meeting.Leave.  `ends` records how each reservation was consumed.
  datatype System = System(
    h: Hub,
    at: map<ClientRef, Phase>,
    armed: set<PendRef>,
    expiring: set<PendRef>,
    closing: set<PendRef>,
    ends: seq<(PendRef, End)>,
    owner: map<Token, Pid>,
    nextPid: Pid,
    nextToken: Token,
    nextPend: PendRef)

  const Start := System(EmptyHub, map[], {}, {}, {}, [], map[], 0, 0, 0)

  datatype Event =
    | Connects(c: ClientRef)
    | JoinsMeeting(c: ClientRef)
    | Claims(c: ClientRef)
    | Reclaims(c: ClientRef, token: Token)
    | Admits(c: ClientRef)
    | AsksToLeave(c: ClientRef)
    | Drops(c: ClientRef, noGrace: bool)
    | Decides(c: ClientRef)
    | LeavesMeeting(c: ClientRef)
    | Arms(c: ClientRef)
    | Fires(p: PendRef)
    | ExpiryLeaves(p: PendRef)
    | Closes
    | CloseLeaves(p: PendRef)

  predicate AtPhase(sys: System, c: ClientRef, phase: Phase) {
    c in sys.h.clients && c in sys.at && sys.at[c] == phase
  }

  function MoveTo(sys: System, c: ClientRef, phase: Phase): System {
    sys.(at := sys.at[c := phase])
  }

  function CloseEnds(taken: seq<PendRef>): seq<(PendRef, End)> {
    seq(|taken|, i requires 0 <= i < |taken| => (taken[i], ByClose))
  }

  // The order in which Close visits its map does not matter; it is fixed here.
  ghost function Listed(refs: set<PendRef>): (s: seq<PendRef>)
    ensures forall p :: p in s <==> p in refs
    ensures forall i, j :: 0 <= i < j < |s| ==> s[i] != s[j]
  {
    if refs == {} then [] else var p :| p in refs; [p] + Listed(refs - {p})
  }

  function OnConnect(sys: System, c: ClientRef): System {
    if c in sys.h.clients || sys.h.closed then sys
    else MoveTo(sys, c, Reading).(h := sys.h.(clients := sys.h.clients[c := NewClient]))
  }

  function OnJoin(sys: System, c: ClientRef): System {
    if AtPhase(sys, c, Reading)
    then MoveTo(sys, c, Claiming(sys.nextPid)).(h := sys.h.(meeting := sys.h.meeting + {sys.nextPid}),
                                                nextPid := sys.nextPid + 1)
    else sys
  }

  predicate ClaimsNow(sys: System, c: ClientRef) {
    c in sys.h.clients && c in sys.at && sys.at[c].Claiming?
  }

  function OnClaim(sys: System, c: ClientRef): System {
    if ClaimsNow(sys, c)
    then MoveTo(sys, c, InSession).(h := Claim(sys.h, c, sys.at[c].pid, sys.nextToken),
                                    owner := sys.owner[sys.nextToken := sys.at[c].pid],
                                    nextToken := sys.nextToken + 1)
    else sys
  }

  function OnReclaim(sys: System, c: ClientRef, token: Token): System {
    if AtPhase(sys, c, Reading) && Reclaimable(sys.h, token)
    then MoveTo(sys, c, InSession).(h := Reclaim(sys.h, c, token),
                                    ends := if token in sys.h.pending
                                            then sys.ends + [(sys.h.pending[token], ByResume)]
                                            else sys.ends)
    else sys
  }

  function OnAdmit(sys: System, c: ClientRef): System {
    if AtPhase(sys, c, InSession) && !sys.h.closed
    then sys.(h := sys.h.(clients := sys.h.clients[c := sys.h.clients[c].(joined := true)]))
    else sys
  }

  function OnAskToLeave(sys: System, c: ClientRef): System {
    if AtPhase(sys, c, InSession)
    then sys.(h := sys.h.(clients := sys.h.clients[c := sys.h.clients[c].(leaving := true)]))
    else sys
  }

  function OnDrop(sys: System, c: ClientRef, noGrace: bool): System {
    if AtPhase(sys, c, Reading) then MoveTo(sys, c, Finished)
    else if AtPhase(sys, c, InSession)
    then MoveTo(sys, c, Disconnecting(Superseded(sys.h, c), noGrace)).(h := BeginDisconnect(sys.h, c))
    else sys
  }

  predicate DecidesNow(sys: System, c: ClientRef) {
    c in sys.h.clients && c in sys.at && sys.at[c].Disconnecting? &&
    sys.h.clients[c].participant.Some? && sys.h.clients[c].token.Some?
  }

  function OnDecide(sys: System, c: ClientRef): System {
    if !DecidesNow(sys, c) then sys
    else
      match Decide(sys.h, c, sys.at[c].superseded, sys.at[c].noGrace)
      case Ignored => MoveTo(sys, c, Finished)
      case Removed => MoveTo(sys, c, Removing)
      case Parked =>
        MoveTo(sys, c, Parking(sys.nextPend)).(h := Park(sys.h, c, sys.nextPend), nextPend := sys.nextPend + 1)
  }

  function OnLeave(sys: System, c: ClientRef): System {
    if AtPhase(sys, c, Removing) && sys.h.clients[c].participant.Some?
    then MoveTo(sys, c, Finished).(h := Leave(sys.h, sys.h.clients[c].participant.value))
    else sys
  }

  function OnArm(sys: System, c: ClientRef): System {
    if c in sys.h.clients && c in sys.at && sys.at[c].Parking?
    then MoveTo(sys, c, Finished).(armed := if StillPending(sys.h, sys.at[c].pend)
                                             then sys.armed + {sys.at[c].pend}
                                             else sys.armed)
    else sys
  }

  function OnFire(sys: System, p: PendRef): System {
    if p !in sys.armed then sys
    else if StillPending(sys.h, p)
    then sys.(h := Expire(sys.h, p), armed := sys.armed - {p}, expiring := sys.expiring + {p},
              ends := sys.ends + [(p, ByExpiry)])
    else sys.(armed := sys.armed - {p})
  }

  function OnExpiryLeave(sys: System, p: PendRef): System {
    if p in sys.expiring && p in sys.h.reservations
    then sys.(h := Leave(sys.h, sys.h.reservations[p].participant), expiring := sys.expiring - {p})
    else sys
  }

  ghost function OnClose(sys: System): System {
    sys.(h := Shut(sys.h), closing := sys.closing + sys.h.pending.Values,
         ends := sys.ends + CloseEnds(Listed(sys.h.pending.Values)))
  }

  function OnCloseLeave(sys: System, p: PendRef): System {
    if p in sys.closing && p in sys.h.reservations
    then sys.(h := Leave(sys.h, sys.h.reservations[p].participant), closing := sys.closing - {p})
    else sys
  }

  // One event.  An event that is not possible in `sys` leaves it unchanged, so
  // every list of events is a run.
  ghost function Next(sys: System, e: Event): System {
    match e
    case Connects(c) => OnConnect(sys, c)
    case JoinsMeeting(c) => OnJoin(sys, c)
    case Claims(c) => OnClaim(sys, c)
    case Reclaims(c, token) => OnReclaim(sys, c, token)
    case Admits(c) => OnAdmit(sys, c)
    case AsksToLeave(c) => OnAskToLeave(sys, c)
    case Drops(c, noGrace) => OnDrop(sys, c, noGrace)
    case Decides(c) => OnDecide(sys, c)
    case LeavesMeeting(c) => OnLeave(sys, c)
    case Arms(c) => OnArm(sys, c)
    case Fires(p) => OnFire(sys, p)
    case ExpiryLeaves(p) => OnExpiryLeave(sys, p)
    case Closes => OnClose(sys)
    case CloseLeaves(p) => OnCloseLeave(sys, p)
  }

  ghost function Run(sys: System, events: seq<Event>): System
    decreases |events|
  {
    if events == [] then sys else Run(Next(sys, events[0]), events[1..])
  }

  predicate Arrival(e: Event) {
    e.Connects? || e.JoinsMeeting? || e.Claims? || e.Reclaims? || e.Admits? || e.AsksToLeave?
  }

  predicate Departure(e: Event) {
    e.Drops? || e.Decides? || e.LeavesMeeting? || e.Arms?
  }

  // -- Who holds a slot -------------------------------------------------------------

  datatype Holder =
    | ByToken(token: Token)        // a live session
    | ByPending(token: Token)      // a reservation that can be resumed
    | ByGoroutine(c: ClientRef)    // a join or a disconnect in transit
    | ByExpiring(pend: PendRef)
    | ByClosing(pend: PendRef)

  predicate InTransit(sys: System, c: ClientRef, pid: Pid) {
    c in sys.at && c in sys.h.clients &&
    match sys.at[c]
    case Claiming(p) => p == pid
    case Disconnecting(superseded, _) => !superseded && sys.h.clients[c].participant == Some(pid)
    case Removing => sys.h.clients[c].participant == Some(pid)
    case _ => false
  }

  predicate Holds(sys: System, x: Holder, pid: Pid) {
    match x
    case ByToken(t) => t in sys.h.active && t in sys.owner && sys.owner[t] == pid
    case ByPending(t) => t in sys.h.pending && t in sys.owner && sys.owner[t] == pid
    case ByGoroutine(c) => InTransit(sys, c, pid)
    case ByExpiring(p) => p in sys.expiring && p in sys.h.reservations && sys.h.reservations[p].participant == pid
    case ByClosing(p) => p in sys.closing && p in sys.h.reservations && sys.h.reservations[p].participant == pid
  }

  ghost predicate OneHolder(sys: System, pid: Pid) {
    exists x :: Holds(sys, x, pid) && forall y :: Holds(sys, y, pid) ==> y == x
  }

  // Every participant in the meeting has exactly one responsible holder, and
  // every holder's participant is still in the meeting.
  ghost predicate Slots(sys: System) {
    && (forall pid :: pid in sys.h.meeting ==> OneHolder(sys, pid))
    && (forall x, pid: Pid :: Holds(sys, x, pid) ==> pid in sys.h.meeting)
  }

  // Tokens identify participants, one to one.
  ghost predicate Tokens(sys: System) {
    && (forall t, u :: t in sys.owner && u in sys.owner && sys.owner[t] == sys.owner[u] ==> t == u)
    && (forall t :: t in sys.owner ==> t < sys.nextToken && sys.owner[t] < sys.nextPid)
    && (forall c :: c in sys.at && c in sys.h.clients && sys.at[c].Claiming? ==>
          sys.at[c].pid < sys.nextPid && sys.at[c].pid !in sys.owner.Values)
    && (forall c :: c in sys.h.clients && sys.h.clients[c].token.Some? ==>
          && sys.h.clients[c].token.value in sys.owner
          && sys.h.clients[c].participant == Some(sys.owner[sys.h.clients[c].token.value]))
    && (forall p :: p in sys.h.reservations ==>
          && p < sys.nextPend && sys.h.reservations[p].token in sys.owner
          && sys.owner[sys.h.reservations[p].token] == sys.h.reservations[p].participant)
    && (forall pid :: pid in sys.h.meeting ==> pid < sys.nextPid)
  }

  // An active token belongs to a session whose goroutine is still running it.
  ghost predicate Sessions(sys: System) {
    forall t :: t in sys.h.active ==> AtPhase(sys, sys.h.active[t], InSession) &&
                                      sys.h.clients[sys.h.active[t]].token == Some(t)
  }

  ghost predicate Graces(sys: System) {
    && sys.h.active.Keys !! sys.h.pending.Keys
    && (forall t :: t in sys.h.pending ==> sys.h.pending[t] in sys.h.reservations &&
                                           sys.h.reservations[sys.h.pending[t]].token == t)
    && (sys.h.closed ==> sys.h.pending == map[])
  }

  ghost predicate Records(sys: System) {
    && sys.at.Keys == sys.h.clients.Keys
    && (forall c :: c in sys.at && (sys.at[c].Reading? || sys.at[c].Claiming?) ==> sys.h.clients[c] == NewClient)
    && (forall c :: c in sys.at && (sys.at[c].InSession? || sys.at[c].Disconnecting? || sys.at[c].Removing?) ==>
          sys.h.clients[c].token.Some?)
  }

  ghost predicate Phases(sys: System) {
    Sessions(sys) && Graces(sys) && Records(sys)
  }

  // Every reservation ever made is either still pending, with its timer armed or
  // about to be, or was consumed exactly once.
  ghost predicate Reserved(sys: System) {
    && (forall p :: p in sys.h.reservations <==> 0 <= p < sys.nextPend)
    && (forall i, j :: 0 <= i < j < |sys.ends| ==> sys.ends[i].0 != sys.ends[j].0)
    && (forall p :: p in sys.h.reservations ==> (StillPending(sys.h, p) <==> !Consumed(sys, p)))
    && (forall p :: Consumed(sys, p) ==> p in sys.h.reservations)
    && (forall p :: p in sys.h.reservations && StillPending(sys.h, p) ==> p in sys.armed || BeingParked(sys, p))
    && (forall p :: p in sys.expiring + sys.closing ==> p in sys.h.reservations)
  }

  ghost predicate Consumed(sys: System, p: PendRef) {
    exists i :: 0 <= i < |sys.ends| && sys.ends[i].0 == p
  }

  ghost predicate BeingParked(sys: System, p: PendRef) {
    exists c :: c in sys.at && sys.at[c] == Parking(p)
  }

  // Only a participant that was in the room, or on its way back, and did not ask
  // to leave is ever given a grace window.
  ghost predicate Eligible(sys: System) {
    forall p :: p in sys.h.reservations ==> var c := sys.h.reservations[p].client;
      && c in sys.h.clients && c in sys.at && (sys.at[c].Parking? || sys.at[c].Finished?)
      && !sys.h.clients[c].leaving && (sys.h.clients[c].joined || sys.h.clients[c].resumed)
  }

  ghost predicate Inv(sys: System) {
    Tokens(sys) && Phases(sys) && Slots(sys) && Reserved(sys) && Eligible(sys)
  }

  // -- Slots -------------------------------------------------------------------------

  lemma HoldersAgree(sys: System, pid: Pid, x: Holder, y: Holder)
    requires Slots(sys) && Holds(sys, x, pid) && Holds(sys, y, pid)
    ensures x == y
  {
    assert OneHolder(sys, pid);
  }

  // One participant's slot passes from `x` to `x'`; every other stays put.
  lemma SlotMoves(sys: System, d: System, pid: Pid, x: Holder, x': Holder)
    requires Slots(sys) && d.h.meeting == sys.h.meeting && Holds(sys, x, pid)
    requires forall y, q: Pid :: Holds(d, y, q) == (if q == pid then y == x' else Holds(sys, y, q))
    ensures Slots(d)
  {
    forall q | q in d.h.meeting ensures OneHolder(d, q) {
      assert OneHolder(sys, q);
      if q == pid {
        assert Holds(d, x', q);
      } else {
        var y :| Holds(sys, y, q);
        assert Holds(d, y, q);
      }
    }
  }

  lemma SlotsStay(sys: System, d: System)
    requires Slots(sys) && d.h.meeting == sys.h.meeting
    requires forall y, q: Pid :: Holds(d, y, q) == Holds(sys, y, q)
    ensures Slots(d)
  {
    forall q | q in d.h.meeting ensures OneHolder(d, q) {
      assert OneHolder(sys, q);
      var y :| Holds(sys, y, q);
      assert Holds(d, y, q);
    }
  }

  lemma SlotFreed(sys: System, d: System, pid: Pid)
    requires Slots(sys) && d.h.meeting == sys.h.meeting - {pid}
    requires forall y, q: Pid :: Holds(d, y, q) == (q != pid && Holds(sys, y, q))
    ensures Slots(d)
  {
    forall q | q in d.h.meeting ensures OneHolder(d, q) {
      assert OneHolder(sys, q);
      var y :| Holds(sys, y, q);
      assert Holds(d, y, q);
    }
  }

  lemma SlotTaken(sys: System, d: System, pid: Pid, x: Holder)
    requires Slots(sys) && pid !in sys.h.meeting && d.h.meeting == sys.h.meeting + {pid}
    requires forall y, q: Pid :: Holds(d, y, q) == (if q == pid then y == x else Holds(sys, y, q))
    ensures Slots(d)
  {
    forall q | q in d.h.meeting ensures OneHolder(d, q) {
      if q == pid {
        assert Holds(d, x, q);
      } else {
        assert OneHolder(sys, q);
        var y :| Holds(sys, y, q);
        assert Holds(d, y, q);
      }
    }
  }

  lemma ConnectKeepsSlots(sys: System, c: ClientRef)
    requires Inv(sys)
    ensures Slots(OnConnect(sys, c))
  {
    var d := OnConnect(sys, c);
    SlotsStay(sys, d);
  }

  lemma JoinChanges(sys: System, c: ClientRef, y: Holder, q: Pid)
    requires AtPhase(sys, c, Reading)
    ensures Holds(OnJoin(sys, c), y, q) == (if y == ByGoroutine(c) then q == sys.nextPid else Holds(sys, y, q))
  {
  }

  lemma JoinKeepsSlots(sys: System, c: ClientRef)
    requires Inv(sys)
    ensures Slots(OnJoin(sys, c))
  {
    if AtPhase(sys, c, Reading) {
      var d := OnJoin(sys, c);
      forall y, q: Pid ensures Holds(d, y, q) == (if q == sys.nextPid then y == ByGoroutine(c) else Holds(sys, y, q)) {
        JoinChanges(sys, c, y, q);
        if Holds(sys, y, q) { assert q in sys.h.meeting; }
      }
      SlotTaken(sys, d, sys.nextPid, ByGoroutine(c));
    }
  }

  lemma ClaimKeepsSlots(sys: System, c: ClientRef)
    requires Inv(sys)
    ensures Slots(OnClaim(sys, c))
  {
    if ClaimsNow(sys, c) {
      var d := OnClaim(sys, c);
      var pid := sys.at[c].pid;
      assert Holds(sys, ByGoroutine(c), pid);
      forall y, q: Pid ensures Holds(d, y, q) == (if q == pid then y == ByToken(sys.nextToken) else Holds(sys, y, q)) {
        if q == pid && Holds(sys, y, q) { HoldersAgree(sys, pid, y, ByGoroutine(c)); }
      }
      SlotMoves(sys, d, pid, ByGoroutine(c), ByToken(sys.nextToken));
    }
  }

  lemma ResumeChanges(sys: System, c: ClientRef, token: Token, y: Holder, q: Pid)
    requires Phases(sys) && Tokens(sys) && AtPhase(sys, c, Reading) && token in sys.h.pending
    ensures Holds(OnReclaim(sys, c, token), y, q) ==
            (if y == ByToken(token) then q == sys.owner[token] else y != ByPending(token) && Holds(sys, y, q))
  {
    if y.ByGoroutine? { ResumeSparesGoroutines(sys, c, token, y.c, q); }
  }

  lemma ResumeSparesGoroutines(sys: System, c: ClientRef, token: Token, x: ClientRef, q: Pid)
    requires Records(sys) && AtPhase(sys, c, Reading) && token in sys.h.pending
    ensures InTransit(OnReclaim(sys, c, token), x, q) == InTransit(sys, x, q)
  {
  }

  lemma ResumeKeepsSlots(sys: System, c: ClientRef, token: Token)
    requires Inv(sys) && AtPhase(sys, c, Reading) && token in sys.h.pending
    ensures Slots(OnReclaim(sys, c, token))
    ensures forall x, pid: Pid :: Holds(sys, x, pid) ==>
              Holds(OnReclaim(sys, c, token), AfterReclaim(sys, c, token, x), pid)
  {
    var d := OnReclaim(sys, c, token);
    var pid := sys.owner[token];
    assert Holds(sys, ByPending(token), pid);
    forall y, q: Pid ensures Holds(d, y, q) == (if q == pid then y == ByToken(token) else Holds(sys, y, q)) {
      ResumeChanges(sys, c, token, y, q);
      if q == pid && Holds(sys, y, q) { HoldersAgree(sys, pid, y, ByPending(token)); }
    }
    SlotMoves(sys, d, pid, ByPending(token), ByToken(token));
  }

  lemma TakeoverKeepsSlots(sys: System, c: ClientRef, token: Token)
    requires Inv(sys) && !(AtPhase(sys, c, Reading) && token in sys.h.pending)
    ensures Slots(OnReclaim(sys, c, token))
    ensures forall x, pid: Pid :: Holds(sys, x, pid) ==> Holds(OnReclaim(sys, c, token), x, pid)
  {
    SlotsStay(sys, OnReclaim(sys, c, token));
  }

  // A resume gives the reservation's slot to the token; a takeover leaves it
  // there and changes whose session the token is.
  function AfterReclaim(sys: System, c: ClientRef, token: Token, x: Holder): Holder {
    if AtPhase(sys, c, Reading) && x == ByPending(token) then ByToken(token) else x
  }

  lemma ReclaimKeepsSlots(sys: System, c: ClientRef, token: Token)
    requires Inv(sys)
    ensures Slots(OnReclaim(sys, c, token))
    ensures forall x, pid: Pid :: Holds(sys, x, pid) ==>
              Holds(OnReclaim(sys, c, token), AfterReclaim(sys, c, token, x), pid)
    ensures AtPhase(sys, c, Reading) && Reclaimable(sys.h, token) ==>
              token in OnReclaim(sys, c, token).h.active && OnReclaim(sys, c, token).h.active[token] == c
  {
    if AtPhase(sys, c, Reading) && token in sys.h.pending {
      ResumeKeepsSlots(sys, c, token);
    } else {
      TakeoverKeepsSlots(sys, c, token);
    }
  }

  lemma ReleaseChanges(sys: System, c: ClientRef, noGrace: bool, y: Holder, q: Pid)
    requires Phases(sys) && Tokens(sys) && AtPhase(sys, c, InSession) && !Superseded(sys.h, c)
    ensures var token := sys.h.clients[c].token.value;
            Holds(OnDrop(sys, c, noGrace), y, q) ==
            (if y == ByGoroutine(c) then q == sys.owner[token] else y != ByToken(token) && Holds(sys, y, q))
  {
    if y.ByGoroutine? { ReleaseSparesGoroutines(sys, c, noGrace, y.c, q); }
  }

  lemma ReleaseSparesGoroutines(sys: System, c: ClientRef, noGrace: bool, x: ClientRef, q: Pid)
    requires Records(sys) && AtPhase(sys, c, InSession) && !Superseded(sys.h, c)
    ensures InTransit(OnDrop(sys, c, noGrace), x, q) ==
            if x == c then sys.h.clients[c].participant == Some(q) else InTransit(sys, x, q)
  {
  }

  lemma ReleaseHolds(sys: System, c: ClientRef, noGrace: bool, y: Holder, q: Pid)
    requires Inv(sys) && AtPhase(sys, c, InSession) && !Superseded(sys.h, c)
    ensures var pid := sys.owner[sys.h.clients[c].token.value];
            Holds(OnDrop(sys, c, noGrace), y, q) == (if q == pid then y == ByGoroutine(c) else Holds(sys, y, q))
  {
    var token := sys.h.clients[c].token.value;
    ReleaseChanges(sys, c, noGrace, y, q);
    assert Holds(sys, ByToken(token), sys.owner[token]);
    if q == sys.owner[token] && Holds(sys, y, q) { HoldersAgree(sys, q, y, ByToken(token)); }
  }

  lemma ReleaseKeepsSlots(sys: System, c: ClientRef, noGrace: bool)
    requires Inv(sys) && AtPhase(sys, c, InSession) && !Superseded(sys.h, c)
    ensures Slots(OnDrop(sys, c, noGrace))
  {
    var d := OnDrop(sys, c, noGrace);
    var token := sys.h.clients[c].token.value;
    var pid := sys.owner[token];
    forall y, q: Pid ensures Holds(d, y, q) == (if q == pid then y == ByGoroutine(c) else Holds(sys, y, q)) {
      ReleaseHolds(sys, c, noGrace, y, q);
    }
    SlotMoves(sys, d, pid, ByToken(token), ByGoroutine(c));
  }

  lemma DropKeepsSlots(sys: System, c: ClientRef, noGrace: bool)
    requires Inv(sys)
    ensures Slots(OnDrop(sys, c, noGrace))
  {
    if AtPhase(sys, c, InSession) && !Superseded(sys.h, c) {
      ReleaseKeepsSlots(sys, c, noGrace);
    } else {
      SlotsStay(sys, OnDrop(sys, c, noGrace));
    }
  }

  predicate ParksNow(sys: System, c: ClientRef) {
    DecidesNow(sys, c) && Decide(sys.h, c, sys.at[c].superseded, sys.at[c].noGrace) == Parked
  }

  lemma ParkChanges(sys: System, c: ClientRef, y: Holder, q: Pid)
    requires Tokens(sys) && Reserved(sys) && ParksNow(sys, c)
    ensures var token := sys.h.clients[c].token.value;
            Holds(OnDecide(sys, c), y, q) ==
            (if y == ByPending(token) then q == sys.owner[token] else y != ByGoroutine(c) && Holds(sys, y, q))
  {
    assert sys.nextPend !in sys.h.reservations;
  }

  lemma ParkKeepsSlots(sys: System, c: ClientRef)
    requires Inv(sys) && ParksNow(sys, c)
    ensures Slots(OnDecide(sys, c))
  {
    var d := OnDecide(sys, c);
    var token := sys.h.clients[c].token.value;
    var pid := sys.owner[token];
    assert Holds(sys, ByGoroutine(c), pid);
    forall y, q: Pid ensures Holds(d, y, q) == (if q == pid then y == ByPending(token) else Holds(sys, y, q)) {
      ParkChanges(sys, c, y, q);
      if q == pid && Holds(sys, y, q) { HoldersAgree(sys, pid, y, ByGoroutine(c)); }
    }
    SlotMoves(sys, d, pid, ByGoroutine(c), ByPending(token));
  }

  lemma DecideKeepsSlots(sys: System, c: ClientRef)
    requires Inv(sys)
    ensures Slots(OnDecide(sys, c))
  {
    if ParksNow(sys, c) {
      ParkKeepsSlots(sys, c);
    } else {
      SlotsStay(sys, OnDecide(sys, c));
    }
  }

  lemma LeaveKeepsSlots(sys: System, c: ClientRef)
    requires Inv(sys)
    ensures Slots(OnLeave(sys, c))
  {
    if AtPhase(sys, c, Removing) && sys.h.clients[c].participant.Some? {
      var d := OnLeave(sys, c);
      var pid := sys.h.clients[c].participant.value;
      assert Holds(sys, ByGoroutine(c), pid);
      forall y, q: Pid ensures Holds(d, y, q) == (q != pid && Holds(sys, y, q)) {
        if q == pid && Holds(sys, y, q) { HoldersAgree(sys, pid, y, ByGoroutine(c)); }
      }
      SlotFreed(sys, d, pid);
    }
  }

  lemma FireChanges(sys: System, p: PendRef, y: Holder, q: Pid)
    requires Tokens(sys) && p in sys.armed && StillPending(sys.h, p)
    ensures var r := sys.h.reservations[p];
            Holds(OnFire(sys, p), y, q) ==
            (if y == ByExpiring(p) then q == r.participant else y != ByPending(r.token) && Holds(sys, y, q))
  {
  }

  lemma FireKeepsSlots(sys: System, p: PendRef)
    requires Inv(sys)
    ensures Slots(OnFire(sys, p))
  {
    var d := OnFire(sys, p);
    if p in sys.armed && StillPending(sys.h, p) {
      var r := sys.h.reservations[p];
      assert Holds(sys, ByPending(r.token), r.participant);
      forall y, q: Pid ensures Holds(d, y, q) == (if q == r.participant then y == ByExpiring(p) else Holds(sys, y, q)) {
        FireChanges(sys, p, y, q);
        if q == r.participant && Holds(sys, y, q) { HoldersAgree(sys, q, y, ByPending(r.token)); }
      }
      SlotMoves(sys, d, r.participant, ByPending(r.token), ByExpiring(p));
    } else {
      SlotsStay(sys, d);
    }
  }

  lemma ExpiryLeaveKeepsSlots(sys: System, p: PendRef)
    requires Inv(sys)
    ensures Slots(OnExpiryLeave(sys, p))
  {
    if p in sys.expiring && p in sys.h.reservations {
      var d := OnExpiryLeave(sys, p);
      var pid := sys.h.reservations[p].participant;
      assert Holds(sys, ByExpiring(p), pid);
      forall y, q: Pid ensures Holds(d, y, q) == (q != pid && Holds(sys, y, q)) {
        if q == pid && Holds(sys, y, q) { HoldersAgree(sys, pid, y, ByExpiring(p)); }
      }
      SlotFreed(sys, d, pid);
    }
  }

  lemma CloseLeaveKeepsSlots(sys: System, p: PendRef)
    requires Inv(sys)
    ensures Slots(OnCloseLeave(sys, p))
  {
    if p in sys.closing && p in sys.h.reservations {
      var d := OnCloseLeave(sys, p);
      var pid := sys.h.reservations[p].participant;
      assert Holds(sys, ByClosing(p), pid);
      forall y, q: Pid ensures Holds(d, y, q) == (q != pid && Holds(sys, y, q)) {
        if q == pid && Holds(sys, y, q) { HoldersAgree(sys, pid, y, ByClosing(p)); }
      }
      SlotFreed(sys, d, pid);
    }
  }

  // Close takes over every pending reservation's slot.
  function AfterClose(sys: System, x: Holder): Holder {
    if x.ByPending? && x.token in sys.h.pending then ByClosing(sys.h.pending[x.token]) else x
  }

  lemma CloseOrigin(sys: System, y: Holder, pid: Pid) returns (x: Holder)
    requires Inv(sys) && Holds(OnClose(sys), y, pid)
    ensures Holds(sys, x, pid) && y == AfterClose(sys, x)
  {
    x := y;
    if y.ByClosing? && y.pend !in sys.closing {
      var t :| t in sys.h.pending && sys.h.pending[t] == y.pend;
      x := ByPending(t);
    }
  }

  lemma CloseTakesOver(sys: System, x: Holder, pid: Pid)
    requires Graces(sys) && Tokens(sys) && Holds(sys, x, pid)
    ensures Holds(OnClose(sys), AfterClose(sys, x), pid)
  {
  }

  lemma CloseLeavesOne(sys: System, pid: Pid)
    requires Inv(sys) && OneHolder(sys, pid)
    ensures OneHolder(OnClose(sys), pid)
  {
    var x :| Holds(sys, x, pid);
    CloseTakesOver(sys, x, pid);
    forall y | Holds(OnClose(sys), y, pid) ensures y == AfterClose(sys, x) {
      var o := CloseOrigin(sys, y, pid);
      HoldersAgree(sys, pid, o, x);
    }
  }

  lemma CloseKeepsSlots(sys: System)
    requires Inv(sys)
    ensures Slots(OnClose(sys))
    ensures forall x, pid: Pid :: Holds(sys, x, pid) ==> Holds(OnClose(sys), AfterClose(sys, x), pid)
  {
    forall pid | pid in sys.h.meeting ensures OneHolder(OnClose(sys), pid) { CloseLeavesOne(sys, pid); }
    forall y, pid: Pid | Holds(OnClose(sys), y, pid) ensures pid in sys.h.meeting {
      var o := CloseOrigin(sys, y, pid);
    }
    forall x, pid: Pid | Holds(sys, x, pid) ensures Holds(OnClose(sys), AfterClose(sys, x), pid) {
      CloseTakesOver(sys, x, pid);
    }
  }

  lemma AdmitKeepsSlots(sys: System, c: ClientRef)
    requires Inv(sys)
    ensures Slots(OnAdmit(sys, c))
  {
    SlotsStay(sys, OnAdmit(sys, c));
  }

  lemma AskToLeaveKeepsSlots(sys: System, c: ClientRef)
    requires Inv(sys)
    ensures Slots(OnAskToLeave(sys, c))
  {
    SlotsStay(sys, OnAskToLeave(sys, c));
  }

  lemma ArmKeepsSlots(sys: System, c: ClientRef)
    requires Inv(sys)
    ensures Slots(OnArm(sys, c))
  {
    SlotsStay(sys, OnArm(sys, c));
  }

  lemma ArrivalsKeepSlots(sys: System, e: Event)
    requires Inv(sys) && Arrival(e)
    ensures Slots(Next(sys, e))
  {
    match e
    case Connects(c) => ConnectKeepsSlots(sys, c);
    case JoinsMeeting(c) => JoinKeepsSlots(sys, c);
    case Claims(c) => ClaimKeepsSlots(sys, c);
    case Reclaims(c, token) => ReclaimKeepsSlots(sys, c, token);
    case Admits(c) => AdmitKeepsSlots(sys, c);
    case AsksToLeave(c) => AskToLeaveKeepsSlots(sys, c);
  }

  lemma DeparturesKeepSlots(sys: System, e: Event)
    requires Inv(sys) && Departure(e)
    ensures Slots(Next(sys, e))
  {
    match e
    case Drops(c, noGrace) => DropKeepsSlots(sys, c, noGrace);
    case Decides(c) => DecideKeepsSlots(sys, c);
    case LeavesMeeting(c) => LeaveKeepsSlots(sys, c);
    case Arms(c) => ArmKeepsSlots(sys, c);
  }

  lemma NextKeepsSlots(sys: System, e: Event)
    requires Inv(sys)
    ensures Slots(Next(sys, e))
  {
    if Arrival(e) {
      ArrivalsKeepSlots(sys, e);
    } else if Departure(e) {
      DeparturesKeepSlots(sys, e);
    } else {
      match e
      case Fires(p) => FireKeepsSlots(sys, p);
      case ExpiryLeaves(p) => ExpiryLeaveKeepsSlots(sys, p);
      case Closes => CloseKeepsSlots(sys);
      case CloseLeaves(p) => CloseLeaveKeepsSlots(sys, p);
    }
  }

  // -- Tokens and phases ---------------------------------------------------------------

  lemma ClaimIsNew(sys: System, c: ClientRef)
    requires Inv(sys) && ClaimsNow(sys, c)
    ensures forall x :: x in sys.at && x != c && sys.at[x].Claiming? ==> sys.at[x].pid != sys.at[c].pid
    ensures sys.nextToken !in sys.owner && sys.nextToken !in sys.h.active && sys.nextToken !in sys.h.pending
  {
    forall x | x in sys.at && x != c && sys.at[x].Claiming? ensures sys.at[x].pid != sys.at[c].pid {
      assert Holds(sys, ByGoroutine(x), sys.at[x].pid) && Holds(sys, ByGoroutine(c), sys.at[c].pid);
      if sys.at[x].pid == sys.at[c].pid { HoldersAgree(sys, sys.at[c].pid, ByGoroutine(x), ByGoroutine(c)); }
    }
  }

  lemma ClaimKeepsTokens(sys: System, c: ClientRef)
    requires Tokens(sys) && Phases(sys) && ClaimsNow(sys, c)
    requires forall x :: x in sys.at && x != c && sys.at[x].Claiming? ==> sys.at[x].pid != sys.at[c].pid
    ensures Tokens(OnClaim(sys, c))
  {
  }

  lemma ClaimKeepsPhases(sys: System, c: ClientRef)
    requires Tokens(sys) && Phases(sys) && ClaimsNow(sys, c)
    requires sys.nextToken !in sys.h.active && sys.nextToken !in sys.h.pending
    ensures Phases(OnClaim(sys, c))
  {
    ClaimKeepsSessions(sys, c);
    ClaimKeepsGraces(sys, c);
    ClaimKeepsRecords(sys, c);
  }

  lemma ClaimKeepsSessions(sys: System, c: ClientRef)
    requires Sessions(sys) && ClaimsNow(sys, c)
    ensures Sessions(OnClaim(sys, c))
  {
  }

  lemma ClaimKeepsGraces(sys: System, c: ClientRef)
    requires Graces(sys) && ClaimsNow(sys, c)
    requires sys.nextToken !in sys.h.active && sys.nextToken !in sys.h.pending
    ensures Graces(OnClaim(sys, c))
  {
  }

  lemma ClaimKeepsRecords(sys: System, c: ClientRef)
    requires Records(sys) && ClaimsNow(sys, c)
    ensures Records(OnClaim(sys, c))
  {
  }

  lemma ResumeKeepsTokens(sys: System, c: ClientRef, token: Token)
    requires Tokens(sys) && Graces(sys) && AtPhase(sys, c, Reading) && token in sys.h.pending
    ensures Tokens(OnReclaim(sys, c, token))
  {
    assert sys.h.reservations[sys.h.pending[token]].participant == sys.owner[token];
  }

  lemma TakeoverKeepsTokens(sys: System, c: ClientRef, token: Token)
    requires Tokens(sys) && Sessions(sys) && AtPhase(sys, c, Reading) && token !in sys.h.pending &&
             token in sys.h.active
    ensures Tokens(OnReclaim(sys, c, token))
  {
    assert sys.h.clients[sys.h.active[token]].participant == Some(sys.owner[token]);
  }

  lemma ReclaimKeepsTokens(sys: System, c: ClientRef, token: Token)
    requires Tokens(sys) && Phases(sys)
    ensures Tokens(OnReclaim(sys, c, token))
  {
    if AtPhase(sys, c, Reading) && token in sys.h.pending {
      ResumeKeepsTokens(sys, c, token);
    } else if AtPhase(sys, c, Reading) && Reclaimable(sys.h, token) {
      TakeoverKeepsTokens(sys, c, token);
    }
  }

  lemma ReclaimKeepsPhases(sys: System, c: ClientRef, token: Token)
    requires Tokens(sys) && Phases(sys)
    ensures Phases(OnReclaim(sys, c, token))
  {
    ReclaimKeepsSessions(sys, c, token);
    ReclaimKeepsGraces(sys, c, token);
    ReclaimKeepsRecords(sys, c, token);
  }

  lemma ReclaimKeepsSessions(sys: System, c: ClientRef, token: Token)
    requires Sessions(sys)
    ensures Sessions(OnReclaim(sys, c, token))
  {
  }

  lemma ReclaimKeepsGraces(sys: System, c: ClientRef, token: Token)
    requires Graces(sys)
    ensures Graces(OnReclaim(sys, c, token))
  {
  }

  lemma ReclaimKeepsRecords(sys: System, c: ClientRef, token: Token)
    requires Records(sys)
    ensures Records(OnReclaim(sys, c, token))
  {
  }

  lemma DropKeepsTokens(sys: System, c: ClientRef, noGrace: bool)
    requires Tokens(sys) && Phases(sys)
    ensures Tokens(OnDrop(sys, c, noGrace))
  {
  }

  lemma DroppingKeepsTokens(sys: System, c: ClientRef, noGrace: bool)
    requires Tokens(sys) && Phases(sys)
    ensures Tokens(Next(sys, Drops(c, noGrace)))
  {
    DropKeepsTokens(sys, c, noGrace);
  }

  lemma DropKeepsSessions(sys: System, c: ClientRef, noGrace: bool)
    requires Sessions(sys) && Records(sys)
    ensures Sessions(OnDrop(sys, c, noGrace))
  {
    var d := OnDrop(sys, c, noGrace);
    if AtPhase(sys, c, InSession) {
      forall t | t in d.h.active ensures d.h.active[t] != c {}
    }
  }

  lemma DropKeepsPhases(sys: System, c: ClientRef, noGrace: bool)
    requires Tokens(sys) && Phases(sys)
    ensures Phases(OnDrop(sys, c, noGrace))
  {
    DropKeepsSessions(sys, c, noGrace);
    DropKeepsGraces(sys, c, noGrace);
    DropKeepsRecords(sys, c, noGrace);
  }

  lemma DropKeepsGraces(sys: System, c: ClientRef, noGrace: bool)
    requires Graces(sys)
    ensures Graces(OnDrop(sys, c, noGrace))
  {
  }

  lemma DropKeepsRecords(sys: System, c: ClientRef, noGrace: bool)
    requires Records(sys)
    ensures Records(OnDrop(sys, c, noGrace))
  {
  }

  lemma ParkIsFree(sys: System, c: ClientRef)
    requires Inv(sys) && ParksNow(sys, c)
    ensures sys.h.clients[c].token.value !in sys.h.active && sys.h.clients[c].token.value !in sys.h.pending
    ensures sys.nextPend !in sys.h.reservations
  {
    var token := sys.h.clients[c].token.value;
    assert Holds(sys, ByGoroutine(c), sys.owner[token]);
    if token in sys.h.active { HoldersAgree(sys, sys.owner[token], ByToken(token), ByGoroutine(c)); }
    if token in sys.h.pending { HoldersAgree(sys, sys.owner[token], ByPending(token), ByGoroutine(c)); }
  }

  lemma ParkKeepsTokens(sys: System, c: ClientRef)
    requires Tokens(sys) && ParksNow(sys, c)
    ensures Tokens(OnDecide(sys, c))
  {
  }

  lemma DecideKeepsTokens(sys: System, c: ClientRef)
    requires Tokens(sys)
    ensures Tokens(Next(sys, Decides(c)))
  {
    if ParksNow(sys, c) { ParkKeepsTokens(sys, c); }
  }

  lemma DecideKeepsGraces(sys: System, c: ClientRef)
    requires Graces(sys)
    requires ParksNow(sys, c) ==> sys.h.clients[c].token.value !in sys.h.active && sys.nextPend !in sys.h.reservations
    ensures Graces(OnDecide(sys, c))
  {
  }

  lemma DecideKeepsPhases(sys: System, c: ClientRef)
    requires Phases(sys)
    requires ParksNow(sys, c) ==> sys.h.clients[c].token.value !in sys.h.active && sys.nextPend !in sys.h.reservations
    ensures Phases(OnDecide(sys, c))
  {
    DecideKeepsGraces(sys, c);
    DecideKeepsSessions(sys, c);
    DecideKeepsRecords(sys, c);
  }

  lemma DecideKeepsSessions(sys: System, c: ClientRef)
    requires Sessions(sys)
    ensures Sessions(OnDecide(sys, c))
  {
  }

  lemma DecideKeepsRecords(sys: System, c: ClientRef)
    requires Records(sys)
    ensures Records(OnDecide(sys, c))
  {
  }

  lemma ConnectKeepsTokens(sys: System, c: ClientRef)
    requires Tokens(sys) && Phases(sys)
    ensures Tokens(OnConnect(sys, c))
  {
  }

  lemma ConnectKeepsPhases(sys: System, c: ClientRef)
    requires Phases(sys)
    ensures Phases(OnConnect(sys, c))
  {
  }

  lemma JoinKeepsTokens(sys: System, c: ClientRef)
    requires Tokens(sys) && Phases(sys)
    ensures Tokens(OnJoin(sys, c))
  {
  }

  lemma JoinKeepsPhases(sys: System, c: ClientRef)
    requires Phases(sys)
    ensures Phases(OnJoin(sys, c))
  {
  }

  lemma AdmitKeepsTokens(sys: System, c: ClientRef)
    requires Tokens(sys) && Phases(sys)
    ensures Tokens(OnAdmit(sys, c))
  {
  }

  lemma AdmitKeepsPhases(sys: System, c: ClientRef)
    requires Phases(sys)
    ensures Phases(OnAdmit(sys, c))
  {
  }

  lemma AskToLeaveKeepsTokens(sys: System, c: ClientRef)
    requires Tokens(sys) && Phases(sys)
    ensures Tokens(OnAskToLeave(sys, c))
  {
  }

  lemma AskToLeaveKeepsPhases(sys: System, c: ClientRef)
    requires Phases(sys)
    ensures Phases(OnAskToLeave(sys, c))
  {
  }

  lemma LeaveKeepsTokens(sys: System, c: ClientRef)
    requires Tokens(sys) && Phases(sys)
    ensures Tokens(Next(sys, LeavesMeeting(c)))
  {
  }

  lemma LeaveKeepsPhases(sys: System, c: ClientRef)
    requires Phases(sys)
    ensures Phases(OnLeave(sys, c))
  {
  }

  lemma ArmKeepsTokens(sys: System, c: ClientRef)
    requires Tokens(sys) && Phases(sys)
    ensures Tokens(Next(sys, Arms(c)))
  {
  }

  lemma ArmKeepsPhases(sys: System, c: ClientRef)
    requires Phases(sys)
    ensures Phases(OnArm(sys, c))
  {
  }

  lemma FireKeepsTokens(sys: System, p: PendRef)
    requires Tokens(sys) && Phases(sys)
    ensures Tokens(OnFire(sys, p))
  {
  }

  lemma FireKeepsPhases(sys: System, p: PendRef)
    requires Phases(sys)
    ensures Phases(OnFire(sys, p))
  {
  }

  lemma ExpiryLeaveKeepsTokens(sys: System, p: PendRef)
    requires Tokens(sys) && Phases(sys)
    ensures Tokens(OnExpiryLeave(sys, p))
  {
  }

  lemma ExpiryLeaveKeepsPhases(sys: System, p: PendRef)
    requires Phases(sys)
    ensures Phases(OnExpiryLeave(sys, p))
  {
  }

  lemma CloseLeaveKeepsTokens(sys: System, p: PendRef)
    requires Tokens(sys) && Phases(sys)
    ensures Tokens(OnCloseLeave(sys, p))
  {
  }

  lemma CloseLeaveKeepsPhases(sys: System, p: PendRef)
    requires Phases(sys)
    ensures Phases(OnCloseLeave(sys, p))
  {
  }

  lemma CloseKeepsTokens(sys: System)
    requires Tokens(sys) && Phases(sys)
    ensures Tokens(OnClose(sys))
  {
  }

  lemma CloseKeepsPhases(sys: System)
    requires Phases(sys)
    ensures Phases(OnClose(sys))
  {
  }

  lemma ArrivalsKeepTokens(sys: System, e: Event)
    requires Inv(sys) && Arrival(e)
    ensures Tokens(Next(sys, e))
  {
    match e
    case Connects(c) => ConnectKeepsTokens(sys, c);
    case JoinsMeeting(c) => JoinKeepsTokens(sys, c);
    case Claims(c) =>
      if ClaimsNow(sys, c) {
        ClaimIsNew(sys, c);
        ClaimKeepsTokens(sys, c);
      }
    case Reclaims(c, token) => ReclaimKeepsTokens(sys, c, token);
    case Admits(c) => AdmitKeepsTokens(sys, c);
    case AsksToLeave(c) => AskToLeaveKeepsTokens(sys, c);
  }

  lemma DeparturesKeepTokens(sys: System, e: Event)
    requires Tokens(sys) && Phases(sys) && Departure(e)
    ensures Tokens(Next(sys, e))
  {
    match e
    case Drops(c, noGrace) => DroppingKeepsTokens(sys, c, noGrace);
    case Decides(c) => DecideKeepsTokens(sys, c);
    case LeavesMeeting(c) => LeaveKeepsTokens(sys, c);
    case Arms(c) => ArmKeepsTokens(sys, c);
  }

  lemma NextKeepsTokens(sys: System, e: Event)
    requires Inv(sys)
    ensures Tokens(Next(sys, e))
  {
    if Arrival(e) {
      ArrivalsKeepTokens(sys, e);
    } else if Departure(e) {
      DeparturesKeepTokens(sys, e);
    } else {
      match e
      case Fires(p) => FireKeepsTokens(sys, p);
      case ExpiryLeaves(p) => ExpiryLeaveKeepsTokens(sys, p);
      case Closes => CloseKeepsTokens(sys);
      case CloseLeaves(p) => CloseLeaveKeepsTokens(sys, p);
    }
  }

  lemma ArrivalsKeepPhases(sys: System, e: Event)
    requires Inv(sys) && Arrival(e)
    ensures Phases(Next(sys, e))
  {
    match e
    case Connects(c) => ConnectKeepsPhases(sys, c);
    case JoinsMeeting(c) => JoinKeepsPhases(sys, c);
    case Claims(c) =>
      if ClaimsNow(sys, c) {
        ClaimIsNew(sys, c);
        ClaimKeepsPhases(sys, c);
      }
    case Reclaims(c, token) => ReclaimKeepsPhases(sys, c, token);
    case Admits(c) => AdmitKeepsPhases(sys, c);
    case AsksToLeave(c) => AskToLeaveKeepsPhases(sys, c);
  }

  lemma DecidingKeepsPhases(sys: System, c: ClientRef)
    requires Inv(sys)
    ensures Phases(Next(sys, Decides(c)))
  {
    if ParksNow(sys, c) { ParkIsFree(sys, c); }
    DecideKeepsPhases(sys, c);
  }

  lemma DeparturesKeepPhases(sys: System, e: Event)
    requires Tokens(sys) && Phases(sys) && Departure(e) && (e.Decides? ==> Phases(Next(sys, e)))
    ensures Phases(Next(sys, e))
  {
    match e
    case Drops(c, noGrace) => DropKeepsPhases(sys, c, noGrace);
    case Decides(c) =>
    case LeavesMeeting(c) => LeaveKeepsPhases(sys, c);
    case Arms(c) => ArmKeepsPhases(sys, c);
  }

  lemma NextKeepsPhases(sys: System, e: Event)
    requires Inv(sys)
    ensures Phases(Next(sys, e))
  {
    if Arrival(e) {
      ArrivalsKeepPhases(sys, e);
    } else if Departure(e) {
      if e.Decides? { DecidingKeepsPhases(sys, e.c); }
      DeparturesKeepPhases(sys, e);
    } else {
      match e
      case Fires(p) => FireKeepsPhases(sys, p);
      case ExpiryLeaves(p) => ExpiryLeaveKeepsPhases(sys, p);
      case Closes => CloseKeepsPhases(sys);
      case CloseLeaves(p) => CloseLeaveKeepsPhases(sys, p);
    }
  }

  lemma NextKeepsRecords(sys: System, e: Event)
    requires Inv(sys)
    ensures Tokens(Next(sys, e)) && Phases(Next(sys, e))
  {
    NextKeepsTokens(sys, e);
    NextKeepsPhases(sys, e);
  }

  // -- Reservations ----------------------------------------------------------------------

  lemma ConsumedMore(sys: System, d: System, p: PendRef, how: End)
    requires d.ends == sys.ends + [(p, how)]
    ensures forall q :: Consumed(d, q) <==> Consumed(sys, q) || q == p
  {
    forall q ensures Consumed(d, q) <==> Consumed(sys, q) || q == p {
      if Consumed(sys, q) {
        var i :| 0 <= i < |sys.ends| && sys.ends[i].0 == q;
        assert d.ends[i].0 == q;
      }
      assert d.ends[|sys.ends|].0 == p;
    }
  }

  // A reservation ends once: it was pending, so nothing had consumed it yet.
  lemma EndIsNew(sys: System, p: PendRef, how: End)
    requires Reserved(sys) && StillPending(sys.h, p)
    ensures var ends := sys.ends + [(p, how)]; forall i, j :: 0 <= i < j < |ends| ==> ends[i].0 != ends[j].0
  {
    forall i | 0 <= i < |sys.ends| ensures sys.ends[i].0 != p { assert !Consumed(sys, p); }
  }

  lemma ParkedStays(sys: System, d: System, c: ClientRef)
    requires c in sys.at ==> !sys.at[c].Parking?
    requires c in d.at && d.at == sys.at[c := d.at[c]]
    ensures forall p :: BeingParked(sys, p) ==> BeingParked(d, p)
  {
    forall p | BeingParked(sys, p) ensures BeingParked(d, p) {
      var x :| x in sys.at && sys.at[x] == Parking(p);
      assert x in d.at && d.at[x] == Parking(p);
    }
  }

  // A goroutine moves on, and no reservation is made, armed or consumed.
  lemma MoveKeepsReserved(sys: System, d: System, c: ClientRef)
    requires Reserved(sys) && (c in sys.at ==> !sys.at[c].Parking?)
    requires d.at == sys.at || (c in d.at && d.at == sys.at[c := d.at[c]])
    requires d.h.reservations == sys.h.reservations && d.h.pending == sys.h.pending && d.nextPend == sys.nextPend
    requires d.armed == sys.armed && d.expiring <= sys.expiring && d.closing <= sys.closing && d.ends == sys.ends
    ensures Reserved(d)
  {
    if d.at != sys.at { ParkedStays(sys, d, c); }
    forall p ensures Consumed(d, p) == Consumed(sys, p) && StillPending(d.h, p) == StillPending(sys.h, p) {}
    forall p | p in d.h.reservations && StillPending(d.h, p) ensures p in d.armed || BeingParked(d, p) {
      if p !in sys.armed { assert BeingParked(sys, p); }
      if d.at == sys.at && BeingParked(sys, p) {
        var x :| x in sys.at && sys.at[x] == Parking(p);
        assert x in d.at && d.at[x] == Parking(p);
      }
    }
  }

  lemma ResumeKeepsReserved(sys: System, c: ClientRef, token: Token)
    requires Reserved(sys) && Phases(sys) && AtPhase(sys, c, Reading) && token in sys.h.pending
    ensures Reserved(OnReclaim(sys, c, token))
  {
    var d := OnReclaim(sys, c, token);
    var p := sys.h.pending[token];
    assert StillPending(sys.h, p);
    EndIsNew(sys, p, ByResume);
    ConsumedMore(sys, d, p, ByResume);
    ParkedStays(sys, d, c);
    forall q ensures StillPending(d.h, q) == (StillPending(sys.h, q) && q != p) {}
  }

  lemma FireKeepsReserved(sys: System, p: PendRef)
    requires Reserved(sys) && Phases(sys)
    ensures Reserved(OnFire(sys, p))
  {
    var d := OnFire(sys, p);
    if p in sys.armed && StillPending(sys.h, p) {
      EndIsNew(sys, p, ByExpiry);
      ConsumedMore(sys, d, p, ByExpiry);
      forall q ensures StillPending(d.h, q) == (StillPending(sys.h, q) && q != p) {}
    }
    forall q | BeingParked(sys, q) ensures BeingParked(d, q) {
      var x :| x in sys.at && sys.at[x] == Parking(q);
      assert x in d.at && d.at[x] == Parking(q);
    }
    if !StillPending(sys.h, p) { forall q ensures Consumed(d, q) == Consumed(sys, q) {} }
  }

  lemma ArmKeepsReserved(sys: System, c: ClientRef)
    requires Reserved(sys)
    ensures Reserved(OnArm(sys, c))
  {
    var d := OnArm(sys, c);
    forall p ensures Consumed(d, p) == Consumed(sys, p) {}
    forall p | p in d.h.reservations && StillPending(d.h, p) ensures p in d.armed || BeingParked(d, p) {
      if p !in sys.armed {
        assert BeingParked(sys, p);
        var x :| x in sys.at && sys.at[x] == Parking(p);
        assert x != c ==> x in d.at && d.at[x] == Parking(p);
      }
    }
  }

  lemma ParkPends(sys: System, c: ClientRef, q: PendRef)
    requires ParksNow(sys, c)
    requires sys.h.clients[c].token.value !in sys.h.pending && sys.nextPend !in sys.h.reservations
    ensures StillPending(OnDecide(sys, c).h, q) == (StillPending(sys.h, q) || q == sys.nextPend)
  {
  }

  lemma ParkReserves(sys: System, c: ClientRef)
    requires ParksNow(sys, c)
    ensures var d := OnDecide(sys, c);
            && d.h.reservations.Keys == sys.h.reservations.Keys + {sys.nextPend} && d.nextPend == sys.nextPend + 1
            && d.armed == sys.armed && d.expiring == sys.expiring && d.closing == sys.closing && d.ends == sys.ends
            && d.at == sys.at[c := Parking(sys.nextPend)] && !sys.at[c].Parking?
  {
  }

  lemma ParkKeepsReserved(sys: System, c: ClientRef)
    requires Reserved(sys) && ParksNow(sys, c)
    requires sys.h.clients[c].token.value !in sys.h.pending && sys.nextPend !in sys.h.reservations
    ensures Reserved(OnDecide(sys, c))
  {
    ReservedGrows(sys, OnDecide(sys, c), c) by {
      ParkReserves(sys, c);
      forall q: PendRef ensures StillPending(OnDecide(sys, c).h, q) == (StillPending(sys.h, q) || q == sys.nextPend) {
        ParkPends(sys, c, q);
      }
    }
  }

  // One reservation more, pending, with its timer about to be armed.
  lemma ReservedGrows(sys: System, d: System, c: ClientRef)
    requires Reserved(sys) && c in sys.at && !sys.at[c].Parking?
    requires d.h.reservations.Keys == sys.h.reservations.Keys + {sys.nextPend} && d.nextPend == sys.nextPend + 1
    requires d.armed == sys.armed && d.expiring == sys.expiring && d.closing == sys.closing && d.ends == sys.ends
    requires d.at == sys.at[c := Parking(sys.nextPend)]
    requires forall q: PendRef :: StillPending(d.h, q) == (StillPending(sys.h, q) || q == sys.nextPend)
    ensures Reserved(d)
  {
    ParkedStays(sys, d, c);
    assert c in d.at && d.at[c] == Parking(sys.nextPend);
    forall q ensures Consumed(d, q) == Consumed(sys, q) {}
  }

  lemma PendingValues(sys: System)
    requires Graces(sys)
    ensures forall p :: p in sys.h.pending.Values ==> p in sys.h.reservations && StillPending(sys.h, p)
    ensures forall p :: p in sys.h.reservations && StillPending(sys.h, p) ==> p in sys.h.pending.Values
  {
    forall p | p in sys.h.pending.Values ensures p in sys.h.reservations && StillPending(sys.h, p) {
      var t :| t in sys.h.pending && sys.h.pending[t] == p;
    }
    forall p | p in sys.h.reservations && StillPending(sys.h, p) ensures p in sys.h.pending.Values {
      assert sys.h.pending[sys.h.reservations[p].token] == p;
    }
  }

  lemma CloseConsumes(sys: System, p: PendRef)
    ensures Consumed(OnClose(sys), p) <==> Consumed(sys, p) || p in sys.h.pending.Values
  {
    var d := OnClose(sys);
    var taken := Listed(sys.h.pending.Values);
    var n := |sys.ends|;
    if Consumed(sys, p) {
      var i :| 0 <= i < n && sys.ends[i].0 == p;
      assert d.ends[i].0 == p;
    }
    if p in sys.h.pending.Values {
      assert p in taken;
      var i :| 0 <= i < |taken| && taken[i] == p;
      assert d.ends[n + i].0 == p;
    }
    if Consumed(d, p) {
      var i :| 0 <= i < |d.ends| && d.ends[i].0 == p;
      if i >= n { assert taken[i - n] == p; }
    }
  }

  lemma CloseEndsOnce(sys: System)
    requires Reserved(sys) && Graces(sys)
    ensures var ends := OnClose(sys).ends; forall i, j :: 0 <= i < j < |ends| ==> ends[i].0 != ends[j].0
  {
    var ends := OnClose(sys).ends;
    var taken := Listed(sys.h.pending.Values);
    var n := |sys.ends|;
    PendingValues(sys);
    forall i, j | 0 <= i < j < |ends| ensures ends[i].0 != ends[j].0 {
      if i < n <= j {
        assert taken[j - n] in taken;
        assert Consumed(sys, sys.ends[i].0);
      }
    }
  }

  lemma CloseKeepsReserved(sys: System)
    requires Reserved(sys) && Graces(sys)
    ensures Reserved(OnClose(sys))
  {
    CloseEndsOnce(sys);
    PendingValues(sys);
    forall p: PendRef ensures Consumed(OnClose(sys), p) <==> Consumed(sys, p) || p in sys.h.pending.Values {
      CloseConsumes(sys, p);
    }
  }

  lemma ConnectKeepsReserved(sys: System, c: ClientRef)
    requires Reserved(sys) && Phases(sys)
    ensures Reserved(OnConnect(sys, c))
  {
    if OnConnect(sys, c) != sys { MoveKeepsReserved(sys, OnConnect(sys, c), c); }
  }

  lemma JoinKeepsReserved(sys: System, c: ClientRef)
    requires Reserved(sys) && Phases(sys)
    ensures Reserved(OnJoin(sys, c))
  {
    if OnJoin(sys, c) != sys { MoveKeepsReserved(sys, OnJoin(sys, c), c); }
  }

  lemma ClaimKeepsReserved(sys: System, c: ClientRef)
    requires Reserved(sys) && Phases(sys)
    ensures Reserved(OnClaim(sys, c))
  {
    if OnClaim(sys, c) != sys { MoveKeepsReserved(sys, OnClaim(sys, c), c); }
  }

  lemma AdmitKeepsReserved(sys: System, c: ClientRef)
    requires Reserved(sys) && Phases(sys)
    ensures Reserved(OnAdmit(sys, c))
  {
    if OnAdmit(sys, c) != sys { MoveKeepsReserved(sys, OnAdmit(sys, c), c); }
  }

  lemma AskToLeaveKeepsReserved(sys: System, c: ClientRef)
    requires Reserved(sys) && Phases(sys)
    ensures Reserved(OnAskToLeave(sys, c))
  {
    if OnAskToLeave(sys, c) != sys { MoveKeepsReserved(sys, OnAskToLeave(sys, c), c); }
  }

  lemma DropKeepsReserved(sys: System, c: ClientRef, noGrace: bool)
    requires Reserved(sys) && Phases(sys)
    ensures Reserved(OnDrop(sys, c, noGrace))
  {
    if OnDrop(sys, c, noGrace) != sys { MoveKeepsReserved(sys, OnDrop(sys, c, noGrace), c); }
  }

  lemma ClientLeaveKeepsReserved(sys: System, c: ClientRef)
    requires Reserved(sys) && Phases(sys)
    ensures Reserved(OnLeave(sys, c))
  {
    if OnLeave(sys, c) != sys { MoveKeepsReserved(sys, OnLeave(sys, c), c); }
  }

  lemma ReclaimKeepsReserved(sys: System, c: ClientRef, token: Token)
    requires Inv(sys)
    ensures Reserved(OnReclaim(sys, c, token))
  {
    if AtPhase(sys, c, Reading) && token in sys.h.pending {
      ResumeKeepsReserved(sys, c, token);
    } else if AtPhase(sys, c, Reading) && Reclaimable(sys.h, token) {
      MoveKeepsReserved(sys, OnReclaim(sys, c, token), c);
    }
  }

  lemma DecideKeepsReserved(sys: System, c: ClientRef)
    requires Inv(sys)
    ensures Reserved(OnDecide(sys, c))
  {
    if ParksNow(sys, c) {
      ParkIsFree(sys, c);
      ParkKeepsReserved(sys, c);
    } else if DecidesNow(sys, c) {
      MoveKeepsReserved(sys, OnDecide(sys, c), c);
    }
  }

  lemma LeaveKeepsReserved(sys: System, d: System)
    requires Reserved(sys) && d.at == sys.at
    requires d.h.reservations == sys.h.reservations && d.h.pending == sys.h.pending && d.nextPend == sys.nextPend
    requires d.armed == sys.armed && d.expiring <= sys.expiring && d.closing <= sys.closing && d.ends == sys.ends
    ensures Reserved(d)
  {
    forall p ensures Consumed(d, p) == Consumed(sys, p) && StillPending(d.h, p) == StillPending(sys.h, p) {}
    forall p ensures BeingParked(d, p) == BeingParked(sys, p) {}
  }

  lemma ExpiryLeaveKeepsReserved(sys: System, p: PendRef)
    requires Reserved(sys)
    ensures Reserved(OnExpiryLeave(sys, p))
  {
    LeaveKeepsReserved(sys, OnExpiryLeave(sys, p));
  }

  lemma CloseLeaveKeepsReserved(sys: System, p: PendRef)
    requires Reserved(sys)
    ensures Reserved(OnCloseLeave(sys, p))
  {
    LeaveKeepsReserved(sys, OnCloseLeave(sys, p));
  }

  lemma ArrivalsKeepReserved(sys: System, e: Event)
    requires Inv(sys) && Arrival(e)
    ensures Reserved(Next(sys, e))
  {
    match e
    case Connects(c) => ConnectKeepsReserved(sys, c);
    case JoinsMeeting(c) => JoinKeepsReserved(sys, c);
    case Claims(c) => ClaimKeepsReserved(sys, c);
    case Reclaims(c, token) => ReclaimKeepsReserved(sys, c, token);
    case Admits(c) => AdmitKeepsReserved(sys, c);
    case AsksToLeave(c) => AskToLeaveKeepsReserved(sys, c);
  }

  lemma DeparturesKeepReserved(sys: System, e: Event)
    requires Inv(sys) && Departure(e)
    ensures Reserved(Next(sys, e))
  {
    match e
    case Drops(c, noGrace) => DropKeepsReserved(sys, c, noGrace);
    case Decides(c) => DecideKeepsReserved(sys, c);
    case LeavesMeeting(c) => ClientLeaveKeepsReserved(sys, c);
    case Arms(c) => ArmKeepsReserved(sys, c);
  }

  lemma NextKeepsReserved(sys: System, e: Event)
    requires Inv(sys)
    ensures Reserved(Next(sys, e))
  {
    if Arrival(e) {
      ArrivalsKeepReserved(sys, e);
    } else if Departure(e) {
      DeparturesKeepReserved(sys, e);
    } else {
      match e
      case Fires(p) => FireKeepsReserved(sys, p);
      case ExpiryLeaves(p) => ExpiryLeaveKeepsReserved(sys, p);
      case Closes => CloseKeepsReserved(sys);
      case CloseLeaves(p) => CloseLeaveKeepsReserved(sys, p);
    }
  }

  // Whoever is done with its connection stays done, with the flags it had.
  ghost predicate SameEndings(sys: System, d: System) {
    forall c :: c in sys.h.clients && c in sys.at && (sys.at[c].Parking? || sys.at[c].Finished?) ==>
      c in d.h.clients && c in d.at && (d.at[c].Parking? || d.at[c].Finished?) && d.h.clients[c] == sys.h.clients[c]
  }

  lemma EndingsStay(sys: System, d: System)
    requires Eligible(sys) && SameEndings(sys, d) && d.h.reservations == sys.h.reservations
    ensures Eligible(d)
  {
  }

  lemma ArrivalsKeepEligible(sys: System, e: Event)
    requires Eligible(sys) && (e.Connects? || e.JoinsMeeting? || e.Claims?)
    ensures Eligible(Next(sys, e))
  {
    EndingsStay(sys, Next(sys, e));
  }

  lemma SessionsKeepEligible(sys: System, e: Event)
    requires Eligible(sys) && (e.Admits? || e.AsksToLeave? || e.LeavesMeeting? || e.Arms?)
    ensures Eligible(Next(sys, e))
  {
    EndingsStay(sys, Next(sys, e));
  }

  lemma DropKeepsEligible(sys: System, c: ClientRef, noGrace: bool)
    requires Eligible(sys)
    ensures Eligible(OnDrop(sys, c, noGrace))
  {
    EndingsStay(sys, OnDrop(sys, c, noGrace));
  }

  lemma ReclaimKeepsEligible(sys: System, c: ClientRef, token: Token)
    requires Eligible(sys)
    ensures Eligible(OnReclaim(sys, c, token))
  {
    EndingsStay(sys, OnReclaim(sys, c, token));
  }

  lemma DecideKeepsEligible(sys: System, c: ClientRef)
    requires Eligible(sys)
    ensures Eligible(OnDecide(sys, c))
  {
    if ParksNow(sys, c) { ParkKeepsEligible(sys, c); } else { EndingsStay(sys, OnDecide(sys, c)); }
  }

  lemma ParkKeepsEligible(sys: System, c: ClientRef)
    requires Eligible(sys) && ParksNow(sys, c)
    ensures Eligible(OnDecide(sys, c))
  {
    assert OnDecide(sys, c).h.clients == sys.h.clients;
  }

  lemma NextKeepsEligible(sys: System, e: Event)
    requires Eligible(sys)
    ensures Eligible(Next(sys, e))
  {
    match e
    case Decides(c) => DecideKeepsEligible(sys, c);
    case Fires(_) =>
    case ExpiryLeaves(_) =>
    case Closes =>
    case CloseLeaves(_) =>
    case Admits(_) => SessionsKeepEligible(sys, e);
    case AsksToLeave(_) => SessionsKeepEligible(sys, e);
    case Drops(c, noGrace) => DropKeepsEligible(sys, c, noGrace);
    case Reclaims(c, token) => ReclaimKeepsEligible(sys, c, token);
    case LeavesMeeting(_) => SessionsKeepEligible(sys, e);
    case Arms(_) => SessionsKeepEligible(sys, e);
    case _ => ArrivalsKeepEligible(sys, e);
  }

  // -- All runs ------------------------------------------------------------------------------

  lemma NextKeepsInv(sys: System, e: Event)
    requires Inv(sys)
    ensures Inv(Next(sys, e))
  {
    NextKeepsSlots(sys, e);
    NextKeepsRecords(sys, e);
    NextKeepsReserved(sys, e);
    NextKeepsEligible(sys, e);
  }

  lemma {:induction false} RunKeepsInv(sys: System, events: seq<Event>)
    requires Inv(sys)
    ensures Inv(Run(sys, events))
    decreases |events|
  {
    if events != [] {
      NextKeepsInv(sys, events[0]);
      RunKeepsInv(Next(sys, events[0]), events[1..]);
    }
  }

  // In every interleaving of joins, resumes, drops, timers and Close.
  lemma EveryRunKeepsSlots(events: seq<Event>)
    ensures var sys := Run(Start, events); Tokens(sys) && Phases(sys) && Slots(sys) && Reserved(sys) && Eligible(sys)
  {
    RunKeepsInv(Start, events);
  }

  // A live session's participant, and one that can still resume, has a slot; and
  // a token that can still resume leads to its own participant.
  lemma LiveAndResumableStay(events: seq<Event>, t: Token)
    requires var h := Run(Start, events).h; t in h.active || t in h.pending
    ensures var sys := Run(Start, events);
            t in sys.owner && sys.owner[t] in sys.h.meeting && Reclaimable(sys.h, t) &&
              !(t in sys.h.active && t in sys.h.pending)
    ensures var h := Run(Start, events).h;
            t in h.pending ==> h.reservations[h.pending[t]].participant == Run(Start, events).owner[t]
  {
    var sys := Run(Start, events);
    EveryRunKeepsSlots(events);
    if t in sys.h.active {
      assert sys.h.clients[sys.h.active[t]].token == Some(t);
      assert Holds(sys, ByToken(t), sys.owner[t]);
    } else {
      assert Holds(sys, ByPending(t), sys.owner[t]);
    }
  }

  predicate IsLeave(e: Event) {
    e.LeavesMeeting? || e.ExpiryLeaves? || e.CloseLeaves?
  }

  function LeavesBy(e: Event): Holder
    requires IsLeave(e)
  {
    match e
    case LeavesMeeting(c) => ByGoroutine(c)
    case ExpiryLeaves(p) => ByExpiring(p)
    case CloseLeaves(p) => ByClosing(p)
  }

  lemma OthersEvictNobody(sys: System, e: Event)
    requires !IsLeave(e)
    ensures sys.h.meeting <= Next(sys, e).h.meeting
  {
  }

  lemma EvictedByItsHolder(sys: System, e: Event, pid: Pid)
    requires pid in sys.h.meeting && pid !in Next(sys, e).h.meeting
    ensures IsLeave(e) && Holds(sys, LeavesBy(e), pid)
  {
    if !IsLeave(e) { OthersEvictNobody(sys, e); }
  }

  // A participant leaves the meeting only once no token can bring it back.
  lemma OnlyTheGoneAreEvicted(events: seq<Event>, e: Event, pid: Pid)
    requires pid in Run(Start, events).h.meeting && pid !in Next(Run(Start, events), e).h.meeting
    ensures var sys := Run(Start, events);
            forall t :: t in sys.owner && sys.owner[t] == pid ==> t !in sys.h.active && t !in sys.h.pending
  {
    var sys := Run(Start, events);
    EveryRunKeepsSlots(events);
    EvictedByItsHolder(sys, e, pid);
    var x := LeavesBy(e);
    forall t | t in sys.owner && sys.owner[t] == pid ensures t !in sys.h.active && t !in sys.h.pending {
      if t in sys.h.active { HoldersAgree(sys, pid, x, ByToken(t)); }
      if t in sys.h.pending { HoldersAgree(sys, pid, x, ByPending(t)); }
    }
  }

  // Nothing is left to do: every connection ended, no timer is armed and no
  // expiry or Close is under way.
  ghost predicate Quiescent(sys: System) {
    (forall c :: c in sys.at ==> sys.at[c] == Finished) && sys.armed == {} && sys.expiring == {} && sys.closing == {}
  }

  lemma PendingIsAttended(sys: System, t: Token)
    requires Inv(sys) && t in sys.h.pending
    ensures !Quiescent(sys)
  {
    var p := sys.h.pending[t];
    assert StillPending(sys.h, p);
    if BeingParked(sys, p) {
      var c :| c in sys.at && sys.at[c] == Parking(p);
      assert sys.at[c] != Finished;
    }
  }

  lemma SlotIsAttended(sys: System, pid: Pid)
    requires Inv(sys) && pid in sys.h.meeting
    ensures !Quiescent(sys)
  {
    assert OneHolder(sys, pid);
    var x :| Holds(sys, x, pid);
    match x
    case ByToken(t) => assert sys.at[sys.h.active[t]] == InSession;
    case ByPending(t) => PendingIsAttended(sys, t);
    case ByGoroutine(c) => assert sys.at[c] != Finished;
    case ByExpiring(_) =>
    case ByClosing(_) =>
  }

  // No slot leaks: a hub with nothing left to do has an empty meeting, and every
  // reservation it ever made was resumed, expired or closed, exactly once.
  lemma QuiescentHubIsEmpty(events: seq<Event>)
    requires Quiescent(Run(Start, events))
    ensures var sys := Run(Start, events);
            && sys.h.meeting == {} && sys.h.pending == map[]
            && (forall p :: p in sys.h.reservations <==> Consumed(sys, p))
            && (forall i, j :: 0 <= i < j < |sys.ends| ==> sys.ends[i].0 != sys.ends[j].0)
  {
    var sys := Run(Start, events);
    EveryRunKeepsSlots(events);
    forall t ensures t !in sys.h.pending { if t in sys.h.pending { PendingIsAttended(sys, t); } }
    forall pid ensures pid !in sys.h.meeting { if pid in sys.h.meeting { SlotIsAttended(sys, pid); } }
  }
}
