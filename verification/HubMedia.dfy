/** Media across the hub's sessions: which connection's peer the router knows a
    participant by, and who takes it down.  A reclaim waits until the session it
    replaces has finished before it opens media of its own; a disconnect that
    expects a grace window leaves its media to the end of the window. */
module HubMedia {
  import opened HubSlots

  // `routed` is the router's peer of each participant.  `line` lists the
  // sessions a token has had; `previous` is the session each reclaim waits for.
  // `kept` and `torn` say what a disconnect did about its media in between its
  // two holds; `lapsed` reservations had theirs taken down by the grace timer.
  datatype Media = Media(
    s: System,
    routed: map<Pid, ClientRef>,
    line: map<Token, seq<ClientRef>>,
    previous: map<ClientRef, ClientRef>,
    registered: set<ClientRef>,
    kept: set<ClientRef>,
    torn: set<ClientRef>,
    lapsed: set<PendRef>)

  const Opening := Media(Start, map[], map[], map[], {}, {}, {}, {})

  datatype Act =
    | HubDoes(e: Event)
    | Registers(c: ClientRef)
    | TearsDown(c: ClientRef)
    | LapseTearsDown(p: PendRef)

  predicate Over(s: System, c: ClientRef) {
    c in s.at && s.at[c] == Finished
  }

  // Nothing to wait for any more.
  predicate Ready(m: Media, c: ClientRef) {
    c in m.previous ==> Over(m.s, m.previous[c])
  }

  predicate Bearer(s: System, c: ClientRef, t: Token) {
    c in s.h.clients && s.h.clients[c].token == Some(t)
  }

  function Predecessor(h: Hub, token: Token): ClientRef
    requires Reclaimable(h, token)
  {
    if token in h.pending && h.pending[token] in h.reservations then h.reservations[h.pending[token]].client
    else h.active[token]
  }

  predicate May(m: Media, e: Event) {
    match e
    case Admits(c) => Ready(m, c) && c in m.registered
    case AsksToLeave(c) => Ready(m, c)
    case Drops(c, _) => Ready(m, c)
    case Decides(c) => c in m.kept || c in m.torn
    case ExpiryLeaves(p) => p in m.lapsed
    case _ => true
  }

  predicate Defers(s: System, c: ClientRef, noGrace: bool) {
    AtPhase(s, c, InSession) && Decide(s.h, c, Superseded(s.h, c), noGrace) == Parked
  }

  function LineOf(m: Media, t: Token): seq<ClientRef> {
    if t in m.line then m.line[t] else []
  }

  function Claimed(m: Media, c: ClientRef): Media {
    m.(s := OnClaim(m.s, c), line := m.line[m.s.nextToken := [c]])
  }

  predicate ReclaimsNow(s: System, c: ClientRef, token: Token) {
    AtPhase(s, c, Reading) && Reclaimable(s.h, token)
  }

  function Reclaimed(m: Media, c: ClientRef, token: Token): Media
    requires ReclaimsNow(m.s, c, token)
  {
    m.(s := OnReclaim(m.s, c, token), line := m.line[token := LineOf(m, token) + [c]],
       previous := m.previous[c := Predecessor(m.s.h, token)])
  }

  function Dropped(m: Media, c: ClientRef, noGrace: bool): Media {
    m.(s := OnDrop(m.s, c, noGrace), kept := if Defers(m.s, c, noGrace) then m.kept + {c} else m.kept)
  }

  ghost function OnHub(m: Media, e: Event): Media {
    match e
    case Claims(c) => if ClaimsNow(m.s, c) then Claimed(m, c) else m
    case Reclaims(c, token) => if ReclaimsNow(m.s, c, token) then Reclaimed(m, c, token) else m
    case Drops(c, noGrace) => Dropped(m, c, noGrace)
    case _ => m.(s := HubSlots.Next(m.s, e))
  }

  predicate TearsDownNow(m: Media, c: ClientRef) {
    c in m.s.h.clients && c in m.s.at && m.s.at[c].Disconnecting? && c !in m.kept && c !in m.torn &&
    m.s.h.clients[c].participant.Some?
  }

  predicate RegistersNow(m: Media, c: ClientRef) {
    AtPhase(m.s, c, InSession) && Ready(m, c) && c !in m.registered && m.s.h.clients[c].participant.Some?
  }

  predicate LapsesNow(m: Media, p: PendRef) {
    p in m.s.expiring && p in m.s.h.reservations && p !in m.lapsed
  }

  function Registered(m: Media, c: ClientRef): Media
    requires RegistersNow(m, c)
  {
    m.(routed := m.routed[m.s.h.clients[c].participant.value := c], registered := m.registered + {c})
  }

  function TornDown(m: Media, c: ClientRef): Media
    requires TearsDownNow(m, c)
  {
    m.(routed := m.routed - {m.s.h.clients[c].participant.value}, torn := m.torn + {c})
  }

  function Lapsed(m: Media, p: PendRef): Media
    requires LapsesNow(m, p)
  {
    m.(routed := m.routed - {m.s.h.reservations[p].participant}, lapsed := m.lapsed + {p})
  }

  // One act; one that is not possible changes nothing, so every list is a run.
  ghost function Next(m: Media, a: Act): Media {
    match a
    case HubDoes(e) => if May(m, e) then OnHub(m, e) else m
    case Registers(c) => if RegistersNow(m, c) then Registered(m, c) else m
    case TearsDown(c) => if TearsDownNow(m, c) then TornDown(m, c) else m
    case LapseTearsDown(p) => if LapsesNow(m, p) then Lapsed(m, p) else m
  }

  ghost function Run(m: Media, acts: seq<Act>): Media
    decreases |acts|
  {
    if acts == [] then m else Run(Next(m, acts[0]), acts[1..])
  }

  // -- What every run keeps -----------------------------------------------------------

  predicate Departing(phase: Phase) {
    (phase.Disconnecting? && !phase.superseded) || phase.Removing?
  }

  predicate Leaving(phase: Phase) {
    phase.Disconnecting? || phase.Removing? || phase.Parking? || phase.Finished?
  }

  function Last(line: seq<ClientRef>): ClientRef
    requires line != []
  {
    line[|line| - 1]
  }

  predicate IsLast(m: Media, c: ClientRef, t: Token) {
    t in m.line && m.line[t] != [] && c == Last(m.line[t])
  }

  // A token's line is its bearers, each waiting for the one before.
  ghost predicate Lines(m: Media) {
    && m.line.Keys == m.s.owner.Keys
    && (forall t :: t in m.line ==> m.line[t] != [])
    && (forall t, i :: t in m.line && 0 <= i < |m.line[t]| ==> Bearer(m.s, m.line[t][i], t))
    && (forall c, t :: Bearer(m.s, c, t) ==> t in m.line && c in m.line[t])
    && (forall t, i :: t in m.line && 1 <= i < |m.line[t]| ==> Follows(m, m.line[t][i], m.line[t][i - 1]))
    && (forall c :: c in m.previous ==> c in m.s.h.clients && m.s.h.clients[c].token.Some?)
  }

  predicate Follows(m: Media, c: ClientRef, before: ClientRef) {
    c in m.previous && m.previous[c] == before
  }

  // The session that a holder of a token's slot stands for.
  predicate Stands(s: System, x: Holder, c: ClientRef, t: Token) {
    match x
    case ByToken(u) => u == t && t in s.h.active && s.h.active[t] == c
    case ByPending(u) => u == t && Pends(s, c, t)
    case ByGoroutine(d) => d == c && c in s.at && Departing(s.at[c]) && Bearer(s, c, t)
    case ByExpiring(p) =>
      p in s.expiring && p in s.h.reservations && s.h.reservations[p].token == t && s.h.reservations[p].client == c
    case ByClosing(_) => false
  }

  predicate Pends(s: System, c: ClientRef, t: Token) {
    t in s.h.pending && s.h.pending[t] in s.h.reservations && s.h.reservations[s.h.pending[t]].client == c
  }

  // It is the last of the token's line, and the last of a line in session is
  // the token's active session.
  ghost predicate Currents(m: Media) {
    && (forall x, c, t :: Stands(m.s, x, c, t) ==> IsLast(m, c, t))
    && (forall c, t :: IsLast(m, c, t) && c in m.s.at && m.s.at[c].InSession? ==> t in m.s.h.active)
    && (forall c, t :: IsLast(m, c, t) && c in m.s.at && m.s.at[c].Disconnecting? ==> !m.s.at[c].superseded)
  }

  // Nobody ends or opens media while it waits.
  ghost predicate Waits(m: Media) {
    && (forall c :: c in m.s.at && Leaving(m.s.at[c]) ==> Ready(m, c))
    && (forall c :: c in m.registered ==> Ready(m, c) && c in m.s.h.clients && m.s.h.clients[c].token.Some?)
  }

  predicate Routed(m: Media, c: ClientRef) {
    && c in m.s.h.clients && m.s.h.clients[c].participant.Some?
    && m.s.h.clients[c].participant.value in m.routed && m.routed[m.s.h.clients[c].participant.value] == c
  }

  predicate Unrouted(m: Media, c: ClientRef) {
    c in m.s.h.clients && m.s.h.clients[c].participant.Some? && m.s.h.clients[c].participant.value !in m.routed
  }

  // In session, or dropped with its media kept for a grace window.
  ghost predicate Served(m: Media, c: ClientRef) {
    c in m.registered && c in m.s.at &&
    (m.s.at[c].InSession? || (m.s.at[c].Disconnecting? && c in m.kept) || exists t :: Pends(m.s, c, t))
  }

  // Whoever opened media and is in session or in its grace window has it.
  ghost predicate Routes(m: Media) {
    forall c :: Served(m, c) ==> Routed(m, c)
  }

  // What each disconnect has done about its media.
  predicate Undone(m: Media, c: ClientRef)
    requires c in m.s.at && c in m.s.h.clients
  {
    match m.s.at[c]
    case Disconnecting(superseded, noGrace) =>
      && (c in m.kept ==> !superseded && (m.s.h.closed || Decide(m.s.h, c, false, noGrace) == Parked))
      && (c !in m.kept ==> Decide(m.s.h, c, superseded, noGrace) != Parked)
      && (c in m.torn && !superseded ==> Unrouted(m, c))
    case Removing => if c in m.kept then m.s.h.closed else Unrouted(m, c)
    case _ => true
  }

  ghost predicate Teardowns(m: Media) {
    && (forall c :: c in m.s.at && c in m.s.h.clients ==> Undone(m, c))
    && (forall p :: p in m.s.expiring && p in m.lapsed && p in m.s.h.reservations ==>
          m.s.h.reservations[p].participant !in m.routed)
    && m.kept !! m.torn
    && (forall c :: c in m.kept + m.torn ==> c in m.s.at && Leaving(m.s.at[c]))
    && (forall p :: p in m.lapsed ==> p in m.s.h.reservations && !StillPending(m.s.h, p))
    && (m.s.closing != {} ==> m.s.h.closed)
    && (forall pid :: pid in m.routed ==> pid in m.s.owner.Values)
  }

  ghost predicate Base(m: Media) {
    HubSlots.Inv(m.s) && Lines(m) && Currents(m) && Waits(m)
  }

  ghost predicate MediaInv(m: Media) {
    Base(m) && Routes(m) && Teardowns(m)
  }

  // -- One session of a token at a time ----------------------------------------------------

  lemma {:induction false} EarlierAreOver(m: Media, t: Token, i: nat, j: nat)
    requires Lines(m) && Waits(m) && t in m.line && i < j < |m.line[t]| && Ready(m, m.line[t][j])
    ensures Over(m.s, m.line[t][i])
    decreases j
  {
    assert Follows(m, m.line[t][j], m.line[t][j - 1]);
    if i < j - 1 { EarlierAreOver(m, t, i, j - 1); }
  }

  // Of two sessions of a token that do not wait, one is over; and if it is not
  // the last of the line, it is the earlier.
  lemma OneIsOver(m: Media, t: Token, c: ClientRef, d: ClientRef)
    requires Lines(m) && Waits(m) && c != d && Bearer(m.s, c, t) && Bearer(m.s, d, t)
    requires Ready(m, c) && Ready(m, d)
    ensures Over(m.s, c) || Over(m.s, d)
    ensures IsLast(m, d, t) ==> Over(m.s, c)
  {
    var line := m.line[t];
    var i :| 0 <= i < |line| && line[i] == c;
    var j :| 0 <= j < |line| && line[j] == d;
    if i < j { EarlierAreOver(m, t, i, j); } else { EarlierAreOver(m, t, j, i); }
    if IsLast(m, d, t) && i < |line| - 1 { EarlierAreOver(m, t, i, |line| - 1); }
  }

  predicate Present(s: System, c: ClientRef) {
    c in s.at && (s.at[c].InSession? || s.at[c].Disconnecting? || s.at[c].Removing?)
  }

  lemma LastHasSlot(m: Media, c: ClientRef, t: Token)
    requires Tokens(m.s) && Phases(m.s) && Currents(m) && Bearer(m.s, c, t) && IsLast(m, c, t) && Present(m.s, c)
    ensures exists x :: Holds(m.s, x, m.s.owner[t])
  {
    if m.s.at[c].InSession? {
      assert Holds(m.s, ByToken(t), m.s.owner[t]);
    } else {
      assert Holds(m.s, ByGoroutine(c), m.s.owner[t]);
    }
  }

  // A session that is not over and does not wait has a slot in the meeting.
  lemma PresentHasSlot(m: Media, c: ClientRef, t: Token)
    requires Tokens(m.s) && Phases(m.s) && Slots(m.s) && Lines(m) && Currents(m) && Waits(m)
    requires Bearer(m.s, c, t) && Ready(m, c) && Present(m.s, c)
    ensures m.s.h.clients[c].participant == Some(m.s.owner[t]) && m.s.owner[t] in m.s.h.meeting
  {
    var last := Last(m.line[t]);
    assert Bearer(m.s, last, t);
    if last != c && Ready(m, last) { OneIsOver(m, t, c, last); }
    LastHasSlot(m, last, t);
  }

  // -- Opening and taking down media ---------------------------------------------------------

  lemma SameTokenSameParticipant(s: System, c: ClientRef, d: ClientRef, t: Token)
    requires Tokens(s) && Bearer(s, c, t) && d in s.h.clients && s.h.clients[d].token.Some?
    requires s.h.clients[d].participant == s.h.clients[c].participant
    ensures Bearer(s, d, t) && s.h.clients[c].participant == Some(s.owner[t])
  {
  }

  lemma ParkedIsLast(m: Media, c: ClientRef, t: Token, u: Token)
    requires Tokens(m.s) && Graces(m.s) && Currents(m) && Bearer(m.s, c, t) && Pends(m.s, c, u) && Lines(m)
    ensures IsLast(m, c, t)
  {
    assert Stands(m.s, ByPending(u), c, u);
    assert Bearer(m.s, c, u);
  }

  // A served session shares its participant with no other that neither waits nor
  // is over.
  lemma ServedAlone(m: Media, c: ClientRef, d: ClientRef, t: Token)
    requires Tokens(m.s) && Graces(m.s) && Lines(m) && Currents(m) && Waits(m)
    requires Served(m, d) && c != d && Bearer(m.s, c, t) && Ready(m, c) && !Over(m.s, c)
    ensures m.s.h.clients[d].participant != m.s.h.clients[c].participant
  {
    if m.s.h.clients[d].participant == m.s.h.clients[c].participant {
      SameTokenSameParticipant(m.s, c, d, t);
      OneIsOver(m, t, c, d);
      if u :| Pends(m.s, d, u) { ParkedIsLast(m, d, t, u); }
    }
  }

  // A reservation's session is parked or over.
  lemma PendingIsParked(s: System, c: ClientRef, t: Token)
    requires Eligible(s) && Pends(s, c, t)
    ensures c in s.at && (s.at[c].Parking? || s.at[c].Finished?)
  {
  }

  lemma TornStaysServed(m: Media, c: ClientRef, x: ClientRef)
    requires Base(m) && TearsDownNow(m, c)
    requires Served(m, x)
    ensures x in m.s.h.clients && m.s.h.clients[x].participant != m.s.h.clients[c].participant
  {
    var t := m.s.h.clients[c].token.value;
    if x == c {
      if u :| Pends(m.s, c, u) { PendingIsParked(m.s, c, u); }
    } else {
      ServedAlone(m, c, x, t);
    }
  }

  lemma TearingDownKeepsRoutes(m: Media, c: ClientRef)
    requires Base(m) && Routes(m) && TearsDownNow(m, c)
    ensures Routes(TornDown(m, c))
  {
    forall x | Served(TornDown(m, c), x) ensures Routed(TornDown(m, c), x) {
      assert Served(m, x);
      TornStaysServed(m, c, x);
    }
  }

  lemma TearingDownKeepsTeardowns(m: Media, c: ClientRef)
    requires Teardowns(m) && TearsDownNow(m, c)
    ensures Teardowns(TornDown(m, c))
  {
    var d := TornDown(m, c);
    forall x | x in d.s.at && x in d.s.h.clients ensures Undone(d, x) { assert Undone(m, x); }
  }

  // What depends only on the hub and on who waits for whom.
  lemma SameBase(m: Media, d: Media)
    requires Base(m) && d.s == m.s && d.line == m.line && d.previous == m.previous
    requires forall c :: c in d.registered && c !in m.registered ==>
               Ready(m, c) && c in m.s.h.clients && m.s.h.clients[c].token.Some?
    ensures Base(d)
  {
    SameLines(m, d);
    assert Waits(d) by {
      forall c | c in d.s.at && Leaving(d.s.at[c]) ensures Ready(d, c) { assert Ready(m, c); }
      forall c | c in d.registered ensures Ready(d, c) { assert Ready(m, c); }
    }
  }

  lemma SameLines(m: Media, d: Media)
    requires d.s == m.s && d.line == m.line && d.previous == m.previous
    requires Lines(m) && Currents(m)
    ensures Lines(d) && Currents(d)
  {
    forall x, c, t | Stands(d.s, x, c, t) ensures IsLast(d, c, t) { assert Stands(m.s, x, c, t); }
    forall c, t | IsLast(d, c, t) && c in d.s.at ensures d.s.at[c].InSession? ==> t in d.s.h.active {
      assert IsLast(m, c, t);
    }
    forall c, t | IsLast(d, c, t) && c in d.s.at && d.s.at[c].Disconnecting? ensures !d.s.at[c].superseded {
      assert IsLast(m, c, t);
    }
    forall t, i | t in d.line && 1 <= i < |d.line[t]| ensures Follows(d, d.line[t][i], d.line[t][i - 1]) {
      assert Follows(m, m.line[t][i], m.line[t][i - 1]);
    }
    forall c, t | Bearer(d.s, c, t) ensures t in d.line && c in d.line[t] { assert Bearer(m.s, c, t); }
  }

  lemma TearingDownKeepsInv(m: Media, c: ClientRef)
    requires MediaInv(m) && TearsDownNow(m, c)
    ensures MediaInv(TornDown(m, c))
  {
    SameBase(m, TornDown(m, c));
    TearingDownKeepsRoutes(m, c);
    TearingDownKeepsTeardowns(m, c);
  }

  // -- Registering ------------------------------------------------------------------------

  lemma RegisteringKeepsRoutes(m: Media, c: ClientRef)
    requires Base(m) && Routes(m) && RegistersNow(m, c)
    ensures Routes(Registered(m, c))
  {
    var t := m.s.h.clients[c].token.value;
    forall x | Served(Registered(m, c), x) ensures Routed(Registered(m, c), x) {
      if x != c {
        assert Served(m, x);
        ServedAlone(m, c, x, t);
      }
    }
  }

  // Nothing that is being taken down belongs to a session that may still register.
  lemma RegisteringSpares(m: Media, c: ClientRef, x: ClientRef)
    requires Base(m) && RegistersNow(m, c)
    requires x in m.s.at && x in m.s.h.clients && Departing(m.s.at[x])
    ensures m.s.h.clients[x].participant != m.s.h.clients[c].participant
  {
    if m.s.h.clients[x].participant == m.s.h.clients[c].participant {
      var t := m.s.h.clients[c].token.value;
      SameTokenSameParticipant(m.s, c, x, t);
      OneIsOver(m, t, c, x);
    }
  }

  lemma RegisteringSparesLapse(m: Media, c: ClientRef, p: PendRef)
    requires Base(m) && RegistersNow(m, c)
    requires p in m.s.expiring && p in m.s.h.reservations
    ensures Some(m.s.h.reservations[p].participant) != m.s.h.clients[c].participant
  {
    var r := m.s.h.reservations[p];
    var t := m.s.h.clients[c].token.value;
    if Some(r.participant) == m.s.h.clients[c].participant {
      assert r.token == t;
      assert Stands(m.s, ByExpiring(p), r.client, t);
      OneIsOver(m, t, c, r.client);
    }
  }

  lemma RegisteringKeepsTeardowns(m: Media, c: ClientRef)
    requires MediaInv(m) && RegistersNow(m, c)
    ensures Teardowns(Registered(m, c))
  {
    var d := Registered(m, c);
    forall x | x in d.s.at && x in d.s.h.clients ensures Undone(d, x) {
      assert Undone(m, x);
      if Departing(m.s.at[x]) { RegisteringSpares(m, c, x); }
    }
    forall p | p in d.s.expiring && p in d.lapsed && p in d.s.h.reservations
      ensures d.s.h.reservations[p].participant !in d.routed
    {
      RegisteringSparesLapse(m, c, p);
    }
  }

  lemma RegisteringKeepsInv(m: Media, c: ClientRef)
    requires MediaInv(m) && RegistersNow(m, c)
    ensures MediaInv(Registered(m, c))
  {
    SameBase(m, Registered(m, c));
    RegisteringKeepsRoutes(m, c);
    RegisteringKeepsTeardowns(m, c);
  }

  // -- The grace timer's teardown -----------------------------------------------------------

  lemma LapseSpares(m: Media, p: PendRef, x: ClientRef)
    requires Base(m) && LapsesNow(m, p) && Served(m, x)
    ensures x in m.s.h.clients && m.s.h.clients[x].participant != Some(m.s.h.reservations[p].participant)
  {
    var r := m.s.h.reservations[p];
    if m.s.h.clients[x].participant == Some(r.participant) {
      assert Holds(m.s, ByExpiring(p), r.participant);
      assert Bearer(m.s, x, r.token);
      assert Stands(m.s, ByExpiring(p), r.client, r.token);
      if u :| Pends(m.s, x, u) {
        PendingHolds(m, x, u, r.token);
        HoldersAgree(m.s, r.participant, ByExpiring(p), ByPending(u));
      } else {
        OneIsOver(m, r.token, x, r.client);
      }
    }
  }

  lemma PendingHolds(m: Media, c: ClientRef, u: Token, t: Token)
    requires Tokens(m.s) && Graces(m.s) && Lines(m) && Currents(m) && Pends(m.s, c, u) && Bearer(m.s, c, t)
    ensures u == t && Holds(m.s, ByPending(t), m.s.owner[t])
  {
    assert Stands(m.s, ByPending(u), c, u);
    assert Bearer(m.s, c, u);
  }

  lemma LapsingKeepsRoutes(m: Media, p: PendRef)
    requires Base(m) && Routes(m) && LapsesNow(m, p)
    ensures Routes(Lapsed(m, p))
  {
    forall x | Served(Lapsed(m, p), x) ensures Routed(Lapsed(m, p), x) {
      assert Served(m, x);
      LapseSpares(m, p, x);
    }
  }

  lemma ExpiringIsNotPending(s: System, p: PendRef)
    requires Tokens(s) && Slots(s) && p in s.expiring && p in s.h.reservations
    ensures !StillPending(s.h, p)
  {
    if StillPending(s.h, p) {
      var r := s.h.reservations[p];
      assert Holds(s, ByExpiring(p), r.participant) && Holds(s, ByPending(r.token), r.participant);
      HoldersAgree(s, r.participant, ByExpiring(p), ByPending(r.token));
    }
  }

  lemma LapsingKeepsTeardowns(m: Media, p: PendRef)
    requires Tokens(m.s) && Slots(m.s) && Teardowns(m) && LapsesNow(m, p)
    ensures Teardowns(Lapsed(m, p))
  {
    var d := Lapsed(m, p);
    ExpiringIsNotPending(m.s, p);
    forall x | x in d.s.at && x in d.s.h.clients ensures Undone(d, x) { assert Undone(m, x); }
  }

  lemma LapsingKeepsInv(m: Media, p: PendRef)
    requires MediaInv(m) && LapsesNow(m, p)
    ensures MediaInv(Lapsed(m, p))
  {
    SameBase(m, Lapsed(m, p));
    LapsingKeepsRoutes(m, p);
    LapsingKeepsTeardowns(m, p);
  }

  // -- Steps of the hub that pass media by ---------------------------------------------------

  // Sessions keep their tokens; none begins, drops, parks or lapses.
  ghost predicate Quiet(s: System, n: System) {
    && n.owner == s.owner && n.h.active == s.h.active && n.h.reservations == s.h.reservations
    && n.expiring <= s.expiring
    && (forall t :: t in n.h.pending ==> t in s.h.pending && n.h.pending[t] == s.h.pending[t])
    && (s.h.closed ==> n.h.closed) && (n.closing != {} ==> n.h.closed)
    && (forall c :: c in s.h.clients ==>
          c in n.h.clients && n.h.clients[c].token == s.h.clients[c].token
          && n.h.clients[c].participant == s.h.clients[c].participant)
    && (forall c :: c in n.h.clients && c !in s.h.clients ==> n.h.clients[c] == NewClient)
    && (forall c :: c in n.at && c in n.h.clients ==> QuietPhase(s, n, c))
    && (forall c :: c in s.at && Leaving(s.at[c]) ==> c in n.at && (n.at[c] == s.at[c] || n.at[c].Finished?))
  }

  predicate QuietPhase(s: System, n: System, c: ClientRef)
    requires c in n.at && c in n.h.clients
  {
    || n.at[c].Reading? || n.at[c].Claiming?
    || (c in s.at && n.at[c] == s.at[c] && (Leaving(s.at[c]) ==> c in s.h.clients && n.h.clients[c] == s.h.clients[c]))
    || (n.at[c].Finished? && c in s.at && (Leaving(s.at[c]) || n.h.clients[c].token.None?))
  }

  lemma QuietKeepsLines(m: Media, n: System)
    requires Lines(m) && Quiet(m.s, n)
    ensures Lines(m.(s := n))
  {
    var d := m.(s := n);
    forall c, t ensures Bearer(n, c, t) == Bearer(m.s, c, t) {}
    forall t, i | t in d.line && 1 <= i < |d.line[t]| ensures Follows(d, d.line[t][i], d.line[t][i - 1]) {
      assert Follows(m, m.line[t][i], m.line[t][i - 1]);
    }
  }

  lemma QuietKeepsCurrents(m: Media, n: System)
    requires Currents(m) && Quiet(m.s, n) && n.at.Keys == n.h.clients.Keys
    ensures Currents(m.(s := n))
  {
    var d := m.(s := n);
    forall x, c, t | Stands(n, x, c, t) ensures IsLast(d, c, t) {
      assert Stands(m.s, x, c, t);
      assert IsLast(m, c, t);
    }
    forall c, t | IsLast(d, c, t) && c in n.at && n.at[c].InSession? ensures t in n.h.active {
      assert QuietPhase(m.s, n, c) && IsLast(m, c, t);
    }
    forall c, t | IsLast(d, c, t) && c in n.at && n.at[c].Disconnecting? ensures !n.at[c].superseded {
      assert QuietPhase(m.s, n, c) && IsLast(m, c, t);
    }
  }

  lemma QuietKeepsReady(m: Media, n: System, c: ClientRef)
    requires Quiet(m.s, n) && Ready(m, c)
    ensures Ready(m.(s := n), c)
  {
  }

  lemma QuietKeepsWaits(m: Media, n: System)
    requires Lines(m) && Waits(m) && Quiet(m.s, n) && n.at.Keys == n.h.clients.Keys
    ensures Waits(m.(s := n))
  {
    var d := m.(s := n);
    forall c | c in n.at && Leaving(n.at[c]) ensures Ready(d, c) {
      assert QuietPhase(m.s, n, c);
      if Leaving(m.s.at[c]) { QuietKeepsReady(m, n, c); }
    }
    forall c | c in d.registered ensures Ready(d, c) { QuietKeepsReady(m, n, c); }
  }

  lemma QuietKeepsRoutes(m: Media, n: System)
    requires Routes(m) && Waits(m) && Quiet(m.s, n)
    requires n.at.Keys == n.h.clients.Keys && m.s.at.Keys == m.s.h.clients.Keys
    ensures Routes(m.(s := n))
  {
    var d := m.(s := n);
    forall c | Served(d, c) ensures Routed(d, c) {
      assert QuietPhase(m.s, n, c);
      if t :| Pends(n, c, t) { assert Pends(m.s, c, t); }
      assert Served(m, c);
    }
  }

  lemma QuietKeepsTeardowns(m: Media, n: System)
    requires Teardowns(m) && Quiet(m.s, n) && n.at.Keys == n.h.clients.Keys && m.s.at.Keys == m.s.h.clients.Keys
    ensures Teardowns(m.(s := n))
  {
    var d := m.(s := n);
    forall c | c in n.at && c in n.h.clients ensures Undone(d, c) {
      assert QuietPhase(m.s, n, c);
      if Leaving(n.at[c]) && !n.at[c].Finished? { assert Undone(m, c); }
    }
  }

  lemma QuietKeepsInv(m: Media, n: System)
    requires MediaInv(m) && HubSlots.Inv(n) && Quiet(m.s, n)
    ensures MediaInv(m.(s := n))
  {
    QuietKeepsLines(m, n);
    QuietKeepsCurrents(m, n);
    QuietKeepsWaits(m, n);
    QuietKeepsRoutes(m, n);
    QuietKeepsTeardowns(m, n);
  }

  lemma ConnectIsQuiet(s: System, c: ClientRef)
    requires Records(s) && (s.closing != {} ==> s.h.closed)
    ensures Quiet(s, OnConnect(s, c))
  {
  }

  lemma JoinIsQuiet(s: System, c: ClientRef)
    requires Records(s) && (s.closing != {} ==> s.h.closed)
    ensures Quiet(s, OnJoin(s, c))
  {
  }

  lemma AdmitIsQuiet(s: System, c: ClientRef)
    requires Records(s) && (s.closing != {} ==> s.h.closed)
    ensures Quiet(s, OnAdmit(s, c))
  {
  }

  lemma AskToLeaveIsQuiet(s: System, c: ClientRef)
    requires Records(s) && (s.closing != {} ==> s.h.closed)
    ensures Quiet(s, OnAskToLeave(s, c))
  {
  }

  lemma LeaveMeetingIsQuiet(s: System, c: ClientRef)
    requires Records(s) && (s.closing != {} ==> s.h.closed)
    ensures Quiet(s, OnLeave(s, c))
  {
  }

  lemma ArmIsQuiet(s: System, c: ClientRef)
    requires Records(s) && (s.closing != {} ==> s.h.closed)
    ensures Quiet(s, OnArm(s, c))
  {
  }

  lemma ExpiryLeaveIsQuiet(s: System, p: PendRef)
    requires Records(s) && (s.closing != {} ==> s.h.closed)
    ensures Quiet(s, OnExpiryLeave(s, p))
  {
  }

  lemma CloseIsQuiet(s: System)
    requires Records(s) && (s.closing != {} ==> s.h.closed)
    ensures Quiet(s, OnClose(s))
  {
  }

  lemma CloseLeaveIsQuiet(s: System, p: PendRef)
    requires Records(s) && (s.closing != {} ==> s.h.closed)
    ensures Quiet(s, OnCloseLeave(s, p))
  {
  }

  // The other steps of a disconnect and of a timer, when they decide on nothing
  // that has media.
  lemma IgnoredIsQuiet(s: System, c: ClientRef)
    requires Records(s) && (s.closing != {} ==> s.h.closed)
    requires DecidesNow(s, c) ==> Decide(s.h, c, s.at[c].superseded, s.at[c].noGrace) == Ignored
    ensures Quiet(s, OnDecide(s, c))
  {
  }

  lemma EmptyDropIsQuiet(s: System, c: ClientRef, noGrace: bool)
    requires Records(s) && (s.closing != {} ==> s.h.closed) && !AtPhase(s, c, InSession)
    ensures Quiet(s, OnDrop(s, c, noGrace))
  {
  }

  lemma StaleFireIsQuiet(s: System, p: PendRef)
    requires Records(s) && (s.closing != {} ==> s.h.closed) && !(p in s.armed && StillPending(s.h, p))
    ensures Quiet(s, OnFire(s, p))
  {
  }

  // -- Steps that do not ------------------------------------------------------------------------

  // One more session at the end of a token's line.
  ghost predicate Grows(m: Media, d: Media, c: ClientRef, t: Token) {
    && d.line == m.line[t := LineOf(m, t) + [c]]
    && d.s.owner.Keys == m.s.owner.Keys + {t}
    && (forall x, u :: Bearer(d.s, x, u) == if x == c then u == t else Bearer(m.s, x, u))
    && (forall u :: !Bearer(m.s, c, u))
    && (LineOf(m, t) != [] ==> Follows(d, c, Last(LineOf(m, t))))
    && (forall x :: x in m.previous ==> Follows(d, x, m.previous[x]))
    && (forall x :: x in d.previous ==> x in d.s.h.clients && d.s.h.clients[x].token.Some?)
  }

  lemma GrownLineBears(m: Media, d: Media, c: ClientRef, t: Token)
    requires Lines(m) && Grows(m, d, c, t)
    ensures forall u, i :: u in d.line && 0 <= i < |d.line[u]| ==> Bearer(d.s, d.line[u][i], u)
    ensures forall x, u :: Bearer(d.s, x, u) ==> u in d.line && x in d.line[u]
  {
    forall u, i | u in d.line && 0 <= i < |d.line[u]| ensures Bearer(d.s, d.line[u][i], u) {
      if u != t || i < |LineOf(m, t)| { assert Bearer(m.s, m.line[u][i], u); }
    }
    forall x, u | Bearer(d.s, x, u) ensures u in d.line && x in d.line[u] {
      if x != c {
        assert Bearer(m.s, x, u);
        assert x in m.line[u];
      } else {
        assert d.line[u][|d.line[u]| - 1] == c;
      }
    }
  }

  lemma GrownLineFollows(m: Media, d: Media, c: ClientRef, t: Token, u: Token, i: nat)
    requires Lines(m) && Grows(m, d, c, t) && u in d.line && 1 <= i < |d.line[u]|
    ensures Follows(d, d.line[u][i], d.line[u][i - 1])
  {
    if u != t || i < |LineOf(m, t)| { assert Follows(m, m.line[u][i], m.line[u][i - 1]); }
  }

  lemma LineGrows(m: Media, d: Media, c: ClientRef, t: Token)
    requires Lines(m) && Grows(m, d, c, t)
    ensures Lines(d)
  {
    GrownLineBears(m, d, c, t);
    forall u, i | u in d.line && 1 <= i < |d.line[u]| ensures Follows(d, d.line[u][i], d.line[u][i - 1]) {
      GrownLineFollows(m, d, c, t, u, i);
    }
  }

  lemma ClaimBears(s: System, c: ClientRef)
    requires Records(s) && ClaimsNow(s, c)
    ensures forall x, u :: Bearer(OnClaim(s, c), x, u) == if x == c then u == s.nextToken else Bearer(s, x, u)
  {
  }

  lemma ClaimKeepsLines(m: Media, c: ClientRef)
    requires Tokens(m.s) && Records(m.s) && Lines(m) && ClaimsNow(m.s, c)
    ensures Lines(Claimed(m, c))
  {
    ClaimGrows(m, c);
    LineGrows(m, Claimed(m, c), c, m.s.nextToken);
  }

  lemma ClaimGrows(m: Media, c: ClientRef)
    requires Tokens(m.s) && Records(m.s) && ClaimsNow(m.s, c) && m.line.Keys == m.s.owner.Keys
    requires forall x :: x in m.previous ==> x in m.s.h.clients && m.s.h.clients[x].token.Some?
    ensures Grows(m, Claimed(m, c), c, m.s.nextToken)
  {
    assert LineOf(m, m.s.nextToken) + [c] == [c];
    ClaimBears(m.s, c);
    ClaimKeepsPrevious(m, c);
  }

  lemma ClaimKeepsPrevious(m: Media, c: ClientRef)
    requires ClaimsNow(m.s, c)
    requires forall x :: x in m.previous ==> x in m.s.h.clients && m.s.h.clients[x].token.Some?
    ensures forall x :: x in m.previous ==> Follows(Claimed(m, c), x, m.previous[x])
    ensures forall x :: x in Claimed(m, c).previous ==>
              x in Claimed(m, c).s.h.clients && Claimed(m, c).s.h.clients[x].token.Some?
  {
  }

  lemma GrownLineEnds(m: Media, d: Media, c: ClientRef, t: Token)
    requires Lines(m) && Grows(m, d, c, t)
    ensures forall y, u :: IsLast(d, y, u) ==> if u == t then y == c else IsLast(m, y, u) && y != c
    ensures forall y, u :: IsLast(m, y, u) && u != t ==> IsLast(d, y, u)
    ensures IsLast(d, c, t)
  {
    forall y, u | IsLast(d, y, u) && u != t ensures IsLast(m, y, u) && y != c {
      assert Bearer(m.s, y, u);
    }
  }

  lemma ClaimStands(s: System, c: ClientRef, x: Holder, y: ClientRef, t: Token)
    requires Tokens(s) && Phases(s) && ClaimsNow(s, c) && Stands(OnClaim(s, c), x, y, t)
    ensures (t == s.nextToken && y == c) || (t != s.nextToken && Stands(s, x, y, t))
  {
  }

  lemma ClaimKeepsCurrents(m: Media, c: ClientRef)
    requires Tokens(m.s) && Phases(m.s) && Lines(m) && Currents(m) && ClaimsNow(m.s, c)
    ensures Currents(Claimed(m, c))
  {
    var d := Claimed(m, c);
    ClaimGrows(m, c);
    GrownLineEnds(m, d, c, m.s.nextToken);
    forall x, y, t | Stands(d.s, x, y, t) ensures IsLast(d, y, t) { ClaimStands(m.s, c, x, y, t); }
  }

  lemma ClaimKeepsInv(m: Media, c: ClientRef)
    requires MediaInv(m) && ClaimsNow(m.s, c) && HubSlots.Inv(OnClaim(m.s, c))
    ensures MediaInv(Claimed(m, c))
  {
    ClaimKeepsLines(m, c);
    ClaimKeepsCurrents(m, c);
    ClaimKeepsWaits(m, c);
    ClaimKeepsRoutes(m, c);
    ClaimKeepsTeardowns(m, c);
  }

  lemma ClaimKeepsWaits(m: Media, c: ClientRef)
    requires Waits(m) && ClaimsNow(m.s, c)
    ensures Waits(Claimed(m, c))
  {
    var d := Claimed(m, c);
    forall x | Ready(m, x) ensures Ready(d, x) {}
  }

  lemma ClaimKeepsRoutes(m: Media, c: ClientRef)
    requires Records(m.s) && Waits(m) && Routes(m) && ClaimsNow(m.s, c)
    ensures Routes(Claimed(m, c))
  {
    var d := Claimed(m, c);
    forall x | Served(d, x) ensures Routed(d, x) {
      if t :| Pends(d.s, x, t) { assert Pends(m.s, x, t); }
      assert Served(m, x);
    }
  }

  lemma ClaimKeepsTeardowns(m: Media, c: ClientRef)
    requires Tokens(m.s) && Records(m.s) && Teardowns(m) && ClaimsNow(m.s, c)
    ensures Teardowns(Claimed(m, c))
  {
    var d := Claimed(m, c);
    forall x | x in d.s.at && x in d.s.h.clients ensures Undone(d, x) {
      if x != c { assert Undone(m, x); }
    }
    OwnersStay(m.s, d.s);
    forall p ensures StillPending(d.s.h, p) == StillPending(m.s.h, p) {}
  }

  lemma OwnersStay(s: System, n: System)
    requires forall t :: t in s.owner ==> t in n.owner && n.owner[t] == s.owner[t]
    ensures forall pid :: pid in s.owner.Values ==> pid in n.owner.Values
  {
    forall pid | pid in s.owner.Values ensures pid in n.owner.Values {
      var t :| t in s.owner && s.owner[t] == pid;
      assert n.owner[t] == pid;
    }
  }

  // -- Reclaiming -----------------------------------------------------------------------------

  // A token that can be reclaimed has no session in transit and none expiring.
  lemma ReclaimableIsHeld(s: System, t: Token, x: Holder, c: ClientRef)
    requires Tokens(s) && Phases(s) && Slots(s) && Reclaimable(s.h, t) && Stands(s, x, c, t)
    ensures x == ByToken(t) || x == ByPending(t)
    ensures c == Predecessor(s.h, t)
  {
    var y := if t in s.h.pending then ByPending(t) else ByToken(t);
    assert Holds(s, y, s.owner[t]);
    assert Holds(s, x, s.owner[t]);
    HoldersAgree(s, s.owner[t], x, y);
  }

  lemma ReclaimKeepsLines(m: Media, c: ClientRef, t: Token)
    requires Records(m.s) && Phases(m.s) && Lines(m) && Currents(m) && ReclaimsNow(m.s, c, t)
    ensures Lines(Reclaimed(m, c, t))
  {
    PredecessorIsLast(m, t);
    ReclaimGrows(m, c, t);
    LineGrows(m, Reclaimed(m, c, t), c, t);
  }

  lemma ReclaimGrows(m: Media, c: ClientRef, t: Token)
    requires Records(m.s) && ReclaimsNow(m.s, c, t) && t in m.s.owner
    requires IsLast(m, Predecessor(m.s.h, t), t)
    requires forall x :: x in m.previous ==> x in m.s.h.clients && m.s.h.clients[x].token.Some?
    ensures Grows(m, Reclaimed(m, c, t), c, t)
  {
    ReclaimBears(m.s, c, t);
    assert c !in m.previous;
  }

  lemma PredecessorIsLast(m: Media, t: Token)
    requires Phases(m.s) && Currents(m) && Reclaimable(m.s.h, t)
    ensures IsLast(m, Predecessor(m.s.h, t), t)
  {
    var x := if t in m.s.h.pending then ByPending(t) else ByToken(t);
    assert Stands(m.s, x, Predecessor(m.s.h, t), t);
  }

  // The reclaiming session bears the token, and nobody else's token changes.
  lemma ReclaimBears(s: System, c: ClientRef, t: Token)
    requires Records(s) && ReclaimsNow(s, c, t)
    ensures forall u :: !Bearer(s, c, u)
    ensures forall x, u :: Bearer(OnReclaim(s, c, t), x, u) == if x == c then u == t else Bearer(s, x, u)
  {
  }

  lemma ReclaimStands(s: System, c: ClientRef, t: Token, x: Holder, y: ClientRef, u: Token)
    requires Tokens(s) && Phases(s) && Slots(s) && ReclaimsNow(s, c, t) && Stands(OnReclaim(s, c, t), x, y, u)
    ensures (u == t && y == c) || (u != t && Stands(s, x, y, u))
  {
    ReclaimBears(s, c, t);
    if x != ByToken(t) && u == t {
      assert Stands(s, x, y, u);
      ReclaimableIsHeld(s, t, x, y);
    }
  }

  lemma ReclaimKeepsCurrents(m: Media, c: ClientRef, t: Token)
    requires Tokens(m.s) && Phases(m.s) && Slots(m.s) && Lines(m) && Currents(m) && ReclaimsNow(m.s, c, t)
    ensures Currents(Reclaimed(m, c, t))
  {
    var d := Reclaimed(m, c, t);
    PredecessorIsLast(m, t);
    ReclaimGrows(m, c, t);
    GrownLineEnds(m, d, c, t);
    forall x, y, u | Stands(d.s, x, y, u) ensures IsLast(d, y, u) { ReclaimStands(m.s, c, t, x, y, u); }
    forall y, u | IsLast(d, y, u) && y in d.s.at
      ensures d.s.at[y].InSession? ==> u in d.s.h.active
      ensures d.s.at[y].Disconnecting? ==> !d.s.at[y].superseded
    {
      ReclaimedEnds(m, c, t, y, u);
    }
  }

  lemma ReclaimedEnds(m: Media, c: ClientRef, t: Token, y: ClientRef, u: Token)
    requires Currents(m) && ReclaimsNow(m.s, c, t)
    requires if u == t then y == c else IsLast(m, y, u) && y != c
    requires var d := OnReclaim(m.s, c, t); y in d.at
    ensures var d := OnReclaim(m.s, c, t);
            && (d.at[y].InSession? ==> u in d.h.active)
            && (d.at[y].Disconnecting? ==> !d.at[y].superseded)
  {
  }

  lemma ReclaimKeepsWaits(m: Media, c: ClientRef, t: Token)
    requires Records(m.s) && Lines(m) && Waits(m) && ReclaimsNow(m.s, c, t)
    ensures Waits(Reclaimed(m, c, t))
  {
    var d := Reclaimed(m, c, t);
    assert c !in m.registered;
    forall x | x != c && Ready(m, x) ensures Ready(d, x) {}
  }

  lemma ReclaimKeepsRoutes(m: Media, c: ClientRef, t: Token)
    requires Records(m.s) && Waits(m) && Routes(m) && ReclaimsNow(m.s, c, t)
    ensures Routes(Reclaimed(m, c, t))
  {
    var d := Reclaimed(m, c, t);
    assert c !in m.registered;
    forall x | Served(d, x) ensures Routed(d, x) {
      if u :| Pends(d.s, x, u) { assert Pends(m.s, x, u); }
      assert Served(m, x);
    }
  }

  lemma ReclaimKeepsTeardowns(m: Media, c: ClientRef, t: Token)
    requires Records(m.s) && Teardowns(m) && ReclaimsNow(m.s, c, t)
    ensures Teardowns(Reclaimed(m, c, t))
  {
    var d := Reclaimed(m, c, t);
    forall x | x in d.s.at && x in d.s.h.clients ensures Undone(d, x) {
      if x != c { assert Undone(m, x); }
    }
    forall p | StillPending(d.s.h, p) ensures StillPending(m.s.h, p) {}
  }

  lemma ReclaimKeepsInv(m: Media, c: ClientRef, t: Token)
    requires MediaInv(m) && ReclaimsNow(m.s, c, t) && HubSlots.Inv(OnReclaim(m.s, c, t))
    ensures MediaInv(Reclaimed(m, c, t))
  {
    ReclaimKeepsLines(m, c, t);
    ReclaimKeepsCurrents(m, c, t);
    ReclaimKeepsWaits(m, c, t);
    ReclaimKeepsRoutes(m, c, t);
    ReclaimKeepsTeardowns(m, c, t);
  }

  // -- Dropping ---------------------------------------------------------------------------------

  // A session that drops, decides, or is given a window keeps its line.
  ghost predicate SameBearers(s: System, n: System) {
    && n.owner == s.owner && (forall c, t :: Bearer(n, c, t) == Bearer(s, c, t))
    && (forall c :: c in s.h.clients ==> c in n.h.clients)
  }

  lemma SameBearersKeepLines(m: Media, d: Media)
    requires Lines(m) && SameBearers(m.s, d.s) && d.line == m.line && d.previous == m.previous
    ensures Lines(d)
  {
    forall t, i | t in d.line && 1 <= i < |d.line[t]| ensures Follows(d, d.line[t][i], d.line[t][i - 1]) {
      assert Follows(m, m.line[t][i], m.line[t][i - 1]);
    }
    forall c | c in d.previous ensures c in d.s.h.clients && d.s.h.clients[c].token.Some? {
      assert Bearer(m.s, c, m.s.h.clients[c].token.value);
      assert Bearer(d.s, c, m.s.h.clients[c].token.value);
    }
  }

  lemma DropKeepsCurrents(m: Media, c: ClientRef, noGrace: bool)
    requires Phases(m.s) && Currents(m) && AtPhase(m.s, c, InSession)
    ensures Currents(Dropped(m, c, noGrace))
  {
    var d := Dropped(m, c, noGrace);
    forall x, y, t | Stands(d.s, x, y, t) ensures IsLast(d, y, t) {
      var x' := if x == ByGoroutine(c) then ByToken(t) else x;
      assert Stands(m.s, x', y, t);
      assert IsLast(m, y, t);
    }
    forall y, t | IsLast(d, y, t) && y in d.s.at && d.s.at[y].InSession? ensures t in d.s.h.active {
      assert IsLast(m, y, t);
      assert Stands(m.s, ByToken(t), m.s.h.active[t], t);
    }
    forall y, t | IsLast(d, y, t) && y in d.s.at && d.s.at[y].Disconnecting? ensures !d.s.at[y].superseded {
      assert IsLast(m, y, t);
      if y == c { assert Stands(m.s, ByToken(t), m.s.h.active[t], t); }
    }
  }

  lemma DropBears(s: System, c: ClientRef, noGrace: bool)
    requires AtPhase(s, c, InSession)
    ensures SameBearers(s, OnDrop(s, c, noGrace))
  {
  }

  lemma DropKeepsWaits(m: Media, c: ClientRef, noGrace: bool)
    requires Waits(m) && AtPhase(m.s, c, InSession) && Ready(m, c)
    ensures Waits(Dropped(m, c, noGrace))
  {
    var d := Dropped(m, c, noGrace);
    forall x | Ready(m, x) ensures Ready(d, x) {}
  }

  lemma DropKeepsRoutes(m: Media, c: ClientRef, noGrace: bool)
    requires Routes(m) && AtPhase(m.s, c, InSession)
    ensures Routes(Dropped(m, c, noGrace))
  {
    var d := Dropped(m, c, noGrace);
    forall x | Served(d, x) ensures Routed(d, x) {
      if t :| Pends(d.s, x, t) { assert Pends(m.s, x, t); }
      assert Served(m, x);
    }
  }

  lemma DropKeepsTeardowns(m: Media, c: ClientRef, noGrace: bool)
    requires Teardowns(m) && AtPhase(m.s, c, InSession)
    ensures Teardowns(Dropped(m, c, noGrace))
  {
    var d := Dropped(m, c, noGrace);
    forall x | x in d.s.at && x in d.s.h.clients ensures Undone(d, x) {
      assert Undone(m, x);
    }
    forall p ensures StillPending(d.s.h, p) == StillPending(m.s.h, p) {}
  }

  lemma DropKeepsMediaInv(m: Media, c: ClientRef, noGrace: bool)
    requires MediaInv(m) && AtPhase(m.s, c, InSession) && Ready(m, c) && HubSlots.Inv(OnDrop(m.s, c, noGrace))
    ensures MediaInv(Dropped(m, c, noGrace))
  {
    DropBears(m.s, c, noGrace);
    SameBearersKeepLines(m, Dropped(m, c, noGrace));
    DropKeepsCurrents(m, c, noGrace);
    DropKeepsWaits(m, c, noGrace);
    DropKeepsRoutes(m, c, noGrace);
    DropKeepsTeardowns(m, c, noGrace);
  }

  // -- Deciding ---------------------------------------------------------------------------------

  predicate RemovesNow(s: System, c: ClientRef) {
    DecidesNow(s, c) && Decide(s.h, c, s.at[c].superseded, s.at[c].noGrace) == Removed
  }

  // Nobody begins a session or a disconnect, and every active token stays.
  lemma LastsStay(m: Media, d: Media)
    requires Currents(m) && d.line == m.line && d.s.h.active == m.s.h.active
    requires forall c :: c in d.s.at && (d.s.at[c].InSession? || d.s.at[c].Disconnecting?) ==>
               c in m.s.at && d.s.at[c] == m.s.at[c]
    ensures forall c, t :: IsLast(d, c, t) && c in d.s.at && d.s.at[c].InSession? ==> t in d.s.h.active
    ensures forall c, t :: IsLast(d, c, t) && c in d.s.at && d.s.at[c].Disconnecting? ==> !d.s.at[c].superseded
  {
    forall c, t | IsLast(d, c, t) ensures IsLast(m, c, t) {}
  }

  lemma RemoveKeepsCurrents(m: Media, c: ClientRef)
    requires Currents(m) && RemovesNow(m.s, c)
    ensures Currents(m.(s := OnDecide(m.s, c)))
  {
    var d := m.(s := OnDecide(m.s, c));
    forall x, y, t | Stands(d.s, x, y, t) ensures IsLast(d, y, t) {
      assert Stands(m.s, x, y, t);
      assert IsLast(m, y, t);
    }
    LastsStay(m, d);
  }

  lemma DecideKeepsWaits(m: Media, c: ClientRef)
    requires Waits(m) && DecidesNow(m.s, c)
    ensures Waits(m.(s := OnDecide(m.s, c)))
  {
    forall x | Ready(m, x) ensures Ready(m.(s := OnDecide(m.s, c)), x) {}
  }

  lemma RemoveKeepsRoutes(m: Media, c: ClientRef)
    requires Routes(m) && RemovesNow(m.s, c)
    ensures Routes(m.(s := OnDecide(m.s, c)))
  {
    var d := m.(s := OnDecide(m.s, c));
    forall x | Served(d, x) ensures Routed(d, x) {
      if t :| Pends(d.s, x, t) { assert Pends(m.s, x, t); }
      assert Served(m, x);
    }
  }

  lemma RemoveKeepsTeardowns(m: Media, c: ClientRef)
    requires Teardowns(m) && RemovesNow(m.s, c) && (c in m.kept || c in m.torn)
    ensures Teardowns(m.(s := OnDecide(m.s, c)))
  {
    var d := m.(s := OnDecide(m.s, c));
    assert Undone(m, c);
    forall x | x in d.s.at && x in d.s.h.clients ensures Undone(d, x) { assert Undone(m, x); }
  }

  lemma RemoveKeepsInv(m: Media, c: ClientRef)
    requires MediaInv(m) && RemovesNow(m.s, c) && (c in m.kept || c in m.torn)
    requires HubSlots.Inv(OnDecide(m.s, c))
    ensures MediaInv(m.(s := OnDecide(m.s, c)))
  {
    SameBearersKeepLines(m, m.(s := OnDecide(m.s, c)));
    RemoveKeepsCurrents(m, c);
    DecideKeepsWaits(m, c);
    RemoveKeepsRoutes(m, c);
    RemoveKeepsTeardowns(m, c);
  }

  lemma ParkPendsOne(s: System, c: ClientRef, y: ClientRef, t: Token)
    requires Reserved(s) && Graces(s) && ParksNow(s, c)
    ensures Pends(OnDecide(s, c), y, t) <==>
            if s.h.clients[c].token == Some(t) then y == c else Pends(s, y, t)
  {
  }

  lemma ParkStands(s: System, c: ClientRef, x: Holder, y: ClientRef, t: Token)
    requires Reserved(s) && Graces(s) && ParksNow(s, c) && Stands(OnDecide(s, c), x, y, t)
    ensures Stands(s, if x == ByPending(s.h.clients[c].token.value) then ByGoroutine(c) else x, y, t)
  {
    match x
    case ByPending(u) => ParkPendsOne(s, c, y, t);
    case ByExpiring(p) =>
      assert p in s.expiring + s.closing;
      assert p != s.nextPend;
    case _ =>
  }

  lemma ParkKeepsCurrents(m: Media, c: ClientRef)
    requires Reserved(m.s) && Graces(m.s) && Currents(m) && ParksNow(m.s, c)
    ensures Currents(m.(s := OnDecide(m.s, c)))
  {
    var d := m.(s := OnDecide(m.s, c));
    forall x, y, t | Stands(d.s, x, y, t) ensures IsLast(d, y, t) {
      ParkStands(m.s, c, x, y, t);
      assert IsLast(m, y, t);
    }
    LastsStay(m, d);
  }

  lemma ParkKeepsRoutes(m: Media, c: ClientRef)
    requires Reserved(m.s) && Graces(m.s) && Routes(m) && Teardowns(m) && ParksNow(m.s, c)
    ensures Routes(m.(s := OnDecide(m.s, c)))
  {
    var d := m.(s := OnDecide(m.s, c));
    assert Undone(m, c);
    forall x | Served(d, x) ensures Routed(d, x) {
      if t :| Pends(d.s, x, t) { ParkPendsOne(m.s, c, x, t); }
      assert Served(m, x);
    }
  }

  lemma ParkKeepsTeardowns(m: Media, c: ClientRef)
    requires Reserved(m.s) && Graces(m.s) && Teardowns(m) && ParksNow(m.s, c)
    ensures Teardowns(m.(s := OnDecide(m.s, c)))
  {
    var d := m.(s := OnDecide(m.s, c));
    forall x | x in d.s.at && x in d.s.h.clients ensures Undone(d, x) { assert Undone(m, x); }
    forall p | p in m.lapsed ensures !StillPending(d.s.h, p) { assert p != m.s.nextPend; }
  }

  lemma ParkKeepsInv(m: Media, c: ClientRef)
    requires MediaInv(m) && ParksNow(m.s, c) && HubSlots.Inv(OnDecide(m.s, c))
    ensures MediaInv(m.(s := OnDecide(m.s, c)))
  {
    SameBearersKeepLines(m, m.(s := OnDecide(m.s, c)));
    ParkKeepsCurrents(m, c);
    DecideKeepsWaits(m, c);
    ParkKeepsRoutes(m, c);
    ParkKeepsTeardowns(m, c);
  }

  // -- Firing -------------------------------------------------------------------------------------

  predicate ExpiresNow(s: System, p: PendRef) {
    p in s.armed && StillPending(s.h, p)
  }

  lemma FireKeepsCurrents(m: Media, p: PendRef)
    requires Graces(m.s) && Currents(m) && ExpiresNow(m.s, p)
    ensures Currents(m.(s := OnFire(m.s, p)))
  {
    var d := m.(s := OnFire(m.s, p));
    forall x, y, t | Stands(d.s, x, y, t) ensures IsLast(d, y, t) {
      assert Stands(m.s, if x == ByExpiring(p) then ByPending(t) else x, y, t);
      assert IsLast(m, y, t);
    }
    LastsStay(m, d);
  }

  lemma FireKeepsRoutes(m: Media, p: PendRef)
    requires Routes(m) && ExpiresNow(m.s, p)
    ensures Routes(m.(s := OnFire(m.s, p)))
  {
    var d := m.(s := OnFire(m.s, p));
    forall x | Served(d, x) ensures Routed(d, x) {
      if t :| Pends(d.s, x, t) { assert Pends(m.s, x, t); }
      assert Served(m, x);
    }
  }

  lemma FireKeepsTeardowns(m: Media, p: PendRef)
    requires Teardowns(m) && ExpiresNow(m.s, p)
    ensures Teardowns(m.(s := OnFire(m.s, p)))
  {
    var d := m.(s := OnFire(m.s, p));
    forall x | x in d.s.at && x in d.s.h.clients ensures Undone(d, x) { assert Undone(m, x); }
    assert p !in m.lapsed;
  }

  lemma FireKeepsInv(m: Media, p: PendRef)
    requires MediaInv(m) && ExpiresNow(m.s, p) && HubSlots.Inv(OnFire(m.s, p))
    ensures MediaInv(m.(s := OnFire(m.s, p)))
  {
    var d := m.(s := OnFire(m.s, p));
    SameBearersKeepLines(m, d);
    FireKeepsCurrents(m, p);
    SameReadiness(m, d);
    FireKeepsRoutes(m, p);
    FireKeepsTeardowns(m, p);
  }

  lemma SameReadiness(m: Media, d: Media)
    requires Waits(m) && d.s.at == m.s.at && d.s.h.clients == m.s.h.clients
    requires d.previous == m.previous && d.registered == m.registered
    ensures Waits(d)
  {
    forall x | Ready(m, x) ensures Ready(d, x) {}
  }

  // -- Every step ---------------------------------------------------------------------------------

  lemma ArrivalKeepsInv(m: Media, e: Event)
    requires MediaInv(m) && May(m, e) && Arrival(e) && HubSlots.Inv(HubSlots.Next(m.s, e))
    ensures MediaInv(OnHub(m, e))
  {
    match e
    case Connects(c) => ConnectIsQuiet(m.s, c); QuietKeepsInv(m, OnConnect(m.s, c));
    case JoinsMeeting(c) => JoinIsQuiet(m.s, c); QuietKeepsInv(m, OnJoin(m.s, c));
    case Claims(c) => if ClaimsNow(m.s, c) { ClaimKeepsInv(m, c); }
    case Reclaims(c, token) => if ReclaimsNow(m.s, c, token) { ReclaimKeepsInv(m, c, token); }
    case Admits(c) => AdmitIsQuiet(m.s, c); QuietKeepsInv(m, OnAdmit(m.s, c));
    case AsksToLeave(c) => AskToLeaveIsQuiet(m.s, c); QuietKeepsInv(m, OnAskToLeave(m.s, c));
  }

  lemma DecisionKeepsInv(m: Media, c: ClientRef)
    requires MediaInv(m) && (c in m.kept || c in m.torn) && HubSlots.Inv(OnDecide(m.s, c))
    ensures MediaInv(m.(s := OnDecide(m.s, c)))
  {
    if ParksNow(m.s, c) {
      ParkKeepsInv(m, c);
    } else if RemovesNow(m.s, c) {
      RemoveKeepsInv(m, c);
    } else {
      IgnoredIsQuiet(m.s, c);
      QuietKeepsInv(m, OnDecide(m.s, c));
    }
  }

  lemma DropKeepsInv(m: Media, c: ClientRef, noGrace: bool)
    requires MediaInv(m) && Ready(m, c) && HubSlots.Inv(OnDrop(m.s, c, noGrace))
    ensures MediaInv(Dropped(m, c, noGrace))
  {
    if AtPhase(m.s, c, InSession) {
      DropKeepsMediaInv(m, c, noGrace);
    } else {
      EmptyDropIsQuiet(m.s, c, noGrace);
      QuietKeepsInv(m, OnDrop(m.s, c, noGrace));
    }
  }

  lemma DepartureKeepsInv(m: Media, e: Event)
    requires MediaInv(m) && May(m, e) && Departure(e) && HubSlots.Inv(HubSlots.Next(m.s, e))
    ensures MediaInv(OnHub(m, e))
  {
    match e
    case Drops(c, noGrace) => DropKeepsInv(m, c, noGrace);
    case Decides(c) => DecisionKeepsInv(m, c);
    case LeavesMeeting(c) => LeaveMeetingIsQuiet(m.s, c); QuietKeepsInv(m, OnLeave(m.s, c));
    case Arms(c) => ArmIsQuiet(m.s, c); QuietKeepsInv(m, OnArm(m.s, c));
  }

  lemma TimerKeepsInv(m: Media, e: Event)
    requires MediaInv(m) && May(m, e) && !Arrival(e) && !Departure(e) && HubSlots.Inv(HubSlots.Next(m.s, e))
    ensures MediaInv(OnHub(m, e))
  {
    match e
    case Fires(p) =>
      if ExpiresNow(m.s, p) {
        FireKeepsInv(m, p);
      } else {
        StaleFireIsQuiet(m.s, p);
        QuietKeepsInv(m, OnFire(m.s, p));
      }
    case ExpiryLeaves(p) => ExpiryLeaveIsQuiet(m.s, p); QuietKeepsInv(m, OnExpiryLeave(m.s, p));
    case Closes => CloseIsQuiet(m.s); QuietKeepsInv(m, OnClose(m.s));
    case CloseLeaves(p) => CloseLeaveIsQuiet(m.s, p); QuietKeepsInv(m, OnCloseLeave(m.s, p));
  }

  lemma NextKeepsMediaInv(m: Media, a: Act)
    requires MediaInv(m)
    ensures MediaInv(Next(m, a))
  {
    match a
    case HubDoes(e) =>
      if May(m, e) {
        NextKeepsInv(m.s, e);
        if Arrival(e) {
          ArrivalKeepsInv(m, e);
        } else if Departure(e) {
          DepartureKeepsInv(m, e);
        } else {
          TimerKeepsInv(m, e);
        }
      }
    case Registers(c) => if RegistersNow(m, c) { RegisteringKeepsInv(m, c); }
    case TearsDown(c) => if TearsDownNow(m, c) { TearingDownKeepsInv(m, c); }
    case LapseTearsDown(p) => if LapsesNow(m, p) { LapsingKeepsInv(m, p); }
  }

  lemma {:induction false} RunKeepsMediaInv(m: Media, acts: seq<Act>)
    requires MediaInv(m)
    ensures MediaInv(Run(m, acts))
    decreases |acts|
  {
    if acts != [] {
      NextKeepsMediaInv(m, acts[0]);
      RunKeepsMediaInv(Next(m, acts[0]), acts[1..]);
    }
  }

  lemma StartIsInv()
    ensures HubSlots.Inv(Start)
  {
  }

  lemma OpeningIsInv()
    ensures MediaInv(Opening)
  {
    StartIsInv();
    assert Lines(Opening) && Currents(Opening) && Waits(Opening);
    assert Routes(Opening);
  }

  lemma EveryRunServes(acts: seq<Act>)
    ensures MediaInv(Run(Opening, acts))
  {
    OpeningIsInv();
    RunKeepsMediaInv(Opening, acts);
  }

  ghost predicate JoinedAreRegistered(m: Media) {
    forall c :: c in m.s.h.clients && m.s.h.clients[c].joined ==> c in m.registered
  }

  lemma StepRegistersJoined(m: Media, a: Act)
    requires JoinedAreRegistered(m)
    ensures JoinedAreRegistered(Next(m, a))
  {
    if a.HubDoes? && May(m, a.e) { OnlyAdmitsJoin(m.s, a.e); }
  }

  lemma OnlyAdmitsJoin(s: System, e: Event)
    ensures forall c :: c in HubSlots.Next(s, e).h.clients && HubSlots.Next(s, e).h.clients[c].joined ==>
              (c in s.h.clients && s.h.clients[c].joined) || e == Admits(c)
  {
  }

  lemma {:induction false} RunRegistersJoined(m: Media, acts: seq<Act>)
    requires JoinedAreRegistered(m)
    ensures JoinedAreRegistered(Run(m, acts))
    decreases |acts|
  {
    if acts != [] {
      StepRegistersJoined(m, acts[0]);
      RunRegistersJoined(Next(m, acts[0]), acts[1..]);
    }
  }

  // Whatever else drops, resumes or expires: a session that joined is what the
  // router knows its participant by for as long as it lasts, and a dropped one
  // that opened media still is, until its grace window ends.
  lemma ServedKeepTheirMedia(acts: seq<Act>, c: ClientRef)
    ensures var m := Run(Opening, acts);
            && (AtPhase(m.s, c, InSession) && m.s.h.clients[c].joined ==> Served(m, c))
            && (Served(m, c) ==> Routed(m, c))
  {
    EveryRunServes(acts);
    RunRegistersJoined(Opening, acts);
  }

  // -- What is freed -------------------------------------------------------------------------------

  // Media of participants in the meeting only.
  ghost predicate Clean(m: Media) {
    forall pid :: pid in m.routed ==> pid in m.s.h.meeting
  }

  // A hub that closed frees a slot whose media was kept: of a disconnect that
  // expected a grace window, or of a reservation.
  predicate Spares(m: Media, a: Act) {
    match a
    case HubDoes(LeavesMeeting(c)) => AtPhase(m.s, c, Removing) && c in m.kept && HasMedia(m, c)
    case HubDoes(CloseLeaves(p)) =>
      p in m.s.closing && p in m.s.h.reservations && m.s.h.reservations[p].participant in m.routed
    case _ => false
  }

  predicate HasMedia(m: Media, c: ClientRef) {
    c in m.s.h.clients && m.s.h.clients[c].participant.Some? && m.s.h.clients[c].participant.value in m.routed
  }

  lemma SparesOnlyWhenClosed(m: Media, a: Act)
    requires MediaInv(m) && Spares(m, a)
    ensures m.s.h.closed
  {
    if a.e.LeavesMeeting? { assert Undone(m, a.e.c); }
  }

  lemma RegisteringIsClean(m: Media, c: ClientRef)
    requires MediaInv(m) && Clean(m) && RegistersNow(m, c)
    ensures Clean(Registered(m, c))
  {
    PresentHasSlot(m, c, m.s.h.clients[c].token.value);
  }

  lemma HubMovesNoMedia(m: Media, e: Event)
    ensures OnHub(m, e).routed == m.routed && OnHub(m, e).s == HubSlots.Next(m.s, e)
  {
  }

  lemma SparingLeaks(m: Media, e: Event)
    requires Spares(m, HubDoes(e))
    ensures exists pid :: pid in m.routed && pid !in HubSlots.Next(m.s, e).h.meeting
  {
    var pid := if e.CloseLeaves? then m.s.h.reservations[e.p].participant else m.s.h.clients[e.c].participant.value;
    assert pid in m.routed && pid !in HubSlots.Next(m.s, e).h.meeting;
  }

  lemma HubStepFrees(m: Media, e: Event)
    requires MediaInv(m) && Clean(m) && May(m, e)
    ensures Clean(OnHub(m, e)) <==> !Spares(m, HubDoes(e))
  {
    HubMovesNoMedia(m, e);
    if Spares(m, HubDoes(e)) { SparingLeaks(m, e); }
    forall pid | pid in m.routed && pid !in HubSlots.Next(m.s, e).h.meeting ensures Spares(m, HubDoes(e)) {
      FreedIsSpared(m, e, pid);
    }
  }

  lemma FreedIsSpared(m: Media, e: Event, pid: Pid)
    requires Teardowns(m) && May(m, e) && pid in m.routed
    requires pid !in HubSlots.Next(m.s, e).h.meeting && pid in m.s.h.meeting
    ensures Spares(m, HubDoes(e))
  {
    EvictedByItsHolder(m.s, e, pid);
    FreedByItsOwn(m, e, pid);
  }

  lemma FreedByItsOwn(m: Media, e: Event, pid: Pid)
    requires Teardowns(m) && May(m, e) && pid in m.routed && IsLeave(e) && Holds(m.s, LeavesBy(e), pid)
    requires pid !in HubSlots.Next(m.s, e).h.meeting && pid in m.s.h.meeting
    ensures Spares(m, HubDoes(e))
  {
    if e.LeavesMeeting? { assert Undone(m, e.c); }
  }

  lemma StepFrees(m: Media, a: Act)
    requires MediaInv(m) && Clean(m)
    ensures Clean(Next(m, a)) <==> !Spares(m, a)
  {
    match a
    case HubDoes(e) =>
      if May(m, e) { HubStepFrees(m, e); }
    case Registers(c) => if RegistersNow(m, c) { RegisteringIsClean(m, c); }
    case TearsDown(c) =>
    case LapseTearsDown(p) =>
  }

  // -- What is left behind stays behind -----------------------------------------------------------

  lemma TeardownHasSlot(m: Media, c: ClientRef)
    requires Base(m) && TearsDownNow(m, c)
    ensures m.s.h.clients[c].participant.value in m.s.h.meeting
  {
    PresentHasSlot(m, c, m.s.h.clients[c].token.value);
  }

  lemma OwnedAreOld(s: System, e: Event, pid: Pid)
    requires Tokens(s) && pid in s.owner.Values && pid !in s.h.meeting
    ensures pid !in HubSlots.Next(s, e).h.meeting
  {
  }

  lemma LeakStays(m: Media, a: Act, pid: Pid)
    requires Base(m) && Teardowns(m) && pid in m.routed && pid !in m.s.h.meeting
    ensures pid in Next(m, a).routed && pid !in Next(m, a).s.h.meeting
  {
    match a
    case HubDoes(e) => if May(m, e) { HubStepLeaks(m, e, pid); }
    case Registers(c) =>
    case TearsDown(c) => if TearsDownNow(m, c) { TeardownLeaks(m, c, pid); }
    case LapseTearsDown(p) => if LapsesNow(m, p) { LapseLeaks(m, p, pid); }
  }

  lemma TeardownLeaks(m: Media, c: ClientRef, pid: Pid)
    requires Base(m) && TearsDownNow(m, c) && pid in m.routed && pid !in m.s.h.meeting
    ensures pid in TornDown(m, c).routed && TornDown(m, c).s == m.s
  {
    TeardownHasSlot(m, c);
  }

  lemma LapseLeaks(m: Media, p: PendRef, pid: Pid)
    requires Slots(m.s) && LapsesNow(m, p) && pid in m.routed && pid !in m.s.h.meeting
    ensures pid in Lapsed(m, p).routed && Lapsed(m, p).s == m.s
  {
    LapseHasSlot(m, p);
  }

  lemma HubStepLeaks(m: Media, e: Event, pid: Pid)
    requires Tokens(m.s) && Teardowns(m) && pid in m.routed && pid !in m.s.h.meeting
    ensures pid in OnHub(m, e).routed && pid !in OnHub(m, e).s.h.meeting
  {
    HubMovesNoMedia(m, e);
    OwnedAreOld(m.s, e, pid);
  }

  lemma LapseHasSlot(m: Media, p: PendRef)
    requires Slots(m.s) && LapsesNow(m, p)
    ensures m.s.h.reservations[p].participant in m.s.h.meeting
  {
    assert Holds(m.s, ByExpiring(p), m.s.h.reservations[p].participant);
  }

  lemma {:induction false} RunLeaks(m: Media, acts: seq<Act>, pid: Pid)
    requires MediaInv(m) && pid in m.routed && pid !in m.s.h.meeting
    ensures pid in Run(m, acts).routed && pid !in Run(m, acts).s.h.meeting
    decreases |acts|
  {
    if acts != [] {
      LeakStays(m, acts[0], pid);
      NextKeepsMediaInv(m, acts[0]);
      RunLeaks(Next(m, acts[0]), acts[1..], pid);
    }
  }

  ghost predicate NeverSpares(m: Media, acts: seq<Act>)
    decreases |acts|
  {
    acts == [] || (!Spares(m, acts[0]) && NeverSpares(Next(m, acts[0]), acts[1..]))
  }

  lemma {:induction false} RunFrees(m: Media, acts: seq<Act>)
    requires MediaInv(m) && Clean(m)
    ensures Clean(Run(m, acts)) <==> NeverSpares(m, acts)
    decreases |acts|
  {
    if acts != [] {
      var n := Next(m, acts[0]);
      StepFrees(m, acts[0]);
      NextKeepsMediaInv(m, acts[0]);
      if Spares(m, acts[0]) {
        var pid :| pid in n.routed && pid !in n.s.h.meeting;
        RunLeaks(n, acts[1..], pid);
      } else {
        RunFrees(n, acts[1..]);
      }
    }
  }

  // With nothing left to do, all media has been taken down if and only if no slot
  // was freed that a closing hub had let keep its media.
  lemma QuiescentMediaIsFreed(acts: seq<Act>)
    ensures var m := Run(Opening, acts);
            && (Clean(m) <==> NeverSpares(Opening, acts))
            && (Quiescent(m.s) ==> (m.routed == map[] <==> NeverSpares(Opening, acts)))
  {
    var m := Run(Opening, acts);
    OpeningIsInv();
    RunKeepsMediaInv(Opening, acts);
    RunFrees(Opening, acts);
    if Quiescent(m.s) { QuiescentMeetingIsEmpty(m.s); }
  }

  lemma QuiescentMeetingIsEmpty(s: System)
    requires HubSlots.Inv(s) && Quiescent(s)
    ensures s.h.meeting == {}
  {
    forall pid ensures pid !in s.h.meeting { if pid in s.h.meeting { SlotIsAttended(s, pid); } }
  }

  lemma ClosedStays(m: Media, a: Act)
    requires m.s.h.closed
    ensures Next(m, a).s.h.closed
  {
    if a.HubDoes? {
      HubMovesNoMedia(m, a.e);
      HubStaysClosed(m.s, a.e);
    }
  }

  lemma HubStaysClosed(s: System, e: Event)
    requires s.h.closed
    ensures HubSlots.Next(s, e).h.closed
  {
  }

  lemma {:induction false} RunStaysClosed(m: Media, acts: seq<Act>)
    requires m.s.h.closed
    ensures Run(m, acts).s.h.closed
    decreases |acts|
  {
    if acts != [] {
      ClosedStays(m, acts[0]);
      RunStaysClosed(Next(m, acts[0]), acts[1..]);
    }
  }

  lemma {:induction false} OpenNeverSpares(m: Media, acts: seq<Act>)
    requires MediaInv(m) && !Run(m, acts).s.h.closed
    ensures NeverSpares(m, acts)
    decreases |acts|
  {
    if acts != [] {
      NextKeepsMediaInv(m, acts[0]);
      OpenNeverSpares(Next(m, acts[0]), acts[1..]);
      if Spares(m, acts[0]) {
        SparesOnlyWhenClosed(m, acts[0]);
        RunStaysClosed(m, acts);
      }
    }
  }

  // A hub that has not closed leaves no media behind a freed slot.
  lemma OpenHubFreesMedia(acts: seq<Act>)
    requires !Run(Opening, acts).s.h.closed
    ensures Clean(Run(Opening, acts))
  {
    OpeningIsInv();
    OpenNeverSpares(Opening, acts);
    RunFrees(Opening, acts);
  }

  // -- A slot freed without its media ---------------------------------------------------------------

  function Joins(): seq<Act> {
    [HubDoes(Connects(0)), HubDoes(JoinsMeeting(0)), HubDoes(Claims(0)), Registers(0), HubDoes(Admits(0))]
  }

  function ClosesBetween(): seq<Act> {
    [HubDoes(Drops(0, false)), HubDoes(Closes), HubDoes(Decides(0)), HubDoes(LeavesMeeting(0))]
  }

  lemma {:induction false} RunSplits(m: Media, a: seq<Act>, b: seq<Act>)
    ensures Run(m, a + b) == Run(Run(m, a), b)
    decreases |a|
  {
    if a == [] {
      assert a + b == b;
    } else {
      assert (a + b)[1..] == a[1..] + b;
      RunSplits(Next(m, a[0]), a[1..], b);
    }
  }

  // Nothing but the one session, and its media.
  ghost predicate OneSession(m: Media) {
    && m.s.h.meeting == {0} && m.s.h.active == map[0 := 0] && m.s.h.pending == map[]
    && m.s.h.clients == map[0 := Client(Some(0), Some(0), true, false, false)] && !m.s.h.closed
    && m.s.at == map[0 := InSession] && m.s.armed == {} && m.s.expiring == {} && m.s.closing == {}
    && m.routed == map[0 := 0] && m.previous == map[] && m.kept == {} && m.torn == {}
  }

  // One connection has joined the meeting.
  ghost predicate OneClaiming(b: Media) {
    b == Opening.(s := Start.(h := EmptyHub.(meeting := {0}, clients := map[0 := NewClient]),
                              at := map[0 := Claiming(0)], nextPid := 1))
  }

  lemma OneConnects()
    ensures OneClaiming(Next(Next(Opening, Joins()[0]), Joins()[1]))
  {
    var a := Next(Opening, HubDoes(Connects(0)));
    assert a.s.h.clients == map[0 := NewClient] && a.s.at == map[0 := Reading];
    var b := Next(a, HubDoes(JoinsMeeting(0)));
    assert b.s.at == map[0 := Claiming(0)] && b.s.h.meeting == {0};
  }

  lemma OneClaims(b: Media)
    requires OneClaiming(b)
    ensures OneSession(Next(Next(Next(b, Joins()[2]), Joins()[3]), Joins()[4]))
  {
    var c := Next(b, HubDoes(Claims(0)));
    assert c.s.at == map[0 := InSession] && c.s.h.active == map[0 := 0];
    assert c.s.h.clients == map[0 := Client(Some(0), Some(0), false, false, false)];
    var d := Next(c, Registers(0));
    var e := Next(d, HubDoes(Admits(0)));
    assert OneSession(e);
  }

  lemma JoinsOpenOneSession()
    ensures OneSession(Run(Opening, Joins()))
  {
    var a := Next(Opening, Joins()[0]);
    var b := Next(a, Joins()[1]);
    var c := Next(b, Joins()[2]);
    var d := Next(c, Joins()[3]);
    OneConnects();
    OneClaims(b);
    FiveActs(Opening, a, b, c, d, Next(d, Joins()[4]));
  }

  lemma FiveActs(m: Media, a: Media, b: Media, c: Media, d: Media, e: Media)
    requires a == Next(m, Joins()[0]) && b == Next(a, Joins()[1]) && c == Next(b, Joins()[2])
    requires d == Next(c, Joins()[3]) && e == Next(d, Joins()[4])
    ensures Run(m, Joins()) == e
  {
    var acts := Joins();
    RunSplits(m, [acts[0]], acts[1..]);
    RunSplits(a, [acts[1]], acts[2..]);
    RunSplits(b, [acts[2]], acts[3..]);
    RunSplits(c, [acts[3]], [acts[4]]);
    assert acts == [acts[0]] + acts[1..] && acts[1..] == [acts[1]] + acts[2..] && acts[2..] == [acts[2]] + acts[3..];
    assert acts[3..] == [acts[3]] + [acts[4]];
  }

  // Dropped with its media kept, and the hub closed before it decides.
  ghost predicate ClosedMidway(m: Media) {
    && m.s.h.meeting == {0} && m.s.h.closed
    && m.s.h.clients == map[0 := Client(Some(0), Some(0), true, false, false)]
    && m.s.at == map[0 := Disconnecting(false, false)] && m.s.armed == {} && m.s.expiring == {} && m.s.closing == {}
    && m.routed == map[0 := 0] && m.previous == map[] && m.kept == {0}
  }

  lemma DropsAsItCloses(m: Media)
    requires OneSession(m)
    ensures ClosedMidway(Next(Next(m, ClosesBetween()[0]), ClosesBetween()[1]))
  {
    var a := Next(m, HubDoes(Drops(0, false)));
    assert a.s.at == map[0 := Disconnecting(false, false)] && a.kept == {0};
    var b := Next(a, HubDoes(Closes));
    assert b.s.h.closed && b.s.closing == {};
  }

  lemma ClosedBetweenHolds(m: Media)
    requires OneSession(m)
    ensures var d := Run(m, ClosesBetween());
            d.routed == map[0 := 0] && d.s.h.meeting == {} && Quiescent(d.s)
  {
    var a := Next(m, ClosesBetween()[0]);
    var b := Next(a, ClosesBetween()[1]);
    DropsAsItCloses(m);
    var d := LeavesAfterClose(b);
    FourActs(m, a, b, Next(b, ClosesBetween()[2]), d);
  }

  lemma LeavesAfterClose(b: Media) returns (d: Media)
    requires ClosedMidway(b)
    ensures d == Next(Next(b, ClosesBetween()[2]), ClosesBetween()[3])
    ensures d.routed == map[0 := 0] && d.s.h.meeting == {} && Quiescent(d.s)
  {
    var c := Next(b, HubDoes(Decides(0)));
    assert c.s.at == map[0 := Removing];
    d := Next(c, HubDoes(LeavesMeeting(0)));
    assert d.s.at == map[0 := Finished];
  }

  lemma FourActs(m: Media, a: Media, b: Media, c: Media, d: Media)
    requires a == Next(m, ClosesBetween()[0]) && b == Next(a, ClosesBetween()[1])
    requires c == Next(b, ClosesBetween()[2]) && d == Next(c, ClosesBetween()[3])
    ensures Run(m, ClosesBetween()) == d
  {
    var acts := ClosesBetween();
    RunSplits(m, [acts[0]], acts[1..]);
    RunSplits(a, [acts[1]], acts[2..]);
    RunSplits(b, [acts[2]], [acts[3]]);
    assert acts == [acts[0]] + acts[1..] && acts[1..] == [acts[1]] + acts[2..] && acts[2..] == [acts[2]] + [acts[3]];
  }

  // Close comes between the two holds of a disconnect that kept its media: the
  // participant is gone, nothing is left to do, and the router still has its peer.
  lemma CloseLeavesMediaBehind()
    ensures var m := Run(Opening, Joins() + ClosesBetween());
            Quiescent(m.s) && m.s.h.meeting == {} && m.routed == map[0 := 0]
  {
    JoinsOpenOneSession();
    ClosedBetweenHolds(Run(Opening, Joins()));
    RunSplits(Opening, Joins(), ClosesBetween());
  }

  // -- The hub underneath -------------------------------------------------------------------------------

  // The steps of the hub among the acts that took place.
  ghost function HubEvents(m: Media, acts: seq<Act>): seq<Event>
    decreases |acts|
  {
    if acts == [] then []
    else
      (if acts[0].HubDoes? && May(m, acts[0].e) then [acts[0].e] else []) + HubEvents(Next(m, acts[0]), acts[1..])
  }

  // What is proved of every run of the hub holds under media as well.
  lemma {:induction false} HubRunsUnderneath(m: Media, acts: seq<Act>)
    ensures Run(m, acts).s == HubSlots.Run(m.s, HubEvents(m, acts))
    decreases |acts|
  {
    if acts != [] {
      var n := Next(m, acts[0]);
      HubRunsUnderneath(n, acts[1..]);
      if acts[0].HubDoes? && May(m, acts[0].e) {
        HubMovesNoMedia(m, acts[0].e);
        assert HubEvents(m, acts)[1..] == HubEvents(n, acts[1..]);
      } else {
        assert HubEvents(m, acts) == HubEvents(n, acts[1..]);
      }
    }
  }
}
