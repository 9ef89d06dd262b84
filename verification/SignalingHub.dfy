/** The hub itself, updated in place: each method is one hold of its lock, and
    does to the fields what the step of the same name does in HubSlots. */
module SignalingHubs {
  import opened HubSlots
  import Meetings

  class SignalingHub {
    const meeting: Meetings.Meeting
    var activeTokens: map<Token, ClientRef>
    var pending: map<Token, PendRef>
    var reservations: map<PendRef, Reservation>
    var clients: map<ClientRef, Client>
    var closed: bool

    ghost predicate Valid()
      reads this, meeting
    {
      && meeting.Valid()
      && (forall t :: t in pending ==> pending[t] in reservations)
      && (forall t :: t in activeTokens ==> activeTokens[t] in clients)
    }

    ghost function View(): Hub
      reads this, meeting
    {
      Hub(meeting.participants.Keys, activeTokens, pending, reservations, clients, closed)
    }

    constructor (maxParticipants: int)
      ensures Valid() && View() == EmptyHub && fresh(meeting)
    {
      meeting := new Meetings.Meeting(maxParticipants);
      activeTokens, pending, reservations, clients, closed := map[], map[], map[], map[], false;
    }

    // A socket is accepted unless the hub has closed.
    method Connect(c: ClientRef) returns (accepted: bool)
      requires Valid() && c !in clients
      modifies this`clients
      ensures Valid() && accepted == !closed
      ensures View() == if accepted then old(View()).(clients := old(clients)[c := NewClient]) else old(View())
    {
      if closed {
        return false;
      }
      clients := clients[c := NewClient];
      return true;
    }

    // `id` and `token` are the fresh identifiers the join draws.
    method JoinMeeting(id: Pid, name: string, validName: bool) returns (r: Meetings.JoinResult)
      requires Valid() && id !in meeting.participants
      modifies meeting
      ensures Valid() && (r.Joined? <==> validName && |old(View()).meeting| < old(meeting.max))
      ensures View() == if r.Joined? then old(View()).(meeting := old(View()).meeting + {id}) else old(View())
    {
      CountsKeys(meeting.participants);
      r := meeting.Join(id, name, validName);
    }

    method ClaimToken(c: ClientRef, id: Pid, token: Token)
      requires Valid() && c in clients
      modifies this`clients, this`activeTokens
      ensures Valid() && View() == Claim(old(View()), c, id, token)
    {
      clients := clients[c := clients[c].(participant := Some(id), token := Some(token))];
      activeTokens := activeTokens[token := c];
    }

    method ReclaimSession(c: ClientRef, token: Option<Token>) returns (resumed: bool, activeTakeover: bool)
      requires Valid() && c in clients
      modifies this`clients, this`activeTokens, this`pending
      ensures Valid()
      ensures resumed <==> token.Some? && Reclaimable(old(View()), token.value)
      ensures activeTakeover <==> resumed && token.value !in old(pending)
      ensures View() == if resumed then Reclaim(old(View()), c, token.value) else old(View())
    {
      if token.None? {
        return false, false;
      }
      var t := token.value;
      var participant: Option<Pid>;
      if t in pending {
        var reconnect := pending[t];
        pending := pending - {t};
        participant := Some(reservations[reconnect].participant);
        activeTakeover := false;
      } else if t in activeTokens {
        participant := clients[activeTokens[t]].participant;
        activeTakeover := true;
      } else {
        return false, false;
      }
      clients := clients[c := clients[c].(participant := participant, token := token, resumed := true)];
      activeTokens := activeTokens[t := c];
      resumed := true;
    }

    // `keepMedia` defers the media teardown to the end of the grace window.
    method Begin(c: ClientRef, noGrace: bool) returns (superseded: bool, keepMedia: bool)
      requires Valid() && c in clients
      modifies this`activeTokens
      ensures Valid() && superseded == Superseded(old(View()), c)
      ensures View() == BeginDisconnect(old(View()), c)
      ensures keepMedia <==> Decide(old(View()), c, superseded, noGrace) == Parked
    {
      var client := clients[c];
      superseded := client.token.Some? &&
        !(client.token.value in activeTokens && activeTokens[client.token.value] == c);
      if client.token.Some? && !superseded {
        activeTokens := activeTokens - {client.token.value};
      }
      keepMedia := !superseded && !client.leaving && !closed && client.token.Some? &&
        (client.joined || client.resumed) && !noGrace;
    }

    // `p` is the reservation this disconnect would make.
    method Settle(c: ClientRef, superseded: bool, noGrace: bool, p: PendRef) returns (fate: Fate)
      requires Valid() && c in clients && clients[c].participant.Some? && p !in reservations
      modifies this`pending, this`reservations
      ensures Valid() && fate == Decide(old(View()), c, superseded, noGrace)
      ensures View() == if fate == Parked then Park(old(View()), c, p) else old(View())
    {
      var client := clients[c];
      if superseded {
        return Ignored;
      }
      if client.leaving || closed || client.token.None? || (!client.joined && !client.resumed) {
        return Removed;
      }
      if noGrace {
        return Removed;
      }
      reservations := reservations[p := Reservation(client.participant.value, client.token.value, c)];
      pending := pending[client.token.value := p];
      return Parked;
    }

    // Whether the reservation is still the one its token waits on: the grace
    // timer is armed only then.
    method IsStillPending(p: PendRef) returns (still: bool)
      requires Valid() && p in reservations
      ensures still == StillPending(View(), p)
    {
      var token := reservations[p].token;
      still := token in pending && pending[token] == p;
    }

    method ExpireReservation(p: PendRef) returns (expired: bool)
      requires Valid() && p in reservations
      modifies this`pending
      ensures Valid() && expired == StillPending(old(View()), p) && View() == Expire(old(View()), p)
    {
      var token := reservations[p].token;
      if token in pending && pending[token] == p {
        pending := pending - {token};
        return true;
      }
      return false;
    }

    method Free(id: Pid)
      requires Valid()
      modifies meeting
      ensures Valid() && View() == Leave(old(View()), id)
    {
      var _ := meeting.Leave(id);
    }

    // Close takes every pending reservation, each once.
    method Close() returns (taken: seq<PendRef>)
      requires Valid()
      modifies this`closed, this`pending
      ensures Valid() && View() == Shut(old(View()))
      ensures forall p :: p in taken <==> p in old(pending).Values
      ensures |taken| == |old(pending)|
    {
      closed := true;
      taken := [];
      ghost var was := pending;
      while pending != map[]
        invariant Valid() && closed
        invariant pending.Keys <= was.Keys && forall t :: t in pending ==> pending[t] == was[t]
        invariant forall p :: p in taken ==> p in was.Values
        invariant forall t :: t in was && t !in pending ==> was[t] in taken
        invariant |taken| + |pending| == |was|
        decreases |pending|
      {
        var token :| token in pending;
        taken := taken + [pending[token]];
        ShrinksByOne(pending, token);
        pending := pending - {token};
      }
    }
  }

  lemma CountsKeys<K, V>(m: map<K, V>)
    ensures |m| == |m.Keys|
  {
  }

  lemma ShrinksByOne<K, V>(m: map<K, V>, k: K)
    requires k in m
    ensures |m - {k}| == |m| - 1
  {
    assert (m - {k}).Keys == m.Keys - {k};
    CountsKeys(m - {k});
    CountsKeys(m);
  }
}
