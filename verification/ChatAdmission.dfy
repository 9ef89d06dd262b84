/** Admission to the room and the chat replay that comes with it, against the
    live fan-out of chat.  Each method of ChatHub is one hold of the hub's lock.
    A message is named by its place in the global order of those holds. */
module ChatAdmission {

  type ClientRef = nat
  type MsgId = nat

  const CHAT_HISTORY_LIMIT := 100

  datatype Room = Room(
    members: set<ClientRef>,
    expired: set<ClientRef>,
    closed: bool,
    history: seq<MsgId>,
    outbound: map<ClientRef, seq<MsgId>>)

  function LastOf(messages: seq<MsgId>): (r: seq<MsgId>)
    ensures |r| <= CHAT_HISTORY_LIMIT && |r| <= |messages| && r == messages[|messages| - |r|..]
    ensures |messages| <= CHAT_HISTORY_LIMIT ==> r == messages
  {
    if |messages| > CHAT_HISTORY_LIMIT then messages[|messages| - CHAT_HISTORY_LIMIT..] else messages
  }

  function Queue(outbound: map<ClientRef, seq<MsgId>>, c: ClientRef): seq<MsgId> {
    if c in outbound then outbound[c] else []
  }

  // A write to a full queue drops the message.
  function Fanned(outbound: map<ClientRef, seq<MsgId>>, receivers: set<ClientRef>, full: set<ClientRef>, id: MsgId)
    : map<ClientRef, seq<MsgId>>
  {
    map c | c in outbound.Keys + (receivers - full) ::
      if c in receivers && c !in full then Queue(outbound, c) + [id] else Queue(outbound, c)
  }

  function WriteTo(outbound: map<ClientRef, seq<MsgId>>, c: ClientRef, room: bool, id: MsgId): map<ClientRef,
                   seq<MsgId>> {
    if room then outbound[c := Queue(outbound, c) + [id]] else outbound
  }

  function Record(r: Room, author: ClientRef, retain: bool, id: MsgId, full: set<ClientRef>): Room {
    r.(history := if retain then LastOf(r.history + [id]) else r.history,
       outbound := Fanned(r.outbound, r.members - {author}, full, id))
  }

  predicate Admits(r: Room, c: ClientRef) {
    !r.closed && c !in r.expired
  }

  function Admit(r: Room, c: ClientRef, full: bool): Room {
    if !Admits(r, c) then r
    else r.(members := r.members + {c}, outbound := if full then r.outbound
      else r.outbound[c := Queue(r.outbound, c) + r.history])
  }

  function Expire(r: Room, c: ClientRef): Room {
    if c in r.members then r else r.(expired := r.expired + {c})
  }

  class ChatHub {
    var roomMembers: set<ClientRef>
    var admissionExpired: set<ClientRef>
    var closed: bool
    var chatHistory: seq<MsgId>
    var outbound: map<ClientRef, seq<MsgId>>

    ghost function View(): Room
      reads this
    {
      Room(roomMembers, admissionExpired, closed, chatHistory, outbound)
    }

    constructor ()
      ensures View() == Room({}, {}, false, [], map[])
    {
      roomMembers, admissionExpired, closed, chatHistory, outbound := {}, {}, false, [], map[];
    }

    method RecordChatMessage(id: MsgId)
      modifies this`chatHistory
      ensures chatHistory == LastOf(old(chatHistory) + [id])
    {
      chatHistory := chatHistory + [id];
      if |chatHistory| > CHAT_HISTORY_LIMIT {
        chatHistory := chatHistory[|chatHistory| - CHAT_HISTORY_LIMIT..];
      }
    }

    // `full` are the clients whose outbound queue has no room; `reached` the
    // members the fan-out has visited.
    method Deliver(author: ClientRef, id: MsgId, full: set<ClientRef>, member: ClientRef,
                   ghost before: map<ClientRef, seq<MsgId>>, ghost reached: set<ClientRef>)
      requires member !in reached && outbound == Fanned(before, reached - {author}, full, id)
      modifies this`outbound
      ensures outbound == Fanned(before, reached + {member} - {author}, full, id)
    {
      FannedOneMore(before, reached, author, full, id, member);
      if member != author {
        outbound := WriteTo(outbound, member, member !in full, id);
      }
    }

    method FanOut(author: ClientRef, id: MsgId, full: set<ClientRef>)
      modifies this`outbound
      ensures outbound == Fanned(old(outbound), roomMembers - {author}, full, id)
    {
      FannedNone(outbound, author, full, id);
      var left := roomMembers;
      ghost var reached: set<ClientRef> := {};
      while left != {}
        invariant reached + left == roomMembers && reached !! left
        invariant outbound == Fanned(old(outbound), reached - {author}, full, id)
        decreases |left|
      {
        var member :| member in left;
        left := left - {member};
        Deliver(author, id, full, member, old(outbound), reached);
        reached := reached + {member};
      }
      assert reached == roomMembers;
    }

    method RecordAndBroadcastChat(author: ClientRef, retain: bool, id: MsgId, full: set<ClientRef>)
      modifies this`chatHistory, this`outbound
      ensures View() == Record(old(View()), author, retain, id, full)
    {
      if retain {
        RecordChatMessage(id);
      }
      FanOut(author, id, full);
    }

    method AdmitClient(c: ClientRef, full: bool) returns (ok: bool)
      modifies this`roomMembers, this`outbound
      ensures View() == Admit(old(View()), c, full)
      ensures ok == (Admits(old(View()), c) && !full)
    {
      if closed || c in admissionExpired {
        return false;
      }
      roomMembers := roomMembers + {c};
      if full {
        return false;
      }
      outbound := outbound[c := Queue(outbound, c) + chatHistory];
      return true;
    }

    method ExpireAdmission(c: ClientRef)
      modifies this`admissionExpired
      ensures View() == Expire(old(View()), c)
    {
      if c !in roomMembers {
        admissionExpired := admissionExpired + {c};
      }
    }

    method Depart(c: ClientRef)
      modifies this`roomMembers
      ensures View() == old(View()).(members := old(roomMembers) - {c})
    {
      roomMembers := roomMembers - {c};
    }

    method ClearChatHistory()
      modifies this`chatHistory
      ensures View() == old(View()).(history := [])
    {
      chatHistory := [];
    }

    method Close()
      modifies this`closed, this`chatHistory
      ensures View() == old(View()).(closed := true, history := [])
    {
      closed, chatHistory := true, [];
    }
  }

  lemma FannedNone(outbound: map<ClientRef, seq<MsgId>>, author: ClientRef, full: set<ClientRef>, id: MsgId)
    ensures Fanned(outbound, {} - {author}, full, id) == outbound
  {
    var receivers: set<ClientRef> := {} - {author};
    assert receivers == {};
    assert Fanned(outbound, receivers, full, id) == outbound;
  }

  lemma FannedOneMore(outbound: map<ClientRef, seq<MsgId>>, reached: set<ClientRef>, author: ClientRef,
                      full: set<ClientRef>, id: MsgId, member: ClientRef)
    requires member !in reached
    ensures var f := Fanned(outbound, reached - {author}, full, id);
            Fanned(outbound, reached + {member} - {author}, full, id) ==
            if member != author then WriteTo(f, member, member !in full, id) else f
  {
    var f, g := Fanned(outbound, reached - {author}, full, id),
        Fanned(outbound, reached + {member} - {author}, full, id);
    var h := if member != author then WriteTo(f, member, member !in full, id) else f;
    assert g.Keys == h.Keys;
    assert forall c :: c in g ==> g[c] == h[c];
  }

  // -- Runs --------------------------------------------------------------------------

  datatype Item = Said(author: ClientRef, retained: bool) | Cleared

  // `from` and `until` say how long the log was when a client was admitted and
  // when it left; `overflowed` are the clients that ever missed a write.
  datatype World = World(
    room: Room,
    log: seq<Item>,
    from: map<ClientRef, nat>,
    until: map<ClientRef, nat>,
    overflowed: set<ClientRef>)

  const Start := World(Room({}, {}, false, [], map[]), [], map[], map[], {})

  datatype Event =
    | Says(author: ClientRef, retain: bool, full: set<ClientRef>)
    | Enters(c: ClientRef, fullQueue: bool)
    | TimesOut(c: ClientRef)
    | Leaves(c: ClientRef)
    | Clears
    | Closes

  function OnSays(w: World, author: ClientRef, retain: bool, full: set<ClientRef>): World {
    w.(room := Record(w.room, author, retain, |w.log|, full), log := w.log + [Said(author, retain)],
       overflowed := w.overflowed + (w.room.members - {author}) * full)
  }

  // A connection asks to be admitted once.
  predicate EntersNow(w: World, c: ClientRef) {
    Admits(w.room, c) && c !in w.from
  }

  function OnEnters(w: World, c: ClientRef, full: bool): World {
    if !EntersNow(w, c) then w
    else w.(room := Admit(w.room, c, full), from := w.from[c := |w.log|],
            overflowed := if full then w.overflowed + {c} else w.overflowed)
  }

  function OnLeaves(w: World, c: ClientRef): World {
    if c !in w.room.members then w
    else w.(room := w.room.(members := w.room.members - {c}), until := w.until[c := |w.log|])
  }

  function OnClears(w: World, closed: bool): World {
    w.(room := w.room.(closed := closed, history := []), log := w.log + [Cleared])
  }

  function Next(w: World, e: Event): World {
    match e
    case Says(author, retain, full) => OnSays(w, author, retain, full)
    case Enters(c, full) => OnEnters(w, c, full)
    case TimesOut(c) => w.(room := Expire(w.room, c))
    case Leaves(c) => OnLeaves(w, c)
    case Clears => OnClears(w, w.room.closed)
    case Closes => OnClears(w, true)
  }

  function Run(w: World, events: seq<Event>): World
    decreases |events|
  {
    if events == [] then w else Run(Next(w, events[0]), events[1..])
  }

  // The messages retained since the history was last cleared.
  function Retained(log: seq<Item>): seq<MsgId> {
    if log == [] then []
    else
      var n := |log| - 1;
      var earlier := Retained(log[..n]);
      match log[n]
      case Cleared => []
      case Said(_, retained) => if retained then earlier + [n] else earlier
  }

  // What others said from place `a` to place `b` of the log.
  function Heard(log: seq<Item>, c: ClientRef, a: nat, b: nat): seq<MsgId>
    requires b <= |log|
  {
    if b <= a then []
    else
      var earlier := Heard(log, c, a, b - 1);
      if log[b - 1].Said? && log[b - 1].author != c then earlier + [b - 1] else earlier
  }

  predicate Increasing(messages: seq<MsgId>) {
    forall i, j :: 0 <= i < j < |messages| ==> messages[i] < messages[j]
  }

  lemma {:induction false} RetainedInOrder(log: seq<Item>)
    ensures Increasing(Retained(log)) && forall k :: k in Retained(log) ==> k < |log|
    decreases |log|
  {
    if log != [] {
      RetainedInOrder(log[..|log| - 1]);
      IncreasingGrows(Retained(log[..|log| - 1]), |log| - 1);
    }
  }

  lemma IncreasingGrows(messages: seq<MsgId>, id: MsgId)
    requires Increasing(messages) && forall k :: k in messages ==> k < id
    ensures Increasing(messages + [id])
  {
    forall i | 0 <= i < |messages| ensures messages[i] < id { assert messages[i] in messages; }
  }

  lemma {:induction false} HeardIsWhatOthersSaid(log: seq<Item>, c: ClientRef, a: nat, b: nat)
    requires b <= |log|
    ensures forall k: MsgId :: k in Heard(log, c, a, b) <==> a <= k < b && log[k].Said? && log[k].author != c
    decreases b
  {
    if a < b { HeardIsWhatOthersSaid(log, c, a, b - 1); }
  }

  lemma {:induction false} HeardIncreases(log: seq<Item>, c: ClientRef, a: nat, b: nat)
    requires b <= |log|
    ensures Increasing(Heard(log, c, a, b))
    decreases b
  {
    if a < b {
      HeardIncreases(log, c, a, b - 1);
      HeardIsWhatOthersSaid(log, c, a, b - 1);
      IncreasingGrows(Heard(log, c, a, b - 1), b - 1);
    }
  }

  lemma HeardInOrder(log: seq<Item>, c: ClientRef, a: nat, b: nat)
    requires b <= |log|
    ensures Increasing(Heard(log, c, a, b))
    ensures forall k: MsgId :: k in Heard(log, c, a, b) <==> a <= k < b && log[k].Said? && log[k].author != c
  {
    HeardIncreases(log, c, a, b);
    HeardIsWhatOthersSaid(log, c, a, b);
  }

  lemma ReplayThenLive(log: seq<Item>, c: ClientRef, a: nat, b: nat)
    requires a <= |log| && b <= |log|
    ensures Increasing(LastOf(Retained(log[..a])) + Heard(log, c, a, b))
  {
    var replay, live := LastOf(Retained(log[..a])), Heard(log, c, a, b);
    RetainedInOrder(log[..a]);
    HeardInOrder(log, c, a, b);
    forall i, j | 0 <= i < |replay| && 0 <= j < |live| ensures replay[i] < live[j] {
      assert replay[i] in Retained(log[..a]) && live[j] in live;
    }
  }

  function EndOf(w: World, c: ClientRef): nat {
    if c in w.until then w.until[c] else |w.log|
  }

  predicate Timed(w: World) {
    && (forall c :: c in w.from ==> w.from[c] <= |w.log|)
    && (forall c :: c in w.until ==> c in w.from && w.from[c] <= w.until[c] <= |w.log|)
    && (forall c :: c in w.room.members ==> c in w.from && c !in w.until)
    && (forall c :: c in w.from && c !in w.until ==> c in w.room.members)
    && (forall c :: c in w.room.outbound ==> c in w.from)
    && w.room.members !! w.room.expired
  }

  predicate Remembers(w: World) {
    w.room.history == LastOf(Retained(w.log))
  }

  // The replay is what was retained at admission; the rest is what others said
  // while the client was in the room.
  predicate DeliveredTo(w: World, c: ClientRef)
    requires c in w.from && w.from[c] <= |w.log| && EndOf(w, c) <= |w.log|
  {
    Queue(w.room.outbound, c) == LastOf(Retained(w.log[..w.from[c]])) + Heard(w.log, c, w.from[c], EndOf(w, c))
  }

  predicate Delivered(w: World)
    requires Timed(w)
  {
    forall c :: c in w.from && c !in w.overflowed ==> DeliveredTo(w, c)
  }

  predicate Inv(w: World) {
    Timed(w) && Remembers(w) && Delivered(w)
  }

  lemma {:induction false} HeardInPrefix(log: seq<Item>, more: seq<Item>, c: ClientRef, a: nat, b: nat)
    requires b <= |log|
    ensures Heard(log + more, c, a, b) == Heard(log, c, a, b)
    decreases b
  {
    if b > a { HeardInPrefix(log, more, c, a, b - 1); }
  }

  lemma LastOfAgain(messages: seq<MsgId>, id: MsgId)
    ensures LastOf(LastOf(messages) + [id]) == LastOf(messages + [id])
  {
  }

  lemma RetainedNext(log: seq<Item>, item: Item)
    ensures Retained(log + [item]) ==
            if item.Cleared? then [] else if item.retained then Retained(log) + [|log|] else Retained(log)
  {
    assert (log + [item])[..|log|] == log;
  }

  lemma SaysKeepsTimed(w: World, author: ClientRef, retain: bool, full: set<ClientRef>)
    requires Timed(w)
    ensures Timed(OnSays(w, author, retain, full))
  {
  }

  lemma SaysReaches(w: World, author: ClientRef, retain: bool, full: set<ClientRef>, c: ClientRef)
    ensures var queue := Queue(w.room.outbound, c);
            Queue(OnSays(w, author, retain, full).room.outbound, c) ==
            if c in w.room.members && c != author && c !in full then queue + [|w.log|] else queue
  {
  }

  lemma HeardNext(log: seq<Item>, item: Item, c: ClientRef, a: nat)
    requires a <= |log|
    ensures Heard(log + [item], c, a, |log| + 1) ==
            if item.Said? && item.author != c then Heard(log, c, a, |log|) + [|log|] else Heard(log, c, a, |log|)
  {
    HeardInPrefix(log, [item], c, a, |log|);
  }

  lemma AppendedAtEnd(replay: seq<MsgId>, live: seq<MsgId>, id: MsgId)
    ensures (replay + live) + [id] == replay + (live + [id])
  {
  }

  // What a client should have by now, whether it is still in the room or not.
  lemma DueNext(log: seq<Item>, item: Item, c: ClientRef, a: nat, b: nat)
    requires a <= |log| && b <= |log|
    ensures a <= |log| + 1 && b <= |log| + 1 && (log + [item])[..a] == log[..a]
    ensures Heard(log + [item], c, a, b) == Heard(log, c, a, b)
  {
    HeardInPrefix(log, [item], c, a, b);
  }

  lemma SaysKeepsDelivered(w: World, author: ClientRef, retain: bool, full: set<ClientRef>, c: ClientRef)
    requires Timed(w) && c in w.from && DeliveredTo(w, c)
    requires c !in OnSays(w, author, retain, full).overflowed
    ensures var d := OnSays(w, author, retain, full); Timed(d) && DeliveredTo(d, c)
  {
    SaysKeepsTimed(w, author, retain, full);
    SaysReaches(w, author, retain, full, c);
    if c in w.until { SaysAfterLeaving(w, author, retain, full, c); } else { SaysToMember(w, author, retain, full, c); }
  }

  lemma SaysAfterLeaving(w: World, author: ClientRef, retain: bool, full: set<ClientRef>, c: ClientRef)
    requires Timed(w) && Timed(OnSays(w, author, retain, full)) && c in w.from && DeliveredTo(w, c) && c in w.until
    requires Queue(OnSays(w, author, retain, full).room.outbound, c) == Queue(w.room.outbound, c)
    ensures DeliveredTo(OnSays(w, author, retain, full), c)
  {
    DueNext(w.log, Said(author, retain), c, w.from[c], EndOf(w, c));
  }

  lemma SaysToMember(w: World, author: ClientRef, retain: bool, full: set<ClientRef>, c: ClientRef)
    requires Timed(w) && Timed(OnSays(w, author, retain, full)) && c in w.from && DeliveredTo(w, c) && c !in w.until
    requires Queue(OnSays(w, author, retain, full).room.outbound, c) ==
             Queue(w.room.outbound, c) + if c != author then [|w.log|] else []
    ensures DeliveredTo(OnSays(w, author, retain, full), c)
  {
    DueNext(w.log, Said(author, retain), c, w.from[c], EndOf(w, c));
    HeardNext(w.log, Said(author, retain), c, w.from[c]);
    AppendedAtEnd(LastOf(Retained(w.log[..w.from[c]])), Heard(w.log, c, w.from[c], |w.log|), |w.log|);
  }

  lemma SaysKeepsRemembers(w: World, author: ClientRef, retain: bool, full: set<ClientRef>)
    requires Remembers(w)
    ensures Remembers(OnSays(w, author, retain, full))
  {
    RetainedNext(w.log, Said(author, retain));
    LastOfAgain(Retained(w.log), |w.log|);
  }

  lemma SaysKeepsInv(w: World, author: ClientRef, retain: bool, full: set<ClientRef>)
    requires Inv(w)
    ensures Inv(OnSays(w, author, retain, full))
  {
    SaysKeepsTimed(w, author, retain, full);
    SaysKeepsRemembers(w, author, retain, full);
    var d := OnSays(w, author, retain, full);
    forall c | c in d.from && c !in d.overflowed ensures DeliveredTo(d, c) {
      assert DeliveredTo(w, c);
      SaysKeepsDelivered(w, author, retain, full, c);
    }
  }

  // A client nobody wrote to, in a log that has not grown, has what it had.
  lemma StillDelivered(w: World, d: World, x: ClientRef)
    requires x in w.from && w.from[x] <= |w.log| && EndOf(w, x) <= |w.log| && DeliveredTo(w, x)
    requires d.log == w.log && x in d.from && d.from[x] == w.from[x] && EndOf(d, x) == EndOf(w, x)
    requires Queue(d.room.outbound, x) == Queue(w.room.outbound, x)
    ensures DeliveredTo(d, x)
  {
  }

  lemma EntersKeepsTimed(w: World, c: ClientRef, full: bool)
    requires Timed(w)
    ensures Timed(OnEnters(w, c, full))
  {
  }

  lemma EntrantIsDelivered(w: World, c: ClientRef)
    requires Timed(w) && Remembers(w) && EntersNow(w, c)
    ensures Timed(OnEnters(w, c, false)) && DeliveredTo(OnEnters(w, c, false), c)
  {
    EntersKeepsTimed(w, c, false);
    assert w.log[..|w.log|] == w.log;
    assert Queue(w.room.outbound, c) == [];
    assert [] + w.room.history == w.room.history == w.room.history + [];
  }

  lemma OthersAreDelivered(w: World, c: ClientRef, full: bool, x: ClientRef)
    requires Timed(w) && EntersNow(w, c) && x != c && x in w.from && DeliveredTo(w, x)
    ensures Timed(OnEnters(w, c, full)) && DeliveredTo(OnEnters(w, c, full), x)
  {
    EntersKeepsTimed(w, c, full);
    EntersSpares(w, c, full, x);
    StillDelivered(w, OnEnters(w, c, full), x);
  }

  lemma EntersSpares(w: World, c: ClientRef, full: bool, x: ClientRef)
    requires EntersNow(w, c) && x != c && x in w.from
    ensures var d := OnEnters(w, c, full);
            && d.log == w.log && x in d.from && d.from[x] == w.from[x] && EndOf(d, x) == EndOf(w, x)
            && Queue(d.room.outbound, x) == Queue(w.room.outbound, x)
  {
  }

  lemma EntersKeepsInv(w: World, c: ClientRef, full: bool)
    requires Inv(w)
    ensures Inv(OnEnters(w, c, full))
  {
    var d := OnEnters(w, c, full);
    EntersKeepsTimed(w, c, full);
    if EntersNow(w, c) {
      forall x | x in d.from && x !in d.overflowed ensures DeliveredTo(d, x) { EveryoneIsDelivered(w, c, full, x); }
    }
  }

  lemma EveryoneIsDelivered(w: World, c: ClientRef, full: bool, x: ClientRef)
    requires Timed(w) && Remembers(w) && Delivered(w) && EntersNow(w, c)
    requires var d := OnEnters(w, c, full); x in d.from && x !in d.overflowed
    ensures Timed(OnEnters(w, c, full)) && DeliveredTo(OnEnters(w, c, full), x)
  {
    if x == c {
      EntrantIsDelivered(w, c);
    } else {
      assert x in w.from && x !in w.overflowed;
      OthersAreDelivered(w, c, full, x);
    }
  }

  lemma LeavesKeepsTimed(w: World, c: ClientRef)
    requires Timed(w)
    ensures Timed(OnLeaves(w, c))
  {
  }

  lemma LeavesKeepsEnds(w: World, c: ClientRef, x: ClientRef)
    requires Timed(w)
    ensures EndOf(OnLeaves(w, c), x) == EndOf(w, x)
  {
  }

  lemma LeavesKeepsInv(w: World, c: ClientRef)
    requires Inv(w)
    ensures Inv(OnLeaves(w, c))
  {
    var d := OnLeaves(w, c);
    LeavesKeepsTimed(w, c);
    forall x | x in d.from && x !in d.overflowed ensures DeliveredTo(d, x) {
      LeavesKeepsEnds(w, c, x);
      StillDelivered(w, d, x);
    }
  }

  // Clearing the history is heard by nobody.
  lemma ClearsKeepsTimed(w: World, closed: bool)
    requires Timed(w)
    ensures Timed(OnClears(w, closed))
  {
  }

  lemma NobodyHearsClears(log: seq<Item>, c: ClientRef, a: nat, b: nat)
    requires b <= |log|
    ensures Heard(log + [Cleared], c, a, b) == Heard(log, c, a, b)
    ensures a <= |log| ==> Heard(log + [Cleared], c, a, |log| + 1) == Heard(log, c, a, |log|)
  {
    HeardInPrefix(log, [Cleared], c, a, b);
    if a <= |log| { HeardNext(log, Cleared, c, a); }
  }

  lemma ClearsKeepsDelivered(w: World, closed: bool, c: ClientRef)
    requires Timed(w) && Delivered(w) && c in w.from && c !in w.overflowed
    ensures Timed(OnClears(w, closed)) && DeliveredTo(OnClears(w, closed), c)
  {
    ClearsKeepsTimed(w, closed);
    assert DeliveredTo(w, c);
    SameAfterClear(w.log, c, w.from[c], EndOf(w, c));
    SameAfterClear(w.log, c, w.from[c], |w.log|);
  }

  lemma SameAfterClear(log: seq<Item>, c: ClientRef, a: nat, b: nat)
    requires a <= |log| && b <= |log|
    ensures (log + [Cleared])[..a] == log[..a]
    ensures Heard(log + [Cleared], c, a, b) == Heard(log, c, a, b)
    ensures Heard(log + [Cleared], c, a, |log| + 1) == Heard(log, c, a, |log|)
  {
    NobodyHearsClears(log, c, a, b);
  }

  lemma ClearsKeepsInv(w: World, closed: bool)
    requires Inv(w)
    ensures Inv(OnClears(w, closed))
  {
    RetainedNext(w.log, Cleared);
    ClearsKeepsTimed(w, closed);
    var d := OnClears(w, closed);
    forall c | c in d.from && c !in d.overflowed ensures DeliveredTo(d, c) { ClearsKeepsDelivered(w, closed, c); }
  }

  lemma TimesOutKeepsInv(w: World, c: ClientRef)
    requires Inv(w)
    ensures Inv(Next(w, TimesOut(c)))
  {
    var d := Next(w, TimesOut(c));
    assert Timed(d) && d.from == w.from && d.overflowed == w.overflowed;
    forall x | x in w.from && x !in w.overflowed ensures DeliveredTo(d, x) { TimingOutIsQuiet(w, c, x); }
  }

  lemma TimingOutIsQuiet(w: World, c: ClientRef, x: ClientRef)
    requires Timed(w) && x in w.from && DeliveredTo(w, x)
    ensures Timed(Next(w, TimesOut(c))) && DeliveredTo(Next(w, TimesOut(c)), x)
  {
    StillDelivered(w, Next(w, TimesOut(c)), x);
  }

  lemma NextKeepsInv(w: World, e: Event)
    requires Inv(w)
    ensures Inv(Next(w, e))
  {
    match e
    case Says(author, retain, full) => SaysKeepsInv(w, author, retain, full);
    case Enters(c, full) => EntersKeepsInv(w, c, full);
    case TimesOut(c) => TimesOutKeepsInv(w, c);
    case Leaves(c) => LeavesKeepsInv(w, c);
    case Clears => ClearsKeepsInv(w, w.room.closed);
    case Closes => ClearsKeepsInv(w, true);
  }

  lemma {:induction false} RunKeepsInv(w: World, events: seq<Event>)
    requires Inv(w)
    ensures Inv(Run(w, events))
    decreases |events|
  {
    if events != [] {
      NextKeepsInv(w, events[0]);
      RunKeepsInv(Next(w, events[0]), events[1..]);
    }
  }

  // For every admitted client whose queue never overflowed: the chat enqueued to
  // it is the history retained at its admission and then all that others said
  // until it left, in order, with no gap and no repeat.
  lemma ChatExactlyOnce(events: seq<Event>, c: ClientRef)
    requires var w := Run(Start, events); c in w.from && c !in w.overflowed
    ensures var w := Run(Start, events);
            var got := Queue(w.room.outbound, c);
            && w.from[c] <= EndOf(w, c) <= |w.log|
            && got == LastOf(Retained(w.log[..w.from[c]])) + Heard(w.log, c, w.from[c], EndOf(w, c))
            && Increasing(got)
            && (forall k: MsgId :: w.from[c] <= k < EndOf(w, c) && w.log[k].Said? && w.log[k].author != c ==> k in got)
  {
    RunKeepsInv(Start, events);
    DeliveredInOrder(Run(Start, events), c);
  }

  lemma DeliveredInOrder(w: World, c: ClientRef)
    requires Timed(w) && c in w.from && DeliveredTo(w, c)
    ensures var got := Queue(w.room.outbound, c);
            && w.from[c] <= EndOf(w, c) <= |w.log|
            && got == LastOf(Retained(w.log[..w.from[c]])) + Heard(w.log, c, w.from[c], EndOf(w, c))
            && Increasing(got)
            && (forall k: MsgId :: w.from[c] <= k < EndOf(w, c) && w.log[k].Said? && w.log[k].author != c ==> k in got)
  {
    ReplayThenLive(w.log, c, w.from[c], EndOf(w, c));
    HeardInOrder(w.log, c, w.from[c], EndOf(w, c));
  }

  lemma {:induction false} AllRetained(log: seq<Item>)
    requires forall k :: 0 <= k < |log| ==> log[k].Said? && log[k].retained
    ensures Retained(log) == seq(|log|, i => i)
    decreases |log|
  {
    if log != [] { AllRetained(log[..|log| - 1]); }
  }

  lemma ReplayIsAll(log: seq<Item>, n: nat)
    requires n <= |log| && n <= CHAT_HISTORY_LIMIT && forall i :: 0 <= i < n ==> log[i].Said? && log[i].retained
    ensures LastOf(Retained(log[..n])) == seq(n, i => i)
  {
    AllRetained(log[..n]);
  }

  // A client that arrives before the history limit is reached, in a room that
  // retains everything, has every message there ever was but its own.
  lemma NewcomerMissesNothing(events: seq<Event>, c: ClientRef, k: MsgId)
    requires var w := Run(Start, events);
             && c in w.room.members && c in w.from && c !in w.overflowed
             && w.from[c] <= CHAT_HISTORY_LIMIT && w.from[c] <= |w.log|
             && (forall i :: 0 <= i < w.from[c] ==> w.log[i].Said? && w.log[i].retained)
             && k < |w.log| && w.log[k].Said? && w.log[k].author != c
    ensures k in Queue(Run(Start, events).room.outbound, c)
  {
    ChatExactlyOnce(events, c);
    RunKeepsInv(Start, events);
    var w := Run(Start, events);
    ReplayedOrHeard(w.log, c, w.from[c], k);
  }

  lemma ReplayedOrHeard(log: seq<Item>, c: ClientRef, a: nat, k: MsgId)
    requires a <= |log| && a <= CHAT_HISTORY_LIMIT && forall i :: 0 <= i < a ==> log[i].Said? && log[i].retained
    requires k < |log| && log[k].Said? && log[k].author != c
    ensures k in LastOf(Retained(log[..a])) + Heard(log, c, a, |log|)
  {
    if k < a {
      ReplayIsAll(log, a);
      assert LastOf(Retained(log[..a]))[k] == k;
    } else {
      HeardIsWhatOthersSaid(log, c, a, |log|);
    }
  }

  lemma ExpiredStaysOut(w: World, c: ClientRef, e: Event)
    requires Timed(w) && c in w.room.expired
    ensures c !in w.room.members && c !in Next(w, e).room.members && c in Next(w, e).room.expired
  {
  }

  // The deadline and admission exclude each other: no client in the room has
  // expired, and one that expired first is never let in.
  lemma DeadlineExcludesAdmission(events: seq<Event>, c: ClientRef, e: Event)
    requires c in Run(Start, events).room.expired
    ensures var w := Run(Start, events);
            c !in w.room.members && c !in Next(w, e).room.members && c in Next(w, e).room.expired
  {
    RunKeepsInv(Start, events);
    ExpiredStaysOut(Run(Start, events), c, e);
  }

  // -- Who gets in --------------------------------------------------------------------

  lemma StepLocksOut(w: World, e: Event, c: ClientRef)
    ensures Next(w, e).room.closed <==> w.room.closed || e == Closes
    ensures c in Next(w, e).room.expired <==> c in w.room.expired || (e == TimesOut(c) && c !in w.room.members)
    ensures c in Next(w, e).from ==> c in w.from || (e.Enters? && e.c == c)
  {
  }

  predicate Calls(events: seq<Event>, c: ClientRef) {
    exists i :: 0 <= i < |events| && events[i].Enters? && events[i].c == c
  }

  lemma CallsMore(events: seq<Event>, c: ClientRef)
    requires events != []
    ensures Calls(events, c) <==> (events[0].Enters? && events[0].c == c) || Calls(events[1..], c)
  {
    forall i | 0 <= i < |events[1..]| ensures events[1..][i] == events[i + 1] {}
    if i :| 0 <= i < |events| && events[i].Enters? && events[i].c == c && i > 0 {
      assert events[1..][i - 1].Enters? && events[1..][i - 1].c == c;
    }
  }

  lemma {:induction false} NothingLocksOut(w: World, events: seq<Event>, c: ClientRef)
    requires !w.room.closed && c !in w.room.expired && c !in w.from
    requires Closes !in events && TimesOut(c) !in events && !Calls(events, c)
    ensures var d := Run(w, events); !d.room.closed && c !in d.room.expired && c !in d.from
    decreases |events|
  {
    if events != [] {
      StepLocksOut(w, events[0], c);
      CallsMore(events, c);
      NothingLocksOut(Next(w, events[0]), events[1..], c);
    }
  }

  // A first call to be admitted lets the client in if and only if the hub has not
  // closed and its deadline has not passed; nobody else comes or goes with it.
  lemma AdmittedExactly(w: World, c: ClientRef, full: bool)
    requires c !in w.from && c !in w.room.members
    ensures var d := Next(w, Enters(c, full));
            && (c in d.room.members <==> !w.room.closed && c !in w.room.expired)
            && (forall x :: x != c ==> (x in d.room.members <==> x in w.room.members))
  {
  }

  // So a client that calls before its deadline, of a hub that has not closed, is in
  // the room, whatever others did.
  lemma CallInTimeGetsIn(events: seq<Event>, c: ClientRef, full: bool)
    requires Closes !in events && TimesOut(c) !in events && !Calls(events, c)
    ensures c in Next(Run(Start, events), Enters(c, full)).room.members
  {
    NothingLocksOut(Start, events, c);
  }

  // The deadline counts against a client exactly when it finds it outside.
  lemma DeadlineCounts(w: World, c: ClientRef)
    requires c !in w.room.expired
    ensures c in Next(w, TimesOut(c)).room.expired <==> c !in w.room.members
  {
  }
}
