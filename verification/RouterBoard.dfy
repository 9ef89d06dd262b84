/** What the calls to the router say, without its publications' links: who is
    registered with which peer, which track each publication key carries, and who
    chose which cameras.  The router's registry is this board in every run. */
module RouterBoard {
  import opened RouterState
  import opened RouterProtocol

  datatype Board = Board(
    peers: map<Id, PeerRef>,
    posted: map<Key, (PubRef, Remote)>,
    chosen: map<Id, set<Id>>,
    layers: map<Id, string>)

  const Blank := Board(map[], map[], map[], map[])

  function Taken(posted: map<Key, (PubRef, Remote)>, down: set<Key>): map<Key, (PubRef, Remote)> {
    map k | k in posted && k !in down :: posted[k]
  }

  function Posted(b: Board, e: Event): Board {
    match e
    case Registers(id, peer) => b.(peers := b.peers[id := peer])
    case Unregisters(id) =>
      Board(b.peers - {id}, Taken(b.posted, set k | k in b.posted && k.source == id),
            map x | x in b.chosen && x != id :: b.chosen[x] - {id}, b.layers - {id})
    case Publishes(ref, key, remote, _) =>
      if key in b.posted && b.posted[key].1 == remote then b else b.(posted := b.posted[key := (ref, remote)])
    case Unpublishes(source, role) =>
      b.(posted := Taken(b.posted, set k | k in b.posted && k.source == source && k.role == role))
    case ReadStops(ref) => b.(posted := Taken(b.posted, set k | k in b.posted && b.posted[k].0 == ref))
    case Chooses(receiver, cameras, layer) =>
      b.(chosen := b.chosen[receiver := cameras],
         layers := b.layers[receiver := if layer in ["low", "medium", "high"] then layer else "medium"])
    case _ => b
  }

  function Read(b: Board, events: seq<Event>): Board
    decreases |events|
  {
    if events == [] then b else Read(Posted(b, events[0]), events[1..])
  }

  // A receiver gets everything but its own media and the cameras it left out.
  predicate Wants(b: Board, receiver: Id, key: Key) {
    receiver != key.source && !(key.role == Camera && receiver in b.chosen && key.source !in b.chosen[receiver])
  }

  // Every publication is a new object.
  predicate NewObjects(table: map<PubRef, Publication>, events: seq<Event>) {
    && (forall i :: 0 <= i < |events| && events[i].Publishes? ==> events[i].ref !in table)
    && (forall i, j :: 0 <= i < j < |events| && events[i].Publishes? && events[j].Publishes? ==>
          events[i].ref != events[j].ref)
  }

  ghost predicate Matches(s: State, b: Board) {
    && s.peers == b.peers && s.subscriptions == b.chosen && s.subscriptionsSet == b.chosen.Keys && s.layers == b.layers
    && s.pubs.Keys == b.posted.Keys
    && (forall k :: k in s.pubs ==> s.pubs[k] in s.table && b.posted[k] == (s.pubs[k], s.table[s.pubs[k]].remote))
  }

  // -- One publication ------------------------------------------------------------------

  function Kept(senders: map<Id, SenderRef>, moved: set<Id>): map<Id, SenderRef> {
    map t | t in senders && t in moved :: senders[t]
  }

  predicate Replaces(s: State, e: Event) {
    e.Publishes? && e.ref !in s.table && (e.key in s.pubs ==> s.pubs[e.key] in s.table) &&
    !(e.key in s.pubs && s.table[s.pubs[e.key]].remote == e.remote)
  }

  lemma UncutSenders(s: State, v: set<Link>, r: PubRef)
    requires r in s.table && forall x :: (r, x) !in v
    ensures r in Cut(s, v).table && Cut(s, v).table[r].senders == s.table[r].senders
  {
  }

  lemma ReplacementHasMoved(s: State, e: Event)
    requires Replaces(s, e)
    ensures var t := AfterPublish(s, e.ref, e.key, e.remote, e.moved);
            e.ref in t.table && t.table[e.ref].senders ==
            if e.key in s.pubs && s.table[s.pubs[e.key]].remote.codec == e.remote.codec
            then Kept(s.table[s.pubs[e.key]].senders, e.moved) else map[]
  {
    var m := Migrated(s, e.ref, e.key, e.remote, e.moved);
    MigratedFresh(s, e.ref, e.key, e.remote, e.moved);
    UncutSenders(m, ReplacedLinks(s, e.key, m), e.ref);
    if e.key in s.pubs {
      var senders := s.table[s.pubs[e.key]].senders;
      assert Kept(senders, e.moved) == RouterState.Taken(senders, e.moved);
    }
  }

  // The call is not taken for a repetition, and only its own key changes hands.
  lemma ReplacementIsPosted(sys: System, e: Event)
    requires Replaces(sys.r, e)
    ensures var s, t := sys.r, Next(sys, e).r;
            && t == AfterPublish(s, e.ref, e.key, e.remote, e.moved)
            && t.pubs == s.pubs[e.key := e.ref] && t.peers == s.peers && t.layers == s.layers
            && t.subscriptions == s.subscriptions && t.subscriptionsSet == s.subscriptionsSet
  {
    PublishLabels(sys.r, e.ref, e.key, e.remote, e.moved);
  }

  lemma TracksStay(s: State, e: Event)
    requires Replaces(s, e)
    ensures var t := AfterPublish(s, e.ref, e.key, e.remote, e.moved);
            && t.table.Keys == s.table.Keys + {e.ref}
            && t.table[e.ref].key == e.key && t.table[e.ref].remote == e.remote
            && forall r :: r in s.table ==> t.table[r].remote == s.table[r].remote
  {
    MigrationKeepsLabels(s, e.ref, e.key, e.remote, e.moved);
  }

  lemma ReplacedIsRetired(s: State, e: Event, t: State)
    requires Sound(s) && Replaces(s, e) && e.key in s.pubs
    requires t == AfterPublish(s, e.ref, e.key, e.remote, e.moved) && t.pubs == s.pubs[e.key := e.ref]
    ensures s.pubs[e.key] in t.table && !Registered(t, s.pubs[e.key])
    ensures t.table[s.pubs[e.key]].senders == map[] && t.table[s.pubs[e.key]].tracks == map[]
  {
    var old_ := s.pubs[e.key];
    MigrationKeepsLabels(s, e.ref, e.key, e.remote, e.moved);
    PublishKeepsSound(s, e.ref, e.key, e.remote, e.moved);
    assert SoundPublication(t, old_);
  }

  // A new object for an absent key, or with another track than the registered
  // one, takes the key over; the receivers that keep their sender are those whose
  // ReplaceTrack succeeds, if the codec stays, and the old object is left empty.
  lemma PublishTakesOver(sys: System, e: Event)
    requires Inv(sys) && e.Publishes? && e.ref !in sys.r.table
    requires e.key in sys.r.pubs ==> sys.r.table[sys.r.pubs[e.key]].remote != e.remote
    ensures var s, t := sys.r, Next(sys, e).r;
            && t.pubs == s.pubs[e.key := e.ref]
            && e.ref in t.table && t.table[e.ref].key == e.key && t.table[e.ref].remote == e.remote
            && t.table[e.ref].senders ==
               (if e.key in s.pubs && s.table[s.pubs[e.key]].remote.codec == e.remote.codec
                then Kept(s.table[s.pubs[e.key]].senders, e.moved) else map[])
    ensures var s, t := sys.r, Next(sys, e).r;
            e.key in s.pubs ==>
              && s.pubs[e.key] in t.table && !Registered(t, s.pubs[e.key])
              && t.table[s.pubs[e.key]].senders == map[] && t.table[s.pubs[e.key]].tracks == map[]
  {
    ReplacementIsPosted(sys, e);
    ReplacementHasMoved(sys.r, e);
    TracksStay(sys.r, e);
    if e.key in sys.r.pubs { ReplacedIsRetired(sys.r, e, Next(sys, e).r); }
  }

  // -- Every step -------------------------------------------------------------------------

  // The objects a step may add.
  function Made(e: Event): set<PubRef> {
    if e.Publishes? then {e.ref} else {}
  }

  lemma RepeatedChangesNothing(sys: System, e: Event)
    requires KeysAgree(sys.r) && e.Publishes? && e.ref !in sys.r.table && !Replaces(sys.r, e)
    ensures Next(sys, e) == sys
  {
  }

  lemma PostedMatches(s: State, b: Board, e: Event, t: State)
    requires Matches(s, b) && e.Publishes? && e.ref !in s.table
    requires !(e.key in b.posted && b.posted[e.key].1 == e.remote)
    requires t.pubs == s.pubs[e.key := e.ref] && t.peers == s.peers && t.layers == s.layers
    requires t.subscriptions == s.subscriptions && t.subscriptionsSet == s.subscriptionsSet
    requires t.table.Keys == s.table.Keys + {e.ref} && t.table[e.ref].remote == e.remote
    requires forall r :: r in s.table ==> t.table[r].remote == s.table[r].remote
    ensures Matches(t, Posted(b, e))
  {
  }

  lemma PublishMatches(sys: System, b: Board, e: Event)
    requires Sound(sys.r) && Matches(sys.r, b) && e.Publishes? && e.ref !in sys.r.table
    ensures Matches(Next(sys, e).r, Posted(b, e)) && Next(sys, e).r.table.Keys <= sys.r.table.Keys + Made(e)
  {
    if Replaces(sys.r, e) {
      ReplacementIsPosted(sys, e);
      TracksStay(sys.r, e);
      PostedMatches(sys.r, b, e, Next(sys, e).r);
    } else {
      RepeatedChangesNothing(sys, e);
    }
  }

  lemma UnregisterMatches(sys: System, b: Board, e: Event)
    requires Sound(sys.r) && Matches(sys.r, b) && e.Unregisters?
    ensures Matches(Next(sys, e).r, Posted(b, e)) && Next(sys, e).r.table.Keys <= sys.r.table.Keys
  {
  }

  lemma UnpublishMatches(sys: System, b: Board, e: Event)
    requires Sound(sys.r) && Matches(sys.r, b) && e.Unpublishes?
    ensures Matches(Next(sys, e).r, Posted(b, e)) && Next(sys, e).r.table.Keys <= sys.r.table.Keys
  {
  }

  lemma StoppedIsOff(s: State, b: Board, ref: PubRef)
    requires KeysAgree(s) && Matches(s, b)
    ensures AfterReadStop(s, ref).pubs.Keys == Posted(b, ReadStops(ref)).posted.Keys
    ensures AfterReadStop(s, ref).pubs.Keys <= s.pubs.Keys
    ensures forall k :: k in AfterReadStop(s, ref).pubs ==> AfterReadStop(s, ref).pubs[k] == s.pubs[k]
  {
    forall k | k in s.pubs ensures k in AfterReadStop(s, ref).pubs <==> b.posted[k].0 != ref {}
  }

  lemma StopKeepsTracks(s: State, ref: PubRef)
    ensures var t := AfterReadStop(s, ref);
            && t.table.Keys == s.table.Keys && (forall r :: r in s.table ==> t.table[r].remote == s.table[r].remote)
            && t.peers == s.peers && t.layers == s.layers
            && t.subscriptions == s.subscriptions && t.subscriptionsSet == s.subscriptionsSet
  {
  }

  lemma ReadStopMatches(sys: System, b: Board, e: Event)
    requires Sound(sys.r) && Matches(sys.r, b) && e.ReadStops?
    ensures Matches(Next(sys, e).r, Posted(b, e)) && Next(sys, e).r.table.Keys <= sys.r.table.Keys
  {
    StoppedIsOff(sys.r, b, e.ref);
    StopKeepsTracks(sys.r, e.ref);
    assert Next(sys, e).r == AfterReadStop(sys.r, e.ref);
  }

  lemma ChooseMatches(sys: System, b: Board, e: Event)
    requires Sound(sys.r) && Matches(sys.r, b) && e.Chooses?
    ensures Matches(Next(sys, e).r, Posted(b, e)) && Next(sys, e).r.table.Keys <= sys.r.table.Keys
  {
  }

  lemma OthersMatch(sys: System, b: Board, e: Event)
    requires Sound(sys.r) && Matches(sys.r, b)
    requires e.Registers? || e.AddsTrack? || e.Installs? || e.RemovesTrack?
    ensures Matches(Next(sys, e).r, Posted(b, e)) && Next(sys, e).r.table.Keys <= sys.r.table.Keys
  {
  }

  lemma StepMatches(sys: System, b: Board, e: Event)
    requires Sound(sys.r) && Matches(sys.r, b) && (e.Publishes? ==> e.ref !in sys.r.table)
    ensures Matches(Next(sys, e).r, Posted(b, e)) && Next(sys, e).r.table.Keys <= sys.r.table.Keys + Made(e)
  {
    match e
    case Publishes(_, _, _, _) => PublishMatches(sys, b, e);
    case Unregisters(_) => UnregisterMatches(sys, b, e);
    case Unpublishes(_, _) => UnpublishMatches(sys, b, e);
    case ReadStops(_) => ReadStopMatches(sys, b, e);
    case Chooses(_, _, _) => ChooseMatches(sys, b, e);
    case _ => OthersMatch(sys, b, e);
  }

  lemma {:induction false} RunMatches(sys: System, b: Board, events: seq<Event>)
    requires Inv(sys) && Matches(sys.r, b) && NewObjects(sys.r.table, events)
    ensures Matches(Run(sys, events).r, Read(b, events))
    decreases |events|
  {
    if events != [] {
      var e, d, rest := events[0], Next(sys, events[0]), events[1..];
      StepMatches(sys, b, e);
      NextKeepsSound(sys, e);
      NextKeepsPlaced(sys, e);
      NextKeepsCovered(sys, e);
      forall i | 0 <= i < |rest| && rest[i].Publishes? ensures rest[i].ref !in d.r.table {
        assert rest[i] == events[i + 1];
      }
      RunMatches(d, Posted(b, e), rest);
    }
  }

  lemma StartMatches()
    ensures Inv(RouterProtocol.Start) && Matches(RouterProtocol.Start.r, Blank)
  {
    RunKeepsInv(RouterProtocol.Start, []);
  }

  // In every run the registry says what the calls said, and whom it would
  // subscribe to what.
  lemma RegistryIsBoard(events: seq<Event>)
    requires NewObjects(map[], events)
    ensures var s, b := Run(RouterProtocol.Start, events).r, Read(Blank, events);
            Matches(s, b) && forall k, id :: ShouldSubscribe(s, k, id) <==> Wants(b, id, k)
  {
    StartMatches();
    RunMatches(RouterProtocol.Start, Blank, events);
  }

  // Once nothing is in flight: a registered receiver has a publication's track
  // exactly when it wants it, by what the calls said alone.
  lemma QuiescentRunIsBoard(events: seq<Event>, k: Key, id: Id)
    requires NewObjects(map[], events)
    requires Run(RouterProtocol.Start, events).queued == multiset{} && Run(RouterProtocol.Start, events).held == map[]
    requires var b := Read(Blank, events); k in b.posted && id in b.peers
    ensures var s, b := Run(RouterProtocol.Start, events).r, Read(Blank, events);
            && b.posted[k].0 in s.table && s.table[b.posted[k].0].remote == b.posted[k].1
            && (id in s.table[b.posted[k].0].tracks <==> Wants(b, id, k))
  {
    RegistryIsBoard(events);
    QuiescentRunIsExact(events, k, id);
  }

  // A sender is installed exactly when its publication still carries its key, the
  // receiver is still there with the peer it was added to, has no track yet and
  // wants one; otherwise it goes off that peer again.
  lemma InstalledExactly(events: seq<Event>, x: SenderRef)
    requires NewObjects(map[], events) && x in Run(RouterProtocol.Start, events).held
    ensures var sys, b := Run(RouterProtocol.Start, events), Read(Blank, events);
            var op, d := sys.held[x], Next(sys, Installs(x));
            op.Subscribe? &&
            if op.pub in sys.r.table && sys.r.table[op.pub].key in b.posted &&
               b.posted[sys.r.table[op.pub].key].0 == op.pub &&
               op.targetID in b.peers && b.peers[op.targetID] == op.peer &&
               op.targetID !in sys.r.table[op.pub].tracks && Wants(b, op.targetID, sys.r.table[op.pub].key)
            then At(d, x, Installed((op.pub, op.targetID))) else At(d, x, QueuedFor(op.peer))
  {
    EveryRunIsSafe(events);
    RegistryIsBoard(events);
  }

  // -- The latest track --------------------------------------------------------------------

  datatype Option<T> = None | Some(value: T)

  // The track of the latest call to Publish with a key.
  function LastTrack(events: seq<Event>, key: Key): Option<Remote> {
    if events == [] then None
    else
      match events[|events| - 1]
      case Publishes(_, k, remote, _) => if k == key then Some(remote) else LastTrack(events[..|events| - 1], key)
      case _ => LastTrack(events[..|events| - 1], key)
  }

  lemma {:induction false} ReadMore(b: Board, events: seq<Event>, e: Event)
    ensures Read(b, events + [e]) == Posted(Read(b, events), e)
    decreases |events|
  {
    if events == [] {
      assert [e][1..] == [];
    } else {
      assert (events + [e])[1..] == events[1..] + [e];
      ReadMore(Posted(b, events[0]), events[1..], e);
    }
  }

  lemma {:induction false} BoardHasLastTrack(events: seq<Event>, key: Key)
    requires key in Read(Blank, events).posted
    ensures LastTrack(events, key) == Some(Read(Blank, events).posted[key].1)
    decreases |events|
  {
    if events != [] {
      var front, e := events[..|events| - 1], events[|events| - 1];
      assert events == front + [e];
      ReadMore(Blank, front, e);
      if !(e.Publishes? && e.key == key) { BoardHasLastTrack(front, key); }
    }
  }

  // A registered publication carries the track of the latest call to Publish with
  // its key, however many objects carried that key before.
  lemma RegisteredIsLatest(events: seq<Event>, key: Key)
    requires NewObjects(map[], events) && key in Run(RouterProtocol.Start, events).r.pubs
    ensures var s := Run(RouterProtocol.Start, events).r;
            s.pubs[key] in s.table && LastTrack(events, key) == Some(s.table[s.pubs[key]].remote)
  {
    RegistryIsBoard(events);
    BoardHasLastTrack(events, key);
  }
}
