/** Every interleaving of the router's lock regions with the egress operations
    that other goroutines are still applying. */
module RouterProtocol {
  import opened RouterState

  // `queued` holds every operation decided and not yet started, by any
  // goroutine; `held` maps a sender AddTrack has returned to the operation that
  // is about to install it.  Senders are numbered as AddTrack issues them.
  datatype System = System(
    r: State,
    queued: multiset<Op>,
    held: map<SenderRef, Op>,
    issued: nat,
    removed: set<SenderRef>,
    dropped: set<SenderRef>)

  datatype Event =
    | Registers(id: Id, peer: PeerRef)
    | Unregisters(id: Id)
    | Publishes(ref: PubRef, key: Key, remote: Remote, moved: set<Id>)
    | Unpublishes(source: Id, role: Role)
    | ReadStops(ref: PubRef)
    | Chooses(receiver: Id, cameras: set<Id>, layer: string)
    | AddsTrack(op: Op)
    | Installs(sender: SenderRef)
    | RemovesTrack(op: Op)

  const Start := System(Empty, multiset{}, map[], 0, {}, {})

  function Detached(sys: System, s: State, v: set<Link>, t: State): System {
    sys.(r := t,
         queued := sys.queued + multiset(CutRemovals(s, v)),
         dropped := sys.dropped + CutDropped(s, v))
  }

  function Queue(sys: System, ops: set<Op>): System {
    sys.(queued := sys.queued + multiset(ops))
  }

  // One event.  An event that is not possible in `sys` leaves it unchanged, so
  // every list of events is a run.
  function Next(sys: System, e: Event): System {
    var s := sys.r;
    match e
    case Registers(id, peer) =>
      var t := AfterRegister(s, id, peer);
      Queue(sys.(r := t), SubscribeReceiver(t, id))
    case Unregisters(id) =>
      Detached(sys, ForgetParticipant(s, id), UnregisterLinks(s, id), AfterUnregister(s, id))
    case Publishes(ref, key, remote, moved) =>
      if ref in s.table || Refired(s, key, remote) then sys else
      var m := Migrated(s, ref, key, remote, moved);
      var t := AfterPublish(s, ref, key, remote, moved);
      Queue(Detached(sys, m, ReplacedLinks(s, key, m), t), SubscribeEveryone(t, ref))
    case Unpublishes(source, role) =>
      Detached(sys, s, UnpublishLinks(s, source, role), AfterUnpublish(s, source, role))
    case ReadStops(ref) =>
      if Registered(s, ref) then Detached(sys, s, LinksOf(s, ref), AfterReadStop(s, ref)) else sys
    case Chooses(receiver, cameras, layer) =>
      var c := Choose(s, receiver, cameras, layer);
      Queue(Detached(sys, c, UnwantedLinks(c, receiver), AfterChoose(s, receiver, cameras, layer)),
            ChooseSubscribes(c, receiver))
    case AddsTrack(op) =>
      if op.Subscribe? && op in sys.queued
      then sys.(queued := sys.queued - multiset{op}, held := sys.held[sys.issued := op], issued := sys.issued + 1)
      else sys
    case Installs(sender) =>
      if sender in sys.held && sys.held[sender].Subscribe? then
        var op := sys.held[sender];
        var h := sys.(held := sys.held - {sender});
        if InstallValid(s, op)
        then h.(r := AfterInstall(s, op, sender))
        else h.(queued := h.queued + multiset{Remove(op.peer, sender)})
      else sys
    case RemovesTrack(op) =>
      if op.Remove? && op in sys.queued
      then sys.(queued := sys.queued - multiset{op}, removed := sys.removed + {op.sender})
      else sys
  }

  function Run(sys: System, events: seq<Event>): System
    decreases |events|
  {
    if events == [] then sys else Run(Next(sys, events[0]), events[1..])
  }

  // -- The three invariants -------------------------------------------------

  ghost predicate Pending(sys: System, op: Op) {
    op in sys.queued || exists x :: x in sys.held && sys.held[x] == op
  }

  // Wanted, therefore installed or on its way to the receiver's current peer.
  ghost predicate CoveredAt(sys: System, ref: PubRef, id: Id)
    requires id in sys.r.peers
  {
    (ref in sys.r.table && id in sys.r.table[ref].tracks) ||
    Pending(sys, Subscribe(ref, id, sys.r.peers[id]))
  }

  ghost predicate Covered(sys: System) {
    forall k, id :: k in sys.r.pubs && id in sys.r.peers && ShouldSubscribe(sys.r, k, id) ==>
      CoveredAt(sys, sys.r.pubs[k], id)
  }

  datatype Place = Held | Installed(link: Link) | QueuedFor(peer: PeerRef) | Gone | Lost

  ghost predicate At(sys: System, x: SenderRef, p: Place) {
    match p
    case Held => x in sys.held
    case Installed(l) => Linked(sys.r, l) && sys.r.table[l.0].senders[l.1] == x
    case QueuedFor(peer) => Remove(peer, x) in sys.queued
    case Gone => x in sys.removed
    case Lost => x in sys.dropped
  }

  ghost predicate OnePlace(sys: System, x: SenderRef) {
    exists p :: At(sys, x, p) && forall q :: At(sys, x, q) ==> q == p
  }

  // Every sender ever issued is in exactly one place, and queued for removal
  // at most once.
  ghost predicate Placed(sys: System) {
    && (forall x: SenderRef :: x < sys.issued ==> OnePlace(sys, x))
    && (forall x: SenderRef, p :: At(sys, x, p) ==> x < sys.issued)
    && (forall x: SenderRef, peer :: sys.queued[Remove(peer, x)] <= 1)
    && (forall x :: x in sys.held ==> sys.held[x].Subscribe?)
  }

  ghost predicate Inv(sys: System) {
    Sound(sys.r) && Covered(sys) && Placed(sys)
  }

  // -- Placement --------------------------------------------------------------

  lemma PlacesAgree(sys: System, x: SenderRef, p: Place, q: Place)
    requires Placed(sys) && At(sys, x, p) && At(sys, x, q)
    ensures p == q
  {
    assert OnePlace(sys, x);
  }

  lemma PlacedFollows(sys: System, sys': System)
    requires Placed(sys)
    requires sys'.r.table == sys.r.table && sys'.held == sys.held && sys'.issued == sys.issued
    requires sys'.removed == sys.removed && sys'.dropped == sys.dropped
    requires forall peer, x :: sys'.queued[Remove(peer, x)] == sys.queued[Remove(peer, x)]
    ensures Placed(sys')
  {
    forall x: SenderRef, p ensures At(sys', x, p) == At(sys, x, p) {
      match p
      case Installed(l) => assert Linked(sys.r, l) == Linked(sys'.r, l);
      case QueuedFor(peer) => assert sys'.queued[Remove(peer, x)] == sys.queued[Remove(peer, x)];
      case _ =>
    }
    forall x: SenderRef | x < sys'.issued ensures OnePlace(sys', x) {
      assert OnePlace(sys, x);
      var p :| At(sys, x, p);
      assert At(sys', x, p);
    }
  }

  lemma QueueKeepsPlaced(sys: System, ops: set<Op>)
    requires Placed(sys) && forall op :: op in ops ==> op.Subscribe?
    ensures Placed(Queue(sys, ops))
  {
    PlacedFollows(sys, Queue(sys, ops));
  }

  // Where a sender goes when the links in `v` are cut.
  function AfterCut(s: State, v: set<Link>, p: Place): Place {
    if p.Installed? && p.link in v
    then if p.link.1 in s.peers then QueuedFor(s.peers[p.link.1]) else Lost
    else p
  }

  lemma CutMoves(sys: System, s: State, v: set<Link>, t: State, x: SenderRef, p: Place)
    requires Placed(sys) && s.table == sys.r.table && t.table == Cut(s, v).table && At(sys, x, p)
    ensures At(Detached(sys, s, v, t), x, AfterCut(s, v, p))
  {
    var d := Detached(sys, s, v, t);
    if p.Installed? && p.link in v {
      assert Linked(s, p.link);
      if p.link.1 in s.peers {
        assert Remove(s.peers[p.link.1], x) in CutRemovals(s, v);
      } else {
        assert x in CutDropped(s, v);
      }
    } else if p.QueuedFor? {
      assert Remove(p.peer, x) in d.queued;
    }
  }

  lemma CutOrigin(sys: System, s: State, v: set<Link>, t: State, x: SenderRef, q: Place) returns (p: Place)
    requires Placed(sys) && s.table == sys.r.table && t.table == Cut(s, v).table
    requires At(Detached(sys, s, v, t), x, q)
    ensures At(sys, x, p) && q == AfterCut(s, v, p)
  {
    p := q;
    if q.QueuedFor? && Remove(q.peer, x) !in sys.queued {
      assert Remove(q.peer, x) in CutRemovals(s, v);
      var l: Link :| l in v && Linked(s, l) && l.1 in s.peers &&
                     Remove(q.peer, x) == Remove(s.peers[l.1], s.table[l.0].senders[l.1]);
      p := Installed(l);
    } else if q.Lost? && x !in sys.dropped {
      var l: Link :| l in v && Linked(s, l) && l.1 !in s.peers && x == s.table[l.0].senders[l.1];
      p := Installed(l);
    }
  }

  lemma CutKeepsPlaced(sys: System, s: State, v: set<Link>, t: State)
    requires Placed(sys) && s.table == sys.r.table && t.table == Cut(s, v).table
    ensures Placed(Detached(sys, s, v, t))
  {
    var d := Detached(sys, s, v, t);
    forall x: SenderRef | x < d.issued ensures OnePlace(d, x) {
      assert OnePlace(sys, x);
      var p :| At(sys, x, p);
      CutMoves(sys, s, v, t, x, p);
      forall q | At(d, x, q) ensures q == AfterCut(s, v, p) {
        var o := CutOrigin(sys, s, v, t, x, q);
        PlacesAgree(sys, x, o, p);
      }
    }
    forall x: SenderRef, q | At(d, x, q) ensures x < d.issued { var o := CutOrigin(sys, s, v, t, x, q); }
    forall x: SenderRef, peer ensures d.queued[Remove(peer, x)] <= 1 {
      if Remove(peer, x) in CutRemovals(s, v) && Remove(peer, x) in sys.queued {
        var l: Link :| l in v && Linked(s, l) && l.1 in s.peers &&
                       Remove(peer, x) == Remove(s.peers[l.1], s.table[l.0].senders[l.1]);
        PlacesAgree(sys, x, Installed(l), QueuedFor(peer));
      }
    }
  }

  lemma MigrationKeepsPlaced(sys: System, ref: PubRef, key: Key, remote: Remote, moved: set<Id>)
    requires Placed(sys) && Sound(sys.r) && ref !in sys.r.table
    ensures Placed(sys.(r := Migrated(sys.r, ref, key, remote, moved)))
  {
    var s := sys.r;
    var m := Migrated(s, ref, key, remote, moved);
    var d := sys.(r := m);
    forall x: SenderRef, q | At(d, x, q)
      ensures q.Installed? && q.link.0 == ref ==>
                At(sys, x, Installed((s.pubs[key], q.link.1))) && key in s.pubs && q.link.1 in moved
      ensures !(q.Installed? && q.link.0 == ref) ==> At(sys, x, q)
    {
      if q.Installed? { MigratedLinks(s, ref, key, remote, moved, q.link); }
    }
    forall x: SenderRef | x < d.issued ensures OnePlace(d, x) {
      assert OnePlace(sys, x);
      var p :| At(sys, x, p);
      var p' := if p.Installed? && !(Linked(m, p.link) && m.table[p.link.0].senders[p.link.1] == x)
                then Installed((ref, p.link.1)) else p;
      assert At(d, x, p') by {
        if p.Installed? { LinksMigrate(s, ref, key, remote, moved, p.link); }
      }
      forall q | At(d, x, q) ensures q == p' {
        MigratedPlaceUnique(sys, ref, key, remote, moved, x, p', q);
      }
    }
  }

  // Each link survives a migration in place or moves to the replacement.
  lemma LinksMigrate(s: State, ref: PubRef, key: Key, remote: Remote, moved: set<Id>, l: Link)
    requires Sound(s) && ref !in s.table && Linked(s, l)
    ensures var m := Migrated(s, ref, key, remote, moved);
            || (Linked(m, l) && m.table[l.0].senders[l.1] == s.table[l.0].senders[l.1])
            || (!Linked(m, l) && Linked(m, (ref, l.1)) && m.table[ref].senders[l.1] == s.table[l.0].senders[l.1])
  {
    MigratedFresh(s, ref, key, remote, moved);
    MigratedOther(s, ref, key, remote, moved, l.0);
  }

  lemma MigratedPlaceUnique(sys: System, ref: PubRef, key: Key, remote: Remote, moved: set<Id>,
                            x: SenderRef, p: Place, q: Place)
    requires Placed(sys) && Sound(sys.r) && ref !in sys.r.table
    requires At(sys.(r := Migrated(sys.r, ref, key, remote, moved)), x, p)
    requires At(sys.(r := Migrated(sys.r, ref, key, remote, moved)), x, q)
    ensures p == q
  {
    var m := Migrated(sys.r, ref, key, remote, moved);
    if p.Installed? { MigratedLinks(sys.r, ref, key, remote, moved, p.link); }
    if q.Installed? { MigratedLinks(sys.r, ref, key, remote, moved, q.link); }
    var p0 := if p.Installed? && p.link.0 == ref then Installed((sys.r.pubs[key], p.link.1)) else p;
    var q0 := if q.Installed? && q.link.0 == ref then Installed((sys.r.pubs[key], q.link.1)) else q;
    assert At(sys, x, p0) && At(sys, x, q0);
    PlacesAgree(sys, x, p0, q0);
  }

  lemma AddTrackKeepsPlaced(sys: System, op: Op)
    requires Placed(sys) && op.Subscribe? && op in sys.queued
    ensures Placed(Next(sys, AddsTrack(op)))
  {
    var d := Next(sys, AddsTrack(op));
    forall x: SenderRef, p | At(d, x, p) ensures (x == sys.issued && p == Held) || (x < sys.issued && At(sys, x, p)) {
      if p.QueuedFor? { assert d.queued[Remove(p.peer, x)] == sys.queued[Remove(p.peer, x)]; }
      if x != sys.issued || p != Held { assert At(sys, x, p); }
    }
    forall x: SenderRef, p | At(sys, x, p) ensures At(d, x, p) {
      if p.QueuedFor? { assert d.queued[Remove(p.peer, x)] == sys.queued[Remove(p.peer, x)]; }
    }
    forall x: SenderRef | x < d.issued ensures OnePlace(d, x) {
      if x == sys.issued {
        assert At(d, x, Held);
      } else {
        assert OnePlace(sys, x);
        var p :| At(sys, x, p);
        assert At(d, x, p);
      }
    }
    forall x: SenderRef, peer ensures d.queued[Remove(peer, x)] <= 1 {
      assert d.queued[Remove(peer, x)] == sys.queued[Remove(peer, x)];
    }
  }

  // Moving one sender from `p` to `p'` and nothing else keeps every sender placed.
  lemma MoveKeepsPlaced(sys: System, d: System, y: SenderRef, p: Place, p': Place)
    requires Placed(sys) && d.issued == sys.issued && At(sys, y, p)
    requires forall x: SenderRef, q :: At(d, x, q) == (if x == y then q == p' else At(sys, x, q))
    requires forall x: SenderRef, peer :: d.queued[Remove(peer, x)] <= 1
    requires forall x :: x in d.held ==> d.held[x].Subscribe?
    ensures Placed(d)
  {
    forall x: SenderRef | x < d.issued ensures OnePlace(d, x) {
      if x == y {
        assert At(d, x, p');
      } else {
        assert OnePlace(sys, x);
        var q :| At(sys, x, q);
        assert At(d, x, q);
      }
    }
  }

  lemma InstalledLinks(s: State, op: Op, sender: SenderRef, l: Link)
    requires Sound(s) && op.Subscribe? && InstallValid(s, op)
    ensures var t := AfterInstall(s, op, sender);
            && !Linked(s, (op.pub, op.targetID))
            && (Linked(t, l) <==> Linked(s, l) || l == (op.pub, op.targetID))
            && (Linked(t, l) ==>
                  t.table[l.0].senders[l.1] == if l == (op.pub, op.targetID) then sender else s.table[l.0].senders[l.1])
  {
    assert SoundPublication(s, op.pub);
  }

  lemma InstallKeepsPlaced(sys: System, sender: SenderRef)
    requires Placed(sys) && Sound(sys.r) && sender in sys.held
    ensures Placed(Next(sys, Installs(sender)))
  {
    var op := sys.held[sender];
    var d := Next(sys, Installs(sender));
    assert At(sys, sender, Held);
    if InstallValid(sys.r, op) {
      forall x: SenderRef, q
        ensures At(d, x, q) == if x == sender then q == Installed((op.pub, op.targetID)) else At(sys, x, q)
      {
        if x == sender && At(sys, x, q) { PlacesAgree(sys, x, q, Held); }
        if q.Installed? { InstalledLinks(sys.r, op, sender, q.link); }
      }
      MoveKeepsPlaced(sys, d, sender, Held, Installed((op.pub, op.targetID)));
    } else {
      RejectKeepsPlaced(sys, sender);
    }
  }

  lemma RejectKeepsPlaced(sys: System, sender: SenderRef)
    requires Placed(sys) && sender in sys.held && sys.held[sender].Subscribe? && !InstallValid(sys.r, sys.held[sender])
    ensures Placed(Next(sys, Installs(sender)))
  {
    var op := sys.held[sender];
    var d := Next(sys, Installs(sender));
    assert At(sys, sender, Held);
    forall x: SenderRef, peer ensures d.queued[Remove(peer, x)] == sys.queued[Remove(peer, x)] +
      (if x == sender && peer == op.peer then 1 else 0) {}
    forall x: SenderRef, q ensures At(d, x, q) == (if x == sender then q == QueuedFor(op.peer) else At(sys, x, q)) {
      if x == sender && At(sys, x, q) { PlacesAgree(sys, x, q, Held); }
    }
    forall x: SenderRef, peer ensures d.queued[Remove(peer, x)] <= 1 {
      if Remove(peer, sender) in sys.queued { PlacesAgree(sys, sender, QueuedFor(peer), Held); }
    }
    MoveKeepsPlaced(sys, d, sender, Held, QueuedFor(op.peer));
  }

  lemma RemoveTrackKeepsPlaced(sys: System, op: Op)
    requires Placed(sys) && op.Remove? && op in sys.queued
    ensures Placed(Next(sys, RemovesTrack(op)))
  {
    var d := Next(sys, RemovesTrack(op));
    assert At(sys, op.sender, QueuedFor(op.peer));
    forall x: SenderRef, q ensures At(d, x, q) == (if x == op.sender then q == Gone else At(sys, x, q)) {
      if x == op.sender && At(sys, x, q) { PlacesAgree(sys, x, q, QueuedFor(op.peer)); }
      if q.QueuedFor? { assert sys.queued[Remove(q.peer, x)] <= 1; }
    }
    MoveKeepsPlaced(sys, d, op.sender, QueuedFor(op.peer), Gone);
  }

  // -- Coverage ---------------------------------------------------------------

  lemma PendingSurvives(sys: System, sys': System, op: Op)
    requires Pending(sys, op)
    requires sys.queued <= sys'.queued && sys'.held == sys.held
    ensures Pending(sys', op)
  {
  }

  // A step keeps coverage when every link it leaves wanted was either wanted
  // and untouched before, or is queued by the step itself.
  lemma CoverageFollows(sys: System, sys': System)
    requires Covered(sys)
    requires sys.queued <= sys'.queued && sys'.held == sys.held
    requires forall k, id :: k in sys'.r.pubs && id in sys'.r.peers && ShouldSubscribe(sys'.r, k, id) ==>
               || CoveredAt(sys', sys'.r.pubs[k], id)
               || (&& k in sys.r.pubs && sys.r.pubs[k] == sys'.r.pubs[k]
                   && id in sys.r.peers && sys.r.peers[id] == sys'.r.peers[id]
                   && ShouldSubscribe(sys.r, k, id)
                   && (sys.r.pubs[k] in sys.r.table && id in sys.r.table[sys.r.pubs[k]].tracks ==>
                         sys.r.pubs[k] in sys'.r.table && id in sys'.r.table[sys.r.pubs[k]].tracks))
    ensures Covered(sys')
  {
    forall k, id | k in sys'.r.pubs && id in sys'.r.peers && ShouldSubscribe(sys'.r, k, id)
      ensures CoveredAt(sys', sys'.r.pubs[k], id)
    {
      if !CoveredAt(sys', sys'.r.pubs[k], id) {
        assert CoveredAt(sys, sys.r.pubs[k], id);
        PendingSurvives(sys, sys', Subscribe(sys.r.pubs[k], id, sys.r.peers[id]));
      }
    }
  }

  lemma RegisterKeepsCovered(sys: System, id: Id, peer: PeerRef)
    requires Covered(sys) && Sound(sys.r)
    ensures Covered(Next(sys, Registers(id, peer)))
  {
    var d := Next(sys, Registers(id, peer));
    forall k | k in d.r.pubs ensures CoveredAt(d, d.r.pubs[k], id) {
      if id !in d.r.table[d.r.pubs[k]].tracks {
        assert Subscribe(d.r.pubs[k], id, peer) in SubscribeReceiver(d.r, id);
        assert Subscribe(d.r.pubs[k], id, peer) in d.queued;
      }
    }
    CoverageFollows(sys, d);
  }

  lemma UnregisterKeepsCovered(sys: System, id: Id)
    requires Covered(sys) && Sound(sys.r)
    ensures Covered(Next(sys, Unregisters(id)))
  {
    var d := Next(sys, Unregisters(id));
    forall k, x | k in d.r.pubs && x in d.r.peers && x in sys.r.table[sys.r.pubs[k]].tracks
      ensures x in d.r.table[sys.r.pubs[k]].tracks
    {
      assert (sys.r.pubs[k], x) !in UnregisterLinks(sys.r, id);
    }
    CoverageFollows(sys, d);
  }

  lemma UnpublishKeepsCovered(sys: System, source: Id, role: Role)
    requires Covered(sys) && Sound(sys.r)
    ensures Covered(Next(sys, Unpublishes(source, role)))
  {
    var d := Next(sys, Unpublishes(source, role));
    forall k, x | k in d.r.pubs && x in sys.r.table[sys.r.pubs[k]].tracks
      ensures x in d.r.table[sys.r.pubs[k]].tracks
    {
      assert (sys.r.pubs[k], x) !in UnpublishLinks(sys.r, source, role);
    }
    CoverageFollows(sys, d);
  }

  lemma ReadStopKeepsCovered(sys: System, ref: PubRef)
    requires Covered(sys) && Sound(sys.r)
    ensures Covered(Next(sys, ReadStops(ref)))
  {
    if Registered(sys.r, ref) {
      var d := Next(sys, ReadStops(ref));
      forall k, x | k in d.r.pubs && x in sys.r.table[sys.r.pubs[k]].tracks
        ensures x in d.r.table[sys.r.pubs[k]].tracks
      {
        assert (sys.r.pubs[k], x) !in LinksOf(sys.r, ref);
      }
      CoverageFollows(sys, d);
    }
  }

  // What a change of subscriptions leaves installed, and what it queues.
  lemma ChooseSpares(s: State, receiver: Id, cameras: set<Id>, layer: string, k: Key, x: Id)
    requires Sound(s) && k in s.pubs && x in s.table[s.pubs[k]].tracks
    requires ShouldSubscribe(Choose(s, receiver, cameras, layer), k, x)
    ensures x in AfterChoose(s, receiver, cameras, layer).table[s.pubs[k]].tracks
  {
    assert (s.pubs[k], x) !in UnwantedLinks(Choose(s, receiver, cameras, layer), receiver);
  }

  lemma ChooseQueues(sys: System, d: System, c: State, receiver: Id, k: Key)
    requires d.queued >= sys.queued + multiset(ChooseSubscribes(c, receiver))
    requires k in c.pubs && receiver in c.peers && ShouldSubscribe(c, k, receiver) && c.pubs[k] in c.table
    requires receiver !in c.table[c.pubs[k]].tracks
    ensures Subscribe(c.pubs[k], receiver, c.peers[receiver]) in d.queued
  {
    assert Subscribe(c.pubs[k], receiver, c.peers[receiver]) in ChooseSubscribes(c, receiver);
    assert Subscribe(c.pubs[k], receiver, c.peers[receiver]) in multiset(ChooseSubscribes(c, receiver));
  }

  // The receiver's own wishes are installed or queued.
  lemma ChooseCovers(sys: System, d: System, c: State, receiver: Id, k: Key)
    requires d.queued >= sys.queued + multiset(ChooseSubscribes(c, receiver))
    requires k in c.pubs && receiver in c.peers && ShouldSubscribe(c, k, receiver) && c.pubs[k] in c.table
    requires d.r.peers == c.peers && c.pubs[k] in d.r.table
    requires receiver in c.table[c.pubs[k]].tracks ==> receiver in d.r.table[c.pubs[k]].tracks
    ensures CoveredAt(d, c.pubs[k], receiver)
  {
    if receiver !in c.table[c.pubs[k]].tracks { ChooseQueues(sys, d, c, receiver, k); }
  }

  lemma ChooseKeepsRegistry(sys: System, receiver: Id, cameras: set<Id>, layer: string)
    ensures var c, d := Choose(sys.r, receiver, cameras, layer), Next(sys, Chooses(receiver, cameras, layer));
            && d.r.pubs == sys.r.pubs && d.r.peers == sys.r.peers && d.r.table.Keys == sys.r.table.Keys
            && d.r == AfterChoose(sys.r, receiver, cameras, layer)
            && d.queued >= sys.queued + multiset(ChooseSubscribes(c, receiver)) && d.held == sys.held
            && (forall k, id :: ShouldSubscribe(d.r, k, id) == ShouldSubscribe(c, k, id))
            && (forall k, id :: id != receiver ==> ShouldSubscribe(c, k, id) == ShouldSubscribe(sys.r, k, id))
  {
  }

  lemma ChooseKeepsCovered(sys: System, receiver: Id, cameras: set<Id>, layer: string)
    requires Covered(sys) && Sound(sys.r)
    ensures Covered(Next(sys, Chooses(receiver, cameras, layer)))
  {
    var c, d := Choose(sys.r, receiver, cameras, layer), Next(sys, Chooses(receiver, cameras, layer));
    ChooseKeepsRegistry(sys, receiver, cameras, layer);
    forall k, id | k in d.r.pubs && id in d.r.peers && ShouldSubscribe(d.r, k, id)
      ensures id == receiver ==> CoveredAt(d, d.r.pubs[k], id)
      ensures id in sys.r.table[sys.r.pubs[k]].tracks ==> id in d.r.table[sys.r.pubs[k]].tracks
    {
      if id in sys.r.table[sys.r.pubs[k]].tracks { ChooseSpares(sys.r, receiver, cameras, layer, k, id); }
      if id == receiver { ChooseCovers(sys, d, c, receiver, k); }
    }
    CoverageFollows(sys, d);
  }

  lemma CutSpares(s: State, v: set<Link>, r: PubRef)
    requires r in s.table && forall x :: (r, x) !in v
    ensures r in Cut(s, v).table && Cut(s, v).table[r].tracks == s.table[r].tracks
  {
  }

  lemma PublishSparesOthers(s: State, ref: PubRef, key: Key, remote: Remote, moved: set<Id>, k: Key)
    requires Sound(s) && ref !in s.table && k in s.pubs && k != key
    ensures var t := AfterPublish(s, ref, key, remote, moved);
            s.pubs[k] in t.table && t.table[s.pubs[k]].tracks == s.table[s.pubs[k]].tracks
  {
    var m := Migrated(s, ref, key, remote, moved);
    MigratedOther(s, ref, key, remote, moved, s.pubs[k]);
    assert s.table[s.pubs[k]].key == k;
    assert key in s.pubs ==> s.pubs[key] != s.pubs[k];
    CutSpares(m, ReplacedLinks(s, key, m), s.pubs[k]);
  }

  lemma PublishCoversReplacement(sys: System, d: System, ref: PubRef, id: Id)
    requires ref in d.r.table && id in d.r.peers
    requires d.queued == sys.queued + multiset(SubscribeEveryone(d.r, ref))
    ensures CoveredAt(d, ref, id)
  {
    if id !in d.r.table[ref].tracks {
      assert Subscribe(ref, id, d.r.peers[id]) in SubscribeEveryone(d.r, ref);
      assert Subscribe(ref, id, d.r.peers[id]) in d.queued;
    }
  }

  lemma PublishLabels(s: State, ref: PubRef, key: Key, remote: Remote, moved: set<Id>)
    requires ref !in s.table
    ensures var t := AfterPublish(s, ref, key, remote, moved);
            && t.peers == s.peers && t.pubs == s.pubs[key := ref] && ref in t.table
            && t.subscriptions == s.subscriptions && t.subscriptionsSet == s.subscriptionsSet
  {
    MigrationKeepsLabels(s, ref, key, remote, moved);
  }

  lemma PublishKeepsCovered(sys: System, ref: PubRef, key: Key, remote: Remote, moved: set<Id>)
    requires Covered(sys) && Sound(sys.r)
    ensures Covered(Next(sys, Publishes(ref, key, remote, moved)))
  {
    var s := sys.r;
    if ref !in s.table && !Refired(s, key, remote) {
      var d := Next(sys, Publishes(ref, key, remote, moved));
      var m := Migrated(s, ref, key, remote, moved);
      var gone := Detached(sys, m, ReplacedLinks(s, key, m), d.r);
      PublishLabels(s, ref, key, remote, moved);
      forall k, id | k in d.r.pubs && id in d.r.peers && ShouldSubscribe(d.r, k, id) && k != key
        ensures id in s.table[s.pubs[k]].tracks ==> s.pubs[k] in d.r.table && id in d.r.table[s.pubs[k]].tracks
      {
        PublishSparesOthers(s, ref, key, remote, moved, k);
      }
      forall id | id in d.r.peers ensures CoveredAt(d, ref, id) {
        PublishCoversReplacement(gone, d, ref, id);
      }
      CoverageFollows(sys, d);
    }
  }

  lemma PendingAcrossApply(sys: System, e: Event, op: Op)
    requires Pending(sys, op) && op.Subscribe?
    requires e.AddsTrack? || e.Installs? || (e.RemovesTrack? && e.op.Remove?)
    requires sys.issued !in sys.held
    ensures Pending(Next(sys, e), op) || (e.Installs? && e.sender in sys.held && sys.held[e.sender] == op)
  {
    var d := Next(sys, e);
    if op in sys.queued {
      if op !in d.queued {
        assert sys.issued in d.held && d.held[sys.issued] == op;
      }
    } else {
      var x :| x in sys.held && sys.held[x] == op;
      if !(e.Installs? && e.sender == x) {
        assert x in d.held && d.held[x] == op;
      }
    }
  }

  lemma TrackOpKeepsCovered(sys: System, e: Event)
    requires Covered(sys) && KeysAgree(sys.r)
    requires e.AddsTrack? || (e.RemovesTrack? && e.op.Remove?)
    requires sys.issued !in sys.held
    ensures Covered(Next(sys, e))
  {
    var d := Next(sys, e);
    forall k, id | k in d.r.pubs && id in d.r.peers && ShouldSubscribe(d.r, k, id)
      ensures CoveredAt(d, d.r.pubs[k], id)
    {
      assert CoveredAt(sys, sys.r.pubs[k], id);
      if id !in sys.r.table[sys.r.pubs[k]].tracks {
        PendingAcrossApply(sys, e, Subscribe(sys.r.pubs[k], id, sys.r.peers[id]));
      }
    }
  }

  lemma InstallCovers(sys: System, sender: SenderRef, k: Key, id: Id)
    requires KeysAgree(sys.r) && sys.issued !in sys.held
    requires k in sys.r.pubs && id in sys.r.peers && ShouldSubscribe(sys.r, k, id)
    requires CoveredAt(sys, sys.r.pubs[k], id)
    ensures CoveredAt(Next(sys, Installs(sender)), sys.r.pubs[k], id)
  {
    var want := Subscribe(sys.r.pubs[k], id, sys.r.peers[id]);
    if id !in sys.r.table[sys.r.pubs[k]].tracks {
      PendingAcrossApply(sys, Installs(sender), want);
      if sender in sys.held && sys.held[sender] == want {
        assert InstallValid(sys.r, want);
      }
    }
  }

  lemma InstallKeepsCovered(sys: System, sender: SenderRef)
    requires Covered(sys) && KeysAgree(sys.r) && sys.issued !in sys.held
    ensures Covered(Next(sys, Installs(sender)))
  {
    var d := Next(sys, Installs(sender));
    forall k, id | k in d.r.pubs && id in d.r.peers && ShouldSubscribe(d.r, k, id)
      ensures CoveredAt(d, d.r.pubs[k], id)
    {
      InstallCovers(sys, sender, k, id);
    }
  }

  // -- All runs -----------------------------------------------------------------

  lemma NextKeepsSound(sys: System, e: Event)
    requires Inv(sys)
    ensures Sound(Next(sys, e).r)
  {
    var s := sys.r;
    match e
    case Registers(id, peer) => RegisterKeepsSound(s, id, peer);
    case Unregisters(id) => UnregisterKeepsSound(s, id);
    case Publishes(ref, key, remote, moved) =>
      if ref !in s.table { PublishKeepsSound(s, ref, key, remote, moved); }
    case Unpublishes(source, role) => UnpublishKeepsSound(s, source, role);
    case ReadStops(ref) => ReadStopKeepsSound(s, ref);
    case Chooses(receiver, cameras, layer) => ChooseKeepsSound(s, receiver, cameras, layer);
    case AddsTrack(op) =>
    case Installs(sender) =>
      if sender in sys.held {
        forall l: Link | Linked(s, l) ensures s.table[l.0].senders[l.1] != sender {
          if s.table[l.0].senders[l.1] == sender { PlacesAgree(sys, sender, Held, Installed(l)); }
        }
        InstallKeepsSound(s, sys.held[sender], sender);
      }
    case RemovesTrack(op) =>
  }

  lemma PublishKeepsPlaced(sys: System, ref: PubRef, key: Key, remote: Remote, moved: set<Id>)
    requires Placed(sys) && Sound(sys.r)
    ensures Placed(Next(sys, Publishes(ref, key, remote, moved)))
  {
    var s := sys.r;
    if ref !in s.table && !Refired(s, key, remote) {
      var m := Migrated(s, ref, key, remote, moved);
      var t := AfterPublish(s, ref, key, remote, moved);
      MigrationKeepsPlaced(sys, ref, key, remote, moved);
      var sysM := sys.(r := m);
      CutKeepsPlaced(sysM, m, ReplacedLinks(s, key, m), t);
      assert Detached(sysM, m, ReplacedLinks(s, key, m), t) == Detached(sys, m, ReplacedLinks(s, key, m), t);
      QueueKeepsPlaced(Detached(sys, m, ReplacedLinks(s, key, m), t), SubscribeEveryone(t, ref));
    }
  }

  lemma ChooseKeepsPlaced(sys: System, receiver: Id, cameras: set<Id>, layer: string)
    requires Placed(sys)
    ensures Placed(Next(sys, Chooses(receiver, cameras, layer)))
  {
    var c := Choose(sys.r, receiver, cameras, layer);
    var t := AfterChoose(sys.r, receiver, cameras, layer);
    CutKeepsPlaced(sys, c, UnwantedLinks(c, receiver), t);
    QueueKeepsPlaced(Detached(sys, c, UnwantedLinks(c, receiver), t), ChooseSubscribes(c, receiver));
  }

  lemma NextKeepsPlaced(sys: System, e: Event)
    requires Inv(sys)
    ensures Placed(Next(sys, e))
  {
    var s := sys.r;
    match e
    case Registers(id, peer) =>
      var t := AfterRegister(s, id, peer);
      PlacedFollows(sys, sys.(r := t));
      QueueKeepsPlaced(sys.(r := t), SubscribeReceiver(t, id));
    case Unregisters(id) =>
      CutKeepsPlaced(sys, ForgetParticipant(s, id), UnregisterLinks(s, id), AfterUnregister(s, id));
    case Publishes(ref, key, remote, moved) =>
      PublishKeepsPlaced(sys, ref, key, remote, moved);
    case Unpublishes(source, role) =>
      CutKeepsPlaced(sys, s, UnpublishLinks(s, source, role), AfterUnpublish(s, source, role));
    case ReadStops(ref) =>
      if Registered(s, ref) { CutKeepsPlaced(sys, s, LinksOf(s, ref), AfterReadStop(s, ref)); }
    case Chooses(receiver, cameras, layer) =>
      ChooseKeepsPlaced(sys, receiver, cameras, layer);
    case AddsTrack(op) =>
      if op.Subscribe? && op in sys.queued { AddTrackKeepsPlaced(sys, op); }
    case Installs(sender) =>
      if sender in sys.held { InstallKeepsPlaced(sys, sender); }
    case RemovesTrack(op) =>
      if op.Remove? && op in sys.queued { RemoveTrackKeepsPlaced(sys, op); }
  }

  lemma NextKeepsCovered(sys: System, e: Event)
    requires Inv(sys)
    ensures Covered(Next(sys, e))
  {
    match e
    case Registers(id, peer) => RegisterKeepsCovered(sys, id, peer);
    case Unregisters(id) => UnregisterKeepsCovered(sys, id);
    case Publishes(ref, key, remote, moved) => PublishKeepsCovered(sys, ref, key, remote, moved);
    case Unpublishes(source, role) => UnpublishKeepsCovered(sys, source, role);
    case ReadStops(ref) => ReadStopKeepsCovered(sys, ref);
    case Chooses(receiver, cameras, layer) => ChooseKeepsCovered(sys, receiver, cameras, layer);
    case AddsTrack(op) =>
      assert At(sys, sys.issued, Held) == (sys.issued in sys.held);
      TrackOpKeepsCovered(sys, e);
    case Installs(sender) =>
      assert At(sys, sys.issued, Held) == (sys.issued in sys.held);
      InstallKeepsCovered(sys, sender);
    case RemovesTrack(op) =>
      assert At(sys, sys.issued, Held) == (sys.issued in sys.held);
      if op.Remove? { TrackOpKeepsCovered(sys, e); }
  }

  lemma {:induction false} RunKeepsInv(sys: System, events: seq<Event>)
    requires Inv(sys)
    ensures Inv(Run(sys, events))
    decreases |events|
  {
    if events != [] {
      NextKeepsSound(sys, events[0]);
      NextKeepsPlaced(sys, events[0]);
      NextKeepsCovered(sys, events[0]);
      RunKeepsInv(Next(sys, events[0]), events[1..]);
    }
  }

  // Once nothing is in flight, the installed links are exactly the wanted ones.
  lemma QuiescentRunIsExact(events: seq<Event>, k: Key, id: Id)
    requires Run(Start, events).queued == multiset{} && Run(Start, events).held == map[]
    requires k in Run(Start, events).r.pubs && id in Run(Start, events).r.peers
    ensures var s := Run(Start, events).r;
            s.pubs[k] in s.table && (ShouldSubscribe(s, k, id) <==> id in s.table[s.pubs[k]].tracks)
  {
    var sys := Run(Start, events);
    EveryRunIsSafe(events);
    assert SoundPublication(sys.r, sys.r.pubs[k]);
    if ShouldSubscribe(sys.r, k, id) {
      assert CoveredAt(sys, sys.r.pubs[k], id);
    }
  }

  // In every reachable state: no wanted subscription is lost, no unwanted one is
  // installed, and every sender ever issued is in exactly one place.
  lemma EveryRunIsSafe(events: seq<Event>)
    ensures var sys := Run(Start, events); Sound(sys.r) && Covered(sys) && Placed(sys)
  {
    RunKeepsInv(Start, events);
  }

  ghost predicate Retired(sys: System, ref: PubRef) {
    ref in sys.r.table && !Registered(sys.r, ref)
  }

  lemma NextKeepsRetired(sys: System, e: Event, ref: PubRef)
    requires Inv(sys) && Retired(sys, ref)
    ensures Retired(Next(sys, e), ref)
  {
    if e.Publishes? && e.ref !in sys.r.table {
      MigrationKeepsLabels(sys.r, e.ref, e.key, e.remote, e.moved);
    }
  }

  // A replaced or removed publication has no receiver and never regains one,
  // whatever is still in flight.
  lemma {:induction false} RetiredStaysEmpty(sys: System, events: seq<Event>, ref: PubRef)
    requires Inv(sys) && Retired(sys, ref)
    ensures var d := Run(sys, events);
            Retired(d, ref) && d.r.table[ref].tracks == map[] && d.r.table[ref].senders == map[]
    decreases |events|
  {
    if events == [] {
      assert SoundPublication(sys.r, ref);
    } else {
      RunKeepsInv(sys, [events[0]]);
      assert Run(sys, [events[0]]) == Next(sys, events[0]);
      NextKeepsRetired(sys, events[0], ref);
      RetiredStaysEmpty(Next(sys, events[0]), events[1..], ref);
    }
  }
}
