/** Subscriptions that are queued although the receiver should not have them.
    Register and Publish queue without asking, so the publisher's own tracks and
    cameras a receiver has not chosen are queued too; what becomes of the
    senders AddTrack returns for them. */
module UnwantedSubscriptions {
  import opened RouterState
  import opened RouterProtocol

  // Its own media, or a camera outside the set the receiver asked for.
  predicate Refuses(s: State, key: Key, receiver: Id) {
    key.source == receiver ||
    (key.role == Camera && receiver in s.subscriptionsSet &&
     !(receiver in s.subscriptions && key.source in s.subscriptions[receiver]))
  }

  predicate Unwanted(s: State, op: Op) {
    op.Subscribe? && op.pub in s.table && Refuses(s, s.table[op.pub].key, op.targetID)
  }

  // The event queues a subscription that its own outcome does not want.
  ghost predicate QueuesUnwanted(sys: System, e: Event) {
    exists op :: Unwanted(Next(sys, e).r, op) && Next(sys, e).queued[op] > sys.queued[op]
  }

  // -- Which events queue one ---------------------------------------------------

  predicate RegistersRefusing(sys: System, e: Event) {
    e.Registers? && exists k :: k in sys.r.pubs && Refuses(sys.r, k, e.id)
  }

  predicate PublishesRefused(sys: System, e: Event) {
    e.Publishes? && e.ref !in sys.r.table && !Refired(sys.r, e.key, e.remote) &&
    exists id :: id in sys.r.peers && Refuses(sys.r, e.key, id)
  }

  lemma RegisterQueues(sys: System, id: Id, peer: PeerRef, k: Key)
    requires Sound(sys.r) && k in sys.r.pubs && Refuses(sys.r, k, id)
    ensures QueuesUnwanted(sys, Registers(id, peer))
  {
    var d := Next(sys, Registers(id, peer));
    assert SoundPublication(sys.r, sys.r.pubs[k]);
    var op := Subscribe(sys.r.pubs[k], id, peer);
    assert op in SubscribeReceiver(d.r, id);
    assert Unwanted(d.r, op) && d.queued[op] > sys.queued[op];
  }

  // A refused publication starts without a track for whoever refuses it.
  lemma RefusedHasNoTrack(s: State, ref: PubRef, key: Key, remote: Remote, moved: set<Id>, id: Id)
    requires Sound(s) && ref !in s.table && Refuses(s, key, id)
    ensures var t := AfterPublish(s, ref, key, remote, moved);
            && t.peers == s.peers && ref in t.table && id !in t.table[ref].tracks
            && Refuses(t, t.table[ref].key, id)
  {
    PublishLabels(s, ref, key, remote, moved);
    PublishKeepsSound(s, ref, key, remote, moved);
    assert SoundPublication(AfterPublish(s, ref, key, remote, moved), ref);
  }

  lemma PublishQueues(sys: System, e: Event, id: Id)
    requires Sound(sys.r) && e.Publishes? && e.ref !in sys.r.table && !Refired(sys.r, e.key, e.remote)
    requires id in sys.r.peers && Refuses(sys.r, e.key, id)
    ensures QueuesUnwanted(sys, e)
  {
    var t := AfterPublish(sys.r, e.ref, e.key, e.remote, e.moved);
    RefusedHasNoTrack(sys.r, e.ref, e.key, e.remote, e.moved, id);
    var op := Subscribe(e.ref, id, t.peers[id]);
    assert op in SubscribeEveryone(t, e.ref);
    assert Next(sys, e).r == t && Next(sys, e).queued >= sys.queued + multiset(SubscribeEveryone(t, e.ref));
    assert Unwanted(t, op);
  }

  // The subscriptions an event decides on.
  function Decided(sys: System, e: Event): set<Op> {
    match e
    case Registers(id, peer) => SubscribeReceiver(Next(sys, e).r, id)
    case Publishes(ref, key, remote, moved) =>
      if ref in sys.r.table || Refired(sys.r, key, remote) then {} else SubscribeEveryone(Next(sys, e).r, ref)
    case Chooses(receiver, cameras, layer) => ChooseSubscribes(Choose(sys.r, receiver, cameras, layer), receiver)
    case _ => {}
  }

  lemma QueuedIsDecided(sys: System, e: Event, op: Op)
    requires op.Subscribe? && Next(sys, e).queued[op] > sys.queued[op]
    ensures op in Decided(sys, e)
  {
    if !e.Registers? && !e.Publishes? && !e.Chooses? { OthersDecideNothing(sys, e, op); }
  }

  lemma OthersDecideNothing(sys: System, e: Event, op: Op)
    requires op.Subscribe? && !e.Registers? && !e.Publishes? && !e.Chooses?
    ensures Next(sys, e).queued[op] <= sys.queued[op]
  {
  }

  lemma ChosenIsWanted(s: State, receiver: Id, cameras: set<Id>, layer: string, op: Op)
    requires Sound(s) && op in ChooseSubscribes(Choose(s, receiver, cameras, layer), receiver)
    ensures !Unwanted(AfterChoose(s, receiver, cameras, layer), op)
  {
    var c := Choose(s, receiver, cameras, layer);
    var k :| k in WantedKeys(c, receiver) && op.pub == s.pubs[k] && op.targetID == receiver;
    assert ShouldSubscribe(c, k, receiver) && s.table[op.pub].key == k;
  }

  lemma OnlyRegisterOrPublishQueues(sys: System, e: Event, op: Op)
    requires Sound(sys.r) && Unwanted(Next(sys, e).r, op) && op in Decided(sys, e)
    ensures RegistersRefusing(sys, e) || PublishesRefused(sys, e)
  {
    match e
    case Registers(id, peer) =>
      assert Refuses(sys.r, sys.r.table[op.pub].key, id);
    case Publishes(ref, key, remote, moved) =>
      PublishLabels(sys.r, ref, key, remote, moved);
      MigrationKeepsLabels(sys.r, ref, key, remote, moved);
      assert Refuses(sys.r, key, op.targetID);
    case Chooses(receiver, cameras, layer) =>
      ChosenIsWanted(sys.r, receiver, cameras, layer, op);
    case _ =>
  }

  // Exactly a receiver that registers while a publication it refuses is there,
  // or a publication that a registered receiver refuses, queues one; a change of
  // subscriptions never does.
  lemma StepQueuesUnwanted(sys: System, e: Event)
    requires Sound(sys.r)
    ensures QueuesUnwanted(sys, e) <==> RegistersRefusing(sys, e) || PublishesRefused(sys, e)
  {
    if op :| Unwanted(Next(sys, e).r, op) && Next(sys, e).queued[op] > sys.queued[op] {
      QueuedIsDecided(sys, e, op);
      OnlyRegisterOrPublishQueues(sys, e, op);
    }
    if RegistersRefusing(sys, e) {
      var k :| k in sys.r.pubs && Refuses(sys.r, k, e.id);
      RegisterQueues(sys, e.id, e.peer, k);
    }
    if PublishesRefused(sys, e) {
      var id :| id in sys.r.peers && Refuses(sys.r, e.key, id);
      PublishQueues(sys, e, id);
    }
  }

  // -- What becomes of the senders ------------------------------------------------

  // On its way off the peer, or off it.
  ghost predicate GoesDown(sys: System, x: SenderRef, peer: PeerRef) {
    At(sys, x, QueuedFor(peer)) || At(sys, x, Gone)
  }

  lemma StepKeepsGoingDown(sys: System, e: Event, x: SenderRef, peer: PeerRef)
    requires GoesDown(sys, x, peer)
    ensures GoesDown(Next(sys, e), x, peer)
  {
    if At(sys, x, Gone) { GoneStays(sys, e, x); } else { QueuedStays(sys, e, Remove(peer, x)); }
  }

  lemma GoneStays(sys: System, e: Event, x: SenderRef)
    requires x in sys.removed
    ensures x in Next(sys, e).removed
  {
  }

  lemma QueuedStays(sys: System, e: Event, op: Op)
    requires op.Remove? && op in sys.queued
    ensures op in Next(sys, e).queued || op.sender in Next(sys, e).removed
  {
    if !e.RemovesTrack? { OnlyRemovalsDequeue(sys, e); }
  }

  lemma OnlyRemovalsDequeue(sys: System, e: Event)
    requires !e.RemovesTrack?
    ensures forall op: Op :: op.Remove? && op in sys.queued ==> op in Next(sys, e).queued
  {
    if !e.AddsTrack? && !e.Installs? { LockRegionsOnlyQueue(sys, e); }
  }

  lemma LockRegionsOnlyQueue(sys: System, e: Event)
    requires !e.AddsTrack? && !e.Installs? && !e.RemovesTrack?
    ensures sys.queued <= Next(sys, e).queued
  {
  }

  lemma {:induction false} RunKeepsGoingDown(sys: System, events: seq<Event>, x: SenderRef, peer: PeerRef)
    requires GoesDown(sys, x, peer)
    ensures GoesDown(Run(sys, events), x, peer)
    decreases |events|
  {
    if events != [] {
      StepKeepsGoingDown(sys, events[0], x, peer);
      RunKeepsGoingDown(Next(sys, events[0]), events[1..], x, peer);
    }
  }

  // A sender whose subscription is unwanted when it comes to be installed is
  // never installed, then or later, and is off its peer once nothing is queued.
  lemma UnwantedSenderGoesDown(events: seq<Event>, x: SenderRef, more: seq<Event>)
    requires var sys := Run(Start, events); x in sys.held && Unwanted(sys.r, sys.held[x])
    ensures var sys := Run(Start, events);
            var d := Run(Next(sys, Installs(x)), more);
            && GoesDown(d, x, sys.held[x].peer)
            && (forall l: Link :: Linked(d.r, l) ==> d.r.table[l.0].senders[l.1] != x)
            && (d.queued == multiset{} ==> x in d.removed)
  {
    var sys := Run(Start, events);
    var n := Next(sys, Installs(x));
    var d := Run(n, more);
    var peer := sys.held[x].peer;
    EveryRunIsSafe(events);
    assert Remove(peer, x) in n.queued;
    RunKeepsGoingDown(n, more, x, peer);
    RunKeepsInv(sys, [Installs(x)] + more);
    assert ([Installs(x)] + more)[1..] == more;
    var place := if At(d, x, Gone) then Gone else QueuedFor(peer);
    forall l: Link | Linked(d.r, l) ensures d.r.table[l.0].senders[l.1] != x {
      if d.r.table[l.0].senders[l.1] == x { PlacesAgree(d, x, Installed(l), place); }
    }
  }

  // A participant's own audio is queued for itself, and a sender is made for it.
  lemma OwnTrackIsQueued()
    ensures var events := [Registers("a", 7), Publishes(0, Key("a", Audio, ""), Remote(0, 0, 0), {})];
            var op := Subscribe(0, "a", 7);
            && Unwanted(Run(Start, events).r, op) && op in Run(Start, events).queued
            && Run(Start, events + [AddsTrack(op)]).held == map[0 := op]
  {
    var registered, published := Registers("a", 7), Publishes(0, Key("a", Audio, ""), Remote(0, 0, 0), {});
    var op := Subscribe(0, "a", 7);
    var a := Next(Start, registered);
    assert SubscribeReceiver(AfterRegister(Empty, "a", 7), "a") == {};
    var b := Next(a, published);
    PublishLabels(a.r, 0, published.key, published.remote, {});
    MigratedFresh(a.r, 0, published.key, published.remote, {});
    assert op in SubscribeEveryone(b.r, 0);
    RunBegins(Start, registered, [published]);
    RunBegins(a, published, []);
    RunBegins(Start, registered, [published, AddsTrack(op)]);
    RunBegins(a, published, [AddsTrack(op)]);
    RunBegins(b, AddsTrack(op), []);
    assert [published] + [] == [published] && [AddsTrack(op)] + [] == [AddsTrack(op)];
    assert [registered, published] + [AddsTrack(op)] == [registered] + [published, AddsTrack(op)];
  }

  lemma RunBegins(sys: System, e: Event, rest: seq<Event>)
    ensures Run(sys, [e] + rest) == Run(Next(sys, e), rest)
  {
    assert ([e] + rest)[1..] == rest;
  }
}
