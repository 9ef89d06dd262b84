/** The router's lock regions as the program runs them: loops over its maps,
    updating them in place.  Each method is one hold of the router's lock. */
module MediaRouter {
  import CameraLayers
  import opened RouterState

  // -- How cuts compose -------------------------------------------------------

  lemma CutNothing(s: State)
    ensures Cut(s, {}) == s && CutRemovals(s, {}) == {}
  {
    assert Cut(s, {}).table == s.table by {
      forall r | r in s.table ensures CutPublication(r, s.table[r], {}) == s.table[r] {
        assert CutPublication(r, s.table[r], {}).tracks == s.table[r].tracks;
        assert CutPublication(r, s.table[r], {}).senders == s.table[r].senders;
      }
    }
    assert CutSenders(s, {}) == {};
  }

  lemma CutLinked(s: State, v: set<Link>, l: Link)
    ensures Linked(Cut(s, v), l) <==> Linked(s, l) && l !in v
    ensures Linked(Cut(s, v), l) ==> Cut(s, v).table[l.0].senders[l.1] == s.table[l.0].senders[l.1]
  {
  }

  lemma CutPublicationTwice(r: PubRef, p: Publication, v: set<Link>, w: set<Link>)
    ensures CutPublication(r, CutPublication(r, p, v), w) == CutPublication(r, p, v + w)
  {
    assert CutPublication(r, CutPublication(r, p, v), w).tracks == CutPublication(r, p, v + w).tracks;
    assert CutPublication(r, CutPublication(r, p, v), w).senders == CutPublication(r, p, v + w).senders;
  }

  lemma CutSendersTwice(s: State, v: set<Link>, w: set<Link>)
    ensures CutSenders(s, v + w) == CutSenders(s, v) + CutSenders(Cut(s, v), w)
  {
    var c := Cut(s, v);
    forall x | x in CutSenders(s, v + w) ensures x in CutSenders(s, v) + CutSenders(c, w) {
      var l: Link :| l in v + w && Linked(s, l) && s.table[l.0].senders[l.1] == x;
      CutLinked(s, v, l);
    }
    forall x | x in CutSenders(c, w) ensures x in CutSenders(s, v + w) {
      var l: Link :| l in w && Linked(c, l) && c.table[l.0].senders[l.1] == x;
      CutLinked(s, v, l);
    }
  }

  lemma CutTableTwice(s: State, v: set<Link>, w: set<Link>)
    ensures Cut(Cut(s, v), w).table == Cut(s, v + w).table
  {
    forall r | r in s.table ensures Cut(Cut(s, v), w).table[r] == Cut(s, v + w).table[r] {
      CutPublicationTwice(r, s.table[r], v, w);
    }
  }

  lemma CutHoldersTwice(s: State, v: set<Link>, w: set<Link>)
    ensures Cut(Cut(s, v), w).holders == Cut(s, v + w).holders
  {
    CutSendersTwice(s, v, w);
    assert s.holders - CutSenders(s, v) - CutSenders(Cut(s, v), w) == s.holders - CutSenders(s, v + w);
  }

  lemma CutThenCut(s: State, v: set<Link>, w: set<Link>)
    ensures Cut(Cut(s, v), w) == Cut(s, v + w)
  {
    CutTableTwice(s, v, w);
    CutHoldersTwice(s, v, w);
  }

  lemma RemovalsThenRemovals(s: State, v: set<Link>, w: set<Link>)
    requires SendersDistinct(s)
    ensures multiset(CutRemovals(s, v + w)) == multiset(CutRemovals(s, v)) + multiset(CutRemovals(Cut(s, v), w))
  {
    var c := Cut(s, v);
    forall op | op in CutRemovals(s, v + w) ensures op in CutRemovals(s, v) + CutRemovals(c, w) {
      var l: Link :| l in v + w && Linked(s, l) && l.1 in s.peers &&
                     op == Remove(s.peers[l.1], s.table[l.0].senders[l.1]);
      CutLinked(s, v, l);
    }
    forall op | op in CutRemovals(c, w) ensures op in CutRemovals(s, v + w) && op !in CutRemovals(s, v) {
      var l: Link :| l in w && Linked(c, l) && l.1 in c.peers && op == Remove(c.peers[l.1], c.table[l.0].senders[l.1]);
      CutLinked(s, v, l);
    }
    assert CutRemovals(s, v + w) == CutRemovals(s, v) + CutRemovals(c, w);
  }

  lemma CutKeepsDistinct(s: State, v: set<Link>)
    requires SendersDistinct(s)
    ensures SendersDistinct(Cut(s, v))
  {
    forall l: Link, m: Link | Linked(Cut(s, v), l) && Linked(Cut(s, v), m) && l != m
      ensures Cut(s, v).table[l.0].senders[l.1] != Cut(s, v).table[m.0].senders[m.1]
    {
      CutLinked(s, v, l);
      CutLinked(s, v, m);
    }
  }

  lemma SubscribesToOneMore(s: State, id: Id, keys: set<Key>, k: Key)
    requires KeysAgree(s) && k in s.pubs && k !in keys
    ensures multiset(SubscribesTo(s, id, keys + {k})) ==
            multiset(SubscribesTo(s, id, keys)) + multiset(SubscribesFrom(s, s.pubs[k], {id}))
  {
    assert SubscribesTo(s, id, {k}) == SubscribesFrom(s, s.pubs[k], {id});
    assert SubscribesTo(s, id, keys + {k}) == SubscribesTo(s, id, keys) + SubscribesTo(s, id, {k});
    assert SubscribesTo(s, id, keys) !! SubscribesTo(s, id, {k});
  }

  lemma SubscribesFromOneMore(s: State, r: PubRef, ids: set<Id>, id: Id)
    requires id !in ids
    ensures multiset(SubscribesFrom(s, r, ids + {id})) ==
            multiset(SubscribesFrom(s, r, ids)) + multiset(SubscribesFrom(s, r, {id}))
  {
    assert SubscribesFrom(s, r, ids + {id}) == SubscribesFrom(s, r, ids) + SubscribesFrom(s, r, {id});
    assert SubscribesFrom(s, r, ids) !! SubscribesFrom(s, r, {id});
  }

  ghost predicate Paired(s: State) {
    forall r :: r in s.table ==> s.table[r].tracks.Keys == s.table[r].senders.Keys
  }

  lemma SoundIsPaired(s: State)
    requires Sound(s)
    ensures Paired(s)
  {
    forall r | r in s.table ensures s.table[r].tracks.Keys == s.table[r].senders.Keys { assert SoundPublication(s, r); }
  }

  lemma CutKeepsPaired(s: State, v: set<Link>)
    requires Paired(s)
    ensures Paired(Cut(s, v))
  {
  }

  // Cutting `w` after `v` while the registry changes to `pubs` in between.
  lemma CutContinues(s: State, v: set<Link>, w: set<Link>, pubs: map<Key, PubRef>)
    requires SendersDistinct(s)
    ensures var c := Cut(s, v).(pubs := pubs);
            && Cut(c, w) == Cut(s, v + w).(pubs := pubs)
            && multiset(CutRemovals(s, v + w)) == multiset(CutRemovals(s, v)) + multiset(CutRemovals(c, w))
  {
    var c := Cut(s, v);
    var d := c.(pubs := pubs);
    CutThenCut(s, v, w);
    RemovalsThenRemovals(s, v, w);
    assert forall l: Link :: Linked(d, l) == Linked(c, l);
    assert CutSenders(d, w) == CutSenders(c, w);
    assert Cut(d, w).table == Cut(c, w).table;
    assert CutRemovals(d, w) == CutRemovals(c, w);
  }

  lemma CutPublicationSame(s: State, v: set<Link>, w: set<Link>, r: PubRef)
    requires r in s.table && s.table[r].tracks.Keys == s.table[r].senders.Keys
    requires forall t :: t in s.table[r].senders ==> ((r, t) in v <==> (r, t) in w)
    ensures CutPublication(r, s.table[r], v) == CutPublication(r, s.table[r], w)
  {
    assert CutPublication(r, s.table[r], v).tracks == CutPublication(r, s.table[r], w).tracks;
    assert CutPublication(r, s.table[r], v).senders == CutPublication(r, s.table[r], w).senders;
  }

  lemma CutTableSame(s: State, v: set<Link>, w: set<Link>)
    requires forall l: Link :: Linked(s, l) ==> (l in v <==> l in w)
    requires Paired(s)
    ensures Cut(s, v).table == Cut(s, w).table
  {
    forall r | r in s.table ensures CutPublication(r, s.table[r], v) == CutPublication(r, s.table[r], w) {
      forall t | t in s.table[r].senders ensures (r, t) in v <==> (r, t) in w { assert Linked(s, (r, t)); }
      CutPublicationSame(s, v, w, r);
    }
  }

  // Only the links that exist matter.
  lemma CutSame(s: State, v: set<Link>, w: set<Link>)
    requires forall l: Link :: Linked(s, l) ==> (l in v <==> l in w)
    requires Paired(s)
    ensures Cut(s, v) == Cut(s, w) && CutRemovals(s, v) == CutRemovals(s, w)
  {
    CutTableSame(s, v, w);
    assert CutSenders(s, v) == CutSenders(s, w);
  }

  // The links a loop over one publication's receivers has cut.
  ghost function DoneLinks(s: State, ref: PubRef, todo: set<Id>): set<Link>
    requires ref in s.table
  {
    set t | t in s.table[ref].senders && t !in todo :: (ref, t)
  }

  lemma RemoveBounds(s: State, ref: PubRef)
    requires ref in s.table
    ensures Cut(s, DoneLinks(s, ref, s.table[ref].senders.Keys)) == s
    ensures CutRemovals(s, DoneLinks(s, ref, s.table[ref].senders.Keys)) == {}
    ensures DoneLinks(s, ref, {}) == LinksOf(s, ref)
  {
    CutNothing(s);
    assert DoneLinks(s, ref, s.table[ref].senders.Keys) == {};
  }

  lemma RemoveStep(s: State, ref: PubRef, todo: set<Id>, t: Id)
    requires ref in s.table && t in todo && todo <= s.table[ref].senders.Keys && Paired(s) && SendersDistinct(s)
    ensures var c := Cut(s, DoneLinks(s, ref, todo));
            var v := DoneLinks(s, ref, todo - {t});
            && ref in c.table && t in c.table[ref].senders
            && c.table[ref].tracks.Keys == c.table[ref].senders.Keys
            && Cut(c, {(ref, t)}) == Cut(s, v)
            && multiset(CutRemovals(s, v)) ==
               multiset(CutRemovals(s, DoneLinks(s, ref, todo))) + multiset(CutRemovals(c, {(ref, t)}))
  {
    var v := DoneLinks(s, ref, todo);
    CutLinked(s, v, (ref, t));
    CutKeepsPaired(s, v);
    CutThenCut(s, v, {(ref, t)});
    RemovalsThenRemovals(s, v, {(ref, t)});
    assert DoneLinks(s, ref, todo - {t}) == v + {(ref, t)};
  }

  // -- Sweeping the registry --------------------------------------------------

  // A loop over the registry that cuts the links `u` and drops the keys `d`,
  // when it has yet to visit `todo`.
  ghost function Swept(s: State, u: set<Link>, todo: set<Key>): set<Link> {
    set l | l in u && l.0 in s.table && s.table[l.0].key !in todo
  }

  ghost function Progress(s: State, u: set<Link>, d: set<Key>, todo: set<Key>): State {
    Cut(s, Swept(s, u, todo)).(pubs := s.pubs - (d - todo))
  }

  ghost function SweptRemovals(s: State, u: set<Link>, todo: set<Key>): multiset<Op> {
    multiset(CutRemovals(s, Swept(s, u, todo)))
  }

  ghost predicate Sweepable(s: State, u: set<Link>) {
    KeysAgree(s) && Paired(s) && SendersDistinct(s) && forall l: Link :: l in u ==> Linked(s, l) && Registered(s, l.0)
  }

  lemma SweepBegins(s: State, u: set<Link>, d: set<Key>)
    requires Sweepable(s, u)
    ensures Progress(s, u, d, s.pubs.Keys) == s && SweptRemovals(s, u, s.pubs.Keys) == multiset{}
  {
    CutNothing(s);
    assert Swept(s, u, s.pubs.Keys) == {};
    assert s.pubs - (d - s.pubs.Keys) == s.pubs;
  }

  lemma SweepEnds(s: State, u: set<Link>, d: set<Key>)
    requires Sweepable(s, u)
    ensures Progress(s, u, d, {}) == Cut(s, u).(pubs := s.pubs - d)
    ensures SweptRemovals(s, u, {}) == multiset(CutRemovals(s, u))
  {
    assert Swept(s, u, {}) == u;
  }

  // What is left to visit has not been touched.
  lemma SweepReady(s: State, u: set<Link>, d: set<Key>, todo: set<Key>, k: Key)
    requires Sweepable(s, u) && k in todo && k in s.pubs
    ensures var c := Progress(s, u, d, todo);
            && k in c.pubs && c.pubs[k] == s.pubs[k] && c.pubs[k] in c.table
            && c.table[c.pubs[k]] == s.table[s.pubs[k]]
            && Paired(c) && SendersDistinct(c)
  {
    var c := Progress(s, u, d, todo);
    var v := Swept(s, u, todo);
    CutKeepsPaired(s, v);
    CutKeepsDistinct(s, v);
    DistinctFollowsTable(Cut(s, v), c);
    var p := s.table[s.pubs[k]];
    assert CutPublication(s.pubs[k], p, v).tracks == p.tracks;
    assert CutPublication(s.pubs[k], p, v).senders == p.senders;
  }

  lemma SweepStep(s: State, u: set<Link>, d: set<Key>, todo: set<Key>, k: Key, w: set<Link>)
    requires Sweepable(s, u) && k in todo && k in s.pubs
    requires forall l: Link :: l in w ==> l.0 == s.pubs[k]
    requires forall t :: t in s.table[s.pubs[k]].senders ==> ((s.pubs[k], t) in w <==> (s.pubs[k], t) in u)
    ensures var c := Progress(s, u, d, todo);
            && Cut(c, w).(pubs := s.pubs - (d - (todo - {k}))) == Progress(s, u, d, todo - {k})
            && SweptRemovals(s, u, todo - {k}) == SweptRemovals(s, u, todo) + multiset(CutRemovals(c, w))
  {
    var v := Swept(s, u, todo);
    var v' := Swept(s, u, todo - {k});
    CutContinues(s, v, w, s.pubs - (d - todo));
    forall l: Link | Linked(s, l) ensures l in v + w <==> l in v' {}
    CutSame(s, v + w, v');
  }

  // Visiting `k` cuts `w`, its part of `u`, and drops `k` if `d` says so.
  lemma SweepVisit(s: State, u: set<Link>, d: set<Key>, todo: set<Key>, k: Key, w: set<Link>)
    requires Sweepable(s, u) && k in todo && k in s.pubs
    requires forall l: Link :: l in w ==> l.0 == s.pubs[k]
    requires forall t :: t in s.table[s.pubs[k]].senders ==> ((s.pubs[k], t) in w <==> (s.pubs[k], t) in u)
    ensures var c := Progress(s, u, d, todo);
            && k in c.pubs && c.pubs[k] == s.pubs[k] && c.pubs[k] in c.table
            && c.table[c.pubs[k]] == s.table[s.pubs[k]] && Paired(c) && SendersDistinct(c)
            && Cut(c, w).(pubs := if k in d then c.pubs - {k} else c.pubs) == Progress(s, u, d, todo - {k})
            && SweptRemovals(s, u, todo - {k}) == SweptRemovals(s, u, todo) + multiset(CutRemovals(c, w))
  {
    SweepReady(s, u, d, todo, k);
    DropOne(s.pubs, d, todo, k);
    SweepStep(s, u, d, todo, k, w);
  }

  lemma DropOne(pubs: map<Key, PubRef>, d: set<Key>, todo: set<Key>, k: Key)
    requires k in todo
    ensures pubs - (d - (todo - {k})) == if k in d then pubs - (d - todo) - {k} else pubs - (d - todo)
  {
  }

  class Router {
    var peers: map<Id, PeerRef>
    var pubs: map<Key, PubRef>
    var publications: map<PubRef, Publication>
    var videoSubscriptions: map<Id, set<Id>>
    var videoSubscriptionsSet: set<Id>
    var cameraLayers: map<Id, string>
    var senderSourceSSRC: map<SenderRef, nat>

    function St(): State
      reads this
    {
      State(peers, pubs, publications, videoSubscriptions, videoSubscriptionsSet, cameraLayers, senderSourceSSRC)
    }

    ghost predicate Valid()
      reads this
    {
      Sound(St())
    }

    constructor ()
      ensures Valid() && St() == Empty
    {
      peers, pubs, publications := map[], map[], map[];
      videoSubscriptions, videoSubscriptionsSet, cameraLayers, senderSourceSSRC := map[], {}, map[], map[];
    }

    method QueueSubscription(ref: PubRef, targetID: Id, ops: seq<Op>) returns (queued: seq<Op>)
      requires ref in publications
      ensures multiset(queued) == multiset(ops) + multiset(SubscribesFrom(St(), ref, {targetID}))
    {
      if targetID in publications[ref].tracks || targetID !in peers {
        assert SubscribesFrom(St(), ref, {targetID}) == {};
        return ops;
      }
      assert SubscribesFrom(St(), ref, {targetID}) == {Subscribe(ref, targetID, peers[targetID])};
      queued := ops + [Subscribe(ref, targetID, peers[targetID])];
    }

    method QueueEveryPublication(id: Id) returns (ops: seq<Op>)
      requires KeysAgree(St())
      ensures multiset(ops) == multiset(SubscribeReceiver(St(), id))
    {
      ops := [];
      var todo := pubs.Keys;
      ghost var done: set<Key> := {};
      while todo != {}
        invariant done !! todo && done + todo == pubs.Keys
        invariant multiset(ops) == multiset(SubscribesTo(St(), id, done))
      {
        var k :| k in todo;
        SubscribesToOneMore(St(), id, done, k);
        ops := QueueSubscription(pubs[k], id, ops);
        todo, done := todo - {k}, done + {k};
      }
      assert done == pubs.Keys;
    }

    method Register(id: Id, peer: PeerRef) returns (ops: seq<Op>)
      requires Valid()
      modifies this
      ensures Valid() && St() == AfterRegister(old(St()), id, peer)
      ensures multiset(ops) == multiset(SubscribeReceiver(St(), id))
    {
      RegisterKeepsSound(St(), id, peer);
      peers := peers[id := peer];
      ops := QueueEveryPublication(id);
    }

    // removeTargetLocked
    method RemoveTarget(ref: PubRef, targetID: Id)
      requires ref in publications
      requires publications[ref].tracks.Keys == publications[ref].senders.Keys
      modifies this
      ensures St() == Cut(old(St()), {(ref, targetID)})
    {
      var pub := publications[ref];
      var sender := if targetID in pub.senders then {pub.senders[targetID]} else {};
      assert CutSenders(St(), {(ref, targetID)}) == sender by {
        assert Linked(St(), (ref, targetID)) <==> targetID in pub.senders;
      }
      var left := pub.(tracks := pub.tracks - {targetID}, senders := pub.senders - {targetID});
      assert left == CutPublication(ref, pub, {(ref, targetID)});
      forall r | r in publications && r != ref
        ensures CutPublication(r, publications[r], {(ref, targetID)}) == publications[r]
      {
        assert CutPublication(r, publications[r], {(ref, targetID)}).tracks == publications[r].tracks;
        assert CutPublication(r, publications[r], {(ref, targetID)}).senders == publications[r].senders;
      }
      publications := publications[ref := left];
      senderSourceSSRC := senderSourceSSRC - sender;
      assert publications == Cut(old(St()), {(ref, targetID)}).table;
    }

    // removePublicationLocked
    method RemovePublication(ref: PubRef, ops: seq<Op>) returns (queued: seq<Op>)
      requires ref in publications && Paired(St()) && SendersDistinct(St())
      modifies this
      ensures St() == Cut(old(St()), LinksOf(old(St()), ref))
      ensures multiset(queued) == multiset(ops) + multiset(CutRemovals(old(St()), LinksOf(old(St()), ref)))
    {
      ghost var s := St();
      queued := ops;
      var todo := publications[ref].senders.Keys;
      RemoveBounds(s, ref);
      while todo != {}
        invariant todo <= s.table[ref].senders.Keys
        invariant St() == Cut(s, DoneLinks(s, ref, todo))
        invariant multiset(queued) == multiset(ops) + multiset(CutRemovals(s, DoneLinks(s, ref, todo)))
      {
        var targetID :| targetID in todo;
        queued := DetachNext(ref, targetID, queued, s, todo, multiset(ops));
        todo := todo - {targetID};
      }
    }

    method DetachNext(ref: PubRef, targetID: Id, queued: seq<Op>, ghost s: State, ghost todo: set<Id>,
                      ghost before: multiset<Op>)
      returns (more: seq<Op>)
      requires ref in s.table && targetID in todo && todo <= s.table[ref].senders.Keys && Paired(s) &&
               SendersDistinct(s)
      requires St() == Cut(s, DoneLinks(s, ref, todo))
      requires multiset(queued) == before + multiset(CutRemovals(s, DoneLinks(s, ref, todo)))
      modifies this
      ensures St() == Cut(s, DoneLinks(s, ref, todo - {targetID}))
      ensures multiset(more) == before + multiset(CutRemovals(s, DoneLinks(s, ref, todo - {targetID})))
    {
      RemoveStep(s, ref, todo, targetID);
      more := DetachTarget(ref, targetID, queued);
    }

    method DetachTarget(ref: PubRef, targetID: Id, ops: seq<Op>) returns (queued: seq<Op>)
      requires ref in publications && targetID in publications[ref].senders
      requires publications[ref].tracks.Keys == publications[ref].senders.Keys
      modifies this
      ensures St() == Cut(old(St()), {(ref, targetID)})
      ensures multiset(queued) == multiset(ops) + multiset(CutRemovals(old(St()), {(ref, targetID)}))
    {
      queued := QueueRemoval(ref, targetID, ops);
      RemoveTarget(ref, targetID);
    }

    method QueueRemoval(ref: PubRef, targetID: Id, ops: seq<Op>) returns (queued: seq<Op>)
      requires ref in publications && targetID in publications[ref].senders
      ensures multiset(queued) == multiset(ops) + multiset(CutRemovals(St(), {(ref, targetID)}))
    {
      assert Linked(St(), (ref, targetID));
      if targetID in peers {
        queued := ops + [Remove(peers[targetID], publications[ref].senders[targetID])];
        assert CutRemovals(St(), {(ref, targetID)}) == {Remove(peers[targetID], publications[ref].senders[targetID])};
      } else {
        queued := ops;
        assert CutRemovals(St(), {(ref, targetID)}) == {};
      }
    }

    method Unregister(id: Id) returns (ops: seq<Op>)
      requires Valid()
      modifies this
      ensures Valid() && St() == AfterUnregister(old(St()), id)
      ensures multiset(ops) == multiset(CutRemovals(ForgetParticipant(old(St()), id), UnregisterLinks(old(St()), id)))
    {
      ghost var s := St();
      UnregisterKeepsSound(s, id);
      UnregisterSweeps(s, id);
      Forget(id);
      ops := DetachEverywhere(id);
    }

    method Forget(id: Id)
      modifies this`peers, this`videoSubscriptions, this`videoSubscriptionsSet, this`cameraLayers
      ensures St() == ForgetParticipant(old(St()), id)
    {
      peers := peers - {id};
      videoSubscriptions := map x | x in videoSubscriptions && x != id :: videoSubscriptions[x] - {id};
      videoSubscriptionsSet := videoSubscriptionsSet - {id};
      cameraLayers := cameraLayers - {id};
    }

    // The loop of Unregister over every registered publication.
    method DetachEverywhere(id: Id) returns (ops: seq<Op>)
      requires Sweepable(St(), UnregisterLinks(St(), id)) && id !in peers
      modifies this
      ensures St() == Cut(old(St()), UnregisterLinks(old(St()), id)).(pubs := old(pubs) - KeysOf(old(pubs), id))
      ensures multiset(ops) == multiset(CutRemovals(old(St()), UnregisterLinks(old(St()), id)))
    {
      ghost var s := St();
      ghost var u := UnregisterLinks(s, id);
      ghost var d := KeysOf(s.pubs, id);
      ops := [];
      var todo := pubs.Keys;
      SweepBegins(s, u, d);
      while todo != {}
        invariant todo <= s.pubs.Keys
        invariant St() == Progress(s, u, d, todo)
        invariant multiset(ops) == SweptRemovals(s, u, todo)
      {
        var k :| k in todo;
        var more := DetachNextFrom(k, id, s, todo);
        ops := ops + more;
        todo := todo - {k};
      }
      SweepEnds(s, u, d);
    }

    method DetachNextFrom(k: Key, id: Id, ghost s: State, ghost todo: set<Key>) returns (more: seq<Op>)
      requires Sweepable(s, UnregisterLinks(s, id)) && k in todo && k in s.pubs && id !in s.peers
      requires St() == Progress(s, UnregisterLinks(s, id), KeysOf(s.pubs, id), todo)
      modifies this
      ensures St() == Progress(s, UnregisterLinks(s, id), KeysOf(s.pubs, id), todo - {k})
      ensures SweptRemovals(s, UnregisterLinks(s, id), todo - {k}) ==
              SweptRemovals(s, UnregisterLinks(s, id), todo) + multiset(more)
    {
      ghost var u := UnregisterLinks(s, id);
      ghost var d := KeysOf(s.pubs, id);
      SweepVisit(s, u, d, todo, k, VisitLinks(s, k, id));
      more := DetachFrom(k, id, []);
    }

    method DetachFrom(k: Key, id: Id, ops: seq<Op>) returns (queued: seq<Op>)
      requires k in pubs && pubs[k] in publications && Paired(St()) && SendersDistinct(St()) && id !in peers
      modifies this
      ensures St() == Cut(old(St()), VisitLinks(old(St()), k, id))
                        .(pubs := if k.source == id then old(pubs) - {k} else old(pubs))
      ensures multiset(queued) == multiset(ops) + multiset(CutRemovals(old(St()), VisitLinks(old(St()), k, id)))
    {
      if k.source == id {
        queued := RemovePublication(pubs[k], ops);
        pubs := pubs - {k};
      } else {
        assert CutRemovals(St(), {(pubs[k], id)}) == {};
        RemoveTarget(pubs[k], id);
        queued := ops;
      }
    }

    method Unpublish(source: Id, role: Role) returns (ops: seq<Op>)
      requires Valid()
      modifies this
      ensures Valid() && St() == AfterUnpublish(old(St()), source, role)
      ensures multiset(ops) == multiset(CutRemovals(old(St()), UnpublishLinks(old(St()), source, role)))
    {
      UnpublishKeepsSound(St(), source, role);
      UnpublishSweeps(St(), source, role);
      ops := RemoveRole(source, role);
    }

    method RemoveRole(source: Id, role: Role) returns (ops: seq<Op>)
      requires Sweepable(St(), UnpublishLinks(St(), source, role))
      modifies this
      ensures St() == Cut(old(St()), UnpublishLinks(old(St()), source, role))
                        .(pubs := old(pubs) - RoleKeys(old(pubs), source, role))
      ensures multiset(ops) == multiset(CutRemovals(old(St()), UnpublishLinks(old(St()), source, role)))
    {
      ghost var s := St();
      ghost var u := UnpublishLinks(s, source, role);
      ghost var d := RoleKeys(s.pubs, source, role);
      ops := [];
      var todo := pubs.Keys;
      SweepBegins(s, u, d);
      while todo != {}
        invariant todo <= s.pubs.Keys
        invariant St() == Progress(s, u, d, todo)
        invariant multiset(ops) == SweptRemovals(s, u, todo)
      {
        var k :| k in todo;
        var more := RemoveNextFromRole(k, source, role, s, todo);
        ops := ops + more;
        todo := todo - {k};
      }
      SweepEnds(s, u, d);
    }

    method RemoveNextFromRole(k: Key, source: Id, role: Role, ghost s: State,
                              ghost todo: set<Key>) returns (more: seq<Op>)
      requires Sweepable(s, UnpublishLinks(s, source, role)) && k in todo && k in s.pubs
      requires St() == Progress(s, UnpublishLinks(s, source, role), RoleKeys(s.pubs, source, role), todo)
      modifies this
      ensures St() == Progress(s, UnpublishLinks(s, source, role), RoleKeys(s.pubs, source, role), todo - {k})
      ensures SweptRemovals(s, UnpublishLinks(s, source, role), todo - {k}) ==
              SweptRemovals(s, UnpublishLinks(s, source, role), todo) + multiset(more)
    {
      RoleStep(s, source, role, todo, k);
      more := RemoveFromRole(k, source, role, []);
    }

    method RemoveFromRole(k: Key, source: Id, role: Role, ops: seq<Op>) returns (queued: seq<Op>)
      requires k in pubs && pubs[k] in publications && Paired(St()) && SendersDistinct(St())
      modifies this
      ensures St() == Cut(old(St()), RoleLinks(old(St()), k, source, role))
                        .(pubs := if k.source == source && k.role == role then old(pubs) - {k} else old(pubs))
      ensures multiset(queued) == multiset(ops) + multiset(CutRemovals(old(St()),
              RoleLinks(old(St()), k, source, role)))
    {
      queued := ops;
      CutNothing(St());
      if k.source == source && k.role == role {
        queued := RemovePublication(pubs[k], ops);
        pubs := pubs - {k};
      }
    }

    // removePublication: the publication's read loop has stopped.
    method StopPublication(ref: PubRef) returns (ops: seq<Op>)
      requires Valid() && ref in publications
      modifies this
      ensures Valid() && St() == AfterReadStop(old(St()), ref)
      ensures multiset(ops) ==
              if Registered(old(St()), ref) then multiset(CutRemovals(old(St()), LinksOf(old(St()), ref)))
                else multiset{}
    {
      ReadStopKeepsSound(St(), ref);
      SoundIsPaired(St());
      ops := [];
      var key := publications[ref].key;
      if key in pubs && pubs[key] == ref {
        ops := RemovePublication(ref, ops);
        pubs := pubs - {key};
      }
    }

    method SetVideoSubscriptions(receiverID: Id, cameraParticipantIDs: seq<Id>,
                                 cameraLayer: string) returns (ops: seq<Op>)
      requires Valid()
      modifies this
      ensures Valid()
      ensures forall p, layer :: ShouldSubscribe(St(), Key(p, Camera, layer), receiverID) <==>
                p in cameraParticipantIDs && p != "" && p != receiverID
      ensures St() == AfterChoose(old(St()), receiverID, Desired(receiverID, cameraParticipantIDs), cameraLayer)
      ensures var c := Choose(old(St()), receiverID, Desired(receiverID, cameraParticipantIDs), cameraLayer);
              multiset(ops) == multiset(CutRemovals(c, UnwantedLinks(c, receiverID))) +
                multiset(ChooseSubscribes(c, receiverID))
    {
      var desired := Desired(receiverID, cameraParticipantIDs);
      ChooseKeepsSound(St(), receiverID, desired, cameraLayer);
      ChooseSweeps(St(), receiverID, desired, cameraLayer);
      videoSubscriptions := videoSubscriptions[receiverID := desired];
      videoSubscriptionsSet := videoSubscriptionsSet + {receiverID};
      cameraLayers := cameraLayers[receiverID := CameraLayers.Requested(cameraLayer)];
      ops := Reconcile(receiverID);
    }

    // The loop of SetVideoSubscriptionsWithLayer over every publication.
    method Reconcile(receiverID: Id) returns (ops: seq<Op>)
      requires Sweepable(St(), UnwantedLinks(St(), receiverID))
      modifies this
      ensures St() == Cut(old(St()), UnwantedLinks(old(St()), receiverID))
      ensures multiset(ops) == multiset(CutRemovals(old(St()), UnwantedLinks(old(St()), receiverID))) +
                               multiset(ChooseSubscribes(old(St()), receiverID))
    {
      ghost var s := St();
      ghost var u := UnwantedLinks(s, receiverID);
      ops := [];
      var todo := pubs.Keys;
      SweepBegins(s, u, {});
      ReconcileBounds(s, receiverID);
      while todo != {}
        invariant todo <= s.pubs.Keys
        invariant St() == Progress(s, u, {}, todo)
        invariant multiset(ops) == ReconcileOps(s, receiverID, todo)
      {
        var k :| k in todo;
        var more := ReconcileNext(k, receiverID, s, todo);
        ops := ops + more;
        todo := todo - {k};
      }
      SweepEnds(s, u, {});
    }

    method ReconcileNext(k: Key, receiverID: Id, ghost s: State, ghost todo: set<Key>) returns (more: seq<Op>)
      requires Sweepable(s, UnwantedLinks(s, receiverID)) && k in todo && todo <= s.pubs.Keys
      requires St() == Progress(s, UnwantedLinks(s, receiverID), {}, todo)
      modifies this
      ensures St() == Progress(s, UnwantedLinks(s, receiverID), {}, todo - {k})
      ensures ReconcileOps(s, receiverID, todo - {k}) == ReconcileOps(s, receiverID, todo) + multiset(more)
    {
      SweepReady(s, UnwantedLinks(s, receiverID), {}, todo, k);
      ReconcileCuts(s, receiverID, todo, k);
      ReconcileStep(s, receiverID, todo, k);
      ReconcileSubscribes(s, receiverID, todo, k);
      more := ReconcileOne(k, receiverID, []);
    }

    method ReconcileOne(k: Key, receiverID: Id, ops: seq<Op>) returns (queued: seq<Op>)
      requires k in pubs && pubs[k] in publications && Paired(St())
      requires publications[pubs[k]].key == k
      modifies this
      ensures St() == Cut(old(St()), UnwantedLink(old(St()), k, receiverID))
      ensures multiset(queued) == multiset(ops) + multiset(CutRemovals(old(St()),
              UnwantedLink(old(St()), k, receiverID))) +
                                  multiset(WantedSubscribes(old(St()), k, receiverID))
    {
      CutNothing(St());
      if k.source == receiverID {
        return ops;
      }
      if ShouldSubscribe(St(), k, receiverID) {
        queued := QueueSubscription(pubs[k], receiverID, ops);
        return;
      }
      if receiverID !in publications[pubs[k]].tracks {
        return ops;
      }
      queued := DetachTarget(pubs[k], receiverID, ops);
    }

    // migrateTargetsLocked: `moved` are the receivers whose ReplaceTrack succeeds.
    method MigrateTargets(existing: PubRef, replacement: PubRef, moved: set<Id>)
      requires existing in publications && replacement in publications && existing != replacement
      requires publications[existing].tracks.Keys == publications[existing].senders.Keys
      requires publications[replacement].tracks == map[] && publications[replacement].senders == map[]
      modifies this
      ensures St() == Migrate(old(St()), existing, replacement, moved)
    {
      ghost var s := St();
      ghost var done: set<Id> := {};
      var todo := publications[existing].tracks.Keys;
      MigrateNobody(s, existing, replacement, moved * done);
      while todo != {}
        invariant done !! todo && done + todo == s.table[existing].tracks.Keys
        invariant St() == Migrate(s, existing, replacement, moved * done)
      {
        var targetID :| targetID in todo;
        assert targetID in publications[existing].senders;
        if targetID in moved {
          MigrateOneMore(s, existing, replacement, moved * done, targetID);
          MigrateTarget(existing, replacement, targetID);
        }
        MovedGrows(moved, done, targetID);
        todo, done := todo - {targetID}, done + {targetID};
      }
      MigrateOnlyLinked(s, existing, replacement, moved, moved * done);
    }

    method MigrateTarget(existing: PubRef, replacement: PubRef, targetID: Id)
      requires existing in publications && replacement in publications && existing != replacement
      requires targetID in publications[existing].senders
      modifies this
      ensures St() == Migrate(old(St()), existing, replacement, {targetID})
    {
      var p, q := publications[existing], publications[replacement];
      var sender := p.senders[targetID];
      var joined := q.(tracks := q.tracks[targetID := replacement], senders := q.senders[targetID := sender]);
      var left := p.(tracks := p.tracks - {targetID}, senders := p.senders - {targetID});
      JoinAlone(p, q, replacement, senderSourceSSRC, targetID);
      publications := publications[replacement := joined];
      if sender in senderSourceSSRC {
        senderSourceSSRC := senderSourceSSRC[sender := q.remote.ssrc];
      }
      publications := publications[existing := left];
      assert publications == old(publications)[existing := left][replacement := joined];
    }

    // `ref` is the publication object this call allocates.
    method Publish(ref: PubRef, key: Key, remote: Remote, moved: set<Id>) returns (ops: seq<Op>)
      requires Valid() && ref !in publications
      modifies this
      ensures Valid()
      ensures key in pubs && pubs[key] in publications && publications[pubs[key]].remote == remote
      ensures key in old(pubs) ==>
                (pubs[key] == old(pubs)[key] <==> old(publications)[old(pubs)[key]].remote == remote)
      ensures Refired(old(St()), key, remote) ==> St() == old(St()) && ops == []
      ensures !Refired(old(St()), key, remote) ==>
        && St() == AfterPublish(old(St()), ref, key, remote, moved)
        && var m := Migrated(old(St()), ref, key, remote, moved);
           multiset(ops) == multiset(CutRemovals(m, ReplacedLinks(old(St()), key, m))) +
             multiset(SubscribeEveryone(St(), ref))
    {
      ghost var s := St();
      if key in pubs && publications[pubs[key]].remote == remote {
        return [];
      }
      PublishKeepsSound(s, ref, key, remote, moved);
      ops := Replace(ref, key, remote, moved);
      pubs := pubs[key := ref];
      assert St() == AfterPublish(s, ref, key, remote, moved);
      ops := QueueEveryReceiver(ref, ops);
    }

    method Replace(ref: PubRef, key: Key, remote: Remote, moved: set<Id>) returns (ops: seq<Op>)
      requires Valid() && ref !in publications
      modifies this
      ensures var m := Migrated(old(St()), ref, key, remote, moved);
              && St() == Cut(m, ReplacedLinks(old(St()), key, m))
              && multiset(ops) == multiset(CutRemovals(m, ReplacedLinks(old(St()), key, m)))
    {
      ghost var s := St();
      SoundIsPaired(s);
      MigrationKeepsDistinct(s, ref, key, remote, moved);
      MigrationIsPaired(s, ref, key, remote, moved);
      ops := [];
      publications := publications[ref := Publication(key, remote, map[], map[])];
      if key in pubs {
        if publications[pubs[key]].remote.codec == remote.codec {
          MigrateTargets(pubs[key], ref, moved);
        }
        ops := RemovePublication(pubs[key], ops);
      } else {
        CutNothing(St());
      }
    }

    method QueueEveryReceiver(ref: PubRef, ops: seq<Op>) returns (queued: seq<Op>)
      requires ref in publications
      ensures multiset(queued) == multiset(ops) + multiset(SubscribeEveryone(St(), ref))
    {
      queued := ops;
      var todo := peers.Keys;
      ghost var done: set<Id> := {};
      while todo != {}
        invariant done !! todo && done + todo == peers.Keys
        invariant multiset(queued) == multiset(ops) + multiset(SubscribesFrom(St(), ref, done))
      {
        var id :| id in todo;
        SubscribesFromOneMore(St(), ref, done, id);
        queued := QueueSubscription(ref, id, queued);
        todo, done := todo - {id}, done + {id};
      }
      assert done == peers.Keys;
    }

    // The lock region of applyTrackOps, once AddTrack has returned `sender`.
    method Install(op: Op, sender: SenderRef) returns (valid: bool)
      requires Valid() && op.Subscribe? && op.pub in publications
      requires forall l: Link :: Linked(St(), l) ==> publications[l.0].senders[l.1] != sender
      modifies this
      ensures Valid() && St() == AfterInstall(old(St()), op, sender)
      ensures valid == InstallValid(old(St()), op)
    {
      InstallKeepsSound(St(), op, sender);
      var pub := publications[op.pub];
      valid := pub.key in pubs && pubs[pub.key] == op.pub &&
               op.targetID in peers && peers[op.targetID] == op.peer &&
               op.targetID !in pub.tracks &&
               ShouldSubscribe(St(), pub.key, op.targetID);
      if valid {
        publications := publications[op.pub := pub.(tracks := pub.tracks[op.targetID := op.pub],
                                                    senders := pub.senders[op.targetID := sender])];
        senderSourceSSRC := senderSourceSSRC[sender := pub.remote.ssrc];
      }
    }
  }

  // The keys Unregister drops and the links it cuts when it visits one key.
  ghost function KeysOf(pubs: map<Key, PubRef>, id: Id): set<Key> {
    set k | k in pubs && k.source == id
  }

  ghost function VisitLinks(s: State, k: Key, id: Id): set<Link>
    requires k in s.pubs
  {
    if k.source == id then LinksOf(s, s.pubs[k]) else {(s.pubs[k], id)}
  }

  lemma UnregisterSweeps(s: State, id: Id)
    requires Sound(s)
    ensures var f := ForgetParticipant(s, id);
            && UnregisterLinks(f, id) == UnregisterLinks(s, id)
            && Sweepable(f, UnregisterLinks(f, id))
            && s.pubs - KeysOf(s.pubs, id) == WithoutSource(s.pubs, id)
  {
    DistinctFollowsTable(s, ForgetParticipant(s, id));
    SoundIsPaired(s);
  }

  function Desired(receiverID: Id, cameraParticipantIDs: seq<Id>): set<Id> {
    set p | p in cameraParticipantIDs && p != "" && p != receiverID
  }

  ghost function RoleKeys(pubs: map<Key, PubRef>, source: Id, role: Role): set<Key> {
    set k | k in pubs && k.source == source && k.role == role
  }

  ghost function RoleLinks(s: State, k: Key, source: Id, role: Role): set<Link>
    requires k in s.pubs
  {
    if k.source == source && k.role == role then LinksOf(s, s.pubs[k]) else {}
  }

  lemma RoleStep(s: State, source: Id, role: Role, todo: set<Key>, k: Key)
    requires Sweepable(s, UnpublishLinks(s, source, role)) && k in todo && k in s.pubs
    ensures var u, d := UnpublishLinks(s, source, role), RoleKeys(s.pubs, source, role);
            var c := Progress(s, u, d, todo);
            && k in c.pubs && c.pubs[k] in c.table && Paired(c) && SendersDistinct(c)
            && Cut(c, RoleLinks(c, k, source, role))
                 .(pubs := if k.source == source && k.role == role then c.pubs - {k} else c.pubs) ==
                   Progress(s, u, d, todo - {k})
            && SweptRemovals(s, u, todo - {k}) == SweptRemovals(s, u, todo) +
              multiset(CutRemovals(c, RoleLinks(c, k, source, role)))
  {
    var u, d := UnpublishLinks(s, source, role), RoleKeys(s.pubs, source, role);
    SweepVisit(s, u, d, todo, k, RoleLinks(s, k, source, role));
  }

  lemma UnpublishSweeps(s: State, source: Id, role: Role)
    requires Sound(s)
    ensures Sweepable(s, UnpublishLinks(s, source, role))
    ensures s.pubs - RoleKeys(s.pubs, source, role) == WithoutRole(s.pubs, source, role)
  {
    SoundIsPaired(s);
  }

  lemma ChooseSweeps(s: State, receiver: Id, cameras: set<Id>, layer: string)
    requires Sound(s)
    ensures var c := Choose(s, receiver, cameras, layer); Sweepable(c, UnwantedLinks(c, receiver))
  {
    DistinctFollowsTable(s, Choose(s, receiver, cameras, layer));
    SoundIsPaired(s);
  }

  // What SetVideoSubscriptionsWithLayer does about one publication.
  ghost function UnwantedLink(s: State, k: Key, receiver: Id): set<Link>
    requires k in s.pubs
  {
    if s.pubs[k] in s.table && receiver in s.table[s.pubs[k]].senders && k.source != receiver &&
      !ShouldSubscribe(s, k, receiver)
    then {(s.pubs[k], receiver)} else {}
  }

  ghost function WantedSubscribes(s: State, k: Key, receiver: Id): set<Op>
    requires k in s.pubs
  {
    if ShouldSubscribe(s, k, receiver) then SubscribesFrom(s, s.pubs[k], {receiver}) else {}
  }

  // Everything queued once only `todo` is left to visit.
  ghost function ReconcileOps(s: State, receiver: Id, todo: set<Key>): multiset<Op> {
    SweptRemovals(s, UnwantedLinks(s, receiver), todo) +
    multiset(SubscribesTo(s, receiver, WantedKeys(s, receiver) - todo))
  }

  lemma ReconcileBounds(s: State, receiver: Id)
    requires Sweepable(s, UnwantedLinks(s, receiver))
    ensures ReconcileOps(s, receiver, s.pubs.Keys) == multiset{}
    ensures ReconcileOps(s, receiver, {}) ==
            multiset(CutRemovals(s, UnwantedLinks(s, receiver))) + multiset(ChooseSubscribes(s, receiver))
    ensures s.pubs - {} == s.pubs
  {
    SweepBegins(s, UnwantedLinks(s, receiver), {});
    SweepEnds(s, UnwantedLinks(s, receiver), {});
    assert SubscribesTo(s, receiver, WantedKeys(s, receiver) - s.pubs.Keys) == {};
    assert WantedKeys(s, receiver) - {} == WantedKeys(s, receiver);
  }

  lemma ReconcileCuts(s: State, receiver: Id, todo: set<Key>, k: Key)
    requires Sweepable(s, UnwantedLinks(s, receiver)) && k in todo && k in s.pubs
    ensures var u := UnwantedLinks(s, receiver);
            var c := Progress(s, u, {}, todo);
            && k in c.pubs
            && Cut(c, UnwantedLink(c, k, receiver)) == Progress(s, u, {}, todo - {k})
            && SweptRemovals(s, u, todo - {k}) == SweptRemovals(s, u, todo) +
              multiset(CutRemovals(c, UnwantedLink(c, k, receiver)))
  {
    var u := UnwantedLinks(s, receiver);
    SweepVisit(s, u, {}, todo, k, UnwantedLink(s, k, receiver));
  }

  lemma ReconcileSubscribes(s: State, receiver: Id, todo: set<Key>, k: Key)
    requires KeysAgree(s) && k in todo && todo <= s.pubs.Keys
    ensures multiset(SubscribesTo(s, receiver, WantedKeys(s, receiver) - (todo - {k}))) ==
            multiset(SubscribesTo(s, receiver, WantedKeys(s, receiver) - todo)) +
              multiset(WantedSubscribes(s, k, receiver))
  {
    var wanted := WantedKeys(s, receiver) - todo;
    if ShouldSubscribe(s, k, receiver) {
      SubscribesToOneMore(s, receiver, wanted, k);
      assert WantedKeys(s, receiver) - (todo - {k}) == wanted + {k};
    } else {
      assert WantedKeys(s, receiver) - (todo - {k}) == wanted;
    }
  }

  lemma ReconcileStep(s: State, receiver: Id, todo: set<Key>, k: Key)
    requires Sweepable(s, UnwantedLinks(s, receiver)) && k in todo && todo <= s.pubs.Keys
    ensures k in Progress(s, UnwantedLinks(s, receiver), {}, todo).pubs
    ensures WantedSubscribes(Progress(s, UnwantedLinks(s, receiver), {}, todo), k, receiver) ==
            WantedSubscribes(s, k, receiver)
  {
    SweepReady(s, UnwantedLinks(s, receiver), {}, todo, k);
  }

  lemma MigrateNobody(s: State, existing: PubRef, replacement: PubRef, none: set<Id>)
    requires existing in s.table && replacement in s.table && existing != replacement && none == {}
    ensures Migrate(s, existing, replacement, none) == s
  {
    var p, q := s.table[existing], s.table[replacement];
    assert MovedSenders(p, none) == {};
    assert Left(p, none).tracks == p.tracks && Left(p, none).senders == p.senders;
    assert Joined(p, q, replacement, none).tracks == q.tracks && Joined(p, q, replacement, none).senders == q.senders;
    assert Retarget(s.holders, {}, q.remote.ssrc) == s.holders;
  }

  lemma TakeOneMore(held: map<Id, SenderRef>, senders: map<Id, SenderRef>, moved: set<Id>, t: Id)
    requires t in senders && t !in moved
    ensures held + Taken(senders, moved) + Taken(senders - moved, {t}) == held + Taken(senders, moved + {t})
  {
  }

  lemma RebuildOneMore(held: map<Id, PubRef>, ids: set<Id>, moved: set<Id>, r: PubRef, t: Id)
    requires t in ids && t !in moved
    ensures held + Rebuilt(ids * moved, r) + Rebuilt((ids - moved) * {t}, r) == held + Rebuilt(ids * (moved + {t}), r)
  {
  }

  lemma JoinOneMore(p: Publication, q: Publication, r: PubRef, moved: set<Id>, t: Id)
    requires t in p.senders && t !in moved
    ensures Left(Left(p, moved), {t}) == Left(p, moved + {t})
    ensures Joined(Left(p, moved), Joined(p, q, r, moved), r, {t}) == Joined(p, q, r, moved + {t})
  {
    assert p.tracks - moved - {t} == p.tracks - (moved + {t});
    assert p.senders - moved - {t} == p.senders - (moved + {t});
    assert (p.senders - moved).Keys == p.senders.Keys - moved;
    TakeOneMore(q.senders, p.senders, moved, t);
    RebuildOneMore(q.tracks, p.senders.Keys, moved, r, t);
  }

  lemma RetargetTwice(holders: map<SenderRef, nat>, a: set<SenderRef>, b: set<SenderRef>, ssrc: nat)
    ensures Retarget(Retarget(holders, a, ssrc), b, ssrc) == Retarget(holders, a + b, ssrc)
  {
  }

  lemma JoinAlone(p: Publication, q: Publication, r: PubRef, holders: map<SenderRef, nat>, t: Id)
    requires t in p.senders
    ensures Joined(p, q, r, {t}) == q.(tracks := q.tracks[t := r], senders := q.senders[t := p.senders[t]])
    ensures Retarget(holders, MovedSenders(p, {t}), q.remote.ssrc) ==
            if p.senders[t] in holders then holders[p.senders[t] := q.remote.ssrc] else holders
  {
    assert Taken(p.senders, {t}) == map[t := p.senders[t]];
    assert Rebuilt(p.senders.Keys * {t}, r) == map[t := r];
    assert MovedSenders(p, {t}) == {p.senders[t]};
  }

  lemma MovedGrows(moved: set<Id>, done: set<Id>, t: Id)
    ensures moved * (done + {t}) == if t in moved then moved * done + {t} else moved * done
  {
  }

  lemma MovedOneMore(p: Publication, moved: set<Id>, t: Id)
    requires t in p.senders && t !in moved
    ensures MovedSenders(p, moved + {t}) == MovedSenders(p, moved) + MovedSenders(Left(p, moved), {t})
  {
  }

  lemma MigrateOneMore(s: State, existing: PubRef, replacement: PubRef, moved: set<Id>, t: Id)
    requires existing in s.table && replacement in s.table && existing != replacement
    requires t in s.table[existing].senders && t !in moved
    ensures Migrate(Migrate(s, existing, replacement, moved), existing, replacement, {t}) ==
            Migrate(s, existing, replacement, moved + {t})
  {
    var p, q := s.table[existing], s.table[replacement];
    var p', q' := Left(p, moved), Joined(p, q, replacement, moved);
    MovedOneMore(p, moved, t);
    RetargetTwice(s.holders, MovedSenders(p, moved), MovedSenders(p', {t}), q.remote.ssrc);
    JoinOneMore(p, q, replacement, moved, t);
    Overwrite(s.table, existing, replacement, p', q', Left(p', {t}), Joined(p', q', replacement, {t}));
  }

  lemma Overwrite(table: map<PubRef, Publication>, x: PubRef, y: PubRef,
                  p: Publication, q: Publication, p': Publication, q': Publication)
    requires x != y
    ensures table[x := p][y := q][x] == p && table[x := p][y := q][y] == q
    ensures table[x := p][y := q][x := p'][y := q'] == table[x := p'][y := q']
  {
  }

  lemma MigrateOnlyLinked(s: State, existing: PubRef, replacement: PubRef, moved: set<Id>, linked: set<Id>)
    requires existing in s.table && replacement in s.table && existing != replacement
    requires s.table[existing].tracks.Keys == s.table[existing].senders.Keys
    requires linked == moved * s.table[existing].tracks.Keys
    ensures Migrate(s, existing, replacement, linked) == Migrate(s, existing, replacement, moved)
  {
    var p := s.table[existing];
    MovedOnlyLinked(p, moved, linked);
    assert p.tracks - linked == p.tracks - moved;
    assert p.senders - linked == p.senders - moved;
    assert p.senders.Keys * linked == p.senders.Keys * moved;
  }

  lemma MovedOnlyLinked(p: Publication, moved: set<Id>, linked: set<Id>)
    requires p.tracks.Keys == p.senders.Keys && linked == moved * p.tracks.Keys
    ensures MovedSenders(p, linked) == MovedSenders(p, moved)
    ensures Taken(p.senders, linked) == Taken(p.senders, moved)
  {
  }

  lemma MigrationIsPaired(s: State, ref: PubRef, key: Key, remote: Remote, moved: set<Id>)
    requires Sound(s) && ref !in s.table
    ensures Paired(Migrated(s, ref, key, remote, moved))
  {
    forall q | q in Migrated(s, ref, key, remote, moved).table
      ensures var p := Migrated(s, ref, key, remote, moved).table[q]; p.tracks.Keys == p.senders.Keys
    {
      MigrationKeepsKeys(s, ref, key, remote, moved, q);
    }
  }
}
