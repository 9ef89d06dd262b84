/** The lock-protected state of the media router and what each lock region does
    to it.  Publications are objects in the program; here each one is a record
    stored under its identity, so that operations still in flight can name a
    publication that has already been replaced. */
module RouterState {
  import CameraLayers

  type Id = string
  type PeerRef = nat
  type PubRef = nat
  type SenderRef = nat

  datatype Role = Audio | Camera | Screen

  datatype Key = Key(source: Id, role: Role, layer: string)

  // A publisher's incoming track.
  datatype Remote = Remote(ref: nat, ssrc: nat, codec: nat)

  // `tracks` maps a receiver to the publication its egress track was built for.
  datatype Publication = Publication(key: Key, remote: Remote, tracks: map<Id, PubRef>, senders: map<Id, SenderRef>)

  // An egress operation decided under the lock and applied after it is released.
  datatype Op =
    | Subscribe(pub: PubRef, targetID: Id, peer: PeerRef)
    | Remove(peer: PeerRef, sender: SenderRef)

  datatype State = State(
    peers: map<Id, PeerRef>,
    pubs: map<Key, PubRef>,
    table: map<PubRef, Publication>,
    subscriptions: map<Id, set<Id>>,
    subscriptionsSet: set<Id>,
    layers: map<Id, string>,
    holders: map<SenderRef, nat>)

  // One receiver's subscription to one publication object.
  type Link = (PubRef, Id)

  const Empty := State(map[], map[], map[], map[], {}, map[], map[])

  predicate Registered(s: State, r: PubRef) {
    r in s.table && s.table[r].key in s.pubs && s.pubs[s.table[r].key] == r
  }

  predicate Linked(s: State, l: Link) {
    l.0 in s.table && l.1 in s.table[l.0].senders
  }

  predicate ShouldSubscribe(s: State, key: Key, receiver: Id) {
    key.source != receiver &&
    (key.role == Camera && receiver in s.subscriptionsSet ==>
       receiver in s.subscriptions && key.source in s.subscriptions[receiver])
  }

  // -- Detaching links ------------------------------------------------------

  function CutPublication(r: PubRef, p: Publication, v: set<Link>): Publication {
    p.(tracks := map t | t in p.tracks && (r, t) !in v :: p.tracks[t],
       senders := map t | t in p.senders && (r, t) !in v :: p.senders[t])
  }

  function CutSenders(s: State, v: set<Link>): set<SenderRef> {
    set l | l in v && Linked(s, l) :: s.table[l.0].senders[l.1]
  }

  // Every receiver in `v` loses its sender, its egress track and its feedback holder.
  function Cut(s: State, v: set<Link>): State {
    s.(table := map r | r in s.table :: CutPublication(r, s.table[r], v),
       holders := s.holders - CutSenders(s, v))
  }

  // The removals queued for the receivers that are still registered ...
  function CutRemovals(s: State, v: set<Link>): set<Op> {
    set l | l in v && Linked(s, l) && l.1 in s.peers :: Remove(s.peers[l.1], s.table[l.0].senders[l.1])
  }

  // ... and the senders that go down with a receiver that is not.
  function CutDropped(s: State, v: set<Link>): set<SenderRef> {
    set l | l in v && Linked(s, l) && l.1 !in s.peers :: s.table[l.0].senders[l.1]
  }

  function LinksOf(s: State, r: PubRef): set<Link> {
    if r in s.table then set t | t in s.table[r].senders :: (r, t) else {}
  }

  // -- The lock regions -----------------------------------------------------

  // A subscription is queued for each of the publications `keys` to which the
  // registered receiver `id` has no egress track yet.
  function SubscribesTo(s: State, id: Id, keys: set<Key>): set<Op> {
    set k | k in keys && k in s.pubs && s.pubs[k] in s.table && id !in s.table[s.pubs[k]].tracks && id in s.peers
      :: Subscribe(s.pubs[k], id, s.peers[id])
  }

  function SubscribeReceiver(s: State, id: Id): set<Op> {
    SubscribesTo(s, id, s.pubs.Keys)
  }

  function SubscribesFrom(s: State, r: PubRef, ids: set<Id>): set<Op> {
    set id | id in ids && id in s.peers && r in s.table && id !in s.table[r].tracks :: Subscribe(r, id, s.peers[id])
  }

  function SubscribeEveryone(s: State, r: PubRef): set<Op> {
    SubscribesFrom(s, r, s.peers.Keys)
  }

  function AfterRegister(s: State, id: Id, peer: PeerRef): State {
    s.(peers := s.peers[id := peer])
  }

  function ForgetParticipant(s: State, id: Id): State {
    s.(peers := s.peers - {id},
       subscriptions := map x | x in s.subscriptions && x != id :: s.subscriptions[x] - {id},
       subscriptionsSet := s.subscriptionsSet - {id},
       layers := s.layers - {id})
  }

  function UnregisterLinks(s: State, id: Id): set<Link> {
    set r, t | r in s.table && t in s.table[r].senders && Registered(s, r) &&
               (s.table[r].key.source == id || t == id) :: (r, t)
  }

  function WithoutSource(pubs: map<Key, PubRef>, id: Id): map<Key, PubRef> {
    map k | k in pubs && k.source != id :: pubs[k]
  }

  function AfterUnregister(s: State, id: Id): State {
    var f := ForgetParticipant(s, id);
    Cut(f, UnregisterLinks(s, id)).(pubs := WithoutSource(s.pubs, id))
  }

  function UnpublishLinks(s: State, source: Id, role: Role): set<Link> {
    set r, t | r in s.table && t in s.table[r].senders && Registered(s, r) &&
               s.table[r].key.source == source && s.table[r].key.role == role :: (r, t)
  }

  function WithoutRole(pubs: map<Key, PubRef>, source: Id, role: Role): map<Key, PubRef> {
    map k | k in pubs && !(k.source == source && k.role == role) :: pubs[k]
  }

  function AfterUnpublish(s: State, source: Id, role: Role): State {
    Cut(s, UnpublishLinks(s, source, role)).(pubs := WithoutRole(s.pubs, source, role))
  }

  function AfterReadStop(s: State, r: PubRef): State {
    if Registered(s, r)
    then Cut(s, LinksOf(s, r)).(pubs := s.pubs - {s.table[r].key})
    else s
  }

  function Choose(s: State, receiver: Id, cameras: set<Id>, layer: string): State {
    s.(subscriptions := s.subscriptions[receiver := cameras],
       subscriptionsSet := s.subscriptionsSet + {receiver},
       layers := s.layers[receiver := CameraLayers.Requested(layer)])
  }

  function UnwantedLinks(s: State, receiver: Id): set<Link> {
    set r | r in s.table && receiver in s.table[r].senders && Registered(s, r) &&
            s.table[r].key.source != receiver && !ShouldSubscribe(s, s.table[r].key, receiver) :: (r, receiver)
  }

  function AfterChoose(s: State, receiver: Id, cameras: set<Id>, layer: string): State {
    var c := Choose(s, receiver, cameras, layer);
    Cut(c, UnwantedLinks(c, receiver))
  }

  function WantedKeys(s: State, receiver: Id): set<Key> {
    set k | k in s.pubs && ShouldSubscribe(s, k, receiver)
  }

  function ChooseSubscribes(s: State, receiver: Id): set<Op> {
    SubscribesTo(s, receiver, WantedKeys(s, receiver))
  }

  // -- Publishing -----------------------------------------------------------

  // The identical track fired again: nothing to replace.
  predicate Refired(s: State, key: Key, remote: Remote) {
    key in s.pubs && s.pubs[key] in s.table && s.table[s.pubs[key]].remote == remote
  }

  function Allocate(s: State, r: PubRef, key: Key, remote: Remote): State {
    s.(table := s.table[r := Publication(key, remote, map[], map[])])
  }

  function MovedSenders(p: Publication, moved: set<Id>): set<SenderRef> {
    set t | t in p.senders && t in moved :: p.senders[t]
  }

  // Each receiver in `moved` had its sender retargeted by ReplaceTrack: it leaves
  // the stale publication `p` and joins the replacement `q`, known as `r`.
  function Left(p: Publication, moved: set<Id>): Publication {
    p.(tracks := p.tracks - moved, senders := p.senders - moved)
  }

  function Taken(senders: map<Id, SenderRef>, moved: set<Id>): map<Id, SenderRef> {
    map t | t in senders && t in moved :: senders[t]
  }

  function Rebuilt(ids: set<Id>, r: PubRef): map<Id, PubRef> {
    map t | t in ids :: r
  }

  function Joined(p: Publication, q: Publication, r: PubRef, moved: set<Id>): Publication {
    q.(tracks := q.tracks + Rebuilt(p.senders.Keys * moved, r), senders := q.senders + Taken(p.senders, moved))
  }

  function Retarget(holders: map<SenderRef, nat>, senders: set<SenderRef>, ssrc: nat): map<SenderRef, nat> {
    map x | x in holders :: if x in senders then ssrc else holders[x]
  }

  function Migrate(s: State, stale: PubRef, next: PubRef, moved: set<Id>): State
    requires stale in s.table && next in s.table
  {
    var p := s.table[stale];
    var q := s.table[next];
    s.(table := s.table[stale := Left(p, moved)][next := Joined(p, q, next, moved)],
       holders := Retarget(s.holders, MovedSenders(p, moved), q.remote.ssrc))
  }

  // A fresh track with the same codec takes over the receivers of a publication.
  predicate TakesOver(s: State, key: Key, remote: Remote) {
    key in s.pubs && s.pubs[key] in s.table && s.table[s.pubs[key]].remote.codec == remote.codec
  }

  // The state after the migration, before what is left of the old publication
  // is removed.  A codec change migrates nobody.
  function Migrated(s: State, r: PubRef, key: Key, remote: Remote, moved: set<Id>): State
    requires r !in s.table
  {
    var a := Allocate(s, r, key, remote);
    if TakesOver(s, key, remote)
    then Migrate(a, s.pubs[key], r, moved)
    else a
  }

  function ReplacedLinks(s: State, key: Key, m: State): set<Link> {
    if key in s.pubs then LinksOf(m, s.pubs[key]) else {}
  }

  function AfterPublish(s: State, r: PubRef, key: Key, remote: Remote, moved: set<Id>): State
    requires r !in s.table
  {
    var m := Migrated(s, r, key, remote, moved);
    Cut(m, ReplacedLinks(s, key, m)).(pubs := s.pubs[key := r])
  }

  // -- Installing -----------------------------------------------------------

  predicate InstallValid(s: State, op: Op)
    requires op.Subscribe?
  {
    Registered(s, op.pub) &&
    op.targetID in s.peers && s.peers[op.targetID] == op.peer &&
    op.targetID !in s.table[op.pub].tracks &&
    ShouldSubscribe(s, s.table[op.pub].key, op.targetID)
  }

  function AfterInstall(s: State, op: Op, sender: SenderRef): State
    requires op.Subscribe?
  {
    if InstallValid(s, op) then
      var p := s.table[op.pub];
      s.(table := s.table[op.pub := p.(tracks := p.tracks[op.targetID := op.pub],
                                       senders := p.senders[op.targetID := sender])],
         holders := s.holders[sender := p.remote.ssrc])
    else s
  }

  // -- What every lock region keeps -----------------------------------------

  ghost predicate KeysAgree(s: State) {
    forall k :: k in s.pubs ==> s.pubs[k] in s.table && s.table[s.pubs[k]].key == k
  }

  ghost predicate SoundPublication(s: State, r: PubRef)
    requires r in s.table
  {
    var p := s.table[r];
    && p.tracks.Keys == p.senders.Keys
    && (!Registered(s, r) ==> p.senders == map[])
    && forall t :: t in p.senders ==>
         && t in s.peers
         && ShouldSubscribe(s, p.key, t)
         && p.tracks[t] == r
         && p.senders[t] in s.holders && s.holders[p.senders[t]] == p.remote.ssrc
  }

  ghost predicate SendersDistinct(s: State) {
    forall l: Link, m: Link :: Linked(s, l) && Linked(s, m) && l != m ==>
      s.table[l.0].senders[l.1] != s.table[m.0].senders[m.1]
  }

  // Every publication's tracks and senders agree, every link is wanted and
  // belongs to a registered publication and a registered receiver other than
  // the source, and its feedback holder carries that publication's SSRC.
  ghost predicate Sound(s: State) {
    KeysAgree(s) && SendersDistinct(s) && forall r :: r in s.table ==> SoundPublication(s, r)
  }

  lemma CutKeepsSound(s: State, v: set<Link>, pubs: map<Key, PubRef>, t: State)
    requires KeysAgree(s) && SendersDistinct(s)
    requires t == Cut(s, v).(pubs := pubs)
    requires forall k :: k in pubs ==> k in s.pubs && pubs[k] == s.pubs[k]
    requires forall r :: r in s.table ==> s.table[r].tracks.Keys == s.table[r].senders.Keys
    requires forall r, id :: r in s.table && id in s.table[r].senders && (r, id) !in v ==>
               && Registered(t, r) && id in s.peers && ShouldSubscribe(s, s.table[r].key, id)
               && s.table[r].tracks[id] == r
               && s.table[r].senders[id] in s.holders && s.holders[s.table[r].senders[id]] == s.table[r].remote.ssrc
    ensures Sound(t)
  {
    forall l: Link, m: Link | Linked(t, l) && Linked(t, m) && l != m
      ensures t.table[l.0].senders[l.1] != t.table[m.0].senders[m.1]
    {
      assert Linked(s, l) && Linked(s, m);
    }
    forall r | r in t.table ensures SoundPublication(t, r) { CutKeepsPublication(s, v, pubs, t, r); }
  }

  lemma CutKeepsPublication(s: State, v: set<Link>, pubs: map<Key, PubRef>, t: State, r: PubRef)
    requires SendersDistinct(s) && t == Cut(s, v).(pubs := pubs) && r in s.table
    requires s.table[r].tracks.Keys == s.table[r].senders.Keys
    requires forall id :: id in s.table[r].senders && (r, id) !in v ==>
               && Registered(t, r) && id in s.peers && ShouldSubscribe(s, s.table[r].key, id)
               && s.table[r].tracks[id] == r
               && s.table[r].senders[id] in s.holders && s.holders[s.table[r].senders[id]] == s.table[r].remote.ssrc
    ensures SoundPublication(t, r)
  {
    var p := t.table[r];
    forall id | id in p.senders ensures p.senders[id] !in CutSenders(s, v) {
      assert (r, id) !in v && Linked(s, (r, id));
    }
    if !Registered(t, r) { assert p.senders == map[]; }
  }

  lemma DistinctFollowsTable(s: State, t: State)
    requires SendersDistinct(s) && t.table == s.table
    ensures SendersDistinct(t)
  {
    forall l: Link, m: Link | Linked(t, l) && Linked(t, m) && l != m
      ensures t.table[l.0].senders[l.1] != t.table[m.0].senders[m.1]
    {
      assert Linked(s, l) && Linked(s, m);
    }
  }

  lemma RegisterKeepsSound(s: State, id: Id, peer: PeerRef)
    requires Sound(s)
    ensures Sound(AfterRegister(s, id, peer))
  {
    var t := AfterRegister(s, id, peer);
    forall r | r in t.table ensures SoundPublication(t, r) { assert SoundPublication(s, r); }
    DistinctFollowsTable(s, t);
  }

  lemma UnregisterKeepsLink(s: State, id: Id, r: PubRef, x: Id)
    requires Sound(s)
    requires r in s.table && x in s.table[r].senders && (r, x) !in UnregisterLinks(s, id)
    ensures Registered(AfterUnregister(s, id), r)
    ensures x in s.peers && x != id && ShouldSubscribe(ForgetParticipant(s, id), s.table[r].key, x)
  {
    assert SoundPublication(s, r);
    assert Registered(s, r);
    assert s.table[r].key.source != id && x != id;
  }

  lemma UnregisterKeepsSound(s: State, id: Id)
    requires Sound(s)
    ensures Sound(AfterUnregister(s, id))
  {
    var f := ForgetParticipant(s, id);
    var t := AfterUnregister(s, id);
    var v := UnregisterLinks(s, id);
    forall r | r in f.table ensures f.table[r].tracks.Keys == f.table[r].senders.Keys { assert SoundPublication(s, r); }
    forall r, x | r in f.table && x in f.table[r].senders && (r, x) !in v
      ensures Registered(t, r) && x in f.peers && ShouldSubscribe(f, f.table[r].key, x)
      ensures f.table[r].tracks[x] == r
      ensures f.table[r].senders[x] in f.holders && f.holders[f.table[r].senders[x]] == f.table[r].remote.ssrc
    {
      assert SoundPublication(s, r);
      UnregisterKeepsLink(s, id, r, x);
    }
    DistinctFollowsTable(s, f);
    CutKeepsSound(f, v, WithoutSource(s.pubs, id), t);
  }

  lemma UnpublishKeepsSound(s: State, source: Id, role: Role)
    requires Sound(s)
    ensures Sound(AfterUnpublish(s, source, role))
  {
    forall r | r in s.table ensures SoundPublication(s, r) {}
    CutKeepsSound(s, UnpublishLinks(s, source, role), WithoutRole(s.pubs, source, role),
      AfterUnpublish(s, source, role));
  }

  lemma ReadStopKeepsLink(s: State, r: PubRef, q: PubRef, x: Id)
    requires Sound(s) && Registered(s, r)
    requires q in s.table && x in s.table[q].senders && (q, x) !in LinksOf(s, r)
    ensures Registered(AfterReadStop(s, r), q)
  {
    assert SoundPublication(s, q);
    assert Registered(s, q) && q != r;
  }

  lemma ReadStopKeepsSound(s: State, r: PubRef)
    requires Sound(s)
    ensures Sound(AfterReadStop(s, r))
  {
    if Registered(s, r) {
      forall q, x | q in s.table && x in s.table[q].senders && (q, x) !in LinksOf(s, r)
        ensures Registered(AfterReadStop(s, r), q)
      {
        ReadStopKeepsLink(s, r, q, x);
      }
      forall q | q in s.table ensures SoundPublication(s, q) {}
      CutKeepsSound(s, LinksOf(s, r), s.pubs - {s.table[r].key}, AfterReadStop(s, r));
    }
  }

  lemma ChooseKeepsSound(s: State, receiver: Id, cameras: set<Id>, layer: string)
    requires Sound(s)
    ensures Sound(AfterChoose(s, receiver, cameras, layer))
  {
    var c := Choose(s, receiver, cameras, layer);
    var t := AfterChoose(s, receiver, cameras, layer);
    forall r, x | r in c.table && x in c.table[r].senders && (r, x) !in UnwantedLinks(c, receiver)
      ensures Registered(t, r) && x in c.peers && ShouldSubscribe(c, c.table[r].key, x)
      ensures c.table[r].tracks[x] == r && c.table[r].senders[x] in c.holders &&
              c.holders[c.table[r].senders[x]] == c.table[r].remote.ssrc
    {
      assert SoundPublication(s, r);
    }
    forall r | r in c.table ensures c.table[r].tracks.Keys == c.table[r].senders.Keys { assert SoundPublication(s, r); }
    DistinctFollowsTable(s, c);
    CutKeepsSound(c, UnwantedLinks(c, receiver), c.pubs, t);
  }

  lemma InstallKeepsDistinct(s: State, op: Op, sender: SenderRef)
    requires SendersDistinct(s) && op.Subscribe? && InstallValid(s, op)
    requires forall l: Link :: Linked(s, l) ==> s.table[l.0].senders[l.1] != sender
    ensures SendersDistinct(AfterInstall(s, op, sender))
  {
    var t := AfterInstall(s, op, sender);
    forall l: Link, m: Link | Linked(t, l) && Linked(t, m) && l != m
      ensures t.table[l.0].senders[l.1] != t.table[m.0].senders[m.1]
    {
      assert Linked(s, l) || l == (op.pub, op.targetID);
      assert Linked(s, m) || m == (op.pub, op.targetID);
    }
  }

  lemma InstallSparesPublication(s: State, op: Op, sender: SenderRef, r: PubRef)
    requires Sound(s) && op.Subscribe? && InstallValid(s, op) && r in s.table && r != op.pub
    requires forall l: Link :: Linked(s, l) ==> s.table[l.0].senders[l.1] != sender
    ensures SoundPublication(AfterInstall(s, op, sender), r)
  {
    assert SoundPublication(s, r);
    assert AfterInstall(s, op, sender).table[r] == s.table[r];
    forall x | x in s.table[r].senders ensures s.table[r].senders[x] != sender { assert Linked(s, (r, x)); }
  }

  lemma InstallExtendsPublication(s: State, op: Op, sender: SenderRef)
    requires Sound(s) && op.Subscribe? && InstallValid(s, op)
    requires forall l: Link :: Linked(s, l) ==> s.table[l.0].senders[l.1] != sender
    ensures SoundPublication(AfterInstall(s, op, sender), op.pub)
  {
    assert SoundPublication(s, op.pub);
    forall x | x in s.table[op.pub].senders ensures s.table[op.pub].senders[x] != sender {
      assert Linked(s, (op.pub, x));
    }
  }

  // AddTrack returns a sender that is installed nowhere yet.
  lemma InstallKeepsSound(s: State, op: Op, sender: SenderRef)
    requires Sound(s) && op.Subscribe?
    requires forall l: Link :: Linked(s, l) ==> s.table[l.0].senders[l.1] != sender
    ensures Sound(AfterInstall(s, op, sender))
  {
    var t := AfterInstall(s, op, sender);
    if InstallValid(s, op) {
      InstallExtendsPublication(s, op, sender);
      forall r | r in t.table && r != op.pub ensures SoundPublication(t, r) {
        InstallSparesPublication(s, op, sender, r);
      }
      InstallKeepsDistinct(s, op, sender);
    }
  }

  lemma JoinsFresh(p: Publication, key: Key, remote: Remote, r: PubRef, moved: set<Id>)
    ensures Joined(p, Publication(key, remote, map[], map[]), r, moved) ==
            Publication(key, remote, Rebuilt(p.senders.Keys * moved, r), Taken(p.senders, moved))
  {
  }

  // What the replacement holds after the migration, and what is left elsewhere.
  lemma MigratedFresh(s: State, r: PubRef, key: Key, remote: Remote, moved: set<Id>)
    requires r !in s.table
    ensures var m := Migrated(s, r, key, remote, moved);
            r in m.table && m.table[r] ==
            if TakesOver(s, key, remote)
            then Publication(key, remote, Rebuilt(s.table[s.pubs[key]].senders.Keys * moved, r),
                             Taken(s.table[s.pubs[key]].senders, moved))
            else Publication(key, remote, map[], map[])
  {
    if TakesOver(s, key, remote) { JoinsFresh(s.table[s.pubs[key]], key, remote, r, moved); }
  }

  lemma MigratedOther(s: State, r: PubRef, key: Key, remote: Remote, moved: set<Id>, q: PubRef)
    requires r !in s.table && q in s.table
    ensures var m := Migrated(s, r, key, remote, moved);
            q in m.table && m.table[q] ==
            if TakesOver(s, key, remote) && q == s.pubs[key] then Left(s.table[q], moved) else s.table[q]
  {
  }

  lemma MigratedRefs(s: State, r: PubRef, key: Key, remote: Remote, moved: set<Id>)
    requires r !in s.table
    ensures Migrated(s, r, key, remote, moved).table.Keys == s.table.Keys + {r}
  {
    MigrationKeepsLabels(s, r, key, remote, moved);
  }

  // Where each link of the migrated state comes from.
  lemma MigratedLinks(s: State, r: PubRef, key: Key, remote: Remote, moved: set<Id>, l: Link)
    requires Sound(s) && r !in s.table
    requires Linked(Migrated(s, r, key, remote, moved), l)
    ensures l.0 == r ==> key in s.pubs && Linked(s, (s.pubs[key], l.1)) && l.1 in moved &&
                         !Linked(Migrated(s, r, key, remote, moved), (s.pubs[key], l.1)) &&
                         Migrated(s, r, key, remote, moved).table[r].senders[l.1] ==
                           s.table[s.pubs[key]].senders[l.1]
    ensures l.0 != r ==> Linked(s, l) &&
                         Migrated(s, r, key, remote, moved).table[l.0].senders[l.1] == s.table[l.0].senders[l.1]
  {
    MigratedRefs(s, r, key, remote, moved);
    if l.0 == r {
      MigratedFresh(s, r, key, remote, moved);
      MigratedOther(s, r, key, remote, moved, s.pubs[key]);
    } else {
      MigratedOther(s, r, key, remote, moved, l.0);
    }
  }

  // The link a migrated link stems from.
  function Origin(s: State, r: PubRef, key: Key, l: Link): Link {
    if l.0 == r && key in s.pubs then (s.pubs[key], l.1) else l
  }

  lemma OriginsDiffer(s: State, r: PubRef, key: Key, remote: Remote, moved: set<Id>, a: Link, b: Link)
    requires Sound(s) && r !in s.table && a != b
    requires Linked(Migrated(s, r, key, remote, moved), a) && Linked(Migrated(s, r, key, remote, moved), b)
    ensures var o, p := Origin(s, r, key, a), Origin(s, r, key, b); Linked(s, o) && Linked(s, p) && o != p
  {
    MigratedLinks(s, r, key, remote, moved, a);
    MigratedLinks(s, r, key, remote, moved, b);
  }

  lemma OriginHasSender(s: State, r: PubRef, key: Key, remote: Remote, moved: set<Id>, l: Link)
    requires Sound(s) && r !in s.table && Linked(Migrated(s, r, key, remote, moved), l)
    ensures var o := Origin(s, r, key, l);
            Linked(s, o) && Migrated(s, r, key, remote, moved).table[l.0].senders[l.1] == s.table[o.0].senders[o.1]
  {
    MigratedLinks(s, r, key, remote, moved, l);
  }

  lemma MigrationKeepsDistinct(s: State, r: PubRef, key: Key, remote: Remote, moved: set<Id>)
    requires Sound(s) && r !in s.table
    ensures SendersDistinct(Migrated(s, r, key, remote, moved))
  {
    var m := Migrated(s, r, key, remote, moved);
    forall a: Link, b: Link | Linked(m, a) && Linked(m, b) && a != b
      ensures m.table[a.0].senders[a.1] != m.table[b.0].senders[b.1]
    {
      OriginsDiffer(s, r, key, remote, moved, a, b);
      OriginHasSender(s, r, key, remote, moved, a);
      OriginHasSender(s, r, key, remote, moved, b);
    }
  }

  lemma MigrationRebuildsTrack(s: State, r: PubRef, key: Key, remote: Remote, moved: set<Id>, l: Link)
    requires Sound(s) && r !in s.table
    requires Linked(Migrated(s, r, key, remote, moved), l)
    ensures var m := Migrated(s, r, key, remote, moved);
            l.1 in m.table[l.0].tracks && m.table[l.0].tracks[l.1] == l.0
  {
    MigratedLinks(s, r, key, remote, moved, l);
    if l.0 == r {
      assert SoundPublication(s, s.pubs[key]);
    } else {
      assert SoundPublication(s, l.0);
    }
  }

  lemma MigrationKeepsHolder(s: State, r: PubRef, key: Key, remote: Remote, moved: set<Id>, l: Link)
    requires Sound(s) && r !in s.table
    requires Linked(Migrated(s, r, key, remote, moved), l)
    ensures var m := Migrated(s, r, key, remote, moved);
            m.table[l.0].senders[l.1] in m.holders && m.holders[m.table[l.0].senders[l.1]] == m.table[l.0].remote.ssrc
  {
    MigratedLinks(s, r, key, remote, moved, l);
    if l.0 == r {
      assert SoundPublication(s, s.pubs[key]);
    } else {
      assert SoundPublication(s, l.0);
      if key in s.pubs {
        NotMoved(s, r, key, remote, moved, l);
      }
    }
  }

  // A sender that stays behind is not among those that were retargeted.
  lemma NotMoved(s: State, r: PubRef, key: Key, remote: Remote, moved: set<Id>, l: Link)
    requires Sound(s) && r !in s.table && key in s.pubs && l.0 != r
    requires Linked(Migrated(s, r, key, remote, moved), l) && Linked(s, l)
    ensures s.table[s.pubs[key]].remote.codec == remote.codec ==>
              s.table[l.0].senders[l.1] !in MovedSenders(s.table[s.pubs[key]], moved)
  {
    forall y | y in s.table[s.pubs[key]].senders && y in moved && s.table[s.pubs[key]].remote.codec == remote.codec
      ensures s.table[s.pubs[key]].senders[y] != s.table[l.0].senders[l.1]
    {
      assert Linked(s, (s.pubs[key], y));
    }
  }

  lemma MigrateKeepsLabels(s: State, stale: PubRef, next: PubRef, moved: set<Id>)
    requires stale in s.table && next in s.table
    ensures var m := Migrate(s, stale, next, moved);
            && m.table.Keys == s.table.Keys && m.peers == s.peers && m.pubs == s.pubs
            && m.subscriptions == s.subscriptions && m.subscriptionsSet == s.subscriptionsSet
            && forall q :: q in s.table ==> m.table[q].key == s.table[q].key && m.table[q].remote == s.table[q].remote
  {
  }

  // A migration relabels nothing: publications keep their key and their track.
  lemma MigrationKeepsLabels(s: State, r: PubRef, key: Key, remote: Remote, moved: set<Id>)
    requires r !in s.table
    ensures var m := Migrated(s, r, key, remote, moved);
            && m.table.Keys == s.table.Keys + {r} && m.peers == s.peers && m.pubs == s.pubs
            && m.subscriptions == s.subscriptions && m.subscriptionsSet == s.subscriptionsSet
            && m.table[r].key == key && m.table[r].remote == remote
            && forall q :: q in s.table ==> m.table[q].key == s.table[q].key && m.table[q].remote == s.table[q].remote
  {
    var a := Allocate(s, r, key, remote);
    if key in s.pubs && s.pubs[key] in s.table { MigrateKeepsLabels(a, s.pubs[key], r, moved); }
  }

  lemma MovedKeys(p: Publication, r: PubRef, moved: set<Id>)
    requires p.tracks.Keys == p.senders.Keys
    ensures Left(p, moved).tracks.Keys == Left(p, moved).senders.Keys
    ensures Rebuilt(p.senders.Keys * moved, r).Keys == Taken(p.senders, moved).Keys
  {
  }

  lemma FreshKeepsKeys(s: State, r: PubRef, key: Key, remote: Remote, moved: set<Id>)
    requires Sound(s) && r !in s.table
    ensures var m := Migrated(s, r, key, remote, moved);
            r in m.table && m.table[r].tracks.Keys == m.table[r].senders.Keys
  {
    MigratedFresh(s, r, key, remote, moved);
    if TakesOver(s, key, remote) {
      assert SoundPublication(s, s.pubs[key]);
      MovedKeys(s.table[s.pubs[key]], r, moved);
    }
  }

  lemma OtherKeepsKeys(s: State, r: PubRef, key: Key, remote: Remote, moved: set<Id>, q: PubRef)
    requires Sound(s) && r !in s.table && q in s.table
    ensures var m := Migrated(s, r, key, remote, moved);
            q in m.table && m.table[q].tracks.Keys == m.table[q].senders.Keys
  {
    MigratedOther(s, r, key, remote, moved, q);
    assert SoundPublication(s, q);
    MovedKeys(s.table[q], r, moved);
  }

  lemma MigrationKeepsKeys(s: State, r: PubRef, key: Key, remote: Remote, moved: set<Id>, q: PubRef)
    requires Sound(s) && r !in s.table
    requires q in Migrated(s, r, key, remote, moved).table
    ensures var p := Migrated(s, r, key, remote, moved).table[q]; p.tracks.Keys == p.senders.Keys
  {
    MigratedRefs(s, r, key, remote, moved);
    if q == r { FreshKeepsKeys(s, r, key, remote, moved); } else { OtherKeepsKeys(s, r, key, remote, moved, q); }
  }

  lemma MigrationKeepsWanted(s: State, r: PubRef, key: Key, remote: Remote, moved: set<Id>, l: Link)
    requires Sound(s) && r !in s.table
    requires Linked(Migrated(s, r, key, remote, moved), l)
    requires l !in ReplacedLinks(s, key, Migrated(s, r, key, remote, moved))
    ensures var m := Migrated(s, r, key, remote, moved);
            && l.1 in s.peers && ShouldSubscribe(s, m.table[l.0].key, l.1)
            && Registered(m.(pubs := s.pubs[key := r]), l.0)
  {
    MigratedLinks(s, r, key, remote, moved, l);
    MigrationKeepsLabels(s, r, key, remote, moved);
    if l.0 == r {
      assert SoundPublication(s, s.pubs[key]);
    } else {
      assert SoundPublication(s, l.0);
      assert Registered(s, l.0);
    }
  }

  lemma PublishKeepsSound(s: State, r: PubRef, key: Key, remote: Remote, moved: set<Id>)
    requires Sound(s) && r !in s.table
    ensures Sound(AfterPublish(s, r, key, remote, moved))
  {
    var m := Migrated(s, r, key, remote, moved);
    var v := ReplacedLinks(s, key, m);
    var n := m.(pubs := s.pubs[key := r]);
    MigrationKeepsLabels(s, r, key, remote, moved);
    MigrationKeepsDistinct(s, r, key, remote, moved);
    DistinctFollowsTable(m, n);
    forall q, x | q in n.table && x in n.table[q].senders && (q, x) !in v
      ensures Registered(n, q) && x in n.peers && ShouldSubscribe(n, n.table[q].key, x)
      ensures x in n.table[q].tracks && n.table[q].tracks[x] == q && n.table[q].senders[x] in n.holders &&
              n.holders[n.table[q].senders[x]] == n.table[q].remote.ssrc
    {
      assert Linked(m, (q, x));
      MigrationRebuildsTrack(s, r, key, remote, moved, (q, x));
      MigrationKeepsHolder(s, r, key, remote, moved, (q, x));
      MigrationKeepsWanted(s, r, key, remote, moved, (q, x));
    }
    forall q | q in n.table ensures n.table[q].tracks.Keys == n.table[q].senders.Keys {
      MigrationKeepsKeys(s, r, key, remote, moved, q);
    }
    PublishIsCut(s, r, key, remote, moved);
    CutKeepsRegistered(n, v);
    CutKeepsSound(n, v, n.pubs, AfterPublish(s, r, key, remote, moved));
  }

  lemma PublishIsCut(s: State, r: PubRef, key: Key, remote: Remote, moved: set<Id>)
    requires r !in s.table
    ensures var m := Migrated(s, r, key, remote, moved);
            var n := m.(pubs := s.pubs[key := r]);
            AfterPublish(s, r, key, remote, moved) == Cut(n, ReplacedLinks(s, key, m)).(pubs := n.pubs)
  {
    var m := Migrated(s, r, key, remote, moved);
    var v := ReplacedLinks(s, key, m);
    var n := m.(pubs := s.pubs[key := r]);
    assert CutSenders(m, v) == CutSenders(n, v) by {
      forall l: Link ensures Linked(m, l) == Linked(n, l) {}
    }
    assert Cut(m, v).table == Cut(n, v).table;
  }

  lemma CutKeepsRegistered(s: State, v: set<Link>)
    ensures forall r :: Registered(Cut(s, v), r) == Registered(s, r)
  {
  }
}
