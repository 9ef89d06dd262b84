/** One source's publications as the hub drives them: published, replaced, paused
    and resumed, linked to receivers, forwarded. */
module CameraRuns {
  import opened CameraLayers
  import RouterState

  type Role = RouterState.Role

  // Only cameras have layers.
  datatype Slot = Slot(role: Role, layer: string)

  datatype Source = Source(pubs: map<Slot, LayerPublication>, cameraLayers: map<Id, string>)

  function SlotOf(role: Role, layer: string): Slot {
    Slot(role, if role == RouterState.Camera then layer else "")
  }

  // A new publication starts unpaused, whatever it replaces; `kept` are the
  // receivers that keep their sender.
  function Published(s: Source, role: Role, layer: string, kept: map<Id, string>): Source {
    s.(pubs := s.pubs[SlotOf(role, layer) := LayerPublication(kept, 0, false)])
  }

  function Activated(s: Source, role: Role, active: bool): Source {
    s.(pubs := map k | k in s.pubs :: if k.role == role then s.pubs[k].(paused := !active) else s.pubs[k])
  }

  function WithPreference(s: Source, receiver: Id, layer: string): Source {
    s.(cameraLayers := s.cameraLayers[receiver := Requested(layer)])
  }

  function CamerasOf(pubs: map<Slot, LayerPublication>): map<string, LayerPublication> {
    map k | k in pubs && k.role == RouterState.Camera :: k.layer := pubs[k]
  }

  class Publications {
    var pubs: map<Slot, LayerPublication>
    var cameraLayers: map<Id, string>

    ghost function View(): Source
      reads this
    {
      Source(pubs, cameraLayers)
    }

    constructor ()
      ensures View() == Source(map[], map[])
    {
      pubs, cameraLayers := map[], map[];
    }

    method Publish(role: Role, layer: string, kept: map<Id, string>)
      modifies this`pubs
      ensures View() == Published(old(View()), role, layer, kept)
    {
      var used := layer;
      if role != RouterState.Camera {
        used := "";
      }
      pubs := pubs[Slot(role, used) := LayerPublication(kept, 0, false)];
    }

    method SetPublicationActive(role: Role, active: bool)
      modifies this`pubs
      ensures View() == Activated(old(View()), role, active)
    {
      var todo := pubs.Keys;
      while todo != {}
        invariant todo <= pubs.Keys == old(pubs).Keys
        invariant forall k :: k in pubs ==>
                    pubs[k] == if k.role == role && k !in todo then old(pubs)[k].(paused := !active) else old(pubs)[k]
      {
        var k :| k in todo;
        if k.role == role {
          pubs := pubs[k := pubs[k].(paused := !active)];
        }
        todo := todo - {k};
      }
      assert pubs == Activated(old(View()), role, active).pubs;
    }
  }

  // -- Runs ------------------------------------------------------------------------

  datatype Event =
    | Publishes(role: Role, layer: string, kept: map<Id, string>)
    | Activates(role: Role, active: bool)
    | Removes(slot: Slot)
    | Links(slot: Slot, receiver: Id)
    | Unlinks(slot: Slot, receiver: Id)
    | Prefers(receiver: Id, layer: string)
    | Forgets(receiver: Id)
    | Hears(slot: Slot, at: int)                       // a packet arrives
    | Forwards(slot: Slot, targets: set<Id>)           // a frame goes to `targets`

  function Linked(p: LayerPublication, receiver: Id): LayerPublication {
    p.(targets := p.targets[receiver := ""])
  }

  function Next(s: Source, e: Event): Source {
    match e
    case Publishes(role, layer, kept) => Published(s, role, layer, kept)
    case Activates(role, active) => Activated(s, role, active)
    case Removes(slot) => s.(pubs := s.pubs - {slot})
    case Links(slot, receiver) =>
      if slot in s.pubs then s.(pubs := s.pubs[slot := Linked(s.pubs[slot], receiver)]) else s
    case Unlinks(slot, receiver) =>
      if slot in s.pubs
      then s.(pubs := s.pubs[slot := s.pubs[slot].(targets := s.pubs[slot].targets - {receiver})])
      else s
    case Prefers(receiver, layer) => WithPreference(s, receiver, layer)
    case Forgets(receiver) => s.(cameraLayers := s.cameraLayers - {receiver})
    case Hears(slot, at) => if slot in s.pubs then s.(pubs := s.pubs[slot := s.pubs[slot].(lastPacketAt := at)]) else s
    case Forwards(slot, targets) =>
      if slot in s.pubs then s.(pubs := s.pubs[slot := Marked(s.pubs[slot], slot.layer, targets)]) else s
  }

  function Run(s: Source, events: seq<Event>): Source
    decreases |events|
  {
    if events == [] then s else Run(Next(s, events[0]), events[1..])
  }

  const Silent := Source(map[], map[])

  // The hub pauses and resumes screen shares, and nothing else.
  predicate AsHubCalls(events: seq<Event>) {
    forall i :: 0 <= i < |events| && events[i].Activates? ==> events[i].role == RouterState.Screen
  }

  predicate CamerasRun(s: Source) {
    forall k :: k in s.pubs && k.role == RouterState.Camera ==> !s.pubs[k].paused
  }

  lemma NextKeepsCamerasRunning(s: Source, e: Event)
    requires CamerasRun(s) && (e.Activates? ==> e.role == RouterState.Screen)
    ensures CamerasRun(Next(s, e))
  {
  }

  lemma {:induction false} RunKeepsCamerasRunning(s: Source, events: seq<Event>)
    requires CamerasRun(s) && AsHubCalls(events)
    ensures CamerasRun(Run(s, events))
    decreases |events|
  {
    if events != [] {
      NextKeepsCamerasRunning(s, events[0]);
      RunKeepsCamerasRunning(Next(s, events[0]), events[1..]);
    }
  }

  ghost predicate ServedBoth(s: Source, receiver: Id, now: int, a: string, b: string) {
    var cameras := CamerasOf(s.pubs);
    Served(cameras, s.cameraLayers, a, receiver, now) && Served(cameras, s.cameraLayers, b, receiver, now)
  }

  // In every state the hub can bring about, a receiver for which some layer is
  // subscribed and recently active is served by exactly one layer, the nearest
  // such layer; any other receiver is served by none.
  lemma ServedByExactlyOne(events: seq<Event>, receiver: Id, now: int)
    requires AsHubCalls(events)
    ensures var s := Run(Silent, events);
            var cameras := CamerasOf(s.pubs);
            && ((exists some :: ValidLayer(some) && Active(cameras, some, receiver, now)) <==>
                (exists layer :: Served(cameras, s.cameraLayers, layer, receiver, now)))
            && (forall a, b :: ServedBoth(s, receiver, now, a, b) ==> a == b)
            && (forall a :: IsSelected(cameras, Preferred(s.cameraLayers, receiver), receiver, now, a) <==>
                            Served(cameras, s.cameraLayers, a, receiver, now))
  {
    RunKeepsCamerasRunning(Silent, events);
    var s := Run(Silent, events);
    var cameras := CamerasOf(s.pubs);
    forall layer | layer in cameras ensures !cameras[layer].paused {
      assert Slot(RouterState.Camera, layer) in s.pubs;
    }
    if some :| ValidLayer(some) && Active(cameras, some, receiver, now) {
      var nearest := ServedUnlessNearestPaused(cameras, s.cameraLayers, receiver, now, some);
    }
    forall a, b | ServedBoth(s, receiver, now, a, b) ensures a == b {
      AtMostOneLayer(cameras, s.cameraLayers, receiver, now, a, b);
    }
  }

  // With the window spelled out: a receiver subscribed to any layer of a camera
  // that sent a packet in the last three seconds is served by exactly one layer.
  lemma RecentCameraServes(events: seq<Event>, receiver: Id, now: int, some: string)
    requires AsHubCalls(events) && some in ["low", "medium", "high"]
    requires var cameras := CamerasOf(Run(Silent, events).pubs);
             && some in cameras && receiver in cameras[some].targets
             && cameras[some].lastPacketAt != 0 && now - cameras[some].lastPacketAt <= 3_000_000_000
    ensures var s := Run(Silent, events);
            && (exists layer :: Served(CamerasOf(s.pubs), s.cameraLayers, layer, receiver, now))
            && forall a, b :: ServedBoth(s, receiver, now, a, b) ==> a == b
  {
    ServedByExactlyOne(events, receiver, now);
    assert ValidLayer(some) && Active(CamerasOf(Run(Silent, events).pubs), some, receiver, now);
  }

  // -- Pausing ----------------------------------------------------------------------

  // What the calls say of a publication: paused by the last call for its role,
  // unless it was published after that.
  function PausedBy(events: seq<Event>, slot: Slot): bool {
    if events == [] then false
    else
      var earlier := events[..|events| - 1];
      match events[|events| - 1]
      case Activates(role, active) => if role == slot.role then !active else PausedBy(earlier, slot)
      case Publishes(role, layer, _) =>
        if role == slot.role && (role == RouterState.Camera ==> layer == slot.layer) then false
        else PausedBy(earlier, slot)
      case _ => PausedBy(earlier, slot)
  }

  lemma {:induction false} RunMore(s: Source, events: seq<Event>, e: Event)
    ensures Run(s, events + [e]) == Next(Run(s, events), e)
    decreases |events|
  {
    if events == [] {
      assert [e][1..] == [];
    } else {
      assert (events + [e])[1..] == events[1..] + [e];
      RunMore(Next(s, events[0]), events[1..], e);
    }
  }

  predicate OnlyCamerasLayered(s: Source) {
    forall k :: k in s.pubs && k.role != RouterState.Camera ==> k.layer == ""
  }

  lemma StepPauses(s: Source, e: Event, slot: Slot)
    requires OnlyCamerasLayered(s) && slot in Next(s, e).pubs
    ensures OnlyCamerasLayered(Next(s, e))
    ensures Next(s, e).pubs[slot].paused <==>
            if e.Activates? && e.role == slot.role then !e.active
            else if e.Publishes? && e.role == slot.role && (e.role == RouterState.Camera ==> e.layer == slot.layer)
            then false else slot in s.pubs && s.pubs[slot].paused
    ensures slot !in s.pubs ==> e.Publishes? && e.role == slot.role
  {
  }

  lemma StepKeepsLayers(s: Source, e: Event)
    requires OnlyCamerasLayered(s)
    ensures OnlyCamerasLayered(Next(s, e))
  {
  }

  lemma {:induction false} RunKeepsLayers(s: Source, events: seq<Event>)
    requires OnlyCamerasLayered(s)
    ensures OnlyCamerasLayered(Run(s, events))
    decreases |events|
  {
    if events != [] {
      StepKeepsLayers(s, events[0]);
      RunKeepsLayers(Next(s, events[0]), events[1..]);
    }
  }

  // In every run a publication is paused exactly when the last call said so.
  lemma {:induction false} PausedAsCalled(events: seq<Event>, slot: Slot)
    requires slot in Run(Silent, events).pubs
    ensures Run(Silent, events).pubs[slot].paused <==> PausedBy(events, slot)
    decreases |events|
  {
    if events != [] {
      var front, e := events[..|events| - 1], events[|events| - 1];
      assert events == front + [e];
      RunMore(Silent, front, e);
      RunKeepsLayers(Silent, front);
      StepPauses(Run(Silent, front), e, slot);
      if slot in Run(Silent, front).pubs { PausedAsCalled(front, slot); }
    }
  }
}
