/** Simulcast camera layers: the router's choice for each receiver and frame, and
    the browser's choice among the tracks it receives. */
module CameraLayers {

  type Id = string

  const LAYERS := ["low", "medium", "high"]
  // cameraLayerActivityWindow in nanoseconds
  const ACTIVITY_WINDOW := 3_000_000_000

  predicate ValidLayer(layer: string) {
    layer == "low" || layer == "medium" || layer == "high"
  }

  // The preference that is kept when a receiver asks for `layer`.
  function Requested(layer: string): string {
    if ValidLayer(layer) then layer else "medium"
  }

  function Rank(layer: string): nat {
    if layer == "low" then 0 else if layer == "medium" then 1 else if layer == "high" then 2 else 3
  }

  function Distance(a: int, b: int): nat {
    if a < b then b - a else a - b
  }

  // One publication of the source: the receivers with an egress track, the
  // layer last sent to each, the last packet's arrival (0 if none) and `paused`.
  datatype LayerPublication = LayerPublication(targets: map<Id, string>, lastPacketAt: int, paused: bool)

  predicate Recent(p: LayerPublication, now: int) {
    p.lastPacketAt != 0 && now - p.lastPacketAt <= ACTIVITY_WINDOW
  }

  predicate Active(pubs: map<string, LayerPublication>, layer: string, receiver: Id, now: int) {
    layer in pubs && receiver in pubs[layer].targets && Recent(pubs[layer], now)
  }

  function Preferred(cameraLayers: map<Id, string>, receiver: Id): string {
    if receiver in cameraLayers && ValidLayer(cameraLayers[receiver]) then cameraLayers[receiver] else "medium"
  }

  // Nearest to the preference, the lower quality on a tie.
  predicate NoFarther(preferred: string, a: string, b: string) {
    var da, db := Distance(Rank(a), Rank(preferred)), Distance(Rank(b), Rank(preferred));
    da < db || (da == db && Rank(a) <= Rank(b))
  }

  ghost predicate IsSelected(pubs: map<string, LayerPublication>, preferred: string, receiver: Id, now: int,
                             layer: string) {
    && ValidLayer(layer) && Active(pubs, layer, receiver, now)
    && forall other :: ValidLayer(other) && Active(pubs, other, receiver, now) ==> NoFarther(preferred, layer, other)
  }

  // The publications of one camera source, keyed by layer ("" when the camera
  // publishes a single unlayered track), and each receiver's preference.
  class CameraSource {
    var pubs: map<string, LayerPublication>
    var cameraLayers: map<Id, string>

    constructor ()
      ensures pubs == map[] && cameraLayers == map[]
    {
      pubs, cameraLayers := map[], map[];
    }

    method SelectedCameraLayer(receiver: Id, now: int) returns (selected: string)
      ensures selected != "" ==> IsSelected(pubs, Preferred(cameraLayers, receiver), receiver, now, selected)
      ensures selected == "" ==> forall layer :: ValidLayer(layer) ==> !Active(pubs, layer, receiver, now)
    {
      var preferred := Preferred(cameraLayers, receiver);
      var preferredRank: int := Rank(preferred);
      selected := "";
      var selectedDistance, selectedRank := 3, 3;
      for rank := 0 to 3
        invariant selected == "" ==> selectedDistance == 3
        invariant selected == "" ==> forall r :: 0 <= r < rank ==> !Active(pubs, LAYERS[r], receiver, now)
        invariant selected != "" ==>
                    && ValidLayer(selected) && Active(pubs, selected, receiver, now)
                    && selectedRank == Rank(selected) && selectedDistance == Distance(Rank(selected), preferredRank)
                    && forall r :: 0 <= r < rank && Active(pubs, LAYERS[r], receiver, now) ==>
                      NoFarther(preferred, selected, LAYERS[r])
      {
        var layer := LAYERS[rank];
        if Active(pubs, layer, receiver, now) {
          var distance: int := rank - preferredRank;
          if distance < 0 {
            distance := -distance;
          }
          if distance < selectedDistance || (distance == selectedDistance && rank < selectedRank) {
            selected, selectedDistance, selectedRank := layer, distance, rank;
          }
        }
      }
      forall layer | ValidLayer(layer) ensures LAYERS[Rank(layer)] == layer {}
    }

    // Who receives this publication's next frame, and who starts receiving its
    // layer with it and needs a keyframe.
    method ResolveFrameTargets(layer: string, now: int) returns (targets: set<Id>, layerStarts: set<Id>)
      requires layer in pubs && (layer == "" || ValidLayer(layer))
      modifies this`pubs
      ensures var pub := old(pubs)[layer];
              && targets == (set t | t in pub.targets && !pub.paused &&
                Receives(old(pubs), cameraLayers, layer, t, now))
              && layerStarts == (set t | t in targets && layer != "" && pub.targets[t] != layer)
              && pubs == old(pubs)[layer := Marked(pub, layer, targets)]
    {
      targets, layerStarts := {}, {};
      var pub := pubs[layer];
      UnmarkedIsSame(pub, layer, targets);
      if pub.paused || pub.targets == map[] {
        return;
      }
      if layer == "" {
        targets := pub.targets.Keys;
        UnmarkedIsSame(pub, layer, targets);
        return;
      }
      var sent: map<Id, string>;
      targets, layerStarts, sent := VisitTargets(layer, now);
      pubs := pubs[layer := pub.(targets := sent)];
    }

    method Serves(receiver: Id, layer: string, now: int) returns (r: bool)
      requires ValidLayer(layer)
      ensures r <==> Receives(pubs, cameraLayers, layer, receiver, now)
    {
      var selected := SelectedCameraLayer(receiver, now);
      SelectedIsUnique(pubs, Preferred(cameraLayers, receiver), receiver, now, selected, layer);
      r := selected == layer;
    }

    // The loop over one layer's receivers: who is served, who starts with this
    // frame, and the layer each is left with.
    method VisitTargets(layer: string, now: int)
      returns (targets: set<Id>, layerStarts: set<Id>, sent: map<Id, string>)
      requires layer in pubs && ValidLayer(layer) && !pubs[layer].paused
      ensures targets == (set t | t in pubs[layer].targets && Receives(pubs, cameraLayers, layer, t, now))
      ensures layerStarts == (set t | t in targets && pubs[layer].targets[t] != layer)
      ensures sent == Marked(pubs[layer], layer, targets).targets
    {
      targets, layerStarts := {}, {};
      var pub := pubs[layer];
      var todo := pub.targets.Keys;
      sent := pub.targets;
      while todo != {}
        invariant todo <= pub.targets.Keys == sent.Keys
        invariant targets !! todo && layerStarts <= targets <= pub.targets.Keys
        invariant forall t :: t in pub.targets && t !in todo ==>
                    (t in targets <==> Receives(pubs, cameraLayers, layer, t, now))
        invariant forall t :: t in targets ==> (t in layerStarts <==> pub.targets[t] != layer)
        invariant forall t :: t in pub.targets ==>
                    sent[t] == if t in targets then layer
                               else if t !in todo && pub.targets[t] == layer then "" else pub.targets[t]
      {
        var t :| t in todo;
        var serves := Serves(t, layer, now);
        if !serves {
          if sent[t] == layer {
            sent := sent[t := ""];
          }
        } else {
          if sent[t] != layer {
            sent := sent[t := layer];
            layerStarts := layerStarts + {t};
          }
          targets := targets + {t};
        }
        todo := todo - {t};
      }
      MarkedAre(pub, layer, targets, sent);
    }
  }

  // The layer marker a receiver is left with: the layer it now receives, or none
  // if it used to receive it, so that coming back asks for a keyframe again.
  function Mark(pub: LayerPublication, layer: string, targets: set<Id>, t: Id): string
    requires t in pub.targets
  {
    if layer == "" || pub.paused then pub.targets[t]
    else if t in targets then layer
    else if pub.targets[t] == layer then ""
    else pub.targets[t]
  }

  function Marked(pub: LayerPublication, layer: string, targets: set<Id>): LayerPublication {
    pub.(targets := map t | t in pub.targets :: Mark(pub, layer, targets, t))
  }

  lemma MarkedAre(pub: LayerPublication, layer: string, targets: set<Id>, sent: map<Id, string>)
    requires layer != "" && !pub.paused && sent.Keys == pub.targets.Keys
    requires forall t :: t in pub.targets ==>
               sent[t] == if t in targets then layer else if pub.targets[t] == layer then "" else pub.targets[t]
    ensures sent == Marked(pub, layer, targets).targets
  {
  }

  lemma UnmarkedIsSame(pub: LayerPublication, layer: string, targets: set<Id>)
    ensures pub.paused || pub.targets == map[] || layer == "" ==> Marked(pub, layer, targets) == pub
  {
    if pub.paused || pub.targets == map[] || layer == "" {
      assert Marked(pub, layer, targets).targets == pub.targets;
    }
  }

  // An unlayered publication reaches all its receivers.
  ghost predicate Receives(pubs: map<string, LayerPublication>, cameraLayers: map<Id, string>, layer: string, t: Id,
                           now: int) {
    layer == "" || IsSelected(pubs, Preferred(cameraLayers, t), t, now, layer)
  }

  lemma SelectedIsUnique(pubs: map<string, LayerPublication>, preferred: string, receiver: Id, now: int, a: string,
                         b: string)
    requires IsSelected(pubs, preferred, receiver, now, a) || a == ""
    requires a == "" ==> forall layer :: ValidLayer(layer) ==> !Active(pubs, layer, receiver, now)
    ensures IsSelected(pubs, preferred, receiver, now, b) <==> a != "" && a == b
  {
    if IsSelected(pubs, preferred, receiver, now, b) {
      assert NoFarther(preferred, a, b) && NoFarther(preferred, b, a);
    }
  }

  // -- One layer per receiver -----------------------------------------------------

  // The layered publication `layer` forwards frames to the receiver.
  ghost predicate Served(pubs: map<string, LayerPublication>, cameraLayers: map<Id, string>, layer: string,
                         receiver: Id, now: int) {
    ValidLayer(layer) && layer in pubs && !pubs[layer].paused &&
    IsSelected(pubs, Preferred(cameraLayers, receiver), receiver, now, layer)
  }

  lemma AtMostOneLayer(pubs: map<string, LayerPublication>, cameraLayers: map<Id, string>, receiver: Id, now: int,
                       a: string, b: string)
    requires Served(pubs, cameraLayers, a, receiver, now) && Served(pubs, cameraLayers, b, receiver, now)
    ensures a == b
  {
    SelectedIsUnique(pubs, Preferred(cameraLayers, receiver), receiver, now, a, b);
  }

  lemma SomeActiveIsSelected(pubs: map<string, LayerPublication>, preferred: string, receiver: Id, now: int,
                             some: string)
    returns (layer: string)
    requires ValidLayer(some) && Active(pubs, some, receiver, now)
    ensures IsSelected(pubs, preferred, receiver, now, layer)
  {
    layer := some;
    if Active(pubs, "low", receiver, now) && !NoFarther(preferred, layer, "low") { layer := "low"; }
    if Active(pubs, "medium", receiver, now) && !NoFarther(preferred, layer, "medium") { layer := "medium"; }
    if Active(pubs, "high", receiver, now) && !NoFarther(preferred, layer, "high") { layer := "high"; }
    assert IsSelected(pubs, preferred, receiver, now, layer);
  }

  // A receiver with an active layer is served exactly when the nearest active
  // layer is not paused: the choice does not look at `paused`.
  lemma ServedUnlessNearestPaused(pubs: map<string, LayerPublication>, cameraLayers: map<Id, string>, receiver: Id,
                                  now: int, some: string)
    returns (nearest: string)
    requires ValidLayer(some) && Active(pubs, some, receiver, now)
    ensures IsSelected(pubs, Preferred(cameraLayers, receiver), receiver, now, nearest)
    ensures (exists layer :: Served(pubs, cameraLayers, layer, receiver, now)) <==> !pubs[nearest].paused
  {
    nearest := SomeActiveIsSelected(pubs, Preferred(cameraLayers, receiver), receiver, now, some);
    if !pubs[nearest].paused {
      assert Served(pubs, cameraLayers, nearest, receiver, now);
    }
    forall layer | Served(pubs, cameraLayers, layer, receiver, now) ensures layer == nearest {
      SelectedIsUnique(pubs, Preferred(cameraLayers, receiver), receiver, now, nearest, layer);
    }
  }

  // -- The browser's choice -------------------------------------------------------

  datatype Track = Track(layer: string, live: bool, muted: bool)

  datatype Option<T> = None | Some(value: T)

  // quality.indexOf(layer)
  function IndexOf(layer: string): int {
    if ValidLayer(layer) then Rank(layer) else -1
  }

  predicate SortsBefore(preferredLayer: string, a: Track, b: Track) {
    var p := IndexOf(preferredLayer);
    var da, db := Distance(IndexOf(a.layer), p), Distance(IndexOf(b.layer), p);
    da < db || (da == db && IndexOf(a.layer) <= IndexOf(b.layer))
  }

  function Live(tracks: seq<Track>): seq<Track> {
    if tracks == [] then [] else (if tracks[0].live then [tracks[0]] else []) + Live(tracks[1..])
  }

  function InsertTrack(t: Track, sorted: seq<Track>, preferredLayer: string): seq<Track> {
    if sorted == [] || SortsBefore(preferredLayer, t, sorted[0]) then [t] + sorted
    else [sorted[0]] + InsertTrack(t, sorted[1..], preferredLayer)
  }

  function SortTracks(tracks: seq<Track>, preferredLayer: string): seq<Track> {
    if tracks == [] then [] else InsertTrack(tracks[0], SortTracks(tracks[1..], preferredLayer), preferredLayer)
  }

  function FindUnmuted(tracks: seq<Track>): Option<Track> {
    if tracks == [] then None else if !tracks[0].muted then Some(tracks[0]) else FindUnmuted(tracks[1..])
  }

  function SelectLayer(tracks: seq<Track>, preferredLayer: string): Option<Track> {
    var candidates := SortTracks(Live(tracks), preferredLayer);
    match FindUnmuted(candidates)
    case Some(t) => Some(t)
    case None => if candidates == [] then None else Some(candidates[0])
  }

  ghost predicate TracksSorted(tracks: seq<Track>, preferredLayer: string) {
    forall i, j :: 0 <= i < j < |tracks| ==> SortsBefore(preferredLayer, tracks[i], tracks[j])
  }

  lemma {:induction false} InsertTrackSorts(t: Track, sorted: seq<Track>, preferredLayer: string)
    requires TracksSorted(sorted, preferredLayer)
    ensures TracksSorted(InsertTrack(t, sorted, preferredLayer), preferredLayer)
    ensures forall x :: x in InsertTrack(t, sorted, preferredLayer) <==> x == t || x in sorted
    decreases |sorted|
  {
    if sorted != [] {
      assert sorted == [sorted[0]] + sorted[1..];
      InsertTrackSorts(t, sorted[1..], preferredLayer);
      if !SortsBefore(preferredLayer, t, sorted[0]) {
        var rest := InsertTrack(t, sorted[1..], preferredLayer);
        forall j | 0 <= j < |rest| ensures SortsBefore(preferredLayer, sorted[0], rest[j]) { assert rest[j] in rest; }
      }
    }
  }

  lemma {:induction false} SortTracksSorts(tracks: seq<Track>, preferredLayer: string)
    ensures TracksSorted(SortTracks(tracks, preferredLayer), preferredLayer)
    ensures forall x :: x in SortTracks(tracks, preferredLayer) <==> x in tracks
    decreases |tracks|
  {
    if tracks != [] {
      assert tracks == [tracks[0]] + tracks[1..];
      SortTracksSorts(tracks[1..], preferredLayer);
      InsertTrackSorts(tracks[0], SortTracks(tracks[1..], preferredLayer), preferredLayer);
    }
  }

  lemma {:induction false} LiveKeepsLive(tracks: seq<Track>)
    ensures forall x :: x in Live(tracks) <==> x in tracks && x.live
    decreases |tracks|
  {
    if tracks != [] {
      assert tracks == [tracks[0]] + tracks[1..];
      LiveKeepsLive(tracks[1..]);
    }
  }

  lemma {:induction false} FirstUnmutedIsLeast(tracks: seq<Track>, preferredLayer: string)
    requires TracksSorted(tracks, preferredLayer)
    ensures match FindUnmuted(tracks)
            case Some(t) => t in tracks && !t.muted &&
                            forall x :: x in tracks && !x.muted ==> SortsBefore(preferredLayer, t, x)
            case None => forall x :: x in tracks ==> x.muted
    decreases |tracks|
  {
    if tracks != [] {
      assert tracks == [tracks[0]] + tracks[1..];
      FirstUnmutedIsLeast(tracks[1..], preferredLayer);
    }
  }

  lemma FirstChoice(tracks: seq<Track>, preferredLayer: string, some: Track)
    requires some in tracks && some.live && !some.muted
    ensures SelectLayer(tracks, preferredLayer).Some?
    ensures var best := SelectLayer(tracks, preferredLayer).value;
            && best in tracks && best.live && !best.muted
            && forall t :: t in tracks && t.live && !t.muted ==> SortsBefore(preferredLayer, best, t)
  {
    var candidates := SortTracks(Live(tracks), preferredLayer);
    LiveKeepsLive(tracks);
    SortTracksSorts(Live(tracks), preferredLayer);
    FirstUnmutedIsLeast(candidates, preferredLayer);
    assert some in candidates;
  }

  // When the browser's live unmuted tracks are the layers the router finds
  // active, and the browser has sent the layer it asks for, both pick the same
  // layer; for a preference that is no layer, which the router stores as "medium"
  // and the browser reads as below "low", exactly when "low" and "medium" are not
  // both there to choose from.
  lemma BrowserAgreesWithRouter(pubs: map<string, LayerPublication>, cameraLayers: map<Id, string>, receiver: Id,
                                now: int, asked: string, tracks: seq<Track>, selected: string)
    requires receiver in cameraLayers && cameraLayers[receiver] == Requested(asked)
    requires IsSelected(pubs, Preferred(cameraLayers, receiver), receiver, now, selected)
    requires forall t :: t in tracks && t.live && !t.muted ==>
               ValidLayer(t.layer) && Active(pubs, t.layer, receiver, now)
    requires forall layer :: ValidLayer(layer) && Active(pubs, layer, receiver, now) ==>
               exists t :: t in tracks && t.live && !t.muted && t.layer == layer
    ensures SelectLayer(tracks, asked).Some?
    ensures SelectLayer(tracks, asked).value.layer == selected <==>
            ValidLayer(asked) || !(Active(pubs, "low", receiver, now) && Active(pubs, "medium", receiver, now))
  {
    var preferred := Preferred(cameraLayers, receiver);
    var t :| t in tracks && t.live && !t.muted && t.layer == selected;
    FirstChoice(tracks, asked, t);
    var best := SelectLayer(tracks, asked).value;
    assert NoFarther(preferred, selected, best.layer);
    if !ValidLayer(asked) {
      if Active(pubs, "low", receiver, now) {
        var low :| low in tracks && low.live && !low.muted && low.layer == "low";
        assert SortsBefore(asked, best, low);
      }
      if Active(pubs, "medium", receiver, now) { assert NoFarther(preferred, selected, "medium"); }
    }
  }

  // The browser never picks a muted track while an unmuted live one exists, nor
  // anything while no live track exists.
  lemma BrowserPrefersUnmuted(tracks: seq<Track>, preferredLayer: string)
    ensures SelectLayer(tracks, preferredLayer).None? <==> forall t :: t in tracks ==> !t.live
    ensures SelectLayer(tracks, preferredLayer).Some? ==>
              var best := SelectLayer(tracks, preferredLayer).value;
              && best in tracks && best.live
              && forall t :: t in tracks && t.live && t.muted == best.muted ==> SortsBefore(preferredLayer, best, t)
    ensures SelectLayer(tracks, preferredLayer).Some? && SelectLayer(tracks, preferredLayer).value.muted ==>
              forall t :: t in tracks && t.live ==> t.muted
  {
    var candidates := SortTracks(Live(tracks), preferredLayer);
    LiveKeepsLive(tracks);
    SortTracksSorts(Live(tracks), preferredLayer);
    FirstUnmutedIsLeast(candidates, preferredLayer);
    if candidates != [] { assert candidates[0] in candidates; }
    forall t | t in tracks && t.live ensures t in candidates {}
  }
}
