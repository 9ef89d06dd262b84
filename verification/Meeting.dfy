/** The meeting: its participants, its capacity and the queue of raised hands. */
module Meetings {

  type Id = nat

  datatype Participant = Participant(name: string, raisedHand: bool, handOrder: int)

  datatype JoinResult = Joined | InvalidName | MeetingFull

  // The queue without one participant; the others keep their order.
  function Without(queue: seq<Id>, id: Id): seq<Id> {
    if queue == [] then []
    else if queue[0] == id then queue[1..]
    else [queue[0]] + Without(queue[1..], id)
  }

  ghost predicate NoDuplicates(queue: seq<Id>) {
    forall i, j :: 0 <= i < j < |queue| ==> queue[i] != queue[j]
  }

  // The hand each participant shows: its place in the queue, or none.
  function Place(queue: seq<Id>, id: Id): int {
    if queue == [] then 0
    else if queue[0] == id then 1
    else
      var rest := Place(queue[1..], id);
      if rest == 0 then 0 else rest + 1
  }

  function Shown(queue: seq<Id>, id: Id, p: Participant): Participant {
    p.(raisedHand := Place(queue, id) > 0, handOrder := Place(queue, id))
  }

  lemma {:induction false} PlaceIsIndex(queue: seq<Id>, id: Id)
    ensures 0 <= Place(queue, id) <= |queue|
    ensures Place(queue, id) == 0 <==> id !in queue
    ensures Place(queue, id) > 0 ==> queue[Place(queue, id) - 1] == id && id !in queue[..Place(queue, id) - 1]
    decreases |queue|
  {
    if queue != [] {
      PlaceIsIndex(queue[1..], id);
      assert queue == [queue[0]] + queue[1..];
      var rest := Place(queue[1..], id);
      if queue[0] != id && rest > 0 {
        assert queue[..rest] == [queue[0]] + queue[1..][..rest - 1];
      }
    }
  }

  lemma PlaceAt(queue: seq<Id>, i: nat)
    requires NoDuplicates(queue) && i < |queue|
    ensures Place(queue, queue[i]) == i + 1
  {
    PlaceIsIndex(queue, queue[i]);
  }

  lemma {:induction false} WithoutRemoves(queue: seq<Id>, id: Id)
    requires NoDuplicates(queue)
    ensures NoDuplicates(Without(queue, id))
    ensures forall x :: x in Without(queue, id) <==> x in queue && x != id
    decreases |queue|
  {
    if queue != [] {
      assert queue == [queue[0]] + queue[1..];
      WithoutRemoves(queue[1..], id);
      if queue[0] != id {
        var rest := Without(queue[1..], id);
        forall j | 0 <= j < |rest| ensures rest[j] != queue[0] { assert rest[j] in rest; }
      }
    }
  }

  // First come, first served: whoever was behind the one who left moves up one
  // place, and nobody else moves.
  lemma {:induction false} QueueMovesUp(queue: seq<Id>, id: Id, x: Id)
    requires NoDuplicates(queue) && id in queue && x in queue && x != id
    ensures Place(Without(queue, id), x) == Place(queue, x) - if Place(queue, x) > Place(queue, id) then 1 else 0
    decreases |queue|
  {
    PlaceIsIndex(queue, id);
    PlaceIsIndex(queue, x);
    assert queue == [queue[0]] + queue[1..];
    if queue[0] == id {
      PlaceIsIndex(queue[1..], x);
    } else if queue[0] != x {
      QueueMovesUp(queue[1..], id, x);
      PlaceIsIndex(queue[1..], id);
      PlaceIsIndex(queue[1..], x);
      WithoutRemoves(queue[1..], id);
      PlaceIsIndex(Without(queue[1..], id), x);
    } else {
      PlaceIsIndex(queue[1..], id);
    }
  }

  lemma {:induction false} WithoutAt(queue: seq<Id>, i: nat)
    requires NoDuplicates(queue) && i < |queue|
    ensures Without(queue, queue[i]) == queue[..i] + queue[i + 1..]
    decreases |queue|
  {
    if i > 0 {
      WithoutAt(queue[1..], i - 1);
      assert queue[..i] == [queue[0]] + queue[1..][..i - 1];
      assert queue[1..][i..] == queue[i + 1..];
    }
  }

  class Meeting {
    var max: int
    var participants: map<Id, Participant>
    var raisedHandIDs: seq<Id>

    ghost predicate Valid()
      reads this
    {
      && NoDuplicates(raisedHandIDs)
      && (forall id :: id in raisedHandIDs ==> id in participants)
      && forall id :: id in participants ==> participants[id] == Shown(raisedHandIDs, id, participants[id])
    }

    constructor (maxParticipants: int)
      ensures Valid() && max == maxParticipants && participants == map[] && raisedHandIDs == []
    {
      max, participants, raisedHandIDs := maxParticipants, map[], [];
    }

    // `id` is the fresh identifier the join draws.
    method Join(id: Id, name: string, validName: bool) returns (r: JoinResult)
      requires Valid() && id !in participants
      modifies this`participants
      ensures Valid()
      ensures r == if !validName then InvalidName else if |old(participants)| >= max then MeetingFull else Joined
      ensures participants == if r == Joined then old(participants)[id := Participant(name, false, 0)]
              else old(participants)
    {
      if !validName {
        return InvalidName;
      }
      if |participants| >= max {
        return MeetingFull;
      }
      PlaceIsIndex(raisedHandIDs, id);
      participants := participants[id := Participant(name, false, 0)];
      return Joined;
    }

    // Finds `id` in the queue and takes it out.
    method Dequeue(id: Id)
      requires NoDuplicates(raisedHandIDs)
      modifies this`raisedHandIDs
      ensures raisedHandIDs == Without(old(raisedHandIDs), id)
    {
      for index := 0 to |raisedHandIDs|
        invariant raisedHandIDs == old(raisedHandIDs)
        invariant id !in raisedHandIDs[..index]
      {
        if raisedHandIDs[index] == id {
          WithoutAt(raisedHandIDs, index);
          raisedHandIDs := raisedHandIDs[..index] + raisedHandIDs[index + 1..];
          return;
        }
      }
      assert raisedHandIDs[..|raisedHandIDs|] == raisedHandIDs;
      WithoutAbsent(raisedHandIDs, id);
    }

    // reindexRaisedHandsLocked, which also lists the queue as it now stands.
    method Reindex() returns (queued: seq<(Id, Participant)>)
      requires NoDuplicates(raisedHandIDs) && forall id :: id in raisedHandIDs ==> id in participants
      modifies this`participants
      ensures participants.Keys == old(participants).Keys
      ensures forall id :: id in participants ==>
                participants[id] == if id in raisedHandIDs
                                    then old(participants)[id].(handOrder := Place(raisedHandIDs, id))
                                    else old(participants)[id]
      ensures |queued| == |raisedHandIDs|
      ensures forall i :: 0 <= i < |queued| ==> queued[i] == (raisedHandIDs[i], participants[raisedHandIDs[i]])
    {
      queued := [];
      for index := 0 to |raisedHandIDs|
        invariant participants.Keys == old(participants).Keys
        invariant forall id :: id in participants ==>
                    participants[id] == if id in raisedHandIDs[..index]
                                        then old(participants)[id].(handOrder := Place(raisedHandIDs, id))
                                        else old(participants)[id]
        invariant |queued| == index
        invariant forall i :: 0 <= i < index ==> queued[i] == (raisedHandIDs[i], participants[raisedHandIDs[i]])
      {
        var id := raisedHandIDs[index];
        PlaceAt(raisedHandIDs, index);
        assert raisedHandIDs[..index + 1] == raisedHandIDs[..index] + [id];
        assert id !in raisedHandIDs[..index];
        participants := participants[id := participants[id].(handOrder := index + 1)];
        queued := queued + [(id, participants[id])];
      }
      assert raisedHandIDs[..|raisedHandIDs|] == raisedHandIDs;
    }

    method Leave(id: Id) returns (left: bool)
      requires Valid()
      modifies this`participants, this`raisedHandIDs
      ensures Valid() && left == (id in old(participants))
      ensures raisedHandIDs == if left then Without(old(raisedHandIDs), id) else old(raisedHandIDs)
      ensures participants.Keys == old(participants).Keys - {id}
      ensures forall x :: x in participants ==> participants[x] == Shown(raisedHandIDs, x, old(participants)[x])
    {
      if id !in participants {
        return false;
      }
      PlaceIsIndexForAll(raisedHandIDs);
      WithoutRemoves(raisedHandIDs, id);
      PlaceIsIndexForAll(Without(raisedHandIDs, id));
      participants := participants - {id};
      Dequeue(id);
      var _ := Reindex();
      return true;
    }

    method RaiseHand(id: Id) returns (changed: seq<(Id, Participant)>)
      requires Valid() && id in participants && id !in raisedHandIDs
      modifies this`participants, this`raisedHandIDs
      ensures raisedHandIDs == old(raisedHandIDs) + [id]
      ensures participants.Keys == old(participants).Keys
      ensures forall x :: x in participants ==> participants[x] == Shown(raisedHandIDs, x, old(participants)[x])
      ensures changed == [(id, participants[id])]
    {
      QueueGrows(raisedHandIDs, id);
      raisedHandIDs := raisedHandIDs + [id];
      participants := participants[id := participants[id].(raisedHand := true, handOrder := |raisedHandIDs|)];
      changed := [(id, participants[id])];
    }

    method LowerHand(id: Id) returns (changed: seq<(Id, Participant)>)
      requires Valid() && id in raisedHandIDs
      modifies this`participants, this`raisedHandIDs
      ensures raisedHandIDs == Without(old(raisedHandIDs), id)
      ensures participants.Keys == old(participants).Keys
      ensures forall x :: x in participants ==> participants[x] == Shown(raisedHandIDs, x, old(participants)[x])
      ensures |changed| == |raisedHandIDs| + 1 && changed[0] == (id, participants[id])
      ensures forall i :: 0 <= i < |raisedHandIDs| ==>
                raisedHandIDs[i] in participants && changed[i + 1] == (raisedHandIDs[i], participants[raisedHandIDs[i]])
    {
      PlaceIsIndexForAll(raisedHandIDs);
      WithoutRemoves(raisedHandIDs, id);
      PlaceIsIndexForAll(Without(raisedHandIDs, id));
      participants := participants[id := participants[id].(raisedHand := false, handOrder := 0)];
      var lowered := (id, participants[id]);
      Dequeue(id);
      var queued := Reindex();
      changed := [lowered] + queued;
    }

    // Returns the participants whose hand may show a new place.
    method SetRaisedHand(id: Id, raised: bool) returns (found: bool, changed: seq<(Id, Participant)>)
      requires Valid()
      modifies this`participants, this`raisedHandIDs
      ensures Valid() && participants.Keys == old(participants).Keys && found == (id in participants)
      ensures raisedHandIDs == if !found || raised == (id in old(raisedHandIDs)) then old(raisedHandIDs)
                               else if raised then old(raisedHandIDs) + [id]
                               else Without(old(raisedHandIDs), id)
      ensures forall x :: x in participants ==> participants[x] == Shown(raisedHandIDs, x, old(participants)[x])
      ensures forall i :: 0 <= i < |changed| ==>
                changed[i].0 in participants && changed[i].1 == participants[changed[i].0]
      ensures forall x :: x in participants && participants[x] != old(participants)[x] ==>
              (x, participants[x]) in changed
    {
      if id !in participants {
        return false, [];
      }
      PlaceIsIndex(raisedHandIDs, id);
      if participants[id].raisedHand == raised {
        return true, [];
      }
      found := true;
      if raised {
        QueueGrows(raisedHandIDs, id);
        changed := RaiseHand(id);
      } else {
        WithoutRemoves(raisedHandIDs, id);
        changed := LowerHand(id);
      }
      AllReported(participants, old(participants), raisedHandIDs, old(raisedHandIDs), id, changed);
    }

    method SetMaxParticipants(n: int)
      modifies this`max
      ensures max == if n < 1 then old(max) else n
    {
      if n < 1 {
        return;
      }
      max := n;
    }
  }

  // A participant whose hand shows something new is the one asked about or, when
  // a hand goes down, one still queued; both are listed.
  lemma AllReported(now: map<Id, Participant>, was: map<Id, Participant>, queue: seq<Id>, before: seq<Id>, id: Id,
                    changed: seq<(Id, Participant)>)
    requires now.Keys == was.Keys && id in now
    requires forall x :: x in now ==> now[x] == Shown(queue, x, was[x]) && was[x] == Shown(before, x, was[x])
    requires NoDuplicates(before) && |changed| > 0 && changed[0] == (id, now[id])
    requires (id !in before && queue == before + [id] && |changed| == 1) ||
             (id in before && queue == Without(before, id) && |changed| == |queue| + 1 &&
              forall i :: 0 <= i < |queue| ==> queue[i] in now && changed[i + 1] == (queue[i], now[queue[i]]))
    ensures forall i :: 0 <= i < |changed| ==> changed[i].0 in now && changed[i].1 == now[changed[i].0]
    ensures forall x :: x in now && now[x] != was[x] ==> (x, now[x]) in changed
  {
    forall i | 0 <= i < |changed| ensures changed[i].0 in now && changed[i].1 == now[changed[i].0] {
      if i > 0 { assert queue[i - 1] in now && changed[(i - 1) + 1] == (queue[i - 1], now[queue[i - 1]]); }
    }
    forall x | x in now && now[x] != was[x] ensures (x, now[x]) in changed {
      PlaceIsIndex(queue, x);
      PlaceIsIndex(before, x);
      if id !in before {
        PlaceAppended(before, id, x);
      } else {
        WithoutRemoves(before, id);
        if x != id {
          var i :| 0 <= i < |queue| && queue[i] == x;
          assert changed[i + 1] == (x, now[x]);
        }
      }
    }
  }

  lemma PlaceIsIndexForAll(queue: seq<Id>)
    ensures forall id: Id :: Place(queue, id) == 0 <==> id !in queue
    ensures forall id: Id :: 0 <= Place(queue, id) <= |queue|
  {
    forall id: Id ensures (Place(queue, id) == 0 <==> id !in queue) &&
      0 <= Place(queue, id) <= |queue| { PlaceIsIndex(queue, id); }
  }

  lemma {:induction false} WithoutAbsent(queue: seq<Id>, id: Id)
    requires id !in queue
    ensures Without(queue, id) == queue
    decreases |queue|
  {
    if queue != [] { WithoutAbsent(queue[1..], id); }
  }

  lemma {:induction false} PlaceAppended(queue: seq<Id>, id: Id, x: Id)
    ensures Place(queue + [id], x) ==
            if Place(queue, x) > 0 then Place(queue, x) else if x == id then |queue| + 1 else 0
    decreases |queue|
  {
    if queue == [] {
      assert [id][1..] == [];
    } else {
      PlaceAppended(queue[1..], id, x);
      PlaceIsIndex(queue[1..], x);
      assert (queue + [id])[1..] == queue[1..] + [id];
    }
  }

  lemma QueueGrows(queue: seq<Id>, id: Id)
    requires NoDuplicates(queue) && id !in queue
    ensures NoDuplicates(queue + [id])
    ensures forall x: Id :: Place(queue + [id], x) == if x == id then |queue| + 1 else Place(queue, x)
  {
    PlaceIsIndex(queue, id);
    forall x: Id ensures Place(queue + [id], x) == if x == id then |queue| + 1 else Place(queue, x) {
      PlaceAppended(queue, id, x);
      PlaceIsIndex(queue, x);
    }
  }
}
