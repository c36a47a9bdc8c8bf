// The hub's room: the consumers it offers snapshots to, and how it reconciles.
// Each method is a run of the steps that other threads may interleave with.
module Hub {
  import opened Prelude
  import opened Frames
  import opened Delivery
  import H = HubRuns

  datatype Hint = Hint(roomId: string, revision: nat)

  // The room with these queues, late offers, and consumers still to be offered
  // the newest snapshot.
  ghost function RoomOf(revision: nat, queues: map<nat, Queue>, pending: map<nat, int>, offering: set<nat>, members: set<nat>): H.Room {
    H.Room(revision, map i | i in queues ::
      H.Consumer(queues[i], if i in pending then H.First(pending[i]) else H.Idle,
                 if i in offering then H.First(revision) else H.Idle, i in members))
  }

  lemma {:induction false} Registers(revision: nat, queues: map<nat, Queue>, pending: map<nat, int>, members: set<nat>, id: nat)
    requires id !in queues && id !in pending
    ensures RoomOf(revision, queues[id := Queue(None, [])], if revision > 0 then pending[id := revision] else pending, {}, members + {id})
         == H.After(RoomOf(revision, queues, pending, {}, members), H.Register(id))
  {}

  lemma {:induction false} Releases(revision: nat, queues: map<nat, Queue>, pending: map<nat, int>, members: set<nat>, id: nat)
    requires id in queues
    ensures RoomOf(revision, queues, pending, {}, members - {id}) == H.After(RoomOf(revision, queues, pending, {}, members), H.Release(id))
  {}

  lemma {:induction false} OffersSeen(revision: nat, queues: map<nat, Queue>, pending: map<nat, int>, members: set<nat>, id: nat)
    requires id in queues && id in pending
    ensures RoomOf(revision, queues[id := queues[id].(slot := Some(pending[id]))], pending - {id}, {}, members)
         == H.RunFrom(RoomOf(revision, queues, pending, {}, members), [H.LateSelect(id), H.LateSelect(id), H.LateSelect(id)])
  {
    hide H.RunFrom;
    H.SelectsAlone(RoomOf(revision, queues, pending, {}, members), id, true);
  }

  lemma {:induction false} Installed(revision: nat, queues: map<nat, Queue>, pending: map<nat, int>, members: set<nat>, newer: nat)
    requires newer > revision && members <= queues.Keys
    ensures RoomOf(newer, queues, pending, members, members) == H.RunFrom(RoomOf(revision, queues, pending, {}, members), [H.Install(newer)])
  {
    hide H.RunFrom;
    H.RunOfOne(RoomOf(revision, queues, pending, {}, members), H.Install(newer));
  }

  lemma {:induction false} OffersNewest(revision: nat, queues: map<nat, Queue>, pending: map<nat, int>, offering: set<nat>, members: set<nat>, id: nat)
    requires id in queues && id in offering
    ensures RoomOf(revision, queues[id := queues[id].(slot := Some(revision))], pending, offering - {id}, members)
         == H.RunFrom(RoomOf(revision, queues, pending, offering, members), [H.NewSelect(id), H.NewSelect(id), H.NewSelect(id)])
  {
    hide H.RunFrom;
    H.SelectsAlone(RoomOf(revision, queues, pending, offering, members), id, false);
  }

  ghost predicate Separate(queues: map<nat, SnapshotQueue>) {
    forall i, j | i in queues && j in queues && i != j :: queues[i] != queues[j]
  }

  // The registered consumers are known, and ids were given out in order.
  ghost predicate Registered(consumers: map<nat, SnapshotQueue>, known: map<nat, SnapshotQueue>, nextId: nat) {
    (forall i | i in consumers :: i in known && known[i] == consumers[i]) && (forall i | i in known :: i < nextId)
  }

  // Late offers are of what known consumers saw.
  ghost predicate Promised(pending: map<nat, int>, known: map<nat, SnapshotQueue>, revision: nat) {
    forall i | i in pending :: i in known && 0 < pending[i] <= revision
  }

  lemma {:induction false} RegistersMore(
    consumers: map<nat, SnapshotQueue>, known: map<nat, SnapshotQueue>, pending: map<nat, int>, revision: nat, id: nat, queue: SnapshotQueue)
    requires Separate(known) && Registered(consumers, known, id) && Promised(pending, known, revision) && queue !in known.Values
    ensures id !in known && id !in pending
    ensures Separate(known[id := queue]) && Registered(consumers[id := queue], known[id := queue], id + 1)
    ensures Promised(if revision > 0 then pending[id := revision] else pending, known[id := queue], revision)
  {}

  class LocalRoom {
    const roomId: string
    var consumers: map<nat, SnapshotQueue>
    var nextId: nat
    var revision: nat
    var snapshot: Option<Snapshot>
    var gaps: nat
    ghost var delivered: seq<int>
    ghost var known: map<nat, SnapshotQueue>
    ghost var pending: map<nat, int>

    // One queue per consumer; the revisions delivered so far increase and end
    // with the room's own. `known` keeps the consumers that left, `pending` the
    // late offers not made yet.
    ghost predicate Valid()
      reads this
    {
      && Separate(known) && Registered(consumers, known, nextId)
      && Promised(pending, known, revision)
      && Increasing(delivered)
      && (revision == 0 <==> delivered == [])
      && (revision == 0 <==> snapshot.None?)
      && (revision > 0 ==> snapshot.value.revision == revision && delivered[|delivered| - 1] == revision)
    }

    ghost function Queues(): map<nat, Queue>
      reads this, known.Values
    {
      map i | i in known :: known[i].Value()
    }

    ghost function During(offering: set<nat>): H.Room
      reads this, known.Values
    {
      RoomOf(revision, Queues(), pending, offering, consumers.Keys)
    }

    ghost function State(): H.Room
      reads this, known.Values
    {
      During({})
    }

    constructor (roomId: string)
      ensures Valid() && this.roomId == roomId && known == map[] && delivered == [] && State() == H.Opened
    {
      this.roomId := roomId;
      consumers, nextId, revision, snapshot, gaps, delivered := map[], 0, 0, None, 0, [];
      known, pending := map[], map[];
    }

    // Acquire on a room that is there, under the lock: the consumer is
    // registered and sees the current snapshot.
    method Register(queue: SnapshotQueue) returns (id: nat, seen: Option<Snapshot>)
      requires Valid() && queue !in known.Values && queue.slot.None? && queue.taken == []
      modifies `consumers, `nextId, `known, `pending
      ensures Valid() && id == old(nextId) && consumers == old(consumers)[id := queue] && known == old(known)[id := queue]
      ensures seen == snapshot
      ensures pending == if seen.Some? then old(pending)[id := seen.value.revision] else old(pending)
      ensures State() == H.After(old(State()), H.Register(id))
    {
      hide Increasing, RoomOf, Separate, Registered, Promised, H.After;
      ghost var queues := Queues();
      RegistersMore(consumers, known, pending, revision, nextId, queue);
      Registers(revision, queues, pending, consumers.Keys, nextId);
      id := nextId;
      nextId := nextId + 1;
      consumers := consumers[id := queue];
      seen := snapshot;
      known := known[id := queue];
      pending := if seen.Some? then pending[id := seen.value.revision] else pending;
      assert queue.Value() == Queue(None, []);
      assert Queues() == queues[id := Queue(None, [])];
      assert consumers.Keys == old(consumers.Keys) + {id};
    }

    // After the lock was released: the consumer is offered what it saw then.
    method OfferSeen(id: nat, queue: SnapshotQueue, seen: Snapshot)
      requires Valid() && id in pending && known[id] == queue && pending[id] == seen.revision
      modifies this, queue
      ensures Valid() && consumers == old(consumers) && known == old(known) && pending == old(pending) - {id}
      ensures revision == old(revision) && snapshot == old(snapshot) && delivered == old(delivered)
      ensures queue.slot == Some(seen)
      ensures State() == H.RunFrom(old(State()), [H.LateSelect(id), H.LateSelect(id), H.LateSelect(id)])
    {
      hide Increasing, RoomOf, H.RunFrom;
      ghost var queues := Queues();
      OffersSeen(revision, queues, pending, consumers.Keys, id);
      var sent := queue.Offer(seen, false, None);
      pending := pending - {id};
      assert Queues() == queues[id := queues[id].(slot := Some(seen.revision))];
    }

    // Nothing in between: the consumer starts with the current snapshot.
    method Acquire(queue: SnapshotQueue) returns (id: nat)
      requires Valid() && queue !in known.Values && queue.slot.None? && queue.taken == []
      modifies this, queue
      ensures Valid() && id == old(nextId) && consumers == old(consumers)[id := queue]
      ensures revision == old(revision) && delivered == old(delivered) && snapshot == old(snapshot) && queue.slot == snapshot
    {
      var seen;
      id, seen := Register(queue);
      if seen.Some? { OfferSeen(id, queue, seen.value); }
    }

    method Release(id: nat)
      requires Valid() && id in known
      modifies this
      ensures Valid() && consumers == old(consumers) - {id}
      ensures revision == old(revision) && delivered == old(delivered) && snapshot == old(snapshot)
      ensures State() == H.After(old(State()), H.Release(id))
    {
      hide Increasing, RoomOf, H.After;
      ghost var queues := Queues();
      Releases(revision, queues, pending, consumers.Keys, id);
      consumers := consumers - {id};
      assert Queues() == queues;
      assert consumers.Keys == old(consumers.Keys) - {id};
    }

    // reconcile: a newer snapshot is installed and offered to every consumer;
    // anything else is dropped. `loaded` is what the loader returns.
    method Reconcile(minimum: nat, force: bool, loaded: Option<Snapshot>) returns (ghost steps: seq<H.Step>)
      requires Valid()
      modifies this, consumers.Values
      ensures Valid() && consumers == old(consumers) && known == old(known) && pending == old(pending)
      ensures State() == H.RunFrom(old(State()), steps)
      ensures var newer := (force || minimum > old(revision)) && loaded.Some? && loaded.value.revision > old(revision);
              && revision == (if newer then loaded.value.revision else old(revision))
              && delivered == (if newer then old(delivered) + [loaded.value.revision] else old(delivered))
              && snapshot == (if newer then loaded else old(snapshot))
              && (forall i | i in consumers :: consumers[i].slot == if newer then loaded else old(consumers[i].slot))
              && gaps == old(gaps) + (if newer && minimum > 0 && old(revision) > 0 && minimum > old(revision) + 1 then 1 else 0)
              && (if newer then steps != [] && steps[0] == H.Install(loaded.value.revision) else steps == [])
    {
      hide Valid, Queues, RoomOf, H.RunFrom, H.After;
      H.RunOfNone(State());
      steps := [];
      if !force && minimum <= revision { return; }
      if loaded.None? { return; }
      if loaded.value.revision <= revision { return; }
      ghost var before := State();
      InstallNewer(minimum, loaded.value);
      steps := [H.Install(revision)];
      var ids := consumers.Keys;
      while ids != {}
        modifies consumers.Values
        invariant ids <= consumers.Keys
        invariant forall i | i in consumers && i !in ids :: consumers[i].slot == loaded
        invariant During(ids) == H.RunFrom(before, steps) && steps != [] && steps[0] == H.Install(revision)
        decreases |ids|
      {
        var id :| id in ids;
        H.RunFurther(before, steps, [H.NewSelect(id), H.NewSelect(id), H.NewSelect(id)]);
        OfferNewest(id, ids);
        ids := ids - {id};
        steps := steps + [H.NewSelect(id), H.NewSelect(id), H.NewSelect(id)];
      }
    }

    // Under the lock: the newer snapshot becomes the room's own.
    method InstallNewer(minimum: nat, loaded: Snapshot)
      requires Valid() && loaded.revision > revision
      modifies `revision, `snapshot, `gaps, `delivered
      ensures Valid() && revision == loaded.revision && snapshot == Some(loaded) && delivered == old(delivered) + [revision]
      ensures gaps == old(gaps) + if minimum > 0 && old(revision) > 0 && minimum > old(revision) + 1 then 1 else 0
      ensures During(consumers.Keys) == H.RunFrom(old(State()), [H.Install(revision)])
    {
      hide RoomOf, Separate, H.RunFrom, H.After;
      ghost var queues := Queues();
      Installed(revision, queues, pending, consumers.Keys, loaded.revision);
      if minimum > 0 && revision > 0 && minimum > revision + 1 { gaps := gaps + 1; }
      revision := loaded.revision;
      snapshot := Some(loaded);
      IncreasingMore(delivered, revision);
      delivered := delivered + [revision];
      assert Queues() == queues;
    }

    // After the lock was released: one of the consumers is offered the snapshot.
    method OfferNewest(id: nat, ghost offering: set<nat>)
      requires Valid() && id in consumers && id in offering && snapshot.Some?
      modifies consumers[id]
      ensures consumers[id].slot == snapshot
      ensures forall i | i in consumers && i != id :: consumers[i].slot == old(consumers[i].slot)
      ensures During(offering - {id}) == H.RunFrom(old(During(offering)), [H.NewSelect(id), H.NewSelect(id), H.NewSelect(id)])
    {
      hide Increasing, RoomOf, H.RunFrom, H.After;
      ghost var queues := Queues();
      OffersNewest(revision, queues, pending, offering, consumers.Keys, id);
      var sent := consumers[id].Offer(snapshot.value, false, None);
      assert Queues() == queues[id := queues[id].(slot := Some(revision))];
    }

    // handleEvent: hints of other rooms are ignored; a reconnected subscription
    // reloads whatever the revision.
    method HandleEvent(hint: Option<Hint>, reconnected: bool, loaded: Option<Snapshot>) returns (ghost steps: seq<H.Step>)
      requires Valid()
      modifies this, consumers.Values
      ensures Valid() && consumers == old(consumers) && State() == H.RunFrom(old(State()), steps)
      ensures old(delivered) <= delivered && revision >= old(revision)
      ensures (hint.Some? && hint.value.roomId != roomId) ==> revision == old(revision) && delivered == old(delivered) && steps == []
      ensures (hint.None? || hint.value.roomId == roomId) && loaded.Some? && (reconnected || (hint.Some? && hint.value.revision > old(revision))) ==>
                revision >= loaded.value.revision
    {
      if hint.Some? && hint.value.roomId != roomId { return []; }
      steps := Reconcile(if hint.Some? then hint.value.revision else 0, reconnected, loaded);
    }
  }
}
