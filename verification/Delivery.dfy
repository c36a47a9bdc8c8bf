// From a committed revision to the browser: the hub's room, the one-slot queue
// of each consumer, and the client that filters revisions and detects gaps.
module Delivery {
  import opened Prelude
  import opened Frames

  ghost predicate Increasing(revisions: seq<int>) {
    forall i, j | 0 <= i < j < |revisions| :: revisions[i] < revisions[j]
  }

  lemma {:induction false} IncreasingMore(revisions: seq<int>, next: int)
    requires Increasing(revisions) && (revisions == [] || revisions[|revisions| - 1] < next)
    ensures Increasing(revisions + [next])
  {}

  // ---- The one-slot queue ----

  class SnapshotQueue {
    var slot: Option<Snapshot>
    var evictions: nat
    ghost var taken: seq<int>

    constructor ()
      ensures slot.None? && evictions == 0 && taken == []
    {
      slot, evictions, taken := None, 0, [];
    }

    ghost function Value(): Queue
      reads this
    {
      Queue(match slot case Some(s) => Some(s.revision) case None => None, taken)
    }

    // `read` says whether the reader empties the slot after the first attempt to
    // send, and `rival` what another sender puts there before the last one: then
    // this snapshot is given up, and else it is in the slot.
    method Offer(snapshot: Snapshot, read: bool, rival: Option<Snapshot>) returns (sent: bool)
      modifies this
      ensures sent <==> old(slot).None? || rival.None?
      ensures slot == if sent then Some(snapshot) else rival
      ensures taken == if old(slot).Some? && read then old(taken) + [old(slot).value.revision] else old(taken)
      ensures evictions == old(evictions) + if old(slot).Some? && !read then 1 else 0
    {
      if slot.None? {
        slot := Some(snapshot);
        return true;
      }
      if read {
        taken := taken + [slot.value.revision];
        slot := None;
      }
      if slot.Some? {
        slot := None;
        evictions := evictions + 1;
      }
      if rival.Some? { slot := rival; }
      if slot.None? {
        slot := Some(snapshot);
        return true;
      }
      return false;
    }

    method Receive() returns (received: Option<Snapshot>)
      modifies this
      ensures received == old(slot) && evictions == old(evictions)
      ensures Value() == AfterEvent(old(Value()), Taken)
    {
      received := slot;
      if slot.Some? { taken := taken + [slot.value.revision]; }
      slot := None;
    }
  }

  // What happens to one queue.
  datatype QueueEvent = Offered(revision: int) | Taken

  datatype Queue = Queue(slot: Option<int>, taken: seq<int>)

  function AfterEvent(q: Queue, e: QueueEvent): Queue {
    match e
    case Offered(revision) => q.(slot := Some(revision))
    case Taken => if q.slot.Some? then Queue(None, q.taken + [q.slot.value]) else q
  }

  function RunQueue(q: Queue, events: seq<QueueEvent>): Queue {
    if events == [] then q else AfterEvent(RunQueue(q, events[..|events| - 1]), events[|events| - 1])
  }

  function Offers(events: seq<QueueEvent>): seq<int> {
    if events == [] then []
    else Offers(events[..|events| - 1]) + (match events[|events| - 1] case Offered(r) => [r] case Taken => [])
  }

  // What the reader has, or will have.
  function Reached(q: Queue): seq<int> {
    q.taken + match q.slot case Some(r) => [r] case None => []
  }

  // The reader sees increasing revisions that were offered, up to the last one.
  ghost predicate Latest(q: Queue, offers: seq<int>) {
    var reached := Reached(q);
    && Increasing(reached)
    && (reached == [] <==> offers == [])
    && (offers != [] ==> reached[|reached| - 1] == offers[|offers| - 1])
    && forall r | r in reached :: r in offers
  }

  lemma {:induction false} OfferKeepsLatest(q: Queue, offers: seq<int>, r: int)
    requires Latest(q, offers) && Increasing(offers + [r])
    ensures Latest(AfterEvent(q, Offered(r)), offers + [r])
  {
    var all := offers + [r];
    forall x | x in offers ensures x < r {
      var i :| 0 <= i < |offers| && offers[i] == x;
      assert all[i] < all[|offers|];
    }
    assert Reached(q)[..|q.taken|] == q.taken;
    IncreasingPrefix(Reached(q), |q.taken|);
    forall x | x in q.taken ensures x in Reached(q) {}
    if q.taken != [] { assert q.taken[|q.taken| - 1] in q.taken; }
    IncreasingMore(q.taken, r);
  }

  lemma {:induction false} TakeKeepsLatest(q: Queue, offers: seq<int>)
    requires Latest(q, offers)
    ensures Latest(AfterEvent(q, Taken), offers)
  {
    if q.slot.Some? { assert Reached(AfterEvent(q, Taken)) == Reached(q); }
  }

  // When offers come in revision order, the latest one is never lost and the
  // reader sees strictly increasing revisions, each of which was offered.
  lemma {:induction false} LatestOfferSurvives(events: seq<QueueEvent>)
    requires Increasing(Offers(events))
    ensures Latest(RunQueue(Queue(None, []), events), Offers(events))
  {
    hide Latest, AfterEvent;
    if events == [] {
      NothingOffered();
    } else {
      var shorter, last := events[..|events| - 1], events[|events| - 1];
      IncreasingPrefix(Offers(events), |Offers(shorter)|);
      assert Offers(events)[..|Offers(shorter)|] == Offers(shorter);
      LatestOfferSurvives(shorter);
      var q := RunQueue(Queue(None, []), shorter);
      if last.Offered? {
        OfferKeepsLatest(q, Offers(shorter), last.revision);
      } else {
        assert Offers(events) == Offers(shorter);
        TakeKeepsLatest(q, Offers(shorter));
      }
    }
  }

  lemma {:induction false} NothingOffered()
    ensures Latest(Queue(None, []), [])
  {}

  lemma {:induction false} IncreasingPrefix(revisions: seq<int>, n: nat)
    requires Increasing(revisions) && n <= |revisions|
    ensures Increasing(revisions[..n])
  {}
}
