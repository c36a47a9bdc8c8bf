// Runs of the hub's room. Consumers join, snapshots are installed, and every
// offer is made of three separate selects, so the offer that a joining consumer
// makes for itself, the offers of a reconciliation and the readers interleave.
module HubRuns {
  import opened Prelude
  import opened Delivery
  import opened Client

  // An offer in progress: the select that comes next, and what it offers.
  datatype Sender = Idle | First(revision: int) | Second(revision: int) | Third(revision: int)

  // One consumer's queue and its two possible senders: its own late offer of
  // the snapshot it saw when it registered, and the reconciliation's.
  datatype Consumer = Consumer(queue: Queue, late: Sender, newest: Sender, registered: bool)

  datatype Room = Room(revision: nat, consumers: map<nat, Consumer>)

  const Opened := Room(0, map[])

  datatype Step =
    | Register(id: nat)
    | Install(revision: nat)
    | LateSelect(id: nat)
    | NewSelect(id: nat)
    | Take(id: nat)
    | Release(id: nat)

  // The sender and the slot after the next select of an offer: send if there is
  // room, else take out what is there, else send or give up.
  function Select(sender: Sender, slot: Option<int>): (Sender, Option<int>) {
    match sender
    case Idle => (Idle, slot)
    case First(r) => if slot.None? then (Idle, Some(r)) else (Second(r), slot)
    case Second(r) => (Third(r), None)
    case Third(r) => if slot.None? then (Idle, Some(r)) else (Idle, slot)
  }

  function Selected(c: Consumer, late: bool): Consumer {
    var (sender, slot) := Select(if late then c.late else c.newest, c.queue.slot);
    if late then c.(late := sender, queue := c.queue.(slot := slot)) else c.(newest := sender, queue := c.queue.(slot := slot))
  }

  // Reconciliations of one room exclude each other until every consumer was offered
  // the snapshot; what is not newer is dropped.
  ghost predicate Installs(h: Room, revision: nat) {
    revision > h.revision && forall i | i in h.consumers :: h.consumers[i].newest.Idle?
  }

  function Joined(revision: nat): Consumer {
    Consumer(Queue(None, []), if revision > 0 then First(revision) else Idle, Idle, true)
  }

  // A step that cannot happen changes nothing.
  ghost function After(h: Room, step: Step): Room {
    match step
    case Register(id) => if id in h.consumers then h else h.(consumers := h.consumers[id := Joined(h.revision)])
    case Install(revision) =>
      if !Installs(h, revision) then h
      else Room(revision, map i | i in h.consumers ::
                  if h.consumers[i].registered then h.consumers[i].(newest := First(revision)) else h.consumers[i])
    case LateSelect(id) => if id in h.consumers then h.(consumers := h.consumers[id := Selected(h.consumers[id], true)]) else h
    case NewSelect(id) => if id in h.consumers then h.(consumers := h.consumers[id := Selected(h.consumers[id], false)]) else h
    case Take(id) =>
      if id in h.consumers then h.(consumers := h.consumers[id := h.consumers[id].(queue := AfterEvent(h.consumers[id].queue, Taken))]) else h
    case Release(id) => if id in h.consumers then h.(consumers := h.consumers[id := h.consumers[id].(registered := false)]) else h
  }

  ghost function RunFrom(h: Room, steps: seq<Step>): Room {
    if steps == [] then h else After(RunFrom(h, steps[..|steps| - 1]), steps[|steps| - 1])
  }

  // What may happen to a room since it was opened.
  ghost function Run(steps: seq<Step>): Room {
    RunFrom(Opened, steps)
  }

  lemma {:induction false} RunThen(h: Room, steps: seq<Step>, step: Step)
    ensures RunFrom(h, steps + [step]) == After(RunFrom(h, steps), step)
  {
    assert (steps + [step])[..|steps|] == steps;
  }

  lemma {:induction false} RunOfNone(h: Room)
    ensures RunFrom(h, []) == h
  {}

  lemma {:induction false} RunOfOne(h: Room, step: Step)
    ensures RunFrom(h, [step]) == After(h, step)
  {
    RunThen(h, [], step);
    assert [] + [step] == [step];
  }

  lemma {:induction false} RunFurther(h: Room, steps: seq<Step>, more: seq<Step>)
    ensures RunFrom(h, steps + more) == RunFrom(RunFrom(h, steps), more)
  {
    hide After;
    if more == [] {
      assert steps + more == steps;
    } else {
      var shorter := more[..|more| - 1];
      RunFurther(h, steps, shorter);
      assert steps + more == (steps + shorter) + [more[|more| - 1]];
      RunThen(h, steps + shorter, more[|more| - 1]);
    }
  }

  // ---- What can go wrong ----

  // A late offer goes through although a newer snapshot was offered before.
  predicate SendsStale(r: nat, c: Consumer) {
    (c.late.First? || c.late.Third?) && c.queue.slot.None? && c.late.revision < r && c.newest.Idle?
  }

  // The newest snapshot is given up, since the slot was filled again meanwhile.
  predicate GivesUp(c: Consumer) {
    c.newest.Third? && c.queue.slot.Some?
  }

  // A late offer takes the newest snapshot out before it was read.
  predicate TakesNewest(r: nat, c: Consumer) {
    c.late.Second? && c.queue.slot == Some(r)
  }

  ghost predicate StaleSend(h: Room, step: Step, id: nat) {
    step == LateSelect(id) && id in h.consumers && SendsStale(h.revision, h.consumers[id])
  }

  ghost predicate GivenUp(h: Room, step: Step, id: nat) {
    step == NewSelect(id) && id in h.consumers && GivesUp(h.consumers[id])
  }

  ghost predicate TakenOut(h: Room, step: Step, id: nat) {
    step == LateSelect(id) && id in h.consumers && TakesNewest(h.revision, h.consumers[id])
  }

  ghost predicate Fresh(h: Room, step: Step) {
    step.Install? && Installs(h, step.revision)
  }

  // Since the newest snapshot was installed, a stale one was sent after it or it was given up.
  ghost predicate Overtaken(steps: seq<Step>, id: nat) {
    steps != [] &&
    var h, step := Run(steps[..|steps| - 1]), steps[|steps| - 1];
    !Fresh(h, step) && (StaleSend(h, step, id) || GivenUp(h, step, id) || Overtaken(steps[..|steps| - 1], id))
  }

  // Since the newest snapshot was installed, it was taken out unread or given up.
  ghost predicate Missed(steps: seq<Step>, id: nat) {
    steps != [] &&
    var h, step := Run(steps[..|steps| - 1]), steps[|steps| - 1];
    !Fresh(h, step) && (TakenOut(h, step, id) || GivenUp(h, step, id) || Missed(steps[..|steps| - 1], id))
  }

  predicate Quiet(c: Consumer) {
    c.late.Idle? && c.newest.Idle?
  }

  predicate EndsOn(q: Queue, revision: int) {
    var reached := Reached(q); reached != [] && reached[|reached| - 1] == revision
  }

  // What holds of a registered consumer of a room at revision `r`, during any offers.
  ghost predicate Sound(r: nat, c: Consumer, overtaken: bool, missed: bool) {
    var reached := Reached(c.queue);
    && (forall x | x in reached :: x <= r)
    && (!c.late.Idle? ==> c.late.revision <= r && !overtaken)
    && (!c.newest.Idle? ==>
          && c.newest.revision == r && !overtaken && !missed
          && (forall x | x in reached :: x < r) && (!c.late.Idle? ==> c.late.revision < r))
    && (c.newest.Third? && !c.late.Idle? ==> c.queue.slot.None?)
    && (c.queue.slot == Some(r) ==> r !in c.queue.taken)
    && (Quiet(c) && r > 0 ==> (EndsOn(c.queue, r) <==> !overtaken) && (r in reached <==> !missed))
    && (c.newest.Idle? && !c.late.Idle? ==>
          if c.late.revision == r then c.late.First? && reached == [] && !missed
          else (r in reached <==> !missed) && ((c.late.Third? && c.queue.slot.None?) || EndsOn(c.queue, r)))
  }

  lemma {:induction false} LateKeepsSound(r: nat, c: Consumer, overtaken: bool, missed: bool)
    requires Sound(r, c, overtaken, missed)
    ensures Sound(r, Selected(c, true), SendsStale(r, c) || overtaken, TakesNewest(r, c) || missed)
  {
    SlotIsReached(c.queue);
    SlotIsReached(Selected(c, true).queue);
    SelectedReaches(c, true);
  }

  lemma {:induction false} NewKeepsSound(r: nat, c: Consumer, overtaken: bool, missed: bool)
    requires Sound(r, c, overtaken, missed)
    ensures Sound(r, Selected(c, false), GivesUp(c) || overtaken, GivesUp(c) || missed)
  {
    SlotIsReached(c.queue);
    SlotIsReached(Selected(c, false).queue);
    SelectedReaches(c, false);
  }

  lemma {:induction false} TakeKeepsSound(r: nat, c: Consumer, overtaken: bool, missed: bool)
    requires Sound(r, c, overtaken, missed)
    ensures Sound(r, c.(queue := AfterEvent(c.queue, Taken)), overtaken, missed)
  {
    SlotIsReached(c.queue);
    if c.queue.slot.Some? { assert Reached(AfterEvent(c.queue, Taken)) == Reached(c.queue); }
  }

  lemma {:induction false} InstallKeepsSound(r: nat, c: Consumer, overtaken: bool, missed: bool, revision: nat)
    requires Sound(r, c, overtaken, missed) && c.newest.Idle? && revision > r
    ensures Sound(revision, c.(newest := First(revision)), false, false)
  {
    SlotIsReached(c.queue);
  }

  lemma {:induction false} SlotIsReached(q: Queue)
    ensures q.slot.Some? ==> EndsOn(q, q.slot.value) && q.slot.value in Reached(q)
    ensures forall x :: x in Reached(q) <==> x in q.taken || q.slot == Some(x)
  {}

  // A select changes what is reached only by one sent or taken out at the end.
  lemma {:induction false} SelectedReaches(c: Consumer, late: bool)
    ensures var d := Selected(c, late);
            && d.queue.taken == c.queue.taken
            && (d.queue.slot == c.queue.slot ==> d.queue == c.queue)
  {}

  lemma {:induction false} StepKeepsSound(h: Room, step: Step, id: nat, overtaken: bool, missed: bool)
    requires id in h.consumers && h.consumers[id].registered && Sound(h.revision, h.consumers[id], overtaken, missed)
    requires id in After(h, step).consumers && After(h, step).consumers[id].registered
    ensures Sound(After(h, step).revision, After(h, step).consumers[id],
                  !Fresh(h, step) && (StaleSend(h, step, id) || GivenUp(h, step, id) || overtaken),
                  !Fresh(h, step) && (TakenOut(h, step, id) || GivenUp(h, step, id) || missed))
  {
    hide Sound, Selected, AfterEvent, SendsStale, GivesUp, TakesNewest;
    var c := h.consumers[id];
    match step {
      case LateSelect(i) => if i == id { LateKeepsSound(h.revision, c, overtaken, missed); }
      case NewSelect(i) => if i == id { NewKeepsSound(h.revision, c, overtaken, missed); }
      case Take(i) => if i == id { TakeKeepsSound(h.revision, c, overtaken, missed); }
      case Install(revision) => if Installs(h, revision) { InstallKeepsSound(h.revision, c, overtaken, missed, revision); }
      case _ =>
    }
  }

  lemma {:induction false} NobodyRegistersAgain(h: Room, step: Step, id: nat)
    requires id in h.consumers
    ensures id in After(h, step).consumers && (After(h, step).consumers[id].registered ==> h.consumers[id].registered)
  {}

  lemma {:induction false} NothingBeforeJoining(steps: seq<Step>, id: nat)
    requires id !in Run(steps).consumers
    ensures !Overtaken(steps, id) && !Missed(steps, id)
  {
    if steps != [] { NothingBeforeJoining(steps[..|steps| - 1], id); }
  }

  lemma {:induction false} JoinedIsSound(h: Room, step: Step, id: nat)
    requires id !in h.consumers && id in After(h, step).consumers
    ensures Sound(After(h, step).revision, After(h, step).consumers[id], false, false)
    ensures !Fresh(h, step) && !StaleSend(h, step, id) && !GivenUp(h, step, id) && !TakenOut(h, step, id)
  {}

  lemma {:induction false} RunIsSound(steps: seq<Step>, id: nat)
    requires id in Run(steps).consumers && Run(steps).consumers[id].registered
    ensures Sound(Run(steps).revision, Run(steps).consumers[id], Overtaken(steps, id), Missed(steps, id))
  {
    hide Sound, After, StaleSend, GivenUp, TakenOut;
    var shorter, step := steps[..|steps| - 1], steps[|steps| - 1];
    var h := Run(shorter);
    if id in h.consumers {
      NobodyRegistersAgain(h, step, id);
      RunIsSound(shorter, id);
      StepKeepsSound(h, step, id, Overtaken(shorter, id), Missed(shorter, id));
    } else {
      NothingBeforeJoining(shorter, id);
      JoinedIsSound(h, step, id);
    }
  }

  // Once no offer to it is under way, a consumer ends on the room's revision if
  // and only if, since that was installed, no older snapshot was sent to it
  // after it and its own offer was not given up; and it has that revision,
  // read or waiting, if and only if it was not taken out unread or given up.
  lemma {:induction false} ConsumerEndsOnNewest(steps: seq<Step>, id: nat)
    requires id in Run(steps).consumers && Run(steps).consumers[id].registered
    requires Quiet(Run(steps).consumers[id]) && Run(steps).revision > 0
    ensures EndsOn(Run(steps).consumers[id].queue, Run(steps).revision) <==> !Overtaken(steps, id)
    ensures Run(steps).revision in Reached(Run(steps).consumers[id].queue) <==> !Missed(steps, id)
  {
    hide Overtaken, Missed, Run;
    RunIsSound(steps, id);
  }

  // ---- Offers that do not overlap ----

  // Neither offer to the consumer takes a select while the other is under way.
  ghost predicate Apart(steps: seq<Step>, id: nat) {
    steps != [] ==>
      var h, step := Run(steps[..|steps| - 1]), steps[|steps| - 1];
      && Apart(steps[..|steps| - 1], id)
      && (id in h.consumers ==>
            var c := h.consumers[id];
            && (step == LateSelect(id) && !c.late.Idle? ==> c.newest.Idle? || c.newest.First?)
            && (step == NewSelect(id) && !c.newest.Idle? ==> c.late.Idle? || c.late.First?))
  }

  // The late offer begins after the newest snapshot, newer than its own, was offered.
  ghost predicate BeginsLate(h: Room, step: Step, id: nat) {
    && step == LateSelect(id) && id in h.consumers
    && h.consumers[id].late.First? && h.consumers[id].newest.Idle? && h.consumers[id].late.revision < h.revision
  }

  ghost predicate BeganLate(steps: seq<Step>, id: nat) {
    steps != [] &&
    var h, step := Run(steps[..|steps| - 1]), steps[|steps| - 1];
    !Fresh(h, step) && (BeginsLate(h, step, id) || BeganLate(steps[..|steps| - 1], id))
  }

  ghost predicate Ordered(r: nat, c: Consumer, overtaken: bool, began: bool) {
    && (c.newest.Third? || c.late.Third? ==> c.queue.slot.None?)
    && ((c.newest.Second? || c.newest.Third?) ==> c.late.Idle? || c.late.First?)
    && (overtaken <==> began && c.late.Idle?)
    && (began && !c.late.Idle? ==> c.newest.Idle? && !c.late.First? && c.late.revision < r)
    && ((c.late.Second? || c.late.Third?) && c.newest.Idle? ==> began)
  }

  lemma {:induction false} StepKeepsOrdered(h: Room, step: Step, id: nat, overtaken: bool, missed: bool, began: bool)
    requires id in h.consumers && h.consumers[id].registered && Ordered(h.revision, h.consumers[id], overtaken, began)
    requires Sound(h.revision, h.consumers[id], overtaken, missed)
    requires id in After(h, step).consumers && After(h, step).consumers[id].registered
    requires var c := h.consumers[id];
             && (step == LateSelect(id) && !c.late.Idle? ==> c.newest.Idle? || c.newest.First?)
             && (step == NewSelect(id) && !c.newest.Idle? ==> c.late.Idle? || c.late.First?)
    ensures Ordered(After(h, step).revision, After(h, step).consumers[id],
                    !Fresh(h, step) && (StaleSend(h, step, id) || GivenUp(h, step, id) || overtaken),
                    !Fresh(h, step) && (BeginsLate(h, step, id) || began))
  {
    SlotIsReached(h.consumers[id].queue);
  }

  lemma {:induction false} NoOfferBeforeJoining(steps: seq<Step>, id: nat)
    requires id !in Run(steps).consumers
    ensures !BeganLate(steps, id)
  {
    if steps != [] { NoOfferBeforeJoining(steps[..|steps| - 1], id); }
  }

  lemma {:induction false} ApartRunIsOrdered(steps: seq<Step>, id: nat)
    requires id in Run(steps).consumers && Run(steps).consumers[id].registered && Apart(steps, id)
    ensures Ordered(Run(steps).revision, Run(steps).consumers[id], Overtaken(steps, id), BeganLate(steps, id))
  {
    hide Sound, After, StaleSend, GivenUp, TakenOut, BeginsLate, Ordered;
    var shorter, step := steps[..|steps| - 1], steps[|steps| - 1];
    var h := Run(shorter);
    if id in h.consumers {
      NobodyRegistersAgain(h, step, id);
      RunIsSound(shorter, id);
      ApartRunIsOrdered(shorter, id);
      StepKeepsOrdered(h, step, id, Overtaken(shorter, id), Missed(shorter, id), BeganLate(shorter, id));
    } else {
      NothingBeforeJoining(shorter, id);
      NoOfferBeforeJoining(shorter, id);
      JoinedIsOrdered(h, step, id);
    }
  }

  lemma {:induction false} JoinedIsOrdered(h: Room, step: Step, id: nat)
    requires id !in h.consumers && id in After(h, step).consumers
    ensures Ordered(After(h, step).revision, After(h, step).consumers[id], false, false)
    ensures !Fresh(h, step) && !StaleSend(h, step, id) && !GivenUp(h, step, id) && !BeginsLate(h, step, id)
  {}

  // When the offers to a consumer do not overlap, their order decides: it ends
  // on the room's revision if and only if its own late offer did not begin
  // after that newer snapshot was offered to it.
  lemma {:induction false} ApartOffersDecideByOrder(steps: seq<Step>, id: nat)
    requires id in Run(steps).consumers && Run(steps).consumers[id].registered && Apart(steps, id)
    requires Quiet(Run(steps).consumers[id]) && Run(steps).revision > 0
    ensures EndsOn(Run(steps).consumers[id].queue, Run(steps).revision) <==> !BeganLate(steps, id)
  {
    hide Overtaken, Missed, Run, BeganLate, Apart;
    ConsumerEndsOnNewest(steps, id);
    ApartRunIsOrdered(steps, id);
  }

  // ---- Prompt consumers ----

  // No snapshot is installed while the consumer's own late offer is pending.
  ghost predicate Prompt(steps: seq<Step>, id: nat) {
    steps != [] ==>
      var h, step := Run(steps[..|steps| - 1]), steps[|steps| - 1];
      && Prompt(steps[..|steps| - 1], id)
      && (Fresh(h, step) && id in h.consumers ==> h.consumers[id].late.Idle?)
  }

  // What is offered to the consumer, in the order the offers begin.
  ghost function OfferedTo(steps: seq<Step>, id: nat): seq<int> {
    if steps == [] then [] else
      var h, step := Run(steps[..|steps| - 1]), steps[|steps| - 1];
      var before := OfferedTo(steps[..|steps| - 1], id);
      if step == Register(id) && id !in h.consumers && h.revision > 0 then before + [h.revision]
      else if Fresh(h, step) && id in h.consumers && h.consumers[id].registered then before + [step.revision]
      else before
  }

  // One offer at a time, and what was reached before is older than it.
  ghost predicate InTurn(r: nat, c: Consumer, offers: seq<int>) {
    && Increasing(offers)
    && (if r > 0 then offers != [] && offers[|offers| - 1] == r else offers == [])
    && (c.late.Idle? || c.newest.Idle?)
    && (Quiet(c) ==> Latest(c.queue, offers))
    && (!Quiet(c) ==>
          var sender := if c.late.Idle? then c.newest else c.late;
          && offers != [] && sender.revision == offers[|offers| - 1]
          && Increasing(Reached(c.queue)) && (forall x | x in Reached(c.queue) :: x in offers && x < sender.revision)
          && (sender.Third? ==> c.queue.slot.None?))
  }

  lemma {:induction false} SentKeepsLatest(q: Queue, offers: seq<int>)
    requires q.slot.None? && offers != [] && Increasing(offers) && Increasing(Reached(q))
    requires forall x | x in Reached(q) :: x in offers && x < offers[|offers| - 1]
    ensures Latest(q.(slot := Some(offers[|offers| - 1])), offers)
  {
    var last := offers[|offers| - 1];
    assert Reached(q) == q.taken;
    if q.taken != [] { assert q.taken[|q.taken| - 1] in q.taken; }
    IncreasingMore(q.taken, last);
  }

  lemma {:induction false} SelectKeepsInTurn(r: nat, c: Consumer, offers: seq<int>, late: bool)
    requires InTurn(r, c, offers)
    ensures InTurn(r, Selected(c, late), offers)
  {
    hide Latest;
    var sender, q := if late then c.late else c.newest, c.queue;
    if !sender.Idle? {
      SlotIsReached(q);
      assert q.slot.None? ==> Reached(q) == q.taken;
      assert Reached(q)[..|q.taken|] == q.taken;
      IncreasingPrefix(Reached(q), |q.taken|);
      assert Reached(q.(slot := None)) == q.taken;
      if q.slot.None? { SentKeepsLatest(q, offers); }
    }
  }

  lemma {:induction false} TakeKeepsInTurn(r: nat, c: Consumer, offers: seq<int>)
    requires InTurn(r, c, offers)
    ensures InTurn(r, c.(queue := AfterEvent(c.queue, Taken)), offers)
  {
    TakeKeepsLatestReached(c.queue);
  }

  lemma {:induction false} TakeKeepsLatestReached(q: Queue)
    ensures Reached(AfterEvent(q, Taken)) == Reached(q)
  {}

  lemma {:induction false} InstallKeepsInTurn(r: nat, c: Consumer, offers: seq<int>, revision: nat)
    requires InTurn(r, c, offers) && Quiet(c) && revision > r
    ensures InTurn(revision, c.(newest := First(revision)), offers + [revision])
  {
    var more := offers + [revision];
    IncreasingMore(offers, revision);
    forall x | x in offers ensures x in more && x < revision {
      var i :| 0 <= i < |offers| && offers[i] == x;
      assert more[i] == x;
    }
  }

  lemma {:induction false} PromptRunIsInTurn(steps: seq<Step>, id: nat)
    requires id in Run(steps).consumers && Run(steps).consumers[id].registered && Prompt(steps, id)
    ensures InTurn(Run(steps).revision, Run(steps).consumers[id], OfferedTo(steps, id))
  {
    hide InTurn, Selected, AfterEvent;
    var shorter, step := steps[..|steps| - 1], steps[|steps| - 1];
    var h := Run(shorter);
    if id in h.consumers {
      NobodyRegistersAgain(h, step, id);
      PromptRunIsInTurn(shorter, id);
      var r, c, offers := h.revision, h.consumers[id], OfferedTo(shorter, id);
      match step {
        case LateSelect(i) => if i == id { SelectKeepsInTurn(r, c, offers, true); }
        case NewSelect(i) => if i == id { SelectKeepsInTurn(r, c, offers, false); }
        case Take(i) => if i == id { TakeKeepsInTurn(r, c, offers); }
        case Install(revision) => if Installs(h, revision) { InstallKeepsInTurn(r, c, offers, revision); }
        case _ =>
      }
    } else {
      NothingOfferedBefore(shorter, id);
      JoinedIsInTurn(h.revision);
    }
  }

  lemma {:induction false} NothingOfferedBefore(steps: seq<Step>, id: nat)
    requires id !in Run(steps).consumers
    ensures OfferedTo(steps, id) == []
  {
    if steps != [] { NothingOfferedBefore(steps[..|steps| - 1], id); }
  }

  lemma {:induction false} JoinedIsInTurn(r: nat)
    ensures InTurn(r, Joined(r), if r > 0 then [] + [r as int] else [])
  {}

  // A consumer whose own offer is done before anything newer is installed
  // reaches strictly increasing revisions, up to the room's.
  lemma {:induction false} PromptConsumerKeepsUp(steps: seq<Step>, id: nat)
    requires id in Run(steps).consumers && Run(steps).consumers[id].registered && Prompt(steps, id)
    ensures Increasing(OfferedTo(steps, id)) && Increasing(Reached(Run(steps).consumers[id].queue))
    ensures Quiet(Run(steps).consumers[id]) ==> Latest(Run(steps).consumers[id].queue, OfferedTo(steps, id))
    ensures Quiet(Run(steps).consumers[id]) && Run(steps).revision > 0 ==> EndsOn(Run(steps).consumers[id].queue, Run(steps).revision)
  {
    hide Prompt, OfferedTo, Run;
    PromptRunIsInTurn(steps, id);
  }

  // ---- Offers nobody disturbs ----

  // The consumer once the offer got through.
  function Sent(c: Consumer, late: bool): Consumer {
    var sender := if late then c.late else c.newest;
    if sender.Idle? then c
    else if late then c.(late := Idle, queue := c.queue.(slot := Some(sender.revision)))
    else c.(newest := Idle, queue := c.queue.(slot := Some(sender.revision)))
  }

  lemma {:induction false} SelectsAlone(h: Room, id: nat, late: bool)
    requires id in h.consumers && (var sender := if late then h.consumers[id].late else h.consumers[id].newest; sender.First?)
    ensures var select := if late then LateSelect(id) else NewSelect(id);
            RunFrom(h, [select, select, select]) == h.(consumers := h.consumers[id := Sent(h.consumers[id], late)])
  {
    var select := if late then LateSelect(id) else NewSelect(id);
    RunOfThree(h, select, select, select);
    var c := h.consumers[id];
    var d := Selected(Selected(Selected(c, late), late), late);
    assert d == Sent(c, late);
    assert After(After(After(h, select), select), select) == h.(consumers := h.consumers[id := d]);
  }

  // ---- Two real runs ----

  lemma {:induction false} RunOfThree(h: Room, a: Step, b: Step, c: Step)
    ensures RunFrom(h, [a, b, c]) == After(After(After(h, a), b), c)
  {
    hide After;
    RunThen(h, [], a);
    RunThen(h, [a], b);
    RunThen(h, [a, b], c);
    assert [] + [a] == [a] && [a] + [b] == [a, b] && [a, b] + [c] == [a, b, c];
  }

  // Consumer 1 joins at revision 1. Revision 2 is installed and offered to it,
  // and only then does it offer itself what it saw: it is left with revision 1.
  const Opening := [Register(0), Install(1), NewSelect(0)]
  const Overlapping := [Register(1), Install(2), NewSelect(1)]
  const LateOffer := [LateSelect(1), LateSelect(1), LateSelect(1)]

  lemma {:induction false} OpenedRoom()
    ensures Run(Opening) == Room(1, map[0 := Consumer(Queue(Some(1), []), Idle, Idle, true)])
    ensures RunFrom(Run(Opening), Overlapping) == Room(2, map[0 := Consumer(Queue(Some(1), []), Idle, First(2), true),
                                                              1 := Consumer(Queue(Some(2), []), First(1), Idle, true)])
  {
    RunOfThree(Opened, Register(0), Install(1), NewSelect(0));
    RunOfThree(Run(Opening), Register(1), Install(2), NewSelect(1));
  }

  lemma {:induction false} LateOfferEvictsNewer()
    ensures var steps := Opening + Overlapping + LateOffer;
            var h := Run(steps);
            && h.revision == 2 && 1 in h.consumers && h.consumers[1] == Consumer(Queue(Some(1), []), Idle, Idle, true)
            && Overtaken(steps, 1) && Missed(steps, 1)
  {
    var steps := Opening + Overlapping + LateOffer;
    OpenedRoom();
    RunFurther(Opened, Opening, Overlapping);
    RunFurther(Opened, Opening + Overlapping, LateOffer);
    RunOfThree(Run(Opening + Overlapping), LateSelect(1), LateSelect(1), LateSelect(1));
    ConsumerEndsOnNewest(steps, 1);
  }

  // A snapshot that is installed before the late offer need not be lost: if the
  // late offer is made before the newest one, the consumer ends on the newest.
  const LateOfferFirst := [Register(1), Install(2), LateSelect(1)]
  const NewOfferSecond := [NewSelect(1), NewSelect(1), NewSelect(1)]

  lemma {:induction false} LateOfferCanBeHarmless()
    ensures var steps := Opening + LateOfferFirst + NewOfferSecond;
            var h := Run(steps);
            && h.revision == 2 && 1 in h.consumers && h.consumers[1] == Consumer(Queue(Some(2), []), Idle, Idle, true)
            && !Overtaken(steps, 1) && !Missed(steps, 1)
  {
    hide Run, RunFrom, Overtaken, Missed;
    var steps := Opening + LateOfferFirst + NewOfferSecond;
    OpenedRoom();
    Continued(Opening, LateOfferFirst);
    RunOfThree(Run(Opening), Register(1), Install(2), LateSelect(1));
    Continued(Opening + LateOfferFirst, NewOfferSecond);
    RunOfThree(Run(Opening + LateOfferFirst), NewSelect(1), NewSelect(1), NewSelect(1));
    ConsumerEndsOnNewest(steps, 1);
  }

  // Consumer 1 still holds back what it saw when revision 3 is offered; it sends
  // it between the second and the third select of that offer, which gives up.
  const Emptied := [NewSelect(0), NewSelect(0), NewSelect(0)]
  const Newer := [Install(3), NewSelect(1), NewSelect(1)]
  const Crossing := [LateSelect(1), NewSelect(1), Take(1)]

  lemma {:induction false} EmptiedRoom()
    ensures Run(Opening + Overlapping + Emptied) == Room(2, map[0 := Consumer(Queue(Some(2), []), Idle, Idle, true),
                                                                1 := Consumer(Queue(Some(2), []), First(1), Idle, true)])
  {
    hide Run, RunFrom;
    OpenedRoom();
    Continued(Opening, Overlapping);
    Continued(Opening + Overlapping, Emptied);
    RunOfThree(Run(Opening + Overlapping), NewSelect(0), NewSelect(0), NewSelect(0));
  }

  lemma {:induction false} NewerRoom()
    ensures Run(Opening + Overlapping + Emptied + Newer) == Room(3, map[0 := Consumer(Queue(Some(2), []), Idle, First(3), true),
                                                                        1 := Consumer(Queue(None, []), First(1), Third(3), true)])
  {
    hide Run, RunFrom;
    EmptiedRoom();
    Continued(Opening + Overlapping + Emptied, Newer);
    RunOfThree(Run(Opening + Overlapping + Emptied), Install(3), NewSelect(1), NewSelect(1));
  }

  lemma {:induction false} OfferIsGivenUp()
    ensures var steps := Opening + Overlapping + Emptied + Newer + Crossing;
            var h := Run(steps);
            && h.revision == 3 && 1 in h.consumers && h.consumers[1] == Consumer(Queue(None, [1]), Idle, Idle, true)
            && Overtaken(steps, 1) && Missed(steps, 1)
  {
    hide Run, Overtaken, Missed;
    var before := Opening + Overlapping + Emptied + Newer;
    NewerRoom();
    Continued(before, Crossing);
    RunOfThree(Run(before), LateSelect(1), NewSelect(1), Take(1));
    ConsumerEndsOnNewest(before + Crossing, 1);
  }

  lemma {:induction false} Continued(steps: seq<Step>, more: seq<Step>)
    ensures Run(steps + more) == RunFrom(Run(steps), more)
  {
    RunFurther(Opened, steps, more);
  }

  // ---- The client behind a consumer ----

  // The client that receives everything a quiet consumer was sent ends on the
  // room's revision, is reconnecting, or was stopped, if that revision was not
  // missed; and only then, unless it had that revision before.
  method ReceiveAllOfConsumer(client: RoomConnection, ghost steps: seq<Step>, id: nat, frames: seq<Message>)
    requires client.Valid() && id in Run(steps).consumers && Run(steps).consumers[id].registered
    requires Quiet(Run(steps).consumers[id]) && Run(steps).revision > 0
    requires var reached := Reached(Run(steps).consumers[id].queue);
             |frames| == |reached| && forall i | 0 <= i < |frames| :: Mappable(frames[i]) && frames[i].revision == reached[i]
    requires client.lastRevision < Run(steps).revision
    modifies client
    ensures client.Valid()
    ensures !Missed(steps, id) ==> client.lastRevision == Run(steps).revision || client.retryDelay.Some? || client.stopped
    ensures Missed(steps, id) ==> client.lastRevision < Run(steps).revision
  {
    hide Run, Missed, Overtaken;
    ConsumerEndsOnNewest(steps, id);
    RunIsSound(steps, id);
    ghost var reached, r := Reached(Run(steps).consumers[id].queue), Run(steps).revision;
    assert forall i | 0 <= i < |frames| :: frames[i] in frames && reached[i] in reached;
    ReceiveAll(client, frames);
    assert forall m | m in frames :: m.revision in reached;
    if !Missed(steps, id) {
      var i :| 0 <= i < |reached| && reached[i] == r;
      assert frames[i] in frames;
    }
  }
}
