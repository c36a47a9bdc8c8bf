// The browser's live connection to a room: which frames it passes on, when it
// notices a gap, and when it reconnects.
module Client {
  import opened Prelude
  import opened Money
  import opened Frames
  import opened Delivery

  const MaxSafeInteger := 0x1f_ffff_ffff_ffff

  // A parsed message. `roomOk` says whether the room state itself can be
  // mapped; a text that does not parse counts as a message of no kind.
  datatype Message = Message(kind: string, revision: int, accountId: string, role: string, roomOk: bool)

  // mapFrame throws on anything else.
  predicate Mappable(m: Message) {
    m.kind == "snapshot" && 0 <= m.revision <= MaxSafeInteger && m.accountId != "" && (m.role == "host" || m.role == "guest") && m.roomOk
  }

  // What the text of a frame parses to. A frame always carries a list of
  // players, so its room can be mapped.
  function MessageOf(frame: Frame): Message {
    Message("snapshot", frame.revision, frame.accountId, match frame.role case Host => "host" case Guest => "guest", true)
  }

  // The browser maps every frame that the server sends to an account, as long
  // as the revision is a safe integer, and reads back its revision.
  lemma {:induction false} FramesAreMappable(s: Snapshot, accountId: string, role: Role)
    ensures var m := MessageOf(FrameOf(s, accountId, role));
            && (Mappable(m) <==> accountId != "" && s.revision <= MaxSafeInteger)
            && m.revision == s.revision && m.accountId == accountId && (m.role == "host" <==> role == Host)
  {}

  function Doubled(attempt: nat): nat {
    if attempt == 0 then 1000 else 2 * Doubled(attempt - 1)
  }

  // The default reconnect delay in milliseconds.
  function ReconnectDelay(attempt: nat): nat {
    if Doubled(attempt) < 10000 then Doubled(attempt) else 10000
  }

  lemma {:induction false} DelaysGrowToTenSeconds(attempt: nat, later: nat)
    requires attempt <= later
    ensures 1000 <= ReconnectDelay(attempt) <= ReconnectDelay(later) <= 10000
    ensures later >= 4 ==> ReconnectDelay(later) == 10000
    decreases later
  {
    if attempt < later {
      DelaysGrowToTenSeconds(attempt, later - 1);
    } else if later > 0 {
      DelaysGrowToTenSeconds(later - 1, later - 1);
    }
    if later >= 4 { AtLeast(later); }
  }

  lemma {:induction false} AtLeast(attempt: nat)
    requires attempt >= 4
    ensures Doubled(attempt) >= 16000
  {
    if attempt == 4 {
      assert Doubled(1) == 2000 && Doubled(2) == 4000 && Doubled(3) == 8000;
    } else {
      AtLeast(attempt - 1);
    }
  }

  class RoomConnection {
    var socketOpen: bool
    var retryDelay: Option<nat>
    var stopped: bool
    var reconnectAttempt: nat
    var lastRevision: int
    var initialFrame: bool
    var errors: nat
    ghost var delivered: seq<int>

    // The revisions passed on strictly increase and end with the last one.
    ghost predicate Valid()
      reads this
    {
      && Increasing(delivered)
      && lastRevision == (if delivered == [] then -1 else delivered[|delivered| - 1])
      && (forall r | r in delivered :: 0 <= r <= MaxSafeInteger)
    }

    constructor ()
      ensures Valid() && !stopped && delivered == [] && socketOpen && initialFrame && retryDelay.None?
    {
      retryDelay, stopped, reconnectAttempt, lastRevision := None, false, 0, -1;
      socketOpen, initialFrame, errors := true, true, 0;
      delivered := [];
    }

    method ScheduleReconnect()
      modifies `retryDelay, `reconnectAttempt
      ensures if stopped || old(retryDelay).Some? then retryDelay == old(retryDelay) && reconnectAttempt == old(reconnectAttempt)
              else retryDelay == Some(ReconnectDelay(old(reconnectAttempt))) && reconnectAttempt == old(reconnectAttempt) + 1
    {
      if stopped || retryDelay.Some? { return; }
      retryDelay := Some(ReconnectDelay(reconnectAttempt));
      reconnectAttempt := reconnectAttempt + 1;
    }

    method Open()
      modifies `initialFrame, `socketOpen
      ensures stopped ==> initialFrame == old(initialFrame) && socketOpen == old(socketOpen)
      ensures !stopped ==> initialFrame && socketOpen
    {
      if stopped { return; }
      initialFrame := true;
      socketOpen := true;
    }

    method TimerFires()
      requires Valid() && retryDelay.Some?
      modifies this
      ensures Valid() && retryDelay.None? && delivered == old(delivered) && stopped == old(stopped)
      ensures !stopped ==> initialFrame && socketOpen
    {
      retryDelay := None;
      Open();
    }

    method OnOpen()
      requires Valid()
      modifies this
      ensures Valid() && reconnectAttempt == 0 && delivered == old(delivered)
    {
      reconnectAttempt := 0;
    }

    // A mappable frame is passed on if it is newer, and next in line or the
    // first of its socket; a skipped revision closes the socket and reconnects.
    method OnMessage(m: Message)
      requires Valid()
      modifies this
      ensures Valid() && stopped == old(stopped)
      ensures !Mappable(m) ==> delivered == old(delivered) && errors == old(errors) + 1
      ensures initialFrame == (old(initialFrame) && !(Mappable(m) && old(Accepts(m.revision))))
      ensures lastRevision == if Mappable(m) && old(Accepts(m.revision)) then m.revision else old(lastRevision)
      ensures Mappable(m) ==>
                && delivered == (if old(Accepts(m.revision)) then old(delivered) + [m.revision] else old(delivered))
                && (m.revision > old(lastRevision) && !old(Accepts(m.revision)) ==> !socketOpen && (retryDelay.Some? || stopped))
      ensures old(retryDelay).Some? ==> retryDelay.Some?
    {
      hide Increasing;
      if !Mappable(m) {
        errors := errors + 1;
        return;
      }
      if m.revision <= lastRevision { return; }
      if !initialFrame && lastRevision >= 0 && m.revision > lastRevision + 1 {
        errors := errors + 1;
        socketOpen := false;
        ScheduleReconnect();
        return;
      }
      initialFrame := false;
      IncreasingMore(delivered, m.revision);
      lastRevision := m.revision;
      delivered := delivered + [m.revision];
    }

    // Newer, and next in line or the first of its socket.
    predicate Accepts(revision: int)
      reads this
    {
      revision > lastRevision && (initialFrame || lastRevision < 0 || revision == lastRevision + 1)
    }

    method OnError()
      requires Valid()
      modifies `errors
      ensures Valid() && errors == old(errors) + 1
    {
      errors := errors + 1;
    }

    method OnClose()
      requires Valid()
      modifies this
      ensures Valid() && !socketOpen && delivered == old(delivered) && stopped == old(stopped)
      ensures retryDelay.Some? || stopped
    {
      socketOpen := false;
      ScheduleReconnect();
    }

    method Stop()
      requires Valid()
      modifies this
      ensures Valid() && stopped && retryDelay.None? && !socketOpen && delivered == old(delivered)
    {
      stopped := true;
      retryDelay := None;
      socketOpen := false;
    }
  }

  // All frames of one socket, in whatever order and with whatever gaps they
  // come. Once they are through, the client has reached every revision among
  // them, or is reconnecting, or was stopped; and it made none up.
  method ReceiveAll(client: RoomConnection, frames: seq<Message>)
    requires client.Valid()
    modifies client
    ensures client.Valid() && client.stopped == old(client.stopped)
    ensures (forall m | m in frames && Mappable(m) :: client.lastRevision >= m.revision) || client.retryDelay.Some? || client.stopped
    ensures client.lastRevision == old(client.lastRevision) || exists m | m in frames :: Mappable(m) && m.revision == client.lastRevision
  {
    for i := 0 to |frames|
      invariant client.Valid() && client.stopped == old(client.stopped)
      invariant (forall j | 0 <= j < i && Mappable(frames[j]) :: client.lastRevision >= frames[j].revision) || client.retryDelay.Some? || client.stopped
      invariant client.lastRevision == old(client.lastRevision) || exists m | m in frames :: Mappable(m) && m.revision == client.lastRevision
    {
      assert frames[i] in frames;
      client.OnMessage(frames[i]);
    }
  }
}
