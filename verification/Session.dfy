/** One client connection. */
module Sessions {
  import opened Prelude
  import opened MessageCodec
  import opened WritePump

  /** What the rest of the server sees of a session; `sent` is the history of messages given to `send`. */
  datatype SessionView =
    SessionView(open: bool, playerId: int, token: string, lastActive: int, sent: seq<Message>)

  class Session {
    const id: Sid
    var playerId: int
    var token: string
    var recvBuffer: Bytes
    var writeQueue: seq<Bytes>
    var inFlight: nat
    var lastActive: int
    var closed: bool
    ghost var written: seq<Bytes>
    ghost var sent: seq<Message>

    ghost function Pump(): Pump
      reads this
    {
      WritePump.Pump(writeQueue, inFlight, closed, written)
    }

    ghost predicate Valid()
      reads this
    {
      PumpOk(Pump(), sent)
    }

    ghost function View(): SessionView
      reads this
    {
      SessionView(!closed, playerId, token, lastActive, sent)
    }

    constructor (id: Sid, now: int)
      ensures Valid() && this.id == id && recvBuffer == []
      ensures View() == SessionView(true, 0, "", now, []) && Pump() == WritePump.Pump([], 0, false, [])
    {
      this.id := id;
      playerId, token, recvBuffer, writeQueue, inFlight := 0, "", [], [], 0;
      lastActive, closed := now, false;
      written, sent := [], [];
    }

    method DoWrite()
      modifies this`inFlight
      ensures Pump() == StartWrite(old(Pump()))
      ensures inFlight == if closed || writeQueue == [] then old(inFlight) else old(inFlight) + 1
    {
      if closed || |writeQueue| == 0 {
        return;
      }
      inFlight := inFlight + 1;
    }

    method Send(message: Message)
      requires Valid()
      modifies this`writeQueue, this`inFlight, this`sent
      ensures Valid() && Pump() == Sending(old(Pump()), message)
      ensures writeQueue == old(writeQueue) + [Packet(message)]
      ensures inFlight == if closed then old(inFlight) else 1
      ensures View() == old(View()).(sent := old(View()).sent + [message])
    {
      SendingOk(Pump(), sent, message);
      var packet := Encode(message);
      var empty := |writeQueue| == 0;
      writeQueue := writeQueue + [packet];
      sent := sent + [message];
      if empty {
        DoWrite();
      }
    }

    /** The completion handler without an error; each completion is taken to cover its packet. */
    method OnWritten()
      requires Valid() && inFlight > 0
      modifies this`writeQueue, this`inFlight, this`written
      ensures Valid() && Ok(Pump()) == Completing(old(Pump()))
      ensures old(writeQueue) == [old(writeQueue)[0]] + writeQueue && written == old(written) + [old(writeQueue)[0]]
      ensures inFlight == if closed || writeQueue == [] then 0 else 1
      ensures View() == old(View())
    {
      CompletingOk(Pump(), sent);
      inFlight := inFlight - 1;
      written := written + [writeQueue[0]];
      writeQueue := writeQueue[1..];
      if |writeQueue| != 0 {
        DoWrite();
      }
    }

    /** Marks the session closed and says whether the close callback is due: only the first time. */
    method Close() returns (first: bool)
      requires Valid()
      modifies this`closed
      ensures Valid() && first == old(View()).open
      ensures View() == old(View()).(open := false) && Pump() == old(Pump()).(closed := true)
    {
      first := !closed;
      if closed {
        return;
      }
      closed := true;
    }

    /** The completion handler with an error. */
    method OnWriteError() returns (first: bool)
      requires Valid() && inFlight > 0
      modifies this`inFlight, this`closed
      ensures Valid() && first == old(View()).open
      ensures View() == old(View()).(open := false) && Pump() == Failing(old(Pump()))
    {
      first := !closed;
      inFlight := inFlight - 1;
      closed := true;
    }

    method UpdateLastActiveTime(now: int)
      requires Valid()
      modifies this`lastActive
      ensures Valid() && View() == old(View()).(lastActive := now)
    {
      lastActive := now;
    }

    method SetPlayer(p: int, token: string)
      requires Valid()
      modifies this`playerId, this`token
      ensures Valid() && View() == old(View()).(playerId := p, token := token)
    {
      playerId := p;
      this.token := token;
    }

    method Store(buffer: Bytes)
      requires Valid()
      modifies this`recvBuffer
      ensures Valid() && View() == old(View()) && recvBuffer == buffer
    {
      recvBuffer := buffer;
    }

    method IsStale(now: int, timeout: nat) returns (stale: bool)
      ensures stale <==> now - lastActive >= (timeout + 1) * NANOS_PER_SECOND
    {
      TimeoutStartsALater(now - lastActive, timeout);
      stale := WholeSeconds(now - lastActive) > timeout;
    }
  }

  // ---- All sessions together ----

  /** `all` indexes session objects by their identity, so distinct identities are distinct objects. */
  ghost predicate Registry(all: map<Sid, Session>)
    reads all.Values
  {
    forall s :: s in all ==> all[s].id == s && all[s].Valid()
  }

  ghost function Views(all: map<Sid, Session>): map<Sid, SessionView>
    reads all.Values
  {
    map s | s in all :: all[s].View()
  }

  /** Delivering a message to a session, seen on the table of all sessions. */
  function SendTo(sessions: map<Sid, SessionView>, s: Sid, message: Message): map<Sid, SessionView> {
    if s in sessions then sessions[s := sessions[s].(sent := sessions[s].sent + [message])] else sessions
  }

  method OpenIn(s: Sid, now: int, ghost all: map<Sid, Session>) returns (session: Session)
    requires Registry(all) && s !in Views(all)
    ensures fresh(session) && session.id == s && session.recvBuffer == [] && s !in all
    ensures Registry(all[s := session]) && Views(all) == old(Views(all))
    ensures Views(all[s := session]) == Views(all)[s := SessionView(true, 0, "", now, [])]
  {
    session := new Session(s, now);
    assert forall q :: q in all ==> all[q].View() == old(all[q].View());
  }

  method SendIn(session: Session, message: Message, ghost all: map<Sid, Session>)
    requires Registry(all) && session.id in all && all[session.id] == session
    modifies session`writeQueue, session`inFlight, session`sent
    ensures Registry(all) && Views(all) == SendTo(old(Views(all)), session.id, message)
  {
    hide Session.Valid, Session.View, Session.Pump;
    session.Send(message);
    assert forall s :: s in all && s != session.id ==> all[s].View() == old(all[s].View());
    return;
  }

  method TouchIn(session: Session, now: int, ghost all: map<Sid, Session>)
    requires Registry(all) && session.id in all && all[session.id] == session
    modifies session`lastActive
    ensures Registry(all) && session.id in old(Views(all))
    ensures Views(all) == old(Views(all))[session.id := old(Views(all))[session.id].(lastActive := now)]
  {
    hide Session.Valid, Session.View, Session.Pump;
    session.UpdateLastActiveTime(now);
    assert forall s :: s in all && s != session.id ==> all[s].View() == old(all[s].View());
    return;
  }

  method BindIn(session: Session, p: int, token: string, ghost all: map<Sid, Session>)
    requires Registry(all) && session.id in all && all[session.id] == session
    modifies session`playerId, session`token
    ensures Registry(all) && session.id in old(Views(all))
    ensures Views(all) == old(Views(all))[session.id := old(Views(all))[session.id].(playerId := p, token := token)]
  {
    hide Session.Valid, Session.View, Session.Pump;
    session.SetPlayer(p, token);
    assert forall s :: s in all && s != session.id ==> all[s].View() == old(all[s].View());
    return;
  }

  method CloseIn(session: Session, ghost all: map<Sid, Session>) returns (first: bool)
    requires Registry(all) && session.id in all && all[session.id] == session
    modifies session`closed
    ensures Registry(all) && session.id in old(Views(all)) && first == old(Views(all))[session.id].open
    ensures Views(all) == old(Views(all))[session.id := old(Views(all))[session.id].(open := false)]
  {
    hide Session.Valid, Session.View, Session.Pump;
    first := session.Close();
    assert forall s :: s in all && s != session.id ==> all[s].View() == old(all[s].View());
    return;
  }

  method WrittenIn(session: Session, ghost all: map<Sid, Session>)
    requires Registry(all) && session.id in all && all[session.id] == session && session.inFlight > 0
    modifies session`writeQueue, session`inFlight, session`written
    ensures Registry(all) && Views(all) == old(Views(all)) && Ok(session.Pump()) == Completing(old(session.Pump()))
  {
    hide Session.Valid, Session.View, Session.Pump;
    session.OnWritten();
    assert forall s :: s in all && s != session.id ==> all[s].View() == old(all[s].View());
    return;
  }

  method FailIn(session: Session, ghost all: map<Sid, Session>) returns (first: bool)
    requires Registry(all) && session.id in all && all[session.id] == session && session.inFlight > 0
    modifies session`inFlight, session`closed
    ensures Registry(all) && session.id in old(Views(all)) && first == old(Views(all))[session.id].open
    ensures Views(all) == old(Views(all))[session.id := old(Views(all))[session.id].(open := false)]
    ensures session.Pump() == Failing(old(session.Pump()))
  {
    hide Session.Valid, Session.View, Session.Pump;
    first := session.OnWriteError();
    assert forall s :: s in all && s != session.id ==> all[s].View() == old(all[s].View());
    return;
  }

  method StoreIn(session: Session, buffer: Bytes, ghost all: map<Sid, Session>)
    requires Registry(all) && session.id in all && all[session.id] == session
    modifies session`recvBuffer
    ensures Registry(all) && Views(all) == old(Views(all)) && session.recvBuffer == buffer
  {
    hide Session.Valid, Session.View, Session.Pump;
    session.Store(buffer);
    assert forall s :: s in all && s != session.id ==> all[s].View() == old(all[s].View());
    return;
  }
}
