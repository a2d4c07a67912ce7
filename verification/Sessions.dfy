/** The two kinds of client session: processMessages of internal/server/websocket_proxy.go and
    Communicate of internal/server/grpc.go, alone and together on the event bus. */
module Sessions {
  import opened Domain
  import Bus

  datatype Kind = WebSocket | GRPC

  /** Greeting: before the handshake. Greeted: HandshakeCompleted has been sent, but Register has still to
      be called. Streaming: registered on the bus. Leaving: returned, but the deferred Deregister has
      still to run. */
  datatype Phase = Greeting | Greeted | Streaming | Leaving | Ended

  /** What a client is sent. */
  datatype Out = HandshakeCompleted | Forwarded(evt: Event)

  /** The receiving goroutine of a gRPC session. */
  datatype Receiver = NotStarted | Receiving | Gone

  datatype Session = Session(
    kind: Kind,
    phase: Phase,
    client: Option<Bus.ClientID>,
    out: seq<Out>,
    dispatched: seq<(Bus.ClientID, Command)>,
    receiver: Receiver,
    deregistered: nat)

  function NewSession(kind: Kind): Session {
    Session(kind, Greeting, None, [], [], NotStarted, 0)
  }

  /** What the select of processMessages can receive. Where an event is then passed on in a second
      select, sent says whether that succeeded or the context was done first; for a handshake it
      gives the ID that Register then returns. */
  datatype Turn =
    | ContextDone
    | CommandsClosed
    | NotACommand
    | StartHandshake(sent: Option<Bus.ClientID>)
    | OtherCommand(cmd: Option<Command>)        // None: it cannot be converted
    | HandshakeTimeout
    | BusEvent(evt: Event, forwarded: bool)

  /** A nil channel and a stopped timer never deliver. */
  predicate Possible(s: Session, t: Turn) {
    (t.BusEvent? ==> s.phase == Streaming) && (t.HandshakeTimeout? ==> s.phase == Greeting)
  }

  function Return(s: Session): Session {
    s.(phase := if s.phase == Streaming then Leaving else Ended)
  }

  function Greet(s: Session): Session {
    s.(phase := Greeted, out := s.out + [HandshakeCompleted])
  }

  function Registered(s: Session, id: Bus.ClientID): Session {
    s.(phase := Streaming, client := Some(id))
  }

  function TakeTurn(s: Session, t: Turn): Session {
    match t
    case ContextDone => Return(s)
    case CommandsClosed => Return(s)
    case NotACommand => s
    case StartHandshake(sent) =>
      if s.phase == Streaming || sent.None? then Return(s)
      else Registered(Greet(s), sent.value)
    case OtherCommand(cmd) =>
      if cmd.None? then s else s.(dispatched := s.dispatched + [(ClientOf(s), cmd.value)])
    case HandshakeTimeout => Return(s)
    case BusEvent(evt, forwarded) =>
      if forwarded then s.(out := s.out + [Forwarded(evt)]) else Return(s)
  }

  /** The zero value of ClientID is the empty string. */
  function ClientOf(s: Session): Bus.ClientID {
    if s.client.Some? then s.client.value else ""
  }

  /** The deferred call of Deregister. */
  function RunDefers(s: Session): Session {
    if s.phase == Leaving then s.(phase := Ended, deregistered := s.deregistered + 1) else s
  }

  predicate Active(s: Session) {
    s.phase == Greeting || s.phase == Streaming
  }

  ghost function TakeTurns(s: Session, turns: seq<Turn>): Session {
    if turns == [] then s
    else
      var before := TakeTurns(s, turns[..|turns| - 1]);
      var t := turns[|turns| - 1];
      if Active(before) && Possible(before, t) then TakeTurn(before, t) else before
  }

  /** processMessages, on the turns its select chooses, up to and including its deferred calls. */
  method ProcessMessages(turns: seq<Turn>) returns (result: Session)
    ensures var s := TakeTurns(NewSession(WebSocket), turns);
            result == if Active(s) then s else RunDefers(s)
  {
    var handshakeCompleted, registered, returned := false, false, false;
    var clientID := "";
    var out: seq<Out>, dispatched: seq<(Bus.ClientID, Command)> := [], [];
    var i := 0;
    ghost var s := NewSession(WebSocket);
    while i < |turns| && !returned
      invariant 0 <= i <= |turns|
      invariant s == TakeTurns(NewSession(WebSocket), turns[..i])
      invariant (returned <==> !Active(s)) && s.phase != Greeted
      invariant registered == s.client.Some? && clientID == ClientOf(s)
      invariant s.phase == Greeting ==> !handshakeCompleted && !registered
      invariant s.phase == Streaming ==> handshakeCompleted && registered
      invariant s.phase == Ended ==> !registered
      invariant s.phase == Leaving ==> registered
      invariant out == s.out && dispatched == s.dispatched
      invariant s.kind == WebSocket && s.receiver == NotStarted && s.deregistered == 0
      decreases |turns| - i
    {
      var t := turns[i];
      assert turns[..i + 1][..i] == turns[..i];
      if Possible(s, t) {
        s := TakeTurn(s, t);
      }
      i := i + 1;
      match t {
        case ContextDone => returned := true;
        case CommandsClosed => returned := true;
        case NotACommand =>
        case StartHandshake(sent) =>
          if handshakeCompleted {
            returned := true;
          } else {
            handshakeCompleted := true;
            if sent.None? {
              returned := true;
            } else {
              out := out + [HandshakeCompleted];
              clientID, registered := sent.value, true;
            }
          }
        case OtherCommand(cmd) =>
          if cmd.Some? {
            dispatched := dispatched + [(clientID, cmd.value)];
          }
        case HandshakeTimeout =>
          if !handshakeCompleted {  // the timer has not been stopped
            returned := true;
          }
        case BusEvent(evt, forwarded) =>
          if registered {  // eventsC is not nil
            if forwarded {
              out := out + [Forwarded(evt)];
            } else {
              returned := true;
            }
          }
      }
    }
    TurnsEnd(turns, i);
    result := Session(WebSocket,
                      if returned then Ended else if registered then Streaming else Greeting,
                      if registered then Some(clientID) else None, out, dispatched, NotStarted,
                      if returned && registered then 1 else 0);
  }

  lemma {:induction false} TurnsEnd(turns: seq<Turn>, i: nat)
    requires i <= |turns|
    requires i == |turns| || !Active(TakeTurns(NewSession(WebSocket), turns[..i]))
    ensures TakeTurns(NewSession(WebSocket), turns) == TakeTurns(NewSession(WebSocket), turns[..i])
    decreases |turns| - i
  {
    if i == |turns| {
      assert turns[..i] == turns;
    } else {
      assert turns[..i + 1][..i] == turns[..i];
      TurnsEnd(turns, i + 1);
    }
  }

  // ----- Sessions on one bus -----

  datatype System = System(
    bus: Bus.BusState,
    sessions: map<nat, Session>,
    clientCount: int,
    ops: seq<Bus.Op>)     // history: what was done to the bus

  const NO_SESSIONS := System(Bus.EMPTY_BUS, map[], 0, [])

  datatype Action =
    | Open(sid: nat, kind: Kind)
    | WebSocketTurn(sid: nat, turn: Turn)
    | HandshakeFails(sid: nat)                         // gRPC, until the handshake is complete
    | HandshakeSucceeds(sid: nat)
    | Registers(sid: nat, id: Bus.ClientID)            // both kinds, once greeted
    | SenderGets(sid: nat, evt: Event, sent: bool)     // gRPC, the sending goroutine
    | SenderStops(sid: nat)
    | ReceiverStarts(sid: nat)                         // gRPC, the receiving goroutine
    | ReceiverGets(sid: nat, cmd: Command)
    | ReceiverStops(sid: nat)
    | Defers(sid: nat)
    | Publish(evt: Event)
    | PublishTo(id: Bus.ClientID, evt: Event)

  function WithSession(y: System, sid: nat, s: Session): System {
    y.(sessions := y.sessions[sid := s])
  }

  function WithOp(y: System, op: Bus.Op): System {
    y.(bus := Bus.Apply(y.bus, op), ops := y.ops + [op])
  }

  /** The next event for a registered session is evt. */
  predicate NextIs(y: System, s: Session, evt: Event) {
    && s.client.Some? && s.client.value in y.bus.queues
    && y.bus.queues[s.client.value].buffer != []
    && y.bus.queues[s.client.value].buffer[0] == evt
  }

  /** Register comes back with an ID that has not been used. */
  predicate Unused(y: System, id: Bus.ClientID) {
    id !in y.bus.queues
  }

  function StepWebSocket(y: System, sid: nat, s: Session, t: Turn): Option<System> {
    if s.kind != WebSocket || !Active(s) || !Possible(s, t) then None
    else
      var z := WithSession(y, sid, TakeTurn(s, t));
      match t
      case BusEvent(evt, _) =>
        if NextIs(y, s, evt) then Some(WithOp(z, Bus.Recv(s.client.value))) else None
      case StartHandshake(sent) =>
        if s.phase == Streaming || sent.None? then Some(z) else Some(WithSession(y, sid, Greet(s)))
      case _ => Some(z)
  }

  function StepGRPC(y: System, s: Session, a: Action): Option<System> {
    if s.kind != GRPC then None
    else
      match a
      case HandshakeFails(sid) => if s.phase == Greeting then Some(WithSession(y, sid, s.(phase := Ended))) else None
      case HandshakeSucceeds(sid) => if s.phase == Greeting then Some(WithSession(y, sid, Greet(s))) else None
      case SenderGets(sid, evt, sent) =>
        if s.phase == Streaming && NextIs(y, s, evt) then
          var next := if sent then s.(out := s.out + [Forwarded(evt)]) else s.(phase := Leaving);
          Some(WithOp(WithSession(y, sid, next), Bus.Recv(s.client.value)))
        else None
      case SenderStops(sid) => if s.phase == Streaming then Some(WithSession(y, sid, s.(phase := Leaving))) else None
      case ReceiverStarts(sid) =>
        if s.client.Some? && s.receiver == NotStarted then
          Some(WithSession(y, sid, s.(receiver := Receiving)).(clientCount := y.clientCount + 1))
        else None
      case ReceiverGets(sid, cmd) =>
        if s.receiver == Receiving then
          Some(WithSession(y, sid, s.(dispatched := s.dispatched + [(ClientOf(s), cmd)])))
        else None
      case ReceiverStops(sid) =>
        if s.receiver == Receiving then
          Some(WithSession(y, sid, s.(receiver := Gone)).(clientCount := y.clientCount - 1))
        else None
      case _ => None
  }

  function Step(y: System, a: Action): Option<System> {
    match a
    case Publish(evt) => Some(WithOp(y, Bus.Send(evt)))
    case PublishTo(id, evt) => Some(WithOp(y, Bus.SendTo(id, evt)))
    case Open(sid, kind) => if sid in y.sessions then None else Some(WithSession(y, sid, NewSession(kind)))
    case _ =>
      if a.sid !in y.sessions then None
      else
        var s := y.sessions[a.sid];
        match a
        case WebSocketTurn(sid, t) => StepWebSocket(y, sid, s, t)
        case Registers(sid, id) =>
          if s.phase == Greeted && Unused(y, id)
          then Some(WithOp(WithSession(y, sid, Registered(s, id)), Bus.Register(id)))
          else None
        case Defers(sid) =>
          if s.phase == Leaving && s.client.Some?
          then Some(WithOp(WithSession(y, sid, RunDefers(s)), Bus.Deregister(s.client.value)))
          else None
        case _ => StepGRPC(y, s, a)
  }

  ghost function After(actions: seq<Action>): System {
    if actions == [] then NO_SESSIONS
    else
      var y := After(actions[..|actions| - 1]);
      match Step(y, actions[|actions| - 1])
      case Some(z) => z
      case None => y
  }

  // ----- Invariants -----

  predicate OnBus(s: Session) {
    s.phase == Streaming || s.phase == Leaving
  }

  /** HandshakeCompleted, then the first of the events received from the bus. */
  predicate Forwards(out: seq<Out>, received: seq<Event>) {
    && 1 <= |out| <= |received| + 1
    && out[0] == HandshakeCompleted
    && (forall i :: 1 <= i < |out| ==> out[i] == Forwarded(received[i - 1]))
  }

  ghost predicate SessionInv(s: Session, bus: Bus.BusState) {
    && (s.out == [] <==> s.client.None? && s.phase != Greeted)
    && (s.phase == Greeting || s.phase == Greeted ==> s.client.None?)
    && (s.phase == Greeted ==> s.out == [HandshakeCompleted])
    && (OnBus(s) ==> s.client.Some?)
    && (s.client.Some? ==>
          && s.client.value in bus.queues
          && Forwards(s.out, bus.queues[s.client.value].received)
          && (s.phase == Streaming ==> |s.out| == |bus.queues[s.client.value].received| + 1)
          && (s.client.value in bus.consumers <==> OnBus(s)))
    && (s.receiver == NotStarted || s.client.Some?)
    && s.deregistered == (if s.phase == Ended && s.client.Some? then 1 else 0)
    && (forall i :: 0 <= i < |s.dispatched| ==>
          Some(s.dispatched[i].0) == s.client || (s.kind == WebSocket && s.dispatched[i].0 == ""))
  }

  ghost function Receivers(y: System): set<nat> {
    set sid | sid in y.sessions && y.sessions[sid].receiver == Receiving
  }

  ghost predicate Inv(y: System) {
    && y.bus == Bus.After(y.ops)
    && Bus.BusInv(y.bus)
    && (forall sid :: sid in y.sessions ==> SessionInv(y.sessions[sid], y.bus))
    && (forall i, j :: i in y.sessions && j in y.sessions && i != j && y.sessions[i].client.Some? ==>
          y.sessions[i].client != y.sessions[j].client)
    && (forall id :: id in y.bus.consumers ==> exists sid :: sid in y.sessions && y.sessions[sid].client == Some(id))
  }

  lemma OpExtends(y: System, op: Bus.Op)
    requires y.bus == Bus.After(y.ops) && Bus.BusInv(y.bus)
    ensures var z := WithOp(y, op); z.bus == Bus.After(z.ops) && Bus.BusInv(z.bus)
  {
    var z := WithOp(y, op);
    assert z.ops[..|z.ops| - 1] == y.ops;
    Bus.ApplyKeepsInv(y.bus, op);
    hide Bus.BusInv, Bus.Apply;
  }

  /** What a session can see of the bus is the same in b and c. */
  ghost predicate SeesSame(s: Session, b: Bus.BusState, c: Bus.BusState) {
    s.client.Some? ==>
      var id := s.client.value;
      && id in b.queues && id in c.queues
      && b.queues[id].received == c.queues[id].received
      && (id in b.consumers <==> id in c.consumers)
  }

  lemma SendEffect(b: Bus.BusState, op: Bus.Op, id: Bus.ClientID)
    requires (op.Send? || op.SendTo?) && id in b.queues
    ensures var c := Bus.Apply(b, op);
            id in c.queues && c.queues[id].received == b.queues[id].received && c.consumers == b.consumers
  {
  }

  lemma RecvEffect(b: Bus.BusState, id: Bus.ClientID, other: Bus.ClientID)
    requires id in b.queues && b.queues[id].buffer != [] && other in b.queues
    ensures var c := Bus.Apply(b, Bus.Recv(id));
            && other in c.queues && c.consumers == b.consumers
            && c.queues[other].received ==
                 b.queues[other].received + (if other == id then [b.queues[id].buffer[0]] else [])
  {
  }

  lemma SessionFrame(s: Session, b: Bus.BusState, c: Bus.BusState)
    requires SessionInv(s, b) && SeesSame(s, b, c)
    ensures SessionInv(s, c)
  {
  }

  /** The general step: one session s becomes t, the bus b becomes c, and every other session sees the
      same of it. */
  lemma Assemble(y: System, z: System, sid: nat, t: Session)
    requires Inv(y) && z.sessions == y.sessions[sid := t]
    requires z.bus == Bus.After(z.ops) && Bus.BusInv(z.bus)
    requires SessionInv(t, z.bus)
    requires forall i :: i in y.sessions && i != sid ==> SeesSame(y.sessions[i], y.bus, z.bus)
    requires t.client.Some? ==>
               (sid in y.sessions && y.sessions[sid].client == t.client) || t.client.value !in y.bus.queues
    requires sid in y.sessions && y.sessions[sid].client.Some? ==> t.client == y.sessions[sid].client
    requires forall id :: id in z.bus.consumers ==> id in y.bus.consumers || Some(id) == t.client
    ensures Inv(z)
  {
    forall i | i in z.sessions
      ensures SessionInv(z.sessions[i], z.bus)
    {
      if i != sid {
        SessionFrame(y.sessions[i], y.bus, z.bus);
      }
    }
    forall i | i in y.sessions && y.sessions[i].client.Some?
      ensures y.sessions[i].client.value in y.bus.queues
    {
      assert SessionInv(y.sessions[i], y.bus);
    }
    hide SessionInv, Bus.BusInv, Bus.After;
    ClientsDistinct(y, z, sid, t);
    ConsumersHaveSessions(y, z, sid, t);
  }

  lemma ClientsDistinct(y: System, z: System, sid: nat, t: Session)
    requires z.sessions == y.sessions[sid := t]
    requires forall i, j :: i in y.sessions && j in y.sessions && i != j && y.sessions[i].client.Some? ==>
               y.sessions[i].client != y.sessions[j].client
    requires forall i :: i in y.sessions && y.sessions[i].client.Some? ==> y.sessions[i].client.value in y.bus.queues
    requires t.client.Some? ==>
               (sid in y.sessions && y.sessions[sid].client == t.client) || t.client.value !in y.bus.queues
    ensures forall i, j :: i in z.sessions && j in z.sessions && i != j && z.sessions[i].client.Some? ==>
              z.sessions[i].client != z.sessions[j].client
  {
  }

  lemma ConsumersHaveSessions(y: System, z: System, sid: nat, t: Session)
    requires z.sessions == y.sessions[sid := t]
    requires forall id :: id in y.bus.consumers ==> exists k :: k in y.sessions && y.sessions[k].client == Some(id)
    requires sid in y.sessions && y.sessions[sid].client.Some? ==> t.client == y.sessions[sid].client
    requires forall id :: id in z.bus.consumers ==> id in y.bus.consumers || Some(id) == t.client
    ensures forall id :: id in z.bus.consumers ==> exists k :: k in z.sessions && z.sessions[k].client == Some(id)
  {
    forall id | id in z.bus.consumers
      ensures exists k :: k in z.sessions && z.sessions[k].client == Some(id)
    {
      if Some(id) == t.client {
        assert z.sessions[sid].client == Some(id);
      } else {
        var k :| k in y.sessions && y.sessions[k].client == Some(id);
        assert z.sessions[k].client == Some(id);
      }
    }
  }

  /** Send and SendTo reach no session yet: they only change buffers. */
  lemma SendKeepsInv(y: System, op: Bus.Op)
    requires Inv(y) && (op.Send? || op.SendTo?)
    ensures Inv(WithOp(y, op))
  {
    OpExtends(y, op);
    var c := Bus.Apply(y.bus, op);
    assert c.consumers == y.bus.consumers;
    forall i | i in y.sessions
      ensures SessionInv(y.sessions[i], c)
    {
      var s := y.sessions[i];
      assert SessionInv(s, y.bus);
      if s.client.Some? {
        SendEffect(y.bus, op, s.client.value);
      }
      hide Bus.Apply;
      SessionFrame(s, y.bus, c);
    }
    hide Bus.BusInv, SessionInv, Bus.After, Bus.Apply;
  }

  lemma LocalStepKeepsInv(y: System, z: System, sid: nat, t: Session)
    requires Inv(y) && z.sessions == y.sessions[sid := t] && z.bus == y.bus && z.ops == y.ops
    requires if sid in y.sessions then t.client == y.sessions[sid].client else t.client.None?
    requires SessionInv(t, y.bus)
    ensures Inv(z)
  {
    forall i | i in y.sessions && i != sid
      ensures SeesSame(y.sessions[i], y.bus, z.bus)
    {
      assert SessionInv(y.sessions[i], y.bus);
    }
    assert sid in y.sessions ==> SessionInv(y.sessions[sid], y.bus);
    Assemble(y, z, sid, t);
  }

  lemma ReceiverInv(s: Session, t: Session, b: Bus.BusState, c: Bus.BusState, evt: Event)
    requires SessionInv(s, b) && s.phase == Streaming
    requires t == s.(phase := Leaving) || t == s.(out := s.out + [Forwarded(evt)])
    requires s.client.value in c.queues && c.consumers == b.consumers
    requires c.queues[s.client.value].received == b.queues[s.client.value].received + [evt]
    ensures SessionInv(t, c)
  {
  }

  /** An operation that concerns one client only leaves what the other sessions see of the bus. */
  lemma OthersSeeSame(y: System, sid: nat, id: Bus.ClientID, c: Bus.BusState)
    requires forall i :: i in y.sessions ==> SessionInv(y.sessions[i], y.bus)
    requires forall i :: i in y.sessions && i != sid ==> y.sessions[i].client != Some(id)
    requires forall other :: other in y.bus.queues && other != id ==>
               && other in c.queues && c.queues[other].received == y.bus.queues[other].received
               && (other in c.consumers <==> other in y.bus.consumers)
    ensures forall i :: i in y.sessions && i != sid ==> SeesSame(y.sessions[i], y.bus, c)
  {
    forall i | i in y.sessions && i != sid
      ensures SeesSame(y.sessions[i], y.bus, c)
    {
      assert SessionInv(y.sessions[i], y.bus);
    }
  }

  lemma OthersHaveOtherClients(y: System, sid: nat)
    requires Inv(y) && sid in y.sessions && y.sessions[sid].client.Some?
    ensures forall i :: i in y.sessions && i != sid ==> y.sessions[i].client != y.sessions[sid].client
  {
    hide SessionInv, Bus.BusInv, Bus.After;
  }

  lemma RecvKeepsInv(y: System, sid: nat, t: Session, evt: Event)
    requires Inv(y) && sid in y.sessions && y.sessions[sid].phase == Streaming && NextIs(y, y.sessions[sid], evt)
    requires var s := y.sessions[sid];
             t == s.(phase := Leaving) || t == s.(out := s.out + [Forwarded(evt)])
    ensures Inv(WithOp(WithSession(y, sid, t), Bus.Recv(y.sessions[sid].client.value)))
  {
    var s := y.sessions[sid];
    assert SessionInv(s, y.bus);
    var id := s.client.value;
    var op := Bus.Recv(id);
    OpExtends(y, op);
    var c := Bus.Apply(y.bus, op);
    OthersHaveOtherClients(y, sid);
    RecvEffect(y.bus, id, id);
    forall other | other in y.bus.queues && other != id
      ensures && other in c.queues && c.queues[other].received == y.bus.queues[other].received
              && (other in c.consumers <==> other in y.bus.consumers)
    {
      RecvEffect(y.bus, id, other);
    }
    OthersSeeSame(y, sid, id, c);
    ReceiverInv(s, t, y.bus, c, evt);
    hide Bus.BusInv, Bus.Apply, Bus.After, SessionInv, SeesSame, Inv;
    Assemble(y, WithOp(WithSession(y, sid, t), op), sid, t);
  }

  lemma RegisterEffect(b: Bus.BusState, id: Bus.ClientID, other: Bus.ClientID)
    requires id !in b.queues && id !in b.consumers && other in b.queues
    ensures var c := Bus.Apply(b, Bus.Register(id));
            && other in c.queues && c.queues[other].received == b.queues[other].received
            && (other in c.consumers <==> other in b.consumers)
  {
  }

  lemma NewClientInv(s: Session, b: Bus.BusState, id: Bus.ClientID)
    requires SessionInv(s, b) && s.phase == Greeted && id !in b.queues
    ensures SessionInv(Registered(s, id), Bus.Apply(b, Bus.Register(id)))
    ensures Bus.Apply(b, Bus.Register(id)).consumers == b.consumers + {id}
  {
  }

  lemma RegisterKeepsInv(y: System, sid: nat, id: Bus.ClientID)
    requires Inv(y) && sid in y.sessions && y.sessions[sid].phase == Greeted && Unused(y, id)
    ensures var t := Registered(y.sessions[sid], id);
            Inv(WithOp(WithSession(y, sid, t), Bus.Register(id)))
  {
    var s := y.sessions[sid];
    var t := Registered(s, id);
    assert SessionInv(s, y.bus);
    var op := Bus.Register(id);
    OpExtends(y, op);
    NewClientInv(s, y.bus, id);
    var c := Bus.Apply(y.bus, op);
    assert forall i :: i in y.sessions && y.sessions[i].client == Some(id) ==> SessionInv(y.sessions[i], y.bus);
    forall other | other in y.bus.queues && other != id
      ensures && other in c.queues && c.queues[other].received == y.bus.queues[other].received
              && (other in c.consumers <==> other in y.bus.consumers)
    {
      RegisterEffect(y.bus, id, other);
    }
    OthersSeeSame(y, sid, id, c);
    hide Bus.BusInv, Bus.Apply, Bus.After, SessionInv, SeesSame, Inv;
    Assemble(y, WithOp(WithSession(y, sid, t), op), sid, t);
  }

  lemma DeregisterEffect(b: Bus.BusState, id: Bus.ClientID, other: Bus.ClientID)
    requires id in b.queues && other in b.queues
    ensures var c := Bus.Apply(b, Bus.Deregister(id));
            && other in c.queues && c.queues[other].received == b.queues[other].received
            && c.consumers == b.consumers - {id}
  {
  }

  lemma GoneClientInv(s: Session, b: Bus.BusState)
    requires SessionInv(s, b) && s.phase == Leaving && s.client.Some?
    ensures SessionInv(RunDefers(s), Bus.Apply(b, Bus.Deregister(s.client.value)))
  {
    DeregisterEffect(b, s.client.value, s.client.value);
    hide Bus.Apply;
  }

  lemma DeregisterKeepsInv(y: System, sid: nat)
    requires Inv(y) && sid in y.sessions && y.sessions[sid].phase == Leaving && y.sessions[sid].client.Some?
    ensures var s := y.sessions[sid];
            Inv(WithOp(WithSession(y, sid, RunDefers(s)), Bus.Deregister(s.client.value)))
  {
    var s := y.sessions[sid];
    assert SessionInv(s, y.bus);
    var id := s.client.value;
    var op := Bus.Deregister(id);
    OpExtends(y, op);
    var c := Bus.Apply(y.bus, op);
    OthersHaveOtherClients(y, sid);
    DeregisterEffect(y.bus, id, id);
    forall other | other in y.bus.queues && other != id
      ensures && other in c.queues && c.queues[other].received == y.bus.queues[other].received
              && (other in c.consumers <==> other in y.bus.consumers)
    {
      DeregisterEffect(y.bus, id, other);
    }
    OthersSeeSame(y, sid, id, c);
    GoneClientInv(s, y.bus);
    hide Bus.BusInv, Bus.Apply, Bus.After, SessionInv, SeesSame, Inv;
    Assemble(y, WithOp(WithSession(y, sid, RunDefers(s)), op), sid, RunDefers(s));
  }

  /** A turn that leaves the bus alone. */
  lemma TurnKeepsSessionInv(s: Session, t: Turn, b: Bus.BusState)
    requires SessionInv(s, b) && Active(s) && Possible(s, t) && s.kind == WebSocket
    requires !t.BusEvent? && !(t.StartHandshake? && s.phase == Greeting && t.sent.Some?)
    ensures SessionInv(TakeTurn(s, t), b) && TakeTurn(s, t).client == s.client
  {
  }

  lemma GreetKeepsSessionInv(s: Session, b: Bus.BusState)
    requires SessionInv(s, b) && s.phase == Greeting
    ensures SessionInv(Greet(s), b) && Greet(s).client == s.client
  {
  }

  lemma WebSocketKeepsInv(y: System, sid: nat, t: Turn)
    requires Inv(y) && sid in y.sessions && StepWebSocket(y, sid, y.sessions[sid], t).Some?
    ensures Inv(StepWebSocket(y, sid, y.sessions[sid], t).value)
  {
    var s := y.sessions[sid];
    assert SessionInv(s, y.bus);
    hide Inv, SessionInv;
    if t.BusEvent? {
      RecvKeepsInv(y, sid, TakeTurn(s, t), t.evt);
    } else if t.StartHandshake? && s.phase == Greeting && t.sent.Some? {
      GreetKeepsSessionInv(s, y.bus);
      LocalStepKeepsInv(y, WithSession(y, sid, Greet(s)), sid, Greet(s));
    } else {
      TurnKeepsSessionInv(s, t, y.bus);
      hide TakeTurn;
      LocalStepKeepsInv(y, WithSession(y, sid, TakeTurn(s, t)), sid, TakeTurn(s, t));
    }
  }

  /** Where one goroutine of a gRPC session only stops or starts. */
  lemma GRPCTurnKeepsSessionInv(y: System, s: Session, a: Action)
    requires SessionInv(s, y.bus) && !a.Publish? && !a.PublishTo? && !a.SenderGets?
    requires StepGRPC(y, s, a).Some?
    ensures var z := StepGRPC(y, s, a).value;
            && z.bus == y.bus && z.ops == y.ops && a.sid in z.sessions
            && z.sessions == y.sessions[a.sid := z.sessions[a.sid]]
            && SessionInv(z.sessions[a.sid], y.bus) && z.sessions[a.sid].client == s.client
  {
  }

  lemma GRPCKeepsInv(y: System, a: Action)
    requires Inv(y) && !a.Publish? && !a.PublishTo? && a.sid in y.sessions
    requires StepGRPC(y, y.sessions[a.sid], a).Some?
    ensures Inv(StepGRPC(y, y.sessions[a.sid], a).value)
  {
    var s := y.sessions[a.sid];
    var z := StepGRPC(y, s, a).value;
    assert SessionInv(s, y.bus);
    hide Inv, SessionInv;
    if a.SenderGets? {
      RecvKeepsInv(y, a.sid, z.sessions[a.sid], a.evt);
    } else {
      GRPCTurnKeepsSessionInv(y, s, a);
      hide StepGRPC;
      LocalStepKeepsInv(y, z, a.sid, z.sessions[a.sid]);
    }
  }

  lemma StepKeepsInv(y: System, a: Action)
    requires Inv(y) && Step(y, a).Some?
    ensures Inv(Step(y, a).value)
  {
    hide Inv, StepWebSocket, StepGRPC;
    match a
    case Publish(evt) => SendKeepsInv(y, Bus.Send(evt));
    case PublishTo(id, evt) => SendKeepsInv(y, Bus.SendTo(id, evt));
    case Open(sid, kind) => LocalStepKeepsInv(y, Step(y, a).value, sid, NewSession(kind));
    case WebSocketTurn(sid, t) => WebSocketKeepsInv(y, sid, t);
    case Registers(sid, id) => RegisterKeepsInv(y, sid, id);
    case Defers(sid) => DeregisterKeepsInv(y, sid);
    case _ => GRPCKeepsInv(y, a);
  }

  lemma {:induction false} AlwaysInv(actions: seq<Action>)
    ensures Inv(After(actions))
  {
    if actions != [] {
      AlwaysInv(actions[..|actions| - 1]);
      if Step(After(actions[..|actions| - 1]), actions[|actions| - 1]).Some? {
        StepKeepsInv(After(actions[..|actions| - 1]), actions[|actions| - 1]);
      }
      hide Inv, Step;
    }
  }

  // ----- What holds in every interleaving -----

  /** A session, of either kind, has sent nothing at all, or one HandshakeCompleted and then events
      only: the first of those it received from its bus channel, in order, and all of them while it
      is streaming. It has been registered exactly if it has sent HandshakeCompleted, except that it is
      about to be just after. When it has ended it has been deregistered exactly once, if it was ever
      registered. Commands it dispatched carry its own
      client ID, or, on a WebSocket, the empty one. */
  lemma SessionOutput(actions: seq<Action>, sid: nat)
    requires sid in After(actions).sessions
    ensures
      var y := After(actions);
      var s := y.sessions[sid];
      && (s.out == [] <==> s.client.None? && s.phase != Greeted)
      && (s.phase == Greeted ==> s.client.None? && s.out == [HandshakeCompleted])
      && (s.client.Some? ==>
            && s.client.value in y.bus.queues
            && Forwards(s.out, y.bus.queues[s.client.value].received)
            && (s.phase == Streaming ==> |s.out| == |y.bus.queues[s.client.value].received| + 1))
      && (s.phase == Ended ==> s.deregistered == if s.client.Some? then 1 else 0)
      && (s.phase != Ended ==> s.deregistered == 0)
      && (forall i :: 0 <= i < |s.dispatched| ==>
            Some(s.dispatched[i].0) == s.client || (s.kind == WebSocket && s.dispatched[i].0 == ""))
  {
    AlwaysInv(actions);
    assert SessionInv(After(actions).sessions[sid], After(actions).bus);
    hide After, Bus.BusInv;
  }

  /** The consumers of the bus are exactly the sessions that have completed the handshake and have not
      been deregistered, one client ID each. */
  lemma ConsumersAreSessions(actions: seq<Action>)
    ensures
      var y := After(actions);
      && (forall id :: id in y.bus.consumers <==>
            exists sid :: sid in y.sessions && OnBus(y.sessions[sid]) && y.sessions[sid].client == Some(id))
      && (forall i, j ::
            && i in y.sessions && j in y.sessions
            && y.sessions[i].client.Some? && y.sessions[i].client == y.sessions[j].client
            ==> i == j)
  {
    AlwaysInv(actions);
    var y := After(actions);
    forall sid | sid in y.sessions && y.sessions[sid].client.Some?
      ensures OnBus(y.sessions[sid]) <==> y.sessions[sid].client.value in y.bus.consumers
    {
      assert SessionInv(y.sessions[sid], y.bus);
    }
    forall id | id in y.bus.consumers
      ensures exists sid :: sid in y.sessions && OnBus(y.sessions[sid]) && y.sessions[sid].client == Some(id)
    {
      var sid :| sid in y.sessions && y.sessions[sid].client == Some(id);
    }
    hide After, Bus.BusInv, SessionInv;
  }

  /** What a client was sent is an in-order selection from what was published to it while registered. */
  lemma {:induction false} ClientSeesPublishedInOrder(actions: seq<Action>, sid: nat)
    requires sid in After(actions).sessions && After(actions).sessions[sid].client.Some?
    ensures
      var y := After(actions);
      var s := y.sessions[sid];
      var published := Bus.Published(y.ops, s.client.value);
      exists kept: seq<nat> ::
        && |s.out| - 1 <= |kept|
        && (forall i, j :: 0 <= i < j < |kept| ==> kept[i] < kept[j])
        && (forall i :: 0 <= i < |kept| ==> kept[i] < |published|)
        && (forall i :: 1 <= i < |s.out| ==> s.out[i] == Forwarded(published[kept[i - 1]]))
  {
    AlwaysInv(actions);
    var y := After(actions);
    var s := y.sessions[sid];
    var id := s.client.value;
    assert SessionInv(s, y.bus);
    Bus.InOrderSubsequence(y.ops, id);
    var q := y.bus.queues[id];
    hide After, Inv, SessionInv, Bus.After, Bus.Published;
    var published := Bus.Published(y.ops, id);
    SelectionOf(s.out, q, published);
  }

  lemma SelectionOf(out: seq<Out>, q: Bus.Queue, published: seq<Event>)
    requires Forwards(out, q.received)
    requires |q.kept| == |q.received + q.buffer|
    requires forall i, j :: 0 <= i < j < |q.kept| ==> q.kept[i] < q.kept[j] < |published|
    requires forall i :: 0 <= i < |q.kept| ==>
               q.kept[i] < |published| && (q.received + q.buffer)[i] == published[q.kept[i]]
    ensures
      exists kept: seq<nat> ::
        && |out| - 1 <= |kept|
        && (forall i, j :: 0 <= i < j < |kept| ==> kept[i] < kept[j])
        && (forall i :: 0 <= i < |kept| ==> kept[i] < |published|)
        && (forall i :: 1 <= i < |out| ==> out[i] == Forwarded(published[kept[i - 1]]))
  {
    var kept := q.kept;
    assert forall i :: 0 <= i < |q.received| ==> (q.received + q.buffer)[i] == q.received[i];
    assert forall i :: 1 <= i < |out| ==> out[i] == Forwarded(published[kept[i - 1]]);
  }

  /** GetClientCount is the number of gRPC sessions whose receiving goroutine is running. */
  lemma {:induction false} ClientCountIsReceivers(actions: seq<Action>)
    ensures After(actions).clientCount == |Receivers(After(actions))|
  {
    if actions != [] {
      var y, a := After(actions[..|actions| - 1]), actions[|actions| - 1];
      ClientCountIsReceivers(actions[..|actions| - 1]);
      if Step(y, a).Some? {
        CountStep(y, a);
      }
    }
  }

  /** An action updates one session at most, and starts or stops no receiver but its own. */
  lemma SessionUpdated(y: System, a: Action)
    requires Step(y, a).Some?
    ensures var z := Step(y, a).value;
            if a.Publish? || a.PublishTo? then z.sessions == y.sessions && z.clientCount == y.clientCount
            else
              && a.sid in z.sessions && z.sessions == y.sessions[a.sid := z.sessions[a.sid]]
              && var was := a.sid in y.sessions && y.sessions[a.sid].receiver == Receiving;
                 var now := z.sessions[a.sid].receiver == Receiving;
                 z.clientCount == y.clientCount + (if now then 1 else 0) - (if was then 1 else 0)
  {
    hide Bus.Apply, NextIs, Possible;
  }

  lemma ReceiversUpdated(y: System, z: System, sid: nat)
    requires sid in z.sessions && z.sessions == y.sessions[sid := z.sessions[sid]]
    ensures Receivers(z) ==
            if z.sessions[sid].receiver == Receiving then Receivers(y) + {sid} else Receivers(y) - {sid}
  {
    assert forall other :: other != sid ==> (other in Receivers(z) <==> other in Receivers(y));
  }

  lemma OneMoreOrLess(r: set<nat>, sid: nat)
    ensures |r + {sid}| == |r| + (if sid in r then 0 else 1)
    ensures |r - {sid}| == |r| - (if sid in r then 1 else 0)
  {
    if sid in r {
      assert r + {sid} == r;
    } else {
      assert r - {sid} == r;
    }
  }

  lemma CountStep(y: System, a: Action)
    requires y.clientCount == |Receivers(y)| && Step(y, a).Some?
    ensures var z := Step(y, a).value; z.clientCount == |Receivers(z)|
  {
    SessionUpdated(y, a);
    SessionUpdateCounts(y, Step(y, a).value, if a.Publish? || a.PublishTo? then 0 else a.sid);
    hide Step, Receivers;
  }

  lemma SessionUpdateCounts(y: System, z: System, sid: nat)
    requires y.clientCount == |Receivers(y)|
    requires
      || (z.sessions == y.sessions && z.clientCount == y.clientCount)
      || (sid in z.sessions && z.sessions == y.sessions[sid := z.sessions[sid]]
          && z.clientCount == y.clientCount + (if z.sessions[sid].receiver == Receiving then 1 else 0)
                              - (if sid in Receivers(y) then 1 else 0))
    ensures z.clientCount == |Receivers(z)|
  {
    if z.sessions == y.sessions {
      assert Receivers(z) == Receivers(y);
      assert sid in z.sessions && z.sessions[sid].receiver == Receiving <==> sid in Receivers(y);
    } else {
      ReceiversUpdated(y, z, sid);
      OneMoreOrLess(Receivers(y), sid);
    }
  }
}
