/** What a session does for its client, read off what happened to it: the commands it was given are dispatched
    under its client's ID, in order, and the events published reach it (internal/server/grpc.go:61-125,
    internal/server/websocket_proxy.go:198-284). */
module SessionHistory {
  import opened Domain
  import Bus
  import opened Sessions

  /** A command that an action hands to a session which takes commands: a gRPC session whose receiver runs, or
      a WebSocket session that has not returned. */
  function Given(y: System, sid: nat, a: Action): seq<(Bus.ClientID, Command)> {
    if sid !in y.sessions then []
    else
      var s := y.sessions[sid];
      match a
      case ReceiverGets(i, cmd) =>
        if i == sid && s.kind == GRPC && s.receiver == Receiving && s.client.Some? then [(s.client.value, cmd)] else []
      case WebSocketTurn(i, OtherCommand(Some(cmd))) =>
        if i == sid && s.kind == WebSocket && (s.phase == Greeting || s.phase == Streaming)
        then [(if s.client.Some? then s.client.value else "", cmd)] else []
      case _ => []
  }

  ghost function GivenIn(actions: seq<Action>, sid: nat): seq<(Bus.ClientID, Command)> {
    if actions == [] then []
    else
      var init := actions[..|actions| - 1];
      GivenIn(init, sid) + Given(After(init), sid, actions[|actions| - 1])
  }

  function DispatchedBy(y: System, sid: nat): seq<(Bus.ClientID, Command)> {
    if sid in y.sessions then y.sessions[sid].dispatched else []
  }

  lemma {:induction false} AfterOneMore(actions: seq<Action>, a: Action)
    ensures After(actions + [a]) ==
            match Step(After(actions), a)
            case Some(z) => z
            case None => After(actions)
  {
    assert (actions + [a])[..|actions + [a]| - 1] == actions;
    hide Step;
  }

  lemma ReceiverHasClient(y: System, sid: nat)
    requires Inv(y) && sid in y.sessions && y.sessions[sid].receiver != NotStarted
    ensures y.sessions[sid].client.Some?
  {
    assert SessionInv(y.sessions[sid], y.bus);
    hide Bus.BusInv, Bus.After;
  }

  lemma GRPCDispatches(y: System, s: Session, a: Action, sid: nat)
    requires !a.Publish? && !a.PublishTo? && !a.Open? && a.sid in y.sessions && y.sessions[a.sid] == s
    requires s.receiver != NotStarted ==> s.client.Some?
    ensures
      match StepGRPC(y, s, a)
      case Some(z) => DispatchedBy(z, sid) == DispatchedBy(y, sid) + Given(y, sid, a) || a.WebSocketTurn?
      case None => Given(y, sid, a) == [] || a.WebSocketTurn?
  {
    hide Bus.Apply, NextIs;
  }

  lemma WebSocketDispatches(y: System, s: Session, i: nat, t: Turn, sid: nat)
    requires i in y.sessions && y.sessions[i] == s
    ensures
      match StepWebSocket(y, i, s, t)
      case Some(z) => DispatchedBy(z, sid) == DispatchedBy(y, sid) + Given(y, sid, WebSocketTurn(i, t))
      case None => Given(y, sid, WebSocketTurn(i, t)) == []
  {
    hide Bus.Apply, NextIs;
  }

  lemma OthersDispatch(y: System, a: Action, sid: nat)
    requires a.Publish? || a.PublishTo? || a.Open? || a.Registers? || a.Defers? || a.sid !in y.sessions
    ensures Step(y, a).Some? ==> DispatchedBy(Step(y, a).value, sid) == DispatchedBy(y, sid)
    ensures Given(y, sid, a) == []
  {
    hide StepGRPC, StepWebSocket, Bus.Apply;
  }

  lemma StepDispatches(y: System, a: Action, sid: nat)
    requires Inv(y)
    ensures
      match Step(y, a)
      case Some(z) => DispatchedBy(z, sid) == DispatchedBy(y, sid) + Given(y, sid, a)
      case None => Given(y, sid, a) == []
  {
    if a.Publish? || a.PublishTo? || a.Open? || a.Registers? || a.Defers? || a.sid !in y.sessions {
      OthersDispatch(y, a, sid);
      hide Step;
    } else {
      var s := y.sessions[a.sid];
      if s.receiver != NotStarted {
        ReceiverHasClient(y, a.sid);
      }
      if a.WebSocketTurn? {
        WebSocketDispatches(y, s, a.sid, a.turn, sid);
      } else {
        GRPCDispatches(y, s, a, sid);
      }
    }
    hide Inv, StepGRPC, StepWebSocket, Given, DispatchedBy;
  }

  /** In every reachable state a session, of either kind, has dispatched exactly the commands it was given while
      it took commands, in that order, each under the ID its client had then. */
  lemma {:induction false} DispatchesWhatItIsGiven(actions: seq<Action>, sid: nat)
    ensures DispatchedBy(After(actions), sid) == GivenIn(actions, sid)
  {
    if actions != [] {
      var init := actions[..|actions| - 1];
      DispatchesWhatItIsGiven(init, sid);
      AlwaysInv(init);
      StepDispatches(After(init), actions[|actions| - 1], sid);
    }
    hide Step, Inv, Given;
  }

  function CommandFor(y: System, sid: nat, a: Action): seq<Command> {
    if && a.ReceiverGets? && a.sid == sid && sid in y.sessions
       && y.sessions[sid].kind == GRPC && y.sessions[sid].receiver == Receiving then [a.cmd] else []
  }

  /** The commands that came in while the receiver was running. */
  ghost function Commands(actions: seq<Action>, sid: nat): seq<Command> {
    if actions == [] then []
    else
      var init := actions[..|actions| - 1];
      Commands(init, sid) + CommandFor(After(init), sid, actions[|actions| - 1])
  }

  /** On gRPC the ID is always that of the client. */
  lemma {:induction false} GRPCDispatchesUnderItsID(actions: seq<Action>, sid: nat)
    requires sid in After(actions).sessions && After(actions).sessions[sid].kind == GRPC
    ensures
      var s, cmds := After(actions).sessions[sid], Commands(actions, sid);
      && |s.dispatched| == |cmds|
      && forall i :: 0 <= i < |cmds| ==> Some(s.dispatched[i].0) == s.client && s.dispatched[i].1 == cmds[i]
  {
    DispatchesWhatItIsGiven(actions, sid);
    GivenCommands(actions, sid);
    SessionOutput(actions, sid);
    hide *;
  }

  lemma TurnKeepsKind(y: System, i: nat, s: Session, t: Turn, sid: nat)
    requires i in y.sessions && y.sessions[i] == s && sid in y.sessions && StepWebSocket(y, i, s, t).Some?
    ensures var z := StepWebSocket(y, i, s, t).value;
            sid in z.sessions && z.sessions[sid].kind == y.sessions[sid].kind
  {
    hide Bus.Apply, NextIs, Possible;
  }

  lemma GRPCKeepsKind(y: System, s: Session, a: Action, sid: nat)
    requires !a.Publish? && !a.PublishTo? && a.sid in y.sessions && y.sessions[a.sid] == s && sid in y.sessions
    requires StepGRPC(y, s, a).Some?
    ensures var z := StepGRPC(y, s, a).value;
            sid in z.sessions && z.sessions[sid].kind == y.sessions[sid].kind
  {
    hide Bus.Apply, NextIs;
  }

  lemma KindStays(y: System, a: Action, sid: nat)
    requires Step(y, a).Some? && sid in y.sessions
    ensures sid in Step(y, a).value.sessions && Step(y, a).value.sessions[sid].kind == y.sessions[sid].kind
  {
    if !a.Publish? && !a.PublishTo? && !a.Open? {
      var s := y.sessions[a.sid];
      if a.WebSocketTurn? {
        TurnKeepsKind(y, a.sid, s, a.turn, sid);
      } else if StepGRPC(y, s, a).Some? {
        GRPCKeepsKind(y, s, a, sid);
      }
    }
    hide StepGRPC, StepWebSocket, Bus.Apply;
  }

  lemma GivenIsCommand(y: System, sid: nat, a: Action)
    requires Inv(y) && (sid in y.sessions ==> y.sessions[sid].kind == GRPC)
    ensures |Given(y, sid, a)| == |CommandFor(y, sid, a)|
    ensures Given(y, sid, a) != [] ==> Given(y, sid, a)[0].1 == CommandFor(y, sid, a)[0]
  {
    if sid in y.sessions && y.sessions[sid].receiver == Receiving {
      ReceiverHasClient(y, sid);
    }
    hide Inv;
  }

  lemma {:induction false} GivenCommands(actions: seq<Action>, sid: nat)
    requires sid in After(actions).sessions && After(actions).sessions[sid].kind == GRPC
    ensures |GivenIn(actions, sid)| == |Commands(actions, sid)|
    ensures forall i :: 0 <= i < |GivenIn(actions, sid)| ==> GivenIn(actions, sid)[i].1 == Commands(actions, sid)[i]
  {
    if actions != [] {
      var init, a := actions[..|actions| - 1], actions[|actions| - 1];
      var y := After(init);
      AlwaysInv(init);
      if sid in y.sessions && Step(y, a).Some? {
        KindStays(y, a, sid);
      }
      hide Step, Inv, Given, CommandFor;
      GivenIsCommand(y, sid, a);
      if sid in y.sessions {
        GivenCommands(init, sid);
      } else {
        NothingGiven(init, sid);
      }
    }
  }

  lemma {:induction false} NothingGiven(actions: seq<Action>, sid: nat)
    requires sid !in After(actions).sessions
    ensures GivenIn(actions, sid) == [] && Commands(actions, sid) == []
  {
    if actions != [] {
      var init, a := actions[..|actions| - 1], actions[|actions| - 1];
      if sid in After(init).sessions && Step(After(init), a).Some? {
        KindStays(After(init), a, sid);
      }
      NothingGiven(init, sid);
    }
    hide Step;
  }

  // ----- Events arrive -----

  /** A session that streams, and what is buffered for it. */
  ghost predicate Streams(y: System, sid: nat, s: Session, buffer: seq<Event>) {
    && sid in y.sessions && y.sessions[sid] == s && s.phase == Streaming && s.client.Some?
    && s.client.value in y.bus.queues && y.bus.queues[s.client.value].buffer == buffer
    && s.client.value in y.bus.consumers
  }

  function Forward(evts: seq<Event>): seq<Out> {
    seq(|evts|, i requires 0 <= i < |evts| => Forwarded(evts[i]))
  }

  /** The session's own steps that take an event and pass it on. */
  function Takes(kind: Kind, sid: nat, evt: Event): Action {
    if kind == GRPC then SenderGets(sid, evt, true) else WebSocketTurn(sid, BusEvent(evt, true))
  }

  function TakesAll(kind: Kind, sid: nat, evts: seq<Event>): seq<Action> {
    seq(|evts|, i requires 0 <= i < |evts| => Takes(kind, sid, evts[i]))
  }

  lemma EventIsForwarded(y: System, sid: nat, s: Session, buffer: seq<Event>)
    requires Streams(y, sid, s, buffer) && buffer != []
    ensures Step(y, Takes(s.kind, sid, buffer[0])).Some?
    ensures Streams(Step(y, Takes(s.kind, sid, buffer[0])).value, sid,
                    s.(out := s.out + [Forwarded(buffer[0])]), buffer[1..])
  {
  }

  lemma ForwardSnoc(out: seq<Out>, buffer: seq<Event>, k: nat)
    requires 0 < k <= |buffer|
    ensures out + Forward(buffer[..k]) == (out + Forward(buffer[..k - 1])) + [Forwarded(buffer[k - 1])]
  {
  }

  lemma {:induction false} TakesSnoc(actions: seq<Action>, kind: Kind, sid: nat, buffer: seq<Event>, k: nat)
    requires 0 < k <= |buffer|
    ensures actions + TakesAll(kind, sid, buffer[..k]) ==
            (actions + TakesAll(kind, sid, buffer[..k - 1])) + [Takes(kind, sid, buffer[k - 1])]
  {
  }

  /** However many events are buffered: the session passes them on in order, one in each step. */
  lemma {:induction false} BufferIsForwarded(actions: seq<Action>, sid: nat, s: Session, buffer: seq<Event>, k: nat)
    requires Streams(After(actions), sid, s, buffer) && k <= |buffer|
    ensures Streams(After(actions + TakesAll(s.kind, sid, buffer[..k])), sid,
                    s.(out := s.out + Forward(buffer[..k])), buffer[k..])
  {
    hide After, Step;
    if k == 0 {
      assert actions + TakesAll(s.kind, sid, buffer[..0]) == actions;
      assert s.out + Forward(buffer[..0]) == s.out;
    } else {
      hide Streams, TakesAll, Forward;
      BufferIsForwarded(actions, sid, s, buffer, k - 1);
      var more := actions + TakesAll(s.kind, sid, buffer[..k - 1]);
      var t := s.(out := s.out + Forward(buffer[..k - 1]));
      EventIsForwarded(After(more), sid, t, buffer[k - 1..]);
      AfterOneMore(more, Takes(s.kind, sid, buffer[k - 1]));
      TakesSnoc(actions, s.kind, sid, buffer, k);
      ForwardSnoc(s.out, buffer, k);
      assert buffer[k - 1..][1..] == buffer[k..];
    }
  }

  lemma PublishingBuffers(y: System, sid: nat, s: Session, buffer: seq<Event>, evt: Event, a: Action)
    requires Streams(y, sid, s, buffer) && |buffer| < 64
    requires a == Publish(evt) || a == PublishTo(s.client.value, evt)
    ensures Step(y, a).Some? && Streams(Step(y, a).value, sid, s, buffer + [evt])
  {
  }

  /** An event that is published to everybody, or to this client, while fewer than 64 events wait for it, reaches
      the client: after what waits before it, in as many steps of its session. */
  lemma {:induction false} PublishedArrives(
      actions: seq<Action>, sid: nat, s: Session, buffer: seq<Event>, evt: Event, a: Action)
    requires Streams(After(actions), sid, s, buffer) && |buffer| < 64
    requires a == Publish(evt) || a == PublishTo(s.client.value, evt)
    ensures Streams(After(actions + [a] + TakesAll(s.kind, sid, buffer + [evt])), sid,
                    s.(out := s.out + Forward(buffer + [evt])), [])
  {
    PublishingBuffers(After(actions), sid, s, buffer, evt, a);
    AfterOneMore(actions, a);
    var all := buffer + [evt];
    hide After, Step, Streams;
    BufferIsForwarded(actions + [a], sid, s, all, |all|);
    assert all[..|all|] == all && all[|all|..] == [];
  }

  // ----- A whole life -----

  function Next(y: System, a: Action): System {
    match Step(y, a) case Some(z) => z case None => y
  }

  /** Nobody uses this session number or this client ID. */
  ghost predicate Free(y: System, sid: nat, id: Bus.ClientID) {
    sid !in y.sessions && id !in y.bus.queues
  }

  ghost predicate Lives(z: System, y: System, sid: nat, s: Session, clients: int) {
    && Streams(z, sid, s, []) && z.clientCount == y.clientCount + clients
  }

  function NewClient(kind: Kind, id: Bus.ClientID, dispatched: seq<(Bus.ClientID, Command)>): Session {
    Session(kind, Streaming, Some(id), [HandshakeCompleted], dispatched, NotStarted, 0)
  }

  /** A session that has ended, and has left nothing behind. */
  ghost predicate HasLived(z: System, y: System, sid: nat, s: Session) {
    && sid in z.sessions && z.sessions[sid] == s && s.phase == Ended && s.deregistered == 1
    && s.client.Some? && s.client.value !in z.bus.consumers && z.clientCount == y.clientCount
  }

  lemma GRPCGreets(y: System, sid: nat, id: Bus.ClientID)
    requires Free(y, sid, id)
    ensures var z := Next(Next(Next(y, Open(sid, GRPC)), HandshakeSucceeds(sid)), Registers(sid, id));
            Lives(z, y, sid, NewClient(GRPC, id, []), 0)
  {
    var a := Next(y, Open(sid, GRPC));
    assert a.sessions[sid] == NewSession(GRPC);
    var b := Next(a, HandshakeSucceeds(sid));
    assert b.sessions[sid] == Greet(NewSession(GRPC)) && b.bus == y.bus;
  }

  lemma GRPCReceives(z: System, y: System, sid: nat, s: Session, cmd: Command)
    requires Lives(z, y, sid, s, 0) && s.kind == GRPC && s.receiver == NotStarted
    ensures Lives(Next(Next(z, ReceiverStarts(sid)), ReceiverGets(sid, cmd)), y, sid,
                  s.(receiver := Receiving, dispatched := s.dispatched + [(s.client.value, cmd)]), 1)
  {
    var a := Next(z, ReceiverStarts(sid));
    assert a.sessions[sid] == s.(receiver := Receiving) && a.clientCount == y.clientCount + 1;
  }

  lemma GRPCEnds(z: System, y: System, sid: nat, s: Session)
    requires Lives(z, y, sid, s, 1) && s.kind == GRPC && s.receiver == Receiving && s.deregistered == 0
    ensures
      var end := Next(Next(Next(z, ReceiverStops(sid)), SenderStops(sid)), Defers(sid));
      HasLived(end, y, sid, s.(phase := Ended, receiver := Gone, deregistered := 1))
  {
    var a := Next(z, ReceiverStops(sid));
    assert a.sessions[sid] == s.(receiver := Gone) && a.bus == z.bus;
    var b := Next(a, SenderStops(sid));
    assert b.sessions[sid] == s.(receiver := Gone, phase := Leaving) && b.bus == z.bus;
  }

  lemma {:induction false} AfterTwo(actions: seq<Action>, a: Action, b: Action)
    ensures After(actions + [a, b]) == Next(Next(After(actions), a), b)
  {
    AfterOneMore(actions, a);
    AfterOneMore(actions + [a], b);
    assert actions + [a] + [b] == actions + [a, b];
    hide After, Step;
  }

  lemma {:induction false} AfterThree(actions: seq<Action>, a: Action, b: Action, c: Action)
    ensures After(actions + [a, b, c]) == Next(Next(Next(After(actions), a), b), c)
  {
    AfterTwo(actions, a, b);
    AfterOneMore(actions + [a, b], c);
    assert actions + [a, b] + [c] == actions + [a, b, c];
    hide After, Step;
  }

  /** An event is published while nothing waits, and the session takes it. */
  lemma EventComes(z: System, y: System, sid: nat, s: Session, evt: Event, clients: int)
    requires Lives(z, y, sid, s, clients)
    ensures Lives(Next(Next(z, Publish(evt)), Takes(s.kind, sid, evt)), y, sid,
                  s.(out := s.out + [Forwarded(evt)]), clients)
  {
    PublishingBuffers(z, sid, s, [], evt, Publish(evt));
    EventIsForwarded(Next(z, Publish(evt)), sid, s, [evt]);
    CountStays(z, Publish(evt));
    CountStays(Next(z, Publish(evt)), Takes(s.kind, sid, evt));
    hide Step, Streams;
  }

  lemma CountStays(y: System, a: Action)
    requires a.Publish? || a.SenderGets? || a.WebSocketTurn?
    ensures Next(y, a).clientCount == y.clientCount
  {
  }

  lemma WebSocketGreets(y: System, sid: nat, id: Bus.ClientID, early: Command)
    requires Free(y, sid, id)
    ensures
      var greeted := WebSocketTurn(sid, StartHandshake(Some(id)));
      var z := Next(Next(Next(Next(y, Open(sid, WebSocket)), WebSocketTurn(sid, OtherCommand(Some(early)))), greeted),
                    Registers(sid, id));
      Lives(z, y, sid, NewClient(WebSocket, id, [("", early)]), 0)
  {
    var a := Next(y, Open(sid, WebSocket));
    assert a.sessions[sid] == NewSession(WebSocket) && a.bus == y.bus;
    var b := Next(a, WebSocketTurn(sid, OtherCommand(Some(early))));
    var s := NewSession(WebSocket).(dispatched := [("", early)]);
    assert b.sessions[sid] == s && b.bus == y.bus;
    var c := Next(b, WebSocketTurn(sid, StartHandshake(Some(id))));
    assert c.sessions[sid] == Greet(s) && c.bus == y.bus;
  }

  lemma WebSocketReceives(z: System, y: System, sid: nat, s: Session, cmd: Command)
    requires Lives(z, y, sid, s, 0) && s.kind == WebSocket
    ensures Lives(Next(z, WebSocketTurn(sid, OtherCommand(Some(cmd)))), y, sid,
                  s.(dispatched := s.dispatched + [(s.client.value, cmd)]), 0)
  {
  }

  lemma WebSocketEnds(z: System, y: System, sid: nat, s: Session)
    requires Lives(z, y, sid, s, 0) && s.kind == WebSocket && s.deregistered == 0
    ensures
      var end := Next(Next(z, WebSocketTurn(sid, CommandsClosed)), Defers(sid));
      HasLived(end, y, sid, s.(phase := Ended, deregistered := 1))
  {
    var a := Next(z, WebSocketTurn(sid, CommandsClosed));
    assert a.sessions[sid] == s.(phase := Leaving) && a.bus == z.bus;
  }

  lemma {:induction false} Told(actions: seq<Action>, y: System, sid: nat, s: Session, evt: Event, clients: int)
    requires Lives(After(actions), y, sid, s, clients)
    ensures Lives(After(actions + [Publish(evt), Takes(s.kind, sid, evt)]), y, sid,
                  s.(out := s.out + [Forwarded(evt)]), clients)
  {
    AfterTwo(actions, Publish(evt), Takes(s.kind, sid, evt));
    hide After, Next, Lives;
    EventComes(After(actions), y, sid, s, evt, clients);
  }

  /** From any reachable state, a gRPC session can live like this: its client is greeted and registered, gives a
      command, is told of an event, and hangs up. The command is dispatched under its ID, the event reaches
      it, and nothing of it stays behind. */
  lemma {:induction false} GRPCLife(actions: seq<Action>, sid: nat, id: Bus.ClientID, cmd: Command, evt: Event)
    requires Free(After(actions), sid, id)
    ensures
      var greeted := actions + [Open(sid, GRPC), HandshakeSucceeds(sid), Registers(sid, id)];
      var heard := greeted + [ReceiverStarts(sid), ReceiverGets(sid, cmd)];
      var told := heard + [Publish(evt), SenderGets(sid, evt, true)];
      HasLived(After(told + [ReceiverStops(sid), SenderStops(sid), Defers(sid)]), After(actions), sid,
               Session(GRPC, Ended, Some(id), [HandshakeCompleted] + [Forwarded(evt)], [(id, cmd)], Gone, 1))
  {
    var y := After(actions);
    var greeted := actions + [Open(sid, GRPC), HandshakeSucceeds(sid), Registers(sid, id)];
    var heard := greeted + [ReceiverStarts(sid), ReceiverGets(sid, cmd)];
    var told := heard + [Publish(evt), SenderGets(sid, evt, true)];
    AfterThree(actions, Open(sid, GRPC), HandshakeSucceeds(sid), Registers(sid, id));
    AfterTwo(greeted, ReceiverStarts(sid), ReceiverGets(sid, cmd));
    AfterThree(told, ReceiverStops(sid), SenderStops(sid), Defers(sid));
    hide After, Next, Lives, Free;
    GRPCGreets(y, sid, id);
    GRPCReceives(After(greeted), y, sid, NewClient(GRPC, id, []), cmd);
    var s := NewClient(GRPC, id, [] + [(id, cmd)]).(receiver := Receiving);
    Told(heard, y, sid, s, evt, 1);
    GRPCEnds(After(told), y, sid, s.(out := [HandshakeCompleted] + [Forwarded(evt)]));
  }

  /** The life of a WebSocket session; a command that comes before the handshake is dispatched too, under no
      ID. */
  lemma {:induction false} WebSocketLife(
      actions: seq<Action>, sid: nat, id: Bus.ClientID, early: Command, cmd: Command, evt: Event)
    requires Free(After(actions), sid, id)
    ensures
      var begun := actions + [Open(sid, WebSocket), WebSocketTurn(sid, OtherCommand(Some(early)))];
      var greeted := begun + [WebSocketTurn(sid, StartHandshake(Some(id))), Registers(sid, id)];
      var heard := greeted + [WebSocketTurn(sid, OtherCommand(Some(cmd)))];
      var told := heard + [Publish(evt), WebSocketTurn(sid, BusEvent(evt, true))];
      HasLived(After(told + [WebSocketTurn(sid, CommandsClosed), Defers(sid)]), After(actions), sid,
               Session(WebSocket, Ended, Some(id), [HandshakeCompleted] + [Forwarded(evt)],
                       [("", early)] + [(id, cmd)], NotStarted, 1))
  {
    var y := After(actions);
    var begun := actions + [Open(sid, WebSocket), WebSocketTurn(sid, OtherCommand(Some(early)))];
    var greeted := begun + [WebSocketTurn(sid, StartHandshake(Some(id))), Registers(sid, id)];
    var heard := greeted + [WebSocketTurn(sid, OtherCommand(Some(cmd)))];
    var told := heard + [Publish(evt), WebSocketTurn(sid, BusEvent(evt, true))];
    AfterTwo(actions, Open(sid, WebSocket), WebSocketTurn(sid, OtherCommand(Some(early))));
    AfterTwo(begun, WebSocketTurn(sid, StartHandshake(Some(id))), Registers(sid, id));
    AfterOneMore(greeted, WebSocketTurn(sid, OtherCommand(Some(cmd))));
    AfterTwo(told, WebSocketTurn(sid, CommandsClosed), Defers(sid));
    assert After(heard) == Next(After(greeted), WebSocketTurn(sid, OtherCommand(Some(cmd))));
    hide After, Next, Lives, Free, Step;
    WebSocketGreets(y, sid, id, early);
    WebSocketReceives(After(greeted), y, sid, NewClient(WebSocket, id, [("", early)]), cmd);
    var s := NewClient(WebSocket, id, [("", early)] + [(id, cmd)]);
    Told(heard, y, sid, s, evt, 0);
    WebSocketEnds(After(told), y, sid, s.(out := [HandshakeCompleted] + [Forwarded(evt)]));
  }

  /** A gRPC session that fails: at the handshake nothing is sent and nothing is registered; when an event cannot
      be sent, it is not, and the client is deregistered. */
  lemma {:induction false} GRPCFailures(actions: seq<Action>, sid: nat, s: Session, buffer: seq<Event>)
    ensures sid !in After(actions).sessions ==>
              var z := After(actions + [Open(sid, GRPC), HandshakeFails(sid)]);
              && sid in z.sessions && z.sessions[sid] == Session(GRPC, Ended, None, [], [], NotStarted, 0)
              && z.bus == After(actions).bus
    ensures Streams(After(actions), sid, s, buffer) && s.kind == GRPC && buffer != [] ==>
              var z := After(actions + [SenderGets(sid, buffer[0], false), Defers(sid)]);
              && sid in z.sessions
              && z.sessions[sid] == s.(phase := Ended, deregistered := s.deregistered + 1)
              && s.client.value !in z.bus.consumers
  {
    var y := After(actions);
    AfterTwo(actions, Open(sid, GRPC), HandshakeFails(sid));
    if buffer != [] {
      AfterTwo(actions, SenderGets(sid, buffer[0], false), Defers(sid));
    }
    hide After;
    if sid !in y.sessions {
      FailsToGreet(y, sid);
    }
    if Streams(y, sid, s, buffer) && s.kind == GRPC && buffer != [] {
      FailsToSend(y, sid, s, buffer);
    }
    hide Next, Streams;
  }

  lemma FailsToGreet(y: System, sid: nat)
    requires sid !in y.sessions
    ensures var z := Next(Next(y, Open(sid, GRPC)), HandshakeFails(sid));
            && sid in z.sessions && z.sessions[sid] == Session(GRPC, Ended, None, [], [], NotStarted, 0)
            && z.bus == y.bus
  {
  }

  lemma FailsToSend(y: System, sid: nat, s: Session, buffer: seq<Event>)
    requires Streams(y, sid, s, buffer) && s.kind == GRPC && buffer != []
    ensures var z := Next(Next(y, SenderGets(sid, buffer[0], false)), Defers(sid));
            && sid in z.sessions
            && z.sessions[sid] == s.(phase := Ended, deregistered := s.deregistered + 1)
            && s.client.value !in z.bus.consumers
  {
    var a := Next(y, SenderGets(sid, buffer[0], false));
    assert a.sessions[sid] == s.(phase := Leaving) && s.client.value in a.bus.queues;
  }
}
