/** frontend/src/websocket-communicator.ts: the browser's connection, with its reconnection timers and
    its queue of commands. The sockets, which live in the browser, are numbered as they are made; a
    handler belongs to one socket but acts on the communicator, which may by then have another. */
module Browser {
  import opened Domain
  import opened Requests

  const MAX_RECONNECT_ATTEMPTS: nat := 5
  const RECONNECT_DELAY: nat := 1000
  const UNAUTHORIZED := 4003
  const CLEAN := 1000

  /** WebSocket.readyState */
  datatype Ready = Connecting | Open | Closing | Closed

  /** What the communicator does to the world outside it, in order. */
  datatype Effect =
    | SocketMade
    | ConnectionReported(connected: bool)
    | ErrorReported
    | UnauthorizedReported
    | Scheduled(delay: nat)
    | HandshakeSent(socket: nat)
    | HandshakeDropped
    | Sent(socket: nat, request: Request)
    | Dropped(request: Request)     // the socket was not open
    | Refused(request: Request)     // buildCommand threw, and the error was reported

  datatype State = State(
    connected: bool,
    attempts: nat,
    queue: seq<Request>,
    ws: Option<nat>,
    sockets: seq<Ready>,
    timers: nat,
    log: seq<Effect>)

  const INITIAL := State(false, 0, [], None, [], 0, [])

  /** Calls by the page, and what the browser calls back. made: whether new WebSocket returned. */
  datatype Input =
    | Connect(made: bool)
    | Disconnect
    | Command(request: Request)
    | SocketOpened(socket: nat)
    | SocketClosing(socket: nat)    // the other end begins to close; no handler is told
    | SocketClosed(socket: nat, code: int)
    | TimerFired(made: bool)

  predicate Possible(s: State, x: Input) {
    match x
    case SocketOpened(i) => i < |s.sockets| && s.sockets[i] == Connecting
    case SocketClosing(i) => i < |s.sockets| && s.sockets[i] == Open
    case SocketClosed(i, _) => i < |s.sockets| && s.sockets[i] != Closed
    case TimerFired(_) => s.timers > 0
    case _ => true
  }

  // ----- One input, on values -----

  function Pow2(n: nat): nat {
    if n == 0 then 1 else 2 * Pow2(n - 1)
  }

  function Log(s: State, e: Effect): State {
    s.(log := s.log + [e])
  }

  predicate SocketReady(s: State) {
    s.ws.Some? && s.ws.value < |s.sockets| && s.sockets[s.ws.value] == Open
  }

  /** What becomes of a command that is not queued. */
  function Fate(s: State, r: Request): Effect {
    if BuildCommand(r).None? then Refused(r)
    else if SocketReady(s) then Sent(s.ws.value, r)
    else Dropped(r)
  }

  function GiveCommand(s: State, r: Request): State {
    if s.connected then Log(s, Fate(s, r)) else s.(queue := s.queue + [r])
  }

  function Drain(s: State): State
    decreases |s.queue|
  {
    if s.queue == [] then s
    else Drain(Log(s.(queue := s.queue[1..]), Fate(s, s.queue[0])))
  }

  function MakeSocket(s: State): State {
    Log(s.(ws := Some(|s.sockets|), sockets := s.sockets + [Connecting]), SocketMade)
  }

  function Schedule(s: State): State {
    if s.attempts >= MAX_RECONNECT_ATTEMPTS then Log(s, ErrorReported)
    else
      Log(s.(attempts := s.attempts + 1, timers := s.timers + 1), Scheduled(RECONNECT_DELAY * Pow2(s.attempts)))
  }

  function GreetThenDrain(s: State): State {
    Drain(Log(s, if SocketReady(s) then HandshakeSent(s.ws.value) else HandshakeDropped))
  }

  function Next(s: State, x: Input): State
    requires Possible(s, x)
  {
    match x
    case Connect(made) =>
      if s.connected then s
      else if made then MakeSocket(s)
      else Schedule(Log(s, ErrorReported))
    case Disconnect =>
      var closing :=
        if s.ws.Some? && s.ws.value < |s.sockets| && s.sockets[s.ws.value] != Closed
        then s.sockets[s.ws.value := Closing] else s.sockets;
      Log(s.(connected := false, attempts := 0, ws := None, sockets := closing), ConnectionReported(false))
    case Command(r) => GiveCommand(s, r)
    case SocketOpened(i) =>
      GreetThenDrain(Log(s.(sockets := s.sockets[i := Open], connected := true, attempts := 0),
                         ConnectionReported(true)))
    case SocketClosing(i) => s.(sockets := s.sockets[i := Closing])
    case SocketClosed(i, code) =>
      var t := Log(s.(sockets := s.sockets[i := Closed], connected := false), ConnectionReported(false));
      if code == UNAUTHORIZED then Log(t, UnauthorizedReported)
      else if code != CLEAN && s.attempts < MAX_RECONNECT_ATTEMPTS then Schedule(t)
      else t
    case TimerFired(made) =>
      var t := s.(timers := s.timers - 1);
      if !s.connected && made then MakeSocket(t) else t
  }

  // ----- The communicator -----

  class Communicator {
    var isConnected: bool
    var reconnectAttempts: nat
    var commandQueue: seq<Request>
    var ws: Option<nat>
    var sockets: seq<Ready>
    var timers: nat
    var log: seq<Effect>

    ghost function View(): State
      reads this
    {
      State(isConnected, reconnectAttempts, commandQueue, ws, sockets, timers, log)
    }

    constructor ()
      ensures View() == INITIAL
    {
      isConnected, reconnectAttempts, commandQueue, ws := false, 0, [], None;
      sockets, timers, log := [], 0, [];
    }

    method InitWebSocket()
      modifies this
      ensures View() == MakeSocket(old(View()))
    {
      ws := Some(|sockets|);
      sockets := sockets + [Connecting];
      log := log + [SocketMade];
    }

    method ScheduleReconnect()
      modifies this
      ensures View() == Schedule(old(View()))
    {
      if reconnectAttempts >= MAX_RECONNECT_ATTEMPTS {
        log := log + [ErrorReported];
        return;
      }
      var delay := RECONNECT_DELAY * Pow2(reconnectAttempts);
      reconnectAttempts := reconnectAttempts + 1;
      timers := timers + 1;
      log := log + [Scheduled(delay)];
    }

    method ConnectNow(made: bool)
      modifies this
      ensures View() == Next(old(View()), Connect(made))
    {
      if isConnected {
        return;
      }
      if made {
        InitWebSocket();
      } else {
        log := log + [ErrorReported];
        ScheduleReconnect();
      }
    }

    method DisconnectNow()
      modifies this
      ensures View() == Next(old(View()), Disconnect)
    {
      isConnected := false;
      reconnectAttempts := 0;
      if ws.Some? {
        if ws.value < |sockets| && sockets[ws.value] != Closed {
          sockets := sockets[ws.value := Closing];
        }
        ws := None;
      }
      log := log + [ConnectionReported(false)];
    }

    method SendCommand(r: Request)
      modifies this
      ensures View() == Next(old(View()), Command(r))
    {
      if !isConnected {
        commandQueue := commandQueue + [r];
        return;
      }
      if BuildCommand(r).None? {
        log := log + [Refused(r)];
      } else if ws.Some? && ws.value < |sockets| && sockets[ws.value] == Open {
        log := log + [Sent(ws.value, r)];
      } else {
        log := log + [Dropped(r)];
      }
    }

    /** The loop ends because SendCommand, while connected, does not queue. */
    method ProcessCommandQueue()
      requires isConnected
      modifies this
      ensures View() == Drain(old(View()))
    {
      while |commandQueue| > 0
        invariant isConnected
        invariant Drain(View()) == Drain(old(View()))
        decreases |commandQueue|
      {
        var command := commandQueue[0];
        commandQueue := commandQueue[1..];
        SendCommand(command);
      }
    }

    method OnOpen(i: nat)
      requires Possible(View(), SocketOpened(i))
      modifies this
      ensures View() == Next(old(View()), SocketOpened(i))
    {
      sockets := sockets[i := Open];
      isConnected := true;
      reconnectAttempts := 0;
      log := log + [ConnectionReported(true)];
      if ws.Some? && ws.value < |sockets| && sockets[ws.value] == Open {
        log := log + [HandshakeSent(ws.value)];
      } else {
        log := log + [HandshakeDropped];
      }
      ProcessCommandQueue();
    }

    method OnClose(i: nat, code: int)
      requires Possible(View(), SocketClosed(i, code))
      modifies this
      ensures View() == Next(old(View()), SocketClosed(i, code))
    {
      sockets := sockets[i := Closed];
      isConnected := false;
      log := log + [ConnectionReported(false)];
      if code == UNAUTHORIZED {
        log := log + [UnauthorizedReported];
        return;
      }
      if code != CLEAN && reconnectAttempts < MAX_RECONNECT_ATTEMPTS {
        ScheduleReconnect();
      }
    }

    method OnTimer(made: bool)
      requires Possible(View(), TimerFired(made))
      modifies this
      ensures View() == Next(old(View()), TimerFired(made))
    {
      timers := timers - 1;
      if !isConnected && made {
        InitWebSocket();
      }
    }
  }

  // ----- Opening -----

  function Fates(s: State, rs: seq<Request>): seq<Effect> {
    seq(|rs|, k requires 0 <= k < |rs| => Fate(s, rs[k]))
  }

  lemma {:induction false} DrainFates(s: State)
    ensures Drain(s) == s.(queue := [], log := s.log + Fates(s, s.queue))
    decreases |s.queue|
  {
    if s.queue == [] {
      assert s.log + Fates(s, []) == s.log;
    } else {
      var t := Log(s.(queue := s.queue[1..]), Fate(s, s.queue[0]));
      assert forall r :: Fate(t, r) == Fate(s, r);
      assert Fates(s, s.queue) == [Fate(s, s.queue[0])] + Fates(t, t.queue);
      hide Fate, Fates;
      DrainFates(t);
    }
  }

  /** When a socket opens, the handshake comes first and then every queued command, once and in order,
      and the queue is empty. All of them go over the current socket, which is another one if this has been
      replaced; if that is not open, all of them are lost. */
  lemma OpeningDrains(s: State, i: nat)
    requires Possible(s, SocketOpened(i))
    ensures var t := Next(s, SocketOpened(i));
            var open := s.ws == Some(i) || SocketReady(s);
            && t.queue == [] && t.ws == s.ws && |Fates(t, s.queue)| == |s.queue|
            && t.log == s.log
                        + [ConnectionReported(true), if open then HandshakeSent(s.ws.value) else HandshakeDropped]
                        + Fates(t, s.queue)
            && forall k :: 0 <= k < |s.queue| ==>
                 Fates(t, s.queue)[k] ==
                 if BuildCommand(s.queue[k]).None? then Refused(s.queue[k])
                 else if open then Sent(s.ws.value, s.queue[k])
                 else Dropped(s.queue[k])
  {
    var u := Log(s.(sockets := s.sockets[i := Open], connected := true, attempts := 0),
                 ConnectionReported(true));
    var v := Log(u, if SocketReady(u) then HandshakeSent(u.ws.value) else HandshakeDropped);
    DrainFates(v);
    hide BuildCommand, Drain;
    var t := Next(s, SocketOpened(i));
    assert forall r :: Fate(t, r) == Fate(v, r);
    assert Fates(t, s.queue) == Fates(v, s.queue);
    assert SocketReady(t) <==> s.ws == Some(i) || SocketReady(s);
  }

  // ----- Runs -----

  /** An input that cannot happen does not. */
  ghost function After(xs: seq<Input>): State {
    if xs == [] then INITIAL
    else
      var s := After(xs[..|xs| - 1]);
      if Possible(s, xs[|xs| - 1]) then Next(s, xs[|xs| - 1]) else s
  }

  function Given(xs: seq<Input>): seq<Request> {
    if xs == [] then []
    else
      var x := xs[|xs| - 1];
      Given(xs[..|xs| - 1]) + (if x.Command? then [x.request] else [])
  }

  /** The commands of which a fate is recorded. */
  function Attempted(log: seq<Effect>): seq<Request> {
    if log == [] then []
    else
      var e := log[|log| - 1];
      Attempted(log[..|log| - 1]) + (if e.Sent? || e.Dropped? || e.Refused? then [e.request] else [])
  }

  lemma {:induction false} AttemptedConcat(a: seq<Effect>, b: seq<Effect>)
    ensures Attempted(a + b) == Attempted(a) + Attempted(b)
  {
    if b == [] {
      assert a + b == a;
    } else {
      assert (a + b)[..|a + b| - 1] == a + b[..|b| - 1];
      AttemptedConcat(a, b[..|b| - 1]);
    }
  }

  lemma AttemptedOne(log: seq<Effect>, e: Effect)
    ensures Attempted(log + [e]) == Attempted(log) + (if e.Sent? || e.Dropped? || e.Refused? then [e.request] else [])
  {
    assert (log + [e])[..|log + [e]| - 1] == log;
  }

  lemma {:induction false} AttemptedFates(s: State, rs: seq<Request>)
    ensures Attempted(Fates(s, rs)) == rs
  {
    if rs != [] {
      var init, last := rs[..|rs| - 1], rs[|rs| - 1];
      AttemptedFates(s, init);
      assert Fates(s, rs) == Fates(s, init) + [Fate(s, last)];
      AttemptedOne(Fates(s, init), Fate(s, last));
      assert rs == init + [last];
    }
  }

  // ----- Every command, once, in order -----

  predicate Conserves(s: State, t: State, given: seq<Request>) {
    Attempted(t.log) + t.queue == Attempted(s.log) + s.queue + given
  }

  lemma LoggedConserves(s: State, t: State, e: Effect)
    requires t.log == s.log + [e] && t.queue == s.queue && !e.Sent? && !e.Dropped? && !e.Refused?
    ensures Conserves(s, t, [])
  {
    AttemptedOne(s.log, e);
  }

  lemma ScheduleConserves(s: State)
    ensures Conserves(s, Schedule(s), []) && Schedule(s).queue == s.queue && Schedule(s).connected == s.connected
  {
    hide Attempted, Pow2, Conserves;
    if s.attempts >= MAX_RECONNECT_ATTEMPTS {
      LoggedConserves(s, Schedule(s), ErrorReported);
    } else {
      LoggedConserves(s, Schedule(s), Scheduled(RECONNECT_DELAY * Pow2(s.attempts)));
    }
  }

  lemma CommandConserves(s: State, r: Request)
    requires s.connected ==> s.queue == []
    ensures Conserves(s, GiveCommand(s, r), [r])
  {
    AttemptedOne(s.log, Fate(s, r));
    hide Attempted, BuildCommand;
  }

  lemma CloseConserves(s: State, i: nat, code: int)
    requires Possible(s, SocketClosed(i, code))
    ensures var t := Next(s, SocketClosed(i, code)); Conserves(s, t, []) && !t.connected
  {
    var t := Log(s.(sockets := s.sockets[i := Closed], connected := false), ConnectionReported(false));
    LoggedConserves(s, t, ConnectionReported(false));
    LoggedConserves(t, Log(t, UnauthorizedReported), UnauthorizedReported);
    ScheduleConserves(t);
    hide Attempted, Schedule;
  }

  lemma ConnectConserves(s: State, made: bool)
    ensures Conserves(s, Next(s, Connect(made)), [])
    ensures s.connected ==> Next(s, Connect(made)) == s
    ensures !s.connected ==> !Next(s, Connect(made)).connected
  {
    var t := Log(s, ErrorReported);
    LoggedConserves(s, t, ErrorReported);
    LoggedConserves(s, MakeSocket(s), SocketMade);
    ScheduleConserves(t);
    hide Attempted, Schedule;
  }

  lemma StepConserves(s: State, x: Input)
    requires Possible(s, x)
    requires s.connected ==> s.queue == []
    ensures Conserves(s, Next(s, x), if x.Command? then [x.request] else [])
    ensures Next(s, x).connected ==> Next(s, x).queue == []
  {
    hide Attempted, GreetThenDrain, Schedule, Fate;
    match x
    case Connect(made) => ConnectConserves(s, made);
    case Disconnect => LoggedConserves(s, Next(s, x), ConnectionReported(false));
    case Command(r) => CommandConserves(s, r);
    case SocketOpened(i) => OpeningConserves(s, i);
    case SocketClosing(i) =>
    case SocketClosed(i, code) => CloseConserves(s, i, code);
    case TimerFired(made) => LoggedConserves(s, MakeSocket(s), SocketMade);
  }

  lemma OpeningConserves(s: State, i: nat)
    requires Possible(s, SocketOpened(i))
    ensures var t := Next(s, SocketOpened(i));
            t.queue == [] && Attempted(t.log) == Attempted(s.log) + s.queue
  {
    var u := Log(s.(sockets := s.sockets[i := Open], connected := true, attempts := 0),
                 ConnectionReported(true));
    var e := if SocketReady(u) then HandshakeSent(u.ws.value) else HandshakeDropped;
    var v := Log(u, e);
    AttemptedOne(s.log, ConnectionReported(true));
    AttemptedOne(u.log, e);
    DrainFates(v);
    AttemptedFates(v, v.queue);
    AttemptedConcat(v.log, Fates(v, v.queue));
    hide Drain, Fates, Attempted;
  }

  /** In every run the commands given are those attempted and then those queued, in the order in which
      they were given: none is lost from the queue, doubled or overtaken. While connected none waits. */
  lemma {:induction false} CommandsInOrder(xs: seq<Input>)
    ensures Attempted(After(xs).log) + After(xs).queue == Given(xs)
    ensures After(xs).connected ==> After(xs).queue == []
  {
    if xs != [] {
      var before, x := xs[..|xs| - 1], xs[|xs| - 1];
      CommandsInOrder(before);
      if Possible(After(before), x) {
        StepConserves(After(before), x);
      }
      hide Next, Attempted;
    }
  }

  // ----- Reconnecting -----

  /** The delays scheduled since the last time a socket opened or the page disconnected. */
  ghost function DelaysSinceReset(xs: seq<Input>): seq<nat> {
    if xs == [] then []
    else
      var before, x := xs[..|xs| - 1], xs[|xs| - 1];
      var s := After(before);
      if !Possible(s, x) then DelaysSinceReset(before)
      else if x.SocketOpened? || x.Disconnect? then []
      else DelaysSinceReset(before) + DelaysIn(Next(s, x).log, |s.log|)
  }

  function DelaysIn(log: seq<Effect>, start: nat): seq<nat>
    decreases |log| - start
  {
    if start >= |log| then []
    else (if log[start].Scheduled? then [log[start].delay] else []) + DelaysIn(log, start + 1)
  }

  function Sum(delays: seq<nat>): nat {
    if delays == [] then 0 else Sum(delays[..|delays| - 1]) + delays[|delays| - 1]
  }

  predicate Backoff(delays: seq<nat>) {
    forall k :: 0 <= k < |delays| ==> delays[k] == 1000 * Pow2(k)
  }

  lemma {:induction false} BackoffSum(delays: seq<nat>)
    requires Backoff(delays)
    ensures Sum(delays) == 1000 * (Pow2(|delays|) - 1)
  {
    if delays != [] {
      BackoffSum(delays[..|delays| - 1]);
    }
  }

  /** What any input but a reset does to the attempts is what it schedules. */
  lemma StepDelays(s: State, x: Input)
    requires Possible(s, x) && !x.SocketOpened? && !x.Disconnect?
    requires s.attempts <= 5
    ensures var t := Next(s, x);
            || (DelaysIn(t.log, |s.log|) == [] && t.attempts == s.attempts)
            || (DelaysIn(t.log, |s.log|) == [1000 * Pow2(s.attempts)] && t.attempts == s.attempts + 1 <= 5)
  {
    var n, t := |s.log|, Next(s, x);
    assert |t.log| <= n + 2;
    assert DelaysIn(t.log, n + 2) == [];
    if |t.log| > n + 1 {
      assert DelaysIn(t.log, n + 1) == if t.log[n + 1].Scheduled? then [t.log[n + 1].delay] else [];
    }
    hide Pow2, BuildCommand;
  }

  /** Between resets, at most five reconnections are scheduled, and the delay of each is twice that of
      the one before; together they are at most 31 seconds. */
  lemma {:induction false} ReconnectBackoff(xs: seq<Input>)
    ensures var delays := DelaysSinceReset(xs);
            && |delays| == After(xs).attempts <= 5
            && Backoff(delays)
            && Sum(delays) == 1000 * (Pow2(|delays|) - 1) <= 31000
  {
    BackoffHolds(xs);
    BackoffSum(DelaysSinceReset(xs));
    var n := |DelaysSinceReset(xs)|;
    hide DelaysSinceReset, After, Sum;
    assert Pow2(5) == 32;
    Pow2Monotone(n, 5);
  }

  lemma {:induction false} Pow2Monotone(m: nat, n: nat)
    requires m <= n
    ensures Pow2(m) <= Pow2(n)
    decreases n - m
  {
    if m < n {
      Pow2Monotone(m + 1, n);
    }
  }

  lemma {:induction false} BackoffHolds(xs: seq<Input>)
    ensures |DelaysSinceReset(xs)| == After(xs).attempts <= 5 && Backoff(DelaysSinceReset(xs))
  {
    if xs != [] {
      var before, x := xs[..|xs| - 1], xs[|xs| - 1];
      BackoffHolds(before);
      var s := After(before);
      if Possible(s, x) {
        if x.SocketOpened? {
          OpeningConserves(s, x.socket);
          OpeningResets(s, x.socket);
        } else if !x.Disconnect? {
          StepDelays(s, x);
          hide Next;
        }
      }
    }
    hide DelaysIn, Pow2, GreetThenDrain;
  }

  lemma OpeningResets(s: State, i: nat)
    requires Possible(s, SocketOpened(i))
    ensures var t := Next(s, SocketOpened(i));
            && t.connected && t.attempts == 0 && t.ws == s.ws && t.timers == s.timers
            && t.sockets == s.sockets[i := Open]
  {
    var u := Log(s.(sockets := s.sockets[i := Open], connected := true, attempts := 0),
                 ConnectionReported(true));
    DrainFates(Log(u, if SocketReady(u) then HandshakeSent(u.ws.value) else HandshakeDropped));
    hide Drain, Fates;
  }

  /** Disconnecting does not stop reconnection: when the socket then closes, another attempt is
      scheduled exactly unless it closes with code 1000 or 4003. Only a timer that fires while not
      connected makes a socket from it. */
  lemma ReconnectsAfterDisconnectIff(s: State, i: nat, code: int)
    requires i < |s.sockets| && s.sockets[i] != Closed
    ensures var t := Next(s, Disconnect);
            && Possible(t, SocketClosed(i, code))
            && var u := Next(t, SocketClosed(i, code));
               && (u.timers == s.timers + 1 <==> code != 1000 && code != 4003)
               && (u.timers == s.timers <==> code == 1000 || code == 4003)
               && (code != 1000 && code != 4003 ==>
                     Next(u, TimerFired(true)).sockets == u.sockets + [Connecting])
  {
  }

  // ----- What each socket carries -----

  /** What is sent over a socket: None is the handshake. */
  function Traffic(log: seq<Effect>, i: nat): seq<Option<Request>> {
    if log == [] then []
    else Traffic(log[..|log| - 1], i) + TrafficOf(log[|log| - 1], i)
  }

  function TrafficOf(e: Effect, i: nat): seq<Option<Request>> {
    if e == HandshakeSent(i) then [None]
    else if e.Sent? && e.socket == i then [Some(e.request)]
    else []
  }

  function Built(rs: seq<Request>): seq<Option<Request>> {
    if rs == [] then []
    else
      var last := rs[|rs| - 1];
      Built(rs[..|rs| - 1]) + (if BuildCommand(last).Some? then [Some(last)] else [])
  }

  /** What one input adds to it. */
  function NewTraffic(s: State, x: Input, i: nat): seq<Option<Request>>
    requires Possible(s, x)
  {
    if x.Command? then
      if s.connected && SocketReady(s) && s.ws == Some(i) then Built([x.request]) else []
    else if x.SocketOpened? then
      if s.ws == Some(i) && (x.socket == i || SocketReady(s)) then [None] + Built(s.queue) else []
    else []
  }

  lemma TrafficOne(log: seq<Effect>, e: Effect, i: nat)
    ensures Traffic(log + [e], i) == Traffic(log, i) + TrafficOf(e, i)
  {
    assert (log + [e])[..|log + [e]| - 1] == log;
  }

  lemma BuiltSnoc(init: seq<Request>, last: Request)
    ensures Built(init + [last]) == Built(init) + (if BuildCommand(last).Some? then [Some(last)] else [])
  {
    assert (init + [last])[..|init + [last]| - 1] == init;
  }

  lemma FatesSnoc(s: State, init: seq<Request>, last: Request)
    ensures Fates(s, init + [last]) == Fates(s, init) + [Fate(s, last)]
  {
  }

  lemma TrafficOfFate(s: State, r: Request, i: nat)
    ensures TrafficOf(Fate(s, r), i) ==
            if SocketReady(s) && s.ws == Some(i) && BuildCommand(r).Some? then [Some(r)] else []
  {
    hide BuildCommand;
  }

  lemma {:induction false} TrafficOfFates(log: seq<Effect>, s: State, rs: seq<Request>, i: nat)
    ensures Traffic(log + Fates(s, rs), i) ==
            Traffic(log, i) + (if SocketReady(s) && s.ws == Some(i) then Built(rs) else [])
  {
    if rs == [] {
      assert log + Fates(s, rs) == log;
    } else {
      var init, last := rs[..|rs| - 1], rs[|rs| - 1];
      assert rs == init + [last];
      var some := log + Fates(s, init);
      FatesSnoc(s, init, last);
      assert log + Fates(s, rs) == some + [Fate(s, last)];
      TrafficOfFates(log, s, init, i);
      TrafficOne(some, Fate(s, last), i);
      TrafficOfFate(s, last, i);
      BuiltSnoc(init, last);
    }
  }

  lemma BuiltOne(r: Request)
    ensures Built([r]) == if BuildCommand(r).Some? then [Some(r)] else []
  {
    assert [r][..0] == [];
  }

  lemma OpeningTraffic(s: State, j: nat, i: nat)
    requires Possible(s, SocketOpened(j)) && (s.ws.Some? ==> s.ws.value < |s.sockets|)
    ensures Traffic(Next(s, SocketOpened(j)).log, i) == Traffic(s.log, i) + NewTraffic(s, SocketOpened(j), i)
  {
    var u := Log(s.(sockets := s.sockets[j := Open], connected := true, attempts := 0),
                 ConnectionReported(true));
    var ready := s.ws.Some? && (s.ws == Some(j) || SocketReady(s));
    assert SocketReady(u) == ready;
    GreetingTraffic(u, i);
    TrafficOne(s.log, ConnectionReported(true), i);
    hide GreetThenDrain, Traffic, Built, SocketReady;
  }

  lemma DrainTraffic(s: State, i: nat)
    ensures Traffic(Drain(s).log, i) ==
            Traffic(s.log, i) + (if SocketReady(s) && s.ws == Some(i) then Built(s.queue) else [])
  {
    DrainFates(s);
    hide Drain, Traffic, Built, SocketReady, Fates;
    TrafficOfFates(s.log, s, s.queue, i);
  }

  lemma GreetingTraffic(s: State, i: nat)
    ensures Traffic(GreetThenDrain(s).log, i) ==
            Traffic(s.log, i) + (if SocketReady(s) && s.ws == Some(i) then [None] + Built(s.queue) else [])
  {
    var e := if SocketReady(s) then HandshakeSent(s.ws.value) else HandshakeDropped;
    var v := Log(s, e);
    assert SocketReady(v) == SocketReady(s) && GreetThenDrain(s) == Drain(v);
    assert TrafficOf(e, i) == if SocketReady(s) && s.ws == Some(i) then [None] else [];
    hide GreetThenDrain, SocketReady, TrafficOf, Drain, Traffic, Built;
    TrafficOne(s.log, e, i);
    DrainTraffic(v, i);
  }

  lemma StepTraffic(s: State, x: Input, i: nat)
    requires Possible(s, x) && (s.ws.Some? ==> s.ws.value < |s.sockets|)
    ensures Traffic(Next(s, x).log, i) == Traffic(s.log, i) + NewTraffic(s, x, i)
  {
    hide Traffic, GreetThenDrain, BuildCommand, Pow2, Built;
    match x
    case Connect(made) =>
      var t := Log(s, ErrorReported);
      TrafficOne(s.log, SocketMade, i);
      TrafficOne(s.log, ErrorReported, i);
      TrafficOne(t.log, ErrorReported, i);
      TrafficOne(t.log, Scheduled(RECONNECT_DELAY * Pow2(s.attempts)), i);
    case Disconnect => TrafficOne(s.log, ConnectionReported(false), i);
    case Command(r) =>
      TrafficOne(s.log, Fate(s, r), i);
      BuiltOne(r);
    case SocketOpened(j) => OpeningTraffic(s, j, i);
    case SocketClosing(j) =>
    case SocketClosed(j, code) =>
      var t := Log(s, ConnectionReported(false));
      TrafficOne(s.log, ConnectionReported(false), i);
      TrafficOne(t.log, UnauthorizedReported, i);
      TrafficOne(t.log, Scheduled(RECONNECT_DELAY * Pow2(s.attempts)), i);
    case TimerFired(made) => TrafficOne(s.log, SocketMade, i);
  }

  ghost predicate SocketInv(s: State, i: nat) {
    var traffic := Traffic(s.log, i);
    && (traffic == [] || traffic[0].None?)
    && (i >= |s.sockets| || s.sockets[i] == Connecting ==> traffic == [])
    && (s.ws == Some(i) && SocketReady(s) ==> traffic != [])
  }

  /** What a step does to the sockets. */
  lemma StepSockets(s: State, x: Input)
    requires Possible(s, x) && (s.ws.Some? ==> s.ws.value < |s.sockets|)
    ensures var t := Next(s, x);
            && (t.ws.Some? ==> t.ws.value < |t.sockets|)
            && |t.sockets| >= |s.sockets|
            && (SocketReady(t) ==> t.ws == s.ws && (SocketReady(s) || x == SocketOpened(t.ws.value)))
            && forall i :: 0 <= i < |t.sockets| && t.sockets[i] == Connecting ==>
                 i >= |s.sockets| || (s.sockets[i] == Connecting && x != SocketOpened(i))
  {
    if x.SocketOpened? {
      OpeningResets(s, x.socket);
    }
    hide GreetThenDrain, BuildCommand, Pow2;
  }

  lemma {:induction false} BuiltAreRequests(rs: seq<Request>)
    ensures forall k :: 0 <= k < |Built(rs)| ==> Built(rs)[k].Some?
  {
    if rs != [] {
      BuiltAreRequests(rs[..|rs| - 1]);
    }
  }

  lemma StepKeepsSocketInv(s: State, x: Input, i: nat)
    requires Possible(s, x) && (s.ws.Some? ==> s.ws.value < |s.sockets|)
    requires SocketInv(s, i)
    ensures SocketInv(Next(s, x), i)
  {
    StepTraffic(s, x, i);
    StepSockets(s, x);
    hide Traffic, Next, Built;
  }

  /** In every run, the first thing any socket carries is the handshake. */
  lemma {:induction false} HandshakeFirst(xs: seq<Input>, i: nat)
    ensures SocketInv(After(xs), i)
    ensures After(xs).ws.Some? ==> After(xs).ws.value < |After(xs).sockets|
    ensures var traffic := Traffic(After(xs).log, i); traffic == [] || traffic[0].None?
  {
    if xs != [] {
      var before, x := xs[..|xs| - 1], xs[|xs| - 1];
      HandshakeFirst(before, i);
      if Possible(After(before), x) {
        StepKeepsSocketInv(After(before), x, i);
        StepSockets(After(before), x);
      }
      hide Next, SocketInv;
    }
  }

  /** At some time one socket opened while another was the current one, and open. */
  ghost predicate StaleOpening(xs: seq<Input>) {
    xs != [] &&
    var before, x := xs[..|xs| - 1], xs[|xs| - 1];
    var s := After(before);
    || StaleOpening(before)
    || (x.SocketOpened? && Possible(s, x) && s.ws != Some(x.socket) && SocketReady(s))
  }

  predicate OneHandshake(traffic: seq<Option<Request>>) {
    traffic != [] ==> traffic[0].None? && forall k :: 0 < k < |traffic| ==> traffic[k].Some?
  }

  lemma OneHandshakeConcat(t: seq<Option<Request>>, added: seq<Option<Request>>)
    requires t == [] || t[0].None?
    ensures OneHandshake(t + added) <==>
            if t == [] then OneHandshake(added)
            else OneHandshake(t) && forall k :: 0 <= k < |added| ==> added[k].Some?
  {
    var after := t + added;
    assert forall k :: 0 <= k < |t| ==> after[k] == t[k];
    assert forall k :: 0 <= k < |added| ==> after[|t| + k] == added[k];
    if t == [] {
      assert after == added;
    }
  }

  lemma StepKeepsOneHandshakeIff(s: State, x: Input, i: nat)
    requires Possible(s, x) && (s.ws.Some? ==> s.ws.value < |s.sockets|)
    requires SocketInv(s, i)
    ensures OneHandshake(Traffic(Next(s, x).log, i)) <==>
            && OneHandshake(Traffic(s.log, i))
            && !(x.SocketOpened? && s.ws == Some(i) && x.socket != i && SocketReady(s))
  {
    StepTraffic(s, x, i);
    OneHandshakeConcat(Traffic(s.log, i), NewTraffic(s, x, i));
    if x.Command? {
      BuiltAreRequests([x.request]);
    } else if x.SocketOpened? {
      BuiltAreRequests(s.queue);
      var added := NewTraffic(s, x, i);
      assert forall k :: 0 < k < |added| ==> added[k] == Built(s.queue)[k - 1];
      assert added != [] ==> added[0].None?;
    }
    hide Next, Traffic, Built;
  }

  ghost predicate EachGreetedOnce(s: State) {
    forall i: nat :: OneHandshake(Traffic(s.log, i))
  }

  lemma StepGreetsOnceIff(s: State, x: Input)
    requires Possible(s, x) && (s.ws.Some? ==> s.ws.value < |s.sockets|)
    requires forall i: nat :: SocketInv(s, i)
    ensures EachGreetedOnce(Next(s, x)) <==>
            EachGreetedOnce(s) && !(x.SocketOpened? && s.ws != Some(x.socket) && SocketReady(s))
  {
    var t := Next(s, x);
    forall i: nat
      ensures OneHandshake(Traffic(t.log, i)) <==>
              && OneHandshake(Traffic(s.log, i))
              && !(x.SocketOpened? && s.ws == Some(i) && x.socket != i && SocketReady(s))
    {
      assert SocketInv(s, i);
      StepKeepsOneHandshakeIff(s, x, i);
    }
    hide Traffic, OneHandshake, Next, SocketInv;
    if !EachGreetedOnce(s) {
      var i: nat :| !OneHandshake(Traffic(s.log, i));
      assert !OneHandshake(Traffic(t.log, i));
    } else if x.SocketOpened? && SocketReady(s) && s.ws != Some(x.socket) {
      assert !OneHandshake(Traffic(t.log, s.ws.value));
    } else {
      assert forall i: nat :: OneHandshake(Traffic(s.log, i)) ==> OneHandshake(Traffic(t.log, i));
    }
  }

  /** Every socket carries its handshake only once, before all commands, exactly if no socket opens
      while another is the current one and open. (The server ends a session on a second handshake.) */
  lemma {:induction false} OneHandshakeIff(xs: seq<Input>)
    ensures EachGreetedOnce(After(xs)) <==> !StaleOpening(xs)
  {
    if xs != [] {
      var before, x := xs[..|xs| - 1], xs[|xs| - 1];
      OneHandshakeIff(before);
      forall i: nat ensures SocketInv(After(before), i) {
        HandshakeFirst(before, i);
      }
      HandshakeFirst(before, 0);
      if Possible(After(before), x) {
        StepGreetsOnceIff(After(before), x);
      }
      hide EachGreetedOnce, SocketInv, Next;
    }
  }

  lemma TwoOpenings(s: State)
    requires s.ws == Some(1) && s.sockets == [Connecting, Connecting] && s.queue == []
    requires Traffic(s.log, 0) == [] && Traffic(s.log, 1) == []
    ensures var t := Next(s, SocketOpened(1));
            && Possible(t, SocketOpened(0))
            && Traffic(Next(t, SocketOpened(0)).log, 1) == [None, None]
            && Traffic(Next(t, SocketOpened(0)).log, 0) == []
  {
    var t := Next(s, SocketOpened(1));
    OpeningResets(s, 1);
    OpeningConserves(s, 1);
    assert Built([]) == [];
    hide GreetThenDrain, Next, Attempted, Traffic, Built;
    StepTraffic(s, SocketOpened(1), 0);
    StepTraffic(s, SocketOpened(1), 1);
    StepTraffic(t, SocketOpened(0), 0);
    StepTraffic(t, SocketOpened(0), 1);
  }

  lemma AfterOne(xs: seq<Input>, x: Input)
    ensures After(xs + [x]) == if Possible(After(xs), x) then Next(After(xs), x) else After(xs)
  {
    assert (xs + [x])[..|xs + [x]| - 1] == xs;
  }

  lemma TwoSocketsMade()
    ensures After([Connect(true)] + [Connect(true)]) == MakeSocket(MakeSocket(INITIAL))
  {
    AfterOne([], Connect(true));
    AfterOne([Connect(true)], Connect(true));
    assert [] + [Connect(true)] == [Connect(true)];
    assert After([]) == INITIAL;
    hide After;
  }

  /** It can happen: the page connects again before its first socket has opened. */
  lemma ConnectingTwiceGreetsTwice()
    ensures var xs := [Connect(true)] + [Connect(true)] + [SocketOpened(1)] + [SocketOpened(0)];
            Traffic(After(xs).log, 1) == [None, None] && Traffic(After(xs).log, 0) == []
  {
    hide After;
    var one := [Connect(true)];
    var two := one + [Connect(true)];
    var s := MakeSocket(MakeSocket(INITIAL));
    TwoSocketsMade();
    forall i: nat ensures Traffic(s.log, i) == [] {
      TrafficOne([], SocketMade, i);
      TrafficOne([SocketMade], SocketMade, i);
    }
    TwoOpenings(s);
    hide GreetThenDrain, Traffic;
    AfterOne(two, SocketOpened(1));
    AfterOne(two + [SocketOpened(1)], SocketOpened(0));
  }
}
