/** What the page is told of its connection, and when there is one, read off what the browser called back
    (frontend/src/websocket-communicator.ts:37-246). */
module Connection {
  import opened Domain
  import opened Browser
  import Requests

  /** Input k happened. */
  ghost predicate Happened(xs: seq<Input>, k: nat) {
    k < |xs| && Possible(After(xs[..k]), xs[k])
  }

  /** A socket has opened, and since then neither has any closed nor has the page disconnected. */
  ghost predicate Up(xs: seq<Input>) {
    exists k: nat :: Happened(xs, k) && xs[k].SocketOpened? && NoneDownAfter(xs, k)
  }

  ghost predicate NoneDownAfter(xs: seq<Input>, k: nat) {
    forall j: nat :: k < j && Happened(xs, j) ==> !xs[j].SocketClosed? && !xs[j].Disconnect?
  }

  lemma {:induction false} HappenedSnoc(xs: seq<Input>, x: Input, k: nat)
    ensures k < |xs| ==> (Happened(xs + [x], k) <==> Happened(xs, k))
    ensures Happened(xs + [x], |xs|) <==> Possible(After(xs), x)
  {
    if k < |xs| {
      assert (xs + [x])[..k] == xs[..k];
    }
    assert (xs + [x])[..|xs|] == xs;
    hide After, Possible;
  }

  lemma {:induction false} SameHistory(xs: seq<Input>, x: Input)
    ensures forall k: nat :: Happened(xs, k) <==> k < |xs| && Happened(xs + [x], k)
    ensures forall k: nat :: Happened(xs, k) ==> k < |xs| && (xs + [x])[k] == xs[k]
    ensures Happened(xs + [x], |xs|) <==> Possible(After(xs), x)
    ensures forall k: nat :: Happened(xs + [x], k) ==> k <= |xs|
  {
    forall k: nat
      ensures k < |xs| ==> (Happened(xs + [x], k) <==> Happened(xs, k))
    {
      HappenedSnoc(xs, x, k);
    }
    HappenedSnoc(xs, x, 0);
    hide After, Possible;
  }

  lemma {:induction false} StaysUp(xs: seq<Input>, x: Input)
    requires Up(xs) && (Possible(After(xs), x) ==> !x.SocketClosed? && !x.Disconnect?)
    ensures Up(xs + [x])
  {
    SameHistory(xs, x);
    hide Happened, After, Possible;
    var k: nat :| Happened(xs, k) && xs[k].SocketOpened? && NoneDownAfter(xs, k);
    assert Happened(xs + [x], k);
  }

  lemma {:induction false} WasUp(xs: seq<Input>, x: Input)
    requires Up(xs + [x]) && !(Possible(After(xs), x) && x.SocketOpened?)
    ensures Up(xs) && (Possible(After(xs), x) ==> !x.SocketClosed? && !x.Disconnect?)
  {
    SameHistory(xs, x);
    hide Happened, After, Possible;
    var ys := xs + [x];
    var k: nat :| Happened(ys, k) && ys[k].SocketOpened? && NoneDownAfter(ys, k);
    assert k < |xs| && Happened(xs, k) && xs[k].SocketOpened?;
  }

  lemma {:induction false} UpSnoc(xs: seq<Input>, x: Input)
    ensures Up(xs + [x]) <==>
            if !Possible(After(xs), x) then Up(xs)
            else x.SocketOpened? || (Up(xs) && !x.SocketClosed? && !x.Disconnect?)
  {
    if Possible(After(xs), x) && x.SocketOpened? {
      SameHistory(xs, x);
      hide Happened, After, Possible;
      assert (xs + [x])[|xs|] == x && NoneDownAfter(xs + [x], |xs|);
    } else if Up(xs + [x]) {
      WasUp(xs, x);
      hide Up, After, Possible;
    } else if Up(xs) && (Possible(After(xs), x) ==> !x.SocketClosed? && !x.Disconnect?) {
      StaysUp(xs, x);
      assert false;
    }
  }

  lemma StepConnected(s: State, x: Input)
    requires Possible(s, x)
    ensures Next(s, x).connected <==> x.SocketOpened? || (s.connected && !x.SocketClosed? && !x.Disconnect?)
  {
    if x.SocketOpened? {
      OpeningResets(s, x.socket);
    }
    hide GreetThenDrain, Requests.BuildCommand, Pow2;
  }

  /** In every run the communicator counts as connected exactly if some socket has opened since any last closed
      and since the page last disconnected. */
  lemma {:induction false} ConnectedIff(xs: seq<Input>)
    ensures After(xs).connected <==> Up(xs)
  {
    if xs != [] {
      var init, x := xs[..|xs| - 1], xs[|xs| - 1];
      ConnectedIff(init);
      UpSnoc(init, x);
      assert xs == init + [x];
      if Possible(After(init), x) {
        StepConnected(After(init), x);
      }
      hide Next, Up, Possible;
    }
  }

  // ----- What the page is told -----

  /** What the page was told: the last connection state, how often that it is not authorised, how many errors;
      and how many sockets were made. */
  datatype Told = Told(state: Option<bool>, unauthorized: nat, errors: nat, sockets: nat)

  function Hear(told: Told, e: Effect): Told {
    match e
    case ConnectionReported(connected) => told.(state := Some(connected))
    case UnauthorizedReported => told.(unauthorized := told.unauthorized + 1)
    case ErrorReported => told.(errors := told.errors + 1)
    case SocketMade => told.(sockets := told.sockets + 1)
    case _ => told
  }

  function ToldBy(log: seq<Effect>): Told {
    if log == [] then Told(None, 0, 0, 0) else Hear(ToldBy(log[..|log| - 1]), log[|log| - 1])
  }

  lemma Logged(log: seq<Effect>, e: Effect)
    ensures ToldBy(log + [e]) == Hear(ToldBy(log), e)
  {
    assert (log + [e])[..|log|] == log;
  }

  lemma Logged2(log: seq<Effect>, d: Effect, e: Effect)
    ensures ToldBy(log + [d] + [e]) == Hear(Hear(ToldBy(log), d), e)
  {
    Logged(log, d);
    Logged(log + [d], e);
    hide ToldBy;
  }

  predicate OfCommand(e: Effect) {
    e.Sent? || e.Dropped? || e.Refused?
  }

  lemma {:induction false} CommandsTellNothing(log: seq<Effect>, more: seq<Effect>)
    requires forall k :: 0 <= k < |more| ==> OfCommand(more[k])
    ensures ToldBy(log + more) == ToldBy(log)
  {
    if more == [] {
      assert log + more == log;
    } else {
      var init, e := more[..|more| - 1], more[|more| - 1];
      CommandsTellNothing(log, init);
      assert log + more == (log + init) + [e];
      Logged(log + init, e);
      hide ToldBy;
    }
  }

  lemma FatesAreOfCommands(s: State, rs: seq<Requests.Request>)
    ensures forall k :: 0 <= k < |Fates(s, rs)| ==> OfCommand(Fates(s, rs)[k])
  {
    hide Requests.BuildCommand, SocketReady;
  }

  /** A socket cannot be made. */
  predicate Fails(s: State, x: Input) {
    x == Connect(false) && !s.connected
  }

  predicate Makes(s: State, x: Input) {
    (x == Connect(true) || x == TimerFired(true)) && !s.connected
  }

  /** What one input adds to what the page was told, and to the sockets. */
  predicate StepTells(s: State, x: Input, before: Told, after: Told) {
    && after.state == (if x.SocketOpened? then Some(true)
                       else if x.SocketClosed? || x.Disconnect? then Some(false)
                       else before.state)
    && after.unauthorized == before.unauthorized + (if x.SocketClosed? && x.code == 4003 then 1 else 0)
    && after.errors == before.errors + (if Fails(s, x) then (if s.attempts < 5 then 1 else 2) else 0)
    && after.sockets == before.sockets + (if Makes(s, x) then 1 else 0)
  }

  lemma ConnectTells(s: State, made: bool)
    ensures StepTells(s, Connect(made), ToldBy(s.log), ToldBy(Next(s, Connect(made)).log))
  {
    hide ToldBy, Pow2;
    if !s.connected && made {
      Logged(s.log, SocketMade);
    } else if !s.connected && s.attempts < 5 {
      Logged2(s.log, ErrorReported, Scheduled(1000 * Pow2(s.attempts)));
    } else if !s.connected {
      Logged2(s.log, ErrorReported, ErrorReported);
    }
  }

  lemma ClosingTells(s: State, i: nat, code: int)
    requires Possible(s, SocketClosed(i, code))
    ensures StepTells(s, SocketClosed(i, code), ToldBy(s.log), ToldBy(Next(s, SocketClosed(i, code)).log))
  {
    hide ToldBy, Pow2;
    if code == 4003 {
      Logged2(s.log, ConnectionReported(false), UnauthorizedReported);
    } else if code != 1000 && s.attempts < 5 {
      Logged2(s.log, ConnectionReported(false), Scheduled(1000 * Pow2(s.attempts)));
    } else {
      Logged(s.log, ConnectionReported(false));
    }
  }

  lemma OpeningTells(s: State, i: nat)
    requires Possible(s, SocketOpened(i))
    ensures ToldBy(Next(s, SocketOpened(i)).log) == ToldBy(s.log).(state := Some(true))
  {
    var t := Next(s, SocketOpened(i));
    var fates := Fates(t, s.queue);
    var greeting := if s.ws == Some(i) || SocketReady(s) then HandshakeSent(s.ws.value) else HandshakeDropped;
    OpeningDrains(s, i);
    FatesAreOfCommands(t, s.queue);
    hide Next, Fates, SocketReady, Requests.BuildCommand, ToldBy;
    Logged2(s.log, ConnectionReported(true), greeting);
    assert s.log + [ConnectionReported(true), greeting] == s.log + [ConnectionReported(true)] + [greeting];
    CommandsTellNothing(s.log + [ConnectionReported(true), greeting], fates);
  }

  lemma CommandTells(s: State, r: Requests.Request)
    ensures StepTells(s, Command(r), ToldBy(s.log), ToldBy(Next(s, Command(r)).log))
  {
    hide ToldBy;
    if s.connected {
      assert OfCommand(Fate(s, r)) by {
        hide SocketReady, Requests.BuildCommand;
      }
      hide Fate;
      Logged(s.log, Fate(s, r));
    }
  }

  lemma OthersTell(s: State, x: Input)
    requires Possible(s, x) && (x.Disconnect? || x.SocketClosing? || x.TimerFired?)
    ensures StepTells(s, x, ToldBy(s.log), ToldBy(Next(s, x).log))
  {
    hide ToldBy;
    if x.Disconnect? {
      Logged(s.log, ConnectionReported(false));
    } else if x.TimerFired? && x.made && !s.connected {
      Logged(s.log, SocketMade);
    }
  }

  /** For every input: the page is told of the new connection state exactly by openings, closings and disconnects,
      that it is not authorised exactly by code 4003, and of an error for a socket that cannot be made, and
      again if no reconnection is left; and a socket is made exactly by a connect or a timer, while not
      connected. */
  lemma StepTellsPage(s: State, x: Input)
    requires Possible(s, x)
    ensures StepTells(s, x, ToldBy(s.log), ToldBy(Next(s, x).log))
  {
    if x.Connect? {
      ConnectTells(s, x.made);
    } else if x.SocketClosed? {
      ClosingTells(s, x.socket, x.code);
    } else if x.SocketOpened? {
      OpeningTells(s, x.socket);
    } else if x.Command? {
      CommandTells(s, x.request);
    } else {
      OthersTell(s, x);
    }
    hide Next, ToldBy;
  }

  /** A reconnection is scheduled exactly if a socket closes with another code than 1000 and 4003, or cannot be
      made, while fewer than five have been scheduled since the last reset; its delay is then a second,
      doubled for each of those; and openings and disconnects reset. */
  lemma StepSchedulesIff(s: State, x: Input)
    requires Possible(s, x)
    ensures
      var t := Next(s, x);
      var schedules :=
        s.attempts < 5 && (Fails(s, x) || (x.SocketClosed? && x.code != 1000 && x.code != 4003));
      && t.timers == s.timers + (if schedules then 1 else 0) - (if x.TimerFired? then 1 else 0)
      && t.attempts == (if x.SocketOpened? || x.Disconnect? then 0 else s.attempts + if schedules then 1 else 0)
      && (schedules ==> t.log != [] && t.log[|t.log| - 1] == Scheduled(1000 * Pow2(s.attempts)))
  {
    if x.SocketOpened? {
      OpeningResets(s, x.socket);
    }
    hide GreetThenDrain, Requests.BuildCommand, Pow2;
  }

  /** The page always knows: what it was told last is whether the communicator is connected. */
  lemma {:induction false} PageKnows(xs: seq<Input>)
    ensures ToldBy(After(xs).log).state == Some(After(xs).connected)
            || (ToldBy(After(xs).log).state == None && !After(xs).connected)
  {
    if xs != [] {
      var init, x := xs[..|xs| - 1], xs[|xs| - 1];
      PageKnows(init);
      if Possible(After(init), x) {
        StepTellsPage(After(init), x);
        StepConnected(After(init), x);
      }
      hide Next, Possible, ToldBy, Pow2;
    }
  }

  // ----- The sockets -----

  /** What one input makes of the sockets and of which one is current. */
  predicate StepSocketsTo(s: State, x: Input, t: State) {
    && t.ws == (if Makes(s, x) then Some(|s.sockets|) else if x.Disconnect? then None else s.ws)
    && |t.sockets| == |s.sockets| + (if Makes(s, x) then 1 else 0)
    && (Makes(s, x) ==> t.sockets[|s.sockets|] == Connecting)
    && forall i :: 0 <= i < |s.sockets| ==>
         t.sockets[i] ==
         if x == SocketOpened(i) then Ready.Open
         else if x == SocketClosing(i) then Closing
         else if x.SocketClosed? && x.socket == i then Closed
         else if x.Disconnect? && s.ws == Some(i) && s.sockets[i] != Closed then Closing
         else s.sockets[i]
  }

  /** A socket changes only by what the browser reports of it, and by a disconnect, which closes the current one
      and no other; and a new one becomes the current one. */
  lemma SocketsChange(s: State, x: Input)
    requires Possible(s, x)
    ensures StepSocketsTo(s, x, Next(s, x))
  {
    if x.SocketOpened? {
      OpeningResets(s, x.socket);
    }
    hide GreetThenDrain, Requests.BuildCommand, Pow2;
  }
}
