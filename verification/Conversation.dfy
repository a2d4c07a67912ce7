/** A browser's socket and the WebSocket session that serves it: what processMessages of
    internal/server/websocket_proxy.go does with what frontend/src/websocket-communicator.ts sends,
    whatever else happens to the session meanwhile. */
module Conversation {
  import opened Domain
  import opened Requests
  import Browser
  import Bus
  import Sessions

  type Traffic = seq<Option<Request>>

  /** The command the server decodes, if any. */
  function Decoded(r: Request): Option<Command> {
    match Received(r)
    case Some(Ok(cmd)) => Some(cmd)
    case _ => None
  }

  predicate IsFromClient(t: Sessions.Turn) {
    t.StartHandshake? || t.OtherCommand? || t.NotACommand?
  }

  /** The turns in which something arrives from the client. */
  function FromClient(turns: seq<Sessions.Turn>): seq<Sessions.Turn> {
    if turns == [] then []
    else
      var last := turns[|turns| - 1];
      FromClient(turns[..|turns| - 1]) + (if IsFromClient(last) then [last] else [])
  }

  predicate Brings(t: Sessions.Turn, sent: Option<Request>) {
    match sent
    case None => t.StartHandshake?
    case Some(r) => t == Sessions.OtherCommand(Decoded(r))
  }

  /** What arrives in these turns is the beginning of what the socket carries. Between, and after, there
      may be any other turns. */
  ghost predicate Carries(turns: seq<Sessions.Turn>, traffic: Traffic) {
    var arrived := FromClient(turns);
    |arrived| <= |traffic| && forall k :: 0 <= k < |arrived| ==> Brings(arrived[k], traffic[k])
  }

  /** The commands to dispatch, under the client's own ID. */
  function Commands(traffic: Traffic, id: Bus.ClientID): seq<(Bus.ClientID, Command)> {
    if traffic == [] then []
    else
      var last := traffic[|traffic| - 1];
      Commands(traffic[..|traffic| - 1], id) +
      (if last.Some? && Decoded(last.value).Some? then [(id, Decoded(last.value).value)] else [])
  }

  ghost function Serve(turns: seq<Sessions.Turn>): Sessions.Session {
    Sessions.TakeTurns(Sessions.NewSession(Sessions.WebSocket), turns)
  }

  // ----- What is dispatched -----

  /** got has arrived so far. */
  ghost predicate Serves(s: Sessions.Session, got: Traffic) {
    && (s.client.None? <==> s.phase == Sessions.Greeting || s.phase == Sessions.Ended)
    && (s.client.None? ==> s.dispatched == [])
    && (s.client.Some? ==> s.dispatched <= Commands(got, s.client.value))
    && (s.phase == Sessions.Greeting ==> got == [])
    && (s.phase == Sessions.Streaming ==>
          got != [] && Browser.OneHandshake(got) && s.dispatched == Commands(got, s.client.value))
  }

  lemma CommandsSnoc(got: Traffic, x: Option<Request>, id: Bus.ClientID)
    ensures Commands(got + [x], id) ==
            Commands(got, id) + (if x.Some? && Decoded(x.value).Some? then [(id, Decoded(x.value).value)] else [])
  {
    assert (got + [x])[..|got + [x]| - 1] == got;
  }

  lemma OneHandshakeSnoc(got: Traffic, x: Option<Request>)
    ensures Browser.OneHandshake(got + [x]) <==>
            if got == [] then x.None? else Browser.OneHandshake(got) && x.Some?
  {
    var t := got + [x];
    assert t[|got|] == x && forall k :: 0 <= k < |got| ==> t[k] == got[k];
  }

  function OneTurn(s: Sessions.Session, t: Sessions.Turn): Sessions.Session {
    if Sessions.Active(s) && Sessions.Possible(s, t) then Sessions.TakeTurn(s, t) else s
  }

  lemma ArrivalKeepsServes(s: Sessions.Session, got: Traffic, t: Sessions.Turn, x: Option<Request>)
    requires Serves(s, got) && Brings(t, x) && (got == [] ==> x.None?)
    ensures Serves(OneTurn(s, t), got + [x])
  {
    OneHandshakeSnoc(got, x);
    if s.client.Some? {
      CommandsSnoc(got, x, s.client.value);
    } else if t.StartHandshake? && t.sent.Some? {
      CommandsSnoc(got, x, t.sent.value);
    }
    assert Commands([], "") == [];
    hide Decoded, Browser.OneHandshake;
  }

  lemma OtherTurnKeepsServes(s: Sessions.Session, got: Traffic, t: Sessions.Turn)
    requires Serves(s, got) && !IsFromClient(t)
    ensures Serves(OneTurn(s, t), got)
  {
    hide Commands, Browser.OneHandshake;
  }

  lemma ServeOne(init: seq<Sessions.Turn>, t: Sessions.Turn)
    ensures Serve(init + [t]) == OneTurn(Serve(init), t)
    ensures FromClient(init + [t]) == FromClient(init) + (if IsFromClient(t) then [t] else [])
  {
    assert (init + [t])[..|init + [t]| - 1] == init;
    hide Sessions.TakeTurn, Sessions.Possible;
  }

  lemma CarriesInit(init: seq<Sessions.Turn>, t: Sessions.Turn, traffic: Traffic)
    requires Carries(init + [t], traffic)
    ensures Carries(init, traffic)
    ensures var n := |FromClient(init)|; IsFromClient(t) ==> n < |traffic| && Brings(t, traffic[n])
  {
    ServeOne(init, t);
    var before, arrived := FromClient(init), FromClient(init + [t]);
    hide FromClient, Brings, IsFromClient, Serve, OneTurn;
    assert forall k :: 0 <= k < |before| ==> before[k] == arrived[k];
    assert IsFromClient(t) ==> arrived[|before|] == t;
  }

  lemma ServesOneMore(init: seq<Sessions.Turn>, t: Sessions.Turn, traffic: Traffic)
    requires Carries(init + [t], traffic) && (traffic == [] || traffic[0].None?)
    requires |FromClient(init)| <= |traffic| && Serves(Serve(init), traffic[..|FromClient(init)|])
    ensures Serves(Serve(init + [t]), traffic[..|FromClient(init + [t])|])
  {
    hide Serves, Serve, OneTurn, FromClient, Brings, IsFromClient;
    ServeOne(init, t);
    CarriesInit(init, t, traffic);
    var n := |FromClient(init)|;
    if IsFromClient(t) {
      ArrivalKeepsServes(Serve(init), traffic[..n], t, traffic[n]);
      assert traffic[..n + 1] == traffic[..n] + [traffic[n]];
    } else {
      OtherTurnKeepsServes(Serve(init), traffic[..n], t);
    }
  }

  lemma {:induction false} SessionServes(turns: seq<Sessions.Turn>, traffic: Traffic)
    requires Carries(turns, traffic) && (traffic == [] || traffic[0].None?)
    ensures Serves(Serve(turns), traffic[..|FromClient(turns)|])
  {
    if turns != [] {
      hide Serves, Serve, FromClient;
      var init, t := turns[..|turns| - 1], turns[|turns| - 1];
      assert turns == init + [t];
      CarriesInit(init, t, traffic);
      SessionServes(init, traffic);
      ServesOneMore(init, t, traffic);
    }
  }

  lemma {:induction false} CommandsPrefix(traffic: Traffic, n: nat, id: Bus.ClientID)
    requires n <= |traffic|
    ensures Commands(traffic[..n], id) <= Commands(traffic, id)
    ensures forall k :: 0 <= k < |Commands(traffic, id)| ==> Commands(traffic, id)[k].0 == id
  {
    if n == |traffic| {
      assert traffic[..n] == traffic;
      if traffic != [] {
        CommandsPrefix(traffic[..|traffic| - 1], |traffic| - 1, id);
      }
    } else {
      CommandsPrefix(traffic[..|traffic| - 1], n, id);
      assert traffic[..|traffic| - 1][..n] == traffic[..n];
    }
  }

  /** In every run of the browser, for each of its sockets, and for every session that serves it, with
      whatever bus events, timeouts and closings among its turns: the session dispatches, in order, a
      beginning of the commands sent over the socket that can be decoded, and each under the client's
      own ID, never the empty one. While it is streaming it has dispatched all that have arrived. */
  lemma {:induction false} SocketIsServed(xs: seq<Browser.Input>, i: nat, turns: seq<Sessions.Turn>)
    requires Carries(turns, Browser.Traffic(Browser.After(xs).log, i))
    ensures
      var traffic := Browser.Traffic(Browser.After(xs).log, i);
      var s := Serve(turns);
      && (s.client.None? ==> s.dispatched == [])
      && (s.client.Some? ==>
            && s.dispatched <= Commands(traffic, s.client.value)
            && forall k :: 0 <= k < |s.dispatched| ==> s.dispatched[k].0 == s.client.value)
      && (s.phase == Sessions.Streaming ==>
            s.client.Some? && s.dispatched == Commands(traffic[..|FromClient(turns)|], s.client.value))
  {
    var traffic := Browser.Traffic(Browser.After(xs).log, i);
    Browser.HandshakeFirst(xs, i);
    SessionServes(turns, traffic);
    if Serve(turns).client.Some? {
      CommandsPrefix(traffic, |FromClient(turns)|, Serve(turns).client.value);
    }
    hide Browser.After, Browser.Traffic, Serve, Commands, Browser.OneHandshake, Browser.SocketInv, FromClient;
  }

  // ----- How a session ends -----

  predicate EndsGreeting(t: Sessions.Turn) {
    t.ContextDone? || t.CommandsClosed? || t.HandshakeTimeout? || (t.StartHandshake? && t.sent.None?)
  }

  /** A second handshake, the context, the socket, or an event that could not be passed on. */
  predicate EndsStreaming(t: Sessions.Turn) {
    t.ContextDone? || t.CommandsClosed? || t.StartHandshake? || (t.BusEvent? && !t.forwarded)
  }

  /** The turn that ended the session. */
  ghost predicate EndedBy(turns: seq<Sessions.Turn>, k: nat) {
    && k < |turns|
    && ((Serve(turns[..k]).phase == Sessions.Greeting && EndsGreeting(turns[k]))
        || (Serve(turns[..k]).phase == Sessions.Streaming && EndsStreaming(turns[k])))
  }

  lemma {:induction false} StaysEnded(turns: seq<Sessions.Turn>, k: nat)
    requires k <= |turns| && !Sessions.Active(Serve(turns[..k]))
    ensures Serve(turns) == Serve(turns[..k])
    decreases |turns| - k
  {
    if k == |turns| {
      assert turns[..k] == turns;
    } else {
      assert turns[..k + 1][..k] == turns[..k];
      StaysEnded(turns, k + 1);
    }
  }

  /** A session has ended exactly if one of its turns has ended it: there is no other way out. */
  lemma {:induction false} SessionEndsIff(turns: seq<Sessions.Turn>)
    ensures !Sessions.Active(Serve(turns)) <==> exists k: nat :: EndedBy(turns, k)
  {
    if exists k: nat :: EndedBy(turns, k) {
      var k: nat :| EndedBy(turns, k);
      assert turns[..k + 1][..k] == turns[..k];
      StaysEnded(turns, k + 1);
    } else if turns != [] {
      var last := |turns| - 1;
      forall k: nat ensures !EndedBy(turns[..last], k) {
        if k < last {
          assert turns[..last][..k] == turns[..k];
          assert !EndedBy(turns, k);
        }
      }
      SessionEndsIff(turns[..last]);
      assert !EndedBy(turns, last);
    }
  }

  /** The browser's own doing is never what ends it, exactly as long as the socket carries one handshake:
      a session that serves a socket ends by a second handshake only if a stale socket has opened. */
  lemma SecondHandshakeIsStale(
      xs: seq<Browser.Input>, i: nat, turns: seq<Sessions.Turn>, k: nat)
    requires Carries(turns, Browser.Traffic(Browser.After(xs).log, i))
    requires EndedBy(turns, k) && turns[k].StartHandshake? && turns[k].sent.Some?
    ensures Browser.StaleOpening(xs)
  {
    var traffic := Browser.Traffic(Browser.After(xs).log, i);
    Browser.HandshakeFirst(xs, i);
    Browser.OneHandshakeIff(xs);
    CarriesPrefix(turns, traffic, k);
    CarriesPrefix(turns, traffic, k + 1);
    SessionServes(turns[..k], traffic);
    var n := |FromClient(turns[..k])|;
    assert turns[..k + 1][..k] == turns[..k];
    assert FromClient(turns[..k + 1]) == FromClient(turns[..k]) + [turns[k]];
    assert Brings(turns[k], traffic[n]);
    hide Browser.After, Browser.Traffic, Commands, Browser.SocketInv, FromClient, Browser.StaleOpening;
  }

  lemma {:induction false} CarriesPrefix(turns: seq<Sessions.Turn>, traffic: Traffic, k: nat)
    requires k <= |turns| && Carries(turns, traffic)
    ensures Carries(turns[..k], traffic)
    ensures FromClient(turns[..k]) <= FromClient(turns)
  {
    if k == |turns| {
      assert turns[..k] == turns;
    } else {
      var init := turns[..|turns| - 1];
      assert FromClient(init) <= FromClient(turns);
      assert forall j :: 0 <= j < |FromClient(init)| ==> FromClient(init)[j] == FromClient(turns)[j];
      CarriesPrefix(init, traffic, k);
      assert init[..k] == turns[..k];
    }
  }
}
