/** internal/event/bus.go: an event bus with one bounded, lossy, ordered queue per client. */
module Bus {
  import opened Domain

  type ClientID = string

  const CHANNEL_SIZE := 64

  // ----- One client's channel, on values -----

  /** The buffer and whether it has been closed; and, as history, the events offered to it since
      registration, the positions among those that were not dropped, and what has been received. */
  datatype Queue = Queue(
    buffer: seq<Event>,
    closed: bool,
    offered: seq<Event>,
    kept: seq<nat>,
    received: seq<Event>)

  const NEW_QUEUE := Queue([], false, [], [], [])

  /** A non-blocking send: dropped when the buffer is full. */
  function Offer(q: Queue, e: Event): Queue {
    if |q.buffer| < CHANNEL_SIZE then
      q.(buffer := q.buffer + [e], offered := q.offered + [e], kept := q.kept + [|q.offered|])
    else q.(offered := q.offered + [e])
  }

  function Receive(q: Queue): Queue
    requires q.buffer != []
  {
    q.(buffer := q.buffer[1..], received := q.received + [q.buffer[0]])
  }

  /** Received, then buffered, are the kept ones among the offered events, in order. */
  ghost predicate QueueInv(q: Queue) {
    && |q.buffer| <= CHANNEL_SIZE
    && |q.kept| == |q.received| + |q.buffer|
    && (forall i :: 0 <= i < |q.kept| ==> q.kept[i] < |q.offered|)
    && (forall i, j :: 0 <= i < j < |q.kept| ==> q.kept[i] < q.kept[j])
    && (forall i :: 0 <= i < |q.kept| ==> (q.received + q.buffer)[i] == q.offered[q.kept[i]])
  }

  lemma OfferKeepsInv(q: Queue, e: Event)
    requires QueueInv(q)
    ensures QueueInv(Offer(q, e)) && Offer(q, e).closed == q.closed
  {
    if |q.buffer| < CHANNEL_SIZE {
      var got, kept := q.received + q.buffer, q.kept + [|q.offered|];
      assert q.received + (q.buffer + [e]) == got + [e];
      assert forall i :: 0 <= i < |q.kept| ==> kept[i] == q.kept[i] && (got + [e])[i] == got[i];
    }
  }

  lemma ReceiveKeepsInv(q: Queue)
    requires QueueInv(q) && q.buffer != []
    ensures QueueInv(Receive(q)) && Receive(q).closed == q.closed
  {
    var t := Receive(q);
    assert t.received + t.buffer == q.received + q.buffer;
  }

  lemma NewQueueInv()
    ensures QueueInv(NEW_QUEUE)
  {
  }

  lemma CloseKeepsInv(q: Queue)
    requires QueueInv(q)
    ensures QueueInv(q.(closed := true))
  {
  }

  // ----- The bus on values -----

  /** Every channel ever made, by the client it was made for, and the clients now registered. */
  datatype BusState = BusState(queues: map<ClientID, Queue>, consumers: set<ClientID>)

  const EMPTY_BUS := BusState(map[], {})

  datatype Op =
    | Register(id: ClientID)
    | Deregister(id: ClientID)
    | Send(evt: Event)
    | SendTo(id: ClientID, evt: Event)
    | Recv(id: ClientID)     // the consumer takes a buffered event, also from a closed channel

  /** IDs are random; that a new one has not been used before is assumed. An operation that cannot
      happen leaves the state alone. */
  function Apply(b: BusState, op: Op): BusState {
    match op
    case Register(id) =>
      if id in b.queues then b else BusState(b.queues[id := NEW_QUEUE], b.consumers + {id})
    case Deregister(id) =>
      if id in b.consumers && id in b.queues
      then BusState(b.queues[id := b.queues[id].(closed := true)], b.consumers - {id})
      else b
    case Send(evt) =>
      b.(queues := map id | id in b.queues ::
                     if id in b.consumers then Offer(b.queues[id], evt) else b.queues[id])
    case SendTo(id, evt) =>
      if id in b.consumers && id in b.queues then b.(queues := b.queues[id := Offer(b.queues[id], evt)]) else b
    case Recv(id) =>
      if id in b.queues && b.queues[id].buffer != [] then b.(queues := b.queues[id := Receive(b.queues[id])]) else b
  }

  ghost function After(ops: seq<Op>): BusState {
    if ops == [] then EMPTY_BUS else Apply(After(ops[..|ops| - 1]), ops[|ops| - 1])
  }

  ghost predicate BusInv(b: BusState) {
    && b.consumers <= b.queues.Keys
    && (forall id :: id in b.queues ==> QueueInv(b.queues[id]) && (b.queues[id].closed <==> id !in b.consumers))
  }

  lemma ApplyKeepsInv(b: BusState, op: Op)
    requires BusInv(b)
    ensures BusInv(Apply(b, op))
  {
    hide QueueInv, Offer, Receive;
    var t := Apply(b, op);
    NewQueueInv();
    forall id | id in t.queues
      ensures QueueInv(t.queues[id]) && (t.queues[id].closed <==> id !in t.consumers)
    {
      if id in b.queues {
        var q := b.queues[id];
        match op
        case Send(e) => OfferKeepsInv(q, e);
        case SendTo(_, e) => OfferKeepsInv(q, e);
        case Recv(_) => if q.buffer != [] { ReceiveKeepsInv(q); }
        case Deregister(_) => CloseKeepsInv(q);
        case Register(_) =>
      }
    }
  }

  lemma {:induction false} AlwaysInv(ops: seq<Op>)
    ensures BusInv(After(ops))
  {
    hide BusInv, Apply;
    if ops != [] {
      AlwaysInv(ops[..|ops| - 1]);
      ApplyKeepsInv(After(ops[..|ops| - 1]), ops[|ops| - 1]);
    } else {
      EmptyInv();
    }
  }

  lemma EmptyInv()
    ensures BusInv(EMPTY_BUS)
  {
  }

  /** What an operation publishes to a client. */
  function PublishedBy(b: BusState, op: Op, id: ClientID): seq<Event> {
    if id !in b.consumers then []
    else
      match op
      case Send(evt) => [evt]
      case SendTo(to, evt) => if to == id then [evt] else []
      case _ => []
  }

  /** The events published to a client: those sent to everybody or to it while it was registered. */
  ghost function Published(ops: seq<Op>, id: ClientID): seq<Event> {
    if ops == [] then []
    else
      var init := ops[..|ops| - 1];
      Published(init, id) + PublishedBy(After(init), ops[|ops| - 1], id)
  }

  /** In every interleaving and for every client: what it received, followed by what is buffered for
      it, is an in-order selection from the events published to it since it registered; published =
      received + buffered + dropped; at most 64 events are buffered; and exactly the channels of
      deregistered clients are closed. */
  lemma {:induction false} InOrderSubsequence(ops: seq<Op>, id: ClientID)
    requires id in After(ops).queues
    ensures
      var q := After(ops).queues[id];
      var got := q.received + q.buffer;
      && |q.buffer| <= 64
      && |q.kept| == |got| <= |Published(ops, id)|
      && (forall i, j :: 0 <= i < j < |q.kept| ==> q.kept[i] < q.kept[j] < |Published(ops, id)|)
      && (forall i :: 0 <= i < |got| ==> q.kept[i] < |Published(ops, id)| && got[i] == Published(ops, id)[q.kept[i]])
      && (q.closed <==> id !in After(ops).consumers)
  {
    AlwaysInv(ops);
    OfferedIsPublished(ops, id);
    var q := After(ops).queues[id];
    Increasing(q.kept, |q.offered|);
    hide After, Published, Apply;
  }

  lemma {:induction false} Increasing(s: seq<nat>, bound: nat)
    requires forall i, j :: 0 <= i < j < |s| ==> s[i] < s[j]
    requires forall i :: 0 <= i < |s| ==> s[i] < bound
    ensures |s| <= bound
  {
    if s != [] {
      var init := s[..|s| - 1];
      Increasing(init, s[|s| - 1]);
    }
  }

  lemma OfferedBy(b: BusState, op: Op, id: ClientID)
    requires b.consumers <= b.queues.Keys
    ensures var c := Apply(b, op);
            if id in b.queues
            then id in c.queues && c.queues[id].offered == b.queues[id].offered + PublishedBy(b, op, id)
            else PublishedBy(b, op, id) == [] && (id in c.queues ==> c.queues[id].offered == [])
  {
  }

  lemma {:induction false} OfferedIsPublished(ops: seq<Op>, id: ClientID)
    ensures if id in After(ops).queues then After(ops).queues[id].offered == Published(ops, id)
            else Published(ops, id) == []
  {
    if ops != [] {
      var init, op := ops[..|ops| - 1], ops[|ops| - 1];
      OfferedIsPublished(init, id);
      AlwaysInv(init);
      var b := After(init);
      assert b.consumers <= b.queues.Keys;
      assert Published(ops, id) == Published(init, id) + PublishedBy(b, op, id);
      OfferedBy(b, op, id);
      hide BusInv, Apply, PublishedBy, Published;
    }
  }

  /** A drop happens only to a full buffer, and nothing is ever sent to a closed channel. */
  lemma {:induction false} DropsOnlyWhenFull(ops: seq<Op>, op: Op, id: ClientID)
    requires id in After(ops).queues && (op.Send? || op.SendTo?)
    ensures
      var q, r := After(ops).queues[id], Apply(After(ops), op).queues[id];
      && (r.offered != q.offered ==> !q.closed && r.offered == q.offered + [op.evt])
      && (r.offered != q.offered && r.kept == q.kept ==> |q.buffer| == 64 && r.buffer == q.buffer)
      && (r.kept != q.kept ==> r.buffer == q.buffer + [op.evt])
      && (r.offered == q.offered ==> r == q)
  {
    AlwaysInv(ops);
    var q := After(ops).queues[id];
    assert QueueInv(q);
    assert |q.kept| < |q.kept + [|q.offered|]|;
    assert |q.offered| < |q.offered + [op.evt]|;
    hide After;
  }

  lemma Registered(b: BusState, t: BusState, id: ClientID)
    requires id !in b.queues && t.consumers == b.consumers + {id}
    requires t.queues.Keys == b.queues.Keys + {id} && t.queues[id] == NEW_QUEUE
    requires forall other :: other in b.queues ==> t.queues[other] == b.queues[other]
    ensures t == Apply(b, Register(id))
  {
  }

  // ----- The bus in its own form -----

  /** A Go channel of events: buffered, and closed at most once. */
  class Channel {
    ghost const owner: ClientID
    var buffer: seq<Event>
    var closed: bool
    ghost var offered: seq<Event>
    ghost var kept: seq<nat>
    ghost var received: seq<Event>

    ghost function View(): Queue
      reads this
    {
      Queue(buffer, closed, offered, kept, received)
    }

    constructor (ghost owner: ClientID)
      ensures View() == NEW_QUEUE && this.owner == owner
    {
      this.owner := owner;
      buffer, closed, offered, kept, received := [], false, [], [], [];
    }

    /** select { case ch <- evt: default: }. Sending on a closed channel would panic. */
    method TrySend(evt: Event) returns (dropped: bool)
      requires !closed
      modifies this
      ensures View() == Offer(old(View()), evt) && !closed
      ensures dropped <==> |old(buffer)| >= 64
    {
      if |buffer| < CHANNEL_SIZE {
        buffer := buffer + [evt];
        kept := kept + [|offered|];
        dropped := false;
      } else {
        dropped := true;
      }
      offered := offered + [evt];
    }

    /** <-ch, when something is buffered. */
    method Take() returns (evt: Event)
      requires buffer != []
      modifies this
      ensures View() == Receive(old(View())) && evt == old(buffer)[0]
    {
      evt := buffer[0];
      buffer := buffer[1..];
      received := received + [evt];
    }

    /** Closing a closed channel would panic. */
    method Close()
      requires !closed
      modifies this
      ensures View() == old(View()).(closed := true)
    {
      closed := true;
    }
  }

  class Bus {
    var consumers: map<ClientID, Channel>
    ghost var channels: map<ClientID, Channel>  // every channel ever handed out

    ghost predicate Consistent()
      reads this, channels.Values
    {
      && (forall id :: id in channels ==> channels[id].owner == id)
      && (forall id :: id in consumers ==> id in channels && consumers[id] == channels[id])
      && (forall id :: id in channels ==> (channels[id].closed <==> id !in consumers))
    }

    ghost function View(): BusState
      reads this, channels.Values
    {
      BusState(map id | id in channels :: channels[id].View(), consumers.Keys)
    }

    constructor ()
      ensures Consistent() && View() == EMPTY_BUS && channels == map[]
    {
      consumers, channels := map[], map[];
    }

    /** b.consumers[clientID] = ch */
    method Enter(id: ClientID, ch: Channel)
      requires Consistent() && id !in channels && ch.owner == id && !ch.closed
      modifies this
      ensures Consistent() && channels == old(channels)[id := ch] && consumers == old(consumers)[id := ch]
    {
      consumers, channels := consumers[id := ch], channels[id := ch];
    }

    /** id is the new random ID; it is assumed not to have been used before. */
    method Register(id: ClientID) returns (ch: Channel)
      requires Consistent() && id !in channels
      modifies this
      ensures Consistent() && fresh(ch) && channels == old(channels)[id := ch]
      ensures View() == Apply(old(View()), Op.Register(id))
    {
      hide Apply;
      ghost var before := View();
      ch := new Channel(id);
      Enter(id, ch);
      hide Consistent;
      assert forall other :: other in before.queues ==>
        other in channels && channels[other].View() == before.queues[other];
      hide Channel.View;
      Registered(before, View(), id);
    }

    method Deregister(id: ClientID)
      requires Consistent()
      modifies this, channels.Values
      ensures Consistent() && channels == old(channels)
      ensures View() == Apply(old(View()), Op.Deregister(id))
    {
      if id in consumers {
        consumers[id].Close();
        consumers := consumers - {id};
      }
    }

    /** A non-blocking send to one registered client. */
    method Deliver(id: ClientID, evt: Event)
      requires Consistent() && id in consumers
      modifies channels.Values
      ensures Consistent()
      ensures View() == OfferTo(old(View()), id, evt)
    {
      hide Offer;
      ghost var before := View();
      var ch := consumers[id];
      assert forall other :: other in channels && other != id ==> channels[other] != ch;
      var _ := ch.TrySend(evt);
      assert View().queues == before.queues[id := ch.View()];
    }

    method SendTo(id: ClientID, evt: Event)
      requires Consistent()
      modifies channels.Values
      ensures Consistent() && channels == old(channels)
      ensures View() == Apply(old(View()), Op.SendTo(id, evt))
    {
      if id !in consumers {
        return;
      }
      Deliver(id, evt);
    }

    /** The map is iterated in an arbitrary order. */
    method Send(evt: Event)
      requires Consistent()
      modifies channels.Values
      ensures Consistent() && channels == old(channels)
      ensures View() == Apply(old(View()), Op.Send(evt))
    {
      ghost var before := View();
      ghost var done: set<ClientID> := {};
      OfferToNone(before, evt);
      var rest := consumers.Keys;
      while rest != {}
        invariant Consistent() && done + rest == consumers.Keys && done !! rest
        invariant View() == OfferToAll(before, done, evt)
      {
        hide OfferTo, OfferToAll;
        var id :| id in rest;
        OfferToOneMore(before, done, id, evt);
        rest, done := rest - {id}, done + {id};
        Deliver(id, evt);
      }
      OfferToConsumers(before, evt);
      hide OfferToAll, Apply;
    }
  }

  // ----- Sending to one client after another -----

  function OfferTo(b: BusState, id: ClientID, evt: Event): BusState
    requires id in b.queues
  {
    b.(queues := b.queues[id := Offer(b.queues[id], evt)])
  }

  function OfferToAll(b: BusState, ids: set<ClientID>, evt: Event): BusState {
    b.(queues := map id | id in b.queues :: if id in ids then Offer(b.queues[id], evt) else b.queues[id])
  }

  lemma OfferToNone(b: BusState, evt: Event)
    ensures OfferToAll(b, {}, evt) == b
  {
  }

  lemma OfferToConsumers(b: BusState, evt: Event)
    ensures OfferToAll(b, b.consumers, evt) == Apply(b, Op.Send(evt))
  {
  }

  lemma OfferToOneMore(b: BusState, ids: set<ClientID>, id: ClientID, evt: Event)
    requires id in b.queues && id !in ids
    ensures var c := OfferToAll(b, ids, evt);
            id in c.queues && OfferTo(c, id, evt) == OfferToAll(b, ids + {id}, evt)
  {
    hide Offer;
  }
}
