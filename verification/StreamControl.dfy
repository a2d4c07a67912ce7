/** How a destination is started, finishes and is released: the server's command loop and its
    per-start goroutines (internal/server/serverapp.go) around the replicator's actor
    (internal/replicator/replicator.go), in every interleaving. */
module StreamControl {
  import opened Domain
  import Replicator

  /** What became of the run that a start request asked for. Done means that destLoop has ended and
      put its one value on doneC. */
  datatype RunPhase = Queued | Ignored | Streaming | Done

  /** The goroutine that handleCommand spawns for each start request: it waits on doneC, holds the
      value until it has queued a stop, and is settled then; or it gives up with the context. */
  datatype Relay = Waiting | Holding | Settled | Abandoned

  datatype Request = Request(url: string, run: RunPhase, relay: Relay)

  /** An action on the actor's channel. The closure of a start belongs to one request; that of a stop
      knows only a URL. As history, origin says which request's goroutine queued it, if one did. */
  datatype Item = StartItem(id: nat) | StopItem(url: string, origin: Option<nat>)

  /** A start or stop that was not ignored. */
  datatype Deed = Started(url: string, id: nat) | Stopped(url: string)

  datatype State = State(
    queue: seq<Item>,                     // actorC
    actor: Replicator.ActorState,
    requests: seq<Request>,               // every call of StartDestination, in order
    cancelled: bool,                      // the app's context
    // history
    processed: nat,                       // start requests the actor has seen
    performed: seq<Replicator.Act>,       // what the actor has executed
    deeds: seq<Deed>,                     // and what of it had an effect
    delivered: seq<nat>)                  // the requests whose doneC has been sent a value

  const INITIAL := State([], Replicator.NO_URLS, [], false, 0, [], [], [])

  datatype Action =
    | RequestStart(url: string)           // handleCommand: start
    | RequestStop(url: string)            // handleCommand: stop or remove
    | ActorTurn                           // the actor takes the next action
    | RunFinishes(id: nat)                // destLoop returns
    | RelayReceives(id: nat)
    | RelayQueuesStop(id: nat)
    | RelayGivesUp(id: nat)
    | Cancel

  function Step(chanSize: nat, s: State, a: Action): Option<State> {
    match a
    case RequestStart(url) =>
      if |s.queue| < chanSize then
        Some(s.(queue := s.queue + [StartItem(|s.requests|)],
                requests := s.requests + [Request(url, Queued, Waiting)]))
      else None
    case RequestStop(url) =>
      if |s.queue| < chanSize then Some(s.(queue := s.queue + [StopItem(url, None)])) else None
    case ActorTurn => if s.queue == [] then None else TakeItem(s)
    case RunFinishes(id) =>
      if id < |s.requests| && s.requests[id].run == Streaming then
        Some(s.(requests := s.requests[id := s.requests[id].(run := Done)],
                delivered := s.delivered + [id]))
      else None
    case RelayReceives(id) =>
      if id < |s.requests| && s.requests[id].run == Done && s.requests[id].relay == Waiting then
        Some(s.(requests := s.requests[id := s.requests[id].(relay := Holding)]))
      else None
    case RelayQueuesStop(id) =>
      if id < |s.requests| && s.requests[id].relay == Holding && |s.queue| < chanSize then
        Some(s.(requests := s.requests[id := s.requests[id].(relay := Settled)],
                queue := s.queue + [StopItem(s.requests[id].url, Some(id))]))
      else None
    case RelayGivesUp(id) =>
      if s.cancelled && id < |s.requests| && s.requests[id].relay == Waiting then
        Some(s.(requests := s.requests[id := s.requests[id].(relay := Abandoned)]))
      else None
    case Cancel => Some(s.(cancelled := true))
  }

  function TakeItem(s: State): Option<State>
    requires s.queue != []
  {
    match s.queue[0]
    case StopItem(url, _) =>
      Some(s.(queue := s.queue[1..],
              actor := Replicator.Perform(s.actor, Replicator.Stop(url)),
              performed := s.performed + [Replicator.Stop(url)],
              deeds := s.deeds + (if url in s.actor.currURLs then [Stopped(url)] else [])))
    case StartItem(id) =>
      if id >= |s.requests| then None
      else
        var r := s.requests[id];
        Some(s.(queue := s.queue[1..],
                actor := Replicator.Perform(s.actor, Replicator.Start(r.url)),
                performed := s.performed + [Replicator.Start(r.url)],
                deeds := s.deeds + (if r.url in s.actor.currURLs then [] else [Started(r.url, id)]),
                processed := s.processed + 1,
                requests := s.requests[id := r.(run := if r.url in s.actor.currURLs then Ignored else Streaming)]))
  }

  /** The state after a sequence of actions, skipping those that cannot happen. */
  ghost function After(chanSize: nat, actions: seq<Action>): State {
    if actions == [] then INITIAL
    else
      var s := After(chanSize, actions[..|actions| - 1]);
      match Step(chanSize, s, actions[|actions| - 1])
      case Some(next) => next
      case None => s
  }

  /** The request ids in the queue. */
  function Pending(queue: seq<Item>): seq<nat> {
    if queue == [] then []
    else if queue[0].StartItem? then [queue[0].id] + Pending(queue[1..])
    else Pending(queue[1..])
  }

  lemma {:induction false} PendingAppend(queue: seq<Item>, item: Item)
    ensures Pending(queue + [item]) ==
            if item.StartItem? then Pending(queue) + [item.id] else Pending(queue)
  {
    if queue == [] {
      assert queue + [item] == [item];
    } else {
      assert (queue + [item])[1..] == queue[1..] + [item];
      PendingAppend(queue[1..], item);
    }
  }

  predicate Effective(r: Request) {
    r.run == Streaming || r.run == Done
  }

  /** The latest effective start of a URL. */
  ghost predicate IsLatest(s: State, url: string, id: nat) {
    && id < |s.requests| && s.requests[id].url == url && Effective(s.requests[id])
    && forall j :: id < j < |s.requests| && s.requests[j].url == url ==> !Effective(s.requests[j])
  }

  /** Something is still going to release the URL for this run. */
  predicate WillBeReleased(s: State, url: string, id: nat)
    requires id < |s.requests|
  {
    var r := s.requests[id];
    || r.run == Streaming
    || (r.run == Done && (r.relay == Waiting || r.relay == Holding))
    || (r.run == Done && r.relay == Settled && StopItem(url, Some(id)) in s.queue)
  }

  ghost predicate QueueInv(s: State) {
    && s.processed <= |s.requests|
    && |Pending(s.queue)| == |s.requests| - s.processed
    && (forall i :: 0 <= i < |Pending(s.queue)| ==> Pending(s.queue)[i] == s.processed + i)
    && (forall id :: 0 <= id < |s.requests| ==> (s.requests[id].run == Queued <==> id >= s.processed))
  }

  ghost predicate RelayInv(s: State) {
    forall id :: 0 <= id < |s.requests| ==>
      && (s.requests[id].relay == Abandoned ==> s.cancelled)
      && (s.requests[id].relay == Holding || s.requests[id].relay == Settled ==> s.requests[id].run == Done)
  }

  ghost predicate DeliveredInv(s: State) {
    && (forall i, j :: 0 <= i < j < |s.delivered| ==> s.delivered[i] != s.delivered[j])
    && (forall id :: id in s.delivered <==> 0 <= id < |s.requests| && s.requests[id].run == Done)
  }

  ghost predicate ReleaseInv(s: State) {
    !s.cancelled ==>
      forall url :: url in s.actor.currURLs ==> exists id: nat :: IsLatest(s, url, id) && WillBeReleased(s, url, id)
  }

  /** A step of a run or of its goroutine. */
  lemma RunStepKeepsQueueInv(chanSize: nat, s: State, a: Action)
    requires QueueInv(s) && RelayInv(s) && Step(chanSize, s, a).Some?
    requires !a.ActorTurn? && !a.RequestStart? && !a.RequestStop?
    ensures QueueInv(Step(chanSize, s, a).value)
  {
    if a.RelayQueuesStop? {
      PendingAppend(s.queue, StopItem(s.requests[a.id].url, Some(a.id)));
    }
    hide Pending;
  }

  lemma TurnKeepsQueueInv(s: State)
    requires QueueInv(s) && s.queue != [] && TakeItem(s).Some?
    ensures QueueInv(TakeItem(s).value)
  {
    hide Replicator.Perform;
    if s.queue[0].StartItem? {
      assert Pending(s.queue)[0] == s.queue[0].id == s.processed;
      assert Pending(TakeItem(s).value.queue) == Pending(s.queue)[1..];
    }
  }

  lemma StepKeepsQueueInv(chanSize: nat, s: State, a: Action)
    requires QueueInv(s) && RelayInv(s) && Step(chanSize, s, a).Some?
    ensures QueueInv(Step(chanSize, s, a).value)
  {
    hide TakeItem;
    match a
    case RequestStart(url) =>
      PendingAppend(s.queue, StartItem(|s.requests|));
      hide RelayInv, Pending;
    case RequestStop(url) =>
      PendingAppend(s.queue, StopItem(url, None));
      hide RelayInv, Pending;
    case ActorTurn =>
      TurnKeepsQueueInv(s);
      hide QueueInv, RelayInv;
    case _ =>
      RunStepKeepsQueueInv(chanSize, s, a);
      hide QueueInv, RelayInv;
  }

  lemma StepKeepsRelayInv(chanSize: nat, s: State, a: Action)
    requires RelayInv(s) && QueueInv(s) && Step(chanSize, s, a).Some?
    ensures RelayInv(Step(chanSize, s, a).value)
  {
    hide Replicator.Perform;
    if a.ActorTurn? && s.queue[0].StartItem? {
      assert Pending(s.queue)[0] == s.queue[0].id == s.processed;
    }
  }

  lemma StepKeepsDeliveredInv(chanSize: nat, s: State, a: Action)
    requires DeliveredInv(s) && QueueInv(s) && Step(chanSize, s, a).Some?
    ensures DeliveredInv(Step(chanSize, s, a).value)
  {
    hide Replicator.Perform;
    if a.ActorTurn? && s.queue[0].StartItem? {
      assert Pending(s.queue)[0] == s.queue[0].id == s.processed;
    }
  }

  /** For a URL that stays in the set, the latest run is still the latest, and still has a release
      coming. */
  lemma StepKeepsRelease(chanSize: nat, s: State, a: Action, url: string, id: nat)
    requires QueueInv(s) && RelayInv(s) && Step(chanSize, s, a).Some?
    requires IsLatest(s, url, id) && WillBeReleased(s, url, id)
    requires url in s.actor.currURLs && url in Step(chanSize, s, a).value.actor.currURLs
    requires !Step(chanSize, s, a).value.cancelled
    ensures var t := Step(chanSize, s, a).value; IsLatest(t, url, id) && WillBeReleased(t, url, id)
  {
    var t := Step(chanSize, s, a).value;
    if a.ActorTurn? {
      if s.queue[0].StartItem? {
        assert Pending(s.queue)[0] == s.queue[0].id == s.processed;
      }
      if StopItem(url, Some(id)) in s.queue {
        var i :| 0 <= i < |s.queue| && s.queue[i] == StopItem(url, Some(id));
        assert i > 0;
        assert t.queue[i - 1] == StopItem(url, Some(id));
      }
    }
  }

  /** A URL that enters the set does so for a request that is then the latest, and running. */
  lemma NewURLHasRun(chanSize: nat, s: State, a: Action, url: string)
    requires QueueInv(s) && Step(chanSize, s, a).Some?
    requires url !in s.actor.currURLs && url in Step(chanSize, s, a).value.actor.currURLs
    ensures var t := Step(chanSize, s, a).value;
            IsLatest(t, url, s.processed) && WillBeReleased(t, url, s.processed)
  {
    assert a.ActorTurn? && s.queue[0].StartItem?;
    assert Pending(s.queue)[0] == s.queue[0].id == s.processed;
  }

  lemma StepKeepsReleaseInv(chanSize: nat, s: State, a: Action)
    requires QueueInv(s) && RelayInv(s) && ReleaseInv(s) && Step(chanSize, s, a).Some?
    ensures ReleaseInv(Step(chanSize, s, a).value)
  {
    var t := Step(chanSize, s, a).value;
    if !t.cancelled {
      forall url | url in t.actor.currURLs
        ensures exists id: nat :: IsLatest(t, url, id) && WillBeReleased(t, url, id)
      {
        if url in s.actor.currURLs {
          var id: nat :| IsLatest(s, url, id) && WillBeReleased(s, url, id);
          StepKeepsRelease(chanSize, s, a, url, id);
        } else {
          NewURLHasRun(chanSize, s, a, url);
        }
      }
    }
  }

  lemma StepPerforms(chanSize: nat, s: State, a: Action)
    requires s.actor == Replicator.PerformAll(s.performed) && Step(chanSize, s, a).Some?
    ensures var t := Step(chanSize, s, a).value; t.actor == Replicator.PerformAll(t.performed)
  {
    hide Replicator.Perform;
    var t := Step(chanSize, s, a).value;
    if t.performed != s.performed {
      assert t.performed[..|t.performed| - 1] == s.performed;
    }
  }

  ghost predicate Inv(s: State) {
    && QueueInv(s) && RelayInv(s) && DeliveredInv(s) && ReleaseInv(s)
    && s.actor == Replicator.PerformAll(s.performed)
  }

  lemma {:induction false} AlwaysInv(chanSize: nat, actions: seq<Action>)
    ensures Inv(After(chanSize, actions))
  {
    if actions != [] {
      var init, a := actions[..|actions| - 1], actions[|actions| - 1];
      AlwaysInv(chanSize, init);
      var s := After(chanSize, init);
      if Step(chanSize, s, a).Some? {
        StepKeepsQueueInv(chanSize, s, a);
        StepKeepsRelayInv(chanSize, s, a);
        StepKeepsDeliveredInv(chanSize, s, a);
        StepKeepsReleaseInv(chanSize, s, a);
        StepPerforms(chanSize, s, a);
      }
      hide Step, QueueInv, RelayInv, DeliveredInv, ReleaseInv;
    }
  }

  /** No URL is stuck as started. While the app is live, every URL in the actor's set has a latest
      effective start whose destLoop is still running, or whose done value is still to be received,
      or whose goroutine is about to queue a stop for it, or has its own stop queued. */
  lemma NoURLStuck(chanSize: nat, actions: seq<Action>, url: string)
    requires !After(chanSize, actions).cancelled
    requires url in After(chanSize, actions).actor.currURLs
    ensures var s := After(chanSize, actions);
            exists id: nat :: IsLatest(s, url, id) && WillBeReleased(s, url, id)
  {
    AlwaysInv(chanSize, actions);
  }

  /** Each start request whose run is done gets one done value, and any other none. */
  lemma DoneAtMostOnce(chanSize: nat, actions: seq<Action>)
    ensures
      var s := After(chanSize, actions);
      && (forall i, j :: 0 <= i < j < |s.delivered| ==> s.delivered[i] != s.delivered[j])
      && (forall id :: id in s.delivered <==> 0 <= id < |s.requests| && s.requests[id].run == Done)
  {
    AlwaysInv(chanSize, actions);
    hide After, QueueInv, RelayInv, ReleaseInv;
  }

  /** The balance of effective starts and stops holds of the actor inside the whole system. */
  lemma {:induction false} SystemBalance(chanSize: nat, actions: seq<Action>, url: string)
    ensures
      var a := After(chanSize, actions).actor;
      var mine := Replicator.Of(a.effects, url);
      && Replicator.Alternates(mine)
      && Replicator.Starts(mine) - Replicator.Stops(mine) == (if url in a.currURLs then 1 else 0)
  {
    AlwaysInv(chanSize, actions);
    Replicator.StartsAndStopsBalance(After(chanSize, actions).performed, url);
  }
}
