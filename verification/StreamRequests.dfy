/** What becomes of a request to start or stop a stream, whatever else goes on: the actor's channel keeps the
    order in which it was asked (internal/server/serverapp.go:532-556, internal/replicator/replicator.go:98-219). */
module StreamRequests {
  import opened Domain
  import opened StreamControl
  import Replicator

  /** What an action asks of the actor, if there is room in its channel. */
  function AskedBy(chanSize: nat, s: State, a: Action): seq<Replicator.Act> {
    if |s.queue| >= chanSize then []
    else
      match a
      case RequestStart(url) => [Replicator.Start(url)]
      case RequestStop(url) => [Replicator.Stop(url)]
      case RelayQueuesStop(id) =>
        if id < |s.requests| && s.requests[id].relay == Holding then [Replicator.Stop(s.requests[id].url)] else []
      case _ => []
  }

  ghost function Asked(chanSize: nat, actions: seq<Action>): seq<Replicator.Act> {
    if actions == [] then []
    else
      var init := actions[..|actions| - 1];
      Asked(chanSize, init) + AskedBy(chanSize, After(chanSize, init), actions[|actions| - 1])
  }

  predicate Stands(s: State, item: Item, act: Replicator.Act) {
    match item
    case StopItem(url, _) => act == Replicator.Stop(url)
    case StartItem(id) => id < |s.requests| && act == Replicator.Start(s.requests[id].url)
  }

  /** What was asked is what has been performed, followed by what is still in the channel. */
  predicate Conserved(s: State, asked: seq<Replicator.Act>) {
    && |asked| == |s.performed| + |s.queue|
    && s.performed <= asked
    && forall i :: 0 <= i < |s.queue| ==> Stands(s, s.queue[i], asked[|s.performed| + i])
  }

  lemma TurnConserves(s: State, asked: seq<Replicator.Act>)
    requires Conserved(s, asked) && s.queue != []
    ensures TakeItem(s).Some? && Conserved(TakeItem(s).value, asked)
    ensures TakeItem(s).value.queue == s.queue[1..]
  {
    hide Replicator.Perform;
    assert Stands(s, s.queue[0], asked[|s.performed|]);
    var t := TakeItem(s).value;
    forall i | 0 <= i < |t.queue|
      ensures Stands(t, t.queue[i], asked[|t.performed| + i])
    {
      assert Stands(s, s.queue[i + 1], asked[|s.performed| + (i + 1)]);
    }
  }

  lemma StepConserves(chanSize: nat, s: State, a: Action, asked: seq<Replicator.Act>)
    requires Conserved(s, asked)
    ensures Step(chanSize, s, a).Some? ==> Conserved(Step(chanSize, s, a).value, asked + AskedBy(chanSize, s, a))
    ensures Step(chanSize, s, a).None? ==> AskedBy(chanSize, s, a) == []
  {
    if a.ActorTurn? {
      if s.queue != [] {
        TurnConserves(s, asked);
        assert asked + [] == asked;
      }
      hide TakeItem, Conserved;
    } else if Step(chanSize, s, a).Some? {
      AskingConserves(chanSize, s, a, asked);
      hide TakeItem, Conserved;
    }
  }

  lemma AskingConserves(chanSize: nat, s: State, a: Action, asked: seq<Replicator.Act>)
    requires Conserved(s, asked) && !a.ActorTurn? && Step(chanSize, s, a).Some?
    ensures Conserved(Step(chanSize, s, a).value, asked + AskedBy(chanSize, s, a))
  {
    hide TakeItem;
    var t, more := Step(chanSize, s, a).value, asked + AskedBy(chanSize, s, a);
    forall i | 0 <= i < |t.queue|
      ensures Stands(t, t.queue[i], more[|t.performed| + i])
    {
      if i < |s.queue| {
        assert Stands(s, s.queue[i], asked[|s.performed| + i]);
      }
    }
  }

  /** In every reachable state, whatever was asked while there was room has either been performed, in the order
      in which it was asked, or still stands in the channel, in that order; nothing else has been performed;
      and the actor is where those actions lead. */
  lemma {:induction false} PerformedInOrder(chanSize: nat, actions: seq<Action>)
    ensures
      var s := After(chanSize, actions);
      && Conserved(s, Asked(chanSize, actions))
      && s.actor == Replicator.PerformAll(s.performed)
  {
    AlwaysInv(chanSize, actions);
    AlwaysConserved(chanSize, actions);
    hide After, Asked, QueueInv, RelayInv, DeliveredInv, ReleaseInv, Conserved;
  }

  lemma {:induction false} AlwaysConserved(chanSize: nat, actions: seq<Action>)
    ensures Conserved(After(chanSize, actions), Asked(chanSize, actions))
  {
    if actions != [] {
      var init := actions[..|actions| - 1];
      AlwaysConserved(chanSize, init);
      StepConserves(chanSize, After(chanSize, init), actions[|actions| - 1], Asked(chanSize, init));
    }
    hide Step, Conserved, AskedBy;
  }

  // ----- A request takes effect when its turn comes -----

  function Turns(n: nat): seq<Action> {
    seq(n, _ => ActorTurn)
  }

  lemma {:induction false} AfterOneMore(chanSize: nat, actions: seq<Action>, a: Action)
    ensures After(chanSize, actions + [a]) ==
            match Step(chanSize, After(chanSize, actions), a)
            case Some(next) => next
            case None => After(chanSize, actions)
    ensures Asked(chanSize, actions + [a]) ==
            Asked(chanSize, actions) + AskedBy(chanSize, After(chanSize, actions), a)
  {
    assert (actions + [a])[..|actions + [a]| - 1] == actions;
    hide Step, AskedBy;
  }

  /** So many turns of the actor perform so much of what is in its channel, and change nothing else of it. */
  lemma {:induction false} TurnsPerform(chanSize: nat, actions: seq<Action>, n: nat)
    requires n <= |After(chanSize, actions).queue|
    ensures
      var s, t := After(chanSize, actions), After(chanSize, actions + Turns(n));
      && t.queue == s.queue[n..] && |t.performed| == |s.performed| + n
      && Asked(chanSize, actions + Turns(n)) == Asked(chanSize, actions)
    decreases n
  {
    if n == 0 {
      assert actions + Turns(0) == actions;
    } else {
      TurnsPerform(chanSize, actions, n - 1);
      var more := actions + Turns(n - 1);
      assert actions + Turns(n) == more + [ActorTurn];
      AlwaysConserved(chanSize, more);
      AfterOneMore(chanSize, more, ActorTurn);
      TurnConserves(After(chanSize, more), Asked(chanSize, more));
      hide After, Asked, TakeItem, Replicator.Perform;
    }
  }

  /** An action that asks something of the actor is the last to be performed after as many turns as stand
      before it, and then the actor has just performed it. */
  lemma {:induction false} TurnComes(chanSize: nat, actions: seq<Action>, a: Action, act: Replicator.Act)
    requires AskedBy(chanSize, After(chanSize, actions), a) == [act]
    ensures
      var t := After(chanSize, actions + [a] + Turns(|After(chanSize, actions).queue| + 1));
      && t.performed != [] && t.performed[|t.performed| - 1] == act
      && t.actor == Replicator.PerformAll(t.performed)
  {
    var s, n := After(chanSize, actions), |After(chanSize, actions).queue| + 1;
    AlwaysConserved(chanSize, actions);
    AlwaysConserved(chanSize, actions + [a]);
    AfterOneMore(chanSize, actions, a);
    hide After, Asked;
    AskingQueues(chanSize, s, a, act);
    TurnsPerform(chanSize, actions + [a], n);
    PerformedInOrder(chanSize, actions + [a] + Turns(n));
    hide AskedBy, Step;
  }

  lemma AskingQueues(chanSize: nat, s: State, a: Action, act: Replicator.Act)
    requires AskedBy(chanSize, s, a) == [act]
    ensures Step(chanSize, s, a).Some?
    ensures var t := Step(chanSize, s, a).value; |t.queue| == |s.queue| + 1 && t.performed == s.performed
  {
    hide TakeItem;
  }

  /** A stop that is asked for while there is room is never lost: once the actor has taken what stood before it
      and the stop itself, the URL is released, also if its start was still queued when the stop was asked
      for. */
  lemma {:induction false} StopTakesEffect(chanSize: nat, actions: seq<Action>, url: string)
    requires |After(chanSize, actions).queue| < chanSize
    ensures
      var turns := Turns(|After(chanSize, actions).queue| + 1);
      url !in After(chanSize, actions + [RequestStop(url)] + turns).actor.currURLs
  {
    TurnComes(chanSize, actions, RequestStop(url), Replicator.Stop(url));
    hide After;
  }

  /** Likewise, a start that is asked for while there is room makes the URL held, by itself or because it was
      held already. */
  lemma {:induction false} StartTakesEffect(chanSize: nat, actions: seq<Action>, url: string)
    requires |After(chanSize, actions).queue| < chanSize
    ensures
      var turns := Turns(|After(chanSize, actions).queue| + 1);
      url in After(chanSize, actions + [RequestStart(url)] + turns).actor.currURLs
  {
    TurnComes(chanSize, actions, RequestStart(url), Replicator.Start(url));
    hide After;
  }

  /** The way of a run that ends by itself: its goroutine receives the done value, queues a stop, and the actor
      comes to it. */
  function Finishing(id: nat): seq<Action> {
    [RunFinishes(id), RelayReceives(id)]
  }

  lemma Finishes(chanSize: nat, s: State, id: nat)
    requires RelayInv(s) && !s.cancelled && id < |s.requests| && s.requests[id].run == Streaming
    ensures Step(chanSize, s, RunFinishes(id)).Some?
    ensures
      var t := Step(chanSize, s, RunFinishes(id)).value;
      && Step(chanSize, t, RelayReceives(id)).Some?
      && var u := Step(chanSize, t, RelayReceives(id)).value;
         && u.queue == s.queue && |u.requests| == |s.requests|
         && u.requests[id] == Request(s.requests[id].url, Done, Holding)
  {
    hide TakeItem;
  }

  lemma {:induction false} FinishedRunHolds(chanSize: nat, actions: seq<Action>, id: nat)
    requires var s := After(chanSize, actions); !s.cancelled && id < |s.requests| && s.requests[id].run == Streaming
    ensures
      var s, t := After(chanSize, actions), After(chanSize, actions + Finishing(id));
      && t.queue == s.queue && |t.requests| == |s.requests|
      && t.requests[id] == Request(s.requests[id].url, Done, Holding)
  {
    AlwaysInv(chanSize, actions);
    assert actions + Finishing(id) == (actions + [RunFinishes(id)]) + [RelayReceives(id)];
    AfterOneMore(chanSize, actions, RunFinishes(id));
    AfterOneMore(chanSize, actions + [RunFinishes(id)], RelayReceives(id));
    Finishes(chanSize, After(chanSize, actions), id);
    hide *;
  }

  /** While the app is live, a stream that ends by itself is released in so many steps: it finishes, its
      goroutine receives the value and queues the stop, and the actor takes what stands before that. */
  lemma {:induction false} FinishedRunIsReleased(chanSize: nat, actions: seq<Action>, id: nat)
    requires |After(chanSize, actions).queue| < chanSize
    requires var s := After(chanSize, actions); !s.cancelled && id < |s.requests| && s.requests[id].run == Streaming
    ensures
      var s := After(chanSize, actions);
      var t := After(chanSize, actions + Finishing(id) + [RelayQueuesStop(id)] + Turns(|s.queue| + 1));
      s.requests[id].url !in t.actor.currURLs
  {
    var url := After(chanSize, actions).requests[id].url;
    FinishedRunHolds(chanSize, actions, id);
    hide After;
    TurnComes(chanSize, actions + Finishing(id), RelayQueuesStop(id), Replicator.Stop(url));
  }

  // ----- Which runs there are -----

  predicate RunIs(s: State, k: nat, held: bool)
    requires k < |s.performed| && s.performed[k].Start?
  {
    var id := Replicator.Starts(s.performed[..k]);
    && id < |s.requests| && s.requests[id].url == s.performed[k].url
    && s.requests[id].run != Queued
    && (s.requests[id].run == Ignored <==> held)
  }

  ghost predicate HeldBefore(acts: seq<Replicator.Act>, k: nat)
    requires k < |acts|
  {
    acts[k].url in Replicator.PerformAll(acts[..k]).currURLs
  }

  ghost predicate RunsInv(s: State) {
    && s.processed == Replicator.Starts(s.performed)
    && forall k :: 0 <= k < |s.performed| && s.performed[k].Start? ==> RunIs(s, k, HeldBefore(s.performed, k))
  }

  lemma OtherStepKeepsRunsInv(chanSize: nat, s: State, a: Action)
    requires RunsInv(s) && QueueInv(s) && Step(chanSize, s, a).Some? && !a.ActorTurn?
    ensures RunsInv(Step(chanSize, s, a).value)
  {
    var t := Step(chanSize, s, a).value;
    assert t.performed == s.performed && t.processed == s.processed;
    hide Replicator.Starts, HeldBefore;
    forall k | 0 <= k < |t.performed| && t.performed[k].Start?
      ensures RunIs(t, k, HeldBefore(t.performed, k))
    {
      assert RunIs(s, k, HeldBefore(s.performed, k));
    }
  }

  /** What has been performed stays, and so do the runs that it made. */
  lemma RunStays(s: State, t: State, act: Replicator.Act, k: nat)
    requires RunsInv(s) && k < |s.performed| && s.performed[k].Start? && t.performed == s.performed + [act]
    requires |t.requests| == |s.requests|
    requires forall id :: 0 <= id < |s.requests| && s.requests[id].run != Queued ==> t.requests[id] == s.requests[id]
    ensures RunIs(t, k, HeldBefore(t.performed, k))
  {
    hide Replicator.Starts, Replicator.PerformAll;
    assert t.performed[..k] == s.performed[..k];
    assert RunIs(s, k, HeldBefore(s.performed, k));
  }

  lemma StartTurn(s: State)
    requires QueueInv(s) && s.queue != [] && s.queue[0].StartItem? && TakeItem(s).Some?
    ensures
      var t := TakeItem(s).value;
      var r := s.requests[s.processed];
      && s.processed < |s.requests| && r.run == Queued && s.queue[0].id == s.processed
      && t.performed == s.performed + [Replicator.Start(r.url)] && t.processed == s.processed + 1
      && t.requests == s.requests[s.processed := r.(run := if r.url in s.actor.currURLs then Ignored else Streaming)]
  {
    assert Pending(s.queue)[0] == s.queue[0].id == s.processed;
    hide Replicator.Perform;
  }

  lemma StartTurnKeepsRunsInv(s: State)
    requires RunsInv(s) && QueueInv(s) && s.queue != [] && s.queue[0].StartItem? && TakeItem(s).Some?
    requires s.actor == Replicator.PerformAll(s.performed)
    ensures RunsInv(TakeItem(s).value)
  {
    StartTurn(s);
    hide TakeItem, QueueInv;
    var t, n := TakeItem(s).value, |s.performed|;
    var act := Replicator.Start(s.requests[s.processed].url);
    Replicator.Appended(s.performed, act);
    forall k | 0 <= k < n && s.performed[k].Start?
      ensures RunIs(t, k, HeldBefore(t.performed, k))
    {
      RunStays(s, t, act, k);
    }
    assert t.performed[..n] == s.performed;
    assert RunIs(t, n, HeldBefore(t.performed, n)) by {
      hide Replicator.Starts, Replicator.PerformAll;
    }
    hide RunIs, HeldBefore, Replicator.Starts;
  }

  lemma StopTurnKeepsRunsInv(s: State)
    requires RunsInv(s) && s.queue != [] && s.queue[0].StopItem?
    ensures RunsInv(TakeItem(s).value)
  {
    var t, act := TakeItem(s).value, Replicator.Stop(s.queue[0].url);
    Replicator.Appended(s.performed, act);
    hide Replicator.Perform;
    forall k | 0 <= k < |s.performed| && s.performed[k].Start?
      ensures RunIs(t, k, HeldBefore(t.performed, k))
    {
      RunStays(s, t, act, k);
    }
    hide RunIs, HeldBefore, Replicator.Starts;
  }

  lemma TurnKeepsRunsInv(s: State)
    requires RunsInv(s) && QueueInv(s) && s.queue != [] && TakeItem(s).Some?
    requires s.actor == Replicator.PerformAll(s.performed)
    ensures RunsInv(TakeItem(s).value)
  {
    if s.queue[0].StartItem? {
      StartTurnKeepsRunsInv(s);
    } else {
      StopTurnKeepsRunsInv(s);
    }
    hide RunsInv, QueueInv, TakeItem;
  }

  lemma {:induction false} AlwaysRunsInv(chanSize: nat, actions: seq<Action>)
    ensures RunsInv(After(chanSize, actions))
  {
    if actions != [] {
      var init, a := actions[..|actions| - 1], actions[|actions| - 1];
      AlwaysRunsInv(chanSize, init);
      AlwaysInv(chanSize, init);
      var s := After(chanSize, init);
      if Step(chanSize, s, a).Some? {
        if a.ActorTurn? {
          TurnKeepsRunsInv(s);
        } else {
          OtherStepKeepsRunsInv(chanSize, s, a);
        }
      }
    }
    hide RunsInv, QueueInv, RelayInv, DeliveredInv, ReleaseInv, TakeItem;
  }

  /** In every reachable state: of the starts performed, the one numbered id is that of request id, for its URL;
      its run was ignored exactly if the URL was held when the actor came to it, and otherwise it has a
      stream; and the requests whose starts have not been performed wait. */
  lemma {:induction false} RunsAreEffectiveStarts(chanSize: nat, actions: seq<Action>)
    ensures
      var s := After(chanSize, actions);
      && (forall k :: 0 <= k < |s.performed| && s.performed[k].Start? ==> RunIs(s, k, HeldBefore(s.performed, k)))
      && (forall id :: 0 <= id < |s.requests| ==>
            (s.requests[id].run == Queued <==> id >= Replicator.Starts(s.performed)))
  {
    AlwaysRunsInv(chanSize, actions);
    AlwaysInv(chanSize, actions);
    hide After, RunIs, HeldBefore, RelayInv, DeliveredInv, ReleaseInv, Replicator.Starts;
  }
}
