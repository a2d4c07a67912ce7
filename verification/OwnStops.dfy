/** When the stop that follows a finished run hits that run, and when a newer one: stops know a URL,
    not a run (internal/server/serverapp.go:532-544, internal/replicator/replicator.go:89-145 and
    215-236). */
module OwnStops {
  import opened Domain
  import opened StreamControl
  import Replicator

  // ----- Deeds alone -----

  /** The last deed about a URL is a start. */
  predicate Held(deeds: seq<Deed>, url: string) {
    deeds != [] &&
    var last := deeds[|deeds| - 1];
    if last.url == url then last.Started? else Held(deeds[..|deeds| - 1], url)
  }

  /** Starts and stops of each URL alternate, from a start. */
  predicate Alternating(deeds: seq<Deed>) {
    deeds != [] ==>
      var init, last := deeds[..|deeds| - 1], deeds[|deeds| - 1];
      Alternating(init) && (last.Started? <==> !Held(init, last.url))
  }

  predicate StoppedAfter(deeds: seq<Deed>, i: nat, url: string) {
    exists j :: i < j < |deeds| && deeds[j] == Stopped(url)
  }

  predicate StartedAfter(deeds: seq<Deed>, i: nat, url: string) {
    exists j :: i < j < |deeds| && deeds[j].Started? && deeds[j].url == url
  }

  lemma {:induction false} ReleasedIsStopped(deeds: seq<Deed>, i: nat, url: string)
    requires i < |deeds| && deeds[i].Started? && deeds[i].url == url && !Held(deeds, url)
    ensures StoppedAfter(deeds, i, url)
  {
    var init, last := deeds[..|deeds| - 1], deeds[|deeds| - 1];
    if last.url == url {
      assert deeds[|deeds| - 1] == Stopped(url);
    } else {
      ReleasedIsStopped(init, i, url);
      var j :| i < j < |init| && init[j] == Stopped(url);
      assert deeds[j] == Stopped(url);
    }
  }

  /** While a URL is held, it has been stopped since a start of it exactly if it has been started
      since. */
  lemma {:induction false} StoppedIffStarted(deeds: seq<Deed>, i: nat, url: string)
    requires Alternating(deeds) && Held(deeds, url)
    requires i < |deeds| && deeds[i].Started? && deeds[i].url == url
    ensures StoppedAfter(deeds, i, url) <==> StartedAfter(deeds, i, url)
  {
    var init, last := deeds[..|deeds| - 1], deeds[|deeds| - 1];
    if i < |init| {
      assert forall j :: 0 <= j < |init| ==> deeds[j] == init[j];
      if last.url == url {
        assert StartedAfter(deeds, i, url);
        ReleasedIsStopped(init, i, url);
      } else {
        StoppedIffStarted(init, i, url);
        assert StoppedAfter(deeds, i, url) <==> StoppedAfter(init, i, url);
        assert StartedAfter(deeds, i, url) <==> StartedAfter(init, i, url);
      }
    }
  }

  // ----- Deeds and requests -----

  ghost predicate DeedsInv(s: State) {
    && Alternating(s.deeds)
    && (forall url :: url in s.actor.currURLs <==> Held(s.deeds, url))
  }

  /** The starts are those of the effective requests, in the order of these. */
  ghost predicate StartsInv(s: State) {
    KnownStarts(s) && OrderedStarts(s.deeds) && AllStarts(s)
  }

  ghost predicate KnownStarts(s: State) {
    forall i :: 0 <= i < |s.deeds| && s.deeds[i].Started? ==>
      && s.deeds[i].id < s.processed <= |s.requests|
      && s.requests[s.deeds[i].id].url == s.deeds[i].url && Effective(s.requests[s.deeds[i].id])
  }

  predicate OrderedStarts(deeds: seq<Deed>) {
    forall i, j :: 0 <= i < j < |deeds| && deeds[i].Started? && deeds[j].Started? ==> deeds[i].id < deeds[j].id
  }

  ghost predicate AllStarts(s: State) {
    forall id :: 0 <= id < |s.requests| && Effective(s.requests[id]) ==>
      Started(s.requests[id].url, id) in s.deeds
  }

  /** Each stop in the queue that a request's goroutine put there is that request's only one. */
  ghost predicate StopsInv(s: State) {
    && (forall k :: 0 <= k < |s.queue| && s.queue[k].StopItem? && s.queue[k].origin.Some? ==>
          OwnStop(s, s.queue[k]))
    && (forall k, l :: 0 <= k < l < |s.queue| && s.queue[k].StopItem? && s.queue[k].origin.Some? ==>
          s.queue[k] != s.queue[l])
  }

  predicate OwnStop(s: State, item: Item)
    requires item.StopItem? && item.origin.Some?
  {
    var id := item.origin.value;
    id < |s.requests| && s.requests[id] == Request(item.url, Done, Settled)
  }

  lemma DeedAppended(deeds: seq<Deed>, d: Deed)
    requires Alternating(deeds) && (d.Started? <==> !Held(deeds, d.url))
    ensures Alternating(deeds + [d])
    ensures forall url :: Held(deeds + [d], url) <==> if d.url == url then d.Started? else Held(deeds, url)
  {
    assert (deeds + [d])[..|deeds + [d]| - 1] == deeds;
  }

  /** What a turn of the actor does to its set and to the deeds. */
  lemma TurnDoes(s: State)
    requires s.queue != [] && TakeItem(s).Some?
    ensures
      var t := TakeItem(s).value;
      match s.queue[0]
      case StopItem(url, _) =>
        && t.actor.currURLs == s.actor.currURLs - {url}
        && t.deeds == (if url in s.actor.currURLs then s.deeds + [Stopped(url)] else s.deeds)
      case StartItem(id) =>
        && id < |s.requests|
        && var url := s.requests[id].url;
           && t.actor.currURLs == s.actor.currURLs + {url}
           && t.deeds == (if url in s.actor.currURLs then s.deeds else s.deeds + [Started(url, id)])
  {
  }

  lemma TurnKeepsDeedsInv(s: State)
    requires DeedsInv(s) && s.queue != [] && TakeItem(s).Some?
    ensures DeedsInv(TakeItem(s).value)
  {
    TurnDoes(s);
    var t := TakeItem(s).value;
    hide Held, Alternating, TakeItem;
    match s.queue[0]
    case StopItem(url, _) =>
      if url in s.actor.currURLs {
        DeedAppended(s.deeds, Stopped(url));
      }
    case StartItem(id) =>
      var url := s.requests[id].url;
      if url !in s.actor.currURLs {
        DeedAppended(s.deeds, Started(url, id));
      }
  }

  lemma StepKeepsDeedsInv(chanSize: nat, s: State, a: Action)
    requires DeedsInv(s) && Step(chanSize, s, a).Some?
    ensures DeedsInv(Step(chanSize, s, a).value)
  {
    if a.ActorTurn? {
      TurnKeepsDeedsInv(s);
    }
    hide Held, Alternating, TakeItem;
  }

  /** The actor takes start requests in their order, so that each start is of a request not seen
      before. */
  lemma StartTaken(s: State)
    requires QueueInv(s) && s.queue != [] && s.queue[0].StartItem?
    ensures s.queue[0].id == s.processed < |s.requests| && s.requests[s.processed].run == Queued
  {
    assert Pending(s.queue)[0] == s.queue[0].id == s.processed;
  }

  lemma StepKeepsStartsInv(chanSize: nat, s: State, a: Action)
    requires StartsInv(s) && QueueInv(s) && Step(chanSize, s, a).Some?
    ensures StartsInv(Step(chanSize, s, a).value)
  {
    hide Replicator.Perform;
    if a.ActorTurn? && s.queue[0].StartItem? {
      StartTaken(s);
    }
    hide QueueInv;
    StepKeepsKnownStarts(chanSize, s, a);
    StepKeepsAllStarts(chanSize, s, a);
    StepKeepsOrderedStarts(chanSize, s, a);
    hide KnownStarts, AllStarts, OrderedStarts, Step;
  }

  lemma StepKeepsKnownStarts(chanSize: nat, s: State, a: Action)
    requires KnownStarts(s) && Step(chanSize, s, a).Some? && s.processed <= |s.requests|
    requires a.ActorTurn? && s.queue[0].StartItem? ==> s.queue[0].id == s.processed
    ensures KnownStarts(Step(chanSize, s, a).value)
  {
    hide Replicator.Perform;
  }

  lemma StepKeepsOrderedStarts(chanSize: nat, s: State, a: Action)
    requires KnownStarts(s) && OrderedStarts(s.deeds) && Step(chanSize, s, a).Some?
    requires a.ActorTurn? && s.queue[0].StartItem? ==> s.queue[0].id == s.processed
    ensures OrderedStarts(Step(chanSize, s, a).value.deeds)
  {
    hide Replicator.Perform;
  }

  lemma StepKeepsAllStarts(chanSize: nat, s: State, a: Action)
    requires AllStarts(s) && Step(chanSize, s, a).Some?
    ensures AllStarts(Step(chanSize, s, a).value)
  {
    hide Replicator.Perform;
    var t := Step(chanSize, s, a).value;
    forall id | 0 <= id < |t.requests| && Effective(t.requests[id])
      ensures Started(t.requests[id].url, id) in t.deeds
    {
      if id < |s.requests| && Effective(s.requests[id]) {
        assert Started(s.requests[id].url, id) in s.deeds;
        assert s.deeds <= t.deeds;
      } else {
        assert t.deeds[|t.deeds| - 1] == Started(t.requests[id].url, id);
      }
    }
  }

  lemma TurnKeepsStopsInv(s: State)
    requires StopsInv(s) && QueueInv(s) && s.queue != [] && TakeItem(s).Some?
    ensures StopsInv(TakeItem(s).value)
  {
    hide Replicator.Perform;
    if s.queue[0].StartItem? {
      StartTaken(s);
    }
    hide QueueInv;
    var t := TakeItem(s).value;
    assert forall k :: 0 <= k < |t.queue| ==> t.queue[k] == s.queue[k + 1];
  }

  /** A goroutine queues its stop only once: it holds the value no longer. */
  lemma RelayKeepsStopsInv(chanSize: nat, s: State, id: nat)
    requires StopsInv(s) && RelayInv(s) && Step(chanSize, s, RelayQueuesStop(id)).Some?
    ensures StopsInv(Step(chanSize, s, RelayQueuesStop(id)).value)
  {
    assert s.requests[id].run == Done;
  }

  lemma StepKeepsStopsInv(chanSize: nat, s: State, a: Action)
    requires StopsInv(s) && QueueInv(s) && RelayInv(s) && Step(chanSize, s, a).Some?
    ensures StopsInv(Step(chanSize, s, a).value)
  {
    hide Replicator.Perform, TakeItem;
    match a
    case ActorTurn =>
      TurnKeepsStopsInv(s);
      hide StopsInv;
    case RelayQueuesStop(id) =>
      RelayKeepsStopsInv(chanSize, s, id);
      hide StopsInv, Step;
    case _ => hide QueueInv, RelayInv;
  }

  lemma {:induction false} AlwaysDeeds(chanSize: nat, actions: seq<Action>)
    ensures var s := After(chanSize, actions); DeedsInv(s) && StartsInv(s) && StopsInv(s)
  {
    if actions != [] {
      var init, a := actions[..|actions| - 1], actions[|actions| - 1];
      AlwaysDeeds(chanSize, init);
      AlwaysInv(chanSize, init);
      var s := After(chanSize, init);
      if Step(chanSize, s, a).Some? {
        StepKeepsDeedsInv(chanSize, s, a);
        StepKeepsStartsInv(chanSize, s, a);
        StepKeepsStopsInv(chanSize, s, a);
      }
      hide Step, DeedsInv, StartsInv, StopsInv, QueueInv, RelayInv, DeliveredInv, ReleaseInv;
    }
  }

  // ----- Whose run an own stop hits -----

  /** A stop of the URL has had an effect since the start of this request's run. */
  ghost predicate StoppedSince(s: State, url: string, id: nat) {
    exists i :: 0 <= i < |s.deeds| && s.deeds[i] == Started(url, id) && StoppedAfter(s.deeds, i, url)
  }

  /** When the actor takes the stop that a finished run's goroutine has queued, and the URL is in the
      set, then the run it releases is that run, and not a newer one, exactly if no stop of the URL has
      had an effect since the run was started. */
  lemma OwnStopHitsOwnRunIff(chanSize: nat, actions: seq<Action>, url: string, id: nat)
    ensures
      var s := After(chanSize, actions);
      s.queue != [] && s.queue[0] == StopItem(url, Some(id)) && url in s.actor.currURLs ==>
        (IsLatest(s, url, id) <==> !StoppedSince(s, url, id))
  {
    var s := After(chanSize, actions);
    if s.queue != [] && s.queue[0] == StopItem(url, Some(id)) && url in s.actor.currURLs {
      AlwaysDeeds(chanSize, actions);
      hide After;
      assert OwnStop(s, s.queue[0]);
      assert Started(s.requests[id].url, id) in s.deeds;
      var i :| 0 <= i < |s.deeds| && s.deeds[i] == Started(url, id);
      StoppedIffStarted(s.deeds, i, url);
      LatestIffNotStartedAfter(s, url, id, i);
      SinceIsAfter(s, url, id, i);
    }
  }

  lemma LatestIffNotStartedAfter(s: State, url: string, id: nat, i: nat)
    requires StartsInv(s) && i < |s.deeds| && s.deeds[i] == Started(url, id)
    ensures IsLatest(s, url, id) <==> !StartedAfter(s.deeds, i, url)
  {
    if StartedAfter(s.deeds, i, url) {
      var j :| i < j < |s.deeds| && s.deeds[j].Started? && s.deeds[j].url == url;
      assert s.deeds[j].id > id;
    }
    if !IsLatest(s, url, id) {
      var j :| id < j < |s.requests| && s.requests[j].url == url && Effective(s.requests[j]);
      assert Started(url, j) in s.deeds;
      var k :| 0 <= k < |s.deeds| && s.deeds[k] == Started(url, j);
      assert k > i;
    }
  }

  lemma SinceIsAfter(s: State, url: string, id: nat, i: nat)
    requires StartsInv(s) && i < |s.deeds| && s.deeds[i] == Started(url, id)
    ensures StoppedSince(s, url, id) <==> StoppedAfter(s.deeds, i, url)
  {
    if StoppedSince(s, url, id) {
      var k :| 0 <= k < |s.deeds| && s.deeds[k] == Started(url, id) && StoppedAfter(s.deeds, k, url);
      assert k == i;
    }
  }

  // ----- Without requested stops -----

  /** The run has not been released yet: it streams, or its goroutine still has a stop to queue, or
      that stop is queued. */
  predicate Outstanding(s: State, url: string, id: nat) {
    id < |s.requests| &&
    var r := s.requests[id];
    && r.url == url
    && (r.run == Streaming
        || (r.run == Done && (r.relay == Waiting || r.relay == Holding))
        || StopItem(url, Some(id)) in s.queue)
  }

  /** No requested stop of the URL is queued, and only the latest run can be outstanding, and that
      while the URL is in the set. */
  ghost predicate Tidy(s: State, url: string) {
    && StopItem(url, None) !in s.queue
    && (forall id: nat :: Outstanding(s, url, id) ==> url in s.actor.currURLs && IsLatest(s, url, id))
  }

  /** Nothing is outstanding for the URL, and no requested stop of it queued. */
  ghost predicate Quiet(s: State, url: string) {
    StopItem(url, None) !in s.queue && forall id: nat :: !Outstanding(s, url, id)
  }

  lemma OwnStopsKnown(s: State, url: string, id: nat)
    requires StopsInv(s) && StopItem(url, Some(id)) in s.queue
    ensures id < |s.requests| && s.requests[id] == Request(url, Done, Settled)
  {
    var k :| 0 <= k < |s.queue| && s.queue[k] == StopItem(url, Some(id));
    assert OwnStop(s, s.queue[k]);
  }

  /** A stop that takes effect leaves nothing outstanding for its URL. */
  lemma StopSettles(s: State, url: string, id: nat)
    requires Tidy(s, url) && StopsInv(s) && s.queue != [] && s.queue[0].StopItem? && s.queue[0].url == url
    ensures !Outstanding(TakeItem(s).value, url, id)
  {
    var item, rest := s.queue[0], s.queue[1..];
    assert item in s.queue && item.origin.Some?;
    assert item !in rest by {
      assert forall k :: 0 <= k < |rest| ==> rest[k] == s.queue[k + 1];
    }
    assert forall x :: x in rest ==> x in s.queue;
    OwnStopsKnown(s, url, item.origin.value);
    assert Outstanding(s, url, item.origin.value);
    assert Outstanding(s, url, id) ==> IsLatest(s, url, id) && id == item.origin.value;
  }

  lemma StopKeepsTidy(s: State, url: string)
    requires Tidy(s, url) && StopsInv(s) && s.queue != [] && s.queue[0].StopItem?
    ensures Tidy(TakeItem(s).value, url)
  {
    var t := TakeItem(s).value;
    assert forall x :: x in t.queue ==> x in s.queue;
    forall id: nat | Outstanding(t, url, id)
      ensures s.queue[0].url != url && Outstanding(s, url, id) && IsLatest(s, url, id)
    {
      if s.queue[0].url == url {
        StopSettles(s, url, id);
      }
    }
  }

  lemma StartKeepsTidy(s: State, url: string)
    requires Tidy(s, url) && StopsInv(s) && QueueInv(s) && s.queue != [] && s.queue[0].StartItem?
    ensures TakeItem(s).Some? && Tidy(TakeItem(s).value, url)
  {
    StartTaken(s);
    if StopItem(url, Some(s.processed)) in s.queue {
      OwnStopsKnown(s, url, s.processed);
    }
    hide StopsInv;
    var t := TakeItem(s).value;
    assert forall x :: x in t.queue ==> x in s.queue;
    forall id: nat | Outstanding(t, url, id)
      ensures url in t.actor.currURLs && IsLatest(t, url, id)
    {
      if id != s.processed {
        assert Outstanding(s, url, id) && IsLatest(s, url, id);
      }
    }
  }

  lemma OtherStepKeepsTidy(chanSize: nat, s: State, a: Action, url: string)
    requires Tidy(s, url) && StopsInv(s) && RelayInv(s)
    requires Step(chanSize, s, a).Some? && !a.ActorTurn? && a != RequestStop(url)
    ensures Tidy(Step(chanSize, s, a).value, url)
  {
    var t := Step(chanSize, s, a).value;
    if StopItem(url, Some(|s.requests|)) in s.queue {
      OwnStopsKnown(s, url, |s.requests|);
    }
    hide StopsInv;
    forall id: nat | Outstanding(t, url, id)
      ensures Outstanding(s, url, id) && url in t.actor.currURLs && IsLatest(t, url, id)
    {
      assert id < |s.requests|;
      assert Outstanding(s, url, id);
      assert IsLatest(s, url, id);
    }
  }

  /** While nobody asks for the URL to be stopped, from when it was last quiet on, every own stop
      finds the URL in the set and releases the run it belongs to. */
  lemma OwnStopsHitOwnRuns(
      chanSize: nat, actions: seq<Action>, more: seq<Action>, url: string, id: nat)
    requires Quiet(After(chanSize, actions), url) && RequestStop(url) !in more
    ensures
      var s := After(chanSize, actions + more);
      s.queue != [] && s.queue[0] == StopItem(url, Some(id)) ==> url in s.actor.currURLs && IsLatest(s, url, id)
  {
    StaysTidy(chanSize, actions, more, url);
    AlwaysDeeds(chanSize, actions + more);
    var s := After(chanSize, actions + more);
    hide After;
    if s.queue != [] && s.queue[0] == StopItem(url, Some(id)) {
      assert OwnStop(s, s.queue[0]);
      assert Outstanding(s, url, id);
    }
  }

  lemma {:induction false} StaysTidy(chanSize: nat, actions: seq<Action>, more: seq<Action>, url: string)
    requires Quiet(After(chanSize, actions), url) && RequestStop(url) !in more
    ensures Tidy(After(chanSize, actions + more), url)
  {
    if more == [] {
      assert actions + more == actions;
    } else {
      var init, a := more[..|more| - 1], more[|more| - 1];
      StaysTidy(chanSize, actions, init, url);
      assert (actions + more)[..|actions + more| - 1] == actions + init;
      var s := After(chanSize, actions + init);
      if Step(chanSize, s, a).Some? {
        StepKeepsTidy(chanSize, actions + init, a, url);
      }
      hide Step, Tidy, Quiet;
    }
  }

  lemma StepKeepsTidy(chanSize: nat, actions: seq<Action>, a: Action, url: string)
    requires var s := After(chanSize, actions); Tidy(s, url) && Step(chanSize, s, a).Some? && a != RequestStop(url)
    ensures Tidy(Step(chanSize, After(chanSize, actions), a).value, url)
  {
    AlwaysDeeds(chanSize, actions);
    AlwaysInv(chanSize, actions);
    var s := After(chanSize, actions);
    hide Tidy, StopsInv, QueueInv, TakeItem;
    if !a.ActorTurn? {
      OtherStepKeepsTidy(chanSize, s, a, url);
    } else if s.queue[0].StopItem? {
      StopKeepsTidy(s, url);
    } else {
      StartKeepsTidy(s, url);
    }
  }

  /** Of a URL that nobody has ever asked to stop, every own stop releases its own run. */
  lemma UnstoppedURLsReleaseTheirRuns(chanSize: nat, actions: seq<Action>, url: string, id: nat)
    requires RequestStop(url) !in actions
    ensures
      var s := After(chanSize, actions);
      s.queue != [] && s.queue[0] == StopItem(url, Some(id)) ==> url in s.actor.currURLs && IsLatest(s, url, id)
  {
    assert After(chanSize, []) == INITIAL;
    OwnStopsHitOwnRuns(chanSize, [], actions, url, id);
    assert [] + actions == actions;
  }

  // ----- Two scenarios -----

  function Start(url: string): seq<Action> {
    [RequestStart(url), ActorTurn]
  }

  function Stop(url: string): seq<Action> {
    [RequestStop(url), ActorTurn]
  }

  /** A run ends and its goroutine queues the stop. */
  function Finish(id: nat): seq<Action> {
    [RunFinishes(id), RelayReceives(id), RelayQueuesStop(id)]
  }

  lemma Extend(actions: seq<Action>, a: Action)
    ensures After(64, actions + [a]) ==
            match Step(64, After(64, actions), a) case Some(next) => next case None => After(64, actions)
  {
    assert (actions + [a])[..|actions|] == actions;
  }

  lemma StartsNow(actions: seq<Action>, url: string)
    requires var s := After(64, actions); s.queue == [] && url !in s.actor.currURLs
    ensures var s, t := After(64, actions), After(64, actions + Start(url));
            && t.queue == [] && t.cancelled == s.cancelled
            && t.actor.currURLs == s.actor.currURLs + {url}
            && t.requests == s.requests + [Request(url, Streaming, Waiting)]
  {
    hide After;
    Extend(actions, RequestStart(url));
    Extend(actions + [RequestStart(url)], ActorTurn);
    assert actions + Start(url) == actions + [RequestStart(url)] + [ActorTurn];
  }

  lemma StopsNow(actions: seq<Action>, url: string)
    requires var s := After(64, actions); s.queue == [] && url in s.actor.currURLs
    ensures var s, t := After(64, actions), After(64, actions + Stop(url));
            && t.queue == [] && t.cancelled == s.cancelled
            && t.actor.currURLs == s.actor.currURLs - {url} && t.requests == s.requests
  {
    hide After;
    Extend(actions, RequestStop(url));
    Extend(actions + [RequestStop(url)], ActorTurn);
    assert actions + Stop(url) == actions + [RequestStop(url)] + [ActorTurn];
  }

  lemma FinishesNow(actions: seq<Action>, id: nat)
    requires var s := After(64, actions);
             && s.queue == [] && id < |s.requests|
             && s.requests[id].run == Streaming && s.requests[id].relay == Waiting
    ensures var s, t := After(64, actions), After(64, actions + Finish(id));
            && t.queue == [StopItem(s.requests[id].url, Some(id))] && t.cancelled == s.cancelled
            && t.actor == s.actor && t.requests == s.requests[id := Request(s.requests[id].url, Done, Settled)]
  {
    hide After;
    Extend(actions, RunFinishes(id));
    var p := actions + [RunFinishes(id)];
    Extend(p, RelayReceives(id));
    Extend(p + [RelayReceives(id)], RelayQueuesStop(id));
    assert actions + Finish(id) == p + [RelayReceives(id)] + [RelayQueuesStop(id)];
  }

  lemma ReleasesNow(actions: seq<Action>, url: string, origin: Option<nat>)
    requires var s := After(64, actions); s.queue == [StopItem(url, origin)] && url in s.actor.currURLs
    ensures var s, t := After(64, actions), After(64, actions + [ActorTurn]);
            && t.queue == [] && t.cancelled == s.cancelled
            && t.actor.currURLs == s.actor.currURLs - {url} && t.requests == s.requests
  {
    hide After;
    Extend(actions, ActorTurn);
  }

  /** A start, a stop and a second start. */
  lemma SecondRunStarts(url: string)
    ensures
      var s := After(64, Start(url) + Stop(url) + Start(url));
      && s.queue == [] && !s.cancelled && s.actor.currURLs == {url}
      && s.requests == [Request(url, Streaming, Waiting), Request(url, Streaming, Waiting)]
    ensures |After(64, Start(url) + Stop(url)).requests| == 1
  {
    assert After(64, []) == INITIAL;
    assert [] + Start(url) == Start(url);
    hide After;
    StartsNow([], url);
    StopsNow(Start(url), url);
    StartsNow(Start(url) + Stop(url), url);
    hide Start, Stop;
  }

  /** Then the first run ends, and its own stop is taken. */
  function FirstRunReleased(url: string): seq<Action> {
    Start(url) + Stop(url) + Start(url) + Finish(0) + [ActorTurn]
  }

  lemma FirstRunIsReleased(url: string)
    ensures
      var s := After(64, FirstRunReleased(url));
      && s.queue == [] && !s.cancelled && url !in s.actor.currURLs
      && s.requests == [Request(url, Done, Settled), Request(url, Streaming, Waiting)]
  {
    hide After, Start, Stop, Finish;
    SecondRunStarts(url);
    var p := Start(url) + Stop(url) + Start(url);
    FinishesNow(p, 0);
    ReleasesNow(p + Finish(0), url, Some(0));
  }

  /** The first run's own stop takes the URL out of the set while the second run goes on. */
  lemma LateStopHitsNewerRun(url: string)
    ensures
      exists actions: seq<Action> ::
        var s := After(64, actions);
        && !s.cancelled && s.queue == [] && |s.requests| == 2
        && s.requests[1] == Request(url, Streaming, Waiting)
        && url !in s.actor.currURLs
  {
    FirstRunIsReleased(url);
    hide After, FirstRunReleased;
    assert After(64, FirstRunReleased(url)).requests[1] == Request(url, Streaming, Waiting);
  }

  lemma ThirdRunIsHit(url: string)
    ensures
      var s := After(64, FirstRunReleased(url) + Start(url) + Finish(1));
      s.queue == [StopItem(url, Some(1))] && url in s.actor.currURLs && !IsLatest(s, url, 1)
  {
    FirstRunIsReleased(url);
    var p := FirstRunReleased(url);
    hide After, FirstRunReleased, Start, Finish;
    StartsNow(p, url);
    FinishesNow(p + Start(url), 1);
    var s := After(64, p + Start(url) + Finish(1));
    assert Effective(s.requests[2]) && s.requests[2].url == url;
  }

  function SinceSecondStart(url: string): seq<Action> {
    Start(url) + Finish(0) + [ActorTurn] + Start(url) + Finish(1)
  }

  lemma NoStopRequested(url: string)
    ensures RequestStop(url) !in SinceSecondStart(url)
  {
    assert RequestStop(url) !in Start(url) && RequestStop(url) !in Finish(0) && RequestStop(url) !in Finish(1);
    hide Start, Finish;
  }

  lemma Regroup(a: seq<Action>, b: seq<Action>, c: seq<Action>, d: seq<Action>, e: seq<Action>)
    ensures a + (b + c + d + b + e) == a + b + c + d + b + e
  {
  }

  /** Nor is it enough that nobody has asked for a stop since the run was started: then the second
      run's own stop hits a third. */
  lemma LateStopsFollowOneAnother(url: string)
    ensures
      exists before: seq<Action>, after: seq<Action> ::
        var s := After(64, before + after);
        && |After(64, before).requests| == 1 && RequestStop(url) !in after
        && s.queue == [StopItem(url, Some(1))] && url in s.actor.currURLs && !IsLatest(s, url, 1)
  {
    var before := Start(url) + Stop(url);
    var after := SinceSecondStart(url);
    NoStopRequested(url);
    SecondRunStarts(url);
    ThirdRunIsHit(url);
    Regroup(before, Start(url), Finish(0), [ActorTurn], Finish(1));
    hide After, Start, Stop, Finish, IsLatest;
    assert before + after == FirstRunReleased(url) + Start(url) + Finish(1);
  }
}
