/** internal/server/serverapp.go in its own form: the command loop working in place on the runtime
    destinations and on the slice it shares with the store. Each method is proved against the
    value-level functions of Server; what those guarantee is proved there. */
module App {
  import opened Domain
  import Store
  import Replicator
  import opened Server

  /** An event that carries destinations, without these. */
  datatype Envelope = StateEnvelope(source: Source, buildInfo: BuildInfo) | ListEnvelope

  function Contents(e: Envelope, ds: seq<Destination>): Publication {
    match e
    case StateEnvelope(source, buildInfo) => StateSent(AppState(source, ds, buildInfo))
    case ListEnvelope => ListSent(ds)
  }

  class App {
    const store: Store.FileStore
    var destinations: array<Destination>   // state.Destinations
    var source: Source                     // state.Source
    var acts: seq<Replicator.Act>          // what was asked of the replicator
    var slices: seq<array<Destination>>    // the destination slices inside events that were sent
    var envelopes: seq<Envelope>           // the rest of those events
    ghost var snapshots: seq<Publication>  // what those events said when they were sent

    /** No slice that was sent in an event is the one the loop works on, and every event still says what
        it said when it was sent. */
    ghost predicate Consistent()
      reads this, store, destinations, store.destinations.arr, slices
    {
      && store.Consistent()
      && destinations !in slices
      && |snapshots| == |slices| == |envelopes|
      && (forall i :: 0 <= i < |slices| ==> Contents(envelopes[i], slices[i][..]) == snapshots[i])
    }

    ghost function View(): ServerState
      reads this, store, destinations, store.destinations.arr
      requires store.Consistent()
    {
      ServerState(Store.Elements(store.destinations), store.accepted, destinations[..], source)
    }

    constructor (store: Store.FileStore, source: Source)
      requires store.Consistent() && Store.Elements(store.destinations) == store.accepted
      ensures Consistent() && fresh(destinations)
      ensures this.store == store && acts == [] && slices == [] && snapshots == []
      ensures View() == ServerState(store.accepted, store.accepted, FromStore(store.accepted), source)
    {
      this.store := store;
      this.source := source;
      acts, slices, envelopes, snapshots := [], [], [], [];
      new;
      ApplyPersistentState();
    }

    /** applyPersistentState and destinationsFromStore: a new slice, filled in a loop. */
    method ApplyPersistentState()
      requires store.Consistent()
      modifies this`destinations
      ensures fresh(destinations) && destinations[..] == FromStore(Store.Elements(store.destinations))
    {
      var s := store.Get();
      destinations := MakeDestinations(s);
    }

    static method MakeDestinations(s: Store.Slice) returns (ds: array<Destination>)
      requires Store.IsSlice(s)
      ensures fresh(ds) && ds[..] == FromStore(Store.Elements(s))
    {
      ds := new Destination[s.len](_ => Destination(ZERO_CONTAINER, OFF_AIR, ZERO_ID, "", ""));
      for i := 0 to s.len
        invariant forall k :: 0 <= k < i ==> ds[k] == RuntimeOf(s.arr[k])
      {
        ds[i] := Destination(ZERO_CONTAINER, OFF_AIR, s.arr[i].id, s.arr[i].name, s.arr[i].url);
      }
      assert ds[..] == FromStore(s.arr[..s.len]);
    }

    /** slices.Clone(state.Destinations) */
    method CloneDestinations() returns (clone: array<Destination>)
      ensures fresh(clone) && clone[..] == destinations[..]
    {
      clone := new Destination[destinations.Length](
        i requires 0 <= i < destinations.Length reads this, destinations => destinations[i]);
      assert clone[..] == destinations[..];
    }

    method SendEvent(e: Envelope)
      requires Consistent()
      modifies this`slices, this`envelopes, this`snapshots
      ensures Consistent()
      ensures snapshots == old(snapshots) + [Contents(e, destinations[..])] && old(slices) <= slices
      ensures slices != [] && slices[|slices| - 1][..] == destinations[..]
    {
      hide Contents;
      var clone := CloneDestinations();
      slices, envelopes := slices + [clone], envelopes + [e];
      snapshots := snapshots + [Contents(e, destinations[..])];
    }

    /** AppState.Clone, sent in an AppStateChangedEvent. */
    method Publish()
      requires Consistent()
      modifies this`slices, this`envelopes, this`snapshots
      ensures Consistent()
      ensures snapshots == old(snapshots) + [StateOf(View())] && old(slices) <= slices
    {
      SendEvent(StateEnvelope(source, NO_BUILD_INFO));
    }

    /** handlePersistentStateUpdate */
    method HandlePersistentStateUpdate()
      requires Consistent()
      modifies this`destinations, this`slices, this`envelopes, this`snapshots
      ensures Consistent() && fresh(destinations)
      ensures destinations[..] == FromStore(Store.Elements(store.destinations))
      ensures snapshots == old(snapshots) + [StateOf(View())] && old(slices) <= slices
    {
      ApplyPersistentState();
      Publish();
    }

    /** FileStore.Set and, if that succeeds, handlePersistentStateUpdate: the end of each command that edits
        the list. */
    method Commit(newState: Store.Slice, writeOk: bool) returns (r: Store.SetResult)
      requires Consistent() && Store.IsSlice(newState)
      modifies this`destinations, this`slices, this`envelopes, this`snapshots, store
      ensures Consistent()
      ensures r == SetResult(store.parse, Store.Elements(newState), writeOk)
      ensures if r.Stored? then
                && View() == Accept(old(View()), Store.Elements(newState))
                && snapshots == old(snapshots) + [StateOf(View())]
                && store.destinations == newState && fresh(destinations)
              else
                && View() == old(View()) && snapshots == old(snapshots)
                && store.destinations == old(store.destinations) && destinations == old(destinations)
      ensures old(slices) <= slices
    {
      hide Store.Valid, Store.Errors, FromStore, StateOf, Contents;
      r := store.Set(newState, writeOk);
      if r.Stored? {
        HandlePersistentStateUpdate();
      }
    }

    method Add(name: string, url: string, env: Env, spare: nat) returns (outcome: Outcome)
      requires Consistent()
      modifies this, store, store.destinations.arr
      ensures Consistent()
      ensures var h := HandleAdd(store.parse, old(View()), name, url, env);
              && View() == h.state && outcome == h.outcome && acts == old(acts) + h.acts
              && snapshots == old(snapshots) + (if h.changed then [StateOf(h.state)] else [])
      ensures store.destinations.arr == old(store.destinations.arr) || fresh(store.destinations.arr)
      ensures destinations == old(destinations) || fresh(destinations)
      ensures old(slices) <= slices
    {
      hide SetResult, FromStore, StateOf;
      var newState := store.Get();
      newState := Store.AppendTo(newState, Store.Entry(env.newID, name, url), spare);
      var r := Commit(newState, env.writeOk);
      outcome := match r
                 case WriteFailed => Failure(AddDestinationFailed(url, DEFAULT_ERROR, map[]))
                 case Invalid(errors) => Failure(AddDestinationFailed(url, "", errors))
                 case Stored => Success(DestinationAdded(env.newID));
    }

    method FindLive(id: UUID) returns (live: bool)
      ensures live == IsLive(destinations[..], id)
    {
      for i := 0 to destinations.Length
        invariant forall k :: 0 <= k < i ==> destinations[k].id != id
      {
        if destinations[i].id == id {
          return destinations[i].status == LIVE;
        }
      }
      return false;
    }

    /** Writing through dest := &newState.Destinations[idx]. */
    static method EditEntry(s: Store.Slice, i: nat, newName: Option<string>, newURL: Option<string>)
      requires Store.IsSlice(s) && i < s.len
      modifies s.arr
      ensures Store.Elements(s) == (var ds := old(Store.Elements(s)); ds[i := Edited(ds[i], newName, newURL)])
    {
      ghost var ds := Store.Elements(s);
      if newName.Some? {
        s.arr[i] := s.arr[i].(name := newName.value);
      }
      if newURL.Some? {
        s.arr[i] := s.arr[i].(url := newURL.value);
      }
      assert Store.Elements(s) == ds[i := Edited(ds[i], newName, newURL)];
    }

    method Update(id: UUID, newName: Option<string>, newURL: Option<string>, env: Env) returns (outcome: Outcome)
      requires Consistent()
      modifies this, store, store.destinations.arr
      ensures Consistent()
      ensures var h := HandleUpdate(store.parse, old(View()), id, newName, newURL, env);
              && View() == h.state && outcome == h.outcome && acts == old(acts) + h.acts
              && snapshots == old(snapshots) + (if h.changed then [StateOf(h.state)] else [])
      ensures store.destinations.arr == old(store.destinations.arr) || fresh(store.destinations.arr)
      ensures destinations == old(destinations) || fresh(destinations)
      ensures old(slices) <= slices
    {
      hide SetResult, FromStore, StateOf, Store.IndexOfID, Server.IndexOfID, Edited;
      var live := FindLive(id);
      if live {
        return Failure(UpdateDestinationFailed(id, IS_LIVE, map[]));
      }
      var newState := store.Get();
      var idx := Store.IndexOfID(newState.arr[..newState.len], id);
      if idx.None? {
        return Failure(UpdateDestinationFailed(id, NOT_FOUND, map[]));
      }
      ghost var s := View();
      EditEntry(newState, idx.value, newName, newURL);
      assert View() == s.(stored := s.stored[idx.value := Edited(s.stored[idx.value], newName, newURL)]);
      var r := Commit(newState, env.writeOk);
      outcome := match r
                 case WriteFailed => Failure(UpdateDestinationFailed(id, DEFAULT_ERROR, map[]))
                 case Invalid(errors) => Failure(UpdateDestinationFailed(id, "", errors))
                 case Stored => Success(DestinationUpdated(id));
    }

    method DeleteDestination(i: nat, id: UUID, env: Env) returns (outcome: Outcome)
      requires Consistent() && i < store.destinations.len == destinations.Length
      modifies this, store, store.destinations.arr
      ensures Consistent()
      ensures var h := RemoveAt(store.parse, old(View()), i, id, env);
              && View() == h.state && outcome == h.outcome && acts == old(acts) + h.acts
              && snapshots == old(snapshots) + (if h.changed then [StateOf(h.state)] else [])
      ensures store.destinations.arr == old(store.destinations.arr) || fresh(store.destinations.arr)
      ensures destinations == old(destinations) || fresh(destinations)
      ensures old(slices) <= slices
    {
      hide SetResult, FromStore, StateOf, Store.IndexOfID, Server.IndexOfID;
      acts := acts + [Replicator.Stop(destinations[i].url)];
      ghost var s := View();
      var newState := store.Get();
      newState := Store.DeleteFrom(newState, i);
      assert View() == s.(stored := Store.Shifted(s.stored, i));
      var r := Commit(newState, env.writeOk);
      outcome := match r
                 case WriteFailed => Failure(RemoveDestinationFailed(id, DEFAULT_ERROR))
                 case Invalid(_) => Failure(RemoveDestinationFailed(id, VALIDATION_FAILED))
                 case Stored => Success(DestinationRemoved(id));
    }

    /** The caller must know that the lists are equally long; Server.ListsStayAligned says they are. */
    method Remove(id: UUID, force: bool, env: Env) returns (outcome: Outcome)
      requires Consistent() && store.destinations.len == destinations.Length
      modifies this, store, store.destinations.arr
      ensures Consistent()
      ensures var h := HandleRemove(store.parse, old(View()), id, force, env);
              && View() == h.state && outcome == h.outcome && acts == old(acts) + h.acts
              && snapshots == old(snapshots) + (if h.changed then [StateOf(h.state)] else [])
      ensures store.destinations.arr == old(store.destinations.arr) || fresh(store.destinations.arr)
      ensures destinations == old(destinations) || fresh(destinations)
      ensures old(slices) <= slices
    {
      hide RemoveAt, StateOf, Store.IndexOfID;
      var current := store.Get();
      var idx := Store.IndexOfID(current.arr[..current.len], id);
      if idx.None? {
        return Failure(RemoveDestinationFailed(id, NOT_FOUND));
      }
      var dest := destinations[idx.value];
      if dest.status == LIVE && !force {
        return Failure(RemoveDestinationFailed(id, IS_LIVE));
      }
      outcome := DeleteDestination(idx.value, id, env);
    }

    method StartStream(id: UUID, env: Env) returns (outcome: Outcome)
      requires Consistent()
      modifies this`acts
      ensures Consistent()
      ensures var h := HandleStart(old(View()), id, env);
              View() == h.state && outcome == h.outcome && acts == old(acts) + h.acts
    {
      var idx := IndexOfID(destinations[..], id);
      if idx.None? {
        return Failure(StartDestinationFailed(id, NOT_FOUND));
      }
      if !source.live {
        return Failure(StartDestinationFailed(id, SOURCE_NOT_LIVE));
      }
      var dest := destinations[idx.value];
      var hostError := env.lookup(dest.url);
      if hostError.Some? {
        return Failure(StartDestinationFailed(id, hostError.value));
      }
      acts := acts + [Replicator.Start(dest.url)];
      return Success(DestinationStarted(id));
    }

    method StopStream(id: UUID) returns (outcome: Outcome)
      requires Consistent()
      modifies this`acts
      ensures Consistent()
      ensures var h := HandleStop(old(View()), id);
              View() == h.state && outcome == h.outcome && acts == old(acts) + h.acts
    {
      var idx := IndexOfID(destinations[..], id);
      if idx.None? {
        return Failure(StopDestinationFailed(id, NOT_FOUND));
      }
      acts := acts + [Replicator.Stop(destinations[idx.value].url)];
      return Success(DestinationStopped(id));
    }

    method List() returns (outcome: Outcome)
      requires Consistent()
      modifies this`slices, this`envelopes, this`snapshots
      ensures Consistent()
      ensures outcome == Failure(DestinationsListed(destinations[..]))
      ensures snapshots == old(snapshots) + [ListSent(destinations[..])] && old(slices) <= slices
    {
      SendEvent(ListEnvelope);
      return Failure(DestinationsListed(slices[|slices| - 1][..]));
    }

    /** applyReplicatorState, writing through a pointer into the runtime slice; then the new state is
        published. */
    method ApplyReplicatorState(r: Replicator.Report)
      requires Consistent()
      modifies this`slices, this`envelopes, this`snapshots, destinations
      ensures Consistent()
      ensures View() == ApplyReport(old(View()), r)
      ensures snapshots == old(snapshots) + [StateOf(View())] && old(slices) <= slices
    {
      var idx := IndexOfURL(destinations[..], r.url);
      if idx.Some? {
        ghost var before := destinations[..];
        destinations[idx.value] := destinations[idx.value].(container := r.container, status := r.status);
        assert destinations[..] ==
               before[idx.value := before[idx.value].(container := r.container, status := r.status)];
      }
      Publish();
    }

    /** handleCommand */
    method HandleCommand(cmd: Command, env: Env, spare: nat) returns (outcome: Outcome)
      requires Consistent() && store.destinations.len == destinations.Length
      modifies this, store, store.destinations.arr
      ensures Consistent()
      ensures var h := Handle(store.parse, old(View()), cmd, env);
              && View() == h.state && outcome == h.outcome && acts == old(acts) + h.acts
              && snapshots == old(snapshots) + PublishedFor(h, cmd)
      ensures old(slices) <= slices
      ensures store.destinations.arr == old(store.destinations.arr) || fresh(store.destinations.arr)
      ensures destinations == old(destinations) || fresh(destinations)
    {
      hide HandleAdd, HandleUpdate, HandleRemove, StateOf;
      match cmd {
        case ListDestinations => outcome := List();
        case AddDestination(name, url) => outcome := Add(name, url, env, spare);
        case UpdateDestination(id, newName, newURL) => outcome := Update(id, newName, newURL, env);
        case RemoveDestination(id, force) => outcome := Remove(id, force, env);
        case StartDestination(id) => outcome := StartStream(id, env);
        case StopDestination(id) => outcome := StopStream(id);
        case CloseOtherInstance => outcome := if env.closeOk then Silent else ExitLoop;
        case KillServer => outcome := ExitLoop;
      }
    }

    /** One request taken from the dispatch channel: handleCommand, and what the main loop sends. */
    method Serve(req: Request, env: Env, spare: nat) returns (d: Delivery, exit: bool)
      requires Consistent() && store.destinations.len == destinations.Length
      modifies this, store, store.destinations.arr
      ensures Consistent()
      ensures var h := Handle(store.parse, old(View()), req.cmd, env);
              && View() == h.state && acts == old(acts) + h.acts
              && d == Deliver(req, h.outcome) && exit == h.outcome.ExitLoop?
              && snapshots == old(snapshots) + PublishedFor(h, req.cmd)
      ensures old(slices) <= slices
      ensures store.destinations.arr == old(store.destinations.arr) || fresh(store.destinations.arr)
      ensures destinations == old(destinations) || fresh(destinations)
    {
      hide Handle;
      var outcome := HandleCommand(req.cmd, env, spare);
      exit := false;
      d := Delivery([], [], []);
      if outcome.ExitLoop? {
        exit := true;
      } else if outcome.Failure? {
        if req.Async? && req.clientID != "" {
          d := d.(direct := [(req.clientID, outcome.evt)]);
        }
        if req.Sync? {
          d := d.(replies := [outcome.evt]);
        }
      } else if outcome.Success? {
        d := d.(broadcast := [outcome.evt]);
        if req.Sync? {
          d := d.(replies := [outcome.evt]);
        }
      }
    }

    /** One turn of the main loop's select. */
    method Turn(a: Action, spare: nat)
      requires Consistent() && store.destinations.len == destinations.Length
      modifies this, store, store.destinations.arr, destinations
      ensures Consistent()
      ensures View() == Step(store.parse, old(View()), a)
      ensures acts == old(acts) + ActsFor(store.parse, old(View()), a)
      ensures snapshots == old(snapshots) + Published(store.parse, old(View()), a) && old(slices) <= slices
      ensures store.destinations.arr == old(store.destinations.arr) || fresh(store.destinations.arr)
      ensures destinations == old(destinations) || fresh(destinations)
    {
      hide Handle, ApplyReport, PublishedFor, StateOf;
      match a {
        case Dispatch(cmd, env) => var _, _ := Serve(Sync(cmd), env, spare);
        case ReplicatorReports(r) => ApplyReplicatorState(r);
        case SourceReports(s) => source := s; Publish();
        case Tick => Publish();
      }
    }

    /** The main loop, on the actions that its select chooses: it follows the specification from the
        list the store was opened with, whatever is refused on the way, and never indexes out of
        range; it asks of the replicator and publishes what the specification says, in order; and at
        the end every event it has ever published still says what it said then. */
    method MainLoop(actions: seq<Action>, spare: nat)
      requires Consistent() && Store.Valid(store.parse, store.accepted)
      requires View() == ServerState(store.accepted, store.accepted, FromStore(store.accepted), source)
      modifies this, store, store.destinations.arr, destinations
      ensures Consistent()
      ensures View() == After(store.parse, old(store.accepted), old(source), actions)
      ensures snapshots == old(snapshots) + Publications(store.parse, old(store.accepted), old(source), actions)
      ensures acts == old(acts) + Acts(store.parse, old(store.accepted), old(source), actions)
      ensures old(slices) <= slices
    {
      ghost var initial, source0, sent, asked := store.accepted, source, snapshots, acts;
      for k := 0 to |actions|
        invariant Consistent()
        invariant Leads(store.parse, initial, source0, actions[..k], View(), snapshots, acts, sent, asked)
        invariant old(slices) <= slices
        invariant store.destinations.arr == old(store.destinations.arr) || fresh(store.destinations.arr)
        invariant destinations == old(destinations) || fresh(destinations)
      {
        SameLength(store.parse, initial, source0, actions[..k]);
        hide Store.Valid, Step, Published, ActsFor, After, Leads, Contents, FromStore;
        OneMoreAction(store.parse, initial, source0, actions, k, View(), snapshots, acts, sent, asked);
        assert store.destinations.len == |View().stored| == |View().runtime| == destinations.Length;
        Turn(actions[k], spare);
      }
      hide Store.Valid, After, Publications, Acts, Contents, FromStore;
      assert actions[..|actions|] == actions;
    }
  }
}
