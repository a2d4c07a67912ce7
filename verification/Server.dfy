/** internal/server/serverapp.go: the command loop, which owns the runtime destinations and keeps
    them in step with the store, and the replies that internal/server/grpc.go expects of it. */
module Server {
  import opened Domain
  import Store
  import Replicator

  // ----- The specification: the server on values -----

  /** stored is what the store holds in memory, and may have been edited by a command that was then
      refused; accepted is the payload the store last accepted (or started with). */
  datatype ServerState = ServerState(
    stored: seq<Store.Entry>,
    accepted: seq<Store.Entry>,
    runtime: seq<Destination>,
    source: Source)

  /** What a command takes from outside: the new ID, whether the file can be written, what the DNS
      lookup finds wrong with the host of a URL, and whether the other instances could be closed. */
  datatype Env = Env(newID: UUID, writeOk: bool, lookup: string -> Option<string>, closeOk: bool)

  const FOUND: string -> Option<string> := _ => None

  /** okEvt, errEvt, neither, or an error that ends the main loop; or a run-time panic. */
  datatype Outcome =
    | Success(evt: Event)
    | Failure(evt: Event)
    | Silent
    | ExitLoop
    | Panic

  /** acts are what is asked of the replicator; changed says that a new app state is published. */
  datatype Handled = Handled(
    state: ServerState, outcome: Outcome, acts: seq<Replicator.Act>, changed: bool)

  const DEFAULT_ERROR := "An error occurred, check server log for details"
  const IS_LIVE := "destination is live"
  const NOT_FOUND := "destination not found"
  const SOURCE_NOT_LIVE := "source not live"
  const VALIDATION_FAILED := "validation failed"

  function RuntimeOf(e: Store.Entry): Destination {
    Destination(ZERO_CONTAINER, OFF_AIR, e.id, e.name, e.url)
  }

  function FromStore(entries: seq<Store.Entry>): seq<Destination> {
    seq(|entries|, i requires 0 <= i < |entries| => RuntimeOf(entries[i]))
  }

  /** slices.IndexFunc over the runtime destinations. */
  function IndexOfID(ds: seq<Destination>, id: UUID): (r: Option<nat>)
    ensures match r
            case None => forall k :: 0 <= k < |ds| ==> ds[k].id != id
            case Some(i) => i < |ds| && ds[i].id == id && forall k :: 0 <= k < i ==> ds[k].id != id
  {
    if ds == [] then None
    else if ds[0].id == id then Some(0)
    else
      assert forall k :: 1 <= k < |ds| ==> ds[k] == ds[1..][k - 1];
      match IndexOfID(ds[1..], id) case None => None case Some(i) => Some(i + 1)
  }

  function IndexOfURL(ds: seq<Destination>, url: string): (r: Option<nat>)
    ensures match r
            case None => forall k :: 0 <= k < |ds| ==> ds[k].url != url
            case Some(i) => i < |ds| && ds[i].url == url && forall k :: 0 <= k < i ==> ds[k].url != url
  {
    if ds == [] then None
    else if ds[0].url == url then Some(0)
    else
      assert forall k :: 1 <= k < |ds| ==> ds[k] == ds[1..][k - 1];
      match IndexOfURL(ds[1..], url) case None => None case Some(i) => Some(i + 1)
  }

  predicate IsLive(ds: seq<Destination>, id: UUID) {
    match IndexOfID(ds, id)
    case None => false
    case Some(i) => ds[i].status == LIVE
  }

  /** FileStore.Set on values. */
  function SetResult(parse: Store.Parser, ds: seq<Store.Entry>, writeOk: bool): Store.SetResult {
    if !Store.Valid(parse, ds) then Store.Invalid(Store.Errors(parse, ds))
    else if !writeOk then Store.WriteFailed
    else Store.Stored
  }

  /** The state once ds has been accepted. */
  function Accept(s: ServerState, ds: seq<Store.Entry>): ServerState {
    s.(stored := ds, accepted := ds, runtime := FromStore(ds))
  }

  function Fail(s: ServerState, evt: Event): Handled {
    Handled(s, Failure(evt), [], false)
  }

  function HandleAdd(parse: Store.Parser, s: ServerState, name: string, url: string, env: Env): Handled {
    var ds := s.stored + [Store.Entry(env.newID, name, url)];
    match SetResult(parse, ds, env.writeOk)
    case Stored => Handled(Accept(s, ds), Success(DestinationAdded(env.newID)), [], true)
    case WriteFailed => Fail(s, AddDestinationFailed(url, DEFAULT_ERROR, map[]))
    case Invalid(errors) => Fail(s, AddDestinationFailed(url, "", errors))
  }

  function Edited(e: Store.Entry, newName: Option<string>, newURL: Option<string>): Store.Entry {
    Store.Entry(e.id,
                match newName case Some(n) => n case None => e.name,
                match newURL case Some(u) => u case None => e.url)
  }

  function HandleUpdate(
    parse: Store.Parser, s: ServerState, id: UUID, newName: Option<string>, newURL: Option<string>, env: Env): Handled
  {
    if IsLive(s.runtime, id) then Fail(s, UpdateDestinationFailed(id, IS_LIVE, map[]))
    else
      match Store.IndexOfID(s.stored, id)
      case None => Fail(s, UpdateDestinationFailed(id, NOT_FOUND, map[]))
      case Some(i) =>
        var ds := s.stored[i := Edited(s.stored[i], newName, newURL)];
        // the edit has gone through to the store, whatever Set says
        match SetResult(parse, ds, env.writeOk)
        case Stored => Handled(Accept(s, ds), Success(DestinationUpdated(id)), [], true)
        case WriteFailed => Fail(s.(stored := ds), UpdateDestinationFailed(id, DEFAULT_ERROR, map[]))
        case Invalid(errors) => Fail(s.(stored := ds), UpdateDestinationFailed(id, "", errors))
  }

  /** From the stop on. */
  function RemoveAt(parse: Store.Parser, s: ServerState, i: nat, id: UUID, env: Env): Handled
    requires i < |s.stored| && i < |s.runtime|
  {
    var acts := [Replicator.Stop(s.runtime[i].url)];
    var ds := s.stored[..i] + s.stored[i + 1..];
    // the deletion has shifted the store's own list, whatever Set says
    var shifted := s.(stored := Store.Shifted(s.stored, i));
    match SetResult(parse, ds, env.writeOk)
    case Stored => Handled(Accept(s, ds), Success(DestinationRemoved(id)), acts, true)
    case WriteFailed => Handled(shifted, Failure(RemoveDestinationFailed(id, DEFAULT_ERROR)), acts, false)
    case Invalid(_) => Handled(shifted, Failure(RemoveDestinationFailed(id, VALIDATION_FAILED)), acts, false)
  }

  function HandleRemove(parse: Store.Parser, s: ServerState, id: UUID, force: bool, env: Env): Handled {
    match Store.IndexOfID(s.stored, id)
    case None => Fail(s, RemoveDestinationFailed(id, NOT_FOUND))
    case Some(i) =>
      if i >= |s.runtime| then Handled(s, Panic, [], false)
      else if s.runtime[i].status == LIVE && !force then Fail(s, RemoveDestinationFailed(id, IS_LIVE))
      else RemoveAt(parse, s, i, id, env)
  }

  function HandleStart(s: ServerState, id: UUID, env: Env): Handled {
    match IndexOfID(s.runtime, id)
    case None => Fail(s, StartDestinationFailed(id, NOT_FOUND))
    case Some(i) =>
      if !s.source.live then Fail(s, StartDestinationFailed(id, SOURCE_NOT_LIVE))
      else
        match env.lookup(s.runtime[i].url)
        case Some(error) => Fail(s, StartDestinationFailed(id, error))
        case None => Handled(s, Success(DestinationStarted(id)), [Replicator.Start(s.runtime[i].url)], false)
  }

  function HandleStop(s: ServerState, id: UUID): Handled {
    match IndexOfID(s.runtime, id)
    case None => Fail(s, StopDestinationFailed(id, NOT_FOUND))
    case Some(i) => Handled(s, Success(DestinationStopped(id)), [Replicator.Stop(s.runtime[i].url)], false)
  }

  function Handle(parse: Store.Parser, s: ServerState, cmd: Command, env: Env): Handled {
    match cmd
    case ListDestinations => Fail(s, DestinationsListed(s.runtime))
    case AddDestination(name, url) => HandleAdd(parse, s, name, url, env)
    case UpdateDestination(id, newName, newURL) => HandleUpdate(parse, s, id, newName, newURL, env)
    case RemoveDestination(id, force) => HandleRemove(parse, s, id, force, env)
    case StartDestination(id) => HandleStart(s, id, env)
    case StopDestination(id) => HandleStop(s, id)
    case CloseOtherInstance => Handled(s, if env.closeOk then Silent else ExitLoop, [], false)
    case KillServer => Handled(s, ExitLoop, [], false)
  }

  /** applyReplicatorState */
  function ApplyReport(s: ServerState, r: Replicator.Report): ServerState {
    match IndexOfURL(s.runtime, r.url)
    case None => s
    case Some(i) =>
      s.(runtime := s.runtime[i := s.runtime[i].(container := r.container, status := r.status)])
  }

  /** Tick is the UI update ticker. */
  datatype Action =
    | Dispatch(cmd: Command, env: Env)
    | ReplicatorReports(report: Replicator.Report)
    | SourceReports(source: Source)
    | Tick

  function Step(parse: Store.Parser, s: ServerState, a: Action): ServerState {
    match a
    case Dispatch(cmd, env) => Handle(parse, s, cmd, env).state
    case ReplicatorReports(r) => ApplyReport(s, r)
    case SourceReports(source) => s.(source := source)
    case Tick => s
  }

  /** What is sent with a copy of the state in it: an AppStateChangedEvent, or a DestinationsListedEvent. */
  datatype Publication = StateSent(state: AppState) | ListSent(destinations: seq<Destination>)

  /** The build information of the server's state is never set. */
  const NO_BUILD_INFO := BuildInfo("", "", "", "")

  function StateOf(s: ServerState): Publication {
    StateSent(AppState(s.source, s.runtime, NO_BUILD_INFO))
  }

  function PublishedFor(h: Handled, cmd: Command): seq<Publication> {
    (if cmd.ListDestinations? then [ListSent(h.state.runtime)] else []) + (if h.changed then [StateOf(h.state)] else [])
  }

  function Published(parse: Store.Parser, s: ServerState, a: Action): seq<Publication> {
    match a
    case Dispatch(cmd, env) => PublishedFor(Handle(parse, s, cmd, env), cmd)
    case _ => [StateOf(Step(parse, s, a))]
  }

  /** All that a run publishes. */
  ghost function Publications(
    parse: Store.Parser, initial: seq<Store.Entry>, source: Source, actions: seq<Action>): seq<Publication>
  {
    if actions == [] then []
    else
      var init := actions[..|actions| - 1];
      Publications(parse, initial, source, init) +
      Published(parse, After(parse, initial, source, init), actions[|actions| - 1])
  }

  function ActsFor(parse: Store.Parser, s: ServerState, a: Action): seq<Replicator.Act> {
    if a.Dispatch? then Handle(parse, s, a.cmd, a.env).acts else []
  }

  /** All that a run asks of the replicator. */
  ghost function Acts(
    parse: Store.Parser, initial: seq<Store.Entry>, source: Source, actions: seq<Action>): seq<Replicator.Act>
  {
    if actions == [] then []
    else
      var init := actions[..|actions| - 1];
      Acts(parse, initial, source, init) +
      ActsFor(parse, After(parse, initial, source, init), actions[|actions| - 1])
  }

  /** The state after a list of actions, from a store that was created empty or read from a valid file. */
  ghost function After(
    parse: Store.Parser, initial: seq<Store.Entry>, source: Source, actions: seq<Action>): ServerState
  {
    if actions == [] then ServerState(initial, initial, FromStore(initial), source)
    else Step(parse, After(parse, initial, source, actions[..|actions| - 1]), actions[|actions| - 1])
  }

  /** A run has led to this state, and to these publications and acts, beginning with those. */
  ghost predicate Leads(
    parse: Store.Parser, initial: seq<Store.Entry>, source: Source, actions: seq<Action>,
    s: ServerState, published: seq<Publication>, acts: seq<Replicator.Act>,
    published0: seq<Publication>, acts0: seq<Replicator.Act>)
  {
    && s == After(parse, initial, source, actions)
    && published == published0 + Publications(parse, initial, source, actions)
    && acts == acts0 + Acts(parse, initial, source, actions)
  }

  lemma {:induction false} Snoc(
      parse: Store.Parser, initial: seq<Store.Entry>, source: Source, actions: seq<Action>, a: Action)
    ensures
      var s := After(parse, initial, source, actions);
      && After(parse, initial, source, actions + [a]) == Step(parse, s, a)
      && Publications(parse, initial, source, actions + [a]) ==
         Publications(parse, initial, source, actions) + Published(parse, s, a)
      && Acts(parse, initial, source, actions + [a]) == Acts(parse, initial, source, actions) + ActsFor(parse, s, a)
  {
    assert (actions + [a])[..|actions + [a]| - 1] == actions;
    hide Step, Published, ActsFor;
  }

  lemma Appended<T>(a: seq<T>, b: seq<T>, c: seq<T>)
    ensures (a + b) + c == a + (b + c)
  {
  }

  lemma {:induction false} OneMoreAction(
      parse: Store.Parser, initial: seq<Store.Entry>, source: Source, actions: seq<Action>, k: nat,
      s: ServerState, published: seq<Publication>, acts: seq<Replicator.Act>,
      published0: seq<Publication>, acts0: seq<Replicator.Act>)
    requires k < |actions|
    requires Leads(parse, initial, source, actions[..k], s, published, acts, published0, acts0)
    ensures
      Leads(parse, initial, source, actions[..k + 1], Step(parse, s, actions[k]),
            published + Published(parse, s, actions[k]), acts + ActsFor(parse, s, actions[k]), published0, acts0)
  {
    hide After, Publications, Acts, Step, Published, ActsFor;
    assert actions[..k + 1] == actions[..k] + [actions[k]];
    Snoc(parse, initial, source, actions[..k], actions[k]);
    Appended(published0, Publications(parse, initial, source, actions[..k]), Published(parse, s, actions[k]));
    Appended(acts0, Acts(parse, initial, source, actions[..k]), ActsFor(parse, s, actions[k]));
  }

  // ----- Invariants -----

  predicate Agree(d: Destination, e: Store.Entry) {
    d.id == e.id && d.name == e.name && d.url == e.url
  }

  predicate AllAgree(ds: seq<Destination>, es: seq<Store.Entry>) {
    |ds| == |es| && forall i :: 0 <= i < |ds| ==> Agree(ds[i], es[i])
  }

  /** The runtime list always shows the list last accepted, and that is valid; the store's own list has
      at least the same length. */
  predicate Inv(parse: Store.Parser, s: ServerState) {
    && |s.stored| == |s.runtime|
    && AllAgree(s.runtime, s.accepted)
    && Store.Valid(parse, s.accepted)
  }

  lemma HandleKeepsInv(parse: Store.Parser, s: ServerState, cmd: Command, env: Env)
    requires Inv(parse, s)
    ensures Inv(parse, Handle(parse, s, cmd, env).state)
  {
    hide Store.Valid, Store.Errors, Store.IndexOfID, IsLive, IndexOfID;
  }

  lemma StepKeepsInv(parse: Store.Parser, s: ServerState, a: Action)
    requires Inv(parse, s)
    ensures Inv(parse, Step(parse, s, a))
  {
    hide Handle, Store.Valid;
    if a.Dispatch? {
      HandleKeepsInv(parse, s, a.cmd, a.env);
    }
  }

  lemma {:induction false} AlwaysInv(
      parse: Store.Parser, initial: seq<Store.Entry>, source: Source, actions: seq<Action>)
    requires Store.Valid(parse, initial)
    ensures Inv(parse, After(parse, initial, source, actions))
  {
    hide Store.Valid, Step;
    if actions != [] {
      AlwaysInv(parse, initial, source, actions[..|actions| - 1]);
      StepKeepsInv(parse, After(parse, initial, source, actions[..|actions| - 1]), actions[|actions| - 1]);
    }
  }

  lemma SameLength(parse: Store.Parser, initial: seq<Store.Entry>, source: Source, actions: seq<Action>)
    requires Store.Valid(parse, initial)
    ensures var s := After(parse, initial, source, actions); |s.stored| == |s.runtime|
  {
    AlwaysInv(parse, initial, source, actions);
    hide After, Store.Valid, AllAgree;
  }

  // ----- What holds of every run -----

  /** In every reachable state, whatever was refused before: the store's list and the runtime list have
      the same length, so that no command indexes the runtime list out of range; and the runtime list
      is, position by position, the valid list the store last accepted. */
  lemma {:induction false} ListsStayAligned(
      parse: Store.Parser, initial: seq<Store.Entry>, source: Source, actions: seq<Action>, cmd: Command, env: Env)
    requires Store.Valid(parse, initial)
    ensures
      var s := After(parse, initial, source, actions);
      && |s.stored| == |s.runtime|
      && AllAgree(s.runtime, s.accepted)
      && (forall i :: 0 <= i < |s.runtime| ==>
            !Store.Blank(s.runtime[i].name) && Store.GoodURL(parse, s.runtime[i].url))
      && (forall i, j :: 0 <= i < j < |s.runtime| ==> s.runtime[i].url != s.runtime[j].url)
      && !Handle(parse, s, cmd, env).outcome.Panic?
  {
    AlwaysInv(parse, initial, source, actions);
    hide After, Store.Blank, Store.GoodURL;
    NoPanic(parse, After(parse, initial, source, actions), cmd, env);
    hide Handle;
  }

  lemma NoPanic(parse: Store.Parser, s: ServerState, cmd: Command, env: Env)
    requires |s.stored| == |s.runtime|
    ensures !Handle(parse, s, cmd, env).outcome.Panic?
  {
    hide Store.Valid, Store.Errors, FromStore;
  }

  /** An update or a removal that gets as far as Set and is turned down there. */
  predicate RefusedEdit(parse: Store.Parser, s: ServerState, a: Action) {
    a.Dispatch? &&
    match a.cmd
    case UpdateDestination(id, newName, newURL) =>
      !IsLive(s.runtime, id) &&
      (match Store.IndexOfID(s.stored, id)
       case None => false
       case Some(i) =>
         !SetResult(parse, s.stored[i := Edited(s.stored[i], newName, newURL)], a.env.writeOk).Stored?)
    case RemoveDestination(id, force) =>
      (match Store.IndexOfID(s.stored, id)
       case None => false
       case Some(i) =>
         RemovalGoesOn(s, id, force) &&
         !SetResult(parse, s.stored[..i] + s.stored[i + 1..], a.env.writeOk).Stored?)
    case _ => false
  }

  ghost predicate NoRefusedEdit(parse: Store.Parser, initial: seq<Store.Entry>, source: Source, actions: seq<Action>) {
    forall k :: 0 <= k < |actions| ==> !RefusedEdit(parse, After(parse, initial, source, actions[..k]), actions[k])
  }

  lemma StepKeepsSync(parse: Store.Parser, s: ServerState, a: Action)
    requires s.stored == s.accepted && !RefusedEdit(parse, s, a)
    ensures Step(parse, s, a).stored == Step(parse, s, a).accepted
  {
    hide Store.Valid, Store.Errors, FromStore, IndexOfURL;
  }

  /** As long as every update and removal that reaches Set succeeds, the store holds in memory what it
      accepted last, so that it agrees with the runtime list position by position. */
  lemma {:induction false} StoreAndRuntimeAgree(
      parse: Store.Parser, initial: seq<Store.Entry>, source: Source, actions: seq<Action>)
    requires Store.Valid(parse, initial) && NoRefusedEdit(parse, initial, source, actions)
    ensures var s := After(parse, initial, source, actions);
            s.stored == s.accepted && AllAgree(s.runtime, s.stored)
  {
    AlwaysInv(parse, initial, source, actions);
    if actions != [] {
      var init := actions[..|actions| - 1];
      NoRefusedEditBefore(parse, initial, source, actions);
      hide Store.Valid, RefusedEdit, Step, NoRefusedEdit, Inv, AllAgree;
      StoreAndRuntimeAgree(parse, initial, source, init);
      StepKeepsSync(parse, After(parse, initial, source, init), actions[|init|]);
    }
  }

  lemma NoRefusedEditBefore(
      parse: Store.Parser, initial: seq<Store.Entry>, source: Source, actions: seq<Action>)
    requires actions != [] && NoRefusedEdit(parse, initial, source, actions)
    ensures NoRefusedEdit(parse, initial, source, actions[..|actions| - 1])
    ensures !RefusedEdit(parse, After(parse, initial, source, actions[..|actions| - 1]), actions[|actions| - 1])
  {
    var init := actions[..|actions| - 1];
    hide RefusedEdit, After;
    assert forall k :: 0 <= k < |init| ==> init[..k] == actions[..k] && init[k] == actions[k];
  }

  /** A refused update is not undone. From a store in step with what it accepted, it stays in step
      exactly when the update would have changed nothing. */
  lemma RefusedUpdateStays(
      parse: Store.Parser, s: ServerState, id: UUID, newName: Option<string>, newURL: Option<string>, env: Env)
    requires s.stored == s.accepted
    requires RefusedEdit(parse, s, Dispatch(UpdateDestination(id, newName, newURL), env))
    ensures
      var t := Handle(parse, s, UpdateDestination(id, newName, newURL), env).state;
      var i := Store.IndexOfID(s.stored, id).value;
      && t.accepted == s.accepted && t.runtime == s.runtime
      && (t.stored == t.accepted <==> Edited(s.stored[i], newName, newURL) == s.stored[i])
  {
    var i := Store.IndexOfID(s.stored, id).value;
    var e := Edited(s.stored[i], newName, newURL);
    hide Store.Valid, Store.Errors, FromStore, Edited;
    assert s.stored[i := e][i] == e;
  }

  /** What a refused update wrote comes out with the next add that is accepted. */
  lemma RefusedUpdateSurfaces(
      parse: Store.Parser, s: ServerState, id: UUID, newName: Option<string>, newURL: Option<string>, env: Env,
      name: string, url: string, later: Env)
    requires s.stored == s.accepted && AllAgree(s.runtime, s.accepted)
    requires RefusedEdit(parse, s, Dispatch(UpdateDestination(id, newName, newURL), env))
    ensures
      var t := Handle(parse, s, UpdateDestination(id, newName, newURL), env).state;
      var h := Handle(parse, t, AddDestination(name, url), later);
      var i := Store.IndexOfID(s.stored, id).value;
      h.outcome.Success? ==>
        && t.runtime[i] == s.runtime[i]
        && h.state.runtime[i] == RuntimeOf(Edited(s.stored[i], newName, newURL))
        && h.state.accepted ==
           s.stored[i := Edited(s.stored[i], newName, newURL)] + [Store.Entry(later.newID, name, url)]
  {
    hide Store.Valid, Store.Errors, Edited, IsLive;
    var i := Store.IndexOfID(s.stored, id).value;
    var t := Handle(parse, s, UpdateDestination(id, newName, newURL), env).state;
    assert t.stored == s.stored[i := Edited(s.stored[i], newName, newURL)] && t.runtime == s.runtime;
  }

  lemma RefusedRemovalShifts(
      parse: Store.Parser, s: ServerState, id: UUID, force: bool, env: Env)
    requires RefusedEdit(parse, s, Dispatch(RemoveDestination(id, force), env))
    ensures
      var i := Store.IndexOfID(s.stored, id).value;
      Handle(parse, s, RemoveDestination(id, force), env).state == s.(stored := Store.Shifted(s.stored, i))
  {
    hide Store.Valid, Store.Errors, FromStore, Store.Shifted;
  }

  lemma ShiftFixpoint(ds: seq<Store.Entry>, i: nat)
    requires i < |ds| && Store.Shifted(ds, i) == ds
    ensures forall k :: i <= k < |ds| ==> ds[k] == Store.ZERO_ENTRY
  {
    var k := |ds| - 1;
    assert ds[k] == Store.Shifted(ds, i)[k];
    while k > i
      invariant i <= k < |ds|
      invariant forall j :: k <= j < |ds| ==> ds[j] == Store.ZERO_ENTRY
    {
      assert ds[k - 1] == Store.Shifted(ds, i)[k - 1] == ds[k];
      k := k - 1;
    }
  }

  /** Nor is a refused removal: the store stays in step exactly when it only held zero entries from the
      removed one on, and so never when it held a valid list. What is left in the store is invalid. */
  lemma RefusedRemovalStays(parse: Store.Parser, s: ServerState, id: UUID, force: bool, env: Env)
    requires s.stored == s.accepted
    requires RefusedEdit(parse, s, Dispatch(RemoveDestination(id, force), env))
    ensures
      var t := Handle(parse, s, RemoveDestination(id, force), env).state;
      var i := Store.IndexOfID(s.stored, id).value;
      && t.accepted == s.accepted && t.runtime == s.runtime
      && (t.stored == t.accepted <==> forall k :: i <= k < |s.stored| ==> s.stored[k] == Store.ZERO_ENTRY)
      && (Store.Valid(parse, s.accepted) ==> t.stored != t.accepted)
      && !Store.Valid(parse, t.stored)
  {
    var i := Store.IndexOfID(s.stored, id).value;
    RefusedRemovalShifts(parse, s, id, force, env);
    ZeroIsInvalid(parse, Store.Shifted(s.stored, i), |s.stored| - 1);
    if Store.Shifted(s.stored, i) == s.stored {
      ShiftFixpoint(s.stored, i);
      ZeroIsInvalid(parse, s.stored, i);
    }
    hide Handle, RefusedEdit, Store.Valid;
  }

  lemma ZeroIsInvalid(parse: Store.Parser, ds: seq<Store.Entry>, i: nat)
    requires i < |ds| && ds[i] == Store.ZERO_ENTRY
    ensures !Store.Valid(parse, ds)
  {
    assert Store.Blank(ds[i].name);
  }

  /** Once an edit has left an invalid list in the store, no destination can be added, until another
      update or removal: every add is refused with validation errors. */
  lemma {:induction false} InvalidStoreBlocksAdds(
      parse: Store.Parser, s: ServerState, actions: seq<Action>, name: string, url: string, env: Env)
    requires !Store.Valid(parse, s.stored)
    requires forall k :: 0 <= k < |actions| && actions[k].Dispatch? ==>
               !actions[k].cmd.UpdateDestination? && !actions[k].cmd.RemoveDestination?
    ensures
      var t := Run(parse, s, actions);
      var h := Handle(parse, t, AddDestination(name, url), env);
      && t.stored == s.stored
      && h.state == t && !h.changed
      && h.outcome.Failure? && h.outcome.evt.AddDestinationFailed? && h.outcome.evt.validationErrors != map[]
  {
    if actions != [] {
      var init, a := actions[..|actions| - 1], actions[|actions| - 1];
      InvalidStoreBlocksAdds(parse, s, init, name, url, env);
      StepLeavesInvalid(parse, Run(parse, s, init), a);
    }
    AddRefused(parse, Run(parse, s, actions), name, url, env);
    hide Store.Valid, Handle, Step;
  }

  lemma StepLeavesInvalid(parse: Store.Parser, s: ServerState, a: Action)
    requires !Store.Valid(parse, s.stored)
    requires a.Dispatch? ==> !a.cmd.UpdateDestination? && !a.cmd.RemoveDestination?
    ensures Step(parse, s, a).stored == s.stored
  {
    if a.Dispatch? && a.cmd.AddDestination? {
      AddToInvalid(parse, s, Store.Entry(a.env.newID, a.cmd.name, a.cmd.url));
    }
    hide Store.Valid, Store.Errors, FromStore, IndexOfURL, IndexOfID;
  }

  lemma AddRefused(parse: Store.Parser, s: ServerState, name: string, url: string, env: Env)
    requires !Store.Valid(parse, s.stored)
    ensures
      var h := Handle(parse, s, AddDestination(name, url), env);
      && h.state == s && !h.changed
      && h.outcome.Failure? && h.outcome.evt.AddDestinationFailed? && h.outcome.evt.validationErrors != map[]
  {
    AddToInvalid(parse, s, Store.Entry(env.newID, name, url));
    hide Store.Valid, Store.Errors, FromStore;
  }

  lemma AddToInvalid(parse: Store.Parser, s: ServerState, e: Store.Entry)
    ensures !Store.Valid(parse, s.stored) ==>
              !Store.Valid(parse, s.stored + [e]) && Store.Errors(parse, s.stored + [e]) != map[]
  {
    if !Store.Valid(parse, s.stored) {
      Store.ValidityOfParts(parse, s.stored + [e], |s.stored|, e);
      assert (s.stored + [e])[..|s.stored|] + (s.stored + [e])[|s.stored| + 1..] == s.stored;
      Store.NoErrorsIffValid(parse, s.stored + [e]);
    }
  }

  /** Like After, from any state. */
  ghost function Run(parse: Store.Parser, s: ServerState, actions: seq<Action>): ServerState {
    if actions == [] then s else Step(parse, Run(parse, s, actions[..|actions| - 1]), actions[|actions| - 1])
  }

  /** A replicator report changes nothing but the status and the container of the one destination that
      has its URL. */
  lemma {:induction false} ReportTouchesOneDestination(
      parse: Store.Parser, initial: seq<Store.Entry>, source: Source, actions: seq<Action>, r: Replicator.Report)
    requires Store.Valid(parse, initial)
    ensures
      var s := After(parse, initial, source, actions);
      var t := After(parse, initial, source, actions + [ReplicatorReports(r)]);
      && t == s.(runtime := t.runtime) && |t.runtime| == |s.runtime|
      && (forall i :: 0 <= i < |s.runtime| ==>
            t.runtime[i] == if s.runtime[i].url == r.url
                            then s.runtime[i].(container := r.container, status := r.status)
                            else s.runtime[i])
      && (forall i, j :: 0 <= i < j < |s.runtime| ==> !(s.runtime[i].url == r.url && s.runtime[j].url == r.url))
  {
    AlwaysInv(parse, initial, source, actions);
    var all := actions + [ReplicatorReports(r)];
    assert all[..|all| - 1] == actions;
  }

  /** Which stream a removal stops. It looks the destination up in the store and takes the URL at the
      same place in the runtime list, so that it stops the stream of the destination with that ID
      exactly when the ID stands at the same place in both lists. */
  lemma {:induction false} RemoveStopsOwnStreamIff(
      parse: Store.Parser, initial: seq<Store.Entry>, source: Source, actions: seq<Action>,
      id: UUID, force: bool, env: Env)
    requires Store.Valid(parse, initial)
    ensures
      var s := After(parse, initial, source, actions);
      var h := Handle(parse, s, RemoveDestination(id, force), env);
      IndexOfID(s.runtime, id).Some? && RemovalGoesOn(s, id, force) ==>
        var own := s.runtime[IndexOfID(s.runtime, id).value].url;
        && (h.acts == [Replicator.Stop(own)] <==> Store.IndexOfID(s.stored, id) == IndexOfID(s.runtime, id))
        && (NoRefusedEdit(parse, initial, source, actions) ==> h.acts == [Replicator.Stop(own)])
  {
    var s := After(parse, initial, source, actions);
    if IndexOfID(s.runtime, id).None? || !RemovalGoesOn(s, id, force) {
      return;
    }
    AlwaysInv(parse, initial, source, actions);
    if NoRefusedEdit(parse, initial, source, actions) {
      StoreAndRuntimeAgree(parse, initial, source, actions);
      SameIndex(s.runtime, s.stored, id);
    }
    RemoveActs(parse, s, id, force, env);
    RuntimeURLsDistinct(parse, s);
    hide After, NoRefusedEdit, Handle, Inv;
  }

  lemma RuntimeURLsDistinct(parse: Store.Parser, s: ServerState)
    requires Inv(parse, s)
    ensures forall i, j :: 0 <= i < j < |s.runtime| ==> s.runtime[i].url != s.runtime[j].url
  {
    assert forall i :: 0 <= i < |s.runtime| ==> Agree(s.runtime[i], s.accepted[i]);
  }

  /** The store has the ID, and the destination at its place in the runtime list may be removed. */
  predicate RemovalGoesOn(s: ServerState, id: UUID, force: bool) {
    match Store.IndexOfID(s.stored, id)
    case None => false
    case Some(i) => i < |s.runtime| && (s.runtime[i].status == LIVE ==> force)
  }

  lemma RemoveActs(parse: Store.Parser, s: ServerState, id: UUID, force: bool, env: Env)
    requires RemovalGoesOn(s, id, force)
    ensures Handle(parse, s, RemoveDestination(id, force), env).acts ==
            [Replicator.Stop(s.runtime[Store.IndexOfID(s.stored, id).value].url)]
  {
    hide Store.Valid, Store.Errors, FromStore;
  }

  lemma SameIndex(ds: seq<Destination>, es: seq<Store.Entry>, id: UUID)
    requires AllAgree(ds, es)
    ensures IndexOfID(ds, id) == Store.IndexOfID(es, id)
  {
    match IndexOfID(ds, id)
    case None =>
      assert forall k :: 0 <= k < |ds| ==> Agree(ds[k], es[k]);
    case Some(i) =>
      assert Agree(ds[i], es[i]);
      assert forall k :: 0 <= k < i ==> Agree(ds[k], es[k]);
  }

  lemma FailedRemovalShifts(parse: Store.Parser, s: ServerState, a: Store.Entry, b: Store.Entry)
    requires s.stored == [a, b] && Store.Valid(parse, [a, b]) && s.runtime == FromStore([a, b])
    ensures
      Handle(parse, s, RemoveDestination(a.id, true), Env(ZERO_ID, false, FOUND, true)).state
      == s.(stored := [b, Store.ZERO_ENTRY])
  {
    assert [a, b][..0] + [a, b][0 + 1..] == [b];
    Store.ValidityOfParts(parse, [a, b], 0, a);
    assert Store.IndexOfID([a, b], a.id) == Some(0);
    assert Store.Shifted([a, b], 0) == [b, Store.ZERO_ENTRY];
    hide Store.Valid, Store.Errors, Store.Shifted, Store.IndexOfID;
  }

  lemma AfterOne(
      parse: Store.Parser, initial: seq<Store.Entry>, source: Source, a: Action)
    ensures After(parse, initial, source, [a]) ==
            Step(parse, ServerState(initial, initial, FromStore(initial), source), a)
  {
    assert [a][..0] == [];
    assert After(parse, initial, source, []) == ServerState(initial, initial, FromStore(initial), source);
  }

  /** A removal whose write fails shifts the store under the runtime list: removing the second of two
      destinations then stops the stream of the first. */
  lemma RemoveCanStopAnotherStream(parse: Store.Parser, a: Store.Entry, b: Store.Entry, source: Source)
    requires Store.Valid(parse, [a, b]) && a.id != b.id
    ensures
      exists actions: seq<Action> ::
        var s := After(parse, [a, b], source, actions);
        var h := Handle(parse, s, RemoveDestination(b.id, true), Env(ZERO_ID, true, FOUND, true));
        h.acts == [Replicator.Stop(a.url)]
  {
    var bad := Dispatch(RemoveDestination(a.id, true), Env(ZERO_ID, false, FOUND, true));
    AfterOne(parse, [a, b], source, bad);
    FailedRemovalShifts(parse, ServerState([a, b], [a, b], FromStore([a, b]), source), a, b);
    var s := After(parse, [a, b], source, [bad]);
    assert s.stored == [b, Store.ZERO_ENTRY] && s.runtime == FromStore([a, b]);
    assert Store.IndexOfID(s.stored, b.id) == Some(0);
    RemoveActs(parse, s, b.id, true, Env(ZERO_ID, true, FOUND, true));
    hide After, Handle, Store.Valid, Step;
  }

  // ----- Replies -----

  /** What an RPC handler makes of the reply: its type switch. */
  datatype RPCResult = RPCOk | RPCError | RPCUnexpected

  function RPCSwitch(cmd: Command, evt: Event): RPCResult {
    match cmd
    case ListDestinations =>
      if evt.DestinationsListed? then RPCOk else if evt.ListDestinationsFailed? then RPCError else RPCUnexpected
    case AddDestination(_, _) =>
      if evt.DestinationAdded? then RPCOk else if evt.AddDestinationFailed? then RPCError else RPCUnexpected
    case UpdateDestination(_, _, _) =>
      if evt.DestinationUpdated? then RPCOk else if evt.UpdateDestinationFailed? then RPCError else RPCUnexpected
    case RemoveDestination(_, _) =>
      if evt.DestinationRemoved? then RPCOk else if evt.RemoveDestinationFailed? then RPCError else RPCUnexpected
    case StartDestination(_) =>
      if evt.DestinationStarted? then RPCOk else if evt.StartDestinationFailed? then RPCError else RPCUnexpected
    case StopDestination(_) =>
      if evt.DestinationStopped? then RPCOk else if evt.StopDestinationFailed? then RPCError else RPCUnexpected
    case _ => RPCUnexpected
  }

  predicate IsDestinationCommand(cmd: Command) {
    !cmd.CloseOtherInstance? && !cmd.KillServer?
  }

  /** A command as it travels on the dispatch channel: asynchronous with a client ID, which is empty
      before the handshake, or synchronous with a reply channel of size one. */
  datatype Request = Async(clientID: string, cmd: Command) | Sync(cmd: Command)

  /** What the main loop sends for one request: to all clients, to one client, and as a reply. */
  datatype Delivery = Delivery(broadcast: seq<Event>, direct: seq<(string, Event)>, replies: seq<Event>)

  function Deliver(req: Request, outcome: Outcome): Delivery {
    match outcome
    case Failure(evt) =>
      Delivery([],
               if req.Async? && req.clientID != "" then [(req.clientID, evt)] else [],
               if req.Sync? then [evt] else [])
    case Success(evt) => Delivery([evt], [], if req.Sync? then [evt] else [])
    case _ => Delivery([], [], [])
  }

  /** Every synchronous destination command gets exactly one reply, so that the send into the channel
      of size one does not block; its RPC handler accepts it; and it takes the success branch exactly
      when the command did something, that is for a list or a success event, which alone is broadcast.
      A failure reaches nobody but the requester. */
  lemma {:induction false} OneAcceptedReply(
      parse: Store.Parser, initial: seq<Store.Entry>, source: Source, actions: seq<Action>, req: Request, env: Env)
    requires Store.Valid(parse, initial) && IsDestinationCommand(req.cmd)
    ensures
      var s := After(parse, initial, source, actions);
      var h := Handle(parse, s, req.cmd, env);
      var d := Deliver(req, h.outcome);
      && (req.Sync? ==>
            && |d.replies| == 1
            && RPCSwitch(req.cmd, d.replies[0]) != RPCUnexpected
            && (RPCSwitch(req.cmd, d.replies[0]) == RPCOk <==> req.cmd.ListDestinations? || h.outcome.Success?))
      && (h.outcome.Success? ==> d.broadcast == [h.outcome.evt] && d.direct == [])
      && (!h.outcome.Success? ==>
            && d.broadcast == [] && h.outcome.Failure?
            && d.direct == (if req.Async? && req.clientID != "" then [(req.clientID, h.outcome.evt)] else [])
            && h.state.accepted == s.accepted && h.state.runtime == s.runtime && !h.changed)
  {
    AlwaysInv(parse, initial, source, actions);
    var s := After(parse, initial, source, actions);
    OutcomeKind(parse, s, req.cmd, env);
    hide After, Inv, Handle, RPCSwitch;
  }

  lemma OutcomeKind(parse: Store.Parser, s: ServerState, cmd: Command, env: Env)
    requires |s.stored| == |s.runtime| && IsDestinationCommand(cmd)
    ensures
      var h := Handle(parse, s, cmd, env);
      match h.outcome
      case Success(evt) => RPCSwitch(cmd, evt) == RPCOk
      case Failure(evt) =>
        && RPCSwitch(cmd, evt) == (if cmd.ListDestinations? then RPCOk else RPCError)
        && h.state.accepted == s.accepted && h.state.runtime == s.runtime && !h.changed
      case _ => false
  {
    hide Store.Valid, Store.Errors, FromStore, Store.IndexOfID, IndexOfID, IsLive, Edited, Store.Shifted;
  }
}
