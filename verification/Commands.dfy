/** What each command promises its client, said of the lists and not of the code that searches them
    (internal/server/serverapp.go:417-571), and what a run of commands and reports adds up to. */
module Commands {
  import opened Domain
  import opened Server
  import Store
  import Replicator

  /** The destination that a command with this ID is about. */
  ghost predicate FirstWithID(ds: seq<Destination>, id: UUID, i: nat) {
    i < |ds| && ds[i].id == id && forall k :: 0 <= k < i ==> ds[k].id != id
  }

  ghost predicate FirstStored(es: seq<Store.Entry>, id: UUID, i: nat) {
    i < |es| && es[i].id == id && forall k :: 0 <= k < i ==> es[k].id != id
  }

  ghost predicate HasID(ds: seq<Destination>, id: UUID) {
    exists i :: 0 <= i < |ds| && ds[i].id == id
  }

  ghost predicate StoresID(es: seq<Store.Entry>, id: UUID) {
    exists i :: 0 <= i < |es| && es[i].id == id
  }

  lemma IndexIsFirst(ds: seq<Destination>, id: UUID)
    ensures IndexOfID(ds, id) == None <==> !HasID(ds, id)
    ensures forall i: nat :: FirstWithID(ds, id, i) <==> IndexOfID(ds, id) == Some(i)
  {
    hide IndexOfID;
  }

  lemma IndexIsFirstStored(es: seq<Store.Entry>, id: UUID)
    ensures Store.IndexOfID(es, id) == None <==> !StoresID(es, id)
    ensures forall i: nat :: FirstStored(es, id, i) <==> Store.IndexOfID(es, id) == Some(i)
  {
    hide Store.IndexOfID;
  }

  /** Nothing changes, nothing is asked of the replicator, and nothing is published. */
  predicate Refused(h: Handled, s: ServerState, evt: Event) {
    h == Handled(s, Failure(evt), [], false)
  }

  // ----- Starting and stopping -----

  ghost predicate StartGoes(s: ServerState, id: UUID, env: Env, i: nat) {
    FirstWithID(s.runtime, id, i) && s.source.live && env.lookup(s.runtime[i].url) == None
  }

  /** A start succeeds exactly if a destination has the ID, the source is live, and nothing is wrong with the
      host of the URL of the first such destination; that URL is then started, and nothing else is asked
      of the replicator. Otherwise nothing happens, and the client is told what was wrong first. */
  lemma StartCommand(parse: Store.Parser, s: ServerState, id: UUID, env: Env)
    ensures
      var h := Handle(parse, s, StartDestination(id), env);
      && h.state == s && !h.changed
      && (h.outcome.Success? <==> exists i: nat :: StartGoes(s, id, env, i))
      && (forall i: nat :: StartGoes(s, id, env, i) ==>
            && h.outcome == Success(DestinationStarted(id))
            && h.acts == [Replicator.Start(s.runtime[i].url)])
      && (!HasID(s.runtime, id) ==> Refused(h, s, StartDestinationFailed(id, "destination not found")))
      && (forall i: nat :: FirstWithID(s.runtime, id, i) && !StartGoes(s, id, env, i) ==>
            Refused(h, s, StartDestinationFailed(id,
              if s.source.live then env.lookup(s.runtime[i].url).value else "source not live")))
  {
    IndexIsFirst(s.runtime, id);
    hide IndexOfID, FirstWithID, HasID;
    if IndexOfID(s.runtime, id).Some? {
      var i := IndexOfID(s.runtime, id).value;
      assert FirstWithID(s.runtime, id, i);
      assert StartGoes(s, id, env, i) <==> s.source.live && env.lookup(s.runtime[i].url) == None;
    }
  }

  /** A stop succeeds exactly if a destination has the ID; the URL of the first such destination is then
      stopped, whether it streams or not. */
  lemma StopCommand(parse: Store.Parser, s: ServerState, id: UUID, env: Env)
    ensures
      var h := Handle(parse, s, StopDestination(id), env);
      && h.state == s && !h.changed
      && (h.outcome.Success? <==> HasID(s.runtime, id))
      && (forall i: nat :: FirstWithID(s.runtime, id, i) ==>
            && h.outcome == Success(DestinationStopped(id))
            && h.acts == [Replicator.Stop(s.runtime[i].url)])
      && (!HasID(s.runtime, id) ==> Refused(h, s, StopDestinationFailed(id, "destination not found")))
  {
    IndexIsFirst(s.runtime, id);
    hide IndexOfID, FirstWithID, HasID;
  }

  // ----- Editing -----

  /** The list has been accepted: the store holds it, and every destination is off air, with no container. */
  predicate Accepted(t: ServerState, s: ServerState, ds: seq<Store.Entry>) {
    && t.stored == ds && t.accepted == ds && t.source == s.source
    && |t.runtime| == |ds|
    && forall i :: 0 <= i < |ds| ==>
         t.runtime[i] == Destination(ZERO_CONTAINER, 0, ds[i].id, ds[i].name, ds[i].url)
  }

  /** What a client is told when the list was not accepted. */
  function Complaint(parse: Store.Parser, ds: seq<Store.Entry>): (string, ValidationErrors) {
    if Store.Valid(parse, ds) then ("An error occurred, check server log for details", map[])
    else ("", Store.Errors(parse, ds))
  }

  /** An add succeeds exactly if the stored list with the new destination at its end is valid and can be
      written; that list is then the list, everywhere, and is published. Otherwise nothing changes. */
  lemma AddCommand(parse: Store.Parser, s: ServerState, name: string, url: string, env: Env)
    ensures
      var h := Handle(parse, s, AddDestination(name, url), env);
      var ds := s.stored + [Store.Entry(env.newID, name, url)];
      if Store.Valid(parse, ds) && env.writeOk then
        && h.outcome == Success(DestinationAdded(env.newID)) && h.acts == [] && h.changed
        && Accepted(h.state, s, ds)
      else
        var (text, errors) := Complaint(parse, ds);
        Refused(h, s, AddDestinationFailed(url, text, errors))
  {
    hide Store.Valid, Store.Errors;
  }

  /** The list with one destination edited: where nothing is given, the old value stays. */
  predicate IsEdit(
    es: seq<Store.Entry>, ds: seq<Store.Entry>, i: nat, newName: Option<string>, newURL: Option<string>)
  {
    && i < |es| == |ds|
    && (forall k :: 0 <= k < |es| && k != i ==> ds[k] == es[k])
    && ds[i].id == es[i].id
    && ds[i].name == (if newName.Some? then newName.value else es[i].name)
    && ds[i].url == (if newURL.Some? then newURL.value else es[i].url)
  }

  /** An update is refused if the first destination with the ID is live, or if the store does not have the ID.
      Otherwise the first stored destination with the ID is edited, and the update succeeds exactly if the
      edited list is valid and can be written. The edit stays in the store's list in any case. */
  lemma UpdateCommand(
      parse: Store.Parser, s: ServerState, id: UUID, newName: Option<string>, newURL: Option<string>, env: Env,
      i: nat, ds: seq<Store.Entry>)
    requires FirstStored(s.stored, id, i) && IsEdit(s.stored, ds, i, newName, newURL)
    requires forall k: nat :: FirstWithID(s.runtime, id, k) ==> s.runtime[k].status != 2
    ensures
      var h := Handle(parse, s, UpdateDestination(id, newName, newURL), env);
      h.acts == [] &&
      if Store.Valid(parse, ds) && env.writeOk then
        h.outcome == Success(DestinationUpdated(id)) && h.changed && Accepted(h.state, s, ds)
      else
        var (text, errors) := Complaint(parse, ds);
        h == Handled(s.(stored := ds), Failure(UpdateDestinationFailed(id, text, errors)), [], false)
  {
    IndexIsFirst(s.runtime, id);
    IndexIsFirstStored(s.stored, id);
    hide IndexOfID, Store.IndexOfID, FirstWithID, Store.Valid, Store.Errors;
    assert ds == s.stored[i := Edited(s.stored[i], newName, newURL)];
  }

  lemma UpdateRefused(
      parse: Store.Parser, s: ServerState, id: UUID, newName: Option<string>, newURL: Option<string>, env: Env)
    ensures
      var h := Handle(parse, s, UpdateDestination(id, newName, newURL), env);
      if exists k: nat :: FirstWithID(s.runtime, id, k) && s.runtime[k].status == 2 then
        Refused(h, s, UpdateDestinationFailed(id, "destination is live", map[]))
      else if !StoresID(s.stored, id) then
        Refused(h, s, UpdateDestinationFailed(id, "destination not found", map[]))
      else exists i: nat, ds :: FirstStored(s.stored, id, i) && IsEdit(s.stored, ds, i, newName, newURL)
  {
    IndexIsFirst(s.runtime, id);
    IndexIsFirstStored(s.stored, id);
    hide IndexOfID, Store.IndexOfID, FirstWithID, Store.Valid, Store.Errors;
    if StoresID(s.stored, id) {
      var i := Store.IndexOfID(s.stored, id).value;
      assert FirstStored(s.stored, id, i);
      assert IsEdit(s.stored, s.stored[i := Edited(s.stored[i], newName, newURL)], i, newName, newURL);
    }
  }

  /** The list without one of its members. */
  predicate IsRemoval(es: seq<Store.Entry>, ds: seq<Store.Entry>, i: nat) {
    && i < |es| == |ds| + 1
    && (forall k :: 0 <= k < i ==> ds[k] == es[k])
    && (forall k :: i <= k < |ds| ==> ds[k] == es[k + 1])
  }

  /** A removal takes out the first stored destination with the ID, and stops the URL that stands at that place
      in the runtime list. It succeeds exactly if the list that remains is valid and can be written. If
      not, that list stays in the store, with a zero destination at its end. */
  lemma RemoveCommand(
      parse: Store.Parser, s: ServerState, id: UUID, force: bool, env: Env, i: nat, ds: seq<Store.Entry>)
    requires |s.stored| == |s.runtime|
    requires FirstStored(s.stored, id, i) && IsRemoval(s.stored, ds, i) && (s.runtime[i].status == 2 ==> force)
    ensures
      var h := Handle(parse, s, RemoveDestination(id, force), env);
      h.acts == [Replicator.Stop(s.runtime[i].url)] &&
      if Store.Valid(parse, ds) && env.writeOk then
        h.outcome == Success(DestinationRemoved(id)) && h.changed && Accepted(h.state, s, ds)
      else
        && h.state == s.(stored := ds + [Store.Entry(ZERO_ID, "", "")]) && !h.changed
        && h.outcome == Failure(RemoveDestinationFailed(id,
             if Store.Valid(parse, ds) then "An error occurred, check server log for details"
             else "validation failed"))
  {
    IndexIsFirstStored(s.stored, id);
    hide Store.IndexOfID, FirstStored, Store.Valid, Store.Errors;
    assert ds == s.stored[..i] + s.stored[i + 1..];
  }

  lemma RemoveRefused(parse: Store.Parser, s: ServerState, id: UUID, force: bool, env: Env)
    requires |s.stored| == |s.runtime|
    ensures
      var h := Handle(parse, s, RemoveDestination(id, force), env);
      if !StoresID(s.stored, id) then Refused(h, s, RemoveDestinationFailed(id, "destination not found"))
      else
        exists i: nat ::
          && FirstStored(s.stored, id, i)
          && (if s.runtime[i].status == 2 && !force
              then Refused(h, s, RemoveDestinationFailed(id, "destination is live"))
              else exists ds :: IsRemoval(s.stored, ds, i))
  {
    IndexIsFirstStored(s.stored, id);
    hide Store.IndexOfID, Store.Valid, Store.Errors;
    if StoresID(s.stored, id) {
      var i := Store.IndexOfID(s.stored, id).value;
      assert FirstStored(s.stored, id, i);
      assert IsRemoval(s.stored, s.stored[..i] + s.stored[i + 1..], i);
    }
  }

  /** The other three: a list is an answer to its client alone; the program ends exactly if it is told to, or if
      it could not close the other instances. */
  lemma OtherCommands(parse: Store.Parser, s: ServerState, env: Env)
    ensures Refused(Handle(parse, s, ListDestinations, env), s, DestinationsListed(s.runtime))
    ensures Handle(parse, s, KillServer, env) == Handled(s, ExitLoop, [], false)
    ensures Handle(parse, s, CloseOtherInstance, env) == Handled(s, if env.closeOk then Silent else ExitLoop, [], false)
  {
  }

  // ----- What a run adds up to -----

  lemma {:induction false} OneMore(
      parse: Store.Parser, initial: seq<Store.Entry>, source: Source, actions: seq<Action>)
    requires actions != []
    ensures
      var s := After(parse, initial, source, actions[..|actions| - 1]);
      && After(parse, initial, source, actions) == Step(parse, s, actions[|actions| - 1])
      && Publications(parse, initial, source, actions) ==
         Publications(parse, initial, source, actions[..|actions| - 1]) + Published(parse, s, actions[|actions| - 1])
  {
    hide Step, Published;
  }

  /** A command that does not say that it changed the list has changed nothing that clients see; and none
      touches the source. */
  lemma CommandsShowChanges(parse: Store.Parser, s: ServerState, cmd: Command, env: Env)
    ensures
      var h := Handle(parse, s, cmd, env);
      h.state.source == s.source && (!h.changed ==> h.state.runtime == s.runtime)
  {
    hide Store.Valid, Store.Errors, FromStore, Store.IndexOfID, IndexOfID, IsLive, Edited, Store.Shifted;
  }

  /** The source reported last, or the first one while none has been reported. */
  ghost predicate LastSource(actions: seq<Action>, first: Source, current: Source) {
    if forall j :: 0 <= j < |actions| ==> !actions[j].SourceReports? then current == first
    else exists k :: 0 <= k < |actions| && actions[k] == SourceReports(current) && NoSourceAfter(actions, k)
  }

  ghost predicate NoSourceAfter(actions: seq<Action>, k: int) {
    forall j :: k < j < |actions| && 0 <= j ==> !actions[j].SourceReports?
  }

  lemma {:induction false} LastSourceSnoc(actions: seq<Action>, a: Action, first: Source, current: Source)
    requires LastSource(actions, first, current)
    ensures LastSource(actions + [a], first, if a.SourceReports? then a.source else current)
  {
    var more := actions + [a];
    assert more[|actions|] == a;
    if a.SourceReports? {
      assert NoSourceAfter(more, |actions|);
    } else if exists j :: 0 <= j < |actions| && actions[j].SourceReports? {
      var j :| 0 <= j < |actions| && actions[j].SourceReports?;
      var k :| 0 <= k < |actions| && actions[k] == SourceReports(current) && NoSourceAfter(actions, k);
      assert more[j].SourceReports? && more[k] == SourceReports(current) && NoSourceAfter(more, k);
    }
  }

  lemma {:induction false} SourceIsLastReported(
      parse: Store.Parser, initial: seq<Store.Entry>, source: Source, actions: seq<Action>)
    ensures LastSource(actions, source, After(parse, initial, source, actions).source)
  {
    if actions != [] {
      var init, a := actions[..|actions| - 1], actions[|actions| - 1];
      SourceIsLastReported(parse, initial, source, init);
      OneMore(parse, initial, source, actions);
      StepSource(parse, After(parse, initial, source, init), a);
      LastSourceSnoc(init, a, source, After(parse, initial, source, init).source);
      assert actions == init + [a];
      hide After, Publications, Step, LastSource;
    }
  }

  lemma StepSource(parse: Store.Parser, s: ServerState, a: Action)
    ensures Step(parse, s, a).source == if a.SourceReports? then a.source else s.source
  {
    if a.Dispatch? {
      CommandsShowChanges(parse, s, a.cmd, a.env);
    }
    hide Handle, IndexOfURL;
  }

  /** The last state among what was published. */
  function LastState(published: seq<Publication>): Option<AppState> {
    if published == [] then None
    else
      var last := published[|published| - 1];
      if last.StateSent? then Some(last.state) else LastState(published[..|published| - 1])
  }

  lemma {:induction false} LastStateOf(published: seq<Publication>, more: seq<Publication>)
    requires |more| <= 1
    ensures LastState(published + more) ==
            if more != [] && more[0].StateSent? then Some(more[0].state) else LastState(published)
  {
    if more == [] {
      assert published + more == published;
    } else {
      assert (published + more)[..|published + more| - 1] == published;
    }
  }

  /** What clients see of a state. */
  predicate Shows(state: AppState, s: ServerState) {
    state.source == s.source && state.destinations == s.runtime
  }

  lemma StepPublishes(parse: Store.Parser, s: ServerState, a: Action)
    ensures
      var t, published := Step(parse, s, a), Published(parse, s, a);
      && |published| <= 1
      && (!a.Dispatch? ==> published != [] && published[0].StateSent?)
      && (if published != [] && published[0].StateSent? then Shows(published[0].state, t)
          else t.source == s.source && t.runtime == s.runtime)
  {
    if a.Dispatch? {
      CommandsShowChanges(parse, s, a.cmd, a.env);
      ListChangesNothing(parse, s, a.env);
    }
    hide Handle, ApplyReport;
  }

  lemma ListChangesNothing(parse: Store.Parser, s: ServerState, env: Env)
    ensures !Handle(parse, s, ListDestinations, env).changed
  {
  }

  /** Nothing changes unseen: after every action, the last state published is the current one; and if none
      has been published yet, the clients see what they saw at the start. */
  lemma {:induction false} LatestPublicationIsCurrent(
      parse: Store.Parser, initial: seq<Store.Entry>, source: Source, actions: seq<Action>)
    ensures
      var s := After(parse, initial, source, actions);
      match LastState(Publications(parse, initial, source, actions))
      case None => s.source == source && s.runtime == FromStore(initial)
      case Some(state) => Shows(state, s)
  {
    if actions != [] {
      var init, a := actions[..|actions| - 1], actions[|actions| - 1];
      LatestPublicationIsCurrent(parse, initial, source, init);
      OneMore(parse, initial, source, actions);
      StepPublishes(parse, After(parse, initial, source, init), a);
      LastStateOf(Publications(parse, initial, source, init), Published(parse, After(parse, initial, source, init), a));
      hide After, Publications, LastState, Step, Published, FromStore;
    }
  }

  /** The last report on a URL since the list was last rebuilt. */
  ghost function LatestReport(
    parse: Store.Parser, initial: seq<Store.Entry>, source: Source, actions: seq<Action>, url: string)
    : Option<Replicator.Report>
  {
    if actions == [] then None
    else
      var init := actions[..|actions| - 1];
      match actions[|actions| - 1]
      case ReplicatorReports(r) =>
        if r.url == url then Some(r) else LatestReport(parse, initial, source, init, url)
      case Dispatch(cmd, env) =>
        if Handle(parse, After(parse, initial, source, init), cmd, env).changed then None
        else LatestReport(parse, initial, source, init, url)
      case _ => LatestReport(parse, initial, source, init, url)
  }

  /** A destination shows a report, or that it is off air. */
  predicate ShowsReport(d: Destination, latest: Option<Replicator.Report>) {
    match latest
    case None => d.status == 0 && d.container == ZERO_CONTAINER
    case Some(r) => d.status == r.status && d.container == r.container
  }

  lemma RebuiltOffAir(parse: Store.Parser, s: ServerState, cmd: Command, env: Env)
    ensures
      var h := Handle(parse, s, cmd, env);
      h.changed ==> forall i :: 0 <= i < |h.state.runtime| ==> ShowsReport(h.state.runtime[i], None)
  {
    hide Store.Valid, Store.Errors, Store.IndexOfID, IndexOfID, IsLive, Edited, Store.Shifted;
  }

  lemma ReportShows(s: ServerState, r: Replicator.Report, i: nat)
    requires forall j, k :: 0 <= j < k < |s.runtime| ==> s.runtime[j].url != s.runtime[k].url
    ensures
      var t := ApplyReport(s, r);
      && |t.runtime| == |s.runtime|
      && (i < |s.runtime| ==>
            && t.runtime[i].url == s.runtime[i].url
            && if r.url == s.runtime[i].url then ShowsReport(t.runtime[i], Some(r)) else t.runtime[i] == s.runtime[i])
  {
  }

  /** In every reachable state each destination shows the last report on its URL, or, while there has been none
      since the list was last rebuilt by an accepted add, update or removal, that it is off air. */
  lemma {:induction false} StatusIsLastReported(
      parse: Store.Parser, initial: seq<Store.Entry>, source: Source, actions: seq<Action>, i: nat)
    requires Store.Valid(parse, initial) && i < |After(parse, initial, source, actions).runtime|
    ensures var d := After(parse, initial, source, actions).runtime[i];
            ShowsReport(d, LatestReport(parse, initial, source, actions, d.url))
  {
    if actions != [] {
      var init, a := actions[..|actions| - 1], actions[|actions| - 1];
      var s := After(parse, initial, source, init);
      AlwaysInv(parse, initial, source, init);
      RuntimeURLsDistinct(parse, s);
      OneMore(parse, initial, source, actions);
      match a {
        case Dispatch(cmd, env) =>
          RebuiltOffAir(parse, s, cmd, env);
          CommandsShowChanges(parse, s, cmd, env);
          hide After, Handle, Inv, Store.Valid, ShowsReport;
          if !Handle(parse, s, cmd, env).changed {
            StatusIsLastReported(parse, initial, source, init, i);
          }
        case ReplicatorReports(r) =>
          ReportShows(s, r, i);
          hide After, Handle, Inv, Store.Valid, ShowsReport, ApplyReport;
          StatusIsLastReported(parse, initial, source, init, i);
        case _ =>
          hide After, Handle, Inv, Store.Valid, ShowsReport;
          StatusIsLastReported(parse, initial, source, init, i);
      }
    }
    hide Store.Valid;
  }
}
