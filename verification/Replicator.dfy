/** internal/replicator/replicator.go: the actor that starts and stops destinations, and the loop
    that follows one of them. */
module Replicator {
  import opened Domain
  import Stats
  import ContainerRun
  import LoopFields
  import RunHistory

  // ----- The restart policy -----

  /** The ShouldRestart closure. startError is startErrFromLogs, which always names some error. */
  function RestartPolicy(startError: seq<string> -> Error): ContainerRun.Policy {
    (exitCode: int, restartCount: nat, logs: seq<string>, runningTime: int) =>
      if restartCount == 0 && runningTime < 10 * SECOND then (false, Some(startError(logs)))
      else (true, None)
  }

  function RunConfig(imageName: string, startError: seq<string> -> Error, chanSize: nat): ContainerRun.Config {
    ContainerRun.Config(imageName, Some(RestartPolicy(startError)), chanSize)
  }

  /** Exit k happened after less than ten seconds of a container that was never restarted. */
  ghost predicate ShortFirstRun(cfg: ContainerRun.Config, actions: seq<ContainerRun.Action>, k: nat) {
    && RunHistory.Accepted(cfg, actions, k)
    && actions[k].ContainerExits? && actions[k].runningTime < 10 * SECOND
    && RunHistory.Restarts(cfg, actions) == 0
  }

  /** The run ended with exit k, with the error read off the lines logged until then. */
  ghost predicate EndedWith(
    cfg: ContainerRun.Config, startError: seq<string> -> Error, actions: seq<ContainerRun.Action>, k: nat)
    requires ShortFirstRun(cfg, actions, k)
  {
    var lines := RunHistory.Lines(cfg, actions[..k]);
    ContainerRun.After(cfg, actions).ending ==
    Some(ContainerRun.Exit(actions[k].exitCode, 0, lines, actions[k].runningTime, Some(startError(lines))))
  }

  ghost predicate PolicyObeyed(
    cfg: ContainerRun.Config, startError: seq<string> -> Error, actions: seq<ContainerRun.Action>)
  {
    var s := ContainerRun.After(cfg, actions);
    var natural := s.ending.Some? && s.ending.value.Exit?;
    && !s.panicked
    && (natural ==> exists k: nat :: ShortFirstRun(cfg, actions, k) && EndedWith(cfg, startError, actions, k))
    && (ContainerRun.HasExited(s) ==>
          var exited := s.reports[|s.reports| - 1];
          && (exited.err.Some? <==> natural)
          && (natural ==> exited.err == s.ending.value.err && exited.exitCode == Some(s.ending.value.exitCode))
          && (!natural ==> s.ending == Some(ContainerRun.Cancellation) && exited.exitCode == Some(0)))
  }

  /** Under this policy the callback never panics the waiter; a natural exit ends a run only if it happened
      within ten seconds and the container was never restarted; and that is exactly when the exited report
      carries an error, the one read off the lines logged before that exit. */
  lemma {:induction false} OnlyShortFirstRunsEnd(
      imageName: string, startError: seq<string> -> Error, chanSize: nat, actions: seq<ContainerRun.Action>)
    ensures PolicyObeyed(RunConfig(imageName, startError, chanSize), startError, actions)
  {
    var cfg := RunConfig(imageName, startError, chanSize);
    ContainerRun.AlwaysInv(cfg, actions);
    ContainerRun.NeverPanics(cfg, actions);
    var s := ContainerRun.After(cfg, actions);
    ExitedMatches(cfg, s);
    NaturalEnding(imageName, startError, chanSize, actions);
    hide ContainerRun.After, ContainerRun.Inv, ContainerRun.HasExited, ShortFirstRun, EndedWith;
  }

  lemma {:induction false} NaturalEnding(
      imageName: string, startError: seq<string> -> Error, chanSize: nat, actions: seq<ContainerRun.Action>)
    ensures
      var cfg := RunConfig(imageName, startError, chanSize);
      var s := ContainerRun.After(cfg, actions);
      s.ending.Some? && s.ending.value.Exit? ==>
        && s.ending.value.err.Some?
        && exists k: nat :: ShortFirstRun(cfg, actions, k) && EndedWith(cfg, startError, actions, k)
  {
    var cfg := RunConfig(imageName, startError, chanSize);
    var s := ContainerRun.After(cfg, actions);
    RunHistory.EndingIsExplained(cfg, actions);
    RunHistory.RestartsAreCounted(cfg, actions);
    ContainerRun.AlwaysInv(cfg, actions);
    CountIsRestarts(cfg, s);
    hide ContainerRun.After, ContainerRun.Inv, RunHistory.Accepted, RunHistory.Restarts, RunHistory.Lines;
    if s.ending.Some? && s.ending.value.Exit? {
      var k: nat :| RunHistory.Explained(cfg, actions, s.ending.value, k);
      assert ShortFirstRun(cfg, actions, k) && EndedWith(cfg, startError, actions, k);
    }
  }

  /** The other way round: an exit that happens within ten seconds, of a container that was never restarted,
      ends the run; any other is followed by a restart. */
  lemma {:induction false} OtherRunsRestart(
      imageName: string, startError: seq<string> -> Error, chanSize: nat, actions: seq<ContainerRun.Action>,
      code: int, time: int)
    ensures
      var cfg := RunConfig(imageName, startError, chanSize);
      var s := ContainerRun.After(cfg, actions);
      var count, lines := RunHistory.Restarts(cfg, actions), RunHistory.Lines(cfg, actions);
      match ContainerRun.Step(cfg, s, ContainerRun.ContainerExits(code, time))
      case None => true
      case Some(t) =>
        t.waiter.Responding? &&
        if time < 10 * SECOND && count == 0 then
          && t.ending == Some(ContainerRun.Exit(code, 0, lines, time, Some(startError(lines))))
          && t.waiter.resp == ContainerRun.Response(code, false, 0, Some(startError(lines)))
        else t.ending == None && t.waiter.resp == ContainerRun.Response(code, true, count, None)
  {
    var cfg := RunConfig(imageName, startError, chanSize);
    if ContainerRun.Step(cfg, ContainerRun.After(cfg, actions), ContainerRun.ContainerExits(code, time)).Some? {
      RunHistory.ExitIsDecided(cfg, actions, code, time);
    }
    hide ContainerRun.After, ContainerRun.Step, RunHistory.Restarts, RunHistory.Lines;
  }

  lemma ExitedMatches(cfg: ContainerRun.Config, s: ContainerRun.State)
    requires ContainerRun.Inv(cfg, s)
    ensures ContainerRun.HasExited(s) ==> ContainerRun.ExitMatches(s.reports[|s.reports| - 1], s)
  {
    hide ContainerRun.WaiterInv, ContainerRun.JointInv, ContainerRun.Lawful;
  }

  lemma CountIsRestarts(cfg: ContainerRun.Config, s: ContainerRun.State)
    requires ContainerRun.Inv(cfg, s)
    ensures s.ending.Some? && s.ending.value.Exit? ==> s.ending.value.count == s.restarts
  {
    hide ContainerRun.TraceInv, ContainerRun.JointInv;
  }

  // ----- Following one destination -----

  /** State in the program. */
  datatype Report = Report(url: string, container: Container, status: DestinationStatus)

  predicate HasElapsedSince(d: int, t: Time, now: Time) {
    t != ZERO_TIME && d < now - t
  }

  function StatusOf(c: Container, now: Time): DestinationStatus {
    if c.status != Running then OFF_AIR
    else if HasElapsedSince(5 * SECOND, c.rxSince, now) then LIVE
    else STARTING
  }

  /** What the select of destLoop can receive; an error may be nil. */
  datatype Input =
    | GotState(c: Container, now: Time)
    | GotErr(err: Option<Error>)
    | ErrClosed

  predicate Ends(input: Input) {
    !input.GotState?
  }

  /** The status of a destination, given what is known of its container. */
  predicate Says(status: DestinationStatus, c: Container, now: Time) {
    && (status == OFF_AIR <==> c.status != Running)
    && (status == LIVE <==> c.status == Running && c.rxSince != ZERO_TIME && now - c.rxSince > 5 * SECOND)
    && (status == STARTING <==>
          c.status == Running && (c.rxSince == ZERO_TIME || now - c.rxSince <= 5 * SECOND))
  }

  ghost function FirstEnd(inputs: seq<Input>): (n: nat)
    ensures n <= |inputs|
    ensures forall k :: 0 <= k < n ==> inputs[k].GotState?
    ensures n < |inputs| ==> Ends(inputs[n])
  {
    if inputs == [] || Ends(inputs[0]) then 0 else 1 + FirstEnd(inputs[1..])
  }

  /** The report that follows a container state. */
  function ReportOf(url: string, input: Input): Report
    requires input.GotState?
  {
    Report(url, input.c, StatusOf(input.c, input.now))
  }

  /** The report sent when the error channel fires, given the one before. */
  function LastReport(before: Report, input: Input): Report
    requires Ends(input)
  {
    if input.GotErr? && input.err.Some?
    then before.(container := before.container.(err := input.err, status := Exited))
    else before
  }

  /** The loop reports every container state it receives before the error channel fires, then once
      more, and delivers that last report as its single done value. */
  method DestLoop(url: string, inputs: seq<Input>) returns (sent: seq<Report>, done: seq<Report>)
    ensures
      var n := FirstEnd(inputs);
      && n <= |sent|
      && (forall k :: 0 <= k < n ==>
            && sent[k].url == url && sent[k].container == inputs[k].c
            && Says(sent[k].status, inputs[k].c, inputs[k].now))
      && var before := if n == 0 then Report(url, ZERO_CONTAINER, OFF_AIR) else sent[n - 1];
         if n == |inputs| then |sent| == n && done == []
         else
           && done == sent[n..] && |done| == 1
           && done[0].url == url && done[0].status == before.status
           && done[0].container ==
              if inputs[n].GotErr? && inputs[n].err.Some?
              then before.container.(err := inputs[n].err, status := Exited)
              else before.container
  {
    var state := Report(url, ZERO_CONTAINER, OFF_AIR);
    sent, done := [], [];
    var i := 0;
    while i < |inputs|
      invariant 0 <= i <= |inputs|
      invariant forall k :: 0 <= k < i ==> inputs[k].GotState?
      invariant sent == seq(i, k requires 0 <= k < i => ReportOf(url, inputs[k]))
      invariant state == if i == 0 then Report(url, ZERO_CONTAINER, OFF_AIR) else sent[i - 1]
      invariant done == []
    {
      match inputs[i] {
        case GotState(c, now) =>
          state := state.(container := c);
          if c.status == Running {
            if HasElapsedSince(5 * SECOND, c.rxSince, now) {
              state := state.(status := LIVE);
            } else {
              state := state.(status := STARTING);
            }
          } else {
            state := state.(status := OFF_AIR);
          }
          sent := sent + [state];
        case ErrClosed =>
          sent, done := sent + [state], [state];
          return;
        case GotErr(err) =>
          if err.Some? {
            state := state.(container := state.container.(err := err, status := Exited));
          }
          sent, done := sent + [state], [state];
          return;
      }
      i := i + 1;
    }
  }

  /** What a destination reports on a container state, in terms of what the loop of that container took: off
      air exactly if a response has arrived and no start event after it; live exactly if not, and the
      samples behind the state show that their last epoch began to receive, in a sample whose interval
      started over five seconds ago; starting otherwise. */
  lemma {:induction false} LiveIff(
      initial: Container, inputs: seq<ContainerRun.Input>, samples: seq<Stats.Sample>, unspecified: nat -> int,
      now: Time)
    requires initial.status == Running && initial.rxSince == ZERO_TIME
    requires inputs != [] ==> ContainerRun.RunOf(initial, inputs[..|inputs| - 1]).outcome.Continue?
    requires ContainerRun.FromCollector(inputs, samples, unspecified)
    ensures ContainerRun.Applied(inputs) <= |samples|
    ensures
      var status := StatusOf(ContainerRun.RunOf(initial, inputs).state, now);
      var applied := samples[..ContainerRun.Applied(inputs)];
      var up := LoopFields.StartedSince(inputs);
      var receives := exists k: nat :: Stats.FirstGrowth(applied, k) && now - applied[k].preRead > 5 * SECOND;
      && (status == OFF_AIR <==> !up)
      && (status == LIVE <==> up && receives)
      && (status == STARTING <==> up && !receives)
  {
    var c := ContainerRun.RunOf(initial, inputs).state;
    LoopFields.UpIff(initial, inputs);
    ContainerRun.RxSinceComesFromStats(initial, inputs);
    ContainerRun.RxSinceOfAppliedSamples(inputs, samples, unspecified);
    var applied := samples[..ContainerRun.Applied(inputs)];
    Stats.RxSinceIsFirstGrowth(applied);
    if HasElapsedSince(5 * SECOND, c.rxSince, now) {
      var k: nat :| Stats.FirstGrowth(applied, k);
      assert Stats.RxSince(applied) == applied[k].preRead;
    }
    hide ContainerRun.RunOf, ContainerRun.FromCollector, ContainerRun.Applied, Stats.RxSince, Stats.Epoch;
    hide LoopFields.StartedSince;
  }

  // ----- The actor -----

  datatype Act = Start(url: string) | Stop(url: string)

  /** The mutable state of the actor, with the effective starts and stops and the container names
      given out so far. */
  datatype ActorState = ActorState(
    currURLs: set<string>, nextIndex: nat, effects: seq<Act>, names: seq<string>)

  const NO_URLS := ActorState({}, 0, [], [])

  const COMPONENT_NAME := "replicator"

  function Digit(d: nat): char
    requires d < 10
  {
    '0' + d as char
  }

  /** strconv.Itoa for a natural number. */
  function Itoa(n: nat): (s: string)
    ensures s != []
  {
    if n < 10 then [Digit(n)] else Itoa(n / 10) + [Digit(n % 10)]
  }

  function ContainerName(index: nat): string {
    COMPONENT_NAME + "-" + Itoa(index)
  }

  function Perform(a: ActorState, act: Act): ActorState {
    match act
    case Start(url) =>
      if url in a.currURLs then a
      else ActorState(a.currURLs + {url}, a.nextIndex + 1, a.effects + [act],
                      a.names + [ContainerName(a.nextIndex + 1)])
    case Stop(url) =>
      if url !in a.currURLs then a
      else a.(currURLs := a.currURLs - {url}, effects := a.effects + [act])
  }

  ghost function PerformAll(acts: seq<Act>): ActorState {
    if acts == [] then NO_URLS else Perform(PerformAll(acts[..|acts| - 1]), acts[|acts| - 1])
  }

  class Actor {
    var currURLs: set<string>
    var nextIndex: nat
    ghost var effects: seq<Act>
    ghost var names: seq<string>

    ghost function View(): ActorState
      reads this
    {
      ActorState(currURLs, nextIndex, effects, names)
    }

    constructor ()
      ensures View() == NO_URLS
    {
      currURLs, nextIndex, effects, names := {}, 0, [], [];
    }

    /** The closure queued by StartDestination. The name is that of the container it runs, if any. */
    method StartAction(url: string) returns (name: Option<string>)
      modifies this
      ensures View() == Perform(old(View()), Start(url))
      ensures name == if url in old(currURLs) then None else Some(ContainerName(nextIndex))
    {
      if url in currURLs {
        return None;
      }
      nextIndex := nextIndex + 1;
      currURLs := currURLs + {url};
      name := Some(COMPONENT_NAME + "-" + Itoa(nextIndex));
      effects, names := effects + [Start(url)], names + [ContainerName(nextIndex)];
    }

    /** The closure queued by StopDestination. The result says whether containers are removed. */
    method StopAction(url: string) returns (removes: bool)
      modifies this
      ensures View() == Perform(old(View()), Stop(url))
      ensures removes == (url in old(currURLs))
    {
      if url !in currURLs {
        return false;
      }
      removes := true;
      currURLs := currURLs - {url};
      effects := effects + [Stop(url)];
    }

    /** actorLoop, on the actions received from the channel. */
    method ActorLoop(acts: seq<Act>)
      requires View() == NO_URLS
      modifies this
      ensures View() == PerformAll(acts)
    {
      for i := 0 to |acts|
        invariant View() == PerformAll(acts[..i])
      {
        assert acts[..i + 1][..i] == acts[..i];
        match acts[i] {
          case Start(url) => var _ := StartAction(url);
          case Stop(url) => var _ := StopAction(url);
        }
      }
      assert acts[..|acts|] == acts;
    }
  }

  // ----- What holds of every sequence of actions -----

  /** The effective starts and stops of one URL. */
  function Of(effects: seq<Act>, url: string): seq<Act> {
    if effects == [] then []
    else
      var init := Of(effects[..|effects| - 1], url);
      if effects[|effects| - 1].url == url then init + [effects[|effects| - 1]] else init
  }

  function Starts(effects: seq<Act>): nat {
    if effects == [] then 0
    else Starts(effects[..|effects| - 1]) + (if effects[|effects| - 1].Start? then 1 else 0)
  }

  function Stops(effects: seq<Act>): nat {
    if effects == [] then 0
    else Stops(effects[..|effects| - 1]) + (if effects[|effects| - 1].Stop? then 1 else 0)
  }

  predicate Alternates(effects: seq<Act>) {
    forall i :: 0 <= i < |effects| ==> (effects[i].Start? <==> i % 2 == 0)
  }

  ghost predicate ActorInv(a: ActorState) {
    && (forall url :: Alternates(Of(a.effects, url)))
    && (forall url :: url in a.currURLs <==> |Of(a.effects, url)| % 2 == 1)
    && CountInv(a)
  }

  predicate CountInv(a: ActorState) {
    && |a.currURLs| + Stops(a.effects) == Starts(a.effects)
    && a.nextIndex == Starts(a.effects)
    && |a.names| == a.nextIndex
    && (forall i :: 0 <= i < |a.names| ==> a.names[i] == ContainerName(i + 1))
  }

  lemma Appended(effects: seq<Act>, act: Act)
    ensures Starts(effects + [act]) == Starts(effects) + (if act.Start? then 1 else 0)
    ensures Stops(effects + [act]) == Stops(effects) + (if act.Stop? then 1 else 0)
    ensures forall url :: Of(effects + [act], url) ==
                          if act.url == url then Of(effects, url) + [act] else Of(effects, url)
  {
    assert (effects + [act])[..|effects + [act]| - 1] == effects;
  }

  lemma PerformKeepsAlternation(a: ActorState, act: Act, url: string)
    requires ActorInv(a)
    ensures var b := Perform(a, act);
            && Alternates(Of(b.effects, url))
            && (url in b.currURLs <==> |Of(b.effects, url)| % 2 == 1)
  {
    assert Alternates(Of(a.effects, url)) && (url in a.currURLs <==> |Of(a.effects, url)| % 2 == 1);
    hide ActorInv, Starts, Stops, ContainerName;
    Appended(a.effects, act);
    var mine := Of(a.effects, url);
    if Perform(a, act) != a && act.url == url {
      AlternatesAppend(mine, act);
    }
    hide Of, Alternates;
  }

  lemma AlternatesAppend(effects: seq<Act>, act: Act)
    requires Alternates(effects) && (act.Start? <==> |effects| % 2 == 0)
    ensures Alternates(effects + [act])
    ensures |effects + [act]| % 2 == 1 <==> act.Start?
  {
  }

  lemma PerformKeepsInv(a: ActorState, act: Act)
    requires ActorInv(a)
    ensures ActorInv(Perform(a, act))
  {
    var b := Perform(a, act);
    forall url
      ensures Alternates(Of(b.effects, url))
      ensures url in b.currURLs <==> |Of(b.effects, url)| % 2 == 1
    {
      PerformKeepsAlternation(a, act, url);
    }
    PerformKeepsCounts(a, act);
    hide Of, Alternates, Perform, CountInv;
  }

  lemma PerformKeepsCounts(a: ActorState, act: Act)
    requires CountInv(a)
    ensures CountInv(Perform(a, act))
  {
    Appended(a.effects, act);
    hide Of, Starts, Stops, ContainerName;
  }

  lemma {:induction false} AlwaysActorInv(acts: seq<Act>)
    ensures ActorInv(PerformAll(acts))
  {
    if acts != [] {
      AlwaysActorInv(acts[..|acts| - 1]);
      PerformKeepsInv(PerformAll(acts[..|acts| - 1]), acts[|acts| - 1]);
    } else {
      assert forall url :: Of([], url) == [];
    }
  }

  lemma {:induction false} StartsOfURL(effects: seq<Act>)
    requires Alternates(effects)
    ensures Starts(effects) - Stops(effects) == |effects| % 2
  {
    if effects != [] {
      var init := effects[..|effects| - 1];
      assert Alternates(init) by {
        assert forall i :: 0 <= i < |init| ==> init[i] == effects[i];
      }
      StartsOfURL(init);
    }
  }

  /** Whatever is asked of the actor: the effective starts and stops of a URL alternate, beginning
      with a start; the URL is in the set exactly while it has one more start than stops; and over
      all URLs the set has as many members as there were starts less stops. */
  lemma {:induction false} StartsAndStopsBalance(acts: seq<Act>, url: string)
    ensures
      var a := PerformAll(acts);
      var mine := Of(a.effects, url);
      && Alternates(mine)
      && Starts(mine) - Stops(mine) == (if url in a.currURLs then 1 else 0)
      && |a.currURLs| == Starts(a.effects) - Stops(a.effects)
      && a.nextIndex == Starts(a.effects)
  {
    AlwaysActorInv(acts);
    StartsOfURL(Of(PerformAll(acts).effects, url));
  }

  /** Started, and not stopped since. */
  ghost predicate StartedLast(acts: seq<Act>, url: string) {
    exists k :: 0 <= k < |acts| && acts[k] == Start(url) && forall j :: k < j < |acts| ==> acts[j] != Stop(url)
  }

  lemma {:induction false} OneMoreAct(acts: seq<Act>, act: Act, url: string)
    ensures StartedLast(acts + [act], url) <==> act == Start(url) || (act != Stop(url) && StartedLast(acts, url))
  {
    var more := acts + [act];
    if StartedLast(acts, url) && act != Stop(url) {
      var k :| 0 <= k < |acts| && acts[k] == Start(url) && forall j :: k < j < |acts| ==> acts[j] != Stop(url);
      assert more[k] == Start(url);
    }
    assert more[|acts|] == act;
    if act != Start(url) && StartedLast(more, url) {
      var k :| 0 <= k < |more| && more[k] == Start(url) && forall j :: k < j < |more| ==> more[j] != Stop(url);
      assert acts[k] == Start(url);
      assert forall j :: k < j < |acts| ==> acts[j] == more[j];
    }
  }

  /** A URL is held exactly if a start of it was asked for, and no stop since. */
  lemma {:induction false} HeldIff(acts: seq<Act>, url: string)
    ensures url in PerformAll(acts).currURLs <==> StartedLast(acts, url)
  {
    if acts != [] {
      var init, act := acts[..|acts| - 1], acts[|acts| - 1];
      HeldIff(init, url);
      OneMoreAct(init, act, url);
      assert acts == init + [act];
      hide StartedLast, ContainerName;
    }
  }

  lemma {:induction false} ItoaInjective(m: nat, n: nat)
    requires Itoa(m) == Itoa(n)
    ensures m == n
  {
    var a, b := Itoa(m), Itoa(n);
    assert a[|a| - 1] == b[|b| - 1];
    if m >= 10 && n >= 10 {
      assert Itoa(m / 10) == a[..|a| - 1] && Itoa(n / 10) == b[..|b| - 1];
      ItoaInjective(m / 10, n / 10);
    }
  }

  /** The number that a text of decimal digits stands for. */
  function Value(digits: string): int {
    if digits == [] then 0 else 10 * Value(digits[..|digits| - 1]) + (digits[|digits| - 1] as int - '0' as int)
  }

  lemma {:induction false} ItoaValue(n: nat)
    ensures forall i :: 0 <= i < |Itoa(n)| ==> '0' <= Itoa(n)[i] <= '9'
    ensures n > 0 ==> Itoa(n)[0] != '0'
    ensures Value(Itoa(n)) == n
  {
    if n < 10 {
      assert [Digit(n)][..0] == [];
    } else {
      ItoaValue(n / 10);
      var s := Itoa(n / 10);
      assert (s + [Digit(n % 10)])[..|s|] == s;
    }
  }

  /** The containers that an actor starts are numbered from 1, in order, in plain decimal; so that no two get the
      same name. */
  lemma NamesDistinct(acts: seq<Act>, i: nat, j: nat)
    requires i < j < |PerformAll(acts).names|
    ensures
      var name := PerformAll(acts).names[i];
      && |name| > 11 && name[..11] == "replicator-"
      && (forall k :: 11 <= k < |name| ==> '0' <= name[k] <= '9') && name[11] != '0'
      && Value(name[11..]) == i + 1
    ensures PerformAll(acts).names[i] != PerformAll(acts).names[j]
  {
    AlwaysActorInv(acts);
    var name, other := PerformAll(acts).names[i], PerformAll(acts).names[j];
    hide PerformAll, ActorInv;
    assert name == ContainerName(i + 1) && other == ContainerName(j + 1);
    NameParts(i + 1);
    NameParts(j + 1);
    ItoaValue(i + 1);
    hide ContainerName, Itoa, Value;
    if name == other {
      ItoaInjective(i + 1, j + 1);
    }
  }

  lemma NameParts(n: nat)
    ensures |ContainerName(n)| == 11 + |Itoa(n)|
    ensures ContainerName(n)[..11] == "replicator-" && ContainerName(n)[11..] == Itoa(n)
  {
    assert |COMPONENT_NAME + "-"| == 11;
    assert COMPONENT_NAME + "-" == "replicator-";
    assert ContainerName(n)[11..] == Itoa(n);
    hide Itoa;
  }
}
