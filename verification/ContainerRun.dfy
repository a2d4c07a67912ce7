/** internal/container/container.go: the life of one container.

    RunContainer starts a main goroutine, which sets the container up and then runs the control
    loop, and runContainerLoop starts a waiter goroutine, which waits for the container to exit
    and restarts it. They share an unbuffered response channel and an error channel of size one. */
module ContainerRun {
  import opened Domain
  import Stats

  // ----- The control loop -----

  /** containerWaitResponse */
  datatype Response = Response(exitCode: int, restarting: bool, restartCount: nat, err: Option<Error>)

  datatype DockerEvent =
    | NotAContainerEvent
    | StartEvent
    | HealthRunning | HealthHealthy | HealthUnhealthy | HealthOther
    | OtherContainerEvent

  /** What the select of the control loop can receive. */
  datatype Input =
    | GotResponse(resp: Response)
    | GotError(err: Error)
    | GotEvent(evt: DockerEvent)
    | GotStats(stats: Stats.Report)

  datatype Outcome = Continue | Return | Fail(err: Error)

  /** The state after an input, whether it is sent to the state channel, and how to go on. */
  datatype Reaction = Reaction(state: Container, send: bool, outcome: Outcome)

  function React(state: Container, input: Input): Reaction {
    match input
    case GotResponse(resp) =>
      var stopped := state.(
        status := if resp.restarting then Restarting else Exited,
        err := if resp.restarting then None else resp.err,
        restartCount := resp.restartCount,
        cpuPercent := 0.0,
        memoryUsageBytes := 0,
        healthState := "unhealthy",
        rxRate := 0,
        txRate := 0,
        rxSince := ZERO_TIME);
      if resp.restarting then Reaction(stopped, true, Continue)
      else Reaction(stopped.(exitCode := Some(resp.exitCode)), true, Return)
    case GotError(err) => Reaction(state, false, Fail(err))
    case GotEvent(evt) =>
      (match evt
       case NotAContainerEvent => Reaction(state, false, Continue)
       case StartEvent => Reaction(state.(status := Running), true, Continue)
       case HealthRunning => Reaction(state.(healthState := "running"), true, Continue)
       case HealthHealthy => Reaction(state.(healthState := "healthy"), true, Continue)
       case HealthUnhealthy => Reaction(state.(healthState := "unhealthy"), true, Continue)
       case HealthOther => Reaction(state.(healthState := "unknown"), true, Continue)
       case OtherContainerEvent => Reaction(state, false, Continue))
    case GotStats(s) =>
      Reaction(
        state.(cpuPercent := s.cpuPercent, memoryUsageBytes := s.memory,
               rxRate := s.rxRate, txRate := s.txRate, rxSince := s.rxSince),
        true, Continue)
  }

  /** Everything the loop has done with a list of inputs: the states it sent, and its outcome. Once
      the outcome is not Continue the loop has returned and takes no more inputs. */
  datatype LoopRun = LoopRun(state: Container, sent: seq<Container>, outcome: Outcome)

  ghost function RunOf(initial: Container, inputs: seq<Input>): LoopRun {
    if inputs == [] then LoopRun(initial, [initial], Continue)
    else
      var before := RunOf(initial, inputs[..|inputs| - 1]);
      if before.outcome != Continue then before
      else
        var r := React(before.state, inputs[|inputs| - 1]);
        LoopRun(r.state, if r.send then before.sent + [r.state] else before.sent, r.outcome)
  }

  /** The rxSince a report carries: that of the latest stats, unless the container has left the
      running state since. */
  function LatestRxSince(inputs: seq<Input>): Time {
    if inputs == [] then ZERO_TIME
    else
      match inputs[|inputs| - 1]
      case GotStats(s) => s.rxSince
      case GotResponse(_) => ZERO_TIME
      case _ => LatestRxSince(inputs[..|inputs| - 1])
  }

  lemma {:induction false} RxSinceComesFromStats(initial: Container, inputs: seq<Input>)
    requires initial.rxSince == ZERO_TIME
    requires inputs != [] ==> RunOf(initial, inputs[..|inputs| - 1]).outcome == Continue
    ensures RunOf(initial, inputs).state.rxSince == LatestRxSince(inputs)
  {
    if inputs != [] {
      var init := inputs[..|inputs| - 1];
      if init != [] && RunOf(initial, init[..|init| - 1]).outcome != Continue {
        assert false;
      }
      RxSinceComesFromStats(initial, init);
    }
  }

  /** The stats messages among the inputs. */
  function StatsIn(inputs: seq<Input>): seq<Stats.Report> {
    if inputs == [] then []
    else
      var input := inputs[|inputs| - 1];
      StatsIn(inputs[..|inputs| - 1]) + (if input.GotStats? then [input.stats] else [])
  }

  /** How many of them are behind the current state: all, or none after a response. */
  function Applied(inputs: seq<Input>): nat {
    if inputs == [] then 0
    else
      match inputs[|inputs| - 1]
      case GotStats(_) => |StatsIn(inputs)|
      case GotResponse(_) => 0
      case _ => Applied(inputs[..|inputs| - 1])
  }

  /** The stats come from the channel that the collector of this container writes to, one message for
      each sample, in order. */
  ghost predicate FromCollector(inputs: seq<Input>, samples: seq<Stats.Sample>, unspecified: nat -> int) {
    && |StatsIn(inputs)| <= |samples|
    && forall j :: 0 <= j < |StatsIn(inputs)| ==> StatsIn(inputs)[j] == Stats.Emitted(samples[..j + 1], unspecified(j))
  }

  lemma {:induction false} RxSinceOfAppliedSamples(
      inputs: seq<Input>, samples: seq<Stats.Sample>, unspecified: nat -> int)
    requires FromCollector(inputs, samples, unspecified)
    ensures Applied(inputs) <= |samples|
    ensures LatestRxSince(inputs) == Stats.RxSince(samples[..Applied(inputs)])
  {
    hide Stats.Emitted, Stats.RxSince;
    if inputs == [] {
      Stats.RxSinceOfNone();
      assert samples[..0] == [];
    } else {
      var init, got := inputs[..|inputs| - 1], StatsIn(inputs);
      assert forall j :: 0 <= j < |StatsIn(init)| ==> StatsIn(init)[j] == got[j];
      RxSinceOfAppliedSamples(init, samples, unspecified);
      match inputs[|inputs| - 1] {
        case GotStats(stats) =>
          var n := |got|;
          assert stats == got[n - 1] == Stats.Emitted(samples[..n], unspecified(n - 1));
          Stats.EmittedRxSince(samples[..n], unspecified(n - 1));
        case GotResponse(_) =>
          Stats.RxSinceOfNone();
          assert samples[..0] == [];
        case _ =>
      }
    }
  }

  /** The control loop of runContainerLoop, updating its container in place. */
  class Monitor {
    var state: Container
    var sent: seq<Container>  // what went to the state channel
    var err: Option<Error>    // what went to the error channel

    constructor (id: string, imageName: string)
      ensures state == ZERO_CONTAINER.(id := id, status := Running, imageName := imageName)
      ensures sent == [state] && err == None
    {
      state := ZERO_CONTAINER.(id := id, status := Running, imageName := imageName);
      sent := [ZERO_CONTAINER.(id := id, status := Running, imageName := imageName)];
      err := None;
    }

    method SendState()
      modifies this`sent
      ensures sent == old(sent) + [state]
    {
      sent := sent + [state];
    }

    method HandleResponse(resp: Response) returns (done: bool)
      modifies this`state, this`sent
      ensures var r := React(old(state), GotResponse(resp));
              state == r.state && sent == old(sent) + [state] && done == (r.outcome == Return)
    {
      state := state.(
        status := if resp.restarting then Restarting else Exited,
        err := if resp.restarting then None else resp.err);
      state := state.(restartCount := resp.restartCount, cpuPercent := 0.0, memoryUsageBytes := 0);
      state := state.(healthState := "unhealthy", rxRate := 0, txRate := 0, rxSince := ZERO_TIME);
      if !resp.restarting {
        state := state.(exitCode := Some(resp.exitCode));
        SendState();
        return true;
      }
      SendState();
      return false;
    }

    method HandleEvent(evt: DockerEvent)
      modifies this`state, this`sent
      ensures var r := React(old(state), GotEvent(evt));
              state == r.state && sent == if r.send then old(sent) + [state] else old(sent)
    {
      if evt.NotAContainerEvent? {
        return;
      }
      if evt.StartEvent? {
        state := state.(status := Running);
        SendState();
        return;
      }
      if evt.OtherContainerEvent? {
        return;
      }
      match evt {
        case HealthRunning => state := state.(healthState := "running");
        case HealthHealthy => state := state.(healthState := "healthy");
        case HealthUnhealthy => state := state.(healthState := "unhealthy");
        case HealthOther => state := state.(healthState := "unknown");
      }
      SendState();
    }

    method HandleStats(s: Stats.Report)
      modifies this`state, this`sent
      ensures state == React(old(state), GotStats(s)).state && sent == old(sent) + [state]
    {
      state := state.(cpuPercent := s.cpuPercent, memoryUsageBytes := s.memory);
      state := state.(rxRate := s.rxRate, txRate := s.txRate, rxSince := s.rxSince);
      SendState();
    }

    /** The for-select loop, fed with the inputs that the select chooses. */
    method Loop(inputs: seq<Input>)
      requires sent == [state] && err == None
      modifies this
      ensures var run := RunOf(old(state), inputs);
              && state == run.state && sent == run.sent
              && err == if run.outcome.Fail? then Some(run.outcome.err) else None
    {
      ghost var initial := state;
      var done := false;
      var i := 0;
      while i < |inputs| && !done && err == None
        invariant 0 <= i <= |inputs|
        invariant var run := RunOf(initial, inputs[..i]);
                  && state == run.state && sent == run.sent
                  && done == (run.outcome == Return)
                  && err == (if run.outcome.Fail? then Some(run.outcome.err) else None)
        decreases |inputs| - i
      {
        assert inputs[..i + 1][..i] == inputs[..i];
        match inputs[i] {
          case GotResponse(resp) => done := HandleResponse(resp);
          case GotError(e) => err := Some(e);
          case GotEvent(evt) => HandleEvent(evt);
          case GotStats(s) => HandleStats(s);
        }
        i := i + 1;
      }
      LoopStays(initial, inputs, i);
    }
  }

  /** Inputs after the return are never looked at. */
  lemma {:induction false} LoopStays(initial: Container, inputs: seq<Input>, i: nat)
    requires i <= |inputs|
    requires i == |inputs| || RunOf(initial, inputs[..i]).outcome != Continue
    ensures RunOf(initial, inputs) == RunOf(initial, inputs[..i])
    decreases |inputs| - i
  {
    if i == |inputs| {
      assert inputs[..i] == inputs;
    } else {
      assert inputs[..i + 1][..i] == inputs[..i];
      LoopStays(initial, inputs, i + 1);
    }
  }

  // ----- The two goroutines -----

  /** ShouldRestartFunc: exit code, restart count, container logs, running time. */
  type Policy = (int, nat, seq<string>, int) -> (bool, Option<Error>)

  datatype Config = Config(imageName: string, policy: Option<Policy>, chanSize: nat)

  /** Where the main goroutine goes after a state has been sent. */
  datatype Next = ToPull | ToConnect | ToSpawn | ToWatch | ToReturn

  datatype Main =
    | Pull | Create | Connect | Copy | Start      // setting up
    | SendState(state: Container, next: Next)     // stateC <- state
    | Watch                                       // the select of the control loop
    | SendError(err: Error)                       // errC <- err
    | Close                                       // about to run the deferred close(errC)
    | Finished

  datatype Waiter =
    | NotSpawned
    | Waiting(count: nat, waitOpen: bool, timer: bool, logs: seq<string>)
    | Responding(count: nat, logs: seq<string>, resp: Response)   // containerRespC <- resp
    | Stopped

  /** Why a run ended, as decided by the waiter. */
  datatype Ending =
    | Exit(exitCode: int, count: nat, logs: seq<string>, runningTime: int, err: Option<Error>)
    | Cancellation
    | WaitFailure
    | RestartFailure

  /** What the waiter has put on its two channels. */
  datatype Message = Sent(resp: Response) | Failed(err: Error)

  datatype State = State(
    main: Main,
    waiter: Waiter,
    container: Container,        // the control loop's state
    stateC: seq<Container>,      // buffered
    errC: seq<Error>,            // buffered, size 1
    errClosed: bool,
    waitErrC: seq<Error>,        // containerErrC: buffered, size 1
    cancelled: bool,             // the run's context
    panicked: bool,              // the restart callback broke its contract
    // history
    reports: seq<Container>,     // everything sent to stateC
    pulls: nat,                  // how many of those came from the image pull
    sentErrs: seq<Error>,        // everything sent to errC
    messages: seq<Message>,
    calls: seq<nat>,             // the restart counts passed to the policy
    restarts: nat,               // successful restarts
    ending: Option<Ending>)

  const INITIAL := State(
    Pull, NotSpawned, ZERO_CONTAINER, [], [], false, [], false, false,
    [], 0, [], [], [], 0, None)

  datatype Action =
    // main goroutine; Docker's answers are part of the action
    | PullProgress(pullStatus: string, pullProgress: string, pullPercent: int)
    | PullDone                                // also when it failed, or was not needed
    | CreateOk(id: string)
    | ConnectOk | CopyOk | StartOk
    | SetupFails(err: Error)
    | DeliverState
    | HandleDockerEvent(evt: DockerEvent)
    | HandleStats(stats: Stats.Report)
    | TakeResponse                            // rendezvous with the waiter
    | TakeWaitError
    | DeliverError
    | CloseErrors
    // waiter goroutine
    | ContainerExits(exitCode: int, runningTime: int)
    | WaitFails(err: Error)
    | TimerFires(startErr: Option<Error>)
    | LogLine(line: string)
    | SeeCancel
    // environment
    | Cancel
    | ReadState
    | ReadError

  /** The effect of an action, or None where it cannot happen. */
  function Step(cfg: Config, s: State, a: Action): Option<State> {
    if s.panicked then None
    else
      match a
      case Cancel => EnvironmentStep(s, a)
      case ReadState => EnvironmentStep(s, a)
      case ReadError => EnvironmentStep(s, a)
      case ContainerExits(_, _) => WaiterStep(cfg, s, a)
      case WaitFails(_) => WaiterStep(cfg, s, a)
      case TimerFires(_) => WaiterStep(cfg, s, a)
      case LogLine(_) => WaiterStep(cfg, s, a)
      case SeeCancel => WaiterStep(cfg, s, a)
      case DeliverState => DeliverStep(cfg, s)
      case HandleDockerEvent(_) => WatchStep(s, a)
      case HandleStats(_) => WatchStep(s, a)
      case TakeResponse => WatchStep(s, a)
      case TakeWaitError => WatchStep(s, a)
      case _ => StraightStep(cfg, s, a)
  }

  function EnvironmentStep(s: State, a: Action): Option<State> {
    match a
    case Cancel => Some(s.(cancelled := true))
    case ReadState => if s.stateC == [] then None else Some(s.(stateC := s.stateC[1..]))
    case ReadError => if s.errC == [] then None else Some(s.(errC := s.errC[1..]))
    case _ => None
  }

  /** The straight-line code before and after the control loop. */
  function StraightStep(cfg: Config, s: State, a: Action): Option<State> {
    match (s.main, a)
    case (Pull, PullProgress(status, progress, percent)) =>
      Some(s.(main := SendState(
        ZERO_CONTAINER.(status := Pulling, imageName := cfg.imageName,
                        pullStatus := status, pullProgress := progress, pullPercent := percent),
        ToPull)))
    case (Pull, PullDone) => Some(s.(main := Create))
    case (Create, CreateOk(id)) =>
      Some(s.(container := ZERO_CONTAINER.(id := id),
              main := SendState(ZERO_CONTAINER.(id := id, status := Created), ToConnect)))
    case (Connect, ConnectOk) => Some(s.(main := Copy))
    case (Copy, CopyOk) => Some(s.(main := Start))
    case (Start, StartOk) =>
      Some(s.(main := SendState(ZERO_CONTAINER.(id := s.container.id, status := Running), ToSpawn)))
    case (_, SetupFails(err)) =>
      if SettingUp(s.main) then Some(s.(main := SendError(err))) else None
    case (SendError(err), DeliverError) =>
      if |s.errC| < 1 then
        Some(s.(main := Close, errC := s.errC + [err], sentErrs := s.sentErrs + [err]))
      else None
    case (Close, CloseErrors) => Some(s.(main := Finished, errClosed := true))
    case _ => None
  }

  predicate SettingUp(m: Main) {
    m.Create? || m.Connect? || m.Copy? || m.Start?
  }

  /** stateC <- state, and what follows it. */
  function DeliverStep(cfg: Config, s: State): Option<State> {
    if !s.main.SendState? || |s.stateC| >= cfg.chanSize then None
    else
      var SendState(c, next) := s.main;
      var sent := s.(stateC := s.stateC + [c], reports := s.reports + [c]);
      match next
      case ToPull => Some(sent.(main := Pull, pulls := s.pulls + 1))
      case ToConnect => Some(sent.(main := Connect))
      case ToSpawn =>
        var state := ZERO_CONTAINER.(id := s.container.id, status := Running, imageName := cfg.imageName);
        Some(sent.(waiter := Waiting(0, true, false, []), container := state,
                   main := SendState(state, ToWatch)))
      case ToWatch => Some(sent.(main := Watch))
      case ToReturn => Some(sent.(main := Close))
  }

  /** The select of the control loop. */
  function WatchStep(s: State, a: Action): Option<State> {
    if !s.main.Watch? then None
    else
      match a
      case HandleDockerEvent(evt) => Some(Apply(s, GotEvent(evt)))
      case HandleStats(stats) => Some(Apply(s, GotStats(stats)))
      case TakeResponse =>
        if s.waiter.Responding? then Some(Apply(HandOver(s), GotResponse(s.waiter.resp))) else None
      case TakeWaitError =>
        if s.waitErrC != [] then Some(Apply(s.(waitErrC := s.waitErrC[1..]), GotError(s.waitErrC[0])))
        else None
      case _ => None
  }

  /** The waiter's send on the unbuffered response channel completes. */
  function HandOver(s: State): State
    requires s.waiter.Responding?
  {
    var Responding(count, logs, resp) := s.waiter;
    s.(waiter := if resp.restarting then Waiting(count, false, true, logs) else Stopped,
       messages := s.messages + [Sent(resp)])
  }

  /** One turn of the control loop. */
  function Apply(s: State, input: Input): State {
    var r := React(s.container, input);
    s.(container := r.state,
       main := match r.outcome
               case Fail(err) => SendError(err)
               case Return => SendState(r.state, ToReturn)
               case Continue => if r.send then SendState(r.state, ToWatch) else Watch)
  }

  function WaiterStep(cfg: Config, s: State, a: Action): Option<State> {
    if !s.waiter.Waiting? then None
    else
      var Waiting(count, waitOpen, timer, logs) := s.waiter;
      match a
      case ContainerExits(code, runningTime) =>
        if !waitOpen then None
        else if cfg.policy.None? then Some(Exits(s, code, runningTime, None))
        else
          var (restart, err) := cfg.policy.value(code, count, logs, runningTime);
          var called := s.(calls := s.calls + [count]);
          if restart && err.Some? then Some(called.(panicked := true))
          else if !restart then Some(Exits(called, code, runningTime, err))
          else Some(called.(waiter := Responding(count, logs, Response(code, true, count, None))))
      case WaitFails(err) =>
        if waitOpen then WaiterFails(s, err, WaitFailure) else None
      case TimerFires(startErr) =>
        if !timer then None
        else if startErr.Some? then WaiterFails(s, startErr.value, RestartFailure)
        else Some(s.(waiter := Waiting(count + 1, true, false, []), restarts := s.restarts + 1))
      case LogLine(line) => Some(s.(waiter := Waiting(count, waitOpen, timer, logs + [line])))
      case SeeCancel =>
        if s.cancelled then
          Some(s.(waiter := Responding(count, logs, Response(0, false, 0, None)),
                  ending := Some(Cancellation)))
        else None
      case _ => None
  }

  /** The exit closure of waitForContainerExit. */
  function Exits(s: State, code: int, runningTime: int, err: Option<Error>): State
    requires s.waiter.Waiting?
  {
    var w := s.waiter;
    s.(waiter := Responding(w.count, w.logs, Response(code, false, w.count, err)),
       ending := Some(Exit(code, w.count, w.logs, runningTime, err)))
  }

  /** containerErrC <- err; return false. Would block if the channel were full. */
  function WaiterFails(s: State, err: Error, why: Ending): Option<State> {
    if |s.waitErrC| < 1 then
      Some(s.(waiter := Stopped, waitErrC := s.waitErrC + [err],
              messages := s.messages + [Failed(err)], ending := Some(why)))
    else None
  }

  /** The state after a sequence of actions; an action that cannot happen is skipped, so that every
      sequence is an interleaving of the two goroutines with their environment. */
  ghost function After(cfg: Config, actions: seq<Action>): State {
    if actions == [] then INITIAL
    else
      var s := After(cfg, actions[..|actions| - 1]);
      match Step(cfg, s, actions[|actions| - 1])
      case Some(next) => next
      case None => s
  }

  // ----- Invariants -----

  predicate InSetup(m: Main) {
    SettingUp(m) || m.Pull? || (m.SendState? && (m.next.ToPull? || m.next.ToConnect? || m.next.ToSpawn?))
  }

  predicate InLoop(m: Main) {
    m.Watch? || (m.SendState? && m.next == ToWatch)
  }

  predicate Final(m: Message) {
    m.Failed? || !m.resp.restarting
  }

  /** Restarting responses numbered 0, 1, 2, ... */
  predicate Numbered(messages: seq<Message>) {
    forall i :: 0 <= i < |messages| ==>
      messages[i].Sent? && messages[i].resp.restarting && messages[i].resp.restartCount == i
  }

  predicate CallsNumbered(calls: seq<nat>) {
    forall i :: 0 <= i < |calls| ==> calls[i] == i
  }

  /** The decision recorded by an Exit is the one the policy made. */
  predicate Justified(cfg: Config, e: Ending) {
    e.Exit? ==>
      match cfg.policy
      case None => e.err == None
      case Some(policy) => policy(e.exitCode, e.count, e.logs, e.runningTime) == (false, e.err)
  }

  predicate ResponseMatches(resp: Response, restarts: nat, ending: Option<Ending>) {
    match ending
    case None => resp.restarting && resp.restartCount == restarts && resp.err == None
    case Some(Exit(code, count, _, _, err)) => resp == Response(code, false, restarts, err) && count == restarts
    case Some(Cancellation) => resp == Response(0, false, 0, None)
    case _ => false
  }

  predicate WaiterInv(cfg: Config, s: State) {
    && (s.ending.Some? ==> Justified(cfg, s.ending.value))
    && (s.panicked ==> cfg.policy.Some?)
    && CallsNumbered(s.calls)
    && match s.waiter
       case NotSpawned =>
         s.messages == [] && s.calls == [] && s.restarts == 0 && s.waitErrC == [] && s.ending == None
       case Waiting(count, waitOpen, timer, logs) =>
         && count == s.restarts && timer == !waitOpen
         && s.ending == None && s.waitErrC == []
         && Numbered(s.messages) && |s.messages| == s.restarts + (if timer then 1 else 0)
         && |s.calls| == (if s.panicked then s.restarts + 1 else |s.messages|)
       case Responding(count, logs, resp) =>
         && count == s.restarts && s.waitErrC == []
         && ResponseMatches(resp, s.restarts, s.ending)
         && Numbered(s.messages) && s.restarts <= |s.messages| <= s.restarts + 1
         && (s.ending != Some(Cancellation) ==> |s.messages| == s.restarts)
         && |s.calls| == (if s.ending == None || (s.ending.value.Exit? && cfg.policy.Some?)
                          then s.restarts + 1 else |s.messages|)
       case Stopped =>
         && s.messages != [] && s.ending.Some?
         && Numbered(s.messages[..|s.messages| - 1])
         && s.restarts <= |s.messages| - 1 <= s.restarts + 1
         && |s.calls| <= s.restarts + 1
         && var last := s.messages[|s.messages| - 1];
            Final(last) &&
            if last.Sent? then ResponseMatches(last.resp, s.restarts, s.ending) else Failure(s.ending)
  }

  predicate Failure(ending: Option<Ending>) {
    ending == Some(WaitFailure) || ending == Some(RestartFailure)
  }

  /** How the two goroutines fit together. */
  predicate JointInv(s: State) {
    && (InSetup(s.main) ==> s.waiter.NotSpawned?)
    && (InLoop(s.main) ==>
          !s.waiter.NotSpawned? && (s.waiter.Stopped? ==> |s.waitErrC| == 1 && Failure(s.ending)))
    && (s.waiter.Waiting? || s.waiter.Responding? ==> InLoop(s.main))
    && (s.panicked ==> s.waiter.Waiting?)
    && (s.main.SendState? && s.main.next == ToReturn ==> s.waiter.Stopped?)
  }

  predicate Up(status: ContainerStatus) {
    status == Running || status == Restarting
  }

  predicate Ended(m: Main) {
    m.Close? || m.Finished?
  }

  /** Where a status may stand in a trace of reports, after the image pull. */
  predicate Allowed(status: ContainerStatus, i: nat, length: nat) {
    if i == 0 then status == Created
    else if i <= 2 then status == Running
    else Up(status) || (status == Exited && i == length - 1)
  }

  /** pulling* created running running (running | restarting)* exited, or a prefix of that. */
  predicate Lawful(reports: seq<Container>, pulls: nat) {
    && pulls <= |reports|
    && (forall i :: 0 <= i < pulls ==> reports[i].status == Pulling)
    && (forall i :: pulls <= i < |reports| ==> Allowed(reports[i].status, i - pulls, |reports| - pulls))
    && (forall i :: 0 <= i < |reports| ==>
          && (reports[i].exitCode.Some? <==> reports[i].status == Exited)
          && (reports[i].err.Some? ==> reports[i].status == Exited))
  }

  predicate HasExited(s: State) {
    s.reports != [] && s.reports[|s.reports| - 1].status == Exited
  }

  predicate Plain(c: Container) {
    c.exitCode == None && c.err == None
  }

  /** The exited report says what the waiter decided. */
  predicate ExitMatches(c: Container, s: State) {
    && s.waiter.Stopped?
    && c.status == Exited
    && match s.ending
       case Some(Exit(code, count, _, _, err)) =>
         c.exitCode == Some(code) && c.restartCount == count == s.restarts && c.err == err
       case Some(Cancellation) => c.exitCode == Some(0) && c.restartCount == 0 && c.err == None
       case _ => false
  }

  predicate TraceInv(s: State) {
    var after := |s.reports| - s.pulls;
    && Lawful(s.reports, s.pulls)
    && (HasExited(s) ==> Ended(s.main) && ExitMatches(s.reports[|s.reports| - 1], s))
    && (!Ended(s.main) ==> s.sentErrs == [] && s.errC == [] && !s.errClosed)
    && |s.sentErrs| <= 1
    && s.errClosed == s.main.Finished?
    && (Ended(s.main) ==> (HasExited(s) <==> s.sentErrs == []))
    && (s.errC != [] ==> s.errC == s.sentErrs)
    && match s.main
       case Pull => after == 0
       case Create => after == 0
       case Connect => after == 1
       case Copy => after == 1
       case Start => after == 1
       case SendState(c, next) =>
         (match next
          case ToPull => after == 0 && c.status == Pulling && Plain(c)
          case ToConnect => after == 0 && c.status == Created && Plain(c)
          case ToSpawn => after == 1 && c.status == Running && Plain(c)
          case ToWatch =>
            && c == s.container && Plain(c) && after >= 2
            && (if after == 2 then c.status == Running else Up(c.status))
          case ToReturn => after >= 3 && ExitMatches(c, s))
       case Watch => after >= 3 && Plain(s.container) && Up(s.container.status)
       case SendError(_) => s.waiter.NotSpawned? || (s.waiter.Stopped? && Failure(s.ending))
       case Close => true
       case Finished => true
  }

  predicate Inv(cfg: Config, s: State) {
    WaiterInv(cfg, s) && JointInv(s) && TraceInv(s)
  }

  lemma MessageAppended(messages: seq<Message>, m: Message)
    ensures (messages + [m])[..|messages + [m]| - 1] == messages
    ensures (messages + [m])[|messages + [m]| - 1] == m
  {
  }

  /** WaiterInv only looks at what the waiter writes. */
  lemma WaiterInvFrame(cfg: Config, s: State, t: State)
    requires WaiterInv(cfg, s)
    requires t.waiter == s.waiter && t.ending == s.ending && t.panicked == s.panicked
    requires t.calls == s.calls && t.messages == s.messages && t.restarts == s.restarts
    requires t.waitErrC == s.waitErrC || (s.waiter.Stopped? && t.waiter.Stopped?)
    ensures WaiterInv(cfg, t)
  {
  }

  lemma LawfulExtends(reports: seq<Container>, pulls: nat, c: Container)
    requires Lawful(reports, pulls)
    requires reports == [] || reports[|reports| - 1].status != Exited
    requires c.exitCode.Some? <==> c.status == Exited
    requires c.err.Some? ==> c.status == Exited
    requires Allowed(c.status, |reports| - pulls, |reports| - pulls + 1)
    ensures Lawful(reports + [c], pulls)
  {
  }

  lemma LawfulExtendsPull(reports: seq<Container>, c: Container)
    requires Lawful(reports, |reports|)
    requires c.status == Pulling && c.exitCode == None && c.err == None
    ensures Lawful(reports + [c], |reports| + 1)
  {
  }

  lemma EnvironmentKeeps(cfg: Config, s: State, a: Action)
    requires Inv(cfg, s) && EnvironmentStep(s, a).Some?
    ensures Inv(cfg, EnvironmentStep(s, a).value)
  {
    hide WaiterInv, Lawful;
    WaiterInvFrame(cfg, s, EnvironmentStep(s, a).value);
  }

  lemma WaiterFailsKeepsWaiterInv(cfg: Config, s: State, err: Error, why: Ending)
    requires WaiterInv(cfg, s) && !s.panicked && s.waiter.Waiting?
    requires why == WaitFailure || why == RestartFailure
    ensures WaiterFails(s, err, why).Some? && WaiterInv(cfg, WaiterFails(s, err, why).value)
  {
    MessageAppended(s.messages, Failed(err));
  }

  lemma ExitKeepsWaiterInv(cfg: Config, s: State, a: Action)
    requires WaiterInv(cfg, s) && !s.panicked && a.ContainerExits? && WaiterStep(cfg, s, a).Some?
    ensures WaiterInv(cfg, WaiterStep(cfg, s, a).value)
  {
    hide Numbered;
  }

  lemma WaiterKeepsWaiterInv(cfg: Config, s: State, a: Action)
    requires WaiterInv(cfg, s) && !s.panicked && WaiterStep(cfg, s, a).Some?
    ensures WaiterInv(cfg, WaiterStep(cfg, s, a).value)
  {
    if a.WaitFails? {
      WaiterFailsKeepsWaiterInv(cfg, s, a.err, WaitFailure);
      hide WaiterInv;
    } else if a.TimerFires? && a.startErr.Some? {
      WaiterFailsKeepsWaiterInv(cfg, s, a.startErr.value, RestartFailure);
      hide WaiterInv;
    } else if a.ContainerExits? {
      ExitKeepsWaiterInv(cfg, s, a);
      hide WaiterInv, WaiterStep;
    } else {
      hide Numbered, CallsNumbered;
    }
  }

  lemma WaiterKeepsJointInv(cfg: Config, s: State, a: Action)
    requires WaiterInv(cfg, s) && JointInv(s) && !s.panicked && WaiterStep(cfg, s, a).Some?
    ensures JointInv(WaiterStep(cfg, s, a).value)
  {
  }

  /** TraceInv only looks at what the waiter decided once that has stopped. */
  lemma TraceInvFrame(s: State, t: State)
    requires TraceInv(s) && JointInv(s)
    requires t.main == s.main && t.container == s.container && t.reports == s.reports && t.pulls == s.pulls
    requires t.sentErrs == s.sentErrs && t.errC == s.errC && t.errClosed == s.errClosed
    requires s.waiter.Waiting? && InLoop(t.main)
    ensures TraceInv(t)
  {
    hide Lawful;
  }

  /** The waiter writes neither to the channels of the run nor to what the main goroutine owns. */
  predicate OnlyWaiterMoved(s: State, t: State) {
    && t.main == s.main && t.container == s.container && t.reports == s.reports && t.pulls == s.pulls
    && t.sentErrs == s.sentErrs && t.errC == s.errC && t.errClosed == s.errClosed && t.stateC == s.stateC
  }

  lemma ExitsFrame(s: State, code: int, runningTime: int, err: Option<Error>)
    requires s.waiter.Waiting?
    ensures OnlyWaiterMoved(s, Exits(s, code, runningTime, err))
  {
  }

  lemma FailsFrame(s: State, err: Error, why: Ending)
    ensures WaiterFails(s, err, why).Some? ==> OnlyWaiterMoved(s, WaiterFails(s, err, why).value)
  {
  }

  lemma WaiterStepFrame(cfg: Config, s: State, a: Action)
    requires WaiterStep(cfg, s, a).Some?
    ensures s.waiter.Waiting? && OnlyWaiterMoved(s, WaiterStep(cfg, s, a).value)
  {
    hide Exits, WaiterFails;
    match a
    case ContainerExits(code, runningTime) =>
      ExitsFrame(s, code, runningTime, None);
      if cfg.policy.Some? {
        var err := cfg.policy.value(code, s.waiter.count, s.waiter.logs, runningTime).1;
        ExitsFrame(s.(calls := s.calls + [s.waiter.count]), code, runningTime, err);
      }
    case WaitFails(err) => FailsFrame(s, err, WaitFailure);
    case TimerFires(startErr) =>
      if startErr.Some? {
        FailsFrame(s, startErr.value, RestartFailure);
      }
    case _ =>
  }

  lemma WaiterKeepsTraceInv(cfg: Config, s: State, a: Action)
    requires JointInv(s) && TraceInv(s) && !s.panicked && WaiterStep(cfg, s, a).Some?
    ensures TraceInv(WaiterStep(cfg, s, a).value)
  {
    WaiterStepFrame(cfg, s, a);
    hide WaiterStep, TraceInv;
    TraceInvFrame(s, WaiterStep(cfg, s, a).value);
  }

  lemma StraightKeepsJointInv(cfg: Config, s: State, a: Action)
    requires JointInv(s) && !s.panicked && StraightStep(cfg, s, a).Some?
    ensures JointInv(StraightStep(cfg, s, a).value)
  {
  }

  predicate SetsUp(a: Action) {
    a.PullProgress? || a.PullDone? || a.CreateOk? || a.ConnectOk? || a.CopyOk? || a.StartOk?
  }

  lemma SetupKeepsTraceInv(cfg: Config, s: State, a: Action)
    requires TraceInv(s) && SetsUp(a) && StraightStep(cfg, s, a).Some?
    ensures TraceInv(StraightStep(cfg, s, a).value)
  {
    hide Lawful, ExitMatches;
  }

  lemma EndingKeepsTraceInv(cfg: Config, s: State, a: Action)
    requires JointInv(s) && TraceInv(s) && !SetsUp(a) && StraightStep(cfg, s, a).Some?
    ensures TraceInv(StraightStep(cfg, s, a).value)
  {
    hide Lawful;
  }

  lemma StraightLeavesWaiter(cfg: Config, s: State, a: Action)
    requires StraightStep(cfg, s, a).Some?
    ensures var t := StraightStep(cfg, s, a).value;
            && t.waiter == s.waiter && t.ending == s.ending && t.panicked == s.panicked && t.calls == s.calls
            && t.messages == s.messages && t.restarts == s.restarts && t.waitErrC == s.waitErrC
  {
  }

  lemma StraightKeeps(cfg: Config, s: State, a: Action)
    requires Inv(cfg, s) && !s.panicked && StraightStep(cfg, s, a).Some?
    ensures Inv(cfg, StraightStep(cfg, s, a).value)
  {
    hide WaiterInv, JointInv, TraceInv, SetsUp, StraightStep;
    StraightKeepsJointInv(cfg, s, a);
    if SetsUp(a) {
      SetupKeepsTraceInv(cfg, s, a);
    } else {
      EndingKeepsTraceInv(cfg, s, a);
    }
    StraightLeavesWaiter(cfg, s, a);
    WaiterInvFrame(cfg, s, StraightStep(cfg, s, a).value);
  }

  lemma DeliverKeepsLawful(cfg: Config, s: State)
    requires JointInv(s) && TraceInv(s) && DeliverStep(cfg, s).Some?
    ensures var t := DeliverStep(cfg, s).value; Lawful(t.reports, t.pulls)
  {
    var c := s.main.state;
    if s.main.next.ToPull? {
      LawfulExtendsPull(s.reports, c);
    } else {
      LawfulExtends(s.reports, s.pulls, c);
    }
  }

  lemma SpawnKeeps(cfg: Config, s: State)
    requires Inv(cfg, s) && !s.panicked && DeliverStep(cfg, s).Some? && s.main.next.ToSpawn?
    ensures Inv(cfg, DeliverStep(cfg, s).value)
  {
    DeliverKeepsLawful(cfg, s);
    hide Lawful;
  }

  lemma DeliverKeepsJointInv(cfg: Config, s: State)
    requires JointInv(s) && !s.panicked && DeliverStep(cfg, s).Some? && !s.main.next.ToSpawn?
    ensures JointInv(DeliverStep(cfg, s).value)
  {
  }

  lemma DeliverKeepsTraceInv(cfg: Config, s: State)
    requires JointInv(s) && TraceInv(s) && DeliverStep(cfg, s).Some? && !s.main.next.ToSpawn?
    ensures TraceInv(DeliverStep(cfg, s).value)
  {
    DeliverKeepsLawful(cfg, s);
    hide Lawful;
  }

  lemma DeliverKeeps(cfg: Config, s: State)
    requires Inv(cfg, s) && !s.panicked && DeliverStep(cfg, s).Some?
    ensures Inv(cfg, DeliverStep(cfg, s).value)
  {
    hide WaiterInv, JointInv, TraceInv;
    if s.main.next.ToSpawn? {
      SpawnKeeps(cfg, s);
    } else {
      WaiterInvFrame(cfg, s, DeliverStep(cfg, s).value);
      DeliverKeepsJointInv(cfg, s);
      DeliverKeepsTraceInv(cfg, s);
    }
  }

  lemma HandOverKeeps(cfg: Config, s: State)
    requires WaiterInv(cfg, s) && !s.panicked && s.waiter.Responding?
    ensures WaiterInv(cfg, HandOver(s))
  {
    MessageAppended(s.messages, Sent(s.waiter.resp));
  }

  lemma WatchKeepsWaiterInv(cfg: Config, s: State, a: Action)
    requires WaiterInv(cfg, s) && JointInv(s) && !s.panicked && WatchStep(s, a).Some?
    ensures WaiterInv(cfg, WatchStep(s, a).value)
  {
    assert s.waitErrC != [] ==> s.waiter.Stopped?;
    hide WaiterInv, React;
    if a.TakeResponse? {
      HandOverKeeps(cfg, s);
      WaiterInvFrame(cfg, HandOver(s), WatchStep(s, a).value);
    } else {
      WaiterInvFrame(cfg, s, WatchStep(s, a).value);
    }
  }

  lemma WatchKeepsJointInv(cfg: Config, s: State, a: Action)
    requires WaiterInv(cfg, s) && JointInv(s) && !s.panicked && WatchStep(s, a).Some?
    ensures JointInv(WatchStep(s, a).value)
  {
    hide Numbered, CallsNumbered;
  }

  /** What React makes of a running or restarting container. */
  lemma ReactsInLoop(c: Container, input: Input)
    requires Plain(c) && Up(c.status)
    ensures
      var r := React(c, input);
      match r.outcome
      case Continue => Plain(r.state) && Up(r.state.status)
      case Return =>
        && input.GotResponse? && !input.resp.restarting && r.state.status == Exited
        && r.state.exitCode == Some(input.resp.exitCode) && r.state.restartCount == input.resp.restartCount
        && r.state.err == input.resp.err
      case Fail(_) => input.GotError?
  {
  }

  lemma ResponseKeepsTraceInv(cfg: Config, s: State)
    requires WaiterInv(cfg, s) && JointInv(s) && TraceInv(s) && !s.panicked
    requires s.main.Watch? && s.waiter.Responding?
    ensures TraceInv(Apply(HandOver(s), GotResponse(s.waiter.resp)))
  {
    ReactsInLoop(s.container, GotResponse(s.waiter.resp));
    hide Lawful, Numbered, CallsNumbered, React;
  }

  lemma WatchKeepsTraceInv(cfg: Config, s: State, a: Action)
    requires WaiterInv(cfg, s) && JointInv(s) && TraceInv(s) && !s.panicked && WatchStep(s, a).Some?
    ensures TraceInv(WatchStep(s, a).value)
  {
    match a {
      case HandleDockerEvent(evt) => ReactsInLoop(s.container, GotEvent(evt));
      case HandleStats(stats) => ReactsInLoop(s.container, GotStats(stats));
      case TakeResponse =>
        ResponseKeepsTraceInv(cfg, s);
        hide WaiterInv, JointInv, TraceInv, Apply, HandOver;
      case TakeWaitError => ReactsInLoop(s.container, GotError(s.waitErrC[0]));
    }
    hide Lawful, WaiterInv, React;
  }

  lemma StepKeeps(cfg: Config, s: State, a: Action)
    requires Inv(cfg, s) && Step(cfg, s, a).Some?
    ensures Inv(cfg, Step(cfg, s, a).value)
  {
    hide WaiterInv, JointInv, TraceInv, EnvironmentStep, WaiterStep, StraightStep, DeliverStep, WatchStep;
    if a.Cancel? || a.ReadState? || a.ReadError? {
      EnvironmentKeeps(cfg, s, a);
    } else if a.ContainerExits? || a.WaitFails? || a.TimerFires? || a.LogLine? || a.SeeCancel? {
      WaiterKeepsWaiterInv(cfg, s, a);
      WaiterKeepsJointInv(cfg, s, a);
      WaiterKeepsTraceInv(cfg, s, a);
    } else if a.DeliverState? {
      DeliverKeeps(cfg, s);
    } else if a.HandleDockerEvent? || a.HandleStats? || a.TakeResponse? || a.TakeWaitError? {
      WatchKeepsWaiterInv(cfg, s, a);
      WatchKeepsJointInv(cfg, s, a);
      WatchKeepsTraceInv(cfg, s, a);
    } else {
      StraightKeeps(cfg, s, a);
    }
  }

  lemma {:induction false} AlwaysInv(cfg: Config, actions: seq<Action>)
    ensures Inv(cfg, After(cfg, actions))
  {
    if actions != [] {
      var init, a := actions[..|actions| - 1], actions[|actions| - 1];
      AlwaysInv(cfg, init);
      var s := After(cfg, init);
      if Step(cfg, s, a).Some? {
        StepKeeps(cfg, s, a);
      }
    }
  }

  // ----- What holds of every run -----

  predicate FollowsProtocol(s: State) {
    var m := s.messages;
    && (forall i :: 0 <= i < |m| && !Final(m[i]) ==> m[i].resp.restartCount == i)
    && (forall i :: 0 <= i < |m| && Final(m[i]) ==> i == |m| - 1)
    && (s.waiter.Stopped? <==> m != [] && Final(m[|m| - 1]))
    && (s.waiter.Responding? ==>
          s.waiter.resp.restartCount == if s.ending == Some(Cancellation) then 0 else s.restarts)
    && (s.waiter.Waiting? ==> s.waiter.count == s.restarts)
    && (forall i :: 0 <= i < |s.calls| ==> s.calls[i] == i)
    && |s.calls| <= s.restarts + 1
  }

  /** The waiter sends restarting responses numbered 0, 1, 2, ..., then at most one terminal
      message. Every number it is about to send, and every count it passes to the policy, is the
      number of successful restarts so far, except that a cancellation is sent with 0. */
  lemma {:induction false} WaiterProtocol(cfg: Config, actions: seq<Action>)
    ensures FollowsProtocol(After(cfg, actions))
  {
    AlwaysInv(cfg, actions);
    WaiterInvMeans(cfg, After(cfg, actions));
    hide Inv, WaiterInv, After, FollowsProtocol;
  }

  lemma WaiterInvMeans(cfg: Config, s: State)
    requires WaiterInv(cfg, s)
    ensures FollowsProtocol(s)
  {
    if s.waiter.Stopped? {
      var init := s.messages[..|s.messages| - 1];
      assert forall i :: 0 <= i < |init| ==> init[i] == s.messages[i];
    }
  }

  /** The trace of reports is a prefix of pulling* created running running (running | restarting)*
      exited; an exit code is there exactly in an exited report, an error only there. */
  lemma TraceLaw(cfg: Config, actions: seq<Action>)
    ensures var s := After(cfg, actions); Lawful(s.reports, s.pulls)
  {
    AlwaysInv(cfg, actions);
  }

  /** Nothing is ever taken back: what a run has sent stays the beginning of what any longer one sends. */
  lemma {:induction false} HistoryGrows(cfg: Config, actions: seq<Action>, more: seq<Action>)
    ensures Appends(After(cfg, actions), After(cfg, actions + more))
  {
    hide After;
    if more == [] {
      assert actions + more == actions;
    } else {
      hide Appends;
      var init, last := more[..|more| - 1], more[|more| - 1];
      HistoryGrows(cfg, actions, init);
      OneMoreAppends(cfg, actions + init, last, After(cfg, actions));
      assert actions + more == actions + init + [last];
    }
  }

  lemma OneMoreAppends(cfg: Config, actions: seq<Action>, a: Action, r: State)
    requires Appends(r, After(cfg, actions))
    ensures Appends(r, After(cfg, actions + [a]))
  {
    assert (actions + [a])[..|actions + [a]| - 1] == actions;
    var s := After(cfg, actions);
    if Step(cfg, s, a).Some? {
      StepAppends(cfg, s, a);
      AppendsFurther(r, s, Step(cfg, s, a).value);
    }
    hide Step, Appends;
  }

  lemma AppendsFurther(r: State, s: State, t: State)
    requires Appends(r, s) && Appends(s, t)
    ensures Appends(r, t)
  {
  }

  predicate Appends(s: State, t: State) {
    s.reports <= t.reports && s.sentErrs <= t.sentErrs && s.messages <= t.messages
  }

  lemma WaiterAppends(cfg: Config, s: State, a: Action)
    requires WaiterStep(cfg, s, a).Some?
    ensures Appends(s, WaiterStep(cfg, s, a).value)
  {
  }

  lemma StraightAppends(cfg: Config, s: State, a: Action)
    requires StraightStep(cfg, s, a).Some?
    ensures Appends(s, StraightStep(cfg, s, a).value)
  {
  }

  lemma DeliverAppends(cfg: Config, s: State)
    requires DeliverStep(cfg, s).Some?
    ensures Appends(s, DeliverStep(cfg, s).value)
  {
  }

  lemma WatchAppends(s: State, a: Action)
    requires WatchStep(s, a).Some?
    ensures Appends(s, WatchStep(s, a).value)
  {
    hide React;
  }

  lemma StepAppends(cfg: Config, s: State, a: Action)
    requires Step(cfg, s, a).Some?
    ensures Appends(s, Step(cfg, s, a).value)
  {
    if a.ContainerExits? || a.WaitFails? || a.TimerFires? || a.LogLine? || a.SeeCancel? {
      WaiterAppends(cfg, s, a);
    } else if a.DeliverState? {
      DeliverAppends(cfg, s);
    } else if a.HandleDockerEvent? || a.HandleStats? || a.TakeResponse? || a.TakeWaitError? {
      WatchAppends(s, a);
    } else if !a.Cancel? && !a.ReadState? && !a.ReadError? {
      StraightAppends(cfg, s, a);
    }
    hide WaiterStep, StraightStep, DeliverStep, WatchStep;
  }

  /** One exited report, the last, or one error and no exited report. */
  predicate EndsOneWay(s: State) {
    && s.errClosed
    && (|s.sentErrs| == 0 <==> HasExited(s))
    && (|s.sentErrs| == 1 <==> forall i :: 0 <= i < |s.reports| ==> s.reports[i].status != Exited)
    && (HasExited(s) ==> ExitMatches(s.reports[|s.reports| - 1], s))
  }

  /** A finished run either sent one exited report, the last, and closed the error channel without
      an error, or it sent exactly one error and no exited report. */
  lemma FinishedRun(cfg: Config, actions: seq<Action>)
    requires After(cfg, actions).main.Finished?
    ensures EndsOneWay(After(cfg, actions))
  {
    AlwaysInv(cfg, actions);
    hide After, Inv, EndsOneWay;
    FinishedMeans(cfg, After(cfg, actions));
  }

  lemma FinishedMeans(cfg: Config, s: State)
    requires Inv(cfg, s) && s.main.Finished?
    ensures EndsOneWay(s)
  {
    hide WaiterInv, JointInv;
    if !HasExited(s) {
      forall i | 0 <= i < |s.reports|
        ensures s.reports[i].status != Exited
      {
        assert i >= s.pulls ==> Allowed(s.reports[i].status, i - s.pulls, |s.reports| - s.pulls);
      }
    }
  }

  /** The consumer of the state channel is behind, and the next report does not fit. */
  predicate WaitsForConsumer(cfg: Config, s: State) {
    s.main.SendState? && |s.stateC| >= cfg.chanSize
  }

  predicate ByTheProgramOrDocker(a: Action) {
    !a.Cancel? && !a.ReadState? && !a.ReadError? && !a.LogLine? && !a.HandleDockerEvent? && !a.HandleStats?
  }

  /** Neither goroutine waits for the other in vain. */
  predicate NoWaitInVain(cfg: Config, s: State) {
    && (s.waiter.Responding? ==> InLoop(s.main))
    && (s.main.Watch? && s.waiter.Responding? && !s.panicked ==> Step(cfg, s, TakeResponse).Some?)
    && (s.main.Watch? && s.waiter.Stopped? ==> Step(cfg, s, TakeWaitError).Some?)
    && (s.main.SendError? && !s.panicked ==> Step(cfg, s, DeliverError).Some?)
    && (s.waiter.Waiting? ==> |s.waitErrC| == 0)
  }

  /** The goroutines never block one another: in every reachable state that is not final, one of them
      can go on, or is waiting for Docker, or for the consumer to read a report. In particular a
      waiter with a response finds the loop running, a loop whose waiter is gone finds an error,
      and neither send on an error channel blocks. */
  lemma {:induction false} NeverStuck(cfg: Config, actions: seq<Action>)
    ensures
      var s := After(cfg, actions);
      && NoWaitInVain(cfg, s)
      && (!s.main.Finished? && !s.panicked && !WaitsForConsumer(cfg, s) ==>
            exists a :: ByTheProgramOrDocker(a) && Step(cfg, s, a).Some?)
  {
    AlwaysInv(cfg, actions);
    var s := After(cfg, actions);
    hide After, Inv, NoWaitInVain, Step, ByTheProgramOrDocker;
    InvMeansNoWaitInVain(cfg, s);
    if !s.main.Finished? && !s.panicked && !WaitsForConsumer(cfg, s) {
      var a := NextAction(cfg, s);
      assert ByTheProgramOrDocker(a) && Step(cfg, s, a).Some?;
    }
  }

  lemma InvMeansNoWaitInVain(cfg: Config, s: State)
    requires Inv(cfg, s)
    ensures NoWaitInVain(cfg, s)
  {
    hide Lawful, React, WaiterStep, DeliverStep, EnvironmentStep;
  }

  /** An action that takes the run on. */
  lemma NextAction(cfg: Config, s: State) returns (a: Action)
    requires Inv(cfg, s) && !s.main.Finished? && !s.panicked && !WaitsForConsumer(cfg, s)
    ensures ByTheProgramOrDocker(a) && Step(cfg, s, a).Some?
  {
    if s.main.Watch? {
      hide Lawful, TraceInv;
      a := NextInLoop(cfg, s);
      hide Step;
    } else {
      hide WaiterInv, JointInv, Lawful, WaiterStep, WatchStep, EnvironmentStep;
      a := NextOutsideLoop(s.main);
    }
  }

  function NextOutsideLoop(m: Main): Action {
    match m
    case Pull => PullDone
    case Create => CreateOk("")
    case Connect => ConnectOk
    case Copy => CopyOk
    case Start => StartOk
    case SendState(_, _) => DeliverState
    case SendError(_) => DeliverError
    case _ => CloseErrors
  }

  lemma NextInLoop(cfg: Config, s: State) returns (a: Action)
    requires WaiterInv(cfg, s) && JointInv(s) && s.main.Watch? && !s.panicked
    ensures ByTheProgramOrDocker(a) && Step(cfg, s, a).Some?
  {
    hide React, Apply, Exits, StraightStep, DeliverStep, EnvironmentStep;
    match s.waiter {
      case Waiting(_, waitOpen, _, _) => a := if waitOpen then WaitFails("") else TimerFires(None);
      case Responding(_, _, _) => a := TakeResponse;
      case Stopped => a := TakeWaitError;
    }
  }

  /** The callback keeps its contract: no error when it asks for a restart. */
  ghost predicate WellBehaved(cfg: Config) {
    cfg.policy.Some? ==>
      forall code, count, logs, time ::
        cfg.policy.value(code, count, logs, time).0 ==> cfg.policy.value(code, count, logs, time).1 == None
  }

  lemma {:induction false} NeverPanics(cfg: Config, actions: seq<Action>)
    requires WellBehaved(cfg)
    ensures !After(cfg, actions).panicked
  {
    if actions != [] {
      var init, a := actions[..|actions| - 1], actions[|actions| - 1];
      NeverPanics(cfg, init);
      StepDoesNotPanic(cfg, After(cfg, init), a);
    }
  }

  lemma WaiterStepDoesNotPanic(cfg: Config, s: State, a: Action)
    requires WellBehaved(cfg) && !s.panicked
    ensures WaiterStep(cfg, s, a).Some? ==> !WaiterStep(cfg, s, a).value.panicked
  {
  }

  lemma StepDoesNotPanic(cfg: Config, s: State, a: Action)
    requires WellBehaved(cfg) && !s.panicked
    ensures Step(cfg, s, a).Some? ==> !Step(cfg, s, a).value.panicked
  {
    WaiterStepDoesNotPanic(cfg, s, a);
    hide React, WaiterStep, WellBehaved;
  }
}
