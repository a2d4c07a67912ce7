/** What the reports of a run contain: those of the image pull, the two of the start, and then exactly what the
    control loop sends on the inputs it took (internal/container/container.go:255-333 and 440-523). */
module RunReports {
  import opened Domain
  import opened ContainerRun

  /** A report with nothing but these. */
  function Bare(id: string, status: ContainerStatus, imageName: string): Container {
    Container(id, status, "", 0.0, 0, 0, 0, ZERO_TIME, imageName, "", "", 0, 0, None, None)
  }

  function PullReport(imageName: string, pullStatus: string, pullProgress: string, percent: int): Container {
    Container("", Pulling, "", 0.0, 0, 0, 0, ZERO_TIME, imageName, pullStatus, pullProgress, percent, 0, None, None)
  }

  /** What has happened to a run, as far as its reports are concerned. steps are those of the setup. */
  datatype Seen = Seen(
    pulls: seq<Container>, steps: seq<Action>, id: Option<string>, started: bool, inputs: seq<Input>)

  const NOTHING := Seen([], [], None, false, [])

  /** The setup, in its order. */
  function Setup(id: string): seq<Action> {
    [PullDone, CreateOk(id), ConnectOk, CopyOk, StartOk]
  }

  function See(cfg: Config, seen: Seen, s: State, a: Action): Seen
    requires Step(cfg, s, a).Some?
  {
    match a
    case PullProgress(status, progress, percent) =>
      seen.(pulls := seen.pulls + [PullReport(cfg.imageName, status, progress, percent)])
    case PullDone => seen.(steps := seen.steps + [a])
    case CreateOk(id) => seen.(steps := seen.steps + [a], id := Some(id))
    case ConnectOk => seen.(steps := seen.steps + [a])
    case CopyOk => seen.(steps := seen.steps + [a])
    case StartOk => seen.(steps := seen.steps + [a], started := true)
    case HandleDockerEvent(evt) => seen.(inputs := seen.inputs + [GotEvent(evt)])
    case HandleStats(stats) => seen.(inputs := seen.inputs + [GotStats(stats)])
    case TakeResponse => seen.(inputs := seen.inputs + [GotResponse(s.waiter.resp)])
    case TakeWaitError => seen.(inputs := seen.inputs + [GotError(s.waitErrC[0])])
    case _ => seen
  }

  ghost function SeenIn(cfg: Config, actions: seq<Action>): Seen {
    if actions == [] then NOTHING
    else
      var init, a := actions[..|actions| - 1], actions[|actions| - 1];
      if Step(cfg, After(cfg, init), a).Some? then See(cfg, SeenIn(cfg, init), After(cfg, init), a)
      else SeenIn(cfg, init)
  }

  /** The control loop, on what it took. */
  ghost function LoopOf(cfg: Config, seen: Seen): LoopRun
    requires seen.id.Some?
  {
    RunOf(Bare(seen.id.value, Running, cfg.imageName), seen.inputs)
  }

  ghost function Due(cfg: Config, seen: Seen, spawned: bool): seq<Container> {
    seen.pulls +
    (if seen.id.None? then []
     else [Bare(seen.id.value, Created, "")] +
          (if seen.started then [Bare(seen.id.value, Running, "")] else []) +
          (if spawned then LoopOf(cfg, seen).sent else []))
  }

  /** The reports sent, and the one being sent. */
  function Offered(s: State): seq<Container> {
    s.reports + (if s.main.SendState? then [s.main.state] else [])
  }

  ghost predicate ReportsInv(cfg: Config, s: State, seen: Seen) {
    && Offered(s) == Due(cfg, seen, !s.waiter.NotSpawned?)
    && (s.waiter.NotSpawned? ==> seen.inputs == [])
    && (!s.waiter.NotSpawned? ==>
          && seen.id.Some? && seen.started
          && s.container == LoopOf(cfg, seen).state
          && (InLoop(s.main) <==> LoopOf(cfg, seen).outcome == Continue))
    && SetupInv(s, seen)
  }

  predicate SetupInv(s: State, seen: Seen) {
    var steps := Setup(s.container.id);
    && (seen.started <==> seen.steps == steps)
    && (seen.id == if |seen.steps| < 2 then None else Some(s.container.id))
    && seen.steps <= steps
    && (!s.waiter.NotSpawned? ==> seen.started)
    && match s.main
       case Pull => seen.steps == []
       case SendState(_, ToPull) => seen.steps == []
       case Create => seen.steps == steps[..1]
       case SendState(_, ToConnect) => seen.steps == steps[..2]
       case Connect => seen.steps == steps[..2]
       case Copy => seen.steps == steps[..3]
       case Start => seen.steps == steps[..4]
       case SendState(_, ToSpawn) => seen.started
       case _ => true
  }

  lemma RunOfNone(initial: Container)
    ensures RunOf(initial, []) == LoopRun(initial, [initial], Continue)
  {
  }

  lemma RunOfOneMore(initial: Container, inputs: seq<Input>, x: Input)
    requires RunOf(initial, inputs).outcome == Continue
    ensures
      var before, r := RunOf(initial, inputs), React(RunOf(initial, inputs).state, x);
      RunOf(initial, inputs + [x]) ==
      LoopRun(r.state, before.sent + (if r.send then [r.state] else []), r.outcome)
  {
    assert (inputs + [x])[..|inputs + [x]| - 1] == inputs;
    hide React;
  }

  /** The report that an action of the setup adds. */
  function Added(cfg: Config, s: State, a: Action): seq<Container> {
    match a
    case PullProgress(status, progress, percent) => [PullReport(cfg.imageName, status, progress, percent)]
    case CreateOk(id) => [Bare(id, Created, "")]
    case StartOk => [Bare(s.container.id, Running, "")]
    case _ => []
  }

  lemma StraightOffers(cfg: Config, s: State, a: Action)
    requires StraightStep(cfg, s, a).Some?
    ensures Offered(StraightStep(cfg, s, a).value) == Offered(s) + Added(cfg, s, a)
  {
  }

  lemma DueAdded(cfg: Config, s: State, a: Action, seen: Seen)
    requires ReportsInv(cfg, s, seen) && ContainerRun.JointInv(s) && Step(cfg, s, a).Some?
    requires StraightStep(cfg, s, a).Some? && Step(cfg, s, a) == StraightStep(cfg, s, a)
    ensures Due(cfg, See(cfg, seen, s, a), !s.waiter.NotSpawned?) ==
            Due(cfg, seen, !s.waiter.NotSpawned?) + Added(cfg, s, a)
  {
    hide RunOf, Step, WaiterStep, WatchStep, DeliverStep;
  }

  lemma StraightKeepsSetupInv(cfg: Config, s: State, a: Action, seen: Seen)
    requires SetupInv(s, seen) && ContainerRun.JointInv(s)
    requires StraightStep(cfg, s, a).Some? && Step(cfg, s, a) == StraightStep(cfg, s, a)
    ensures SetupInv(StraightStep(cfg, s, a).value, See(cfg, seen, s, a))
  {
    hide Step;
  }

  /** Setting up. */
  lemma StraightKeepsReportsInv(cfg: Config, s: State, a: Action, seen: Seen)
    requires ReportsInv(cfg, s, seen) && ContainerRun.JointInv(s) && !s.panicked
    requires StraightStep(cfg, s, a).Some? && Step(cfg, s, a) == StraightStep(cfg, s, a)
    ensures ReportsInv(cfg, StraightStep(cfg, s, a).value, See(cfg, seen, s, a))
  {
    StraightOffers(cfg, s, a);
    DueAdded(cfg, s, a, seen);
    StraightKeepsSetupInv(cfg, s, a, seen);
    hide RunOf, Step, Due, Offered, Added, SetupInv;
  }

  lemma DeliverKeepsReportsInv(cfg: Config, s: State, seen: Seen)
    requires ReportsInv(cfg, s, seen) && ContainerRun.JointInv(s) && TraceInv(s) && !s.panicked
    requires DeliverStep(cfg, s).Some?
    ensures ReportsInv(cfg, DeliverStep(cfg, s).value, seen)
  {
    if s.main.next == ToSpawn {
      RunOfNone(Bare(seen.id.value, Running, cfg.imageName));
    }
    hide RunOf, Lawful;
  }

  /** A turn of the control loop. */
  lemma ApplyOffers(s: State, x: Input)
    requires s.main.Watch?
    ensures var r := React(s.container, x);
            Offered(Apply(s, x)) == Offered(s) + (if r.send then [r.state] else [])
  {
  }

  lemma DueInLoop(cfg: Config, seen: Seen, x: Input)
    requires seen.id.Some? && LoopOf(cfg, seen).outcome == Continue
    ensures
      var more := seen.(inputs := seen.inputs + [x]);
      var r := React(LoopOf(cfg, seen).state, x);
      && LoopOf(cfg, more).state == r.state && LoopOf(cfg, more).outcome == r.outcome
      && Due(cfg, more, true) == Due(cfg, seen, true) + (if r.send then [r.state] else [])
  {
    RunOfOneMore(Bare(seen.id.value, Running, cfg.imageName), seen.inputs, x);
    hide RunOf, React;
  }

  lemma ApplyKeepsSetup(s: State, x: Input, seen: Seen)
    requires SetupInv(s, seen) && s.main.Watch? && !s.waiter.NotSpawned?
    ensures SetupInv(Apply(s, x), seen.(inputs := seen.inputs + [x]))
  {
    SameID(s.container, x);
    hide React;
  }

  lemma SameID(c: Container, x: Input)
    ensures React(c, x).state.id == c.id
  {
  }

  lemma ApplyKeepsReportsInv(cfg: Config, s: State, x: Input, seen: Seen)
    requires ReportsInv(cfg, s, seen) && s.main.Watch? && !s.waiter.NotSpawned?
    ensures ReportsInv(cfg, Apply(s, x), seen.(inputs := seen.inputs + [x]))
  {
    ApplyOffers(s, x);
    DueInLoop(cfg, seen, x);
    ApplyKeepsSetup(s, x, seen);
    hide RunOf, React, Due, LoopOf, Offered, SetupInv;
  }

  /** The invariant looks at nothing else. */
  lemma ReportsInvFrame(cfg: Config, s: State, t: State, seen: Seen)
    requires ReportsInv(cfg, s, seen)
    requires t.main == s.main && t.container == s.container && t.reports == s.reports
    requires t.waiter.NotSpawned? == s.waiter.NotSpawned?
    ensures ReportsInv(cfg, t, seen)
  {
    hide LoopOf, Due;
  }

  lemma WaiterStaysSpawned(cfg: Config, s: State, a: Action)
    requires WaiterStep(cfg, s, a).Some?
    ensures !s.waiter.NotSpawned? && !WaiterStep(cfg, s, a).value.waiter.NotSpawned?
  {
  }

  lemma WatchKeepsReportsInv(cfg: Config, s: State, a: Action, seen: Seen)
    requires ReportsInv(cfg, s, seen) && ContainerRun.JointInv(s) && !s.panicked
    requires WatchStep(s, a).Some? && Step(cfg, s, a) == WatchStep(s, a)
    ensures ReportsInv(cfg, WatchStep(s, a).value, See(cfg, seen, s, a))
  {
    hide Step, ReportsInv, Apply;
    match a {
      case HandleDockerEvent(evt) => ApplyKeepsReportsInv(cfg, s, GotEvent(evt), seen);
      case HandleStats(stats) => ApplyKeepsReportsInv(cfg, s, GotStats(stats), seen);
      case TakeResponse =>
        ReportsInvFrame(cfg, s, HandOver(s), seen);
        ApplyKeepsReportsInv(cfg, HandOver(s), GotResponse(s.waiter.resp), seen);
      case TakeWaitError =>
        ReportsInvFrame(cfg, s, s.(waitErrC := s.waitErrC[1..]), seen);
        ApplyKeepsReportsInv(cfg, s.(waitErrC := s.waitErrC[1..]), GotError(s.waitErrC[0]), seen);
    }
  }

  lemma StepKeepsReportsInv(cfg: Config, s: State, a: Action, seen: Seen)
    requires Inv(cfg, s) && ReportsInv(cfg, s, seen) && Step(cfg, s, a).Some?
    ensures ReportsInv(cfg, Step(cfg, s, a).value, See(cfg, seen, s, a))
  {
    hide ReportsInv, WaiterInv, ContainerRun.JointInv, TraceInv, WaiterStep, StraightStep, DeliverStep, WatchStep;
    if a.Cancel? || a.ReadState? || a.ReadError? {
      ReportsInvFrame(cfg, s, Step(cfg, s, a).value, seen);
    } else if a.ContainerExits? || a.WaitFails? || a.TimerFires? || a.LogLine? || a.SeeCancel? {
      WaiterStaysSpawned(cfg, s, a);
      WaiterStepFrame(cfg, s, a);
      ReportsInvFrame(cfg, s, Step(cfg, s, a).value, seen);
    } else if a.DeliverState? {
      DeliverKeepsReportsInv(cfg, s, seen);
    } else if a.HandleDockerEvent? || a.HandleStats? || a.TakeResponse? || a.TakeWaitError? {
      WatchKeepsReportsInv(cfg, s, a, seen);
    } else {
      StraightKeepsReportsInv(cfg, s, a, seen);
    }
  }

  lemma {:induction false} AlwaysReportsInv(cfg: Config, actions: seq<Action>)
    ensures ReportsInv(cfg, After(cfg, actions), SeenIn(cfg, actions))
  {
    if actions != [] {
      var init, a := actions[..|actions| - 1], actions[|actions| - 1];
      AlwaysReportsInv(cfg, init);
      AlwaysInv(cfg, init);
      if Step(cfg, After(cfg, init), a).Some? {
        StepKeepsReportsInv(cfg, After(cfg, init), a, SeenIn(cfg, init));
      }
      hide ReportsInv, Inv, Step, See;
    }
  }

  /** In every run: the setup is done step by step in its order, and the loop starts when it is complete. What
      has been sent, and is being sent, to the state channel is one report for each
      progress message of the pull, the created one, the running one, both with the new container's ID, and
      then what the control loop sends, run on the events, statistics, responses and errors it took. */
  lemma {:induction false} ReportsAreDue(cfg: Config, actions: seq<Action>)
    ensures
      var s := After(cfg, actions);
      && Offered(s) == Due(cfg, SeenIn(cfg, actions), !s.waiter.NotSpawned?)
      && SeenIn(cfg, actions).steps <= Setup(s.container.id)
      && (SeenIn(cfg, actions).started <==> SeenIn(cfg, actions).steps == Setup(s.container.id))
      && (!s.waiter.NotSpawned? ==>
            && SeenIn(cfg, actions).id.Some? && SeenIn(cfg, actions).started
            && s.container == LoopOf(cfg, SeenIn(cfg, actions)).state
            && (InLoop(s.main) <==> LoopOf(cfg, SeenIn(cfg, actions)).outcome == Continue))
  {
    AlwaysReportsInv(cfg, actions);
    hide After, SeenIn, Offered, Due, LoopOf;
  }
}
