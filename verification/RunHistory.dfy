/** What a run of a container says, read off what happened to it: the accepted actions of ContainerRun, that
    is, Docker's answers, exits, log lines and timers (internal/container/container.go:255-614). */
module RunHistory {
  import opened Domain
  import opened ContainerRun

  /** Action k happened. */
  ghost predicate Accepted(cfg: Config, actions: seq<Action>, k: nat) {
    k < |actions| && Step(cfg, After(cfg, actions[..k]), actions[k]).Some?
  }

  /** The last action of a list happened. */
  ghost predicate LastAccepted(cfg: Config, actions: seq<Action>)
    requires actions != []
  {
    Step(cfg, After(cfg, actions[..|actions| - 1]), actions[|actions| - 1]).Some?
  }

  function RestartsWith(restarts: nat, a: Action): nat {
    if a == TimerFires(None) then restarts + 1 else restarts
  }

  function LinesWith(lines: seq<string>, a: Action): seq<string> {
    if a == TimerFires(None) then [] else if a.LogLine? then lines + [a.line] else lines
  }

  /** How often a timer has fired and the container was started again. */
  ghost function Restarts(cfg: Config, actions: seq<Action>): nat {
    if actions == [] then 0
    else
      var before := Restarts(cfg, actions[..|actions| - 1]);
      if LastAccepted(cfg, actions) then RestartsWith(before, actions[|actions| - 1]) else before
  }

  /** The lines logged since the container was last started. */
  ghost function Lines(cfg: Config, actions: seq<Action>): seq<string> {
    if actions == [] then []
    else
      var before := Lines(cfg, actions[..|actions| - 1]);
      if LastAccepted(cfg, actions) then LinesWith(before, actions[|actions| - 1]) else before
  }

  /** What is to be done about an exit: restart, or end with an error or none. */
  function Decision(cfg: Config, code: int, count: nat, lines: seq<string>, time: int): (bool, Option<Error>) {
    match cfg.policy
    case None => (false, None)
    case Some(policy) => policy(code, count, lines, time)
  }

  // ----- The waiter -----

  predicate WaiterSaw(s: State, restarts: nat, lines: seq<string>) {
    && s.restarts == restarts
    && match s.waiter
       case NotSpawned => restarts == 0 && lines == []
       case Waiting(count, _, _, logs) => count == restarts && logs == lines
       case Responding(count, logs, _) => count == restarts && logs == lines
       case Stopped => true
  }

  lemma WaiterKeepsWaiterSaw(cfg: Config, s: State, a: Action, restarts: nat, lines: seq<string>)
    requires WaiterSaw(s, restarts, lines) && WaiterStep(cfg, s, a).Some?
    ensures WaiterSaw(WaiterStep(cfg, s, a).value, RestartsWith(restarts, a), LinesWith(lines, a))
  {
  }

  lemma WatchKeepsWaiterSaw(s: State, a: Action, restarts: nat, lines: seq<string>)
    requires WaiterSaw(s, restarts, lines) && WatchStep(s, a).Some?
    ensures WaiterSaw(WatchStep(s, a).value, restarts, lines)
  {
    hide React;
  }

  lemma DeliverKeepsWaiterSaw(cfg: Config, s: State, restarts: nat, lines: seq<string>)
    requires WaiterSaw(s, restarts, lines) && JointInv(s) && DeliverStep(cfg, s).Some?
    ensures WaiterSaw(DeliverStep(cfg, s).value, restarts, lines)
  {
  }

  lemma StepKeepsWaiterSaw(cfg: Config, s: State, a: Action, restarts: nat, lines: seq<string>)
    requires WaiterSaw(s, restarts, lines) && JointInv(s) && Step(cfg, s, a).Some?
    ensures WaiterSaw(Step(cfg, s, a).value, RestartsWith(restarts, a), LinesWith(lines, a))
  {
    if a.ContainerExits? || a.WaitFails? || a.TimerFires? || a.LogLine? || a.SeeCancel? {
      WaiterKeepsWaiterSaw(cfg, s, a, restarts, lines);
      hide WaiterSaw;
    } else if a.HandleDockerEvent? || a.HandleStats? || a.TakeResponse? || a.TakeWaitError? {
      WatchKeepsWaiterSaw(s, a, restarts, lines);
      hide WaiterSaw;
    } else if a.DeliverState? {
      DeliverKeepsWaiterSaw(cfg, s, restarts, lines);
      hide DeliverStep, WaiterSaw;
    } else if !a.Cancel? && !a.ReadState? && !a.ReadError? {
      StraightLeavesWaiter(cfg, s, a);
      hide StraightStep;
    }
    hide WaiterStep, WatchStep;
  }

  lemma {:induction false} AlwaysWaiterSaw(cfg: Config, actions: seq<Action>)
    ensures WaiterSaw(After(cfg, actions), Restarts(cfg, actions), Lines(cfg, actions))
  {
    if actions != [] {
      var init, a := actions[..|actions| - 1], actions[|actions| - 1];
      AlwaysWaiterSaw(cfg, init);
      AlwaysInv(cfg, init);
      if LastAccepted(cfg, actions) {
        StepKeepsWaiterSaw(cfg, After(cfg, init), a, Restarts(cfg, init), Lines(cfg, init));
      }
    }
    hide Step, WaiterSaw, WaiterInv, ContainerRun.JointInv, TraceInv;
  }

  /** What is answered to an exit, given what has been seen. */
  predicate ExitAnswered(cfg: Config, s: State, t: State, code: int, count: nat, lines: seq<string>, time: int) {
    var decision := Decision(cfg, code, count, lines, time);
    && t.calls == (if cfg.policy.Some? then s.calls + [count] else s.calls)
    && if decision.0 && decision.1.Some? then t.panicked
       else
         && t.waiter.Responding?
         && t.waiter.resp == Response(code, decision.0, count, decision.1)
         && t.ending == (if decision.0 then None else Some(Exit(code, count, lines, time, decision.1)))
  }

  lemma ExitStep(cfg: Config, s: State, code: int, time: int, count: nat, lines: seq<string>)
    requires WaiterInv(cfg, s) && WaiterSaw(s, count, lines) && WaiterStep(cfg, s, ContainerExits(code, time)).Some?
    ensures ExitAnswered(cfg, s, WaiterStep(cfg, s, ContainerExits(code, time)).value, code, count, lines, time)
  {
  }

  /** Every exit that happens is decided on the code and the running time that Docker and the clock gave, on
      the number of restarts so far and on the lines logged since the last start; and what is answered
      says so. */
  lemma {:induction false} ExitIsDecided(cfg: Config, actions: seq<Action>, code: int, time: int)
    requires Step(cfg, After(cfg, actions), ContainerExits(code, time)).Some?
    ensures ExitAnswered(cfg, After(cfg, actions), Step(cfg, After(cfg, actions), ContainerExits(code, time)).value,
                         code, Restarts(cfg, actions), Lines(cfg, actions), time)
  {
    AlwaysWaiterSaw(cfg, actions);
    AlwaysInv(cfg, actions);
    hide After, Restarts, Lines, TraceInv, ContainerRun.JointInv, WaiterInv, WaiterStep, ExitAnswered, WaiterSaw;
    ExitStep(cfg, After(cfg, actions), code, time, Restarts(cfg, actions), Lines(cfg, actions));
  }

  // ----- Why a run ended -----

  ghost predicate Happened(cfg: Config, actions: seq<Action>, a: Action) {
    exists k: nat :: Accepted(cfg, actions, k) && actions[k] == a
  }

  lemma {:induction false} AcceptedBefore(cfg: Config, actions: seq<Action>, k: nat)
    requires actions != [] && Accepted(cfg, actions[..|actions| - 1], k)
    ensures Accepted(cfg, actions, k) && actions[k] == actions[..|actions| - 1][k]
    ensures actions[..|actions| - 1][..k] == actions[..k]
  {
    assert actions[..|actions| - 1][..k] == actions[..k];
  }

  lemma {:induction false} HappenedSnoc(cfg: Config, actions: seq<Action>, a: Action)
    requires actions != []
    requires Happened(cfg, actions[..|actions| - 1], a) || (LastAccepted(cfg, actions) && actions[|actions| - 1] == a)
    ensures Happened(cfg, actions, a)
  {
    hide Step;
    if Happened(cfg, actions[..|actions| - 1], a) {
      var k: nat :| Accepted(cfg, actions[..|actions| - 1], k) && actions[..|actions| - 1][k] == a;
      AcceptedBefore(cfg, actions, k);
    } else {
      assert Accepted(cfg, actions, |actions| - 1);
    }
  }

  /** An error that is somewhere in a run. */
  predicate ErrorIn(s: State, err: Error) {
    s.main == SendError(err) || err in s.sentErrs || err in s.errC || err in s.waitErrC || Failed(err) in s.messages
  }

  predicate Raises(a: Action, err: Error) {
    a == SetupFails(err) || a == WaitFails(err) || a == TimerFires(Some(err))
  }

  lemma WaiterFailsErrors(s: State, raised: Error, why: Ending, err: Error)
    requires WaiterFails(s, raised, why).Some? && ErrorIn(WaiterFails(s, raised, why).value, err)
    ensures ErrorIn(s, err) || err == raised
  {
  }

  lemma WaiterErrors(cfg: Config, s: State, a: Action, err: Error)
    requires WaiterStep(cfg, s, a).Some? && ErrorIn(WaiterStep(cfg, s, a).value, err)
    ensures ErrorIn(s, err) || Raises(a, err)
  {
    if a.WaitFails? {
      WaiterFailsErrors(s, a.err, WaitFailure, err);
      hide WaiterFails, ErrorIn;
    } else if a.TimerFires? && a.startErr.Some? {
      WaiterFailsErrors(s, a.startErr.value, RestartFailure, err);
      hide WaiterFails, ErrorIn;
    }
    hide WaiterFails;
  }

  lemma MainErrors(cfg: Config, s: State, a: Action, err: Error)
    ensures StraightStep(cfg, s, a).Some? && ErrorIn(StraightStep(cfg, s, a).value, err) ==>
              ErrorIn(s, err) || Raises(a, err)
  {
  }

  lemma DeliverErrors(cfg: Config, s: State, err: Error)
    ensures DeliverStep(cfg, s).Some? && ErrorIn(DeliverStep(cfg, s).value, err) ==> ErrorIn(s, err)
  {
  }

  lemma WatchErrors(s: State, a: Action, err: Error)
    requires WatchStep(s, a).Some? && ErrorIn(WatchStep(s, a).value, err)
    ensures ErrorIn(s, err)
  {
  }

  lemma StepErrors(cfg: Config, s: State, a: Action, err: Error)
    requires Step(cfg, s, a).Some? && ErrorIn(Step(cfg, s, a).value, err)
    ensures ErrorIn(s, err) || Raises(a, err)
  {
    if a.ContainerExits? || a.WaitFails? || a.TimerFires? || a.LogLine? || a.SeeCancel? {
      WaiterErrors(cfg, s, a, err);
      hide WaiterStep, ErrorIn, Raises;
    } else if a.HandleDockerEvent? || a.HandleStats? || a.TakeResponse? || a.TakeWaitError? {
      WatchErrors(s, a, err);
      hide WatchStep, ErrorIn, Raises;
    } else if a.DeliverState? {
      DeliverErrors(cfg, s, err);
      hide DeliverStep, ErrorIn, Raises;
    } else if !a.Cancel? && !a.ReadState? && !a.ReadError? {
      MainErrors(cfg, s, a, err);
      hide StraightStep, ErrorIn, Raises;
    }
  }

  /** Whatever error there is in a run, something that happened has raised it. */
  lemma {:induction false} ErrorsAreRaised(cfg: Config, actions: seq<Action>, err: Error)
    requires ErrorIn(After(cfg, actions), err)
    ensures exists a :: Raises(a, err) && Happened(cfg, actions, a)
  {
    if actions != [] {
      var init, last := actions[..|actions| - 1], actions[|actions| - 1];
      if LastAccepted(cfg, actions) {
        StepErrors(cfg, After(cfg, init), last, err);
      }
      hide Step, ErrorIn, Raises;
      if ErrorIn(After(cfg, init), err) {
        ErrorsAreRaised(cfg, init, err);
        var a :| Raises(a, err) && Happened(cfg, init, a);
        HappenedSnoc(cfg, actions, a);
      } else {
        HappenedSnoc(cfg, actions, last);
      }
    }
  }

  /** The action that made the waiter end the run, and what was seen when it happened. */
  predicate Explains(cfg: Config, ending: Ending, a: Action, count: nat, lines: seq<string>) {
    match ending
    case Exit(code, n, logs, time, err) =>
      && a == ContainerExits(code, time) && n == count && logs == lines
      && Decision(cfg, code, count, lines, time) == (false, err)
    case Cancellation => a == SeeCancel
    case WaitFailure => a.WaitFails?
    case RestartFailure => a.TimerFires? && a.startErr.Some?
  }

  lemma WaiterStepEnding(cfg: Config, s: State, a: Action, count: nat, lines: seq<string>)
    requires WaiterInv(cfg, s) && WaiterSaw(s, count, lines) && WaiterStep(cfg, s, a).Some?
    ensures var t := WaiterStep(cfg, s, a).value;
            t.ending != s.ending ==>
              && s.ending == None && t.ending.Some? && Explains(cfg, t.ending.value, a, count, lines)
              && (a.SeeCancel? ==> s.cancelled)
  {
    hide Numbered, CallsNumbered;
  }

  lemma OtherStepEnding(cfg: Config, s: State, a: Action)
    requires Step(cfg, s, a).Some?
    requires !a.ContainerExits? && !a.WaitFails? && !a.TimerFires? && !a.LogLine? && !a.SeeCancel?
    ensures Step(cfg, s, a).value.ending == s.ending
  {
    hide React, WaiterStep;
  }

  ghost predicate Explained(cfg: Config, actions: seq<Action>, ending: Ending, k: nat) {
    && Accepted(cfg, actions, k)
    && Explains(cfg, ending, actions[k], Restarts(cfg, actions[..k]), Lines(cfg, actions[..k]))
    && (ending == Cancellation ==> After(cfg, actions[..k]).cancelled)
  }

  lemma StepEnding(cfg: Config, s: State, a: Action, count: nat, lines: seq<string>)
    requires Inv(cfg, s) && WaiterSaw(s, count, lines) && Step(cfg, s, a).Some?
    ensures var t := Step(cfg, s, a).value;
            t.ending != s.ending ==>
              && t.ending.Some? && Explains(cfg, t.ending.value, a, count, lines)
              && (t.ending == Some(Cancellation) ==> s.cancelled)
  {
    if a.ContainerExits? || a.WaitFails? || a.TimerFires? || a.LogLine? || a.SeeCancel? {
      WaiterStepEnding(cfg, s, a, count, lines);
      hide WaiterStep, WaiterInv, ContainerRun.JointInv, TraceInv, WaiterSaw;
    } else {
      OtherStepEnding(cfg, s, a);
      hide Step, WaiterInv, ContainerRun.JointInv, TraceInv, WaiterSaw, Explains;
    }
  }

  /** The waiter ended the run because of something that happened, as it was seen then. */
  lemma {:induction false} EndingIsExplained(cfg: Config, actions: seq<Action>)
    ensures var ending := After(cfg, actions).ending;
            ending.Some? ==> exists k: nat :: Explained(cfg, actions, ending.value, k)
  {
    if actions != [] {
      var init, a := actions[..|actions| - 1], actions[|actions| - 1];
      EndingIsExplained(cfg, init);
      AlwaysWaiterSaw(cfg, init);
      AlwaysInv(cfg, init);
      var s, t := After(cfg, init), After(cfg, actions);
      if LastAccepted(cfg, actions) {
        StepEnding(cfg, s, a, Restarts(cfg, init), Lines(cfg, init));
      }
      hide Step, Inv, WaiterSaw, Explains, Restarts, Lines, Explained;
      if t.ending.Some? && t.ending == s.ending {
        var k: nat :| Explained(cfg, init, t.ending.value, k);
        ExplainedBefore(cfg, actions, t.ending.value, k);
      } else if t.ending.Some? {
        ExplainedLast(cfg, actions, t.ending.value);
      }
    }
  }

  lemma {:induction false} ExplainedBefore(cfg: Config, actions: seq<Action>, ending: Ending, k: nat)
    requires actions != [] && Explained(cfg, actions[..|actions| - 1], ending, k)
    ensures Explained(cfg, actions, ending, k)
  {
    AcceptedBefore(cfg, actions, k);
    hide After, Step, Restarts, Lines, Explains;
  }

  lemma {:induction false} ExplainedLast(cfg: Config, actions: seq<Action>, ending: Ending)
    requires actions != [] && LastAccepted(cfg, actions)
    requires
      var init := actions[..|actions| - 1];
      && Explains(cfg, ending, actions[|actions| - 1], Restarts(cfg, init), Lines(cfg, init))
      && (ending == Cancellation ==> After(cfg, init).cancelled)
    ensures Explained(cfg, actions, ending, |actions| - 1)
  {
    hide After, Step, Restarts, Lines, Explains;
  }

  lemma WaiterLeavesContext(cfg: Config, s: State, a: Action)
    requires WaiterStep(cfg, s, a).Some?
    ensures WaiterStep(cfg, s, a).value.cancelled == s.cancelled
  {
  }

  lemma OtherStepsLeaveContext(cfg: Config, s: State, a: Action)
    ensures StraightStep(cfg, s, a).Some? ==> StraightStep(cfg, s, a).value.cancelled == s.cancelled
    ensures WatchStep(s, a).Some? ==> WatchStep(s, a).value.cancelled == s.cancelled
    ensures DeliverStep(cfg, s).Some? ==> DeliverStep(cfg, s).value.cancelled == s.cancelled
  {
    hide React;
  }

  lemma CancelStep(cfg: Config, s: State, a: Action)
    requires Step(cfg, s, a).Some?
    ensures Step(cfg, s, a).value.cancelled == (s.cancelled || a == Cancel)
  {
    if a.ContainerExits? || a.WaitFails? || a.TimerFires? || a.LogLine? || a.SeeCancel? {
      WaiterLeavesContext(cfg, s, a);
    } else {
      OtherStepsLeaveContext(cfg, s, a);
    }
    hide StraightStep, WatchStep, DeliverStep, WaiterStep;
  }

  lemma {:induction false} CancelledIff(cfg: Config, actions: seq<Action>)
    ensures After(cfg, actions).cancelled <==> Happened(cfg, actions, Cancel)
  {
    if actions != [] {
      var init, a := actions[..|actions| - 1], actions[|actions| - 1];
      CancelledIff(cfg, init);
      if LastAccepted(cfg, actions) {
        CancelStep(cfg, After(cfg, init), a);
      }
      hide Step;
      if Happened(cfg, init, Cancel) || (LastAccepted(cfg, actions) && a == Cancel) {
        HappenedSnoc(cfg, actions, Cancel);
      }
      if Happened(cfg, actions, Cancel) {
        var k: nat :| Accepted(cfg, actions, k) && actions[k] == Cancel;
        if k < |init| {
          assert init[..k] == actions[..k];
          assert Accepted(cfg, init, k);
        }
      }
    }
  }

  // ----- What a finished run says -----

  /** An error that was raised, or the exit that was decided to be final, or a cancellation. */
  ghost predicate SaysWhy(cfg: Config, actions: seq<Action>, s: State, k: nat) {
    && Accepted(cfg, actions, k)
    && if s.sentErrs != [] then s.sentErrs == [s.sentErrs[0]] && Raises(actions[k], s.sentErrs[0]) && !HasExited(s)
       else
         && HasExited(s)
         && var last := s.reports[|s.reports| - 1];
            match actions[k]
            case SeeCancel =>
              Happened(cfg, actions, Cancel) && last.exitCode == Some(0) && last.restartCount == 0 && last.err == None
            case ContainerExits(code, time) =>
              && last.exitCode == Some(code) && last.restartCount == Restarts(cfg, actions)
              && Decision(cfg, code, Restarts(cfg, actions), Lines(cfg, actions[..k]), time) == (false, last.err)
            case _ => false
  }

  /** A finished run says why it ended, and truly: it has sent the one error that was raised, or its exited
      report shows the exit that was decided to be final, or the cancellation. */
  lemma {:induction false} FinishedRunSaysWhy(cfg: Config, actions: seq<Action>)
    requires After(cfg, actions).main.Finished?
    ensures exists k: nat :: SaysWhy(cfg, actions, After(cfg, actions), k)
  {
    hide *;
    FinishedFacts(cfg, actions);
    var s := After(cfg, actions);
    if s.sentErrs != [] {
      var k := ErrorSaysWhy(cfg, actions);
    } else {
      EndingIsExplained(cfg, actions);
      var k: nat :| Explained(cfg, actions, s.ending.value, k);
      ExitSaysWhy(cfg, actions, k);
    }
  }

  lemma {:induction false} FinishedFacts(cfg: Config, actions: seq<Action>)
    requires After(cfg, actions).main.Finished?
    ensures var s := After(cfg, actions);
            EndsOneWay(s) && (s.sentErrs == [] ==> s.ending.Some?) && |s.sentErrs| <= 1
  {
    FinishedRun(cfg, actions);
    AlwaysInv(cfg, actions);
    AtMostOne(cfg, After(cfg, actions));
    OneWayFacts(After(cfg, actions));
    hide *;
  }

  lemma OneWayFacts(s: State)
    requires EndsOneWay(s)
    ensures s.sentErrs == [] ==> s.ending.Some?
  {
    hide ExitMatches;
    if HasExited(s) {
      EndingOfExited(s);
    }
  }

  lemma EndingOfExited(s: State)
    requires HasExited(s) && ExitMatches(s.reports[|s.reports| - 1], s)
    ensures s.ending.Some?
  {
  }

  lemma {:induction false} ErrorSaysWhy(cfg: Config, actions: seq<Action>) returns (k: nat)
    requires var s := After(cfg, actions); EndsOneWay(s) && |s.sentErrs| == 1
    ensures SaysWhy(cfg, actions, After(cfg, actions), k)
  {
    var s := After(cfg, actions);
    hide After, Step;
    var err := s.sentErrs[0];
    ErrorsAreRaised(cfg, actions, err);
    hide Raises;
    var a :| Raises(a, err) && Happened(cfg, actions, a);
    k :| Accepted(cfg, actions, k) && actions[k] == a;
    hide Accepted, ErrorIn;
    assert s.sentErrs == [err];
  }

  lemma {:induction false} RestartsAreCounted(cfg: Config, actions: seq<Action>)
    ensures After(cfg, actions).restarts == Restarts(cfg, actions)
  {
    AlwaysWaiterSaw(cfg, actions);
    hide After, Restarts, Lines;
  }

  lemma {:induction false} CancelHappened(cfg: Config, actions: seq<Action>, k: nat)
    requires Explained(cfg, actions, Cancellation, k)
    ensures Happened(cfg, actions, Cancel)
  {
    assert k < |actions|;
    hide Step, Accepted, Restarts, Lines;
    CancelledStays(cfg, actions, k);
    CancelledIff(cfg, actions);
    hide After;
  }

  lemma {:induction false} ExitSaysWhy(cfg: Config, actions: seq<Action>, k: nat)
    requires
      var s := After(cfg, actions);
      && EndsOneWay(s) && s.sentErrs == [] && s.ending.Some? && Explained(cfg, actions, s.ending.value, k)
    ensures SaysWhy(cfg, actions, After(cfg, actions), k)
  {
    RestartsAreCounted(cfg, actions);
    hide After;
    var s := After(cfg, actions);
    if s.ending == Some(Cancellation) {
      CancelHappened(cfg, actions, k);
    }
    assert Accepted(cfg, actions, k) && k < |actions|;
    hide Accepted, Restarts, Lines, Happened, Decision, Step;
  }

  lemma {:induction false} CancelledStays(cfg: Config, actions: seq<Action>, k: nat)
    requires k <= |actions| && After(cfg, actions[..k]).cancelled
    ensures After(cfg, actions).cancelled
    decreases |actions|
  {
    if k == |actions| {
      assert actions[..k] == actions;
    } else {
      var init := actions[..|actions| - 1];
      assert init[..k] == actions[..k];
      CancelledStays(cfg, init, k);
      if LastAccepted(cfg, actions) {
        CancelStep(cfg, After(cfg, init), actions[|actions| - 1]);
      }
      hide Step;
    }
  }

  lemma AtMostOne(cfg: Config, s: State)
    requires Inv(cfg, s)
    ensures |s.sentErrs| <= 1
  {
    hide WaiterInv, ContainerRun.JointInv, Lawful;
  }

  // ----- What can happen -----

  /** What has to be so for an action to happen, as long as the program has not panicked. */
  predicate CanHappen(cfg: Config, s: State, a: Action) {
    match a
    case PullProgress(_, _, _) => s.main == Pull
    case PullDone => s.main == Pull
    case CreateOk(_) => s.main == Create
    case ConnectOk => s.main == Connect
    case CopyOk => s.main == Copy
    case StartOk => s.main == Start
    case SetupFails(_) => s.main == Create || s.main == Connect || s.main == Copy || s.main == Start
    case DeliverState => s.main.SendState? && |s.stateC| < cfg.chanSize
    case HandleDockerEvent(_) => s.main == Watch
    case HandleStats(_) => s.main == Watch
    case TakeResponse => s.main == Watch && s.waiter.Responding?
    case TakeWaitError => s.main == Watch && s.waitErrC != []
    case DeliverError => s.main.SendError?
    case CloseErrors => s.main == Close
    case ContainerExits(_, _) => s.waiter.Waiting? && |s.messages| == s.restarts
    case WaitFails(_) => s.waiter.Waiting? && |s.messages| == s.restarts
    case TimerFires(_) => s.waiter.Waiting? && |s.messages| == s.restarts + 1
    case LogLine(_) => s.waiter.Waiting?
    case SeeCancel => s.waiter.Waiting? && s.cancelled
    case Cancel => true
    case ReadState => s.stateC != []
    case ReadError => s.errC != []
  }

  lemma WaiterCan(cfg: Config, s: State, a: Action)
    requires WaiterInv(cfg, s) && !s.panicked
    requires a.ContainerExits? || a.WaitFails? || a.TimerFires? || a.LogLine? || a.SeeCancel?
    ensures WaiterStep(cfg, s, a).Some? <==> CanHappen(cfg, s, a)
  {
    hide Numbered, CallsNumbered, Justified;
  }

  lemma MainCan(cfg: Config, s: State, a: Action)
    requires TraceInv(s) && !s.panicked
    requires !a.ContainerExits? && !a.WaitFails? && !a.TimerFires? && !a.LogLine? && !a.SeeCancel?
    ensures Step(cfg, s, a).Some? <==> CanHappen(cfg, s, a)
  {
    hide React, WaiterStep, Lawful;
  }

  /** In every reachable state an action can happen exactly if the goroutine that does it has come to it: every
      event, every sample, every response and every line of the log is taken when it comes; an exit is seen
      while the container runs, that is while each response so far has been followed by a restart, and the
      restart timer fires after a response that has not; and neither error channel is ever full. */
  lemma {:induction false} WhatCanHappen(cfg: Config, actions: seq<Action>, a: Action)
    requires !After(cfg, actions).panicked
    ensures Step(cfg, After(cfg, actions), a).Some? <==> CanHappen(cfg, After(cfg, actions), a)
  {
    AlwaysInv(cfg, actions);
    var s := After(cfg, actions);
    hide After, WaiterInv, ContainerRun.JointInv, TraceInv, CanHappen;
    if a.ContainerExits? || a.WaitFails? || a.TimerFires? || a.LogLine? || a.SeeCancel? {
      WaiterCan(cfg, s, a);
      hide WaiterStep;
    } else {
      MainCan(cfg, s, a);
      hide Step;
    }
  }
}
