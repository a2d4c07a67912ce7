/** One run of a destination's container together with the loop that follows it: RunContainer of
    internal/container/container.go writes to the two channels that destLoop of
    internal/replicator/replicator.go selects from. */
module Streaming {
  import opened Domain
  import opened ContainerRun
  import Replicator

  /** inputs are what the loop has received. */
  datatype Joint = Joint(run: State, inputs: seq<Replicator.Input>, ended: bool)

  const START := Joint(INITIAL, [], false)

  datatype Move =
    | Inside(a: Action)         // the run and its environment, except for reading its channels
    | StateArrives(now: Time)
    | ErrorArrives
    | CloseSeen                 // a closed channel is only seen to be closed when it is empty

  function Take(cfg: Config, j: Joint, m: Move): Option<Joint> {
    match m
    case Inside(a) =>
      if a.ReadState? || a.ReadError? then None
      else
        (match Step(cfg, j.run, a)
         case Some(run) => Some(j.(run := run))
         case None => None)
    case StateArrives(now) =>
      if j.ended || j.run.stateC == [] then None
      else
        (match Step(cfg, j.run, ReadState)
         case Some(run) => Some(Joint(run, j.inputs + [Replicator.GotState(j.run.stateC[0], now)], false))
         case None => None)
    case ErrorArrives =>
      if j.ended || j.run.errC == [] then None
      else
        (match Step(cfg, j.run, ReadError)
         case Some(run) => Some(Joint(run, j.inputs + [Replicator.GotErr(Some(j.run.errC[0]))], true))
         case None => None)
    case CloseSeen =>
      if j.ended || j.run.errC != [] || !j.run.errClosed then None
      else Some(Joint(j.run, j.inputs + [Replicator.ErrClosed], true))
  }

  ghost function Moves(cfg: Config, moves: seq<Move>): Joint {
    if moves == [] then START
    else
      var j := Moves(cfg, moves[..|moves| - 1]);
      match Take(cfg, j, moves[|moves| - 1])
      case Some(next) => next
      case None => j
  }

  // ----- What arrives is what was sent -----

  function Arrived(inputs: seq<Replicator.Input>): seq<Container> {
    if inputs == [] then []
    else
      var last := inputs[|inputs| - 1];
      Arrived(inputs[..|inputs| - 1]) + (if last.GotState? then [last.c] else [])
  }

  lemma ArrivedSnoc(inputs: seq<Replicator.Input>, x: Replicator.Input)
    ensures Arrived(inputs + [x]) == Arrived(inputs) + (if x.GotState? then [x.c] else [])
  {
    assert (inputs + [x])[..|inputs + [x]| - 1] == inputs;
  }

  /** The states before the end, which alone is not a state. */
  predicate EndsOnce(inputs: seq<Replicator.Input>, ended: bool) {
    if ended then
      && inputs != [] && Replicator.Ends(inputs[|inputs| - 1])
      && forall k :: 0 <= k < |inputs| - 1 ==> inputs[k].GotState?
    else forall k :: 0 <= k < |inputs| ==> inputs[k].GotState?
  }

  predicate EndMatches(j: Joint) {
    if !j.ended then ErrorsBuffered(j.run)
    else
      j.inputs != [] &&
      match j.inputs[|j.inputs| - 1]
      case GotErr(err) => err.Some? && j.run.sentErrs == [err.value]
      case ErrClosed => j.run.sentErrs == [] && j.run.main.Finished?
      case GotState(_, _) => false
  }

  ghost predicate JointInv(cfg: Config, j: Joint) {
    && Inv(cfg, j.run)
    && Balanced(j.run, Arrived(j.inputs))
    && EndsOnce(j.inputs, j.ended)
    && EndMatches(j)
  }

  /** What was sent is what was read and what is buffered. */
  predicate Balanced(s: State, read: seq<Container>) {
    read + s.stateC == s.reports
  }

  predicate ErrorsBuffered(s: State) {
    s.errC == s.sentErrs
  }

  predicate SameChannels(s: State, t: State) {
    t.stateC == s.stateC && t.reports == s.reports && t.errC == s.errC && t.sentErrs == s.sentErrs
  }

  lemma WaiterLeavesChannels(cfg: Config, s: State, a: Action)
    requires WaiterStep(cfg, s, a).Some?
    ensures SameChannels(s, WaiterStep(cfg, s, a).value)
  {
    WaiterStepFrame(cfg, s, a);
    hide WaiterStep;
  }

  lemma WatchLeavesChannels(s: State, a: Action)
    requires WatchStep(s, a).Some?
    ensures SameChannels(s, WatchStep(s, a).value)
  {
    hide React;
  }

  lemma StraightKeepsBalance(cfg: Config, s: State, a: Action)
    requires StraightStep(cfg, s, a).Some?
    ensures var t := StraightStep(cfg, s, a).value;
            && t.stateC == s.stateC && t.reports == s.reports
            && (ErrorsBuffered(s) ==> ErrorsBuffered(t))
  {
  }

  lemma DeliverKeepsBalance(cfg: Config, s: State, read: seq<Container>)
    requires DeliverStep(cfg, s).Some? && Balanced(s, read)
    ensures var t := DeliverStep(cfg, s).value;
            Balanced(t, read) && t.errC == s.errC && t.sentErrs == s.sentErrs
  {
    var t := DeliverStep(cfg, s).value;
    assert read + t.stateC == read + s.stateC + [s.main.state];
  }

  /** A step of the run other than a read adds the same to a channel and to its history. */
  lemma ChannelsGrow(cfg: Config, s: State, a: Action, read: seq<Container>)
    requires Step(cfg, s, a).Some? && !a.ReadState? && !a.ReadError? && Balanced(s, read)
    ensures var t := Step(cfg, s, a).value; Balanced(t, read) && (ErrorsBuffered(s) ==> ErrorsBuffered(t))
  {
    if a.ContainerExits? || a.WaitFails? || a.TimerFires? || a.LogLine? || a.SeeCancel? {
      WaiterLeavesChannels(cfg, s, a);
    } else if a.DeliverState? {
      DeliverKeepsBalance(cfg, s, read);
    } else if a.HandleDockerEvent? || a.HandleStats? || a.TakeResponse? || a.TakeWaitError? {
      WatchLeavesChannels(s, a);
    } else if !a.Cancel? {
      StraightKeepsBalance(cfg, s, a);
    }
    hide WaiterStep, WatchStep, StraightStep, DeliverStep;
  }

  lemma EndedRunStays(cfg: Config, s: State, a: Action)
    requires Inv(cfg, s) && Ended(s.main) && Step(cfg, s, a).Some?
    ensures var t := Step(cfg, s, a).value; t.sentErrs == s.sentErrs && (s.main.Finished? ==> t.main.Finished?)
  {
    hide React, WaiterInv, TraceInv;
  }

  lemma InsideKeepsJointInv(cfg: Config, j: Joint, a: Action)
    requires JointInv(cfg, j) && Take(cfg, j, Inside(a)).Some?
    ensures JointInv(cfg, Take(cfg, j, Inside(a)).value)
  {
    StepKeeps(cfg, j.run, a);
    ChannelsGrow(cfg, j.run, a, Arrived(j.inputs));
    if j.ended {
      ErrorMeansEnded(cfg, j.run);
      EndedRunStays(cfg, j.run, a);
    }
    hide Inv, Step, Arrived;
  }

  lemma ErrorMeansEnded(cfg: Config, s: State)
    requires Inv(cfg, s) && (s.sentErrs != [] || s.main.Finished?)
    ensures Ended(s.main)
  {
    hide WaiterInv, ContainerRun.JointInv, Lawful;
  }

  lemma ReadingBalance(s: State, read: seq<Container>, c: Container)
    requires Balanced(s, read) && s.stateC != [] && c == s.stateC[0]
    ensures Balanced(s.(stateC := s.stateC[1..]), read + [c])
  {
    assert read + s.stateC == read + [c] + s.stateC[1..];
  }

  lemma Reads(cfg: Config, s: State)
    ensures Step(cfg, s, ReadState) ==
            if s.panicked || s.stateC == [] then None else Some(s.(stateC := s.stateC[1..]))
    ensures Step(cfg, s, ReadError) ==
            if s.panicked || s.errC == [] then None else Some(s.(errC := s.errC[1..]))
  {
  }

  lemma EndsOnceSnoc(inputs: seq<Replicator.Input>, x: Replicator.Input)
    requires EndsOnce(inputs, false)
    ensures EndsOnce(inputs + [x], Replicator.Ends(x))
  {
  }

  lemma StateReadKeepsJointInv(cfg: Config, j: Joint, now: Time)
    requires JointInv(cfg, j) && Take(cfg, j, StateArrives(now)).Some?
    ensures JointInv(cfg, Take(cfg, j, StateArrives(now)).value)
  {
    var x := Replicator.GotState(j.run.stateC[0], now);
    StepKeeps(cfg, j.run, ReadState);
    ArrivedSnoc(j.inputs, x);
    EndsOnceSnoc(j.inputs, x);
    ReadingBalance(j.run, Arrived(j.inputs), x.c);
    Reads(cfg, j.run);
    hide Inv, Arrived, Balanced, EndsOnce, Step;
  }

  lemma EndedJointInv(cfg: Config, run: State, inputs: seq<Replicator.Input>, x: Replicator.Input)
    requires Inv(cfg, run) && Balanced(run, Arrived(inputs)) && EndsOnce(inputs, false)
    requires match x
             case GotErr(err) => err.Some? && run.sentErrs == [err.value]
             case ErrClosed => run.sentErrs == [] && run.main.Finished?
             case GotState(_, _) => false
    ensures JointInv(cfg, Joint(run, inputs + [x], true))
  {
    ArrivedSnoc(inputs, x);
    EndsOnceSnoc(inputs, x);
    hide Inv, Arrived, EndsOnce, Balanced;
    assert (inputs + [x])[|inputs|] == x;
  }

  lemma ErrorReadKeepsJointInv(cfg: Config, j: Joint)
    requires JointInv(cfg, j) && Take(cfg, j, ErrorArrives).Some?
    ensures JointInv(cfg, Take(cfg, j, ErrorArrives).value)
  {
    Reads(cfg, j.run);
    AtMostOneError(cfg, j.run);
    StepKeeps(cfg, j.run, ReadError);
    hide Inv, Arrived, EndsOnce;
    var x, run := Replicator.GotErr(Some(j.run.errC[0])), j.run.(errC := j.run.errC[1..]);
    EndedJointInv(cfg, run, j.inputs, x);
    hide JointInv, Step;
  }

  lemma CloseKeepsJointInv(cfg: Config, j: Joint)
    requires JointInv(cfg, j) && Take(cfg, j, CloseSeen).Some?
    ensures JointInv(cfg, Take(cfg, j, CloseSeen).value)
  {
    AtMostOneError(cfg, j.run);
    hide Inv, Arrived, EndsOnce, Step;
    EndedJointInv(cfg, j.run, j.inputs, Replicator.ErrClosed);
    hide JointInv;
  }

  lemma AtMostOneError(cfg: Config, s: State)
    requires Inv(cfg, s)
    ensures |s.sentErrs| <= 1 && (s.errClosed ==> s.main.Finished?)
  {
    hide WaiterInv, ContainerRun.JointInv, Lawful;
  }

  lemma StartInv(cfg: Config)
    ensures JointInv(cfg, START)
  {
    AlwaysInv(cfg, []);
    hide Inv;
  }

  lemma {:induction false} AlwaysJointInv(cfg: Config, moves: seq<Move>)
    ensures JointInv(cfg, Moves(cfg, moves))
  {
    if moves == [] {
      StartInv(cfg);
    } else {
      var j, m := Moves(cfg, moves[..|moves| - 1]), moves[|moves| - 1];
      AlwaysJointInv(cfg, moves[..|moves| - 1]);
      if Take(cfg, j, m).Some? {
        match m {
          case Inside(a) => InsideKeepsJointInv(cfg, j, a);
          case StateArrives(now) => StateReadKeepsJointInv(cfg, j, now);
          case ErrorArrives => ErrorReadKeepsJointInv(cfg, j);
          case CloseSeen => CloseKeepsJointInv(cfg, j);
        }
      }
    }
    hide JointInv, Take;
  }

  /** In every interleaving the loop has received, in order and from the first, the states that the run has sent,
      and the others wait in the channel; and what it can receive next is the first of those, or the one
      error that the run has sent, or, when there is none left, that the channel has been closed. */
  lemma {:induction false} ReceivedInOrder(cfg: Config, moves: seq<Move>, now: Time)
    ensures
      var j := Moves(cfg, moves);
      && Arrived(j.inputs) + j.run.stateC == j.run.reports
      && (!j.run.panicked && !j.ended ==>
            && j.run.errC == j.run.sentErrs
            && (Take(cfg, j, StateArrives(now)).Some? <==> |Arrived(j.inputs)| < |j.run.reports|)
            && (Take(cfg, j, ErrorArrives).Some? <==> j.run.sentErrs != [])
            && (Take(cfg, j, CloseSeen).Some? <==> j.run.errClosed && j.run.sentErrs == []))
  {
    AlwaysJointInv(cfg, moves);
    hide Moves, Inv, Arrived, EndsOnce;
    Reads(cfg, Moves(cfg, moves).run);
    hide Step;
  }

  // ----- The done value -----

  /** The done value of Replicator.DestLoop. */
  function DoneOf(url: string, inputs: seq<Replicator.Input>): Replicator.Report
    requires EndsOnce(inputs, true)
  {
    var n := |inputs| - 1;
    var before :=
      if n == 0 then Replicator.Report(url, ZERO_CONTAINER, OFF_AIR) else Replicator.ReportOf(url, inputs[n - 1]);
    Replicator.LastReport(before, inputs[n])
  }

  lemma EndsAtFirstEnd(inputs: seq<Replicator.Input>)
    requires EndsOnce(inputs, true)
    ensures Replicator.FirstEnd(inputs) == |inputs| - 1
  {
  }

  /** destLoop, run on what arrives. */
  method Follow(url: string, inputs: seq<Replicator.Input>) returns (done: Replicator.Report)
    requires EndsOnce(inputs, true)
    ensures done == DoneOf(url, inputs)
  {
    EndsAtFirstEnd(inputs);
    var sent, values := Replicator.DestLoop(url, inputs);
    done := values[0];
  }

  /** The error a run ended with: the one sent, or that of its exited report. */
  function RunError(s: State): Option<Error> {
    if s.sentErrs != [] then Some(s.sentErrs[0])
    else if HasExited(s) then s.reports[|s.reports| - 1].err
    else None
  }

  /** In every interleaving: once the loop has ended, its done value carries the error of the run, except
      that the error of an exited report is missing exactly if the loop saw the closed channel first and
      left reports unread. An error that was sent never is. */
  lemma {:induction false} DoneCarriesError(cfg: Config, url: string, moves: seq<Move>)
    ensures
      var j := Moves(cfg, moves);
      j.ended ==>
        && EndsOnce(j.inputs, true)
        && var done := DoneOf(url, j.inputs);
           && done.container.err == (if j.run.sentErrs == [] && j.run.stateC != [] then None else RunError(j.run))
           && (RunError(j.run).Some? && done.container.err.None? <==>
                 j.run.sentErrs == [] && j.run.stateC != [] && RunError(j.run).Some?)
  {
    AlwaysJointInv(cfg, moves);
    var j := Moves(cfg, moves);
    hide Moves;
    if j.ended {
      DoneError(cfg, url, j);
    }
    hide JointInv, DoneOf, RunError;
  }

  lemma LastArrived(inputs: seq<Replicator.Input>)
    requires EndsOnce(inputs, true)
    ensures |Arrived(inputs)| == |inputs| - 1
    ensures |inputs| >= 2 ==> Arrived(inputs)[|inputs| - 2] == inputs[|inputs| - 2].c
  {
    var n := |inputs| - 1;
    assert inputs == inputs[..n] + [inputs[n]];
    ArrivedSnoc(inputs[..n], inputs[n]);
    AllArrived(inputs[..n]);
  }

  lemma {:induction false} AllArrived(inputs: seq<Replicator.Input>)
    requires forall k :: 0 <= k < |inputs| ==> inputs[k].GotState?
    ensures |Arrived(inputs)| == |inputs|
    ensures forall k :: 0 <= k < |inputs| ==> Arrived(inputs)[k] == inputs[k].c
  {
    if inputs != [] {
      AllArrived(inputs[..|inputs| - 1]);
    }
  }

  lemma OnlyExitedHasError(cfg: Config, s: State, k: nat)
    requires Inv(cfg, s) && k < |s.reports| && s.reports[k].err.Some?
    ensures k == |s.reports| - 1 && HasExited(s)
  {
    hide WaiterInv, ContainerRun.JointInv;
    assert Lawful(s.reports, s.pulls);
    assert s.reports[k].status == Exited;
    assert k >= s.pulls;
    assert Allowed(s.reports[k].status, k - s.pulls, |s.reports| - s.pulls);
  }

  lemma FinishedWithoutErrorHasExited(cfg: Config, s: State)
    requires Inv(cfg, s) && s.main.Finished? && s.sentErrs == []
    ensures HasExited(s)
  {
    hide WaiterInv, ContainerRun.JointInv, Lawful;
  }

  lemma DoneError(cfg: Config, url: string, j: Joint)
    requires JointInv(cfg, j) && j.ended
    ensures DoneOf(url, j.inputs).container.err
         == (if j.run.sentErrs == [] && j.run.stateC != [] then None else RunError(j.run))
  {
    LastArrived(j.inputs);
    var n := |j.inputs| - 1;
    if j.inputs[n].ErrClosed? {
      FinishedWithoutErrorHasExited(cfg, j.run);
      if n > 0 {
        assert j.run.reports[n - 1] == Arrived(j.inputs)[n - 1] == j.inputs[n - 1].c;
        if j.inputs[n - 1].c.err.Some? {
          OnlyExitedHasError(cfg, j.run, n - 1);
        }
      }
    }
    hide Inv, Arrived;
  }

  // ----- A lost error -----

  ghost predicate Reaches(cfg: Config, moves: seq<Move>, j: Joint) {
    Moves(cfg, moves) == j
  }

  lemma Go(cfg: Config, moves: seq<Move>, j: Joint, m: Move)
    returns (more: seq<Move>, k: Joint)
    requires Reaches(cfg, moves, j) && Take(cfg, j, m).Some?
    ensures Reaches(cfg, more, k) && k == Take(cfg, j, m).value
  {
    more, k := moves + [m], Take(cfg, j, m).value;
    assert more[..|more| - 1] == moves;
  }

  /** The container has been started, and the loop watches it. */
  predicate Watching(j: Joint) {
    && j.inputs == [] && !j.ended
    && j.run.main.Watch? && j.run.waiter == Waiting(0, true, false, []) && !j.run.panicked && !j.run.errClosed
    && j.run.sentErrs == [] && j.run.errC == [] && |j.run.stateC| == 3
  }

  lemma Creating(cfg: Config) returns (moves: seq<Move>, j: Joint)
    ensures Reaches(cfg, moves, j) && j == START.(run := INITIAL.(main := Create))
  {
    assert Moves(cfg, []) == START;
    moves, j := Go(cfg, [], START, Inside(PullDone));
    hide Moves;
  }

  lemma Created(cfg: Config) returns (moves: seq<Move>, j: Joint)
    requires cfg.chanSize >= 4
    ensures Reaches(cfg, moves, j) && j.inputs == [] && !j.ended
    ensures j.run.main.Connect? && j.run.waiter.NotSpawned? && !j.run.panicked && !j.run.errClosed
    ensures j.run.sentErrs == [] && j.run.errC == [] && |j.run.stateC| == 1
  {
    hide Moves, Reaches;
    moves, j := Creating(cfg);
    moves, j := Go(cfg, moves, j, Inside(CreateOk("")));
    moves, j := Go(cfg, moves, j, Inside(DeliverState));
  }

  lemma Started(cfg: Config) returns (moves: seq<Move>, j: Joint)
    requires cfg.chanSize >= 4
    ensures Reaches(cfg, moves, j) && j.inputs == [] && !j.ended
    ensures j.run.main.SendState? && j.run.main.next == ToSpawn && !j.run.panicked && !j.run.errClosed
    ensures j.run.sentErrs == [] && j.run.errC == [] && |j.run.stateC| == 1
  {
    hide Moves, Reaches;
    moves, j := Created(cfg);
    moves, j := Go(cfg, moves, j, Inside(ConnectOk));
    moves, j := Go(cfg, moves, j, Inside(CopyOk));
    moves, j := Go(cfg, moves, j, Inside(StartOk));
  }

  lemma StartedUp(cfg: Config) returns (moves: seq<Move>, j: Joint)
    requires cfg.chanSize >= 4
    ensures Reaches(cfg, moves, j) && Watching(j)
  {
    hide Moves, Reaches;
    moves, j := Started(cfg);
    moves, j := Go(cfg, moves, j, Inside(DeliverState));
    moves, j := Go(cfg, moves, j, Inside(DeliverState));
  }

  /** The callback gives up on a container that exits after a second. */
  ghost predicate GivesUp(cfg: Config, err: Error) {
    cfg.chanSize >= 4 && cfg.policy.Some? && cfg.policy.value(1, 0, [], SECOND) == (false, Some(err))
  }

  lemma FailsAtOnce(cfg: Config, err: Error) returns (moves: seq<Move>, j: Joint)
    requires GivesUp(cfg, err)
    ensures Reaches(cfg, moves, j) && j.inputs == [] && !j.ended
    ensures j.run.main.SendState? && j.run.main.next == ToReturn && j.run.main.state.status == Exited
    ensures j.run.main.state.err == Some(err) && !j.run.panicked && !j.run.errClosed
    ensures j.run.sentErrs == [] && j.run.errC == [] && |j.run.stateC| == 3
  {
    hide Moves, Reaches;
    moves, j := StartedUp(cfg);
    moves, j := Go(cfg, moves, j, Inside(ContainerExits(1, SECOND)));
    moves, j := Go(cfg, moves, j, Inside(TakeResponse));
  }

  lemma ReportsUnread(cfg: Config, err: Error) returns (moves: seq<Move>, j: Joint)
    requires GivesUp(cfg, err)
    ensures Reaches(cfg, moves, j) && !j.ended && RunError(j.run) == Some(err) && j.run.stateC != []
    ensures j.run.main.Close? && j.run.errC == [] && !j.run.panicked
  {
    moves, j := FailsAtOnce(cfg, err);
    hide Moves, Reaches, GivesUp;
    moves, j := Go(cfg, moves, j, Inside(DeliverState));
    assert j.run.reports[|j.run.reports| - 1].err == Some(err) && HasExited(j.run);
  }

  lemma ClosesUnread(cfg: Config, err: Error) returns (moves: seq<Move>, j: Joint)
    requires GivesUp(cfg, err)
    ensures Reaches(cfg, moves, j) && j.ended && RunError(j.run) == Some(err) && j.run.stateC != []
  {
    moves, j := ReportsUnread(cfg, err);
    hide Moves, Reaches, GivesUp;
    moves, j := Go(cfg, moves, j, Inside(CloseErrors));
    moves, j := Go(cfg, moves, j, CloseSeen);
  }

  /** It can be lost: under the replicator's policy a container exits at once, and the loop sees the closed
      channel before it reads the report that says why. The client that started the stream is then not
      told that it failed. */
  lemma ErrorCanBeLost(startError: seq<string> -> Error)
    ensures
      exists moves: seq<Move> ::
        var j := Moves(Replicator.RunConfig("", startError, 64), moves);
        j.ended && RunError(j.run) == Some(startError([])) && j.run.stateC != []
  {
    var cfg := Replicator.RunConfig("", startError, 64);
    assert GivesUp(cfg, startError([]));
    var moves, j := ClosesUnread(cfg, startError([]));
    hide Moves, RunError, Replicator.RunConfig;
  }
}
