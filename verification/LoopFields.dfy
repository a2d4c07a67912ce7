/** What the control loop of a container reports, field by field: which of its inputs each field comes from
    (internal/container/container.go:440-523). */
module LoopFields {
  import opened Domain
  import opened ContainerRun
  import Stats

  /** The last input of a kind. */
  function Last(inputs: seq<Input>, kind: Input -> bool): (r: Option<nat>)
    ensures match r
            case None => forall k :: 0 <= k < |inputs| ==> !kind(inputs[k])
            case Some(i) => i < |inputs| && kind(inputs[i]) && forall k :: i < k < |inputs| ==> !kind(inputs[k])
  {
    if inputs == [] then None
    else if kind(inputs[|inputs| - 1]) then Some(|inputs| - 1)
    else Last(inputs[..|inputs| - 1], kind)
  }

  predicate IsResponse(x: Input) {
    x.GotResponse?
  }

  predicate IsStart(x: Input) {
    x == GotEvent(StartEvent)
  }

  predicate SetsStatus(x: Input) {
    IsResponse(x) || IsStart(x)
  }

  predicate SetsHealth(x: Input) {
    || IsResponse(x)
    || (x.GotEvent? &&
        (x.evt.HealthRunning? || x.evt.HealthHealthy? || x.evt.HealthUnhealthy? || x.evt.HealthOther?))
  }

  predicate SetsStats(x: Input) {
    IsResponse(x) || x.GotStats?
  }

  /** What no input sets, and for the rest the last input of each kind that sets something. */
  predicate FieldsComeFrom(initial: Container, inputs: seq<Input>, c: Container) {
    && SameFixed(c, initial)
    && StatusComesFrom(initial, inputs, c)
    && HealthComesFrom(initial, inputs, c)
    && StatsComeFrom(initial, inputs, c)
    && CountComesFrom(initial, inputs, c)
  }

  predicate SameFixed(c: Container, initial: Container) {
    && c.id == initial.id && c.imageName == initial.imageName && c.exitCode == initial.exitCode
    && c.pullStatus == initial.pullStatus && c.pullProgress == initial.pullProgress
    && c.pullPercent == initial.pullPercent
  }

  predicate CountComesFrom(initial: Container, inputs: seq<Input>, c: Container) {
    match Last(inputs, IsResponse)
    case None => c.restartCount == initial.restartCount && c.err == initial.err
    case Some(i) => c.restartCount == inputs[i].resp.restartCount && c.err == None
  }

  predicate StatusComesFrom(initial: Container, inputs: seq<Input>, c: Container) {
    match Last(inputs, SetsStatus)
    case None => c.status == initial.status
    case Some(i) => c.status == if inputs[i].GotResponse? then Restarting else Running
  }

  predicate HealthComesFrom(initial: Container, inputs: seq<Input>, c: Container) {
    match Last(inputs, SetsHealth)
    case None => c.healthState == initial.healthState
    case Some(i) =>
      c.healthState ==
      match inputs[i]
      case GotEvent(HealthRunning) => "running"
      case GotEvent(HealthHealthy) => "healthy"
      case GotEvent(HealthOther) => "unknown"
      case _ => "unhealthy"
  }

  predicate StatsComeFrom(initial: Container, inputs: seq<Input>, c: Container) {
    match Last(inputs, SetsStats)
    case None =>
      && c.cpuPercent == initial.cpuPercent && c.memoryUsageBytes == initial.memoryUsageBytes
      && c.rxRate == initial.rxRate && c.txRate == initial.txRate && c.rxSince == initial.rxSince
    case Some(i) =>
      if inputs[i].GotStats? then
        var s := inputs[i].stats;
        && c.cpuPercent == s.cpuPercent && c.memoryUsageBytes == s.memory
        && c.rxRate == s.rxRate && c.txRate == s.txRate && c.rxSince == s.rxSince
      else
        c.cpuPercent == 0.0 && c.memoryUsageBytes == 0 && c.rxRate == 0 && c.txRate == 0 && c.rxSince == ZERO_TIME
  }

  lemma {:induction false} StatusOfOneMore(initial: Container, inputs: seq<Input>, c: Container, x: Input)
    requires React(c, x).outcome == Continue && StatusComesFrom(initial, inputs, c)
    ensures StatusComesFrom(initial, inputs + [x], React(c, x).state)
  {
    LastSnoc(inputs, x, SetsStatus);
    hide Last;
  }

  lemma {:induction false} HealthOfOneMore(initial: Container, inputs: seq<Input>, c: Container, x: Input)
    requires React(c, x).outcome == Continue && HealthComesFrom(initial, inputs, c)
    ensures HealthComesFrom(initial, inputs + [x], React(c, x).state)
  {
    LastSnoc(inputs, x, SetsHealth);
    hide Last;
  }

  lemma {:induction false} StatsOfOneMore(initial: Container, inputs: seq<Input>, c: Container, x: Input)
    requires React(c, x).outcome == Continue && StatsComeFrom(initial, inputs, c)
    ensures StatsComeFrom(initial, inputs + [x], React(c, x).state)
  {
    LastSnoc(inputs, x, SetsStats);
    hide Last;
  }

  lemma {:induction false} CountOfOneMore(initial: Container, inputs: seq<Input>, c: Container, x: Input)
    requires React(c, x).outcome == Continue && CountComesFrom(initial, inputs, c) && SameFixed(c, initial)
    ensures CountComesFrom(initial, inputs + [x], React(c, x).state) && SameFixed(React(c, x).state, initial)
  {
    LastSnoc(inputs, x, IsResponse);
    hide Last;
  }

  lemma {:induction false} OneMoreInput(initial: Container, inputs: seq<Input>, c: Container, x: Input)
    requires FieldsComeFrom(initial, inputs, c) && React(c, x).outcome == Continue
    ensures FieldsComeFrom(initial, inputs + [x], React(c, x).state)
  {
    StatusOfOneMore(initial, inputs, c, x);
    HealthOfOneMore(initial, inputs, c, x);
    StatsOfOneMore(initial, inputs, c, x);
    CountOfOneMore(initial, inputs, c, x);
    hide *;
  }

  lemma {:induction false} LastSnoc(inputs: seq<Input>, x: Input, kind: Input -> bool)
    ensures Last(inputs + [x], kind) == if kind(x) then Some(|inputs|) else Last(inputs, kind)
  {
    assert (inputs + [x])[..|inputs + [x]| - 1] == inputs;
  }

  /** While the loop goes on, every field of its container comes from the last input that sets it: the status
      from responses and start events, the health from responses and health events, the statistics from
      responses and statistics, the restart count from responses. */
  lemma {:induction false} FieldsOfInputs(initial: Container, inputs: seq<Input>)
    requires RunOf(initial, inputs).outcome == Continue
    ensures FieldsComeFrom(initial, inputs, RunOf(initial, inputs).state)
  {
    if inputs != [] {
      var init, x := inputs[..|inputs| - 1], inputs[|inputs| - 1];
      assert RunOf(initial, init).outcome == Continue;
      FieldsOfInputs(initial, init);
      OneMoreInput(initial, init, RunOf(initial, init).state, x);
      assert inputs == init + [x];
    }
    hide FieldsComeFrom, React;
  }

  /** No response has arrived, or a start event after the last one. */
  predicate StartedSince(inputs: seq<Input>) {
    forall r :: 0 <= r < |inputs| && inputs[r].GotResponse? ==>
      exists j :: r < j < |inputs| && inputs[j] == GotEvent(StartEvent)
  }

  lemma {:induction false} RunningIff(initial: Container, inputs: seq<Input>)
    requires RunOf(initial, inputs).outcome == Continue && initial.status == Running
    ensures RunOf(initial, inputs).state.status == if StartedSince(inputs) then Running else Restarting
  {
    FieldsOfInputs(initial, inputs);
    hide RunOf, HealthComesFrom, StatsComeFrom, CountComesFrom;
    match Last(inputs, SetsStatus) {
      case None =>
      case Some(i) =>
        if inputs[i].GotResponse? {
          assert forall j :: i < j < |inputs| ==> !SetsStatus(inputs[j]);
        } else {
          assert IsStart(inputs[i]);
          assert forall r :: 0 <= r < |inputs| && inputs[r].GotResponse? ==> SetsStatus(inputs[r]) && r < i;
        }
    }
  }

  /** The same up to and including the input that ends the loop. */
  lemma {:induction false} UpIff(initial: Container, inputs: seq<Input>)
    requires initial.status == Running
    requires inputs != [] ==> RunOf(initial, inputs[..|inputs| - 1]).outcome == Continue
    ensures RunOf(initial, inputs).state.status == Running <==> StartedSince(inputs)
  {
    if RunOf(initial, inputs).outcome == Continue {
      RunningIff(initial, inputs);
    } else {
      var init, x := inputs[..|inputs| - 1], inputs[|inputs| - 1];
      RunningIff(initial, init);
      if x.GotError? {
        SameStarts(init, x);
        assert inputs == init + [x];
      }
    }
    hide RunOf;
  }

  lemma {:induction false} SameStarts(inputs: seq<Input>, x: Input)
    requires x.GotError?
    ensures StartedSince(inputs + [x]) <==> StartedSince(inputs)
  {
    var more := inputs + [x];
    if StartedSince(inputs) {
      forall r | 0 <= r < |more| && more[r].GotResponse?
        ensures exists j :: r < j < |more| && more[j] == GotEvent(StartEvent)
      {
        var j :| r < j < |inputs| && inputs[j] == GotEvent(StartEvent);
        assert more[j] == GotEvent(StartEvent);
      }
    } else {
      var r :| 0 <= r < |inputs| && inputs[r].GotResponse? &&
        !exists j :: r < j < |inputs| && inputs[j] == GotEvent(StartEvent);
      assert more[r].GotResponse?;
    }
  }

  // ----- What is sent, and how the loop ends -----

  predicate IsFinal(x: Input) {
    x.GotError? || (x.GotResponse? && !x.resp.restarting)
  }

  predicate Sends(x: Input) {
    !x.GotError? && !(x.GotEvent? && (x.evt.NotAContainerEvent? || x.evt.OtherContainerEvent?))
  }

  lemma {:induction false} LoopGoesOn(initial: Container, inputs: seq<Input>)
    requires RunOf(initial, inputs).outcome == Continue
    ensures forall k :: 0 <= k < |inputs| ==> !IsFinal(inputs[k])
  {
    if inputs != [] {
      LoopGoesOn(initial, inputs[..|inputs| - 1]);
    }
  }

  /** The loop goes on exactly until the first response that is not a restart, on which it returns, or the
      first error, which it fails with. Every input until then, but for those that say nothing about the
      container, sends the state it leads to; and a final response leads to the exited state that it
      describes. */
  lemma {:induction false} LoopEnds(initial: Container, inputs: seq<Input>, x: Input)
    requires RunOf(initial, inputs).outcome == Continue
    ensures
      var before, after := RunOf(initial, inputs), RunOf(initial, inputs + [x]);
      && (after.outcome == Continue <==> !IsFinal(x))
      && (x.GotError? ==> after.outcome == Fail(x.err) && after.state == before.state)
      && (x.GotResponse? && IsFinal(x) ==>
            && after.outcome == Return
            && after.state == before.state.(
                 status := Exited, exitCode := Some(x.resp.exitCode), err := x.resp.err,
                 restartCount := x.resp.restartCount, healthState := "unhealthy", cpuPercent := 0.0,
                 memoryUsageBytes := 0, rxRate := 0, txRate := 0, rxSince := ZERO_TIME))
      && after.sent == (if Sends(x) then before.sent + [after.state] else before.sent)
  {
    assert (inputs + [x])[..|inputs + [x]| - 1] == inputs;
  }
}
