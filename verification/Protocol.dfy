/** internal/protocol: conversion of commands and events to protobuf messages and back. Messages are
    pointers in the program, so that an absent one is None here. */
module Protocol {
  import opened Domain

  // ----- Messages -----

  const TWO_31 := 0x8000_0000
  const TWO_32 := 0x1_0000_0000

  type Int32 = x: int | -TWO_31 <= x < TWO_31

  datatype PbTimestamp = PbTimestamp(seconds: int, nanos: int)

  datatype PbContainer = PbContainer(
    id: string, status: ContainerStatus, healthState: string, cpuPercent: real, memoryUsageBytes: nat,
    rxRate: Int32, txRate: Int32, rxSince: Option<PbTimestamp>, imageName: string,
    pullStatus: string, pullProgress: string, pullPercent: Int32, restartCount: Int32,
    exitCode: Option<Int32>, err: string)

  datatype PbDestination = PbDestination(
    container: Option<PbContainer>, status: Int32, id: seq<Byte>, name: string, url: string)

  datatype PbSource = PbSource(
    container: Option<PbContainer>, live: bool, liveChangedAt: Option<PbTimestamp>, tracks: seq<string>,
    rtmpURL: string, rtmpsURL: string, rtspURL: string, rtspsURL: string, exitReason: string)

  datatype PbAppState = PbAppState(
    source: Option<PbSource>, destinations: seq<Option<PbDestination>>, buildInfo: Option<BuildInfo>)

  /** A structpb.Value: GetStringValue is empty for all but string values. */
  datatype PbValue = PbString(text: string) | PbOther

  type PbErrors = map<string, Option<seq<PbValue>>>

  datatype PbID = PbID(id: seq<Byte>)
  datatype PbIDError = PbIDError(id: seq<Byte>, error: string)
  datatype PbAddFailed = PbAddFailed(url: string, error: string, validationErrors: PbErrors)
  datatype PbUpdateFailed = PbUpdateFailed(id: seq<Byte>, error: string, validationErrors: PbErrors)
  datatype PbStreamExited = PbStreamExited(id: seq<Byte>, name: string, error: string)

  /** The oneof inside pb.Event. */
  datatype PbEvent =
    | PbAppStateChanged(appStateChanged: Option<Option<PbAppState>>)
    | PbDestinationsListed(list: Option<seq<Option<PbDestination>>>)
    | PbListFailed(text: Option<string>)
    | PbAdded(idMsg: Option<PbID>)
    | PbAddDestinationFailed(addFailed: Option<PbAddFailed>)
    | PbUpdated(idMsg: Option<PbID>)
    | PbUpdateDestinationFailed(updateFailed: Option<PbUpdateFailed>)
    | PbDestinationStreamExited(streamExited: Option<PbStreamExited>)
    | PbStarted(idMsg: Option<PbID>)
    | PbStartFailed(idError: Option<PbIDError>)
    | PbStopped(idMsg: Option<PbID>)
    | PbStopFailed(idError: Option<PbIDError>)
    | PbRemoved(idMsg: Option<PbID>)
    | PbRemoveFailed(idError: Option<PbIDError>)
    | PbFatalError(text: Option<string>)
    | PbOtherInstanceDetected
    | PbMediaServerStarted(present: bool)
    | PbHandshakeCompleted

  datatype PbAdd = PbAdd(name: string, url: string)
  datatype PbUpdate = PbUpdate(id: seq<Byte>, name: Option<string>, url: Option<string>)
  datatype PbRemove = PbRemove(id: seq<Byte>, force: bool)

  /** The oneof inside pb.Command. */
  datatype PbCommand =
    | PbListCommand(present: bool)
    | PbAddCommand(add: Option<PbAdd>)
    | PbUpdateCommand(update: Option<PbUpdate>)
    | PbRemoveCommand(remove: Option<PbRemove>)
    | PbStartCommand(start: Option<PbID>)
    | PbStopCommand(stop: Option<PbID>)
    | PbCloseCommand(present: bool)
    | PbKillCommand(present: bool)
    | PbStartHandshakeCommand

  /** A value, an error, or a nil dereference. */
  datatype Decoded<+T> = Ok(value: T) | Failed | Panics

  // ----- Commands -----

  function CommandToProto(cmd: Command): PbCommand {
    match cmd
    case ListDestinations => PbListCommand(true)
    case AddDestination(name, url) => PbAddCommand(Some(PbAdd(name, url)))
    case UpdateDestination(id, name, url) => PbUpdateCommand(Some(PbUpdate(id, name, url)))
    case RemoveDestination(id, force) => PbRemoveCommand(Some(PbRemove(id, force)))
    case StartDestination(id) => PbStartCommand(Some(PbID(id)))
    case StopDestination(id) => PbStopCommand(Some(PbID(id)))
    case CloseOtherInstance => PbCloseCommand(true)
    case KillServer => PbKillCommand(true)
  }

  function CommandFromProto(p: Option<PbCommand>): Decoded<Command> {
    if p.None? then Failed
    else
      match p.value
      case PbListCommand(_) => Ok(ListDestinations)
      case PbAddCommand(m) => if m.None? then Failed else Ok(AddDestination(m.value.name, m.value.url))
      case PbUpdateCommand(m) =>
        if m.None? || |m.value.id| != 16 then Failed
        else Ok(UpdateDestination(m.value.id, m.value.name, m.value.url))
      case PbRemoveCommand(m) =>
        if m.None? || |m.value.id| != 16 then Failed else Ok(RemoveDestination(m.value.id, m.value.force))
      case PbStartCommand(m) =>
        if m.None? || |m.value.id| != 16 then Failed else Ok(StartDestination(m.value.id))
      case PbStopCommand(m) =>
        if m.None? || |m.value.id| != 16 then Failed else Ok(StopDestination(m.value.id))
      case PbCloseCommand(_) => Ok(CloseOtherInstance)
      case PbKillCommand(_) => Ok(KillServer)
      case PbStartHandshakeCommand => Failed
  }

  /** The three commands without data are decoded even from an absent message. */
  predicate CommandPresent(p: PbCommand) {
    (p.PbListCommand? || p.PbCloseCommand? || p.PbKillCommand?) ==> p.present
  }

  /** Decoding an encoded command gives it back, for every command; and a message that decodes is the
      encoding of what it decodes to, unless it is one of the three that may be absent, and is. */
  lemma CommandRoundTrip(cmd: Command, p: PbCommand)
    ensures CommandFromProto(Some(CommandToProto(cmd))) == Ok(cmd)
    ensures CommandFromProto(Some(p)).Ok? ==>
              (CommandToProto(CommandFromProto(Some(p)).value) == p <==> CommandPresent(p))
    ensures !CommandFromProto(Some(p)).Panics?
  {
  }

  // ----- Numbers and times -----

  /** Go's int32(x). */
  function ToInt32(x: int): Int32 {
    (x + TWO_31) % TWO_32 - TWO_31
  }

  predicate Fits32(x: int) {
    -TWO_31 <= x < TWO_31
  }

  lemma ToInt32FixesIff(x: int)
    ensures ToInt32(x) == x <==> -0x8000_0000 <= x < 0x8000_0000
    ensures (ToInt32(x) - x) % 0x1_0000_0000 == 0
    ensures ToInt32(ToInt32(x)) == ToInt32(x)
  {
  }

  /** timestamppb.New */
  function TimestampOf(t: Time): PbTimestamp {
    PbTimestamp(t / SECOND, t % SECOND)
  }

  /** AsTime */
  function TimeOf(ts: PbTimestamp): Time {
    ts.seconds * SECOND + ts.nanos
  }

  function TimeToProto(t: Time): Option<PbTimestamp> {
    if t == ZERO_TIME then None else Some(TimestampOf(t))
  }

  function TimeFromProto(ts: Option<PbTimestamp>): Time {
    if ts.None? then ZERO_TIME else TimeOf(ts.value)
  }

  /** Every instant survives; the zero one travels as an absent timestamp, and any other as whole seconds with
      less than a second of nanoseconds. */
  lemma TimeRoundTrip(t: Time)
    ensures TimeFromProto(TimeToProto(t)) == t
    ensures match TimeToProto(t)
            case None => t == ZERO_TIME
            case Some(ts) =>
              t != ZERO_TIME && 0 <= ts.nanos < 1_000_000_000 && ts.seconds * 1_000_000_000 + ts.nanos == t
  {
  }

  // ----- Containers and destinations -----

  function ContainerToProto(c: Container): PbContainer {
    PbContainer(
      c.id, c.status, c.healthState, c.cpuPercent, c.memoryUsageBytes, ToInt32(c.rxRate), ToInt32(c.txRate),
      TimeToProto(c.rxSince), c.imageName, c.pullStatus, c.pullProgress, ToInt32(c.pullPercent),
      ToInt32(c.restartCount),
      if c.exitCode.Some? then Some(ToInt32(c.exitCode.value)) else None,
      if c.err.Some? then c.err.value else "")
  }

  function ContainerFromProto(p: Option<PbContainer>): Container {
    if p.None? then ZERO_CONTAINER
    else
      var c := p.value;
      Container(
        c.id, c.status, c.healthState, c.cpuPercent, c.memoryUsageBytes, c.rxRate, c.txRate,
        TimeFromProto(c.rxSince), c.imageName, c.pullStatus, c.pullProgress, c.pullPercent, c.restartCount,
        if c.exitCode.Some? then Some(c.exitCode.value) else None,
        if c.err != "" then Some(c.err) else None)
  }

  /** What a container looks like on the other side. */
  function NormContainer(c: Container): Container {
    c.(rxRate := ToInt32(c.rxRate),
       txRate := ToInt32(c.txRate),
       pullPercent := ToInt32(c.pullPercent),
       restartCount := ToInt32(c.restartCount),
       exitCode := if c.exitCode.Some? then Some(ToInt32(c.exitCode.value)) else None,
       err := if c.err == Some("") then None else c.err)
  }

  predicate CanonicalContainer(c: Container) {
    && Fits32(c.rxRate) && Fits32(c.txRate) && Fits32(c.pullPercent) && Fits32(c.restartCount)
    && (c.exitCode.Some? ==> Fits32(c.exitCode.value))
    && (c.err.Some? ==> c.err.value != "")
  }

  lemma ContainerRoundTrip(c: Container)
    ensures ContainerFromProto(Some(ContainerToProto(c))) == NormContainer(c)
    ensures NormContainer(c) == c <==> CanonicalContainer(c)
    ensures CanonicalContainer(NormContainer(c))
  {
    TimeRoundTrip(c.rxSince);
    ToInt32FixesIff(c.rxRate);
    ToInt32FixesIff(c.txRate);
    ToInt32FixesIff(c.pullPercent);
    ToInt32FixesIff(c.restartCount);
    if c.exitCode.Some? {
      ToInt32FixesIff(c.exitCode.value);
    }
    hide ToInt32, TimeToProto, TimeFromProto;
  }

  /** DestinationStatusToProto: STATUS_OFF_AIR, STATUS_STARTING and STATUS_LIVE are 0, 1 and 2. */
  function StatusToProto(s: DestinationStatus): Int32 {
    if s == STARTING then 1 else if s == LIVE then 2 else 0
  }

  predicate KnownStatus(s: DestinationStatus) {
    s == OFF_AIR || s == STARTING || s == LIVE
  }

  function DestinationToProto(d: Destination): PbDestination {
    PbDestination(Some(ContainerToProto(d.container)), StatusToProto(d.status), d.id, d.name, d.url)
  }

  function DestinationsToProto(ds: seq<Destination>): seq<Option<PbDestination>> {
    seq(|ds|, i requires 0 <= i < |ds| => Some(DestinationToProto(ds[i])))
  }

  /** Absent destinations are skipped; an ID of the wrong length fails the whole list. */
  function DestinationsFromProto(ps: seq<Option<PbDestination>>): Decoded<seq<Destination>> {
    if ps == [] then Ok([])
    else
      var before := DestinationsFromProto(ps[..|ps| - 1]);
      var p := ps[|ps| - 1];
      if !before.Ok? || p.None? then before
      else if |p.value.id| != 16 then Failed
      else Ok(before.value + [Destination(ContainerFromProto(p.value.container), p.value.status,
                                          p.value.id, p.value.name, p.value.url)])
  }

  method ConvertDestinations(ds: seq<Destination>) returns (ps: seq<Option<PbDestination>>)
    ensures ps == DestinationsToProto(ds)
  {
    ps := [];
    for i := 0 to |ds|
      invariant ps == DestinationsToProto(ds[..i])
    {
      assert ds[..i + 1] == ds[..i] + [ds[i]];
      ps := ps + [Some(DestinationToProto(ds[i]))];
    }
    assert ds[..|ds|] == ds;
  }

  method ParseDestinations(ps: seq<Option<PbDestination>>) returns (r: Decoded<seq<Destination>>)
    ensures r == DestinationsFromProto(ps)
  {
    var ds: seq<Destination> := [];
    for i := 0 to |ps|
      invariant DestinationsFromProto(ps[..i]) == Ok(ds)
    {
      assert ps[..i + 1][..i] == ps[..i];
      var p := ps[i];
      if p.None? {
        continue;
      }
      if |p.value.id| != 16 {
        FailureStays(ps, i + 1);
        return Failed;
      }
      var d := p.value;
      ds := ds + [Destination(ContainerFromProto(d.container), d.status, d.id, d.name, d.url)];
    }
    assert ps[..|ps|] == ps;
    return Ok(ds);
  }

  lemma {:induction false} FailureStays(ps: seq<Option<PbDestination>>, i: nat)
    requires i <= |ps| && DestinationsFromProto(ps[..i]).Failed?
    ensures DestinationsFromProto(ps) == Failed
    decreases |ps| - i
  {
    if i == |ps| {
      assert ps[..i] == ps;
    } else {
      assert ps[..i + 1][..i] == ps[..i];
      FailureStays(ps, i + 1);
    }
  }

  /** A list parses exactly if every destination present has an ID of 16 bytes. */
  lemma {:induction false} DestinationsParseIff(ps: seq<Option<PbDestination>>)
    ensures DestinationsFromProto(ps).Ok? <==> forall i :: 0 <= i < |ps| && ps[i].Some? ==> |ps[i].value.id| == 16
    ensures !DestinationsFromProto(ps).Panics?
  {
    if ps != [] {
      var init := ps[..|ps| - 1];
      DestinationsParseIff(init);
      assert forall i :: 0 <= i < |init| ==> init[i] == ps[i];
    }
  }

  function NormDestination(d: Destination): Destination {
    d.(container := NormContainer(d.container), status := if KnownStatus(d.status) then d.status else OFF_AIR)
  }

  function NormDestinations(ds: seq<Destination>): seq<Destination> {
    seq(|ds|, i requires 0 <= i < |ds| => NormDestination(ds[i]))
  }

  predicate CanonicalDestination(d: Destination) {
    CanonicalContainer(d.container) && KnownStatus(d.status)
  }

  predicate CanonicalDestinations(ds: seq<Destination>) {
    forall i :: 0 <= i < |ds| ==> CanonicalDestination(ds[i])
  }

  lemma DestinationNorm(d: Destination)
    ensures NormDestination(d) == d <==> CanonicalDestination(d)
    ensures CanonicalDestination(NormDestination(d))
  {
    ContainerRoundTrip(d.container);
    hide NormContainer, CanonicalContainer;
  }

  lemma {:induction false} DestinationsRoundTrip(ds: seq<Destination>)
    ensures DestinationsFromProto(DestinationsToProto(ds)) == Ok(NormDestinations(ds))
  {
    if ds != [] {
      var init, last := ds[..|ds| - 1], ds[|ds| - 1];
      DestinationsRoundTrip(init);
      ContainerRoundTrip(last.container);
      assert DestinationsToProto(ds)[..|ds| - 1] == DestinationsToProto(init);
      assert NormDestinations(ds) == NormDestinations(init) + [NormDestination(last)];
      hide ContainerToProto, ContainerFromProto, NormContainer;
      var q := DestinationToProto(last);
      assert DestinationsToProto(ds)[|ds| - 1] == Some(q);
      assert Destination(ContainerFromProto(q.container), q.status, q.id, q.name, q.url) == NormDestination(last);
    } else {
      assert NormDestinations(ds) == [] && DestinationsToProto(ds) == [];
    }
  }

  lemma DestinationsNorm(ds: seq<Destination>)
    ensures NormDestinations(ds) == ds <==> CanonicalDestinations(ds)
    ensures CanonicalDestinations(NormDestinations(ds))
  {
    forall i | 0 <= i < |ds|
      ensures NormDestinations(ds)[i] == NormDestination(ds[i])
      ensures NormDestination(ds[i]) == ds[i] <==> CanonicalDestination(ds[i])
      ensures CanonicalDestination(NormDestination(ds[i]))
    {
      DestinationNorm(ds[i]);
    }
    hide NormDestination, CanonicalDestination;
    if NormDestinations(ds) == ds {
      assert forall i :: 0 <= i < |ds| ==> NormDestinations(ds)[i] == ds[i];
    }
  }

  // ----- Validation errors -----

  function TextOf(v: PbValue): string {
    if v.PbString? then v.text else ""
  }

  function ValuesOf(messages: seq<string>): seq<PbValue> {
    seq(|messages|, i requires 0 <= i < |messages| => PbString(messages[i]))
  }

  /** Empty messages, and values that are not strings, are left out. */
  function MessagesOf(values: seq<PbValue>): seq<string> {
    if values == [] then []
    else
      var text := TextOf(values[|values| - 1]);
      MessagesOf(values[..|values| - 1]) + (if text != "" then [text] else [])
  }

  function NonEmpty(messages: seq<string>): seq<string> {
    if messages == [] then []
    else
      NonEmpty(messages[..|messages| - 1]) +
      (if messages[|messages| - 1] != "" then [messages[|messages| - 1]] else [])
  }

  function ErrorsToProto(errs: ValidationErrors): PbErrors {
    map field | field in errs :: Some(ValuesOf(errs[field]))
  }

  function ErrorsFromProto(p: PbErrors): ValidationErrors {
    map field | field in p && p[field].Some? :: MessagesOf(p[field].value)
  }

  /** The loops of validationErrorsToProto; the table is visited in an arbitrary order. */
  method ConvertErrors(errs: ValidationErrors) returns (p: PbErrors)
    ensures p == ErrorsToProto(errs)
  {
    p := map[];
    var rest := errs.Keys;
    while rest != {}
      invariant rest <= errs.Keys && p.Keys == errs.Keys - rest
      invariant forall field :: field in p ==> p[field] == Some(ValuesOf(errs[field]))
    {
      var field :| field in rest;
      var values: seq<PbValue> := [];
      for i := 0 to |errs[field]|
        invariant values == ValuesOf(errs[field][..i])
      {
        values := values + [PbString(errs[field][i])];
      }
      assert errs[field][..|errs[field]|] == errs[field];
      p := p[field := Some(values)];
      rest := rest - {field};
    }
  }

  /** The loops of validationErrorsFromProto. */
  method ParseErrors(p: PbErrors) returns (errs: ValidationErrors)
    ensures errs == ErrorsFromProto(p)
  {
    errs := map[];
    var rest := p.Keys;
    while rest != {}
      invariant rest <= p.Keys
      invariant errs.Keys == set field | field in p && field !in rest && p[field].Some?
      invariant forall field :: field in errs ==> errs[field] == MessagesOf(p[field].value)
    {
      var field :| field in rest;
      rest := rest - {field};
      if p[field].None? {
        continue;
      }
      var values := p[field].value;
      var messages: seq<string> := [];
      for i := 0 to |values|
        invariant messages == MessagesOf(values[..i])
      {
        assert values[..i + 1][..i] == values[..i];
        if TextOf(values[i]) != "" {
          messages := messages + [TextOf(values[i])];
        }
      }
      assert values[..|values|] == values;
      errs := errs[field := messages];
    }
  }

  lemma {:induction false} MessagesRoundTrip(messages: seq<string>)
    ensures MessagesOf(ValuesOf(messages)) == NonEmpty(messages)
    ensures |NonEmpty(messages)| <= |messages|
    ensures NonEmpty(messages) == messages <==> "" !in messages
    ensures "" !in NonEmpty(messages)
  {
    if messages != [] {
      var init, last := messages[..|messages| - 1], messages[|messages| - 1];
      MessagesRoundTrip(init);
      assert ValuesOf(messages)[..|init|] == ValuesOf(init);
      assert messages == init + [last];
      if NonEmpty(messages) == messages {
        assert |NonEmpty(init)| == |init| && last != "";
        assert NonEmpty(init) == messages[..|init|];
      }
    }
  }

  function NormErrors(errs: ValidationErrors): ValidationErrors {
    map field | field in errs :: NonEmpty(errs[field])
  }

  predicate CanonicalErrors(errs: ValidationErrors) {
    forall field :: field in errs ==> "" !in errs[field]
  }

  lemma NormErrorsFixIff(errs: ValidationErrors)
    ensures NormErrors(errs) == errs <==> CanonicalErrors(errs)
    ensures CanonicalErrors(NormErrors(errs))
  {
    forall field | field in errs
      ensures NonEmpty(errs[field]) == errs[field] <==> "" !in errs[field]
      ensures "" !in NonEmpty(errs[field])
    {
      MessagesRoundTrip(errs[field]);
    }
    hide MessagesOf, NonEmpty;
    if NormErrors(errs) == errs {
      assert forall field :: field in errs ==> NormErrors(errs)[field] == errs[field];
    }
  }

  lemma ErrorsRoundTrip(errs: ValidationErrors)
    ensures ErrorsFromProto(ErrorsToProto(errs)) == NormErrors(errs)
    ensures NormErrors(errs) == errs <==> CanonicalErrors(errs)
    ensures CanonicalErrors(NormErrors(errs))
  {
    NormErrorsFixIff(errs);
    hide CanonicalErrors;
    forall field | field in errs
      ensures MessagesOf(ValuesOf(errs[field])) == NonEmpty(errs[field])
    {
      MessagesRoundTrip(errs[field]);
    }
    hide MessagesOf, NonEmpty;
  }

  // ----- Events -----

  function AppStateToProto(s: AppState): PbAppState {
    PbAppState(
      Some(PbSource(
        Some(ContainerToProto(s.source.container)), s.source.live, TimeToProto(s.source.liveChangedAt),
        s.source.tracks, s.source.rtmpURL, s.source.rtmpsURL, s.source.rtspURL, s.source.rtspsURL,
        s.source.exitReason)),
      DestinationsToProto(s.destinations),
      Some(s.buildInfo))
  }

  /** EventToWrappedProto; None where the program panics. */
  function EventToProto(e: Event): Option<PbEvent> {
    match e
    case AppStateChanged(s) => Some(PbAppStateChanged(Some(Some(AppStateToProto(s)))))
    case DestinationsListed(ds) => Some(PbDestinationsListed(Some(DestinationsToProto(ds))))
    case ListDestinationsFailed(error) => Some(PbListFailed(Some(error)))
    case DestinationAdded(id) => Some(PbAdded(Some(PbID(id))))
    case AddDestinationFailed(url, error, errs) =>
      Some(PbAddDestinationFailed(Some(PbAddFailed(url, error, ErrorsToProto(errs)))))
    case DestinationUpdated(id) => Some(PbUpdated(Some(PbID(id))))
    case UpdateDestinationFailed(id, error, errs) =>
      Some(PbUpdateDestinationFailed(Some(PbUpdateFailed(id, error, ErrorsToProto(errs)))))
    case DestinationStreamExited(id, name, err) =>
      if err.None? then None  // evt.Err.Error() on a nil error
      else Some(PbDestinationStreamExited(Some(PbStreamExited(id, name, err.value))))
    case DestinationStarted(id) => Some(PbStarted(Some(PbID(id))))
    case StartDestinationFailed(id, error) => Some(PbStartFailed(Some(PbIDError(id, error))))
    case DestinationStopped(id) => Some(PbStopped(Some(PbID(id))))
    case StopDestinationFailed(id, error) => Some(PbStopFailed(Some(PbIDError(id, error))))
    case DestinationRemoved(id) => Some(PbRemoved(Some(PbID(id))))
    case RemoveDestinationFailed(id, error) => Some(PbRemoveFailed(Some(PbIDError(id, error))))
    case FatalErrorOccurred(message) => Some(PbFatalError(Some(message)))
    case OtherInstanceDetected => Some(PbOtherInstanceDetected)
    case MediaServerStarted => Some(PbMediaServerStarted(true))
  }

  function AppStateFromProto(m: Option<Option<PbAppState>>): Decoded<Event> {
    if m.None? || m.value.None? || m.value.value.source.None? then Failed
    else
      var state := m.value.value;
      var source := state.source.value;
      match DestinationsFromProto(state.destinations)
      case Failed => Failed
      case Panics => Panics
      case Ok(ds) =>
        if state.buildInfo.None? then Panics  // BuildInfo is dereferenced without a check
        else
          Ok(AppStateChanged(AppState(
            Source(ContainerFromProto(source.container), source.live, TimeFromProto(source.liveChangedAt),
                   source.tracks, source.rtmpURL, source.rtmpsURL, source.rtspURL, source.rtspsURL,
                   source.exitReason),
            ds, state.buildInfo.value)))
  }

  /** EventFromWrappedProto */
  function EventFromProto(p: Option<PbEvent>): Decoded<Event> {
    if p.None? then Failed
    else
      match p.value
      case PbAppStateChanged(m) => AppStateFromProto(m)
      case PbDestinationsListed(m) =>
        if m.None? then Failed
        else
          (match DestinationsFromProto(m.value)
           case Ok(ds) => Ok(DestinationsListed(ds))
           case Failed => Failed
           case Panics => Panics)
      case PbListFailed(m) => if m.None? then Failed else Ok(ListDestinationsFailed(m.value))
      case PbAdded(m) => if m.None? || |m.value.id| != 16 then Failed else Ok(DestinationAdded(m.value.id))
      case PbAddDestinationFailed(m) =>
        if m.None? then Failed
        else Ok(AddDestinationFailed(m.value.url, m.value.error, ErrorsFromProto(m.value.validationErrors)))
      case PbUpdated(m) => if m.None? || |m.value.id| != 16 then Failed else Ok(DestinationUpdated(m.value.id))
      case PbUpdateDestinationFailed(m) =>
        if m.None? || |m.value.id| != 16 then Failed
        else Ok(UpdateDestinationFailed(m.value.id, m.value.error, ErrorsFromProto(m.value.validationErrors)))
      case PbDestinationStreamExited(m) =>
        if m.None? || |m.value.id| != 16 then Failed
        else Ok(DestinationStreamExited(m.value.id, m.value.name, Some(m.value.error)))
      case PbStarted(m) => if m.None? || |m.value.id| != 16 then Failed else Ok(DestinationStarted(m.value.id))
      case PbStartFailed(m) =>
        if m.None? || |m.value.id| != 16 then Failed else Ok(StartDestinationFailed(m.value.id, m.value.error))
      case PbStopped(m) => if m.None? || |m.value.id| != 16 then Failed else Ok(DestinationStopped(m.value.id))
      case PbStopFailed(m) =>
        if m.None? || |m.value.id| != 16 then Failed else Ok(StopDestinationFailed(m.value.id, m.value.error))
      case PbRemoved(m) => if m.None? || |m.value.id| != 16 then Failed else Ok(DestinationRemoved(m.value.id))
      case PbRemoveFailed(m) =>
        if m.None? || |m.value.id| != 16 then Failed else Ok(RemoveDestinationFailed(m.value.id, m.value.error))
      case PbFatalError(m) => if m.None? then Failed else Ok(FatalErrorOccurred(m.value))
      case PbOtherInstanceDetected => Ok(OtherInstanceDetected)
      case PbMediaServerStarted(present) => if present then Ok(MediaServerStarted) else Failed
      case PbHandshakeCompleted => Failed
  }

  function NormAppState(s: AppState): AppState {
    s.(source := s.source.(container := NormContainer(s.source.container)),
       destinations := NormDestinations(s.destinations))
  }

  /** What an event looks like on the other side. */
  function Norm(e: Event): Event {
    match e
    case AppStateChanged(s) => AppStateChanged(NormAppState(s))
    case DestinationsListed(ds) => DestinationsListed(NormDestinations(ds))
    case AddDestinationFailed(url, error, errs) => AddDestinationFailed(url, error, NormErrors(errs))
    case UpdateDestinationFailed(id, error, errs) => UpdateDestinationFailed(id, error, NormErrors(errs))
    case _ => e
  }

  /** Integers fit 32 bits, statuses are known, container errors and validation messages are not empty. */
  predicate Canonical(e: Event) {
    match e
    case AppStateChanged(s) => CanonicalContainer(s.source.container) && CanonicalDestinations(s.destinations)
    case DestinationsListed(ds) => CanonicalDestinations(ds)
    case AddDestinationFailed(_, _, errs) => CanonicalErrors(errs)
    case UpdateDestinationFailed(_, _, errs) => CanonicalErrors(errs)
    case _ => true
  }

  lemma AppStateDecodesToNorm(s: AppState)
    ensures AppStateFromProto(Some(Some(AppStateToProto(s)))) == Ok(AppStateChanged(NormAppState(s)))
  {
    DestinationsRoundTrip(s.destinations);
    ContainerRoundTrip(s.source.container);
    TimeRoundTrip(s.source.liveChangedAt);
    hide ContainerToProto, ContainerFromProto, NormContainer, TimeToProto, TimeFromProto,
      DestinationsToProto, DestinationsFromProto, NormDestinations;
  }

  lemma PlainEventDecodesToNorm(e: Event)
    requires EventToProto(e).Some?
    requires !e.AppStateChanged? && !e.DestinationsListed?
    requires !e.AddDestinationFailed? && !e.UpdateDestinationFailed?
    ensures EventFromProto(EventToProto(e)) == Ok(Norm(e))
  {
    hide AppStateToProto, AppStateFromProto, ErrorsToProto, ErrorsFromProto, NormErrors,
      DestinationsToProto, DestinationsFromProto, NormDestinations, NormAppState;
  }

  lemma RefusalDecodesToNorm(id: UUID, text: string, error: string, errs: ValidationErrors)
    ensures EventFromProto(EventToProto(AddDestinationFailed(text, error, errs)))
         == Ok(AddDestinationFailed(text, error, NormErrors(errs)))
    ensures EventFromProto(EventToProto(UpdateDestinationFailed(id, error, errs)))
         == Ok(UpdateDestinationFailed(id, error, NormErrors(errs)))
  {
    ErrorsRoundTrip(errs);
    hide AppStateToProto, AppStateFromProto, ErrorsToProto, ErrorsFromProto, NormErrors,
      DestinationsToProto, DestinationsFromProto;
  }

  lemma EventDecodesToNorm(e: Event)
    requires EventToProto(e).Some?
    ensures EventFromProto(EventToProto(e)) == Ok(Norm(e))
  {
    if e.AddDestinationFailed? {
      RefusalDecodesToNorm(ZERO_ID, e.url, e.error, e.validationErrors);
      hide EventToProto, EventFromProto, NormErrors;
    } else if e.UpdateDestinationFailed? {
      RefusalDecodesToNorm(e.id, "", e.error, e.validationErrors);
      hide EventToProto, EventFromProto, NormErrors;
    } else if e.AppStateChanged? {
      AppStateDecodesToNorm(e.state);
      hide AppStateToProto, AppStateFromProto, NormAppState;
    } else if e.DestinationsListed? {
      DestinationsRoundTrip(e.destinations);
      hide DestinationsToProto, DestinationsFromProto, NormDestinations;
    } else {
      PlainEventDecodesToNorm(e);
      hide EventToProto, EventFromProto, Norm;
    }
  }

  lemma NormFixesCanonical(e: Event)
    ensures Norm(e) == e <==> Canonical(e)
    ensures Canonical(Norm(e))
    ensures Norm(Norm(e)) == Norm(e)
  {
    match e
    case AppStateChanged(s) =>
      ContainerRoundTrip(s.source.container);
      ContainerRoundTrip(NormContainer(s.source.container));
      DestinationsNorm(s.destinations);
      DestinationsNorm(NormDestinations(s.destinations));
      hide NormContainer, CanonicalContainer, NormDestinations, CanonicalDestinations;
    case DestinationsListed(ds) =>
      DestinationsNorm(ds);
      DestinationsNorm(NormDestinations(ds));
      hide NormDestinations, CanonicalDestinations;
    case AddDestinationFailed(_, _, errs) =>
      ErrorsRoundTrip(errs);
      ErrorsRoundTrip(NormErrors(errs));
      hide NormErrors, CanonicalErrors;
    case UpdateDestinationFailed(_, _, errs) =>
      ErrorsRoundTrip(errs);
      ErrorsRoundTrip(NormErrors(errs));
      hide NormErrors, CanonicalErrors;
    case _ =>
  }

  /** Encoding fails exactly on a stream exit without an error. Otherwise decoding what was encoded
      succeeds; gives the event back exactly if the event is canonical; and in any case gives one on
      which a second round trip changes nothing. */
  lemma {:induction false} EventRoundTrip(e: Event)
    ensures EventToProto(e).None? <==> e.DestinationStreamExited? && e.err.None?
    ensures EventToProto(e).Some? ==>
              var once := EventFromProto(EventToProto(e));
              && once.Ok?
              && (once == Ok(e) <==> Canonical(e))
              && EventFromProto(EventToProto(once.value)) == once
  {
    if EventToProto(e).Some? {
      EventDecodesToNorm(e);
      NormFixesCanonical(e);
      assert EventToProto(Norm(e)).Some?;
      EventDecodesToNorm(Norm(e));
    }
    hide EventFromProto, Canonical;
  }

  /** Decoding panics exactly on an app state that has a source, and destinations that all parse, but
      no build information. */
  lemma DecodePanicsIff(p: Option<PbEvent>)
    ensures EventFromProto(p).Panics? <==>
              && p.Some? && p.value.PbAppStateChanged?
              && var m := p.value.appStateChanged;
                 && m.Some? && m.value.Some? && m.value.value.source.Some?
                 && m.value.value.buildInfo.None?
                 && forall i :: 0 <= i < |m.value.value.destinations| && m.value.value.destinations[i].Some? ==>
                      |m.value.value.destinations[i].value.id| == 16
  {
    if p.Some? {
      match p.value
      case PbAppStateChanged(m) =>
        if m.Some? && m.value.Some? {
          DestinationsParseIff(m.value.value.destinations);
        }
      case PbDestinationsListed(m) =>
        if m.Some? {
          DestinationsParseIff(m.value);
        }
      case _ =>
    }
    hide DestinationsFromProto, ContainerFromProto, ErrorsFromProto;
  }
}
