/** What the page makes of every event it is sent: frontend/src/event-parser.ts, joined with the encoder of the
    server. */
module Page {
  import opened Domain
  import opened Protocol
  import HexID
  import Requests

  /** ContainerState of the page. The status is None where the page shows none. */
  datatype PageContainer = PageContainer(
    status: Option<ContainerStatus>, healthState: string, cpuPercent: real, memoryUsageBytes: nat,
    rxRate: int, txRate: int, pullPercent: int, pullStatus: string, pullProgress: string, imageName: string,
    err: Option<string>)

  /** SourceState. Of liveChangedAt only whether there is a date. */
  datatype PageSource = PageSource(
    live: bool, dated: bool, tracks: seq<string>,
    rtmpURL: string, rtmpsURL: string, rtspURL: string, rtspsURL: string, container: PageContainer)

  datatype PageDestination = PageDestination(row: Requests.Row, container: PageContainer)

  datatype PageState = PageState(source: PageSource, destinations: seq<PageDestination>)

  /** AppEvent. An error that is about a destination shows its ID. */
  datatype PageEvent =
    | StateChanged(state: PageState)
    | Added(id: HexID.Text)
    | Updated(id: HexID.Text)
    | Removed(id: HexID.Text)
    | Started(id: HexID.Text)
    | Stopped(id: HexID.Text)
    | StreamExited(id: HexID.Text, name: string, error: string)
    | HandshakeDone
    | AddFailed(url: string, error: string, errors: map<string, seq<string>>)
    | UpdateFailed(id: HexID.Text, error: string, errors: map<string, seq<string>>)
    | ErrorShown(message: string, about: Option<HexID.Text>)

  const NO_CONTAINER := PageContainer(None, "", 0.0, 0, 0, 0, 0, "", "", "", None)

  /** parseContainerStatus; the page does not know dead containers. */
  function ParseContainerStatus(status: ContainerStatus): Option<ContainerStatus> {
    if status.Dead? || status.OtherStatus? then None else Some(status)
  }

  function ParseContainer(p: Option<PbContainer>): PageContainer {
    match p
    case None => NO_CONTAINER
    case Some(c) =>
      PageContainer(ParseContainerStatus(c.status), c.healthState, c.cpuPercent, c.memoryUsageBytes,
                    c.rxRate, c.txRate, c.pullPercent, c.pullStatus, c.pullProgress, c.imageName,
                    if c.err == "" then None else Some(c.err))
  }

  function ParseSource(p: Option<PbSource>): PageSource {
    match p
    case None => PageSource(false, false, [], "", "", "", "", NO_CONTAINER)
    case Some(s) =>
      PageSource(s.live, s.liveChangedAt.Some?, s.tracks, s.rtmpURL, s.rtmpsURL, s.rtspURL, s.rtspsURL,
                 ParseContainer(s.container))
  }

  function ParseDestination(p: Option<PbDestination>): PageDestination {
    PageDestination(Requests.ParseRow(p), ParseContainer(if p.Some? then p.value.container else None))
  }

  function ParseState(p: Option<PbAppState>): PageState {
    match p
    case None => PageState(ParseSource(None), [])
    case Some(s) =>
      PageState(ParseSource(s.source),
                seq(|s.destinations|, i requires 0 <= i < |s.destinations| => ParseDestination(s.destinations[i])))
  }

  /** buildValidationErrors, for the string values that the server sends. */
  function ParseFieldErrors(p: PbErrors): map<string, seq<string>> {
    map field | field in p ::
      if p[field].None? then []
      else seq(|p[field].value|, i requires 0 <= i < |p[field].value| => TextOf(p[field].value[i]))
  }

  function TextOfID(m: Option<PbID>): HexID.Text {
    if m.None? then [] else HexID.StringOf(m.value.id)
  }

  function ErrorAbout(what: string, m: Option<PbIDError>): PageEvent {
    if m.None? then ErrorShown(what, Some([])) else ErrorShown(what + m.value.error, Some(HexID.StringOf(m.value.id)))
  }

  /** parseEvent; None for the events that the page leaves unhandled. */
  function ParseEvent(e: PbEvent): Option<PageEvent> {
    match e
    case PbAppStateChanged(m) => Some(StateChanged(ParseState(if m.Some? then m.value else None)))
    case PbAdded(m) => Some(Added(TextOfID(m)))
    case PbUpdated(m) => Some(Updated(TextOfID(m)))
    case PbRemoved(m) => Some(Removed(TextOfID(m)))
    case PbStarted(m) => Some(Started(TextOfID(m)))
    case PbStopped(m) => Some(Stopped(TextOfID(m)))
    case PbDestinationStreamExited(m) =>
      if m.None? then Some(StreamExited([], "", ""))
      else Some(StreamExited(HexID.StringOf(m.value.id), m.value.name, m.value.error))
    case PbHandshakeCompleted => Some(HandshakeDone)
    case PbFatalError(m) => Some(ErrorShown(if m.Some? then m.value else "", None))
    case PbAddDestinationFailed(m) =>
      if m.None? then Some(AddFailed("", "", map[]))
      else Some(AddFailed(m.value.url, m.value.error, ParseFieldErrors(m.value.validationErrors)))
    case PbUpdateDestinationFailed(m) =>
      if m.None? then Some(UpdateFailed([], "", map[]))
      else Some(UpdateFailed(HexID.StringOf(m.value.id), m.value.error, ParseFieldErrors(m.value.validationErrors)))
    case PbRemoveFailed(m) => Some(ErrorAbout("Remove destination failed: ", m))
    case PbStartFailed(m) => Some(ErrorAbout("Start destination failed: ", m))
    case PbStopFailed(m) => Some(ErrorAbout("Failed to stop destination: ", m))
    case _ => None
  }

  // ----- What the page shows of what the server meant -----

  /** x, or what is left of it in 32 bits. */
  predicate Narrowed(y: int, x: int) {
    -0x8000_0000 <= y < 0x8000_0000 && (y - x) % 0x1_0000_0000 == 0
  }

  lemma ToInt32Narrows(x: int)
    ensures Narrowed(ToInt32(x), x)
  {
  }

  /** Field by field; an empty error counts as none. */
  predicate ShowsContainer(p: PageContainer, c: Container) {
    && (p.status == None <==> c.status.Dead? || c.status.OtherStatus?)
    && (p.status.Some? ==> p.status.value == c.status)
    && p.healthState == c.healthState && p.cpuPercent == c.cpuPercent && p.memoryUsageBytes == c.memoryUsageBytes
    && Narrowed(p.rxRate, c.rxRate) && Narrowed(p.txRate, c.txRate) && Narrowed(p.pullPercent, c.pullPercent)
    && p.pullStatus == c.pullStatus && p.pullProgress == c.pullProgress && p.imageName == c.imageName
    && p.err == (if c.err == Some("") then None else c.err)
  }

  lemma ContainerIsShown(c: Container)
    ensures ShowsContainer(ParseContainer(Some(ContainerToProto(c))), c)
  {
    ToInt32Narrows(c.rxRate);
    ToInt32Narrows(c.txRate);
    ToInt32Narrows(c.pullPercent);
    hide ToInt32, TimeToProto, Narrowed;
  }

  predicate ShowsSource(p: PageSource, s: Source) {
    && p.live == s.live && p.tracks == s.tracks && (p.dated <==> s.liveChangedAt != ZERO_TIME)
    && p.rtmpURL == s.rtmpURL && p.rtmpsURL == s.rtmpsURL && p.rtspURL == s.rtspURL && p.rtspsURL == s.rtspsURL
    && ShowsContainer(p.container, s.container)
  }

  predicate ShowsDestination(p: PageDestination, d: Destination) {
    && p.row.id == HexID.StringOf(d.id) && p.row.name == d.name && p.row.url == d.url
    && p.row.status == (if d.status == 2 then Requests.ShownLive
                        else if d.status == 1 then Requests.ShownStarting
                        else Requests.ShownOffAir)
    && ShowsContainer(p.container, d.container)
  }

  predicate ShowsState(p: PageState, s: AppState) {
    && ShowsSource(p.source, s.source)
    && |p.destinations| == |s.destinations|
    && forall i :: 0 <= i < |p.destinations| ==> ShowsDestination(p.destinations[i], s.destinations[i])
  }

  lemma DestinationIsShown(d: Destination)
    ensures ShowsDestination(ParseDestination(Some(DestinationToProto(d))), d)
  {
    ContainerIsShown(d.container);
    hide ContainerToProto, ParseContainer, ShowsContainer, HexID.StringOf;
  }

  lemma StateIsShown(s: AppState)
    ensures ShowsState(ParseState(Some(AppStateToProto(s))), s)
  {
    var p := ParseState(Some(AppStateToProto(s)));
    ContainerIsShown(s.source.container);
    assert ShowsSource(p.source, s.source) by {
      hide ContainerToProto, ParseContainer, ShowsContainer, DestinationsToProto;
    }
    forall i | 0 <= i < |s.destinations|
      ensures ShowsDestination(p.destinations[i], s.destinations[i])
    {
      DestinationIsShown(s.destinations[i]);
      hide DestinationToProto, ParseDestination, ShowsDestination, ParseSource, ContainerToProto;
    }
    hide ShowsSource, ShowsDestination, ParseSource, ParseDestination, ContainerToProto, DestinationToProto;
  }

  lemma FieldErrorsAreShown(errs: ValidationErrors)
    ensures ParseFieldErrors(ErrorsToProto(errs)) == errs
  {
    var p := ErrorsToProto(errs);
    forall field | field in errs
      ensures ParseFieldErrors(p)[field] == errs[field]
    {
      assert p[field] == Some(ValuesOf(errs[field]));
    }
  }

  /** What the page is to make of an event. */
  predicate Sees(p: Option<PageEvent>, e: Event) {
    match e
    case AppStateChanged(s) => p.Some? && p.value.StateChanged? && ShowsState(p.value.state, s)
    case DestinationAdded(id) => p == Some(Added(HexID.StringOf(id)))
    case DestinationUpdated(id) => p == Some(Updated(HexID.StringOf(id)))
    case DestinationRemoved(id) => p == Some(Removed(HexID.StringOf(id)))
    case DestinationStarted(id) => p == Some(Started(HexID.StringOf(id)))
    case DestinationStopped(id) => p == Some(Stopped(HexID.StringOf(id)))
    case DestinationStreamExited(id, name, err) =>
      err.Some? && p == Some(StreamExited(HexID.StringOf(id), name, err.value))
    case AddDestinationFailed(url, error, errors) => p == Some(AddFailed(url, error, errors))
    case UpdateDestinationFailed(id, error, errors) => p == Some(UpdateFailed(HexID.StringOf(id), error, errors))
    case RemoveDestinationFailed(id, error) =>
      p == Some(ErrorShown("Remove destination failed: " + error, Some(HexID.StringOf(id))))
    case StartDestinationFailed(id, error) =>
      p == Some(ErrorShown("Start destination failed: " + error, Some(HexID.StringOf(id))))
    case StopDestinationFailed(id, error) =>
      p == Some(ErrorShown("Failed to stop destination: " + error, Some(HexID.StringOf(id))))
    case FatalErrorOccurred(message) => p == Some(ErrorShown(message, None))
    case DestinationsListed(_) => p == None
    case ListDestinationsFailed(_) => p == None
    case OtherInstanceDetected => p == None
    case MediaServerStarted => p == None
  }

  /** For every event that the server can encode: the page sees what was meant, field by field, with whole lists
      in their order and the validation errors as they are. It shows no status of a dead container and of
      one with an unknown status, and cuts rates and percentages to 32 bits; and it takes no notice of lists
      and of two notices of the server. */
  lemma PageSeesEvent(e: Event)
    requires EventToProto(e).Some?
    ensures Sees(ParseEvent(EventToProto(e).value), e)
  {
    if e.AppStateChanged? {
      StateIsShown(e.state);
    } else if e.AddDestinationFailed? || e.UpdateDestinationFailed? {
      FieldErrorsAreShown(e.validationErrors);
    }
    hide ShowsState, ParseState, AppStateToProto, DestinationsToProto, ErrorsToProto, ParseFieldErrors, HexID.StringOf;
  }
}
