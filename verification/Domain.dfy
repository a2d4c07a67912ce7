/** The values shared by every component: times, identifiers, containers, destinations,
    the application state, and the commands and events that travel between client and server. */
module Domain {

  datatype Option<+T> = None | Some(value: T)

  /** An instant, in nanoseconds since the Unix epoch. */
  type Time = int

  const SECOND := 1_000_000_000

  /** The zero time.Time: midnight, 1 January of year 1. */
  const ZERO_TIME: Time := -62_135_596_800 * SECOND

  type Byte = x: int | 0 <= x < 256

  const ZERO_ID: seq<Byte> := [0, 0, 0, 0, 0, 0, 0, 0, 0, 0, 0, 0, 0, 0, 0, 0]

  type UUID = id: seq<Byte> | |id| == 16 witness ZERO_ID

  /** Container.Status is a string in the program: the eight named ones, or any other text. */
  datatype ContainerStatus =
    | Pulling | Created | Running | Paused | Restarting | Removing | Exited | Dead
    | OtherStatus(text: string)

  /** An error value is represented by its message. */
  type Error = string

  datatype Container = Container(
    id: string,
    status: ContainerStatus,
    healthState: string,
    cpuPercent: real,
    memoryUsageBytes: nat,
    rxRate: int,
    txRate: int,
    rxSince: Time,
    imageName: string,
    pullStatus: string,
    pullProgress: string,
    pullPercent: int,
    restartCount: int,
    exitCode: Option<int>,
    err: Option<Error>)

  const ZERO_CONTAINER :=
    Container("", OtherStatus(""), "", 0.0, 0, 0, 0, ZERO_TIME, "", "", "", 0, 0, None, None)

  /** DestinationStatus is an int in the program; these are the named values. */
  type DestinationStatus = int
  const OFF_AIR: DestinationStatus := 0
  const STARTING: DestinationStatus := 1
  const LIVE: DestinationStatus := 2

  datatype Destination = Destination(
    container: Container,
    status: DestinationStatus,
    id: UUID,
    name: string,
    url: string)

  datatype Source = Source(
    container: Container,
    live: bool,
    liveChangedAt: Time,
    tracks: seq<string>,
    rtmpURL: string,
    rtmpsURL: string,
    rtspURL: string,
    rtspsURL: string,
    exitReason: string)

  datatype BuildInfo = BuildInfo(goVersion: string, version: string, commit: string, date: string)

  datatype AppState = AppState(source: Source, destinations: seq<Destination>, buildInfo: BuildInfo)

  type ValidationErrors = map<string, seq<string>>

  datatype Command =
    | ListDestinations
    | AddDestination(name: string, url: string)
    | UpdateDestination(id: UUID, newName: Option<string>, newURL: Option<string>)
    | RemoveDestination(id: UUID, force: bool)
    | StartDestination(id: UUID)
    | StopDestination(id: UUID)
    | CloseOtherInstance
    | KillServer

  datatype Event =
    | AppStateChanged(state: AppState)
    | DestinationsListed(destinations: seq<Destination>)
    | ListDestinationsFailed(error: string)
    | DestinationAdded(id: UUID)
    | AddDestinationFailed(url: string, error: string, validationErrors: ValidationErrors)
    | DestinationUpdated(id: UUID)
    | UpdateDestinationFailed(id: UUID, error: string, validationErrors: ValidationErrors)
    | DestinationStreamExited(id: UUID, name: string, err: Option<Error>)
    | DestinationStarted(id: UUID)
    | StartDestinationFailed(id: UUID, error: string)
    | DestinationStopped(id: UUID)
    | StopDestinationFailed(id: UUID, error: string)
    | DestinationRemoved(id: UUID)
    | RemoveDestinationFailed(id: UUID, error: string)
    | FatalErrorOccurred(message: string)
    | OtherInstanceDetected
    | MediaServerStarted
}
