/** What the page of a browser makes of a destination list, and what the server makes of the page's
    commands: buildCommand of frontend/src/command-builder.ts and the destination part of
    frontend/src/event-parser.ts, joined with the converters of the server. */
module Requests {
  import opened Domain
  import opened Protocol
  import opened HexID

  /** The page's own commands, which name a destination by the text of its ID. */
  datatype Request =
    | Add(name: string, url: string)
    | Update(id: Text, newName: Option<string>, newURL: Option<string>)
    | Remove(id: Text, force: bool)
    | Start(id: Text)
    | Stop(id: Text)

  /** stringToBytes, as specified by HexID.StringToBytes. */
  function IDBytes(id: Text): Option<seq<Byte>> {
    if |id| % 2 == 0 then Some(BytesOf(id)) else None
  }

  /** buildCommand; None where it throws. */
  function BuildCommand(r: Request): Option<PbCommand> {
    if r.Add? then Some(PbAddCommand(Some(PbAdd(r.name, r.url))))
    else
      var bytes := IDBytes(r.id);
      if bytes.None? then None
      else
        match r
        case Update(_, name, url) => Some(PbUpdateCommand(Some(PbUpdate(bytes.value, name, url))))
        case Remove(_, force) => Some(PbRemoveCommand(Some(PbRemove(bytes.value, force))))
        case Start(_) => Some(PbStartCommand(Some(PbID(bytes.value))))
        case Stop(_) => Some(PbStopCommand(Some(PbID(bytes.value))))
  }

  /** What the server decodes; None if the browser throws before sending. */
  function Received(r: Request): Option<Decoded<Command>> {
    if BuildCommand(r).None? then None else Some(CommandFromProto(BuildCommand(r)))
  }

  /** The same request about the destination with this ID. */
  function CommandFor(r: Request, id: UUID): Command {
    match r
    case Add(name, url) => AddDestination(name, url)
    case Update(_, name, url) => UpdateDestination(id, name, url)
    case Remove(_, force) => RemoveDestination(id, force)
    case Start(_) => StartDestination(id)
    case Stop(_) => StopDestination(id)
  }

  /** An add arrives as it was made. Of the others the browser refuses exactly the IDs of odd length and the
      server those that are not 32 long. No text of length 32 is refused, hexadecimal or not. */
  lemma ReceivedIff(r: Request)
    ensures r.Add? ==> Received(r) == Some(Ok(AddDestination(r.name, r.url)))
    ensures !r.Add? ==>
              && (Received(r).None? <==> |r.id| % 2 != 0)
              && (Received(r) == Some(Failed) <==> |r.id| % 2 == 0 && |r.id| != 32)
              && (|r.id| == 32 ==> Received(r) == Some(Ok(CommandFor(r, BytesOf(r.id)))))
  {
  }

  datatype RowStatus = ShownLive | ShownOffAir | ShownStarting

  /** A destination as the page shows it. */
  datatype Row = Row(id: Text, name: string, url: string, status: RowStatus)

  /** parseDestinationStatus(status || ''): 0 goes through the text branch. */
  function ParseStatus(status: int): RowStatus {
    if status == 0 then ShownOffAir
    else if status == 1 then ShownStarting
    else if status == 2 then ShownLive
    else ShownOffAir
  }

  function ParseRow(p: Option<PbDestination>): Row {
    if p.None? then Row([], "", "", ShownOffAir)
    else Row(StringOf(p.value.id), p.value.name, p.value.url, ParseStatus(p.value.status))
  }

  /** The destinations of parseAppState. */
  function ParseRows(ps: seq<Option<PbDestination>>): seq<Row> {
    seq(|ps|, i requires 0 <= i < |ps| => ParseRow(ps[i]))
  }

  /** The request the page makes when its user acts on a row. */
  predicate About(r: Request, row: Row) {
    !r.Add? && r.id == row.id
  }

  /** The page shows every destination of the state it was sent, in order; what its user does to a row
      reaches the server as that command on that destination; and rows of different destinations have
      different IDs. */
  lemma RowsAddressDestinations(ds: seq<Destination>, r: Request, i: nat, j: nat)
    requires i < |ds| && j < |ds|
    ensures var rows := ParseRows(DestinationsToProto(ds));
            && |rows| == |ds| && rows[i].id == StringOf(ds[i].id)
            && rows[i].name == ds[i].name && rows[i].url == ds[i].url
            && (rows[i].status == ShownLive <==> ds[i].status == LIVE)
            && (rows[i].status == ShownStarting <==> ds[i].status == STARTING)
            && (About(r, rows[i]) ==> Received(r) == Some(Ok(CommandFor(r, ds[i].id))))
            && (rows[i].id == rows[j].id <==> ds[i].id == ds[j].id)
  {
    BytesRoundTrip(ds[i].id);
    BytesRoundTrip(ds[j].id);
    StringOfPairs(ds[i].id);
    hide BytesOf, StringOf;
    if About(r, ParseRow(Some(DestinationToProto(ds[i])))) {
      ReceivedIff(r);
    }
  }
}
