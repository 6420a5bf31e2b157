/** The wire-level vocabulary of the Docker MCP server: the operations a client
    may name, the catalogue announced on connect, the response envelope, and
    the two fixed responses built without the backend (the error envelope of
    `sendError` and the greeting). */
module Protocol {
  import opened Wrappers
  import opened Js

  const ServiceName: string := "docker"
  const ServiceVersion: string := "0.1.0"

  /** One backend operation per supported command. */
  datatype Op =
    // container
    | ListContainers | GetContainer | StartContainer | StopContainer
    | RestartContainer | RemoveContainer | GetContainerLogs | CreateContainer
    // image
    | ListImages | PullImage | RemoveImage | BuildImage
    // volume
    | ListVolumes | CreateVolume | RemoveVolume
    // network
    | ListNetworks | CreateNetwork | RemoveNetwork
    // system
    | GetVersion | GetInfo | GetDiskUsage

  datatype Family = ContainerFamily | ImageFamily | VolumeFamily | NetworkFamily | SystemFamily

  function FamilyOf(op: Op): Family {
    match op
    case ListContainers | GetContainer | StartContainer | StopContainer
       | RestartContainer | RemoveContainer | GetContainerLogs | CreateContainer => ContainerFamily
    case ListImages | PullImage | RemoveImage | BuildImage => ImageFamily
    case ListVolumes | CreateVolume | RemoveVolume => VolumeFamily
    case ListNetworks | CreateNetwork | RemoveNetwork => NetworkFamily
    case GetVersion | GetInfo | GetDiskUsage => SystemFamily
  }

  /** The command name a client sends for an operation. */
  function Name(op: Op): string {
    match op
    case ListContainers => "listContainers"
    case GetContainer => "getContainer"
    case StartContainer => "startContainer"
    case StopContainer => "stopContainer"
    case RestartContainer => "restartContainer"
    case RemoveContainer => "removeContainer"
    case GetContainerLogs => "getContainerLogs"
    case CreateContainer => "createContainer"
    case ListImages => "listImages"
    case PullImage => "pullImage"
    case RemoveImage => "removeImage"
    case BuildImage => "buildImage"
    case ListVolumes => "listVolumes"
    case CreateVolume => "createVolume"
    case RemoveVolume => "removeVolume"
    case ListNetworks => "listNetworks"
    case CreateNetwork => "createNetwork"
    case RemoveNetwork => "removeNetwork"
    case GetVersion => "getVersion"
    case GetInfo => "getInfo"
    case GetDiskUsage => "getDiskUsage"
  }

  /** The `switch (command.type)` of the router: the operation a command
      name selects, if any. */
  function OpNamed(s: string): (r: Option<Op>)
    ensures r.Some? ==> Name(r.value) == s
  {
    match s
    case "listContainers" => Some(ListContainers)
    case "getContainer" => Some(GetContainer)
    case "startContainer" => Some(StartContainer)
    case "stopContainer" => Some(StopContainer)
    case "restartContainer" => Some(RestartContainer)
    case "removeContainer" => Some(RemoveContainer)
    case "getContainerLogs" => Some(GetContainerLogs)
    case "createContainer" => Some(CreateContainer)
    case "listImages" => Some(ListImages)
    case "pullImage" => Some(PullImage)
    case "removeImage" => Some(RemoveImage)
    case "buildImage" => Some(BuildImage)
    case "listVolumes" => Some(ListVolumes)
    case "createVolume" => Some(CreateVolume)
    case "removeVolume" => Some(RemoveVolume)
    case "listNetworks" => Some(ListNetworks)
    case "createNetwork" => Some(CreateNetwork)
    case "removeNetwork" => Some(RemoveNetwork)
    case "getVersion" => Some(GetVersion)
    case "getInfo" => Some(GetInfo)
    case "getDiskUsage" => Some(GetDiskUsage)
    case _ => None
  }

  /** Every name selects the operation it names: the switch and the name
      table are inverse to each other. */
  lemma {:induction false} NameRoundTrip(op: Op)
    ensures OpNamed(Name(op)) == Some(op)
  {
    match op
    case ListContainers =>
    case GetContainer =>
    case StartContainer =>
    case StopContainer =>
    case RestartContainer =>
    case RemoveContainer =>
    case GetContainerLogs =>
    case CreateContainer =>
    case ListImages =>
    case PullImage =>
    case RemoveImage =>
    case BuildImage =>
    case ListVolumes =>
    case CreateVolume =>
    case RemoveVolume =>
    case ListNetworks =>
    case CreateNetwork =>
    case RemoveNetwork =>
    case GetVersion =>
    case GetInfo =>
    case GetDiskUsage =>
  }

  /** No two operations share a command name. */
  lemma NameInjective(a: Op, b: Op)
    requires Name(a) == Name(b)
    ensures a == b
  {
    NameRoundTrip(a);
    NameRoundTrip(b);
  }

  /** The command names announced to clients, in the order of
      `getSupportedCommands`. */
  function SupportedCommands(): (r: seq<string>)
    ensures |r| == 21
    ensures forall i :: 0 <= i < |r| ==> OpNamed(r[i]).Some?
  {
    [ "listContainers", "getContainer", "startContainer", "stopContainer",
      "restartContainer", "removeContainer", "getContainerLogs", "createContainer",
      "listImages", "pullImage", "removeImage", "buildImage",
      "listVolumes", "createVolume", "removeVolume",
      "listNetworks", "createNetwork", "removeNetwork",
      "getVersion", "getInfo", "getDiskUsage" ]
  }

  /** The catalogue and the router agree: a name is announced exactly when the
      router has a case for it. */
  lemma CatalogueIsRoutingTable(s: string)
    ensures s in SupportedCommands() <==> OpNamed(s).Some?
  {
    var cs := SupportedCommands();
    if OpNamed(s).Some? {
      var op := OpNamed(s).value;
      var i := Position(op);
      CatalogueOrder(i);
      NameInjective(OpNamed(cs[i]).value, op);
      assert cs[i] == s;
    }
  }

  /** Where an operation's name stands in the catalogue. */
  function Position(op: Op): (i: nat)
    ensures i < 21 && CatalogueOp(i) == op
  {
    match op
    case ListContainers => 0
    case GetContainer => 1
    case StartContainer => 2
    case StopContainer => 3
    case RestartContainer => 4
    case RemoveContainer => 5
    case GetContainerLogs => 6
    case CreateContainer => 7
    case ListImages => 8
    case PullImage => 9
    case RemoveImage => 10
    case BuildImage => 11
    case ListVolumes => 12
    case CreateVolume => 13
    case RemoveVolume => 14
    case ListNetworks => 15
    case CreateNetwork => 16
    case RemoveNetwork => 17
    case GetVersion => 18
    case GetInfo => 19
    case GetDiskUsage => 20
  }

  /** The catalogue lists each command once. */
  lemma CatalogueDistinct()
    ensures forall i, j :: 0 <= i < j < |SupportedCommands()| ==> SupportedCommands()[i] != SupportedCommands()[j]
  {
    var cs := SupportedCommands();
    forall i, j | 0 <= i < j < |cs|
      ensures cs[i] != cs[j]
    {
      CatalogueOrder(i);
      CatalogueOrder(j);
    }
  }

  /** The operation at each position of the catalogue. */
  function CatalogueOp(i: nat): Op
    requires i < 21
  {
    [ ListContainers, GetContainer, StartContainer, StopContainer,
      RestartContainer, RemoveContainer, GetContainerLogs, CreateContainer,
      ListImages, PullImage, RemoveImage, BuildImage,
      ListVolumes, CreateVolume, RemoveVolume,
      ListNetworks, CreateNetwork, RemoveNetwork,
      GetVersion, GetInfo, GetDiskUsage ][i]
  }

  /** The catalogue is grouped by family: eight container commands, then
      four image, three volume, three network and three system commands; and
      position `i` names the `i`-th operation. */
  lemma CatalogueOrder(i: nat)
    requires i < 21
    ensures OpNamed(SupportedCommands()[i]) == Some(CatalogueOp(i))
    ensures FamilyOf(CatalogueOp(i)) ==
      if i < 8 then ContainerFamily
      else if i < 12 then ImageFamily
      else if i < 15 then VolumeFamily
      else if i < 18 then NetworkFamily
      else SystemFamily
  {
  }

  /** The server's reply envelope `{type, payload, error?}`. */
  datatype Response = Response(kind: string, payload: Value, error: Option<string>)

  const ErrorKind: string := "error"
  const InfoKind: string := "info"

  /** `sendError(ws, message, error?)`: an `error` response whose payload holds
      only the message; the `error` field is present only when a truthy
      error value was given, and then holds its `toString()`. */
  function ErrorResponse(message: string, err: Option<Thrown>): (r: Response)
    ensures r.kind == ErrorKind
    ensures r.payload == Obj(map["message" := Str(message)])
    ensures r.error.Some? <==> err.Some? && TruthyThrown(err.value)
    ensures r.error.Some? ==> r.error == ErrorText(err.value)
  {
    Response(ErrorKind, Obj(map["message" := Str(message)]),
      if err.Some? then ErrorText(err.value) else None)
  }

  function Strings(ss: seq<string>): (r: Value)
    ensures r.Arr? && |r.items| == |ss|
    ensures forall i :: 0 <= i < |ss| ==> r.items[i] == Str(ss[i])
  {
    Arr(seq(|ss|, i requires 0 <= i < |ss| => Str(ss[i])))
  }

  /** The unsolicited `info` response sent once on connect. */
  function Greeting(): (r: Response)
    ensures r.kind == InfoKind && r.error.None?
    ensures r.payload.Obj? && r.payload.fields.Keys == {"name", "version", "commands"}
    ensures r.payload.fields["name"] == Str(ServiceName)
    ensures r.payload.fields["version"] == Str(ServiceVersion)
    ensures r.payload.fields["commands"] == Strings(SupportedCommands())
  {
    Response(InfoKind, Obj(map[
      "name" := Str(ServiceName),
      "version" := Str(ServiceVersion),
      "commands" := Strings(SupportedCommands())]), None)
  }
}
