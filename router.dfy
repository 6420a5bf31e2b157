/** The command router (`DockerMCP.handleCommand`) and the message handler that
    calls it. One inbound message is handled as one atomic step: it is
    decoded, routed by its `type`, its arguments are read from its `payload`
    with the `||` defaults, at most one backend operation is invoked, and
    exactly one response is produced.

    The backend is not modelled: the step is given the outcome the awaited
    backend promise settles to, and reports the call it made, if any. */
module Router {
  import opened Wrappers
  import opened Js
  import opened Protocol

  /** A backend invocation: the operation and its argument values, in order. */
  datatype Call = Call(op: Op, args: seq<Value>)

  /** What the awaited backend promise settles to. */
  datatype Outcome = Resolved(value: Value) | Rejected(reason: Thrown)

  /** The result of handling one message: the one response sent back on the
      socket, and the backend call made on the way, if any. */
  datatype Handled = Handled(response: Response, invoked: Option<Call>)

  /** The `switch` compares `command.type` with `===`, so only a string
      naming a supported command selects an operation. */
  function Route(t: Value): (r: Option<Op>)
    ensures r.Some? ==> t == Str(Name(r.value))
  {
    if t.Str? then OpNamed(t.s) else None
  }

  /** The argument values handed to the backend operation, read from
      `command.payload` in the order the source evaluates them. Reading a
      field of a nullish payload throws; `listContainers` reads through `?.`
      and tolerates it, and `createContainer` passes the payload itself.
      Only the first `.` read can throw: once it succeeded the payload is not
      nullish, so the later fields are read with `Property`. */
  function Arguments(op: Op, payload: Value): (r: Result<seq<Value>, Thrown>)
    ensures r.Err? ==> Nullish(payload)
  {
    match op
    case ListContainers =>
      Ok([Or(OptionalGet(payload, "all"), Bool(false))])
    case GetContainer | StartContainer | StopContainer | RestartContainer | RemoveNetwork =>
      var id :- Get(payload, "id");
      Ok([id])
    case RemoveContainer =>
      var id :- Get(payload, "id");
      Ok([id, Or(Property(payload, "force"), Bool(false)), Or(Property(payload, "removeVolumes"), Bool(false))])
    case GetContainerLogs =>
      var id :- Get(payload, "id");
      Ok([id, Or(Property(payload, "tail"), Num(100))])
    case CreateContainer =>
      Ok([payload])
    case ListImages | ListVolumes | ListNetworks | GetVersion | GetInfo | GetDiskUsage =>
      Ok([])
    case PullImage =>
      var image :- Get(payload, "image");
      Ok([image])
    case RemoveImage =>
      var id :- Get(payload, "id");
      Ok([id, Or(Property(payload, "force"), Bool(false))])
    case BuildImage =>
      var contextPath :- Get(payload, "contextPath");
      Ok([contextPath, Property(payload, "options")])
    case CreateVolume | RemoveVolume =>
      var name :- Get(payload, "name");
      Ok([name])
    case CreateNetwork =>
      var name :- Get(payload, "name");
      Ok([name, Or(Property(payload, "driver"), Str("bridge"))])
  }

  /** The fixed `type` of the success response of each command. */
  function ResultTag(op: Op): string {
    match op
    case ListContainers => "containers"
    case GetContainer => "container"
    case StartContainer => "containerStarted"
    case StopContainer => "containerStopped"
    case RestartContainer => "containerRestarted"
    case RemoveContainer => "containerRemoved"
    case GetContainerLogs => "containerLogs"
    case CreateContainer => "containerCreated"
    case ListImages => "images"
    case PullImage => "imagePulled"
    case RemoveImage => "imageRemoved"
    case BuildImage => "imageBuilt"
    case ListVolumes => "volumes"
    case CreateVolume => "volumeCreated"
    case RemoveVolume => "volumeRemoved"
    case ListNetworks => "networks"
    case CreateNetwork => "networkCreated"
    case RemoveNetwork => "networkRemoved"
    case GetVersion => "version"
    case GetInfo => "info"
    case GetDiskUsage => "diskUsage"
  }

  function Success(op: Op, payload: Value): Response {
    Response(ResultTag(op), payload, None)
  }

  /** The success response, built after the backend resolved with `v`. The
      echoed fields are read from the payload again at this point, so
      `buildImage` still throws here when `options` is nullish. */
  function Reply(op: Op, payload: Value, v: Value): (r: Result<Response, Thrown>)
    ensures r.Ok? ==> r.value.kind == ResultTag(op) && r.value.error.None?
    ensures Arguments(op, payload).Ok? && op != BuildImage ==> r.Ok?
  {
    match op
    case ListContainers | GetContainer | CreateContainer | ListImages | ListVolumes
       | CreateVolume | ListNetworks | CreateNetwork | GetVersion | GetInfo | GetDiskUsage =>
      Ok(Success(op, v))
    case StartContainer | StopContainer | RestartContainer | RemoveContainer
       | RemoveImage | RemoveNetwork =>
      var id :- Get(payload, "id");
      Ok(Success(op, Obj(map["id" := id])))
    case GetContainerLogs =>
      var id :- Get(payload, "id");
      Ok(Success(op, Obj(map["id" := id, "logs" := v])))
    case PullImage =>
      var image :- Get(payload, "image");
      Ok(Success(op, Obj(map["image" := image])))
    case RemoveVolume =>
      var name :- Get(payload, "name");
      Ok(Success(op, Obj(map["name" := name])))
    case BuildImage =>
      var options :- Get(payload, "options");
      var tag :- Get(options, "t");
      Ok(Success(op, Obj(map["tag" := tag])))
  }

  /** The `catch` of `handleCommand`. */
  function ExecutionFailure(t: Value, e: Thrown): Response {
    ErrorResponse("Failed to execute " + ToText(t), Some(e))
  }

  /** The `try` block of `handleCommand`, for a command whose `type` is `t`
      and whose `payload` is `payload`. */
  function Dispatch(t: Value, payload: Value, outcome: Outcome): (h: Handled)
    ensures h.invoked.Some? ==> Route(t) == Some(h.invoked.value.op)
    ensures h.response.kind != ErrorKind ==> h.invoked.Some?
  {
    match Route(t)
    case None =>
      Handled(ErrorResponse("Unknown command: " + ToText(t), None), None)
    case Some(op) =>
      match Arguments(op, payload)
      case Err(e) => Handled(ExecutionFailure(t, e), None)
      case Ok(args) =>
        var call := Call(op, args);
        match outcome
        case Rejected(e) => Handled(ExecutionFailure(t, e), Some(call))
        case Resolved(v) =>
          match Reply(op, payload, v)
          case Err(e) => Handled(ExecutionFailure(t, e), Some(call))
          case Ok(r) => Handled(r, Some(call))
  }

  /** `handleCommand(ws, command)`: reading `command.type` for the log line
      happens before the `try`, so a nullish command rejects the returned
      promise instead of producing a response. */
  function HandleCommand(command: Value, outcome: Outcome): (r: Result<Handled, Thrown>)
    ensures r.Err? <==> Nullish(command)
    ensures r.Err? ==> r.error == TypeErrorReading(command, "type")
  {
    var t :- Get(command, "type");
    Ok(Dispatch(t, Property(command, "payload"), outcome))
  }

  const ProcessFailureMessage: string := "Failed to process command"

  /** The `message` handler: `decoded` is what `JSON.parse` returned or
      threw. Whatever escapes `handleCommand` becomes one error response. */
  function OnMessage(decoded: Result<Value, Thrown>, outcome: Outcome): (h: Handled)
    ensures h.invoked.Some? ==> decoded.Ok? && !Nullish(decoded.value)
  {
    match decoded
    case Err(e) => Handled(ErrorResponse(ProcessFailureMessage, Some(e)), None)
    case Ok(command) =>
      match HandleCommand(command, outcome)
      case Err(e) => Handled(ErrorResponse(ProcessFailureMessage, Some(e)), None)
      case Ok(h) => h
  }

  // ---------------------------------------------------------------------
  // Reference tables: the argument list and the success payload of every
  // command, independently of the evaluation order of the switch.
  // ---------------------------------------------------------------------

  /** How one argument is taken from a payload object: a field as it is, a
      field replaced by a fallback when falsy, or the whole payload. */
  datatype Param = Field(name: string) | FieldOr(name: string, fallback: Value) | WholePayload

  function Params(op: Op): seq<Param> {
    match op
    case ListContainers => [FieldOr("all", Bool(false))]
    case GetContainer | StartContainer | StopContainer | RestartContainer | RemoveNetwork =>
      [Field("id")]
    case RemoveContainer =>
      [Field("id"), FieldOr("force", Bool(false)), FieldOr("removeVolumes", Bool(false))]
    case GetContainerLogs => [Field("id"), FieldOr("tail", Num(100))]
    case CreateContainer => [WholePayload]
    case ListImages | ListVolumes | ListNetworks | GetVersion | GetInfo | GetDiskUsage => []
    case PullImage => [Field("image")]
    case RemoveImage => [Field("id"), FieldOr("force", Bool(false))]
    case BuildImage => [Field("contextPath"), Field("options")]
    case CreateVolume | RemoveVolume => [Field("name")]
    case CreateNetwork => [Field("name"), FieldOr("driver", Str("bridge"))]
  }

  function ParamValue(p: Param, payload: Value): Value {
    match p
    case Field(f) => Property(payload, f)
    case FieldOr(f, fallback) => if Truthy(Property(payload, f)) then Property(payload, f) else fallback
    case WholePayload => payload
  }

  function ParamValues(ps: seq<Param>, payload: Value): (r: seq<Value>)
    ensures |r| == |ps|
    ensures forall i :: 0 <= i < |ps| ==> r[i] == ParamValue(ps[i], payload)
  {
    seq(|ps|, i requires 0 <= i < |ps| => ParamValue(ps[i], payload))
  }

  /** An operation that reads a payload field with `.` before calling the
      backend, and so throws on a nullish payload. */
  predicate ReadsPayloadField(op: Op) {
    op != ListContainers && |Params(op)| > 0 && !Params(op)[0].WholePayload?
  }

  /** For a payload that is an object (or any other non-nullish value), the
      backend receives exactly the values of the parameter table: each field
      as sent, and each defaulted field replaced by its fallback when it is
      falsy (absent, `false`, `0` or `""`). */
  lemma ArgumentsFollowParams(op: Op, payload: Value)
    requires !Nullish(payload)
    ensures Arguments(op, payload) == Ok(ParamValues(Params(op), payload))
  {
    var ps := Params(op);
    var vs := ParamValues(ps, payload);
    match op
    case ListContainers => assert vs == [ParamValue(ps[0], payload)];
    case GetContainer => assert vs == [ParamValue(ps[0], payload)];
    case StartContainer => assert vs == [ParamValue(ps[0], payload)];
    case StopContainer => assert vs == [ParamValue(ps[0], payload)];
    case RestartContainer => assert vs == [ParamValue(ps[0], payload)];
    case RemoveContainer => assert vs == [ParamValue(ps[0], payload), ParamValue(ps[1], payload), ParamValue(ps[2], payload)];
    case GetContainerLogs => assert vs == [ParamValue(ps[0], payload), ParamValue(ps[1], payload)];
    case CreateContainer => assert vs == [ParamValue(ps[0], payload)];
    case ListImages => assert vs == [];
    case PullImage => assert vs == [ParamValue(ps[0], payload)];
    case RemoveImage => assert vs == [ParamValue(ps[0], payload), ParamValue(ps[1], payload)];
    case BuildImage => assert vs == [ParamValue(ps[0], payload), ParamValue(ps[1], payload)];
    case ListVolumes => assert vs == [];
    case CreateVolume => assert vs == [ParamValue(ps[0], payload)];
    case RemoveVolume => assert vs == [ParamValue(ps[0], payload)];
    case ListNetworks => assert vs == [];
    case CreateNetwork => assert vs == [ParamValue(ps[0], payload), ParamValue(ps[1], payload)];
    case RemoveNetwork => assert vs == [ParamValue(ps[0], payload)];
    case GetVersion => assert vs == [];
    case GetInfo => assert vs == [];
    case GetDiskUsage => assert vs == [];
  }

  /** With a nullish payload, `listContainers` runs with `all = false`, an
      operation that reads a payload field throws the TypeError for its
      first field, and the others run with no arguments or with the
      payload itself. */
  lemma NullishPayload(op: Op, payload: Value)
    requires Nullish(payload)
    ensures op == ListContainers ==> Arguments(op, payload) == Ok([Bool(false)])
    ensures ReadsPayloadField(op) ==> Arguments(op, payload) == Err(TypeErrorReading(payload, Params(op)[0].name))
    ensures op != ListContainers && !ReadsPayloadField(op) ==> Arguments(op, payload) == Ok(ParamValues(Params(op), payload))
  {
    if ReadsPayloadField(op) {
      NullishPayloadThrows(op, payload);
    } else if op != ListContainers {
      NullishPayloadUnread(op, payload);
    }
  }

  /** The first field read of a nullish payload throws. */
  lemma NullishPayloadThrows(op: Op, payload: Value)
    requires Nullish(payload) && ReadsPayloadField(op)
    ensures Arguments(op, payload) == Err(TypeErrorReading(payload, Params(op)[0].name))
  {
    match op
    case GetContainer =>
    case StartContainer =>
    case StopContainer =>
    case RestartContainer =>
    case RemoveContainer =>
    case GetContainerLogs =>
    case PullImage =>
    case RemoveImage =>
    case BuildImage =>
    case CreateVolume =>
    case RemoveVolume =>
    case CreateNetwork =>
    case RemoveNetwork =>
  }

  /** A command that does not read a payload field is unaffected by a
      nullish payload. */
  lemma NullishPayloadUnread(op: Op, payload: Value)
    requires Nullish(payload) && op != ListContainers && !ReadsPayloadField(op)
    ensures Arguments(op, payload) == Ok(ParamValues(Params(op), payload))
  {
    var vs := ParamValues(Params(op), payload);
    match op
    case CreateContainer => assert vs == [payload];
    case ListImages => assert vs == [];
    case ListVolumes => assert vs == [];
    case ListNetworks => assert vs == [];
    case GetVersion => assert vs == [];
    case GetInfo => assert vs == [];
    case GetDiskUsage => assert vs == [];
  }

  /** The operations whose success payload is the backend's value. */
  predicate ReturnsBackendValue(op: Op) {
    op in {ListContainers, GetContainer, CreateContainer, ListImages, ListVolumes, CreateVolume,
           ListNetworks, CreateNetwork, GetVersion, GetInfo, GetDiskUsage}
  }

  /** The request field echoed back by an operation that returns nothing. */
  function EchoedField(op: Op): Option<string> {
    match op
    case StartContainer | StopContainer | RestartContainer | RemoveContainer
       | RemoveImage | RemoveNetwork => Some("id")
    case PullImage => Some("image")
    case RemoveVolume => Some("name")
    case _ => None
  }

  /** What a success response carries, for a payload from which the
      arguments could be read: the backend's value, an echo of one request
      field, `{id, logs}` for the logs, and `{tag: options.t}` for a build,
      which alone can still throw after the backend resolved. */
  lemma SuccessPayload(op: Op, payload: Value, v: Value)
    requires Arguments(op, payload).Ok?
    ensures ReturnsBackendValue(op) ==> Reply(op, payload, v) == Ok(Response(ResultTag(op), v, None))
    ensures EchoedField(op).Some? ==>
      var f := EchoedField(op).value;
      Reply(op, payload, v) == Ok(Response(ResultTag(op), Obj(map[f := Property(payload, f)]), None))
    ensures op == GetContainerLogs ==>
      Reply(op, payload, v) == Ok(Response(ResultTag(op), Obj(map["id" := Property(payload, "id"), "logs" := v]), None))
    ensures op == BuildImage ==>
      var options := Property(payload, "options");
      Reply(op, payload, v) ==
        if Nullish(options) then Err(TypeErrorReading(options, "t"))
        else Ok(Response(ResultTag(op), Obj(map["tag" := Property(options, "t")]), None))
  {
    if ReturnsBackendValue(op) {
      BackendValueReply(op, payload, v);
    } else if EchoedField(op).Some? {
      EchoReply(op, payload, v);
    } else if op == GetContainerLogs {
      LogsReply(payload, v);
    } else if op == BuildImage {
      BuildReply(payload, v);
    }
  }

  /** The logs reply pairs the requested id with the backend's logs. */
  lemma LogsReply(payload: Value, v: Value)
    requires Arguments(GetContainerLogs, payload).Ok?
    ensures Reply(GetContainerLogs, payload, v) ==
      Ok(Response(ResultTag(GetContainerLogs), Obj(map["id" := Property(payload, "id"), "logs" := v]), None))
  {
  }

  /** The build reply reads `options.t`, which throws when `options` is
      nullish. */
  lemma BuildReply(payload: Value, v: Value)
    requires Arguments(BuildImage, payload).Ok?
    ensures
      var options := Property(payload, "options");
      Reply(BuildImage, payload, v) ==
        if Nullish(options) then Err(TypeErrorReading(options, "t"))
        else Ok(Response(ResultTag(BuildImage), Obj(map["tag" := Property(options, "t")]), None))
  {
  }

  /** A command that returns the backend's value replies with it unchanged. */
  lemma BackendValueReply(op: Op, payload: Value, v: Value)
    requires ReturnsBackendValue(op)
    ensures Reply(op, payload, v) == Ok(Response(ResultTag(op), v, None))
  {
    match op
    case ListContainers =>
    case GetContainer =>
    case CreateContainer =>
    case ListImages =>
    case ListVolumes =>
    case CreateVolume =>
    case ListNetworks =>
    case CreateNetwork =>
    case GetVersion =>
    case GetInfo =>
    case GetDiskUsage =>
  }

  /** A command that returns nothing echoes its request field, which its
      arguments already read. */
  lemma EchoReply(op: Op, payload: Value, v: Value)
    requires Arguments(op, payload).Ok? && EchoedField(op).Some?
    ensures
      var f := EchoedField(op).value;
      Reply(op, payload, v) == Ok(Response(ResultTag(op), Obj(map[f := Property(payload, f)]), None))
  {
    match op
    case StartContainer =>
    case StopContainer =>
    case RestartContainer =>
    case RemoveContainer =>
    case RemoveImage =>
    case RemoveNetwork =>
    case PullImage =>
    case RemoveVolume =>
  }

  /** Success tags tell the commands apart. */
  lemma ResultTagsDistinct(a: Op, b: Op)
    ensures ResultTag(a) == ResultTag(b) ==> a == b
  {
    match a
    case ListContainers =>
    case GetContainer =>
    case StartContainer =>
    case StopContainer =>
    case RestartContainer =>
    case RemoveContainer =>
    case GetContainerLogs =>
    case CreateContainer =>
    case ListImages =>
    case PullImage =>
    case RemoveImage =>
    case BuildImage =>
    case ListVolumes =>
    case CreateVolume =>
    case RemoveVolume =>
    case ListNetworks =>
    case CreateNetwork =>
    case RemoveNetwork =>
    case GetVersion =>
    case GetInfo =>
    case GetDiskUsage =>
  }

  /** No success tag is `error`, and only the `getInfo` reply shares its tag
      with the greeting. */
  lemma ResultTagKinds(a: Op)
    ensures ResultTag(a) != ErrorKind
    ensures ResultTag(a) == Greeting().kind <==> a == GetInfo
  {
    assert Greeting().kind == InfoKind;
  }

  // ---------------------------------------------------------------------
  // Properties of one inbound command.
  // ---------------------------------------------------------------------

  /** A `type` outside the catalogue gets "Unknown command: <type>", with no
      `error` field, whatever the backend would do, and no backend operation
      is invoked. */
  lemma UnknownCommand(command: Value, outcome: Outcome)
    requires !Nullish(command)
    requires var t := Property(command, "type"); !(t.Str? && t.s in SupportedCommands())
    ensures var t := Property(command, "type");
      HandleCommand(command, outcome) == Ok(Handled(ErrorResponse("Unknown command: " + ToText(t), None), None))
    ensures HandleCommand(command, outcome).value.response.error.None?
  {
    var t := Property(command, "type");
    if t.Str? {
      CatalogueIsRoutingTable(t.s);
    }
  }

  /** The command named after an operation selects that operation; the
      `type` shows as its own name in the messages. */
  lemma RouteByName(op: Op)
    ensures Route(Str(Name(op))) == Some(op)
    ensures ToText(Str(Name(op))) == Name(op)
  {
    NameRoundTrip(op);
  }

  /** A command named after an operation invokes that operation with the
      arguments read from its payload, or nothing when reading them throws;
      it is never answered with "Unknown command": an error response it gets
      says "Failed to execute <type>". */
  lemma KnownCommandCallsItsOperation(op: Op, payload: Value, outcome: Outcome)
    ensures var h := Dispatch(Str(Name(op)), payload, outcome);
            match Arguments(op, payload)
            case Ok(args) => h.invoked == Some(Call(op, args))
            case Err(_) => h.invoked == None
    ensures var h := Dispatch(Str(Name(op)), payload, outcome);
            h.response.kind == ErrorKind ==>
              h.response.payload == Obj(map["message" := Str("Failed to execute " + Name(op))])
  {
    RouteByName(op);
    ResultTagKinds(op);
  }

  /** A known command whose backend call rejects gets exactly
      `{type: 'error', payload: {message: 'Failed to execute <type>'}, error}`
      where `error` is the rejection's `toString()` (absent for a falsy
      rejection value), and no success response. So does one whose
      arguments cannot be read, without any call. */
  lemma FailedCommand(op: Op, payload: Value, outcome: Outcome)
    ensures var args := Arguments(op, payload);
            args.Ok? && outcome.Rejected? ==>
              Dispatch(Str(Name(op)), payload, outcome) ==
                Handled(ErrorResponse("Failed to execute " + Name(op), Some(outcome.reason)), Some(Call(op, args.value)))
    ensures var args := Arguments(op, payload);
            args.Err? ==>
              Dispatch(Str(Name(op)), payload, outcome) ==
                Handled(ErrorResponse("Failed to execute " + Name(op), Some(args.error)), None)
  {
    RouteByName(op);
  }

  /** A known command whose backend call resolves is answered with its fixed
      success tag and no `error` field, except a build whose `options` is
      nullish: that is reported as failed although the backend call was
      made and succeeded. */
  lemma ResolvedCommand(op: Op, payload: Value, v: Value)
    requires Arguments(op, payload).Ok?
    ensures var h := Dispatch(Str(Name(op)), payload, Resolved(v));
            h.invoked == Some(Call(op, Arguments(op, payload).value)) &&
            if op == BuildImage && Nullish(Property(payload, "options")) then
              h.response == ErrorResponse("Failed to execute " + Name(BuildImage),
                Some(TypeErrorReading(Property(payload, "options"), "t")))
            else
              h.response.kind == ResultTag(op) && h.response.error.None?
  {
    RouteByName(op);
    if op == BuildImage {
      BuildReply(payload, v);
    } else if Nullish(payload) {
      NullishPayload(op, payload);
      SuccessPayload(op, payload, v);
    }
  }

  /** A command without a payload: `listContainers` lists with `all = false`;
      a command that reads a payload field fails with
      "Failed to execute <type>" and makes no call. */
  lemma MissingPayload(op: Op, outcome: Outcome)
    ensures var h := HandleCommand(Obj(map["type" := Str(Name(op))]), outcome);
            (op == ListContainers ==> h.Ok? && h.value.invoked == Some(Call(ListContainers, [Bool(false)]))) &&
            (ReadsPayloadField(op) ==>
              h == Ok(Handled(ErrorResponse("Failed to execute " + Name(op),
                Some(TypeErrorReading(Undefined, Params(op)[0].name))), None)))
  {
    var command := Obj(map["type" := Str(Name(op))]);
    assert Property(command, "type") == Str(Name(op));
    assert Property(command, "payload") == Undefined;
    NullishPayload(op, Undefined);
    FailedCommand(op, Undefined, outcome);
  }

  /** `tail: 0` is falsy and is replaced by 100; an empty `driver` by
      `'bridge'`; and `force: 0` by `false`. */
  lemma FalsyOptionsReplaced(id: Value, name: Value)
    ensures Arguments(GetContainerLogs, Obj(map["id" := id, "tail" := Num(0)])) == Ok([id, Num(100)])
    ensures Arguments(CreateNetwork, Obj(map["name" := name, "driver" := Str("")])) == Ok([name, Str("bridge")])
    ensures Arguments(RemoveImage, Obj(map["id" := id, "force" := Num(0)])) == Ok([id, Bool(false)])
  {
  }

  // ---------------------------------------------------------------------
  // Properties of one inbound message.
  // ---------------------------------------------------------------------

  lemma ExecutionMessageDiffers(x: string)
    ensures Obj(map["message" := Str("Failed to execute " + x)]) != Obj(map["message" := Str(ProcessFailureMessage)])
  {
    assert ("Failed to execute " + x)[10] != ProcessFailureMessage[10];
    assert Obj(map["message" := Str("Failed to execute " + x)]).fields["message"] != Str(ProcessFailureMessage);
  }

  lemma UnknownMessageDiffers(x: string)
    ensures Obj(map["message" := Str("Unknown command: " + x)]) != Obj(map["message" := Str(ProcessFailureMessage)])
  {
    assert ("Unknown command: " + x)[0] != ProcessFailureMessage[0];
    assert Obj(map["message" := Str("Unknown command: " + x)]).fields["message"] != Str(ProcessFailureMessage);
  }

  predicate IsProcessFailure(r: Response) {
    r.kind == ErrorKind && r.payload == Obj(map["message" := Str(ProcessFailureMessage)])
  }

  /** "Failed to process command" answers exactly the messages that do not
      parse and the ones that parse to `null` (whose `type` cannot be read);
      it carries the thrown value's text, and no backend call is made. */
  lemma ProcessFailure(decoded: Result<Value, Thrown>, outcome: Outcome)
    ensures IsProcessFailure(OnMessage(decoded, outcome).response) <==> decoded.Err? || Nullish(decoded.value)
    ensures decoded.Err? ==>
              OnMessage(decoded, outcome) == Handled(ErrorResponse(ProcessFailureMessage, Some(decoded.error)), None)
    ensures decoded.Ok? && Nullish(decoded.value) ==>
              OnMessage(decoded, outcome) ==
                Handled(ErrorResponse(ProcessFailureMessage, Some(TypeErrorReading(decoded.value, "type"))), None)
  {
    if decoded.Ok? && !Nullish(decoded.value) {
      var t := Property(decoded.value, "type");
      if Route(t).Some? {
        ResultTagKinds(Route(t).value);
        ExecutionMessageDiffers(ToText(t));
      } else {
        UnknownMessageDiffers(ToText(t));
      }
    }
  }

  /** Every backend call a message causes is the operation its `type` names,
      with the arguments of the parameter table when the payload is not
      nullish. */
  lemma CallMatchesCommand(command: Value, outcome: Outcome)
    requires OnMessage(Ok(command), outcome).invoked.Some?
    ensures var c := OnMessage(Ok(command), outcome).invoked.value;
            var payload := Property(command, "payload");
            Property(command, "type") == Str(Name(c.op)) &&
            (!Nullish(payload) ==> c.args == ParamValues(Params(c.op), payload))
  {
    var t := Property(command, "type");
    var payload := Property(command, "payload");
    var op := Route(t).value;
    if !Nullish(payload) {
      ArgumentsFollowParams(op, payload);
    }
  }
}
