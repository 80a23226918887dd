/**
  The JSON-RPC dispatcher of the McpServer class: decoding the request
  envelope, routing by method name, the tool registry, the tool dispatcher
  with its per-tool handlers, the content wrapper and the response envelope.

  Every anonymous object the server builds is modelled as the JSON value it
  serializes to. Reading the HTTP body and writing the response are left
  out: the request arrives as a parsed Json value and the response leaves
  as one, or the request ends in a Fault (an unhandled exception).
 */
module McpServer {
  import opened JsonModel
  import opened DecimalText

  datatype AudioDevice = AudioDevice(id: string, name: string, room: string, model: string)

  /** The JSON Schema type of a tool argument. */
  datatype ArgType = StringArg | IntegerArg

  datatype Argument = Argument(name: string, argType: ArgType, description: string)

  /** A tool's `inputSchema`: an object schema with its properties and the names it requires. */
  datatype InputSchema = InputSchema(properties: seq<Argument>, required: seq<string>)

  datatype Tool = Tool(name: string, description: string, inputSchema: InputSchema)

  /** JsonSerializer.Serialize applied to the device list: a library call outside this model. */
  type Serializer = seq<AudioDevice> -> string

  /** The decoded request envelope; `methodName` is `None` when the request's method is JSON null. */
  datatype Request = Request(methodName: Option<string>, params: Option<Json>, id: Int32)

  /** The response envelope; its `jsonrpc` member is always JsonRpcVersion. */
  datatype Response = Response(id: Int32, result: Json)

  const JsonRpcVersion: string := "2.0"

  const ServerName: string := "vanilla-mcp"
  const ServerVersion: string := "1.0.0"

  const Initialize: string := "initialize"
  const NotificationsInitialized: string := "notifications/initialized"
  const NotificationsCancelled: string := "notifications/cancelled"
  const ToolsList: string := "tools/list"
  const ToolsCall: string := "tools/call"

  const KnownMethods: set<string> :=
    {Initialize, NotificationsInitialized, NotificationsCancelled, ToolsList, ToolsCall}

  const GetSystemStatus: string := "get_system_status"
  const GetDevices: string := "get_devices"
  const GetDeviceVolume: string := "get_device_volume"
  const SetDeviceVolume: string := "set_device_volume"

  /** A null string interpolates as the empty text. */
  function Text(s: Option<string>): string {
    match s
    case Some(t) => t
    case None => ""
  }

  // ---------------------------------------------------------------------
  // Tool registry

  const IdArgument: Argument := Argument("id", StringArg, "The ID of the device")
  const VolumeArgument: Argument := Argument("volume", IntegerArg, "The new volume level (0\U{2013}100)")

  const Registry: seq<Tool> := [
    Tool(GetSystemStatus, "Checks the status of the system", InputSchema([], [])),
    Tool(GetDevices, "Retrieves the list of sonos devices in the system", InputSchema([], [])),
    Tool(GetDeviceVolume, "Retrieves the current volume level of a device by ID",
         InputSchema([IdArgument], ["id"])),
    Tool(SetDeviceVolume, "Sets the volume level of a device by ID",
         InputSchema([IdArgument, VolumeArgument], ["id", "volume"]))
  ]

  function ArgTypeJson(t: ArgType): Json {
    match t
    case StringArg => Str("string")
    case IntegerArg => Str("integer")
  }

  function ArgumentJson(a: Argument): (string, Json) {
    (a.name, Obj([("type", ArgTypeJson(a.argType)), ("description", Str(a.description))]))
  }

  function SchemaJson(schema: InputSchema): Json {
    Obj([
      ("type", Str("object")),
      ("properties", Obj(seq(|schema.properties|, i requires 0 <= i < |schema.properties| =>
                                ArgumentJson(schema.properties[i])))),
      ("required", Arr(seq(|schema.required|, i requires 0 <= i < |schema.required| =>
                              Str(schema.required[i]))))
    ])
  }

  function ToolJson(t: Tool): Json {
    Obj([("name", Str(t.name)), ("description", Str(t.description)), ("inputSchema", SchemaJson(t.inputSchema))])
  }

  /** The `tools/list` result: the whole registry, in order. */
  function OnToolsList(): Json {
    Obj([("tools", Arr(seq(|Registry|, i requires 0 <= i < |Registry| => ToolJson(Registry[i]))))])
  }

  // ---------------------------------------------------------------------
  // Fixed payloads and the content wrapper

  function StatusOkResult(): Json {
    Obj([("status", Str("ok"))])
  }

  function ErrorResult(errorMessage: string): Json {
    Obj([("error", Str(errorMessage))])
  }

  /** The `{content: [{type: "text", text}]}` envelope of every tool result. */
  function WrapTextResult(text: string): Json {
    Obj([("content", Arr([Obj([("type", Str("text")), ("text", Str(text))])]))])
  }

  /** The same envelope around the serialized form of `data`. */
  function WrapJsonResult(data: seq<AudioDevice>, serialize: Serializer): Json {
    Obj([("content", Arr([Obj([("type", Str("text")), ("text", Str(serialize(data)))])]))])
  }

  // ---------------------------------------------------------------------
  // Method handlers

  function OnInitialize(parameters: Option<Json>): Result<Json> {
    var versionProperty :- GetProperty(parameters, "protocolVersion");
    var protocolVersion :- GetString(versionProperty);
    Ok(Obj([
      ("protocolVersion", NullableStr(protocolVersion)),
      ("capabilities", Obj([
        ("resources", Obj([("subscribe", Bool(true))])),
        ("tools", Obj([("listChanged", Bool(true))]))
      ])),
      ("serverInfo", Obj([("name", Str(ServerName)), ("version", Str(ServerVersion))]))
    ]))
  }

  // ---------------------------------------------------------------------
  // Tool handlers

  const Devices: seq<AudioDevice> := [
    AudioDevice("1", "Living Room", "Living Room", "Soundbar"),
    AudioDevice("2", "Kitchen", "Kitchen", "Speaker"),
    AudioDevice("3", "Bedroom", "Bedroom", "Speaker")
  ]

  /** The fixed volume table, -1 for an unknown device. */
  function VolumeOf(id: Option<string>): int {
    match id
    case Some("1") => 25
    case Some("2") => 40
    case Some("3") => 15
    case _ => -1
  }

  function HandleGetDevices(serialize: Serializer): Json {
    WrapJsonResult(Devices, serialize)
  }

  function HandleGetDeviceVolume(arguments: Json): Result<Json> {
    var idProperty :- GetProperty(Some(arguments), "id");
    var id :- GetString(idProperty);
    var volume := VolumeOf(id);
    if volume == -1 then
      Ok(WrapTextResult("No device found with id " + Text(id)))
    else
      Ok(WrapTextResult("Volume for device " + Text(id) + " is " + IntToString(volume)))
  }

  function HandleSetDeviceVolume(arguments: Json): Result<Json> {
    var idProperty :- GetProperty(Some(arguments), "id");
    var id :- GetString(idProperty);
    var volumeProperty :- GetProperty(Some(arguments), "volume");
    var volume :- GetInt32(volumeProperty);
    Ok(WrapTextResult("Volume for device " + Text(id) + " set to " + IntToString(volume)))
  }

  /** `tools/call`: both `name` and `arguments` are read before the tool is chosen. */
  function OnToolsCall(parameters: Option<Json>, serialize: Serializer): Result<Json> {
    var nameProperty :- GetProperty(parameters, "name");
    var toolName :- GetString(nameProperty);
    var arguments :- GetProperty(parameters, "arguments");
    match toolName
    case Some("get_system_status") => Ok(WrapTextResult("System is running"))
    case Some("get_devices") => Ok(HandleGetDevices(serialize))
    case Some("get_device_volume") => HandleGetDeviceVolume(arguments)
    case Some("set_device_volume") => HandleSetDeviceVolume(arguments)
    case _ => Ok(WrapTextResult("Unknown tool: " + Text(toolName)))
  }

  // ---------------------------------------------------------------------
  // Router and envelope

  function Route(methodName: Option<string>, parameters: Option<Json>, serialize: Serializer): Result<Json> {
    match methodName
    case Some("initialize") => OnInitialize(parameters)
    case Some("notifications/initialized") => Ok(StatusOkResult())
    case Some("notifications/cancelled") => Ok(StatusOkResult())
    case Some("tools/list") => Ok(OnToolsList())
    case Some("tools/call") => OnToolsCall(parameters, serialize)
    case _ => Ok(ErrorResult("Unknown method: " + Text(methodName)))
  }

  /**
    Reads `method` (required), `params` (optional) and `id` (optional,
    0 when absent), in that order.
   */
  function DecodeRequest(request: Json): Result<Request> {
    var methodProperty :- GetProperty(Some(request), "method");
    var methodName :- GetString(methodProperty);
    var parameters :- TryGetProperty(request, "params");
    var idProperty :- TryGetProperty(request, "id");
    var id :- match idProperty
              case Some(v) => GetInt32(v)
              case None => Ok(0);
    Ok(Request(methodName, parameters, id))
  }

  function EncodeResponse(response: Response): Json {
    Obj([("jsonrpc", Str(JsonRpcVersion)), ("id", Num(Integer(response.id))), ("result", response.result)])
  }

  /** HandleRequest without the HTTP read and write. */
  function HandleRequest(request: Json, serialize: Serializer): Result<Json> {
    var decoded :- DecodeRequest(request);
    var result :- Route(decoded.methodName, decoded.params, serialize);
    Ok(EncodeResponse(Response(decoded.id, result)))
  }
}
