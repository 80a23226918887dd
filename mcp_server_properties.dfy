/**
  What the dispatcher promises, stated through readers that look at the
  JSON it produces member by member (Member, ContentText) rather than
  through the way the handlers build it.
 */
module McpServerProperties {
  import opened JsonModel
  import opened DecimalText
  import opened McpServer

  predicate IsInt32Literal(v: Json) {
    v.Num? && v.n.Integer? && -0x8000_0000 <= v.n.value <= 0x7FFF_FFFF
  }

  /** A value GetString accepts: a string or JSON null. */
  predicate IsStringOrNull(v: Json) {
    v.Str? || v.Null?
  }

  /** The one text of a `{content: [{type: "text", text}]}` payload; `None` for any other shape. */
  function ContentText(payload: Json): Option<string> {
    match Member(Some(payload), "content")
    case Some(Arr(items)) =>
      if |items| == 1 && Member(Some(items[0]), "type") == Some(Str("text")) then
        (match Member(Some(items[0]), "text")
         case Some(Str(t)) => Some(t)
         case _ => None)
      else None
    case _ => None
  }

  /** The client side of the request envelope. */
  function EncodeRequest(r: Request): Json {
    Obj([("method", NullableStr(r.methodName))]
        + (match r.params case Some(p) => [("params", p)] case None => [])
        + [("id", Num(Integer(r.id)))])
  }

  /** The content wrapper puts its text in one item of type "text". */
  lemma WrapTextContent(text: string)
    ensures ContentText(WrapTextResult(text)) == Some(text)
  {
    LookupOne("content", Arr([Obj([("type", Str("text")), ("text", Str(text))])]));
    LookupTwo("type", Str("text"), "text", Str(text));
  }

  /** The JSON wrapper does the same with the serialized data. */
  lemma WrapJsonContent(data: seq<AudioDevice>, serialize: Serializer)
    ensures ContentText(WrapJsonResult(data, serialize)) == Some(serialize(data))
  {
    LookupOne("content", Arr([Obj([("type", Str("text")), ("text", Str(serialize(data)))])]));
    LookupTwo("type", Str("text"), "text", Str(serialize(data)));
  }

  // ---------------------------------------------------------------------
  // Envelope decoding

  /** Without a `method` property the request faults, before `params` or `id` are read. */
  lemma MissingMethodFaults(request: Json, serialize: Serializer)
    requires Member(Some(request), "method").None?
    ensures request.Obj? ==> DecodeRequest(request) == Fault(MissingProperty("method"))
    ensures request.Obj? ==> HandleRequest(request, serialize) == Fault(MissingProperty("method"))
    ensures !request.Obj? ==> HandleRequest(request, serialize) == Fault(WrongKind(ObjectKind))
  {
  }

  /** Exactly when decoding succeeds, and what it reads. */
  lemma DecodeRequestCharacterized(request: Json)
    ensures DecodeRequest(request).Ok? <==>
      && request.Obj?
      && Member(Some(request), "method").Some? && IsStringOrNull(Member(Some(request), "method").value)
      && (Member(Some(request), "id").None? || IsInt32Literal(Member(Some(request), "id").value))
    ensures DecodeRequest(request).Ok? ==>
      var r := DecodeRequest(request).value;
      && Member(Some(request), "method") == Some(NullableStr(r.methodName))
      && r.params == Member(Some(request), "params")
      && (Member(Some(request), "id").None? ==> r.id == 0)
      && (Member(Some(request), "id").Some? ==> Member(Some(request), "id") == Some(Num(Integer(r.id))))
  {
  }

  /** An `id` that is present but not an Int32 literal faults the request. */
  lemma MistypedIdFaults(request: Json, serialize: Serializer)
    requires Member(Some(request), "method").Some? && IsStringOrNull(Member(Some(request), "method").value)
    requires Member(Some(request), "id").Some? && !IsInt32Literal(Member(Some(request), "id").value)
    ensures HandleRequest(request, serialize).Fault?
    ensures HandleRequest(request, serialize).reason == WrongKind(NumberKind) ||
            HandleRequest(request, serialize).reason == NotInt32
  {
  }

  /** Decoding inverts the client's encoding. */
  lemma DecodeEncodeRequest(r: Request)
    ensures DecodeRequest(EncodeRequest(r)) == Ok(r)
  {
    var m := NullableStr(r.methodName);
    var id := Num(Integer(r.id));
    match r.params
    case Some(p) =>
      assert EncodeRequest(r).members == [("method", m), ("params", p), ("id", id)];
      LookupThree("method", m, "params", p, "id", id);
    case None =>
      assert EncodeRequest(r).members == [("method", m), ("id", id)];
      LookupTwo("method", m, "id", id);
  }

  // ---------------------------------------------------------------------
  // Response shaping

  /** The response envelope reads back as its three members. */
  lemma EncodeResponseFields(response: Response)
    ensures var j := EncodeResponse(response);
      && j.Obj? && |j.members| == 3
      && Member(Some(j), "jsonrpc") == Some(Str("2.0"))
      && Member(Some(j), "id") == Some(Num(Integer(response.id)))
      && Member(Some(j), "result") == Some(response.result)
  {
    LookupThree("jsonrpc", Str(JsonRpcVersion), "id", Num(Integer(response.id)), "result", response.result);
  }

  /**
    A request succeeds exactly when it decodes and its route succeeds; the
    response then has the three members jsonrpc = "2.0", the decoded id and
    the router's result, and a fault is the decoder's or the router's.
   */
  lemma ResponseEnvelope(request: Json, serialize: Serializer)
    ensures HandleRequest(request, serialize).Ok? <==>
      DecodeRequest(request).Ok? &&
      Route(DecodeRequest(request).value.methodName, DecodeRequest(request).value.params, serialize).Ok?
    ensures HandleRequest(request, serialize).Ok? ==>
      var response := HandleRequest(request, serialize).value;
      var r := DecodeRequest(request).value;
      && response.Obj? && |response.members| == 3
      && Member(Some(response), "jsonrpc") == Some(Str("2.0"))
      && Member(Some(response), "id") == Some(Num(Integer(r.id)))
      && Member(Some(response), "result") == Some(Route(r.methodName, r.params, serialize).value)
    ensures DecodeRequest(request).Fault? ==>
      HandleRequest(request, serialize) == Fault(DecodeRequest(request).reason)
  {
    if DecodeRequest(request).Ok? {
      var r := DecodeRequest(request).value;
      var route := Route(r.methodName, r.params, serialize);
      if route.Ok? {
        EncodeResponseFields(Response(r.id, route.value));
      }
    }
  }

  /** The response echoes the request's `id` literally, and answers 0 when it had none. */
  lemma ResponseIdEchoesRequest(request: Json, serialize: Serializer)
    requires HandleRequest(request, serialize).Ok?
    ensures request.Obj?
    ensures Member(Some(request), "id").None? ==>
      Member(Some(HandleRequest(request, serialize).value), "id") == Some(Num(Integer(0)))
    ensures Member(Some(request), "id").Some? ==>
      Member(Some(HandleRequest(request, serialize).value), "id") == Member(Some(request), "id")
  {
    ResponseEnvelope(request, serialize);
    DecodeRequestCharacterized(request);
  }

  // ---------------------------------------------------------------------
  // Router

  lemma NotificationsAcknowledged(name: string, parameters: Option<Json>, serialize: Serializer)
    requires name == NotificationsInitialized || name == NotificationsCancelled
    ensures Route(Some(name), parameters, serialize).Ok?
    ensures var r := Route(Some(name), parameters, serialize).value;
      r.Obj? && |r.members| == 1 && Member(Some(r), "status") == Some(Str("ok"))
  {
  }

  /** Any other method, or a null method, is answered with an error payload, never a fault. */
  lemma UnknownMethodIsSoftError(methodName: Option<string>, parameters: Option<Json>, serialize: Serializer)
    requires methodName.None? || methodName.value !in KnownMethods
    ensures Route(methodName, parameters, serialize).Ok?
    ensures var r := Route(methodName, parameters, serialize).value;
      r.Obj? && |r.members| == 1 && Member(Some(r), "error") == Some(Str("Unknown method: " + Text(methodName)))
  {
  }

  /**
    A request faults only for a structural reason: its envelope does not
    decode, or `initialize` or `tools/call` cannot read what they need.
   */
  lemma HardFaultsAreStructural(request: Json, serialize: Serializer)
    requires HandleRequest(request, serialize).Fault?
    ensures DecodeRequest(request).Fault? ||
      DecodeRequest(request).value.methodName == Some(Initialize) ||
      DecodeRequest(request).value.methodName == Some(ToolsCall)
  {
    ResponseEnvelope(request, serialize);
    if DecodeRequest(request).Ok? {
      var r := DecodeRequest(request).value;
      RouteFaultsOnlyReadingParams(r.methodName, r.params, serialize);
    }
  }

  /** Only the two methods that read `params` can fault. */
  lemma RouteFaultsOnlyReadingParams(methodName: Option<string>, parameters: Option<Json>, serialize: Serializer)
    requires Route(methodName, parameters, serialize).Fault?
    ensures methodName == Some(Initialize) || methodName == Some(ToolsCall)
  {
  }

  predicate AdvertisesFixedCapabilities(r: Json) {
    && Member(Member(Member(Some(r), "capabilities"), "resources"), "subscribe") == Some(Bool(true))
    && Member(Member(Member(Some(r), "capabilities"), "tools"), "listChanged") == Some(Bool(true))
    && Member(Member(Some(r), "serverInfo"), "name") == Some(Str("vanilla-mcp"))
    && Member(Member(Some(r), "serverInfo"), "version") == Some(Str("1.0.0"))
  }

  /**
    `initialize` succeeds exactly when `params` has a string (or null)
    `protocolVersion`, echoes it unchanged and advertises the fixed
    capabilities and server identity.
   */
  lemma InitializeFaults(parameters: Option<Json>, serialize: Serializer)
    ensures parameters.None? ==>
      Route(Some(Initialize), parameters, serialize) == Fault(WrongKind(ObjectKind))
    ensures parameters.Some? && parameters.value.Obj? && Member(parameters, "protocolVersion").None? ==>
      Route(Some(Initialize), parameters, serialize) == Fault(MissingProperty("protocolVersion"))
    ensures Route(Some(Initialize), parameters, serialize).Ok? <==>
      Member(parameters, "protocolVersion").Some? && IsStringOrNull(Member(parameters, "protocolVersion").value)
  {
  }

  lemma InitializeEchoesProtocolVersion(parameters: Option<Json>, serialize: Serializer)
    ensures Route(Some(Initialize), parameters, serialize).Ok? ==>
      var r := Route(Some(Initialize), parameters, serialize).value;
      Member(Some(r), "protocolVersion") == Member(parameters, "protocolVersion") && AdvertisesFixedCapabilities(r)
  {
    if Route(Some(Initialize), parameters, serialize).Ok? {
      InitializePayloadFields(parameters);
    }
  }

  /** The payload OnInitialize builds reads back as the given version and the fixed capabilities. */
  lemma InitializePayloadFields(parameters: Option<Json>)
    requires OnInitialize(parameters).Ok?
    ensures var r := OnInitialize(parameters).value;
      Member(Some(r), "protocolVersion") == Member(parameters, "protocolVersion") && AdvertisesFixedCapabilities(r)
  {
    var version := Member(parameters, "protocolVersion").value;
    assert NullableStr(GetString(version).value) == version;
    var r := OnInitialize(parameters).value;
    var capabilities := r.members[1].1;
    var serverInfo := r.members[2].1;
    LookupThree("protocolVersion", version, "capabilities", capabilities, "serverInfo", serverInfo);
    LookupTwo("resources", capabilities.members[0].1, "tools", capabilities.members[1].1);
    LookupOne("subscribe", Bool(true));
    LookupOne("listChanged", Bool(true));
    LookupTwo("name", Str(ServerName), "version", Str(ServerVersion));
  }

  // ---------------------------------------------------------------------
  // Tool registry

  lemma ToolsListIgnoresParams(p1: Option<Json>, p2: Option<Json>, s1: Serializer, s2: Serializer)
    ensures Route(Some(ToolsList), p1, s1) == Route(Some(ToolsList), p2, s2) == Ok(OnToolsList())
  {
  }

  /** The four tools, in order, with distinct names and required arguments that their schemas declare. */
  lemma RegistryContents()
    ensures |Registry| == 4
    ensures Registry[0].name == "get_system_status" && Registry[0].inputSchema.required == []
    ensures Registry[1].name == "get_devices" && Registry[1].inputSchema.required == []
    ensures Registry[2].name == "get_device_volume" && Registry[2].inputSchema.required == ["id"]
    ensures Registry[3].name == "set_device_volume" && Registry[3].inputSchema.required == ["id", "volume"]
    ensures forall i, j :: 0 <= i < j < |Registry| ==> Registry[i].name != Registry[j].name
    ensures forall t, p :: t in Registry && p in t.inputSchema.required ==>
      exists a :: a in t.inputSchema.properties && a.name == p
  {
  }

  /** The `tools/list` payload lists each registry tool, in registry order, with its name and required names. */
  lemma ToolsListSerializesRegistry()
    ensures Member(Some(OnToolsList()), "tools").Some? && Member(Some(OnToolsList()), "tools").value.Arr?
    ensures var items := Member(Some(OnToolsList()), "tools").value.items;
      && |items| == |Registry|
      && forall i :: 0 <= i < |items| ==>
           && Member(Some(items[i]), "name") == Some(Str(Registry[i].name))
           && Member(Some(items[i]), "description") == Some(Str(Registry[i].description))
           && Member(Member(Some(items[i]), "inputSchema"), "type") == Some(Str("object"))
           && Member(Member(Some(items[i]), "inputSchema"), "required") ==
                Some(Arr(seq(|Registry[i].inputSchema.required|, k requires 0 <= k < |Registry[i].inputSchema.required| =>
                               Str(Registry[i].inputSchema.required[k]))))
  {
    var items := seq(|Registry|, i requires 0 <= i < |Registry| => ToolJson(Registry[i]));
    LookupOne("tools", Arr(items));
    forall i | 0 <= i < |items|
      ensures Member(Some(items[i]), "name") == Some(Str(Registry[i].name))
      ensures Member(Some(items[i]), "description") == Some(Str(Registry[i].description))
      ensures Member(Member(Some(items[i]), "inputSchema"), "type") == Some(Str("object"))
      ensures Member(Member(Some(items[i]), "inputSchema"), "required") ==
                Some(Arr(seq(|Registry[i].inputSchema.required|, k requires 0 <= k < |Registry[i].inputSchema.required| =>
                               Str(Registry[i].inputSchema.required[k]))))
    {
      var t := Registry[i];
      var s := t.inputSchema;
      LookupThree("name", Str(t.name), "description", Str(t.description), "inputSchema", SchemaJson(s));
      LookupThree("type", Str("object"),
                  "properties", Obj(seq(|s.properties|, k requires 0 <= k < |s.properties| => ArgumentJson(s.properties[k]))),
                  "required", Arr(seq(|s.required|, k requires 0 <= k < |s.required| => Str(s.required[k]))));
    }
  }

  /** The schema properties `tools/list` declares: none for the first two tools, then `id` and `volume`. */
  lemma ToolsListDeclaresArgumentTypes()
    ensures var items := Member(Some(OnToolsList()), "tools").value.items;
      && Member(Member(Some(items[0]), "inputSchema"), "properties") == Some(Obj([]))
      && Member(Member(Some(items[1]), "inputSchema"), "properties") == Some(Obj([]))
      && Member(Member(Member(Member(Some(items[2]), "inputSchema"), "properties"), "id"), "type") == Some(Str("string"))
      && Member(Member(Member(Member(Some(items[3]), "inputSchema"), "properties"), "id"), "type") == Some(Str("string"))
      && Member(Member(Member(Member(Some(items[3]), "inputSchema"), "properties"), "volume"), "type") == Some(Str("integer"))
  {
    ListedSchema(0);
    ListedSchema(1);
    ListedSchema(2);
    ListedSchema(3);
    var id := ArgumentJson(IdArgument);
    var volume := ArgumentJson(VolumeArgument);
    SchemaProperties(Registry[0].inputSchema, []);
    SchemaProperties(Registry[1].inputSchema, []);
    SchemaProperties(Registry[2].inputSchema, [id]);
    SchemaProperties(Registry[3].inputSchema, [id, volume]);
    LookupOne(id.0, id.1);
    LookupTwo(id.0, id.1, volume.0, volume.1);
    LookupTwo("type", Str("string"), "description", Str(IdArgument.description));
    LookupTwo("type", Str("integer"), "description", Str(VolumeArgument.description));
  }

  /** The i-th listed tool carries the i-th registry schema. */
  lemma ListedSchema(i: nat)
    requires i < |Registry|
    ensures Member(Some(OnToolsList()), "tools").Some? && Member(Some(OnToolsList()), "tools").value.Arr?
    ensures var items := Member(Some(OnToolsList()), "tools").value.items;
      i < |items| && Member(Some(items[i]), "inputSchema") == Some(SchemaJson(Registry[i].inputSchema))
  {
  }

  /** A schema's `properties` member is the object of its declared arguments. */
  lemma SchemaProperties(s: InputSchema, declared: seq<(string, Json)>)
    requires |declared| == |s.properties|
    requires forall k :: 0 <= k < |s.properties| ==> declared[k] == ArgumentJson(s.properties[k])
    ensures Member(Some(SchemaJson(s)), "properties") == Some(Obj(declared))
  {
    var properties := seq(|s.properties|, k requires 0 <= k < |s.properties| => ArgumentJson(s.properties[k]));
    assert properties == declared;
    LookupThree("type", Str("object"), "properties", Obj(properties),
                "required", Arr(seq(|s.required|, k requires 0 <= k < |s.required| => Str(s.required[k]))));
  }

  // ---------------------------------------------------------------------
  // Tool dispatcher

  /** `name` and `arguments` are both read before the switch, so either one missing faults, for every tool. */
  lemma ToolsCallNeedsNameAndArguments(parameters: Option<Json>, serialize: Serializer)
    requires Member(parameters, "name").None? || Member(parameters, "arguments").None?
    ensures Route(Some(ToolsCall), parameters, serialize).Fault?
  {
  }

  lemma UnknownToolIsText(parameters: Option<Json>, name: Option<string>, serialize: Serializer)
    requires Member(parameters, "name") == Some(NullableStr(name))
    requires Member(parameters, "arguments").Some?
    requires name.None? || name.value !in {GetSystemStatus, GetDevices, GetDeviceVolume, SetDeviceVolume}
    ensures Route(Some(ToolsCall), parameters, serialize).Ok?
    ensures ContentText(Route(Some(ToolsCall), parameters, serialize).value) == Some("Unknown tool: " + Text(name))
  {
    WrapTextContent("Unknown tool: " + Text(name));
  }

  /** Every tool result that does not fault is a content list of exactly one text item. */
  lemma ToolResultsAreSingleText(parameters: Option<Json>, serialize: Serializer)
    ensures OnToolsCall(parameters, serialize).Ok? ==> ContentText(OnToolsCall(parameters, serialize).value).Some?
  {
    var r := OnToolsCall(parameters, serialize);
    if r.Ok? {
      var name := GetString(Member(parameters, "name").value).value;
      var arguments := Member(parameters, "arguments").value;
      if name == Some(GetDevices) {
        WrapJsonContent(Devices, serialize);
      } else if name == Some(GetDeviceVolume) {
        GetDeviceVolumeIsText(arguments);
      } else if name == Some(SetDeviceVolume) {
        SetDeviceVolumeIsText(arguments);
      } else if name == Some(GetSystemStatus) {
        WrapTextContent("System is running");
      } else {
        WrapTextContent("Unknown tool: " + Text(name));
      }
    }
  }

  lemma GetDeviceVolumeIsText(arguments: Json)
    ensures HandleGetDeviceVolume(arguments).Ok? ==> ContentText(HandleGetDeviceVolume(arguments).value).Some?
  {
    if HandleGetDeviceVolume(arguments).Ok? {
      var id := GetString(Member(Some(arguments), "id").value).value;
      WrapTextContent("No device found with id " + Text(id));
      WrapTextContent("Volume for device " + Text(id) + " is " + IntToString(VolumeOf(id)));
    }
  }

  lemma SetDeviceVolumeIsText(arguments: Json)
    ensures HandleSetDeviceVolume(arguments).Ok? ==> ContentText(HandleSetDeviceVolume(arguments).value).Some?
  {
    if HandleSetDeviceVolume(arguments).Ok? {
      var id := GetString(Member(Some(arguments), "id").value).value;
      var volume := GetInt32(Member(Some(arguments), "volume").value).value;
      WrapTextContent("Volume for device " + Text(id) + " set to " + IntToString(volume));
    }
  }

  lemma GetSystemStatusText(parameters: Option<Json>, serialize: Serializer)
    requires Member(parameters, "name") == Some(Str(GetSystemStatus))
    requires Member(parameters, "arguments").Some?
    ensures OnToolsCall(parameters, serialize).Ok?
    ensures ContentText(OnToolsCall(parameters, serialize).value) == Some("System is running")
  {
  }

  /** `get_devices` wraps the one serialized device list as its text. */
  lemma GetDevicesWrapsSerialization(parameters: Option<Json>, serialize: Serializer)
    requires Member(parameters, "name") == Some(Str(GetDevices))
    requires Member(parameters, "arguments").Some?
    ensures OnToolsCall(parameters, serialize).Ok?
    ensures ContentText(OnToolsCall(parameters, serialize).value) == Some(serialize(Devices))
  {
    WrapJsonContent(Devices, serialize);
  }

  /** A value of the type a schema property declares, as the handlers read it. */
  predicate HasArgType(v: Json, t: ArgType) {
    match t
    case StringArg => v.Str?
    case IntegerArg => IsInt32Literal(v)
  }

  /** `arguments` is an object holding every required property at its declared type. */
  predicate Conforms(arguments: Json, schema: InputSchema) {
    && arguments.Obj?
    && forall a :: a in schema.properties && a.name in schema.required ==>
         Lookup(arguments.members, a.name).Some? && HasArgType(Lookup(arguments.members, a.name).value, a.argType)
  }

  /** Arguments that conform to a registered tool's schema never fault its call. */
  lemma ConformingCallSucceeds(t: Tool, parameters: Json, arguments: Json, serialize: Serializer)
    requires t in Registry
    requires Member(Some(parameters), "name") == Some(Str(t.name))
    requires Member(Some(parameters), "arguments") == Some(arguments)
    requires Conforms(arguments, t.inputSchema)
    ensures OnToolsCall(Some(parameters), serialize).Ok?
  {
  }

  /** A required argument that is missing faults the call of a registered tool. */
  lemma MissingRequiredArgumentFaults(t: Tool, parameters: Json, arguments: Json, p: string, serialize: Serializer)
    requires t in Registry
    requires Member(Some(parameters), "name") == Some(Str(t.name))
    requires Member(Some(parameters), "arguments") == Some(arguments)
    requires p in t.inputSchema.required
    requires Member(Some(arguments), p).None?
    ensures OnToolsCall(Some(parameters), serialize).Fault?
  {
  }

  // ---------------------------------------------------------------------
  // Volume handlers

  /**
    A cross-check of the two fixed tables: the volume table answers devices
    "1", "2" and "3", exactly the ids of the device list, which are distinct.
    No handler depends on it; the source keeps the tables apart.
   */
  lemma VolumeTableMatchesDevices()
    ensures forall id :: VolumeOf(Some(id)) != -1 <==> exists d :: d in Devices && d.id == id
    ensures forall i, j :: 0 <= i < j < |Devices| ==> Devices[i].id != Devices[j].id
  {
  }

  lemma GetDeviceVolumeText(arguments: Json, id: Option<string>)
    requires Member(Some(arguments), "id") == Some(NullableStr(id))
    ensures HandleGetDeviceVolume(arguments).Ok?
    ensures ContentText(HandleGetDeviceVolume(arguments).value) ==
      Some(match id
           case Some("1") => "Volume for device 1 is 25"
           case Some("2") => "Volume for device 2 is 40"
           case Some("3") => "Volume for device 3 is 15"
           case _ => "No device found with id " + Text(id))
  {
    match id
    case Some("1") =>
      assert IntToString(25) == "25";
      assert "Volume for device " + Text(id) + " is " + IntToString(25) == "Volume for device 1 is 25";
      WrapTextContent("Volume for device 1 is 25");
    case Some("2") =>
      assert IntToString(40) == "40";
      assert "Volume for device " + Text(id) + " is " + IntToString(40) == "Volume for device 2 is 40";
      WrapTextContent("Volume for device 2 is 40");
    case Some("3") =>
      assert IntToString(15) == "15";
      assert "Volume for device " + Text(id) + " is " + IntToString(15) == "Volume for device 3 is 15";
      WrapTextContent("Volume for device 3 is 15");
    case _ =>
      WrapTextContent("No device found with id " + Text(id));
  }

  lemma GetDeviceVolumeFaults(arguments: Json)
    ensures HandleGetDeviceVolume(arguments).Fault? <==>
      Member(Some(arguments), "id").None? || !IsStringOrNull(Member(Some(arguments), "id").value)
  {
  }

  /** `set_device_volume` confirms whatever device id it is given. */
  lemma SetDeviceVolumeConfirms(arguments: Json, id: Option<string>, volume: Int32)
    requires Member(Some(arguments), "id") == Some(NullableStr(id))
    requires Member(Some(arguments), "volume") == Some(Num(Integer(volume)))
    ensures HandleSetDeviceVolume(arguments).Ok?
    ensures ContentText(HandleSetDeviceVolume(arguments).value) ==
      Some("Volume for device " + Text(id) + " set to " + IntToString(volume))
  {
    WrapTextContent("Volume for device " + Text(id) + " set to " + IntToString(volume));
  }

  /** A `tools/call` of `get_device_volume` answers with the handler's text for the given id. */
  lemma GetDeviceVolumeCall(parameters: Option<Json>, arguments: Json, id: Option<string>, serialize: Serializer)
    requires Member(parameters, "name") == Some(Str(GetDeviceVolume))
    requires Member(parameters, "arguments") == Some(arguments)
    requires Member(Some(arguments), "id") == Some(NullableStr(id))
    ensures Route(Some(ToolsCall), parameters, serialize).Ok?
    ensures ContentText(Route(Some(ToolsCall), parameters, serialize).value) ==
      Some(match id
           case Some("1") => "Volume for device 1 is 25"
           case Some("2") => "Volume for device 2 is 40"
           case Some("3") => "Volume for device 3 is 15"
           case _ => "No device found with id " + Text(id))
  {
    GetDeviceVolumeText(arguments, id);
  }

  /** A `tools/call` of `set_device_volume` confirms the given id and volume. */
  lemma SetDeviceVolumeCall(parameters: Option<Json>, arguments: Json, id: Option<string>, volume: Int32,
                            serialize: Serializer)
    requires Member(parameters, "name") == Some(Str(SetDeviceVolume))
    requires Member(parameters, "arguments") == Some(arguments)
    requires Member(Some(arguments), "id") == Some(NullableStr(id))
    requires Member(Some(arguments), "volume") == Some(Num(Integer(volume)))
    ensures Route(Some(ToolsCall), parameters, serialize).Ok?
    ensures ContentText(Route(Some(ToolsCall), parameters, serialize).value) ==
      Some("Volume for device " + Text(id) + " set to " + IntToString(volume))
  {
    SetDeviceVolumeConfirms(arguments, id, volume);
  }

  /** It faults only when `id` or `volume` is missing or of the wrong kind. */
  lemma SetDeviceVolumeFaults(arguments: Json)
    ensures HandleSetDeviceVolume(arguments).Fault? <==>
      || Member(Some(arguments), "id").None?
      || !IsStringOrNull(Member(Some(arguments), "id").value)
      || Member(Some(arguments), "volume").None?
      || !IsInt32Literal(Member(Some(arguments), "volume").value)
  {
  }

  const ExampleArguments: Json := Obj([("id", Str("9")), ("volume", Num(Integer(50)))])
  const ExampleParams: Json := Obj([("name", Str("set_device_volume")), ("arguments", ExampleArguments)])
  const ExampleRequest: Json :=
    Obj([("jsonrpc", Str("2.0")), ("id", Num(Integer(7))), ("method", Str("tools/call")), ("params", ExampleParams)])

  /** A whole request: device 9 does not exist, and its volume is confirmed all the same. */
  lemma SetUnknownDeviceVolumeExample(serialize: Serializer)
    ensures forall d :: d in Devices ==> d.id != "9"
    ensures HandleRequest(ExampleRequest, serialize).Ok?
    ensures Member(Some(HandleRequest(ExampleRequest, serialize).value), "id") == Some(Num(Integer(7)))
    ensures Member(Some(HandleRequest(ExampleRequest, serialize).value), "result").Some?
    ensures ContentText(Member(Some(HandleRequest(ExampleRequest, serialize).value), "result").value) ==
              Some("Volume for device 9 set to 50")
  {
    var text := "Volume for device 9 set to 50";
    ExampleDecodes();
    ExampleRoutes(serialize);
    EncodeResponseFields(Response(7, WrapTextResult(text)));
    WrapTextContent(text);
  }

  lemma ExampleDecodes()
    ensures DecodeRequest(ExampleRequest) == Ok(Request(Some("tools/call"), Some(ExampleParams), 7))
  {
    LookupFour("jsonrpc", Str("2.0"), "id", Num(Integer(7)), "method", Str("tools/call"), "params", ExampleParams);
    LookupThree("jsonrpc", Str("2.0"), "id", Num(Integer(7)), "method", Str("tools/call"));
  }

  lemma ExampleRoutes(serialize: Serializer)
    ensures Route(Some("tools/call"), Some(ExampleParams), serialize) ==
              Ok(WrapTextResult("Volume for device 9 set to 50"))
  {
    LookupTwo("name", Str("set_device_volume"), "arguments", ExampleArguments);
    LookupTwo("id", Str("9"), "volume", Num(Integer(50)));
    assert IntToString(50) == "50";
    assert "Volume for device " + Text(Some("9")) + " set to " + IntToString(50) == "Volume for device 9 set to 50";
  }
}
