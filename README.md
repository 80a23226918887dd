# VanillaMcp request dispatcher, modelled in Dafny

This project models the JSON-RPC dispatcher of the `McpServer` class in
`Program.cs`. The server answers one POST endpoint. It reads a request
envelope (`method`, optional `params`, optional `id`) and routes it by method
name to one of these handlers:

- the `initialize` handshake;
- the two acknowledged notifications;
- the fixed four-tool registry (`tools/list`);
- the tool dispatcher (`tools/call`).

Every result is wrapped as `{jsonrpc: "2.0", id, result}`. Tool results all
take one uniform shape: a `content` list holding a single text item.

The source is pure dispatch logic, so the model is pure too: datatypes,
functions and lemmas. There are four modules, one per file:

- `JsonModel` (`json_model.dfy`) is the already-parsed JSON value,
  together with the JsonElement accessors the server calls: `GetProperty`,
  `TryGetProperty`, `GetString` and `GetInt32`. An accessor that would throw
  returns a `Fault` instead, and its `Reason` names the exception:
  - `MissingProperty` for KeyNotFoundException;
  - `WrongKind` for InvalidOperationException;
  - `NotInt32` for FormatException.

  Two accessor details are modelled explicitly. A property lookup finds the
  *last* member with the name. A JSON null reads as a null string.
- `DecimalText` (`decimal_text.dfy`) renders integers in decimal, as string
  interpolation does, and reads them back.
- `McpServer` (`mcp_server.dfy`) holds the rest of the server:
  - the `AudioDevice` and `Tool` records;
  - the registry;
  - every handler (`OnInitialize`, `StatusOkResult`, `ErrorResult`,
    `OnToolsList`, `OnToolsCall`, `HandleGetDevices`,
    `HandleGetDeviceVolume`, `HandleSetDeviceVolume`, `WrapTextResult`,
    `WrapJsonResult`);
  - the router `Route`;
  - the envelope functions `DecodeRequest`, `EncodeResponse` and
    `HandleRequest`.

  Each anonymous object the server builds is modelled as the JSON value it
  serializes to.
- `McpServerProperties` (`mcp_server_properties.dfy`) states what the
  dispatcher promises. It reads the produced JSON back member by member,
  through `Member` and `ContentText`, not through the way the handlers
  build it.

There are two tiers of error:

- A **fault** (`Fault`) is an exception that aborts the request. It happens:
  - when the request body is not a JSON object (Program.cs:18);
  - when `method` is missing or is neither a string nor null, or `id` is
    present but not an Int32 literal (Program.cs:18-24);
  - for `initialize` and `tools/call` only, when `params` is absent or not
    an object (Program.cs:20, 48, 132);
  - when `protocolVersion` or the tool `name` is missing or is neither a
    string nor null (Program.cs:48, 132);
  - when `arguments` is missing (Program.cs:133); any kind of value is
    accepted there;
  - for `get_device_volume` and `set_device_volume` only, when `arguments`
    is not an object, or its `id` or `volume` is missing or of the wrong
    kind (Program.cs:157, 177-178).
- A **soft error** is an ordinary result: an unknown method, an unknown tool
  or an unknown device.

Three behaviours of the code are easy to miss:

- An `id` that is present but is not an Int32 literal faults the request.
  It does not default to 0.
- `method`, `protocolVersion`, the tool `name` and the `id` argument may
  each be JSON null, because `GetString` accepts null. A null then takes
  the `_` arm of its switch, and interpolates as the empty text. So a null
  method yields `"Unknown method: "`, and a null `protocolVersion` is
  echoed back as null.
- `GetInt32` accepts only a plain integer literal in the Int32 range. The
  `volume` that the schema declares as `"integer"` therefore faults when it
  is written `50.0` or `5e1`, or when it lies outside that range.

## Model

| member | source | states |
|---|---|---|
| `JsonModel.LookupFindsLastDefinition` | Program.cs:18-22 | A property lookup finds nothing exactly when no member has the name; otherwise it returns the value of the last member with that name. |
| `McpServerProperties.MissingMethodFaults` | Program.cs:18 | A request object without `method` faults with MissingProperty("method") before `params` or `id` are read, so it never gets a soft error; a request that is not an object faults with WrongKind(Object). |
| `McpServerProperties.DecodeRequestCharacterized` | Program.cs:18-24 | Decoding succeeds exactly when the request is an object, its `method` is a string or null, and its `id` is absent or an Int32 literal. The decoded method and params are the request's members, and the decoded id is that literal, or 0 when `id` is absent. |
| `McpServerProperties.MistypedIdFaults` | Program.cs:22-24 | An `id` that is present but not an Int32 literal faults the request, with WrongKind(Number) or NotInt32, rather than defaulting to 0. |
| `McpServerProperties.DecodeEncodeRequest` | Program.cs:18-24 | Decoding inverts a client's encoding of any envelope, with or without `params`. |
| `McpServerProperties.EncodeResponseFields` | Program.cs:36-41 | The response envelope has exactly three members: `jsonrpc` = "2.0", the id, and the result. |
| `McpServerProperties.ResponseEnvelope` | Program.cs:18-41 | A request succeeds exactly when it decodes and its route succeeds. The response then has `jsonrpc` "2.0", the decoded id and exactly the router's result. A decoding fault is the request's fault. |
| `McpServerProperties.ResponseIdEchoesRequest` | Program.cs:22-39 | In every response the `id` member equals the request's `id` member, or is 0 when the request had none. |
| `McpServerProperties.NotificationsAcknowledged` | Program.cs:29-30 | `notifications/initialized` and `notifications/cancelled` return the one-member payload `{status: "ok"}` (line 66), whatever the params. |
| `McpServerProperties.UnknownMethodIsSoftError` | Program.cs:33 | A method outside the five known ones, or a null method, returns `{error: "Unknown method: " + method}` (line 68) and never a fault. |
| `McpServerProperties.RouteFaultsOnlyReadingParams` | Program.cs:26-34 | Only `initialize` and `tools/call` can fault in the router. |
| `McpServerProperties.HardFaultsAreStructural` | Program.cs:18-34 | A faulting request either failed to decode, or called `initialize` or `tools/call`. |
| `McpServerProperties.InitializeFaults` | Program.cs:46-48 | `initialize` faults with WrongKind(Object) when `params` is absent, and with MissingProperty("protocolVersion") when that member is missing. It succeeds exactly when `protocolVersion` is a string or null. |
| `McpServerProperties.InitializeEchoesProtocolVersion` | Program.cs:48-63 | A successful `initialize` echoes `protocolVersion` unchanged. It reports `capabilities.resources.subscribe` = true, `capabilities.tools.listChanged` = true, and `serverInfo` = vanilla-mcp / 1.0.0. |
| `McpServerProperties.InitializePayloadFields` | Program.cs:46-63 | Whenever `OnInitialize` succeeds, its payload's `protocolVersion` is the `protocolVersion` member of `params`, unchanged. The payload also reports both capability flags true and the server identity vanilla-mcp / 1.0.0. |
| `McpServerProperties.ToolsListIgnoresParams` | Program.cs:31 | `tools/list` gives the same registry payload for any params, and never faults. |
| `McpServerProperties.RegistryContents` | Program.cs:70-127 | The registry holds four tools in this order: `get_system_status` requiring [], `get_devices` requiring [], `get_device_volume` requiring ["id"], `set_device_volume` requiring ["id", "volume"]. Their names are distinct, and every required name is a declared property. |
| `McpServerProperties.ToolsListSerializesRegistry` | Program.cs:72-127 | The `tools` array lists every registry tool in registry order, with its name, its description, schema type "object" and its required names. |
| `McpServerProperties.ToolsListDeclaresArgumentTypes` | Program.cs:79-124 | The first two schemas have empty `properties`. `id` is declared "string" for both volume tools, and `volume` is declared "integer". |
| `McpServerProperties.WrapTextContent` | Program.cs:183-192 | The text wrapper's payload reads back as exactly one content item of type "text" that carries the given text. |
| `McpServerProperties.WrapJsonContent` | Program.cs:194-201 | The JSON wrapper's payload is one text item that carries the serialized data. |
| `McpServerProperties.ToolsCallNeedsNameAndArguments` | Program.cs:132-133 | A missing `name` or `arguments` faults `tools/call` for every tool, argument-less ones included. |
| `McpServerProperties.UnknownToolIsText` | Program.cs:141 | A tool name outside the four, or a null name, yields the text "Unknown tool: " + name, and not a fault. |
| `McpServerProperties.ToolResultsAreSingleText` | Program.cs:135-142 | Every tool call that does not fault returns a `content` list of exactly one text item. |
| `McpServerProperties.GetSystemStatusText` | Program.cs:137 | `get_system_status` returns the text "System is running". |
| `McpServerProperties.GetDevicesWrapsSerialization` | Program.cs:145-153 | `get_devices` returns the serialized device list as its single text item. |
| `McpServerProperties.ConformingCallSucceeds` | Program.cs:130-181 | A call to a registered tool whose arguments hold every required property at its declared type never faults. |
| `McpServerProperties.MissingRequiredArgumentFaults` | Program.cs:155-181 | A call to a registered tool that lacks one of the tool's required arguments faults. |
| `McpServerProperties.VolumeTableMatchesDevices` | Program.cs:149-165 | A cross-check of the two fixed tables: the volume table knows exactly the ids of the device list, and those ids are distinct. No handler relies on it. |
| `McpServerProperties.GetDeviceVolumeText` | Program.cs:157-172 | `get_device_volume` maps ids "1", "2" and "3" to the texts for volumes 25, 40 and 15. Any other id, null included, gives "No device found with id " + id. |
| `McpServerProperties.GetDeviceVolumeFaults` | Program.cs:157 | `get_device_volume` faults exactly when `id` is missing or is neither a string nor null. |
| `McpServerProperties.SetDeviceVolumeConfirms` | Program.cs:175-181 | For any id, known or not, `set_device_volume` returns "Volume for device <id> set to <volume>". |
| `McpServerProperties.SetDeviceVolumeFaults` | Program.cs:177-178 | `set_device_volume` faults exactly when `id` or `volume` is missing or of the wrong kind. |
| `McpServerProperties.GetDeviceVolumeCall` | Program.cs:130-172 | A `tools/call` naming `get_device_volume` never faults when its arguments' `id` is a string or null. It answers with the texts for volumes 25, 40 and 15 for ids "1", "2" and "3", and with "No device found with id " + id otherwise. |
| `McpServerProperties.SetDeviceVolumeCall` | Program.cs:130-181 | A `tools/call` naming `set_device_volume` with a string-or-null `id` and an Int32 `volume` answers "Volume for device <id> set to <volume>". |
| `McpServerProperties.SetUnknownDeviceVolumeExample` | Program.cs:175-180 | A whole request that sets device "9" (not a device) to 50 is answered with id 7 and the text "Volume for device 9 set to 50". |
| `DecimalText.IntRoundTrip` | Program.cs:180 | The decimal text an interpolated Int32 is rendered to reads back as that integer, so distinct volumes give distinct texts. |

## Left out

- HTTP hosting (Program.cs:3-10): the application builder, the route mapping and the listening address are host infrastructure.
- Reading the body and writing the response (Program.cs:16, 43) are I/O. The request is taken as an already-parsed `Json` value, so a body that is not valid JSON is outside the model. The response is the `Json` value that would be written; its byte-level encoding is not modelled.
- What the host sends back after an unhandled exception is not modelled. A hard error ends as a `Fault`.
- The `CancellationToken` (Program.cs:8, 14) is accepted and never used, so it is not a parameter. `notifications/cancelled` cancels nothing.
- `JsonSerializer.Serialize` of the device array (Program.cs:199) is a library call. It enters the model as the function parameter `serialize`. The model states only that `get_devices` wraps the one string it returns.
- `DecimalText.IntToString` stands in for .NET integer formatting. It does not model culture-specific number formats.
- JSON numbers are kept in their literal form (`Integer` or `Decimal`). Floating-point values are not modelled, because nothing here reads one.
