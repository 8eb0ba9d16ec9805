# EclipseCon 2022 hackathon: a verified model of its decision logic

This project models the decision logic of the EclipseCon 2022 hackathon
system in Dafny. The system is a Bluetooth mesh of micro:bit nodes, a
gateway that converts mesh messages to JSON and back, a dashboard backend
that follows a digital twin, a web console, and a browser simulator that
stands in for a node. The model covers six components:

- **Sensor firmware** (`SensorModel`). A server whose only state is an
  optional publication ticker. A periodic cadence arms the ticker; the
  on-change and none cadences disarm it. While armed, each tick reads the
  on-chip temperature, doubles it into half degrees, and publishes it as a
  Sensor Status. `Sensor.Step` is one pass of the endless run loop, and
  `Sensor.Run` makes one pass for each entry of a finite trace.
- **Display firmware** (`DisplayModel`). A Generic OnOff server. Its
  `process` loop waits for a Set or Set Unacknowledged and returns
  `on_off != 0` (section 3.2.1.2 of the Bluetooth Mesh Model
  specification). Its `run` loop keeps an `enable` flag. While enabled,
  it races a never-ending blinker against `process`. The blinker is the
  class `DisplayOnOff`, and each cycle it plays is a sequence of LED
  operations.
- **Model converter** (`Converter`). `Json2Command` turns a dashboard
  command into an OnOff Set envelope. `Telemetry2Json` turns an envelope
  into dashboard JSON, trying OnOff Set, OnOff Set Unacknowledged, Sensor
  Status and Battery Status in that order, and halves the temperature. The
  two HTTP handlers update a cloud event in place and are the methods of
  the class `Event`.
- **Web simulator** (`Simulator`). `Publish` is the bounded envelope
  builder. The class `App` holds the page state: the LED matrix, the
  Running/Stopped state and the connection fields. Its methods are the
  click handler, the command callback and the input handlers.
- **Twin connector** (`Twin`). The dashboard's websocket client of the
  twin service. The class `TwinConnector` keeps the known child things,
  connection flags, and a log of the subscribe/unsubscribe requests it
  wrote. A root update makes the known ids exactly `child + "/sensor"`
  for the root's children, subscribing to added ids and unsubscribing
  from removed ones, once each.
- **Console backend** (`Console`). The endpoint configuration and the URL
  joining it uses, the response check, and the guard in front of the
  display command.

Two more modules support these:

- `Mesh` gives the mesh codec a concrete byte layout, with round trips
  proved: 1–3 octet opcodes as in section 3.7.3.1 of the Bluetooth Mesh
  Profile specification, and the OnOff, Sensor and Battery parameters.
- `System` states end-to-end properties across components. A temperature
  read by the firmware reaches the dashboard unchanged. A command reaches
  the display and the simulator with the same intent. The display and the
  gateway disagree on an OnOff Set whose value is 2: the display
  switches on for any non-zero value, while the gateway and the simulator
  report on only for exactly 1.

A Rust `unwrap` that panics and an exception nobody catches are the `Err`
(or `Panicked`) case of a result.

Integer handling:

- Fixed-width integers are subset types of `int`.
- `as u16` keeps the low sixteen bits.
- Overflowing `i8` and `u32` arithmetic wraps, as in a release build.
- `i8` division truncates toward zero.

The library codec the original code calls is not part of this model. `Mesh`
gives it a concrete layout instead; the two-octet Sensor Status property
header is this model's own choice.

## Model

| member | source | states |
|---|---|---|
| Prelude.WrapI8 | firmware/src/sensor.rs:31 | i8 arithmetic wraps modulo 256 and is exact inside the i8 range |
| Prelude.AsU16 | infra/model-converter/src/main.rs:66-67 | `as u16` is congruent to its input modulo 65536 and is the identity below 65536 |
| Prelude.WrapU32 | web-simulator/src/main.rs:163 | u32 arithmetic wraps modulo 2^32 and is exact below 2^32 |
| Json.Int | infra/model-converter/src/main.rs:85 | an integer is written as a JSON number holding exactly that integer, unsigned exactly when it is not negative |
| Json.IntRoundTrip | infra/model-converter/src/main.rs:50 | `as_u64` reads back exactly the non-negative written integers, with their value, and no written integer reads as a boolean |
| Mesh.EmitOpcode | infra/model-converter/src/main.rs:60-61 | an opcode is emitted as 1 to 3 octets, starting with its first octet |
| Mesh.SplitOpcode | infra/model-converter/src/main.rs:79 | splitting fails exactly on empty input, the reserved octet 0x7F, or a 2- or 3-octet opcode cut short |
| Mesh.SplitEmit | infra/model-converter/src/main.rs:60-61 | splitting an emitted well-formed opcode followed by any octets gives the opcode and those octets back |
| Mesh.OnOffOpcode | infra/model-converter/src/main.rs:61 | every OnOff message has a well-formed opcode |
| Mesh.ParseOnOff | infra/model-converter/src/main.rs:83 | the OnOff parser claims exactly the four OnOff opcodes, and what it decodes re-emits to the same opcode and parameters |
| Mesh.OnOffRoundTrip | infra/model-converter/src/main.rs:58-64 | parsing the emitted opcode and parameters of an OnOff message gives the message back |
| Mesh.ParseSensor | infra/model-converter/src/main.rs:94 | the sensor parser claims only Sensor Status, and what it decodes re-emits to the same parameters |
| Mesh.SensorRoundTrip | firmware/src/sensor.rs:79-82 | parsing an emitted Sensor Status gives it back |
| Mesh.PresenceOf | infra/model-converter/src/main.rs:114-119 | every 2-bit presence code decodes to the presence state that encodes to it |
| Mesh.IndicatorOf | web-simulator/src/main.rs:173 | every 2-bit indicator code decodes to the indicator that encodes to it |
| Mesh.ChargingOf | web-simulator/src/main.rs:174 | every 2-bit charging code decodes to the charging state that encodes to it |
| Mesh.FlagsRoundTrip | web-simulator/src/main.rs:171-175 | the battery flags octet decodes to the flags it encodes |
| Mesh.Le24RoundTrip | web-simulator/src/main.rs:167-170 | a 24-bit time encoded little-endian decodes to itself |
| Mesh.ParseBattery | infra/model-converter/src/main.rs:106-107 | the battery parser claims only Battery Status, needs 8 parameter octets, and takes the level from the first and the flags from the last |
| Mesh.BatteryRoundTrip | web-simulator/src/main.rs:167-178 | parsing an emitted Battery Status gives it back |
| Mesh.ParsersDisjoint | infra/model-converter/src/main.rs:83-124 | no opcode is claimed by two of the OnOff, sensor and battery parsers |
| SensorModel.NextTicker | firmware/src/sensor.rs:40-56 | a cadence event arms the ticker exactly when it is periodic, with that period; any other payload leaves the ticker alone |
| SensorModel.Read | firmware/src/sensor.rs:28-33 | a driver failure is an error; otherwise the temperature is the reading doubled modulo 256, exactly twice the reading in [-64, 63] |
| SensorModel.Outcome | firmware/src/sensor.rs:71-101 | a pass waits exactly when no payload is ready and, if armed, no tick either; disarmed, a pass only processes a ready payload or waits; armed, a ready payload beats a ready tick; only an armed tick reads, and a successful read publishes the doubled reading whether or not the publish succeeds |
| SensorModel.Sensor.constructor | firmware/src/sensor.rs:23-25 | a new sensor has no ticker and has published nothing |
| SensorModel.Sensor.Process | firmware/src/sensor.rs:36-57 | the ticker becomes the cadence transition of the payload |
| SensorModel.Sensor.Step | firmware/src/sensor.rs:72-100 | one pass does what `Outcome` decides, updates the ticker only through a processed payload, and appends to the published statuses exactly the one it published, if any |
| SensorModel.Sensor.Run | firmware/src/sensor.rs:71-101 | the loop makes one pass per poll; the ticker and the published statuses are those of the whole trace |
| SensorModel.CadenceSequence | firmware/src/sensor.rs:41-54 | periodic, then on-change, then none leaves no ticker; on-change and none act the same on every state |
| SensorModel.TickKeepsTicker | firmware/src/sensor.rs:76-94 | a pass without a payload never changes the ticker |
| SensorModel.DisarmedNeverPublishes | firmware/src/sensor.rs:96-100 | from a disarmed sensor, a trace with no periodic cadence never arms it and publishes nothing |
| SensorModel.AtMostOnePublishPerTick | firmware/src/sensor.rs:76-94 | no more statuses are published than there are ticks |
| SensorModel.PublishedReading | firmware/src/sensor.rs:76-82 | an armed tick with a reading in [-64, 63] publishes twice that reading |
| SensorModel.MessageBeatsTick | firmware/src/sensor.rs:74-75 | a payload ready with a tick is processed and nothing is published in that pass |
| DisplayModel.Intent | firmware/src/display.rs:26-39 | only Set and Set Unacknowledged carry an intent, on exactly when `on_off` is not zero |
| DisplayModel.Process | firmware/src/display.rs:22-42 | the loop stops at the first payload with an intent and returns it, having skipped only payloads without one; with none it consumes everything and keeps waiting |
| DisplayModel.NextEnable | firmware/src/display.rs:94-105 | disabled, the next `enable` is the intent returned; enabled, a finished blinker (listed first) keeps it, otherwise the intent replaces it |
| DisplayModel.Run | firmware/src/display.rs:91-106 | `enable` starts false and, after any stretch of payloads, is the intent of the last Set or Set Unacknowledged (false if there was none) |
| DisplayModel.Ramp | firmware/src/display.rs:62-71 | a ramp of n frames is n brightness steps, each followed by one shown frame |
| DisplayModel.RampDuration | firmware/src/display.rs:60-71 | a ramp of n frames lasts n frame intervals |
| DisplayModel.FramesPerRamp | firmware/src/display.rs:60-67 | the 600 ms ramp holds 12 frames of 50 ms and the 400 ms ramp holds 8 |
| DisplayModel.CycleShape | firmware/src/display.rs:47-74 | a cycle starts at minimum brightness with the all-on frame, ramps up for 600 ms and down for 400 ms, clears, pauses 1 s, and lasts 2 s in all |
| DisplayModel.DisplayOnOff.constructor | firmware/src/display.rs:17-19 | a new display has shown nothing |
| DisplayModel.DisplayOnOff.RampFor | firmware/src/display.rs:60-71 | while the clock is before the window's end, one step and one frame are shown; the window holds the frames it rounds up to |
| DisplayModel.DisplayOnOff.BlinkCycle | firmware/src/display.rs:57-74 | one pass of the loop body renders exactly one cycle and advances the clock by 2 s |
| DisplayModel.DisplayOnOff.Blinker | firmware/src/display.rs:56-75 | the loop renders the same cycle again and again, and nothing else |
| DisplayModel.EnableTransitions | firmware/src/display.rs:96-104 | disabled, a Set decides `enable` and anything else leaves it false; enabled, a finished blinker keeps it and a Set replaces it |
| Converter.OnOffRequested | infra/model-converter/src/main.rs:51-53 | given a `display` that has `on`, `on_off` is 1 exactly when that member is the boolean `true`, and 0 for any other value |
| Converter.Json2Command | infra/model-converter/src/main.rs:46-76 | no command unless the input is an object with a numeric `address` and an object `display`; a panic exactly when `display` lacks `location` or `on`, or the address is negative or fractional; otherwise an OnOff Set with tid 0 and no transition, to the u16-truncated address and location (0 when `location` is not an unsigned integer) |
| Converter.DisplayFieldsRequired | infra/model-converter/src/main.rs:49-51 | with a valid address, a `display` missing `location` or `on` panics, and one holding both always gives a command |
| Converter.HalveI8 | infra/model-converter/src/main.rs:97 | halving truncates toward zero: the remainder is 0 or 1 for non-negative input, 0 or -1 for negative |
| Converter.PresenceName | infra/model-converter/src/main.rs:114-119 | every presence is reported as one of the four names |
| Converter.PresenceNamesDistinct | infra/model-converter/src/main.rs:114-119 | the four names tell the four presence states apart |
| Converter.Telemetry2Json | infra/model-converter/src/main.rs:78-127 | panics exactly when the opcode does not split; reports something exactly when one of the four parsers decodes the message, and only for those four opcodes |
| Converter.ButtonTelemetry | infra/model-converter/src/main.rs:83-92 | a Set or Set Unacknowledged is reported as a button, on exactly when `on_off` is 1 |
| Converter.OnOffOthersNotReported | infra/model-converter/src/main.rs:83-126 | an OnOff Get or Status is not reported |
| Converter.SensorTelemetry | infra/model-converter/src/main.rs:94-104 | a Sensor Status is reported with its temperature halved |
| Converter.BatteryTelemetry | infra/model-converter/src/main.rs:106-124 | a Battery Status is reported with its level and presence name |
| Converter.ForeignOpcodeNotReported | infra/model-converter/src/main.rs:126 | a message of any other model is not reported, whatever its parameters |
| Converter.TrailingOpcodeOctetsIgnored | infra/model-converter/src/main.rs:79 | octets after the first opcode, and the address, do not change the report |
| Converter.DecodeRaw | infra/model-converter/src/main.rs:19 | a decoded envelope takes its location, opcode and parameters from the JSON members of those names |
| Converter.RawRoundTrip | infra/model-converter/src/main.rs:19-39 | decoding an encoded envelope gives it back |
| Converter.TelemetryOutput | infra/model-converter/src/main.rs:18-28 | for JSON data that decodes as an envelope: a panic exactly when `telemetry2json` panics, new data exactly when it reports a state, and that data is `{state, partial: true}`; any other data is left alone |
| Converter.CommandOutput | infra/model-converter/src/main.rs:36-41 | for JSON data: a panic exactly when `json2command` panics, new data exactly when it gives a command, and that data is the encoded command, which decodes back to it; any other data is left alone |
| Converter.Event.constructor | infra/model-converter/src/main.rs:16 | an event holds its content type and data |
| Converter.Event.SetData | infra/model-converter/src/main.rs:26-40 | setting data sets the content type and the JSON data |
| Converter.Event.ConvertTelemetry | infra/model-converter/src/main.rs:15-31 | panics exactly when the conversion does; otherwise the event gets the new JSON data, or is untouched when there is none |
| Converter.Event.ConvertCommand | infra/model-converter/src/main.rs:33-44 | the same for commands |
| Converter.SensorEventOutput | infra/model-converter/src/main.rs:15-31 | a sensor node's envelope comes out as its state with the temperature halved, marked partial |
| Simulator.Publish | web-simulator/src/main.rs:51-69 | an encoding error exactly when the opcode exceeds 16 octets or the parameters exceed 386; otherwise an envelope at location 0 with the opcode and parameters verbatim |
| Simulator.PublishFits | web-simulator/src/main.rs:53-60 | OnOff, sensor and battery messages always fit; oversized parameters are refused, not truncated |
| Simulator.Decimal | web-simulator/src/main.rs:161 | a number's decimal text is a non-empty string of digits |
| Simulator.ParseDecimal | web-simulator/src/main.rs:161 | every u32 in decimal, with or without `+`, parses to itself; the empty string and a lone `+` do not parse |
| Simulator.SendInterval | web-simulator/src/main.rs:162-163 | the period is the start offset (the random number modulo 2000) plus the interval in milliseconds, reduced modulo 2^32 as u32 wrapping arithmetic does |
| Simulator.SendIntervalBounds | web-simulator/src/main.rs:161-183 | up to 4294965 s the period is the interval in milliseconds plus the random start offset, which is under 2000 ms |
| Simulator.CommandEffect | web-simulator/src/main.rs:145-155 | a panic exactly when the opcode does not split; only an OnOff Set changes the matrix, on exactly when `on_off` is 1, and brightness is kept |
| Simulator.Click | web-simulator/src/main.rs:108-207 | a running simulation always stops; a stopped one alerts exactly when a field or the interval is empty, panics on a bad URL or interval, and otherwise starts with the computed periods |
| Simulator.App.constructor | web-simulator/src/main.rs:85-95 | the matrix starts off at brightness 128, the state stopped, the fields at their defaults |
| Simulator.App.Input | web-simulator/src/main.rs:224-261 | an input handler sets its own field and no other |
| Simulator.App.OnCommand | web-simulator/src/main.rs:145-155 | the matrix becomes the command's effect, and stays as it was on a panic |
| Simulator.App.OnClick | web-simulator/src/main.rs:108-207 | the click's outcome is `Click` of the current fields, and the state follows it |
| Simulator.StartThenStop | web-simulator/src/main.rs:128-200 | with every field filled in and a valid interval, one click starts the simulation and the next stops it |
| Twin.ChildIdInjective | example-apps/dashboard/src/main/java/io/drogue/iot/hackathon/TwinConnector.java:258 | distinct children have distinct ids, and every child's id ends in `/sensor` |
| Twin.RootValues | example-apps/dashboard/src/main/java/io/drogue/iot/hackathon/TwinConnector.java:255-271 | after a root update the known ids are exactly the child ids; known entries keep their state and new ones start empty |
| Twin.Overlay | example-apps/dashboard/src/main/java/io/drogue/iot/hackathon/TwinConnector.java:235-237 | the stored state has every reported and synthetic feature, synthetic winning on a clash |
| Twin.TwinConnector.constructor | example-apps/dashboard/src/main/java/io/drogue/iot/hackathon/TwinConnector.java:62-70 | nothing is known, connected, pending or sent |
| Twin.TwinConnector.Start | example-apps/dashboard/src/main/java/io/drogue/iot/hackathon/TwinConnector.java:72-80 | a connection attempt starts unless stopped, and the HTTP client exists |
| Twin.TwinConnector.IsConnected | example-apps/dashboard/src/main/java/io/drogue/iot/hackathon/TwinConnector.java:286-288 | connected means no attempt is pending; it holds with no socket, before any start and after stop |
| Twin.TwinConnector.Stop | example-apps/dashboard/src/main/java/io/drogue/iot/hackathon/TwinConnector.java:83-97 | afterwards the connector is stopped and has no socket, pending attempt or client |
| Twin.TwinConnector.Connect | example-apps/dashboard/src/main/java/io/drogue/iot/hackathon/TwinConnector.java:99-129 | an attempt becomes pending unless stopped |
| Twin.TwinConnector.Connected | example-apps/dashboard/src/main/java/io/drogue/iot/hackathon/TwinConnector.java:131-140 | the socket is open, nothing is pending, and exactly a subscription to the root is written |
| Twin.TwinConnector.Closed | example-apps/dashboard/src/main/java/io/drogue/iot/hackathon/TwinConnector.java:142-145 | the socket and every child are forgotten, and a reconnect is pending unless stopped |
| Twin.TwinConnector.Failed | example-apps/dashboard/src/main/java/io/drogue/iot/hackathon/TwinConnector.java:147-151 | the same, with a reconnect pending exactly when not stopped |
| Twin.TwinConnector.Disconnected | example-apps/dashboard/src/main/java/io/drogue/iot/hackathon/TwinConnector.java:153-161 | no socket, no children, the empty state handed on, and a reconnect pending unless stopped |
| Twin.TwinConnector.Reconnect | example-apps/dashboard/src/main/java/io/drogue/iot/hackathon/TwinConnector.java:163-172 | an attempt becomes pending only when none was and the connector is not stopped |
| Twin.TwinConnector.Send | example-apps/dashboard/src/main/java/io/drogue/iot/hackathon/TwinConnector.java:208-213 | a request is written exactly when a socket is open |
| Twin.TwinConnector.SubscribeThing | example-apps/dashboard/src/main/java/io/drogue/iot/hackathon/TwinConnector.java:194-199 | a subscribe request for the thing is written when a socket is open |
| Twin.TwinConnector.UnsubscribeThing | example-apps/dashboard/src/main/java/io/drogue/iot/hackathon/TwinConnector.java:201-206 | an unsubscribe request for the thing is written when a socket is open |
| Twin.TwinConnector.SendState | example-apps/dashboard/src/main/java/io/drogue/iot/hackathon/TwinConnector.java:243-249 | the state holder gets the current values |
| Twin.TwinConnector.OnMessage | example-apps/dashboard/src/main/java/io/drogue/iot/hackathon/TwinConnector.java:174-192 | only a `change` or `initial` notification with a thing changes anything, and then exactly as that thing update: the values and, for the root, the subscriptions and unsubscriptions it writes |
| Twin.TwinConnector.UpdatedValues | example-apps/dashboard/src/main/java/io/drogue/iot/hackathon/TwinConnector.java:215-241 | the root's update sets the children; a known thing's update stores its overlaid state; an unknown thing's changes nothing |
| Twin.TwinConnector.ThingUpdate | example-apps/dashboard/src/main/java/io/drogue/iot/hackathon/TwinConnector.java:215-227 | the values become the updated values; a root update writes, only with a socket open, one subscription per added child id and one unsubscription per removed id, none twice; any other update writes nothing |
| Twin.TwinConnector.SetState | example-apps/dashboard/src/main/java/io/drogue/iot/hackathon/TwinConnector.java:229-241 | an unknown thing changes nothing; a known one gets its overlaid state, which is handed on |
| Twin.TwinConnector.SetRoot | example-apps/dashboard/src/main/java/io/drogue/iot/hackathon/TwinConnector.java:252-274 | the known ids become exactly the child ids; with a socket open, exactly the added ids are subscribed to and the removed ones unsubscribed from, each once, and nothing else is written |
| Twin.TwinConnector.AddChildren | example-apps/dashboard/src/main/java/io/drogue/iot/hackathon/TwinConnector.java:255-265 | every child id not yet known gets an empty entry and a subscription; the ids left to remove are the known ids that are no child's |
| Twin.TwinConnector.AddChild | example-apps/dashboard/src/main/java/io/drogue/iot/hackathon/TwinConnector.java:258-264 | a missing id gets an empty entry and a subscription; a known one is dropped from the ids left to remove |
| Twin.AddStep | example-apps/dashboard/src/main/java/io/drogue/iot/hackathon/TwinConnector.java:257-265 | one more child keeps the first loop's invariant: entries for exactly the ids seen, and subscriptions to exactly the added ones, once each |
| Twin.RootUpdate | example-apps/dashboard/src/main/java/io/drogue/iot/hackathon/TwinConnector.java:255-273 | the two loops leave exactly the root's values, and write the subscriptions to the added ids followed by the unsubscriptions from the removed ones, none twice |
| Twin.TwinConnector.RemoveAll | example-apps/dashboard/src/main/java/io/drogue/iot/hackathon/TwinConnector.java:267-271 | every remaining id is unsubscribed from once and forgotten |
| Twin.RootUpdateIdempotent | example-apps/dashboard/src/main/java/io/drogue/iot/hackathon/TwinConnector.java:252-274 | repeating a root update changes nothing and writes no request |
| Twin.NoChildrenRemovesAll | example-apps/dashboard/src/main/java/io/drogue/iot/hackathon/TwinConnector.java:216-223 | a root without an object `$children` drops and unsubscribes from every known id |
| Twin.AddedRemovedPartition | example-apps/dashboard/src/main/java/io/drogue/iot/hackathon/TwinConnector.java:257-271 | each child id is kept or added, each known id kept or removed, and nothing is both added and removed |
| Twin.StateUpdateKeepsKeys | example-apps/dashboard/src/main/java/io/drogue/iot/hackathon/TwinConnector.java:238 | a state update never adds or removes a known thing |
| Console.Endpoints.ApiBase | example-apps/console/src/main/webapp/src/app/backend.ts:59-69 | the configured API URL when set and not empty, the page's origin otherwise |
| Console.Endpoints.WsBase | example-apps/console/src/main/webapp/src/app/backend.ts:71-84 | the configured websocket URL when set and not empty; otherwise `ws://` exactly for an `http:` API and `wss://` for any other, then the API's host; a TypeError for an API base that does not parse |
| Console.Endpoints.Api | example-apps/console/src/main/webapp/src/app/backend.ts:100-102 | `api(path)` is the API base joined with the path |
| Console.Endpoints.Ws | example-apps/console/src/main/webapp/src/app/backend.ts:104-106 | `ws(path)` is the websocket base joined with the path, and fails exactly when the base does |
| Console.NewEndpoints | example-apps/console/src/main/webapp/src/app/backend.ts:47-53 | with an inner object it is kept; without one, the authorization server URL is empty and nothing else is set |
| Console.TrimTrailingSlashes | example-apps/console/src/main/webapp/src/app/backend.ts:87-90 | the base minus a run of trailing slashes, leaving none at the end |
| Console.JoinUrlIn | example-apps/console/src/main/webapp/src/app/backend.ts:86-98 | the loop strips every trailing slash, then adds one `/` unless the path starts with one, then the path |
| Console.JoinUrlIdempotent | example-apps/console/src/main/webapp/src/app/backend.ts:86-98 | without a path the result never ends in `/`, and joining it again changes nothing |
| Console.TrailingSlashesIgnored | example-apps/console/src/main/webapp/src/app/backend.ts:88-90 | extra trailing slashes on the base do not change the result |
| Console.JoinedBySlash | example-apps/console/src/main/webapp/src/app/backend.ts:91-96 | a base without a trailing slash and a path are joined by exactly one slash |
| Console.CheckError | example-apps/console/src/main/webapp/src/app/backend.ts:190-203 | an OK response passes unchanged; any other becomes a RequestError with its status, status text, the failure message or `Request failed`, and the body |
| Console.SetDisplay | example-apps/console/src/main/webapp/src/app/backend.ts:205-223 | rejected with missing endpoints exactly when they are not loaded; otherwise the API's display URL is fetched and the response checked |
| Console.DisplayUrl | example-apps/console/src/main/webapp/src/app/backend.ts:211 | the display path follows the stripped API base with no doubled slash |
| System.ReadingReachesDashboard | infra/model-converter/src/main.rs:97 | a reading in [-64, 63] doubled by the firmware and halved by the gateway reaches the dashboard unchanged |
| System.CommandReachesDisplay | firmware/src/display.rs:28-33 | a converted command reaches the display as a Set whose intent is `display.on == true` |
| System.CommandReachesSimulator | web-simulator/src/main.rs:145-155 | the same command switches the simulator's matrix the same way and keeps its brightness |
| System.OnOffDisagreement | infra/model-converter/src/main.rs:85 | a Set of 2 switches the display on but is reported off on the dashboard and switches the simulator off |
| System.OnOffAgreement | infra/model-converter/src/main.rs:83-92 | for `on_off` 0 and 1 the dashboard reports what the display does |
| System.SimulatedBatteryReport | web-simulator/src/main.rs:166-179 | the simulator's battery status reaches the dashboard as level 0, not present, at location 0 |
| System.SimulatedSensorReport | web-simulator/src/main.rs:186-195 | the simulator's 22 half degrees reach the dashboard as 11 degrees |

## Left out

- The async runtime and `select` polling. A race is `Prelude.Select` at one wake-up, with the first-listed branch winning when both are ready.
- The endless loops run over finite traces or cycle counts. Each pass is modelled, and every input of the trace is handled.
- Hardware drivers are not modelled. The temperature driver is a parameter (its reading, or a failure), including its fixed-point `to_num` conversion. The LED matrix is recorded as the list of operations applied to it.
- DisplayModel.DisplayOnOff.RampFor: each shown frame is taken to last exactly its 50 ms interval, because wall-clock time is not modelled. Real frames may run longer, and then a ramp holds fewer frames.
- The mesh codec library is not part of this model. `Mesh` gives it a concrete layout of its own, and the sensor property header is this model's choice.
- The sensor payload's acceleration and noise fields, which the simulator sets to their defaults, are not modelled.
- JSON text, serde and Vert.x (de)serialisation are not modelled; JSON is a value. `Converter.EncodeRaw` and `Converter.DecodeRaw` stand for the derived layout of the envelope.
- In the Twin connector, a notification text that fails to parse as JSON throws out of `onMessage`. It is not modelled: notifications arrive already decoded.
- HTTP, WebSocket and OIDC plumbing are left out: the token flow and URI building in `connect`, the socket handlers, `HttpPublisher::send`, the actix server and its health check. The connector's callbacks are methods the environment calls.
- The page's own origin (`document.URL` with path, query and fragment cleared), the WHATWG URL parser and `fetch` are parameters of the console functions. The simulator's URL parser is a parameter, and so are its interval input and its two random numbers.
- Simulator.Publish stops at the envelope. Its `serde_json::to_string` step cannot fail here and is not modelled, and neither is the hand-over to `send`. The simulator's envelope has no address, so the model gives it none.
- The simulator's interval timers are modelled by their periods only.
- Overflowing u32 and i8 arithmetic is modelled as wrapping, as in a release build. A debug build would panic instead.
- The simulator's `set_disabled` DOM calls, the opacity shown for the matrix (a float), and the page's rendering are left out.
- The console's `useEndpoints`, `useGameService`, `claimDevice`, `releaseDevice` and `createSimulator` are all fetch plumbing.
- The dashboard page, the console's request processor and the websocket events client are not part of this model.
