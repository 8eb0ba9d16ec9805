/**
  The model converter: the gateway service that turns a dashboard command
  (`{address, display: {on, location}}`) into a Generic OnOff Set envelope,
  and a telemetry envelope from the mesh into the dashboard's JSON state.

  `Json2Command` and `Telemetry2Json` are the two decision functions; a Rust
  panic inside them is the `Err` of their result. The two HTTP handlers
  change a cloud event in place and are the methods of the class `Event`.
 */
module Converter {
  import opened Prelude
  import opened Json
  import opened Mesh

  // -----------------------------------------------------------------------
  // Commands: dashboard JSON to a mesh envelope

  /** The shape `json2command` accepts: an object with a numeric `address`
      and an object `display`. */
  predicate IsCommandShape(data: Value) {
    && data.JObject?
    && "address" in data.fields && data.fields["address"].JNumber?
    && "display" in data.fields && data.fields["display"].JObject?
  }

  /** The on/off value the command asks for: only the JSON boolean `true`
      switches on; any other value of `on` means off. */
  function OnOffRequested(display: map<string, Value>): (r: Byte)
    requires "on" in display
    ensures r == 1 <==> display["on"] == JBool(true)
    ensures r == 0 <==> display["on"] != JBool(true)
  {
    if AsBool(display["on"]).GetOr(false) then 1 else 0
  }

  /** Why `json2command` panics on input of the accepted shape: indexing the
      `display` map at a missing key, then unwrapping `as_u64` of a
      negative or fractional address. */
  predicate CommandPanics(data: Value)
    requires IsCommandShape(data)
  {
    var display := data.fields["display"].fields;
    || "location" !in display
    || "on" !in display
    || !data.fields["address"].num.PosInt?
  }

  /** `json2command`: `Ok(None)` for input of another shape; a panic when
      `display` lacks `location` or `on` (the object is indexed as a map)
      or the address is negative or fractional; otherwise a Generic OnOff
      Set with transaction id 0 and no transition, addressed to the low 16
      bits of `address` and to the low 16 bits of `display.location` (0 when
      that is not an unsigned integer). */
  function Json2Command(data: Value): (r: Result<Option<RawMessage>, Panic>)
    ensures (r.Ok? && r.value.None?) <==> !IsCommandShape(data)
    ensures r.Err? <==> IsCommandShape(data) && CommandPanics(data)
    ensures r.Ok? && r.value.Some? ==>
      var m := r.value.value;
      var display := data.fields["display"].fields;
      && "location" in display && "on" in display
      && m.address == Some(AsU16(data.fields["address"].num.n))
      && m.location == AsU16(AsU64(display["location"]).GetOr(0))
      && SplitOpcode(m.opcode) == Some((ONOFF_SET, []))
      && ParseOnOff(ONOFF_SET, m.parameters) == Decoded(Set(OnOffSet(OnOffRequested(display), 0, None)))
  {
    if !IsCommandShape(data) then Ok(None)
    else
      var address := data.fields["address"].num;
      var display := data.fields["display"].fields;
      if "location" !in display then Err(Panic("state[\"location\"]"))
      else if "on" !in display then Err(Panic("state[\"on\"]"))
      else
        var location := AsU64(display["location"]).GetOr(0);
        var msg := Set(OnOffSet(OnOffRequested(display), 0, None));
        OnOffRoundTrip(msg);
        SplitEmit(ONOFF_SET, []);
        assert EmitOpcode(ONOFF_SET) + [] == EmitOpcode(ONOFF_SET);
        match BoundedEmit(EmitOpcode(OnOffOpcode(msg)), OPCODE_CAPACITY)
        case None => Err(Panic("msg.opcode().emit(&mut opcode).unwrap()"))
        case Some(opcode) =>
          match BoundedEmit(OnOffParameters(msg), PARAMETERS_CAPACITY)
          case None => Err(Panic("msg.emit_parameters(&mut parameters).unwrap()"))
          case Some(parameters) =>
            if !address.PosInt? then Err(Panic("address.as_u64().unwrap()"))
            else Ok(Some(RawMessage(Some(AsU16(address.n)), AsU16(location), opcode, parameters)))
  }

  /** A command whose `display` has no `location` or no `on` panics, even
      with a valid address; with both present, a valid address always gives
      a command, whatever the two values are. */
  lemma DisplayFieldsRequired(address: U64, display: map<string, Value>)
    ensures var data := JObject(map["address" := JNumber(PosInt(address)), "display" := JObject(display)]);
      && (("location" !in display || "on" !in display) ==> Json2Command(data).Err?)
      && (("location" in display && "on" in display) ==> Json2Command(data).Ok? && Json2Command(data).value.Some?)
  {
    var data := JObject(map["address" := JNumber(PosInt(address)), "display" := JObject(display)]);
    assert IsCommandShape(data);
  }

  // -----------------------------------------------------------------------
  // Telemetry: a mesh envelope to dashboard JSON

  /** `temperature /= 2` on an i8: Rust's division truncates toward zero. */
  function HalveI8(t: I8): (r: I8)
    ensures 0 <= t ==> 0 <= t - 2 * r <= 1
    ensures t < 0 ==> -1 <= t - 2 * r <= 0
  {
    var n: int := t;
    if n < 0 then -((-n) / 2) else n / 2
  }

  function ButtonJson(on: bool, location: U16): Value {
    JObject(map["button" := JObject(map["on" := JBool(on), "location" := Int(location)])])
  }

  function SensorJson(temperature: I8, location: U16): Value {
    JObject(map["sensor" := JObject(map["payload" := JObject(map["temperature" := Int(temperature)]), "location" := Int(location)])])
  }

  /** The name each presence state is reported under. */
  function PresenceName(p: Presence): (s: string)
    ensures s in {"NotPresent", "PresentRemovable", "PresentNotRemovable", "Unknown"}
  {
    match p
    case NotPresent => "NotPresent"
    case PresentRemovable => "PresentRemovable"
    case PresentNotRemovable => "PresentNotRemovable"
    case PresenceUnknown => "Unknown"
  }

  function BatteryJson(level: Byte, presence: Presence, location: U16): Value {
    JObject(map["battery" := JObject(map[
      "level" := Int(level),
      "flags" := JObject(map["presence" := JString(PresenceName(presence))]),
      "location" := Int(location)])])
  }

  /** The messages `telemetry2json` reports, in the order it tries them. */
  predicate Reported(op: Opcode, p: seq<Byte>) {
    || (ParseOnOff(op, p).Decoded? && ParseOnOff(op, p).msg.Set?)
    || (ParseOnOff(op, p).Decoded? && ParseOnOff(op, p).msg.SetUnacknowledged?)
    || ParseSensor(op, p).Decoded?
    || ParseBattery(op, p).Decoded?
  }

  /** `telemetry2json`: panics when the opcode octets do not start with a
      whole opcode; otherwise reports the first of OnOff Set, OnOff Set
      Unacknowledged, Sensor Status and Battery Status that the parameters
      decode as, and `None` when none does. Octets after the opcode are
      ignored. */
  function Telemetry2Json(msg: RawMessage): (r: Result<Option<Value>, Panic>)
    ensures r.Err? <==> SplitOpcode(msg.opcode).None?
    ensures r.Ok? ==> (r.value.Some? <==> Reported(SplitOpcode(msg.opcode).value.0, msg.parameters))
    ensures r.Ok? && r.value.Some? ==>
      SplitOpcode(msg.opcode).value.0 in {ONOFF_SET, ONOFF_SET_UNACKNOWLEDGED, SENSOR_STATUS, BATTERY_STATUS}
  {
    match SplitOpcode(msg.opcode)
    case None => Err(Panic("Opcode::split(&msg.opcode[..]).unwrap()"))
    case Some((opcode, _)) =>
      var parameters := msg.parameters;
      var location := msg.location;
      var onOff := ParseOnOff(opcode, parameters);
      if onOff.Decoded? && onOff.msg.Set? then
        Ok(Some(ButtonJson(onOff.msg.setting.onOff == 1, location)))
      else if onOff.Decoded? && onOff.msg.SetUnacknowledged? then
        Ok(Some(ButtonJson(onOff.msg.setting.onOff == 1, location)))
      else
        match ParseSensor(opcode, parameters)
        case Decoded(SensorStatus(data)) =>
          Ok(Some(SensorJson(HalveI8(data.temperature), location)))
        case _ =>
          match ParseBattery(opcode, parameters)
          case Decoded(BatteryStatusMessage(status)) =>
            Ok(Some(BatteryJson(status.level, status.flags.presence, location)))
          case _ => Ok(None)
  }

  /** The envelope a node sends for `m`. */
  function Envelope(address: Option<U16>, location: U16, m: AnyMessage): RawMessage {
    RawMessage(address, location, EmitOpcode(MessageOpcode(m)), MessageParameters(m))
  }

  /** A Set or Set Unacknowledged is reported as a button: on exactly when
      its on/off octet is 1. */
  lemma ButtonTelemetry(address: Option<U16>, location: U16, m: OnOffMessage)
    requires m.Set? || m.SetUnacknowledged?
    ensures Telemetry2Json(Envelope(address, location, OnOff(m))) == Ok(Some(ButtonJson(m.setting.onOff == 1, location)))
  {
    SplitEmit(OnOffOpcode(m), []);
    assert EmitOpcode(OnOffOpcode(m)) + [] == EmitOpcode(OnOffOpcode(m));
    OnOffRoundTrip(m);
  }

  /** A Get or a Status of the OnOff model is not reported. */
  lemma OnOffOthersNotReported(address: Option<U16>, location: U16, m: OnOffMessage)
    requires m.Get? || m.Status?
    ensures Telemetry2Json(Envelope(address, location, OnOff(m))) == Ok(None)
  {
    SplitEmit(OnOffOpcode(m), []);
    assert EmitOpcode(OnOffOpcode(m)) + [] == EmitOpcode(OnOffOpcode(m));
    OnOffRoundTrip(m);
  }

  /** A Sensor Status is reported with its temperature halved. */
  lemma SensorTelemetry(address: Option<U16>, location: U16, m: SensorMessage)
    ensures Telemetry2Json(Envelope(address, location, Sensor(m))) == Ok(Some(SensorJson(HalveI8(m.data.temperature), location)))
  {
    SplitEmit(SENSOR_STATUS, []);
    assert EmitOpcode(SENSOR_STATUS) + [] == EmitOpcode(SENSOR_STATUS);
    SensorRoundTrip(m);
  }

  /** A Battery Status is reported with its level and presence. */
  lemma BatteryTelemetry(address: Option<U16>, location: U16, m: BatteryMessage)
    ensures Telemetry2Json(Envelope(address, location, Battery(m)))
         == Ok(Some(BatteryJson(m.status.level, m.status.flags.presence, location)))
  {
    SplitEmit(BATTERY_STATUS, []);
    assert EmitOpcode(BATTERY_STATUS) + [] == EmitOpcode(BATTERY_STATUS);
    BatteryRoundTrip(m);
  }

  /** An opcode outside the three models is not reported, whatever its
      parameters. */
  lemma ForeignOpcodeNotReported(address: Option<U16>, location: U16, op: Opcode, p: seq<Byte>)
    requires WellFormed(op)
    requires op !in {ONOFF_GET, ONOFF_SET, ONOFF_SET_UNACKNOWLEDGED, ONOFF_STATUS, SENSOR_STATUS, BATTERY_STATUS}
    ensures Telemetry2Json(Envelope(address, location, Other(op, p))) == Ok(None)
  {
    SplitEmit(op, []);
    assert EmitOpcode(op) + [] == EmitOpcode(op);
  }

  /** Only the first opcode in the opcode octets matters: whatever follows
      it, and the address, do not change the report. */
  lemma TrailingOpcodeOctetsIgnored(address: Option<U16>, location: U16, op: Opcode, extra: seq<Byte>, p: seq<Byte>)
    requires WellFormed(op)
    ensures Telemetry2Json(RawMessage(address, location, EmitOpcode(op) + extra, p))
         == Telemetry2Json(RawMessage(None, location, EmitOpcode(op), p))
  {
    SplitEmit(op, extra);
    SplitEmit(op, []);
    assert EmitOpcode(op) + [] == EmitOpcode(op);
  }

  /** The presence strings tell the four presence states apart. */
  lemma PresenceNamesDistinct(p: Presence, q: Presence)
    ensures PresenceName(p) == PresenceName(q) <==> p == q
  {
  }

  // -----------------------------------------------------------------------
  // The envelope as JSON (the layout serde derives for `RawMessage`)

  function ByteOf(v: Value): (r: Option<Byte>)
    ensures r.Some? ==> v == Int(r.value)
  {
    if v.JNumber? && v.num.PosInt? && v.num.n < 0x100 then Some(v.num.n) else None
  }

  function U16Of(v: Value): (r: Option<U16>)
    ensures r.Some? ==> v == Int(r.value)
  {
    if v.JNumber? && v.num.PosInt? && v.num.n < 0x1_0000 then Some(v.num.n) else None
  }

  /** An array of octets: every item must be an integer in [0, 255]. */
  function BytesOf(items: seq<Value>): (r: Option<seq<Byte>>)
    ensures r.Some? ==> |r.value| == |items| && forall i :: 0 <= i < |items| ==> items[i] == Int(r.value[i])
    decreases |items|
  {
    if items == [] then Some([])
    else
      match (ByteOf(items[0]), BytesOf(items[1..]))
      case (Some(b), Some(rest)) => Some([b] + rest)
      case _ => None
  }

  function BytesJson(bytes: seq<Byte>): (r: seq<Value>)
    ensures |r| == |bytes| && forall i :: 0 <= i < |bytes| ==> r[i] == Int(bytes[i])
    decreases |bytes|
  {
    if bytes == [] then [] else [Int(bytes[0])] + BytesJson(bytes[1..])
  }

  lemma {:induction false} BytesRoundTrip(bytes: seq<Byte>)
    ensures BytesOf(BytesJson(bytes)) == Some(bytes)
    decreases |bytes|
  {
    if bytes != [] {
      var items := BytesJson(bytes);
      assert items[1..] == BytesJson(bytes[1..]);
      BytesRoundTrip(bytes[1..]);
      assert [bytes[0]] + bytes[1..] == bytes;
    }
  }

  /** `serde_json::to_value` of an envelope. */
  function EncodeRaw(m: RawMessage): Value {
    JObject(map[
      "address" := (if m.address.Some? then Int(m.address.value) else JNull),
      "location" := Int(m.location),
      "opcode" := JArray(BytesJson(m.opcode)),
      "parameters" := JArray(BytesJson(m.parameters))])
  }

  /** The optional address: missing or `null` is none. */
  function AddressOf(f: map<string, Value>): Option<Option<U16>> {
    if "address" !in f || f["address"] == JNull then Some(None)
    else match U16Of(f["address"])
      case Some(a) => Some(Some(a))
      case None => None
  }

  function ByteArrayOf(f: map<string, Value>, key: string): (r: Option<seq<Byte>>)
    ensures r.Some? ==> key in f && f[key] == JArray(BytesJson(r.value))
  {
    if key in f && f[key].JArray? then
      var r := BytesOf(f[key].items);
      if r.Some? then
        assert f[key].items == BytesJson(r.value);
        r
      else None
    else None
  }

  /** `serde_json::from_value::<RawMessage>`: `None` when the value does not
      have the envelope's layout; members other than the four are ignored. */
  function DecodeRaw(v: Value): (r: Option<RawMessage>)
    ensures r.Some? ==> v.JObject? && "location" in v.fields && v.fields["location"] == Int(r.value.location)
    ensures r.Some? ==> "opcode" in v.fields && v.fields["opcode"] == JArray(BytesJson(r.value.opcode))
    ensures r.Some? ==> "parameters" in v.fields && v.fields["parameters"] == JArray(BytesJson(r.value.parameters))
  {
    if !v.JObject? then None
    else
      var f := v.fields;
      match (AddressOf(f), if "location" in f then U16Of(f["location"]) else None,
             ByteArrayOf(f, "opcode"), ByteArrayOf(f, "parameters"))
      case (Some(address), Some(location), Some(opcode), Some(parameters)) =>
        Some(RawMessage(address, location, opcode, parameters))
      case _ => None
  }

  /** Decoding an encoded envelope gives it back. */
  lemma RawRoundTrip(m: RawMessage)
    ensures DecodeRaw(EncodeRaw(m)) == Some(m)
  {
    BytesRoundTrip(m.opcode);
    BytesRoundTrip(m.parameters);
  }

  // -----------------------------------------------------------------------
  // The HTTP handlers, which change a cloud event in place

  /** A cloud event's data. */
  datatype Data = Binary(bytes: seq<Byte>) | Text(text: string) | JsonData(json: Value)

  const JSON_CONTENT_TYPE: string := "application/json"

  /** The new data `convert_telemetry` gives the event, `None` when it leaves
      the event alone: only JSON data that decodes as an envelope and
      converts is replaced, by `{state, partial: true}`. */
  function TelemetryOutput(data: Option<Data>): (r: Result<Option<Value>, Panic>)
    ensures r.Ok? && r.value.Some? ==>
      && data.Some? && data.value.JsonData? && DecodeRaw(data.value.json).Some?
      && Telemetry2Json(DecodeRaw(data.value.json).value).Ok?
      && Telemetry2Json(DecodeRaw(data.value.json).value).value.Some?
      && r.value.value == JObject(map["state" := Telemetry2Json(DecodeRaw(data.value.json).value).value.value, "partial" := JBool(true)])
    ensures r.Err? ==> data.Some? && data.value.JsonData? && DecodeRaw(data.value.json).Some?
    ensures !(data.Some? && data.value.JsonData? && DecodeRaw(data.value.json).Some?) ==> r == Ok(None)
    ensures data.Some? && data.value.JsonData? && DecodeRaw(data.value.json).Some? ==>
      var converted := Telemetry2Json(DecodeRaw(data.value.json).value);
      && (r.Err? <==> converted.Err?)
      && (converted.Ok? ==> r.Ok? && (r.value.Some? <==> converted.value.Some?))
  {
    if data.Some? && data.value.JsonData? then
      match DecodeRaw(data.value.json)
      case None => Ok(None)
      case Some(raw) =>
        match Telemetry2Json(raw)
        case Err(p) => Err(p)
        case Ok(None) => Ok(None)
        case Ok(Some(state)) => Ok(Some(JObject(map["state" := state, "partial" := JBool(true)])))
    else Ok(None)
  }

  /** The new data `convert_command` gives the event, `None` when it leaves
      the event alone: JSON data that converts is replaced by the encoded
      envelope. */
  function CommandOutput(data: Option<Data>): (r: Result<Option<Value>, Panic>)
    ensures r.Ok? && r.value.Some? ==>
      && data.Some? && data.value.JsonData?
      && Json2Command(data.value.json).Ok? && Json2Command(data.value.json).value.Some?
      && DecodeRaw(r.value.value) == Json2Command(data.value.json).value
    ensures !(data.Some? && data.value.JsonData?) ==> r == Ok(None)
    ensures data.Some? && data.value.JsonData? ==>
      var converted := Json2Command(data.value.json);
      && (r.Err? <==> converted.Err?)
      && (converted.Ok? ==> r.Ok? && (r.value.Some? <==> converted.value.Some?))
      && (r.Ok? && r.value.Some? ==> r.value.value == EncodeRaw(converted.value.value))
  {
    if data.Some? && data.value.JsonData? then
      match Json2Command(data.value.json)
      case Err(p) => Err(p)
      case Ok(None) => Ok(None)
      case Ok(Some(output)) =>
        RawRoundTrip(output);
        Ok(Some(EncodeRaw(output)))
    else Ok(None)
  }

  class Event {
    var contentType: Option<string>
    var data: Option<Data>

    constructor (contentType: Option<string>, data: Option<Data>)
      ensures this.contentType == contentType && this.data == data
    {
      this.contentType := contentType;
      this.data := data;
    }

    /** `Event::set_data`. */
    method SetData(contentType: string, value: Value)
      modifies this
      ensures this.contentType == Some(contentType) && data == Some(JsonData(value))
    {
      this.contentType := Some(contentType);
      data := Some(JsonData(value));
    }

    /** `convert_telemetry`: a panic is reported as `Err` (the event is then
        lost); otherwise the event comes back with its data replaced, or
        untouched. */
    method ConvertTelemetry() returns (r: Result<(), Panic>)
      modifies this
      ensures r.Err? <==> TelemetryOutput(old(data)).Err?
      ensures r.Ok? && TelemetryOutput(old(data)).value.None? ==> contentType == old(contentType) && data == old(data)
      ensures r.Ok? && TelemetryOutput(old(data)).value.Some? ==>
        contentType == Some(JSON_CONTENT_TYPE) && data == Some(JsonData(TelemetryOutput(old(data)).value.value))
    {
      if data.Some? && data.value.JsonData? {
        var decoded := DecodeRaw(data.value.json);
        if decoded.Some? {
          var converted := Telemetry2Json(decoded.value);
          if converted.Err? {
            return Err(converted.error);
          }
          if converted.value.Some? {
            var output := JObject(map["state" := converted.value.value, "partial" := JBool(true)]);
            SetData(JSON_CONTENT_TYPE, output);
          }
        }
      }
      r := Ok(());
    }

    /** `convert_command`: like `convert_telemetry`, with `json2command` and
        the envelope encoded as JSON. */
    method ConvertCommand() returns (r: Result<(), Panic>)
      modifies this
      ensures r.Err? <==> CommandOutput(old(data)).Err?
      ensures r.Ok? && CommandOutput(old(data)).value.None? ==> contentType == old(contentType) && data == old(data)
      ensures r.Ok? && CommandOutput(old(data)).value.Some? ==>
        contentType == Some(JSON_CONTENT_TYPE) && data == Some(JsonData(CommandOutput(old(data)).value.value))
    {
      if data.Some? && data.value.JsonData? {
        var converted := Json2Command(data.value.json);
        if converted.Err? {
          return Err(converted.error);
        }
        if converted.value.Some? {
          SetData(JSON_CONTENT_TYPE, EncodeRaw(converted.value.value));
        }
      }
      r := Ok(());
    }
  }

  /** A telemetry event carrying a sensor node's envelope comes out as the
      sensor's state with the temperature halved, marked partial. */
  lemma SensorEventOutput(address: Option<U16>, location: U16, m: SensorMessage)
    ensures TelemetryOutput(Some(JsonData(EncodeRaw(Envelope(address, location, Sensor(m))))))
         == Ok(Some(JObject(map["state" := SensorJson(HalveI8(m.data.temperature), location), "partial" := JBool(true)])))
  {
    RawRoundTrip(Envelope(address, location, Sensor(m)));
    SensorTelemetry(address, location, m);
  }
}
