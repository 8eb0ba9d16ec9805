/**
  The Bluetooth mesh wire codec that every component shares: opcodes
  (section 3.7.3.1 of the Mesh Profile specification), the messages of the
  Generic OnOff, Sensor and Generic Battery models, the inbound payloads a
  model's context delivers, and the JSON-facing `RawMessage` envelope.

  The btmesh library that implements this codec is not part of this model.
  Its parsers and emitters are given concrete byte layouts here, following
  the Mesh Model specification, and the properties the modelled code relies
  on (parse after emit gives the message back, the opcode spaces of the
  three models do not overlap) are proved rather than assumed.
 */
module Mesh {
  import opened Prelude

  // ---------------------------------------------------------------------
  // Opcodes

  /** A mesh opcode: one, two or three octets. */
  datatype Opcode = OneOctet(a: Byte) | TwoOctet(a: Byte, b: Byte) | ThreeOctet(a: Byte, b: Byte, c: Byte)

  /** The leading octet tells the opcode's length: 0b0xxxxxxx is one octet
      (0x7F is reserved), 0b10xxxxxx two octets, 0b11xxxxxx three octets. */
  predicate WellFormed(op: Opcode) {
    match op
    case OneOctet(a) => a < 0x7F
    case TwoOctet(a, _) => 0x80 <= a < 0xC0
    case ThreeOctet(a, _, _) => 0xC0 <= a
  }

  /** `Opcode::emit`: the opcode's octets in order. */
  function EmitOpcode(op: Opcode): (r: seq<Byte>)
    ensures 1 <= |r| <= 3 && r[0] == op.a
  {
    match op
    case OneOctet(a) => [a]
    case TwoOctet(a, b) => [a, b]
    case ThreeOctet(a, b, c) => [a, b, c]
  }

  /** `Opcode::split`: the opcode at the front of `data` and the bytes after
      it, or nothing when `data` does not start with a whole opcode. */
  function SplitOpcode(data: seq<Byte>): (r: Option<(Opcode, seq<Byte>)>)
    ensures r.None? <==>
      || |data| == 0
      || data[0] == 0x7F
      || (0x80 <= data[0] < 0xC0 && |data| < 2)
      || (0xC0 <= data[0] && |data| < 3)
    ensures r.Some? ==> WellFormed(r.value.0) && data == EmitOpcode(r.value.0) + r.value.1
  {
    if |data| == 0 || data[0] == 0x7F then None
    else if data[0] < 0x80 then Some((OneOctet(data[0]), data[1..]))
    else if data[0] < 0xC0 then
      if |data| < 2 then None else Some((TwoOctet(data[0], data[1]), data[2..]))
    else
      if |data| < 3 then None else Some((ThreeOctet(data[0], data[1], data[2]), data[3..]))
  }

  /** Splitting an emitted opcode gives it back, whatever follows it. */
  lemma SplitEmit(op: Opcode, rest: seq<Byte>)
    requires WellFormed(op)
    ensures SplitOpcode(EmitOpcode(op) + rest) == Some((op, rest))
  {
    var data := EmitOpcode(op) + rest;
    match op
    case OneOctet(a) => assert data[1..] == rest;
    case TwoOctet(a, b) => assert data[2..] == rest;
    case ThreeOctet(a, b, c) => assert data[3..] == rest;
  }

  /** The outcome of one model's `parse(opcode, parameters)`: `Ok(None)` for
      an opcode outside the model, `Ok(Some(m))`, or `Err` for a known
      opcode whose parameters do not decode. */
  datatype ParseResult<M> = NotMine | Decoded(msg: M) | Malformed

  /** Pushing into a `heapless::Vec<u8, N>` fails once more than N bytes are
      pushed. */
  function BoundedEmit(bytes: seq<Byte>, capacity: nat): (r: Option<seq<Byte>>)
    ensures r.Some? <==> |bytes| <= capacity
    ensures r.Some? ==> r.value == bytes
  {
    if |bytes| <= capacity then Some(bytes) else None
  }

  const OPCODE_CAPACITY: nat := 16
  const PARAMETERS_CAPACITY: nat := 386

  // ---------------------------------------------------------------------
  // Generic OnOff (Mesh Model specification, section 3.2.1)

  datatype Transition = Transition(time: Byte, delay: Byte)
  /** Generic OnOff Set: target state, transaction id, and an optional
      transition time with its delay (both present or both absent). */
  datatype OnOffSet = OnOffSet(onOff: Byte, tid: Byte, transition: Option<Transition>)
  datatype OnOffTarget = OnOffTarget(target: Byte, remaining: Byte)
  datatype OnOffStatus = OnOffStatus(present: Byte, target: Option<OnOffTarget>)
  datatype OnOffMessage =
    | Get
    | Set(setting: OnOffSet)
    | SetUnacknowledged(setting: OnOffSet)
    | Status(status: OnOffStatus)

  const ONOFF_GET: Opcode := TwoOctet(0x82, 0x01)
  const ONOFF_SET: Opcode := TwoOctet(0x82, 0x02)
  const ONOFF_SET_UNACKNOWLEDGED: Opcode := TwoOctet(0x82, 0x03)
  const ONOFF_STATUS: Opcode := TwoOctet(0x82, 0x04)

  function OnOffOpcode(m: OnOffMessage): (op: Opcode)
    ensures WellFormed(op)
  {
    match m
    case Get => ONOFF_GET
    case Set(_) => ONOFF_SET
    case SetUnacknowledged(_) => ONOFF_SET_UNACKNOWLEDGED
    case Status(_) => ONOFF_STATUS
  }

  function SetParameters(s: OnOffSet): seq<Byte> {
    [s.onOff, s.tid] + (if s.transition.Some? then [s.transition.value.time, s.transition.value.delay] else [])
  }

  function OnOffParameters(m: OnOffMessage): seq<Byte> {
    match m
    case Get => []
    case Set(s) => SetParameters(s)
    case SetUnacknowledged(s) => SetParameters(s)
    case Status(st) => [st.present] + (if st.target.Some? then [st.target.value.target, st.target.value.remaining] else [])
  }

  function ParseSet(p: seq<Byte>): Option<OnOffSet> {
    if |p| == 2 then Some(OnOffSet(p[0], p[1], None))
    else if |p| == 4 then Some(OnOffSet(p[0], p[1], Some(Transition(p[2], p[3]))))
    else None
  }

  /** The Generic OnOff model's parser. */
  function ParseOnOff(op: Opcode, p: seq<Byte>): (r: ParseResult<OnOffMessage>)
    ensures r.NotMine? <==> op !in {ONOFF_GET, ONOFF_SET, ONOFF_SET_UNACKNOWLEDGED, ONOFF_STATUS}
    ensures r.Decoded? ==> OnOffOpcode(r.msg) == op && OnOffParameters(r.msg) == p
  {
    if op == ONOFF_GET then
      (if |p| == 0 then Decoded(Get) else Malformed)
    else if op == ONOFF_SET then
      (match ParseSet(p) case Some(s) => Decoded(Set(s)) case None => Malformed)
    else if op == ONOFF_SET_UNACKNOWLEDGED then
      (match ParseSet(p) case Some(s) => Decoded(SetUnacknowledged(s)) case None => Malformed)
    else if op == ONOFF_STATUS then
      if |p| == 1 then Decoded(Status(OnOffStatus(p[0], None)))
      else if |p| == 3 then Decoded(Status(OnOffStatus(p[0], Some(OnOffTarget(p[1], p[2])))))
      else Malformed
    else NotMine
  }

  /** Parsing what was emitted gives the message back. */
  lemma OnOffRoundTrip(m: OnOffMessage)
    ensures ParseOnOff(OnOffOpcode(m), OnOffParameters(m)) == Decoded(m)
  {
  }

  // ---------------------------------------------------------------------
  // Sensor (Mesh Model specification, section 4.2)

  /** The reading the sensor publishes: the temperature in half degrees
      Celsius, as a signed octet. */
  datatype SensorPayload = SensorPayload(temperature: I8)
  datatype SensorMessage = SensorStatus(data: SensorPayload)

  const SENSOR_STATUS: Opcode := OneOctet(0x52)
  /** Marshalled property id, format A: a one-octet value of property 0x004F
      (Present Ambient Temperature, 0.5 degree resolution). */
  const TEMPERATURE_MPID: seq<Byte> := [0xE0, 0x09]

  function I8ToByte(t: I8): Byte { if t < 0 then t + 0x100 else t }
  function ByteToI8(b: Byte): I8 { if b >= 0x80 then b - 0x100 else b }

  function SensorOpcode(m: SensorMessage): Opcode { SENSOR_STATUS }

  function SensorParameters(m: SensorMessage): seq<Byte> {
    TEMPERATURE_MPID + [I8ToByte(m.data.temperature)]
  }

  /** The sensor client's parser (only Sensor Status is modelled). */
  function ParseSensor(op: Opcode, p: seq<Byte>): (r: ParseResult<SensorMessage>)
    ensures r.NotMine? <==> op != SENSOR_STATUS
    ensures r.Decoded? ==> SensorOpcode(r.msg) == op && SensorParameters(r.msg) == p
  {
    if op != SENSOR_STATUS then NotMine
    else if |p| == 3 && p[..2] == TEMPERATURE_MPID then Decoded(SensorStatus(SensorPayload(ByteToI8(p[2]))))
    else Malformed
  }

  lemma SensorRoundTrip(m: SensorMessage)
    ensures ParseSensor(SensorOpcode(m), SensorParameters(m)) == Decoded(m)
  {
  }

  // ---------------------------------------------------------------------
  // Generic Battery (Mesh Model specification, section 3.2.6)

  datatype Presence = NotPresent | PresentRemovable | PresentNotRemovable | PresenceUnknown
  datatype Indicator = CriticallyLow | Low | Good | IndicatorUnknown
  datatype Charging = NotChargeable | NotCharging | IsCharging | ChargingUnknown
  datatype BatteryFlags = BatteryFlags(presence: Presence, indicator: Indicator, charging: Charging)
  datatype BatteryStatus = BatteryStatus(level: Byte, timeToDischarge: U24, timeToCharge: U24, flags: BatteryFlags)
  datatype BatteryMessage = BatteryStatusMessage(status: BatteryStatus)

  const BATTERY_STATUS: Opcode := TwoOctet(0x82, 0x24)

  function PresenceCode(p: Presence): (c: nat)
    ensures c < 4
  {
    match p
    case NotPresent => 0
    case PresentRemovable => 1
    case PresentNotRemovable => 2
    case PresenceUnknown => 3
  }

  function PresenceOf(c: nat): (p: Presence)
    requires c < 4
    ensures PresenceCode(p) == c
  {
    if c == 0 then NotPresent else if c == 1 then PresentRemovable else if c == 2 then PresentNotRemovable else PresenceUnknown
  }

  function IndicatorCode(i: Indicator): (c: nat)
    ensures c < 4
  {
    match i
    case CriticallyLow => 0
    case Low => 1
    case Good => 2
    case IndicatorUnknown => 3
  }

  function IndicatorOf(c: nat): (i: Indicator)
    requires c < 4
    ensures IndicatorCode(i) == c
  {
    if c == 0 then CriticallyLow else if c == 1 then Low else if c == 2 then Good else IndicatorUnknown
  }

  function ChargingCode(ch: Charging): (c: nat)
    ensures c < 4
  {
    match ch
    case NotChargeable => 0
    case NotCharging => 1
    case IsCharging => 2
    case ChargingUnknown => 3
  }

  function ChargingOf(c: nat): (ch: Charging)
    requires c < 4
    ensures ChargingCode(ch) == c
  {
    if c == 0 then NotChargeable else if c == 1 then NotCharging else if c == 2 then IsCharging else ChargingUnknown
  }

  /** The flags octet: presence in bits 0-1, indicator in bits 2-3, charging
      in bits 4-5; the serviceability bits 6-7 are written as zero. */
  function FlagsByte(f: BatteryFlags): Byte {
    PresenceCode(f.presence) + 4 * IndicatorCode(f.indicator) + 16 * ChargingCode(f.charging)
  }

  function FlagsOf(b: Byte): BatteryFlags {
    BatteryFlags(PresenceOf(b % 4), IndicatorOf((b / 4) % 4), ChargingOf((b / 16) % 4))
  }

  lemma FlagsRoundTrip(f: BatteryFlags)
    ensures FlagsOf(FlagsByte(f)) == f
  {
    var p, i, c := PresenceCode(f.presence), IndicatorCode(f.indicator), ChargingCode(f.charging);
    var b := p + 4 * i + 16 * c;
    assert b % 4 == p;
    assert b / 4 == i + 4 * c;
    assert (b / 4) % 4 == i;
    assert b / 16 == c;
    assert PresenceOf(p) == f.presence;
    assert IndicatorOf(i) == f.indicator;
    assert ChargingOf(c) == f.charging;
  }

  /** A 24-bit quantity in little-endian order. */
  function Le24(t: U24): seq<Byte> {
    [t % 0x100, (t / 0x100) % 0x100, t / 0x1_0000]
  }

  function FromLe24(b0: Byte, b1: Byte, b2: Byte): U24 {
    b0 + 0x100 * b1 + 0x1_0000 * b2
  }

  lemma Le24RoundTrip(t: U24)
    ensures FromLe24(Le24(t)[0], Le24(t)[1], Le24(t)[2]) == t
  {
    var lo, hi := t % 0x100, t / 0x100;
    assert t == lo + 0x100 * hi;
    assert hi == hi % 0x100 + 0x100 * (t / 0x1_0000);
  }

  function BatteryOpcode(m: BatteryMessage): Opcode { BATTERY_STATUS }

  function BatteryParameters(m: BatteryMessage): seq<Byte> {
    var s := m.status;
    [s.level] + Le24(s.timeToDischarge) + Le24(s.timeToCharge) + [FlagsByte(s.flags)]
  }

  /** The Generic Battery client's parser (only Battery Status is modelled). */
  function ParseBattery(op: Opcode, p: seq<Byte>): (r: ParseResult<BatteryMessage>)
    ensures r.NotMine? <==> op != BATTERY_STATUS
    ensures r.Decoded? ==> |p| == 8 && r.msg.status.level == p[0] && r.msg.status.flags == FlagsOf(p[7])
  {
    if op != BATTERY_STATUS then NotMine
    else if |p| == 8 then
      Decoded(BatteryStatusMessage(BatteryStatus(p[0], FromLe24(p[1], p[2], p[3]), FromLe24(p[4], p[5], p[6]), FlagsOf(p[7]))))
    else Malformed
  }

  lemma BatteryRoundTrip(m: BatteryMessage)
    ensures ParseBattery(BatteryOpcode(m), BatteryParameters(m)) == Decoded(m)
  {
    var s := m.status;
    var p := BatteryParameters(m);
    Le24RoundTrip(s.timeToDischarge);
    Le24RoundTrip(s.timeToCharge);
    FlagsRoundTrip(s.flags);
    assert p[1..4] == Le24(s.timeToDischarge);
    assert p[4..7] == Le24(s.timeToCharge);
  }

  /** The three models claim disjoint opcodes, so at most one of their
      parsers recognises any opcode. */
  lemma ParsersDisjoint(op: Opcode, p: seq<Byte>)
    ensures !ParseOnOff(op, p).NotMine? ==> ParseSensor(op, p).NotMine? && ParseBattery(op, p).NotMine?
    ensures !ParseSensor(op, p).NotMine? ==> ParseBattery(op, p).NotMine?
  {
  }

  // ---------------------------------------------------------------------
  // Any message, inbound payloads and the wire envelope

  /** A message as the `Message` trait sees it: one of the modelled kinds,
      or any other message given by its opcode and parameter octets. */
  datatype AnyMessage =
    | OnOff(onOff: OnOffMessage)
    | Sensor(sensor: SensorMessage)
    | Battery(battery: BatteryMessage)
    | Other(opcode: Opcode, parameters: seq<Byte>)

  function MessageOpcode(m: AnyMessage): Opcode {
    match m
    case OnOff(x) => OnOffOpcode(x)
    case Sensor(x) => SensorOpcode(x)
    case Battery(x) => BatteryOpcode(x)
    case Other(op, _) => op
  }

  function MessageParameters(m: AnyMessage): seq<Byte> {
    match m
    case OnOff(x) => OnOffParameters(x)
    case Sensor(x) => SensorParameters(x)
    case Battery(x) => BatteryParameters(x)
    case Other(_, p) => p
  }

  /** How a model should publish unsolicited status. */
  datatype Cadence = Periodic(periodMs: nat) | OnChange | Disabled

  datatype ControlEvent = PublicationCadence(cadence: Cadence)

  /** What a model's context delivers on `receive`: an application message
      (its metadata is not modelled) or a control event. */
  datatype Inbound<M> = Message(msg: M) | Control(event: ControlEvent)

  /** The JSON-facing envelope: destination, slot, opcode and parameter
      octets. */
  datatype RawMessage = RawMessage(address: Option<U16>, location: U16, opcode: seq<Byte>, parameters: seq<Byte>)
}
