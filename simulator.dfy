/**
  The web simulator: a browser page that stands in for a mesh node. When
  started it publishes a battery status and a sensor status on two timers,
  and it shows the on/off state that OnOff Set commands give its LED matrix.

  `Publish` is the publisher's envelope builder; the page's state (its LED
  matrix, whether it is running, and the four configuration fields) is the
  class `App`, whose methods are the click handler, the command callback
  and the input handlers. The interval input, the random numbers, and the
  URL parser are parameters.
 */
module Simulator {
  import opened Prelude
  import opened Mesh

  // -----------------------------------------------------------------------
  // Publishing

  /** Both encoding failures become the same error. */
  datatype PublishError = EncodingError

  /** `Publisher::publish` up to the hand-over to `send`: the envelope it
      sends for `m`, or an error when the opcode does not fit in 16 octets
      or the parameters do not fit in 386. The simulator gives no address
      and always uses location 0. */
  function Publish(m: AnyMessage): (r: Result<RawMessage, PublishError>)
    ensures r.Ok? <==> |EmitOpcode(MessageOpcode(m))| <= OPCODE_CAPACITY && |MessageParameters(m)| <= PARAMETERS_CAPACITY
    ensures r.Ok? ==> r.value.address.None? && r.value.location == 0
    ensures r.Ok? ==> r.value.opcode == EmitOpcode(MessageOpcode(m))
    ensures r.Ok? ==> r.value.parameters == MessageParameters(m)
  {
    match BoundedEmit(EmitOpcode(MessageOpcode(m)), OPCODE_CAPACITY)
    case None => Err(EncodingError)
    case Some(opcode) =>
      match BoundedEmit(MessageParameters(m), PARAMETERS_CAPACITY)
      case None => Err(EncodingError)
      case Some(parameters) => Ok(RawMessage(None, 0, opcode, parameters))
  }

  /** The three modelled kinds always fit; any message with more than 386
      parameter octets is refused rather than truncated. */
  lemma PublishFits(m: AnyMessage)
    ensures !m.Other? ==> Publish(m).Ok?
    ensures |MessageParameters(m)| > PARAMETERS_CAPACITY ==> Publish(m) == Err(EncodingError)
  {
  }

  /** The battery status the simulator publishes: empty, no battery. */
  const SIMULATED_BATTERY: AnyMessage :=
    Battery(BatteryStatusMessage(BatteryStatus(0, 0, 0, BatteryFlags(NotPresent, IndicatorUnknown, NotChargeable))))

  /** The sensor status the simulator publishes: 22 half degrees. */
  const SIMULATED_SENSOR: AnyMessage := Sensor(SensorStatus(SensorPayload(22)))

  // -----------------------------------------------------------------------
  // The interval input

  predicate IsDigit(c: char) { '0' <= c <= '9' }

  predicate AllDigits(s: string) {
    forall i :: 0 <= i < |s| ==> IsDigit(s[i])
  }

  /** The number a string of decimal digits denotes. */
  function DigitsValue(s: string): nat
    requires AllDigits(s)
    decreases |s|
  {
    if s == [] then 0 else DigitsValue(s[..|s| - 1]) * 10 + (s[|s| - 1] as int - '0' as int)
  }

  /** The digits after an optional leading `+`. */
  function Unsigned(s: string): string {
    if |s| > 0 && s[0] == '+' then s[1..] else s
  }

  /** `str::parse::<u32>`: an optional `+` and then at least one decimal
      digit, with a value that fits in 32 bits. */
  function ParseU32(s: string): (r: Option<U32>)
    ensures r.Some? ==> 0 < |Unsigned(s)| && AllDigits(Unsigned(s)) && r.value == DigitsValue(Unsigned(s))
    ensures r.None? ==> |Unsigned(s)| == 0 || !AllDigits(Unsigned(s)) || DigitsValue(Unsigned(s)) >= 0x1_0000_0000
  {
    var d := Unsigned(s);
    if |d| == 0 || !AllDigits(d) then None
    else if DigitsValue(d) < 0x1_0000_0000 then Some(DigitsValue(d))
    else None
  }

  /** The decimal text of a number, without leading zeros. */
  function Decimal(n: nat): (s: string)
    ensures |s| > 0 && AllDigits(s)
    decreases n
  {
    var last := (n % 10 + '0' as int) as char;
    if n < 10 then [last] else Decimal(n / 10) + [last]
  }

  lemma {:induction false} DecimalValue(n: nat)
    ensures DigitsValue(Decimal(n)) == n
    decreases n
  {
    var s := Decimal(n);
    if n >= 10 {
      DecimalValue(n / 10);
      assert s[..|s| - 1] == Decimal(n / 10);
    }
  }

  /** Every u32 written in decimal, with or without a leading `+`, parses
      back to itself; the empty string and a lone `+` do not parse. */
  lemma ParseDecimal(n: U32)
    ensures ParseU32(Decimal(n)) == Some(n)
    ensures ParseU32("+" + Decimal(n)) == Some(n)
    ensures ParseU32("") == None && ParseU32("+") == None
  {
    DecimalValue(n);
    assert Unsigned("+" + Decimal(n)) == Decimal(n);
    assert Unsigned("+") == "";
  }

  /** `start_rand + interval * 1000` in wrapping u32 arithmetic, with
      `start_rand` the random number reduced modulo 2000. */
  function SendInterval(intervalSecs: U32, random: U32): (r: U32)
    ensures (r - (random % 2000 + intervalSecs * 1000)) % 0x1_0000_0000 == 0
  {
    WrapU32(random % 2000 + WrapU32(intervalSecs * 1000))
  }

  /** Up to 4294965 seconds nothing wraps: the period is the interval in
      milliseconds plus a start offset under two seconds. */
  lemma SendIntervalBounds(intervalSecs: U32, random: U32)
    requires intervalSecs <= 4294965
    ensures intervalSecs * 1000 <= SendInterval(intervalSecs, random) < intervalSecs * 1000 + 2000
    ensures SendInterval(intervalSecs, random) - intervalSecs * 1000 == random % 2000
  {
  }

  // -----------------------------------------------------------------------
  // The page

  datatype MatrixState = MatrixState(on: bool, brightness: Byte)

  /** A running simulator: the periods of its battery and sensor timers. */
  datatype Simulation = Simulation(batteryMs: U32, sensorMs: U32)

  datatype SimulatorState = Running(simulation: Simulation) | Stopped

  const DEFAULT_URL: string := "https://web-simulator-eclipsecon-2022.apps.sandbox.drogue.world"
  const DEFAULT_APPLICATION: string := "eclipsecon-hackathon"
  const DEFAULT_DEVICE: string := "simulator1"
  const DEFAULT_PASSWORD: string := "hey-rodney"

  /** The effect of an inbound command on the matrix: a panic when its
      opcode octets do not split; a new matrix only for an OnOff Set, on
      exactly when the on/off octet is 1, with the brightness kept. */
  function CommandEffect(matrix: MatrixState, command: RawMessage): (r: Result<MatrixState, Panic>)
    ensures r.Err? <==> SplitOpcode(command.opcode).None?
    ensures r.Ok? ==> r.value.brightness == matrix.brightness
    ensures r.Ok? ==>
      var parsed := ParseOnOff(SplitOpcode(command.opcode).value.0, command.parameters);
      if parsed.Decoded? && parsed.msg.Set? then r.value.on == (parsed.msg.setting.onOff == 1) else r.value == matrix
  {
    match SplitOpcode(command.opcode)
    case None => Err(Panic("Opcode::split(&command.opcode[..]).unwrap()"))
    case Some((opcode, _)) =>
      match ParseOnOff(opcode, command.parameters)
      case Decoded(Set(msg)) => Ok(MatrixState(msg.onOff == 1, matrix.brightness))
      case _ => Ok(matrix)
  }

  /** What a click on the Run/Stop button does. */
  datatype ClickOutcome =
    | StoppedSimulation
    | StartedSimulation(simulation: Simulation)
    | MissingFields
    | Panicked(panic: Panic)

  /** The click handler's decision. A running simulation always stops.
      A stopped one starts only when the four fields and the interval are
      all non-empty; otherwise the page alerts and nothing changes. The URL
      (with `/v1/sensor` appended) must parse and the interval must be a u32,
      or the handler panics. `validUrl` stands for the URL parser; `random1`
      and `random2` for the two random numbers drawn. */
  function Click(state: SimulatorState, url: string, application: string, device: string, password: string,
                 interval: Option<string>, validUrl: string -> bool, random1: U32, random2: U32): (r: ClickOutcome)
    ensures state.Running? <==> r.StoppedSimulation?
    ensures r.MissingFields? <==>
      state.Stopped? && (url == "" || application == "" || device == "" || password == "" || interval.None? || interval == Some(""))
    ensures r.StartedSimulation? ==>
      && interval.Some? && ParseU32(interval.value).Some? && validUrl(url + "/v1/sensor")
      && r.simulation == Simulation(SendInterval(ParseU32(interval.value).value, random1),
                                    SendInterval(ParseU32(interval.value).value, random2))
    ensures r.Panicked? ==> interval.Some? && (!validUrl(url + "/v1/sensor") || ParseU32(interval.value).None?)
  {
    match state
    case Running(_) => StoppedSimulation
    case Stopped =>
      if url == "" || application == "" || device == "" || password == "" || interval.None? || interval.value == "" then
        MissingFields
      else if !validUrl(url + "/v1/sensor") then
        Panicked(Panic("reqwest::Url::parse(..).unwrap()"))
      else
        match ParseU32(interval.value)
        case None => Panicked(Panic("interval.parse::<u32>().unwrap()"))
        case Some(secs) => StartedSimulation(Simulation(SendInterval(secs, random1), SendInterval(secs, random2)))
  }

  /** The page state after a click. */
  function AfterClick(state: SimulatorState, outcome: ClickOutcome): SimulatorState {
    match outcome
    case StoppedSimulation => Stopped
    case StartedSimulation(simulation) => Running(simulation)
    case _ => state
  }

  /** The text inputs the page binds to its state. */
  datatype Field = UrlField | ApplicationField | DeviceField | PasswordField

  class App {
    var matrix: MatrixState
    var state: SimulatorState
    var url: string
    var application: string
    var device: string
    var password: string

    /** The page as first rendered: matrix off at brightness 128, stopped,
        and the default connection settings. */
    constructor ()
      ensures matrix == MatrixState(false, 128) && state == Stopped
      ensures url == DEFAULT_URL && application == DEFAULT_APPLICATION
      ensures device == DEFAULT_DEVICE && password == DEFAULT_PASSWORD
    {
      matrix := MatrixState(false, 128);
      state := Stopped;
      url := DEFAULT_URL;
      application := DEFAULT_APPLICATION;
      device := DEFAULT_DEVICE;
      password := DEFAULT_PASSWORD;
    }

    /** An `oninput` handler: the field takes the input's value. */
    method Input(field: Field, value: string)
      modifies this`url, this`application, this`device, this`password
      ensures url == (if field == UrlField then value else old(url))
      ensures application == (if field == ApplicationField then value else old(application))
      ensures device == (if field == DeviceField then value else old(device))
      ensures password == (if field == PasswordField then value else old(password))
    {
      match field {
        case UrlField => url := value;
        case ApplicationField => application := value;
        case DeviceField => device := value;
        case PasswordField => password := value;
      }
    }

    /** The `on_command` callback: a panic leaves the matrix as it was. */
    method OnCommand(command: RawMessage) returns (r: Result<(), Panic>)
      modifies this`matrix
      ensures r.Err? <==> CommandEffect(old(matrix), command).Err?
      ensures matrix == (if r.Ok? then CommandEffect(old(matrix), command).value else old(matrix))
    {
      var split := SplitOpcode(command.opcode);
      if split.None? {
        return Err(Panic("Opcode::split(&command.opcode[..]).unwrap()"));
      }
      var parsed := ParseOnOff(split.value.0, command.parameters);
      if parsed.Decoded? && parsed.msg.Set? {
        matrix := MatrixState(parsed.msg.setting.onOff == 1, matrix.brightness);
      }
      r := Ok(());
    }

    /** The `onclick` callback. */
    method OnClick(interval: Option<string>, validUrl: string -> bool, random1: U32, random2: U32)
      returns (outcome: ClickOutcome)
      modifies this`state
      ensures outcome == Click(old(state), url, application, device, password, interval, validUrl, random1, random2)
      ensures state == AfterClick(old(state), outcome)
    {
      if state.Running? {
        state := Stopped;
        return StoppedSimulation;
      }
      if url == "" || application == "" || device == "" || password == "" || interval.None? || interval.value == "" {
        return MissingFields;
      }
      if !validUrl(url + "/v1/sensor") {
        return Panicked(Panic("reqwest::Url::parse(..).unwrap()"));
      }
      var secs := ParseU32(interval.value);
      if secs.None? {
        return Panicked(Panic("interval.parse::<u32>().unwrap()"));
      }
      var simulation := Simulation(SendInterval(secs.value, random1), SendInterval(secs.value, random2));
      state := Running(simulation);
      outcome := StartedSimulation(simulation);
    }
  }

  /** Two clicks from a stopped page with every field filled in and a valid
      interval start and then stop the simulation. */
  lemma StartThenStop(url: string, application: string, device: string, password: string,
                      interval: string, validUrl: string -> bool, r1: U32, r2: U32)
    requires url != "" && application != "" && device != "" && password != ""
    requires ParseU32(interval).Some? && validUrl(url + "/v1/sensor")
    ensures var first := Click(Stopped, url, application, device, password, Some(interval), validUrl, r1, r2);
      && first.StartedSimulation?
      && Click(AfterClick(Stopped, first), url, application, device, password, Some(interval), validUrl, r1, r2) == StoppedSimulation
      && AfterClick(AfterClick(Stopped, first), StoppedSimulation) == Stopped
  {
  }
}
