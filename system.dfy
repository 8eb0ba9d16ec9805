/**
  Properties of the system as a whole: what happens to a reading, a
  command and a simulated status as they pass from one component to the
  next.
 */
module System {
  import opened Prelude
  import opened Json
  import opened Mesh
  import SensorModel
  import DisplayModel
  import Converter
  import Simulator

  /** A firmware reading in [-64, 63] degrees is doubled by the sensor,
      halved by the converter, and reaches the dashboard unchanged. */
  lemma ReadingReachesDashboard(t: I8, address: Option<U16>, location: U16)
    requires -64 <= t < 64
    ensures SensorModel.Read(Some(t)).Ok?
    ensures Converter.Telemetry2Json(Converter.Envelope(address, location, Sensor(SensorStatus(SensorModel.Read(Some(t)).value))))
         == Ok(Some(Converter.SensorJson(t, location)))
  {
    var payload := SensorModel.Read(Some(t)).value;
    Converter.SensorTelemetry(address, location, SensorStatus(payload));
    assert payload.temperature == 2 * t;
    assert Converter.HalveI8(2 * t) == t;
  }

  /** A dashboard command reaches the display firmware as a Set whose
      intent is on exactly when the command's `display.on` is `true`. */
  lemma CommandReachesDisplay(data: Value)
    requires Converter.Json2Command(data).Ok? && Converter.Json2Command(data).value.Some?
    ensures var m := Converter.Json2Command(data).value.value;
      && SplitOpcode(m.opcode).Some?
      && var parsed := ParseOnOff(SplitOpcode(m.opcode).value.0, m.parameters);
      && parsed.Decoded? && parsed.msg.Set?
      && DisplayModel.Intent(Message(parsed.msg)) == Some(data.fields["display"].fields["on"] == JBool(true))
  {
  }

  /** The same command drives the simulator's matrix the same way, and
      keeps its brightness. */
  lemma CommandReachesSimulator(data: Value, matrix: Simulator.MatrixState)
    requires Converter.Json2Command(data).Ok? && Converter.Json2Command(data).value.Some?
    ensures var effect := Simulator.CommandEffect(matrix, Converter.Json2Command(data).value.value);
      effect == Ok(Simulator.MatrixState(data.fields["display"].fields["on"] == JBool(true), matrix.brightness))
  {
  }

  /** The firmware and the gateway read an OnOff Set differently: the
      display switches on for any non-zero value, while the converter (and
      the simulator) report on only for exactly 1. A Set of 2 is on for the
      display and off on the dashboard. */
  lemma OnOffDisagreement(s: OnOffSet, address: Option<U16>, location: U16)
    requires s.onOff == 2
    ensures DisplayModel.Intent(Message(Set(s))) == Some(true)
    ensures Converter.Telemetry2Json(Converter.Envelope(address, location, OnOff(Set(s))))
         == Ok(Some(Converter.ButtonJson(false, location)))
    ensures Simulator.CommandEffect(Simulator.MatrixState(true, 128), Converter.Envelope(address, location, OnOff(Set(s))))
         == Ok(Simulator.MatrixState(false, 128))
  {
    Converter.ButtonTelemetry(address, location, Set(s));
    SplitEmit(ONOFF_SET, []);
    assert EmitOpcode(ONOFF_SET) + [] == EmitOpcode(ONOFF_SET);
  }

  /** The two agree on the values 0 and 1, the only ones a command sends. */
  lemma OnOffAgreement(s: OnOffSet, address: Option<U16>, location: U16)
    requires s.onOff <= 1
    ensures Converter.Telemetry2Json(Converter.Envelope(address, location, OnOff(Set(s))))
         == Ok(Some(Converter.ButtonJson(DisplayModel.Intent(Message(Set(s))).value, location)))
  {
    Converter.ButtonTelemetry(address, location, Set(s));
  }

  /** The simulator's battery status reaches the dashboard as level 0 with
      no battery present. */
  lemma SimulatedBatteryReport()
    ensures Simulator.Publish(Simulator.SIMULATED_BATTERY).Ok?
    ensures Converter.Telemetry2Json(Simulator.Publish(Simulator.SIMULATED_BATTERY).value)
         == Ok(Some(Converter.BatteryJson(0, NotPresent, 0)))
    ensures Converter.PresenceName(NotPresent) == "NotPresent"
  {
    var m := Simulator.SIMULATED_BATTERY;
    assert Simulator.Publish(m).value == Converter.Envelope(None, 0, m);
    Converter.BatteryTelemetry(None, 0, m.battery);
  }

  /** The simulator's sensor status of 22 half degrees reaches the
      dashboard as 11 degrees. */
  lemma SimulatedSensorReport()
    ensures Simulator.Publish(Simulator.SIMULATED_SENSOR).Ok?
    ensures Converter.Telemetry2Json(Simulator.Publish(Simulator.SIMULATED_SENSOR).value)
         == Ok(Some(Converter.SensorJson(11, 0)))
  {
    var m := Simulator.SIMULATED_SENSOR;
    assert Simulator.Publish(m).value == Converter.Envelope(None, 0, m);
    Converter.SensorTelemetry(None, 0, m.sensor);
  }
}
