/**
 * The weather-station simulation shared by the two RIOT shells
 * (Presentation/riotOS/IOT-Assignment-2/main.c and
 * Presentation/riotOS/IOT-Assignment-3/main.c): a fixed table of two
 * stations with five sensors each, the `initSensor` command that selects one
 * sensor by station name and sensor name, and the "selected" flag the
 * payload commands check.
 *
 * The random readings are not modelled; a selection records which random
 * generator `initSensor` would draw the value from.
 */
module Stations {
  import opened Wrappers

  /** A sensor entry of the table: identifier, name and type text. */
  datatype SensorInfo = SensorInfo(id: string, sensorName: string, sensorType: string)

  datatype WeatherStation = WeatherStation(name: string, sensors: seq<SensorInfo>)

  /** The random generators `initSensor` chooses among. */
  datatype Generator = TemperatureGen | RainGen | HumidityGen | WindDirectionGen | WindIntensityGen

  /** The sensor currently selected and the generator its value comes from. */
  datatype Current = Current(sensor: SensorInfo, generator: Generator)

  /** `isSensorSelected` and `currentSensor`. */
  datatype Selection = Selection(selected: bool, current: Option<Current>)

  /** What a shell hands to the radio: text typed at the shell, or the selected sensor's reading. */
  datatype Uplink = ShellText(text: string) | SensorReading(current: Option<Current>)

  /** The state at start-up: nothing selected. */
  const Unselected: Selection := Selection(false, None)

  /** The five sensors of a station, in table order, with the type texts the table uses. */
  function StationSensors(station: string, ids: seq<string>): (s: seq<SensorInfo>)
    requires |ids| == 5
    ensures |s| == 5
  {
    [ SensorInfo(ids[0], "temperature" + station, "temperaturature"),
      SensorInfo(ids[1], "humidity" + station, "humidity"),
      SensorInfo(ids[2], "windDirection" + station, "WindDirection"),
      SensorInfo(ids[3], "windIntensity" + station, "WindIntensity"),
      SensorInfo(ids[4], "rainHeight" + station, "rain") ]
  }

  /** `initWeatherStationsInformations` of the MQTT-SN shell. */
  const MqttTable: seq<WeatherStation> := [
    WeatherStation("Charlie", StationSensors("Charlie", [
      "2a92abd7-6d09-11ea-b89f-8f444e8fb0fc", "2a92abd8-6d09-11ea-b89f-8f444e8fb0fc",
      "2a92abd9-6d09-11ea-b89f-8f444e8fb0fc", "2a92abda-6d09-11ea-b89f-8f444e8fb0fc",
      "2a92abdb-6d09-11ea-b89f-8f444e8fb0fc"])),
    WeatherStation("Tango", StationSensors("Tango", [
      "2a92abd2-6d09-11ea-b89f-8f444e8fb0fc", "2a92abd3-6d09-11ea-b89f-8f444e8fb0fc",
      "2a92abd4-6d09-11ea-b89f-8f444e8fb0fc", "2a92abd5-6d09-11ea-b89f-8f444e8fb0fc",
      "2a92abd6-6d09-11ea-b89f-8f444e8fb0fc"]))]

  /** `initWeatherStationsInformations` of the LoRaMAC shell. */
  const LoRaTable: seq<WeatherStation> := [
    WeatherStation("Charlie", StationSensors("Charlie", [
      "2c107530-743b-11ea-9072-737364a53ef5", "2c107531-743b-11ea-9072-737364a53ef5",
      "2c107532-743b-11ea-9072-737364a53ef5", "2c107533-743b-11ea-9072-737364a53ef5",
      "2c107534-743b-11ea-9072-737364a53ef5"])),
    WeatherStation("Tango", StationSensors("Tango", [
      "2c107535-743b-11ea-9072-737364a53ef5", "2c107536-743b-11ea-9072-737364a53ef5",
      "2c107537-743b-11ea-9072-737364a53ef5", "2c107538-743b-11ea-9072-737364a53ef5",
      "2c107539-743b-11ea-9072-737364a53ef5"]))]

  /** The generator chosen by exact comparison of the type text; anything unmatched draws a wind intensity. */
  function GeneratorFor(sensorType: string): Generator {
    if sensorType == "temperature" then TemperatureGen
    else if sensorType == "rain" then RainGen
    else if sensorType == "humidity" then HumidityGen
    else if sensorType == "windDirection" then WindDirectionGen
    else WindIntensityGen
  }

  /** The index of the first station with the given name. */
  function FindStation(table: seq<WeatherStation>, name: string): (r: Option<nat>)
    ensures r.Some? ==> r.value < |table| && table[r.value].name == name
                        && forall k :: 0 <= k < r.value ==> table[k].name != name
    ensures r.None? ==> forall k :: 0 <= k < |table| ==> table[k].name != name
  {
    if |table| == 0 then None
    else if table[0].name == name then Some(0)
    else match FindStation(table[1..], name)
      case None => None
      case Some(i) => Some(i + 1)
  }

  /** The index of the first sensor with the given name. */
  function FindSensor(sensors: seq<SensorInfo>, name: string): (r: Option<nat>)
    ensures r.Some? ==> r.value < |sensors| && sensors[r.value].sensorName == name
                        && forall k :: 0 <= k < r.value ==> sensors[k].sensorName != name
    ensures r.None? ==> forall k :: 0 <= k < |sensors| ==> sensors[k].sensorName != name
  {
    if |sensors| == 0 then None
    else if sensors[0].sensorName == name then Some(0)
    else match FindSensor(sensors[1..], name)
      case None => None
      case Some(i) => Some(i + 1)
  }

  /**
   * `initSensor <station> <sensor>` over `argv` (command name first).
   * Returns the exit code and the new selection.
   */
  function InitSensor(table: seq<WeatherStation>, sel: Selection, argv: seq<string>): (r: (int, Selection))
    ensures |argv| < 3 ==> r == (0, sel)
    ensures r.0 != 0 ==> r.0 == 1 && r.1 == sel
    ensures r.0 == 0 <==> |argv| < 3 || (FindStation(table, argv[1]).Some?
                            && FindSensor(table[FindStation(table, argv[1]).value].sensors, argv[2]).Some?)
    ensures r.0 == 0 && |argv| >= 3 ==>
              r.1.selected && r.1.current.Some?
              && r.1.current.value.sensor.sensorName == argv[2]
              && r.1.current.value.sensor in table[FindStation(table, argv[1]).value].sensors
              && r.1.current.value.generator == GeneratorFor(r.1.current.value.sensor.sensorType)
  {
    if |argv| < 3 then (0, sel)
    else match FindStation(table, argv[1])
      case None => (1, sel)
      case Some(i) =>
        match FindSensor(table[i].sensors, argv[2])
        case None => (1, sel)
        case Some(j) =>
          var s := table[i].sensors[j];
          (0, Selection(true, Some(Current(s, GeneratorFor(s.sensorType)))))
  }

  /**
   * `printPay` (`buildPayload`): always exits with 0; the payload is only
   * built once a sensor is selected. Returns the exit code and whether a
   * payload was built.
   */
  function PrintPayload(sel: Selection): (r: (int, bool))
    ensures r.0 == 0
    ensures r.1 <==> sel.selected
  {
    (0, sel.selected)
  }

  /**
   * From start-up, `printPay` builds a payload exactly when an earlier
   * `initSensor` found both the station and the sensor it named.
   */
  lemma PrintPayloadAfterInit(table: seq<WeatherStation>, argv: seq<string>)
    ensures var (code, sel) := InitSensor(table, Unselected, argv);
            PrintPayload(sel).1 <==> |argv| >= 3 && code == 0
    ensures !PrintPayload(Unselected).1
  {
  }

  /** Once selected, always selected: no command clears the flag. */
  lemma SelectionIsSticky(table: seq<WeatherStation>, sel: Selection, argv: seq<string>)
    requires sel.selected
    ensures InitSensor(table, sel, argv).1.selected
  {
  }

  /**
   * The table's type texts "temperaturature", "WindDirection" and
   * "WindIntensity" match none of the compared texts, so every sensor but
   * the humidity and rain ones draws a wind intensity.
   */
  lemma TableGenerators()
    ensures forall st :: st in MqttTable + LoRaTable ==>
              |st.sensors| == 5
              && GeneratorFor(st.sensors[0].sensorType) == WindIntensityGen
              && GeneratorFor(st.sensors[1].sensorType) == HumidityGen
              && GeneratorFor(st.sensors[2].sensorType) == WindIntensityGen
              && GeneratorFor(st.sensors[3].sensorType) == WindIntensityGen
              && GeneratorFor(st.sensors[4].sensorType) == RainGen
  {
  }

  /** No sensor of either table draws a temperature or a wind direction. */
  lemma NoTemperatureDrawn(table: seq<WeatherStation>, sel: Selection, argv: seq<string>)
    requires table == MqttTable || table == LoRaTable
    requires InitSensor(table, sel, argv).0 == 0 && |argv| >= 3
    ensures var g := InitSensor(table, sel, argv).1.current.value.generator;
            g != TemperatureGen && g != WindDirectionGen
  {
    TableGenerators();
    var i := FindStation(table, argv[1]).value;
    assert table[i] in MqttTable + LoRaTable;
  }

  /** Selecting a listed sensor of a listed station succeeds. */
  lemma InitSensorFindsListed(table: seq<WeatherStation>, sel: Selection, argv: seq<string>, i: nat, j: nat)
    requires |argv| >= 3 && i < |table| && j < |table[i].sensors|
    requires table[i].name == argv[1] && table[i].sensors[j].sensorName == argv[2]
    requires forall k :: 0 <= k < i ==> table[k].name != argv[1]
    ensures InitSensor(table, sel, argv).0 == 0 && InitSensor(table, sel, argv).1.selected
  {
    assert FindStation(table, argv[1]) == Some(i);
    assert FindSensor(table[i].sensors, argv[2]).Some?;
  }
}
