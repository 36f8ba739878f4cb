/**
 * awos_assit_code/awos_new.py: the newer single-window station. Its readers
 * follow the None policy of multi_awos.py, a failed connect skips the cycle
 * as in awos.py, its bands are closed whole-number ranges, and its
 * calculate_aqi is commented out while two call sites remain.
 */
module AwosNew {
  import opened Common
  import opened Readers
  import opened Snapshots
  import opened Bands
  import opened RainCounter
  import Aqi
  import MultiAwos

  // --------------------------------------------------------------- snapshot

  /** The snapshot of one connected cycle: the timestamp, then the six
      readers (the same list, in the same order, as multi_awos.py). */
  function CycleSnapshot(stamp: string, now: real, bus: BusReplies, file: AqiFile): (snap: Snapshot)
    ensures "timestamp" in snap && snap["timestamp"] == Text(stamp)
  {
    MultiAwos.SnapshotTimestamp(stamp, now, bus, file);
    MergeAll(map["timestamp" := Text(stamp)], MultiAwos.Readings(bus, file, now))
  }

  /** A connected cycle publishes what a connected, open cycle of
      multi_awos.py publishes; in particular the environment fields are
      there exactly when the environment sensor answers. */
  lemma {:induction false} SnapshotEnvironment(stamp: string, now: real, bus: BusReplies, file: AqiFile, k: string)
    requires k in {"temperature", "humidity", "pressure"}
    ensures CycleSnapshot(stamp, now, bus, file) == MultiAwos.CycleSnapshot(true, true, stamp, now, bus, file)
    ensures var snap := CycleSnapshot(stamp, now, bus, file);
            (k in snap <==> Holds(bus.env, 3)) &&
            (k in snap ==> snap[k] == EnvironmentValues(bus.env).value[k])
  {
    MultiAwos.SnapshotEnvironment(stamp, now, bus, file, k);
  }

  // ---------------------------------------------------------------- banding

  /** The colour tables of this program, as bands with the upper bounds of
      its whole-number ranges. */
  const AqiBandsNew: seq<Band> :=
    [Band(50.0, State("GOOD", "#00E400")),
     Band(100.0, State("MODERATE", "#FFFF00")),
     Band(150.0, State("UNHEALTHY", "#FF7E00")),
     Band(200.0, State("UNHEALTHY", "#FF0000")),
     Band(300.0, State("VERY UNHEALTHY", "#8F3F97"))]

  const UvBandsNew: seq<Band> :=
    [Band(2.0, State("LOW", "#00E400")),
     Band(5.0, State("MODERATE", "#FFFF00")),
     Band(7.0, State("HIGH", "#FF7E00")),
     Band(10.0, State("VERY HIGH", "#FF0000"))]

  const HumidityBandsNew: seq<Band> :=
    [Band(30.0, State("LOW", "#3EC1EC")),
     Band(50.0, State("NORMAL", "#00E400")),
     Band(60.0, State("SLIGHTLY HIGH", "#FFFF00")),
     Band(70.0, State("HIGH", "#FF7E00"))]

  /** get_aqi_state, as its if-chain is written. */
  function AqiState(aqi: Option<real>): (s: State)
    ensures aqi.None? <==> s == NotAvailable
  {
    if aqi.None? then NotAvailable
    else
      var x := aqi.value;
      if 0.0 <= x <= 50.0 then State("GOOD", "#00E400")
      else if 51.0 <= x <= 100.0 then State("MODERATE", "#FFFF00")
      else if 101.0 <= x <= 150.0 then State("UNHEALTHY", "#FF7E00")
      else if 151.0 <= x <= 200.0 then State("UNHEALTHY", "#FF0000")
      else if 201.0 <= x <= 300.0 then State("VERY UNHEALTHY", "#8F3F97")
      else AqiTop
  }

  /** get_uv_state, as its if-chain is written. */
  function UvState(uv: Option<real>): (s: State)
    ensures uv.None? <==> s == NotAvailable
  {
    if uv.None? then NotAvailable
    else
      var x := uv.value;
      if 0.0 <= x <= 2.0 then State("LOW", "#00E400")
      else if 3.0 <= x <= 5.0 then State("MODERATE", "#FFFF00")
      else if 6.0 <= x <= 7.0 then State("HIGH", "#FF7E00")
      else if 8.0 <= x <= 10.0 then State("VERY HIGH", "#FF0000")
      else UvTop
  }

  /** get_humidity_state, as its if-chain is written. */
  function HumidityState(humidity: Option<real>): (s: State)
    ensures humidity.None? <==> s == NotAvailable
  {
    if humidity.None? then NotAvailable
    else
      var x := humidity.value;
      if 0.0 <= x <= 30.0 then State("LOW", "#3EC1EC")
      else if 31.0 <= x <= 50.0 then State("NORMAL", "#00E400")
      else if 51.0 <= x <= 60.0 then State("SLIGHTLY HIGH", "#FFFF00")
      else if 61.0 <= x <= 70.0 then State("HIGH", "#FF7E00")
      else HumidityTop
  }

  /** The open unit-wide gaps between the whole-number ranges. */
  predicate InAqiGap(x: real)
  {
    (50.0 < x < 51.0) || (100.0 < x < 101.0) || (150.0 < x < 151.0) || (200.0 < x < 201.0)
  }

  predicate InUvGap(x: real)
  {
    (2.0 < x < 3.0) || (5.0 < x < 6.0) || (7.0 < x < 8.0)
  }

  predicate InHumidityGap(x: real)
  {
    (30.0 < x < 31.0) || (50.0 < x < 51.0) || (60.0 < x < 61.0)
  }

  /** The chains as written: banding outside the gaps, the top state inside. */
  lemma {:induction false} AqiStateGaps(x: real)
    ensures !InAqiGap(x) ==> AqiState(Some(x)) == Classify(AqiBandsNew, AqiTop, x)
    ensures InAqiGap(x) ==> AqiState(Some(x)) == AqiTop
  {
    AqiStateCorrectedIsBanding(x);
  }

  lemma {:induction false} UvStateGaps(x: real)
    ensures !InUvGap(x) ==> UvState(Some(x)) == Classify(UvBandsNew, UvTop, x)
    ensures InUvGap(x) ==> UvState(Some(x)) == UvTop
  {
    UvStateCorrectedIsBanding(x);
  }

  lemma {:induction false} HumidityStateGaps(x: real)
    ensures !InHumidityGap(x) ==> HumidityState(Some(x)) == Classify(HumidityBandsNew, HumidityTop, x)
    ensures InHumidityGap(x) ==> HumidityState(Some(x)) == HumidityTop
  {
    HumidityStateCorrectedIsBanding(x);
  }

  /** Humidity register 305 reads 30.5 %, between the LOW and NORMAL ranges,
      and is shown as VERY HIGH. */
  lemma HumidityGapExample()
    ensures EnvironmentValues(Ok([250, 305, 10130])).value["humidity"] == Num(30.5)
    ensures HumidityState(Some(30.5)) == HumidityTop
    ensures HumidityStateCorrected(Some(30.5)) == State("NORMAL", "#00E400")
  {
  }

  /** UV register 250 reads 2.5, between the LOW and MODERATE ranges, and is
      shown as EXTREME. */
  lemma UvGapExample()
    ensures ReadUv(Ok([250])).value["uv_index"] == Num(2.5)
    ensures UvState(Some(2.5)) == UvTop
    ensures UvStateCorrected(Some(2.5)) == State("MODERATE", "#FFFF00")
  {
  }

  /** An AQI of 50.5, between the GOOD and MODERATE ranges, is shown as
      HAZARDOUS. */
  lemma AqiGapExample()
    ensures AqiState(Some(50.5)) == AqiTop
    ensures AqiStateCorrected(Some(50.5)) == State("MODERATE", "#FFFF00")
  {
  }

  /** The evidently intended chains: the same ranges with exclusive lower
      bounds, so that no value between two ranges is left out. */
  function AqiStateCorrected(aqi: Option<real>): (s: State)
    ensures aqi.None? <==> s == NotAvailable
  {
    if aqi.None? then NotAvailable
    else
      var x := aqi.value;
      if 0.0 <= x <= 50.0 then State("GOOD", "#00E400")
      else if 50.0 < x <= 100.0 then State("MODERATE", "#FFFF00")
      else if 100.0 < x <= 150.0 then State("UNHEALTHY", "#FF7E00")
      else if 150.0 < x <= 200.0 then State("UNHEALTHY", "#FF0000")
      else if 200.0 < x <= 300.0 then State("VERY UNHEALTHY", "#8F3F97")
      else AqiTop
  }

  function UvStateCorrected(uv: Option<real>): (s: State)
    ensures uv.None? <==> s == NotAvailable
  {
    if uv.None? then NotAvailable
    else
      var x := uv.value;
      if 0.0 <= x <= 2.0 then State("LOW", "#00E400")
      else if 2.0 < x <= 5.0 then State("MODERATE", "#FFFF00")
      else if 5.0 < x <= 7.0 then State("HIGH", "#FF7E00")
      else if 7.0 < x <= 10.0 then State("VERY HIGH", "#FF0000")
      else UvTop
  }

  function HumidityStateCorrected(humidity: Option<real>): (s: State)
    ensures humidity.None? <==> s == NotAvailable
  {
    if humidity.None? then NotAvailable
    else
      var x := humidity.value;
      if 0.0 <= x <= 30.0 then State("LOW", "#3EC1EC")
      else if 30.0 < x <= 50.0 then State("NORMAL", "#00E400")
      else if 50.0 < x <= 60.0 then State("SLIGHTLY HIGH", "#FFFF00")
      else if 60.0 < x <= 70.0 then State("HIGH", "#FF7E00")
      else HumidityTop
  }

  /** The corrected chains are contiguous banding over this program's
      tables: every non-negative value up to the last bound gets a band. */
  lemma {:induction false} AqiStateCorrectedIsBanding(x: real)
    ensures AqiStateCorrected(Some(x)) == Classify(AqiBandsNew, AqiTop, x)
    ensures 0.0 <= x <= 300.0 ==> AqiStateCorrected(Some(x)) != AqiTop
  {
    assert Ascending(AqiBandsNew);
    if x < 0.0 {
    } else if x <= 50.0 {
      ClassifyIn(AqiBandsNew, AqiTop, x, 0);
    } else if x <= 100.0 {
      ClassifyIn(AqiBandsNew, AqiTop, x, 1);
    } else if x <= 150.0 {
      ClassifyIn(AqiBandsNew, AqiTop, x, 2);
    } else if x <= 200.0 {
      ClassifyIn(AqiBandsNew, AqiTop, x, 3);
    } else if x <= 300.0 {
      ClassifyIn(AqiBandsNew, AqiTop, x, 4);
    } else {
      ClassifyAbove(AqiBandsNew, AqiTop, x);
    }
  }

  lemma {:induction false} UvStateCorrectedIsBanding(x: real)
    ensures UvStateCorrected(Some(x)) == Classify(UvBandsNew, UvTop, x)
    ensures 0.0 <= x <= 10.0 ==> UvStateCorrected(Some(x)) != UvTop
  {
    assert Ascending(UvBandsNew);
    if x < 0.0 {
    } else if x <= 2.0 {
      ClassifyIn(UvBandsNew, UvTop, x, 0);
    } else if x <= 5.0 {
      ClassifyIn(UvBandsNew, UvTop, x, 1);
    } else if x <= 7.0 {
      ClassifyIn(UvBandsNew, UvTop, x, 2);
    } else if x <= 10.0 {
      ClassifyIn(UvBandsNew, UvTop, x, 3);
    } else {
      ClassifyAbove(UvBandsNew, UvTop, x);
    }
  }

  lemma {:induction false} HumidityStateCorrectedIsBanding(x: real)
    ensures HumidityStateCorrected(Some(x)) == Classify(HumidityBandsNew, HumidityTop, x)
    ensures 0.0 <= x <= 70.0 ==> HumidityStateCorrected(Some(x)) != HumidityTop
  {
    assert Ascending(HumidityBandsNew);
    if x < 0.0 {
    } else if x <= 30.0 {
      ClassifyIn(HumidityBandsNew, HumidityTop, x, 0);
    } else if x <= 50.0 {
      ClassifyIn(HumidityBandsNew, HumidityTop, x, 1);
    } else if x <= 60.0 {
      ClassifyIn(HumidityBandsNew, HumidityTop, x, 2);
    } else if x <= 70.0 {
      ClassifyIn(HumidityBandsNew, HumidityTop, x, 3);
    } else {
      ClassifyAbove(HumidityBandsNew, HumidityTop, x);
    }
  }

  /** On whole numbers, the only values the written ranges were designed
      for, the corrected chains and the written ones agree. */
  lemma {:induction false} CorrectedAgreesOnWholeNumbers(n: int)
    ensures AqiStateCorrected(Some(n as real)) == AqiState(Some(n as real))
    ensures UvStateCorrected(Some(n as real)) == UvState(Some(n as real))
    ensures HumidityStateCorrected(Some(n as real)) == HumidityState(Some(n as real))
  {
  }

  // --------------------------------------------------------- display update

  /** The snapshot's value under `key` as a number, None where it is absent
      or None. */
  function NumberAt(data: Snapshot, key: string): (v: Option<real>)
    ensures v.Some? <==> key in data && (data[key].Num? || data[key].Int?)
  {
    if key !in data then None
    else match data[key]
      case Num(r) => Some(r)
      case Int(i) => Some(i as real)
      case _ => None
  }

  /** Python truthiness of a snapshot value. */
  predicate Truthy(v: Value)
  {
    match v
    case Num(r) => r != 0.0
    case Int(i) => i != 0
    case Text(s) => s != ""
    case Null => false
  }

  /** `data.get('pm2_5')` is truthy: the guard in front of both calls of
      calculate_aqi. */
  predicate PmTruthy(data: Snapshot)
  {
    "pm2_5" in data && Truthy(data["pm2_5"])
  }

  /** The wind-speed parser, `data.get('wind_speed', 0.0) * 3.6`, does not
      raise: the key is absent or holds a number. */
  predicate WindSpeedParses(data: Snapshot)
  {
    "wind_speed" !in data || NumberAt(data, "wind_speed").Some?
  }

  /** The states update_state_displays sets in one call, in its order:
      humidity, then AQI, then UV. None marks a state the call did not reach
      because an earlier line raised. */
  datatype StateUpdate = StateUpdate(humidity: State, aqi: Option<State>, uv: Option<State>)

  /** update_state_displays on its own. The AQI line calls calculate_aqi only
      when pm2_5 is truthy; that method is commented out, so the call raises
      AttributeError, and the UV line after it is never reached. */
  function StateDisplays(data: Snapshot): (u: StateUpdate)
    ensures u.humidity == HumidityState(NumberAt(data, "humidity"))
    ensures u.aqi.None? <==> PmTruthy(data)
    ensures u.aqi.Some? ==> u.aqi.value == NotAvailable
    ensures u.uv.Some? <==> u.aqi.Some?
    ensures u.uv.Some? ==> u.uv.value == UvState(NumberAt(data, "uv_index"))
  {
    var humidity := HumidityState(NumberAt(data, "humidity"));
    if PmTruthy(data) then StateUpdate(humidity, None, None)
    else StateUpdate(humidity, Some(AqiState(None)), Some(UvState(NumberAt(data, "uv_index"))))
  }

  /** One call of update_display as far as the states go: the parser loop
      runs first, in the order temperature, humidity, pressure, wind speed,
      wind direction, rain, UV, AQI, and only then update_state_displays.
      A raise anywhere is caught by the surrounding try, so it skips every
      state; None marks such a call. The wind-speed parser raises on a None
      value, and the AQI parser raises, like the AQI state line, whenever
      pm2_5 is truthy. */
  function DisplayUpdate(data: Snapshot): (u: Option<StateUpdate>)
    ensures u.None? <==> !WindSpeedParses(data) || PmTruthy(data)
    ensures u.Some? ==> u.value.humidity == HumidityState(NumberAt(data, "humidity")) &&
                        u.value.aqi == Some(NotAvailable) &&
                        u.value.uv == Some(UvState(NumberAt(data, "uv_index")))
  {
    if !WindSpeedParses(data) || PmTruthy(data) then None
    else Some(StateDisplays(data))
  }

  /** A PM2.5 of 35.0 stops every state refresh, humidity included; a PM2.5
      of 0.0 lets all three states through, AQI as N/A. */
  lemma DisplayUpdateExample()
    ensures DisplayUpdate(map["pm2_5" := Num(35.0), "humidity" := Num(45.0),
                              "uv_index" := Num(3.0), "wind_speed" := Num(2.0)]) == None
    ensures DisplayUpdate(map["pm2_5" := Num(0.0), "humidity" := Num(45.0),
                              "uv_index" := Num(3.0), "wind_speed" := Num(2.0)]) ==
            Some(StateUpdate(State("NORMAL", "#00E400"), Some(NotAvailable), Some(State("MODERATE", "#FFFF00"))))
  {
  }

  /** A connected cycle always leaves a wind speed the parser accepts. */
  lemma {:induction false} CycleWindSpeedParses(stamp: string, now: real, bus: BusReplies, file: AqiFile)
    ensures WindSpeedParses(CycleSnapshot(stamp, now, bus, file))
  {
    var base: Snapshot := map["timestamp" := Text(stamp)];
    MultiAwos.ReadersProvide(bus, file, now, "wind_speed");
    MergeLastWriter(base, MultiAwos.Readings(bus, file, now), 3, "wind_speed");
  }

  /** After a connected cycle whose AQI file has rows, all with a non-zero
      PM2.5, the display update refreshes no state at all. */
  lemma {:induction false} CyclePmStopsStateRefresh(stamp: string, now: real, bus: BusReplies, file: AqiFile)
    requires file.Present? && |file.rows| > 0
    requires forall i :: 0 <= i < |file.rows| ==> file.rows[i].pm2_5 != 0.0
    ensures DisplayUpdate(CycleSnapshot(stamp, now, bus, file)) == None
  {
    var base: Snapshot := map["timestamp" := Text(stamp)];
    var rs := MultiAwos.Readings(bus, file, now);
    var row := file.rows[Nearest(file.rows, now)];
    assert rs[2] == Some(RowReading(row));
    MultiAwos.ReadersProvide(bus, file, now, "pm2_5");
    MergeLastWriter(base, rs, 2, "pm2_5");
    assert CycleSnapshot(stamp, now, bus, file)["pm2_5"] == Num(row.pm2_5);
  }

  /** update_state_displays as evidently intended: the AQI of the
      pm2_5 reading through the equation of awos.py and multi_awos.py, banded
      without gaps, and every state set. */
  function StateDisplaysCorrected(data: Snapshot): (u: StateUpdate)
    ensures u.aqi.Some? && u.uv.Some?
    ensures u.humidity == HumidityStateCorrected(NumberAt(data, "humidity"))
    ensures u.uv.value == UvStateCorrected(NumberAt(data, "uv_index"))
    ensures u.aqi.value == NotAvailable <==> NumberAt(data, "pm2_5").None? || NumberAt(data, "pm2_5").value == 0.0
  {
    var pm := NumberAt(data, "pm2_5");
    var aqi := if pm.Some? && pm.value != 0.0 then Some(Aqi.CalculateAqi(pm.value)) else None;
    StateUpdate(HumidityStateCorrected(NumberAt(data, "humidity")),
                Some(AqiStateCorrected(aqi)),
                Some(UvStateCorrected(NumberAt(data, "uv_index"))))
  }

  /** The corrected panel shows a PM2.5 reading in the band of its AQI. */
  lemma {:induction false} StateDisplaysCorrectedAqi(data: Snapshot)
    requires NumberAt(data, "pm2_5").Some? && NumberAt(data, "pm2_5").value > 0.0
    ensures StateDisplaysCorrected(data).aqi ==
            Some(Classify(AqiBandsNew, AqiTop, Aqi.CalculateAqi(NumberAt(data, "pm2_5").value)))
  {
    AqiStateCorrectedIsBanding(Aqi.CalculateAqi(NumberAt(data, "pm2_5").value));
  }

  /** update_display as evidently intended, with calculate_aqi in place: only
      an unparsable wind speed still skips the states. */
  function DisplayUpdateCorrected(data: Snapshot): (u: Option<StateUpdate>)
    ensures u.None? <==> !WindSpeedParses(data)
    ensures u.Some? ==> u.value.aqi.Some? && u.value.uv.Some?
  {
    if !WindSpeedParses(data) then None
    else Some(StateDisplaysCorrected(data))
  }

  /** With calculate_aqi in place, every connected cycle refreshes all three
      states, and a positive PM2.5 is shown in the band of its AQI. */
  lemma {:induction false} CycleRefreshesCorrected(stamp: string, now: real, bus: BusReplies, file: AqiFile)
    ensures var data := CycleSnapshot(stamp, now, bus, file);
            var u := DisplayUpdateCorrected(data);
            u.Some? && u.value.aqi.Some? && u.value.uv.Some? &&
            (NumberAt(data, "pm2_5").Some? && NumberAt(data, "pm2_5").value > 0.0 ==>
               u.value.aqi == Some(Classify(AqiBandsNew, AqiTop, Aqi.CalculateAqi(NumberAt(data, "pm2_5").value))))
  {
    var data := CycleSnapshot(stamp, now, bus, file);
    CycleWindSpeedParses(stamp, now, bus, file);
    if NumberAt(data, "pm2_5").Some? && NumberAt(data, "pm2_5").value > 0.0 {
      StateDisplaysCorrectedAqi(data);
    }
  }

  // ---------------------------------------------------------------- station

  /** The station object: the latest snapshot, the CSV queue, the time of the
      last enqueue and the rainfall filter. */
  class Station {
    var sensorData: Snapshot
    var dataQueue: seq<Snapshot>
    var lastCsvTime: real
    const csvInterval: real
    var lastRainValue: real
    var noRainCounter: int
    const rainResetThreshold: real
    const rainResetTime: int

    ghost predicate Valid()
      reads this
    {
      CounterOk(CounterState(lastRainValue, noRainCounter), rainResetTime) &&
      (forall i :: 0 <= i < |dataQueue| ==> "timestamp" in dataQueue[i])
    }

    /** init_data_structures, with the reader loop's first clock reading. */
    constructor (startTime: real, csvInterval: real, rainResetThreshold: real, rainResetTime: int)
      ensures Valid()
      ensures dataQueue == [] && lastCsvTime == startTime && this.csvInterval == csvInterval
      ensures this.rainResetThreshold == rainResetThreshold && this.rainResetTime == rainResetTime
      ensures lastRainValue == 0.0 && noRainCounter == 0
      ensures sensorData.Keys == {"temperature", "humidity", "pressure", "uv_index", "wind_speed",
                                  "wind_direction", "rainfall", "aqi", "timestamp"}
      ensures forall k :: k in sensorData ==> sensorData[k] == Null
    {
      sensorData := map["temperature" := Null, "humidity" := Null, "pressure" := Null,
                        "uv_index" := Null, "wind_speed" := Null, "wind_direction" := Null,
                        "rainfall" := Null, "aqi" := Null, "timestamp" := Null];
      dataQueue := [];
      lastCsvTime := startTime;
      this.csvInterval := csvInterval;
      lastRainValue := 0.0;
      noRainCounter := 0;
      this.rainResetThreshold := rainResetThreshold;
      this.rainResetTime := rainResetTime;
    }

    /** One pass of sensor_reader_loop: `connected` is what connect()
        returned, `now` the clock read after the readers. */
    method ReaderCycle(connected: bool, stamp: string, now: real, bus: BusReplies, file: AqiFile)
      requires Valid()
      modifies this`sensorData, this`dataQueue, this`lastCsvTime
      ensures Valid()
      ensures !connected ==> sensorData == old(sensorData) && dataQueue == old(dataQueue) &&
                             lastCsvTime == old(lastCsvTime)
      ensures connected ==> sensorData == CycleSnapshot(stamp, now, bus, file)
      ensures connected && now - old(lastCsvTime) >= csvInterval ==>
                dataQueue == old(dataQueue) + [sensorData] && lastCsvTime == now
      ensures connected && now - old(lastCsvTime) < csvInterval ==>
                dataQueue == old(dataQueue) && lastCsvTime == old(lastCsvTime)
    {
      if !connected {
        return;
      }
      var current := MergeReadings(map["timestamp" := Text(stamp)], MultiAwos.Readings(bus, file, now));
      assert current == CycleSnapshot(stamp, now, bus, file);
      sensorData := current;
      if now - lastCsvTime >= csvInterval {
        dataQueue := dataQueue + [current];
        lastCsvTime := now;
      }
    }

    /** process_rainfall: the same no-change counter as multi_awos.py. */
    method ProcessRainfall(current: Option<real>) returns (r: Option<real>)
      requires Valid()
      modifies this`lastRainValue, this`noRainCounter
      ensures Valid()
      ensures current.None? ==> r.None? && lastRainValue == old(lastRainValue) &&
                                noRainCounter == old(noRainCounter)
      ensures current.Some? ==>
                var o := CounterStep(CounterState(old(lastRainValue), old(noRainCounter)), current.value,
                                     rainResetThreshold, rainResetTime);
                r == Some(o.out) && CounterState(lastRainValue, noRainCounter) == o.state
    {
      if current.None? {
        return None;
      }
      var rain := current.value;
      if Abs(rain - lastRainValue) < rainResetThreshold {
        noRainCounter := noRainCounter + 1;
        if noRainCounter >= rainResetTime {
          rain := 0.0;
          noRainCounter := 0;
        }
      } else {
        noRainCounter := 0;
      }
      lastRainValue := rain;
      r := Some(rain);
    }

    /** csv_writer_loop: the oldest queued snapshot leaves the queue and
        becomes a row. */
    method TakeRow() returns (row: Option<seq<Cell>>)
      requires Valid()
      modifies this`dataQueue
      ensures Valid()
      ensures old(dataQueue) == [] ==> row.None? && dataQueue == []
      ensures old(dataQueue) != [] ==>
                dataQueue == old(dataQueue)[1..] && row.Some? && row == CsvRow(old(dataQueue)[0])
    {
      if dataQueue == [] {
        return None;
      }
      var data := dataQueue[0];
      dataQueue := dataQueue[1..];
      row := CsvRow(data);
    }
  }
}
