/**
 * multi_awos.py: the DataManager of the multi-window station. Its
 * environment reader and AQI lookup return None on failure, its compass has
 * sixteen points, a `sensors_connected` flag switches the reader loop to
 * placeholder data, and its bands are closed ranges with 0.1 gaps.
 */
module MultiAwos {
  import opened Common
  import opened Readers
  import opened Snapshots
  import opened Bands
  import opened RainCounter
  import Aqi
  import Awos

  // --------------------------------------------------------------- snapshot

  /** The readers' results in the order sensor_reader_loop calls them. */
  function Readings(bus: BusReplies, file: AqiFile, now: real): (rs: seq<Option<Reading>>)
    ensures |rs| == 6
  {
    [EnvironmentValues(bus.env), ReadUv(bus.uv), AqiLookup(file, now),
     ReadWindSpeed(bus.windSpeed), ReadWindDirection16(bus.windDir), ReadRainfall(bus.rain)]
  }

  /** The dictionary that stands in for the sensors while disconnected. */
  const Placeholders: Reading :=
    map["temperature" := Null, "humidity" := Null, "pressure" := Null, "uv_index" := Null,
        "wind_speed" := Null, "wind_dir_degrees" := Null, "wind_dir_cardinal" := Null,
        "rainfall" := Null, "pm2_5" := Null]

  /** The snapshot of one cycle. `connected` is sensors_connected at the start
      of the cycle and `socketOpen` whether is_socket_open() held then. */
  function CycleSnapshot(connected: bool, socketOpen: bool, stamp: string, now: real,
                         bus: BusReplies, file: AqiFile): Snapshot
  {
    var base: Snapshot := map["timestamp" := Text(stamp)];
    if connected && !socketOpen then base
    else if connected then MergeAll(base, Readings(bus, file, now))
    else MergeAll(base, [Some(Placeholders), AqiLookup(file, now)])
  }

  /** A cycle that finds the socket closed publishes the timestamp and
      nothing else, whether or not the reconnect succeeds. */
  lemma SocketClosedPublishesTimestampOnly(stamp: string, now: real, bus: BusReplies, file: AqiFile)
    ensures CycleSnapshot(true, false, stamp, now, bus, file).Keys == {"timestamp"}
  {
  }

  /** While disconnected every sensor key is None, except PM2.5 (and the
      other pollutants) when the AQI file supplies a row. */
  lemma {:induction false} DisconnectedPlaceholders(socketOpen: bool, stamp: string, now: real,
                                                    bus: BusReplies, file: AqiFile, k: string)
    requires k in Placeholders
    ensures var snap := CycleSnapshot(false, socketOpen, stamp, now, bus, file);
            var aqi := AqiLookup(file, now);
            k in snap && snap[k] == (if aqi.Some? && k in aqi.value then aqi.value[k] else Null)
    ensures "timestamp" in CycleSnapshot(false, socketOpen, stamp, now, bus, file)
  {
    var base: Snapshot := map["timestamp" := Text(stamp)];
    var rs := [Some(Placeholders), AqiLookup(file, now)];
    assert rs[..1][..0] == [];
    assert rs[..1] == [Some(Placeholders)];
    assert MergeAll(base, rs[..1]) == base + Placeholders;
  }

  /** Which reader supplies which key on a connected cycle. */
  lemma ReadersProvide(bus: BusReplies, file: AqiFile, now: real, k: string)
    ensures var rs := Readings(bus, file, now);
            (Provides(rs[0], k) <==> Holds(bus.env, 3) && k in {"temperature", "humidity", "pressure"}) &&
            (Provides(rs[1], k) <==> k == "uv_index") &&
            (Provides(rs[3], k) <==> k == "wind_speed") &&
            (Provides(rs[4], k) <==> WindDirection(bus.windDir).Some? && k in {"wind_dir_degrees", "wind_dir_cardinal"}) &&
            (Provides(rs[5], k) <==> Holds(bus.rain, 1) && k == "rainfall")
    ensures var rs := Readings(bus, file, now);
            Provides(rs[2], k) ==> k in {"co2", "pm2_5", "pm10", "carbon_monoxide", "nitrogen_dioxide",
                                         "sulphur_dioxide", "ozone"}
  {
  }

  /** On a connected cycle the environment fields are present exactly when
      the environment sensor answers, and then hold its values, whatever
      the other sensors do. */
  lemma {:induction false} SnapshotEnvironment(stamp: string, now: real, bus: BusReplies, file: AqiFile, k: string)
    requires k in {"temperature", "humidity", "pressure"}
    ensures var snap := CycleSnapshot(true, true, stamp, now, bus, file);
            (k in snap <==> Holds(bus.env, 3)) &&
            (k in snap ==> snap[k] == EnvironmentValues(bus.env).value[k])
  {
    var base: Snapshot := map["timestamp" := Text(stamp)];
    var rs := Readings(bus, file, now);
    ReadersProvide(bus, file, now, k);
    if Holds(bus.env, 3) {
      MergeLastWriter(base, rs, 0, k);
    } else {
      MergeUntouched(base, rs, k);
    }
  }

  /** On a connected cycle the timestamp survives every reader. */
  lemma {:induction false} SnapshotTimestamp(stamp: string, now: real, bus: BusReplies, file: AqiFile)
    ensures var snap := CycleSnapshot(true, true, stamp, now, bus, file);
            "timestamp" in snap && snap["timestamp"] == Text(stamp)
  {
    ReadersProvide(bus, file, now, "timestamp");
    MergeUntouched(map["timestamp" := Text(stamp)], Readings(bus, file, now), "timestamp");
  }

  // ---------------------------------------------------------------- banding

  /** get_aqi_state of WeatherStationSystem, as its if-chain is written. */
  function AqiState(aqi: Option<real>): (s: State)
    ensures aqi.None? <==> s == NotAvailable
  {
    if aqi.None? then NotAvailable
    else
      var x := aqi.value;
      if 0.0 <= x <= 50.0 then State("GOOD", "#39FF14")
      else if 50.1 <= x <= 100.0 then State("MODERATE", "#FFFF00")
      else if 100.1 <= x <= 150.0 then State("UNHEALTHY", "#FF7E00")
      else if 150.1 <= x <= 200.0 then State("UNHEALTHY", "#FF0000")
      else if 200.1 <= x <= 300.0 then State("VERY UNHEALTHY", "#8F3F97")
      else State("HAZARDOUS", "#7E0023")
  }

  /** get_uv_state, as its if-chain is written. */
  function UvState(uv: Option<real>): (s: State)
    ensures uv.None? <==> s == NotAvailable
  {
    if uv.None? then NotAvailable
    else
      var x := uv.value;
      if 0.0 <= x <= 2.0 then State("LOW", "#39FF14")
      else if 2.1 <= x <= 5.0 then State("MODERATE", "#FFFF00")
      else if 5.1 <= x <= 7.0 then State("HIGH", "#FF7E00")
      else if 7.1 <= x <= 10.0 then State("VERY HIGH", "#FF0000")
      else State("EXTREME", "#8F3F97")
  }

  /** get_humidity_state, as its if-chain is written. */
  function HumidityState(humidity: Option<real>): (s: State)
    ensures humidity.None? <==> s == NotAvailable
  {
    if humidity.None? then NotAvailable
    else
      var x := humidity.value;
      if 0.0 <= x <= 30.0 then State("LOW", "#3EC1EC")
      else if 30.1 <= x <= 50.0 then State("NORMAL", "#39FF14")
      else if 50.1 <= x <= 60.0 then State("SLIGHTLY HIGH", "#FFFF00")
      else if 60.1 <= x <= 70.0 then State("HIGH", "#FF7E00")
      else State("VERY HIGH", "#FF0000")
  }

  /** The open 0.1-wide gaps between the closed ranges of each chain. */
  predicate InAqiGap(x: real)
  {
    (50.0 < x < 50.1) || (100.0 < x < 100.1) || (150.0 < x < 150.1) || (200.0 < x < 200.1)
  }

  predicate InUvGap(x: real)
  {
    (2.0 < x < 2.1) || (5.0 < x < 5.1) || (7.0 < x < 7.1)
  }

  predicate InHumidityGap(x: real)
  {
    (30.0 < x < 30.1) || (50.0 < x < 50.1) || (60.0 < x < 60.1)
  }

  /** Outside the gaps the AQI chain is contiguous banding; inside a gap it
      falls to HAZARDOUS. */
  lemma {:induction false} AqiStateGaps(x: real)
    ensures !InAqiGap(x) ==> AqiState(Some(x)) == Classify(AqiBands, AqiTop, x)
    ensures InAqiGap(x) ==> AqiState(Some(x)) == AqiTop
  {
    Awos.AqiStateIsBanding(x);
  }

  lemma {:induction false} UvStateGaps(x: real)
    ensures !InUvGap(x) ==> UvState(Some(x)) == Classify(UvBands, UvTop, x)
    ensures InUvGap(x) ==> UvState(Some(x)) == UvTop
  {
    Awos.UvStateIsBanding(x);
  }

  lemma {:induction false} HumidityStateGaps(x: real)
    ensures !InHumidityGap(x) ==> HumidityState(Some(x)) == Classify(HumidityBands, HumidityTop, x)
    ensures InHumidityGap(x) ==> HumidityState(Some(x)) == HumidityTop
  {
    Awos.HumidityStateIsBanding(x);
  }

  /** No PM2.5 value yields an AQI inside a gap: every segment of the
      equation starts at least 0.7 above the previous one's end. So the AQI
      state shown is the banded state of the computed index. */
  lemma {:induction false} ComputedAqiAvoidsGaps(pm2_5: real)
    ensures !InAqiGap(Aqi.CalculateAqi(pm2_5))
    ensures AqiState(Aqi.AqiOf(Some(pm2_5))) == Classify(AqiBands, AqiTop, Aqi.CalculateAqi(pm2_5))
  {
    AqiStateGaps(Aqi.CalculateAqi(pm2_5));
  }

  /** A humidity read from the bus is a whole number of tenths, which never
      lies inside a gap: the humidity chain bands every reading. */
  lemma {:induction false} HumidityReadingsAvoidGaps(raw: U16)
    ensures !InHumidityGap(raw as real / 10.0)
    ensures HumidityState(Some(raw as real / 10.0)) == Classify(HumidityBands, HumidityTop, raw as real / 10.0)
  {
    HumidityStateGaps(raw as real / 10.0);
  }

  /** The UV index is read in hundredths, so register 205 gives 2.05, which
      falls in the (2.0, 2.1) gap and is shown as EXTREME although it is well
      inside the 0 - 10 scale. */
  lemma UvGapExample()
    ensures ReadUv(Ok([205])).value["uv_index"] == Num(2.05)
    ensures UvState(Some(2.05)) == UvTop
    ensures Awos.UvState(Some(2.05)) == State("MODERATE", "#FFFF00")
  {
  }

  /** The contiguous chain of awos.py is what the gapped chain evidently
      means: it agrees outside the gaps and never shows EXTREME for an index
      in the 0 - 10 scale. */
  lemma {:induction false} UvCorrected(x: real)
    ensures !InUvGap(x) ==> Awos.UvState(Some(x)) == UvState(Some(x))
    ensures 0.0 <= x <= 10.0 ==> Awos.UvState(Some(x)) != UvTop
  {
    Awos.UvStateIsBanding(x);
    UvStateGaps(x);
  }

  // ------------------------------------------------------------ DataManager

  /** The DataManager's state: the latest snapshot, the CSV queue, the
      connection flag, the time of the last enqueue and the rainfall filter. */
  class DataManager {
    var sensorData: Snapshot
    var dataQueue: seq<Snapshot>
    var sensorsConnected: bool
    var lastCsvTime: real
    const csvInterval: real
    var lastRainValue: real
    var noRainCounter: int
    const rainResetThreshold: real
    const rainResetTime: int

    ghost predicate Valid()
      reads this
    {
      CounterOk(CounterState(lastRainValue, noRainCounter), rainResetTime) &&
      (forall i :: 0 <= i < |dataQueue| ==> "timestamp" in dataQueue[i])
    }

    /** __init__ followed by init_modbus: `connectOk` is what connect()
        returned (False also when constructing the client raised), and
        `startTime` the reader loop's first clock reading. */
    constructor (connectOk: bool, startTime: real, csvInterval: real,
                 rainResetThreshold: real, rainResetTime: int)
      ensures Valid()
      ensures sensorsConnected == connectOk && dataQueue == [] && lastCsvTime == startTime
      ensures this.csvInterval == csvInterval && this.rainResetThreshold == rainResetThreshold &&
              this.rainResetTime == rainResetTime
      ensures lastRainValue == 0.0 && noRainCounter == 0
      ensures sensorData.Keys == {"temperature", "humidity", "pressure", "uv_index", "wind_speed",
                                  "wind_direction", "rainfall", "aqi", "timestamp"}
      ensures forall k :: k in sensorData ==> sensorData[k] == Null
    {
      sensorData := map["temperature" := Null, "humidity" := Null, "pressure" := Null,
                        "uv_index" := Null, "wind_speed" := Null, "wind_direction" := Null,
                        "rainfall" := Null, "aqi" := Null, "timestamp" := Null];
      dataQueue := [];
      lastCsvTime := startTime;
      this.csvInterval := csvInterval;
      lastRainValue := 0.0;
      noRainCounter := 0;
      this.rainResetThreshold := rainResetThreshold;
      this.rainResetTime := rainResetTime;
      sensorsConnected := connectOk;
    }

    /** One pass of sensor_reader_loop. `socketOpen` is is_socket_open() at
        the start of the pass and `reopened` is is_socket_open() after the
        reconnect attempt; `now` is the clock read after the readers. */
    method ReaderCycle(stamp: string, socketOpen: bool, reopened: bool, now: real,
                       bus: BusReplies, file: AqiFile)
      requires Valid()
      modifies this`sensorData, this`dataQueue, this`sensorsConnected, this`lastCsvTime
      ensures Valid()
      ensures sensorsConnected == (old(sensorsConnected) && (socketOpen || reopened))
      ensures sensorData == CycleSnapshot(old(sensorsConnected), socketOpen, stamp, now, bus, file)
      ensures now - old(lastCsvTime) >= csvInterval ==>
                dataQueue == old(dataQueue) + [sensorData] && lastCsvTime == now
      ensures now - old(lastCsvTime) < csvInterval ==>
                dataQueue == old(dataQueue) && lastCsvTime == old(lastCsvTime)
    {
      var base: Snapshot := map["timestamp" := Text(stamp)];
      var current := base;
      if sensorsConnected {
        if !socketOpen {
          if !reopened {
            sensorsConnected := false;
          }
        } else {
          current := MergeReadings(base, Readings(bus, file, now));
          SnapshotTimestamp(stamp, now, bus, file);
        }
      } else {
        current := MergeReadings(base, [Some(Placeholders), AqiLookup(file, now)]);
        DisconnectedPlaceholders(socketOpen, stamp, now, bus, file, "pm2_5");
      }
      sensorData := current;
      if now - lastCsvTime >= csvInterval {
        dataQueue := dataQueue + [current];
        lastCsvTime := now;
      }
    }

    /** process_rainfall: the no-change counter. */
    method ProcessRainfall(current: Option<real>) returns (r: Option<real>)
      requires Valid()
      modifies this`lastRainValue, this`noRainCounter
      ensures Valid()
      ensures current.None? ==> r.None? && lastRainValue == old(lastRainValue) &&
                                noRainCounter == old(noRainCounter)
      ensures current.Some? ==>
                var o := CounterStep(CounterState(old(lastRainValue), old(noRainCounter)), current.value,
                                     rainResetThreshold, rainResetTime);
                r == Some(o.out) && CounterState(lastRainValue, noRainCounter) == o.state
    {
      if current.None? {
        return None;
      }
      var rain := current.value;
      if Abs(rain - lastRainValue) < rainResetThreshold {
        noRainCounter := noRainCounter + 1;
        if noRainCounter >= rainResetTime {
          rain := 0.0;
          noRainCounter := 0;
        }
      } else {
        noRainCounter := 0;
      }
      lastRainValue := rain;
      r := Some(rain);
    }

    /** csv_writer_loop: the oldest queued snapshot leaves the queue and
        becomes a row. */
    method TakeRow() returns (row: Option<seq<Cell>>)
      requires Valid()
      modifies this`dataQueue
      ensures Valid()
      ensures old(dataQueue) == [] ==> row.None? && dataQueue == []
      ensures old(dataQueue) != [] ==>
                dataQueue == old(dataQueue)[1..] && row.Some? && row == CsvRow(old(dataQueue)[0])
    {
      if dataQueue == [] {
        return None;
      }
      var data := dataQueue[0];
      dataQueue := dataQueue[1..];
      row := CsvRow(data);
    }
  }
}
