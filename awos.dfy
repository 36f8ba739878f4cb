/**
 * awos.py: the single-window station. Its readers fall back to zeros where
 * the other two programs return None, its compass has eight points, and its
 * rainfall figure is a daily total accumulated from the gauge's counter.
 */
module Awos {
  import opened Common
  import opened Readers
  import opened Snapshots
  import opened Bands

  // ---------------------------------------------------------------- readers

  const EnvironmentZeros: Reading :=
    map["temperature" := Num(0.0), "humidity" := Num(0.0), "pressure" := Num(0.0)]

  /** read_environment_sensor: the three scaled registers, or all three 0.0
      when the reply failed or was short. */
  function ReadEnvironment(reply: Reply): (r: Option<Reading>)
    ensures r.Some? && r.value.Keys == {"temperature", "humidity", "pressure"}
    ensures Holds(reply, 3) ==> r == EnvironmentValues(reply)
    ensures !Holds(reply, 3) ==> r.value == EnvironmentZeros
  {
    var v := EnvironmentValues(reply);
    if v.Some? then v else Some(EnvironmentZeros)
  }

  /** The zero fallback cannot be told apart from a sensor that reports
      three zero registers. */
  lemma EnvironmentFallbackLooksLikeZeros()
    ensures ReadEnvironment(Err) == ReadEnvironment(Ok([0, 0, 0]))
  {
  }

  const AqiFallback: Reading := map["pm2_5" := Num(0.0)]

  /** read_aqi_sensor: the nearest row of the reference file, or {pm2_5: 0.0}
      when the file is missing or cannot be used. */
  function ReadAqi(file: AqiFile, now: real): (r: Option<Reading>)
    ensures r.Some? && "pm2_5" in r.value
    ensures r.value == AqiFallback <==> file.Missing? || |file.rows| == 0
    ensures file.Present? && |file.rows| > 0 ==> r == AqiLookup(file, now)
  {
    var found := AqiLookup(file, now);
    if found.Some? then found else Some(AqiFallback)
  }

  const Compass8: seq<string> := ["N", "NE", "E", "SE", "S", "SW", "W", "NW"]

  /** round(deg / 45.0) % 8: the index of the 8-point compass point nearest
      to deg, at most half a sector (22.5, so 22 whole degrees) away. */
  function Sector8(deg: int): (i: nat)
    ensures i < 8
    ensures CircleGap(deg, 45 * i, 360) <= 22
  {
    var k := RoundHalfEven(deg, 45);
    var i, q := k % 8, k / 8;
    assert 45 * k == 45 * i + 360 * q;
    CircleGapWithin(deg, 45 * i, 360, q, deg - 45 * k);
    i
  }

  /** _degrees_to_cardinal of awos.py: no range guard; Python's % makes any
      whole number of degrees land on one of the eight points. */
  function Cardinal8(deg: int): (c: string)
    ensures c in Compass8
    ensures c == Compass8[Sector8(deg)]
  {
    Compass8[Sector8(deg)]
  }

  lemma Cardinal8Examples()
    ensures Cardinal8(0) == "N" && Cardinal8(22) == "N" && Cardinal8(23) == "NE"
    ensures Cardinal8(180) == "S" && Cardinal8(337) == "NW" && Cardinal8(338) == "N"
    ensures Cardinal8(360) == "N"
  {
  }

  /** read_wind_direction: the accepted direction and its 8-point name. */
  function ReadWindDirection(reply: Reply): (r: Option<Reading>)
    ensures r.Some? <==> WindDirection(reply).Some?
    ensures r.Some? ==> r.value.Keys == {"wind_dir_degrees", "wind_dir_cardinal"}
    ensures r.Some? ==> var deg := WindDirection(reply).value;
                        r.value["wind_dir_degrees"] == Int(deg) && 0 <= deg <= 360 &&
                        r.value["wind_dir_cardinal"] == Text(Cardinal8(deg))
  {
    var deg := WindDirection(reply);
    if deg.None? then None
    else Some(map["wind_dir_degrees" := Int(deg.value),
                  "wind_dir_cardinal" := Text(Cardinal8(deg.value))])
  }

  // --------------------------------------------------------------- snapshot

  /** The readers' results in the order sensor_reader_loop calls them. */
  function Readings(bus: BusReplies, file: AqiFile, now: real): (rs: seq<Option<Reading>>)
    ensures |rs| == 6
  {
    [ReadEnvironment(bus.env), ReadUv(bus.uv), ReadAqi(file, now),
     ReadWindSpeed(bus.windSpeed), ReadWindDirection(bus.windDir), ReadRainfall(bus.rain)]
  }

  /** The snapshot of one connected cycle. */
  function CycleSnapshot(stamp: string, now: real, bus: BusReplies, file: AqiFile): Snapshot
  {
    MergeAll(map["timestamp" := Text(stamp)], Readings(bus, file, now))
  }

  /** Which reader supplies which key: the six readers' key sets are
      disjoint, and none of them supplies the timestamp. */
  lemma ReadersProvide(bus: BusReplies, file: AqiFile, now: real, k: string)
    ensures var rs := Readings(bus, file, now);
            (Provides(rs[0], k) <==> k in {"temperature", "humidity", "pressure"}) &&
            (Provides(rs[1], k) <==> k == "uv_index") &&
            (Provides(rs[2], k) <==> k in ReadAqi(file, now).value) &&
            (Provides(rs[3], k) <==> k == "wind_speed") &&
            (Provides(rs[4], k) <==> WindDirection(bus.windDir).Some? && k in {"wind_dir_degrees", "wind_dir_cardinal"}) &&
            (Provides(rs[5], k) <==> Holds(bus.rain, 1) && k == "rainfall")
  {
  }

  /** The keys of the AQI reader are pm2_5 and the other pollutants. */
  lemma AqiKeys(file: AqiFile, now: real)
    ensures ReadAqi(file, now).value.Keys <= {"co2", "pm2_5", "pm10", "carbon_monoxide", "nitrogen_dioxide",
                                              "sulphur_dioxide", "ozone"}
  {
  }

  /** A connected cycle's snapshot keeps its timestamp: no reader overwrites it. */
  lemma {:induction false} SnapshotTimestamp(stamp: string, now: real, bus: BusReplies, file: AqiFile)
    ensures var snap := CycleSnapshot(stamp, now, bus, file);
            "timestamp" in snap && snap["timestamp"] == Text(stamp)
  {
    var rs := Readings(bus, file, now);
    ReadersProvide(bus, file, now, "timestamp");
    AqiKeys(file, now);
    MergeUntouched(map["timestamp" := Text(stamp)], rs, "timestamp");
  }

  /** The environment fields of a cycle's snapshot come from the environment
      sensor's reply alone, whatever the other sensors do. */
  lemma {:induction false} SnapshotEnvironment(stamp: string, now: real, bus: BusReplies, file: AqiFile, k: string)
    requires k in {"temperature", "humidity", "pressure"}
    ensures var snap := CycleSnapshot(stamp, now, bus, file);
            k in snap && snap[k] == ReadEnvironment(bus.env).value[k]
  {
    var rs := Readings(bus, file, now);
    ReadersProvide(bus, file, now, k);
    AqiKeys(file, now);
    MergeLastWriter(map["timestamp" := Text(stamp)], rs, 0, k);
  }

  /** UV index, PM2.5 and wind speed are always in a cycle's snapshot, each
      from its own reader. */
  lemma {:induction false} SnapshotAlwaysPresent(stamp: string, now: real, bus: BusReplies, file: AqiFile)
    ensures var snap := CycleSnapshot(stamp, now, bus, file);
            "uv_index" in snap && snap["uv_index"] == ReadUv(bus.uv).value["uv_index"] &&
            "pm2_5" in snap && snap["pm2_5"] == ReadAqi(file, now).value["pm2_5"] &&
            "wind_speed" in snap && snap["wind_speed"] == ReadWindSpeed(bus.windSpeed).value["wind_speed"]
  {
    var base: Snapshot := map["timestamp" := Text(stamp)];
    var rs := Readings(bus, file, now);
    AqiKeys(file, now);
    ReadersProvide(bus, file, now, "uv_index");
    MergeLastWriter(base, rs, 1, "uv_index");
    ReadersProvide(bus, file, now, "pm2_5");
    MergeLastWriter(base, rs, 2, "pm2_5");
    ReadersProvide(bus, file, now, "wind_speed");
    MergeLastWriter(base, rs, 3, "wind_speed");
  }

  /** The wind direction is in a cycle's snapshot exactly when its reader
      accepts the reply. */
  lemma {:induction false} SnapshotWind(stamp: string, now: real, bus: BusReplies, file: AqiFile)
    ensures "wind_dir_degrees" in CycleSnapshot(stamp, now, bus, file) <==> WindDirection(bus.windDir).Some?
  {
    var base: Snapshot := map["timestamp" := Text(stamp)];
    var rs := Readings(bus, file, now);
    AqiKeys(file, now);
    ReadersProvide(bus, file, now, "wind_dir_degrees");
    if WindDirection(bus.windDir).Some? {
      MergeLastWriter(base, rs, 4, "wind_dir_degrees");
    } else {
      MergeUntouched(base, rs, "wind_dir_degrees");
    }
  }

  /** Rainfall is in a cycle's snapshot exactly when the gauge answers. */
  lemma {:induction false} SnapshotRain(stamp: string, now: real, bus: BusReplies, file: AqiFile)
    ensures "rainfall" in CycleSnapshot(stamp, now, bus, file) <==> Holds(bus.rain, 1)
  {
    var base: Snapshot := map["timestamp" := Text(stamp)];
    var rs := Readings(bus, file, now);
    AqiKeys(file, now);
    ReadersProvide(bus, file, now, "rainfall");
    if Holds(bus.rain, 1) {
      MergeLastWriter(base, rs, 5, "rainfall");
    } else {
      MergeUntouched(base, rs, "rainfall");
    }
  }

  // ---------------------------------------------------------------- banding

  /** get_aqi_state, as its if-chain is written. */
  function AqiState(aqi: Option<real>): (s: State)
    ensures aqi.None? <==> s == NotAvailable
  {
    if aqi.None? then NotAvailable
    else
      var x := aqi.value;
      if 0.0 <= x <= 50.0 then State("GOOD", "#39FF14")
      else if 50.0 < x <= 100.0 then State("MODERATE", "#FFFF00")
      else if 100.0 < x <= 150.0 then State("UNHEALTHY", "#FF7E00")
      else if 150.0 < x <= 200.0 then State("UNHEALTHY", "#FF0000")
      else if 200.0 < x <= 300.0 then State("VERY UNHEALTHY", "#8F3F97")
      else State("HAZARDOUS", "#7E0023")
  }

  /** get_uv_state, as its if-chain is written. */
  function UvState(uv: Option<real>): (s: State)
    ensures uv.None? <==> s == NotAvailable
  {
    if uv.None? then NotAvailable
    else
      var x := uv.value;
      if 0.0 <= x <= 2.0 then State("LOW", "#39FF14")
      else if 2.0 < x <= 5.0 then State("MODERATE", "#FFFF00")
      else if 5.0 < x <= 7.0 then State("HIGH", "#FF7E00")
      else if 7.0 < x <= 10.0 then State("VERY HIGH", "#FF0000")
      else State("EXTREME", "#8F3F97")
  }

  /** get_humidity_state, as its if-chain is written. */
  function HumidityState(humidity: Option<real>): (s: State)
    ensures humidity.None? <==> s == NotAvailable
  {
    if humidity.None? then NotAvailable
    else
      var x := humidity.value;
      if 0.0 <= x <= 30.0 then State("LOW", "#3EC1EC")
      else if 30.0 < x <= 50.0 then State("NORMAL", "#39FF14")
      else if 50.0 < x <= 60.0 then State("SLIGHTLY HIGH", "#FFFF00")
      else if 60.0 < x <= 70.0 then State("HIGH", "#FF7E00")
      else State("VERY HIGH", "#FF0000")
  }

  /** The AQI if-chain is contiguous banding: every value has exactly the
      state of the band table. */
  lemma {:induction false} AqiStateIsBanding(x: real)
    ensures AqiState(Some(x)) == Classify(AqiBands, AqiTop, x)
  {
    assert Ascending(AqiBands);
    if x < 0.0 {
    } else if x <= 50.0 {
      ClassifyIn(AqiBands, AqiTop, x, 0);
    } else if x <= 100.0 {
      ClassifyIn(AqiBands, AqiTop, x, 1);
    } else if x <= 150.0 {
      ClassifyIn(AqiBands, AqiTop, x, 2);
    } else if x <= 200.0 {
      ClassifyIn(AqiBands, AqiTop, x, 3);
    } else if x <= 300.0 {
      ClassifyIn(AqiBands, AqiTop, x, 4);
    } else {
      ClassifyAbove(AqiBands, AqiTop, x);
    }
  }

  lemma {:induction false} UvStateIsBanding(x: real)
    ensures UvState(Some(x)) == Classify(UvBands, UvTop, x)
  {
    assert Ascending(UvBands);
    if x < 0.0 {
    } else if x <= 2.0 {
      ClassifyIn(UvBands, UvTop, x, 0);
    } else if x <= 5.0 {
      ClassifyIn(UvBands, UvTop, x, 1);
    } else if x <= 7.0 {
      ClassifyIn(UvBands, UvTop, x, 2);
    } else if x <= 10.0 {
      ClassifyIn(UvBands, UvTop, x, 3);
    } else {
      ClassifyAbove(UvBands, UvTop, x);
    }
  }

  lemma {:induction false} HumidityStateIsBanding(x: real)
    ensures HumidityState(Some(x)) == Classify(HumidityBands, HumidityTop, x)
  {
    assert Ascending(HumidityBands);
    if x < 0.0 {
    } else if x <= 30.0 {
      ClassifyIn(HumidityBands, HumidityTop, x, 0);
    } else if x <= 50.0 {
      ClassifyIn(HumidityBands, HumidityTop, x, 1);
    } else if x <= 60.0 {
      ClassifyIn(HumidityBands, HumidityTop, x, 2);
    } else if x <= 70.0 {
      ClassifyIn(HumidityBands, HumidityTop, x, 3);
    } else {
      ClassifyAbove(HumidityBands, HumidityTop, x);
    }
  }

  /** A higher AQI never gets an earlier (milder) band. */
  lemma {:induction false} AqiBandMonotone(x: real, y: real)
    requires 0.0 <= x <= y
    ensures Position(AqiBands, x) <= Position(AqiBands, y)
  {
    PositionMonotone(AqiBands, x, y);
  }

  // --------------------------------------------------------------- rainfall

  /** The daily accumulator of process_rainfall. `Fresh` is the state before
      the first reading (no reset day recorded yet); `Tracking` holds the day
      of the month of the last reset, the day's total and the last raw value. */
  datatype RainState = Fresh(last: real) | Tracking(day: int, total: real, last: real)

  /** The new state, the returned total, and the previous day's total when a
      day change flushes it to the daily file. */
  datatype RainOutcome = RainOutcome(state: RainState, total: real, flushed: Option<real>)

  /** The rise of the gauge from one reading to the next; a drop is a sensor
      reset and adds nothing. */
  function Rise(prev: real, next: real): (d: real)
    ensures d >= 0.0 && (d == 0.0 || d == next - prev)
  {
    if next - prev >= 0.0 then next - prev else 0.0
  }

  /** One call of process_rainfall with a reading, on day `day` of the month. */
  function RainStep(s: RainState, raw: real, day: int): (o: RainOutcome)
    ensures o.state.Tracking? && o.state.day == day && o.state.last == raw
    ensures o.total == o.state.total
    ensures o.flushed.Some? <==> s.Tracking? && s.day != day
    ensures o.flushed.Some? ==> o.flushed.value == s.total
    ensures (s.Fresh? || s.day != day) ==> o.total == 0.0
    ensures s.Tracking? && s.day == day ==> o.total - s.total == Rise(s.last, raw)
  {
    if s.Fresh? || s.day != day then
      RainOutcome(Tracking(day, 0.0, raw), 0.0, if s.Tracking? then Some(s.total) else None)
    else
      var increment := raw - s.last;
      if increment >= 0.0 then RainOutcome(Tracking(day, s.total + increment, raw), s.total + increment, None)
      else RainOutcome(Tracking(day, s.total, raw), s.total, None)
  }

  /** The totals never go negative, and within one day never go down. */
  lemma RainStepMonotone(s: RainState, raw: real, day: int)
    requires s.Tracking? ==> s.total >= 0.0
    ensures RainStep(s, raw, day).total >= 0.0
    ensures s.Tracking? && s.day == day ==> RainStep(s, raw, day).total >= s.total
  {
  }

  /** Sum of the rises along consecutive readings. */
  function Rises(xs: seq<real>): (t: real)
    ensures t >= 0.0
    decreases |xs|
  {
    if |xs| <= 1 then 0.0
    else Rises(xs[..|xs| - 1]) + Rise(xs[|xs| - 2], xs[|xs| - 1])
  }

  /** Feeding readings xs one by one on the same day: the final state and
      the totals flushed on the way. */
  function RainRun(s: RainState, xs: seq<real>, day: int): (RainState, seq<real>)
    decreases |xs|
  {
    if xs == [] then (s, [])
    else
      var (t, flushed) := RainRun(s, xs[..|xs| - 1], day);
      var o := RainStep(t, xs[|xs| - 1], day);
      (o.state, flushed + (if o.flushed.Some? then [o.flushed.value] else []))
  }

  /** Starting a new day, the total after readings xs is the sum of the
      gauge's rises between them: drops (sensor resets) are skipped and the
      first reading only sets the baseline. */
  lemma {:induction false} DailyTotalIsSumOfRises(s: RainState, xs: seq<real>, day: int)
    requires xs != [] && (s.Fresh? || s.day != day)
    ensures RainRun(s, xs, day).0 == Tracking(day, Rises(xs), xs[|xs| - 1])
    decreases |xs|
  {
    var ys := xs[..|xs| - 1];
    if ys != [] {
      DailyTotalIsSumOfRises(s, ys, day);
      assert ys[..|ys| - 1] == xs[..|xs| - 2];
    }
  }

  /** A new day flushes the previous day's total exactly once, however many
      readings follow; readings within the day flush nothing. */
  lemma {:induction false} FlushOncePerDay(s: RainState, xs: seq<real>, day: int)
    requires s.Tracking?
    ensures xs != [] && s.day != day ==> RainRun(s, xs, day).1 == [s.total]
    ensures s.day == day ==> RainRun(s, xs, day).1 == []
    decreases |xs|
  {
    if xs != [] {
      FlushOncePerDay(s, xs[..|xs| - 1], day);
      if |xs| > 1 && s.day != day {
        DailyTotalIsSumOfRises(s, xs[..|xs| - 1], day);
      }
    }
  }

  /** The gauge reads 10.0, 10.3, 10.3, then resets to 9.0 and climbs to 9.5:
      the day's total goes 0.0, 0.3, 0.3, 0.3, 0.8. */
  lemma RainExample(day: int)
    ensures RainRun(Fresh(0.0), [10.0], day).0.total == 0.0
    ensures RainRun(Fresh(0.0), [10.0, 10.3], day).0.total == 0.3
    ensures RainRun(Fresh(0.0), [10.0, 10.3, 10.3], day).0.total == 0.3
    ensures RainRun(Fresh(0.0), [10.0, 10.3, 10.3, 9.0], day).0.total == 0.3
    ensures RainRun(Fresh(0.0), [10.0, 10.3, 10.3, 9.0, 9.5], day).0.total == 0.8
  {
    DailyTotalIsSumOfRises(Fresh(0.0), [10.0], day);
    DailyTotalIsSumOfRises(Fresh(0.0), [10.0, 10.3], day);
    DailyTotalIsSumOfRises(Fresh(0.0), [10.0, 10.3, 10.3], day);
    DailyTotalIsSumOfRises(Fresh(0.0), [10.0, 10.3, 10.3, 9.0], day);
    DailyTotalIsSumOfRises(Fresh(0.0), [10.0, 10.3, 10.3, 9.0, 9.5], day);
    assert [10.0, 10.3, 10.3, 9.0, 9.5][..4] == [10.0, 10.3, 10.3, 9.0];
    assert [10.0, 10.3, 10.3, 9.0][..3] == [10.0, 10.3, 10.3];
    assert [10.0, 10.3, 10.3][..2] == [10.0, 10.3];
    assert [10.0, 10.3][..1] == [10.0];
  }

  // ---------------------------------------------------------------- station

  /** The station object: the latest snapshot, the queue of snapshots due for
      the CSV file, the time of the last enqueue, and the rainfall fields
      that process_rainfall creates on first use. */
  class Station {
    var sensorData: Snapshot
    var dataQueue: seq<Snapshot>
    var lastCsvTime: real
    const csvInterval: real

    var hasResetDay: bool
    var lastRainResetDay: int
    var dailyRainTotal: real
    var lastRainValue: real
    /** The totals handed to store_daily_rainfall, oldest first. */
    ghost var storedTotals: seq<real>

    /** The accumulator state the rainfall fields stand for. */
    ghost function Rain(): RainState
      reads this
    {
      if hasResetDay then Tracking(lastRainResetDay, dailyRainTotal, lastRainValue)
      else Fresh(lastRainValue)
    }

    ghost predicate Valid()
      reads this
    {
      (hasResetDay ==> dailyRainTotal >= 0.0) &&
      (forall i :: 0 <= i < |dataQueue| ==> "timestamp" in dataQueue[i])
    }

    /** init_data_structures, with csv_interval from the configuration and
        the reader loop's first clock reading. */
    constructor (csvInterval: real, startTime: real)
      ensures Valid()
      ensures this.csvInterval == csvInterval && lastCsvTime == startTime
      ensures dataQueue == [] && storedTotals == [] && Rain() == Fresh(0.0)
      ensures sensorData.Keys == {"temperature", "humidity", "pressure", "uv_index", "wind_speed",
                                  "wind_direction", "rainfall", "aqi", "timestamp"}
      ensures forall k :: k in sensorData ==> sensorData[k] == Null
    {
      sensorData := map["temperature" := Null, "humidity" := Null, "pressure" := Null,
                        "uv_index" := Null, "wind_speed" := Null, "wind_direction" := Null,
                        "rainfall" := Null, "aqi" := Null, "timestamp" := Null];
      dataQueue := [];
      lastCsvTime := startTime;
      this.csvInterval := csvInterval;
      hasResetDay := false;
      lastRainResetDay := 0;
      dailyRainTotal := 0.0;
      lastRainValue := 0.0;
      storedTotals := [];
    }

    /** One pass of sensor_reader_loop. `connected` is what connect() returned;
        `now` is the clock when the interval is tested and `later` the clock
        read again after the enqueue. */
    method ReaderCycle(connected: bool, stamp: string, now: real, later: real,
                       bus: BusReplies, file: AqiFile)
      requires Valid()
      modifies this`sensorData, this`dataQueue, this`lastCsvTime
      ensures Valid()
      ensures !connected ==> sensorData == old(sensorData) && dataQueue == old(dataQueue) &&
                             lastCsvTime == old(lastCsvTime)
      ensures connected ==> sensorData == CycleSnapshot(stamp, now, bus, file)
      ensures connected && now - old(lastCsvTime) >= csvInterval ==>
                dataQueue == old(dataQueue) + [sensorData] && lastCsvTime == later
      ensures connected && now - old(lastCsvTime) < csvInterval ==>
                dataQueue == old(dataQueue) && lastCsvTime == old(lastCsvTime)
    {
      if !connected {
        return;
      }
      var current := MergeReadings(map["timestamp" := Text(stamp)], Readings(bus, file, now));
      SnapshotTimestamp(stamp, now, bus, file);
      sensorData := current;
      if now - lastCsvTime >= csvInterval {
        dataQueue := dataQueue + [current];
        lastCsvTime := later;
      }
    }

    /** process_rainfall on the display path, with `day` the day of the month
        of datetime.now(). */
    method ProcessRainfall(current: Option<real>, day: int) returns (total: Option<real>)
      requires Valid()
      modifies this`hasResetDay, this`lastRainResetDay, this`dailyRainTotal, this`lastRainValue,
               this`storedTotals
      ensures Valid()
      ensures current.None? ==> total.None? && Rain() == old(Rain()) && storedTotals == old(storedTotals)
      ensures current.Some? ==>
                var o := RainStep(old(Rain()), current.value, day);
                Rain() == o.state && total == Some(o.total) &&
                storedTotals == old(storedTotals) + (if o.flushed.Some? then [o.flushed.value] else [])
    {
      if current.None? {
        return None;
      }
      var raw := current.value;
      if !hasResetDay || day != lastRainResetDay {
        if hasResetDay {
          storedTotals := storedTotals + [dailyRainTotal];
        }
        lastRainResetDay := day;
        hasResetDay := true;
        dailyRainTotal := 0.0;
        lastRainValue := raw;
      }
      var increment := raw - lastRainValue;
      if increment >= 0.0 {
        dailyRainTotal := dailyRainTotal + increment;
        lastRainValue := raw;
      } else {
        lastRainValue := raw;
      }
      total := Some(dailyRainTotal);
    }
  }
}
