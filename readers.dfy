/**
 * Register decoders and the air-quality file lookup that the three programs
 * share. Each program wraps these with its own fallback policy: a reader
 * result is `None` where the Python reader returns None, and `Some(d)` where
 * it returns the dictionary d.
 */
module Readers {
  import opened Common

  /** v is the float that `raw` becomes when divided by `factor`. */
  predicate ScaledFrom(v: Value, raw: int, factor: real)
  {
    v.Num? && factor * v.r == raw as real
  }

  /** temperature, humidity and pressure from three registers, each raw / 10.0;
      None when the reply failed or holds fewer than three registers (the
      IndexError is caught like any other exception). */
  function EnvironmentValues(reply: Reply): (r: Option<Reading>)
    ensures r.Some? <==> Holds(reply, 3)
    ensures r.Some? ==> r.value.Keys == {"temperature", "humidity", "pressure"}
    ensures r.Some? ==> ScaledFrom(r.value["temperature"], reply.regs[0], 10.0)
    ensures r.Some? ==> ScaledFrom(r.value["humidity"], reply.regs[1], 10.0)
    ensures r.Some? ==> ScaledFrom(r.value["pressure"], reply.regs[2], 10.0)
  {
    if !Holds(reply, 3) then None
    else Some(map["temperature" := Num(reply.regs[0] as real / 10.0),
                  "humidity" := Num(reply.regs[1] as real / 10.0),
                  "pressure" := Num(reply.regs[2] as real / 10.0)])
  }

  /** read_uv_sensor: uv_index = raw / 100.0, and 0.0 on any failure. The
      same code stands in all three programs. */
  function ReadUv(reply: Reply): (r: Option<Reading>)
    ensures r.Some? && r.value.Keys == {"uv_index"}
    ensures Holds(reply, 1) ==> ScaledFrom(r.value["uv_index"], reply.regs[0], 100.0)
    ensures !Holds(reply, 1) ==> r.value["uv_index"] == Num(0.0)
  {
    if !Holds(reply, 1) then Some(map["uv_index" := Num(0.0)])
    else Some(map["uv_index" := Num(reply.regs[0] as real / 100.0)])
  }

  /** read_wind_speed: wind_speed = raw / 10.0 metres per second, and 0.0 on
      any failure. The same code stands in all three programs. */
  function ReadWindSpeed(reply: Reply): (r: Option<Reading>)
    ensures r.Some? && r.value.Keys == {"wind_speed"}
    ensures Holds(reply, 1) ==> ScaledFrom(r.value["wind_speed"], reply.regs[0], 10.0)
    ensures !Holds(reply, 1) ==> r.value["wind_speed"] == Num(0.0)
  {
    if !Holds(reply, 1) then Some(map["wind_speed" := Num(0.0)])
    else Some(map["wind_speed" := Num(reply.regs[0] as real / 10.0)])
  }

  /** read_rainfall: the gauge's running total, raw / 10.0 millimetres, and
      None on any failure. The same code stands in all three programs. */
  function ReadRainfall(reply: Reply): (r: Option<Reading>)
    ensures r.Some? <==> Holds(reply, 1)
    ensures r.Some? ==> r.value.Keys == {"rainfall"}
    ensures r.Some? ==> ScaledFrom(r.value["rainfall"], reply.regs[0], 10.0)
  {
    if !Holds(reply, 1) then None
    else Some(map["rainfall" := Num(reply.regs[0] as real / 10.0)])
  }

  /** Wind direction in whole degrees: round(((r0 + r2) / 2.0) / 10.0).
      Both divisions are exact in binary floating point at the only places
      where rounding could tie (r0 + r2 = 20k + 10), so this is exactly
      round-half-even of (r0 + r2) / 20. */
  function WindDegrees(r0: U16, r2: U16): (deg: int)
    ensures deg >= 0
    ensures -10 <= (r0 as int + r2 as int) - 20 * deg <= 10
    ensures deg <= 360 <==> r0 as int + r2 as int <= 7210
  {
    RoundHalfEven(r0 as int + r2 as int, 20)
  }

  /** The accepted wind direction of a reply: None when the reply failed,
      holds fewer than three registers, or rounds outside [0, 360]. Register 1
      is read by the bus request but never used. */
  function WindDirection(reply: Reply): (deg: Option<int>)
    ensures deg.Some? <==> Holds(reply, 3) && reply.regs[0] as int + reply.regs[2] as int <= 7210
    ensures deg.Some? ==> 0 <= deg.value <= 360 && deg.value == WindDegrees(reply.regs[0], reply.regs[2])
  {
    if !Holds(reply, 3) then None
    else
      var deg := WindDegrees(reply.regs[0], reply.regs[2]);
      if 0 <= deg <= 360 then Some(deg) else None
  }

  /** Register 1 has no influence on the wind direction. */
  lemma WindDirectionIgnoresRegister1(regs: seq<U16>, v: U16)
    requires |regs| >= 3
    ensures WindDirection(Ok(regs[1 := v])) == WindDirection(Ok(regs))
  {
  }

  const Compass16: seq<string> :=
    ["N", "NNE", "NE", "ENE", "E", "ESE", "SE", "SSE",
     "S", "SSW", "SW", "WSW", "W", "WNW", "NW", "NNW"]

  /** round(deg / 22.5) % 16 for a whole number of degrees: the index of the
      16-point compass point nearest to deg. In quarter degrees a sector is 90
      wide, so the named point is at most half a sector (45) away. */
  function Sector16(deg: int): (i: nat)
    ensures i < 16
    ensures CircleGap(4 * deg, 90 * i, 1440) <= 45
  {
    var k := RoundHalfEven(2 * deg, 45);
    var i, q := k % 16, k / 16;
    assert 90 * k == 90 * i + 1440 * q;
    CircleGapWithin(4 * deg, 90 * i, 1440, q, 4 * deg - 90 * k);
    i
  }

  /** _degrees_to_cardinal of multi_awos.py and awos_new.py: "Unknown" for
      None or anything outside [0, 360], else the nearest of 16 points. */
  function Cardinal16(deg: Option<int>): (c: string)
    ensures c == "Unknown" <==> deg.None? || !(0 <= deg.value <= 360)
    ensures c != "Unknown" ==> c == Compass16[Sector16(deg.value)]
  {
    if deg.None? || !(0 <= deg.value <= 360) then "Unknown"
    else Compass16[Sector16(deg.value)]
  }

  lemma Cardinal16Examples()
    ensures Cardinal16(Some(0)) == "N" && Cardinal16(Some(11)) == "N"
    ensures Cardinal16(Some(12)) == "NNE" && Cardinal16(Some(180)) == "S"
    ensures Cardinal16(Some(359)) == "N" && Cardinal16(Some(360)) == "N"
    ensures Cardinal16(Some(361)) == "Unknown" && Cardinal16(None) == "Unknown"
  {
  }

  /** read_wind_direction of multi_awos.py and awos_new.py: the accepted
      direction and its 16-point name. */
  function ReadWindDirection16(reply: Reply): (r: Option<Reading>)
    ensures r.Some? <==> WindDirection(reply).Some?
    ensures r.Some? ==> r.value.Keys == {"wind_dir_degrees", "wind_dir_cardinal"}
    ensures r.Some? ==> var deg := WindDirection(reply).value;
                        r.value["wind_dir_degrees"] == Int(deg) && 0 <= deg <= 360 &&
                        r.value["wind_dir_cardinal"] == Text(Cardinal16(Some(deg))) &&
                        Cardinal16(Some(deg)) != "Unknown"
  {
    var deg := WindDirection(reply);
    if deg.None? then None
    else Some(map["wind_dir_degrees" := Int(deg.value),
                  "wind_dir_cardinal" := Text(Cardinal16(deg))])
  }

  /** One row of the air-quality reference file; `date` is seconds on the
      same clock as the lookup time. */
  datatype AqiRow = AqiRow(date: real, co2: real, pm2_5: real, pm10: real,
                           carbonMonoxide: real, nitrogenDioxide: real,
                           sulphurDioxide: real, ozone: real)

  /** The reference file: absent, or present with its rows (possibly none). */
  datatype AqiFile = Missing | Present(rows: seq<AqiRow>)

  /** The index of a row whose date is nearest to `now`. pandas' argsort does
      not say which of several equally near rows comes first; this picks the
      first. */
  function Nearest(rows: seq<AqiRow>, now: real): (i: nat)
    requires |rows| > 0
    ensures i < |rows|
    ensures forall j :: 0 <= j < |rows| ==> Abs(rows[i].date - now) <= Abs(rows[j].date - now)
    decreases |rows|
  {
    if |rows| == 1 then 0
    else
      var k := Nearest(rows[1..], now) + 1;
      if Abs(rows[0].date - now) <= Abs(rows[k].date - now) then 0 else k
  }

  /** The dictionary built from the chosen row. */
  function RowReading(row: AqiRow): (r: Reading)
    ensures "pm2_5" in r && r["pm2_5"] == Num(row.pm2_5)
    ensures r.Keys == {"co2", "pm2_5", "pm10", "carbon_monoxide", "nitrogen_dioxide", "sulphur_dioxide", "ozone"}
  {
    map["co2" := Num(row.co2), "pm2_5" := Num(row.pm2_5), "pm10" := Num(row.pm10),
        "carbon_monoxide" := Num(row.carbonMonoxide),
        "nitrogen_dioxide" := Num(row.nitrogenDioxide),
        "sulphur_dioxide" := Num(row.sulphurDioxide), "ozone" := Num(row.ozone)]
  }

  /** The nearest-row lookup of read_aqi_sensor, with None where the file is
      missing or holds no rows (EmptyDataError, or IndexError from argsort()[0]). */
  function AqiLookup(file: AqiFile, now: real): (r: Option<Reading>)
    ensures r.Some? <==> file.Present? && |file.rows| > 0
    ensures r.Some? ==> exists i :: 0 <= i < |file.rows| && r.value == RowReading(file.rows[i])
                          && forall j :: 0 <= j < |file.rows| ==>
                               Abs(file.rows[i].date - now) <= Abs(file.rows[j].date - now)
  {
    if file.Missing? || |file.rows| == 0 then None
    else Some(RowReading(file.rows[Nearest(file.rows, now)]))
  }
}
