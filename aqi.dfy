/**
 * calculate_aqi of awos.py and multi_awos.py (the two bodies are the same):
 * the US EPA AQI equation over the pre-2024 PM2.5 breakpoints, with the two
 * top segments merged into 250.5 - 500.4 -> 301 - 500 and extrapolated past
 * both ends.
 */
module Aqi {
  import opened Common

  function CalculateAqi(pm2_5: real): (aqi: real)
    ensures pm2_5 <= 12.0 ==> aqi <= 50.0
    ensures 0.0 <= pm2_5 ==> 0.0 <= aqi
    ensures 12.0 < pm2_5 <= 35.4 ==> 50.7 < aqi <= 100.0
    ensures 35.4 < pm2_5 <= 55.4 ==> 100.7 < aqi <= 150.0
    ensures 55.4 < pm2_5 <= 150.4 ==> 150.9 < aqi <= 200.0
    ensures 150.4 < pm2_5 <= 250.4 ==> 200.9 < aqi <= 300.0
    ensures 250.4 < pm2_5 ==> 300.9 < aqi
  {
    if pm2_5 <= 12.0 then (pm2_5 / 12.0) * 50.0
    else if pm2_5 <= 35.4 then ((pm2_5 - 12.1) / (35.4 - 12.1)) * (100.0 - 51.0) + 51.0
    else if pm2_5 <= 55.4 then ((pm2_5 - 35.5) / (55.4 - 35.5)) * (150.0 - 101.0) + 101.0
    else if pm2_5 <= 150.4 then ((pm2_5 - 55.5) / (150.4 - 55.5)) * (200.0 - 151.0) + 151.0
    else if pm2_5 <= 250.4 then ((pm2_5 - 150.5) / (250.4 - 150.5)) * (300.0 - 201.0) + 201.0
    else ((pm2_5 - 250.5) / (500.4 - 250.5)) * (500.0 - 301.0) + 301.0
  }

  /** None maps to None. */
  function AqiOf(pm2_5: Option<real>): (aqi: Option<real>)
    ensures aqi.None? <==> pm2_5.None?
    ensures aqi.Some? ==> aqi.value == CalculateAqi(pm2_5.value)
  {
    if pm2_5.None? then None else Some(CalculateAqi(pm2_5.value))
  }

  /** The breakpoints of the table land on the index values it names. */
  lemma Breakpoints()
    ensures CalculateAqi(0.0) == 0.0
    ensures CalculateAqi(12.0) == 50.0 && CalculateAqi(12.1) == 51.0
    ensures CalculateAqi(35.4) == 100.0 && CalculateAqi(35.5) == 101.0
    ensures CalculateAqi(55.4) == 150.0 && CalculateAqi(55.5) == 151.0
    ensures CalculateAqi(150.4) == 200.0 && CalculateAqi(150.5) == 201.0
    ensures CalculateAqi(250.4) == 300.0 && CalculateAqi(250.5) == 301.0
    ensures CalculateAqi(500.4) == 500.0
  {
  }

  /** The segment of the table that pm2_5 falls in. */
  function Segment(pm2_5: real): (s: nat)
    ensures s < 6
  {
    if pm2_5 <= 12.0 then 0
    else if pm2_5 <= 35.4 then 1
    else if pm2_5 <= 55.4 then 2
    else if pm2_5 <= 150.4 then 3
    else if pm2_5 <= 250.4 then 4
    else 5
  }

  /** Within one segment the equation has a positive slope. */
  lemma {:induction false} IncreasingWithinSegment(p: real, q: real)
    requires p < q && Segment(p) == Segment(q)
    ensures CalculateAqi(p) < CalculateAqi(q)
  {
  }

  /** Over the reals the index strictly increases with PM2.5: every segment
      has a positive slope and every jump between segments is upward. */
  lemma {:induction false} StrictlyIncreasing(p: real, q: real)
    requires p < q
    ensures CalculateAqi(p) < CalculateAqi(q)
  {
    if Segment(p) == Segment(q) {
      IncreasingWithinSegment(p, q);
    }
  }
}
