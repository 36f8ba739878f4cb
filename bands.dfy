/**
 * Categorical banding as a table: a reference definition that the if-chains
 * of the get_*_state functions are compared against. A table lists bands by
 * increasing upper bound; a value lands in the first band whose upper bound
 * is at least the value, so the bands are contiguous with exclusive lower
 * bounds. Negative values and values above the last band get the `top` state,
 * as the final `else` of every if-chain does.
 */
module Bands {

  /** A (label, colour) pair as the display shows it. */
  datatype State = State(name: string, colour: string)

  const NotAvailable: State := State("N/A", "#FFFFFF")

  datatype Band = Band(upper: real, state: State)

  predicate Ascending(bands: seq<Band>)
  {
    forall i, j :: 0 <= i < j < |bands| ==> bands[i].upper < bands[j].upper
  }

  /** The index of the first band whose upper bound is at least x, or |bands|. */
  function Position(bands: seq<Band>, x: real): (i: nat)
    ensures i <= |bands|
    ensures forall j :: 0 <= j < i ==> bands[j].upper < x
    ensures i < |bands| ==> x <= bands[i].upper
    decreases |bands|
  {
    if bands == [] || x <= bands[0].upper then 0
    else 1 + Position(bands[1..], x)
  }

  /** The state of a non-negative value under contiguous banding. */
  function Classify(bands: seq<Band>, top: State, x: real): State
  {
    if x < 0.0 then top
    else
      var i := Position(bands, x);
      if i < |bands| then bands[i].state else top
  }

  /** With ascending bounds, a value in (upper[i-1], upper[i]] lands in band i
      and in no other. */
  lemma {:induction false} PositionExact(bands: seq<Band>, x: real, i: nat)
    requires Ascending(bands) && i < |bands|
    requires i == 0 || bands[i - 1].upper < x
    requires x <= bands[i].upper
    ensures Position(bands, x) == i
  {
    assert forall j :: 0 <= j < i ==> bands[j].upper < x;
  }

  /** A larger value never lands in an earlier band. */
  lemma {:induction false} PositionMonotone(bands: seq<Band>, x: real, y: real)
    requires x <= y
    ensures Position(bands, x) <= Position(bands, y)
  {
    var p := Position(bands, y);
    if p < |bands| {
      assert x <= bands[p].upper;
    }
  }

  /** Classify lands in band i exactly for values in (upper[i-1], upper[i]]. */
  lemma ClassifyIn(bands: seq<Band>, top: State, x: real, i: nat)
    requires Ascending(bands) && i < |bands| && 0.0 <= x
    requires i == 0 || bands[i - 1].upper < x
    requires x <= bands[i].upper
    ensures Classify(bands, top, x) == bands[i].state
  {
    PositionExact(bands, x, i);
  }

  /** Values above the last upper bound get the top state. */
  lemma ClassifyAbove(bands: seq<Band>, top: State, x: real)
    requires Ascending(bands) && |bands| > 0 && bands[|bands| - 1].upper < x
    ensures Classify(bands, top, x) == top
  {
    assert forall j :: 0 <= j < |bands| ==> bands[j].upper < x;
  }

  /** The table awos.py and multi_awos.py use for AQI. */
  const AqiBands: seq<Band> :=
    [Band(50.0, State("GOOD", "#39FF14")),
     Band(100.0, State("MODERATE", "#FFFF00")),
     Band(150.0, State("UNHEALTHY", "#FF7E00")),
     Band(200.0, State("UNHEALTHY", "#FF0000")),
     Band(300.0, State("VERY UNHEALTHY", "#8F3F97"))]
  const AqiTop: State := State("HAZARDOUS", "#7E0023")

  /** The table awos.py and multi_awos.py use for the UV index. */
  const UvBands: seq<Band> :=
    [Band(2.0, State("LOW", "#39FF14")),
     Band(5.0, State("MODERATE", "#FFFF00")),
     Band(7.0, State("HIGH", "#FF7E00")),
     Band(10.0, State("VERY HIGH", "#FF0000"))]
  const UvTop: State := State("EXTREME", "#8F3F97")

  /** The table awos.py and multi_awos.py use for relative humidity. */
  const HumidityBands: seq<Band> :=
    [Band(30.0, State("LOW", "#3EC1EC")),
     Band(50.0, State("NORMAL", "#39FF14")),
     Band(60.0, State("SLIGHTLY HIGH", "#FFFF00")),
     Band(70.0, State("HIGH", "#FF7E00"))]
  const HumidityTop: State := State("VERY HIGH", "#FF0000")
}
