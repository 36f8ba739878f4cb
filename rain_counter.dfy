/**
 * The rainfall filter of multi_awos.py and awos_new.py (the two bodies are
 * the same): a reading that stays within `threshold` of the previous output
 * counts as "no rain"; after `resetTime` such readings in a row the output is
 * forced to 0 and the count starts again.
 */
module RainCounter {
  import opened Common

  /** last_rain_value and no_rain_counter. */
  datatype CounterState = CounterState(last: real, count: int)

  datatype CounterOutcome = CounterOutcome(state: CounterState, out: real)

  /** The state before the first reading: both fields start at 0. */
  const InitialCounter: CounterState := CounterState(0.0, 0)

  /** The counter invariant: never negative and, for a positive reset time,
      below it. */
  predicate CounterOk(s: CounterState, resetTime: int)
  {
    0 <= s.count && (resetTime >= 1 ==> s.count < resetTime)
  }

  /** One call of process_rainfall with a reading. */
  function CounterStep(s: CounterState, raw: real, threshold: real, resetTime: int): (o: CounterOutcome)
    ensures o.out == raw || o.out == 0.0
    ensures o.state.last == o.out
    ensures Abs(raw - s.last) >= threshold ==> o.state.count == 0 && o.out == raw
    ensures Abs(raw - s.last) < threshold && s.count + 1 < resetTime ==>
              o.out == raw && o.state.count == s.count + 1
    ensures Abs(raw - s.last) < threshold && s.count + 1 >= resetTime ==>
              o.out == 0.0 && o.state.count == 0
  {
    if Abs(raw - s.last) < threshold then
      var count := s.count + 1;
      if count >= resetTime then CounterOutcome(CounterState(0.0, 0), 0.0)
      else CounterOutcome(CounterState(raw, count), raw)
    else CounterOutcome(CounterState(raw, 0), raw)
  }

  /** Every call keeps the counter within [0, resetTime). */
  lemma CounterStepKeepsOk(s: CounterState, raw: real, threshold: real, resetTime: int)
    requires CounterOk(s, resetTime)
    ensures CounterOk(CounterStep(s, raw, threshold, resetTime).state, resetTime)
  {
  }

  /** The outputs of feeding readings xs one by one, and the final state. */
  function CounterRun(s: CounterState, xs: seq<real>, threshold: real, resetTime: int): (r: (CounterState, seq<real>))
    ensures |r.1| == |xs|
    decreases |xs|
  {
    if xs == [] then (s, [])
    else
      var o := CounterStep(s, xs[0], threshold, resetTime);
      var rest := CounterRun(o.state, xs[1..], threshold, resetTime);
      (rest.0, [o.out] + rest.1)
  }

  /** A reading repeated n times. */
  function Steady(x: real, n: nat): (xs: seq<real>)
    ensures |xs| == n && forall i :: 0 <= i < n ==> xs[i] == x
  {
    if n == 0 then [] else [x] + Steady(x, n - 1)
  }

  /** A gauge that keeps reading x, starting from output x with c steady
      readings already counted, shows x for resetTime - c - 1 more readings
      and then 0: however much rain the gauge holds, the display drops to 0. */
  lemma {:induction false} SteadyReadingsForceZero(x: real, c: int, threshold: real, resetTime: int)
    requires threshold > 0.0 && 0 <= c < resetTime
    ensures var n := resetTime - c;
            CounterRun(CounterState(x, c), Steady(x, n), threshold, resetTime) ==
              (CounterState(0.0, 0), Steady(x, n - 1) + [0.0])
    decreases resetTime - c
  {
    var n := resetTime - c;
    if c + 1 < resetTime {
      SteadyReadingsForceZero(x, c + 1, threshold, resetTime);
      assert Steady(x, n)[1..] == Steady(x, n - 1);
      assert [x] + (Steady(x, n - 2) + [0.0]) == Steady(x, n - 1) + [0.0];
    } else {
      assert Steady(x, n) == [x] && Steady(x, n - 1) == [];
      assert Steady(x, n)[1..] == [];
      assert Steady(x, n - 1) + [0.0] == [0.0];
      var o := CounterStep(CounterState(x, c), x, threshold, resetTime);
      assert o == CounterOutcome(CounterState(0.0, 0), 0.0);
      var rest := CounterRun(o.state, [], threshold, resetTime);
      assert [o.out] + rest.1 == [0.0];
      assert CounterRun(CounterState(x, c), [x], threshold, resetTime) == (CounterState(0.0, 0), [0.0]);
    }
  }

  /** A gauge that changes by at least the threshold at every reading is
      passed through unchanged. */
  lemma {:induction false} RainingPassesThrough(s: CounterState, xs: seq<real>, threshold: real, resetTime: int)
    requires |xs| > 0 ==> Abs(xs[0] - s.last) >= threshold
    requires forall i :: 0 < i < |xs| ==> Abs(xs[i] - xs[i - 1]) >= threshold
    ensures CounterRun(s, xs, threshold, resetTime).1 == xs
    decreases |xs|
  {
    if xs != [] {
      var o := CounterStep(s, xs[0], threshold, resetTime);
      RainingPassesThrough(o.state, xs[1..], threshold, resetTime);
    }
  }
}
