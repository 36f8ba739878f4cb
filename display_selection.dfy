/**
 * The display-selection rule of multi_awos.py's GUIManager: the night
 * display outside [sunrise, sunset), and by day the two day displays in
 * turn, each for its configured duration, timed from the moment the manager
 * was created.
 */
module DisplaySelection {
  import opened Common

  datatype Display = Night | Day1 | Day2

  /** The day displays in the order of their durations. */
  const DayDisplays: seq<Display> := [Day1, Day2]

  /** Python's float `%`: a - b * floor(a / b), which takes the sign of b.
      A zero b raises ZeroDivisionError; callers check for it. */
  function PyMod(a: real, b: real): (m: real)
    requires b != 0.0
    ensures b > 0.0 ==> 0.0 <= m < b
  {
    var f := (a / b).Floor;
    FloorRemainder(a, b, f);
    a - b * (f as real)
  }

  /** a - b * floor(a / b) lies in [0, b) for a positive b. */
  lemma FloorRemainder(a: real, b: real, f: int)
    requires b != 0.0 && f == (a / b).Floor
    ensures b > 0.0 ==> 0.0 <= a - b * (f as real) < b
  {
    if b > 0.0 {
      var q := a / b;
      assert b * q == a;
      assert f as real <= q < f as real + 1.0;
      MulLeft(b, f as real, q);
      MulLeftStrict(b, q, f as real + 1.0);
      assert b * (f as real + 1.0) == b * (f as real) + b;
      assert a < b * (f as real) + b;
    }
  }

  /** Multiplying by a positive factor keeps the order. */
  lemma MulLeft(b: real, x: real, y: real)
    requires b > 0.0 && x <= y
    ensures b * x <= b * y
  {
    assert b * y - b * x == b * (y - x);
  }

  lemma MulLeftStrict(b: real, x: real, y: real)
    requires b > 0.0 && x < y
    ensures b * x < b * y
  {
    assert b * y - b * x == b * (y - x);
  }

  /** A product with a positive factor is zero only when the other factor is. */
  lemma ZeroFactor(b: real, x: real)
    requires b > 0.0 && b * x == 0.0
    ensures x == 0.0
  {
    if x > 0.0 {
      MulLeftStrict(b, 0.0, x);
    } else if x < 0.0 {
      MulLeftStrict(b, x, 0.0);
    }
  }

  /** Shifting by whole cycles does not change the position in the cycle. */
  lemma {:induction false} PyModPeriodic(a: real, b: real)
    requires b > 0.0
    ensures PyMod(a + b, b) == PyMod(a, b)
  {
    var q, q2 := a / b, (a + b) / b;
    assert b * q == a && b * q2 == a + b;
    assert b * (q2 - q - 1.0) == 0.0;
    ZeroFactor(b, q2 - q - 1.0);
    var f := q.Floor;
    assert (f + 1) as real <= q2 < (f + 1) as real + 1.0;
    assert q2.Floor == f + 1;
    assert b * ((f + 1) as real) == b * (f as real) + b;
  }

  /** The sum of the first i durations. */
  function Cumulative(ds: seq<real>, i: nat): real
    requires i <= |ds|
  {
    if i == 0 then 0.0 else Cumulative(ds, i - 1) + ds[i - 1]
  }

  /** Position pos falls before the end of slot i. */
  predicate Covers(ds: seq<real>, pos: real, i: nat)
  {
    i < |ds| && pos < Cumulative(ds, i + 1)
  }

  /** The first slot from k on whose end lies beyond pos, or 0 if none does. */
  function ChooseFrom(ds: seq<real>, pos: real, k: nat): (i: nat)
    requires k <= |ds|
    ensures (exists j :: k <= j && Covers(ds, pos, j)) ==>
              k <= i && Covers(ds, pos, i) && forall j :: k <= j < i ==> !Covers(ds, pos, j)
    ensures (forall j :: k <= j ==> !Covers(ds, pos, j)) ==> i == 0
    decreases |ds| - k
  {
    if k == |ds| then 0
    else if pos < Cumulative(ds, k + 1) then k
    else ChooseFrom(ds, pos, k + 1)
  }

  /** The index handle_day_display picks: the first slot whose cumulative end
      lies beyond pos, and 0 when there is none. */
  function ChooseDay(ds: seq<real>, pos: real): (i: nat)
    ensures (exists j :: Covers(ds, pos, j)) ==>
              Covers(ds, pos, i) && forall j :: 0 <= j < i ==> !Covers(ds, pos, j)
    ensures (forall j :: !Covers(ds, pos, j)) ==> i == 0
  {
    ChooseFrom(ds, pos, 0)
  }

  /** The for loop of handle_day_display over the durations. */
  method DayIndex(ds: seq<real>, pos: real) returns (index: nat)
    ensures index == ChooseDay(ds, pos)
  {
    index := 0;
    var cumulative := 0.0;
    var i := 0;
    while i < |ds|
      invariant i <= |ds|
      invariant cumulative == Cumulative(ds, i)
      invariant ChooseFrom(ds, pos, i) == ChooseDay(ds, pos)
    {
      cumulative := cumulative + ds[i];
      if pos < cumulative {
        index := i;
        break;
      }
      i := i + 1;
    }
  }

  /** With two displays, the first is chosen exactly when pos lies before the
      end of its slot or beyond the end of the cycle. */
  lemma TwoDisplays(d1: real, d2: real, pos: real)
    ensures ChooseDay([d1, d2], pos) == 0 <==> pos < d1 || d1 + d2 <= pos
  {
    assert Cumulative([d1, d2], 1) == d1;
    assert Cumulative([d1, d2], 2) == d1 + d2;
    if pos < d1 {
      assert Covers([d1, d2], pos, 0);
    } else if pos < d1 + d2 {
      assert Covers([d1, d2], pos, 1);
    }
  }

  /** By day, with a positive cycle, the first day display is chosen exactly
      when the position in the cycle is below its duration; the choice
      repeats every cycle. */
  lemma {:induction false} DayAlternation(d1: real, d2: real, elapsed: real)
    requires d1 + d2 > 0.0
    ensures ChooseDay([d1, d2], PyMod(elapsed, d1 + d2)) == 0 <==> PyMod(elapsed, d1 + d2) < d1
    ensures ChooseDay([d1, d2], PyMod(elapsed + (d1 + d2), d1 + d2)) ==
            ChooseDay([d1, d2], PyMod(elapsed, d1 + d2))
  {
    TwoDisplays(d1, d2, PyMod(elapsed, d1 + d2));
    PyModPeriodic(elapsed, d1 + d2);
  }

  /** Daytime is [sunrise, sunset), times of day in seconds since midnight. */
  predicate IsDaytime(sunrise: real, sunset: real, time: real)
  {
    sunrise <= time < sunset
  }

  /** The selection part of GUIManager: which display is up, when the day
      cycle started, the two day durations, and (as a ghost record) the
      displays created so far. */
  class GuiManager {
    var currentDisplay: Option<Display>
    const toggleTimeStart: real
    const durations: seq<real>
    ghost var created: seq<Display>

    /** __init__ without its closing check_display_time call. */
    constructor (toggleTimeStart: real, day1Duration: real, day2Duration: real)
      ensures currentDisplay.None? && created == []
      ensures this.toggleTimeStart == toggleTimeStart && durations == [day1Duration, day2Duration]
    {
      currentDisplay := None;
      this.toggleTimeStart := toggleTimeStart;
      durations := [day1Duration, day2Duration];
      created := [];
    }

    /** handle_night_display: switch to the night display unless it is up. */
    method HandleNightDisplay()
      modifies this`currentDisplay, this`created
      ensures currentDisplay == Some(Night)
      ensures created == old(created) + (if old(currentDisplay) == Some(Night) then [] else [Night])
    {
      if currentDisplay != Some(Night) {
        currentDisplay := Some(Night);
        created := created + [Night];
      }
    }

    /** handle_day_display at clock `now`; `ok` is false where the modulo by
        a zero cycle raises, and then nothing changes. */
    method HandleDayDisplay(now: real) returns (ok: bool)
      requires |durations| == 2
      modifies this`currentDisplay, this`created
      ensures ok <==> durations[0] + durations[1] != 0.0
      ensures !ok ==> currentDisplay == old(currentDisplay) && created == old(created)
      ensures ok ==>
                var want := DayDisplays[ChooseDay(durations, PyMod(now - toggleTimeStart, durations[0] + durations[1]))];
                currentDisplay == Some(want) &&
                created == old(created) + (if old(currentDisplay) == Some(want) then [] else [want])
    {
      var elapsed := now - toggleTimeStart;
      var totalCycle := durations[0] + durations[1];
      if totalCycle == 0.0 {
        return false;
      }
      var cyclePosition := PyMod(elapsed, totalCycle);
      var currentIndex := DayIndex(durations, cyclePosition);
      var want := DayDisplays[currentIndex];
      if currentDisplay != Some(want) {
        currentDisplay := Some(want);
        created := created + [want];
      }
      ok := true;
    }

    /** check_display_time: `sunrise`, `sunset` and `time` are times of day,
        `now` the clock; `ok` is false where the day handler raised. */
    method CheckDisplayTime(sunrise: real, sunset: real, time: real, now: real) returns (ok: bool)
      requires |durations| == 2
      modifies this`currentDisplay, this`created
      ensures !IsDaytime(sunrise, sunset, time) ==> ok && currentDisplay == Some(Night)
      ensures !IsDaytime(sunrise, sunset, time) ==>
                created == old(created) + (if old(currentDisplay) == Some(Night) then [] else [Night])
      ensures IsDaytime(sunrise, sunset, time) ==> (ok <==> durations[0] + durations[1] != 0.0)
      ensures IsDaytime(sunrise, sunset, time) && ok ==> currentDisplay != Some(Night)
      ensures IsDaytime(sunrise, sunset, time) && ok ==>
                var want := DayDisplays[ChooseDay(durations, PyMod(now - toggleTimeStart, durations[0] + durations[1]))];
                currentDisplay == Some(want) &&
                created == old(created) + (if old(currentDisplay) == Some(want) then [] else [want])
      ensures IsDaytime(sunrise, sunset, time) && !ok ==>
                currentDisplay == old(currentDisplay) && created == old(created)
    {
      if IsDaytime(sunrise, sunset, time) {
        ok := HandleDayDisplay(now);
      } else {
        HandleNightDisplay();
        ok := true;
      }
    }
  }
}
