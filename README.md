# Weather-station sensor decoding, derived metrics and acquisition cycle

This project models the sensor core of three near-duplicate Python programs
for an automated weather observation station (AWOS):

- `awos.py`, the single-window station;
- `multi_awos.py`, the multi-window station. It has a `DataManager`, a
  `sensors_connected` flag and a `GUIManager` that switches between a night
  display and two day displays;
- `awos_assit_code/awos_new.py`, the newer single-window station.

Each program has its own Dafny module (`Awos`, `MultiAwos`, `AwosNew`),
because the three disagree in small ways that can be checked. The code they
share sits in modules of its own:

- `Common`: bus replies and registers, snapshot values, and Python's `round`
  (half to even).
- `Readers`: the register decoders, the wind rule, the 16-point compass and
  the nearest-row AQI lookup. The decoders of `multi_awos.py` and
  `awos_new.py` are line for line the same.
- `Snapshots`: the ordered merge of reader results into a snapshot, and the
  16-column CSV row.
- `Aqi`: the PM2.5 to AQI equation.
- `Bands`: contiguous banding, a value against ascending upper bounds, and
  the colour tables of `awos.py` and `multi_awos.py`.
- `RainCounter`: the "no-change counter" rainfall filter of `multi_awos.py`
  and `awos_new.py`.
- `DisplaySelection`: the display-selection rule of `GUIManager`.

A Modbus bus reply is `Err | Ok(regs)`, with 16-bit registers. `Err` also
stands for a reply whose read raised. A reader that indexes past a short
register list raises `IndexError`, which the reader catches, so that case
takes the same fallback as `Err`.

Sensor values are exact reals. Wind degrees are exact integers: every
`round` in the wind code is evaluated exactly as Python does it.

What changes state keeps the programs' own shape:

- Each station object (`Awos.Station`, `MultiAwos.DataManager`,
  `AwosNew.Station`) is a class. Its fields are the snapshot, the CSV queue
  (a `seq`), the time of the last enqueue and the rainfall state.
- One pass of `sensor_reader_loop` is a method with the clock and the bus
  replies as parameters.
- The snapshot is built by a loop that folds the six reader results into
  `{timestamp}` in order.
- The `for` loop of `handle_day_display` is a method proved against a
  specification function.

Where the description of the system and the code differ, the model follows
the code:

- The AQI equation jumps upward at each breakpoint (12.0 to 12.1 maps 50 to
  51); it is not continuous.
- `awos.py` uses an 8-point compass and the other two a 16-point compass.
- The daily rainfall total of `awos.py` starts at 0 on the first reading of
  a day, whatever the gauge shows.

## Model

| member | source | states |
|---|---|---|
| Common.RoundHalfEven | awos.py:804 | Python's `round(n/d)`: the result is within half a unit of n/d, and an exact tie goes to the even neighbour |
| Common.RoundHalfEvenUnique | awos.py:804 | that rounding is the only integer with those two properties |
| Readers.EnvironmentValues | multi_awos.py:287-304 | present iff the reply holds three registers; temperature, humidity and pressure are registers 0..2 divided by 10 |
| Readers.ReadUv | multi_awos.py:306-319 | always present; register 0 divided by 100 on success, 0.0 on an error or a short reply |
| Readers.ReadWindSpeed | multi_awos.py:350-363 | always present; register 0 divided by 10 on success, 0.0 otherwise |
| Readers.ReadRainfall | multi_awos.py:400-413 | present iff the reply holds a register; register 0 divided by 10 |
| Readers.WindDegrees | multi_awos.py:375-378 | the degrees are the rounded mean of registers 0 and 2 over 10, and at most 360 iff r0+r2 <= 7210 |
| Readers.WindDirection | multi_awos.py:365-387 | a direction is accepted iff the reply holds three registers and r0+r2 <= 7210; it then lies in [0,360] |
| Readers.WindDirectionIgnoresRegister1 | multi_awos.py:375-378 | register 1 has no influence on the direction |
| Readers.Sector16 | multi_awos.py:397 | the 16-point index is below 16 and its bearing lies within 11.25 degrees of deg on the circle |
| Readers.Cardinal16 | multi_awos.py:389-398 | "Unknown" iff the degrees are missing or outside [0,360]; otherwise the 16-point name of the nearest sector |
| Readers.Cardinal16Examples | multi_awos.py:389-398 | 0 and 11 give N, 12 gives NNE, 180 gives S, 359 and 360 give N, 361 and None give Unknown |
| Readers.ReadWindDirection16 | multi_awos.py:365-387 | present iff a direction is accepted; it holds the degrees and their 16-point name, which is never "Unknown" |
| Readers.Nearest | multi_awos.py:332 | the chosen row's date is at least as close to now as every other row's |
| Readers.RowReading | multi_awos.py:333-341 | the seven pollutant fields of a row, with pm2_5 as read |
| Readers.AqiLookup | multi_awos.py:321-348 | present iff the file exists and has rows; then it is the reading of a row nearest to now |
| Snapshots.MergeReadings | multi_awos.py:191-198 | the loop leaves the same snapshot as folding every present reader result into the base, in order |
| Snapshots.MergeUntouched | multi_awos.py:191-198 | a key no reader provides keeps its base value, or stays absent |
| Snapshots.MergeLastWriter | multi_awos.py:191-198 | a key holds the value of the last reader that provides it |
| Snapshots.MergeKeys | multi_awos.py:191-198 | a key is in the snapshot iff it is in the base or some reader provides it |
| Snapshots.MergeIsolatesFailure | multi_awos.py:191-198 | a reader that fails does not change any key it does not provide |
| Snapshots.CsvRow | multi_awos.py:239-266 | a row exists iff the snapshot has a timestamp; it has the 16 header columns, the timestamp first, each present key's value in its column and '' where the key is absent |
| Aqi.CalculateAqi | awos.py:869-888 | each PM2.5 segment maps into its AQI range: up to 50, (50.7,100], (100.7,150], (150.9,200], (200.9,300], above 300.9; a non-negative input gives a non-negative AQI |
| Aqi.AqiOf | awos.py:871-872 | None maps to None; otherwise the equation |
| Aqi.Breakpoints | awos.py:875-886 | 0 gives 0; 12.0 gives 50 and 12.1 gives 51, through to 250.4 giving 300, 250.5 giving 301 and 500.4 giving 500 |
| Aqi.IncreasingWithinSegment | awos.py:875-886 | within one segment a larger PM2.5 gives a larger AQI |
| Aqi.StrictlyIncreasing | awos.py:875-886 | over all reals a larger PM2.5 gives a larger AQI, because every jump at a breakpoint is upward |
| Bands.Position | awos.py:1152-1168 | the first band whose upper bound is at least x: every earlier bound lies below x |
| Bands.PositionExact | awos.py:1152-1168 | with ascending bounds, a value in (upper[i-1], upper[i]] lands in band i |
| Bands.PositionMonotone | awos.py:1152-1168 | a larger value never lands in an earlier band |
| Bands.ClassifyIn | awos.py:1152-1168 | a non-negative value in (upper[i-1], upper[i]] gets band i's state |
| Bands.ClassifyAbove | awos.py:1152-1168 | a value above the last bound gets the top state |
| Awos.ReadEnvironment | awos.py:733-747 | always present with the three keys; the scaled registers on success, all three 0.0 otherwise |
| Awos.EnvironmentFallbackLooksLikeZeros | awos.py:738-747 | a failed read cannot be told apart from a sensor reading all zeros |
| Awos.ReadAqi | awos.py:759-783 | always holds pm2_5; exactly {pm2_5: 0.0} iff the file is missing or empty, else the nearest-row reading |
| Awos.Sector8 | awos.py:820 | the 8-point index is below 8 and its bearing lies within 22 degrees of deg on the circle |
| Awos.Cardinal8 | awos.py:816-820 | the name of that 8-point sector |
| Awos.Cardinal8Examples | awos.py:816-820 | 0 and 22 give N, 23 gives NE, 180 gives S, 337 gives NW, 338 and 360 give N |
| Awos.ReadWindDirection | awos.py:795-814 | present iff a direction is accepted; it holds the degrees and their 8-point name |
| Awos.ReadersProvide | awos.py:910-917 | which snapshot keys each of the six readers provides, by reply |
| Awos.AqiKeys | awos.py:765-783 | the AQI reader provides only pollutant keys |
| Awos.SnapshotTimestamp | awos.py:907-921 | the snapshot keeps the cycle's timestamp |
| Awos.SnapshotEnvironment | awos.py:907-921 | the environment keys always carry the environment reader's values, zeros on failure |
| Awos.SnapshotAlwaysPresent | awos.py:907-921 | uv_index, pm2_5 and wind_speed are in every snapshot |
| Awos.SnapshotWind | awos.py:907-921 | the wind keys are present iff a direction is accepted |
| Awos.SnapshotRain | awos.py:907-921 | rainfall is present iff the rainfall reply holds a register |
| Awos.AqiState | awos.py:1152-1168 | N/A exactly for a missing AQI |
| Awos.UvState | awos.py:1170-1184 | N/A exactly for a missing UV index |
| Awos.HumidityState | awos.py:1186-1200 | N/A exactly for a missing humidity |
| Awos.AqiStateIsBanding | awos.py:1152-1168 | the AQI if-chain is contiguous banding over 50, 100, 150, 200, 300: each non-negative value gets one band, and negatives get HAZARDOUS |
| Awos.UvStateIsBanding | awos.py:1170-1184 | the UV if-chain is contiguous banding over 2, 5, 7, 10, with EXTREME above and below |
| Awos.HumidityStateIsBanding | awos.py:1186-1200 | the humidity if-chain is contiguous banding over 30, 50, 60, 70, with VERY HIGH above and below |
| Awos.AqiBandMonotone | awos.py:1152-1168 | a larger non-negative AQI never lands in an earlier band |
| Awos.Rise | awos.py:859-865 | an increment is added only when non-negative |
| Awos.RainStep | awos.py:846-867 | a new day flushes the previous total (if any), restarts at 0 and re-baselines; the same day adds only the non-negative rise |
| Awos.RainStepMonotone | awos.py:859-866 | the total stays non-negative and never decreases within a day |
| Awos.DailyTotalIsSumOfRises | awos.py:852-866 | after a day's readings the total is the sum of their non-negative rises |
| Awos.FlushOncePerDay | awos.py:852-854 | a day change flushes exactly once, with the old total; the same day flushes nothing |
| Awos.RainExample | awos.py:846-867 | raw 10.0, 10.3, 10.3, 9.0, 9.5 gives totals 0, 0.3, 0.3, 0.3, 0.8 |
| Awos.Station.constructor | awos.py:212-232 | every sensor key starts as None and the queue starts empty |
| Awos.Station.ReaderCycle | awos.py:898-929 | a connect failure changes nothing; otherwise the snapshot is the ordered merge, and it is queued iff the interval has passed, with the second clock reading kept |
| Awos.Station.ProcessRainfall | awos.py:846-867 | None changes nothing; otherwise one rainfall step, whose flush is appended to the stored totals |
| RainCounter.CounterStep | multi_awos.py:139-151 | the output is the input or 0 and becomes the last value; a near-identical reading counts, a change resets the count, and reaching the reset time outputs 0 and resets |
| RainCounter.CounterStepKeepsOk | multi_awos.py:143-150 | the count stays in [0, reset time) |
| RainCounter.CounterRun | multi_awos.py:139-151 | one output per reading |
| RainCounter.SteadyReadingsForceZero | multi_awos.py:143-147 | a gauge that holds still shows its value until the count reaches the reset time, and then 0 |
| RainCounter.RainingPassesThrough | multi_awos.py:148-151 | readings that keep changing by at least the threshold pass through unchanged |
| MultiAwos.SocketClosedPublishesTimestampOnly | multi_awos.py:176-181 | a cycle that finds the socket closed publishes only the timestamp |
| MultiAwos.DisconnectedPlaceholders | multi_awos.py:199-217 | while disconnected every sensor key is published, as None unless the AQI file provides it |
| MultiAwos.ReadersProvide | multi_awos.py:183-190 | which snapshot keys each of the six readers provides, by reply |
| MultiAwos.SnapshotEnvironment | multi_awos.py:183-198 | the environment keys are present iff the environment reply holds three registers |
| MultiAwos.SnapshotTimestamp | multi_awos.py:175-198 | the snapshot keeps the cycle's timestamp |
| MultiAwos.AqiState | multi_awos.py:585-601 | N/A exactly for a missing AQI |
| MultiAwos.UvState | multi_awos.py:603-617 | N/A exactly for a missing UV index |
| MultiAwos.HumidityState | multi_awos.py:619-633 | N/A exactly for a missing humidity |
| MultiAwos.AqiStateGaps | multi_awos.py:585-601 | outside the 0.1-wide gaps the chain is the contiguous banding; inside a gap it gives HAZARDOUS |
| MultiAwos.UvStateGaps | multi_awos.py:603-617 | the same for UV, with EXTREME inside a gap |
| MultiAwos.HumidityStateGaps | multi_awos.py:619-633 | the same for humidity, with VERY HIGH inside a gap |
| MultiAwos.ComputedAqiAvoidsGaps | multi_awos.py:153-168 | the equation never yields an AQI in a gap, so computed AQIs are banded contiguously |
| MultiAwos.HumidityReadingsAvoidGaps | multi_awos.py:299 | a humidity decoded from a register never falls in a gap |
| MultiAwos.UvGapExample | multi_awos.py:316 | UV register 205 reads 2.05 and is shown as EXTREME, where the contiguous chain says MODERATE |
| MultiAwos.UvCorrected | multi_awos.py:603-617 | the contiguous chain agrees outside the gaps and never gives EXTREME within [0,10] |
| MultiAwos.DataManager.constructor | multi_awos.py:31-57 | the connection flag is init_modbus's outcome, every sensor key starts as None, and the counter starts at 0 |
| MultiAwos.DataManager.ReaderCycle | multi_awos.py:170-223 | the flag only stays true or falls, never rises; the snapshot follows the flag and socket state; it is queued iff the interval has passed |
| MultiAwos.DataManager.ProcessRainfall | multi_awos.py:139-151 | None changes nothing; otherwise one counter step, keeping the counter invariant |
| MultiAwos.DataManager.TakeRow | multi_awos.py:229-266 | the oldest queued snapshot leaves the queue and becomes its CSV row |
| DisplaySelection.PyMod | multi_awos.py:795 | Python's float `%`: for a positive cycle, the position lies in [0, cycle) |
| DisplaySelection.PyModPeriodic | multi_awos.py:795 | shifting by a whole cycle leaves the position unchanged |
| DisplaySelection.ChooseDay | multi_awos.py:796-802 | the first slot whose cumulative end lies beyond the position, or 0 when there is none |
| DisplaySelection.DayIndex | multi_awos.py:796-802 | the loop returns the index ChooseDay specifies |
| DisplaySelection.TwoDisplays | multi_awos.py:796-802 | with two slots, day1 iff the position is before d1 or past the cycle's end |
| DisplaySelection.DayAlternation | multi_awos.py:793-802 | with a positive cycle, day1 iff (elapsed mod (d1+d2)) < d1, and the choice repeats every cycle |
| DisplaySelection.GuiManager.constructor | multi_awos.py:747-756 | no display is up and the cycle starts at the given clock |
| DisplaySelection.GuiManager.HandleNightDisplay | multi_awos.py:778-784 | the night display is up afterwards; one is created only if it was not up |
| DisplaySelection.GuiManager.HandleDayDisplay | multi_awos.py:786-807 | a zero cycle raises and changes nothing; otherwise the chosen day display is up, created only if it was not |
| DisplaySelection.GuiManager.CheckDisplayTime | multi_awos.py:759-776 | outside [sunrise, sunset) the night display is up, created only if it was not; inside, the day handler raises iff the cycle is zero, and otherwise the display ChooseDay picks is up, created only if it was not |
| AwosNew.CycleSnapshot | awos_assit_code/awos_new.py:498-520 | the snapshot keeps the cycle's timestamp |
| AwosNew.SnapshotEnvironment | awos_assit_code/awos_new.py:498-520 | a connected cycle publishes what a connected multi_awos.py cycle publishes; environment keys are present iff that reply holds three registers |
| AwosNew.AqiState | awos_assit_code/awos_new.py:785-800 | N/A exactly for a missing AQI |
| AwosNew.UvState | awos_assit_code/awos_new.py:802-815 | N/A exactly for a missing UV index |
| AwosNew.HumidityState | awos_assit_code/awos_new.py:817-830 | N/A exactly for a missing humidity |
| AwosNew.AqiStateGaps | awos_assit_code/awos_new.py:785-800 | outside the unit-wide gaps between whole-number ranges the chain is contiguous banding; inside one it gives HAZARDOUS |
| AwosNew.UvStateGaps | awos_assit_code/awos_new.py:802-815 | the same for UV, with EXTREME inside a gap |
| AwosNew.HumidityStateGaps | awos_assit_code/awos_new.py:817-830 | the same for humidity, with VERY HIGH inside a gap |
| AwosNew.HumidityGapExample | awos_assit_code/awos_new.py:817-830 | humidity register 305 reads 30.5 and is shown as VERY HIGH; the corrected chain says NORMAL |
| AwosNew.UvGapExample | awos_assit_code/awos_new.py:802-815 | UV register 250 reads 2.5 and is shown as EXTREME; the corrected chain says MODERATE |
| AwosNew.AqiGapExample | awos_assit_code/awos_new.py:785-800 | the chain maps AQI 50.5 to HAZARDOUS where the corrected chain says MODERATE; in this program the chain only ever receives None |
| AwosNew.AqiStateCorrected | awos_assit_code/awos_new.py:785-800 | N/A exactly for a missing AQI |
| AwosNew.UvStateCorrected | awos_assit_code/awos_new.py:802-815 | N/A exactly for a missing UV index |
| AwosNew.HumidityStateCorrected | awos_assit_code/awos_new.py:817-830 | N/A exactly for a missing humidity |
| AwosNew.AqiStateCorrectedIsBanding | awos_assit_code/awos_new.py:785-800 | the corrected chain is contiguous banding and never HAZARDOUS within [0,300] |
| AwosNew.UvStateCorrectedIsBanding | awos_assit_code/awos_new.py:802-815 | the corrected chain is contiguous banding and never EXTREME within [0,10] |
| AwosNew.HumidityStateCorrectedIsBanding | awos_assit_code/awos_new.py:817-830 | the corrected chain is contiguous banding and never VERY HIGH within [0,70] |
| AwosNew.CorrectedAgreesOnWholeNumbers | awos_assit_code/awos_new.py:785-830 | on whole numbers the corrected chains agree with the written ones |
| AwosNew.NumberAt | awos_assit_code/awos_new.py:869 | a snapshot value is a number iff the key is present with a numeric value |
| AwosNew.StateDisplays | awos_assit_code/awos_new.py:866-880 | update_state_displays taken on its own: humidity is set first; a truthy PM2.5 makes the AQI line raise, so UV is not set either; otherwise AQI shows N/A (DisplayUpdate shows the call is never reached with a truthy PM2.5) |
| AwosNew.DisplayUpdate | awos_assit_code/awos_new.py:846-861 | the parser loop runs before the states; a truthy PM2.5 (the AQI parser at line 442) or a None wind speed raises and no state is refreshed, humidity included; otherwise humidity and UV are banded and AQI shows N/A |
| AwosNew.DisplayUpdateExample | awos_assit_code/awos_new.py:846-861 | PM2.5 35.0 refreshes no state; PM2.5 0.0 refreshes all three, AQI as N/A |
| AwosNew.CycleWindSpeedParses | awos_assit_code/awos_new.py:422 | after a connected cycle the wind-speed parser never raises |
| AwosNew.CyclePmStopsStateRefresh | awos_assit_code/awos_new.py:442 | after a connected cycle whose AQI file rows all have a non-zero PM2.5, the display update refreshes no state |
| AwosNew.StateDisplaysCorrected | awos_assit_code/awos_new.py:866-880 | every state is set; AQI is N/A iff PM2.5 is missing or 0 |
| AwosNew.StateDisplaysCorrectedAqi | awos_assit_code/awos_new.py:873-876 | a positive PM2.5 is shown in the contiguous band of its AQI |
| AwosNew.DisplayUpdateCorrected | awos_assit_code/awos_new.py:846-861 | with calculate_aqi in place only an unparsable wind speed skips the states, and otherwise all three are set |
| AwosNew.CycleRefreshesCorrected | awos_assit_code/awos_new.py:846-880 | with calculate_aqi in place every connected cycle refreshes all three states, a positive PM2.5 in the band of its AQI |
| AwosNew.Station.constructor | awos_assit_code/awos_new.py:216-234 | every sensor key starts as None and the counter starts at 0 |
| AwosNew.Station.ReaderCycle | awos_assit_code/awos_new.py:487-526 | a connect failure changes nothing; otherwise the snapshot is the ordered merge, queued iff the interval has passed, and then the enqueue time is now |
| AwosNew.Station.ProcessRainfall | awos_assit_code/awos_new.py:448-462 | None changes nothing; otherwise one counter step, keeping the counter invariant |
| AwosNew.Station.TakeRow | awos_assit_code/awos_new.py:725-769 | the oldest queued snapshot leaves the queue and becomes its CSV row |

## Left out

- All tkinter presentation is left out, as are the formatting lambdas,
  `log_sensor_data` and `get_datetime_info`. This covers canvases, widgets,
  `update_display`, the mapping mode, the pause and resume timers, and window
  creation and withdrawal. Only the states chosen by
  `update_display` and `update_state_displays` of `awos_new.py` are
  modelled.
- The pymodbus client is left out. Register replies are parameters, and
  connect or socket outcomes are booleans.
- Threads, the `running` flag, sleeps and joins are left out. One loop
  iteration is a method, and `queue.Queue` is a `seq`.
- File I/O is left out: CSV appends, `store_daily_rainfall` (kept only as a
  ghost list of flushed totals), logging and its rotation, and the sun-data
  read.
- The `csv_writer_loop` of `awos.py` is left out. It merges stale values by
  wall clock, and most of its header keys never match snapshot keys.
- pandas `read_csv` and `to_datetime` are left out. The AQI file is given
  as rows with numeric dates.
- Readers.Nearest: argsort's choice among equally near rows is not
  modelled; any nearest row is accepted.
- A date column that pandas cannot parse or subtract is left out. This
  includes timezone-aware dates, since `awos_new.py` drops the
  `tz_localize` step. Such a file raises and gives the missing-file
  fallback.
- IEEE floating point is left out, and values are exact reals. Python can
  differ at exact boundaries. For example, `0.3 - 0.2 < 0.1` holds in the
  rainfall counter, and band or AQI boundary comparisons can flip the same
  way.
- The clock and day of month are parameters (`now`, `day`).
- The time of the last enqueue is a field of each station. In the programs
  it is a local of `sensor_reader_loop`, set from the clock when the loop
  starts.
- DisplaySelection.PyMod: the sign of the result for a negative cycle is
  not stated. Durations are configuration values, and only a positive cycle
  is reasoned about.
- DisplaySelection.GuiManager.constructor: the closing
  `check_display_time` call is not part of the constructor. A caller makes
  that call as a separate step.
- The display-selection rule takes the times of day as numbers. Parsing
  `'%H:%M'` strings is not part of this model.
- AwosNew.DisplayUpdate: only the states are its result. The widget texts
  are left out, and so is the rainfall parser's call of `process_rainfall`.
  That call is a state change of its own, modelled by
  `AwosNew.Station.ProcessRainfall`. The other parsers are taken not to
  raise on the values the readers produce.

## Findings

| source | as written | input that shows it | evidently intended | confidence | as-written member | corrected member |
|---|---|---|---|---|---|---|
| multi_awos.py:603-617 | UV ranges are closed with 0.1 gaps, so values strictly between 2 and 2.1 (also 5–5.1, 7–7.1) fall to EXTREME | UV register 205, read as 2.05, is shown as EXTREME | contiguous bands with exclusive lower bounds, as in awos.py | high, not executed | MultiAwos.UvGapExample | MultiAwos.UvCorrected |
| awos_assit_code/awos_new.py:817-830 | humidity ranges are whole-number closed ranges, so values strictly between 30 and 31 (also 50–51, 60–61) fall to VERY HIGH | humidity register 305, read as 30.5 %, is shown as VERY HIGH | contiguous bands: 30.5 % is NORMAL | high, not executed | AwosNew.HumidityGapExample | AwosNew.HumidityStateCorrectedIsBanding |
| awos_assit_code/awos_new.py:802-815 | UV ranges are whole-number closed ranges, so values strictly between 2 and 3 (also 5–6, 7–8) fall to EXTREME | UV register 250, read as 2.5, is shown as EXTREME | contiguous bands: 2.5 is MODERATE | high, not executed | AwosNew.UvGapExample | AwosNew.UvStateCorrectedIsBanding |
| awos_assit_code/awos_new.py:785-800 | AQI ranges are whole-number closed ranges, so an AQI strictly between 50 and 51 (also 100–101, 150–151, 200–201) falls to HAZARDOUS | AQI 50.5 is banded HAZARDOUS; the gap is latent in this program, because calculate_aqi is missing and the chain only ever receives None | contiguous bands: 50.5 is MODERATE | medium, not executed | AwosNew.AqiGapExample | AwosNew.AqiStateCorrectedIsBanding |
| awos_assit_code/awos_new.py:442 | `calculate_aqi` is commented out (lines 464-477) but still called, by the AQI parser and by the AQI state line (874), whenever pm2_5 is truthy. The parser raises first, inside update_display's try, so no state is refreshed, humidity included | after a connected cycle whose AQI file has a PM2.5 of 35.0, no state is refreshed | every state refreshed, with the AQI of the reading banded | high, not executed | AwosNew.CyclePmStopsStateRefresh | AwosNew.CycleRefreshesCorrected |
