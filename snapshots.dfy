/**
 * Building a snapshot from the reader results of one cycle, and shaping a
 * queued snapshot into a CSV row.
 */
module Snapshots {
  import opened Common

  /** current_data.update(data) guarded by `if data:` — None and the empty
      dictionary change nothing; otherwise the reader's keys overwrite. */
  function Absorb(snap: Snapshot, data: Option<Reading>): Snapshot
  {
    if data.Some? && data.value != map[] then snap + data.value else snap
  }

  /** The snapshot after the readers' results have been absorbed in order. */
  function MergeAll(base: Snapshot, results: seq<Option<Reading>>): Snapshot
    decreases |results|
  {
    if results == [] then base
    else Absorb(MergeAll(base, results[..|results| - 1]), results[|results| - 1])
  }

  /** The reader result `data` supplies key k. */
  predicate Provides(data: Option<Reading>, k: string)
  {
    data.Some? && k in data.value
  }

  /** The for loop of sensor_reader_loop that grows current_data. */
  method MergeReadings(base: Snapshot, results: seq<Option<Reading>>) returns (current: Snapshot)
    ensures current == MergeAll(base, results)
  {
    current := base;
    for i := 0 to |results|
      invariant current == MergeAll(base, results[..i])
    {
      assert results[..i + 1][..i] == results[..i];
      var data := results[i];
      if data.Some? && data.value != map[] {
        current := current + data.value;
      }
    }
    assert results[..|results|] == results;
  }

  /** A key that no reader supplies keeps its value from the base, or stays absent. */
  lemma {:induction false} MergeUntouched(base: Snapshot, results: seq<Option<Reading>>, k: string)
    requires forall j :: 0 <= j < |results| ==> !Provides(results[j], k)
    ensures (k in MergeAll(base, results)) == (k in base)
    ensures k in base ==> MergeAll(base, results)[k] == base[k]
    decreases |results|
  {
    if results != [] {
      MergeUntouched(base, results[..|results| - 1], k);
    }
  }

  /** The last reader that supplies k decides its value in the snapshot. */
  lemma {:induction false} MergeLastWriter(base: Snapshot, results: seq<Option<Reading>>, j: nat, k: string)
    requires j < |results| && Provides(results[j], k)
    requires forall i :: j < i < |results| ==> !Provides(results[i], k)
    ensures k in MergeAll(base, results) && MergeAll(base, results)[k] == results[j].value[k]
    decreases |results|
  {
    var n := |results| - 1;
    if j < n {
      MergeLastWriter(base, results[..n], j, k);
    }
  }

  /** The snapshot holds exactly the base's keys and those some reader supplies. */
  lemma {:induction false} MergeKeys(base: Snapshot, results: seq<Option<Reading>>, k: string)
    ensures k in MergeAll(base, results) <==>
            k in base || exists j :: 0 <= j < |results| && Provides(results[j], k)
    decreases |results|
  {
    if results != [] {
      var n := |results| - 1;
      MergeKeys(base, results[..n], k);
      if exists j :: 0 <= j < n && Provides(results[..n][j], k) {
        var j :| 0 <= j < n && Provides(results[..n][j], k);
        assert Provides(results[j], k);
      }
      if exists j :: 0 <= j < |results| && Provides(results[j], k) {
        var j :| 0 <= j < |results| && Provides(results[j], k);
        if j < n {
          assert Provides(results[..n][j], k);
        }
      }
    }
  }

  /** A reader that fails (returns None) changes no key it would not have
      supplied: the other readers' fields are intact. */
  lemma {:induction false} MergeIsolatesFailure(base: Snapshot, results: seq<Option<Reading>>, j: nat, k: string)
    requires j < |results| && !Provides(results[j], k)
    ensures (k in MergeAll(base, results[j := None])) == (k in MergeAll(base, results))
    ensures k in MergeAll(base, results) ==> MergeAll(base, results[j := None])[k] == MergeAll(base, results)[k]
    decreases |results|
  {
    var n := |results| - 1;
    var failed := results[j := None];
    if j < n {
      assert failed[..n] == results[..n][j := None];
      MergeIsolatesFailure(base, results[..n], j, k);
    } else {
      assert failed[..n] == results[..n];
    }
  }

  /** The sixteen columns of the daily CSV file, in header order. */
  const CsvHeader: seq<string> :=
    ["timestamp", "temperature", "humidity", "pressure", "uv_index",
     "co2", "formaldehyde", "tvoc", "pm2_5", "pm10",
     "aqi_temperature", "aqi_humidity",
     "wind_speed", "wind_dir_degrees", "wind_dir_cardinal",
     "rainfall"]

  /** A CSV cell: a snapshot value, or '' for a key the snapshot lacks. */
  datatype Cell = Field(v: Value) | Blank

  /** data.get(key, '') */
  function Get(data: Snapshot, key: string): Cell
  {
    if key in data then Field(data[key]) else Blank
  }

  /** The row csv_writer_loop writes for one queued snapshot; None where
      data['timestamp'] raises KeyError and the row is not written. */
  function CsvRow(data: Snapshot): (row: Option<seq<Cell>>)
    ensures row.Some? <==> "timestamp" in data
    ensures row.Some? ==> |row.value| == |CsvHeader| && row.value[0] == Field(data["timestamp"])
    ensures row.Some? ==> forall i :: 0 <= i < |CsvHeader| ==>
                            (row.value[i] == Blank <==> CsvHeader[i] !in data)
    ensures row.Some? ==> forall i :: 0 <= i < |CsvHeader| && CsvHeader[i] in data ==>
                            row.value[i] == Field(data[CsvHeader[i]])
  {
    if "timestamp" !in data then None
    else Some(seq(|CsvHeader|, i requires 0 <= i < |CsvHeader| => Get(data, CsvHeader[i])))
  }
}
