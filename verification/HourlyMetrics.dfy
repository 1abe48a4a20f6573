/** The hourly metrics row: an average, a minimum and a maximum kept incrementally inside one statement. */
module HourlyMetrics {
  datatype Key = Key(hour: string, jobType: string)

  datatype Row = Row(processed: nat, succeeded: nat, failed: nat, avg: real, min: real, max: real)

  function First(ms: real): Row {
    Row(1, 1, 0, ms, ms, ms)
  }

  function Merged(r: Row, ms: real): Row {
    var avg := (r.avg * (r.processed as real) + ms) / ((r.processed + 1) as real);
    Row(r.processed + 1, r.succeeded + 1, r.failed, avg,
        if ms < r.min then ms else r.min, if ms > r.max then ms else r.max)
  }

  /** INSERT ... ON CONFLICT(hour, job_type) DO UPDATE for a job that succeeded after `ms`. */
  function Upsert(rows: map<Key, Row>, k: Key, ms: real): map<Key, Row> {
    rows[k := if k in rows then Merged(rows[k], ms) else First(ms)]
  }

  class Metrics {
    var rows: map<Key, Row>

    ghost var samples: seq<Sample>

    /** The table is what the recorded samples make of an empty one. */
    ghost predicate Valid()
      reads this
    {
      rows == UpsertAll(map[], samples)
    }

    constructor ()
      ensures Valid() && samples == []
    {
      rows, samples := map[], [];
    }

    /** Afterwards the row of the key summarizes all its durations, this one included. */
    method UpsertJobMetricsHourly(hour: string, jobType: string, ms: real)
      requires Valid()
      modifies this
      ensures Valid() && samples == old(samples) + [Sample(Key(hour, jobType), ms)]
      ensures For(samples, Key(hour, jobType)) == old(For(samples, Key(hour, jobType))) + [ms]
      ensures Key(hour, jobType) in rows && Summarizes(rows[Key(hour, jobType)], For(samples, Key(hour, jobType)))
    {
      var k := Key(hour, jobType);
      if k !in rows {
        rows := rows[k := First(ms)];
      } else {
        rows := rows[k := Merged(rows[k], ms)];
      }
      assert (samples + [Sample(k, ms)])[..|samples|] == samples;
      samples := samples + [Sample(k, ms)];
      RowSummarizesItsDurations(samples);
    }
  }

  datatype Sample = Sample(k: Key, ms: real)

  function UpsertAll(rows: map<Key, Row>, ss: seq<Sample>): map<Key, Row> {
    if ss == [] then rows else Upsert(UpsertAll(rows, ss[..|ss| - 1]), ss[|ss| - 1].k, ss[|ss| - 1].ms)
  }

  /** The durations recorded under one key. */
  function For(ss: seq<Sample>, k: Key): seq<real> {
    if ss == [] then [] else
      var front := For(ss[..|ss| - 1], k);
      if ss[|ss| - 1].k == k then front + [ss[|ss| - 1].ms] else front
  }

  function Sum(ds: seq<real>): real {
    if ds == [] then 0.0 else Sum(ds[..|ds| - 1]) + ds[|ds| - 1]
  }

  ghost predicate Summarizes(r: Row, ds: seq<real>) {
    && ds != []
    && r.processed == r.succeeded == |ds| && r.failed == 0
    && r.avg * |ds| as real == Sum(ds)
    && (forall d :: d in ds ==> r.min <= d <= r.max)
    && r.min in ds && r.max in ds
  }

  lemma MeanGoesOn(avg: real, n: real, ms: real)
    requires n > 0.0
    ensures (avg * n + ms) / (n + 1.0) * (n + 1.0) == avg * n + ms
  {
  }

  lemma MergingKeepsSummary(r: Row, ds: seq<real>, ms: real)
    requires Summarizes(r, ds)
    ensures Summarizes(Merged(r, ms), ds + [ms])
  {
    assert (ds + [ms])[..|ds|] == ds;
    MeanGoesOn(r.avg, |ds| as real, ms);
    assert (ds + [ms])[|ds|] == ms;
    assert r.min in ds + [ms] && r.max in ds + [ms];
  }

  /** After any successes of any hours and types, the row of a key holds the count, the true mean, the
      minimum and the maximum of exactly the durations recorded under it. */
  lemma {:induction false} RowSummarizesItsDurations(ss: seq<Sample>)
    ensures forall k :: var rows, ds := UpsertAll(map[], ss), For(ss, k);
      (k in rows <==> ds != []) && (k in rows ==> Summarizes(rows[k], ds))
  {
    if ss != [] {
      var n := |ss| - 1;
      RowSummarizesItsDurations(ss[..n]);
      forall k: Key
        ensures var rows, ds := UpsertAll(map[], ss), For(ss, k);
          (k in rows <==> ds != []) && (k in rows ==> Summarizes(rows[k], ds))
      {
        if ss[n].k == k {
          var before := UpsertAll(map[], ss[..n]);
          if k in before {
            MergingKeepsSummary(before[k], For(ss[..n], k), ss[n].ms);
          } else {
            OneDuration(ss[n].ms);
            assert For(ss, k) == [ss[n].ms];
          }
        }
      }
    }
  }

  lemma OneDuration(ms: real)
    ensures Summarizes(First(ms), [ms])
  {
    assert [ms][..0] == [];
    assert Sum([ms]) == ms;
  }
}
