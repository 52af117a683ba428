/**
 * The grouping loop of the backend's `/api/timeseries` handler: it walks the
 * query rows (ordered by timestamp), records each timestamp once, and
 * appends every row's five readings to the lists of its source when that
 * source is `standard` or `enhanced`.
 */
module Timeseries {
  import opened Common

  /** A nullable REAL or INTEGER column. */
  type Reading = Option<real>

  /** One query row: `timestamp, source, rssi, snr, latency, datarate, compression_ratio`. */
  datatype Row = Row(
    timestamp: string,
    source: string,
    rssi: Reading,
    snr: Reading,
    latency: Reading,
    datarate: Reading,
    compressionRatio: Reading)

  /** The five parallel lists kept for one source. */
  datatype SourceSeries = SourceSeries(
    rssi: seq<Reading>,
    snr: seq<Reading>,
    latency: seq<Reading>,
    datarate: seq<Reading>,
    compressionRatio: seq<Reading>)
  {
    /** Appends one row's readings to the five lists. */
    function Push(r: Row): SourceSeries {
      SourceSeries(rssi + [r.rssi], snr + [r.snr], latency + [r.latency],
                   datarate + [r.datarate], compressionRatio + [r.compressionRatio])
    }
  }

  const NoReadings: SourceSeries := SourceSeries([], [], [], [], [])

  /** The handler's `result` dictionary. */
  datatype TimeSeries = TimeSeries(timestamps: seq<string>, standard: SourceSeries, enhanced: SourceSeries)

  function Timestamps(rows: seq<Row>): (ts: seq<string>)
    ensures |ts| == |rows|
  {
    seq(|rows|, i requires 0 <= i < |rows| => rows[i].timestamp)
  }

  ghost predicate NoDuplicates(s: seq<string>) {
    forall i, j :: 0 <= i < j < |s| ==> s[i] != s[j]
  }

  /** The values of `s` in the order of their first occurrences. */
  function Dedup(s: seq<string>): (d: seq<string>)
    ensures NoDuplicates(d)
    ensures forall x :: x in d <==> x in s
    ensures |d| <= |s|
  {
    if |s| == 0 then []
    else
      var d := Dedup(s[..|s| - 1]);
      if s[|s| - 1] in d then d else d + [s[|s| - 1]]
  }

  /** The rows whose source is `source`, in order. */
  function Selected(rows: seq<Row>, source: string): (r: seq<Row>)
    ensures |r| <= |rows|
  {
    if |rows| == 0 then []
    else
      var before := Selected(rows[..|rows| - 1], source);
      if rows[|rows| - 1].source == source then before + [rows[|rows| - 1]] else before
  }

  /** `Selected` keeps exactly the rows of the source. */
  lemma {:induction false} SelectedMembers(rows: seq<Row>, source: string)
    ensures forall x :: x in Selected(rows, source) <==> x in rows && x.source == source
    decreases |rows|
  {
    if |rows| > 0 {
      var n := |rows| - 1;
      SelectedMembers(rows[..n], source);
      assert rows == rows[..n] + [rows[n]];
    }
  }

  /** The five lists the loop builds for `source` from `rows`. */
  function Project(rows: seq<Row>, source: string): SourceSeries {
    if |rows| == 0 then NoReadings
    else
      var before := Project(rows[..|rows| - 1], source);
      if rows[|rows| - 1].source == source then before.Push(rows[|rows| - 1]) else before
  }

  /**
   * `get_timeseries`' loop. A row whose source is neither standard nor
   * enhanced still contributes its timestamp.
   */
  method GetTimeseries(transmissions: seq<Row>) returns (result: TimeSeries)
    ensures result.timestamps == Dedup(Timestamps(transmissions))
    ensures result.standard == Project(transmissions, StandardSource)
    ensures result.enhanced == Project(transmissions, EnhancedSource)
    ensures NoDuplicates(result.timestamps) && |result.timestamps| <= |transmissions|
    ensures forall i :: 0 <= i < |transmissions| ==> transmissions[i].timestamp in result.timestamps
    ensures |transmissions| == 0 ==> result == TimeSeries([], NoReadings, NoReadings)
  {
    result := TimeSeries([], NoReadings, NoReadings);
    for i := 0 to |transmissions|
      invariant result.timestamps == Dedup(Timestamps(transmissions[..i]))
      invariant result.standard == Project(transmissions[..i], StandardSource)
      invariant result.enhanced == Project(transmissions[..i], EnhancedSource)
    {
      var row := transmissions[i];
      assert transmissions[..i + 1][..i] == transmissions[..i];
      assert Timestamps(transmissions[..i + 1])[..i] == Timestamps(transmissions[..i]);
      if row.timestamp !in result.timestamps {
        result := result.(timestamps := result.timestamps + [row.timestamp]);
      }
      if row.source == StandardSource {
        result := result.(standard := result.standard.Push(row));
      } else if row.source == EnhancedSource {
        result := result.(enhanced := result.enhanced.Push(row));
      }
    }
    assert transmissions[..|transmissions|] == transmissions;
    forall i | 0 <= i < |transmissions|
      ensures transmissions[i].timestamp in result.timestamps
    {
      assert Timestamps(transmissions)[i] == transmissions[i].timestamp;
    }
  }

  /**
   * Each of a source's five lists is exactly the in-order projection of
   * that field over the rows of that source, so all five have one entry per
   * such row and rows of other sources add nothing.
   */
  lemma {:induction false} ProjectionSpec(rows: seq<Row>, source: string)
    ensures var f, p := Selected(rows, source), Project(rows, source);
      && |p.rssi| == |f| && |p.snr| == |f| && |p.latency| == |f|
      && |p.datarate| == |f| && |p.compressionRatio| == |f|
      && forall i :: 0 <= i < |f| ==>
           && p.rssi[i] == f[i].rssi && p.snr[i] == f[i].snr && p.latency[i] == f[i].latency
           && p.datarate[i] == f[i].datarate && p.compressionRatio[i] == f[i].compressionRatio
    decreases |rows|
  {
    if |rows| > 0 {
      ProjectionSpec(rows[..|rows| - 1], source);
    }
  }

  lemma {:induction false} SelectedConcat(a: seq<Row>, b: seq<Row>, source: string)
    ensures Selected(a + b, source) == Selected(a, source) + Selected(b, source)
    decreases |b|
  {
    if |b| == 0 {
      assert a + b == a;
    } else {
      var n := |b| - 1;
      var ab := a + b;
      assert ab[..|ab| - 1] == a + b[..n];
      assert ab[|ab| - 1] == b[n];
      SelectedConcat(a, b[..n], source);
      var sa, sb := Selected(a, source), Selected(b[..n], source);
      assert Selected(ab, source) == if b[n].source == source then sa + sb + [b[n]] else sa + sb;
      assert Selected(b, source) == if b[n].source == source then sb + [b[n]] else sb;
    }
  }

  /** The lists of a source are determined by its rows alone. */
  lemma {:induction false} ProjectBySelected(rows: seq<Row>, source: string)
    ensures Project(rows, source) == Project(Selected(rows, source), source)
    decreases |rows|
  {
    if |rows| > 0 {
      var n := |rows| - 1;
      ProjectBySelected(rows[..n], source);
      var s := Selected(rows[..n], source);
      if rows[n].source == source {
        assert (s + [rows[n]])[..|s|] == s;
      }
    }
  }

  /** A row of another source, wherever it stands, adds nothing to a source's lists. */
  lemma OtherSourceAddsNothing(a: seq<Row>, b: seq<Row>, r: Row, source: string)
    requires r.source != source
    ensures Project(a + [r] + b, source) == Project(a + b, source)
  {
    SelectedConcat(a + [r], b, source);
    SelectedConcat(a, [r], source);
    SelectedConcat(a, b, source);
    assert Selected([r], source) == [] by {
      assert [r][..0] == [];
    }
    ProjectBySelected(a + [r] + b, source);
    ProjectBySelected(a + b, source);
  }

  /** SQLite's ordering of TEXT values: lexicographic by character. */
  predicate TextLe(a: string, b: string) {
    |a| == 0 || (|b| > 0 && (a[0] < b[0] || (a[0] == b[0] && TextLe(a[1..], b[1..]))))
  }

  ghost predicate Ascending(s: seq<string>) {
    forall i, j :: 0 <= i < j < |s| ==> TextLe(s[i], s[j])
  }

  /** Rows ordered by timestamp give a strictly ascending timestamp list. */
  lemma {:induction false} DedupAscending(s: seq<string>)
    requires Ascending(s)
    ensures Ascending(Dedup(s))
    ensures forall i, j :: 0 <= i < j < |Dedup(s)| ==> Dedup(s)[i] != Dedup(s)[j]
    decreases |s|
  {
    if |s| > 0 {
      var n := |s| - 1;
      var d := Dedup(s[..n]);
      DedupAscending(s[..n]);
      if s[n] !in d {
        forall i, j | 0 <= i < j < |d| + 1
          ensures TextLe((d + [s[n]])[i], (d + [s[n]])[j])
        {
          if j == |d| {
            assert d[i] in s[..n];
            var k :| 0 <= k < n && s[..n][k] == d[i];
            assert s[k] == d[i];
          }
        }
      }
    }
  }

  /**
   * Values are listed in the order of their first occurrences: every
   * occurrence of a later value is preceded by an occurrence of each
   * earlier one.
   */
  lemma {:induction false} DedupKeepsFirstOccurrenceOrder(s: seq<string>, a: nat, b: nat, j: nat)
    requires a < b < |Dedup(s)| && j < |s| && s[j] == Dedup(s)[b]
    ensures exists i :: 0 <= i < j && s[i] == Dedup(s)[a]
    decreases |s|
  {
    var n := |s| - 1;
    var p := s[..n];
    var d := Dedup(p);
    if b < |d| {
      assert Dedup(s)[a] == d[a] && Dedup(s)[b] == d[b];
      if j < n {
        assert p[j] == s[j];
        DedupKeepsFirstOccurrenceOrder(p, a, b, j);
        var i :| 0 <= i < j && p[i] == d[a];
        assert s[i] == p[i];
      } else {
        assert d[b] in p;
        var j' :| 0 <= j' < n && p[j'] == d[b];
        DedupKeepsFirstOccurrenceOrder(p, a, b, j');
        var i :| 0 <= i < j' && p[i] == d[a];
        assert s[i] == p[i];
      }
    } else {
      assert Dedup(s) == d + [s[n]] && s[n] !in p;
      assert forall k :: 0 <= k < n ==> p[k] == s[k] && p[k] in p;
      assert j == n;
      assert d[a] in p;
      var i :| 0 <= i < n && p[i] == d[a];
      assert s[i] == p[i];
    }
  }
}
