/**
 * The data shaping of the spreading-factor and bandwidth charts.
 *
 * `updateCharts` builds its axis from every key in the list and four series
 * by looking up, for each axis entry, the first record with that key and
 * source: data rate for standard and enhanced, then the secondary metric
 * (RSSI on the SF chart, latency on the BW chart).
 *
 * The shared routine `updateChart` first splits the list into its standard
 * and enhanced records, builds the axis from the keys of those two lists only,
 * and fills four series in a different order: RSSI for standard and
 * enhanced, then data rate for standard and enhanced.
 */
module CategorySeries {
  import opened Common
  import opened CategoryAxis
  import opened Labels

  /** Which radio parameter a chart is keyed by. */
  datatype AxisKind = Sf | Bw

  /**
   * One entry of `sf_metrics` or `bw_metrics`: the averages of one
   * (source, key) group, where `key` is the `sf` or `bw` its list is grouped by.
   * An average over only null readings is null.
   */
  datatype MetricPoint = MetricPoint(
    source: string,
    key: int,
    avgRssi: Option<real>,
    avgDatarate: Option<real>,
    avgLatency: Option<real>)

  datatype Metric = DataRate | Rssi | Latency

  /** One chart dataset: a value, or null, per axis entry. */
  type Series = seq<Option<real>>

  function Value(p: MetricPoint, metric: Metric): Option<real> {
    match metric
    case DataRate => p.avgDatarate
    case Rssi => p.avgRssi
    case Latency => p.avgLatency
  }

  /** `metrics.map(m => m.sf)` (or `m.bw`). */
  function Keys(ms: seq<MetricPoint>): seq<int> {
    seq(|ms|, i requires 0 <= i < |ms| => ms[i].key)
  }

  // ----- updateCharts -----

  /** The axis of `updateCharts`: the distinct keys of all records, ascending. */
  function Axis(ms: seq<MetricPoint>): seq<int> {
    SortedDistinct(Keys(ms))
  }

  predicate Matches(p: MetricPoint, source: string, key: int) {
    p.key == key && p.source == source
  }

  ghost predicate NoMatch(ms: seq<MetricPoint>, source: string, key: int) {
    forall j :: 0 <= j < |ms| ==> !Matches(ms[j], source, key)
  }

  /** Record `j` is the first one with this key and source. */
  ghost predicate FirstMatchAt(ms: seq<MetricPoint>, source: string, key: int, j: int) {
    0 <= j < |ms| && Matches(ms[j], source, key) &&
    forall i :: 0 <= i < j ==> !Matches(ms[i], source, key)
  }

  /** `ms.find(m => m.sf === key && m.source === source)`. */
  function Find(ms: seq<MetricPoint>, source: string, key: int): (r: Option<MetricPoint>)
    ensures r.None? <==> NoMatch(ms, source, key)
    ensures r.Some? ==> r.value in ms && Matches(r.value, source, key)
  {
    if |ms| == 0 then None
    else if Matches(ms[0], source, key) then Some(ms[0])
    else Find(ms[1..], source, key)
  }

  /** `match ? match.<metric> : null`. */
  function Pick(found: Option<MetricPoint>, metric: Metric): Option<real> {
    match found
    case None => None
    case Some(p) => Value(p, metric)
  }

  /** One series of `updateCharts`: a positional lookup per axis entry. */
  function Column(ms: seq<MetricPoint>, axis: seq<int>, source: string, metric: Metric): (s: Series)
    ensures |s| == |axis|
  {
    seq(|axis|, i requires 0 <= i < |axis| => Pick(Find(ms, source, axis[i]), metric))
  }

  /** The metric `updateCharts` shows beside data rate: RSSI by spreading factor, latency by bandwidth. */
  function Secondary(kind: AxisKind): Metric {
    if kind == Sf then Rssi else Latency
  }

  /** The four datasets of `updateCharts`, in its order. */
  function ChartDatasets(ms: seq<MetricPoint>, kind: AxisKind): (d: seq<Series>)
    ensures |d| == 4
    ensures forall k :: 0 <= k < 4 ==> |d[k]| == |Axis(ms)|
  {
    var axis := Axis(ms);
    [Column(ms, axis, StandardSource, DataRate), Column(ms, axis, EnhancedSource, DataRate),
     Column(ms, axis, StandardSource, Secondary(kind)), Column(ms, axis, EnhancedSource, Secondary(kind))]
  }

  function Label(kind: AxisKind, key: int): string {
    if kind == Sf then SfLabel(key) else BwLabel(key)
  }

  function KeyOfLabel(kind: AxisKind, text: string): int {
    if kind == Sf then SfOfLabel(text) else BwOfLabel(text)
  }

  /** `axis.map(sf => `SF${sf}`)` or `axis.map(bw => `${bw/1000} kHz`)`. */
  function AxisLabels(axis: seq<int>, kind: AxisKind): (labels: seq<string>)
    ensures |labels| == |axis|
  {
    seq(|axis|, i requires 0 <= i < |axis| => Label(kind, axis[i]))
  }

  // ----- updateChart -----

  /** `metrics.filter(m => m.source === source)`. */
  function OfSource(ms: seq<MetricPoint>, source: string): (r: seq<MetricPoint>)
    ensures forall p :: p in r <==> p in ms && p.source == source
    ensures |r| <= |ms|
  {
    if |ms| == 0 then []
    else (if ms[0].source == source then [ms[0]] else []) + OfSource(ms[1..], source)
  }

  /** `standardMetrics.find(m => m.sf === key)` over an already filtered list. */
  function FindKey(ms: seq<MetricPoint>, key: int): Option<MetricPoint> {
    if |ms| == 0 then None
    else if ms[0].key == key then Some(ms[0])
    else FindKey(ms[1..], key)
  }

  function KeyColumn(ms: seq<MetricPoint>, axis: seq<int>, metric: Metric): (s: Series)
    ensures |s| == |axis|
  {
    seq(|axis|, i requires 0 <= i < |axis| => Pick(FindKey(ms, axis[i]), metric))
  }

  /** The axis of `updateChart`: the distinct keys of the standard and enhanced records only. */
  function SharedAxis(ms: seq<MetricPoint>): seq<int> {
    SortedDistinct(Keys(OfSource(ms, StandardSource)) + Keys(OfSource(ms, EnhancedSource)))
  }

  /** The four datasets `updateChart` assigns, in its order (the same for both kinds). */
  function SharedDatasets(ms: seq<MetricPoint>): (d: seq<Series>)
    ensures |d| == 4
    ensures forall k :: 0 <= k < 4 ==> |d[k]| == |SharedAxis(ms)|
  {
    var standard, enhanced := OfSource(ms, StandardSource), OfSource(ms, EnhancedSource);
    var axis := SharedAxis(ms);
    [KeyColumn(standard, axis, Rssi), KeyColumn(enhanced, axis, Rssi),
     KeyColumn(standard, axis, DataRate), KeyColumn(enhanced, axis, DataRate)]
  }

  // ----- properties -----

  /** The axis holds exactly the keys of the list, strictly ascending, so without duplicates. */
  lemma AxisIsSortedKeySet(ms: seq<MetricPoint>)
    ensures StrictlyIncreasing(Axis(ms))
    ensures forall k :: k in Axis(ms) <==> exists j :: 0 <= j < |ms| && ms[j].key == k
    ensures |Axis(ms)| <= |ms|
  {
    forall k
      ensures k in Axis(ms) <==> exists j :: 0 <= j < |ms| && ms[j].key == k
    {
      if k in Keys(ms) {
        var j :| 0 <= j < |ms| && Keys(ms)[j] == k;
        assert ms[j].key == k;
      }
      if exists j :: 0 <= j < |ms| && ms[j].key == k {
        var j :| 0 <= j < |ms| && ms[j].key == k;
        assert Keys(ms)[j] == k;
      }
    }
  }

  /** `find` returns the FIRST record that matches. */
  lemma {:induction false} FindIsFirst(ms: seq<MetricPoint>, source: string, key: int, j: int)
    requires FirstMatchAt(ms, source, key, j)
    ensures Find(ms, source, key) == Some(ms[j])
    decreases j
  {
    if j > 0 {
      assert !Matches(ms[0], source, key);
      FindIsFirst(ms[1..], source, key, j - 1);
    }
  }

  /**
   * Series entry `i` is the metric of the first record whose key is `axis[i]`
   * and whose source matches, and null when there is no such record.
   */
  lemma ColumnAt(ms: seq<MetricPoint>, axis: seq<int>, source: string, metric: Metric, i: int)
    requires 0 <= i < |axis|
    ensures NoMatch(ms, source, axis[i]) ==> Column(ms, axis, source, metric)[i] == None
    ensures forall j :: FirstMatchAt(ms, source, axis[i], j) ==>
      Column(ms, axis, source, metric)[i] == Value(ms[j], metric)
  {
    forall j | FirstMatchAt(ms, source, axis[i], j)
      ensures Column(ms, axis, source, metric)[i] == Value(ms[j], metric)
    {
      FindIsFirst(ms, source, axis[i], j);
    }
  }

  lemma {:induction false} OfSourceConcat(a: seq<MetricPoint>, b: seq<MetricPoint>, source: string)
    ensures OfSource(a + b, source) == OfSource(a, source) + OfSource(b, source)
    decreases |a|
  {
    if |a| > 0 {
      assert (a + b)[1..] == a[1..] + b;
      OfSourceConcat(a[1..], b, source);
    } else {
      assert a + b == b;
    }
  }

  /** Finding by key in the filtered list finds the same record as finding by key and source. */
  lemma {:induction false} FindKeyOfSource(ms: seq<MetricPoint>, source: string, key: int)
    ensures FindKey(OfSource(ms, source), key) == Find(ms, source, key)
    decreases |ms|
  {
    if |ms| > 0 {
      FindKeyOfSource(ms[1..], source, key);
      if ms[0].source == source {
        var r := OfSource(ms, source);
        assert r == [ms[0]] + OfSource(ms[1..], source);
        assert r[1..] == OfSource(ms[1..], source);
      } else {
        assert OfSource(ms, source) == OfSource(ms[1..], source);
      }
    }
  }

  /** Each series of `updateChart` is the `updateCharts` lookup over the whole list, on its own axis. */
  lemma KeyColumnIsColumn(ms: seq<MetricPoint>, axis: seq<int>, source: string, metric: Metric)
    ensures KeyColumn(OfSource(ms, source), axis, metric) == Column(ms, axis, source, metric)
  {
    forall i | 0 <= i < |axis|
      ensures KeyColumn(OfSource(ms, source), axis, metric)[i] == Column(ms, axis, source, metric)[i]
    {
      FindKeyOfSource(ms, source, axis[i]);
    }
  }

  /** Filtering for a source drops a record of another source wherever it stands. */
  lemma OfSourceSkips(a: seq<MetricPoint>, b: seq<MetricPoint>, p: MetricPoint, source: string)
    requires p.source != source
    ensures OfSource(a + [p] + b, source) == OfSource(a + b, source)
  {
    OfSourceConcat(a + [p], b, source);
    OfSourceConcat(a, [p], source);
    OfSourceConcat(a, b, source);
    assert OfSource([p], source) == [];
  }

  /**
   * In `updateChart`, a record of any other source changes neither the axis
   * nor any series, wherever it stands in the list.
   */
  lemma OtherSourceIgnored(a: seq<MetricPoint>, b: seq<MetricPoint>, p: MetricPoint)
    requires p.source != StandardSource && p.source != EnhancedSource
    ensures SharedAxis(a + [p] + b) == SharedAxis(a + b)
    ensures SharedDatasets(a + [p] + b) == SharedDatasets(a + b)
  {
    OfSourceSkips(a, b, p, StandardSource);
    OfSourceSkips(a, b, p, EnhancedSource);
  }

  ghost predicate KnownSources(ms: seq<MetricPoint>) {
    forall j :: 0 <= j < |ms| ==> ms[j].source == StandardSource || ms[j].source == EnhancedSource
  }

  /** A key occurs among the records of one source exactly when some such record carries it. */
  lemma KeyOfSource(ms: seq<MetricPoint>, source: string, k: int)
    ensures k in Keys(OfSource(ms, source)) <==> exists j :: 0 <= j < |ms| && ms[j].source == source && ms[j].key == k
  {
    var f := OfSource(ms, source);
    if k in Keys(f) {
      var i :| 0 <= i < |f| && Keys(f)[i] == k;
      assert f[i] in ms;
      var j :| 0 <= j < |ms| && ms[j] == f[i];
    }
    if exists j :: 0 <= j < |ms| && ms[j].source == source && ms[j].key == k {
      var j :| 0 <= j < |ms| && ms[j].source == source && ms[j].key == k;
      assert ms[j] in f;
      var i :| 0 <= i < |f| && f[i] == ms[j];
      assert Keys(f)[i] == k;
    }
  }

  /** When every record is standard or enhanced, the two routines build the same axis. */
  lemma SharedAxisOfKnownSources(ms: seq<MetricPoint>)
    requires KnownSources(ms)
    ensures SharedAxis(ms) == Axis(ms)
  {
    var ks := Keys(OfSource(ms, StandardSource)) + Keys(OfSource(ms, EnhancedSource));
    forall k
      ensures k in ks <==> k in Keys(ms)
    {
      KeyOfSource(ms, StandardSource, k);
      KeyOfSource(ms, EnhancedSource, k);
      if k in Keys(ms) {
        var j :| 0 <= j < |ms| && Keys(ms)[j] == k;
        assert ms[j].key == k;
      }
      if exists j :: 0 <= j < |ms| && ms[j].key == k {
        var j :| 0 <= j < |ms| && ms[j].key == k;
        assert Keys(ms)[j] == k;
      }
    }
    SortedDistinctBySet(ks, Keys(ms));
  }

  /**
   * When every record is standard or enhanced the two routines agree on the
   * axis, and `updateChart`'s datasets are `updateCharts`' in another order:
   * its data-rate series (2, 3) are `updateCharts`' (0, 1), and on the SF
   * chart its RSSI series (0, 1) are `updateCharts`' secondary series (2, 3).
   */
  lemma DatasetOrders(ms: seq<MetricPoint>, kind: AxisKind)
    requires KnownSources(ms)
    ensures SharedAxis(ms) == Axis(ms)
    ensures SharedDatasets(ms)[2] == ChartDatasets(ms, kind)[0]
    ensures SharedDatasets(ms)[3] == ChartDatasets(ms, kind)[1]
    ensures kind == Sf ==> SharedDatasets(ms)[0] == ChartDatasets(ms, kind)[2]
    ensures kind == Sf ==> SharedDatasets(ms)[1] == ChartDatasets(ms, kind)[3]
  {
    SharedAxisOfKnownSources(ms);
    var axis := Axis(ms);
    KeyColumnIsColumn(ms, axis, StandardSource, DataRate);
    KeyColumnIsColumn(ms, axis, EnhancedSource, DataRate);
    KeyColumnIsColumn(ms, axis, StandardSource, Rssi);
    KeyColumnIsColumn(ms, axis, EnhancedSource, Rssi);
  }

  /** Distinct axis entries get distinct labels, and each label reads back as its key. */
  lemma AxisLabelsFaithful(axis: seq<int>, kind: AxisKind)
    requires StrictlyIncreasing(axis)
    ensures forall i :: 0 <= i < |axis| ==> KeyOfLabel(kind, AxisLabels(axis, kind)[i]) == axis[i]
    ensures forall i, j :: 0 <= i < j < |axis| ==> AxisLabels(axis, kind)[i] != AxisLabels(axis, kind)[j]
  {
    forall i | 0 <= i < |axis|
      ensures KeyOfLabel(kind, AxisLabels(axis, kind)[i]) == axis[i]
    {
      SfLabelRoundTrip(axis[i]);
      BwLabelRoundTrip(axis[i]);
    }
  }

  /** Standard and enhanced data at SF 7 give one label and one value per series. */
  lemma SpreadingFactorExample()
    ensures var ms := [MetricPoint(StandardSource, 7, None, Some(100.0), None),
                       MetricPoint(EnhancedSource, 7, None, Some(150.0), None)];
      && AxisLabels(Axis(ms), Sf) == ["SF7"]
      && ChartDatasets(ms, Sf)[0] == [Some(100.0)]
      && ChartDatasets(ms, Sf)[1] == [Some(150.0)]
  {
    var ms := [MetricPoint(StandardSource, 7, None, Some(100.0), None),
               MetricPoint(EnhancedSource, 7, None, Some(150.0), None)];
    assert Keys(ms) == [7, 7];
    StrictlyIncreasingUnique(Axis(ms), [7]);
    assert SfLabel(7) == "SF7" by { LabelExamples(); }
    assert AxisLabels([7], Sf)[0] == "SF7";
  }

  /**
   * A spreading factor reported only by the enhanced path leaves a null in
   * the standard series at its position, and in `updateCharts` a record of
   * another source still adds its key to the axis, with nulls in every series.
   */
  lemma MissingValueExample()
    ensures var ms := [MetricPoint(EnhancedSource, 9, Some(-80.0), Some(300.0), None)];
      && Axis(ms) == [9]
      && ChartDatasets(ms, Sf)[0] == [None]
      && ChartDatasets(ms, Sf)[1] == [Some(300.0)]
    ensures var ms := [MetricPoint("other", 8, Some(-90.0), Some(200.0), None)];
      && Axis(ms) == [8] && SharedAxis(ms) == []
      && ChartDatasets(ms, Sf) == [[None], [None], [None], [None]]
  {
    var ms := [MetricPoint(EnhancedSource, 9, Some(-80.0), Some(300.0), None)];
    assert Keys(ms) == [9];
    StrictlyIncreasingUnique(Axis(ms), [9]);
    var other := [MetricPoint("other", 8, Some(-90.0), Some(200.0), None)];
    assert Keys(other) == [8];
    StrictlyIncreasingUnique(Axis(other), [8]);
    assert OfSource(other, StandardSource) == [] && OfSource(other, EnhancedSource) == [];
    assert Keys(OfSource(other, StandardSource)) + Keys(OfSource(other, EnhancedSource)) == [];
    assert Find(other, StandardSource, 8) == None && Find(other, EnhancedSource, 8) == None;
    var d := ChartDatasets(other, Sf);
    assert d[0] == [None] && d[1] == [None] && d[2] == [None] && d[3] == [None];
  }
}
