/**
 * The dashboard's long-lived state: the spreading-factor and bandwidth chart
 * handles, created once and updated in place thereafter, the per-source and
 * average cards, and the transmissions table body.
 */
module Dashboard {
  import opened Common
  import opened CategoryAxis
  import opened CategorySeries
  import opened Stats

  /**
   * A chart widget as far as the dashboard touches it: its labels, the data
   * of its datasets, and the number of redraws requested.
   */
  class Chart {
    var labels: seq<string>
    var datasets: seq<Series>
    var redraws: nat

    /** `new Chart(ctx, { data: { labels, datasets } })`. */
    constructor (labels: seq<string>, datasets: seq<Series>)
      ensures this.labels == labels && this.datasets == datasets && redraws == 0
    {
      this.labels := labels;
      this.datasets := datasets;
      redraws := 0;
    }

    /** `chart.update()`: a redraw request that changes no data. */
    method Redraw()
      modifies this
      ensures labels == old(labels) && datasets == old(datasets)
      ensures redraws == old(redraws) + 1
    {
      redraws := redraws + 1;
    }

    /**
     * The shared routine `updateChart(chart, metrics, type)`: the labels of
     * the standard-and-enhanced axis, and datasets 0 to 3 overwritten with
     * RSSI (standard, enhanced) and data rate (standard, enhanced).
     */
    method UpdateChart(metrics: seq<MetricPoint>, kind: AxisKind)
      requires |datasets| >= 4
      modifies this
      ensures labels == AxisLabels(SharedAxis(metrics), kind)
      ensures |datasets| == |old(datasets)|
      ensures datasets[..4] == SharedDatasets(metrics) && datasets[4..] == old(datasets)[4..]
      ensures redraws == old(redraws) + 1
    {
      var standardMetrics := OfSource(metrics, StandardSource);
      var enhancedMetrics := OfSource(metrics, EnhancedSource);
      var values := SortedDistinct(Keys(standardMetrics) + Keys(enhancedMetrics));
      labels := AxisLabels(values, kind);
      datasets := datasets[0 := KeyColumn(standardMetrics, values, Rssi)];
      datasets := datasets[1 := KeyColumn(enhancedMetrics, values, Rssi)];
      datasets := datasets[2 := KeyColumn(standardMetrics, values, DataRate)];
      datasets := datasets[3 := KeyColumn(enhancedMetrics, values, DataRate)];
      Redraw();
    }
  }

  /**
   * The step `updateCharts` takes for each chart: with no handle yet, a chart
   * is created from the labels and four datasets; otherwise the handle is
   * kept, its labels and datasets 0 to 3 are overwritten, and a redraw is
   * requested.
   */
  method ShowChart(chart: Chart?, labels: seq<string>, d0: Series, d1: Series, d2: Series, d3: Series)
      returns (c: Chart)
    requires chart != null ==> |chart.datasets| == 4
    modifies chart
    ensures chart != null ==> c == chart && c.redraws == old(chart.redraws) + 1
    ensures chart == null ==> fresh(c) && c.redraws == 0
    ensures c.labels == labels && c.datasets == [d0, d1, d2, d3]
  {
    if chart == null {
      c := new Chart(labels, [d0, d1, d2, d3]);
    } else {
      c := chart;
      c.labels := labels;
      c.datasets := c.datasets[0 := d0];
      c.datasets := c.datasets[1 := d1];
      c.datasets := c.datasets[2 := d2];
      c.datasets := c.datasets[3 := d3];
      c.Redraw();
    }
  }

  /** Four datasets, each as long as the labels. */
  ghost predicate ChartShaped(c: Chart)
    reads c
  {
    |c.datasets| == 4 && forall k :: 0 <= k < 4 ==> |c.datasets[k]| == |c.labels|
  }

  class Dashboard {
    var sfChart: Chart?
    var bwChart: Chart?
    var sourceCards: SourceCards
    /** The `avg-datarate` and `avg-latency` cards; None until first written. */
    var averages: Option<Averages>
    /** The rows of `transmissions-table-body`. */
    var tableRows: seq<TableRow>

    /**
     * Each category chart, once created, has its four datasets, each with one
     * value per label, and the two are different widgets.
     */
    ghost predicate Valid()
      reads this, sfChart, bwChart
    {
      && (sfChart != null ==> ChartShaped(sfChart))
      && (bwChart != null ==> ChartShaped(bwChart))
      && (sfChart != null && bwChart != null ==> sfChart != bwChart)
    }

    /** The page as loaded: no charts yet, the cards blank and the table empty. */
    constructor ()
      ensures Valid()
      ensures sfChart == null && bwChart == null
      ensures sourceCards == SourceCards(None, None, None, None)
      ensures averages == None && tableRows == []
    {
      sfChart, bwChart := null, null;
      sourceCards := SourceCards(None, None, None, None);
      averages := None;
      tableRows := [];
    }

    /**
     * The chart refresher `updateCharts` on a `/api/metrics` snapshot. Each
     * chart is created the first time and afterwards keeps its identity:
     * only its labels and dataset data are overwritten, and a redraw is
     * requested.
     */
    method UpdateCharts(sfMetrics: seq<MetricPoint>, bwMetrics: seq<MetricPoint>)
      requires Valid()
      modifies this, sfChart, bwChart
      ensures Valid()
      ensures old(sfChart) != null ==> sfChart == old(sfChart) && sfChart.redraws == old(sfChart.redraws) + 1
      ensures old(sfChart) == null ==> fresh(sfChart) && sfChart.redraws == 0
      ensures old(bwChart) != null ==> bwChart == old(bwChart) && bwChart.redraws == old(bwChart.redraws) + 1
      ensures old(bwChart) == null ==> fresh(bwChart) && bwChart.redraws == 0
      ensures sfChart != null && sfChart.labels == AxisLabels(Axis(sfMetrics), Sf)
      ensures sfChart.datasets == ChartDatasets(sfMetrics, Sf)
      ensures bwChart != null && bwChart.labels == AxisLabels(Axis(bwMetrics), Bw)
      ensures bwChart.datasets == ChartDatasets(bwMetrics, Bw)
      ensures sourceCards == old(sourceCards) && averages == old(averages) && tableRows == old(tableRows)
    {
      var sfValues := Axis(sfMetrics);
      var standardSfData := Column(sfMetrics, sfValues, StandardSource, DataRate);
      var enhancedSfData := Column(sfMetrics, sfValues, EnhancedSource, DataRate);
      var standardSfRssi := Column(sfMetrics, sfValues, StandardSource, Rssi);
      var enhancedSfRssi := Column(sfMetrics, sfValues, EnhancedSource, Rssi);
      sfChart := ShowChart(sfChart, AxisLabels(sfValues, Sf), standardSfData, enhancedSfData, standardSfRssi, enhancedSfRssi);

      var bwValues := Axis(bwMetrics);
      var standardBwData := Column(bwMetrics, bwValues, StandardSource, DataRate);
      var enhancedBwData := Column(bwMetrics, bwValues, EnhancedSource, DataRate);
      var standardBwLatency := Column(bwMetrics, bwValues, StandardSource, Latency);
      var enhancedBwLatency := Column(bwMetrics, bwValues, EnhancedSource, Latency);
      bwChart := ShowChart(bwChart, AxisLabels(bwValues, Bw), standardBwData, enhancedBwData, standardBwLatency, enhancedBwLatency);
    }

    /**
     * The source-metric and table part of the stats refresher `updateStats`
     * on a `/api/stats` snapshot. The source rows are written into their
     * cards and summed; then the average cards are written (when there was
     * a row) and the table body is rebuilt from empty. `completed` is false
     * when formatting a null average threw: the refresh stops there and
     * keeps what it had written so far.
     */
    method UpdateStats(sourceMetrics: seq<SourceMetric>, stats: seq<TransmissionStat>) returns (completed: bool)
      requires Valid()
      modifies this
      ensures Valid() && sfChart == old(sfChart) && bwChart == old(bwChart)
      ensures sourceCards == ShowSourceRows(old(sourceCards), sourceMetrics).cards
      ensures ShowSourceRows(old(sourceCards), sourceMetrics).threw ==>
        !completed && averages == old(averages) && tableRows == old(tableRows)
      ensures !ShowSourceRows(old(sourceCards), sourceMetrics).threw ==>
        && averages == (if |sourceMetrics| == 0 then old(averages) else AverageCards(sourceMetrics))
        && tableRows == RenderTable(stats).rows
        && completed == RenderTable(stats).complete
    {
      if |sourceMetrics| > 0 {
        var threw, totalDataRate, totalLatency, sourceCount := ShowSources(sourceMetrics);
        if threw {
          return false;
        }
        if sourceCount > 0 {
          averages := Some(Averages(totalDataRate / sourceCount as real, totalLatency / sourceCount as real));
        }
      }
      completed := RebuildTable(stats);
    }

    /**
     * The `forEach` over the source rows in `updateStats`: sums the data
     * rates and latencies (a null or zero one adds nothing), counts every
     * row, and writes the cards of the standard and enhanced rows.
     * `threw` is set when formatting a null value stopped the loop.
     */
    method ShowSources(sourceMetrics: seq<SourceMetric>)
        returns (threw: bool, totalDataRate: real, totalLatency: real, sourceCount: nat)
      modifies this
      ensures sourceCards == ShowSourceRows(old(sourceCards), sourceMetrics).cards
      ensures threw == ShowSourceRows(old(sourceCards), sourceMetrics).threw
      ensures !threw ==> && totalDataRate == TotalDataRate(sourceMetrics)
                         && totalLatency == TotalLatency(sourceMetrics)
                         && sourceCount == |sourceMetrics|
      ensures sfChart == old(sfChart) && bwChart == old(bwChart)
      ensures averages == old(averages) && tableRows == old(tableRows)
    {
      totalDataRate, totalLatency, sourceCount := 0.0, 0.0, 0;
      var i := 0;
      while i < |sourceMetrics|
        invariant 0 <= i <= |sourceMetrics| && sourceCount == i
        invariant totalDataRate == TotalDataRate(sourceMetrics[..i])
        invariant totalLatency == TotalLatency(sourceMetrics[..i])
        invariant !ShowSourceRows(old(sourceCards), sourceMetrics[..i]).threw
        invariant sourceCards == ShowSourceRows(old(sourceCards), sourceMetrics[..i]).cards
        invariant sfChart == old(sfChart) && bwChart == old(bwChart)
        invariant averages == old(averages) && tableRows == old(tableRows)
      {
        var row := sourceMetrics[i];
        assert sourceMetrics[..i + 1][..i] == sourceMetrics[..i];
        if row.avgDatarate.Some? && row.avgDatarate.value != 0.0 {
          totalDataRate := totalDataRate + row.avgDatarate.value;
        }
        if row.avgLatency.Some? && row.avgLatency.value != 0.0 {
          totalLatency := totalLatency + row.avgLatency.value;
        }
        sourceCount := sourceCount + 1;
        if row.source == StandardSource || row.source == EnhancedSource {
          if row.avgDatarate.None? {
            ThrowSticks(old(sourceCards), sourceMetrics, i + 1);
            return true, totalDataRate, totalLatency, sourceCount;
          }
          if row.source == StandardSource {
            sourceCards := sourceCards.(stdDataRate := row.avgDatarate);
          } else {
            sourceCards := sourceCards.(enhDataRate := row.avgDatarate);
          }
          if row.avgLatency.None? {
            ThrowSticks(old(sourceCards), sourceMetrics, i + 1);
            return true, totalDataRate, totalLatency, sourceCount;
          }
          if row.source == StandardSource {
            sourceCards := sourceCards.(stdLatency := row.avgLatency);
          } else {
            sourceCards := sourceCards.(enhLatency := row.avgLatency);
          }
        }
        i := i + 1;
      }
      assert sourceMetrics[..i] == sourceMetrics;
      threw := false;
    }

    /**
     * The table rebuild in `updateStats`: the body is emptied, then one row
     * is appended per record until a record with a null average throws.
     */
    method RebuildTable(stats: seq<TransmissionStat>) returns (complete: bool)
      modifies this
      ensures tableRows == RenderTable(stats).rows && complete == RenderTable(stats).complete
      ensures sfChart == old(sfChart) && bwChart == old(bwChart)
      ensures sourceCards == old(sourceCards) && averages == old(averages)
    {
      tableRows := [];
      var j := 0;
      while j < |stats|
        invariant 0 <= j <= |stats|
        invariant RenderTable(stats[..j]).complete && tableRows == RenderTable(stats[..j]).rows
        invariant sfChart == old(sfChart) && bwChart == old(bwChart)
        invariant sourceCards == old(sourceCards) && averages == old(averages)
      {
        assert stats[..j + 1][..j] == stats[..j];
        if !Renderable(stats[j]) {
          IncompleteSticks(stats, j + 1);
          return false;
        }
        tableRows := tableRows + [RowOf(stats[j])];
        j := j + 1;
      }
      assert stats[..j] == stats;
      complete := true;
    }
  }

  /** Refreshing the charts twice creates each widget once and redraws it once. */
  method ChartsCreatedOnce(sfMetrics: seq<MetricPoint>, bwMetrics: seq<MetricPoint>) returns (d: Dashboard)
    ensures fresh(d) && d.Valid()
    ensures d.sfChart != null && d.sfChart.redraws == 1
    ensures d.bwChart != null && d.bwChart.redraws == 1
  {
    d := new Dashboard();
    d.UpdateCharts(sfMetrics, bwMetrics);
    var sf, bw := d.sfChart, d.bwChart;
    d.UpdateCharts(sfMetrics, bwMetrics);
    assert d.sfChart == sf && d.bwChart == bw;
  }

  /** Refreshing the stats twice from the same snapshot leaves one table row per record, not two. */
  method StatsRefreshKeepsOneRowPerRecord(d: Dashboard, sourceMetrics: seq<SourceMetric>, stats: seq<TransmissionStat>)
    requires d.Valid()
    requires forall i :: 0 <= i < |sourceMetrics| ==> !Unformattable(sourceMetrics[i])
    requires forall i :: 0 <= i < |stats| ==> Renderable(stats[i])
    modifies d
    ensures |d.tableRows| == |stats|
    ensures forall i :: 0 <= i < |stats| ==> d.tableRows[i] == RowOf(stats[i])
  {
    ShowSourceRowsSpec(d.sourceCards, sourceMetrics);
    var first := d.UpdateStats(sourceMetrics, stats);
    ShowSourceRowsSpec(d.sourceCards, sourceMetrics);
    var second := d.UpdateStats(sourceMetrics, stats);
    RenderTableComplete(stats);
    RenderTableRows(stats);
  }
}
