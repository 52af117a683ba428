/**
 * What the stats refresher computes from a `/api/stats` snapshot: the
 * per-source cards, the unweighted average cards, and the rows of the
 * transmissions table. The refresher itself, which writes these into the
 * page, is `Dashboard.Dashboard.UpdateStats`.
 */
module Stats {
  import opened Common
  import opened Labels

  // ----- source_metrics: per-source and average cards -----

  /** One row of `source_metrics` (averages grouped by source; an average over null readings is null). */
  datatype SourceMetric = SourceMetric(source: string, avgDatarate: Option<real>, avgLatency: Option<real>)

  /** What `if (v) total += v` adds: nothing for a falsy value (null or 0), the value otherwise. */
  function Contribution(v: Option<real>): (c: real)
    ensures c == (if v.Some? then v.value else 0.0)
  {
    if v.None? || v.value == 0.0 then 0.0 else v.value
  }

  /** `totalDataRate` after the loop has seen `ms`. */
  function TotalDataRate(ms: seq<SourceMetric>): real {
    if |ms| == 0 then 0.0 else TotalDataRate(ms[..|ms| - 1]) + Contribution(ms[|ms| - 1].avgDatarate)
  }

  /** `totalLatency` after the loop has seen `ms`. */
  function TotalLatency(ms: seq<SourceMetric>): real {
    if |ms| == 0 then 0.0 else TotalLatency(ms[..|ms| - 1]) + Contribution(ms[|ms| - 1].avgLatency)
  }

  datatype Averages = Averages(dataRate: real, latency: real)

  /**
   * The two average cards: the totals divided by the number of rows, every
   * row counted whether or not its value was present; nothing when there
   * are no rows.
   */
  function AverageCards(ms: seq<SourceMetric>): (r: Option<Averages>)
    ensures r.None? <==> |ms| == 0
    ensures r.Some? ==> r.value.dataRate * |ms| as real == TotalDataRate(ms)
    ensures r.Some? ==> r.value.latency * |ms| as real == TotalLatency(ms)
  {
    if |ms| == 0 then None
    else Some(Averages(TotalDataRate(ms) / |ms| as real, TotalLatency(ms) / |ms| as real))
  }

  /** A row's missing averages replaced by explicit zeros. */
  function ZeroFilled(ms: seq<SourceMetric>): (r: seq<SourceMetric>)
    ensures |r| == |ms|
  {
    seq(|ms|, i requires 0 <= i < |ms| =>
      ms[i].(avgDatarate := Some(Contribution(ms[i].avgDatarate)),
             avgLatency := Some(Contribution(ms[i].avgLatency))))
  }

  /** A missing average weighs exactly as a zero does: it adds nothing and is still counted. */
  lemma {:induction false} MissingCountsAsZero(ms: seq<SourceMetric>)
    ensures TotalDataRate(ZeroFilled(ms)) == TotalDataRate(ms)
    ensures TotalLatency(ZeroFilled(ms)) == TotalLatency(ms)
    ensures AverageCards(ZeroFilled(ms)) == AverageCards(ms)
    decreases |ms|
  {
    if |ms| > 0 {
      var n := |ms| - 1;
      assert ZeroFilled(ms)[..n] == ZeroFilled(ms[..n]);
      MissingCountsAsZero(ms[..n]);
    }
  }

  ghost predicate DataRatesWithin(ms: seq<SourceMetric>, lo: real, hi: real) {
    forall i :: 0 <= i < |ms| ==> ms[i].avgDatarate.Some? && lo <= ms[i].avgDatarate.value <= hi
  }

  lemma {:induction false} TotalDataRateWithin(ms: seq<SourceMetric>, lo: real, hi: real)
    requires DataRatesWithin(ms, lo, hi)
    ensures lo * |ms| as real <= TotalDataRate(ms) <= hi * |ms| as real
    decreases |ms|
  {
    if |ms| > 0 {
      TotalDataRateWithin(ms[..|ms| - 1], lo, hi);
    }
  }

  /** When every source reports a data rate, the average card lies between the smallest and the largest. */
  lemma AverageDataRateWithin(ms: seq<SourceMetric>, lo: real, hi: real)
    requires |ms| > 0 && DataRatesWithin(ms, lo, hi)
    ensures lo <= AverageCards(ms).value.dataRate <= hi
  {
    var n := |ms| as real;
    var avg := AverageCards(ms).value.dataRate;
    TotalDataRateWithin(ms, lo, hi);
    assert avg * n == TotalDataRate(ms);
  }

  /** Two sources at 100 and 200 bps, 10 and 30 ms, average to 150 bps and 20 ms. */
  lemma AverageExample()
    ensures AverageCards([SourceMetric(StandardSource, Some(100.0), Some(10.0)),
                          SourceMetric(EnhancedSource, Some(200.0), Some(30.0))])
            == Some(Averages(150.0, 20.0))
  {
    var ms := [SourceMetric(StandardSource, Some(100.0), Some(10.0)),
               SourceMetric(EnhancedSource, Some(200.0), Some(30.0))];
    assert ms[..1][..0] == [];
    assert TotalDataRate(ms[..1]) == 100.0;
    assert TotalLatency(ms[..1]) == 10.0;
  }

  /** The per-source cards `std-datarate`, `std-latency`, `enh-datarate`, `enh-latency`; None until first written. */
  datatype SourceCards = SourceCards(
    stdDataRate: Option<real>,
    stdLatency: Option<real>,
    enhDataRate: Option<real>,
    enhLatency: Option<real>)

  /** The cards after some rows, and whether `toFixed` was called on a null average. */
  datatype CardsOutcome = CardsOutcome(cards: SourceCards, threw: bool)

  predicate HasCards(source: string) {
    source == StandardSource || source == EnhancedSource
  }

  /**
   * One row written into its source's cards: data rate first, then latency.
   * Formatting a null average throws, leaving the cards as written so far.
   */
  function ShowSourceRow(c: SourceCards, m: SourceMetric): CardsOutcome {
    if m.source == StandardSource then
      if m.avgDatarate.None? then CardsOutcome(c, true)
      else if m.avgLatency.None? then CardsOutcome(c.(stdDataRate := m.avgDatarate), true)
      else CardsOutcome(c.(stdDataRate := m.avgDatarate, stdLatency := m.avgLatency), false)
    else if m.source == EnhancedSource then
      if m.avgDatarate.None? then CardsOutcome(c, true)
      else if m.avgLatency.None? then CardsOutcome(c.(enhDataRate := m.avgDatarate), true)
      else CardsOutcome(c.(enhDataRate := m.avgDatarate, enhLatency := m.avgLatency), false)
    else CardsOutcome(c, false)
  }

  /** The rows written in order, stopping at the first one that throws. */
  function ShowSourceRows(c: SourceCards, ms: seq<SourceMetric>): CardsOutcome {
    if |ms| == 0 then CardsOutcome(c, false)
    else
      var before := ShowSourceRows(c, ms[..|ms| - 1]);
      if before.threw then before else ShowSourceRow(before.cards, ms[|ms| - 1])
  }

  /** Once a prefix has thrown, the later rows are never written. */
  lemma {:induction false} ThrowSticks(c: SourceCards, ms: seq<SourceMetric>, k: nat)
    requires k <= |ms| && ShowSourceRows(c, ms[..k]).threw
    ensures ShowSourceRows(c, ms) == ShowSourceRows(c, ms[..k])
    decreases |ms| - k
  {
    if k < |ms| {
      var n := |ms| - 1;
      assert ms[..n][..k] == ms[..k];
      ThrowSticks(c, ms[..n], k);
    } else {
      assert ms[..k] == ms;
    }
  }

  ghost predicate Unformattable(m: SourceMetric) {
    HasCards(m.source) && (m.avgDatarate.None? || m.avgLatency.None?)
  }

  /** Which of a source's two cards: its data rate or its latency. */
  datatype CardField = DataRateCard | LatencyCard

  /** The latest row of `source` among `ms`. */
  function LastOf(ms: seq<SourceMetric>, source: string): Option<SourceMetric> {
    if |ms| == 0 then None
    else if ms[|ms| - 1].source == source then Some(ms[|ms| - 1])
    else LastOf(ms[..|ms| - 1], source)
  }

  /** A card shows the value of the latest row of its source, or what it showed before when there is none. */
  function Shown(last: Option<SourceMetric>, before: Option<real>, field: CardField): Option<real> {
    match last
    case None => before
    case Some(m) => if field == DataRateCard then m.avgDatarate else m.avgLatency
  }

  /**
   * The loop throws exactly when some standard or enhanced row has a null
   * average; when it does not, each card shows the latest row of its source.
   */
  lemma {:induction false} ShowSourceRowsSpec(c: SourceCards, ms: seq<SourceMetric>)
    ensures ShowSourceRows(c, ms).threw <==> exists i :: 0 <= i < |ms| && Unformattable(ms[i])
    ensures !ShowSourceRows(c, ms).threw ==>
      var shown := ShowSourceRows(c, ms).cards;
      && shown.stdDataRate == Shown(LastOf(ms, StandardSource), c.stdDataRate, DataRateCard)
      && shown.stdLatency == Shown(LastOf(ms, StandardSource), c.stdLatency, LatencyCard)
      && shown.enhDataRate == Shown(LastOf(ms, EnhancedSource), c.enhDataRate, DataRateCard)
      && shown.enhLatency == Shown(LastOf(ms, EnhancedSource), c.enhLatency, LatencyCard)
    decreases |ms|
  {
    if |ms| > 0 {
      var n := |ms| - 1;
      ShowSourceRowsSpec(c, ms[..n]);
      if exists i :: 0 <= i < n && Unformattable(ms[..n][i]) {
        var i :| 0 <= i < n && Unformattable(ms[..n][i]);
        assert ms[i] == ms[..n][i];
      }
      if exists i :: 0 <= i < |ms| && Unformattable(ms[i]) {
        var i :| 0 <= i < |ms| && Unformattable(ms[i]);
        if i < n {
          assert ms[..n][i] == ms[i];
        }
      }
    }
  }

  // ----- transmission_stats: the table -----

  /** One row of `transmission_stats`; the columns the schema allows to be null are options. */
  datatype TransmissionStat = TransmissionStat(
    timestamp: Option<string>,
    kind: string,
    source: string,
    sf: int,
    bw: int,
    avgRssi: Option<real>,
    avgSnr: Option<real>,
    avgDatarate: Option<real>,
    avgLatency: Option<real>,
    avgCompression: Option<real>)

  /** The background of a table row. */
  datatype RowStyle = FailedRow | EnhancedRow | PlainRow

  /**
   * One rendered table row. A timestamp of None shows as `N/A`; numbers are
   * kept as values (their fixed-point text is not modelled).
   */
  datatype TableRow = TableRow(
    timestamp: Option<string>,
    kind: string,
    sfText: string,
    bwText: string,
    rssi: real,
    snr: real,
    datarate: real,
    latency: real,
    source: string,
    compression: real,
    failed: bool,
    style: RowStyle)

  /** JavaScript `v <= bound`, where null converts to 0. */
  predicate JsAtMost(v: Option<real>, bound: real) {
    (if v.None? then 0.0 else v.value) <= bound
  }

  /** The failed-transmission test: all three thresholds must hold. */
  predicate IsFailed(r: TransmissionStat) {
    JsAtMost(r.avgRssi, -120.0) && JsAtMost(r.avgSnr, 0.0) && JsAtMost(r.avgDatarate, 0.0)
  }

  /** `s || fallback` for a string. */
  function OrElse(s: string, fallback: string): string {
    if s == "" then fallback else s
  }

  /** The four averages the row formats with `toFixed` are all present. */
  predicate Renderable(r: TransmissionStat) {
    r.avgRssi.Some? && r.avgSnr.Some? && r.avgDatarate.Some? && r.avgLatency.Some?
  }

  /**
   * The row the template builds for a record whose four formatted averages
   * are present (formatting a null one with `toFixed` throws instead).
   */
  function RowOf(r: TransmissionStat): (row: TableRow)
    requires Renderable(r)
    ensures row.failed <==> r.avgRssi.value <= -120.0 && r.avgSnr.value <= 0.0 && r.avgDatarate.value <= 0.0
    ensures row.style == FailedRow <==> row.failed
    ensures !row.failed ==> (row.style == EnhancedRow <==> r.source == EnhancedSource)
    ensures row.source == (if r.source == "" then StandardSource else r.source)
    ensures row.compression == (if r.avgCompression.Some? && r.avgCompression.value != 0.0 then r.avgCompression.value else 1.0)
  {
    var source := OrElse(r.source, StandardSource);
    var sourceStyle := if source == EnhancedSource then EnhancedRow else PlainRow;
    var failed := IsFailed(r);
    TableRow(
      if r.timestamp.Some? && r.timestamp.value != "" then r.timestamp else None,
      OrElse(r.kind, "N/A"),
      SfLabel(r.sf),
      BwLabel(r.bw),
      r.avgRssi.value, r.avgSnr.value, r.avgDatarate.value, r.avgLatency.value,
      source,
      if r.avgCompression.None? || r.avgCompression.value == 0.0 then 1.0 else r.avgCompression.value,
      failed,
      if failed then FailedRow else sourceStyle)
  }

  /** Once a row has thrown, the later rows are never appended. */
  lemma {:induction false} IncompleteSticks(stats: seq<TransmissionStat>, k: nat)
    requires k <= |stats| && !RenderTable(stats[..k]).complete
    ensures RenderTable(stats) == RenderTable(stats[..k])
    decreases |stats| - k
  {
    if k < |stats| {
      var n := |stats| - 1;
      assert stats[..n][..k] == stats[..k];
      IncompleteSticks(stats[..n], k);
      assert !RenderTable(stats[..n]).complete;
    } else {
      assert stats[..k] == stats;
    }
  }

  /** The table body and whether every row could be rendered. */
  datatype TableBuild = TableBuild(rows: seq<TableRow>, complete: bool)

  /**
   * The body built from empty, row by row: the rendered rows up to the first
   * one that throws, and all of them when none does.
   */
  function RenderTable(stats: seq<TransmissionStat>): (t: TableBuild)
    ensures |t.rows| <= |stats|
    ensures t.complete <==> |t.rows| == |stats|
  {
    if |stats| == 0 then TableBuild([], true)
    else
      var n := |stats| - 1;
      var before := RenderTable(stats[..n]);
      if !before.complete then before
      else if Renderable(stats[n]) then TableBuild(before.rows + [RowOf(stats[n])], true)
      else TableBuild(before.rows, false)
  }

  /** Row i of the table is the row of record i. */
  lemma {:induction false} RenderTableRow(stats: seq<TransmissionStat>, i: nat)
    requires i < |RenderTable(stats).rows|
    ensures Renderable(stats[i]) && RenderTable(stats).rows[i] == RowOf(stats[i])
    decreases |stats|
  {
    var n := |stats| - 1;
    var before := RenderTable(stats[..n]);
    if i < |before.rows| {
      RenderTableRow(stats[..n], i);
      assert stats[..n][i] == stats[i];
      assert RenderTable(stats).rows[i] == before.rows[i];
    }
  }

  /** The table stops short exactly at a record that cannot be rendered. */
  lemma {:induction false} RenderTableStops(stats: seq<TransmissionStat>)
    ensures !RenderTable(stats).complete ==> !Renderable(stats[|RenderTable(stats).rows|])
    decreases |stats|
  {
    if |stats| > 0 {
      var n := |stats| - 1;
      RenderTableStops(stats[..n]);
      var before := RenderTable(stats[..n]);
      if !before.complete {
        assert stats[..n][|before.rows|] == stats[|before.rows|];
      }
    }
  }

  /** The rows of a complete table are the rows of the records, one each. */
  lemma RenderTableRows(stats: seq<TransmissionStat>)
    ensures forall i :: 0 <= i < |RenderTable(stats).rows| ==>
      Renderable(stats[i]) && RenderTable(stats).rows[i] == RowOf(stats[i])
  {
    forall i | 0 <= i < |RenderTable(stats).rows|
      ensures Renderable(stats[i]) && RenderTable(stats).rows[i] == RowOf(stats[i])
    {
      RenderTableRow(stats, i);
    }
  }

  /** The table is complete exactly when every record can be rendered. */
  lemma RenderTableComplete(stats: seq<TransmissionStat>)
    ensures RenderTable(stats).complete <==> forall i :: 0 <= i < |stats| ==> Renderable(stats[i])
  {
    if !RenderTable(stats).complete {
      RenderTableStops(stats);
    }
    RenderTableRows(stats);
  }
}
