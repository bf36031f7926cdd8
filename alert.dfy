/**
 * Threshold alerts: the side of the boundary an alert fired on, stored as a
 * boolean and reported as a JSON side, and the conversion of a stored alert to
 * its JSON form, which reports the threshold with the statistic the alert was
 * raised under rather than the threshold's current one.
 */
module Alert {
  import opened Wrappers

  datatype Side = Left | Right

  datatype JsonSide = JsonLeft | JsonRight

  /** The enum's declared discriminants: `Left = 0`, `Right = 1`. */
  function Discriminant(side: Side): nat
  {
    match side
    case Left => 0
    case Right => 1
  }

  /** `From<bool> for Side`. */
  function SideFromBool(b: bool): (r: Side)
    ensures r.Right? <==> b
  {
    if b then Right else Left
  }

  /** `From<Side> for bool`. */
  function BoolFromSide(side: Side): (r: bool)
    ensures r <==> Discriminant(side) == 1
  {
    match side
    case Left => false
    case Right => true
  }

  /** `From<Side> for JsonSide`. */
  function ToJsonSide(side: Side): (r: JsonSide)
    ensures r.JsonLeft? <==> side.Left?
  {
    match side
    case Left => JsonLeft
    case Right => JsonRight
  }

  /** bool to side to bool is the identity. */
  lemma BoolSideBool(b: bool)
    ensures BoolFromSide(SideFromBool(b)) == b
  {
  }

  /** side to bool to side is the identity, and the stored boolean is the discriminant. */
  lemma SideBoolSide(side: Side)
    ensures SideFromBool(BoolFromSide(side)) == side
    ensures BoolFromSide(side) <==> Discriminant(side) == 1
  {
  }

  /** The JSON side names the same side, and distinct sides stay distinct. */
  lemma JsonSideFaithful(a: Side, b: Side)
    ensures ToJsonSide(a) == (if a.Left? then JsonLeft else JsonRight)
    ensures ToJsonSide(a) == ToJsonSide(b) ==> a == b
  {
  }

  // ---------------------------------------------------------------------------
  // A stored alert as JSON

  datatype Uuid = Uuid(bits: nat)

  datatype ApiError = NotFound(table: string, id: int) | BadUuid(text: string)

  /** The stored alert row; `boundary` and `outlier` are carried as they are. */
  datatype QueryAlert = QueryAlert(
    id: int, uuid: string, perf_id: int, threshold_id: int, statistic_id: int,
    side: bool, boundary: real, outlier: real)

  /** A Rust `i32`. */
  type I32 = i: int | -0x8000_0000 <= i < 0x8000_0000

  /** The fields of a perf row the conversion reads. */
  datatype QueryPerf = QueryPerf(id: int, report_id: int, iteration: I32, benchmark_id: int)

  /** The fields of a threshold row the conversion reads or rewrites. */
  datatype QueryThreshold = QueryThreshold(id: int, uuid: Uuid, metric_kind_id: int, statistic_id: int)

  datatype JsonBenchmarkMetric = JsonBenchmarkMetric(uuid: Uuid, project: Uuid, name: string, metric: real)

  datatype JsonThreshold = JsonThreshold(uuid: Uuid, statistic: Uuid)

  datatype JsonAlert = JsonAlert(
    uuid: Uuid, report: Uuid, iteration: nat, benchmark: JsonBenchmarkMetric,
    threshold: JsonThreshold, side: JsonSide, boundary: real, outlier: real)

  /** The queries and conversions the alert conversion calls, each free to fail. */
  datatype Database = Database(
    perf: int -> Result<QueryPerf, ApiError>,
    threshold: int -> Result<QueryThreshold, ApiError>,
    reportUuid: int -> Result<Uuid, ApiError>,
    benchmarkMetric: (int, int, int) -> Result<JsonBenchmarkMetric, ApiError>,
    thresholdJson: QueryThreshold -> Result<JsonThreshold, ApiError>,
    parseUuid: string -> Result<Uuid, ApiError>)

  const U32_MODULUS: nat := 0x1_0000_0000

  /** Rust's `as u32` on an `i32`: the same bits read as unsigned, so a negative value wraps. */
  function AsU32(i: I32): (r: nat)
    ensures r < U32_MODULUS
    ensures 0 <= i ==> r == i
    ensures i < 0 ==> r == i + U32_MODULUS
  {
    i % U32_MODULUS
  }

  /** The threshold row as the alert reports it: with the alert's own statistic. */
  function ReportedThreshold(alert: QueryAlert, current: QueryThreshold): (r: QueryThreshold)
    ensures r.statistic_id == alert.statistic_id
    ensures r.(statistic_id := current.statistic_id) == current
  {
    current.(statistic_id := alert.statistic_id)
  }

  /** `QueryAlert::into_json`; the steps fail in the order the source calls them. */
  function IntoJson(alert: QueryAlert, db: Database): (r: Result<JsonAlert, ApiError>)
    ensures db.perf(alert.perf_id).Err? ==> r == Err(db.perf(alert.perf_id).error)
    ensures db.perf(alert.perf_id).Ok? && db.threshold(alert.threshold_id).Err? ==> r == Err(db.threshold(alert.threshold_id).error)
    ensures r.Ok? ==> && db.perf(alert.perf_id).Ok? && db.threshold(alert.threshold_id).Ok?
                      && db.parseUuid(alert.uuid).Ok? && r.value.uuid == db.parseUuid(alert.uuid).value
                      && db.reportUuid(db.perf(alert.perf_id).value.report_id).Ok?
                      && r.value.report == db.reportUuid(db.perf(alert.perf_id).value.report_id).value
  {
    var perf :- db.perf(alert.perf_id);
    var current :- db.threshold(alert.threshold_id);
    var threshold := ReportedThreshold(alert, current);
    var uuid :- db.parseUuid(alert.uuid);
    var report :- db.reportUuid(perf.report_id);
    var benchmark :- db.benchmarkMetric(perf.id, threshold.metric_kind_id, perf.benchmark_id);
    var thresholdJson :- db.thresholdJson(threshold);
    Ok(JsonAlert(uuid, report, AsU32(perf.iteration), benchmark, thresholdJson,
                 ToJsonSide(SideFromBool(alert.side)), alert.boundary, alert.outlier))
  }

  /**
   * A successful conversion reports the threshold rewritten to carry the alert's statistic id,
   * the side the stored boolean encodes, and the stored boundary and outlier.
   */
  lemma IntoJsonReportsAlertStatistic(alert: QueryAlert, db: Database)
    requires IntoJson(alert, db).Ok?
    ensures db.threshold(alert.threshold_id).Ok?
    ensures var current := db.threshold(alert.threshold_id).value;
      && db.thresholdJson(current.(statistic_id := alert.statistic_id)).Ok?
      && IntoJson(alert, db).value.threshold == db.thresholdJson(current.(statistic_id := alert.statistic_id)).value
    ensures IntoJson(alert, db).value.side == (if alert.side then JsonRight else JsonLeft)
    ensures IntoJson(alert, db).value.iteration == AsU32(db.perf(alert.perf_id).value.iteration)
    ensures IntoJson(alert, db).value.boundary == alert.boundary && IntoJson(alert, db).value.outlier == alert.outlier
  {
  }

  /** The threshold's current statistic id never reaches the result: only the alert's does. */
  lemma IntoJsonIgnoresCurrentStatistic(alert: QueryAlert, db1: Database, db2: Database)
    requires db1.perf == db2.perf && db1.reportUuid == db2.reportUuid && db1.benchmarkMetric == db2.benchmarkMetric
    requires db1.thresholdJson == db2.thresholdJson && db1.parseUuid == db2.parseUuid
    requires db1.threshold(alert.threshold_id).Ok? && db2.threshold(alert.threshold_id).Ok?
    requires db1.threshold(alert.threshold_id).value.(statistic_id := 0) == db2.threshold(alert.threshold_id).value.(statistic_id := 0)
    ensures IntoJson(alert, db1) == IntoJson(alert, db2)
  {
    var t1 := db1.threshold(alert.threshold_id).value;
    var t2 := db2.threshold(alert.threshold_id).value;
    assert ReportedThreshold(alert, t1) == ReportedThreshold(alert, t2);
  }
}
