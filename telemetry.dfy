/**
 * Telemetry ingestion, explicit prediction and the anomaly read-outs of
 * app.py. The classifier is an externally trained artifact: it is a function
 * from the feature vector to a label, or to `None` when inference raises, and
 * it is itself optional (no model file loaded).
 */
module Telemetry {
  import opened Wrappers
  import opened Models
  import opened Ledger
  import Listing

  /** A loaded classifier: the label it gives a feature vector, or `None` when inference raises. */
  type Classifier = seq<real> -> Option<int>

  /** The label the classifier gives an outlier. */
  const OutlierLabel: int := -1

  /** None of the five readings is the not-a-number sentinel. */
  predicate AllNumeric(x: Readings) {
    && x.cpuUsage.Some? && x.memoryUsage.Some? && x.wifiSignal.Some?
    && x.readerResponse.Some? && x.errorRate.Some?
  }

  /** The classifier's input: the readings in the fixed feature order. */
  function FeatureVector(x: Readings): seq<real>
    requires AllNumeric(x)
  {
    [x.cpuUsage.value, x.memoryUsage.value, x.wifiSignal.value, x.readerResponse.value, x.errorRate.value]
  }

  /** A `/system_logs` POST body: the coerced readings and the timestamp, if one parsed. */
  datatype TelemetryRequest = TelemetryRequest(readings: Readings, timestamp: Option<int>)

  /** Why a saved log was not classified. */
  datatype SkipReason = NoModel | NonNumericReading | InferenceFailed

  /** What classification made of a saved log. */
  datatype Classification = Flagged | Normal | Skipped(reason: SkipReason)

  /** The response to a telemetry POST: the log as finally saved, and how it was classified. */
  datatype Ingested = Ingested(log: SystemLog, classification: Classification)

  /** The classification step of ingestion: only a loaded model and five numeric readings consult the classifier. */
  function Classify(x: Readings, model: Option<Classifier>): (c: Classification)
    ensures model.None? ==> c == Skipped(NoModel)
    ensures model.Some? && !AllNumeric(x) ==> c == Skipped(NonNumericReading)
    ensures c == Flagged <==> model.Some? && AllNumeric(x) && model.value(FeatureVector(x)) == Some(OutlierLabel)
    ensures c == Normal <==>
      model.Some? && AllNumeric(x) && model.value(FeatureVector(x)).Some? && model.value(FeatureVector(x)) != Some(OutlierLabel)
    ensures c == Skipped(InferenceFailed) <==> model.Some? && AllNumeric(x) && model.value(FeatureVector(x)).None?
  {
    if model.None? then Skipped(NoModel)
    else if !AllNumeric(x) then Skipped(NonNumericReading)
    else
      match model.value(FeatureVector(x))
      case None => Skipped(InferenceFailed)
      case Some(verdict) => if verdict == OutlierLabel then Flagged else Normal
  }

  /** The anomaly row written for a flagged sample. */
  function SensorAnomaly(x: Readings, now: int): Anomaly {
    Anomaly("System", "Sensor", x, "High", now)
  }

  /**
   * `system_logs` POST: always save one log with flag 0; if the classifier is
   * loaded, all readings are numeric and it labels the sample an outlier, set that
   * log's flag to 1 and append exactly one "High" anomaly. An inference error is
   * swallowed: the log stays at 0 and nothing else is written.
   */
  function IngestTelemetry(t: Tables, body: Option<TelemetryRequest>, model: Option<Classifier>, now: int): (r: Step<Ingested>)
    ensures body.None? <==> r.result.Err?
    ensures body.None? ==> r == Step(t, Err(BadRequest))
    ensures r.result.Ok? ==>
      var x := body.value.readings;
      var log := r.result.value.log;
      var c := r.result.value.classification;
      && r.tables.students == t.students && r.tables.transactions == t.transactions
      && r.tables.systemLogs == t.systemLogs + [log]
      && log.readings == x
      && log.timestamp == body.value.timestamp.GetOr(now)
      && c == Classify(x, model)
      && (c == Flagged <==> model.Some? && AllNumeric(x) && model.value(FeatureVector(x)) == Some(OutlierLabel))
      && (c == Normal <==>
            model.Some? && AllNumeric(x) && model.value(FeatureVector(x)).Some?
            && model.value(FeatureVector(x)) != Some(OutlierLabel))
      && log.anomaly == (if c == Flagged then AnomalyFlag else NormalFlag)
      && r.tables.anomalies == t.anomalies + (if c == Flagged then [SensorAnomaly(x, now)] else [])
      && (model.None? ==> c == Skipped(NoModel))
      && (model.Some? && !AllNumeric(x) ==> c == Skipped(NonNumericReading))
      && (model.Some? && AllNumeric(x) && model.value(FeatureVector(x)).None? ==> c == Skipped(InferenceFailed))
    ensures Consistent(t) ==> Consistent(r.tables)
  {
    if body.None? then
      Step(t, Err(BadRequest))
    else
      var x := body.value.readings;
      var saved := SystemLog(body.value.timestamp.GetOr(now), x, NormalFlag);
      var c := Classify(x, model);
      if c == Flagged then
        var flagged := saved.(anomaly := AnomalyFlag);
        Step(t.(systemLogs := t.systemLogs + [flagged], anomalies := t.anomalies + [SensorAnomaly(x, now)]),
             Ok(Ingested(flagged, c)))
      else
        Step(t.(systemLogs := t.systemLogs + [saved]), Ok(Ingested(saved, c)))
  }

  /**
   * When some reading is not numeric the classifier is never consulted: any two
   * loaded classifiers give the same outcome.
   */
  lemma ClassifierNotConsultedOnNonNumeric(t: Tables, req: TelemetryRequest, m1: Classifier, m2: Classifier, now: int)
    requires !AllNumeric(req.readings)
    ensures IngestTelemetry(t, Some(req), Some(m1), now) == IngestTelemetry(t, Some(req), Some(m2), now)
    ensures IngestTelemetry(t, Some(req), Some(m1), now).tables == IngestTelemetry(t, Some(req), None, now).tables
  {
  }

  /** The keyword arguments app.py passes when it builds a `SystemLog`. */
  const IngestKeywords: set<string> :=
    {"cpu_usage", "memory_usage", "wifi_signal", "reader_response", "error_rate", "anomaly", "timestamp"}

  /**
   * Ingestion as app.py is written against models.py: the `SystemLog`
   * constructor rejects the undeclared `cpu_usage` keyword, so every request
   * with a body ends in an internal error before anything is saved.
   */
  function IngestAsWritten(t: Tables, body: Option<TelemetryRequest>, model: Option<Classifier>, now: int): (r: Step<Ingested>)
    ensures body.None? ==> r == Step(t, Err(BadRequest))
    ensures body.Some? ==> r == Step(t, Err(InternalError))
    ensures Consistent(t) ==> Consistent(r.tables)
  {
    assert "cpu_usage" in IngestKeywords && "cpu_usage" !in SystemLogColumns;
    if body.None? then Step(t, Err(BadRequest))
    else if IngestKeywords <= SystemLogColumns then IngestTelemetry(t, body, model, now)
    else Step(t, Err(InternalError))
  }

  /** With the column app.py expects, the constructor accepts every keyword it is given. */
  lemma IntendedColumnsAcceptIngest()
    ensures IngestKeywords <= IntendedSystemLogColumns
    ensures !(IngestKeywords <= SystemLogColumns)
  {
    assert "cpu_usage" in IngestKeywords && "cpu_usage" !in SystemLogColumns;
  }

  // ------------------------------------------------------------------------
  // Explicit prediction
  // ------------------------------------------------------------------------

  /** The answer of `/predict`. */
  datatype Prediction = AnomalyPrediction | NormalPrediction {

    function Text(): string {
      match this
      case AnomalyPrediction => "Anomaly"
      case NormalPrediction => "Normal"
    }
  }

  /**
   * `predict`: no model gives 503 whatever the body; then a missing body or a
   * non-numeric reading gives 400; otherwise the label decides, and an inference
   * error propagates as 500. Nothing is stored.
   */
  function Predict(body: Option<Readings>, model: Option<Classifier>): (r: Result<Prediction>)
    ensures model.None? ==> r == Err(ServiceUnavailable)
    ensures model.Some? && (body.None? || !AllNumeric(body.value)) ==> r == Err(BadRequest)
    ensures r == Err(InternalError) <==>
      model.Some? && body.Some? && AllNumeric(body.value) && model.value(FeatureVector(body.value)).None?
    ensures r.Ok? <==>
      model.Some? && body.Some? && AllNumeric(body.value) && model.value(FeatureVector(body.value)).Some?
    ensures r.Ok? ==>
      && model.Some? && body.Some? && AllNumeric(body.value) && model.value(FeatureVector(body.value)).Some?
      && (r.value == AnomalyPrediction <==> model.value(FeatureVector(body.value)) == Some(OutlierLabel))
      && (r.value == NormalPrediction <==> model.value(FeatureVector(body.value)) != Some(OutlierLabel))
  {
    if model.None? then Err(ServiceUnavailable)
    else if body.None? || !AllNumeric(body.value) then Err(BadRequest)
    else
      match model.value(FeatureVector(body.value))
      case None => Err(InternalError)
      case Some(verdict) => Ok(if verdict == OutlierLabel then AnomalyPrediction else NormalPrediction)
  }

  /** `/predict` answers "Anomaly" exactly when ingesting the same readings would flag the log. */
  lemma PredictAgreesWithIngest(t: Tables, x: Readings, ts: Option<int>, m: Classifier, now: int)
    ensures Predict(Some(x), Some(m)) == Ok(AnomalyPrediction) <==>
      IngestTelemetry(t, Some(TelemetryRequest(x, ts)), Some(m), now).result.value.classification == Flagged
    ensures Predict(Some(x), Some(m)) == Ok(NormalPrediction) <==>
      IngestTelemetry(t, Some(TelemetryRequest(x, ts)), Some(m), now).result.value.classification == Normal
  {
  }

  // ------------------------------------------------------------------------
  // Read-outs
  // ------------------------------------------------------------------------

  /** The ordering column of `system_logs`. */
  function LogTime(log: SystemLog): int {
    log.timestamp
  }

  /** The ordering column of `anomalies`. */
  function AnomalyTime(a: Anomaly): int {
    a.timestamp
  }

  /** How many anomalies carry `severity`. */
  function CountSeverity(a: seq<Anomaly>, severity: string): (n: nat)
    ensures n <= |a|
    ensures n == 0 <==> forall i | 0 <= i < |a| :: a[i].severity != severity
  {
    if a == [] then 0
    else CountSeverity(a[..|a| - 1], severity) + (if a[|a| - 1].severity == severity then 1 else 0)
  }

  /** How many logs carry the anomaly flag. */
  function CountFlagged(logs: seq<SystemLog>): (n: nat)
    ensures n <= |logs|
    ensures n == 0 <==> forall i | 0 <= i < |logs| :: logs[i].anomaly != AnomalyFlag
  {
    if logs == [] then 0
    else CountFlagged(logs[..|logs| - 1]) + (if logs[|logs| - 1].anomaly == AnomalyFlag then 1 else 0)
  }

  /** Each anomaly has one severity, so the three severity counts together do not exceed the total. */
  lemma {:induction false} SeverityCountsBounded(a: seq<Anomaly>)
    ensures CountSeverity(a, "High") + CountSeverity(a, "Medium") + CountSeverity(a, "Low") <= |a|
  {
    if a != [] {
      SeverityCountsBounded(a[..|a| - 1]);
    }
  }

  /** The figures of `/anomalies_dashboard`; the rate is a percentage, not rounded. */
  datatype Dashboard = Dashboard(
    totalAnomalies: nat, high: nat, medium: nat, low: nat, systemLogs: nat, anomalyRate: real)

  /** `anomalies_dashboard`. */
  function AnomaliesDashboard(t: Tables): (d: Dashboard)
    ensures d.totalAnomalies == |t.anomalies| && d.systemLogs == |t.systemLogs|
    ensures d.high == CountSeverity(t.anomalies, "High")
    ensures d.medium == CountSeverity(t.anomalies, "Medium")
    ensures d.low == CountSeverity(t.anomalies, "Low")
    ensures d.high + d.medium + d.low <= d.totalAnomalies
    ensures d.systemLogs == 0 ==> d.anomalyRate == 0.0
    ensures d.systemLogs > 0 ==> d.anomalyRate * (d.systemLogs as real) == 100.0 * (CountFlagged(t.systemLogs) as real)
    ensures 0.0 <= d.anomalyRate <= 100.0
  {
    SeverityCountsBounded(t.anomalies);
    var logs := |t.systemLogs|;
    var flagged := CountFlagged(t.systemLogs);
    var rate := if logs == 0 then 0.0 else (flagged as real / logs as real) * 100.0;
    assert logs > 0 ==> flagged as real / logs as real <= 1.0;
    Dashboard(|t.anomalies|, CountSeverity(t.anomalies, "High"), CountSeverity(t.anomalies, "Medium"),
              CountSeverity(t.anomalies, "Low"), logs, rate)
  }

  /** Counting after appending one row adds that row's contribution. */
  lemma CountSeverityAppend(a: seq<Anomaly>, x: Anomaly, severity: string)
    ensures CountSeverity(a + [x], severity) == CountSeverity(a, severity) + (if x.severity == severity then 1 else 0)
  {
    assert (a + [x])[..|a|] == a;
  }

  /** Counting flagged logs after appending one log adds that log's contribution. */
  lemma CountFlaggedAppend(logs: seq<SystemLog>, x: SystemLog)
    ensures CountFlagged(logs + [x]) == CountFlagged(logs) + (if x.anomaly == AnomalyFlag then 1 else 0)
  {
    assert (logs + [x])[..|logs|] == logs;
  }

  /**
   * The dashboard after one telemetry POST: one more log; a flagged sample adds one
   * anomaly, one "High" and one flagged log, an unflagged one none.
   */
  lemma IngestMovesDashboard(t: Tables, req: TelemetryRequest, model: Option<Classifier>, now: int)
    ensures var r := IngestTelemetry(t, Some(req), model, now);
      var before := AnomaliesDashboard(t);
      var after := AnomaliesDashboard(r.tables);
      var bump := if r.result.value.classification == Flagged then 1 else 0;
      && after.systemLogs == before.systemLogs + 1
      && after.totalAnomalies == before.totalAnomalies + bump
      && after.high == before.high + bump
      && after.medium == before.medium && after.low == before.low
      && CountFlagged(r.tables.systemLogs) == CountFlagged(t.systemLogs) + bump
  {
    var r := IngestTelemetry(t, Some(req), model, now);
    CountFlaggedAppend(t.systemLogs, r.result.value.log);
    if r.result.value.classification == Flagged {
      var a := SensorAnomaly(req.readings, now);
      CountSeverityAppend(t.anomalies, a, "High");
      CountSeverityAppend(t.anomalies, a, "Medium");
      CountSeverityAppend(t.anomalies, a, "Low");
    }
  }

  /** After a reset the anomaly listing and every anomaly count are empty, while the log count stays. */
  lemma ResetClearsAnomalyReadouts(t: Tables)
    ensures var t1 := ResetSystem(t).0;
      && Listing.Recent(t1.anomalies, AnomalyTime, Listing.RecentLimit) == []
      && AnomaliesDashboard(t1).totalAnomalies == 0
      && AnomaliesDashboard(t1).systemLogs == AnomaliesDashboard(t).systemLogs
  {
    Listing.RecentOfEmpty(AnomalyTime, Listing.RecentLimit);
  }
}
