/**
 * The store the handlers of app.py change in place: a `students` table keyed
 * by uid, and the append-only `transactions`, `systemLogs` and `anomalies`
 * tables. The classifier handle is loaded once and read-only afterwards.
 * Each handler method changes the fields the way its transition in `Ledger`
 * or `Telemetry` says, and keeps the schema's guarantees (`Valid`).
 */
module Store {
  import opened Wrappers
  import opened Models
  import opened Ledger
  import opened Telemetry
  import Listing

  class CardStore {
    var students: map<string, Student>
    var transactions: seq<TransactionLog>
    var systemLogs: seq<SystemLog>
    var anomalies: seq<Anomaly>
    const model: Option<Classifier>

    /** The tables as a value. */
    function Snapshot(): Tables
      reads this
    {
      Tables(students, transactions, systemLogs, anomalies)
    }

    ghost predicate Valid()
      reads this
    {
      Consistent(Snapshot())
    }

    /** A fresh, empty store with the classifier found at start-up, if any. */
    constructor (model: Option<Classifier>)
      ensures Valid() && Snapshot() == EmptyTables && this.model == model
    {
      students, transactions, systemLogs, anomalies := map[], [], [], [];
      this.model := model;
    }

    /** `register_student`. */
    method RegisterStudent(uid: Option<string>, name: Option<string>, phone: Option<string>, now: int) returns (r: Result<Student>)
      requires Valid()
      modifies this
      ensures Valid()
      ensures Step(Snapshot(), r) == Ledger.RegisterStudent(old(Snapshot()), uid, name, phone, now)
    {
      if Absent(uid) || Absent(name) {
        return Err(BadRequest);
      }
      if uid.value in students {
        return Err(BadRequest);
      }
      var student := NewStudent(uid.value, name.value, phone, now);
      students := students[uid.value := student];
      r := Ok(student);
    }

    /** `update_status`. */
    method UpdateStatus(uid: Option<string>, status: Option<string>) returns (r: Result<Student>)
      requires Valid()
      modifies this
      ensures Valid()
      ensures Step(Snapshot(), r) == Ledger.UpdateStatus(old(Snapshot()), uid, status)
    {
      if Absent(uid) || status.None? {
        return Err(BadRequest);
      }
      var parsed := ParseStatus(status.value);
      if parsed.None? {
        return Err(BadRequest);
      }
      if uid.value !in students {
        return Err(NotFound);
      }
      var student := students[uid.value].(status := parsed.value);
      students := students[uid.value := student];
      r := Ok(student);
    }

    /** `update_status_wrapper`, shared by the three shortcut endpoints. */
    method UpdateStatusWrapper(uid: Option<string>, status: Status) returns (r: Result<Student>)
      requires Valid()
      modifies this
      ensures Valid()
      ensures Step(Snapshot(), r) == Ledger.SetFixedStatus(old(Snapshot()), uid, status)
    {
      if Absent(uid) {
        return Err(BadRequest);
      }
      if uid.value !in students {
        return Err(NotFound);
      }
      var student := students[uid.value].(status := status);
      students := students[uid.value := student];
      r := Ok(student);
    }

    /** `block_card`. */
    method BlockCard(uid: Option<string>) returns (r: Result<Student>)
      requires Valid()
      modifies this
      ensures Valid()
      ensures Step(Snapshot(), r) == Ledger.BlockCard(old(Snapshot()), uid)
    {
      r := UpdateStatusWrapper(uid, Blocked);
    }

    /** `unblock_card`. */
    method UnblockCard(uid: Option<string>) returns (r: Result<Student>)
      requires Valid()
      modifies this
      ensures Valid()
      ensures Step(Snapshot(), r) == Ledger.UnblockCard(old(Snapshot()), uid)
    {
      r := UpdateStatusWrapper(uid, Active);
    }

    /** `unregister_card`. */
    method UnregisterCard(uid: Option<string>) returns (r: Result<Student>)
      requires Valid()
      modifies this
      ensures Valid()
      ensures Step(Snapshot(), r) == Ledger.UnregisterCard(old(Snapshot()), uid)
    {
      r := UpdateStatusWrapper(uid, Unregistered);
    }

    /** `recharge_card`: the new balance, or the first check that failed. */
    method RechargeCard(uid: Option<string>, amount: AmountField) returns (r: Result<int>)
      requires Valid()
      modifies this
      ensures Valid()
      ensures Step(Snapshot(), r) == Ledger.RechargeCard(old(Snapshot()), uid, amount)
    {
      if Absent(uid) || amount.NoAmount? {
        return Err(BadRequest);
      }
      if uid.value !in students {
        return Err(NotFound);
      }
      var student := students[uid.value];
      if student.status != Active {
        return Err(Forbidden);
      }
      if amount.BadAmount? {
        // int(amount) raised inside the try block: the session is rolled back.
        return Err(InternalError);
      }
      var balance := BalanceOf(student) + amount.n;
      students := students[uid.value := student.(balance := Some(balance))];
      r := Ok(balance);
    }

    /** `log_transaction`: the balance change and the new row are committed together. */
    method LogTransaction(uid: Option<string>, amount: AmountField, now: int) returns (r: Result<TransactionLog>)
      requires Valid()
      modifies this
      ensures Valid()
      ensures Step(Snapshot(), r) == Ledger.LogTransaction(old(Snapshot()), uid, amount, now)
    {
      if Absent(uid) || amount.NoAmount? {
        return Err(BadRequest);
      }
      if uid.value !in students {
        return Err(NotFound);
      }
      var student := students[uid.value];
      if student.status != Active {
        return Err(Forbidden);
      }
      if amount.BadAmount? {
        // int(amount) raised before either change reached the session.
        return Err(InternalError);
      }
      var tx := TransactionLog(uid.value, amount.n, now);
      students := students[uid.value := student.(balance := Some(BalanceOf(student) - amount.n))];
      transactions := transactions + [tx];
      r := Ok(tx);
    }

    /** `reset_system`: how many transactions and anomalies were deleted. */
    method ResetSystem() returns (counts: ResetCounts)
      requires Valid()
      modifies this
      ensures Valid()
      ensures (Snapshot(), counts) == Ledger.ResetSystem(old(Snapshot()))
    {
      counts := ResetCounts(|transactions|, |anomalies|);
      transactions := [];
      anomalies := [];
    }

    /** `recent_transactions`. */
    method RecentTransactions() returns (r: seq<TransactionLog>)
      ensures r == Listing.Recent(transactions, TransactionTime, Listing.RecentLimit)
    {
      r := Listing.Recent(transactions, TransactionTime, Listing.RecentLimit);
    }

    /** `system_logs` POST: save the sample, then classify it if a model is loaded and every reading is numeric. */
    method RecordSystemLog(body: Option<TelemetryRequest>, now: int) returns (r: Result<Ingested>)
      requires Valid()
      modifies this
      ensures Valid()
      ensures Step(Snapshot(), r) == Telemetry.IngestTelemetry(old(Snapshot()), body, model, now)
    {
      if body.None? {
        return Err(BadRequest);
      }
      var readings := body.value.readings;
      var log := SystemLog(body.value.timestamp.GetOr(now), readings, NormalFlag);
      systemLogs := systemLogs + [log];
      if model.None? {
        return Ok(Ingested(log, Skipped(NoModel)));
      }
      if !AllNumeric(readings) {
        return Ok(Ingested(log, Skipped(NonNumericReading)));
      }
      var prediction := model.value(FeatureVector(readings));
      if prediction.None? {
        // The inference error is logged and swallowed; the log keeps flag 0.
        return Ok(Ingested(log, Skipped(InferenceFailed)));
      }
      if prediction.value != OutlierLabel {
        return Ok(Ingested(log, Normal));
      }
      log := log.(anomaly := AnomalyFlag);
      systemLogs := systemLogs[|systemLogs| - 1 := log];
      anomalies := anomalies + [SensorAnomaly(readings, now)];
      r := Ok(Ingested(log, Flagged));
    }

    /** `system_logs` GET. */
    method RecentSystemLogs() returns (r: seq<SystemLog>)
      ensures r == Listing.Recent(systemLogs, LogTime, Listing.RecentLimit)
    {
      r := Listing.Recent(systemLogs, LogTime, Listing.RecentLimit);
    }

    /** `anomalies`. */
    method RecentAnomalies() returns (r: seq<Anomaly>)
      ensures r == Listing.Recent(anomalies, AnomalyTime, Listing.RecentLimit)
    {
      r := Listing.Recent(anomalies, AnomalyTime, Listing.RecentLimit);
    }

    /** `anomalies_dashboard`. */
    method AnomaliesDashboard() returns (d: Dashboard)
      ensures d == Telemetry.AnomaliesDashboard(Snapshot())
    {
      d := Telemetry.AnomaliesDashboard(Snapshot());
    }

    /** `predict`, with the store's classifier. */
    method Predict(body: Option<Readings>) returns (r: Result<Prediction>)
      ensures r == Telemetry.Predict(body, model)
    {
      r := Telemetry.Predict(body, model);
    }
  }
}
