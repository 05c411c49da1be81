/**
 * The record types of the card ledger's relational store (models.py).
 *
 * Every column is a plain value here: a nullable column is an `Option`, a
 * `db.Integer` an `int`, a `db.DateTime` an opaque integer timestamp.
 * Auto-increment identifiers (`tid`, `log_id`, `anomaly_id`) are not modelled:
 * a row is identified by its position in its table.
 */
module Models {
  import opened Wrappers

  /** The three values the handlers ever write into `Student.status`. */
  datatype Status = Active | Blocked | Unregistered {

    /** The string stored in the `status` column. */
    function Name(): string {
      match this
      case Active => "active"
      case Blocked => "blocked"
      case Unregistered => "unregistered"
    }
  }

  /** The status a request names, if it names one of the three accepted values. */
  function ParseStatus(s: string): (r: Option<Status>)
    ensures r.Some? <==> s in {"active", "blocked", "unregistered"}
    ensures r.Some? ==> r.value.Name() == s
  {
    if s == "active" then Some(Active)
    else if s == "blocked" then Some(Blocked)
    else if s == "unregistered" then Some(Unregistered)
    else None
  }

  /** Parsing the stored name of a status gives that status back. */
  lemma ParseStatusName(s: Status)
    ensures ParseStatus(s.Name()) == Some(s)
  {
  }

  /**
   * A row of `students`. `uid` is the primary key, `name` is non-null,
   * `phone` is nullable, `createdAt` is set on insert, `status` is non-null
   * and `balance` is a nullable integer.
   */
  datatype Student = Student(
    uid: string,
    name: string,
    phone: Option<string>,
    createdAt: int,
    status: Status,
    balance: Option<int>)

  /** A freshly inserted student: the column defaults are status "active" and balance 0. */
  function NewStudent(uid: string, name: string, phone: Option<string>, now: int): (s: Student)
    ensures s.uid == uid && s.name == name && s.phone == phone && s.createdAt == now
    ensures s.status.Name() == "active" && !IsBlocked(s)
    ensures s.balance == Some(0)
  {
    Student(uid, name, phone, now, Active, Some(0))
  }

  /** `Student.is_blocked`: the status is exactly "blocked". */
  predicate IsBlocked(s: Student) {
    s.status == Blocked
  }

  /** `is_blocked` compares the stored string with "blocked" and nothing else: an unregistered card is not blocked. */
  lemma IsBlockedExactly(s: Student)
    ensures IsBlocked(s) <==> s.status.Name() == "blocked"
    ensures s.status == Unregistered ==> !IsBlocked(s)
    ensures !IsBlocked(s) ==> s.status in {Active, Unregistered}
  {
  }

  /** A row of `transaction_logs`; `uid` references `students.uid` and `amount` is non-null. */
  datatype TransactionLog = TransactionLog(uid: string, amount: int, timestamp: int)

  /**
   * The five telemetry readings of one sample, in the classifier's feature
   * order. `None` stands for the not-a-number sentinel that a missing or
   * non-numeric JSON value is coerced to.
   */
  datatype Readings = Readings(
    cpuUsage: Option<real>,
    memoryUsage: Option<real>,
    wifiSignal: Option<real>,
    readerResponse: Option<real>,
    errorRate: Option<real>)

  /** `SystemLog.anomaly`: 0 means normal, 1 means anomaly. */
  const NormalFlag: int := 0
  const AnomalyFlag: int := 1

  /**
   * A row of `system_logs` as app.py builds it: a timestamp, the five readings
   * and the non-null anomaly flag. Note that models.py declares no
   * `cpu_usage` column for this table although app.py passes one; the record
   * here is the five-reading one app.py intends, and `SystemLogColumns`
   * below keeps the columns models.py actually declares.
   */
  datatype SystemLog = SystemLog(timestamp: int, readings: Readings, anomaly: int)

  /** The columns models.py declares for `system_logs` (no `cpu_usage`). */
  const SystemLogColumns: set<string> :=
    {"log_id", "timestamp", "memory_usage", "wifi_signal", "reader_response", "error_rate", "anomaly"}

  /** The columns app.py evidently expects `system_logs` to have. */
  const IntendedSystemLogColumns: set<string> := SystemLogColumns + {"cpu_usage"}

  /** A row of `anomalies`; `details` keeps the readings snapshot rather than its text rendering. */
  datatype Anomaly = Anomaly(kind: string, source: string, details: Readings, severity: string, timestamp: int)
}
