/**
 * The student and ledger handlers of app.py as guarded transitions over an
 * abstract store. Each handler takes the store's tables and the request's
 * fields and gives the new tables together with an error or a result; a failed
 * request leaves the tables as they were (the database session is rolled back
 * or never committed).
 */
module Ledger {
  import opened Wrappers
  import opened Models
  import Listing

  /** The error responses of the handlers, by HTTP status. */
  datatype Error = BadRequest | Forbidden | NotFound | InternalError | ServiceUnavailable {

    function Code(): int {
      match this
      case BadRequest => 400
      case Forbidden => 403
      case NotFound => 404
      case InternalError => 500
      case ServiceUnavailable => 503
    }
  }

  datatype Result<+T> = Ok(value: T) | Err(error: Error)

  /** The four tables of the store. `students` is keyed by the primary key `uid`. */
  datatype Tables = Tables(
    students: map<string, Student>,
    transactions: seq<TransactionLog>,
    systemLogs: seq<SystemLog>,
    anomalies: seq<Anomaly>)

  /** The tables after a request, and the request's response. */
  datatype Step<+T> = Step(tables: Tables, result: Result<T>)

  /** The empty store that `db.create_all` sets up. */
  const EmptyTables := Tables(map[], [], [], [])

  /**
   * What the schema guarantees of every state: each student is stored under its
   * own uid, every transaction references an existing student, and every
   * telemetry log's flag is 0 or 1.
   */
  predicate Consistent(t: Tables) {
    && (forall k | k in t.students :: t.students[k].uid == k)
    && (forall i | 0 <= i < |t.transactions| :: t.transactions[i].uid in t.students)
    && (forall i | 0 <= i < |t.systemLogs| :: t.systemLogs[i].anomaly in {NormalFlag, AnomalyFlag})
  }

  /** In a consistent store no two entries hold a student with the same uid: uid is a primary key. */
  lemma UidIsPrimaryKey(t: Tables, k1: string, k2: string)
    requires Consistent(t) && k1 in t.students && k2 in t.students
    requires t.students[k1].uid == t.students[k2].uid
    ensures k1 == k2
  {
  }

  /** A JSON field Python treats as false: missing, null or the empty string. */
  predicate Absent(field: Option<string>) {
    field.None? || field.value == ""
  }

  // ------------------------------------------------------------------------
  // Registration
  // ------------------------------------------------------------------------

  /** `register_student`: a new card with status "active" and balance 0. */
  function RegisterStudent(t: Tables, uid: Option<string>, name: Option<string>, phone: Option<string>, now: int): (r: Step<Student>)
    ensures r.result.Err? <==> Absent(uid) || Absent(name) || uid.value in t.students
    ensures r.result.Err? ==> r.result.error == BadRequest && r.tables == t
    ensures r.result.Ok? ==>
      var s := r.result.value;
      && s.uid == uid.value && s.name == name.value && s.phone == phone && s.createdAt == now
      && s.status == Active && s.balance == Some(0)
      && uid.value !in t.students
      && r.tables == t.(students := t.students[uid.value := s])
    ensures |r.tables.students| == |t.students| + (if r.result.Ok? then 1 else 0)
    ensures Consistent(t) ==> Consistent(r.tables)
  {
    if Absent(uid) || Absent(name) then
      Step(t, Err(BadRequest))
    else if uid.value in t.students then
      Step(t, Err(BadRequest))
    else
      var s := NewStudent(uid.value, name.value, phone, now);
      Step(t.(students := t.students[uid.value := s]), Ok(s))
  }

  /** Registering a uid a second time is refused and leaves the student count as it was. */
  lemma DuplicateRegistrationRejected(t: Tables, uid: Option<string>, name: Option<string>, phone: Option<string>,
                                      name2: Option<string>, phone2: Option<string>, now: int, now2: int)
    requires RegisterStudent(t, uid, name, phone, now).result.Ok?
    ensures var t1 := RegisterStudent(t, uid, name, phone, now).tables;
      var again := RegisterStudent(t1, uid, name2, phone2, now2);
      again == Step(t1, Err(BadRequest)) && |again.tables.students| == |t1.students|
  {
  }

  // ------------------------------------------------------------------------
  // Status updates
  // ------------------------------------------------------------------------

  /** `status` names one of "active", "blocked" and "unregistered". */
  predicate ValidStatusField(status: Option<string>) {
    status.Some? && ParseStatus(status.value).Some?
  }

  /** `update_status`: set a card's status to the requested one of the three values. */
  function UpdateStatus(t: Tables, uid: Option<string>, status: Option<string>): (r: Step<Student>)
    ensures r.result == Err(BadRequest) <==> Absent(uid) || !ValidStatusField(status)
    ensures r.result == Err(NotFound) <==> !Absent(uid) && ValidStatusField(status) && uid.value !in t.students
    ensures r.result.Ok? <==> !Absent(uid) && ValidStatusField(status) && uid.value in t.students
    ensures r.result.Err? ==> r.tables == t
    ensures r.result.Ok? ==>
      var s := r.result.value;
      && s.status.Name() == status.value
      && s == t.students[uid.value].(status := s.status)
      && r.tables == t.(students := t.students[uid.value := s])
    ensures Consistent(t) ==> Consistent(r.tables)
  {
    if Absent(uid) || !ValidStatusField(status) then
      Step(t, Err(BadRequest))
    else if uid.value !in t.students then
      Step(t, Err(NotFound))
    else
      var s := t.students[uid.value].(status := ParseStatus(status.value).value);
      Step(t.(students := t.students[uid.value := s]), Ok(s))
  }

  /** `update_status_wrapper`: set a card's status to a fixed value, given only its uid. */
  function SetFixedStatus(t: Tables, uid: Option<string>, status: Status): (r: Step<Student>)
    ensures r.result == Err(BadRequest) <==> Absent(uid)
    ensures r.result == Err(NotFound) <==> !Absent(uid) && uid.value !in t.students
    ensures r.result.Ok? <==> !Absent(uid) && uid.value in t.students
    ensures r.result.Err? ==> r.tables == t
    ensures r.result.Ok? ==>
      && r.result.value == t.students[uid.value].(status := status)
      && r.tables == t.(students := t.students[uid.value := r.result.value])
    ensures Consistent(t) ==> Consistent(r.tables)
  {
    if Absent(uid) then
      Step(t, Err(BadRequest))
    else if uid.value !in t.students then
      Step(t, Err(NotFound))
    else
      var s := t.students[uid.value].(status := status);
      Step(t.(students := t.students[uid.value := s]), Ok(s))
  }

  /** `block_card`. */
  function BlockCard(t: Tables, uid: Option<string>): (r: Step<Student>)
    ensures r.result.Ok? <==> !Absent(uid) && uid.value in t.students
    ensures r.result.Ok? ==> uid.value in r.tables.students && r.tables.students[uid.value].status == Blocked && IsBlocked(r.result.value)
    ensures Consistent(t) ==> Consistent(r.tables)
  {
    SetFixedStatus(t, uid, Blocked)
  }

  /** `unblock_card`. */
  function UnblockCard(t: Tables, uid: Option<string>): (r: Step<Student>)
    ensures r.result.Ok? <==> !Absent(uid) && uid.value in t.students
    ensures r.result.Ok? ==> uid.value in r.tables.students && r.tables.students[uid.value].status == Active
    ensures Consistent(t) ==> Consistent(r.tables)
  {
    SetFixedStatus(t, uid, Active)
  }

  /** `unregister_card`. */
  function UnregisterCard(t: Tables, uid: Option<string>): (r: Step<Student>)
    ensures r.result.Ok? <==> !Absent(uid) && uid.value in t.students
    ensures r.result.Ok? ==> uid.value in r.tables.students && r.tables.students[uid.value].status == Unregistered && !IsBlocked(r.result.value)
    ensures Consistent(t) ==> Consistent(r.tables)
  {
    SetFixedStatus(t, uid, Unregistered)
  }

  /** Applying a shortcut twice gives the state of applying it once, and the second call succeeds too. */
  lemma SetFixedStatusIdempotent(t: Tables, uid: Option<string>, status: Status)
    ensures var once := SetFixedStatus(t, uid, status);
      var twice := SetFixedStatus(once.tables, uid, status);
      twice.tables == once.tables && twice.result == once.result
  {
  }

  /** The status state machine is fully connected: from any status, `update_status` reaches any other. */
  lemma StatusFullyConnected(t: Tables, uid: string, target: Status)
    requires uid != "" && uid in t.students
    ensures var r := UpdateStatus(t, Some(uid), Some(target.Name()));
      r.result.Ok? && r.tables.students[uid].status == target
  {
    ParseStatusName(target);
  }

  // ------------------------------------------------------------------------
  // Balance: recharge and transaction logging
  // ------------------------------------------------------------------------

  /**
   * The `amount` field of a request: missing or null, a value `int(amount)`
   * converts to the integer `n`, or a value `int(amount)` raises on.
   */
  datatype AmountField = NoAmount | IntAmount(n: int) | BadAmount

  /** The checks `recharge_card` and `log_transaction` share, in the order they run. */
  function ChargeGuard(t: Tables, uid: Option<string>, amount: AmountField): (e: Option<Error>)
    ensures e == Some(BadRequest) <==> Absent(uid) || amount.NoAmount?
    ensures e == Some(NotFound) <==> !Absent(uid) && !amount.NoAmount? && uid.value !in t.students
    ensures e == Some(Forbidden) <==>
      !Absent(uid) && !amount.NoAmount? && uid.value in t.students && t.students[uid.value].status != Active
    ensures e.None? <==>
      !Absent(uid) && !amount.NoAmount? && uid.value in t.students && t.students[uid.value].status == Active
  {
    if Absent(uid) || amount.NoAmount? then Some(BadRequest)
    else if uid.value !in t.students then Some(NotFound)
    else if t.students[uid.value].status != Active then Some(Forbidden)
    else None
  }

  /** A stored balance as the handlers read it: null counts as 0. */
  function BalanceOf(s: Student): int {
    s.balance.GetOr(0)
  }

  /** `recharge_card`: add `amount` to an active card's balance; no transaction row is written. */
  function RechargeCard(t: Tables, uid: Option<string>, amount: AmountField): (r: Step<int>)
    ensures ChargeGuard(t, uid, amount).Some? ==> r.result == Err(ChargeGuard(t, uid, amount).value)
    ensures ChargeGuard(t, uid, amount).None? && amount.BadAmount? ==> r.result == Err(InternalError)
    ensures r.result.Ok? <==> ChargeGuard(t, uid, amount).None? && amount.IntAmount?
    ensures r.result.Err? ==> r.tables == t
    ensures r.result.Ok? ==>
      var s := t.students[uid.value];
      && r.result.value == BalanceOf(s) + amount.n
      && r.tables == t.(students := t.students[uid.value := s.(balance := Some(r.result.value))])
    ensures r.tables.transactions == t.transactions
    ensures Consistent(t) ==> Consistent(r.tables)
  {
    var guard := ChargeGuard(t, uid, amount);
    if guard.Some? then
      Step(t, Err(guard.value))
    else if amount.BadAmount? then
      Step(t, Err(InternalError))
    else
      var s := t.students[uid.value];
      var balance := BalanceOf(s) + amount.n;
      Step(t.(students := t.students[uid.value := s.(balance := Some(balance))]), Ok(balance))
  }

  /**
   * `log_transaction`: deduct `amount` from an active card's balance and append one
   * transaction row carrying the raw amount; both changes or neither.
   */
  function LogTransaction(t: Tables, uid: Option<string>, amount: AmountField, now: int): (r: Step<TransactionLog>)
    ensures ChargeGuard(t, uid, amount).Some? ==> r.result == Err(ChargeGuard(t, uid, amount).value)
    ensures ChargeGuard(t, uid, amount).None? && amount.BadAmount? ==> r.result == Err(InternalError)
    ensures r.result.Ok? <==> ChargeGuard(t, uid, amount).None? && amount.IntAmount?
    ensures r.result.Err? ==> r.tables == t
    ensures r.result.Ok? ==>
      var s := t.students[uid.value];
      && r.result.value == TransactionLog(uid.value, amount.n, now)
      && r.tables.transactions == t.transactions + [r.result.value]
      && r.tables.students == t.students[uid.value := s.(balance := Some(BalanceOf(s) - amount.n))]
      && r.tables.systemLogs == t.systemLogs && r.tables.anomalies == t.anomalies
    ensures Consistent(t) ==> Consistent(r.tables)
  {
    var guard := ChargeGuard(t, uid, amount);
    if guard.Some? then
      Step(t, Err(guard.value))
    else if amount.BadAmount? then
      Step(t, Err(InternalError))
    else
      var s := t.students[uid.value];
      var tx := TransactionLog(uid.value, amount.n, now);
      Step(t.(students := t.students[uid.value := s.(balance := Some(BalanceOf(s) - amount.n))],
              transactions := t.transactions + [tx]),
           Ok(tx))
  }

  /**
   * A recharge followed by a transaction of the same amount gives the card back its
   * original balance (a null balance comes back as 0) and leaves one transaction row.
   */
  lemma RechargeThenDebitRestores(t: Tables, uid: Option<string>, a: int, now: int)
    requires RechargeCard(t, uid, IntAmount(a)).result.Ok?
    ensures var t1 := RechargeCard(t, uid, IntAmount(a)).tables;
      var r := LogTransaction(t1, uid, IntAmount(a), now);
      && r.result.Ok?
      && r.tables.students == t.students[uid.value := t.students[uid.value].(balance := Some(BalanceOf(t.students[uid.value])))]
      && r.tables.transactions == t.transactions + [TransactionLog(uid.value, a, now)]
  {
  }

  /** A blocked card is refused both a recharge and a transaction, and nothing changes. */
  lemma BlockedCardIsRefused(t: Tables, uid: string, amount: AmountField, now: int)
    requires uid != "" && uid in t.students && IsBlocked(t.students[uid]) && !amount.NoAmount?
    ensures RechargeCard(t, Some(uid), amount) == Step(t, Err(Forbidden))
    ensures LogTransaction(t, Some(uid), amount, now) == Step(t, Err(Forbidden))
  {
  }

  /** A card just registered is active, so a transaction on it goes through and takes its balance below 0. */
  lemma NewCardCanTransact(t: Tables, uid: string, name: string, amount: int, now: int, later: int)
    requires RegisterStudent(t, Some(uid), Some(name), None, now).result.Ok?
    ensures var t1 := RegisterStudent(t, Some(uid), Some(name), None, now).tables;
      var r := LogTransaction(t1, Some(uid), IntAmount(amount), later);
      r.result.Ok? && r.tables.students[uid].balance == Some(-amount)
  {
  }

  // ------------------------------------------------------------------------
  // Reset and the transaction listing
  // ------------------------------------------------------------------------

  /** How many rows `reset_system` removed from each table. */
  datatype ResetCounts = ResetCounts(transactions: nat, anomalies: nat)

  /** `reset_system`: empty `transactions` and `anomalies`; keep students and telemetry logs. */
  function ResetSystem(t: Tables): (r: (Tables, ResetCounts))
    ensures r.0.transactions == [] && r.0.anomalies == []
    ensures r.0.students == t.students && r.0.systemLogs == t.systemLogs
    ensures r.1 == ResetCounts(|t.transactions|, |t.anomalies|)
    ensures Consistent(t) ==> Consistent(r.0)
  {
    (t.(transactions := [], anomalies := []), ResetCounts(|t.transactions|, |t.anomalies|))
  }

  /** The ordering column of `transaction_logs`. */
  function TransactionTime(tx: TransactionLog): int {
    tx.timestamp
  }

  /** After a reset the transaction listing is empty. */
  lemma ResetEmptiesRecentTransactions(t: Tables)
    ensures Listing.Recent(ResetSystem(t).0.transactions, TransactionTime, Listing.RecentLimit) == []
  {
    Listing.RecentOfEmpty(TransactionTime, Listing.RecentLimit);
  }
}
