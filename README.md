# Campus card ledger — a Dafny model of its business rules

The system is a small HTTP backend for student RFID cards. Cards are
registered, blocked, unblocked and unregistered. Active cards are recharged
and charged. Every charge is written to an append-only transaction ledger.
Device telemetry samples are stored, and a pre-trained outlier classifier
flags some of them as anomalies. This project models the handlers' rules as
guarded transitions over an abstract in-memory store with four tables: a
`students` map keyed by uid, and append-only `transactions`, `systemLogs` and
`anomalies` sequences.

Layout, one module per file:

- `wrappers.dfy` — `Wrappers`: the `Option` type.
- `models.dfy` — `Models`: the record types of `models.py` (`Student`,
  `TransactionLog`, `SystemLog`, `Anomaly`), the column defaults, the status
  values, and `is_blocked`.
- `listing.dfy` — `Listing`: "newest first, at most 10 rows"
  (`ORDER BY timestamp DESC LIMIT 10`), written as a stable insertion sort
  followed by a prefix.
- `ledger.dfy` — `Ledger`: the store as a value (`Tables`) and the student
  and ledger handlers as functions from the old tables and the request to the
  new tables and a response (`Step`). Also holds the reset.
- `telemetry.dfy` — `Telemetry`: telemetry ingestion, `/predict` and the
  dashboard counts.
- `store.dfy` — `Store`: the class `CardStore`. Its fields are the four
  tables and the read-only classifier handle. It has one method per handler.
  Each method updates the fields in place, step by step as the handler does,
  and is proved to reach exactly the state and response of its `Ledger` or
  `Telemetry` transition. It is also proved to keep the schema's guarantees
  (`Valid`: every student is stored under its own uid, every transaction
  references a student, every log flag is 0 or 1).

Abstractions:

- The classifier is a parameter of the form `seq<real> -> Option<int>`. It
  is wrapped in an `Option`, because no model may be loaded. An inner `None`
  means inference raised.
- A telemetry reading is an `Option<real>`; `None` is the not-a-number
  sentinel.
- Timestamps are integers. The handler's clock is a `now` parameter.
- A request's `amount` is missing (`NoAmount`), an integer that `int(amount)`
  produced (`IntAmount`), or a value that `int(amount)` raises on
  (`BadAmount`). The last gives 500 with nothing changed.
- A uid or name counts as missing when it is absent, null or empty, as
  Python's `not uid` does.

Behaviour of the handlers worth noting:

- A duplicate registration returns 400 (app.py:96-97); there is no separate conflict status.
- `/predict` checks for a loaded model before it looks at the input. With no
  model it returns 503 even when a feature is missing (app.py:316-325).
- The recharge and transaction handlers first reject a missing uid or amount
  with 400. Only then do they check for an unknown uid (404) and an inactive
  card (403) (app.py:186-194, 341-350).

## Model

| member | source | states |
|---|---|---|
| `Models.ParseStatus` | app.py:122 | a status string is accepted exactly when it is "active", "blocked" or "unregistered", and the parsed status stores that same string |
| `Models.NewStudent` | models.py:11-13 | a new student record carries the given uid, name and phone, is created now, has status "active" (so it is not blocked) and balance 0 |
| `Models.ParseStatusName` | models.py:12 | each of the three statuses parses back from its stored name |
| `Models.IsBlockedExactly` | models.py:15-16 | `is_blocked` holds iff the status is "blocked"; an unregistered card is not blocked |
| `Ledger.Consistent` | models.py:22-23 | the schema's guarantees of a state: every student is stored under its own uid (primary key, models.py:8), every transaction's uid is a stored student (foreign key), and every telemetry log's non-null flag is 0 or 1 (models.py:36); every `Ledger` and `Telemetry` transition's contract says it keeps it, and every `CardStore` method keeps it as `Valid` |
| `Ledger.UidIsPrimaryKey` | models.py:8 | in a consistent store two entries holding the same uid are the same entry: at most one student per uid |
| `Ledger.RegisterStudent` | app.py:93-102 | fails with 400 iff uid or name is missing or the uid is already a key, and then nothing changes; otherwise exactly one student is added under the new uid with the given name and phone, status active, balance 0, created now; the count grows by one; schema guarantees kept |
| `Ledger.DuplicateRegistrationRejected` | app.py:96-97 | after a successful registration, registering the same uid again gives 400 and leaves the student count unchanged |
| `Ledger.UpdateStatus` | app.py:119-133 | 400 iff the uid is missing or the status is not one of the three values; 404 iff the input is valid but the uid is unknown; on any error nothing changes; on success only that uid's status changes, to the requested one |
| `Ledger.SetFixedStatus` | app.py:154-168 | 400 iff the uid is missing, 404 iff it is unknown, nothing changes on error; otherwise only that uid's status changes, to the fixed one |
| `Ledger.BlockCard` | app.py:142-144 | succeeds iff the uid is given and known, and then the card is blocked |
| `Ledger.UnblockCard` | app.py:146-148 | succeeds iff the uid is given and known, and then the card is active |
| `Ledger.UnregisterCard` | app.py:150-152 | succeeds iff the uid is given and known, and then the card is unregistered and not blocked |
| `Ledger.SetFixedStatusIdempotent` | app.py:163-168 | applying the same shortcut twice gives the same tables and the same response as applying it once |
| `Ledger.StatusFullyConnected` | app.py:122-132 | for a known card, `update_status` reaches any of the three statuses from any status |
| `Ledger.ChargeGuard` | app.py:186-194 | the checks in order: missing uid or amount gives 400, then an unknown uid gives 404, then a non-active card gives 403; no error exactly when the card exists and is active |
| `Ledger.RechargeCard` | app.py:186-208 | the guard's error, or a 500 on an amount `int()` raises on, each with nothing changed; otherwise the new balance is the old balance (null as 0) plus the amount, only that card's balance changes, and no transaction row is appended |
| `Ledger.LogTransaction` | app.py:341-360 | the same guards, each with nothing changed; otherwise the balance becomes the old balance (null as 0) minus the amount, exactly one row (uid, raw amount, now) is appended, the telemetry tables are untouched, and the returned row is that row |
| `Ledger.RechargeThenDebitRestores` | app.py:352-357 | a successful recharge by `a` followed by a transaction of `a` succeeds, restores the original balance (null becomes 0), and leaves exactly one new transaction row |
| `Ledger.BlockedCardIsRefused` | app.py:193-194 | a blocked card gets 403 on both recharge and transaction, and the tables stay as they were |
| `Ledger.NewCardCanTransact` | app.py:99-101 | a just-registered card is active, so a transaction on it succeeds and leaves balance `-amount` |
| `Ledger.ResetSystem` | app.py:237-242 | transactions and anomalies become empty; the counts returned are their previous lengths; students and telemetry logs are unchanged |
| `Ledger.ResetEmptiesRecentTransactions` | app.py:247-250 | after a reset the recent-transactions listing is empty |
| `Listing.SortDesc` | app.py:249 | the rows ordered newest first: a permutation of the table, ordered by timestamp descending |
| `Listing.Recent` | app.py:249 | at most `limit` rows (all of them when the table is shorter), newest first, drawn from the table, and no row left out is newer than any row listed |
| `Listing.RecentOfEmpty` | app.py:311 | listing an empty table gives the empty sequence |
| `Telemetry.Classify` | app.py:288-292 | the classifier is consulted only when a model is loaded and every reading is numeric (with no model it is skipped for `NoModel`, with a model and a non-numeric reading for `NonNumericReading`); the sample is flagged iff the label is -1, normal iff another label comes back, and skipped for an inference error iff inference raises |
| `Telemetry.IngestTelemetry` | app.py:258-307 | (with the `cpu_usage` column app.py expects; see Findings) a missing body gives 400 with nothing changed; otherwise exactly one log is appended with the given readings, the parsed timestamp or now, and flag 0; the log is flagged 1, and exactly one System/Sensor/High anomaly is appended, iff a model is loaded, every reading is numeric and the label is -1; otherwise no anomaly is appended; the reported classification is exactly `Classify`'s: Normal iff the classifier returns a label other than -1, otherwise the skip reason (no model, non-numeric reading, inference error); students and transactions untouched; schema guarantees kept |
| `Telemetry.ClassifierNotConsultedOnNonNumeric` | app.py:288 | with a non-numeric reading the outcome is the same for every loaded classifier, and the tables are the same as with no model |
| `Telemetry.IngestAsWritten` | app.py:276-284 | as written against models.py, every telemetry POST with a body ends in 500 and stores nothing |
| `Telemetry.IntendedColumnsAcceptIngest` | models.py:27-36 | the declared columns lack `cpu_usage`, which app.py passes; with that column added, every keyword app.py passes is a column |
| `Telemetry.Predict` | app.py:314-329 | 503 when no model is loaded, whatever the input; then 400 for a missing body or any non-numeric reading; 500 iff inference raises; success exactly when a model is loaded, every reading is numeric and inference returns a label, and then "Anomaly" iff the label is -1 and "Normal" iff it is not |
| `Telemetry.PredictAgreesWithIngest` | app.py:327-328 | `/predict` answers Anomaly (or Normal) exactly when ingesting the same readings with the same classifier flags the log (or classifies it normal) |
| `Telemetry.CountSeverity` | app.py:217-219 | a severity count is at most the number of anomalies, and it is 0 iff no anomaly has that severity |
| `Telemetry.CountFlagged` | app.py:222 | the flagged-log count is at most the number of logs, and it is 0 iff no log is flagged |
| `Telemetry.SeverityCountsBounded` | app.py:216-219 | High + Medium + Low is at most the total anomaly count |
| `Telemetry.AnomaliesDashboard` | app.py:214-231 | the totals are the table sizes; each severity figure counts only that severity and the three sum to at most the total; the rate is 0 with no logs, otherwise 100 × flagged / logs, and it lies in [0, 100] |
| `Telemetry.IngestMovesDashboard` | app.py:285-301 | one telemetry POST adds one log; a flagged sample also adds one anomaly, one High and one flagged log, and an unflagged sample adds none; Medium and Low do not move |
| `Telemetry.ResetClearsAnomalyReadouts` | app.py:239-241 | after a reset the anomaly listing is empty and the anomaly total is 0, while the log count is unchanged |
| `Store.CardStore.RegisterStudent` | app.py:83-104 | updates the tables in place to exactly the state and response of `Ledger.RegisterStudent`, keeping `Valid` |
| `Store.CardStore.UpdateStatus` | app.py:113-139 | in place, exactly `Ledger.UpdateStatus` |
| `Store.CardStore.UpdateStatusWrapper` | app.py:154-174 | in place, exactly `Ledger.SetFixedStatus` |
| `Store.CardStore.BlockCard` | app.py:142-144 | in place, exactly `Ledger.BlockCard` |
| `Store.CardStore.UnblockCard` | app.py:146-148 | in place, exactly `Ledger.UnblockCard` |
| `Store.CardStore.UnregisterCard` | app.py:150-152 | in place, exactly `Ledger.UnregisterCard` |
| `Store.CardStore.RechargeCard` | app.py:177-209 | in place, exactly `Ledger.RechargeCard` |
| `Store.CardStore.LogTransaction` | app.py:331-366 | in place, exactly `Ledger.LogTransaction`: balance and row change together or not at all |
| `Store.CardStore.ResetSystem` | app.py:236-242 | in place, exactly `Ledger.ResetSystem` |
| `Store.CardStore.RecentTransactions` | app.py:247-250 | the `Listing.Recent` view of the transactions by timestamp, limit 10 |
| `Store.CardStore.RecordSystemLog` | app.py:258-307 | (with the `cpu_usage` column app.py expects; see Findings) appends the log, then sets the flag of that same row and appends the anomaly, reaching exactly `Telemetry.IngestTelemetry` with the store's classifier |
| `Store.CardStore.RecentSystemLogs` | app.py:254-256 | the `Listing.Recent` view of the logs by timestamp, limit 10 |
| `Store.CardStore.RecentAnomalies` | app.py:309-312 | the `Listing.Recent` view of the anomalies by timestamp, limit 10 |
| `Store.CardStore.AnomaliesDashboard` | app.py:214-231 | `Telemetry.AnomaliesDashboard` of the current tables |
| `Store.CardStore.Predict` | app.py:314-329 | `Telemetry.Predict` with the store's classifier; the store is not changed |

## Left out

- Flask routing, CORS, JSON parsing and response building are not modelled. A missing JSON body is the same as missing fields for the student handlers. For `/system_logs` POST and `/predict` it is the `None` body.
- `get_all_students` (`GET /students`) is not modelled. It returns the whole table and has no rule to state.
- The `*_to_dict` serialisers are not modelled. They only format rows.
- Model loading with `joblib` is not modelled, and neither is the classifier's inference. Both are an external artifact; the classifier is a parameter.
- `to_float` and NaN are abstracted. The model receives readings already coerced: `None` for the sentinel. Strings such as "inf", which pass the NaN test, are one of the `Some` values.
- Timestamp parsing with `fromisoformat`, `utcnow` and ISO formatting are not modelled. A parsed timestamp is an input `Option<int>`, and `now` is a parameter. The same `now` stands for the several clock reads of one request.
- `Anomaly.details` holds the readings rather than their `str()` text.
- Auto-increment row ids (`tid`, `log_id`, `anomaly_id`) are not modelled. Their reuse after a reset depends on the database engine. Rows are identified by position.
- Commit failures other than `int(amount)` raising are not modelled. This includes the 500 branch of `reset_system`, taken only when the database fails, and a failing commit of the flag and anomaly after inference.
- Concurrent requests are not modelled. They can lose balance updates, and the code does not guard against that.
- The database engine is not modelled. `settings.Config`, which chooses it, is not part of this model. The store is taken to hold every value a handler writes.
- String column lengths (`String(50)` and so on) are not modelled. Whether they are enforced depends on the engine.
- Ledger.RechargeCard: balances and amounts are unbounded integers. `db.Integer` is bounded by the engine (32 or 64 bits), and a balance pushed out of that range fails at the commit (app.py:199), where the handler rolls back and answers 500; the model answers with the new balance.
- Ledger.LogTransaction: the same unbounded integers. A balance or amount out of the engine's range fails at the commit (app.py:357) with 500 and a rollback; the model records the transaction.
- Telemetry.IngestTelemetry: a not-a-number reading is stored as the sentinel. An engine that stores NaN as NULL (SQLite does) breaks `nullable=False` (models.py:32-35) at the uncaught commit at app.py:286, so such a sample gives 500 and nothing is stored; the model stores it with flag 0.
- Listing.Recent: among rows with equal timestamps the order is fixed by the stable sort. The database leaves that order open, so the `CardStore` listing methods promise one particular order where the source promises none.
- A status string outside the three values can only come from outside the handlers. The status is a three-valued type.
- The `__main__` block is not modelled. It only creates the tables and starts the server.
- Telemetry.AnomaliesDashboard: the rate is the exact percentage. The floating-point `round(..., 2)` is not modelled.

## Findings

| source | as written | input that shows it | evidently intended | confidence | as-written member | corrected member |
|---|---|---|---|---|---|---|
| models.py:27-36 | `SystemLog` declares no `cpu_usage` column, but app.py:276-283 passes `cpu_usage=` to its constructor. SQLAlchemy's declarative constructor rejects an unknown keyword with `TypeError`. So the POST fails with 500 before the log is added, and nothing is ever stored or classified. | any non-empty JSON body posted to `/system_logs`, for example `{"memory_usage": 10}` | a `cpu_usage` Float column. The five-reading log is then saved and classified, as the serialiser at app.py:54 also expects. | not executed; high | `Telemetry.IngestAsWritten` | `Telemetry.IngestTelemetry` |
