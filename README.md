# Recorder engine control rules

A Dafny model of the `Recorder` engine thread of Home Assistant's recorder
(`homeassistant/components/recorder/core.py`). The recorder subscribes to the event bus and
filters and queues events. A dedicated thread drains the queue into an SQLAlchemy session and
commits it. Under the SQLAlchemy, asyncio and threading plumbing sits a set of deterministic
control rules, and the model keeps those:

- the ingestion gate: the event filter, the backlog watchdog, the final-write drain and the timer ticks;
- the commit engine: the bounded retry loop, the expire counter and the connection loop;
- task dispatch: commit-before, corruption recovery, reopening the session after other SQLAlchemy errors,
  the guarded loop, and the FIFO startup drain with its state/non-state partition;
- deduplication and old-state linking when an event becomes session rows;
- the backup lock coordinator;
- the startup and migration orchestration, including which data migrations are queued;
- the URL-prefix choice of pool and connect arguments.

The model is organised as follows:

- `RecorderCore.Recorder` is a class. Its fields hold:
  - the listener handles, as flags;
  - the task queue;
  - the open session's new rows and dirty flag;
  - the commit counters;
  - the five table managers, each an abstract pending map plus committed map;
  - the lock token;
  - the readiness signals, as `Option<bool>` futures.
- Methods change those fields and state the new state in their postconditions.
- The decisions themselves are pure functions in their own modules, each with its lemmas:
  - `EventFilter`
  - `Retry`
  - `Activation`
  - `LockWait`
  - `Dedup`
  - `Urls`
- Everything the store, the clock or another thread decides is a parameter:
  - the i-th commit or connection attempt's outcome, as a function `nat -> …`;
  - the schema status;
  - the answers to the migration queries;
  - whether the lock was signalled in time;
  - the polls of the lock wait loop;
  - the tasks arriving at the event loop.

The files and their modules:

- `types.dfy`: `RecorderTypes`, the shared entities (events, tasks, errors, rows, caches, the lock token).
- `event_filter.dfy`, `urls.dfy`, `retry.dfy`, `activation.dfy`, `lock_wait.dfy`, `dedup.dfy`: the pure decisions.
- `recorder.dfy`: `RecorderCore`, the engine class.

A failed migration still resolves the ready signal to true:

- When the blocking schema migration fails, `run` still calls `async_set_db_ready` (core.py:693).
- That method resolves the ready future with `True` (core.py:460-469).
- `Run` ensures `dbReady == Some(true)` on `MigrationFailed`.

## Model

| member | source | states |
|---|---|---|
| EventFilter.ExcludedTypeDropped | homeassistant/components/recorder/core.py:380-399 | an event whose type is excluded is never queued |
| EventFilter.DecisionByEntityId | homeassistant/components/recorder/core.py:380-399 | for a non-excluded type: an absent entity_id, one mapped to None, or a value of unknown type passes; a string passes iff the entity filter accepts it; a list passes iff some element is accepted, so an empty list is dropped |
| EventFilter.AcceptedAnywhere | homeassistant/components/recorder/core.py:391-394 | a list with an accepted id at any position passes |
| RecorderCore.Recorder.AsyncEventFilter | homeassistant/components/recorder/core.py:380-399 | the scanning loop (stops at the first accepted id) returns exactly the filter decision |
| RecorderCore.Recorder.EventListener | homeassistant/components/recorder/core.py:1194-1198 | the queue grows by one event task iff the filter accepts the event, and by nothing else |
| RecorderCore.Recorder.constructor | homeassistant/components/recorder/core.py:163-237 | a new engine has an empty queue, all six listeners off, no connection, dialect or session, zero counters and handles, empty managers, no lock token, schema version 0, both signals unresolved and no startup step done, so `Run` can be called on it |
| RecorderCore.Recorder.AsyncInitialize | homeassistant/components/recorder/core.py:290-300 | subscribes to the bus and starts the watchdog, so the recorder is recording |
| RecorderCore.Recorder.AsyncCheckQueue | homeassistant/components/recorder/core.py:332-351 | a backlog within MAX_QUEUE_BACKLOG changes nothing; a larger one clears both the event listener and the queue watcher, so recording stops; a recorder that was not recording stays so |
| RecorderCore.Recorder.AsyncStopQueueWatcherAndEventListener | homeassistant/components/recorder/core.py:353-361 | both handles are cleared, so repeating the call changes nothing |
| RecorderCore.Recorder.AsyncStopListeners | homeassistant/components/recorder/core.py:363-378 | all six listener handles are cleared |
| RecorderCore.Recorder.AsyncEmptyQueue | homeassistant/components/recorder/core.py:401-416 | whatever the queue held, afterwards it holds exactly one task, a stop task |
| RecorderCore.Recorder.AsyncKeepAlive | homeassistant/components/recorder/core.py:302-306 | a keep-alive task is queued iff recording |
| RecorderCore.Recorder.AsyncCommit | homeassistant/components/recorder/core.py:308-316 | a commit task is queued iff recording, not locked for a backup and the session has pending writes |
| Retry.RetryFromShape | homeassistant/components/recorder/core.py:1074-1094 | the retry loop skips only when it cannot start, makes at most db_max_retries attempts, and every attempt before the last was a transient failure; the last committed, raised a non-transient error, or was the final try |
| Retry.CommitOrRetryShape | homeassistant/components/recorder/core.py:1069-1094 | no attempt without pending writes; none when db_max_retries < 1; at most db_max_retries attempts; every attempt but the last a transient failure |
| Retry.CommitsAfterTransientFailures | homeassistant/components/recorder/core.py:1074-1094 | k < db_max_retries transient failures followed by success commit on attempt k + 1 |
| Retry.ExhaustedRetriesRaiseLast | homeassistant/components/recorder/core.py:1083-1090 | db_max_retries consecutive transient failures re-raise the last error |
| Retry.OtherErrorPropagatesAtOnce | homeassistant/components/recorder/core.py:1080-1083 | an error other than InternalError/OperationalError propagates on its first occurrence |
| Retry.RetryFromAfter | homeassistant/components/recorder/core.py:1078-1094 | transient failures up to attempt k hand the outcome to attempt k + 1 |
| RecorderCore.Recorder.CommitEventSessionOrRetry | homeassistant/components/recorder/core.py:1069-1094 | the loop's result is `Retry.CommitOrRetry` of the pending-writes flag and the attempts' outcomes; on success the session is empty, every manager post-committed once and the counter below 120; otherwise session and managers are untouched and the counter grew by the number of attempts |
| RecorderCore.Recorder.CommitEventSession | homeassistant/components/recorder/core.py:1096-1117 | the expire counter is bumped before the commit, so also when it fails; a failure changes nothing else; a success empties the session, runs post_commit_pending on all five managers, and resets the counter to 0 with one expire_all once it reaches EXPIRE_AFTER_COMMITS = 120, so it is then below 120 |
| Retry.SetupFromShape | homeassistant/components/recorder/core.py:841-860 | the connection loop makes at most db_max_retries attempts, succeeds only through a connection whose initialisation succeeded, and stops at the first connection or unsupported dialect |
| Retry.UnsupportedStopsEarly | homeassistant/components/recorder/core.py:848-852 | an unsupported dialect on attempt k + 1 ends the loop there without success |
| Retry.SetupGivesUp | homeassistant/components/recorder/core.py:846-860 | failures on every attempt give up after exactly db_max_retries attempts |
| Retry.SetupFromAfter | homeassistant/components/recorder/core.py:846-858 | failed attempts up to attempt k hand the outcome to attempt k + 1 |
| RecorderCore.Recorder.SetupRecorder | homeassistant/components/recorder/core.py:841-860 | the loop returns `Retry.SetupFrom`'s answer, and the engine is connected with that attempt's dialect iff the loop ended on a connection |
| RecorderCore.Recorder.CloseConnection | homeassistant/components/recorder/core.py:1332-1337 | disposing without an engine raises; afterwards there is no connection |
| RecorderCore.Recorder.CloseEventSession | homeassistant/components/recorder/core.py:1130-1148 | every manager is reset and the statistics-meta cache is cleared; an open session is rolled back (no new rows, not dirty); a missing session keeps its rows |
| RecorderCore.Recorder.OpenEventSession | homeassistant/components/recorder/core.py:1155-1158 | a new empty session is opened iff connected; otherwise the RuntimeError of get_session is raised and nothing changes |
| RecorderCore.Recorder.ReopenEventSession | homeassistant/components/recorder/core.py:1150-1153 | managers reset and statistics meta cleared, then a new empty session iff connected |
| RecorderCore.Recorder.SetupRun | homeassistant/components/recorder/core.py:1339-1345 | the run starts with an empty session iff connected, otherwise get_session raises |
| RecorderCore.Recorder.HandleSqliteCorruption | homeassistant/components/recorder/core.py:1119-1128 | managers reset and statistics meta cleared; with no engine the assertion fails and nothing is moved; otherwise the database is moved away once and the engine ends connected iff the connection loop reconnects, with a new empty session exactly then |
| RecorderCore.Recorder.HandleDatabaseError | homeassistant/components/recorder/core.py:1059-1067 | handled iff the error's cause is a sqlite3 DatabaseError; otherwise session rows, dirty flag, managers, statistics meta, connection, dialect and moved-away count are all unchanged; when handled, the corruption recovery's outcome |
| RecorderCore.DispatchContainsStoreErrors | homeassistant/components/recorder/core.py:820-839 | non-SQLAlchemy errors always escape unchanged; a SQLAlchemy error escapes only as the not-connected error, never while connected (and, for corruption, reconnectable); only corruption moves the database away |
| RecorderCore.Recorder.CommitBeforeTask | homeassistant/components/recorder/core.py:823-826 | the error is the one the commit-before raised, if any; counters, rows and managers are those that commit leaves (`CountersAfter`; emptied and post-committed iff it committed) |
| RecorderCore.Recorder.RecoverFrom | homeassistant/components/recorder/core.py:829-839 | the outcome `Outcome` gives for the recovery `RecoveryFor` chooses: corruption moves the database away, another SQLAlchemy error reopens the session, anything else escapes unchanged and leaves every field as it was; both recoveries reset the managers and statistics meta, and escape only without a connection; a reopen keeps dialect and moved-away count |
| RecorderCore.Recorder.ProcessOneTaskOrRecover | homeassistant/components/recorder/core.py:820-839 | `DispatchEffect`: the task completes iff neither the commit-before nor the handler raised, otherwise the outcome is the recovery of the first error; a stop request is recorded only by a completed stop task; when the handler did not run or is a stop or keep-alive task, the counters are those the commit-before left and, unless a recovery ran, connection, session, dialect, moved-away count, statistics meta, rows and managers are those it left (emptied and post-committed iff it committed); a recovery resets the managers |
| RecorderCore.Recorder.GuardedProcessOneTaskOrRecover | homeassistant/components/recorder/core.py:812-818 | the task is appended to the dispatched log once and dispatched with the whole `DispatchEffect` of `ProcessOneTaskOrRecover`; whatever it raises is swallowed |
| RecorderCore.Recorder.PreProcessStartupTasks | homeassistant/components/recorder/core.py:790-810 | the append loop yields exactly the state_changed and the other events of the batch, in queue order |
| RecorderCore.StartupPartition | homeassistant/components/recorder/core.py:796-805 | the partition loses no event task and mixes no kinds |
| RecorderCore.Recorder.DispatchStartupTasks | homeassistant/components/recorder/core.py:779-780 | every startup task is dispatched once, in order |
| RecorderCore.Recorder.DispatchUntilStop | homeassistant/components/recorder/core.py:786-788 | arriving tasks are dispatched in order until one raises the stop flag, which only a completed stop task does, and that task is the last one dispatched; otherwise every arrival is dispatched |
| RecorderCore.Recorder.RunEventLoop | homeassistant/components/recorder/core.py:769-788 | the startup batch is exactly the old queue in FIFO order, dispatched before any arriving task; the stop flag is cleared after the batch, so only an arriving stop task ends the loop, and it is the last task dispatched |
| RecorderCore.Recorder.ProcessOneEvent | homeassistant/components/recorder/core.py:929-938 | nothing happens while disabled; a state change without an entity_id key raises KeyError before anything is recorded or committed; otherwise the session and managers become the dedup step of the event's kind, with the dirty flag and commit counters unchanged under a non-zero commit interval; with a zero interval that step is committed at once through the retry loop, the counters move as `CountersAfter` says, and a successful commit empties the session and post-commits the step's five managers |
| Dedup.AttachPrecedence | homeassistant/components/recorder/core.py:948-956 | a pending row wins, then the cache, then the store; only when all three miss is a new row created, registered as pending and added to the session |
| Dedup.OldStateTracking | homeassistant/components/recorder/core.py:994-1003 | the entity's pending previous row is popped first, the committed id only when no pending row exists; a removed entity is not registered as pending, any other one's new row becomes its pending entry; other entities are untouched |
| Dedup.StateRowLink | homeassistant/components/recorder/core.py:986-1057 | the state row, when one is added, is the last row, carries the event's handle, links to the entity's previous row and has no state for a removed entity |
| Dedup.ConsecutiveStatesLinked | homeassistant/components/recorder/core.py:994-1003 | a second state of the same entity links to the first one's still pending row |
| Dedup.RemovedUnknownEntityAddsNothing | homeassistant/components/recorder/core.py:1016-1025 | a removed entity with an active states-meta manager and no metadata id anywhere adds no row |
| Dedup.AbsentEntityIdChangesNothing | homeassistant/components/recorder/core.py:986-991 | a state change without an entity_id key changes neither rows nor managers |
| Dedup.StateMetaResolved | homeassistant/components/recorder/core.py:1008-1030 | a state change adds rows exactly when it has an entity id and attributes and is not a removed entity unknown to an active states-meta manager; its state row then references the states-meta row the entity id resolves to (pending, cache, store, else a new row) |
| Dedup.StateRows | homeassistant/components/recorder/core.py:1008-1057 | a state change adds an attributes row exactly when it adds its state row and its attributes missed pending, cache and store, and no event-type or event-data row |
| Dedup.NonStateRows | homeassistant/components/recorder/core.py:940-984 | a non-state event adds an event-type row exactly when its type missed pending, cache and store, an event-data row exactly when its non-empty data missed them, and no attributes row |
| Dedup.SameEventTypeDeduplicated | homeassistant/components/recorder/core.py:948-956 | two events of one type reference the same event-type row, and together add exactly the one row the first may create |
| Dedup.NonStateEventRow | homeassistant/components/recorder/core.py:940-984 | the event row is the last row, has the event's handle and references its event type and, when the event has data, its event data; data serialising to nothing adds no event row |
| Dedup.SameEventDataDeduplicated | homeassistant/components/recorder/core.py:958-984 | two events with the same data reference the same event-data row, and together add exactly the one row the first may create |
| Dedup.StateAttributesAttached | homeassistant/components/recorder/core.py:1036-1055 | a state row references the resolved attributes, and the manager then resolves the same attributes to that reference again |
| Dedup.SameAttributesShared | homeassistant/components/recorder/core.py:1036-1055 | consecutive state rows with the same attributes reference the same attributes row |
| Dedup.SameAttributesDeduplicated | homeassistant/components/recorder/core.py:1036-1055 | two state changes with the same attributes add at most one attributes row for them |
| LockWait.WaitEndsAtFirstEvent | homeassistant/components/recorder/core.py:906-927 | the wait ends at the first poll that sees the unlock signal or a backlog above 90% of MAX_QUEUE_BACKLOG, so overflow is flagged only when the backlog exceeded it before any unlock |
| LockWait.LowBacklogNeverOverflows | homeassistant/components/recorder/core.py:913-925 | a backlog never above 90% never flags overflow |
| RecorderCore.Recorder.LockDatabaseRun | homeassistant/components/recorder/core.py:906-927 | the lock is signalled as held; a token already told to unlock ends the wait at once; otherwise the poll loop ends as `LockWait.WaitFrom` says; queue_overflow is set iff it ended on overflow |
| RecorderCore.Recorder.LockDatabase | homeassistant/components/recorder/core.py:1224-1248 | not SQLite: true, nothing changes; a token already stored: false, nothing queued; otherwise a fresh token is queued, marked locked iff the engine signalled in time, and then stored, or told to unlock with a timeout |
| RecorderCore.Recorder.UnlockDatabase | homeassistant/components/recorder/core.py:1250-1271 | not SQLite: true, nothing changes; no token: false; otherwise unlock is signalled, the token cleared and the answer is not queue_overflow |
| Activation.PlanFor | homeassistant/components/recorder/core.py:708-767 | statistics meta is loaded iff the version reaches its threshold; a manager is activated iff its migration is not queued; the legacy-index flag is set iff the index cleanup is queued; at most five tasks |
| Activation.PlanInOrder | homeassistant/components/recorder/core.py:718-759 | queued tasks follow the order of the checks, with no task twice |
| Activation.BelowThresholdIgnoresAnswers | homeassistant/components/recorder/core.py:718-750 | below every threshold the four migrations are queued whatever the store answers, and no manager is activated |
| Activation.FullyMigratedActivatesManagers | homeassistant/components/recorder/core.py:718-759 | a fully migrated database queues nothing and activates both managers |
| Activation.IndexQueryFailureSuppressed | homeassistant/components/recorder/core.py:752-759 | a failed index lookup queues no cleanup and leaves the legacy-index flag unset |
| RecorderCore.Recorder.ActivateAndSetDbReady | homeassistant/components/recorder/core.py:708-767 | the queue grows by `PlanFor`'s tasks, the managers `PlanFor` activates become active, then the database is signalled ready |
| RecorderCore.Recorder.AsyncSetDbReady | homeassistant/components/recorder/core.py:460-469 | the first call resolves the ready signal to true and starts the executor; later calls change nothing |
| RecorderCore.Recorder.AsyncConnectionFailed | homeassistant/components/recorder/core.py:440-450 | both signals resolve to false and every listener stops |
| RecorderCore.Recorder.AsyncConnectionSuccess | homeassistant/components/recorder/core.py:452-458 | the connected signal resolves to true |
| RecorderCore.Recorder.SetupPeriodicTasks | homeassistant/components/recorder/core.py:588-616 | nothing while stopping or unconnected; otherwise keep-alive only off SQLite, the commit timer only for a non-zero interval, and the nightly and five-minute timers |
| RecorderCore.Recorder.AsyncSetRecorderReadyMigrationDone | homeassistant/components/recorder/core.py:471-478 | recorder marked ready; while stopping or unconnected no timer changes; otherwise the keep-alive timer is set iff not SQLite, the commit timer iff the commit interval is non-zero, and the nightly and five-minute timers always |
| RecorderCore.Recorder.MigrateSchemaAndSetupRun | homeassistant/components/recorder/core.py:867-904 | migration always ends not in progress; success starts the run; corruption is recovered and counts as success: the managers and statistics meta are reset and, with a connection, the database is moved away once; any other error fails the migration and changes nothing else |
| RecorderCore.Recorder.Shutdown | homeassistant/components/recorder/core.py:1351-1373 | listeners stopped; pending writes committed once through the retry loop with errors swallowed; session emptied; connection disposed |
| RecorderCore.Recorder.ConnectAndValidate | homeassistant/components/recorder/core.py:635-657 | no connection or no schema status signals failure and stops recording; otherwise connected, a valid schema starts the run, an invalid one marks the migration in progress (live or not) |
| RecorderCore.Recorder.MigrateOrShutDown | homeassistant/components/recorder/core.py:679-696 | a failed migration signals ready and shuts down; success moves to the latest schema version and subscribes again if the watchdog had unsubscribed |
| RecorderCore.Recorder.StartWhileReady | homeassistant/components/recorder/core.py:660-696 | a valid or live database is activated before it migrates, and is shut down if Home Assistant stops before starting |
| RecorderCore.Recorder.ShutDownBeforeStarted | homeassistant/components/recorder/core.py:670-676 | the migration is no longer in progress, every listener is stopped, the connection is closed, and an open session is committed through the retry loop and emptied |
| RecorderCore.Recorder.StartAfterMigration | homeassistant/components/recorder/core.py:679-703 | a non-live migration completes before activation, which then uses the latest version |
| RecorderCore.Recorder.StartConnected | homeassistant/components/recorder/core.py:658-706 | the branches on valid / live / blocking migration, ending with the missing-statistics task queued last and the recorder ready |
| RecorderCore.Recorder.CatchUpAndSetRecorderReady | homeassistant/components/recorder/core.py:699-703 | the missing-statistics task is queued last and the recorder is marked ready |
| RecorderCore.Recorder.Run | homeassistant/components/recorder/core.py:635-706 | connection failure iff the connection loop fails or the schema cannot be validated; on reaching the event loop the queue has grown by exactly the activation plan's tasks for the pre-migration (valid or live) or latest (blocking) version, then the missing-statistics task; a failed migration still resolves ready to true |
| Urls.EngineOptionsFor | homeassistant/components/recorder/core.py:1292-1322 | the mutex pool (and the reset-on-return switch) iff the bare prefix or an in-memory URL; the recycling pool only for file SQLite; utf8mb4 only for MySQL-family URLs; echo off iff not SQLite; the file check iff file SQLite |
| Urls.FileUrlUsesRecorderPool | homeassistant/components/recorder/core.py:250-255 | the sqlite prefix followed by a non-memory path is file SQLite and uses the recycling pool |
| Urls.BarePrefixIsInMemory | homeassistant/components/recorder/core.py:1292-1296 | the bare sqlite prefix is not file SQLite and gets the mutex pool with check_same_thread off |
| Urls.PyMySqlGetsNoConverter | homeassistant/components/recorder/core.py:1300-1316 | PyMySQL URLs get utf8mb4 without the MySQLdb converter |
| Urls.MySqlGetsConverter | homeassistant/components/recorder/core.py:1300-1316 | mysql:// and mariadb:// URLs get utf8mb4 with the converter |

## Left out

- SQLAlchemy is left out: engines, sessions, SQL statements, `expire_all` and the identity map. The store is represented only by outcomes passed as parameters. Pending writes are the session's list of new rows plus a dirty flag.
- asyncio, threading and the executor are left out. Futures become `Option<bool>` fields. `hass.add_job` callbacks are applied at once, in program order. Cross-thread races are not modelled, for example the lock token being unlocked while the engine polls.
- Blocking waits are left out:
  - `queue.get()` becomes a finite sequence of arriving tasks.
  - `threading.Event.wait(timeout)` becomes a finite sequence of polls.
  - `DB_LOCK_TIMEOUT` becomes a boolean saying whether the lock was signalled in time.
  - Waiting for Home Assistant to start becomes a boolean.
  - `time.sleep` between retries, the timers' schedules and the nightly and five-minute tasks are not modelled.
- The migration, statistics, util and table-manager modules, and the task classes, are not part of this model:
  - Schema validation, `live_migration`, `migrate_schema` and the migration queries are parameters.
  - What `post_commit_pending`, `reset` and `load` do to a manager is an abstract hook. Priming the managers from the startup batch is not modelled.
  - The task handlers are opaque outcomes; only a stop task's effect (setting `stop_requested`) is modelled. The dispatcher does not call the event and lock methods; those are modelled as their own methods.
- `RecorderCore.Recorder.ProcessOneTaskOrRecover` takes only the outcome of a task's handler. An event task's handler is `ProcessOneEvent`, a commit task's is `CommitEventSessionOrRetry` and a lock task's is `LockDatabaseRun`; each is modelled as a method of its own and is not called from the dispatcher. So `DispatchEffect` states the state left after a completed or failed handler only for stop and keep-alive tasks (`HandlerKeepsSession`) and for a commit-before that raised. For every other task it states the outcome and what a recovery does, but not the session, managers and counters that the handler leaves.
- `RecorderCore.Recorder.HandleSqliteCorruption` leaves out the file-system work: moving the database file away is a counter, and `RecorderRunsManager.reset` is not modelled.
- `RecorderCore.Recorder.Shutdown` leaves out the executor stop and the run-end bookkeeping of `_end_session`.
- `RecorderCore.Recorder.CloseEventSession` leaves out the swallowed rollback/close error: rollback is taken to succeed.
- `RecorderCore.Recorder.SetupRun` leaves out the run bookkeeping of core.py:1341-1343: `end_incomplete_runs`, `recorder_runs_manager.start` and the commit of that `session_scope`, together with any error that commit raises. The runs manager is not part of this model. Only opening the event session is modelled, with its not-connected error.
- `RecorderCore.Recorder.LockDatabase` is atomic. The source awaits the lock signal between the already-locked check (core.py:1232) and storing the token (core.py:1246). A second call made during that await passes the check as well, and the model does not capture that interleaving.
- `RecorderCore.Recorder.SetupRecorder` leaves out some engine state. It records the dialect only on a successful attempt, although the source records it as soon as the engine is created.
- The states manager is keyed by `Option<string>`, because a state change whose entity_id is mapped to None still reaches the old-state bookkeeping.
- Dedup.StateStep files a state change whose entity_id is a list or another non-string value under no entity and adds no row. The source uses the value itself as the key, failing or going on to add states-meta and state rows depending on the table managers, whose code is not part of this model.
- CloseConnection and Shutdown use one `connected` flag for both the engine and the session factory. The source creates the engine before `create_all` can fail and sets the session factory only afterwards (core.py:1324-1329). So after a reconnect attempt that failed past engine creation, the source disposes of that engine at shutdown, where the model reports the not-connected error.
- An `entity_id` value's type is reduced to absent, None, string, list of strings, or other.
- Serialising attributes and event data, and computing their hashes, are inputs.
- Logging, persistent notifications, the LRU size adjustment and the MySQLdb converter's construction are left out.
- The statistics-meta manager is reduced to a "loaded" flag.
- The float test `backlog > MAX_QUEUE_BACKLOG * 0.9` is written as `10 * backlog > 9 * MAX_QUEUE_BACKLOG`, which is the same test for integers.
- The constants `MAX_QUEUE_BACKLOG`, the schema-version thresholds and `SCHEMA_VERSION` are configuration parameters. They come from `const.py`, which is not part of this model.
- The URL prefixes in `urls.dfy` (`sqlite://`, `mariadb://`, `mariadb+pymysql://`, `mysql://`, `mysql+pymysql://`) are written out as constants. They are defined in `const.py`, which is not part of this model.
