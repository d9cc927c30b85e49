/** The `Recorder` engine of homeassistant/components/recorder/core.py with its database,
    event loop and table managers replaced by abstract state: listener flags, the task queue,
    the open session's new rows, the managers' pending/committed maps and the readiness signals.
    What the store, the clock or the other thread answer is passed in as parameters. */
module RecorderCore {
  import opened RecorderTypes
  import EventFilter
  import Retry
  import Activation
  import LockWait
  import Dedup

  /** Expire every loaded object after this many commits. */
  const EXPIRE_AFTER_COMMITS: nat := 120

  /** The table-manager operations whose code is not part of this model: what
      `post_commit_pending` and `reset` do to a manager is left abstract. */
  datatype ManagerHooks = ManagerHooks(
    postCommitPending: (ManagerName, Cache<string>) -> Cache<string>,
    postCommitStates: Cache<Option<string>> -> Cache<Option<string>>,
    reset: (ManagerName, Cache<string>) -> Cache<string>,
    resetStates: Cache<Option<string>> -> Cache<Option<string>>)

  /** What the engine thread meets while dispatching one task: the answers to the commit
      attempts made first, the task handler's outcome, and the answers to the reconnection
      attempts of a corruption recovery. */
  datatype TaskEnv = TaskEnv(commit: nat -> CommitOutcome, run: Option<StoreError>, recovery: nat -> SetupOutcome)

  /** How one dispatched task ended. */
  datatype Dispatch =
    | Completed
    | Recovered(err: StoreError)     // corruption: the database was moved away and reconnected
    | Reopened(err: StoreError)      // other SQLAlchemy error: the session was reopened
    | Escaped(err: StoreError)       // raised out of `_process_one_task_or_recover`

  /** The five table managers of an engine. */
  datatype ManagerSet = ManagerSet(states: Cache<Option<string>>, stateAttributes: Cache<string>,
                                   eventData: Cache<string>, eventTypes: Cache<string>, statesMeta: Cache<string>)

  /** The five table managers as an ingestion step leaves them. */
  function ManagersOf(s: Dedup.Ingest): (m: ManagerSet)
    ensures m.states == s.states && m.stateAttributes == s.stateAttributes && m.eventData == s.eventData
    ensures m.eventTypes == s.eventTypes && m.statesMeta == s.statesMeta
  {
    ManagerSet(s.states, s.stateAttributes, s.eventData, s.eventTypes, s.statesMeta)
  }

  /** The RuntimeError (or AssertionError) raised when no connection has been established. */
  const NOT_CONNECTED := StoreError(NonDatabaseException, false)

  /** The recovery `_process_one_task_or_recover` chooses for an error. */
  datatype Recovery = MoveAway | Reopen | Propagate

  function RecoveryFor(e: StoreError): (rec: Recovery)
  {
    if IsDatabaseError(e) && e.sqliteCause then MoveAway
    else if IsSQLAlchemyError(e) then Reopen
    else Propagate
  }

  /** The commit made before a task's handler, when the task asks for one. */
  function CommitFirst(commitBefore: bool, pendingWrites: bool, maxRetries: int, env: TaskEnv): Retry.CommitResult
  {
    if commitBefore then Retry.CommitOrRetry(pendingWrites, maxRetries, env.commit) else Retry.NothingToCommit
  }

  /** The error a dispatched task meets first: the commit that precedes it, else its handler. */
  function FirstError(commitBefore: bool, pendingWrites: bool, maxRetries: int, env: TaskEnv): Option<StoreError>
  {
    var c := CommitFirst(commitBefore, pendingWrites, maxRetries, env);
    if c.Raised? then Some(c.err) else env.run
  }

  /** The tasks whose handler leaves the session, its rows, the managers and the counters as they
      are: a stop task only raises the stop flag, a keep-alive only runs `SELECT 1` on the
      session's connection. */
  predicate HandlerKeepsSession(t: Task)
  {
    t.StopTask? || t.KeepAliveTask?
  }

  /** Whether the connection loop ends with a connection, whatever initialize_database answers. */
  predicate Reconnects(maxRetries: int, outcome: nat -> SetupOutcome)
  {
    var n := Retry.SetupFrom(1, maxRetries, outcome).attempts;
    n >= 1 && outcome(n - 1).Connected?
  }

  /** How the dispatch of a failed task ends: a recovery escapes with the not-connected error
      when it finds no connection or, after moving the database away, cannot make a new one. */
  function Outcome(e: StoreError, rec: Recovery, connected: bool, reconnects: bool): Dispatch
  {
    match rec
    case Propagate => Escaped(e)
    case MoveAway => if connected && reconnects then Recovered(e) else Escaped(NOT_CONNECTED)
    case Reopen => if connected then Reopened(e) else Escaped(NOT_CONNECTED)
  }

  /** The dispatcher never lets a SQLAlchemy error end the loop while a connection exists (and,
      for corruption, a new one can be made); any other error always escapes unchanged. */
  lemma DispatchContainsStoreErrors(e: StoreError, connected: bool, reconnects: bool)
    ensures var d := Outcome(e, RecoveryFor(e), connected, reconnects);
      && (!IsSQLAlchemyError(e) ==> d == Escaped(e))
      && (IsSQLAlchemyError(e) && connected && (IsDatabaseError(e) && e.sqliteCause ==> reconnects) ==> !d.Escaped?)
      && (IsSQLAlchemyError(e) && d.Escaped? ==> d.err == NOT_CONNECTED)
      && (d.Recovered? ==> IsDatabaseError(e) && e.sqliteCause)
  {
  }

  datatype LockResult = Locked(ok: bool) | TimedOut

  datatype SchemaStatus = SchemaStatus(currentVersion: int, valid: bool, liveMigration: bool)

  datatype MigrateOutcome = MigrateOk | MigrateFails(err: StoreError)

  datatype RunEnd =
    | ConnectionFailed
    | ShutdownBeforeStarted
    | MigrationFailed
    | Crashed(err: StoreError)
    | EventLoopStarted

  /** The non-state events of a startup batch, in queue order. */
  function NonStateChangedEvents(tasks: seq<Task>): seq<Event>
  {
    if tasks == [] then []
    else NonStateChangedEvents(tasks[..|tasks| - 1])
         + (var t := tasks[|tasks| - 1];
            if t.EventTask? && t.event.eventType != EVENT_STATE_CHANGED then [t.event] else [])
  }

  /** The state_changed events of a startup batch, in queue order. */
  function StateChangedEvents(tasks: seq<Task>): seq<Event>
  {
    if tasks == [] then []
    else StateChangedEvents(tasks[..|tasks| - 1])
         + (var t := tasks[|tasks| - 1];
            if t.EventTask? && t.event.eventType == EVENT_STATE_CHANGED then [t.event] else [])
  }

  function EventTaskCount(tasks: seq<Task>): nat
  {
    if tasks == [] then 0
    else EventTaskCount(tasks[..|tasks| - 1]) + (if tasks[|tasks| - 1].EventTask? then 1 else 0)
  }

  /** The startup partition loses no event and mixes no kinds: every event task lands in exactly
      one of the two lists, state_changed events in the first. */
  lemma {:induction false} StartupPartition(tasks: seq<Task>)
    ensures |StateChangedEvents(tasks)| + |NonStateChangedEvents(tasks)| == EventTaskCount(tasks)
    ensures forall e :: e in StateChangedEvents(tasks) ==> e.eventType == EVENT_STATE_CHANGED
    ensures forall e :: e in NonStateChangedEvents(tasks) ==> e.eventType != EVENT_STATE_CHANGED
    ensures forall i :: 0 <= i < |tasks| && tasks[i].EventTask? ==>
              tasks[i].event in StateChangedEvents(tasks) || tasks[i].event in NonStateChangedEvents(tasks)
  {
    if tasks != [] {
      var init := tasks[..|tasks| - 1];
      StartupPartition(init);
      forall i | 0 <= i < |tasks| && tasks[i].EventTask?
        ensures tasks[i].event in StateChangedEvents(tasks) || tasks[i].event in NonStateChangedEvents(tasks)
      {
        if i < |init| {
          assert init[i] == tasks[i];
        }
      }
    }
  }

  function MigrationTasks(ms: seq<MigrationTask>): (ts: seq<Task>)
    ensures |ts| == |ms|
    ensures forall i :: 0 <= i < |ms| ==> ts[i] == Migrate(ms[i])
  {
    if ms == [] then [] else [Migrate(ms[0])] + MigrationTasks(ms[1..])
  }

  class Recorder {
    // configuration
    const dbMaxRetries: int
    const maxQueueBacklog: nat
    const commitInterval: nat
    const excludeEventTypes: set<string>
    const entityFilter: string -> bool
    const thresholds: Activation.Thresholds
    const latestSchemaVersion: int
    const commitBefore: Task -> bool
    const hooks: ManagerHooks

    // ingestion
    var queue: seq<Task>
    var eventListener: bool
    var queueWatcher: bool
    var keepAliveListener: bool
    var commitListener: bool
    var nightlyListener: bool
    var periodicListener: bool
    var enabled: bool

    // connection and open session
    var connected: bool              // a session factory exists
    var dialect: Option<Dialect>
    var eventSession: bool           // an event session exists
    var rows: seq<Row>               // objects added to the session since its last commit
    var dirty: bool                  // loaded objects modified since the last commit
    var nextHandle: nat
    var commitsWithoutExpire: nat
    var expireAlls: nat
    var commits: nat
    var databasesMovedAway: nat

    // table managers
    var statesManager: Cache<Option<string>>
    var stateAttributesManager: Cache<string>
    var eventDataManager: Cache<string>
    var eventTypeManager: Cache<string>
    var statesMetaManager: Cache<string>
    var eventTypesActive: bool
    var statesMetaActive: bool
    var useLegacyEventsIndex: bool

    // backup lock
    var databaseLockTask: LockToken?

    // dispatch
    var dispatched: seq<Task>
    var stopRequested: bool

    // startup and migration
    var schemaVersion: int
    var migrationInProgress: bool
    var migrationIsLive: bool
    var dbConnected: Option<bool>
    var dbReady: Option<bool>
    var migrationStarted: bool
    var recorderReady: bool
    var executorStarted: bool
    var statisticsMetaLoaded: bool

    constructor (dbMaxRetries: int, maxQueueBacklog: nat, commitInterval: nat, excludeEventTypes: set<string>,
                 entityFilter: string -> bool, thresholds: Activation.Thresholds, latestSchemaVersion: int,
                 commitBefore: Task -> bool, hooks: ManagerHooks)
      ensures this.dbMaxRetries == dbMaxRetries && this.maxQueueBacklog == maxQueueBacklog
      ensures this.commitInterval == commitInterval && this.excludeEventTypes == excludeEventTypes
      ensures this.entityFilter == entityFilter && this.thresholds == thresholds
      ensures this.latestSchemaVersion == latestSchemaVersion && this.commitBefore == commitBefore
      ensures this.hooks == hooks
      ensures queue == [] && !Recording() && !queueWatcher && enabled
      ensures !connected && !eventSession && rows == [] && !dirty && commitsWithoutExpire == 0
      ensures databaseLockTask == null && schemaVersion == 0 && !migrationInProgress && !migrationIsLive
      ensures dbReady.None? && !eventTypesActive && !statesMetaActive
      ensures dbConnected.None? && !keepAliveListener && !commitListener && !nightlyListener && !periodicListener
      ensures dialect == None && nextHandle == 0 && commits == 0 && expireAlls == 0 && databasesMovedAway == 0
      ensures Managers() == ManagerSet(Cache(map[], map[]), Cache(map[], map[]), Cache(map[], map[]),
                                       Cache(map[], map[]), Cache(map[], map[]))
      ensures !useLegacyEventsIndex && dispatched == [] && !stopRequested
      ensures !migrationStarted && !recorderReady && !executorStarted && !statisticsMetaLoaded
    {
      this.dbMaxRetries := dbMaxRetries;
      this.maxQueueBacklog := maxQueueBacklog;
      this.commitInterval := commitInterval;
      this.excludeEventTypes := excludeEventTypes;
      this.entityFilter := entityFilter;
      this.thresholds := thresholds;
      this.latestSchemaVersion := latestSchemaVersion;
      this.commitBefore := commitBefore;
      this.hooks := hooks;
      queue := [];
      eventListener, queueWatcher, keepAliveListener, commitListener := false, false, false, false;
      nightlyListener, periodicListener, enabled := false, false, true;
      connected, dialect, eventSession, rows, dirty := false, None, false, [], false;
      nextHandle, commitsWithoutExpire, expireAlls, commits, databasesMovedAway := 0, 0, 0, 0, 0;
      statesManager := Cache(map[], map[]);
      stateAttributesManager := Cache(map[], map[]);
      eventDataManager := Cache(map[], map[]);
      eventTypeManager := Cache(map[], map[]);
      statesMetaManager := Cache(map[], map[]);
      eventTypesActive, statesMetaActive, useLegacyEventsIndex := false, false, false;
      databaseLockTask := null;
      dispatched, stopRequested := [], false;
      schemaVersion, migrationInProgress, migrationIsLive := 0, false, false;
      dbConnected, dbReady, migrationStarted, recorderReady, executorStarted := None, None, false, false, false;
      statisticsMetaLoaded := false;
    }

    /** The recorder records while it is subscribed to the bus. */
    predicate Recording()
      reads this
    {
      eventListener
    }

    function Backlog(): nat
      reads this
    {
      |queue|
    }

    predicate PendingWrites()
      reads this
    {
      eventSession && (rows != [] || dirty)
    }

    function IngestState(): Dedup.Ingest
      reads this
    {
      Dedup.Ingest(rows, nextHandle, eventTypeManager, eventDataManager, statesMetaManager,
                   stateAttributesManager, statesManager)
    }

    // ---------------------------------------------------------------- ingestion gate

    /** The filter scans an entity-id list and stops at the first accepted id. */
    method AsyncEventFilter(e: Event) returns (keep: bool)
      ensures keep == EventFilter.Filter(excludeEventTypes, entityFilter, e)
    {
      if e.eventType in excludeEventTypes {
        return false;
      }
      match e.entityId {
        case Absent =>
          return true;
        case NoneValue =>
          return true;
        case Str(s) =>
          return entityFilter(s);
        case StrList(ids) =>
          var i := 0;
          while i < |ids|
            invariant 0 <= i <= |ids|
            invariant forall j :: 0 <= j < i ==> !entityFilter(ids[j])
          {
            if entityFilter(ids[i]) {
              return true;
            }
            i := i + 1;
          }
          return false;
        case OtherValue =>
          return true;
      }
    }

    /** A filtered event becomes one event task at the end of the queue. */
    method EventListener(e: Event)
      modifies this`queue
      ensures queue == old(queue) + (if EventFilter.Filter(excludeEventTypes, entityFilter, e) then [EventTask(e)] else [])
    {
      var keep := AsyncEventFilter(e);
      if keep {
        queue := queue + [EventTask(e)];
      }
    }

    /** Subscribe to the bus and start the queue watchdog. */
    method AsyncInitialize()
      modifies this`eventListener, this`queueWatcher
      ensures Recording() && queueWatcher
    {
      eventListener := true;
      queueWatcher := true;
    }

    method AsyncStopQueueWatcherAndEventListener()
      modifies this`eventListener, this`queueWatcher
      ensures !Recording() && !queueWatcher
    {
      queueWatcher := false;
      eventListener := false;
    }

    /** The backlog watchdog: above MAX_QUEUE_BACKLOG it unsubscribes for good. */
    method AsyncCheckQueue()
      modifies this`eventListener, this`queueWatcher
      ensures Backlog() <= maxQueueBacklog ==> eventListener == old(eventListener) && queueWatcher == old(queueWatcher)
      ensures Backlog() > maxQueueBacklog ==> !Recording() && !queueWatcher
      ensures !old(Recording()) ==> !Recording()
    {
      if |queue| <= maxQueueBacklog {
        return;
      }
      AsyncStopQueueWatcherAndEventListener();
    }

    method AsyncStopListeners()
      modifies this`eventListener, this`queueWatcher, this`keepAliveListener, this`commitListener
      modifies this`nightlyListener, this`periodicListener
      ensures !Recording() && !queueWatcher && !keepAliveListener && !commitListener
      ensures !nightlyListener && !periodicListener
    {
      AsyncStopQueueWatcherAndEventListener();
      keepAliveListener, commitListener, nightlyListener, periodicListener := false, false, false, false;
    }

    /** At final write, whatever is queued is discarded and replaced by a single stop task. */
    method AsyncEmptyQueue()
      modifies this`queue
      ensures queue == [StopTask]
    {
      while queue != []
        decreases |queue|
      {
        queue := queue[1..];
      }
      queue := queue + [StopTask];
    }

    /** Keep-alive timer tick: only while recording. */
    method AsyncKeepAlive()
      modifies this`queue
      ensures queue == old(queue) + (if Recording() then [KeepAliveTask] else [])
    {
      if eventListener {
        queue := queue + [KeepAliveTask];
      }
    }

    /** Commit timer tick: only while recording, not locked for a backup, and with work to commit. */
    method AsyncCommit()
      modifies this`queue
      ensures queue == old(queue) + (if Recording() && databaseLockTask == null && PendingWrites() then [CommitTask] else [])
    {
      if eventListener && databaseLockTask == null && PendingWrites() {
        queue := queue + [CommitTask];
      }
    }

    // ---------------------------------------------------------------- commit engine

    /** The five table managers, in the order they are post-committed and reset. */
    function Managers(): ManagerSet
      reads this
    {
      ManagerSet(statesManager, stateAttributesManager, eventDataManager, eventTypeManager, statesMetaManager)
    }

    function PostCommitAll(m: ManagerSet): ManagerSet
    {
      ManagerSet(hooks.postCommitStates(m.states),
               hooks.postCommitPending(StateAttributesManager, m.stateAttributes),
               hooks.postCommitPending(EventDataManager, m.eventData),
               hooks.postCommitPending(EventTypeManager, m.eventTypes),
               hooks.postCommitPending(StatesMetaManager, m.statesMeta))
    }

    function ResetAll(m: ManagerSet): ManagerSet
    {
      ManagerSet(hooks.resetStates(m.states),
               hooks.reset(StateAttributesManager, m.stateAttributes),
               hooks.reset(EventDataManager, m.eventData),
               hooks.reset(EventTypeManager, m.eventTypes),
               hooks.reset(StatesMetaManager, m.statesMeta))
    }

    method SetManagers(m: ManagerSet)
      modifies this`statesManager, this`stateAttributesManager, this`eventDataManager
      modifies this`eventTypeManager, this`statesMetaManager
      ensures Managers() == m
    {
      statesManager, stateAttributesManager, eventDataManager := m.states, m.stateAttributes, m.eventData;
      eventTypeManager, statesMetaManager := m.eventTypes, m.statesMeta;
    }

    /** One commit attempt. The expire counter counts attempts, failed ones included; a successful
        commit hands every manager's pending entries to `post_commit_pending` and, once the counter
        reaches EXPIRE_AFTER_COMMITS, expires the session and restarts the count. */
    method CommitEventSession(outcome: CommitOutcome) returns (raised: Option<StoreError>)
      requires eventSession
      modifies this`commitsWithoutExpire, this`expireAlls, this`commits, this`rows, this`dirty
      modifies this`statesManager, this`stateAttributesManager, this`eventDataManager
      modifies this`eventTypeManager, this`statesMetaManager
      ensures raised == (if outcome.CommitOk? then None else Some(outcome.err))
      ensures outcome.CommitFails? ==>
        && commitsWithoutExpire == old(commitsWithoutExpire) + 1 && expireAlls == old(expireAlls)
        && rows == old(rows) && dirty == old(dirty) && Managers() == old(Managers()) && commits == old(commits)
      ensures outcome.CommitOk? ==>
        && rows == [] && !dirty && Managers() == PostCommitAll(old(Managers())) && commits == old(commits) + 1
        && commitsWithoutExpire < EXPIRE_AFTER_COMMITS
        && (old(commitsWithoutExpire) + 1 >= EXPIRE_AFTER_COMMITS ==> commitsWithoutExpire == 0 && expireAlls == old(expireAlls) + 1)
        && (old(commitsWithoutExpire) + 1 < EXPIRE_AFTER_COMMITS ==>
              commitsWithoutExpire == old(commitsWithoutExpire) + 1 && expireAlls == old(expireAlls))
    {
      commitsWithoutExpire := commitsWithoutExpire + 1;
      if outcome.CommitFails? {
        return Some(outcome.err);
      }
      rows, dirty, commits := [], false, commits + 1;
      SetManagers(PostCommitAll(Managers()));
      if commitsWithoutExpire >= EXPIRE_AFTER_COMMITS {
        commitsWithoutExpire := 0;
        expireAlls := expireAlls + 1;
      }
      return None;
    }

    /** Commit the event session when it has pending writes, retrying InternalError and
        OperationalError up to db_max_retries attempts in all; the i-th answer of `attempt`
        (from 0) is what attempt i + 1 meets. */
    method CommitEventSessionOrRetry(attempt: nat -> CommitOutcome) returns (r: Retry.CommitResult)
      modifies this`commitsWithoutExpire, this`expireAlls, this`commits, this`rows, this`dirty
      modifies this`statesManager, this`stateAttributesManager, this`eventDataManager
      modifies this`eventTypeManager, this`statesMetaManager
      ensures r == Retry.CommitOrRetry(old(PendingWrites()), dbMaxRetries, attempt)
      ensures r.Committed? ==>
        && rows == [] && !dirty && Managers() == PostCommitAll(old(Managers())) && commits == old(commits) + 1
        && commitsWithoutExpire < EXPIRE_AFTER_COMMITS
        && (old(commitsWithoutExpire) + r.attempts >= EXPIRE_AFTER_COMMITS ==>
              commitsWithoutExpire == 0 && expireAlls == old(expireAlls) + 1)
        && (old(commitsWithoutExpire) + r.attempts < EXPIRE_AFTER_COMMITS ==>
              commitsWithoutExpire == old(commitsWithoutExpire) + r.attempts && expireAlls == old(expireAlls))
      ensures !r.Committed? ==>
        && rows == old(rows) && dirty == old(dirty) && Managers() == old(Managers()) && commits == old(commits)
        && expireAlls == old(expireAlls) && commitsWithoutExpire == old(commitsWithoutExpire) + Retry.AttemptsOf(r)
    {
      if !PendingWrites() {
        return Retry.NothingToCommit;
      }
      var tries := 1;
      while tries <= dbMaxRetries
        invariant 1 <= tries && (tries == 1 || tries <= dbMaxRetries)
        invariant Retry.RetryFrom(1, dbMaxRetries, attempt) == Retry.RetryFrom(tries, dbMaxRetries, attempt)
        invariant commitsWithoutExpire == old(commitsWithoutExpire) + tries - 1
        invariant rows == old(rows) && dirty == old(dirty) && Managers() == old(Managers())
        invariant commits == old(commits) && expireAlls == old(expireAlls)
        decreases dbMaxRetries - tries
      {
        var raised := CommitEventSession(attempt(tries - 1));
        if raised.None? {
          return Retry.Committed(tries);
        }
        if !IsTransient(raised.value) || tries == dbMaxRetries {
          return Retry.Raised(raised.value, tries);
        }
        tries := tries + 1;
      }
      return Retry.Skipped;
    }

    // ---------------------------------------------------------------- connection and session

    /** The connection loop: up to db_max_retries attempts, stopping at the first connection or at
        an unsupported dialect; the i-th answer of `outcome` is what attempt i + 1 meets. */
    method SetupRecorder(outcome: nat -> SetupOutcome) returns (ok: bool)
      modifies this`connected, this`dialect
      ensures ok == Retry.SetupFrom(1, dbMaxRetries, outcome).ok
      ensures var n := Retry.SetupFrom(1, dbMaxRetries, outcome).attempts;
        if Reconnects(dbMaxRetries, outcome)
        then connected && dialect == outcome(n - 1).dialect
        else connected == old(connected) && dialect == old(dialect)
    {
      var tries := 1;
      while tries <= dbMaxRetries
        invariant 1 <= tries
        invariant Retry.SetupFrom(1, dbMaxRetries, outcome) == Retry.SetupFrom(tries, dbMaxRetries, outcome)
        invariant Retry.SetupFailures(outcome, tries - 1)
        invariant connected == old(connected) && dialect == old(dialect)
        decreases dbMaxRetries - tries
      {
        match outcome(tries - 1)
        case Connected(d, initialized) =>
          connected, dialect := true, d;
          return initialized;
        case Unsupported =>
          return false;
        case SetupFails =>
        tries := tries + 1;
      }
      return false;
    }

    /** Dispose of the engine; asserting that one exists. */
    method CloseConnection() returns (raised: Option<StoreError>)
      modifies this`connected
      ensures raised.None? <==> old(connected)
      ensures raised.Some? ==> raised.value == NOT_CONNECTED
      ensures !connected
    {
      if !connected {
        return Some(NOT_CONNECTED);
      }
      connected := false;
      return None;
    }

    /** Reset every table manager (the statistics-meta cache included), then roll back whatever
        the open session held. */
    method CloseEventSession()
      modifies this`rows, this`dirty, this`statisticsMetaLoaded
      modifies this`statesManager, this`stateAttributesManager, this`eventDataManager
      modifies this`eventTypeManager, this`statesMetaManager
      ensures Managers() == ResetAll(old(Managers())) && !statisticsMetaLoaded
      ensures old(eventSession) ==> rows == [] && !dirty
      ensures !old(eventSession) ==> rows == old(rows) && dirty == old(dirty)
    {
      SetManagers(ResetAll(Managers()));
      statisticsMetaLoaded := false;
      if !eventSession {
        return;
      }
      rows, dirty := [], false;
    }

    /** A fresh session from the session factory, which must exist. */
    method OpenEventSession() returns (raised: Option<StoreError>)
      modifies this`eventSession, this`rows, this`dirty
      ensures raised.None? <==> connected
      ensures connected ==> eventSession && rows == [] && !dirty
      ensures !connected ==> raised == Some(NOT_CONNECTED) && eventSession == old(eventSession)
                             && rows == old(rows) && dirty == old(dirty)
    {
      if !connected {
        return Some(NOT_CONNECTED);
      }
      eventSession, rows, dirty := true, [], false;
      return None;
    }

    method ReopenEventSession() returns (raised: Option<StoreError>)
      modifies this`eventSession, this`rows, this`dirty, this`statisticsMetaLoaded
      modifies this`statesManager, this`stateAttributesManager, this`eventDataManager
      modifies this`eventTypeManager, this`statesMetaManager
      ensures Managers() == ResetAll(old(Managers())) && !statisticsMetaLoaded
      ensures raised.None? <==> connected
      ensures raised.Some? ==> raised == Some(NOT_CONNECTED)
      ensures connected ==> eventSession && rows == [] && !dirty
    {
      CloseEventSession();
      raised := OpenEventSession();
    }

    /** Record the start of the run and open the event session. */
    method SetupRun() returns (raised: Option<StoreError>)
      modifies this`eventSession, this`rows, this`dirty
      ensures raised.None? <==> connected
      ensures raised.Some? ==> raised == Some(NOT_CONNECTED)
      ensures connected ==> eventSession && rows == [] && !dirty
    {
      raised := OpenEventSession();
    }

    /** Move the corrupt database away and start again on a new one: close the session and the
        connection, reconnect through the connection loop and start a new run. */
    method HandleSqliteCorruption(recovery: nat -> SetupOutcome) returns (raised: Option<StoreError>)
      modifies this`eventSession, this`rows, this`dirty, this`connected, this`dialect, this`databasesMovedAway
      modifies this`statesManager, this`stateAttributesManager, this`eventDataManager
      modifies this`eventTypeManager, this`statesMetaManager, this`statisticsMetaLoaded
      ensures Managers() == ResetAll(old(Managers())) && !statisticsMetaLoaded
      ensures !old(connected) ==> raised == Some(NOT_CONNECTED) && databasesMovedAway == old(databasesMovedAway)
      ensures old(connected) ==> databasesMovedAway == old(databasesMovedAway) + 1
                                 && (connected <==> Reconnects(dbMaxRetries, recovery))
      ensures raised.None? <==> connected
      ensures raised.Some? ==> raised == Some(NOT_CONNECTED)
      ensures raised.None? ==> eventSession && rows == [] && !dirty
    {
      CloseEventSession();
      raised := CloseConnection();
      if raised.Some? {
        return;
      }
      databasesMovedAway := databasesMovedAway + 1;
      var _ := SetupRecorder(recovery);
      raised := SetupRun();
    }

    /** An error whose cause is an sqlite3 DatabaseError is corruption and is recovered from. */
    method HandleDatabaseError(err: StoreError, recovery: nat -> SetupOutcome) returns (handled: bool, raised: Option<StoreError>)
      modifies this`eventSession, this`rows, this`dirty, this`connected, this`dialect, this`databasesMovedAway
      modifies this`statesManager, this`stateAttributesManager, this`eventDataManager
      modifies this`eventTypeManager, this`statesMetaManager, this`statisticsMetaLoaded
      ensures handled == err.sqliteCause
      ensures !handled ==> raised.None? && Managers() == old(Managers()) && connected == old(connected)
                           && eventSession == old(eventSession) && rows == old(rows) && dirty == old(dirty)
                           && dialect == old(dialect) && databasesMovedAway == old(databasesMovedAway)
                           && statisticsMetaLoaded == old(statisticsMetaLoaded)
      ensures handled ==> Managers() == ResetAll(old(Managers())) && !statisticsMetaLoaded && (raised.None? <==> connected)
      ensures handled && !old(connected) ==> raised == Some(NOT_CONNECTED) && databasesMovedAway == old(databasesMovedAway)
      ensures handled && old(connected) ==> databasesMovedAway == old(databasesMovedAway) + 1
                                            && (connected <==> Reconnects(dbMaxRetries, recovery))
      ensures handled && raised.Some? ==> raised == Some(NOT_CONNECTED)
      ensures handled && raised.None? ==> eventSession && rows == [] && !dirty
    {
      if err.sqliteCause {
        raised := HandleSqliteCorruption(recovery);
        return true, raised;
      }
      return false, None;
    }

    // ---------------------------------------------------------------- dispatch

    /** The counters after the commit `c` that precedes a task, from their values before it. */
    predicate CountersAfter(c: Retry.CommitResult, withoutExpire: nat, expires: nat, committed: nat)
      reads this
    {
      if c.Committed? then
        && commits == committed + 1
        && (withoutExpire + c.attempts >= EXPIRE_AFTER_COMMITS ==> commitsWithoutExpire == 0 && expireAlls == expires + 1)
        && (withoutExpire + c.attempts < EXPIRE_AFTER_COMMITS ==>
              commitsWithoutExpire == withoutExpire + c.attempts && expireAlls == expires)
      else
        commits == committed && expireAlls == expires && commitsWithoutExpire == withoutExpire + Retry.AttemptsOf(c)
    }

    /** What dispatching `task` does to the engine. The dispatch outcome follows from the first
        error met, by the commit that precedes the task or else by its handler; a recovery leaves a
        fresh session. The state beyond that is known when the handler did not run (the commit
        raised) or is one whose effect this model knows (HandlerKeepsSession): the counters are
        those the commit left, and unless a recovery ran, the connection, the session and the
        managers are those the commit left too; a recovery resets every manager. */
    twostate predicate DispatchEffect(task: Task, env: TaskEnv, d: Dispatch)
      reads this
    {
      var c := CommitFirst(commitBefore(task), old(PendingWrites()), dbMaxRetries, env);
      var first := FirstError(commitBefore(task), old(PendingWrites()), dbMaxRetries, env);
      var m := if c.Committed? then PostCommitAll(old(Managers())) else old(Managers());
      var known := c.Raised? || HandlerKeepsSession(task);
      var recovering := first.Some? && RecoveryFor(first.value) != Propagate;
      && d.Completed? == first.None?
      && (first.Some? ==> d == Outcome(first.value, RecoveryFor(first.value), old(connected), Reconnects(dbMaxRetries, env.recovery)))
      && stopRequested == (old(stopRequested) || (d.Completed? && task.StopTask?))
      && (d.Recovered? ==> databasesMovedAway == old(databasesMovedAway) + 1 && connected
                           && eventSession && rows == [] && !dirty)
      && (d.Reopened? ==> eventSession && rows == [] && !dirty && connected
                          && dialect == old(dialect) && databasesMovedAway == old(databasesMovedAway))
      && (recovering && d.Escaped? ==> !connected)
      && (known ==> CountersAfter(c, old(commitsWithoutExpire), old(expireAlls), old(commits)))
      && (known && !recovering ==>
            && connected == old(connected) && eventSession == old(eventSession) && dialect == old(dialect)
            && databasesMovedAway == old(databasesMovedAway) && Managers() == m
            && statisticsMetaLoaded == old(statisticsMetaLoaded)
            && (c.Committed? ==> rows == [] && !dirty)
            && (!c.Committed? ==> rows == old(rows) && dirty == old(dirty)))
      && (known && recovering ==> Managers() == ResetAll(m) && !statisticsMetaLoaded)
    }

    /** The except clauses of the dispatcher: a database error caused by sqlite3 corruption moves
        the database away, any other SQLAlchemy error reopens the session, anything else propagates
        and leaves the engine as it was. */
    method RecoverFrom(e: StoreError, recovery: nat -> SetupOutcome) returns (d: Dispatch)
      modifies this`rows, this`dirty, this`statisticsMetaLoaded
      modifies this`statesManager, this`stateAttributesManager, this`eventDataManager
      modifies this`eventTypeManager, this`statesMetaManager
      modifies this`eventSession, this`connected, this`dialect, this`databasesMovedAway
      ensures d == Outcome(e, RecoveryFor(e), old(connected), Reconnects(dbMaxRetries, recovery))
      ensures RecoveryFor(e) == Propagate ==>
        && connected == old(connected) && eventSession == old(eventSession) && dialect == old(dialect)
        && databasesMovedAway == old(databasesMovedAway) && Managers() == old(Managers())
        && statisticsMetaLoaded == old(statisticsMetaLoaded) && rows == old(rows) && dirty == old(dirty)
      ensures RecoveryFor(e) != Propagate ==> Managers() == ResetAll(old(Managers())) && !statisticsMetaLoaded
      ensures RecoveryFor(e) != Propagate && d.Escaped? ==> !connected
      ensures d.Recovered? ==> databasesMovedAway == old(databasesMovedAway) + 1 && connected
                               && eventSession && rows == [] && !dirty
      ensures d.Reopened? ==> eventSession && rows == [] && !dirty && connected
                              && dialect == old(dialect) && databasesMovedAway == old(databasesMovedAway)
    {
      if IsDatabaseError(e) {
        var handled, raised := HandleDatabaseError(e, recovery);
        if handled {
          return if raised.Some? then Escaped(raised.value) else Recovered(e);
        }
      } else if !IsSQLAlchemyError(e) {
        return Escaped(e);
      }
      var raised := ReopenEventSession();
      return if raised.Some? then Escaped(raised.value) else Reopened(e);
    }

    /** The commit a task asks for before its handler runs, and the error it raises. */
    method CommitBeforeTask(task: Task, env: TaskEnv) returns (err: Option<StoreError>)
      modifies this`commitsWithoutExpire, this`expireAlls, this`commits, this`rows, this`dirty
      modifies this`statesManager, this`stateAttributesManager, this`eventDataManager
      modifies this`eventTypeManager, this`statesMetaManager
      ensures var c := CommitFirst(commitBefore(task), old(PendingWrites()), dbMaxRetries, env);
        && err == (if c.Raised? then Some(c.err) else None)
        && CountersAfter(c, old(commitsWithoutExpire), old(expireAlls), old(commits))
        && Managers() == (if c.Committed? then PostCommitAll(old(Managers())) else old(Managers()))
        && (c.Committed? ==> rows == [] && !dirty)
        && (!c.Committed? ==> rows == old(rows) && dirty == old(dirty))
    {
      err := None;
      if commitBefore(task) {
        var c := CommitEventSessionOrRetry(env.commit);
        if c.Raised? {
          err := Some(c.err);
        }
      }
    }

    /** Run one task: commit first when the task asks for it, then the task's handler; a database
        error caused by sqlite3 corruption moves the database away, any other SQLAlchemy error
        reopens the session, and anything else propagates. */
    method ProcessOneTaskOrRecover(task: Task, env: TaskEnv) returns (d: Dispatch)
      modifies this`commitsWithoutExpire, this`expireAlls, this`commits, this`rows, this`dirty
      modifies this`statesManager, this`stateAttributesManager, this`eventDataManager
      modifies this`eventTypeManager, this`statesMetaManager, this`statisticsMetaLoaded
      modifies this`eventSession, this`connected, this`dialect, this`databasesMovedAway, this`stopRequested
      ensures DispatchEffect(task, env, d)
    {
      var err := CommitBeforeTask(task, env);
      if err.None? && env.run.None? {
        if task.StopTask? {
          stopRequested := true;
        }
        return Completed;
      }
      d := RecoverFrom(if err.Some? then err.value else env.run.value, env.recovery);
    }

    /** Dispatch one task and swallow whatever it raises, so that the loop never collapses. */
    method GuardedProcessOneTaskOrRecover(task: Task, env: TaskEnv) returns (d: Dispatch)
      modifies this`commitsWithoutExpire, this`expireAlls, this`commits, this`rows, this`dirty
      modifies this`statesManager, this`stateAttributesManager, this`eventDataManager
      modifies this`eventTypeManager, this`statesMetaManager, this`statisticsMetaLoaded
      modifies this`eventSession, this`connected, this`dialect, this`databasesMovedAway, this`stopRequested
      modifies this`dispatched
      ensures dispatched == old(dispatched) + [task]
      ensures DispatchEffect(task, env, d)
    {
      dispatched := dispatched + [task];
      d := ProcessOneTaskOrRecover(task, env);
    }

    /** The event tasks queued before the loop starts, split by kind to prime the managers. */
    method PreProcessStartupTasks(tasks: seq<Task>) returns (stateChanged: seq<Event>, nonStateChanged: seq<Event>)
      requires eventSession
      ensures stateChanged == StateChangedEvents(tasks)
      ensures nonStateChanged == NonStateChangedEvents(tasks)
    {
      stateChanged, nonStateChanged := [], [];
      var i := 0;
      while i < |tasks|
        invariant 0 <= i <= |tasks|
        invariant stateChanged == StateChangedEvents(tasks[..i])
        invariant nonStateChanged == NonStateChangedEvents(tasks[..i])
      {
        var t := tasks[i];
        if t.EventTask? {
          if t.event.eventType == EVENT_STATE_CHANGED {
            stateChanged := stateChanged + [t.event];
          } else {
            nonStateChanged := nonStateChanged + [t.event];
          }
        }
        assert tasks[..i + 1][..i] == tasks[..i];
        i := i + 1;
      }
      assert tasks[..|tasks|] == tasks;
    }

    /** Drain the queue into the startup batch, dispatch it in order, then clear the stop flag and
        dispatch arriving tasks until a stop task completes. `arrivals` are the tasks the loop
        takes from the queue, in order, and `env(i)` what the i-th dispatched task meets. */
    method RunEventLoop(arrivals: seq<Task>, env: nat -> TaskEnv) returns (consumed: nat)
      requires eventSession
      modifies this`commitsWithoutExpire, this`expireAlls, this`commits, this`rows, this`dirty
      modifies this`statesManager, this`stateAttributesManager, this`eventDataManager
      modifies this`eventTypeManager, this`statesMetaManager, this`statisticsMetaLoaded
      modifies this`eventSession, this`connected, this`dialect, this`databasesMovedAway, this`stopRequested
      modifies this`dispatched, this`queue
      ensures queue == []
      ensures consumed <= |arrivals|
      ensures dispatched == old(dispatched) + old(queue) + arrivals[..consumed]
      ensures consumed < |arrivals| ==> stopRequested
      ensures stopRequested ==> consumed >= 1 && arrivals[consumed - 1] == StopTask
    {
      var startup: seq<Task> := [];
      while queue != []
        invariant startup + queue == old(queue)
        invariant eventSession == old(eventSession) && dispatched == old(dispatched)
        decreases |queue|
      {
        startup := startup + [queue[0]];
        queue := queue[1..];
      }
      var _, _ := PreProcessStartupTasks(startup);
      DispatchStartupTasks(startup, env);
      consumed := DispatchUntilStop(arrivals, env, |startup|);
    }

    /** Dispatch the startup batch in order; the i-th task meets `env(i)`. */
    method DispatchStartupTasks(startup: seq<Task>, env: nat -> TaskEnv)
      modifies this`commitsWithoutExpire, this`expireAlls, this`commits, this`rows, this`dirty
      modifies this`statesManager, this`stateAttributesManager, this`eventDataManager
      modifies this`eventTypeManager, this`statesMetaManager, this`statisticsMetaLoaded
      modifies this`eventSession, this`connected, this`dialect, this`databasesMovedAway, this`stopRequested
      modifies this`dispatched
      ensures dispatched == old(dispatched) + startup
    {
      var i := 0;
      while i < |startup|
        invariant 0 <= i <= |startup|
        invariant dispatched == old(dispatched) + startup[..i]
      {
        var _ := GuardedProcessOneTaskOrRecover(startup[i], env(i));
        assert startup[..i + 1] == startup[..i] + [startup[i]];
        i := i + 1;
      }
      assert startup[..|startup|] == startup;
    }

    /** Clear the stop flag, then dispatch arriving tasks until a stop task completes; the j-th
        arrival meets `env(offset + j)`. */
    method DispatchUntilStop(arrivals: seq<Task>, env: nat -> TaskEnv, offset: nat) returns (consumed: nat)
      modifies this`commitsWithoutExpire, this`expireAlls, this`commits, this`rows, this`dirty
      modifies this`statesManager, this`stateAttributesManager, this`eventDataManager
      modifies this`eventTypeManager, this`statesMetaManager, this`statisticsMetaLoaded
      modifies this`eventSession, this`connected, this`dialect, this`databasesMovedAway, this`stopRequested
      modifies this`dispatched
      ensures consumed <= |arrivals|
      ensures dispatched == old(dispatched) + arrivals[..consumed]
      ensures consumed < |arrivals| ==> stopRequested
      ensures stopRequested ==> consumed >= 1 && arrivals[consumed - 1] == StopTask
    {
      stopRequested := false;
      var j := 0;
      while !stopRequested && j < |arrivals|
        invariant 0 <= j <= |arrivals|
        invariant dispatched == old(dispatched) + arrivals[..j]
        invariant stopRequested ==> j >= 1 && arrivals[j - 1] == StopTask
      {
        var d := GuardedProcessOneTaskOrRecover(arrivals[j], env(offset + j));
        assert arrivals[..j + 1] == arrivals[..j] + [arrivals[j]];
        j := j + 1;
      }
      consumed := j;
    }

    // ---------------------------------------------------------------- event ingestion

    /** The session rows and managers after recording event `e`. */
    function EventStep(e: Event, shared: string, hash: nat, store: StoreView): Dedup.Ingest
      reads this
    {
      if e.eventType == EVENT_STATE_CHANGED
      then Dedup.StateStep(IngestState(), e, shared, hash, store, statesMetaActive)
      else Dedup.NonStateStep(IngestState(), e, shared, hash, store)
    }

    method SetIngestState(s: Dedup.Ingest)
      modifies this`rows, this`nextHandle, this`eventTypeManager, this`eventDataManager
      modifies this`statesMetaManager, this`stateAttributesManager, this`statesManager
      ensures IngestState() == s
    {
      rows, nextHandle := s.rows, s.nextHandle;
      eventTypeManager, eventDataManager, statesMetaManager := s.eventTypes, s.eventData, s.statesMeta;
      stateAttributesManager, statesManager := s.stateAttributes, s.states;
    }

    /** Record one event; `shared` is its serialised data (attributes for a state change) and
        `hash` the hash of that serialisation. With a zero commit interval every event is committed
        at once, and `r` is that commit's result; otherwise `r` is NothingToCommit. A state change
        without an `entity_id` key raises KeyError (`keyError`) before anything is recorded. */
    method ProcessOneEvent(e: Event, shared: string, hash: nat, store: StoreView, attempt: nat -> CommitOutcome)
      returns (r: Retry.CommitResult, keyError: bool)
      modifies this`rows, this`nextHandle, this`dirty, this`commitsWithoutExpire, this`expireAlls, this`commits
      modifies this`statesManager, this`stateAttributesManager, this`eventDataManager
      modifies this`eventTypeManager, this`statesMetaManager
      ensures keyError <==> enabled && e.eventType == EVENT_STATE_CHANGED && e.entityId.Absent?
      ensures !enabled || keyError ==>
        && r == Retry.NothingToCommit && IngestState() == old(IngestState()) && dirty == old(dirty)
        && commitsWithoutExpire == old(commitsWithoutExpire) && expireAlls == old(expireAlls) && commits == old(commits)
      ensures enabled && commitInterval != 0 ==>
        && r == Retry.NothingToCommit && IngestState() == old(EventStep(e, shared, hash, store)) && dirty == old(dirty)
        && commitsWithoutExpire == old(commitsWithoutExpire) && expireAlls == old(expireAlls) && commits == old(commits)
      ensures enabled && !keyError && commitInterval == 0 ==>
        var s := old(EventStep(e, shared, hash, store));
        && r == Retry.CommitOrRetry(eventSession && (s.rows != [] || old(dirty)), dbMaxRetries, attempt)
        && CountersAfter(r, old(commitsWithoutExpire), old(expireAlls), old(commits))
        && (r.Committed? ==> rows == [] && !dirty && nextHandle == s.nextHandle && Managers() == PostCommitAll(ManagersOf(s)))
        && (!r.Committed? ==> IngestState() == s && dirty == old(dirty))
    {
      if !enabled {
        return Retry.NothingToCommit, false;
      }
      if e.eventType == EVENT_STATE_CHANGED && e.entityId.Absent? {
        return Retry.NothingToCommit, true;
      }
      SetIngestState(EventStep(e, shared, hash, store));
      if commitInterval != 0 {
        return Retry.NothingToCommit, false;
      }
      r := CommitEventSessionOrRetry(attempt);
      keyError := false;
    }

    // ---------------------------------------------------------------- backup lock

    /** Ask the engine to hold the database lock for a backup. `lockedInTime` says whether the
        engine signalled the lock within DB_LOCK_TIMEOUT; if not, the task is told to unlock and
        the call raises a timeout. */
    method LockDatabase(lockedInTime: bool) returns (r: LockResult, token: LockToken?)
      modifies this`queue, this`databaseLockTask
      ensures dialect != Some(SQLite) ==>
        r == Locked(true) && token == null && queue == old(queue) && databaseLockTask == old(databaseLockTask)
      ensures dialect == Some(SQLite) && old(databaseLockTask) != null ==>
        r == Locked(false) && token == null && queue == old(queue) && databaseLockTask == old(databaseLockTask)
      ensures dialect == Some(SQLite) && old(databaseLockTask) == null ==>
        && token != null && fresh(token) && queue == old(queue) + [DatabaseLockTask(token)]
        && token.databaseLocked == lockedInTime && !token.queueOverflow
        && (lockedInTime ==> r == Locked(true) && databaseLockTask == token && !token.databaseUnlock)
        && (!lockedInTime ==> r == TimedOut && databaseLockTask == null && token.databaseUnlock)
    {
      if dialect != Some(SQLite) {
        return Locked(true), null;
      }
      if databaseLockTask != null {
        return Locked(false), null;
      }
      token := new LockToken();
      queue := queue + [DatabaseLockTask(token)];
      if !lockedInTime {
        token.databaseUnlock := true;
        return TimedOut, token;
      }
      token.databaseLocked := true;
      databaseLockTask := token;
      return Locked(true), token;
    }

    /** Release the backup lock; the answer says whether the lock was held throughout. */
    method UnlockDatabase() returns (ok: bool)
      modifies this`databaseLockTask, databaseLockTask
      ensures dialect != Some(SQLite) ==> ok && databaseLockTask == old(databaseLockTask)
      ensures dialect == Some(SQLite) && old(databaseLockTask) == null ==> !ok && databaseLockTask == null
      ensures dialect == Some(SQLite) && old(databaseLockTask) != null ==>
        && ok == !old(databaseLockTask.queueOverflow) && databaseLockTask == null
        && old(databaseLockTask).databaseUnlock
        && old(databaseLockTask).queueOverflow == old(databaseLockTask.queueOverflow)
        && old(databaseLockTask).databaseLocked == old(databaseLockTask.databaseLocked)
    {
      if dialect != Some(SQLite) {
        return true;
      }
      if databaseLockTask == null {
        return false;
      }
      databaseLockTask.databaseUnlock := true;
      ok := !databaseLockTask.queueOverflow;
      databaseLockTask := null;
    }

    /** The engine side of a lock task: signal that the lock is held, then poll for the unlock
        signal, giving the lock up when the backlog passes 90% of MAX_QUEUE_BACKLOG. A token
        already told to unlock (a timed-out request) ends the wait before the first poll. */
    method LockDatabaseRun(token: LockToken, polls: seq<LockWait.Poll>) returns (end: LockWait.WaitEnd)
      modifies token
      ensures token.databaseLocked
      ensures old(token.databaseUnlock) ==> end == LockWait.Unlocked(0)
      ensures !old(token.databaseUnlock) ==> end == LockWait.WaitFrom(polls, 0, maxQueueBacklog)
      ensures token.queueOverflow == (old(token.queueOverflow) || end.Overflowed?)
      ensures token.databaseUnlock == old(token.databaseUnlock)
    {
      token.databaseLocked := true;
      if token.databaseUnlock {
        return LockWait.Unlocked(0);
      }
      var i := 0;
      while i < |polls| && !polls[i].unlockSignalled
        invariant 0 <= i <= |polls|
        invariant LockWait.WaitFrom(polls, 0, maxQueueBacklog) == LockWait.WaitFrom(polls, i, maxQueueBacklog)
        invariant token.queueOverflow == old(token.queueOverflow) && token.databaseLocked
        invariant token.databaseUnlock == old(token.databaseUnlock)
      {
        if LockWait.AboveNinetyPercent(polls[i].backlog, maxQueueBacklog) {
          token.queueOverflow := true;
          return LockWait.Overflowed(i);
        }
        i := i + 1;
      }
      return if i == |polls| then LockWait.StillWaiting else LockWait.Unlocked(i);
    }

    // ---------------------------------------------------------------- startup

    method AsyncConnectionFailed()
      requires dbConnected.None? && dbReady.None?
      modifies this`dbConnected, this`dbReady, this`eventListener, this`queueWatcher, this`keepAliveListener
      modifies this`commitListener, this`nightlyListener, this`periodicListener
      ensures dbConnected == Some(false) && dbReady == Some(false)
      ensures !Recording() && !queueWatcher && !keepAliveListener && !commitListener
      ensures !nightlyListener && !periodicListener
    {
      dbConnected, dbReady := Some(false), Some(false);
      AsyncStopListeners();
    }

    method AsyncConnectionSuccess()
      requires dbConnected.None?
      modifies this`dbConnected
      ensures dbConnected == Some(true)
    {
      dbConnected := Some(true);
    }

    /** Signal that the database is ready and start the executor; a second call does nothing. */
    method AsyncSetDbReady()
      modifies this`dbReady, this`executorStarted
      ensures old(dbReady).Some? ==> dbReady == old(dbReady) && executorStarted == old(executorStarted)
      ensures old(dbReady).None? ==> dbReady == Some(true) && executorStarted
    {
      if dbReady.Some? {
        return;
      }
      dbReady := Some(true);
      executorStarted := true;
    }

    /** Queue the data migrations the schema version and the store call for, activate the managers
        whose data is fully migrated, then signal readiness. */
    method ActivateAndSetDbReady(answers: Activation.Answers)
      requires connected
      modifies this`queue, this`eventTypesActive, this`statesMetaActive, this`useLegacyEventsIndex
      modifies this`statisticsMetaLoaded, this`dbReady, this`executorStarted
      ensures var p := Activation.PlanFor(schemaVersion, thresholds, answers);
        && queue == old(queue) + MigrationTasks(p.tasks)
        && statisticsMetaLoaded == (old(statisticsMetaLoaded) || p.loadStatisticsMeta)
        && eventTypesActive == (old(eventTypesActive) || p.activateEventTypes)
        && statesMetaActive == (old(statesMetaActive) || p.activateStatesMeta)
        && useLegacyEventsIndex == (old(useLegacyEventsIndex) || p.useLegacyEventsIndex)
      ensures dbReady.Some? && (old(dbReady).None? ==> dbReady == Some(true) && executorStarted)
      ensures old(dbReady).Some? ==> dbReady == old(dbReady)
    {
      var p := Activation.PlanFor(schemaVersion, thresholds, answers);
      ApplyPlan(p);
      AsyncSetDbReady();
    }

    /** Queue the plan's tasks and switch on what it activates. */
    method ApplyPlan(p: Activation.Plan)
      modifies this`queue, this`eventTypesActive, this`statesMetaActive, this`useLegacyEventsIndex
      modifies this`statisticsMetaLoaded
      ensures queue == old(queue) + MigrationTasks(p.tasks)
      ensures statisticsMetaLoaded == (old(statisticsMetaLoaded) || p.loadStatisticsMeta)
      ensures eventTypesActive == (old(eventTypesActive) || p.activateEventTypes)
      ensures statesMetaActive == (old(statesMetaActive) || p.activateStatesMeta)
      ensures useLegacyEventsIndex == (old(useLegacyEventsIndex) || p.useLegacyEventsIndex)
    {
      statisticsMetaLoaded := statisticsMetaLoaded || p.loadStatisticsMeta;
      queue := queue + MigrationTasks(p.tasks);
      eventTypesActive := eventTypesActive || p.activateEventTypes;
      statesMetaActive := statesMetaActive || p.activateStatesMeta;
      useLegacyEventsIndex := useLegacyEventsIndex || p.useLegacyEventsIndex;
    }

    /** Start the timers, unless Home Assistant is stopping or there is no connection: keep-alive
        only for a socket database, the commit timer only for a non-zero commit interval. */
    method SetupPeriodicTasks(hassStopping: bool)
      modifies this`keepAliveListener, this`commitListener, this`nightlyListener, this`periodicListener
      ensures hassStopping || !connected ==>
        && keepAliveListener == old(keepAliveListener) && commitListener == old(commitListener)
        && nightlyListener == old(nightlyListener) && periodicListener == old(periodicListener)
      ensures !hassStopping && connected ==>
        && keepAliveListener == (old(keepAliveListener) || dialect != Some(SQLite))
        && commitListener == (old(commitListener) || commitInterval != 0)
        && nightlyListener && periodicListener
    {
      if hassStopping || !connected {
        return;
      }
      if dialect != Some(SQLite) {
        keepAliveListener := true;
      }
      if commitInterval != 0 {
        commitListener := true;
      }
      nightlyListener, periodicListener := true, true;
    }

    method AsyncSetRecorderReadyMigrationDone(hassStopping: bool)
      modifies this`keepAliveListener, this`commitListener, this`nightlyListener, this`periodicListener
      modifies this`recorderReady
      ensures recorderReady
      ensures hassStopping || !connected ==>
        && keepAliveListener == old(keepAliveListener) && commitListener == old(commitListener)
        && nightlyListener == old(nightlyListener) && periodicListener == old(periodicListener)
      ensures !hassStopping && connected ==>
        && keepAliveListener == (old(keepAliveListener) || dialect != Some(SQLite))
        && commitListener == (old(commitListener) || commitInterval != 0)
        && nightlyListener && periodicListener
    {
      SetupPeriodicTasks(hassStopping);
      recorderReady := true;
    }

    /** Migrate the schema, then start the run. A corrupt database met during the migration is
        moved away and the recorder starts over on a new one; any other error fails the migration.
        `crash` is an error that escapes the engine thread. */
    method MigrateSchemaAndSetupRun(migrate: MigrateOutcome, recovery: nat -> SetupOutcome)
      returns (ok: bool, crash: Option<StoreError>)
      modifies this`migrationStarted, this`migrationInProgress
      modifies this`eventSession, this`rows, this`dirty, this`connected, this`dialect, this`databasesMovedAway
      modifies this`statesManager, this`stateAttributesManager, this`eventDataManager
      modifies this`eventTypeManager, this`statesMetaManager, this`statisticsMetaLoaded
      ensures migrationStarted && !migrationInProgress
      ensures migrate.MigrateOk? ==> ok && (crash.None? <==> old(connected))
      ensures migrate.MigrateOk? ==>
        && connected == old(connected) && dialect == old(dialect) && Managers() == old(Managers())
        && databasesMovedAway == old(databasesMovedAway) && statisticsMetaLoaded == old(statisticsMetaLoaded)
      ensures migrate.MigrateFails? && RecoveryFor(migrate.err) != MoveAway ==>
        && !ok && crash.None? && connected == old(connected) && eventSession == old(eventSession)
        && rows == old(rows) && dirty == old(dirty) && dialect == old(dialect) && Managers() == old(Managers())
        && databasesMovedAway == old(databasesMovedAway) && statisticsMetaLoaded == old(statisticsMetaLoaded)
      ensures migrate.MigrateFails? && RecoveryFor(migrate.err) == MoveAway ==>
        && !statisticsMetaLoaded && Managers() == ResetAll(old(Managers()))
        && databasesMovedAway == old(databasesMovedAway) + (if old(connected) then 1 else 0)
      ensures migrate.MigrateFails? && RecoveryFor(migrate.err) == MoveAway ==>
        ok && (crash.None? <==> old(connected) && Reconnects(dbMaxRetries, recovery))
      ensures crash.None? && ok ==> connected && eventSession && rows == [] && !dirty
    {
      migrationStarted := true;
      if migrate.MigrateOk? {
        crash := SetupRun();
        ok := true;
      } else if IsDatabaseError(migrate.err) {
        ok, crash := HandleDatabaseError(migrate.err, recovery);
      } else {
        ok, crash := false, None;
      }
      migrationInProgress := false;
    }

    /** Stop the listeners, commit what the session holds (an error there is swallowed), close the
        session and dispose of the connection. */
    method Shutdown(attempt: nat -> CommitOutcome) returns (raised: Option<StoreError>)
      modifies this`eventListener, this`queueWatcher, this`keepAliveListener, this`commitListener
      modifies this`nightlyListener, this`periodicListener, this`connected
      modifies this`commitsWithoutExpire, this`expireAlls, this`commits, this`rows, this`dirty
      modifies this`statesManager, this`stateAttributesManager, this`eventDataManager
      modifies this`eventTypeManager, this`statesMetaManager
      ensures !Recording() && !queueWatcher && !keepAliveListener && !commitListener
      ensures !nightlyListener && !periodicListener && !connected
      ensures raised.None? <==> old(connected)
      ensures old(eventSession) ==> rows == [] && !dirty
                                    && commits == old(commits) + (if Retry.CommitOrRetry(old(PendingWrites()), dbMaxRetries, attempt).Committed? then 1 else 0)
    {
      AsyncStopListeners();
      if eventSession {
        var _ := CommitEventSessionOrRetry(attempt);
        rows, dirty := [], false;
      }
      raised := CloseConnection();
    }

    /** Connect and validate the schema; on failure signal it and stop the listeners. A valid
        schema starts the run at once, an invalid one marks the migration as in progress. */
    method ConnectAndValidate(setup: nat -> SetupOutcome, status: Option<SchemaStatus>) returns (ok: bool)
      requires dbConnected.None? && dbReady.None?
      modifies this`connected, this`dialect, this`dbConnected, this`dbReady, this`eventListener, this`queueWatcher
      modifies this`keepAliveListener, this`commitListener, this`nightlyListener, this`periodicListener
      modifies this`schemaVersion, this`migrationInProgress, this`migrationIsLive, this`eventSession, this`rows, this`dirty
      ensures ok <==> Retry.SetupFrom(1, dbMaxRetries, setup).ok && status.Some?
      ensures !ok ==> dbConnected == Some(false) && dbReady == Some(false) && !Recording() && !queueWatcher
      ensures ok ==>
        && connected && dbConnected == Some(true) && dbReady.None? && schemaVersion == status.value.currentVersion
        && eventListener == old(eventListener) && queueWatcher == old(queueWatcher)
        && (status.value.valid ==> eventSession && migrationInProgress == old(migrationInProgress)
                                   && migrationIsLive == old(migrationIsLive))
        && (!status.value.valid ==> migrationInProgress && migrationIsLive == status.value.liveMigration)
    {
      ok := SetupRecorder(setup);
      Retry.SetupFromShape(1, dbMaxRetries, setup);
      if !ok || status.None? {
        AsyncConnectionFailed();
        return false;
      }
      var st := status.value;
      schemaVersion := st.currentVersion;
      if st.valid {
        var _ := SetupRun();
      } else {
        migrationInProgress := true;
        migrationIsLive := st.liveMigration;
      }
      AsyncConnectionSuccess();
    }

    /** Run the blocking part of the migration. A failed migration still signals readiness (the
        waiters are released), then shuts the recorder down; a successful one brings the schema to
        the latest version and subscribes again if the backlog watchdog had unsubscribed. */
    method MigrateOrShutDown(migrate: MigrateOutcome, recovery: nat -> SetupOutcome, atShutdown: nat -> CommitOutcome)
      returns (end: RunEnd)
      requires connected
      modifies this`migrationStarted, this`migrationInProgress, this`schemaVersion, this`dbReady, this`executorStarted
      modifies this`eventSession, this`rows, this`dirty, this`connected, this`dialect, this`databasesMovedAway
      modifies this`statesManager, this`stateAttributesManager, this`eventDataManager
      modifies this`eventTypeManager, this`statesMetaManager
      modifies this`eventListener, this`queueWatcher, this`keepAliveListener, this`commitListener
      modifies this`nightlyListener, this`periodicListener
      modifies this`commitsWithoutExpire, this`expireAlls, this`commits, this`statisticsMetaLoaded
      ensures end.Crashed? || end == MigrationFailed || end == EventLoopStarted
      ensures !migrationInProgress
      ensures end == MigrationFailed ==> dbReady == (if old(dbReady).Some? then old(dbReady) else Some(true)) && !Recording()
      ensures end == EventLoopStarted ==>
        && connected && eventSession && schemaVersion == latestSchemaVersion && Recording()
        && dbReady == old(dbReady)
    {
      var migrated, crash := MigrateSchemaAndSetupRun(migrate, recovery);
      if crash.Some? {
        return Crashed(crash.value);
      }
      if !migrated {
        AsyncSetDbReady();
        var _ := Shutdown(atShutdown);
        return MigrationFailed;
      }
      schemaVersion := latestSchemaVersion;
      if !eventListener {
        AsyncInitialize();
      }
      return EventLoopStarted;
    }

    /** Startup of a database that is ready before its migration (valid, or migrating live):
        activate first, wait for Home Assistant to start (or shut down if it stops first), then
        migrate what is left. */
    method StartWhileReady(st: SchemaStatus, answers: Activation.Answers, shutdownBeforeStart: bool,
                           migrate: MigrateOutcome, recovery: nat -> SetupOutcome, atShutdown: nat -> CommitOutcome)
      returns (end: RunEnd)
      requires connected && schemaVersion == st.currentVersion
      requires st.valid ==> eventSession
      modifies this`migrationStarted, this`migrationInProgress, this`schemaVersion, this`dbReady, this`executorStarted
      modifies this`eventSession, this`rows, this`dirty, this`connected, this`dialect, this`databasesMovedAway
      modifies this`statesManager, this`stateAttributesManager, this`eventDataManager
      modifies this`eventTypeManager, this`statesMetaManager
      modifies this`eventListener, this`queueWatcher, this`keepAliveListener, this`commitListener
      modifies this`nightlyListener, this`periodicListener
      modifies this`commitsWithoutExpire, this`expireAlls, this`commits
      modifies this`queue, this`eventTypesActive, this`statesMetaActive, this`useLegacyEventsIndex, this`statisticsMetaLoaded
      ensures end != ConnectionFailed
      ensures end == ShutdownBeforeStarted <==> shutdownBeforeStart
      ensures end.Crashed? || end == MigrationFailed ==> !st.valid
      ensures end != EventLoopStarted ==> !migrationInProgress
      ensures end == ShutdownBeforeStarted || end == MigrationFailed ==> dbReady.Some? && !Recording()
      ensures old(dbReady).None? && end != ConnectionFailed && !end.Crashed? ==> dbReady == Some(true)
      ensures end == EventLoopStarted ==>
        && connected && eventSession
        && queue == old(queue) + MigrationTasks(Activation.PlanFor(st.currentVersion, thresholds, answers).tasks)
        && schemaVersion == (if st.valid then st.currentVersion else latestSchemaVersion)
        && (!st.valid ==> !migrationInProgress && Recording())
    {
      ActivateAndSetDbReady(answers);
      if shutdownBeforeStart {
        ShutDownBeforeStarted(atShutdown);
        return ShutdownBeforeStarted;
      }
      if st.valid {
        return EventLoopStarted;
      }
      end := MigrateOrShutDown(migrate, recovery, atShutdown);
    }

    /** The shutdown step of `StartWhileReady`: Home Assistant stopped before it started, so the
        migration is abandoned and the recorder shut down, committing what the session holds. */
    method ShutDownBeforeStarted(atShutdown: nat -> CommitOutcome)
      modifies this`migrationInProgress, this`connected, this`rows, this`dirty
      modifies this`eventListener, this`queueWatcher, this`keepAliveListener, this`commitListener
      modifies this`nightlyListener, this`periodicListener
      modifies this`commitsWithoutExpire, this`expireAlls, this`commits
      modifies this`statesManager, this`stateAttributesManager, this`eventDataManager
      modifies this`eventTypeManager, this`statesMetaManager
      ensures !migrationInProgress && !Recording() && !connected
      ensures !queueWatcher && !keepAliveListener && !commitListener && !nightlyListener && !periodicListener
      ensures old(eventSession) ==> rows == [] && !dirty
                                    && commits == old(commits) + (if Retry.CommitOrRetry(old(PendingWrites()), dbMaxRetries, atShutdown).Committed? then 1 else 0)
    {
      migrationInProgress := false;
      var _ := Shutdown(atShutdown);
    }

    /** Startup of a database that must be migrated before use: migrate, then activate. */
    method StartAfterMigration(answers: Activation.Answers, migrate: MigrateOutcome, recovery: nat -> SetupOutcome,
                               atShutdown: nat -> CommitOutcome)
      returns (end: RunEnd)
      requires connected
      modifies this`migrationStarted, this`migrationInProgress, this`schemaVersion, this`dbReady, this`executorStarted
      modifies this`eventSession, this`rows, this`dirty, this`connected, this`dialect, this`databasesMovedAway
      modifies this`statesManager, this`stateAttributesManager, this`eventDataManager
      modifies this`eventTypeManager, this`statesMetaManager
      modifies this`eventListener, this`queueWatcher, this`keepAliveListener, this`commitListener
      modifies this`nightlyListener, this`periodicListener
      modifies this`commitsWithoutExpire, this`expireAlls, this`commits
      modifies this`queue, this`eventTypesActive, this`statesMetaActive, this`useLegacyEventsIndex, this`statisticsMetaLoaded
      ensures end.Crashed? || end == MigrationFailed || end == EventLoopStarted
      ensures !migrationInProgress
      ensures end == MigrationFailed ==> dbReady.Some? && !Recording()
      ensures old(dbReady).None? && !end.Crashed? ==> dbReady == Some(true)
      ensures end == EventLoopStarted ==>
        && connected && eventSession && schemaVersion == latestSchemaVersion && Recording()
        && queue == old(queue) + MigrationTasks(Activation.PlanFor(latestSchemaVersion, thresholds, answers).tasks)
    {
      end := MigrateOrShutDown(migrate, recovery, atShutdown);
      if end == EventLoopStarted {
        ActivateAndSetDbReady(answers);
      }
    }

    /** Startup once connected with a known schema: activate at once when the schema is valid or
        migrates live (otherwise after the migration), migrate, queue the missing-statistics
        compilation and mark the recorder ready. */
    method StartConnected(st: SchemaStatus, answers: Activation.Answers, shutdownBeforeStart: bool,
                          migrate: MigrateOutcome, recovery: nat -> SetupOutcome, atShutdown: nat -> CommitOutcome,
                          hassStopping: bool)
      returns (end: RunEnd)
      requires connected && dbReady.None? && schemaVersion == st.currentVersion
      requires st.valid ==> eventSession
      requires !st.valid ==> migrationInProgress && migrationIsLive == st.liveMigration
      modifies this`migrationStarted, this`migrationInProgress, this`schemaVersion, this`dbReady, this`executorStarted
      modifies this`eventSession, this`rows, this`dirty, this`connected, this`dialect, this`databasesMovedAway
      modifies this`statesManager, this`stateAttributesManager, this`eventDataManager
      modifies this`eventTypeManager, this`statesMetaManager
      modifies this`eventListener, this`queueWatcher, this`keepAliveListener, this`commitListener
      modifies this`nightlyListener, this`periodicListener
      modifies this`commitsWithoutExpire, this`expireAlls, this`commits
      modifies this`queue, this`eventTypesActive, this`statesMetaActive, this`useLegacyEventsIndex, this`statisticsMetaLoaded
      modifies this`recorderReady
      ensures end != ConnectionFailed
      ensures end.Crashed? ==> !st.valid && !migrationInProgress
      ensures end == ShutdownBeforeStarted ==>
        shutdownBeforeStart && (st.valid || st.liveMigration) && !migrationInProgress && dbReady == Some(true) && !Recording()
      ensures end == MigrationFailed ==> !st.valid && !migrationInProgress && dbReady == Some(true) && !Recording()
      ensures end == EventLoopStarted ==>
        var v := if st.valid || st.liveMigration then st.currentVersion else latestSchemaVersion;
        && connected && eventSession && (!st.valid ==> !migrationInProgress) && dbReady == Some(true) && recorderReady
        && schemaVersion == (if st.valid then st.currentVersion else latestSchemaVersion)
        && queue == old(queue) + MigrationTasks(Activation.PlanFor(v, thresholds, answers).tasks)
                    + [CompileMissingStatisticsTask]
        && (!st.valid ==> Recording())
    {
      var databaseWasReady := migrationIsLive || st.valid;
      if databaseWasReady {
        end := StartWhileReady(st, answers, shutdownBeforeStart, migrate, recovery, atShutdown);
      } else {
        end := StartAfterMigration(answers, migrate, recovery, atShutdown);
      }
      if end == EventLoopStarted {
        CatchUpAndSetRecorderReady(hassStopping);
      }
    }

    /** Queue the compilation of missed statistics, then mark the recorder ready. */
    method CatchUpAndSetRecorderReady(hassStopping: bool)
      modifies this`queue, this`keepAliveListener, this`commitListener, this`nightlyListener, this`periodicListener
      modifies this`recorderReady
      ensures queue == old(queue) + [CompileMissingStatisticsTask] && recorderReady
    {
      queue := queue + [CompileMissingStatisticsTask];
      AsyncSetRecorderReadyMigrationDone(hassStopping);
    }

    /** The engine thread up to its event loop: connect and validate the schema, then start up. */
    method Run(setup: nat -> SetupOutcome, status: Option<SchemaStatus>, answers: Activation.Answers,
               shutdownBeforeStart: bool, migrate: MigrateOutcome, recovery: nat -> SetupOutcome,
               atShutdown: nat -> CommitOutcome, hassStopping: bool)
      returns (end: RunEnd)
      requires dbConnected.None? && dbReady.None?
      modifies this`migrationStarted, this`migrationInProgress, this`schemaVersion, this`dbReady, this`executorStarted
      modifies this`eventSession, this`rows, this`dirty, this`connected, this`dialect, this`databasesMovedAway
      modifies this`statesManager, this`stateAttributesManager, this`eventDataManager
      modifies this`eventTypeManager, this`statesMetaManager
      modifies this`eventListener, this`queueWatcher, this`keepAliveListener, this`commitListener
      modifies this`nightlyListener, this`periodicListener
      modifies this`commitsWithoutExpire, this`expireAlls, this`commits
      modifies this`queue, this`eventTypesActive, this`statesMetaActive, this`useLegacyEventsIndex, this`statisticsMetaLoaded
      modifies this`recorderReady
      modifies this`dbConnected, this`migrationIsLive
      ensures end == ConnectionFailed <==> !Retry.SetupFrom(1, dbMaxRetries, setup).ok || status.None?
      ensures end == ConnectionFailed ==> dbConnected == Some(false) && dbReady == Some(false) && !Recording()
      ensures end != ConnectionFailed ==> dbConnected == Some(true) && status.Some?
      ensures end.Crashed? ==> !status.value.valid && !migrationInProgress
      ensures end == ShutdownBeforeStarted ==>
        && shutdownBeforeStart && (status.value.valid || status.value.liveMigration)
        && !migrationInProgress && dbReady == Some(true) && !Recording()
      ensures end == MigrationFailed ==>
        && !status.value.valid && !migrationInProgress && dbReady == Some(true) && !Recording()
      ensures end == EventLoopStarted ==>
        var st := status.value;
        var v := if st.valid || st.liveMigration then st.currentVersion else latestSchemaVersion;
        && connected && eventSession && (!st.valid ==> !migrationInProgress) && dbReady == Some(true) && recorderReady
        && schemaVersion == (if st.valid then st.currentVersion else latestSchemaVersion)
        && queue == old(queue) + MigrationTasks(Activation.PlanFor(v, thresholds, answers).tasks)
                    + [CompileMissingStatisticsTask]
        && (!st.valid ==> Recording())
    {
      var ok := ConnectAndValidate(setup, status);
      if !ok {
        return ConnectionFailed;
      }
      end := StartConnected(status.value, answers, shutdownBeforeStart, migrate, recovery, atShutdown, hassStopping);
    }
}
}
