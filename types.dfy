/** Values the recorder engine works on: events, tasks, store outcomes and rows. */
module RecorderTypes {

  datatype Option<+T> = None | Some(value: T)

  /** Row identifiers the store assigns; SQL auto-increment keys start at 1, so every id is truthy. */
  type Id = x: int | x > 0 witness 1

  /** The value found under the `entity_id` key of an event's data. */
  datatype EntityIdValue =
    | Absent                     // no `entity_id` key in the event data
    | NoneValue                  // the key is mapped to None
    | Str(s: string)
    | StrList(items: seq<string>)
    | OtherValue                 // any other Python value

  /** An event as the engine sees it. `dataEmpty` is "not event.data"; `hasNewState` is
      the truthiness of `data["new_state"]` for state_changed events. */
  datatype Event = Event(eventType: string, entityId: EntityIdValue, dataEmpty: bool, hasNewState: bool)

  const EVENT_STATE_CHANGED: string := "state_changed"

  /** The entity key a state_changed event is tracked under (`event.data["entity_id"]`); an
      absent key raises before the key is used, so it is never asked for then. */
  function StateEntityKey(e: Event): Option<string>
  {
    if e.entityId.Str? then Some(e.entityId.s) else None
  }

  /** One in-flight backup lock request (`DatabaseLockTask`): the two signals and the overflow flag. */
  class LockToken {
    var databaseLocked: bool
    var databaseUnlock: bool
    var queueOverflow: bool

    constructor ()
      ensures !databaseLocked && !databaseUnlock && !queueOverflow
    {
      databaseLocked, databaseUnlock, queueOverflow := false, false, false;
    }
  }

  datatype MigrationTask =
    | StatesContextIdMigration
    | EventsContextIdMigration
    | EventTypeIdMigration
    | EntityIdMigration
    | EventIdMigration

  /** The task variants the engine itself creates or inspects; everything else is `OtherTask`. */
  datatype Task =
    | EventTask(event: Event)
    | CommitTask
    | KeepAliveTask
    | StopTask
    | DatabaseLockTask(token: LockToken)
    | Migrate(m: MigrationTask)
    | CompileMissingStatisticsTask
    | OtherTask(name: string)

  /** The exception classes the engine distinguishes. Internal and Operational errors are the
      transient DatabaseError subclasses the commit loop retries. */
  datatype ErrorClass =
    | InternalError
    | OperationalError
    | OtherDatabaseError
    | OtherSQLAlchemyError
    | NonDatabaseException

  /** A raised error; `sqliteCause` is "err.__cause__ is a sqlite3.DatabaseError". */
  datatype StoreError = StoreError(cls: ErrorClass, sqliteCause: bool)

  predicate IsDatabaseError(e: StoreError)
  {
    e.cls == InternalError || e.cls == OperationalError || e.cls == OtherDatabaseError
  }

  predicate IsSQLAlchemyError(e: StoreError)
  {
    e.cls != NonDatabaseException
  }

  predicate IsTransient(e: StoreError)
  {
    e.cls == InternalError || e.cls == OperationalError
  }

  /** Outcome of one `session.commit()` call. */
  datatype CommitOutcome = CommitOk | CommitFails(err: StoreError)

  /** Outcome of one connection attempt in the setup loop. */
  datatype SetupOutcome =
    | Connected(dialect: Option<Dialect>, initialized: bool)  // initialize_database's answer
    | Unsupported                                            // UnsupportedDialect
    | SetupFails                                             // any other exception

  datatype Dialect = SQLite | MySQL | PostgreSQL

  datatype ManagerName = StatesManager | StateAttributesManager | EventDataManager | EventTypeManager | StatesMetaManager

  /** A reference from a row to another row: a row added in the open session (by handle)
      or a durable row (by id). */
  datatype Ref = PendingRow(handle: nat) | StoredRow(id: Id)

  /** The objects added to the open session. */
  datatype Row =
    | EventTypeRow(handle: nat, eventType: string)
    | EventDataRow(handle: nat, sharedData: string, hash: nat)
    | EventRow(handle: nat, typeRef: Ref, dataRef: Option<Ref>)
    | StatesMetaRow(handle: nat, metaEntityId: string)
    | StateAttributesRow(handle: nat, sharedAttrs: string, hash: nat)
    | StateRow(handle: nat, stateEntityId: Option<string>, hasState: bool, oldState: Option<Ref>,
               meta: Option<Ref>, attributes: Option<Ref>)

  /** A table manager as the engine uses it: rows pending in the open session, by content
      key, and ids known to be durable. */
  datatype Cache<K> = Cache(pending: map<K, nat>, committed: map<K, Id>)

  /** The durable rows a lookup may find, by content key. */
  datatype StoreView = StoreView(eventTypes: map<string, Id>, eventData: map<string, Id>,
                                 statesMeta: map<string, Id>, stateAttributes: map<string, Id>)
}
