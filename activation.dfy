/** The threshold decisions of `_activate_and_set_db_ready`: which data-migration tasks are
    queued, in which order, and which table managers become active. */
module Activation {
  import opened RecorderTypes

  /** The schema versions (from the recorder's constants module) the decisions compare against. */
  datatype Thresholds = Thresholds(statisticsRows: int, contextIdAsBinary: int, eventTypeIds: int,
                                   statesMeta: int, legacyStatesEventIdIndex: int)

  /** The answer to the index lookup, which runs with SQLAlchemy errors suppressed. */
  datatype IndexAnswer = IndexPresent | IndexAbsent | IndexQueryFailed

  /** The store's answers to the existence queries; an answer is consulted only at or above
      the version its query is guarded by. */
  datatype Answers = Answers(statesContextIdsToMigrate: bool, eventsContextIdsToMigrate: bool,
                             eventTypesToMigrate: bool, entityIdsToMigrate: bool, legacyIndex: IndexAnswer)

  datatype Plan = Plan(loadStatisticsMeta: bool, tasks: seq<MigrationTask>,
                       activateEventTypes: bool, activateStatesMeta: bool, useLegacyEventsIndex: bool)

  predicate NeedsStatesContextIds(v: int, th: Thresholds, a: Answers)
  {
    v < th.contextIdAsBinary || a.statesContextIdsToMigrate
  }

  predicate NeedsEventsContextIds(v: int, th: Thresholds, a: Answers)
  {
    v < th.contextIdAsBinary || a.eventsContextIdsToMigrate
  }

  predicate NeedsEventTypeIds(v: int, th: Thresholds, a: Answers)
  {
    v < th.eventTypeIds || a.eventTypesToMigrate
  }

  predicate NeedsEntityIds(v: int, th: Thresholds, a: Answers)
  {
    v < th.statesMeta || a.entityIdsToMigrate
  }

  predicate NeedsLegacyIndexCleanup(v: int, th: Thresholds, a: Answers)
  {
    v > th.legacyStatesEventIdIndex && a.legacyIndex == IndexPresent
  }

  function When(c: bool, t: MigrationTask): seq<MigrationTask>
  {
    if c then [t] else []
  }

  /** The decisions for a database at schema version `v`. */
  function PlanFor(v: int, th: Thresholds, a: Answers): (p: Plan)
    ensures p.loadStatisticsMeta <==> v >= th.statisticsRows
    ensures p.activateEventTypes <==> EventTypeIdMigration !in p.tasks
    ensures p.activateStatesMeta <==> EntityIdMigration !in p.tasks
    ensures p.useLegacyEventsIndex <==> EventIdMigration in p.tasks
    ensures |p.tasks| <= 5
  {
    Plan(v >= th.statisticsRows,
         When(NeedsStatesContextIds(v, th, a), StatesContextIdMigration)
         + When(NeedsEventsContextIds(v, th, a), EventsContextIdMigration)
         + When(NeedsEventTypeIds(v, th, a), EventTypeIdMigration)
         + When(NeedsEntityIds(v, th, a), EntityIdMigration)
         + When(NeedsLegacyIndexCleanup(v, th, a), EventIdMigration),
         !NeedsEventTypeIds(v, th, a),
         !NeedsEntityIds(v, th, a),
         NeedsLegacyIndexCleanup(v, th, a))
  }

  /** The rank of a task in the fixed order the checks run in. */
  function Rank(t: MigrationTask): nat
  {
    match t
    case StatesContextIdMigration => 0
    case EventsContextIdMigration => 1
    case EventTypeIdMigration => 2
    case EntityIdMigration => 3
    case EventIdMigration => 4
  }

  /** The queued tasks follow the order of the checks, with no task twice. */
  lemma {:induction false} PlanInOrder(v: int, th: Thresholds, a: Answers)
    ensures var ts := PlanFor(v, th, a).tasks;
      forall i, j :: 0 <= i < j < |ts| ==> Rank(ts[i]) < Rank(ts[j])
  {
    var c0 := When(NeedsStatesContextIds(v, th, a), StatesContextIdMigration);
    var c1 := When(NeedsEventsContextIds(v, th, a), EventsContextIdMigration);
    var c2 := When(NeedsEventTypeIds(v, th, a), EventTypeIdMigration);
    var c3 := When(NeedsEntityIds(v, th, a), EntityIdMigration);
    var c4 := When(NeedsLegacyIndexCleanup(v, th, a), EventIdMigration);
    var ts := c0 + c1 + c2 + c3 + c4;
    assert PlanFor(v, th, a).tasks == ts;
    forall i, j | 0 <= i < j < |ts| ensures Rank(ts[i]) < Rank(ts[j]) {
      RankBelow(c0, c1, c2, c3, c4, i);
      RankBelow(c0, c1, c2, c3, c4, j);
    }
  }

  /** Each element of the concatenation carries the rank of the block it came from, and blocks
      hold at most one task. */
  lemma RankBelow(c0: seq<MigrationTask>, c1: seq<MigrationTask>, c2: seq<MigrationTask>,
                  c3: seq<MigrationTask>, c4: seq<MigrationTask>, i: nat)
    requires c0 == [] || c0 == [StatesContextIdMigration]
    requires c1 == [] || c1 == [EventsContextIdMigration]
    requires c2 == [] || c2 == [EventTypeIdMigration]
    requires c3 == [] || c3 == [EntityIdMigration]
    requires c4 == [] || c4 == [EventIdMigration]
    requires i < |c0 + c1 + c2 + c3 + c4|
    ensures var ts := c0 + c1 + c2 + c3 + c4;
      Rank(ts[i]) == (if i < |c0| then 0
                      else if i < |c0| + |c1| then 1
                      else if i < |c0| + |c1| + |c2| then 2
                      else if i < |c0| + |c1| + |c2| + |c3| then 3 else 4)
  {
  }

  /** Below a threshold the migration is queued whatever the store answers, so the answer of a
      guarded query does not matter there. */
  lemma BelowThresholdIgnoresAnswers(v: int, th: Thresholds, a: Answers, b: Answers)
    requires v < th.contextIdAsBinary && v < th.eventTypeIds && v < th.statesMeta
    requires v <= th.legacyStatesEventIdIndex
    ensures PlanFor(v, th, a) == PlanFor(v, th, b)
    ensures PlanFor(v, th, a).tasks == [StatesContextIdMigration, EventsContextIdMigration,
                                        EventTypeIdMigration, EntityIdMigration]
    ensures !PlanFor(v, th, a).activateEventTypes && !PlanFor(v, th, a).activateStatesMeta
  {
  }

  /** A fully migrated database at or above every threshold queues nothing and activates both managers. */
  lemma FullyMigratedActivatesManagers(v: int, th: Thresholds, a: Answers)
    requires v >= th.contextIdAsBinary && v >= th.eventTypeIds && v >= th.statesMeta
    requires !a.statesContextIdsToMigrate && !a.eventsContextIdsToMigrate
    requires !a.eventTypesToMigrate && !a.entityIdsToMigrate && a.legacyIndex != IndexPresent
    ensures PlanFor(v, th, a).tasks == []
    ensures PlanFor(v, th, a).activateEventTypes && PlanFor(v, th, a).activateStatesMeta
    ensures !PlanFor(v, th, a).useLegacyEventsIndex
  {
  }

  /** A failed index lookup is suppressed: no cleanup task, legacy index flag untouched. */
  lemma IndexQueryFailureSuppressed(v: int, th: Thresholds, a: Answers)
    requires a.legacyIndex == IndexQueryFailed
    ensures EventIdMigration !in PlanFor(v, th, a).tasks
    ensures !PlanFor(v, th, a).useLegacyEventsIndex
  {
  }
}
