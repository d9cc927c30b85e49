/** How `_process_non_state_changed_event_into_session` and
    `_process_state_changed_event_into_session` turn one event into session rows: the lookup
    order pending -> cache -> store -> new row for every deduplicated table, and the
    old-state link kept by the states manager. */
module Dedup {
  import opened RecorderTypes

  /** The part of the engine's state these two operations read and change. */
  datatype Ingest = Ingest(rows: seq<Row>, nextHandle: nat,
                           eventTypes: Cache<string>, eventData: Cache<string>,
                           statesMeta: Cache<string>, stateAttributes: Cache<string>,
                           states: Cache<Option<string>>)

  datatype Resolution = FromPending(handle: nat) | FromStore(id: Id) | Create

  /** The first hit among the pending entry, the cache entry and the store's answer. */
  function Resolve(c: Cache<string>, key: string, found: Option<Id>): Resolution
  {
    if key in c.pending then FromPending(c.pending[key])
    else if key in c.committed then FromStore(c.committed[key])
    else if found.Some? then FromStore(found.value)
    else Create
  }

  /** The store lookup by hash runs only for a truthy (non-zero) hash. */
  function HashedLookup(store: map<string, Id>, key: string, hash: nat): Option<Id>
  {
    if hash != 0 && key in store then Some(store[key]) else None
  }

  function Lookup(store: map<string, Id>, key: string): Option<Id>
  {
    if key in store then Some(store[key]) else None
  }

  datatype Attached = Attached(ref: Ref, cache: Cache<string>, added: seq<Row>, nextHandle: nat)

  /** The row a miss creates, for each deduplicated table. */
  datatype NewRow =
    | NewEventType(eventType: string)
    | NewEventData(sharedData: string, hash: nat)
    | NewStatesMeta(entityId: string)
    | NewStateAttributes(sharedAttrs: string, hash: nat)

  function MakeRow(n: NewRow, h: nat): (r: Row)
    ensures r.handle == h
    ensures r.EventTypeRow? <==> n.NewEventType?
  {
    match n
    case NewEventType(t) => EventTypeRow(h, t)
    case NewEventData(d, x) => EventDataRow(h, d, x)
    case NewStatesMeta(id) => StatesMetaRow(h, id)
    case NewStateAttributes(a, x) => StateAttributesRow(h, a, x)
  }

  /** Resolve `key`; on a miss, a new row with the next handle is registered as pending and
      added to the session. */
  function Attach(c: Cache<string>, key: string, found: Option<Id>, next: nat, mk: NewRow): (a: Attached)
    ensures a.cache.committed == c.committed
    ensures a.ref == RefFor(Resolve(c, key, found), next)
    ensures Resolve(a.cache, key, found) == (if a.ref.PendingRow? then FromPending(a.ref.handle) else FromStore(a.ref.id))
    ensures a.added == [] ==> a.cache == c && a.nextHandle == next
  {
    match Resolve(c, key, found)
    case FromPending(h) => Attached(PendingRow(h), c, [], next)
    case FromStore(id) => Attached(StoredRow(id), c, [], next)
    case Create => Attached(PendingRow(next), c.(pending := c.pending[key := next]), [MakeRow(mk, next)], next + 1)
  }

  /** The reference a resolution gives, `next` being the handle a created row would get. */
  function RefFor(r: Resolution, next: nat): Ref
  {
    match r
    case FromPending(h) => PendingRow(h)
    case FromStore(id) => StoredRow(id)
    case Create => PendingRow(next)
  }

  /** Lookup precedence: a pending row wins, then the cache, then the store; only when all three
      miss is a new row created, registered as pending and added to the session. */
  lemma AttachPrecedence(c: Cache<string>, key: string, found: Option<Id>, next: nat, mk: NewRow)
    ensures var a := Attach(c, key, found, next, mk);
      && (key in c.pending ==> a == Attached(PendingRow(c.pending[key]), c, [], next))
      && (key !in c.pending && key in c.committed ==> a == Attached(StoredRow(c.committed[key]), c, [], next))
      && (key !in c.pending && key !in c.committed && found.Some? ==> a == Attached(StoredRow(found.value), c, [], next))
      && (key !in c.pending && key !in c.committed && found.None? ==>
            a.ref == PendingRow(next) && a.added == [MakeRow(mk, next)] && a.cache.pending == c.pending[key := next]
            && a.nextHandle == next + 1)
  {
  }

  /** A non-state event: the event row references its event type and, when the event has data,
      its event data. Events whose data serialises to nothing are not added. */
  function NonStateStep(s: Ingest, e: Event, shared: string, hash: nat, store: StoreView): Ingest
  {
    var h0 := s.nextHandle;
    var t := Attach(s.eventTypes, e.eventType, Lookup(store.eventTypes, e.eventType), h0 + 1,
                    NewEventType(e.eventType));
    var s1 := s.(rows := s.rows + t.added, nextHandle := t.nextHandle, eventTypes := t.cache);
    if e.dataEmpty then
      s1.(rows := s1.rows + [EventRow(h0, t.ref, None)])
    else if shared == "" then
      s1
    else
      var d := Attach(s1.eventData, shared, HashedLookup(store.eventData, shared, hash), s1.nextHandle,
                      NewEventData(shared, hash));
      s1.(rows := s1.rows + d.added + [EventRow(h0, t.ref, Some(d.ref))],
          nextHandle := d.nextHandle, eventData := d.cache)
  }

  /** The previous row of the entity: the pending one if any, else the last committed id. */
  function OldStateLink(st: Cache<Option<string>>, k: Option<string>): Option<Ref>
  {
    if k in st.pending then Some(PendingRow(st.pending[k]))
    else if k in st.committed then Some(StoredRow(st.committed[k]))
    else None
  }

  /** The states manager after recording row `h` for entity `k`: the pending previous row is popped,
      else the committed one; a removed entity is not registered, any other becomes the pending entry. */
  function TrackState(st: Cache<Option<string>>, k: Option<string>, h: nat, removed: bool): Cache<Option<string>>
  {
    var popped := if k in st.pending then st.(pending := st.pending - {k})
                  else st.(committed := st.committed - {k});
    if removed then popped else popped.(pending := popped.pending[k := h])
  }

  /** Whether a state_changed event gets its states-meta and attributes references and its row:
      it has an entity id and attributes, and is not a removed entity unknown to an active
      states-meta manager. */
  predicate StateRowAdded(s: Ingest, e: Event, sharedAttrs: string, store: StoreView, metaActive: bool)
  {
    && StateEntityKey(e).Some? && sharedAttrs != ""
    && var id := StateEntityKey(e).value;
       !(id !in s.statesMeta.pending && id !in s.statesMeta.committed && id !in store.statesMeta
         && metaActive && !e.hasNewState)
  }

  /** A state_changed event. One without an `entity_id` key raises before any bookkeeping. */
  function StateStep(s: Ingest, e: Event, sharedAttrs: string, hash: nat, store: StoreView, metaActive: bool): Ingest
  {
    if e.entityId.Absent? then s else
    var h := s.nextHandle;
    var k := StateEntityKey(e);
    var removed := !e.hasNewState;
    var oldLink := OldStateLink(s.states, k);
    var s0 := s.(nextHandle := h + 1, states := TrackState(s.states, k, h, removed));
    if k.None? || sharedAttrs == "" then s0
    else
      var id := k.value;
      if id !in s0.statesMeta.pending && id !in s0.statesMeta.committed && id !in store.statesMeta
         && metaActive && removed then s0
      else
        var m := Attach(s0.statesMeta, id, Lookup(store.statesMeta, id), s0.nextHandle, NewStatesMeta(id));
        var a := Attach(s0.stateAttributes, sharedAttrs, HashedLookup(store.stateAttributes, sharedAttrs, hash),
                        m.nextHandle, NewStateAttributes(sharedAttrs, hash));
        s0.(rows := s0.rows + m.added + a.added
                    + [StateRow(h, if metaActive then None else k, !removed, oldLink, Some(m.ref), Some(a.ref))],
            nextHandle := a.nextHandle, statesMeta := m.cache, stateAttributes := a.cache)
  }

  /** Old-state linking: the pending previous row takes precedence and is popped; the committed id
      is popped only when there is no pending row; a removed entity is not registered as pending,
      any other entity's new row becomes its pending entry. Other entities are untouched. */
  lemma OldStateTracking(s: Ingest, e: Event, sharedAttrs: string, hash: nat, store: StoreView, metaActive: bool)
    ensures !e.entityId.Absent? ==>
      var k := StateEntityKey(e);
      var t := StateStep(s, e, sharedAttrs, hash, store, metaActive).states;
      && (k in s.states.pending ==> t.committed == s.states.committed)
      && (k !in s.states.pending ==> t.committed == s.states.committed - {k})
      && (!e.hasNewState ==> k !in t.pending)
      && (e.hasNewState ==> k in t.pending && t.pending[k] == s.nextHandle)
      && (forall k' :: k' != k ==> (k' in t.pending <==> k' in s.states.pending))
      && (forall k' :: k' != k && k' in t.pending ==> t.pending[k'] == s.states.pending[k'])
  {
  }

  /** The state row added for a state event, when one is added, is the last row and links to the
      entity's previous row by `OldStateLink`. */
  lemma StateRowLink(s: Ingest, e: Event, sharedAttrs: string, hash: nat, store: StoreView, metaActive: bool)
    ensures var s' := StateStep(s, e, sharedAttrs, hash, store, metaActive);
      |s'.rows| > |s.rows| ==>
        s'.rows[|s'.rows| - 1].StateRow? &&
        s'.rows[|s'.rows| - 1].handle == s.nextHandle &&
        s'.rows[|s'.rows| - 1].oldState == OldStateLink(s.states, StateEntityKey(e)) &&
        s'.rows[|s'.rows| - 1].hasState == e.hasNewState
  {
  }

  /** Two consecutive state events of one entity: the second links to the first's row, which is
      still pending, whatever happened to the other tables in between. */
  lemma ConsecutiveStatesLinked(s: Ingest, e1: Event, e2: Event, a1: string, h1: nat,
                                                   store: StoreView, metaActive: bool)
    requires StateEntityKey(e1) == StateEntityKey(e2) && e1.hasNewState && !e1.entityId.Absent?
    ensures OldStateLink(StateStep(s, e1, a1, h1, store, metaActive).states, StateEntityKey(e2))
            == Some(PendingRow(s.nextHandle))
  {
  }

  /** A removed entity with an active states-meta manager and no metadata id anywhere adds no row. */
  lemma RemovedUnknownEntityAddsNothing(s: Ingest, e: Event, sharedAttrs: string, hash: nat, store: StoreView)
    requires StateEntityKey(e).Some? && !e.hasNewState
    requires var id := StateEntityKey(e).value;
      id !in s.statesMeta.pending && id !in s.statesMeta.committed && id !in store.statesMeta
    ensures StateStep(s, e, sharedAttrs, hash, store, true).rows == s.rows
  {
  }

  /** The event-type reference a non-state event gets. */
  function EventTypeRef(s: Ingest, e: Event, store: StoreView): Ref
  {
    Attach(s.eventTypes, e.eventType, Lookup(store.eventTypes, e.eventType), s.nextHandle + 1,
           NewEventType(e.eventType)).ref
  }

  /** The content a deduplicated row stores, by table. */
  datatype Content = TypeContent(t: string) | DataContent(d: string) | AttrsContent(a: string)

  predicate Holds(r: Row, c: Content)
  {
    match c
    case TypeContent(t) => r.EventTypeRow? && r.eventType == t
    case DataContent(d) => r.EventDataRow? && r.sharedData == d
    case AttrsContent(a) => r.StateAttributesRow? && r.sharedAttrs == a
  }

  /** The number of rows in `rows` storing content `c`. */
  function CountRows(rows: seq<Row>, c: Content): nat
  {
    if rows == [] then 0
    else CountRows(rows[..|rows| - 1], c) + (if Holds(rows[|rows| - 1], c) then 1 else 0)
  }

  lemma {:induction false} CountAppend(a: seq<Row>, b: seq<Row>, c: Content)
    ensures CountRows(a + b, c) == CountRows(a, c) + CountRows(b, c)
    decreases |b|
  {
    if b == [] {
      assert a + b == a;
    } else {
      var b' := b[..|b| - 1];
      assert (a + b)[..|a + b| - 1] == a + b';
      CountAppend(a, b', c);
    }
  }

  lemma CountSingleton(r: Row, c: Content)
    ensures CountRows([r], c) == if Holds(r, c) then 1 else 0
  {
  }

  /** Attaching adds a row storing `c` exactly when the key missed everywhere and the new row stores `c`. */
  lemma AttachRows(cache: Cache<string>, key: string, found: Option<Id>, next: nat, n: NewRow, c: Content)
    ensures CountRows(Attach(cache, key, found, next, n).added, c)
            == if Resolve(cache, key, found).Create? && Holds(MakeRow(n, next), c) then 1 else 0
  {
  }

  /** The event-data reference a non-state event with data gets. */
  function EventDataRef(s: Ingest, e: Event, shared: string, hash: nat, store: StoreView): Ref
  {
    var t := Attach(s.eventTypes, e.eventType, Lookup(store.eventTypes, e.eventType), s.nextHandle + 1,
                    NewEventType(e.eventType));
    Attach(s.eventData, shared, HashedLookup(store.eventData, shared, hash), t.nextHandle,
           NewEventData(shared, hash)).ref
  }

  /** The event row a non-state event adds is the last row and references its event type and,
      when the event has data, its event data; data that serialises to nothing adds no event row. */
  lemma NonStateEventRow(s: Ingest, e: Event, shared: string, hash: nat, store: StoreView)
    ensures var s' := NonStateStep(s, e, shared, hash, store);
      && (e.dataEmpty ==> s'.rows[|s'.rows| - 1] == EventRow(s.nextHandle, EventTypeRef(s, e, store), None))
      && (!e.dataEmpty && shared != "" ==>
            s'.rows[|s'.rows| - 1] == EventRow(s.nextHandle, EventTypeRef(s, e, store),
                                                Some(EventDataRef(s, e, shared, hash, store))))
      && (!e.dataEmpty && shared == "" ==> forall i :: |s.rows| <= i < |s'.rows| ==> s'.rows[i].EventTypeRow?)
  {
  }

  /** A non-state event adds an event-type row exactly when its type missed pending, cache and
      store, an event-data row exactly when its non-empty data missed them, and no other
      deduplicated row. */
  lemma {:induction false} NonStateRows(s: Ingest, e: Event, shared: string, hash: nat, store: StoreView, c: Content)
    ensures CountRows(NonStateStep(s, e, shared, hash, store).rows, c)
            == CountRows(s.rows, c)
               + (if c == TypeContent(e.eventType) && Resolve(s.eventTypes, e.eventType, Lookup(store.eventTypes, e.eventType)).Create?
                  then 1 else 0)
               + (if !e.dataEmpty && shared != "" && c == DataContent(shared)
                     && Resolve(s.eventData, shared, HashedLookup(store.eventData, shared, hash)).Create?
                  then 1 else 0)
  {
    var h0 := s.nextHandle;
    var ta := Attach(s.eventTypes, e.eventType, Lookup(store.eventTypes, e.eventType), h0 + 1, NewEventType(e.eventType));
    var s1 := s.(rows := s.rows + ta.added, nextHandle := ta.nextHandle, eventTypes := ta.cache);
    var s' := NonStateStep(s, e, shared, hash, store);
    AttachRows(s.eventTypes, e.eventType, Lookup(store.eventTypes, e.eventType), h0 + 1, NewEventType(e.eventType), c);
    CountAppend(s.rows, ta.added, c);
    if e.dataEmpty {
      var r := EventRow(h0, ta.ref, None);
      assert s'.rows == s1.rows + [r];
      CountSingleton(r, c);
      CountAppend(s1.rows, [r], c);
    } else if shared != "" {
      var d := Attach(s1.eventData, shared, HashedLookup(store.eventData, shared, hash), s1.nextHandle,
                      NewEventData(shared, hash));
      var r := EventRow(h0, ta.ref, Some(d.ref));
      assert s'.rows == s1.rows + d.added + [r];
      AttachRows(s1.eventData, shared, HashedLookup(store.eventData, shared, hash), s1.nextHandle,
                 NewEventData(shared, hash), c);
      CountSingleton(r, c);
      CountAppend(s1.rows, d.added, c);
      CountAppend(s1.rows + d.added, [r], c);
    } else {
      assert s'.rows == s1.rows;
    }
  }

  /** Deduplication of event data within one session: two events with the same data reference
      the same event-data row, and together they add exactly the one row the first may create. */
  lemma {:induction false} SameEventDataDeduplicated(s: Ingest, e1: Event, e2: Event, shared: string, hash: nat,
                                                     store: StoreView)
    requires !e1.dataEmpty && !e2.dataEmpty && shared != ""
    ensures var s1 := NonStateStep(s, e1, shared, hash, store);
      EventDataRef(s1, e2, shared, hash, store) == EventDataRef(s, e1, shared, hash, store)
    ensures var s2 := NonStateStep(NonStateStep(s, e1, shared, hash, store), e2, shared, hash, store);
      CountRows(s2.rows, DataContent(shared))
      == CountRows(s.rows, DataContent(shared))
         + (if Resolve(s.eventData, shared, HashedLookup(store.eventData, shared, hash)).Create? then 1 else 0)
  {
    var s1 := NonStateStep(s, e1, shared, hash, store);
    var found := HashedLookup(store.eventData, shared, hash);
    var t := Attach(s.eventTypes, e1.eventType, Lookup(store.eventTypes, e1.eventType), s.nextHandle + 1,
                    NewEventType(e1.eventType));
    var d := Attach(s.eventData, shared, found, t.nextHandle, NewEventData(shared, hash));
    assert s1.eventData == d.cache;
    NonStateRows(s, e1, shared, hash, store, DataContent(shared));
    NonStateRows(s1, e2, shared, hash, store, DataContent(shared));
  }

  /** Deduplication of event types within one session: two events of the same type reference the
      same event-type row, and together they add exactly the one event-type row the first may create. */
  lemma {:induction false} SameEventTypeDeduplicated(s: Ingest, e1: Event, e2: Event, d1: string, x1: nat,
                                                     d2: string, x2: nat, store: StoreView)
    requires e1.eventType == e2.eventType
    ensures var s1 := NonStateStep(s, e1, d1, x1, store);
      EventTypeRef(s1, e2, store) == EventTypeRef(s, e1, store)
    ensures var s2 := NonStateStep(NonStateStep(s, e1, d1, x1, store), e2, d2, x2, store);
      var t := e1.eventType;
      CountRows(s2.rows, TypeContent(t))
      == CountRows(s.rows, TypeContent(t)) + (if Resolve(s.eventTypes, t, Lookup(store.eventTypes, t)).Create? then 1 else 0)
  {
    var t := e1.eventType;
    var s1 := NonStateStep(s, e1, d1, x1, store);
    var ta := Attach(s.eventTypes, t, Lookup(store.eventTypes, t), s.nextHandle + 1, NewEventType(t));
    assert s1.eventTypes == ta.cache;
    NonStateRows(s, e1, d1, x1, store, TypeContent(t));
    NonStateRows(s1, e2, d2, x2, store, TypeContent(t));
  }

  /** A state_changed event without an `entity_id` key changes nothing. */
  lemma AbsentEntityIdChangesNothing(s: Ingest, e: Event, sharedAttrs: string, hash: nat, store: StoreView, metaActive: bool)
    requires e.entityId.Absent?
    ensures StateStep(s, e, sharedAttrs, hash, store, metaActive) == s
  {
  }

  /** A state_changed event adds rows exactly when `StateRowAdded` holds, and its state row then
      references the states-meta row its entity id resolves to. */
  lemma StateMetaResolved(s: Ingest, e: Event, sharedAttrs: string, hash: nat, store: StoreView, metaActive: bool)
    ensures var s' := StateStep(s, e, sharedAttrs, hash, store, metaActive);
      |s'.rows| > |s.rows| <==> !e.entityId.Absent? && StateRowAdded(s, e, sharedAttrs, store, metaActive)
    ensures var s' := StateStep(s, e, sharedAttrs, hash, store, metaActive);
      |s'.rows| > |s.rows| ==>
        && StateEntityKey(e).Some?
        && var id := StateEntityKey(e).value;
           s'.rows[|s'.rows| - 1].meta == Some(RefFor(Resolve(s.statesMeta, id, Lookup(store.statesMeta, id)), s.nextHandle + 1))
  {
  }

  /** A state_changed event adds an attributes row exactly when it adds its state row and its
      attributes missed pending, cache and store, and no other event-type, event-data or
      attributes row. */
  lemma {:induction false} StateRows(s: Ingest, e: Event, attrs: string, hash: nat, store: StoreView, metaActive: bool,
                                     c: Content)
    ensures CountRows(StateStep(s, e, attrs, hash, store, metaActive).rows, c)
            == CountRows(s.rows, c)
               + (if !e.entityId.Absent? && StateRowAdded(s, e, attrs, store, metaActive) && c == AttrsContent(attrs)
                     && Resolve(s.stateAttributes, attrs, HashedLookup(store.stateAttributes, attrs, hash)).Create?
                  then 1 else 0)
  {
    var s' := StateStep(s, e, attrs, hash, store, metaActive);
    if !e.entityId.Absent? && StateRowAdded(s, e, attrs, store, metaActive) {
      var h := s.nextHandle;
      var id := StateEntityKey(e).value;
      var m := Attach(s.statesMeta, id, Lookup(store.statesMeta, id), h + 1, NewStatesMeta(id));
      var a := Attach(s.stateAttributes, attrs, HashedLookup(store.stateAttributes, attrs, hash), m.nextHandle,
                      NewStateAttributes(attrs, hash));
      var r := s'.rows[|s'.rows| - 1];
      assert s'.rows == s.rows + m.added + a.added + [r];
      AttachRows(s.statesMeta, id, Lookup(store.statesMeta, id), h + 1, NewStatesMeta(id), c);
      AttachRows(s.stateAttributes, attrs, HashedLookup(store.stateAttributes, attrs, hash), m.nextHandle,
                 NewStateAttributes(attrs, hash), c);
      CountSingleton(r, c);
      CountAppend(s.rows, m.added, c);
      CountAppend(s.rows + m.added, a.added, c);
      CountAppend(s.rows + m.added + a.added, [r], c);
    } else {
      assert s'.rows == s.rows;
    }
  }

  /** The attributes reference a state event resolves to, before any early return. */
  function AttributesRef(s: Ingest, e: Event, attrs: string, hash: nat, store: StoreView, metaActive: bool): Ref
  {
    var s0 := s.(nextHandle := s.nextHandle + 1);
    var id := if StateEntityKey(e).Some? then StateEntityKey(e).value else "";
    var m := Attach(s.statesMeta, id, Lookup(store.statesMeta, id), s0.nextHandle, NewStatesMeta(id));
    Attach(s.stateAttributes, attrs, HashedLookup(store.stateAttributes, attrs, hash), m.nextHandle,
           NewStateAttributes(attrs, hash)).ref
  }

  /** A state event that adds its row references `AttributesRef`, and leaves the attributes manager
      so that the same attributes resolve to that reference again. */
  lemma StateAttributesAttached(s: Ingest, e: Event, attrs: string, hash: nat, store: StoreView, metaActive: bool)
    ensures var s' := StateStep(s, e, attrs, hash, store, metaActive);
      var r := AttributesRef(s, e, attrs, hash, store, metaActive);
      && (|s'.rows| > |s.rows| ==> s'.rows[|s'.rows| - 1].StateRow? && s'.rows[|s'.rows| - 1].attributes == Some(r))
      && (|s'.rows| > |s.rows| ==> Resolve(s'.stateAttributes, attrs, HashedLookup(store.stateAttributes, attrs, hash))
                                   == (if r.PendingRow? then FromPending(r.handle) else FromStore(r.id)))
      && (|s'.rows| == |s.rows| ==> s'.stateAttributes == s.stateAttributes)
  {
  }

  /** Deduplication of attributes across consecutive state events: two events with the same
      attributes that both add a state row reference the same attributes row. */
  lemma SameAttributesShared(s: Ingest, e1: Event, e2: Event, attrs: string, hash: nat,
                                                store: StoreView, metaActive: bool)
    ensures var s1 := StateStep(s, e1, attrs, hash, store, metaActive);
      var s2 := StateStep(s1, e2, attrs, hash, store, metaActive);
      |s1.rows| > |s.rows| && |s2.rows| > |s1.rows| ==>
        s1.rows[|s1.rows| - 1].attributes == s2.rows[|s2.rows| - 1].attributes
  {
  }

  /** Deduplication of attributes within one session: two state events with the same attributes
      add at most one attributes row for them. */
  lemma {:induction false} SameAttributesDeduplicated(s: Ingest, e1: Event, e2: Event, attrs: string, hash: nat,
                                                      store: StoreView, metaActive: bool)
    ensures var s2 := StateStep(StateStep(s, e1, attrs, hash, store, metaActive), e2, attrs, hash, store, metaActive);
      CountRows(s2.rows, AttrsContent(attrs)) <= CountRows(s.rows, AttrsContent(attrs)) + 1
  {
    var s1 := StateStep(s, e1, attrs, hash, store, metaActive);
    StateRows(s, e1, attrs, hash, store, metaActive, AttrsContent(attrs));
    StateRows(s1, e2, attrs, hash, store, metaActive, AttrsContent(attrs));
    StateAttributesAttached(s, e1, attrs, hash, store, metaActive);
    StateMetaResolved(s, e1, attrs, hash, store, metaActive);
  }
}
