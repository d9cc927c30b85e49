/** Which bus events the recorder queues (`_async_event_filter`). */
module EventFilter {
  import opened RecorderTypes

  /** True when some entity id of the list passes the entity filter. */
  predicate AnyAccepted(accept: string -> bool, ids: seq<string>)
  {
    exists i :: 0 <= i < |ids| && accept(ids[i])
  }

  /** The filter decision: excluded event types are dropped; otherwise the `entity_id`
      value decides, and a value of unknown shape is let through. */
  predicate Filter(excluded: set<string>, accept: string -> bool, e: Event)
  {
    if e.eventType in excluded then false
    else match e.entityId
      case Absent => true
      case NoneValue => true
      case Str(s) => accept(s)
      case StrList(ids) => AnyAccepted(accept, ids)
      case OtherValue => true
  }

  lemma ExcludedTypeDropped(excluded: set<string>, accept: string -> bool, e: Event)
    requires e.eventType in excluded
    ensures !Filter(excluded, accept, e)
  {
  }

  /** For an event type that is not excluded, the decision per shape of `entity_id`. */
  lemma DecisionByEntityId(excluded: set<string>, accept: string -> bool, e: Event)
    requires e.eventType !in excluded
    ensures e.entityId.Absent? || e.entityId.NoneValue? ==> Filter(excluded, accept, e)
    ensures e.entityId.OtherValue? ==> Filter(excluded, accept, e)
    ensures e.entityId.Str? ==> (Filter(excluded, accept, e) <==> accept(e.entityId.s))
    ensures e.entityId.StrList? ==>
      (Filter(excluded, accept, e) <==> exists i :: 0 <= i < |e.entityId.items| && accept(e.entityId.items[i]))
    ensures e.entityId == StrList([]) ==> !Filter(excluded, accept, e)
  {
  }

  /** Any list containing an accepted id is accepted, wherever in the list it sits. */
  lemma {:induction false} AcceptedAnywhere(accept: string -> bool, pre: seq<string>, id: string, post: seq<string>)
    requires accept(id)
    ensures AnyAccepted(accept, pre + [id] + post)
  {
    var ids := pre + [id] + post;
    assert ids[|pre|] == id;
  }
}
