// The in-process channel on which the entity services announce every create,
// update and delete, and from which the audit listener consumes them in order.

module Lifecycle {
  import opened Wrappers
  import opened Values
  import opened Store

  /** An announcement; `user` is the acting principal's record, or none. */
  datatype Event =
    | Created(entityType: string, entity: Doc, user: Option<Doc>)
    | Updated(entityType: string, entityId: Id, before: Option<Doc>, after: Doc, user: Option<Doc>)
    | Deleted(entityType: string, entity: Doc, user: Option<Doc>)

  class Emitter {
    var events: seq<Event>

    constructor ()
      ensures events == []
    {
      events := [];
    }

    method Emit(e: Event)
      modifies this
      ensures events == old(events) + [e]
    {
      events := events + [e];
    }
  }
}
