/**
 * The simulator's structured event record and its append-only event list.
 * The simulator's `log_event` appends to this list and the lock manager
 * receives the same method as its logger, so both write to one EventLog.
 */
module Events {
  import opened Wrappers

  datatype EventKind = Start | Acquire | BlockedOn | Release | Complete | Deadlock | Finish | Info

  /** A value inside an event payload (a JSON-like dictionary). */
  datatype Value =
    | VStr(s: string)
    | VInt(i: int)
    | VBool(b: bool)
    | VNull
    | VStrSet(items: set<string>)
    | VList(elems: seq<Value>)

  type Payload = map<string, Value>

  datatype Event = Event(t: int, kind: EventKind, message: string, data: Option<Payload>)

  class EventLog {
    var events: seq<Event>

    constructor ()
      ensures events == []
    {
      events := [];
    }

    /**
     * Appends exactly one event; its payload is kept only when one was
     * given and it is a non-empty dictionary (an empty one is falsy).
     */
    method LogEvent(message: string, t: int, kind: EventKind, data: Option<Payload>)
      modifies this`events
      ensures events == old(events) + [Event(t, kind, message, if data.Some? && data.value != map[] then data else None)]
    {
      var entry := Event(t, kind, message, None);
      if data.Some? && data.value != map[] {
        entry := entry.(data := data);
      }
      events := events + [entry];
    }
  }
}
