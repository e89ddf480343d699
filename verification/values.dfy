/** Untyped payloads, generated identifiers and memory records. */

module Data {
  import opened Wrappers

  /** The Python values a record may hold. `Items` is any iterable that is not a
      string, bytes or mapping; a mapping keeps its entries in iteration order; `IsoText` is
      the ISO 8601 text of an instant. */
  datatype Value =
    | Null
    | Bool(b: bool)
    | Int(n: int)
    | Text(s: string)
    | Bytes(data: seq<int>)
    | Real(r: real)
    | Time(at: int)
    | IsoText(instant: int)
    | Items(elements: seq<Value>)
    | Mapping(entries: seq<(Value, Value)>)

  datatype Attributes = Attributes(entries: map<string, Value>)

  /** An identifier: the n-th uuid4 drawn from the supply, or one a caller wrote down. */
  datatype Id = Drawn(n: nat) | Named(name: string)

  datatype MemoryRecord = MemoryRecord(
    key: string,
    value: Value,
    id: string,
    createdAt: int,
    updatedAt: int,
    expiresAt: Option<int>,
    version: int)
  {
    predicate IsExpired(now: int) {
      expiresAt.Some? && expiresAt.value <= now
    }
  }

  function RecordKey(): MemoryRecord -> string {
    (r: MemoryRecord) => r.key
  }
}

/** What the services publish; a bus whose handlers neither raise nor call back. */
module Trace {
  import opened Data

  datatype Event =
    | EntityAdded(entity: string)
    | EntityRemoved(entity: string)
    | RelationshipAdded(relationship: Id)
    | RelationshipRemoved(relationship: Id)
    | MemorySynchronized(key: string, entity: string)
    | MemoryDesynchronized(key: string, entity: string)
    | MemoryMappingFailed(key: string)
    | ReferenceFailed(key: string, relationship: Id, target: string)

  class EventLog {
    var events: seq<Event>

    constructor ()
      ensures events == []
    {
      events := [];
    }

    method Publish(e: Event)
      modifies this
      ensures events == old(events) + [e]
    {
      events := events + [e];
    }
  }
}
