/**
 * STEventSourceEvent: the immutable record an event stream's blank line produces.
 * `data` is never nil; `type` (here `eventType`, `type` being a Dafny keyword) and `id`
 * may be. Both `+eventWithType:data:id:` and `-initWithType:data:id:` build the value
 * `Event(type, data, id)` with exactly the given fields, and a datatype value never changes.
 */
module Events {
  import opened Wrappers

  datatype Event = Event(eventType: Option<string>, data: string, id: Option<string>)
}
