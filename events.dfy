/** The records the background script buffers per tab (extension/background.js). */
module Events {
  import opened Wrappers

  /** One buffered event. The fields a payload may carry, the `timestamp` the
      store stamps on insertion, and the `statusCode`/`statusLine` the
      correlator attaches; `httpMethod` is the payload's `method`,
      `resourceType` its `type`. */
  datatype TrafficEvent = TrafficEvent(
    kind: string,
    url: Option<string>,
    httpMethod: Option<string>,
    resourceType: Option<string>,
    time: Option<int>,
    timestamp: Option<int>,
    statusCode: Option<nat>,
    statusLine: Option<string>,
    action: Option<string>,
    fields: Option<map<string, string>>)

  /** The `{url, events, startTime}` record kept for one tab. */
  datatype TabSession = TabSession(url: Option<string>, events: seq<TrafficEvent>, startTime: int)

  /** JavaScript truthiness of an optional string: present and not empty. */
  predicate Truthy(s: Option<string>) {
    s.Some? && s.value != ""
  }

  /** An event with no optional field set. */
  function BareEvent(kind: string): TrafficEvent {
    TrafficEvent(kind, None, None, None, None, None, None, None, None, None)
  }
}
