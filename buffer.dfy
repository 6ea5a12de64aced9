/** The per-tab event buffer and the response correlator
    (extension/background.js, `addTrafficEvent` and the `onCompleted` listener). */
module Buffer {
  import opened Wrappers
  import opened Seqs
  import opened Events

  /** Capacity of one tab's event list. */
  const MaxEvents: nat := 200

  /** How many of the newest events the correlator inspects. */
  const CorrelationWindow: nat := 10

  /** The session created for a tab seen for the first time. */
  function FreshSession(now: int): TabSession {
    TabSession(None, [], now)
  }

  /** The session after `addTrafficEvent`: the event, stamped with the
      insertion time, is pushed and the list is cut back to its last 200. */
  function WithEvent(s: TabSession, e: TrafficEvent, now: int): TabSession {
    s.(events := TakeLast(s.events + [e.(timestamp := Some(now))], MaxEvents))
  }

  /** Adding an event keeps the tab's URL and start time, puts the stamped event
      last, keeps a suffix of the old events in order, and grows the list by one
      up to the capacity. */
  lemma WithEventProperties(s: TabSession, e: TrafficEvent, now: int)
    requires |s.events| <= MaxEvents
    ensures
      var r := WithEvent(s, e, now);
      && r.url == s.url && r.startTime == s.startTime
      && |r.events| == (if |s.events| < MaxEvents then |s.events| + 1 else MaxEvents)
      && r.events[|r.events| - 1] == e.(timestamp := Some(now))
      && r.events[|r.events| - 1].timestamp == Some(now)
      && r.events[..|r.events| - 1] == s.events[|s.events| + 1 - |r.events|..]
  {
  }

  /** The session after recording each `(event, time)` of `evs` in turn. */
  function WithEvents(s: TabSession, evs: seq<(TrafficEvent, int)>): TabSession
    decreases |evs|
  {
    if evs == [] then s
    else WithEvents(WithEvent(s, evs[0].0, evs[0].1), evs[1..])
  }

  /** The events of `evs`, each stamped with its insertion time. */
  function StampAll(evs: seq<(TrafficEvent, int)>): (r: seq<TrafficEvent>)
    ensures |r| == |evs|
    ensures forall i :: 0 <= i < |evs| ==> r[i] == evs[i].0.(timestamp := Some(evs[i].1))
  {
    if evs == [] then [] else [evs[0].0.(timestamp := Some(evs[0].1))] + StampAll(evs[1..])
  }

  /** However many events are recorded, the tab keeps exactly the most recent
      200 of all it has seen, in arrival order. */
  lemma {:induction false} RecordingKeepsMostRecent(s: TabSession, evs: seq<(TrafficEvent, int)>)
    requires |s.events| <= MaxEvents
    ensures WithEvents(s, evs).events == TakeLast(s.events + StampAll(evs), MaxEvents)
    ensures WithEvents(s, evs).url == s.url && WithEvents(s, evs).startTime == s.startTime
    decreases |evs|
  {
    if evs == [] {
      assert s.events + StampAll(evs) == s.events;
    } else {
      var e := evs[0].0.(timestamp := Some(evs[0].1));
      var rest := StampAll(evs[1..]);
      var s1 := WithEvent(s, evs[0].0, evs[0].1);
      RecordingKeepsMostRecent(s1, evs[1..]);
      PushThenCut(s.events, e, rest, MaxEvents);
      assert StampAll(evs) == [e] + rest;
    }
  }

  lemma PushThenCut<T>(a: seq<T>, e: T, rest: seq<T>, cap: nat)
    ensures TakeLast(TakeLast(a + [e], cap) + rest, cap) == TakeLast(a + ([e] + rest), cap)
  {
    TakeLastTail(a + [e], rest, cap);
    assert a + ([e] + rest) == (a + [e]) + rest;
  }

  /** Cutting back before appending `rest` does not change the final cut. */
  lemma TakeLastTail<T>(a: seq<T>, rest: seq<T>, cap: nat)
    ensures TakeLast(TakeLast(a, cap) + rest, cap) == TakeLast(a + rest, cap)
  {
    var t := TakeLast(a, cap);
    var l, r := TakeLast(t + rest, cap), TakeLast(a + rest, cap);
    assert |l| == |r|;
    forall i | 0 <= i < |l| ensures l[i] == r[i] {
      if |a + rest| - |r| + i >= |a| {
        assert r[i] == rest[|a + rest| - |r| + i - |a|];
        assert l[i] == (t + rest)[|t + rest| - |l| + i];
      }
    }
  }

  /** Where the correlator's backward scan stops: `Math.max(0, length - 10)`. */
  function WindowStart(n: nat): nat {
    if n <= CorrelationWindow then 0 else n - CorrelationWindow
  }

  /** The newest index below `hi`, not before the window, whose event has URL `url`. */
  function NewestMatch(events: seq<TrafficEvent>, url: string, hi: nat): (r: Option<nat>)
    requires hi <= |events|
    ensures r.Some? ==>
      && WindowStart(|events|) <= r.value < hi
      && events[r.value].url == Some(url)
      && forall j :: r.value < j < hi ==> events[j].url != Some(url)
    ensures r.None? ==> forall j :: WindowStart(|events|) <= j < hi ==> events[j].url != Some(url)
    decreases hi
  {
    if hi <= WindowStart(|events|) then None
    else if events[hi - 1].url == Some(url) then Some(hi - 1)
    else NewestMatch(events, url, hi - 1)
  }

  function WithStatus(e: TrafficEvent, code: nat, line: string): TrafficEvent {
    e.(statusCode := Some(code), statusLine := Some(line))
  }

  /** The events after a response for `url` completes: the newest event of the
      window with that URL gets the status; nothing else changes. */
  function Correlated(events: seq<TrafficEvent>, url: string, code: nat, line: string): seq<TrafficEvent> {
    match NewestMatch(events, url, |events|)
    case None => events
    case Some(i) => events[i := WithStatus(events[i], code, line)]
  }

  /** The `onCompleted` scan: from the newest event back to the start of the
      window, stamp the first exact URL match and stop. `stamped` is the index
      it stamped. */
  method StampResponse(events: seq<TrafficEvent>, url: string, code: nat, line: string)
    returns (r: seq<TrafficEvent>, stamped: Option<nat>)
    ensures r == Correlated(events, url, code, line)
    ensures stamped == NewestMatch(events, url, |events|)
  {
    var n := |events|;
    var lo := if n >= CorrelationWindow then n - CorrelationWindow else 0;
    var i := n - 1;
    while i >= lo
      invariant lo - 1 <= i <= n - 1
      invariant forall j :: i < j < n ==> events[j].url != Some(url)
      decreases i
    {
      if events[i].url == Some(url) {
        r := events[i := WithStatus(events[i], code, line)];
        stamped := Some(i);
        return;
      }
      i := i - 1;
    }
    r, stamped := events, None;
  }

  /** At most one event changes, it is the newest URL match among the last ten,
      only its status fields change, and the length is kept; that newest match
      is always stamped, and without a match nothing changes. */
  lemma CorrelatedProperties(events: seq<TrafficEvent>, url: string, code: nat, line: string)
    ensures
      var r := Correlated(events, url, code, line);
      && |r| == |events|
      && (forall j :: 0 <= j < |events| && r[j] != events[j] ==>
            && WindowStart(|events|) <= j
            && events[j].url == Some(url)
            && r[j] == WithStatus(events[j], code, line)
            && forall k :: j < k < |events| ==> events[k].url != Some(url))
      && (forall j, k :: 0 <= j < k < |events| && r[j] != events[j] ==> r[k] == events[k])
      && (forall j ::
            (&& WindowStart(|events|) <= j < |events|
             && events[j].url == Some(url)
             && forall k :: j < k < |events| ==> events[k].url != Some(url))
            ==> r[j] == WithStatus(events[j], code, line))
      && ((forall j :: WindowStart(|events|) <= j < |events| ==> events[j].url != Some(url)) ==> r == events)
  {
  }

  /** Given events `[A(u), B(v), C(u)]`, a response for `u` is attached to `C` only. */
  lemma CorrelatorPrefersNewest(a: TrafficEvent, b: TrafficEvent, c: TrafficEvent, u: string)
    requires a.url == Some(u) && b.url != Some(u) && c.url == Some(u)
    ensures Correlated([a, b, c], u, 200, "OK") == [a, b, WithStatus(c, 200, "OK")]
  {
  }
}
