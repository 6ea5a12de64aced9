/** The background service worker's state and event handlers
    (extension/background.js): the per-tab `trafficData` map, the tracking
    log, the webRequest and tab listeners and the runtime message branches. */
module Background {
  import opened Wrappers
  import opened Strings
  import opened Url
  import opened Events
  import opened Tracking
  import opened Buffer
  import opened Analysis

  /** The `tabId` webRequest reports for requests not made by a tab. */
  const NoTab: int := -1

  /** Requests to these schemes are not recorded. */
  predicate IsInternal(url: string) {
    || StartsWith(url, "chrome-extension://")
    || StartsWith(url, "chrome://")
    || StartsWith(url, "edge://")
    || StartsWith(url, "moz-extension://")
  }

  /** The fields of a webRequest `details` object the listeners read. */
  datatype RequestDetails = RequestDetails(
    tabId: int,
    url: string,
    httpMethod: Option<string>,
    resourceType: Option<string>,
    timeStamp: int)

  /** The event `onBeforeRequest` records: method defaults to `GET`, type to `other`. */
  function RequestEvent(d: RequestDetails): TrafficEvent {
    BareEvent("webrequest").(
      url := Some(d.url),
      httpMethod := Some(if Truthy(d.httpMethod) then d.httpMethod.value else "GET"),
      time := Some(d.timeStamp),
      resourceType := Some(if Truthy(d.resourceType) then d.resourceType.value else "other"))
  }

  /** `sender.tab` of a runtime message; a message from the popup has none. */
  datatype SenderTab = SenderTab(id: Option<int>, url: Option<string>)

  /** The tab a `get_traffic_data` or `clear_traffic_data` message is about:
      the sender's tab, else the active tab of the current window (`None`
      when the query finds none or fails). */
  function TargetTab(sender: Option<int>, active: Option<int>): Option<int> {
    if sender.Some? then sender else active
  }

  /** `trafficData.get(tab)`, with `undefined` for a missing tab or key. */
  function SessionAt(data: map<int, TabSession>, tab: Option<int>): Option<TabSession> {
    if tab.Some? && tab.value in data then Some(data[tab.value]) else None
  }

  /** The session `addTrafficEvent` appends to: the stored one, or a fresh one. */
  function SessionOr(data: map<int, TabSession>, tabId: int, now: int): TabSession {
    if tabId in data then data[tabId] else FreshSession(now)
  }

  /** The tab `analyze_traffic` analyses as written: only the sender's tab. */
  function AnalysisTabAsWritten(sender: Option<int>, active: Option<int>): Option<int> {
    sender
  }

  /** The popup is not a tab, so its `analyze_traffic` message carries no
      sender tab: as written, analysis then never finds the active tab's
      events, however many there are. */
  lemma PopupAnalysisFindsNoData(data: map<int, TabSession>, active: int, apiKey: Option<string>, parse: Parser, now: int)
    requires active in data && data[active].events != [] && Truthy(apiKey)
    ensures RequestFor(SessionAt(data, AnalysisTabAsWritten(None, Some(active))), apiKey, parse, now) == Failure(NoDataError)
    ensures RequestFor(SessionAt(data, TargetTab(None, Some(active))), apiKey, parse, now).Success?
  {
  }

  /** With the target resolved as for the other popup messages, the popup's
      request analyses exactly the active tab's session. */
  lemma PopupAnalysisUsesActiveTab(data: map<int, TabSession>, active: Option<int>, apiKey: Option<string>, parse: Parser, now: int)
    ensures RequestFor(SessionAt(data, TargetTab(None, active)), apiKey, parse, now) ==
      RequestFor(if active.Some? && active.value in data then Some(data[active.value]) else None, apiKey, parse, now)
    ensures active.Some? && active.value in data && data[active.value].events != [] && Truthy(apiKey) ==>
      RequestFor(SessionAt(data, TargetTab(None, active)), apiKey, parse, now).Success?
  {
  }

  class TrafficMonitor {
    /** Sessions by tab id. */
    var trafficData: map<int, TabSession>
    /** The stored `googleTrackingLog`. */
    var trackingLog: seq<LogEntry>
    /** The `URL` constructor of the runtime. */
    const parse: Parser

    /** Every tab holds at most 200 events. */
    ghost predicate Valid()
      reads this
    {
      forall id | id in trafficData :: |trafficData[id].events| <= MaxEvents
    }

    constructor(parse: Parser, storedLog: seq<LogEntry>)
      ensures Valid()
      ensures this.parse == parse && trafficData == map[] && trackingLog == storedLog
    {
      this.parse := parse;
      trafficData := map[];
      trackingLog := storedLog;
    }

    /** `addTrafficEvent`: create the session if the tab has none, push the
        event stamped with `now`, keep the last 200. */
    method AddTrafficEvent(tabId: int, e: TrafficEvent, now: int)
      requires Valid()
      modifies this
      ensures Valid()
      ensures trafficData == old(trafficData)[tabId := WithEvent(SessionOr(old(trafficData), tabId, now), e, now)]
      ensures trackingLog == old(trackingLog)
    {
      if tabId !in trafficData {
        trafficData := trafficData[tabId := FreshSession(now)];
      }
      var data := trafficData[tabId];
      var events := data.events + [e.(timestamp := Some(now))];
      if |events| > MaxEvents {
        events := events[|events| - MaxEvents..];
      }
      trafficData := trafficData[tabId := data.(events := events)];
    }

    /** The `onBeforeRequest` listener. Non-tab requests, internal schemes and
        a URL whose clean form cannot be built (the exception is caught and
        logged) change nothing; otherwise a tracking hit is logged, a tab seen
        for the first time gets a session starting at this URL, and one
        `webrequest` event is recorded. */
    method OnBeforeRequest(d: RequestDetails, now: int)
      requires Valid()
      modifies this
      ensures Valid()
      ensures d.tabId == NoTab || IsInternal(d.url) || ExtractTrackingInfo(parse, d.url).Threw? ==>
        trafficData == old(trafficData) && trackingLog == old(trackingLog)
      ensures !(d.tabId == NoTab || IsInternal(d.url) || ExtractTrackingInfo(parse, d.url).Threw?) ==>
        && trackingLog == LogAfterHit(old(trackingLog), ExtractTrackingInfo(parse, d.url), now)
        && var start := if d.tabId in old(trafficData) then old(trafficData)[d.tabId] else TabSession(Some(d.url), [], now);
           trafficData == old(trafficData)[d.tabId := WithEvent(start, RequestEvent(d), now)]
    {
      if d.tabId == NoTab {
        return;
      }
      if IsInternal(d.url) {
        return;
      }
      if ExtractTrackingInfo(parse, d.url).Threw? {
        return;
      }
      trackingLog := HandleGoogleRequest(trackingLog, parse, d.url, now);
      if d.tabId !in trafficData {
        trafficData := trafficData[d.tabId := TabSession(Some(d.url), [], now)];
      }
      AddTrafficEvent(d.tabId, RequestEvent(d), now);
    }

    /** The `onCompleted` listener: correlate the response with the tab's
        newest matching event; nothing changes for a non-tab request or a tab
        without a session. */
    method OnCompleted(tabId: int, url: string, statusCode: nat, statusLine: string)
      requires Valid()
      modifies this
      ensures Valid()
      ensures tabId == NoTab || tabId !in old(trafficData) ==> trafficData == old(trafficData)
      ensures tabId != NoTab && tabId in old(trafficData) ==>
        trafficData == old(trafficData)[tabId :=
          old(trafficData)[tabId].(events := Correlated(old(trafficData)[tabId].events, url, statusCode, statusLine))]
      ensures trackingLog == old(trackingLog)
    {
      if tabId == NoTab || tabId !in trafficData {
        return;
      }
      var data := trafficData[tabId];
      var events, _ := StampResponse(data.events, url, statusCode, statusLine);
      CorrelatedProperties(data.events, url, statusCode, statusLine);
      trafficData := trafficData[tabId := data.(events := events)];
    }

    /** `tabs.onUpdated`: a tab that finished loading a URL starts a fresh session. */
    method OnTabUpdated(tabId: int, status: Option<string>, tabUrl: Option<string>, now: int)
      requires Valid()
      modifies this
      ensures Valid()
      ensures status == Some("complete") && Truthy(tabUrl) ==>
        trafficData == old(trafficData)[tabId := TabSession(tabUrl, [], now)]
      ensures !(status == Some("complete") && Truthy(tabUrl)) ==> trafficData == old(trafficData)
      ensures trackingLog == old(trackingLog)
    {
      if status == Some("complete") && Truthy(tabUrl) {
        trafficData := trafficData[tabId := TabSession(tabUrl, [], now)];
      }
    }

    /** `tabs.onRemoved`: the tab's session is dropped. */
    method OnTabRemoved(tabId: int)
      requires Valid()
      modifies this
      ensures Valid()
      ensures trafficData == old(trafficData) - {tabId}
      ensures trackingLog == old(trackingLog)
    {
      trafficData := trafficData - {tabId};
    }

    /** The `page_event` branch: a payload from a content script is recorded
        for the sender's tab. A tab without a session gets one only when the
        sender has a URL; otherwise the payload is dropped. */
    method OnPageEvent(sender: Option<SenderTab>, payload: TrafficEvent, now: int)
      requires Valid()
      modifies this
      ensures Valid()
      ensures trackingLog == old(trackingLog)
      ensures sender.None? || sender.value.id.None? ==> trafficData == old(trafficData)
      ensures sender.Some? && sender.value.id.Some? ==>
        var t, url := sender.value.id.value, sender.value.url;
        && (t !in old(trafficData) && !Truthy(url) ==> trafficData == old(trafficData))
        && (t in old(trafficData) || Truthy(url) ==>
              var s := if t in old(trafficData) then old(trafficData)[t] else TabSession(url, [], now);
              trafficData == old(trafficData)[t := WithEvent(s.(url := if Truthy(url) then url else s.url), payload, now)])
    {
      if sender.None? || sender.value.id.None? {
        return;
      }
      var t, url := sender.value.id.value, sender.value.url;
      if Truthy(url) && t !in trafficData {
        trafficData := trafficData[t := TabSession(url, [], now)];
      }
      if t in trafficData {
        var data := trafficData[t];
        trafficData := trafficData[t := data.(url := if Truthy(url) then url else data.url)];
        AddTrafficEvent(t, payload, now);
      }
    }

    /** The `get_traffic_data` branch: the target tab's session, or an empty
        one starting now when there is none. */
    function GetTrafficData(sender: Option<int>, active: Option<int>, now: int): (r: TabSession)
      reads this
      ensures SessionAt(trafficData, TargetTab(sender, active)).Some? ==>
        r == SessionAt(trafficData, TargetTab(sender, active)).value
      ensures SessionAt(trafficData, TargetTab(sender, active)).None? ==>
        r.events == [] && r.url.None? && r.startTime == now
    {
      match SessionAt(trafficData, TargetTab(sender, active))
      case Some(s) => s
      case None => TabSession(None, [], now)
    }

    /** The `clear_traffic_data` branch: the target tab's session is dropped. */
    method ClearTrafficData(sender: Option<int>, active: Option<int>)
      requires Valid()
      modifies this
      ensures Valid()
      ensures TargetTab(sender, active).Some? ==> trafficData == old(trafficData) - {TargetTab(sender, active).value}
      ensures TargetTab(sender, active).None? ==> trafficData == old(trafficData)
      ensures trackingLog == old(trackingLog)
    {
      var target := TargetTab(sender, active);
      if target.Some? {
        trafficData := trafficData - {target.value};
      }
    }

    /** The `analyze_traffic` branch up to the request. The tab analysed is
        the sender's only, so a message without a sender tab, as every one
        from the popup is, gets the no-data error. */
    method AnalyzeTraffic(sender: Option<int>, active: Option<int>, apiKey: Option<string>, now: int)
      returns (r: Result<Request>)
      ensures r == RequestFor(SessionAt(trafficData, AnalysisTabAsWritten(sender, active)), apiKey, parse, now)
      ensures sender.None? ==> r == Failure(NoDataError)
    {
      r := PrepareAnalysis(SessionAt(trafficData, AnalysisTabAsWritten(sender, active)), apiKey, parse, now);
    }
  }
}
