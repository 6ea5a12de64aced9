/** The background's traffic summary and the prompt it sends for analysis
    (extension/background.js, `analyzeTrafficWithOpenAI` up to the request). */
module Analysis {
  import opened Wrappers
  import opened Strings
  import opened Seqs
  import opened Url
  import opened Events
  import opened Summary
  import opened Prompt

  const NoDataError: string := "No traffic data collected yet"
  const NoKeyError: string := "OpenAI API key not configured. Please set it in the extension popup."

  /** At most this many domains are named. */
  const ListedDomains: nat := 20

  /** `summary.events` entry for one event: absent URL and method read
      `"N/A"`, and a missing or zero timestamp falls back to now. */
  function ViewOf(e: TrafficEvent, now: int): EventView {
    EventView(
      e.kind,
      if Truthy(e.url) then e.url.value else "N/A",
      if Truthy(e.httpMethod) then e.httpMethod.value else "N/A",
      if e.timestamp.Some? && e.timestamp.value != 0 then e.timestamp.value else now)
  }

  function Views(events: seq<TrafficEvent>, now: int): seq<EventView> {
    seq(|events|, i requires 0 <= i < |events| => ViewOf(events[i], now))
  }

  /** `${summary.currentUrl}`: a missing URL prints as `null`. */
  function UrlText(url: Option<string>): string {
    match url case None => "null" case Some(u) => u
  }

  /** The `Domains:` line: the first 20 domains, comma-separated, then
      ` (and more)` when there are more. */
  function DomainsLine(domains: seq<string>): string {
    "Domains: " + Join(Take(domains, ListedDomains), ", ") +
      (if |domains| > ListedDomains then " (and more)" else "")
  }

  /** The prompt text, line by line. */
  function AnalysisPrompt(url: Option<string>, t: Tally, views: seq<EventView>): seq<Line> {
    [ Fixed(AnalystRole),
      Text(""),
      Text("Current URL: " + UrlText(url)),
      Text("Total Events: " + NatToString(|views|)),
      EventTypesJson(t.kinds, t.counts),
      Text("Unique Domains Contacted: " + NatToString(|t.domains|)),
      Text(DomainsLine(t.domains)),
      Text(""),
      Fixed(RecentHeading),
      EventsJson(TakeLast(views, RecentEvents)),
      Text(""),
      Fixed(PleaseProvide),
      Fixed(AskSummary),
      Fixed(AskPrivacy),
      Fixed(AskSecurity),
      Fixed(AskRecommendations),
      Text(""),
      Fixed(AnswerAsJson) ]
  }

  /** What is ready to be sent: the prompt, and the summary returned with the analysis. */
  datatype Request = Request(prompt: seq<Line>, totalEvents: nat, kinds: seq<string>, counts: map<string, nat>, domains: seq<string>)

  /** The outcome up to the request: the missing-data error is checked before the key. */
  function RequestFor(session: Option<TabSession>, apiKey: Option<string>, parse: Parser, now: int): Result<Request> {
    if session.None? || session.value.events == [] then Failure(NoDataError)
    else if !Truthy(apiKey) then Failure(NoKeyError)
    else
      var s := session.value;
      var t := TallyOf(s.events, parse, AnyUrl);
      Success(Request(AnalysisPrompt(s.url, t, Views(s.events, now)), |s.events|, t.kinds, t.counts, t.domains))
  }

  /** `analyzeTrafficWithOpenAI` up to the `fetch`: the session and key checks,
      the `events.map`, and the counting `forEach`. */
  method PrepareAnalysis(session: Option<TabSession>, apiKey: Option<string>, parse: Parser, now: int)
    returns (r: Result<Request>)
    ensures r == RequestFor(session, apiKey, parse, now)
  {
    if session.None? || |session.value.events| == 0 {
      return Failure(NoDataError);
    }
    if !Truthy(apiKey) {
      return Failure(NoKeyError);
    }
    var data := session.value;
    var views := Views(data.events, now);
    var t := TallyEvents(data.events, parse, AnyUrl);
    r := Success(Request(AnalysisPrompt(data.url, t, views), |data.events|, t.kinds, t.counts, t.domains));
  }

  /** Analysis fails exactly when the tab has no events or no key is set,
      and a tab without events is reported first. */
  lemma RequestErrors(session: Option<TabSession>, apiKey: Option<string>, parse: Parser, now: int)
    ensures var r := RequestFor(session, apiKey, parse, now);
      && (r.Failure? <==> session.None? || session.value.events == [] || !Truthy(apiKey))
      && (session.None? || session.value.events == [] ==> r == Failure(NoDataError))
      && (r == Failure(NoKeyError) <==> session.Some? && session.value.events != [] && !Truthy(apiKey))
  {
  }

  /** A successful request counts every event once and names the distinct
      hostnames of the event URLs that parsed. */
  lemma RequestSummary(s: TabSession, apiKey: Option<string>, parse: Parser, now: int, d: string)
    requires s.events != [] && Truthy(apiKey)
    ensures var r := RequestFor(Some(s), apiKey, parse, now);
      && r.Success?
      && r.value.totalEvents == |s.events|
      && SumOver(r.value.kinds, r.value.counts) == |s.events|
      && NoDuplicates(r.value.domains)
      && (d in r.value.domains <==>
            exists i :: 0 <= i < |s.events| && EventUrl(s.events[i], parse, AnyUrl).Some? &&
                        EventUrl(s.events[i], parse, AnyUrl).value.hostname == d)
  {
    var t := TallyOf(s.events, parse, AnyUrl);
    assert RequestFor(Some(s), apiKey, parse, now).value.domains == t.domains;
    CountsAddUp(s.events, parse, AnyUrl);
    DomainsMeaning(s.events, parse, AnyUrl, d);
  }

  /** The prompt names at most the first 20 domains, in order, and says
      ` (and more)` exactly when some are left out. */
  lemma PromptListsDomains(url: Option<string>, t: Tally, views: seq<EventView>)
    ensures var shown := if |t.domains| <= ListedDomains then |t.domains| else ListedDomains;
      Text("Domains: " + Join(t.domains[..shown], ", ") + (if shown < |t.domains| then " (and more)" else ""))
        in AnalysisPrompt(url, t, views)
  {
    var shown := if |t.domains| <= ListedDomains then |t.domains| else ListedDomains;
    assert Take(t.domains, ListedDomains) == t.domains[..shown];
    assert AnalysisPrompt(url, t, views)[6] == Text(DomainsLine(t.domains));
  }

  /** The prompt lists the last `min(20, n)` events, in order. */
  lemma PromptShowsRecent(url: Option<string>, t: Tally, events: seq<TrafficEvent>, now: int)
    ensures var shown := if |events| <= RecentEvents then |events| else RecentEvents;
      EventsJson(Views(events[|events| - shown..], now)) in AnalysisPrompt(url, t, Views(events, now))
  {
    var views := Views(events, now);
    var shown := if |events| <= RecentEvents then |events| else RecentEvents;
    assert TakeLast(views, RecentEvents) == Views(events[|events| - shown..], now);
    assert AnalysisPrompt(url, t, views)[9] == EventsJson(TakeLast(views, RecentEvents));
  }
}
