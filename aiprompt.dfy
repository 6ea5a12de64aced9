/** The popup's prompt generator (extension/popup.js, `createAIPrompt`):
    the per-kind histogram, the domains and the endpoints by kind of the
    tab's events, rendered section by section. */
module AiPrompt {
  import opened Wrappers
  import opened Strings
  import opened Seqs
  import opened Url
  import opened Events
  import opened Summary
  import opened Prompt

  const TrafficError: string := "Error getting traffic data"
  const NoEventsError: string := "No traffic data available to create a prompt"

  /** Endpoints kept per kind, and domains listed. */
  const MaxEndpoints: nat := 10
  const TopDomains: nat := 15

  /** The `get_traffic_data` response as the popup reads it. */
  datatype TrafficResponse = TrafficResponse(success: bool, data: Option<TabSession>)

  /* ---------- endpoints, ten per kind ---------- */

  /** Each kind's endpoint list cut to its first ten. */
  function CappedEndpoints(m: map<string, seq<string>>): map<string, seq<string>> {
    map k | k in m :: Take(m[k], MaxEndpoints)
  }

  /** The `for (const type in summary.endpointsByType)` loop; `keys` is the
      object's key order and holds every key. */
  method CapEndpoints(m: map<string, seq<string>>, keys: seq<string>) returns (r: map<string, seq<string>>)
    requires forall k :: k in m ==> k in keys
    ensures r == CappedEndpoints(m)
  {
    r := m;
    for i := 0 to |keys|
      invariant r.Keys == m.Keys
      invariant forall k | k in r :: r[k] == if k in keys[..i] then Take(m[k], MaxEndpoints) else m[k]
    {
      var k := keys[i];
      assert keys[..i + 1] == keys[..i] + [k];
      if k in r {
        r := r[k := Take(r[k], MaxEndpoints)];
      }
    }
    assert keys[..|keys|] == keys;
  }

  /** A kind's listed endpoints are at most ten distinct endpoints of that
      kind, the first ones the events produced. */
  lemma CappedEndpointsMeaning(evs: seq<TrafficEvent>, parse: Parser, k: string)
    requires k in TallyOf(evs, parse, SkipNA).endpoints
    ensures var all := TallyOf(evs, parse, SkipNA).endpoints[k];
      var listed := CappedEndpoints(TallyOf(evs, parse, SkipNA).endpoints)[k];
      && |listed| <= MaxEndpoints
      && listed == all[..|listed|]
      && (|all| <= MaxEndpoints ==> listed == all)
      && NoDuplicates(listed)
  {
  }

  /** The listed endpoints keep the order in which the events first produced them. */
  lemma CappedEndpointsOrder(evs: seq<TrafficEvent>, parse: Parser, k: string, i: nat, j: nat)
    requires k in TallyOf(evs, parse, SkipNA).endpoints
    requires i < j < |CappedEndpoints(TallyOf(evs, parse, SkipNA).endpoints)[k]|
    ensures var listed := CappedEndpoints(TallyOf(evs, parse, SkipNA).endpoints)[k];
      var column := Collect(evs, parse, SkipNA, EndpointOf(k));
      listed[i] in column && listed[j] in column && FirstIndex(column, listed[i]) < FirstIndex(column, listed[j])
  {
    var column := Collect(evs, parse, SkipNA, EndpointOf(k));
    var all := TallyOf(evs, parse, SkipNA).endpoints[k];
    assert all == Distinct(column);
    DistinctFirstSeenOrder(column, i, j);
  }

  /** Every endpoint list has an entry, so no kind's block is skipped. */
  lemma EndpointListsNonEmpty(evs: seq<TrafficEvent>, parse: Parser, k: string)
    requires k in TallyOf(evs, parse, SkipNA).endpoints
    ensures |TallyOf(evs, parse, SkipNA).endpoints[k]| > 0
    ensures |CappedEndpoints(TallyOf(evs, parse, SkipNA).endpoints)[k]| > 0
  {
    var column := Collect(evs, parse, SkipNA, EndpointOf(k));
    EndpointKeysMeaning(evs, parse, SkipNA, k);
    var i :| 0 <= i < |evs| && YieldsEndpoint(evs[i], parse, SkipNA, k, None);
    var u := EventUrl(evs[i], parse, SkipNA).value;
    ProjectEndpoint(evs[i], parse, SkipNA, k, u.hostname + u.pathname);
    CollectMeaning(evs, parse, SkipNA, EndpointOf(k), u.hostname + u.pathname);
    assert TallyOf(evs, parse, SkipNA).endpoints[k] == Distinct(column);
    assert |column| > 0;
  }

  /** An event whose URL is the placeholder `N/A` contributes no domain or endpoint. */
  lemma PlaceholderUrlIgnored(e: TrafficEvent, parse: Parser)
    requires e.url == Some("N/A")
    ensures EventUrl(e, parse, SkipNA).None?
  {
  }

  /* ---------- event-type breakdown ---------- */

  function KindShares(kinds: seq<string>, counts: map<string, nat>, total: nat): seq<Line>
    requires forall k :: k in kinds ==> k in counts
  {
    seq(|kinds|, i requires 0 <= i < |kinds| => KindShare(kinds[i], counts[kinds[i]], total))
  }

  function BreakdownSection(kinds: seq<string>, counts: map<string, nat>, total: nat): seq<Line>
    requires forall k :: k in kinds ==> k in counts
  {
    [Text(""), Text("### Event Types Breakdown:")] + KindShares(kinds, counts, total)
  }

  /** The `for (const [type, count] of Object.entries(summary.eventTypes))` loop. */
  method RenderBreakdown(kinds: seq<string>, counts: map<string, nat>, total: nat) returns (lines: seq<Line>)
    requires forall k :: k in kinds ==> k in counts
    ensures lines == BreakdownSection(kinds, counts, total)
  {
    lines := [Text(""), Text("### Event Types Breakdown:")];
    for i := 0 to |kinds|
      invariant lines == [Text(""), Text("### Event Types Breakdown:")] + KindShares(kinds[..i], counts, total)
    {
      assert KindShares(kinds[..i + 1], counts, total) == KindShares(kinds[..i], counts, total) + [KindShare(kinds[i], counts[kinds[i]], total)];
      lines := lines + [KindShare(kinds[i], counts[kinds[i]], total)];
    }
    assert kinds[..|kinds|] == kinds;
  }

  /* ---------- domains ---------- */

  function Bullets(items: seq<string>): seq<Line> {
    seq(|items|, i requires 0 <= i < |items| => Bullet(items[i]))
  }

  lemma BulletsSnoc(items: seq<string>, i: nat)
    requires i < |items|
    ensures Bullets(items[..i + 1]) == Bullets(items[..i]) + [Bullet(items[i])]
  {
  }

  /** The heading, the first 15 domains and, past 15, how many more there are. */
  function DomainSection(domains: seq<string>): seq<Line> {
    [Text(""), DomainsHeading(|domains|)] + Bullets(Take(domains, TopDomains)) +
      (if |domains| > TopDomains then [MoreDomains(|domains| - TopDomains)] else [])
  }

  /** The `summary.domains.slice(0, 15).forEach` loop and the overflow line. */
  method RenderDomains(domains: seq<string>) returns (lines: seq<Line>)
    ensures lines == DomainSection(domains)
  {
    var head: seq<Line> := [Text(""), DomainsHeading(|domains|)];
    var listed := Take(domains, TopDomains);
    lines := head;
    for i := 0 to |listed|
      invariant lines == head + Bullets(listed[..i])
    {
      BulletsSnoc(listed, i);
      lines := lines + [Bullet(listed[i])];
    }
    assert listed[..|listed|] == listed;
    if |domains| > TopDomains {
      lines := lines + [MoreDomains(|domains| - TopDomains)];
    }
  }

  /** The section lists the first `min(15, n)` domains in order, and the
      "... and N more" line appears exactly when there are more than 15,
      with `N = n - 15`. */
  lemma DomainSectionShape(domains: seq<string>, k: nat)
    ensures var sec, shown := DomainSection(domains), if |domains| <= TopDomains then |domains| else TopDomains;
      && |sec| == 2 + shown + (if |domains| > TopDomains then 1 else 0)
      && sec[1] == DomainsHeading(|domains|)
      && (forall i :: 0 <= i < shown ==> sec[2 + i] == Bullet(domains[i]))
      && (MoreDomains(k) in sec <==> |domains| > TopDomains && k == |domains| - TopDomains)
  {
    var sec := DomainSection(domains);
    var b := Bullets(Take(domains, TopDomains));
    assert forall l :: l in b ==> l.Bullet?;
  }

  /* ---------- endpoints by kind ---------- */

  /** One kind's block: a blank line, the upper-cased kind and its endpoints. */
  function KindBlock(kind: string, endpoints: seq<string>): seq<Line> {
    if |endpoints| > 0 then [Text(""), KindHeading(kind)] + Bullets(endpoints) else []
  }

  /** The blocks of the kinds in `kinds` order. */
  function KindBlocks(kinds: seq<string>, endpoints: map<string, seq<string>>): seq<seq<Line>>
    requires forall k :: k in kinds ==> k in endpoints
  {
    seq(|kinds|, i requires 0 <= i < |kinds| => KindBlock(kinds[i], endpoints[kinds[i]]))
  }

  function EndpointSection(kinds: seq<string>, endpoints: map<string, seq<string>>): seq<Line>
    requires forall k :: k in kinds ==> k in endpoints
  {
    [Text(""), Text("### Key Endpoints by Type:")] + Flatten(KindBlocks(kinds, endpoints))
  }

  /** The inner `endpoints.forEach` loop for one kind. */
  method RenderKindBlock(kind: string, endpoints: seq<string>) returns (block: seq<Line>)
    ensures block == KindBlock(kind, endpoints)
  {
    if |endpoints| == 0 {
      return [];
    }
    var head: seq<Line> := [Text(""), KindHeading(kind)];
    block := head;
    for j := 0 to |endpoints|
      invariant block == head + Bullets(endpoints[..j])
    {
      BulletsSnoc(endpoints, j);
      block := block + [Bullet(endpoints[j])];
    }
    assert endpoints[..|endpoints|] == endpoints;
  }

  /** The `Object.entries(summary.endpointsByType)` loop. */
  method RenderEndpoints(kinds: seq<string>, endpoints: map<string, seq<string>>) returns (lines: seq<Line>)
    requires forall k :: k in kinds ==> k in endpoints
    ensures lines == EndpointSection(kinds, endpoints)
  {
    var head: seq<Line> := [Text(""), Text("### Key Endpoints by Type:")];
    var blocks := KindBlocks(kinds, endpoints);
    lines := head;
    for i := 0 to |kinds|
      invariant lines == head + Flatten(blocks[..i])
    {
      FlattenSnoc(blocks, i);
      var block := RenderKindBlock(kinds[i], endpoints[kinds[i]]);
      lines := lines + block;
    }
    assert blocks[..|kinds|] == blocks;
  }

  /** A kind's block, when there is one, is its heading and then one bullet
      per endpoint, in order; a kind without endpoints has no block. */
  lemma KindBlockShape(kind: string, endpoints: seq<string>)
    ensures var b := KindBlock(kind, endpoints);
      && (b == [] <==> endpoints == [])
      && (endpoints != [] ==>
            |b| == 2 + |endpoints| && b[1] == KindHeading(kind) &&
            forall i :: 0 <= i < |endpoints| ==> b[2 + i] == Bullet(endpoints[i]))
  {
  }

  /** In the prompt every kind with endpoints gets its block: the tally's
      endpoint kinds in order, each with its first ten endpoints. */
  lemma EndpointBlocksMeaning(evs: seq<TrafficEvent>, parse: Parser, i: nat)
    requires i < |TallyOf(evs, parse, SkipNA).endpointKinds|
    ensures var t := TallyOf(evs, parse, SkipNA);
      var k := t.endpointKinds[i];
      && k in t.endpoints
      && (forall x :: x in t.endpointKinds ==> x in CappedEndpoints(t.endpoints))
      && var b := KindBlocks(t.endpointKinds, CappedEndpoints(t.endpoints))[i];
      && |b| == 2 + |CappedEndpoints(t.endpoints)[k]|
      && b[1] == KindHeading(k)
  {
    var t := TallyOf(evs, parse, SkipNA);
    var k := t.endpointKinds[i];
    TallyKeysListed(evs, parse, SkipNA);
    EndpointListsNonEmpty(evs, parse, k);
    KindBlockShape(k, CappedEndpoints(t.endpoints)[k]);
  }

  /* ---------- recent activity ---------- */

  /** `event.timestamp || event.time`. */
  function TimeOf(e: TrafficEvent): Option<int> {
    if e.timestamp.Some? && e.timestamp.value != 0 then e.timestamp else e.time
  }

  /** The lines for one event: the heading, the time, and the optional fields. */
  function EventBlock(e: TrafficEvent, number: int): seq<Line> {
    [Text(""), EventHeading(number, e.kind), EventTime(TimeOf(e))] +
      MethodLine(e) + UrlLine(e) + ResponseLine(e) + TypeLine(e) + FormLine(e)
  }

  function MethodLine(e: TrafficEvent): seq<Line> {
    if Truthy(e.httpMethod) && e.httpMethod.value != "N/A" then [EventField(MethodLabel, e.httpMethod.value)] else []
  }

  function UrlLine(e: TrafficEvent): seq<Line> {
    if Truthy(e.url) && e.url.value != "N/A" then [EventField(UrlLabel, e.url.value)] else []
  }

  /** `${event.statusCode} ${event.statusLine || ''}`. */
  function ResponseLine(e: TrafficEvent): seq<Line> {
    if e.statusCode.Some? && e.statusCode.value != 0 then
      [EventField(ResponseLabel, NatToString(e.statusCode.value) + " " + (if Truthy(e.statusLine) then e.statusLine.value else ""))]
    else []
  }

  function TypeLine(e: TrafficEvent): seq<Line> {
    if Truthy(e.resourceType) && e.resourceType.value != "other" then [EventField(ContentTypeLabel, e.resourceType.value)] else []
  }

  function FormLine(e: TrafficEvent): seq<Line> {
    if e.fields.Some? then [FormData(e.fields.value)] else []
  }

  /** Only the first two lines of a block are a blank and its heading. */
  lemma EventBlockShape(e: TrafficEvent, number: int)
    ensures var b := EventBlock(e, number);
      |b| >= 3 && b[1] == EventHeading(number, e.kind) && forall l :: l in b[2..] ==> !l.EventHeading?
  {
    var b := EventBlock(e, number);
    var rest := MethodLine(e) + UrlLine(e) + ResponseLine(e) + TypeLine(e) + FormLine(e);
    assert b[2..] == [EventTime(TimeOf(e))] + rest;
  }

  /** The body of the `recentEvents.forEach` callback: the lines appended for one event. */
  method RenderEvent(e: TrafficEvent, number: int) returns (block: seq<Line>)
    ensures block == EventBlock(e, number)
  {
    var head: seq<Line> := [Text(""), EventHeading(number, e.kind), EventTime(TimeOf(e))];
    block := head;
    if Truthy(e.httpMethod) && e.httpMethod.value != "N/A" {
      block := block + [EventField(MethodLabel, e.httpMethod.value)];
    }
    assert block == head + MethodLine(e);
    if Truthy(e.url) && e.url.value != "N/A" {
      block := block + [EventField(UrlLabel, e.url.value)];
    }
    assert block == head + MethodLine(e) + UrlLine(e);
    if e.statusCode.Some? && e.statusCode.value != 0 {
      var statusLine := if Truthy(e.statusLine) then e.statusLine.value else "";
      block := block + [EventField(ResponseLabel, NatToString(e.statusCode.value) + " " + statusLine)];
    }
    assert block == head + MethodLine(e) + UrlLine(e) + ResponseLine(e);
    if Truthy(e.resourceType) && e.resourceType.value != "other" {
      block := block + [EventField(ContentTypeLabel, e.resourceType.value)];
    }
    assert block == head + MethodLine(e) + UrlLine(e) + ResponseLine(e) + TypeLine(e);
    if e.fields.Some? {
      block := block + [FormData(e.fields.value)];
    }
  }

  /** A method line appears only for a method other than `N/A`, a URL line
      only for a URL other than `N/A`, and a content-type line only for a type
      other than `other`, each with the event's own value. */
  lemma EventBlockFields(e: TrafficEvent, number: int, v: string)
    ensures EventField(MethodLabel, v) in EventBlock(e, number) <==>
      Truthy(e.httpMethod) && e.httpMethod.value != "N/A" && v == e.httpMethod.value
    ensures EventField(UrlLabel, v) in EventBlock(e, number) <==>
      Truthy(e.url) && e.url.value != "N/A" && v == e.url.value
    ensures EventField(ContentTypeLabel, v) in EventBlock(e, number) <==>
      Truthy(e.resourceType) && e.resourceType.value != "other" && v == e.resourceType.value
  {
  }

  /** A response line appears only for a non-zero status code, followed by
      the status line when there is one; a form-data line only for an event
      with fields. */
  lemma EventBlockResponse(e: TrafficEvent, number: int, v: string, f: map<string, string>)
    ensures EventField(ResponseLabel, v) in EventBlock(e, number) <==>
      e.statusCode.Some? && e.statusCode.value != 0 &&
      v == NatToString(e.statusCode.value) + " " + (if Truthy(e.statusLine) then e.statusLine.value else "")
    ensures FormData(f) in EventBlock(e, number) <==> e.fields == Some(f)
  {
  }

  /** How many events the recent-activity section shows. */
  function Shown(n: nat): nat {
    if n <= RecentEvents then n else RecentEvents
  }

  /** An event's number: its 1-based position among all the tab's events. */
  function EventNumber(n: nat, index: nat): int {
    n - Shown(n) + index + 1
  }

  /** The number as written, `events.length - 20 + index + 1`. */
  function EventNumberAsWritten(n: nat, index: nat): int {
    n - RecentEvents + index + 1
  }

  /** With fewer than 20 events the written numbering starts below one: a
      tab with a single event shows it as event -18. */
  lemma EventNumberAsWrittenWrong()
    ensures EventNumberAsWritten(1, 0) == -18
    ensures EventNumber(1, 0) == 1
  {
  }

  /** The numbers shown are the positions of the shown events, ending at `n`;
      with 20 or more events the written numbering agrees. */
  lemma EventNumberMeaning(n: nat, index: nat)
    requires index < Shown(n)
    ensures 1 <= EventNumber(n, index) <= n
    ensures index == Shown(n) - 1 ==> EventNumber(n, index) == n
    ensures n >= RecentEvents ==> EventNumber(n, index) == EventNumberAsWritten(n, index)
  {
  }

  /** The shown events are the last `Shown(n)` ones. */
  lemma RecentAreLast(events: seq<TrafficEvent>)
    ensures TakeLast(events, RecentEvents) == events[|events| - Shown(|events|)..]
  {
  }

  /** One block per event of `recent`, numbered from `first`. */
  function NumberedBlocks(recent: seq<TrafficEvent>, first: int): seq<seq<Line>> {
    seq(|recent|, i requires 0 <= i < |recent| => EventBlock(recent[i], first + i))
  }

  /** One block per shown event, numbered as written: `n - 20 + index + 1`. */
  function RecentBlocks(events: seq<TrafficEvent>): seq<seq<Line>> {
    NumberedBlocks(TakeLast(events, RecentEvents), EventNumberAsWritten(|events|, 0))
  }

  function RecentSection(events: seq<TrafficEvent>): seq<Line> {
    [Text(""), Fixed(RecentActivityHeading)] + Flatten(RecentBlocks(events))
  }

  /** The `recentEvents.forEach((event, index) => ...)` loop, numbering from `first`. */
  method RenderBlocks(recent: seq<TrafficEvent>, first: int) returns (lines: seq<Line>)
    ensures lines == Flatten(NumberedBlocks(recent, first))
  {
    var blocks := NumberedBlocks(recent, first);
    lines := [];
    for index := 0 to |recent|
      invariant lines == Flatten(blocks[..index])
    {
      FlattenSnoc(blocks, index);
      var block := RenderEvent(recent[index], first + index);
      lines := lines + block;
    }
    assert blocks[..|recent|] == blocks;
  }

  method RenderRecent(events: seq<TrafficEvent>) returns (lines: seq<Line>)
    ensures lines == RecentSection(events)
  {
    var blocks := RenderBlocks(TakeLast(events, RecentEvents), EventNumberAsWritten(|events|, 0));
    lines := [Text(""), Fixed(RecentActivityHeading)] + blocks;
  }

  /** The section shows the last `min(20, n)` events in order; the one at
      position `j` (from 0), shown as the `i`-th, is numbered `n - 20 + i + 1`,
      which is its position `j + 1` exactly when there are at least 20 events. */
  lemma RecentBlocksMeaning(events: seq<TrafficEvent>, i: nat)
    ensures |RecentBlocks(events)| == Shown(|events|)
    ensures i < Shown(|events|) ==>
      var j := |events| - Shown(|events|) + i;
      && RecentBlocks(events)[i] == EventBlock(events[j], |events| - RecentEvents + i + 1)
      && (|events| - RecentEvents + i + 1 == j + 1 <==> |events| >= RecentEvents)
  {
    RecentAreLast(events);
  }

  /** Each block opens with its event's heading; the last one is numbered `n`
      only when there are at least 20 events. */
  lemma RecentHeadings(events: seq<TrafficEvent>, i: nat)
    requires i < Shown(|events|)
    ensures var j := |events| - Shown(|events|) + i;
      RecentBlocks(events)[i][1] == EventHeading(EventNumberAsWritten(|events|, i), events[j].kind)
    ensures i == Shown(|events|) - 1 ==>
      (RecentBlocks(events)[i][1].number == |events| <==> |events| >= RecentEvents)
  {
    var j := |events| - Shown(|events|) + i;
    RecentBlocksMeaning(events, i);
    EventBlockShape(events[j], EventNumberAsWritten(|events|, i));
  }

  /** Numbered as intended, from `EventNumber(n, 0)`, block `i` would be the
      block of event `j` numbered `j + 1`; with at least 20 events that is
      the rendering as written. */
  lemma IntendedRecentBlocks(events: seq<TrafficEvent>, i: nat)
    requires i < Shown(|events|)
    ensures var j := |events| - Shown(|events|) + i;
      NumberedBlocks(TakeLast(events, RecentEvents), EventNumber(|events|, 0))[i] == EventBlock(events[j], j + 1)
    ensures |events| >= RecentEvents ==>
      NumberedBlocks(TakeLast(events, RecentEvents), EventNumber(|events|, 0)) == RecentBlocks(events)
  {
    RecentAreLast(events);
  }

  /* ---------- the whole prompt ---------- */

  /** `${currentTab.url}`: a tab without a URL prints `undefined`. */
  function TabUrlText(url: Option<string>): string {
    match url case None => "undefined" case Some(u) => u
  }

  function ContextSection(tabUrl: Option<string>, d: TabSession, now: int): seq<Line> {
    [ Fixed(AnalysisTitle),
      Text(""),
      Text("## Context"),
      Text("- **Website URL**: " + TabUrlText(tabUrl)),
      StartTime(d.startTime),
      Text("- **Total Events Captured**: " + NatToString(|d.events|)),
      MonitoredMinutes(d.startTime, now),
      Text(""),
      Text("## Traffic Overview") ]
  }

  function StatisticsSection(d: TabSession, now: int): seq<Line> {
    [Text(""), Text("## Statistics:"), RequestsPerMinute(|d.events|, d.startTime, now)]
  }

  const ClosingSection: seq<Line> :=
    [ Text(""), Text("## Analysis Request:"), Text(""), Fixed(PleaseAnalyze), Text(""),
      Fixed(AskCollection), Fixed(AskThirdParties), Fixed(AskExposure), Fixed(AskThreats), Fixed(AskProtections),
      Text(""), Fixed(AskStructure) ]

  /** The tally's key lists cover its maps. */
  lemma TallyKeysListed(evs: seq<TrafficEvent>, parse: Parser, rule: UrlRule)
    ensures var t := TallyOf(evs, parse, rule);
      && (forall k :: k in t.kinds ==> k in t.counts)
      && (forall k :: k in t.endpoints ==> k in t.endpointKinds)
      && (forall k :: k in t.endpointKinds ==> k in t.endpoints)
  {
    var t := TallyOf(evs, parse, rule);
    forall k ensures (k in t.kinds ==> k in t.counts) && (k in t.endpoints <==> k in t.endpointKinds) {
      KindsMeaning(evs, parse, rule, k);
      EndpointKindsMeaning(evs, parse, rule, k);
    }
  }

  /** The prompt for a tab's events. */
  function PromptText(tabUrl: Option<string>, d: TabSession, parse: Parser, now: int): seq<Line> {
    var t := TallyOf(d.events, parse, SkipNA);
    TallyKeysListed(d.events, parse, SkipNA);
    ContextSection(tabUrl, d, now) +
    BreakdownSection(t.kinds, t.counts, |d.events|) +
    DomainSection(t.domains) +
    EndpointSection(t.endpointKinds, CappedEndpoints(t.endpoints)) +
    RecentSection(d.events) +
    StatisticsSection(d, now) +
    ClosingSection
  }

  /** The outcome: an error for a failed message, or for a response without events. */
  function PromptFor(lastError: bool, response: TrafficResponse, tabUrl: Option<string>, parse: Parser, now: int): Result<seq<Line>> {
    if lastError then Failure(TrafficError)
    else if !response.success || response.data.None? || response.data.value.events == [] then Failure(NoEventsError)
    else Success(PromptText(tabUrl, response.data.value, parse, now))
  }

  /** `createAIPrompt`: the checks, the counting `forEach`, the endpoint cap
      and the section-by-section rendering. */
  method CreateAIPrompt(lastError: bool, response: TrafficResponse, tabUrl: Option<string>, parse: Parser, now: int)
    returns (r: Result<seq<Line>>)
    ensures r == PromptFor(lastError, response, tabUrl, parse, now)
  {
    if lastError {
      return Failure(TrafficError);
    }
    if !response.success || response.data.None? || |response.data.value.events| == 0 {
      return Failure(NoEventsError);
    }
    var d := response.data.value;
    var t := TallyEvents(d.events, parse, SkipNA);
    TallyKeysListed(d.events, parse, SkipNA);
    var endpoints := CapEndpoints(t.endpoints, t.endpointKinds);
    var breakdown := RenderBreakdown(t.kinds, t.counts, |d.events|);
    var domains := RenderDomains(t.domains);
    var byKind := RenderEndpoints(t.endpointKinds, endpoints);
    var recent := RenderRecent(d.events);
    r := Success(ContextSection(tabUrl, d, now) + breakdown + domains + byKind + recent +
                 StatisticsSection(d, now) + ClosingSection);
  }

  /** No prompt is made, only an error, when the message failed or the
      response carries no events. */
  lemma PromptErrors(lastError: bool, response: TrafficResponse, tabUrl: Option<string>, parse: Parser, now: int)
    ensures var r := PromptFor(lastError, response, tabUrl, parse, now);
      && (lastError <==> r == Failure(TrafficError))
      && (r == Failure(NoEventsError) <==>
            !lastError && (!response.success || response.data.None? || response.data.value.events == []))
      && (r.Success? <==> !lastError && response.success && response.data.Some? && response.data.value.events != [])
  {
  }

  /** The histogram in the prompt counts every event once. */
  lemma BreakdownCountsAllEvents(d: TabSession, parse: Parser)
    ensures var t := TallyOf(d.events, parse, SkipNA);
      NoDuplicates(t.kinds) && SumOver(t.kinds, t.counts) == |d.events|
  {
    CountsAddUp(d.events, parse, SkipNA);
    KindsMeaning(d.events, parse, SkipNA, "");
  }
}
