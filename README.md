# WebTrafficMonitor core, modelled in Dafny

WebTrafficMonitor is a browser extension that records the network traffic of each tab. It does five things:

- It keeps a bounded, per-tab buffer of traffic events in its background service worker.
- It attaches completed responses to the requests they answer.
- It logs the URLs that carry ad- or analytics-tracking query parameters.
- It summarises a tab's traffic into prompts for a language model, one built by the background script and one by the popup.
- Its content script turns form submissions into redacted `form_submit` events.

This project models that core and proves what each part guarantees.

The modules follow the program's structure:

- `Url`: the parsed URL the code reads (origin, hostname, pathname, ordered query pairs, fragment). `new URL(s)` is a function parameter `Parser`.
- `Events`: the buffered event record and the per-tab session `{url, events, startTime}`.
- `Tracking`: `isTrackingParam`, `extractTrackingInfo`, and the capped tracking log of `handleGoogleRequest`.
- `Buffer`: `addTrafficEvent`'s push-and-cut, and the `onCompleted` correlator's backward scan over the last ten events.
- `Background`: the service worker as a class `TrafficMonitor`.
  - Its fields are the `trafficData` map and the stored tracking log.
  - Its methods are the webRequest listeners, the tab lifecycle listeners and the `page_event`, `get_traffic_data`, `clear_traffic_data` and `analyze_traffic` message branches.
- `Summary`: the counting `forEach` shared by both prompt builders.
  - It computes the kind histogram, the distinct hostnames and the distinct endpoints per kind.
  - The loop is stated against a loop-free definition, `TallyOf`.
- `Analysis`: the background's summary and prompt up to the network request.
- `AiPrompt`: the popup's `createAIPrompt`, section by section: the breakdown, the domains, the endpoints by kind, recent activity and the error paths.
- `Popup`: `formatDuration` and the unique-domain count of `refreshTrafficSummary`.
- `FormCapture`: the content script's field redaction, its payload, and its filter on window messages.
- `Prompt`: the lines of both prompts.
- `Strings`, `Seqs`, `Wrappers`: string, sequence and option helpers.

Inputs the code reads from the browser are parameters:

- the clock (`now`);
- the `URL` constructor (`parse`);
- the webRequest `details`;
- `sender.tab`;
- the active tab found by `chrome.tabs.query`;
- the form's entries.

A prompt is modelled as a sequence of `Line`s joined by newlines. Some lines are formatted with locale-dependent dates, floating point or `JSON.stringify`. Those lines carry the data they are formatted from rather than their characters.

## Model

| member | source | states |
|---|---|---|
| Tracking.IsTrackingParamMeaning | extension/background.js:15-31 | a key is tracking iff it starts with exactly `utm_` or equals one of the eleven known identifiers ignoring letter case |
| Tracking.UtmPrefixIsCaseSensitive | extension/background.js:16 | `utm_source` is tracking, `UTM_source` is not |
| Tracking.KnownKeysIgnoreCase | extension/background.js:30 | `GCLID` is tracking |
| Tracking.TrackingParamsKeys | extension/background.js:41-46 | the tracking object holds exactly the tracking keys present in the query |
| Tracking.TrackingParamsLastWins | extension/background.js:42-45 | for a repeated tracking key the value of its last occurrence is kept |
| Tracking.KeptPairs | extension/background.js:50-54 | the kept pairs are exactly the non-tracking pairs of the query (both directions), never more than the query |
| Tracking.KeptPairsAppend | extension/background.js:50-54 | filtering distributes over concatenation, so kept pairs stay in their original order |
| Tracking.KeptPairsIdempotent | extension/background.js:50-54 | cleaning an already cleaned query changes nothing |
| Tracking.NoTrackingAfterCleaning | extension/background.js:41-54 | a cleaned query has no tracking parameters |
| Tracking.ExtractTrackingInfo | extension/background.js:33-61 | null exactly when the URL does not parse; a third outcome when `origin + pathname` does not parse; otherwise the original URL and the tracking map, and, when the parser reads `origin + pathname` back, a clean URL of origin, path and the kept pairs with no fragment, whose origin is the URL's origin |
| Tracking.CleaningIsIdempotent | extension/background.js:33-61 | extracting from the clean URL finds no tracking parameters and gives the same clean URL |
| Tracking.HandleGoogleRequest | extension/background.js:64-84 | the extraction, the emptiness test, `push` and the `shift` loop compute `LogAfterHit` |
| Tracking.LogAfterHitProperties | extension/background.js:64-84 | a miss or an empty tracking map leaves the log as it was; a hit is the last entry, the log is cut from the front to at most 200, and the survivors keep their order |
| Buffer.WithEventProperties | extension/background.js:109-130 | the event stamped with `now` goes last; the old events that stay are a suffix, in order; the length is `min(old + 1, 200)`; URL and start time are kept |
| Buffer.RecordingKeepsMostRecent | extension/background.js:99-131 | after any number of additions the tab holds exactly the last 200 of all events it has seen, each stamped, in arrival order |
| Buffer.NewestMatch | extension/background.js:520-525 | the index found lies in `max(0, n - 10)..n - 1`, matches the URL exactly, and no newer index in the window does; none found means no index in the window matches |
| Buffer.StampResponse | extension/background.js:520-540 | the backward loop with `break` yields `Correlated` and stamps the index `NewestMatch` finds |
| Buffer.CorrelatedProperties | extension/background.js:520-540 | the length is kept; at most one event changes; the one that does is in the window, matches the URL, is the newest such, and gains only the status code and line; the newest window match is always stamped, and with no match the events are unchanged |
| Buffer.CorrelatorPrefersNewest | extension/background.js:520-540 | of `[A(u), B(v), C(u)]` only `C` gets the response |
| Background.TrafficMonitor.constructor | extension/background.js:6 | the monitor starts with no sessions and the stored log |
| Background.TrafficMonitor.AddTrafficEvent | extension/background.js:99-131 | a missing tab gets `{url: null, events: [], startTime: now}`, then the event is added as `WithEvent` says; other tabs and the log are untouched; every tab keeps at most 200 events |
| Background.TrafficMonitor.OnBeforeRequest | extension/background.js:466-502 | nothing changes for tab -1, internal schemes, or a URL whose clean form throws (the error is caught); otherwise the log takes the hit and exactly one `webrequest` event is added, with method `GET` and type `other` by default, to a session that starts at the URL when new |
| Background.TrafficMonitor.OnCompleted | extension/background.js:512-541 | nothing changes for tab -1 or a tab without a session; otherwise only that tab's events change, to `Correlated` |
| Background.TrafficMonitor.OnTabUpdated | extension/background.js:389-397 | finishing a load with a URL replaces the tab's session by `{url, [], now}`; anything else changes nothing |
| Background.TrafficMonitor.OnTabRemoved | extension/background.js:446-448 | the tab's session is deleted and only it |
| Background.TrafficMonitor.OnPageEvent | extension/background.js:285-306 | no sender tab: nothing changes; a tab without a session and no sender URL: the payload is dropped; otherwise the sender URL, when truthy, replaces the session URL and the payload is added |
| Background.TrafficMonitor.GetTrafficData | extension/background.js:316-345 | the target tab's session, or `{events: [], url: null, startTime: now}` when there is none |
| Background.TrafficMonitor.ClearTrafficData | extension/background.js:347-371 | the target tab's session is deleted, and nothing when no target tab is found |
| Background.TrafficMonitor.AnalyzeTraffic | extension/background.js:277-314 | the analysis of the session of the sender's tab only (`sender.tab?.id`, line 278), identical to `RequestFor`; a message without a sender tab gets the no-data error |
| Background.AnalysisTabAsWritten | extension/background.js:278 | as written, `analyze_traffic` looks only at the sender's tab |
| Background.PopupAnalysisFindsNoData | extension/background.js:308-314 | a message from the popup, which has no tab, fails with "No traffic data collected yet" however many events the active tab has; with the target resolved as for the other branches it succeeds |
| Background.PopupAnalysisUsesActiveTab | extension/background.js:318-337 | resolving the target as `get_traffic_data` does analyses exactly the active tab's session |
| Analysis.PrepareAnalysis | extension/background.js:137-195 | the checks, the `events.map` and the counting `forEach` compute `RequestFor` |
| Analysis.RequestErrors | extension/background.js:138-150 | analysis fails iff the session is missing or empty or no key is set; a missing or empty session is reported first |
| Analysis.RequestSummary | extension/background.js:153-183 | the total is the number of events, the histogram counts add up to it, and the domains are the distinct hostnames of the truthy event URLs that parse |
| Analysis.PromptListsDomains | extension/background.js:191-192 | the prompt's domain line joins exactly the first `min(20, n)` domains, in order, and ends in ` (and more)` exactly when fewer than all `n` are named |
| Analysis.PromptShowsRecent | extension/background.js:194-195 | the prompt lists the last `min(20, n)` events, in order |
| Summary.TallyEvents | extension/popup.js:641-663 | the `forEach` over the events computes `TallyOf`, the loop-free aggregates |
| Summary.CountEvent | extension/popup.js:641-663 | one iteration of the callback is one `Step` |
| Summary.TallyOfSnoc | extension/background.js:171-181 | adding an event to the loop-free aggregates is one `Step` |
| Summary.KindsMeaning | extension/popup.js:643-644 | the kinds listed are the events' kinds, each once, and they are exactly the keys of the counts |
| Summary.CountsAddUp | extension/popup.js:641-644 | the per-kind counts add up to the number of events |
| Summary.DomainsMeaning | extension/popup.js:647-650 | the domains are, each once, the hostnames of the event URLs the rule admits and that parse |
| Summary.EndpointKeysMeaning | extension/popup.js:653-655 | a kind has an endpoint list iff one of its events has a URL that parsed |
| Summary.EndpointListMeaning | extension/popup.js:656-658 | a kind's list holds, each once, exactly the `hostname + pathname` of its events whose URL parsed |
| Summary.EndpointKindsMeaning | extension/popup.js:653-655 | the key order of the endpoint table lists each key once and only its keys |
| Seqs.Distinct | extension/popup.js:666 | the array made from a `Set` has no duplicates, holds only elements of its input, and is no longer |
| Seqs.DistinctMembership | extension/popup.js:666 | an element is in the array made from a `Set` iff it was added |
| Seqs.DistinctFirstSeenOrder | extension/popup.js:666 | the array made from a `Set` lists its elements in first-insertion order |
| Seqs.CountsSumToLength | extension/popup.js:643-644 | counts over the distinct elements add up to the length |
| Seqs.TakeLast | extension/background.js:129 | `slice(-cap)` has `min(n, cap)` elements and is a suffix |
| AiPrompt.CapEndpoints | extension/popup.js:667-671 | the loop over the object's keys cuts each kind's list to its first ten |
| AiPrompt.CappedEndpointsMeaning | extension/popup.js:667-671 | each kind lists at most ten distinct endpoints, a prefix of all of them, and all of them when there are at most ten |
| AiPrompt.CappedEndpointsOrder | extension/popup.js:656-670 | the listed endpoints are in the order in which the events first produced them |
| AiPrompt.EndpointListsNonEmpty | extension/popup.js:653-658 | every endpoint list has an entry, so the `length > 0` test never skips a kind |
| AiPrompt.PlaceholderUrlIgnored | extension/popup.js:647 | an event whose URL is `N/A` contributes no domain or endpoint |
| AiPrompt.RenderBreakdown | extension/popup.js:690-694 | the breakdown loop appends one share line per kind, in key order |
| AiPrompt.BreakdownCountsAllEvents | extension/popup.js:641-644 | the kinds of the breakdown are distinct and their counts add up to the number of events |
| AiPrompt.RenderDomains | extension/popup.js:697-703 | the domain loop and the overflow line compute `DomainSection` |
| AiPrompt.DomainSectionShape | extension/popup.js:697-703 | the heading carries the total, the first `min(15, n)` domains follow in order, and `... and N more` appears iff `n > 15`, with `N = n - 15` |
| AiPrompt.RenderKindBlock | extension/popup.js:710-715 | one kind's lines: nothing for no endpoints, else a blank line, the upper-cased kind and its endpoints |
| AiPrompt.RenderEndpoints | extension/popup.js:706-716 | the endpoint loop emits the kind blocks in key order |
| AiPrompt.KindBlockShape | extension/popup.js:710-715 | a block is empty iff there are no endpoints; otherwise it is the heading and one bullet per endpoint, in order |
| AiPrompt.EndpointBlocksMeaning | extension/popup.js:706-716 | every kind with endpoints gets a block with its heading and its capped endpoints |
| AiPrompt.RenderEvent | extension/popup.js:723-747 | the lines for one event compute `EventBlock` |
| AiPrompt.EventBlockShape | extension/popup.js:723-726 | a block opens with a blank line, its heading and its time line, and has no other heading |
| AiPrompt.EventBlockFields | extension/popup.js:727-740 | a method line appears iff the method is present and not `N/A`, a URL line iff the URL is present and not `N/A`, a content-type line iff the type is present and not `other`, each with the event's value |
| AiPrompt.EventBlockResponse | extension/popup.js:733-747 | a response line appears iff the status code is non-zero, as the code, a space and the status line; a form-data line iff the event has fields |
| AiPrompt.EventNumberAsWrittenWrong | extension/popup.js:722 | the written numbering shows the only event of a tab as event -18 |
| AiPrompt.EventNumberMeaning | extension/popup.js:720-722 | the corrected numbers lie in `1..n` and end at `n`; with at least 20 events they equal the written ones |
| AiPrompt.RecentAreLast | extension/popup.js:720 | `slice(-20)` is the last `min(20, n)` events |
| AiPrompt.RenderBlocks | extension/popup.js:721-748 | the `forEach` over the recent events concatenates their blocks, numbered consecutively |
| AiPrompt.RenderRecent | extension/popup.js:719-748 | the recent-activity loop computes `RecentSection`, numbering shown event `index` as written, `n - 20 + index + 1` |
| AiPrompt.RecentBlocksMeaning | extension/popup.js:720-748 | there are `min(20, n)` blocks, and block `i` is the block of event `j = n - min(20, n) + i`, numbered `n - 20 + i + 1`; that number is the position `j + 1` exactly when `n >= 20` |
| AiPrompt.RecentHeadings | extension/popup.js:722-723 | each block's heading carries the written number and its event's kind; the last heading is numbered `n` exactly when `n >= 20` |
| AiPrompt.IntendedRecentBlocks | extension/popup.js:720-723 | numbered by position instead, block `i` is event `j`'s block numbered `j + 1`, and with at least 20 events those blocks are the written ones |
| AiPrompt.TallyKeysListed | extension/popup.js:691-709 | the key orders the loops iterate cover the count and endpoint tables |
| AiPrompt.CreateAIPrompt | extension/popup.js:608-767 | the checks, the aggregation, the endpoint cap and the rendering, with the recent events numbered as written, compute `PromptFor` |
| AiPrompt.PromptErrors | extension/popup.js:612-621 | a failed message gives exactly the "Error getting traffic data" error; a failed, missing or empty response gives exactly "No traffic data available to create a prompt"; otherwise there is a prompt |
| Popup.SplitDuration | extension/popup.js:7-17 | non-positive input gives `0s`; below 60 s, `s = floor(ms/1000)`; below 60 min, `m*60 + s = floor(ms/1000)` with `s < 60`; else `h*60 + m = floor(ms/60000)` with `m < 60` |
| Popup.MinutesOfMillis | extension/popup.js:9-11 | whole minutes via whole seconds equal whole minutes directly |
| Popup.FormatDurationNonPositive | extension/popup.js:8 | zero or negative milliseconds print `0s` |
| Popup.DurationTextRoundTrip | extension/popup.js:10-16 | each printed shape reads back as the units printed |
| Popup.FormatDurationRoundTrip | extension/popup.js:7-17 | reading a printed duration back gives its split |
| Popup.FormatDurationInjective | extension/popup.js:7-17 | two durations print the same iff they split into the same units |
| Popup.CountUniqueDomains | extension/popup.js:63-74 | the loop counts the distinct hostnames of the truthy event URLs that parse |
| Popup.UniqueDomainsAgree | extension/popup.js:63-74 | the popup's count equals the number of domains the background summary lists |
| FormCapture.RedactValue | extension/contentScript.js:39-48 | a sensitive name gives `<redacted>`; any other value is cut to its first 100 characters; the result never exceeds 100 |
| FormCapture.SensitiveWordAnywhere | extension/contentScript.js:39-45 | a name containing a sensitive word in any letter case is sensitive |
| FormCapture.UpperCasePasswordRedacted | extension/contentScript.js:39-46 | `User_PASSWORD` is redacted |
| FormCapture.KeptValueIsPrefix | extension/contentScript.js:47-48 | a kept value is a prefix of the submitted one, and all of it when it has at most 100 characters |
| FormCapture.CaptureFields | extension/contentScript.js:36-50 | the `fd.forEach` loop computes `FieldsOf`: each entry overwrites its name, except that a field named `__proto__` is dropped by the plain object's prototype setter |
| FormCapture.FieldsKeys | extension/contentScript.js:36-50 | the field keys are exactly the submitted names other than `__proto__` |
| FormCapture.FieldsLastWins | extension/contentScript.js:36-50 | for a repeated name the redacted form of its last value is kept; a field named `__proto__` is never among the fields |
| FormCapture.FieldsRedacted | extension/contentScript.js:38-50 | sensitive names hold `<redacted>`; any other holds at most 100 characters that prefix a value submitted under that name |
| FormCapture.OnSubmit | extension/contentScript.js:33-61 | the submit listener builds `FormSubmitPayload`, whose fields are `FieldsOf` the form's entries |
| FormCapture.PayloadProperties | extension/contentScript.js:53-59 | the payload is `form_submit`; its method is upper case (`GET` when empty) and equals the form's ignoring case; its action is the form's or else the page URL; its keys are the field names other than `__proto__`; its time is `now` |
| FormCapture.Forwarded | extension/contentScript.js:13-30 | a message is forwarded iff it comes from the same window and its data's source is `privacy-lens` or `webtrafficmonitor`, and then its data is the payload |

## Left out

- WHATWG URL parsing and serialisation are not modelled: `new URL`, `searchParams` and `toString` belong to the browser. `parse` is a parameter, and `Href` serialises without percent-encoding. The clean-URL properties assume the parser reads `origin + pathname` back (`ParsesBack`).
- `Tracking.ExtractTrackingInfo`: the clean URL is stated as the kept pairs only under `ParsesBack`. When the parser reads `origin + pathname` back with its own query pairs, those pairs come first, and nothing is stated about them.
- Persistence is left out. `chrome.storage.local` get and set of the tracking log are asynchronous; the model applies the log transform synchronously, and the race between overlapping callbacks is not covered.
- The OpenAI and Gemini network calls, response parsing and error mapping are network I/O. `AnalyzeTraffic` stops at the prepared request; the API key is a parameter.
- Prompt text that uses floating point, dates or JSON is kept as data: percentages, requests per minute, rounded minutes, `toLocaleString`, `toLocaleTimeString`, `toISOString` and `JSON.stringify`.
- `Background.TrafficMonitor.AddTrafficEvent`: the payload's fields are copied as modelled by `TrafficEvent`. Extra fields a page may send are dropped, including the message's `source` tag, which the background keeps on the event.
- The key order of `Object.entries` puts integer-like keys first in JavaScript. The model keeps insertion order for every key.
- `Events.TrafficEvent`: `kind` is always a string. A page may send a payload without `kind`; the source then throws at `event.kind.toUpperCase()` (extension/popup.js:723) and builds no prompt. That payload is not modelled.
- `AiPrompt.CreateAIPrompt`: always yields a prompt for a tab with events, because every modelled event has a kind. The source's throw on a missing kind is not modelled.
- `Summary.CountsAddUp`: every kind is counted as its own key. The source counts into plain objects (extension/background.js:172, extension/popup.js:643-644), so a kind named after an `Object.prototype` member such as `constructor` or `__proto__` starts from an inherited value or is dropped, and the endpoint `.add` (extension/popup.js:653-656) then throws inside the `try` and is swallowed. The model does not capture those counts.
- `AiPrompt.BreakdownCountsAllEvents`: holds of the model's map counts; for the `Object.prototype` kinds above the source's breakdown does not add up.
- Case mapping is ASCII only (`toLowerCase`, `toUpperCase`). Strings are sequences of characters, not UTF-16 code units, so `slice(0, 100)` may differ for astral characters.
- `FormData` values that are `File` objects (`String(value)`) are modelled as their string value.
- `currentTab.url` when no tab is active (the JavaScript throws): the tab URL is an `Option` parameter printed as `undefined` when missing.
- The `refresh_prompt` and `test_webrequest` message branches, and the registration of the listeners, are not modelled: they touch no state.
- The PerformanceObserver injection through `chrome.scripting` is not modelled: it is a foreign API with no state here.
- extension/content.js, the root contentScript.js and extension/options.js are not part of this model.
- DOM rendering, the chat and API-key UI, polling, the prompt tab, console logging and `sendResponse` plumbing are not modelled.
- Exceptions are modelled only where the code catches them:
  - a URL whose clean form cannot be built in `onBeforeRequest`;
  - URL parse failures in the counting loops.

## Findings

| source | as written | input that shows it | evidently intended | confidence | as-written member | corrected member |
|---|---|---|---|---|---|---|
| extension/popup.js:722 | recent events are numbered `events.length - 20 + index + 1` | a tab with 1 event: it is shown as `Event #-18` | number each shown event by its position among all events, `n - min(20, n) + index + 1` | medium, not executed | AiPrompt.EventNumberAsWritten (AiPrompt.EventNumberAsWrittenWrong) | AiPrompt.EventNumber (AiPrompt.EventNumberMeaning, AiPrompt.IntendedRecentBlocks) |
| extension/background.js:278 | `analyze_traffic` uses `sender.tab?.id`, which is undefined for a message from the popup | the popup sends `analyze_traffic` (extension/popup.js:207) while the active tab has events: the reply is "No traffic data collected yet" | resolve the target tab as `get_traffic_data` and `clear_traffic_data` do, falling back to the active tab | medium, not executed | Background.AnalysisTabAsWritten (Background.PopupAnalysisFindsNoData) | Background.TargetTab (Background.PopupAnalysisUsesActiveTab) |
