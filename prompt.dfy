/** The lines of the prompts the extension writes for the language model
    (extension/background.js, `analyzeTrafficWithOpenAI`; extension/popup.js,
    `createAIPrompt`). A prompt is its lines joined by newlines. Text whose
    characters come from locale-dependent date formatting, floating-point
    arithmetic or `JSON.stringify` is kept as the data it is formatted from. */
module Prompt {
  import opened Wrappers

  /** Both prompts show the tab's last 20 events. */
  const RecentEvents: nat := 20

  /** One entry of the background summary's event list:
      `{type, url, method, time}`. */
  datatype EventView = EventView(kind: string, url: string, httpMethod: string, time: int)

  /** The fixed sentences of the two prompts, by name; `Wording` gives their text. */
  datatype Sentence =
    | AnalystRole | PleaseProvide | AskSummary | AskPrivacy | AskSecurity | AskRecommendations | AnswerAsJson
    | RecentHeading
    | AnalysisTitle | RecentActivityHeading | PleaseAnalyze | AskCollection | AskThirdParties
    | AskExposure | AskThreats | AskProtections | AskStructure

  function Wording(s: Sentence): string {
    match s
    case AnalystRole => "You are a web security and privacy analyst. Analyze the following web traffic data and provide insights about what the website is doing with user data."
    case PleaseProvide => "Please provide:"
    case AskSummary => "1. A brief summary of what's happening (2-3 sentences)"
    case AskPrivacy => "2. Privacy concerns (what data might be sent where)"
    case AskSecurity => "3. Security concerns (any suspicious activity)"
    case AskRecommendations => "4. Recommendations for the user"
    case AnswerAsJson => "Format your response as JSON with keys: summary, privacyConcerns, securityConcerns, recommendations."
    case RecentHeading => "Recent Traffic Events (last 20):"
    case AnalysisTitle => "# Web Traffic Analysis Request"
    case RecentActivityHeading => "## Recent Activity (last 20 events):"
    case PleaseAnalyze => "Please analyze this web traffic data and provide insights on:"
    case AskCollection => "1. **Data Collection Patterns**: What types of data is this website collecting?"
    case AskThirdParties => "2. **Third-Party Services**: Which external services is the website communicating with?"
    case AskExposure => "3. **Privacy Implications**: What user data might be exposed to these services?"
    case AskThreats => "4. **Security Assessment**: Any suspicious or potentially malicious activity?"
    case AskProtections => "5. **Recommendations**: What should users be aware of, and what protections might help?"
    case AskStructure => "Please structure your response with clear sections and actionable insights."
  }

  /** The labels of the optional per-event lines of the popup's prompt. */
  datatype FieldLabel = MethodLabel | UrlLabel | ResponseLabel | ContentTypeLabel

  function LabelText(l: FieldLabel): string {
    match l
    case MethodLabel => "Method"
    case UrlLabel => "URL"
    case ResponseLabel => "Response"
    case ContentTypeLabel => "Content Type"
  }

  datatype Line =
    | Text(s: string)
      /** A fixed sentence. */
    | Fixed(sentence: Sentence)
      /** `- <item>` */
    | Bullet(item: string)
      /** `### Top Domains Contacted (<total> total):` */
    | DomainsHeading(total: nat)
      /** `- ... and <more> more` */
    | MoreDomains(more: nat)
      /** `**<KIND>**:`, the kind upper-cased. */
    | KindHeading(kind: string)
      /** `**Event #<number>** [<KIND>]:`, the kind upper-cased. */
    | EventHeading(number: int, kind: string)
      /** `- **<field>**: <value>` */
    | EventField(field: FieldLabel, value: string)
      /** `Event Types: ${JSON.stringify(eventTypes)}`, keys in `kinds` order. */
    | EventTypesJson(kinds: seq<string>, counts: map<string, nat>)
      /** `JSON.stringify(events, null, 2)`. */
    | EventsJson(views: seq<EventView>)
      /** `- **Analysis Start Time**: ` and the start time in the locale's format. */
    | StartTime(started: int)
      /** `- **Monitoring Duration**: ` and the elapsed minutes, rounded. */
    | MonitoredMinutes(startTime: int, now: int)
      /** `- **<kind>**: <count> events (<percentage>%)`, the percentage with one decimal. */
    | KindShare(kind: string, count: nat, total: nat)
      /** `- **Time**: ` and the time of day in the locale's format (`Invalid Date` for none). */
    | EventTime(at: Option<int>)
      /** `- **Form Data**: ` and the fields as indented JSON. */
    | FormData(fields: map<string, string>)
      /** `- Requests per minute: ` and the rate with two decimals. */
    | RequestsPerMinute(events: nat, startTime: int, now: int)
}
