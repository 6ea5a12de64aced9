/** The per-event aggregation shared by the background analysis
    (extension/background.js, `analyzeTrafficWithOpenAI`) and the popup's
    prompt generator (extension/popup.js, `createAIPrompt`): a histogram of
    event kinds, the distinct hostnames contacted and, per kind, the distinct
    `hostname + pathname` endpoints. */
module Summary {
  import opened Wrappers
  import opened Seqs
  import opened Url
  import opened Events

  /** Which event URLs are parsed: the background summary takes every truthy
      URL, the prompt generator also skips the placeholder `"N/A"`. */
  datatype UrlRule = AnyUrl | SkipNA

  /** The parsed URL of an event, when it has one the rule admits and it parses. */
  function EventUrl(e: TrafficEvent, parse: Parser, rule: UrlRule): Option<ParsedUrl> {
    if Truthy(e.url) && !(rule == SkipNA && e.url.value == "N/A") then parse(e.url.value) else None
  }

  /** What is read from one event: its kind; its hostname; its kind, when its
      URL parsed; its endpoint, when it is of kind `k` and its URL parsed. */
  datatype Field = Kind | Host | UrlKind | EndpointOf(k: string)

  function Project(e: TrafficEvent, parse: Parser, rule: UrlRule, f: Field): Option<string> {
    match f
    case Kind => Some(e.kind)
    case Host =>
      (match EventUrl(e, parse, rule) case Some(u) => Some(u.hostname) case None => None)
    case UrlKind =>
      (match EventUrl(e, parse, rule) case Some(_) => Some(e.kind) case None => None)
    case EndpointOf(k) =>
      (match EventUrl(e, parse, rule)
       case Some(u) => if e.kind == k then Some(u.hostname + u.pathname) else None
       case None => None)
  }

  /** The values `f` reads from the events, in event order, repetitions kept. */
  function Collect(evs: seq<TrafficEvent>, parse: Parser, rule: UrlRule, f: Field): seq<string> {
    if evs == [] then []
    else
      Collect(evs[..|evs| - 1], parse, rule, f) +
      (match Project(evs[|evs| - 1], parse, rule, f) case Some(x) => [x] case None => [])
  }

  /** A value is collected iff some event yields it. */
  lemma {:induction false} CollectMeaning(evs: seq<TrafficEvent>, parse: Parser, rule: UrlRule, f: Field, x: string)
    ensures x in Collect(evs, parse, rule, f) <==>
      exists i :: 0 <= i < |evs| && Project(evs[i], parse, rule, f) == Some(x)
  {
    if evs != [] {
      var p := evs[..|evs| - 1];
      CollectMeaning(p, parse, rule, f, x);
      if exists i :: 0 <= i < |p| && Project(p[i], parse, rule, f) == Some(x) {
        var i :| 0 <= i < |p| && Project(p[i], parse, rule, f) == Some(x);
        assert evs[i] == p[i];
      }
      if i :| 0 <= i < |evs| && Project(evs[i], parse, rule, f) == Some(x) {
        if i < |p| { assert p[i] == evs[i]; }
      }
    }
  }

  lemma CollectSnoc(evs: seq<TrafficEvent>, i: nat, parse: Parser, rule: UrlRule, f: Field)
    requires i < |evs|
    ensures Collect(evs[..i + 1], parse, rule, f) ==
      Collect(evs[..i], parse, rule, f) +
      (match Project(evs[i], parse, rule, f) case Some(x) => [x] case None => [])
  {
    assert evs[..i + 1][..i] == evs[..i];
  }

  /** The aggregates, in the insertion order the loop produces: `kinds` and
      `endpointKinds` are the key orders of `counts` and `endpoints`. */
  datatype Tally = Tally(
    kinds: seq<string>,
    counts: map<string, nat>,
    domains: seq<string>,
    endpointKinds: seq<string>,
    endpoints: map<string, seq<string>>)

  /** The aggregates of `evs`, stated without the loop. */
  function TallyOf(evs: seq<TrafficEvent>, parse: Parser, rule: UrlRule): Tally {
    Tally(
      Distinct(Collect(evs, parse, rule, Kind)),
      CountMap(Collect(evs, parse, rule, Kind)),
      Distinct(Collect(evs, parse, rule, Host)),
      Distinct(Collect(evs, parse, rule, UrlKind)),
      EndpointsOf(evs, parse, rule))
  }

  /** Per kind whose events had a URL that parsed, the distinct endpoints of that kind. */
  function EndpointsOf(evs: seq<TrafficEvent>, parse: Parser, rule: UrlRule): map<string, seq<string>> {
    map k | k in Collect(evs, parse, rule, UrlKind) :: Distinct(Collect(evs, parse, rule, EndpointOf(k)))
  }

  /** Adding an element to a de-duplicated list. */
  function AddUnique(s: seq<string>, x: string): seq<string> {
    if x in s then s else s + [x]
  }

  /** Adding one occurrence to a count table. */
  function Bump(m: map<string, nat>, x: string): map<string, nat> {
    if x in m then m[x := m[x] + 1] else m[x := 1]
  }

  lemma BumpSnoc(s: seq<string>, x: string)
    ensures CountMap(s + [x]) == Bump(CountMap(s), x)
  {
    CountMapSnoc(s, x);
  }

  /** One iteration of the `forEach`. */
  function Step(t: Tally, e: TrafficEvent, parse: Parser, rule: UrlRule): Tally {
    var counted := t.(kinds := if e.kind in t.counts then t.kinds else t.kinds + [e.kind],
                      counts := Bump(t.counts, e.kind));
    match EventUrl(e, parse, rule)
    case None => counted
    case Some(u) =>
      var current := if e.kind in t.endpoints then t.endpoints[e.kind] else [];
      counted.(domains := AddUnique(t.domains, u.hostname),
               endpointKinds := if e.kind in t.endpoints then t.endpointKinds else t.endpointKinds + [e.kind],
               endpoints := t.endpoints[e.kind := AddUnique(current, u.hostname + u.pathname)])
  }

  lemma DistinctAddUnique(s: seq<string>, x: string)
    ensures Distinct(s + [x]) == AddUnique(Distinct(s), x)
  {
    DistinctLast(s, x);
  }

  lemma KindsStep(pre: seq<TrafficEvent>, e: TrafficEvent, parse: Parser, rule: UrlRule)
    ensures var k, k' := Collect(pre, parse, rule, Kind), Collect(pre + [e], parse, rule, Kind);
      && Distinct(k') == (if e.kind in CountMap(k) then Distinct(k) else Distinct(k) + [e.kind])
      && CountMap(k') == Bump(CountMap(k), e.kind)
  {
    var k := Collect(pre, parse, rule, Kind);
    assert (pre + [e])[..|pre|] == pre;
    assert Collect(pre + [e], parse, rule, Kind) == k + [e.kind];
    DistinctAddUnique(k, e.kind);
    DistinctMembership(k, e.kind);
    BumpSnoc(k, e.kind);
  }

  lemma CollectAppend(pre: seq<TrafficEvent>, e: TrafficEvent, parse: Parser, rule: UrlRule, f: Field)
    ensures Collect(pre + [e], parse, rule, f) ==
      Collect(pre, parse, rule, f) + (match Project(e, parse, rule, f) case Some(x) => [x] case None => [])
  {
    assert (pre + [e])[..|pre|] == pre;
  }

  /** An endpoint of kind `k` is only collected from an event whose URL parsed. */
  lemma {:induction false} EndpointNeedsUrlKind(evs: seq<TrafficEvent>, parse: Parser, rule: UrlRule, k: string)
    requires k !in Collect(evs, parse, rule, UrlKind)
    ensures Collect(evs, parse, rule, EndpointOf(k)) == []
  {
    var c := Collect(evs, parse, rule, EndpointOf(k));
    if c != [] {
      CollectMeaning(evs, parse, rule, EndpointOf(k), c[0]);
      var i :| 0 <= i < |evs| && Project(evs[i], parse, rule, EndpointOf(k)) == Some(c[0]);
      CollectMeaning(evs, parse, rule, UrlKind, k);
      assert false;
    }
  }

  lemma DomainsStep(pre: seq<TrafficEvent>, e: TrafficEvent, parse: Parser, rule: UrlRule)
    ensures TallyOf(pre + [e], parse, rule).domains ==
      match EventUrl(e, parse, rule)
      case None => TallyOf(pre, parse, rule).domains
      case Some(u) => AddUnique(TallyOf(pre, parse, rule).domains, u.hostname)
  {
    CollectAppend(pre, e, parse, rule, Host);
    var h := Collect(pre, parse, rule, Host);
    match EventUrl(e, parse, rule)
    case None =>
      assert h + [] == h;
    case Some(u) =>
      DistinctAddUnique(h, u.hostname);
  }

  lemma EndpointKindsStep(pre: seq<TrafficEvent>, e: TrafficEvent, parse: Parser, rule: UrlRule)
    ensures TallyOf(pre + [e], parse, rule).endpointKinds ==
      var t := TallyOf(pre, parse, rule);
      match EventUrl(e, parse, rule)
      case None => t.endpointKinds
      case Some(_) => if e.kind in EndpointsOf(pre, parse, rule) then t.endpointKinds else t.endpointKinds + [e.kind]
  {
    var uk := Collect(pre, parse, rule, UrlKind);
    CollectAppend(pre, e, parse, rule, UrlKind);
    match EventUrl(e, parse, rule)
    case None =>
      assert uk + [] == uk;
    case Some(u) =>
      DistinctAddUnique(uk, e.kind);
      DistinctMembership(uk, e.kind);
  }

  /** The endpoints of the kinds other than the event's stay as they were. */
  lemma OtherEndpointsUnchanged(pre: seq<TrafficEvent>, e: TrafficEvent, parse: Parser, rule: UrlRule, k: string)
    requires k != e.kind || EventUrl(e, parse, rule).None?
    ensures Collect(pre + [e], parse, rule, EndpointOf(k)) == Collect(pre, parse, rule, EndpointOf(k))
  {
    CollectAppend(pre, e, parse, rule, EndpointOf(k));
    assert Collect(pre, parse, rule, EndpointOf(k)) + [] == Collect(pre, parse, rule, EndpointOf(k));
  }

  lemma OwnEndpointsStep(pre: seq<TrafficEvent>, e: TrafficEvent, parse: Parser, rule: UrlRule, u: ParsedUrl)
    requires EventUrl(e, parse, rule) == Some(u)
    ensures var m := EndpointsOf(pre, parse, rule);
      Distinct(Collect(pre + [e], parse, rule, EndpointOf(e.kind))) ==
        AddUnique(if e.kind in m then m[e.kind] else [], u.hostname + u.pathname)
  {
    var c := Collect(pre, parse, rule, EndpointOf(e.kind));
    var ep := u.hostname + u.pathname;
    assert Collect(pre + [e], parse, rule, EndpointOf(e.kind)) == c + [ep] by {
      CollectAppend(pre, e, parse, rule, EndpointOf(e.kind));
    }
    assert Distinct(c) == (var m := EndpointsOf(pre, parse, rule); if e.kind in m then m[e.kind] else []) by {
      if e.kind !in Collect(pre, parse, rule, UrlKind) {
        EndpointNeedsUrlKind(pre, parse, rule, e.kind);
      }
    }
    DistinctAddUnique(c, ep);
  }

  /** Keys of the endpoint table after one more event. */
  lemma EndpointKeysStep(pre: seq<TrafficEvent>, e: TrafficEvent, parse: Parser, rule: UrlRule)
    ensures EndpointsOf(pre + [e], parse, rule).Keys ==
      EndpointsOf(pre, parse, rule).Keys + (if EventUrl(e, parse, rule).Some? then {e.kind} else {})
  {
    var uk, uk' := Collect(pre, parse, rule, UrlKind), Collect(pre + [e], parse, rule, UrlKind);
    CollectAppend(pre, e, parse, rule, UrlKind);
    EndpointKeysAre(pre, parse, rule);
    EndpointKeysAre(pre + [e], parse, rule);
    if EventUrl(e, parse, rule).None? {
      assert uk' == uk;
    } else {
      ElementsSnoc(uk, uk', e.kind);
    }
  }

  lemma EndpointKeysAre(evs: seq<TrafficEvent>, parse: Parser, rule: UrlRule)
    ensures EndpointsOf(evs, parse, rule).Keys == set k | k in Collect(evs, parse, rule, UrlKind)
  {
  }

  lemma ElementsSnoc(s: seq<string>, s': seq<string>, x: string)
    requires s' == s + [x]
    ensures (set k | k in s') == (set k | k in s) + {x}
  {
  }

  /** An event whose URL did not parse leaves the endpoint table as it was. */
  lemma EndpointsStepNone(pre: seq<TrafficEvent>, e: TrafficEvent, parse: Parser, rule: UrlRule)
    requires EventUrl(e, parse, rule).None?
    ensures EndpointsOf(pre + [e], parse, rule) == EndpointsOf(pre, parse, rule)
  {
    var m, m' := EndpointsOf(pre, parse, rule), EndpointsOf(pre + [e], parse, rule);
    EndpointKeysStep(pre, e, parse, rule);
    forall k | k in m' ensures m'[k] == m[k] {
      OtherEndpointsUnchanged(pre, e, parse, rule, k);
    }
  }

  /** An event whose URL parsed adds its endpoint to its kind's list. */
  lemma EndpointsStepSome(pre: seq<TrafficEvent>, e: TrafficEvent, parse: Parser, rule: UrlRule, u: ParsedUrl)
    requires EventUrl(e, parse, rule) == Some(u)
    ensures var m := EndpointsOf(pre, parse, rule);
      EndpointsOf(pre + [e], parse, rule) ==
        m[e.kind := AddUnique(if e.kind in m then m[e.kind] else [], u.hostname + u.pathname)]
  {
    var m, m' := EndpointsOf(pre, parse, rule), EndpointsOf(pre + [e], parse, rule);
    var r := m[e.kind := AddUnique(if e.kind in m then m[e.kind] else [], u.hostname + u.pathname)];
    EndpointKeysStep(pre, e, parse, rule);
    forall k | k in m' ensures m'[k] == r[k] {
      if k == e.kind {
        OwnEndpointsStep(pre, e, parse, rule, u);
      } else {
        OtherEndpointsUnchanged(pre, e, parse, rule, k);
      }
    }
  }

  /** Folding the events one `Step` at a time yields the aggregates. */
  lemma TallyOfSnoc(pre: seq<TrafficEvent>, e: TrafficEvent, parse: Parser, rule: UrlRule)
    ensures TallyOf(pre + [e], parse, rule) == Step(TallyOf(pre, parse, rule), e, parse, rule)
  {
    KindsStep(pre, e, parse, rule);
    DomainsStep(pre, e, parse, rule);
    EndpointKindsStep(pre, e, parse, rule);
    match EventUrl(e, parse, rule)
    case None => EndpointsStepNone(pre, e, parse, rule);
    case Some(u) => EndpointsStepSome(pre, e, parse, rule, u);
  }

  /** The `forEach` callback: count the event's kind and, when its URL
      parses, add its hostname to the domains and its endpoint to its kind's
      endpoints (creating that kind's entry on first use). */
  method CountEvent(t: Tally, e: TrafficEvent, parse: Parser, rule: UrlRule) returns (t': Tally)
    ensures t' == Step(t, e, parse, rule)
  {
    var kinds, counts, domains, endpointKinds, endpoints :=
      t.kinds, t.counts, t.domains, t.endpointKinds, t.endpoints;
    if e.kind in counts {
      counts := counts[e.kind := counts[e.kind] + 1];
    } else {
      kinds := kinds + [e.kind];
      counts := counts[e.kind := 1];
    }
    var url := EventUrl(e, parse, rule);
    if url.Some? {
      var u := url.value;
      if u.hostname !in domains {
        domains := domains + [u.hostname];
      }
      if e.kind !in endpoints {
        endpointKinds := endpointKinds + [e.kind];
        endpoints := endpoints[e.kind := []];
      }
      var endpoint := u.hostname + u.pathname;
      if endpoint !in endpoints[e.kind] {
        endpoints := endpoints[e.kind := endpoints[e.kind] + [endpoint]];
      }
    }
    t' := Tally(kinds, counts, domains, endpointKinds, endpoints);
  }

  /** The `forEach` over the events, proved to compute `TallyOf`. */
  method TallyEvents(events: seq<TrafficEvent>, parse: Parser, rule: UrlRule) returns (t: Tally)
    ensures t == TallyOf(events, parse, rule)
  {
    t := Tally([], map[], [], [], map[]);
    for i := 0 to |events|
      invariant t == TallyOf(events[..i], parse, rule)
    {
      assert events[..i + 1] == events[..i] + [events[i]];
      TallyOfSnoc(events[..i], events[i], parse, rule);
      t := CountEvent(t, events[i], parse, rule);
    }
    assert events[..|events|] == events;
  }
  /** The kinds listed are the kinds of the events, each once. */
  lemma KindsMeaning(evs: seq<TrafficEvent>, parse: Parser, rule: UrlRule, x: string)
    ensures NoDuplicates(TallyOf(evs, parse, rule).kinds)
    ensures x in TallyOf(evs, parse, rule).kinds <==> exists i :: 0 <= i < |evs| && evs[i].kind == x
    ensures x in TallyOf(evs, parse, rule).counts <==> x in TallyOf(evs, parse, rule).kinds
  {
    DistinctMembership(Collect(evs, parse, rule, Kind), x);
    CollectMeaning(evs, parse, rule, Kind, x);
    assert forall i :: 0 <= i < |evs| ==> Project(evs[i], parse, rule, Kind) == Some(evs[i].kind);
  }

  /** One kind per event: the kind column is as long as the events. */
  lemma {:induction false} KindColumnLength(evs: seq<TrafficEvent>, parse: Parser, rule: UrlRule)
    ensures |Collect(evs, parse, rule, Kind)| == |evs|
  {
    if evs != [] {
      KindColumnLength(evs[..|evs| - 1], parse, rule);
    }
  }

  /** The histogram counts every event exactly once: its entries, over the
      listed kinds, add up to the total number of events. */
  lemma CountsAddUp(evs: seq<TrafficEvent>, parse: Parser, rule: UrlRule)
    ensures SumOver(TallyOf(evs, parse, rule).kinds, TallyOf(evs, parse, rule).counts) == |evs|
  {
    CountsSumToLength(Collect(evs, parse, rule, Kind));
    KindColumnLength(evs, parse, rule);
  }

  /** The domains are the hostnames of the event URLs that parsed, each once. */
  lemma DomainsMeaning(evs: seq<TrafficEvent>, parse: Parser, rule: UrlRule, d: string)
    ensures NoDuplicates(TallyOf(evs, parse, rule).domains)
    ensures d in TallyOf(evs, parse, rule).domains <==>
      exists i :: 0 <= i < |evs| && EventUrl(evs[i], parse, rule).Some? && EventUrl(evs[i], parse, rule).value.hostname == d
  {
    DistinctMembership(Collect(evs, parse, rule, Host), d);
    CollectMeaning(evs, parse, rule, Host, d);
  }

  /** True of an event of kind `k` whose URL parsed (to `ep`, when given). */
  predicate YieldsEndpoint(e: TrafficEvent, parse: Parser, rule: UrlRule, k: string, ep: Option<string>) {
    && e.kind == k
    && EventUrl(e, parse, rule).Some?
    && (ep.Some? ==> EventUrl(e, parse, rule).value.hostname + EventUrl(e, parse, rule).value.pathname == ep.value)
  }

  lemma ProjectEndpoint(e: TrafficEvent, parse: Parser, rule: UrlRule, k: string, ep: string)
    ensures Project(e, parse, rule, EndpointOf(k)) == Some(ep) <==> YieldsEndpoint(e, parse, rule, k, Some(ep))
  {
    match EventUrl(e, parse, rule)
    case None =>
    case Some(u) =>
      assert Project(e, parse, rule, EndpointOf(k)) == if e.kind == k then Some(u.hostname + u.pathname) else None;
  }

  /** A kind has an endpoint list iff one of its events had a URL that parsed. */
  lemma EndpointKeysMeaning(evs: seq<TrafficEvent>, parse: Parser, rule: UrlRule, k: string)
    ensures k in TallyOf(evs, parse, rule).endpoints <==>
      exists i :: 0 <= i < |evs| && YieldsEndpoint(evs[i], parse, rule, k, None)
  {
    CollectMeaning(evs, parse, rule, UrlKind, k);
    assert forall i :: 0 <= i < |evs| ==>
      (Project(evs[i], parse, rule, UrlKind) == Some(k) <==> YieldsEndpoint(evs[i], parse, rule, k, None));
  }

  /** A kind's endpoint list holds, each once, exactly the endpoints of its
      events whose URL parsed. */
  lemma EndpointListMeaning(evs: seq<TrafficEvent>, parse: Parser, rule: UrlRule, k: string, ep: string)
    requires k in TallyOf(evs, parse, rule).endpoints
    ensures NoDuplicates(TallyOf(evs, parse, rule).endpoints[k])
    ensures ep in TallyOf(evs, parse, rule).endpoints[k] <==>
      exists i :: 0 <= i < |evs| && YieldsEndpoint(evs[i], parse, rule, k, Some(ep))
  {
    var c := Collect(evs, parse, rule, EndpointOf(k));
    assert TallyOf(evs, parse, rule).endpoints[k] == Distinct(c);
    DistinctMembership(c, ep);
    CollectMeaning(evs, parse, rule, EndpointOf(k), ep);
    forall i | 0 <= i < |evs|
      ensures Project(evs[i], parse, rule, EndpointOf(k)) == Some(ep) <==> YieldsEndpoint(evs[i], parse, rule, k, Some(ep))
    {
      ProjectEndpoint(evs[i], parse, rule, k, ep);
    }
  }

  /** The key order of the endpoint table lists each of its keys once. */
  lemma EndpointKindsMeaning(evs: seq<TrafficEvent>, parse: Parser, rule: UrlRule, k: string)
    ensures NoDuplicates(TallyOf(evs, parse, rule).endpointKinds)
    ensures k in TallyOf(evs, parse, rule).endpointKinds <==> k in TallyOf(evs, parse, rule).endpoints
  {
    DistinctMembership(Collect(evs, parse, rule, UrlKind), k);
  }
}
