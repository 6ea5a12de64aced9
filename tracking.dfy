/** Tracking-parameter classification and the global tracking log
    (extension/background.js, `isTrackingParam`, `extractTrackingInfo`,
    `handleGoogleRequest`). */
module Tracking {
  import opened Wrappers
  import opened Strings
  import opened Seqs
  import opened Url

  /** Click and campaign identifiers of ad and analytics platforms, all lower case. */
  const KnownTrackingKeys: seq<string> :=
    ["gclid", "gbraid", "wbraid", "fbclid", "ttclid", "igshid",
     "mc_cid", "mc_eid", "yclid", "vero_id", "msclkid"]

  /** Capacity of the tracking log. */
  const MaxLogEntries: nat := 200

  /** The prefix test is case-sensitive, the closed set is matched on the lower-cased key. */
  predicate IsTrackingParam(key: string) {
    StartsWith(key, "utm_") || ToLower(key) in KnownTrackingKeys
  }

  /** A key is tracking iff it starts with exactly `utm_` or equals one of the
      known identifiers up to letter case. */
  lemma IsTrackingParamMeaning(key: string)
    ensures IsTrackingParam(key) <==>
      StartsWith(key, "utm_") || exists k :: k in KnownTrackingKeys && EqualsIgnoringCase(key, k)
  {
    forall k | k in KnownTrackingKeys
      ensures ToLower(key) == k <==> EqualsIgnoringCase(key, k)
    {
      ToLowerEqualsLowerWord(key, k);
    }
  }

  /** The `utm_` prefix is case-sensitive: `UTM_source` is not tracking. */
  lemma UtmPrefixIsCaseSensitive()
    ensures IsTrackingParam("utm_source")
    ensures !IsTrackingParam("UTM_source")
  {
    assert !StartsWith("UTM_source", "utm_") by {
      assert "UTM_source"[0] != "utm_"[0];
    }
    assert forall k :: k in KnownTrackingKeys ==> |k| < 10;
  }

  /** The known identifiers are matched ignoring case: `GCLID` is tracking. */
  lemma KnownKeysIgnoreCase()
    ensures IsTrackingParam("GCLID")
  {
    var l := ToLower("GCLID");
    assert l[0] == 'g' && l[1] == 'c' && l[2] == 'l' && l[3] == 'i' && l[4] == 'd';
    assert l == "gclid";
  }

  /** Some pair of `q` has key `k`. */
  predicate HasKey(q: seq<QueryPair>, k: string) {
    exists i :: 0 <= i < |q| && q[i].0 == k
  }

  /** `(k, v)` is the last pair of `q` with key `k`. */
  predicate LastPairFor(q: seq<QueryPair>, k: string, v: string) {
    exists i :: 0 <= i < |q| && q[i] == (k, v) && forall j :: i < j < |q| ==> q[j].0 != k
  }

  /** The `tracking` object: each tracking pair of the query assigned in turn,
      so a later occurrence of a key overwrites an earlier one. */
  function TrackingParams(q: seq<QueryPair>): map<string, string> {
    if q == [] then map[]
    else
      var m := TrackingParams(q[..|q| - 1]);
      if IsTrackingParam(q[|q| - 1].0) then m[q[|q| - 1].0 := q[|q| - 1].1] else m
  }

  lemma HasKeySnoc(q: seq<QueryPair>, k: string)
    requires q != []
    ensures HasKey(q, k) <==> HasKey(q[..|q| - 1], k) || q[|q| - 1].0 == k
  {
    var p := q[..|q| - 1];
    if HasKey(q, k) && q[|q| - 1].0 != k {
      var i :| 0 <= i < |q| && q[i].0 == k;
      assert p[i] == q[i];
    }
    if HasKey(p, k) {
      var i :| 0 <= i < |p| && p[i].0 == k;
      assert q[i] == p[i];
    }
  }

  /** The tracking object holds exactly the tracking keys present in the query. */
  lemma {:induction false} TrackingParamsKeys(q: seq<QueryPair>, k: string)
    ensures k in TrackingParams(q) <==> IsTrackingParam(k) && HasKey(q, k)
  {
    if q != [] {
      TrackingParamsKeys(q[..|q| - 1], k);
      HasKeySnoc(q, k);
    }
  }

  /** For a repeated key the value of its last occurrence wins. */
  lemma {:induction false} TrackingParamsLastWins(q: seq<QueryPair>, k: string)
    requires k in TrackingParams(q)
    ensures LastPairFor(q, k, TrackingParams(q)[k])
  {
    var p, last := q[..|q| - 1], q[|q| - 1];
    var v := TrackingParams(q)[k];
    TrackingParamsKeys(q, k);
    if last.0 == k && IsTrackingParam(k) {
      assert q[|q| - 1] == (k, v);
    } else {
      TrackingParamsLastWins(p, k);
      var i :| 0 <= i < |p| && p[i] == (k, v) && forall j :: i < j < |p| ==> p[j].0 != k;
      assert q[i] == p[i];
      assert forall j :: i < j < |q| ==> q[j].0 != k by {
        forall j | i < j < |q| ensures q[j].0 != k {
          if j < |p| { assert q[j] == p[j]; }
        }
      }
    }
  }

  /** The query pairs that survive into the clean URL: the non-tracking ones, in order. */
  function KeptPairs(q: seq<QueryPair>): (r: seq<QueryPair>)
    ensures |r| <= |q|
    ensures forall p :: p in r <==> p in q && !IsTrackingParam(p.0)
  {
    if q == [] then []
    else (if IsTrackingParam(q[0].0) then [] else [q[0]]) + KeptPairs(q[1..])
  }

  /** Filtering distributes over concatenation, so the kept pairs keep their relative order. */
  lemma {:induction false} KeptPairsAppend(a: seq<QueryPair>, b: seq<QueryPair>)
    ensures KeptPairs(a + b) == KeptPairs(a) + KeptPairs(b)
    decreases |a|
  {
    if a == [] {
      assert a + b == b;
    } else {
      assert (a + b)[0] == a[0];
      assert (a + b)[1..] == a[1..] + b;
      KeptPairsAppend(a[1..], b);
    }
  }

  /** Cleaning a cleaned query changes nothing. */
  lemma {:induction false} KeptPairsIdempotent(q: seq<QueryPair>)
    ensures KeptPairs(KeptPairs(q)) == KeptPairs(q)
  {
    if q != [] {
      KeptPairsIdempotent(q[1..]);
      var head := if IsTrackingParam(q[0].0) then [] else [q[0]];
      KeptPairsAppend(head, KeptPairs(q[1..]));
      assert KeptPairs(head) == head;
    }
  }

  /** A cleaned query has no tracking parameters left. */
  lemma NoTrackingAfterCleaning(q: seq<QueryPair>)
    ensures TrackingParams(KeptPairs(q)) == map[]
  {
    var r := KeptPairs(q);
    forall k ensures k !in TrackingParams(r) {
      TrackingParamsKeys(r, k);
      assert forall i :: 0 <= i < |r| ==> r[i] in r;
    }
  }

  /** What `extractTrackingInfo` returns. */
  datatype TrackingInfo = TrackingInfo(
    originalUrl: string,
    cleanUrl: string,
    trackingParams: map<string, string>,
    destinationOrigin: string)

  /** `extractTrackingInfo` returns `null` for an unparsable URL; building the
      clean URL from `origin + pathname` is outside the `try` and may throw. */
  datatype Extraction = NotAUrl | Threw | Extracted(info: TrackingInfo)

  /** The URL the parser gives back for `origin + pathname`, when it round-trips. */
  function BaseOf(u: ParsedUrl): ParsedUrl {
    ParsedUrl(u.origin, u.hostname, u.pathname, [], "")
  }

  /** The clean URL: the same origin and path, the non-tracking pairs, no fragment. */
  function CleanOf(u: ParsedUrl): ParsedUrl {
    BaseOf(u).(query := KeptPairs(u.query))
  }

  /** The parser reads `origin + pathname` of `u` back as `u` without query and fragment. */
  predicate ParsesBack(parse: Parser, u: ParsedUrl) {
    parse(u.origin + u.pathname) == Some(BaseOf(u))
  }

  function ExtractTrackingInfo(parse: Parser, rawUrl: string): (r: Extraction)
    ensures r.NotAUrl? <==> parse(rawUrl).None?
    ensures r.Threw? <==>
      parse(rawUrl).Some? && parse(parse(rawUrl).value.origin + parse(rawUrl).value.pathname).None?
    ensures r.Extracted? ==>
      var u := parse(rawUrl).value;
      && r.info.originalUrl == rawUrl
      && r.info.trackingParams == TrackingParams(u.query)
    ensures parse(rawUrl).Some? && ParsesBack(parse, parse(rawUrl).value) ==>
      var u := parse(rawUrl).value;
      && r.Extracted?
      && r.info.cleanUrl == Href(CleanOf(u))
      && r.info.destinationOrigin == u.origin
  {
    match parse(rawUrl)
    case None => NotAUrl
    case Some(u) =>
      match parse(u.origin + u.pathname)
      case None => Threw
      case Some(base) =>
        var clean := base.(query := base.query + KeptPairs(u.query));
        assert base.query == [] ==> clean.query == KeptPairs(u.query);
        Extracted(TrackingInfo(rawUrl, Href(clean), TrackingParams(u.query), clean.origin))
  }

  /** Extracting from a clean URL finds no tracking parameters and gives the
      same clean URL back, provided the parser reads the clean URL back. */
  lemma CleaningIsIdempotent(parse: Parser, rawUrl: string)
    requires parse(rawUrl).Some? && ParsesBack(parse, parse(rawUrl).value)
    requires parse(Href(CleanOf(parse(rawUrl).value))) == Some(CleanOf(parse(rawUrl).value))
    ensures
      var clean := ExtractTrackingInfo(parse, rawUrl).info.cleanUrl;
      var again := ExtractTrackingInfo(parse, clean);
      again.Extracted? && again.info.trackingParams == map[] && again.info.cleanUrl == clean
  {
    var u := parse(rawUrl).value;
    var c := CleanOf(u);
    assert ParsesBack(parse, c);
    NoTrackingAfterCleaning(u.query);
    KeptPairsIdempotent(u.query);
    assert CleanOf(c) == c;
  }

  /** One entry of the tracking log: `{time, ...info}`. */
  datatype LogEntry = LogEntry(time: int, info: TrackingInfo)

  /** The log after a hit: unchanged unless extraction succeeded with at least one
      tracking parameter; otherwise the entry is appended and the oldest entries
      are dropped down to the capacity. */
  function LogAfterHit(log: seq<LogEntry>, x: Extraction, now: int): seq<LogEntry> {
    if x.Extracted? && x.info.trackingParams != map[] then
      TakeLast(log + [LogEntry(now, x.info)], MaxLogEntries)
    else log
  }

  /** `handleGoogleRequest` on the stored log: extraction, the emptiness test,
      `push` and the `while (log.length > MAX) log.shift()` loop. */
  method HandleGoogleRequest(log: seq<LogEntry>, parse: Parser, url: string, now: int)
    returns (r: seq<LogEntry>)
    ensures r == LogAfterHit(log, ExtractTrackingInfo(parse, url), now)
  {
    var x := ExtractTrackingInfo(parse, url);
    if !x.Extracted? || x.info.trackingParams == map[] {
      return log;
    }
    var whole := log + [LogEntry(now, x.info)];
    r := whole;
    while |r| > MaxLogEntries
      invariant r == whole[|whole| - |r|..]
      invariant |r| >= (if |whole| <= MaxLogEntries then |whole| else MaxLogEntries)
    {
      r := r[1..];
    }
  }

  /** The log grows by the new entry at the end, drops only from the front,
      never exceeds the capacity, and a miss leaves it unchanged. */
  lemma LogAfterHitProperties(log: seq<LogEntry>, x: Extraction, now: int)
    ensures !x.Extracted? || x.info.trackingParams == map[] ==> LogAfterHit(log, x, now) == log
    ensures x.Extracted? && x.info.trackingParams != map[] ==>
      var r := LogAfterHit(log, x, now);
      && r != [] && r[|r| - 1] == LogEntry(now, x.info)
      && |r| == (if |log| < MaxLogEntries then |log| + 1 else MaxLogEntries)
      && r[..|r| - 1] == log[|log| + 1 - |r|..]
  {
  }
}
