/** The popup's summary helpers (extension/popup.js): `formatDuration` and
    the unique-domain count of `refreshTrafficSummary`. */
module Popup {
  import opened Wrappers
  import opened Strings
  import opened Seqs
  import opened Url
  import opened Events
  import opened Summary

  /** The three shapes `formatDuration` prints. */
  datatype Duration =
    | Seconds(s: nat)
    | MinutesSeconds(m: nat, s: nat)
    | HoursMinutes(h: nat, m: nat)

  /** The whole units `formatDuration` prints for `ms`, all by floor division. */
  function SplitDuration(ms: int): (d: Duration)
    ensures ms <= 0 ==> d == Seconds(0)
    ensures ms > 0 ==> match d
      case Seconds(s) => s == ms / 1000 && s < 60
      case MinutesSeconds(m, s) => m * 60 + s == ms / 1000 && 1 <= m < 60 && s < 60
      case HoursMinutes(h, m) => h * 60 + m == ms / 60000 && 1 <= h && m < 60
  {
    if ms <= 0 then Seconds(0)
    else
      var totalSeconds := ms / 1000;
      if totalSeconds < 60 then Seconds(totalSeconds)
      else
        var minutes := totalSeconds / 60;
        if minutes < 60 then MinutesSeconds(minutes, totalSeconds % 60)
        else
          assert minutes == ms / 60000 by { MinutesOfMillis(ms); }
          HoursMinutes(minutes / 60, minutes % 60)
  }

  /** Whole minutes of `ms` milliseconds, via whole seconds or directly. */
  lemma MinutesOfMillis(ms: nat)
    ensures ms / 1000 / 60 == ms / 60000
  {
    var q, r := ms / 1000, ms % 1000;
    var q2, r2 := q / 60, q % 60;
    assert ms == 60000 * q2 + (1000 * r2 + r);
    assert 0 <= 1000 * r2 + r < 60000;
  }

  function DurationText(d: Duration): string {
    match d
    case Seconds(s) => NatToString(s) + "s"
    case MinutesSeconds(m, s) => NatToString(m) + "m " + NatToString(s) + "s"
    case HoursMinutes(h, m) => NatToString(h) + "h " + NatToString(m) + "m"
  }

  /** `formatDuration(ms)`; a zero or negative duration prints `0s`. */
  function FormatDuration(ms: int): string {
    DurationText(SplitDuration(ms))
  }

  /** No elapsed time, or a clock that went backwards, prints `0s`. */
  lemma FormatDurationNonPositive(ms: int)
    requires ms <= 0
    ensures FormatDuration(ms) == "0s"
  {
    assert NatToString(0) == "0";
  }

  /** Reads a printed duration back. */
  function ParseDuration(text: string): Option<Duration> {
    match SplitAt(text, ' ')
    case None =>
      if text != [] && text[|text| - 1] == 's' && ParseNat(text[..|text| - 1]).Some? then
        Some(Seconds(ParseNat(text[..|text| - 1]).value))
      else None
    case Some((a, b)) => ParsePair(a, b)
  }

  /** Reads `<x>m <y>s` or `<x>h <y>m`, split at the space. */
  function ParsePair(a: string, b: string): Option<Duration> {
    if a == [] || b == [] then None
    else
      var x, y := ParseNat(a[..|a| - 1]), ParseNat(b[..|b| - 1]);
      if x.None? || y.None? then None
      else if a[|a| - 1] == 'm' && b[|b| - 1] == 's' then Some(MinutesSeconds(x.value, y.value))
      else if a[|a| - 1] == 'h' && b[|b| - 1] == 'm' then Some(HoursMinutes(x.value, y.value))
      else None
  }

  /** A number followed by a unit letter reads back as the number. */
  lemma NumberWithUnit(n: nat, unit: char)
    ensures var t := NatToString(n) + [unit];
      t != [] && t[|t| - 1] == unit && t[..|t| - 1] == NatToString(n) && ParseNat(t[..|t| - 1]) == Some(n)
  {
    NatToStringRoundTrip(n);
    var t := NatToString(n) + [unit];
    assert t[..|t| - 1] == NatToString(n);
  }

  /** Two numbers with unit letters, joined by a space, split back apart. */
  lemma PairText(x: nat, u: char, y: nat, v: char)
    requires u != ' '
    ensures var a, b := NatToString(x) + [u], NatToString(y) + [v];
      && SplitAt(a + [' '] + b, ' ') == Some((a, b))
      && a != [] && a[|a| - 1] == u && ParseNat(a[..|a| - 1]) == Some(x)
      && b != [] && b[|b| - 1] == v && ParseNat(b[..|b| - 1]) == Some(y)
  {
    NumberWithUnit(x, u);
    NumberWithUnit(y, v);
    var a, b := NatToString(x) + [u], NatToString(y) + [v];
    assert ' ' !in a;
    SplitAtConcat(a, ' ', b);
  }

  lemma SecondsRoundTrip(s: nat)
    ensures ParseDuration(DurationText(Seconds(s))) == Some(Seconds(s))
  {
    NumberWithUnit(s, 's');
    assert DurationText(Seconds(s)) == NatToString(s) + ['s'];
    assert ' ' !in NatToString(s) + ['s'];
  }

  lemma JoinUnits(x: string, u: char, y: string, v: char)
    ensures x + [u, ' '] + y + [v] == (x + [u]) + [' '] + (y + [v])
  {
  }

  lemma MinutesSecondsRoundTrip(m: nat, s: nat)
    ensures ParseDuration(DurationText(MinutesSeconds(m, s))) == Some(MinutesSeconds(m, s))
  {
    var a, b := NatToString(m) + ['m'], NatToString(s) + ['s'];
    PairText(m, 'm', s, 's');
    JoinUnits(NatToString(m), 'm', NatToString(s), 's');
    assert ParsePair(a, b) == Some(MinutesSeconds(m, s));
  }

  lemma HoursMinutesRoundTrip(h: nat, m: nat)
    ensures ParseDuration(DurationText(HoursMinutes(h, m))) == Some(HoursMinutes(h, m))
  {
    var a, b := NatToString(h) + ['h'], NatToString(m) + ['m'];
    PairText(h, 'h', m, 'm');
    JoinUnits(NatToString(h), 'h', NatToString(m), 'm');
    assert ParsePair(a, b) == Some(HoursMinutes(h, m));
  }

  /** The printed duration determines the split: reading it back gives the
      units that were printed. */
  lemma DurationTextRoundTrip(d: Duration)
    ensures ParseDuration(DurationText(d)) == Some(d)
  {
    match d
    case Seconds(s) => SecondsRoundTrip(s);
    case MinutesSeconds(m, s) => MinutesSecondsRoundTrip(m, s);
    case HoursMinutes(h, m) => HoursMinutesRoundTrip(h, m);
  }

  lemma FormatDurationRoundTrip(ms: int)
    ensures ParseDuration(FormatDuration(ms)) == Some(SplitDuration(ms))
  {
    DurationTextRoundTrip(SplitDuration(ms));
  }

  /** Two durations print the same exactly when they split into the same units. */
  lemma FormatDurationInjective(a: int, b: int)
    ensures FormatDuration(a) == FormatDuration(b) <==> SplitDuration(a) == SplitDuration(b)
  {
    FormatDurationRoundTrip(a);
    FormatDurationRoundTrip(b);
  }

  /** The hostnames of the events whose URL parses. */
  function HostSet(events: seq<TrafficEvent>, parse: Parser): set<string> {
    set i | 0 <= i < |events| && EventUrl(events[i], parse, AnyUrl).Some? :: EventUrl(events[i], parse, AnyUrl).value.hostname
  }

  /** The `domains` set of `refreshTrafficSummary` and its size. */
  method CountUniqueDomains(events: seq<TrafficEvent>, parse: Parser) returns (n: nat)
    ensures n == |HostSet(events, parse)|
  {
    var domains: set<string> := {};
    for i := 0 to |events|
      invariant domains == HostSet(events[..i], parse)
    {
      var e := events[i];
      if Truthy(e.url) {
        var u := parse(e.url.value);
        if u.Some? {
          domains := domains + {u.value.hostname};
        }
      }
      HostSetSnoc(events, i, parse);
    }
    assert events[..|events|] == events;
    n := |domains|;
  }

  lemma HostSetSnoc(events: seq<TrafficEvent>, i: nat, parse: Parser)
    requires i < |events|
    ensures HostSet(events[..i + 1], parse) ==
      HostSet(events[..i], parse) +
      (if EventUrl(events[i], parse, AnyUrl).Some? then {EventUrl(events[i], parse, AnyUrl).value.hostname} else {})
  {
    var p, q := events[..i], events[..i + 1];
    assert forall j :: 0 <= j < i ==> q[j] == p[j];
    assert q[i] == events[i];
  }

  /** The popup's count agrees with the number of domains the background
      analysis lists. */
  lemma UniqueDomainsAgree(events: seq<TrafficEvent>, parse: Parser)
    ensures |HostSet(events, parse)| == |TallyOf(events, parse, AnyUrl).domains|
  {
    var h := Collect(events, parse, AnyUrl, Host);
    DistinctCardinality(h);
    forall d ensures d in HostSet(events, parse) <==> d in h {
      CollectMeaning(events, parse, AnyUrl, Host, d);
    }
    assert HostSet(events, parse) == set x | x in h;
  }
}
