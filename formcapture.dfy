/** The content script (extension/contentScript.js): form submissions turned
    into redacted `form_submit` payloads, and the filter on messages posted
    by the page. */
module FormCapture {
  import opened Wrappers
  import opened Strings
  import opened Events

  const Redacted: string := "<redacted>"
  const MaxValueLength: nat := 100

  /** The lower-case words that mark a field name as sensitive. */
  const SensitiveWords: seq<string> := ["password", "ssn", "card", "secret"]

  /** The field name, lower-cased, contains one of the sensitive words. */
  predicate IsSensitive(name: string) {
    exists i :: 0 <= i < |SensitiveWords| && Contains(ToLower(name), SensitiveWords[i])
  }

  /** What is stored for a field: the placeholder for a sensitive name, and
      otherwise the first 100 characters of the value. */
  function RedactValue(name: string, value: string): (r: string)
    ensures IsSensitive(name) ==> r == Redacted
    ensures !IsSensitive(name) ==> r == if |value| <= MaxValueLength then value else value[..MaxValueLength]
    ensures |r| <= MaxValueLength
  {
    if IsSensitive(name) then Redacted
    else if |value| <= MaxValueLength then value
    else value[..MaxValueLength]
  }

  lemma ToLowerConcat(a: string, b: string)
    ensures ToLower(a + b) == ToLower(a) + ToLower(b)
  {
  }

  /** A name holding a sensitive word in any letter case is sensitive:
      `User_PassWord` is redacted just as `password` is. */
  lemma SensitiveWordAnywhere(a: string, w: string, b: string, i: nat)
    requires i < |SensitiveWords| && EqualsIgnoringCase(w, SensitiveWords[i])
    ensures IsSensitive(a + w + b)
  {
    ToLowerEqualsLowerWord(w, SensitiveWords[i]);
    ToLowerConcat(a + w, b);
    ToLowerConcat(a, w);
    ContainsInfix(ToLower(a), SensitiveWords[i], ToLower(b));
  }

  /** `User_PASSWORD` is a sensitive name. */
  lemma UpperCasePasswordRedacted(value: string)
    ensures RedactValue("User_PASSWORD", value) == Redacted
  {
    assert "User_PASSWORD" == "User_" + "PASSWORD" + "";
    SensitiveWordAnywhere("User_", "PASSWORD", "", 0);
  }

  /** A value that is not redacted is a prefix of the submitted value, and
      the whole of it when it has at most 100 characters. */
  lemma KeptValueIsPrefix(name: string, value: string)
    requires !IsSensitive(name)
    ensures var r := RedactValue(name, value);
      r <= value && (|value| <= MaxValueLength ==> r == value)
  {
  }

  /** The one name a plain `{}` does not store: assigning a string to
      `fields["__proto__"]` goes to the inherited prototype setter, which
      ignores anything but an object, so such a field is dropped. */
  const ProtoKey: string := "__proto__"

  /** The `fields` object after the `fd.forEach` loop over the form's
      entries in order: a later entry with the same name overwrites, and an
      entry named `__proto__` leaves the object as it was. */
  function FieldsOf(entries: seq<(string, string)>): map<string, string> {
    if entries == [] then map[]
    else
      var last := entries[|entries| - 1];
      var before := FieldsOf(entries[..|entries| - 1]);
      if last.0 == ProtoKey then before else before[last.0 := RedactValue(last.0, last.1)]
  }

  /** The `fd.forEach((value, key) => ...)` loop. */
  method CaptureFields(entries: seq<(string, string)>) returns (fields: map<string, string>)
    ensures fields == FieldsOf(entries)
  {
    fields := map[];
    for i := 0 to |entries|
      invariant fields == FieldsOf(entries[..i])
    {
      var (key, value) := entries[i];
      assert entries[..i + 1][..i] == entries[..i];
      if key != ProtoKey {
        fields := fields[key := RedactValue(key, value)];
      }
    }
    assert entries[..|entries|] == entries;
  }

  /** The captured keys are exactly the submitted names other than `__proto__`. */
  lemma {:induction false} FieldsKeys(entries: seq<(string, string)>)
    ensures FieldsOf(entries).Keys == set i | 0 <= i < |entries| && entries[i].0 != ProtoKey :: entries[i].0
  {
    if entries != [] {
      var p := entries[..|entries| - 1];
      FieldsKeys(p);
      assert forall i :: 0 <= i < |p| ==> p[i] == entries[i];
    }
  }

  /** For a repeated name the last entry wins: each name but `__proto__`
      holds the redacted form of its last submitted value, and `__proto__`
      is not captured at all. */
  lemma {:induction false} FieldsLastWins(entries: seq<(string, string)>, i: nat)
    requires i < |entries|
    requires forall j :: i < j < |entries| ==> entries[j].0 != entries[i].0
    ensures entries[i].0 != ProtoKey ==>
      entries[i].0 in FieldsOf(entries) &&
      FieldsOf(entries)[entries[i].0] == RedactValue(entries[i].0, entries[i].1)
    ensures entries[i].0 == ProtoKey ==> entries[i].0 !in FieldsOf(entries)
  {
    var p := entries[..|entries| - 1];
    if entries[i].0 == ProtoKey {
      FieldsKeys(entries);
    } else if i < |p| {
      assert p[i] == entries[i];
      FieldsLastWins(p, i);
    }
  }

  /** Every captured value is the placeholder or at most 100 characters of
      a value submitted under that name; sensitive names are always redacted. */
  lemma {:induction false} FieldsRedacted(entries: seq<(string, string)>, k: string)
    requires k in FieldsOf(entries)
    ensures IsSensitive(k) ==> FieldsOf(entries)[k] == Redacted
    ensures !IsSensitive(k) ==>
      |FieldsOf(entries)[k]| <= MaxValueLength &&
      exists i :: 0 <= i < |entries| && entries[i].0 == k && FieldsOf(entries)[k] <= entries[i].1
  {
    var p, last := entries[..|entries| - 1], entries[|entries| - 1];
    if last.0 != k || k == ProtoKey {
      FieldsRedacted(p, k);
      if !IsSensitive(k) {
        var i :| 0 <= i < |p| && p[i].0 == k && FieldsOf(p)[k] <= p[i].1;
        assert entries[i] == p[i];
      }
    } else if !IsSensitive(k) {
      assert entries[|entries| - 1].0 == k;
    }
  }

  /** The payload sent for a submitted form: the form's `action` or else the
      page URL, the upper-cased method (`GET` when empty), the captured fields
      and the time of submission. */
  function FormSubmitPayload(action: Option<string>, httpMethod: Option<string>, pageUrl: string,
                             entries: seq<(string, string)>, now: int): TrafficEvent
  {
    TrafficEvent(
      kind := "form_submit",
      url := None,
      httpMethod := Some(ToUpper(if Truthy(httpMethod) then httpMethod.value else "GET")),
      resourceType := None,
      time := Some(now),
      timestamp := None,
      statusCode := None,
      statusLine := None,
      action := Some(if Truthy(action) then action.value else pageUrl),
      fields := Some(FieldsOf(entries)))
  }

  /** The submit listener: the fields loop, then the payload. */
  method OnSubmit(action: Option<string>, httpMethod: Option<string>, pageUrl: string,
                  entries: seq<(string, string)>, now: int) returns (payload: TrafficEvent)
    ensures payload == FormSubmitPayload(action, httpMethod, pageUrl, entries, now)
  {
    var fields := CaptureFields(entries);
    var m := if Truthy(httpMethod) then httpMethod.value else "GET";
    var a := if Truthy(action) then action.value else pageUrl;
    payload := TrafficEvent("form_submit", None, Some(ToUpper(m)), None, Some(now), None, None, None, Some(a), Some(fields));
  }

  predicate IsUpperCase(s: string) {
    forall i :: 0 <= i < |s| ==> !('a' <= s[i] <= 'z')
  }

  /** The payload is a `form_submit` event with an upper-case method, an
      action that is the form's own when it has one, and the time of submission. */
  lemma PayloadProperties(action: Option<string>, httpMethod: Option<string>, pageUrl: string,
                          entries: seq<(string, string)>, now: int)
    ensures var p := FormSubmitPayload(action, httpMethod, pageUrl, entries, now);
      && p.kind == "form_submit"
      && p.httpMethod.Some? && IsUpperCase(p.httpMethod.value)
      && (!Truthy(httpMethod) ==> p.httpMethod == Some("GET"))
      && (Truthy(httpMethod) ==> EqualsIgnoringCase(p.httpMethod.value, httpMethod.value))
      && p.action == Some(if Truthy(action) then action.value else pageUrl)
      && p.fields.Some? && p.fields.value.Keys == (set i | 0 <= i < |entries| && entries[i].0 != ProtoKey :: entries[i].0)
      && p.time == Some(now)
  {
    FieldsKeys(entries);
    var p := FormSubmitPayload(action, httpMethod, pageUrl, entries, now);
    assert p.httpMethod == Some(ToUpper("GET")) || Truthy(httpMethod);
    if !Truthy(httpMethod) {
      assert ToUpper("GET") == "GET";
    }
  }

  /* ---------- page messages ---------- */

  /** The `data` of a window message: its `source` tag and the event it describes. */
  datatype PageMessage = PageMessage(source: Option<string>, event: TrafficEvent)

  /** The source tags accepted from the page: the old name and the new one. */
  predicate AcceptedSource(source: Option<string>) {
    source == Some("privacy-lens") || source == Some("webtrafficmonitor")
  }

  /** The window `message` listener: the payload forwarded as a `page_event`, if any. */
  function Forwarded(fromSameWindow: bool, data: Option<PageMessage>): (r: Option<TrafficEvent>)
    ensures r.Some? <==> fromSameWindow && data.Some? && AcceptedSource(data.value.source)
    ensures r.Some? ==> r.value == data.value.event
  {
    if !fromSameWindow then None
    else if data.None? || !AcceptedSource(data.value.source) then None
    else Some(data.value.event)
  }
}
