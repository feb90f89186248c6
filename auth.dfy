/** `extractBearerToken` and `extractAuth`: the credentials a generated test sends. */
module Auth {
  import opened Optional
  import opened Text
  import opened Collection

  /** The authentication a generated test configures. */
  datatype Credentials = Bearer(token: string) | Basic(username: string, password: string)

  /** A header named `Authorization` (any letter case) whose value starts with `bearer `
      (any letter case). */
  predicate IsBearerHeader(h: KeyValue)
  {
    Lower(h.key) == "authorization" && StartsWith(Lower(h.value), "bearer ")
  }

  /** The text after `Bearer ` in the first bearer header; None when there is none. */
  function BearerFromHeaders(headers: seq<KeyValue>): Option<string>
  {
    if headers == [] then None
    else if IsBearerHeader(headers[0]) then Some(headers[0].value[7..])
    else BearerFromHeaders(headers[1..])
  }

  /** `extractBearerToken(headers)`: the loop that returns on the first bearer header. */
  method ExtractBearerToken(headers: seq<KeyValue>) returns (token: Option<string>)
    ensures token == BearerFromHeaders(headers)
  {
    var i := 0;
    while i < |headers|
      invariant 0 <= i <= |headers|
      invariant BearerFromHeaders(headers[i..]) == BearerFromHeaders(headers)
    {
      var h := headers[i];
      assert headers[i..][1..] == headers[i + 1..];
      if Lower(h.key) == "authorization" {
        var value := h.value;
        if StartsWith(Lower(value), "bearer ") {
          return Some(value[7..]);
        }
      }
      i := i + 1;
    }
    return None;
  }

  /** `entries.find(e => e.key === key)`, then its value. */
  function FirstValue(entries: seq<KeyValue>, key: string): Option<string>
  {
    if entries == [] then None
    else if entries[0].key == key then Some(entries[0].value)
    else FirstValue(entries[1..], key)
  }

  /** `(found || {}).value || fallback`: a missing entry or an empty value gives the fallback. */
  function ValueOr(v: Option<string>, fallback: string): string
  {
    if v.Some? && v.value != "" then v.value else fallback
  }

  /** `extractAuth(request)`: the request's bearer or basic descriptor, else a bearer
      token taken from the headers. */
  function ExtractAuth(req: HttpRequest): Option<Credentials>
  {
    match req.auth
    case BearerAuth(entries) =>
      var entry := FirstValue(entries, "token");
      Some(Bearer(if entry.Some? then entry.value else "{{bearerToken}}"))
    case BasicAuth(entries) =>
      Some(Basic(ValueOr(FirstValue(entries, "username"), "{{username}}"),
                 ValueOr(FirstValue(entries, "password"), "{{password}}")))
    case _ =>
      var token := BearerFromHeaders(req.header);
      if token.Some? && token.value != "" then Some(Bearer(token.value)) else None
  }

  // ----- first-match characterisations -----

  /** The header scan returns the value of the first bearer header, minus its seven-character
      prefix, and nothing exactly when no header qualifies. */
  lemma {:induction false} BearerFromHeadersSpec(headers: seq<KeyValue>)
    ensures BearerFromHeaders(headers).None? <==> forall i :: 0 <= i < |headers| ==> !IsBearerHeader(headers[i])
    ensures BearerFromHeaders(headers).Some? ==>
      exists i :: 0 <= i < |headers| && IsBearerHeader(headers[i])
        && (forall j :: 0 <= j < i ==> !IsBearerHeader(headers[j]))
        && BearerFromHeaders(headers).value == headers[i].value[7..]
  {
    if headers != [] && !IsBearerHeader(headers[0]) {
      BearerFromHeadersSpec(headers[1..]);
      if BearerFromHeaders(headers).Some? {
        var i :| 0 <= i < |headers[1..]| && IsBearerHeader(headers[1..][i])
          && (forall j :: 0 <= j < i ==> !IsBearerHeader(headers[1..][j]))
          && BearerFromHeaders(headers[1..]).value == headers[1..][i].value[7..];
        assert headers[i + 1] == headers[1..][i];
        assert forall j :: 1 <= j < i + 1 ==> headers[j] == headers[1..][j - 1];
      }
      if forall i :: 0 <= i < |headers[1..]| ==> !IsBearerHeader(headers[1..][i]) {
        assert forall i :: 1 <= i < |headers| ==> headers[i] == headers[1..][i - 1];
      }
    }
  }

  /** Headers in front that are not bearer headers do not change the outcome. */
  lemma {:induction false} BearerSkipsOtherHeaders(before: seq<KeyValue>, after: seq<KeyValue>)
    requires forall i :: 0 <= i < |before| ==> !IsBearerHeader(before[i])
    ensures BearerFromHeaders(before + after) == BearerFromHeaders(after)
  {
    if before == [] {
      assert before + after == after;
    } else {
      assert (before + after)[0] == before[0];
      assert (before + after)[1..] == before[1..] + after;
      assert forall i :: 0 <= i < |before[1..]| ==> before[1..][i] == before[i + 1];
      BearerSkipsOtherHeaders(before[1..], after);
    }
  }

  /** `find` returns the value of the first entry with the key, and nothing exactly when
      no entry has it. */
  lemma {:induction false} FirstValueSpec(entries: seq<KeyValue>, key: string)
    ensures FirstValue(entries, key).None? <==> forall i :: 0 <= i < |entries| ==> entries[i].key != key
    ensures FirstValue(entries, key).Some? ==>
      exists i :: 0 <= i < |entries| && entries[i].key == key
        && (forall j :: 0 <= j < i ==> entries[j].key != key)
        && FirstValue(entries, key).value == entries[i].value
  {
    if entries != [] && entries[0].key != key {
      FirstValueSpec(entries[1..], key);
      if FirstValue(entries, key).Some? {
        var i :| 0 <= i < |entries[1..]| && entries[1..][i].key == key
          && (forall j :: 0 <= j < i ==> entries[1..][j].key != key)
          && FirstValue(entries[1..], key).value == entries[1..][i].value;
        assert entries[i + 1] == entries[1..][i];
      }
      if forall i :: 0 <= i < |entries[1..]| ==> entries[1..][i].key != key {
        assert forall i :: 1 <= i < |entries| ==> entries[i] == entries[1..][i - 1];
      }
    }
  }

  // ----- properties of extractAuth -----

  /** A bearer or basic descriptor wins over any header: the headers are not consulted. */
  lemma DescriptorIgnoresHeaders(req: HttpRequest, headers: seq<KeyValue>)
    requires req.auth.BearerAuth? || req.auth.BasicAuth?
    ensures ExtractAuth(req.(header := headers)) == ExtractAuth(req)
    ensures ExtractAuth(req).Some?
  {
  }

  /** A bearer descriptor without a `token` entry gives the `{{bearerToken}}` placeholder;
      with one, the value of the first such entry, even when empty. */
  lemma BearerDescriptorToken(req: HttpRequest)
    requires req.auth.BearerAuth?
    ensures (forall i :: 0 <= i < |req.auth.bearer| ==> req.auth.bearer[i].key != "token") ==>
      ExtractAuth(req) == Some(Bearer("{{bearerToken}}"))
    ensures forall i :: (0 <= i < |req.auth.bearer| && req.auth.bearer[i].key == "token"
                         && (forall j :: 0 <= j < i ==> req.auth.bearer[j].key != "token")) ==>
      ExtractAuth(req) == Some(Bearer(req.auth.bearer[i].value))
  {
    FirstValueSpec(req.auth.bearer, "token");
    FirstValueUnique(req.auth.bearer, "token");
  }

  /** The first entry with a key is unique: any index that is the first one with the key
      carries the value `FirstValue` returns. */
  lemma {:induction false} FirstValueUnique(entries: seq<KeyValue>, key: string)
    ensures forall i :: (0 <= i < |entries| && entries[i].key == key
                         && (forall j :: 0 <= j < i ==> entries[j].key != key)) ==>
      FirstValue(entries, key) == Some(entries[i].value)
  {
    if entries != [] && entries[0].key != key {
      FirstValueUnique(entries[1..], key);
      forall i | 0 <= i < |entries| && entries[i].key == key
          && (forall j :: 0 <= j < i ==> entries[j].key != key)
        ensures FirstValue(entries, key) == Some(entries[i].value)
      {
        assert entries[1..][i - 1] == entries[i];
        assert forall j :: 0 <= j < i - 1 ==> entries[1..][j] == entries[j + 1];
      }
    }
  }

  /** Basic credentials are never empty: a missing or empty user name or password becomes
      its `{{username}}` / `{{password}}` placeholder, and a non-empty one is used as it is. */
  lemma BasicNeverEmpty(req: HttpRequest)
    requires req.auth.BasicAuth?
    ensures ExtractAuth(req).Some? && ExtractAuth(req).value.Basic?
    ensures ExtractAuth(req).value.username != "" && ExtractAuth(req).value.password != ""
    ensures FirstValue(req.auth.basic, "username").None? ==> ExtractAuth(req).value.username == "{{username}}"
    ensures FirstValue(req.auth.basic, "password").None? ==> ExtractAuth(req).value.password == "{{password}}"
    ensures FirstValue(req.auth.basic, "username") == Some("") ==> ExtractAuth(req).value.username == "{{username}}"
    ensures FirstValue(req.auth.basic, "password") == Some("") ==> ExtractAuth(req).value.password == "{{password}}"
    ensures FirstValue(req.auth.basic, "username").Some? && FirstValue(req.auth.basic, "username").value != "" ==>
      ExtractAuth(req).value.username == FirstValue(req.auth.basic, "username").value
    ensures FirstValue(req.auth.basic, "password").Some? && FirstValue(req.auth.basic, "password").value != "" ==>
      ExtractAuth(req).value.password == FirstValue(req.auth.basic, "password").value
  {
  }

  /** Without a bearer or basic descriptor, the result is a bearer token exactly when the
      first bearer header carries a non-empty token, and that token is the result. */
  lemma HeaderFallbackIff(req: HttpRequest, t: string)
    requires !req.auth.BearerAuth? && !req.auth.BasicAuth?
    ensures ExtractAuth(req) == Some(Bearer(t)) <==> BearerFromHeaders(req.header) == Some(t) && t != ""
    ensures ExtractAuth(req).None? <==> BearerFromHeaders(req.header).None? || BearerFromHeaders(req.header) == Some("")
  {
  }

  /** A first bearer header whose value is exactly `Bearer ` yields no credentials, even
      when a later header carries a real token: the scan stops at the first bearer header. */
  lemma EmptyFirstTokenHidesLater(req: HttpRequest, before: seq<KeyValue>, k: string, later: seq<KeyValue>)
    requires !req.auth.BearerAuth? && !req.auth.BasicAuth?
    requires forall i :: 0 <= i < |before| ==> !IsBearerHeader(before[i])
    requires Lower(k) == "authorization"
    requires req.header == before + [KeyValue(k, "Bearer ")] + later
    ensures ExtractAuth(req).None?
  {
    assert before + [KeyValue(k, "Bearer ")] + later == before + ([KeyValue(k, "Bearer ")] + later);
    BearerSkipsOtherHeaders(before, [KeyValue(k, "Bearer ")] + later);
    assert Lower("Bearer ") == "bearer ";
    assert "Bearer "[7..] == "";
  }
}
