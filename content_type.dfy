/** `getContentType`: an explicit `Content-Type` header, else a type inferred from the
    body mode and raw language. */
module ContentType {
  import opened Optional
  import opened Text
  import opened Collection

  predicate IsContentTypeHeader(h: KeyValue)
  {
    Lower(h.key) == "content-type"
  }

  /** The value of the first `Content-Type` header (any letter case), even when empty. */
  function HeaderContentType(headers: seq<KeyValue>): Option<string>
  {
    if headers == [] then None
    else if IsContentTypeHeader(headers[0]) then Some(headers[0].value)
    else HeaderContentType(headers[1..])
  }

  /** The type implied by the body: a raw body's language (`json` when unset), or the
      form encodings. */
  function BodyContentType(body: Body): Option<string>
  {
    match body
    case RawBody(_, language) =>
      if language == "" || language == "json" then Some("application/json")
      else if language == "xml" then Some("application/xml")
      else None
    case FormData => Some("multipart/form-data")
    case UrlEncoded => Some("application/x-www-form-urlencoded")
    case _ => None
  }

  function ContentTypeOf(req: HttpRequest): Option<string>
  {
    var h := HeaderContentType(req.header);
    if h.Some? then h else BodyContentType(req.body)
  }

  /** `getContentType(request)`: the header loop returns on the first match; otherwise
      the body decides. */
  method GetContentType(req: HttpRequest) returns (contentType: Option<string>)
    ensures contentType == ContentTypeOf(req)
  {
    var headers := req.header;
    for i := 0 to |headers|
      invariant HeaderContentType(headers[i..]) == HeaderContentType(headers)
    {
      assert headers[i..][1..] == headers[i + 1..];
      if Lower(headers[i].key) == "content-type" {
        return Some(headers[i].value);
      }
    }
    assert headers[|headers|..] == [];
    match req.body
    case RawBody(_, language) => {
      var lang := if language == "" then "json" else language;
      if lang == "json" {
        return Some("application/json");
      }
      if lang == "xml" {
        return Some("application/xml");
      }
      return None;
    }
    case FormData => {
      return Some("multipart/form-data");
    }
    case UrlEncoded => {
      return Some("application/x-www-form-urlencoded");
    }
    case _ => {
      return None;
    }
  }

  /** The header scan returns the value of the first `Content-Type` header, and nothing
      exactly when there is none. */
  lemma {:induction false} HeaderContentTypeSpec(headers: seq<KeyValue>)
    ensures HeaderContentType(headers).None? <==> forall i :: 0 <= i < |headers| ==> !IsContentTypeHeader(headers[i])
    ensures forall i :: (0 <= i < |headers| && IsContentTypeHeader(headers[i])
                         && (forall j :: 0 <= j < i ==> !IsContentTypeHeader(headers[j]))) ==>
      HeaderContentType(headers) == Some(headers[i].value)
  {
    if headers != [] && !IsContentTypeHeader(headers[0]) {
      HeaderContentTypeSpec(headers[1..]);
      assert forall i :: 1 <= i < |headers| ==> headers[i] == headers[1..][i - 1];
      forall i | 0 <= i < |headers| && IsContentTypeHeader(headers[i])
          && (forall j :: 0 <= j < i ==> !IsContentTypeHeader(headers[j]))
        ensures HeaderContentType(headers) == Some(headers[i].value)
      {
        assert forall j :: 0 <= j < i - 1 ==> headers[1..][j] == headers[j + 1];
      }
    }
  }

  /** An explicit header wins over the body, whatever its value (an empty value then
      suppresses the content type altogether). */
  lemma HeaderWins(req: HttpRequest, i: nat)
    requires i < |req.header| && IsContentTypeHeader(req.header[i])
    requires forall j :: 0 <= j < i ==> !IsContentTypeHeader(req.header[j])
    ensures ContentTypeOf(req) == Some(req.header[i].value)
  {
    HeaderContentTypeSpec(req.header);
  }

  /** Without such a header, a content type is inferred exactly for raw JSON (also when
      the language is unset), raw XML, form data and URL-encoded bodies. */
  lemma InferredFromBody(req: HttpRequest)
    requires forall i :: 0 <= i < |req.header| ==> !IsContentTypeHeader(req.header[i])
    ensures ContentTypeOf(req).Some? <==>
      || (req.body.RawBody? && req.body.language in {"", "json", "xml"})
      || req.body.FormData? || req.body.UrlEncoded?
    ensures req.body.RawBody? && req.body.language == "xml" ==> ContentTypeOf(req) == Some("application/xml")
    ensures req.body.RawBody? && req.body.language in {"", "json"} ==> ContentTypeOf(req) == Some("application/json")
    ensures req.body.FormData? ==> ContentTypeOf(req) == Some("multipart/form-data")
    ensures req.body.UrlEncoded? ==> ContentTypeOf(req) == Some("application/x-www-form-urlencoded")
  {
    HeaderContentTypeSpec(req.header);
  }

  const MediaTypes: set<string> :=
    {"application/json", "application/xml", "multipart/form-data", "application/x-www-form-urlencoded"}

  /** Every inferred content type is one of the four fixed media types. */
  lemma InferredTypes(body: Body)
    ensures BodyContentType(body).Some? ==>
      BodyContentType(body).value in MediaTypes
  {
  }
}
