/** The already-parsed Postman collection (v2.0 / v2.1 shapes), one narrow type per
    field. JavaScript treats an absent string field and the empty string alike (both
    are falsy in every `x || default` and `if (x)` of the converter), so optional
    string fields are plain strings, with "" standing for "absent". */
module Collection {
  import opened Optional

  /** A `{key, value}` entry: a request header, or a parameter of an auth descriptor. */
  datatype KeyValue = KeyValue(key: string, value: string)

  /** `url.host`: an array of labels, or anything else (a string, or "" when absent). */
  datatype Host = HostParts(parts: seq<string>) | HostName(name: string)

  /** `request.url`: absent, a raw string, or the structured object. `path` is None
      when the field is not an array. */
  datatype Url =
    | NoUrl
    | RawUrl(text: string)
    | StructuredUrl(protocol: string, host: Host, path: Option<seq<string>>, port: string)

  /** `request.auth`, tagged by its `type`. Any other type (`noauth`, `apikey`, ...)
      is `OtherAuth`; an absent descriptor is `NoAuth`. */
  datatype Auth =
    | NoAuth
    | BearerAuth(bearer: seq<KeyValue>)
    | BasicAuth(basic: seq<KeyValue>)
    | OtherAuth(kind: string)

  /** `request.body`, tagged by its `mode`; `language` is `options.raw.language`. */
  datatype Body =
    | NoBody
    | RawBody(raw: string, language: string)
    | FormData
    | UrlEncoded
    | OtherBody(mode: string)

  /** The `request` object of an item; `verb` is its `method` field. */
  datatype HttpRequest = HttpRequest(verb: string, url: Url, header: seq<KeyValue>, auth: Auth, body: Body)

  /** An entry of an `item` array. An entry with an `item` field is a folder (even
      when it also has `request`); one with only `request` is a request; any other
      entry is `Other`. The loader decides this once. */
  datatype Node =
    | Folder(name: string, children: seq<Node>)
    | Request(name: string, request: HttpRequest)
    | Other

  /** A request together with the name of its immediate parent folder (None at top level). */
  datatype FlatRequest = FlatRequest(name: string, request: HttpRequest, folder: Option<string>)

  /** The root document: `info.name` and the top-level `item` array. */
  datatype PostmanCollection = PostmanCollection(name: string, items: seq<Node>)
}
