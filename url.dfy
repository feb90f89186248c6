/** `resolveUrl`: the base origin and the request path of a Postman URL, and the
    `{{variable}}` substitution applied to raw URL text before it is parsed. */
module UrlResolve {
  import opened Optional
  import opened Text
  import opened Collection

  /** The parts of a WHATWG URL the resolver reads: `protocol` ends with `:`, `host`
      includes a non-default port, `search` is empty or starts with `?`. */
  datatype ParsedUrl = ParsedUrl(protocol: string, host: string, pathname: string, search: string)

  datatype Resolved = Resolved(baseUri: string, path: string)

  /** Length of the longest prefix of `s` without `}`. */
  function NonBraceRun(s: string): (n: nat)
    ensures n <= |s|
  {
    if s == [] || s[0] == '}' then 0 else 1 + NonBraceRun(s[1..])
  }

  /** A whole match of `\{\{[^}]+\}\}`: two opening braces, at least one character other
      than `}`, two closing braces. */
  predicate IsTemplate(t: string)
  {
    && |t| >= 5
    && t[0] == '{' && t[1] == '{'
    && t[|t| - 2] == '}' && t[|t| - 1] == '}'
    && forall k :: 2 <= k < |t| - 2 ==> t[k] != '}'
  }

  /** Length of the template match at the start of `s`, if there is one. */
  function MatchTemplate(s: string): (m: Option<nat>)
    ensures m.Some? ==> 5 <= m.value <= |s|
  {
    if |s| >= 2 && s[0] == '{' && s[1] == '{' then
      var n := NonBraceRun(s[2..]);
      if n >= 1 && n + 3 < |s| && s[n + 3] == '}' then Some(n + 4) else None
    else None
  }

  /** `s.replace(/\{\{[^}]+\}\}/g, 'placeholder')`: left to right, every match replaced,
      scanning resumes after it. */
  function SubstituteTemplates(s: string): string
    decreases |s|
  {
    if s == [] then []
    else match MatchTemplate(s)
      case Some(k) => "placeholder" + SubstituteTemplates(s[k..])
      case None => [s[0]] + SubstituteTemplates(s[1..])
  }

  /** `(protocol || 'https').replace(/:$/, '')`. */
  function SchemeOf(protocol: string): string
  {
    var p := if protocol == "" then "https" else protocol;
    if p[|p| - 1] == ':' then p[..|p| - 1] else p
  }

  /** A host array joined with dots, or the host string, `localhost` when empty. */
  function HostText(h: Host): string
  {
    match h
    case HostParts(parts) => Join(parts, ".")
    case HostName(name) => if name == "" then "localhost" else name
  }

  function PortSuffix(port: string): string
  {
    if port == "" then "" else ":" + port
  }

  /** A path array joined with slashes; a missing or non-array path counts as empty. */
  function PathText(path: Option<seq<string>>): string
  {
    "/" + Join(if path.Some? then path.value else [], "/")
  }

  /** `resolveUrl(urlObj)`. `parse` stands for the WHATWG `URL` constructor: `None` when
      it throws. */
  function ResolveUrl(u: Url, parse: string -> Option<ParsedUrl>): Resolved
  {
    match u
    case NoUrl => Resolved("http://localhost", "/")
    case RawUrl(text) =>
      if text == "" then Resolved("http://localhost", "/")
      else
        (match parse(SubstituteTemplates(text))
         case Some(p) => Resolved(p.protocol + "//" + p.host, p.pathname + p.search)
         case None => Resolved("http://localhost", text))
    case StructuredUrl(protocol, host, path, port) =>
      Resolved(SchemeOf(protocol) + "://" + HostText(host) + PortSuffix(port), PathText(path))
  }

  // ----- the template matcher is the regular expression -----

  lemma {:induction false} NonBraceRunSpec(s: string)
    ensures forall j :: 0 <= j < NonBraceRun(s) ==> s[j] != '}'
    ensures NonBraceRun(s) < |s| ==> s[NonBraceRun(s)] == '}'
  {
    if s != [] && s[0] != '}' {
      NonBraceRunSpec(s[1..]);
      assert forall j :: 1 <= j < NonBraceRun(s) ==> s[j] == s[1..][j - 1];
    }
  }

  lemma NonBraceRunExact(s: string, n: nat)
    requires n < |s| && s[n] == '}'
    requires forall j :: 0 <= j < n ==> s[j] != '}'
    ensures NonBraceRun(s) == n
  {
    NonBraceRunSpec(s);
  }

  /** A match of length `k` at the start of `s` exists exactly when the first `k`
      characters form a template; so the match, when there is one, is unique. */
  lemma TemplateMatchIff(s: string, k: nat)
    ensures MatchTemplate(s) == Some(k) <==> k <= |s| && IsTemplate(s[..k])
  {
    if |s| >= 2 {
      var t := s[2..];
      NonBraceRunSpec(t);
      if k <= |s| && IsTemplate(s[..k]) {
        assert forall j :: 0 <= j < k - 4 ==> t[j] == s[..k][j + 2];
        assert t[k - 4] == s[..k][k - 2];
        NonBraceRunExact(t, k - 4);
      }
      if MatchTemplate(s) == Some(k) {
        var n := NonBraceRun(t);
        assert forall j :: 2 <= j < k - 2 ==> s[..k][j] == t[j - 2];
      }
    }
  }

  // ----- substitution, piece by piece -----

  /** Text without an opening brace is copied unchanged, whatever follows it. */
  lemma {:induction false} SubstitutePlainPrefix(a: string, b: string)
    requires forall i :: 0 <= i < |a| ==> a[i] != '{'
    ensures SubstituteTemplates(a + b) == a + SubstituteTemplates(b)
  {
    if a == [] {
      assert a + b == b;
    } else {
      assert (a + b)[1..] == a[1..] + b;
      SubstitutePlainPrefix(a[1..], b);
    }
  }

  /** A template at the front becomes `placeholder`; scanning goes on after it. */
  lemma SubstituteTemplateFront(name: string, rest: string)
    requires name != []
    requires forall i :: 0 <= i < |name| ==> name[i] != '}'
    ensures SubstituteTemplates("{{" + name + "}}" + rest) == "placeholder" + SubstituteTemplates(rest)
  {
    var s := "{{" + name + "}}" + rest;
    var k := |name| + 4;
    assert s[..k] == "{{" + name + "}}";
    TemplateMatchIff(s, k);
    assert s[k..] == rest;
  }

  /** Text without any opening brace is not changed at all. */
  lemma NoBraceUnchanged(s: string)
    requires forall i :: 0 <= i < |s| ==> s[i] != '{'
    ensures SubstituteTemplates(s) == s
  {
    SubstitutePlainPrefix(s, []);
    assert s + [] == s;
  }

  /** Two templates around text without braces, such as `{{baseUrl}}/users/{{id}}`: both
      templates become `placeholder` and the text between them is kept. */
  lemma SubstituteTwoTemplates(first: string, sep: string, second: string)
    requires first != [] && second != []
    requires forall i :: 0 <= i < |first| ==> first[i] != '}'
    requires forall i :: 0 <= i < |second| ==> second[i] != '}'
    requires forall i :: 0 <= i < |sep| ==> sep[i] != '{'
    ensures SubstituteTemplates("{{" + first + "}}" + (sep + ("{{" + second + "}}")))
      == "placeholder" + (sep + "placeholder")
  {
    var tail := "{{" + second + "}}";
    SubstituteTemplateFront(second, []);
    assert tail + [] == tail;
    assert "placeholder" + [] == "placeholder";
    SubstitutePlainPrefix(sep, tail);
    SubstituteTemplateFront(first, sep + tail);
  }

  // ----- resolution -----

  /** No URL, or an empty string, resolves to `http://localhost` and `/`. */
  lemma AbsentUrlIsLocalhost(parse: string -> Option<ParsedUrl>)
    ensures ResolveUrl(NoUrl, parse) == Resolved("http://localhost", "/")
    ensures ResolveUrl(RawUrl(""), parse) == Resolved("http://localhost", "/")
  {
  }

  /** A raw URL the parser accepts contributes its origin and its path with query; one it
      rejects is kept, unsubstituted, as the path under `http://localhost`. */
  lemma RawUrlCases(text: string, parse: string -> Option<ParsedUrl>)
    requires text != ""
    ensures parse(SubstituteTemplates(text)).None? ==>
      ResolveUrl(RawUrl(text), parse) == Resolved("http://localhost", text)
    ensures parse(SubstituteTemplates(text)).Some? ==>
      var p := parse(SubstituteTemplates(text)).value;
      ResolveUrl(RawUrl(text), parse).baseUri == p.protocol + "//" + p.host &&
      ResolveUrl(RawUrl(text), parse).path == p.pathname + p.search
  {
  }

  /** A missing protocol means `https`, and one trailing colon is ignored. */
  lemma SchemeDefaults(p: string)
    requires p != [] && p[|p| - 1] != ':'
    ensures SchemeOf("") == "https"
    ensures SchemeOf(p + ":") == p && SchemeOf(p) == p
  {
    assert (p + ":")[..|p|] == p;
  }

  /** The structured path always starts with `/`, and splitting the rest at `/` gives back
      the path array when it is non-empty and no element holds a slash. */
  lemma StructuredPathRecovers(parts: seq<string>)
    requires |parts| > 0
    requires forall k, j :: 0 <= k < |parts| && 0 <= j < |parts[k]| ==> parts[k][j] != '/'
    ensures PathText(Some(parts))[0] == '/'
    ensures Split(PathText(Some(parts))[1..], '/') == parts
  {
    var joined := Join(parts, "/");
    assert PathText(Some(parts))[1..] == joined;
    SplitJoin(parts, '/');
  }

  /** A missing or non-array path gives `/`. */
  lemma MissingPathIsRoot()
    ensures PathText(None) == "/" && PathText(Some([])) == "/"
  {
  }

  /** Splitting a joined host array at `.` gives back its labels. */
  lemma HostPartsRecover(parts: seq<string>)
    requires |parts| > 0
    requires forall k, j :: 0 <= k < |parts| && 0 <= j < |parts[k]| ==> parts[k][j] != '.'
    ensures Split(HostText(HostParts(parts)), '.') == parts
  {
    SplitJoin(parts, '.');
  }

  /** A structured URL resolves to the scheme, `://`, the host text and `:port` only when
      there is a port; a missing host string means `localhost`; the path is the joined
      path array. */
  lemma StructuredResolves(protocol: string, host: Host, path: Option<seq<string>>, port: string,
                           parse: string -> Option<ParsedUrl>)
    ensures ResolveUrl(StructuredUrl(protocol, host, path, port), parse).path == PathText(path)
    ensures port == "" ==>
      ResolveUrl(StructuredUrl(protocol, host, path, port), parse).baseUri == SchemeOf(protocol) + "://" + HostText(host)
    ensures port != "" ==>
      ResolveUrl(StructuredUrl(protocol, host, path, port), parse).baseUri
        == SchemeOf(protocol) + "://" + HostText(host) + ":" + port
    ensures ResolveUrl(StructuredUrl(protocol, HostName(""), path, ""), parse).baseUri == SchemeOf(protocol) + "://localhost"
  {
  }

  /** With a non-empty port, the origin splits at `:` into the scheme, `//` plus the
      host, and the port, when none of them holds a colon. */
  lemma OriginSplit(protocol: string, host: Host, path: Option<seq<string>>, port: string,
                    parse: string -> Option<ParsedUrl>)
    requires port != ""
    requires forall j :: 0 <= j < |SchemeOf(protocol)| ==> SchemeOf(protocol)[j] != ':'
    requires forall j :: 0 <= j < |HostText(host)| ==> HostText(host)[j] != ':'
    requires forall j :: 0 <= j < |port| ==> port[j] != ':'
    ensures Split(ResolveUrl(StructuredUrl(protocol, host, path, port), parse).baseUri, ':')
      == [SchemeOf(protocol), "//" + HostText(host), port]
  {
    var parts := [SchemeOf(protocol), "//" + HostText(host), port];
    assert [parts[1], parts[2]] == parts[1..];
    assert parts[1..][1..] == [port];
    assert Join(parts[1..], ":") == parts[1] + ":" + parts[2];
    assert Join(parts, ":") == parts[0] + ":" + (parts[1] + ":" + parts[2]);
    assert ResolveUrl(StructuredUrl(protocol, host, path, port), parse).baseUri == Join(parts, ":");
    forall k, j | 0 <= k < |parts| && 0 <= j < |parts[k]| ensures parts[k][j] != ':' {
      if k == 1 && j >= 2 {
        assert parts[1][j] == HostText(host)[j - 2];
      }
    }
    SplitJoin(parts, ':');
  }

  lemma ExampleHost()
    ensures HostText(HostParts(["api", "example", "com"])) == "api.example.com"
  {
    assert ["api", "example", "com"][1..] == ["example", "com"];
    assert ["example", "com"][1..] == ["com"];
  }

  lemma ExamplePath()
    ensures PathText(Some(["v1", "users"])) == "/v1/users"
  {
    assert ["v1", "users"][1..] == ["users"];
  }

  lemma OriginText()
    ensures "https" + "://" + "api.example.com" + ":8080" == "https://api.example.com:8080"
  {
  }

  lemma ExampleOrigin()
    ensures SchemeOf("https") + "://" + HostText(HostParts(["api", "example", "com"])) + PortSuffix("8080")
      == "https://api.example.com:8080"
  {
    ExampleHost();
    assert SchemeOf("https") == "https";
    assert PortSuffix("8080") == ":8080";
    OriginText();
  }

  /** Host array `api.example.com`, path `v1/users`, port 8080 and protocol `https`
      resolve to `https://api.example.com:8080` and `/v1/users`. */
  lemma StructuredExample(parse: string -> Option<ParsedUrl>)
    ensures ResolveUrl(StructuredUrl("https", HostParts(["api", "example", "com"]), Some(["v1", "users"]), "8080"), parse)
      == Resolved("https://api.example.com:8080", "/v1/users")
  {
    ExampleOrigin();
    ExamplePath();
  }
}
