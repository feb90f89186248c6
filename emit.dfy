/** `generateTestMethod`: the lines of one TestNG test method, each included under its
    own condition, joined with newlines. */
module TestMethod {
  import opened Optional
  import opened Text
  import opened Collection
  import opened Sanitize
  import opened JavaEscape
  import opened UrlResolve
  import opened Auth
  import opened ContentType
  import opened Seqs

  /** One line of a generated method, by what it says. */
  datatype Line =
    | StoryAnnotation(folder: string)
    | DescriptionAnnotation(description: string)
    | TestAnnotation
    | Signature(methodName: string)
    | Given
    | BaseUri(uri: string)
    | BearerHeader(token: string)
    | BasicCredentials(username: string, password: string)
    | ContentTypeCall(contentType: string)
    | BodyCall(body: string)
    | When
    | VerbCall(verb: string, path: string)
    | Then
    | StatusCheck
    | CloseMethod

  /** The indentation of a chained call of a request specification. */
  const CallIndent: string := "            "

  const TestLine: string := "    @Test"
  const GivenLine: string := "        given()"
  const WhenLine: string := "        .when()"
  const ThenLine: string := "        .then()"
  const StatusLine: string := CallIndent + ".statusCode(200);"
  const CloseLine: string := "    }"

  function StoryLine(folder: string): (line: string)
    ensures '\n' !in line
  {
    EscapedBreakFree(folder);
    "    @Story(\"" + EscapeJavaString(folder) + "\")"
  }

  function DescriptionLine(description: string): (line: string)
    ensures '\n' !in line
  {
    EscapedBreakFree(description);
    "    @Description(\"" + EscapeJavaString(description) + "\")"
  }

  /** The method name is interpolated as it is. */
  function SignatureLine(methodName: string): (line: string)
    ensures '\n' !in methodName ==> '\n' !in line
  {
    "    public void " + methodName + "() {"
  }

  function BaseUriLine(uri: string): (line: string)
    ensures '\n' !in line
  {
    EscapedBreakFree(uri);
    CallIndent + ".baseUri(\"" + EscapeJavaString(uri) + "\")"
  }

  function BearerLine(token: string): (line: string)
    ensures '\n' !in line
  {
    EscapedBreakFree(token);
    CallIndent + ".header(\"Authorization\", " + "\"Bearer " + EscapeJavaString(token) + "\")"
  }

  function BasicLine(username: string, password: string): (line: string)
    ensures '\n' !in line
  {
    EscapedBreakFree(username);
    EscapedBreakFree(password);
    CallIndent + ".auth().basic(\"" + EscapeJavaString(username) + "\", \"" + EscapeJavaString(password) + "\")"
  }

  function ContentTypeLine(contentType: string): (line: string)
    ensures '\n' !in line
  {
    EscapedBreakFree(contentType);
    CallIndent + ".contentType(\"" + EscapeJavaString(contentType) + "\")"
  }

  function BodyLine(body: string): (line: string)
    ensures '\n' !in line
  {
    EscapedBreakFree(body);
    CallIndent + ".body(\"" + EscapeJavaString(body) + "\")"
  }

  /** The verb is interpolated as it is; the path is escaped. */
  function VerbLine(verb: string, path: string): (line: string)
    ensures '\n' !in verb ==> '\n' !in line
  {
    EscapedBreakFree(path);
    CallIndent + "." + verb + "(\"" + EscapeJavaString(path) + "\")"
  }

  /** The Java text of a line; every interpolated value except the method name and the
      verb goes through `escapeJavaString`. */
  function Render(l: Line): string
  {
    match l
    case StoryAnnotation(f) => StoryLine(f)
    case DescriptionAnnotation(d) => DescriptionLine(d)
    case TestAnnotation => TestLine
    case Signature(n) => SignatureLine(n)
    case Given => GivenLine
    case BaseUri(u) => BaseUriLine(u)
    case BearerHeader(t) => BearerLine(t)
    case BasicCredentials(u, p) => BasicLine(u, p)
    case ContentTypeCall(c) => ContentTypeLine(c)
    case BodyCall(b) => BodyLine(b)
    case When => WhenLine
    case VerbCall(v, p) => VerbLine(v, p)
    case Then => ThenLine
    case StatusCheck => StatusLine
    case CloseMethod => CloseLine
  }

  function RenderAll(ls: seq<Line>): (texts: seq<string>)
    ensures |texts| == |ls|
    ensures forall i :: 0 <= i < |ls| ==> texts[i] == Render(ls[i])
  {
    seq(|ls|, i requires 0 <= i < |ls| => Render(ls[i]))
  }

  /** `(req.method || 'GET').toLowerCase()`. */
  function VerbOf(req: HttpRequest): string
  {
    Lower(if req.verb == "" then "GET" else req.verb)
  }

  /** `item.name || 'unnamedRequest'`, sanitised. */
  function MethodNameOf(item: FlatRequest): string
  {
    SanitizeMethodName(if item.name == "" then "unnamedRequest" else item.name)
  }

  /** `item.name || 'Unnamed Request'`. */
  function DescriptionOf(item: FlatRequest): string
  {
    if item.name == "" then "Unnamed Request" else item.name
  }

  /** The raw body text, trimmed, when the body is raw and non-empty. */
  function TrimmedBody(body: Body): Option<string>
  {
    if body.RawBody? && body.raw != "" then Some(Trim(body.raw)) else None
  }

  /** The values `generateTestMethod` computes before it builds any line. */
  datatype MethodParts = MethodParts(
    folder: Option<string>, description: string, methodName: string,
    baseUri: string, auth: Option<Credentials>, contentType: Option<string>,
    body: Option<string>, verb: string, path: string)

  /** The values computed for `item`: resolved URL, auth, content type, sanitised name,
      description, folder and trimmed body. */
  function PartsOf(item: FlatRequest, parse: string -> Option<ParsedUrl>): MethodParts
  {
    var req := item.request;
    var resolved := ResolveUrl(req.url, parse);
    MethodParts(
      if item.folder.Some? && item.folder.value != "" then item.folder else None,
      DescriptionOf(item), MethodNameOf(item),
      resolved.baseUri, ExtractAuth(req), ContentTypeOf(req),
      TrimmedBody(req.body), VerbOf(req), resolved.path)
  }

  function AllureLines(p: MethodParts, allure: bool): seq<Line>
  {
    if !allure then []
    else (if p.folder.Some? then [StoryAnnotation(p.folder.value)] else []) + [DescriptionAnnotation(p.description)]
  }

  function AuthLines(auth: Option<Credentials>): seq<Line>
  {
    match auth
    case None => []
    case Some(Bearer(t)) => [BearerHeader(t)]
    case Some(Basic(u, pw)) => [BasicCredentials(u, pw)]
  }

  function ContentTypeLines(ct: Option<string>): seq<Line>
  {
    if ct.Some? && ct.value != "" then [ContentTypeCall(ct.value)] else []
  }

  function BodyLines(body: Option<string>): seq<Line>
  {
    if body.Some? && body.value != "" then [BodyCall(body.value)] else []
  }

  function HeadLines(p: MethodParts): seq<Line>
  {
    [TestAnnotation, Signature(p.methodName), Given, BaseUri(p.baseUri)]
  }

  /** The five closing lines: the call, then the status assertion. */
  function TailLines(p: MethodParts): seq<Line>
  {
    [When, VerbCall(p.verb, p.path), Then, StatusCheck, CloseMethod]
  }

  /** The lines of a method, in the order they are pushed, from its computed values. */
  function LinesOf(p: MethodParts, allure: bool): seq<Line>
  {
    AllureLines(p, allure) + HeadLines(p) + AuthLines(p.auth) + ContentTypeLines(p.contentType)
    + BodyLines(p.body) + TailLines(p)
  }

  function MethodLines(item: FlatRequest, allure: bool, parse: string -> Option<ParsedUrl>): seq<Line>
  {
    LinesOf(PartsOf(item, parse), allure)
  }

  function MethodText(item: FlatRequest, allure: bool, parse: string -> Option<ParsedUrl>): string
  {
    Join(RenderAll(MethodLines(item, allure, parse)), "\n")
  }

  lemma RenderAllAppend(a: seq<Line>, b: seq<Line>)
    ensures RenderAll(a + b) == RenderAll(a) + RenderAll(b)
  {
    var r, ra, rb := RenderAll(a + b), RenderAll(a), RenderAll(b);
    forall i | 0 <= i < |r| ensures r[i] == (ra + rb)[i] {
      if i < |a| {
        assert (a + b)[i] == a[i];
      } else {
        assert (a + b)[i] == b[i - |a|];
      }
    }
  }

  lemma RenderAllOne(a: Line)
    ensures RenderAll([a]) == [Render(a)]
  {
  }

  lemma RenderAllFour(a: Line, b: Line, c: Line, d: Line)
    ensures RenderAll([a, b, c, d]) == [Render(a), Render(b), Render(c), Render(d)]
  {
  }

  lemma RenderAllFive(a: Line, b: Line, c: Line, d: Line, e: Line)
    ensures RenderAll([a, b, c, d, e]) == [Render(a), Render(b), Render(c), Render(d), Render(e)]
  {
  }

  /** The `@Story` and `@Description` pushes, under `enableAllure`. */
  method PushAllure(lines: seq<string>, p: MethodParts, allure: bool) returns (out: seq<string>)
    ensures out == lines + RenderAll(AllureLines(p, allure))
  {
    out := lines;
    if allure {
      if p.folder.Some? {
        out := out + [Render(StoryAnnotation(p.folder.value))];
      }
      out := out + [Render(DescriptionAnnotation(p.description))];
    }
  }

  /** The bearer-header or basic-credentials push, when there is auth. */
  method PushAuth(lines: seq<string>, auth: Option<Credentials>) returns (out: seq<string>)
    ensures out == lines + RenderAll(AuthLines(auth))
  {
    out := lines;
    if auth.Some? {
      match auth.value
      case Bearer(t) => {
        out := out + [Render(BearerHeader(t))];
        RenderAllOne(BearerHeader(t));
      }
      case Basic(u, pw) => {
        out := out + [Render(BasicCredentials(u, pw))];
        RenderAllOne(BasicCredentials(u, pw));
      }
    }
  }

  /** The `.contentType(...)` push, when the content type is non-empty. */
  method PushContentType(lines: seq<string>, contentType: Option<string>) returns (out: seq<string>)
    ensures out == lines + RenderAll(ContentTypeLines(contentType))
  {
    out := lines;
    if contentType.Some? && contentType.value != "" {
      out := out + [Render(ContentTypeCall(contentType.value))];
      RenderAllOne(ContentTypeCall(contentType.value));
    }
  }

  /** The `.body(...)` push, when the trimmed body is non-empty. */
  method PushBody(lines: seq<string>, body: Option<string>) returns (out: seq<string>)
    ensures out == lines + RenderAll(BodyLines(body))
  {
    out := lines;
    if body.Some? && body.value != "" {
      out := out + [Render(BodyCall(body.value))];
      RenderAllOne(BodyCall(body.value));
    }
  }

  /** The line pushing of `generateTestMethod`: each line that applies, in order. */
  method PushLines(p: MethodParts, allure: bool) returns (lines: seq<string>)
    ensures lines == RenderAll(LinesOf(p, allure))
  {
    lines := PushAllure([], p, allure);
    ghost var shape := AllureLines(p, allure);
    assert lines == RenderAll(shape);

    lines := lines + [Render(TestAnnotation), Render(Signature(p.methodName)), Render(Given),
                      Render(BaseUri(p.baseUri))];
    RenderAllFour(TestAnnotation, Signature(p.methodName), Given, BaseUri(p.baseUri));
    RenderAllAppend(shape, HeadLines(p));
    shape := shape + HeadLines(p);

    lines := PushAuth(lines, p.auth);
    RenderAllAppend(shape, AuthLines(p.auth));
    shape := shape + AuthLines(p.auth);

    lines := PushContentType(lines, p.contentType);
    RenderAllAppend(shape, ContentTypeLines(p.contentType));
    shape := shape + ContentTypeLines(p.contentType);

    lines := PushBody(lines, p.body);
    RenderAllAppend(shape, BodyLines(p.body));
    shape := shape + BodyLines(p.body);

    lines := lines + [Render(When), Render(VerbCall(p.verb, p.path)), Render(Then),
                      Render(StatusCheck), Render(CloseMethod)];
    RenderAllFive(When, VerbCall(p.verb, p.path), Then, StatusCheck, CloseMethod);
    RenderAllAppend(shape, TailLines(p));
  }

  /** `generateTestMethod(item, enableAllure)`: computes the values a method needs, pushes
      each line that applies and joins the lines with newlines. */
  method GenerateTestMethod(item: FlatRequest, allure: bool, parse: string -> Option<ParsedUrl>)
    returns (text: string)
    ensures text == MethodText(item, allure, parse)
  {
    var req := item.request;
    var verb := VerbOf(req);
    var resolved := ResolveUrl(req.url, parse);
    var auth := ExtractAuth(req);
    var contentType := GetContentType(req);
    var methodName := MethodNameOf(item);
    var description := DescriptionOf(item);
    var folder: Option<string> := None;
    if item.folder.Some? && item.folder.value != "" {
      folder := Some(item.folder.value);
    }
    var bodyStr: Option<string> := None;
    if req.body.RawBody? && req.body.raw != "" {
      bodyStr := Some(Trim(req.body.raw));
    }
    var parts := MethodParts(folder, description, methodName, resolved.baseUri, auth, contentType,
                             bodyStr, verb, resolved.path);
    assert parts == PartsOf(item, parse);
    var lines := PushLines(parts, allure);
    text := Join(lines, "\n");
  }

  // ----- which lines a method has -----

  /** The number of lines satisfying `p`. */
  function Count(ls: seq<Line>, p: Line -> bool): nat
  {
    if ls == [] then 0 else (if p(ls[0]) then 1 else 0) + Count(ls[1..], p)
  }

  lemma {:induction false} CountAppend(a: seq<Line>, b: seq<Line>, p: Line -> bool)
    ensures Count(a + b, p) == Count(a, p) + Count(b, p)
  {
    if a == [] {
      assert a + b == b;
    } else {
      assert (a + b)[1..] == a[1..] + b;
      CountAppend(a[1..], b, p);
    }
  }

  /** A list with no line satisfying `q` counts zero for it. */
  lemma {:induction false} CountNone(ls: seq<Line>, q: Line -> bool)
    requires forall i :: 0 <= i < |ls| ==> !q(ls[i])
    ensures Count(ls, q) == 0
  {
    if ls != [] {
      assert forall i :: 0 <= i < |ls[1..]| ==> ls[1..][i] == ls[i + 1];
      CountNone(ls[1..], q);
    }
  }

  predicate IsStory(l: Line) { l.StoryAnnotation? }
  predicate IsDescription(l: Line) { l.DescriptionAnnotation? }
  predicate IsTest(l: Line) { l.TestAnnotation? }
  predicate IsAuth(l: Line) { l.BearerHeader? || l.BasicCredentials? }
  predicate IsContentType(l: Line) { l.ContentTypeCall? }
  predicate IsBody(l: Line) { l.BodyCall? }

  /** A count over a method's lines is the sum of the counts over its six pieces. */
  lemma PieceCounts(p: MethodParts, allure: bool, q: Line -> bool)
    ensures Count(LinesOf(p, allure), q) ==
      Count(AllureLines(p, allure), q) + Count(HeadLines(p), q)
      + Count(AuthLines(p.auth), q) + Count(ContentTypeLines(p.contentType), q)
      + Count(BodyLines(p.body), q) + Count(TailLines(p), q)
  {
    var a, h := AllureLines(p, allure), HeadLines(p);
    var au, ct, bd := AuthLines(p.auth), ContentTypeLines(p.contentType), BodyLines(p.body);
    var t := TailLines(p);
    CountAppend(a, h, q);
    CountAppend(a + h, au, q);
    CountAppend(a + h + au, ct, q);
    CountAppend(a + h + au + ct, bd, q);
    CountAppend(a + h + au + ct + bd, t, q);
  }

  lemma AllureCounts(p: MethodParts, allure: bool)
    ensures Count(AllureLines(p, allure), IsStory) == Indicator(allure && p.folder.Some?)
    ensures Count(AllureLines(p, allure), IsDescription) == Indicator(allure)
    ensures Count(AllureLines(p, allure), IsTest) == 0
    ensures Count(AllureLines(p, allure), IsAuth) == 0
    ensures Count(AllureLines(p, allure), IsContentType) == 0
    ensures Count(AllureLines(p, allure), IsBody) == 0
  {
    if allure {
      var story := if p.folder.Some? then [StoryAnnotation(p.folder.value)] else [];
      var d := [DescriptionAnnotation(p.description)];
      CountAppend(story, d, IsStory);
      CountAppend(story, d, IsDescription);
      CountAppend(story, d, IsTest);
      CountAppend(story, d, IsAuth);
      CountAppend(story, d, IsContentType);
      CountAppend(story, d, IsBody);
    }
  }

  lemma HeadTailCounts(p: MethodParts)
    ensures Count(HeadLines(p), IsTest) == 1 && Count(TailLines(p), IsTest) == 0
    ensures Count(HeadLines(p), IsStory) == 0 && Count(TailLines(p), IsStory) == 0
    ensures Count(HeadLines(p), IsDescription) == 0 && Count(TailLines(p), IsDescription) == 0
    ensures Count(HeadLines(p), IsAuth) == 0 && Count(TailLines(p), IsAuth) == 0
    ensures Count(HeadLines(p), IsContentType) == 0 && Count(TailLines(p), IsContentType) == 0
    ensures Count(HeadLines(p), IsBody) == 0 && Count(TailLines(p), IsBody) == 0
  {
    var h, t := HeadLines(p), TailLines(p);
    assert h == [TestAnnotation] + h[1..];
    CountAppend([TestAnnotation], h[1..], IsTest);
    CountAppend([TestAnnotation], h[1..], IsStory);
    CountAppend([TestAnnotation], h[1..], IsDescription);
    CountAppend([TestAnnotation], h[1..], IsAuth);
    CountAppend([TestAnnotation], h[1..], IsContentType);
    CountAppend([TestAnnotation], h[1..], IsBody);
    CountNone(h[1..], IsTest);
    CountNone(h[1..], IsStory);
    CountNone(h[1..], IsDescription);
    CountNone(h[1..], IsAuth);
    CountNone(h[1..], IsContentType);
    CountNone(h[1..], IsBody);
    CountNone(t, IsTest);
    CountNone(t, IsStory);
    CountNone(t, IsDescription);
    CountNone(t, IsAuth);
    CountNone(t, IsContentType);
    CountNone(t, IsBody);
  }

  lemma AuthCounts(auth: Option<Credentials>)
    ensures Count(AuthLines(auth), IsAuth) == Indicator(auth.Some?)
    ensures Count(AuthLines(auth), IsTest) == 0 && Count(AuthLines(auth), IsStory) == 0
    ensures Count(AuthLines(auth), IsDescription) == 0 && Count(AuthLines(auth), IsContentType) == 0
    ensures Count(AuthLines(auth), IsBody) == 0
  {
    match auth
    case None =>
    case Some(Bearer(t)) => assert AuthLines(auth)[1..] == [];
    case Some(Basic(u, pw)) => assert AuthLines(auth)[1..] == [];
  }

  lemma ContentTypeCounts(ct: Option<string>)
    ensures Count(ContentTypeLines(ct), IsContentType) == Indicator(ct.Some? && ct.value != "")
    ensures Count(ContentTypeLines(ct), IsTest) == 0 && Count(ContentTypeLines(ct), IsStory) == 0
    ensures Count(ContentTypeLines(ct), IsDescription) == 0 && Count(ContentTypeLines(ct), IsAuth) == 0
    ensures Count(ContentTypeLines(ct), IsBody) == 0
  {
    if ct.Some? && ct.value != "" {
      assert ContentTypeLines(ct)[1..] == [];
    }
  }

  lemma BodyCounts(body: Option<string>)
    ensures Count(BodyLines(body), IsBody) == Indicator(body.Some? && body.value != "")
    ensures Count(BodyLines(body), IsTest) == 0 && Count(BodyLines(body), IsStory) == 0
    ensures Count(BodyLines(body), IsDescription) == 0 && Count(BodyLines(body), IsAuth) == 0
    ensures Count(BodyLines(body), IsContentType) == 0
  {
    if body.Some? && body.value != "" {
      assert BodyLines(body)[1..] == [];
    }
  }

  /** With the values computed: one `@Test`, a `@Story` exactly when Allure is on and there
      is a folder, a `@Description` exactly when Allure is on. */
  lemma AnnotationCounts(p: MethodParts, allure: bool)
    ensures Count(LinesOf(p, allure), IsTest) == 1
    ensures Count(LinesOf(p, allure), IsStory) == Indicator(allure && p.folder.Some?)
    ensures Count(LinesOf(p, allure), IsDescription) == Indicator(allure)
  {
    AllureCounts(p, allure);
    HeadTailCounts(p);
    AuthCounts(p.auth);
    ContentTypeCounts(p.contentType);
    BodyCounts(p.body);
    PieceCounts(p, allure, IsTest);
    PieceCounts(p, allure, IsStory);
    PieceCounts(p, allure, IsDescription);
  }

  /** The auth, content-type and body lines appear exactly when their values are present
      and non-empty. */
  lemma SetupLineCounts(p: MethodParts, allure: bool)
    ensures Count(LinesOf(p, allure), IsAuth) == Indicator(p.auth.Some?)
    ensures Count(LinesOf(p, allure), IsContentType) == Indicator(p.contentType.Some? && p.contentType.value != "")
    ensures Count(LinesOf(p, allure), IsBody) == Indicator(p.body.Some? && p.body.value != "")
  {
    AllureCounts(p, allure);
    HeadTailCounts(p);
    AuthCounts(p.auth);
    ContentTypeCounts(p.contentType);
    BodyCounts(p.body);
    PieceCounts(p, allure, IsAuth);
    PieceCounts(p, allure, IsContentType);
    PieceCounts(p, allure, IsBody);
  }

  /** `@Story` appears, once, exactly when Allure is on and the request sits in a folder
      with a non-empty name; `@Description` appears, once, exactly when Allure is on; `@Test`
      appears once. */
  lemma AnnotationLines(item: FlatRequest, allure: bool, parse: string -> Option<ParsedUrl>)
    ensures Count(MethodLines(item, allure, parse), IsStory)
      == Indicator(allure && item.folder.Some? && item.folder.value != "")
    ensures Count(MethodLines(item, allure, parse), IsDescription) == Indicator(allure)
    ensures Count(MethodLines(item, allure, parse), IsTest) == 1
  {
    AnnotationCounts(PartsOf(item, parse), allure);
  }

  /** The auth line appears exactly when auth resolves, the content-type line exactly when
      the content type is non-empty, and the body line exactly when the body is raw and holds
      a non-whitespace character; each at most once. */
  lemma ConditionalLines(item: FlatRequest, allure: bool, parse: string -> Option<ParsedUrl>)
    ensures Count(MethodLines(item, allure, parse), IsAuth) == Indicator(ExtractAuth(item.request).Some?)
    ensures Count(MethodLines(item, allure, parse), IsContentType)
      == Indicator(ContentTypeOf(item.request).Some? && ContentTypeOf(item.request).value != "")
    ensures Count(MethodLines(item, allure, parse), IsBody)
      == Indicator(item.request.body.RawBody? &&
                   exists i :: 0 <= i < |item.request.body.raw| && !IsJsWhitespace(item.request.body.raw[i]))
  {
    var p := PartsOf(item, parse);
    SetupLineCounts(p, allure);
    var body := item.request.body;
    if body.RawBody? {
      TrimEmptyIff(body.raw);
    }
  }

  /** Every method ends with the lowercased verb call (`get` when the method is unset),
      `.then()`, the status check and the closing brace. */
  lemma MethodFrame(item: FlatRequest, allure: bool, parse: string -> Option<ParsedUrl>)
    ensures var ls := MethodLines(item, allure, parse);
      && |ls| >= 9
      && ls[|ls| - 5..] == [When, VerbCall(VerbOf(item.request), ResolveUrl(item.request.url, parse).path),
                            Then, StatusCheck, CloseMethod]
    ensures item.request.verb == "" ==> VerbOf(item.request) == "get"
  {
    var p := PartsOf(item, parse);
    var head := AllureLines(p, allure) + HeadLines(p) + AuthLines(p.auth) + ContentTypeLines(p.contentType)
      + BodyLines(p.body);
    assert LinesOf(p, allure) == head + TailLines(p);
    assert LinesOf(p, allure)[|head|..] == TailLines(p);
    assert Lower("GET") == "get";
  }

  // ----- the rendered lines -----

  lemma EscapedBreakFree(v: string)
    ensures '\n' !in EscapeJavaString(v)
  {
    EscapeHasNoRawBreaks(v);
  }

  /** No rendered line holds a line break, as long as the verb and the method name hold
      none: every other interpolated value is escaped. */
  lemma RenderHasNoBreak(l: Line)
    requires l.VerbCall? ==> '\n' !in l.verb
    requires l.Signature? ==> '\n' !in l.methodName
    ensures '\n' !in Render(l)
  {
  }

  lemma LowerKeepsBreakFree(s: string)
    requires '\n' !in s
    ensures '\n' !in Lower(s)
  {
    forall i | 0 <= i < |s| ensures Lower(s)[i] != '\n' {
      assert !IsAsciiUpper('\n');
    }
  }

  /** The method name is made of identifier characters, so it holds no line break. */
  lemma MethodNameHasNoBreak(item: FlatRequest)
    ensures '\n' !in MethodNameOf(item)
  {
    MethodNameShape(if item.name == "" then "unnamedRequest" else item.name);
  }

  /** Only the verb call and the signature carry unescaped values: the verb and the name. */
  lemma LinesOfValues(p: MethodParts, allure: bool, k: nat)
    requires k < |LinesOf(p, allure)|
    ensures LinesOf(p, allure)[k].VerbCall? ==> LinesOf(p, allure)[k].verb == p.verb
    ensures LinesOf(p, allure)[k].Signature? ==> LinesOf(p, allure)[k].methodName == p.methodName
  {
    var a, h := AllureLines(p, allure), HeadLines(p);
    var au, ct, bd := AuthLines(p.auth), ContentTypeLines(p.contentType), BodyLines(p.body);
    var ls := LinesOf(p, allure);
    var n1, n2, n3 := |a| + |h|, |a| + |h| + |au|, |a| + |h| + |au| + |ct|;
    if k < |a| {
      assert ls[k] == a[k];
    } else if k < n1 {
      assert ls[k] == h[k - |a|];
    } else if k < n2 {
      assert ls[k] == au[k - n1];
    } else if k < n3 {
      assert ls[k] == ct[k - n2];
    } else if k < n3 + |bd| {
      assert ls[k] == bd[k - n3];
    } else {
      assert ls[k] == TailLines(p)[k - n3 - |bd|];
    }
  }

  /** No rendered line of a method holds a line break when the request's method holds
      none. */
  lemma RenderedLinesBreakFree(item: FlatRequest, allure: bool, parse: string -> Option<ParsedUrl>)
    requires '\n' !in item.request.verb
    ensures forall k :: 0 <= k < |RenderAll(MethodLines(item, allure, parse))| ==>
      '\n' !in RenderAll(MethodLines(item, allure, parse))[k]
  {
    var p := PartsOf(item, parse);
    var ls := LinesOf(p, allure);
    MethodNameHasNoBreak(item);
    LowerKeepsBreakFree(if item.request.verb == "" then "GET" else item.request.verb);
    forall k | 0 <= k < |ls| ensures '\n' !in RenderAll(ls)[k] {
      LinesOfValues(p, allure, k);
      RenderHasNoBreak(ls[k]);
    }
  }

  /** Splitting the method text at newlines gives back its rendered lines, one per `Line`,
      when the request's method has no line break. */
  lemma MethodTextSplits(item: FlatRequest, allure: bool, parse: string -> Option<ParsedUrl>)
    requires '\n' !in item.request.verb
    ensures Split(MethodText(item, allure, parse), '\n') == RenderAll(MethodLines(item, allure, parse))
  {
    RenderedLinesBreakFree(item, allure, parse);
    MethodFrame(item, allure, parse);
    SplitJoin(RenderAll(MethodLines(item, allure, parse)), '\n');
  }

  /** The `@Story` and `@Description` annotations carry a Java literal that decodes back to
      the folder name and the request title. */
  lemma AnnotationDecodes(text: string)
    ensures var lit := EscapeJavaString(text);
      && Render(StoryAnnotation(text)) == "    @Story(\"" + lit + "\")"
      && Render(DescriptionAnnotation(text)) == "    @Description(\"" + lit + "\")"
      && Unescape(lit) == Some(text)
      && ClosingQuote(lit + "\")") == Some(|lit|)
  {
    var lit := EscapeJavaString(text);
    UnescapeEscape(text);
    EscapedLiteralCloses(text, ")");
    assert lit + "\"" + ")" == lit + "\")";
  }
}
