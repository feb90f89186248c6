# Postman-to-RestAssured converter, modelled in Dafny

`scripts/convert.js` reads a Postman Collection (format v2.0 or v2.1). From its folder and
request tree it writes two files:

- a Java test class for RestAssured and TestNG, with one `@Test` method per request;
- a Maven `pom.xml` that builds that class.

The Allure reporting dependencies, the Allure plugin, the Allure imports and the Allure
`setUp` filter are all switched on and off by one flag.

This project models the conversion from an already-parsed collection value down to the two
file texts, and proves properties of that model.

- **Flattening** (`flatten.dfy`). The folder/request tree becomes a list of requests:
  - in pre-order;
  - each request labelled with the name of its immediate parent folder.
- **Identifiers** (`sanitize.dfy`). The class name and the method name:
  - keep only `[A-Za-z0-9_]`;
  - are split at runs of JavaScript whitespace;
  - have their words capitalised and concatenated.
- **Java string escaping** (`escape.dfy`). Five characters are escaped after section
  3.10.7 (Escape Sequences) of the Java Language Specification, SE 15 and later (section
  3.10.6 in SE 8 to 14).
  The escaping comes with a decoder and a string-literal scanner.
- **URLs** (`url.dfy`):
  - an absent URL;
  - a raw URL string, with its `{{variable}}` substitution;
  - a structured URL object.
- **Auth and content type** (`auth.dfy`, `content_type.dfy`):
  - an explicit auth descriptor against the `Authorization` header;
  - an explicit `Content-Type` header against the body mode.
- **Emitters**:
  - the test method, as a list of typed lines rendered to Java text (`emit.dfy`);
  - the build file and the class, as sequences of template segments (`pom.dfy`,
    `test_class.dfy`);
  - the files the converter writes (`convert.dfy`).

The surrounding modules are:

- `text.dfy`: JavaScript string helpers (`\s`, `trim`, ASCII case mapping, `join`, `split`).
- `seqs.dfy`: occurrence counts and filters.
- `collection.dfy`: the collection's data model.
- `optional.dfy`: the option type.

The loops of the source are modelled as methods, each proved equal to a recursive
specification function:

- the item loop of `flattenItems`;
- the header scans of `extractBearerToken` and `getContentType`;
- the line pushes of `generateTestMethod`.

The chained string expressions and the template strings are modelled as functions.

JavaScript truthiness is modelled directly. An absent string field and an empty one behave
the same everywhere the source reads them (`x || default`, `if (x)`), so optional string
fields are plain strings, with `""` for absent. The folder label is `Option<string>`:
`None` is the `null` given to top-level requests.

Some behaviours of the code that are easy to miss:

- A raw URL that the URL parser rejects keeps the original, unsubstituted string as its path
  under `http://localhost`. It does not become `/`.
- A raw body whose language is neither absent nor `json`/`xml` gives no content type.
- A `Content-Type` header whose value is empty still wins over the body. The method then has
  no `.contentType(...)` line.
- An empty host array gives an empty host, not `localhost`.
- The first `Authorization` header that starts with `bearer ` ends the header scan. If its
  token is empty there is no auth, even when a later header carries a token.
- A bearer descriptor's `token` entry is used even when its value is empty.
- The HTTP verb (`method`) is lowercased and put into the verb call unescaped; every other
  interpolated value except the sanitised method name goes through `escapeJavaString`. This
  is why the lemmas about line breaks in the method text assume a verb without a newline.

## Model

| member | source | states |
|---|---|---|
| Flatten.FlattenItems | scripts/convert.js:34-45 | the loop that pushes requests and recurses into folders returns exactly the recursive pre-order flattening |
| Flatten.FlattenedAppend | scripts/convert.js:36-44 | flattening a concatenation of item lists is the concatenation of their flattenings |
| Flatten.FlattenedPreOrder | scripts/convert.js:36-43 | in place, a folder contributes its children's requests labelled with its own name, a request contributes itself with the current label, and any other entry contributes nothing |
| Flatten.FlattenedCount | scripts/convert.js:34-47 | the output has one record per request leaf reachable through folders |
| Flatten.FlattenedMembers | scripts/convert.js:34-47 | a record is in the output if and only if it is a reachable request leaf labelled with its immediate parent folder's name, or with the caller's label at top level |
| Sanitize.KeepThenNonSpace | scripts/convert.js:53-54 | the character filter followed by dropping whitespace keeps exactly the identifier characters of the title, in order |
| Sanitize.SplitOnSpaceJoin | scripts/convert.js:54-56 | concatenating the pieces of the `/\s+/` split gives the input without its whitespace |
| Sanitize.LeadingWordSpec | scripts/convert.js:54 | each split piece is the longest whitespace-free prefix of what remains |
| Sanitize.ClassNameKeepsIdentChars | scripts/convert.js:51-57 | the class name has the same length as the title's identifier characters, matches them ignoring case, and is made of `[A-Za-z0-9_]` only |
| Sanitize.MethodNameIsTestPlusClassName | scripts/convert.js:59-67 | the method name is `test` followed by the class-name form of the same title |
| Sanitize.MethodNameShape | scripts/convert.js:59-67 | the method name starts with `test`, is made of `[A-Za-z0-9_]`, and is exactly `test` if and only if the title has no identifier character |
| Sanitize.SplitTwoWords | scripts/convert.js:54 | two identifier words joined by a space split back into those two words |
| Sanitize.ClassNameOfTwoWords | scripts/convert.js:51-57 | a two-word title gives the two capitalised words concatenated |
| Sanitize.MethodNameOfTwoWords | scripts/convert.js:59-67 | a two-word title gives `test` and the two capitalised words |
| Sanitize.ClassNameExample | scripts/convert.js:51-57 | `My API` gives `MyAPI` |
| Sanitize.MethodNameExample | scripts/convert.js:59-67 | `Get User` gives `testGetUser` |
| JavaEscape.EscapeIsPerCharacter | scripts/convert.js:144-151 | the five chained replacements, backslash first, equal escaping each character on its own: no replacement rewrites an earlier one's output |
| JavaEscape.EscapeAppend | scripts/convert.js:144-151 | escaping distributes over concatenation |
| JavaEscape.EscapeOneChar | scripts/convert.js:144-151 | a one-character string is escaped to that character's Java escape sequence, or to itself |
| JavaEscape.UnescapeEscape | scripts/convert.js:144-151 | decoding the two-character escapes recovers the input exactly |
| JavaEscape.EscapeUnescape | scripts/convert.js:144-151 | every text the decoder accepts is the escape of what it decodes to, so the escape is a bijection onto the decoder's language |
| JavaEscape.EscapedLiteralCloses | scripts/convert.js:144-151 | an escaped text placed in a Java literal is closed exactly by the quote after it; no input ends the literal early |
| JavaEscape.EscapeHasNoRawBreaks | scripts/convert.js:144-151 | the output holds no raw newline, carriage return or tab |
| JavaEscape.EscapeLength | scripts/convert.js:144-151 | the output is as long as the input plus one character per special character |
| JavaEscape.EscapePlainIsIdentity | scripts/convert.js:144-151 | text with none of the five special characters is unchanged |
| UrlResolve.TemplateMatchIff | scripts/convert.js:73 | a `{{...}}` match of length k starts the text if and only if its first k characters form a template, so a match is unique |
| UrlResolve.SubstitutePlainPrefix | scripts/convert.js:73 | text without an opening brace is copied unchanged, whatever follows |
| UrlResolve.SubstituteTemplateFront | scripts/convert.js:73 | a template at the front becomes `placeholder`, and the scan resumes after it |
| UrlResolve.NoBraceUnchanged | scripts/convert.js:73 | text without an opening brace is not changed |
| UrlResolve.SubstituteTwoTemplates | scripts/convert.js:73 | two templates around brace-free text both become `placeholder`, and the text between them is kept |
| UrlResolve.AbsentUrlIsLocalhost | scripts/convert.js:70 | an absent or empty URL gives `http://localhost` and `/` |
| UrlResolve.RawUrlCases | scripts/convert.js:71-77 | a raw URL the parser accepts gives its origin, and its path with the query; one it rejects gives `http://localhost`, with the original string as the path |
| UrlResolve.SchemeDefaults | scripts/convert.js:79 | a missing protocol means `https`, and one trailing colon is dropped |
| UrlResolve.HostPartsRecover | scripts/convert.js:80 | splitting the joined host at `.` gives back the host labels |
| UrlResolve.StructuredPathRecovers | scripts/convert.js:81-82 | the path starts with `/`, and splitting the rest at `/` gives back the path array |
| UrlResolve.MissingPathIsRoot | scripts/convert.js:81-82 | a missing or empty path array gives `/` |
| UrlResolve.StructuredResolves | scripts/convert.js:79-85 | for every structured URL the base URI is the scheme, `://` and the host text, followed by `:port` exactly when there is a port; a missing host string gives `localhost`; the path is the joined path array |
| UrlResolve.OriginSplit | scripts/convert.js:79-85 | with a port, the base URI splits at `:` into the scheme, `//` plus the host, and the port |
| UrlResolve.StructuredExample | scripts/convert.js:79-85 | host `api.example.com`, path `v1/users` and port 8080 give `https://api.example.com:8080` and `/v1/users` |
| Auth.ExtractBearerToken | scripts/convert.js:88-99 | the early-return header loop returns exactly `BearerFromHeaders`, the token of the first bearer header |
| Auth.BearerFromHeadersSpec | scripts/convert.js:88-99 | the result is none if and only if no header is an `Authorization` header starting with `bearer `, in any letter case; otherwise it is the first such header's value without its seven-character prefix |
| Auth.BearerSkipsOtherHeaders | scripts/convert.js:90-97 | headers in front that are not bearer headers do not change the result |
| Auth.FirstValueSpec | scripts/convert.js:106 | `find` gives the value of the first entry with the key, and none if and only if no entry has the key |
| Auth.FirstValueUnique | scripts/convert.js:106 | any first index with the key carries the value `find` returns |
| Auth.DescriptorIgnoresHeaders | scripts/convert.js:101-115 | with a bearer or basic descriptor, the headers are not consulted, and there is always a result |
| Auth.BearerDescriptorToken | scripts/convert.js:104-108 | a bearer descriptor gives its first `token` entry's value, even when empty, or `{{bearerToken}}` without such an entry |
| Auth.BasicNeverEmpty | scripts/convert.js:109-114 | basic credentials are never empty: a missing user name or password, or one with an empty value, becomes its `{{username}}` / `{{password}}` placeholder, and a non-empty value is used as it is |
| Auth.HeaderFallbackIff | scripts/convert.js:116-120 | without a descriptor, the result is a bearer token t if and only if the header scan yields t and t is non-empty; otherwise there is none |
| Auth.EmptyFirstTokenHidesLater | scripts/convert.js:116-120 | a first bearer header whose value is exactly `Bearer ` gives no credentials, whatever follows |
| ContentType.GetContentType | scripts/convert.js:123-142 | the header loop with early return, then the body cases, returns exactly `ContentTypeOf`: the first `Content-Type` header's value, else the type the body implies |
| ContentType.HeaderContentTypeSpec | scripts/convert.js:124-129 | the header scan gives the first `content-type` header's value, in any key case, and none if and only if there is no such header |
| ContentType.HeaderWins | scripts/convert.js:124-129 | the first `Content-Type` header decides, whatever its value and whatever the body |
| ContentType.InferredFromBody | scripts/convert.js:130-141 | without such a header, a type is inferred if and only if the body is raw JSON (also with no language), raw XML, form data or URL-encoded; these give `application/json`, `application/xml`, `multipart/form-data` and `application/x-www-form-urlencoded` |
| ContentType.InferredTypes | scripts/convert.js:130-141 | every inferred type is one of the four fixed media types |
| TestMethod.StoryLine | scripts/convert.js:174 | the `@Story` line holds no line break, for any folder name |
| TestMethod.DescriptionLine | scripts/convert.js:175 | the `@Description` line holds no line break, for any title |
| TestMethod.SignatureLine | scripts/convert.js:178 | the signature line holds no line break when the method name holds none |
| TestMethod.BaseUriLine | scripts/convert.js:180 | the `.baseUri(...)` line holds no line break |
| TestMethod.BearerLine | scripts/convert.js:184 | the bearer header line holds no line break, for any token |
| TestMethod.BasicLine | scripts/convert.js:186 | the basic credentials line holds no line break, for any user name and password |
| TestMethod.ContentTypeLine | scripts/convert.js:191 | the `.contentType(...)` line holds no line break |
| TestMethod.BodyLine | scripts/convert.js:195 | the `.body(...)` line holds no line break, for any body |
| TestMethod.VerbLine | scripts/convert.js:200 | the verb call line holds no line break when the verb holds none |
| TestMethod.PushAllure | scripts/convert.js:173-176 | appends the rendered `@Story` line (for a non-empty folder) and the `@Description` line, only when Allure is on |
| TestMethod.PushAuth | scripts/convert.js:182-188 | appends the bearer header line or the basic credentials line when there is auth |
| TestMethod.PushContentType | scripts/convert.js:190-192 | appends the content-type line when the content type is non-empty |
| TestMethod.PushBody | scripts/convert.js:194-196 | appends the body line when the trimmed raw body is non-empty |
| TestMethod.PushLines | scripts/convert.js:171-203 | the pushes produce `RenderAll(LinesOf(p, allure))`: the rendered lines for the computed values `p`, in push order |
| TestMethod.GenerateTestMethod | scripts/convert.js:155-206 | the method text is `MethodText`: the rendered lines of `MethodLines` for the item, joined with newlines |
| TestMethod.AnnotationCounts | scripts/convert.js:173-177 | from the computed values: one `@Test`, a `@Story` exactly when Allure is on and there is a folder, and a `@Description` exactly when Allure is on |
| TestMethod.SetupLineCounts | scripts/convert.js:182-196 | from the computed values: each of the auth, content-type and body lines appears once exactly when its value is present and non-empty, and never otherwise |
| TestMethod.AnnotationLines | scripts/convert.js:163-177 | `@Story` appears once if and only if Allure is on and the request's folder has a non-empty name; `@Description` appears once if and only if Allure is on; `@Test` appears once |
| TestMethod.ConditionalLines | scripts/convert.js:159-196 | the auth line appears if and only if auth resolves; the content-type line if and only if the content type is non-empty; the body line if and only if the body is raw and holds a non-whitespace character |
| TestMethod.MethodFrame | scripts/convert.js:157-203 | every method has at least nine lines and ends with `.when()`, the lowercased verb call on the resolved path, `.then()`, `.statusCode(200);` and the closing brace; an unset method gives `get` |
| TestMethod.RenderHasNoBreak | scripts/convert.js:174-203 | no rendered line holds a line break when the verb and the method name hold none |
| TestMethod.MethodNameHasNoBreak | scripts/convert.js:161 | the sanitised method name holds no line break |
| TestMethod.LinesOfValues | scripts/convert.js:178-200 | the verb call carries the computed verb and the signature the computed method name |
| TestMethod.RenderedLinesBreakFree | scripts/convert.js:171-203 | no rendered line of a method holds a line break when the request's method holds none |
| TestMethod.MethodTextSplits | scripts/convert.js:205 | splitting the method text at newlines gives back its rendered lines, one per pushed line |
| TestMethod.AnnotationDecodes | scripts/convert.js:174-175 | the `@Story` and `@Description` literals decode back to the folder name and the request title, and close at their own quote |
| Pom.PomAllureParts | scripts/convert.js:211-235 | the Allure dependencies and the Allure plugin each appear once when Allure is on, and never when it is off |
| Pom.PomBaseParts | scripts/convert.js:237-292 | the head, the build section and the closing segment each appear exactly once, either way |
| Pom.PomOrder | scripts/convert.js:237-292 | the dependencies follow Hamcrest, the plugin follows Surefire, and the file starts with the head and ends with the closing segment |
| Pom.PomWithoutAllure | scripts/convert.js:210-293 | removing the Allure segments from the Allure build file gives the plain one |
| TestClass.MethodTexts | scripts/convert.js:314 | one method text per request, in request order, each the generated method of that request |
| TestClass.ClassAllureParts | scripts/convert.js:298-312 | the Allure imports and the `setUp` method with the Allure filter each appear once when Allure is on; without Allure neither appears, and there is no set-up method at all |
| TestClass.ClassFixedParts | scripts/convert.js:316-329 | the prologue, the static imports and the closing brace each appear exactly once |
| TestClass.ClassNamedParts | scripts/convert.js:325-327 | the class is declared once, with the given name, and holds the method block once |
| TestClass.ClassDeclaresOnlyName | scripts/convert.js:325 | every declaration segment of the class carries the given name |
| TestClass.ClassWithoutAllure | scripts/convert.js:297-330 | without Allure the class is the five plain segments; removing the Allure segments from an Allure class leaves the same five |
| TestClass.BlockLinesJoin | scripts/convert.js:314 | the method block is each method's lines in request order, with exactly one empty line between neighbours, joined with newlines |
| TestClass.MethodsBlockSplits | scripts/convert.js:314 | splitting the method block at newlines gives back each method's lines in request order, blank-line separated |
| TestClass.OneTestPerRequest | scripts/convert.js:314 | the generated methods hold exactly one `@Test` per request |
| Convert.ConvertTestCount | scripts/convert.js:47 | the class holds one `@Test` per request leaf of the collection |
| Convert.ConvertNames | scripts/convert.js:338-349 | the build file is `pom.xml`; the class file is `src/test/java/tests/<name>Test.java`; the name is made of `[A-Za-z0-9_]` |
| Convert.ConvertDeclaresClass | scripts/convert.js:325 | the class file declares the class named after the collection, once |
| Convert.ConvertAllure | scripts/convert.js:342-347 | the Allure segments of both files are present exactly when Allure is on |
| Convert.OneFolderCollection | scripts/convert.js:34-47 | a request in the only folder becomes the only test, labelled with that folder; it gets a `@Story` exactly when Allure is on and the folder name is non-empty |

## Left out

- Command-line handling (lines 7-14) is not modelled: the argument vector, the usage message
  and the exit. The model takes the Allure flag as a boolean.
- Reading the collection file and `JSON.parse` (lines 18-25) are not modelled. The model
  starts from a parsed value: entries with `item` are folders, entries with only `request` are
  requests, and anything else is `Other`.
- Output (lines 334-352) is not modelled: `mkdirp`, `fs.writeFileSync`, `path.join` and the
  console summary. File paths are relative strings below the output directory.
- The WHATWG URL constructor (line 73) is a foreign call. It is the parameter `parse`, where
  `None` stands for a throw. The `{{...}}` substitution and the catch fallback are modelled.
- `toUpperCase` and `toLowerCase` are modelled on ASCII letters only. This is exact for every
  comparison the source makes; only a non-ASCII HTTP method would be lowercased differently in
  the verb call.
- Strings are sequences of Unicode scalar values, not UTF-16 code units.
- The port is a string. Array elements of `host` and `path` are strings; other JSON values
  there are not modelled.
- An auth entry or header without a `value` is modelled with `value` equal to `""`. This is
  exact everywhere except for a bearer `token` entry without a value, where the source's
  escaping would throw; the model gives an empty token.
- Version 2.0 bearer and basic descriptors given as objects instead of key/value arrays are
  not modelled: the source calls `find` on them (lines 106 and 111-112), which throws.
- The pom and class boilerplate are modelled as fixed text segments. Presence and counts are
  stated per segment, not as substring counts over the final text.
- Convert.ConvertNames: proves only that the class name is made of `[A-Za-z0-9_]`. A title
  that starts with a digit, such as `2024 API`, gives `2024APITest`, which is not a valid Java
  identifier; the source does not guard against this, and the model does not claim more.
- Identifier uniqueness is not modelled: the source does not disambiguate equal method names,
  so none is claimed.
- TestMethod.GenerateTestMethod: the line pushes are split into helper methods (PushAllure,
  PushAuth, PushContentType, PushBody, PushLines) rather than one method body; the shared
  line list is passed and returned instead of being a single local array.
