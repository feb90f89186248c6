/** The conversion as a whole: the collection name and the flattened requests feed the
    two generators, whose texts become the build file and the test class file. */
module Convert {
  import opened Optional
  import opened Text
  import opened Seqs
  import opened Collection
  import opened Flatten
  import opened Sanitize
  import opened UrlResolve
  import opened TestMethod
  import opened Pom
  import opened TestClass

  /** A generated file: its path below the output directory and its contents. */
  datatype OutputFile = OutputFile(path: string, content: string)

  datatype Output = Output(pom: OutputFile, testClass: OutputFile)

  /** `sanitizeClassName(info.name || 'PostmanCollection')`. */
  function CollectionName(c: PostmanCollection): string
  {
    SanitizeClassName(if c.name == "" then "PostmanCollection" else c.name)
  }

  /** `flattenItems(collection.item || [], null)`. */
  function Requests(c: PostmanCollection): seq<FlatRequest>
  {
    Flattened(c.items, None)
  }

  /** The directory of the test sources, `src/test/java/tests`. */
  const TestSourceDir: string := "src/test/java/tests/"

  /** The two files the converter writes, for the collection `c`. */
  function Convert(c: PostmanCollection, allure: bool, parse: string -> Option<ParsedUrl>): Output
  {
    var name := CollectionName(c);
    Output(OutputFile("pom.xml", GeneratePom(allure)),
           OutputFile(TestSourceDir + name + "Test.java",
                      GenerateTestClass(name, Requests(c), allure, parse)))
  }

  /** The class holds one `@Test` method per request leaf of the collection. */
  lemma ConvertTestCount(c: PostmanCollection, allure: bool, parse: string -> Option<ParsedUrl>)
    ensures |Requests(c)| == RequestCount(c.items)
    ensures Count(AllMethodLines(Requests(c), allure, parse), IsTest) == RequestCount(c.items)
  {
    FlattenedCount(c.items, None);
    OneTestPerRequest(Requests(c), allure, parse);
  }

  /** The test file is named after the class it declares, and that name is made of
      `[A-Za-z0-9_]`. */
  lemma ConvertNames(c: PostmanCollection, allure: bool, parse: string -> Option<ParsedUrl>)
    ensures Convert(c, allure, parse).testClass.path == TestSourceDir + CollectionName(c) + "Test.java"
    ensures Convert(c, allure, parse).pom.path == "pom.xml"
    ensures forall i :: 0 <= i < |CollectionName(c)| ==> IsIdentChar(CollectionName(c)[i])
  {
    ClassNameKeepsIdentChars(if c.name == "" then "PostmanCollection" else c.name);
  }

  /** The class file declares the class its path names, once. */
  lemma ConvertDeclaresClass(c: PostmanCollection, allure: bool, parse: string -> Option<ParsedUrl>)
    ensures var name := CollectionName(c);
      Occurrences(ClassParts(name, MethodsBlock(Requests(c), allure, parse), allure), Declaration(name)) == 1
  {
    ClassNamedParts(CollectionName(c), MethodsBlock(Requests(c), allure, parse), allure);
  }

  /** The Allure segments of both files are present exactly when Allure is on. */
  lemma ConvertAllure(c: PostmanCollection, allure: bool, parse: string -> Option<ParsedUrl>)
    ensures Occurrences(PomParts(allure), AllureDependencies) == Indicator(allure)
    ensures Occurrences(PomParts(allure), AllurePlugin) == Indicator(allure)
    ensures var parts := ClassParts(CollectionName(c), MethodsBlock(Requests(c), allure, parse), allure);
      && Occurrences(parts, AllureImports) == Indicator(allure)
      && Occurrences(parts, SetupMethod(AllureFilter)) == Indicator(allure)
  {
    PomAllureParts(allure);
    ClassAllureParts(CollectionName(c), MethodsBlock(Requests(c), allure, parse), allure);
  }

  /** A request inside a folder, inside a one-folder collection, becomes the single test of
      the class, carrying the folder's name. */
  lemma OneFolderCollection(name: string, folder: string, title: string, req: HttpRequest,
                            allure: bool, parse: string -> Option<ParsedUrl>)
    ensures var c := PostmanCollection(name, [Folder(folder, [Request(title, req)])]);
      && Requests(c) == [FlatRequest(title, req, Some(folder))]
      && Count(AllMethodLines(Requests(c), allure, parse), IsTest) == 1
      && Count(AllMethodLines(Requests(c), allure, parse), IsStory) == Indicator(allure && folder != "")
  {
    var c := PostmanCollection(name, [Folder(folder, [Request(title, req)])]);
    var r := FlatRequest(title, req, Some(folder));
    assert [Request(title, req)][1..] == [];
    assert Flattened([Request(title, req)], Some(folder)) == [r] + Flattened([], Some(folder));
    assert Flattened([Request(title, req)], Some(folder)) == [r];
    assert c.items[1..] == [];
    assert Flattened(c.items, None) == Flattened([Request(title, req)], Some(folder)) + Flattened([], None);
    assert Requests(c) == [r];
    OneTestPerRequest([r], allure, parse);
    AnnotationLines(r, allure, parse);
    assert AllMethodLines([r], allure, parse) == MethodLines(r, allure, parse) + [];
    assert MethodLines(r, allure, parse) + [] == MethodLines(r, allure, parse);
  }
}
