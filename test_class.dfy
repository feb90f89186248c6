/** `generateTestClass`: the Java source of the test class, with the Allure imports and
    the `setUp` method switched on and off by one flag, and one method per request. */
module TestClass {
  import opened Optional
  import opened Text
  import opened Seqs
  import opened Collection
  import opened UrlResolve
  import opened TestMethod

  /** The segments of the class source, in template order. */
  datatype ClassPart =
    | Prologue                      // the package clause and the RestAssured and TestNG imports
    | AllureImports                 // Description, Story and AllureRestAssured
    | StaticImports                 // `given` and the Hamcrest matchers
    | Declaration(className: string)
    | SetupMethod(filterLine: string)
    | Methods(block: string)
    | ClassClose

  predicate IsAllurePart(p: ClassPart)
  {
    p.AllureImports? || p.SetupMethod?
  }

  /** The statement that installs the Allure filter. */
  const AllureFilter: string := @"        RestAssured.filters(new AllureRestAssured());"

  /** `filterLine`: the Allure filter statement when Allure is on, else empty. */
  function FilterLine(allure: bool): string
  {
    if allure then AllureFilter else ""
  }

  function PartText(p: ClassPart): string
  {
    match p
    case Prologue => @"package tests;

import io.restassured.RestAssured;
import org.testng.annotations.BeforeClass;
import org.testng.annotations.Test;"
    case AllureImports => @"
import io.qameta.allure.Description;
import io.qameta.allure.Story;
import io.qameta.allure.restassured.AllureRestAssured;"
    case StaticImports => @"

import static io.restassured.RestAssured.given;
import static org.hamcrest.Matchers.*;

"
    case Declaration(name) => "public class " + name + "Test {\n"
    case SetupMethod(filterLine) => "\n    @BeforeClass\n    public void setUp() {\n" + filterLine + "\n    }\n"
    case Methods(block) => "\n" + block
    case ClassClose => "\n}\n"
  }

  function PartTexts(parts: seq<ClassPart>): (texts: seq<string>)
    ensures |texts| == |parts|
    ensures forall i :: 0 <= i < |parts| ==> texts[i] == PartText(parts[i])
  {
    seq(|parts|, i requires 0 <= i < |parts| => PartText(parts[i]))
  }

  /** The rendered lines of each request's method, in request order. */
  function RenderedMethods(requests: seq<FlatRequest>, allure: bool, parse: string -> Option<ParsedUrl>)
    : (blocks: seq<seq<string>>)
    ensures |blocks| == |requests|
    ensures forall i :: 0 <= i < |requests| ==> blocks[i] == RenderAll(MethodLines(requests[i], allure, parse))
  {
    seq(|requests|, i requires 0 <= i < |requests| => RenderAll(MethodLines(requests[i], allure, parse)))
  }

  /** `requests.map(item => generateTestMethod(item, enableAllure))`: one method text per
      request, in request order. */
  function MethodTexts(requests: seq<FlatRequest>, allure: bool, parse: string -> Option<ParsedUrl>)
    : (texts: seq<string>)
    ensures |texts| == |requests|
    ensures forall i :: 0 <= i < |requests| ==> texts[i] == MethodText(requests[i], allure, parse)
  {
    JoinEach(RenderedMethods(requests, allure, parse), "\n")
  }

  /** The method texts joined with a blank line between neighbours. */
  function MethodsBlock(requests: seq<FlatRequest>, allure: bool, parse: string -> Option<ParsedUrl>): string
  {
    Join(MethodTexts(requests, allure, parse), "\n\n")
  }

  /** The segments the template produces around the method block: `setupMethod` is
      present exactly when `filterLine` is non-empty. */
  function ClassParts(className: string, block: string, allure: bool): seq<ClassPart>
  {
    [Prologue] + (if allure then [AllureImports] else []) + [StaticImports, Declaration(className)]
    + (if FilterLine(allure) != "" then [SetupMethod(FilterLine(allure))] else [])
    + [Methods(block), ClassClose]
  }

  /** `generateTestClass(collectionName, requests, enableAllure)`. */
  function GenerateTestClass(className: string, requests: seq<FlatRequest>, allure: bool,
                             parse: string -> Option<ParsedUrl>): string
  {
    Join(PartTexts(ClassParts(className, MethodsBlock(requests, allure, parse), allure)), "")
  }

  // ----- which segments the class has -----

  lemma {:induction false} ClassPartsCount(className: string, block: string, allure: bool, x: ClassPart)
    ensures Occurrences(ClassParts(className, block, allure), x) ==
        Occurrences([Prologue], x) + Occurrences(if allure then [AllureImports] else [], x)
        + Occurrences([StaticImports, Declaration(className)], x)
        + Occurrences(if FilterLine(allure) != "" then [SetupMethod(FilterLine(allure))] else [], x)
        + Occurrences([Methods(block), ClassClose], x)
  {
    var ai := if allure then [AllureImports] else [];
    var sm := if FilterLine(allure) != "" then [SetupMethod(FilterLine(allure))] else [];
    var decl := [StaticImports, Declaration(className)];
    OccurrencesAppend([Prologue], ai, x);
    OccurrencesAppend([Prologue] + ai, decl, x);
    OccurrencesAppend([Prologue] + ai + decl, sm, x);
    OccurrencesAppend([Prologue] + ai + decl + sm, [Methods(block), ClassClose], x);
  }

  /** The Allure imports and the `setUp` method that installs the Allure filter each
      appear once when Allure is on; without Allure there is neither, and no set-up
      method of any kind. */
  lemma ClassAllureParts(className: string, block: string, allure: bool)
    ensures var parts := ClassParts(className, block, allure);
      && Occurrences(parts, AllureImports) == Indicator(allure)
      && Occurrences(parts, SetupMethod(AllureFilter)) == Indicator(allure)
      && (!allure ==> forall k :: 0 <= k < |parts| ==> !parts[k].SetupMethod?)
  {
    assert |AllureFilter| > 0;
    ClassPartsCount(className, block, allure, AllureImports);
    ClassPartsCount(className, block, allure, SetupMethod(AllureFilter));
  }

  /** The prologue, the static imports and the closing brace appear once either way. */
  lemma ClassFixedParts(className: string, block: string, allure: bool)
    ensures Occurrences(ClassParts(className, block, allure), Prologue) == 1
    ensures Occurrences(ClassParts(className, block, allure), StaticImports) == 1
    ensures Occurrences(ClassParts(className, block, allure), ClassClose) == 1
  {
    ClassPartsCount(className, block, allure, Prologue);
    ClassPartsCount(className, block, allure, StaticImports);
    ClassPartsCount(className, block, allure, ClassClose);
  }

  /** The class is declared once, as `className + "Test"`, and holds the method block
      once. */
  lemma ClassNamedParts(className: string, block: string, allure: bool)
    ensures Occurrences(ClassParts(className, block, allure), Declaration(className)) == 1
    ensures Occurrences(ClassParts(className, block, allure), Methods(block)) == 1
  {
    ClassPartsCount(className, block, allure, Declaration(className));
    ClassPartsCount(className, block, allure, Methods(block));
  }

  /** Every declaration segment carries the class name: no other class is declared. */
  lemma ClassDeclaresOnlyName(className: string, block: string, allure: bool)
    ensures forall k :: 0 <= k < |ClassParts(className, block, allure)| ==>
      ClassParts(className, block, allure)[k].Declaration? ==>
      ClassParts(className, block, allure)[k].className == className
  {
  }

  /** Without Allure the class has five segments; removing the Allure segments from an
      Allure class leaves the same five. */
  lemma {:induction false} ClassWithoutAllure(className: string, block: string)
    ensures ClassParts(className, block, false)
      == [Prologue, StaticImports, Declaration(className), Methods(block), ClassClose]
    ensures Filter(ClassParts(className, block, true), p => !IsAllurePart(p))
      == [Prologue, StaticImports, Declaration(className), Methods(block), ClassClose]
  {
    var keep := (p: ClassPart) => !IsAllurePart(p);
    var tail := [Methods(block), ClassClose];
    var decl := [StaticImports, Declaration(className)];
    assert |AllureFilter| > 0;
    assert ClassParts(className, block, true)
      == [Prologue] + [AllureImports] + decl + [SetupMethod(AllureFilter)] + tail;
    FilterAppend([Prologue], [AllureImports], keep);
    FilterAppend([Prologue] + [AllureImports], decl, keep);
    FilterAppend([Prologue] + [AllureImports] + decl, [SetupMethod(AllureFilter)], keep);
    FilterAppend([Prologue] + [AllureImports] + decl + [SetupMethod(AllureFilter)], tail, keep);
    assert Filter(decl, keep) == decl by {
      assert decl[1..][1..] == [];
    }
    assert Filter(tail, keep) == tail by {
      assert tail[1..][1..] == [];
    }
  }

  // ----- the method block -----

  /** The lines of the method block: each method's lines, in request order, with one
      empty line between neighbours. */
  function BlockLines(requests: seq<FlatRequest>, allure: bool, parse: string -> Option<ParsedUrl>)
    : seq<string>
  {
    BlankSeparated(RenderedMethods(requests, allure, parse))
  }

  /** The method block is the join of the block lines: methods are separated by exactly
      one blank line. */
  lemma BlockLinesJoin(requests: seq<FlatRequest>, allure: bool, parse: string -> Option<ParsedUrl>)
    ensures MethodsBlock(requests, allure, parse) == Join(BlockLines(requests, allure, parse), "\n")
    ensures requests != [] ==> |BlockLines(requests, allure, parse)| > 0
  {
    var blocks := RenderedMethods(requests, allure, parse);
    forall i | 0 <= i < |blocks| ensures |blocks[i]| > 0 {
      MethodFrame(requests[i], allure, parse);
    }
    JoinBlankSeparated(blocks, '\n');
  }

  /** Splitting the method block at newlines gives each method's lines in request order,
      with one empty line between neighbours, when no request's method holds a line
      break. */
  lemma MethodsBlockSplits(requests: seq<FlatRequest>, allure: bool, parse: string -> Option<ParsedUrl>)
    requires requests != []
    requires forall i :: 0 <= i < |requests| ==> '\n' !in requests[i].request.verb
    ensures Split(MethodsBlock(requests, allure, parse), '\n') == BlockLines(requests, allure, parse)
  {
    var blocks := RenderedMethods(requests, allure, parse);
    BlockLinesJoin(requests, allure, parse);
    forall i | 0 <= i < |blocks| ensures forall k :: 0 <= k < |blocks[i]| ==> '\n' !in blocks[i][k] {
      RenderedLinesBreakFree(requests[i], allure, parse);
    }
    BlankSeparatedFree(blocks, '\n');
    SplitJoin(BlockLines(requests, allure, parse), '\n');
  }

  /** The lines of all generated methods, in request order. */
  function AllMethodLines(requests: seq<FlatRequest>, allure: bool, parse: string -> Option<ParsedUrl>)
    : seq<Line>
  {
    if requests == [] then []
    else MethodLines(requests[0], allure, parse) + AllMethodLines(requests[1..], allure, parse)
  }

  /** One `@Test` method per request. */
  lemma {:induction false} OneTestPerRequest(requests: seq<FlatRequest>, allure: bool,
                                             parse: string -> Option<ParsedUrl>)
    ensures Count(AllMethodLines(requests, allure, parse), IsTest) == |requests|
  {
    if requests != [] {
      OneTestPerRequest(requests[1..], allure, parse);
      AnnotationLines(requests[0], allure, parse);
      CountAppend(MethodLines(requests[0], allure, parse), AllMethodLines(requests[1..], allure, parse), IsTest);
    }
  }
}
