/** `generatePom`: the Maven build file, with the Allure dependencies and the Allure
    plugin switched on and off by one flag. */
module Pom {
  import opened Text
  import opened Seqs

  /** The fixed segments of the build file, in template order. */
  datatype PomPart =
    | PomHead             // the XML declaration through the Hamcrest dependency
    | AllureDependencies  // allure-rest-assured and allure-testng
    | PomBuild            // the end of the dependencies, the build section and Surefire
    | AllurePlugin        // allure-maven
    | PomClose            // the end of the plugins, the build section and the project

  predicate IsAllurePart(p: PomPart)
  {
    p.AllureDependencies? || p.AllurePlugin?
  }

  /** The text of each segment; each Allure segment begins with the line break that
      the template places after the preceding element. */
  function PartText(p: PomPart): string
  {
    match p
    case PomHead => @"<?xml version=""1.0"" encoding=""UTF-8""?>
<project xmlns=""http://maven.apache.org/POM/4.0.0""
         xmlns:xsi=""http://www.w3.org/2001/XMLSchema-instance""
         xsi:schemaLocation=""http://maven.apache.org/POM/4.0.0
             http://maven.apache.org/xsd/maven-4.0.0.xsd"">
    <modelVersion>4.0.0</modelVersion>

    <groupId>com.generated</groupId>
    <artifactId>restassured-tests</artifactId>
    <version>1.0.0</version>
    <packaging>jar</packaging>

    <properties>
        <maven.compiler.source>11</maven.compiler.source>
        <maven.compiler.target>11</maven.compiler.target>
        <project.build.sourceEncoding>UTF-8</project.build.sourceEncoding>
    </properties>

    <dependencies>
        <!-- RestAssured -->
        <dependency>
            <groupId>io.rest-assured</groupId>
            <artifactId>rest-assured</artifactId>
            <version>5.4.0</version>
            <scope>test</scope>
        </dependency>

        <!-- TestNG -->
        <dependency>
            <groupId>org.testng</groupId>
            <artifactId>testng</artifactId>
            <version>7.8.0</version>
            <scope>test</scope>
        </dependency>

        <!-- Hamcrest -->
        <dependency>
            <groupId>org.hamcrest</groupId>
            <artifactId>hamcrest</artifactId>
            <version>2.2</version>
            <scope>test</scope>
        </dependency>"
    case AllureDependencies => @"
        <!-- Allure RestAssured -->
        <dependency>
            <groupId>io.qameta.allure</groupId>
            <artifactId>allure-rest-assured</artifactId>
            <version>2.24.0</version>
        </dependency>

        <!-- Allure TestNG -->
        <dependency>
            <groupId>io.qameta.allure</groupId>
            <artifactId>allure-testng</artifactId>
            <version>2.24.0</version>
        </dependency>"
    case PomBuild => @"
    </dependencies>

    <build>
        <plugins>
            <!-- Maven Surefire Plugin -->
            <plugin>
                <groupId>org.apache.maven.plugins</groupId>
                <artifactId>maven-surefire-plugin</artifactId>
                <version>3.1.2</version>
            </plugin>"
    case AllurePlugin => @"
            <!-- Allure Maven Plugin -->
            <plugin>
                <groupId>io.qameta.allure</groupId>
                <artifactId>allure-maven</artifactId>
                <version>2.12.0</version>
                <configuration>
                    <reportVersion>2.24.0</reportVersion>
                </configuration>
            </plugin>"
    case PomClose => @"
        </plugins>
    </build>
</project>
"
  }

  /** The segments the template produces: an Allure segment is the empty string when
      Allure is off. */
  function PomParts(allure: bool): seq<PomPart>
  {
    [PomHead] + (if allure then [AllureDependencies] else []) + [PomBuild]
    + (if allure then [AllurePlugin] else []) + [PomClose]
  }

  function PartTexts(parts: seq<PomPart>): (texts: seq<string>)
    ensures |texts| == |parts|
    ensures forall i :: 0 <= i < |parts| ==> texts[i] == PartText(parts[i])
  {
    seq(|parts|, i requires 0 <= i < |parts| => PartText(parts[i]))
  }

  /** `generatePom(enableAllure)`. */
  function GeneratePom(allure: bool): string
  {
    Join(PartTexts(PomParts(allure)), "")
  }

  /** A count over the segments is the sum over the five template slots. */
  lemma {:induction false} PomPartsCount(allure: bool, x: PomPart)
    ensures Occurrences(PomParts(allure), x) ==
      Occurrences([PomHead], x) + Occurrences(if allure then [AllureDependencies] else [], x)
      + Occurrences([PomBuild], x) + Occurrences(if allure then [AllurePlugin] else [], x)
      + Occurrences([PomClose], x)
  {
    var d := if allure then [AllureDependencies] else [];
    var pl := if allure then [AllurePlugin] else [];
    OccurrencesAppend([PomHead], d, x);
    OccurrencesAppend([PomHead] + d, [PomBuild], x);
    OccurrencesAppend([PomHead] + d + [PomBuild], pl, x);
    OccurrencesAppend([PomHead] + d + [PomBuild] + pl, [PomClose], x);
  }

  /** The Allure dependencies and the Allure plugin each appear once when Allure is on
      and not at all when it is off. */
  lemma PomAllureParts(allure: bool)
    ensures Occurrences(PomParts(allure), AllureDependencies) == Indicator(allure)
    ensures Occurrences(PomParts(allure), AllurePlugin) == Indicator(allure)
  {
    PomPartsCount(allure, AllureDependencies);
    PomPartsCount(allure, AllurePlugin);
  }

  /** The other segments appear exactly once either way. */
  lemma PomBaseParts(allure: bool)
    ensures Occurrences(PomParts(allure), PomHead) == 1
    ensures Occurrences(PomParts(allure), PomBuild) == 1
    ensures Occurrences(PomParts(allure), PomClose) == 1
  {
    PomPartsCount(allure, PomHead);
    PomPartsCount(allure, PomBuild);
    PomPartsCount(allure, PomClose);
  }

  /** The Allure dependencies sit inside the dependencies element (right after the
      Hamcrest dependency) and the Allure plugin inside the plugins element (right after
      Surefire); the file opens with the head and ends with the closing segment. */
  lemma PomOrder(allure: bool)
    ensures var parts := PomParts(allure);
      && parts[0] == PomHead && parts[|parts| - 1] == PomClose
      && (allure ==> parts == [PomHead, AllureDependencies, PomBuild, AllurePlugin, PomClose])
      && (!allure ==> parts == [PomHead, PomBuild, PomClose])
  {
  }

  /** Removing the Allure segments from the Allure build file gives the plain one. */
  lemma {:induction false} PomWithoutAllure()
    ensures Filter(PomParts(true), p => !IsAllurePart(p)) == PomParts(false)
  {
    var keep := (p: PomPart) => !IsAllurePart(p);
    var parts := PomParts(true);
    assert parts == [PomHead] + [AllureDependencies] + [PomBuild] + [AllurePlugin] + [PomClose];
    FilterAppend([PomHead], [AllureDependencies], keep);
    FilterAppend([PomHead] + [AllureDependencies], [PomBuild], keep);
    FilterAppend([PomHead] + [AllureDependencies] + [PomBuild], [AllurePlugin], keep);
    FilterAppend([PomHead] + [AllureDependencies] + [PomBuild] + [AllurePlugin], [PomClose], keep);
  }
}
