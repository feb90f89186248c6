/** The identifier sanitisers `sanitizeClassName` and `sanitizeMethodName`: a character
    filter, a split on whitespace runs, per-word casing and concatenation. */
module Sanitize {
  import opened Text

  /** `replace(/[^a-zA-Z0-9_\s]/g, '')`: only identifier characters and whitespace survive. */
  function KeepWordAndSpace(s: string): string
  {
    if s == [] then []
    else if IsIdentChar(s[0]) || IsJsWhitespace(s[0]) then [s[0]] + KeepWordAndSpace(s[1..])
    else KeepWordAndSpace(s[1..])
  }

  /** The identifier characters of `s`, in order: the reference for what a sanitised name keeps. */
  function IdentChars(s: string): string
  {
    if s == [] then []
    else if IsIdentChar(s[0]) then [s[0]] + IdentChars(s[1..])
    else IdentChars(s[1..])
  }

  /** `s` with every whitespace character removed. */
  function NonSpace(s: string): string
  {
    if s == [] then []
    else if IsJsWhitespace(s[0]) then NonSpace(s[1..])
    else [s[0]] + NonSpace(s[1..])
  }

  /** The longest prefix of `s` with no whitespace. */
  function LeadingWord(s: string): (w: string)
    ensures |w| <= |s|
  {
    if s == [] || IsJsWhitespace(s[0]) then [] else [s[0]] + LeadingWord(s[1..])
  }

  /** `LeadingWord` is the longest whitespace-free prefix. */
  lemma {:induction false} LeadingWordSpec(s: string)
    ensures |LeadingWord(s)| <= |s| && LeadingWord(s) == s[..|LeadingWord(s)|]
    ensures forall i :: 0 <= i < |LeadingWord(s)| ==> !IsJsWhitespace(LeadingWord(s)[i])
    ensures |LeadingWord(s)| < |s| ==> IsJsWhitespace(s[|LeadingWord(s)|])
  {
    if s != [] && !IsJsWhitespace(s[0]) {
      LeadingWordSpec(s[1..]);
    }
  }

  /** `s.split(/\s+/)`: the pieces between maximal whitespace runs. A leading run gives
      an empty first piece, a trailing run an empty last piece, and "" gives [""]. */
  function SplitOnSpace(s: string): (words: seq<string>)
    ensures |words| > 0
    decreases |s|
  {
    var w := LeadingWord(s);
    LeadingWordSpec(s);
    var rest := s[|w|..];
    if rest == [] then [w]
    else
      var next := TrimStart(rest);
      TrimStartShorter(rest);
      [w] + SplitOnSpace(next)
  }

  lemma TrimStartShorter(s: string)
    requires s != [] && IsJsWhitespace(s[0])
    ensures |TrimStart(s)| < |s|
    ensures s == s[..|s| - |TrimStart(s)|] + TrimStart(s)
    ensures forall i :: 0 <= i < |s| - |TrimStart(s)| ==> IsJsWhitespace(s[i])
  {
    TrimStartSpec(s);
  }

  /** `w.charAt(0).toUpperCase() + w.slice(1)`. */
  function Capitalize(w: string): string
  {
    if w == [] then [] else [ToUpper(w[0])] + w[1..]
  }

  /** `w.charAt(0).toLowerCase() + w.slice(1)`. */
  function Uncapitalize(w: string): string
  {
    if w == [] then [] else [ToLower(w[0])] + w[1..]
  }

  function CapitalizeAll(ws: seq<string>): seq<string>
  {
    if ws == [] then [] else [Capitalize(ws[0])] + CapitalizeAll(ws[1..])
  }

  /** `sanitizeClassName(name)`: every word capitalised, concatenated. */
  function SanitizeClassName(name: string): string
  {
    Join(CapitalizeAll(SplitOnSpace(KeepWordAndSpace(name))), "")
  }

  /** `sanitizeMethodName(name)`: camel case (first word uncapitalised), then `test`
      followed by the capitalised camel-case text. */
  function SanitizeMethodName(name: string): string
  {
    var words := SplitOnSpace(KeepWordAndSpace(name));
    var base := Join([Uncapitalize(words[0])] + CapitalizeAll(words[1..]), "");
    "test" + Capitalize(base)
  }

  // ----- lemmas -----

  lemma {:induction false} LowerAppend(a: string, b: string)
    ensures Lower(a + b) == Lower(a) + Lower(b)
  {
    assert forall i :: 0 <= i < |a + b| ==> Lower(a + b)[i] == (Lower(a) + Lower(b))[i];
  }

  lemma {:induction false} NonSpaceAppend(a: string, b: string)
    ensures NonSpace(a + b) == NonSpace(a) + NonSpace(b)
  {
    if a == [] {
      assert a + b == b;
    } else {
      assert (a + b)[1..] == a[1..] + b;
      NonSpaceAppend(a[1..], b);
    }
  }

  lemma {:induction false} NonSpaceOfWord(w: string)
    requires forall i :: 0 <= i < |w| ==> !IsJsWhitespace(w[i])
    ensures NonSpace(w) == w
  {
    if w != [] {
      NonSpaceOfWord(w[1..]);
    }
  }

  lemma {:induction false} NonSpaceOfSpace(s: string)
    requires forall i :: 0 <= i < |s| ==> IsJsWhitespace(s[i])
    ensures NonSpace(s) == []
  {
    if s != [] {
      NonSpaceOfSpace(s[1..]);
    }
  }

  lemma NonSpaceAfterWord(s: string)
    ensures NonSpace(s) == LeadingWord(s) + NonSpace(s[|LeadingWord(s)|..])
  {
    var w := LeadingWord(s);
    LeadingWordSpec(s);
    assert s == w + s[|w|..];
    NonSpaceAppend(w, s[|w|..]);
    NonSpaceOfWord(w);
  }

  lemma NonSpaceSkipGap(rest: string)
    requires rest != [] && IsJsWhitespace(rest[0])
    ensures NonSpace(rest) == NonSpace(TrimStart(rest))
  {
    var next := TrimStart(rest);
    TrimStartShorter(rest);
    var gap := rest[..|rest| - |next|];
    NonSpaceAppend(gap, next);
    NonSpaceOfSpace(gap);
  }

  lemma SplitOnSpaceUnfold(s: string)
    ensures var w := LeadingWord(s); var rest := s[|w|..];
      && (rest == [] ==> SplitOnSpace(s) == [w])
      && (rest != [] ==> SplitOnSpace(s) == [w] + SplitOnSpace(TrimStart(rest)))
  {
  }

  /** Concatenating the pieces of the split gives the input without its whitespace. */
  lemma {:induction false} SplitOnSpaceJoin(s: string)
    ensures Join(SplitOnSpace(s), "") == NonSpace(s)
    decreases |s|
  {
    var w := LeadingWord(s);
    LeadingWordSpec(s);
    var rest := s[|w|..];
    NonSpaceAfterWord(s);
    SplitOnSpaceUnfold(s);
    if rest == [] {
      assert NonSpace(rest) == [];
      assert NonSpace(s) == w + [];
    } else {
      var next := TrimStart(rest);
      TrimStartShorter(rest);
      NonSpaceSkipGap(rest);
      var tail := SplitOnSpace(next);
      SplitOnSpaceJoin(next);
      JoinAppend([w], tail, "");
      calc {
        Join(SplitOnSpace(s), "");
        Join([w] + tail, "");
        w + "" + Join(tail, "");
        { assert w + "" == w; }
        w + Join(tail, "");
        w + NonSpace(next);
        NonSpace(s);
      }
    }
  }

  /** The filter followed by removing whitespace keeps exactly the identifier characters. */
  lemma {:induction false} KeepThenNonSpace(s: string)
    ensures NonSpace(KeepWordAndSpace(s)) == IdentChars(s)
  {
    if s != [] {
      KeepThenNonSpace(s[1..]);
      if IsIdentChar(s[0]) || IsJsWhitespace(s[0]) {
        NonSpaceAppend([s[0]], KeepWordAndSpace(s[1..]));
      }
    }
  }

  lemma {:induction false} LowerCapitalizeAll(ws: seq<string>)
    ensures Lower(Join(CapitalizeAll(ws), "")) == Lower(Join(ws, ""))
  {
    if |ws| > 0 {
      var w := ws[0];
      assert Lower(Capitalize(w)) == Lower(w) by {
        if w != [] {
          LowerAppend([ToUpper(w[0])], w[1..]);
          LowerAppend([w[0]], w[1..]);
          assert [w[0]] + w[1..] == w;
        }
      }
      if |ws| > 1 {
        LowerCapitalizeAll(ws[1..]);
        assert CapitalizeAll(ws)[1..] == CapitalizeAll(ws[1..]);
        LowerAppend(Capitalize(w), Join(CapitalizeAll(ws[1..]), ""));
        LowerAppend(w, Join(ws[1..], ""));
        assert Capitalize(w) + "" + Join(CapitalizeAll(ws[1..]), "") == Capitalize(w) + Join(CapitalizeAll(ws[1..]), "");
        assert w + "" + Join(ws[1..], "") == w + Join(ws[1..], "");
      }
    }
  }

  /** The class name keeps the identifier characters of the title, in order, and
      changes at most their letter case; so it is made of `[A-Za-z0-9_]` only and
      holds no whitespace. */
  lemma ClassNameKeepsIdentChars(name: string)
    ensures Lower(SanitizeClassName(name)) == Lower(IdentChars(name))
    ensures |SanitizeClassName(name)| == |IdentChars(name)|
    ensures forall i :: 0 <= i < |SanitizeClassName(name)| ==> IsIdentChar(SanitizeClassName(name)[i])
  {
    var kept := KeepWordAndSpace(name);
    LowerCapitalizeAll(SplitOnSpace(kept));
    SplitOnSpaceJoin(kept);
    KeepThenNonSpace(name);
    IdentCharsAreIdent(name);
    var r := SanitizeClassName(name);
    var ids := IdentChars(name);
    assert |Lower(r)| == |r|;
    forall i | 0 <= i < |r| ensures IsIdentChar(r[i]) {
      assert Lower(r)[i] == ToLower(r[i]);
      assert Lower(ids)[i] == ToLower(ids[i]);
    }
  }

  lemma {:induction false} IdentCharsAreIdent(s: string)
    ensures forall i :: 0 <= i < |IdentChars(s)| ==> IsIdentChar(IdentChars(s)[i])
  {
    if s != [] {
      IdentCharsAreIdent(s[1..]);
    }
  }

  /** A capitalised concatenation of capitalised words is unchanged by capitalising again. */
  lemma {:induction false} CapitalizeJoinCapitalized(ws: seq<string>)
    ensures Capitalize(Join(CapitalizeAll(ws), "")) == Join(CapitalizeAll(ws), "")
  {
    if |ws| > 1 {
      var rest := Join(CapitalizeAll(ws[1..]), "");
      assert CapitalizeAll(ws)[1..] == CapitalizeAll(ws[1..]);
      assert Join(CapitalizeAll(ws), "") == Capitalize(ws[0]) + rest;
      if ws[0] == [] {
        assert Capitalize(ws[0]) + "" + rest == rest;
        CapitalizeJoinCapitalized(ws[1..]);
      } else {
        assert (Capitalize(ws[0]) + "" + rest)[0] == ToUpper(ws[0][0]);
      }
    }
  }

  lemma CapitalizeUncapitalize(w: string, tail: string)
    requires w != []
    ensures Capitalize(Uncapitalize(w) + tail) == Capitalize(w) + tail
  {
    var x := Uncapitalize(w) + tail;
    assert x == [ToLower(w[0])] + (w[1..] + tail);
    assert x[0] == ToLower(w[0]) && x[1..] == w[1..] + tail;
    UpperOfLower(w[0]);
    assert Capitalize(x) == [ToUpper(w[0])] + (w[1..] + tail);
    assert Capitalize(w) + tail == [ToUpper(w[0])] + w[1..] + tail;
  }

  /** The method name is `test` followed by the class-name form of the same title. */
  lemma MethodNameIsTestPlusClassName(name: string)
    ensures SanitizeMethodName(name) == "test" + SanitizeClassName(name)
  {
    var words := SplitOnSpace(KeepWordAndSpace(name));
    var w := words[0];
    var rest := CapitalizeAll(words[1..]);
    assert CapitalizeAll(words) == [Capitalize(w)] + rest;
    if |words| == 1 {
      if w != [] {
        CapitalizeUncapitalize(w, "");
        assert Uncapitalize(w) + "" == Uncapitalize(w);
        assert Capitalize(w) + "" == Capitalize(w);
      }
    } else {
      JoinAppend([Uncapitalize(w)], rest, "");
      JoinAppend([Capitalize(w)], rest, "");
      var tail := Join(rest, "");
      if w != [] {
        CapitalizeUncapitalize(w, "" + tail);
        assert Uncapitalize(w) + "" + tail == Uncapitalize(w) + ("" + tail);
      } else {
        assert Uncapitalize(w) + "" + tail == tail;
        assert Capitalize(w) + "" + tail == tail;
        CapitalizeJoinCapitalized(words[1..]);
      }
    }
  }

  /** The method name always starts with `test`, is made of `[A-Za-z0-9_]`, and is
      exactly `test` when the title holds no identifier character. */
  lemma MethodNameShape(name: string)
    ensures StartsWith(SanitizeMethodName(name), "test")
    ensures forall i :: 0 <= i < |SanitizeMethodName(name)| ==> IsIdentChar(SanitizeMethodName(name)[i])
    ensures SanitizeMethodName(name) == "test" <==> IdentChars(name) == []
  {
    MethodNameIsTestPlusClassName(name);
    ClassNameKeepsIdentChars(name);
    StartsWithConcat("test", SanitizeClassName(name));
    var r := SanitizeMethodName(name);
    forall i | 0 <= i < |r| ensures IsIdentChar(r[i]) {
      if i >= 4 {
        assert r[i] == SanitizeClassName(name)[i - 4];
      }
    }
  }

  /** The filter distributes over concatenation. */
  lemma {:induction false} KeepAppend(a: string, b: string)
    ensures KeepWordAndSpace(a + b) == KeepWordAndSpace(a) + KeepWordAndSpace(b)
  {
    if a == [] {
      assert a + b == b;
    } else {
      assert (a + b)[1..] == a[1..] + b;
      KeepAppend(a[1..], b);
    }
  }

  lemma {:induction false} KeepOfIdent(a: string)
    requires forall i :: 0 <= i < |a| ==> IsIdentChar(a[i])
    ensures KeepWordAndSpace(a) == a
  {
    if a != [] {
      KeepOfIdent(a[1..]);
    }
  }

  lemma {:induction false} LeadingWordOfIdent(a: string, rest: string)
    requires forall i :: 0 <= i < |a| ==> IsIdentChar(a[i])
    requires rest == [] || IsJsWhitespace(rest[0])
    ensures LeadingWord(a + rest) == a
  {
    if a == [] {
      assert a + rest == rest;
    } else {
      assert (a + rest)[1..] == a[1..] + rest;
      LeadingWordOfIdent(a[1..], rest);
    }
  }

  /** Two identifier words joined by one space split back into those two words. */
  lemma SplitTwoWords(a: string, b: string)
    requires a != [] && b != []
    requires forall i :: 0 <= i < |a| ==> IsIdentChar(a[i])
    requires forall i :: 0 <= i < |b| ==> IsIdentChar(b[i])
    ensures SplitOnSpace(a + " " + b) == [a, b]
  {
    var s := a + " " + b;
    LeadingWordOfIdent(a, " " + b);
    assert s == a + (" " + b);
    assert s[|a|..] == " " + b;
    assert TrimStart(" " + b) == b by {
      assert (" " + b)[1..] == b;
    }
    LeadingWordOfIdent(b, []);
    assert b + [] == b;
    SplitOnSpaceUnfold(b);
    SplitOnSpaceUnfold(s);
  }

  lemma CapitalizeTwo(a: string, b: string)
    ensures Join(CapitalizeAll([a, b]), "") == Capitalize(a) + Capitalize(b)
  {
    assert [a, b][1..] == [b];
    assert [b][1..] == [];
    assert CapitalizeAll([b]) == [Capitalize(b)];
    assert CapitalizeAll([a, b]) == [Capitalize(a), Capitalize(b)];
    assert [Capitalize(a), Capitalize(b)][1..] == [Capitalize(b)];
  }

  /** A title of two identifier words separated by a space gives their capitalised concatenation. */
  lemma ClassNameOfTwoWords(a: string, b: string)
    requires a != [] && b != []
    requires forall i :: 0 <= i < |a| ==> IsIdentChar(a[i])
    requires forall i :: 0 <= i < |b| ==> IsIdentChar(b[i])
    ensures SanitizeClassName(a + " " + b) == Capitalize(a) + Capitalize(b)
  {
    var s := a + " " + b;
    KeepAppend(a + " ", b);
    KeepAppend(a, " ");
    KeepOfIdent(a);
    KeepOfIdent(b);
    assert KeepWordAndSpace(" ") == " ";
    assert KeepWordAndSpace(s) == s;
    SplitTwoWords(a, b);
    CapitalizeTwo(a, b);
  }

  /** The method-name form of the same two-word title. */
  lemma MethodNameOfTwoWords(a: string, b: string)
    requires a != [] && b != []
    requires forall i :: 0 <= i < |a| ==> IsIdentChar(a[i])
    requires forall i :: 0 <= i < |b| ==> IsIdentChar(b[i])
    ensures SanitizeMethodName(a + " " + b) == "test" + Capitalize(a) + Capitalize(b)
  {
    ClassNameOfTwoWords(a, b);
    MethodNameIsTestPlusClassName(a + " " + b);
  }

  lemma CapitalizedWords()
    ensures Capitalize("My") == "My" && Capitalize("API") == "API"
    ensures Capitalize("Get") == "Get" && Capitalize("User") == "User"
  {
  }

  /** `"My API"` gives the class name `MyAPI`. */
  lemma ClassNameExample()
    ensures SanitizeClassName("My API") == "MyAPI"
  {
    ClassNameOfTwoWords("My", "API");
    CapitalizedWords();
    assert "My" + " " + "API" == "My API";
    assert "My" + "API" == "MyAPI";
  }

  /** `"Get User"` gives the method name `testGetUser`. */
  lemma MethodNameExample()
    ensures SanitizeMethodName("Get User") == "testGetUser"
  {
    MethodNameOfTwoWords("Get", "User");
    CapitalizedWords();
    assert "Get" + " " + "User" == "Get User";
    assert "test" + "Get" + "User" == "testGetUser";
  }
}
