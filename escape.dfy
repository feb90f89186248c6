/** `escapeJavaString`: the text placed between double quotes in the generated Java
    source. Five global replacements run one after the other, backslash first. */
module JavaEscape {
  import opened Optional

  /** `s.replace(/c/g, rep)` for a one-character pattern: every `c` becomes `rep`. */
  function ReplaceChar(s: string, c: char, rep: string): string
  {
    if s == [] then []
    else (if s[0] == c then rep else [s[0]]) + ReplaceChar(s[1..], c, rep)
  }

  /** The five chained replacements, in source order. */
  function EscapeJavaString(s: string): string
  {
    var s1 := ReplaceChar(s, '\\', "\\\\");
    var s2 := ReplaceChar(s1, '"', "\\\"");
    var s3 := ReplaceChar(s2, '\n', "\\n");
    var s4 := ReplaceChar(s3, '\r', "\\r");
    ReplaceChar(s4, '\t', "\\t")
  }

  /** Reference definition: the Java escape of one character (section 3.10.7 of the
      Java Language Specification, SE 15 and later; section 3.10.6 in SE 8 to 14), for
      the five characters the generator treats. */
  function EscapeChar(c: char): string
  {
    if c == '\\' then "\\\\"
    else if c == '"' then "\\\""
    else if c == '\n' then "\\n"
    else if c == '\r' then "\\r"
    else if c == '\t' then "\\t"
    else [c]
  }

  predicate IsSpecial(c: char)
  {
    c == '\\' || c == '"' || c == '\n' || c == '\r' || c == '\t'
  }

  /** Reference definition: each character escaped on its own, left to right. */
  function EscapeEach(s: string): string
  {
    if s == [] then [] else EscapeChar(s[0]) + EscapeEach(s[1..])
  }

  /** Number of characters the escape doubles up. */
  function SpecialCount(s: string): nat
  {
    if s == [] then 0 else (if IsSpecial(s[0]) then 1 else 0) + SpecialCount(s[1..])
  }

  /** Decoder of the escape's output: the five two-character escapes are read back,
      any other escape, a lone trailing backslash, or a raw quote, newline, carriage
      return or tab is rejected. */
  function Unescape(t: string): Option<string>
  {
    if t == [] then Some([])
    else if t[0] == '\\' then
      if |t| < 2 then None
      else
        var c := if t[1] == '\\' then Some('\\')
                 else if t[1] == '"' then Some('"')
                 else if t[1] == 'n' then Some('\n')
                 else if t[1] == 'r' then Some('\r')
                 else if t[1] == 't' then Some('\t')
                 else None;
        match (c, Unescape(t[2..]))
        case (Some(x), Some(rest)) => Some([x] + rest)
        case _ => None
    else if IsSpecial(t[0]) then None
    else
      match Unescape(t[1..])
      case Some(rest) => Some([t[0]] + rest)
      case None => None
  }

  /** A Java string-literal scanner: the offset of the first quote that is not part of
      an escape sequence, or `None` when the text ends first. */
  function ClosingQuote(t: string): Option<nat>
  {
    if t == [] then None
    else if t[0] == '"' then Some(0)
    else if t[0] == '\\' then
      if |t| < 2 then None
      else match ClosingQuote(t[2..])
        case Some(k) => Some(k + 2)
        case None => None
    else match ClosingQuote(t[1..])
      case Some(k) => Some(k + 1)
      case None => None
  }

  // ----- the chained replacements equal the per-character escape -----

  lemma {:induction false} ReplaceCharAppend(a: string, b: string, c: char, rep: string)
    ensures ReplaceChar(a + b, c, rep) == ReplaceChar(a, c, rep) + ReplaceChar(b, c, rep)
  {
    if a == [] {
      assert a + b == b;
    } else {
      assert (a + b)[1..] == a[1..] + b;
      ReplaceCharAppend(a[1..], b, c, rep);
    }
  }

  lemma {:induction false} ReplaceCharAbsent(s: string, c: char, rep: string)
    requires forall i :: 0 <= i < |s| ==> s[i] != c
    ensures ReplaceChar(s, c, rep) == s
  {
    if s != [] {
      ReplaceCharAbsent(s[1..], c, rep);
    }
  }

  lemma EscapeAppend(a: string, b: string)
    ensures EscapeJavaString(a + b) == EscapeJavaString(a) + EscapeJavaString(b)
  {
    ReplaceCharAppend(a, b, '\\', "\\\\");
    var a1, b1 := ReplaceChar(a, '\\', "\\\\"), ReplaceChar(b, '\\', "\\\\");
    ReplaceCharAppend(a1, b1, '"', "\\\"");
    var a2, b2 := ReplaceChar(a1, '"', "\\\""), ReplaceChar(b1, '"', "\\\"");
    ReplaceCharAppend(a2, b2, '\n', "\\n");
    var a3, b3 := ReplaceChar(a2, '\n', "\\n"), ReplaceChar(b2, '\n', "\\n");
    ReplaceCharAppend(a3, b3, '\r', "\\r");
    var a4, b4 := ReplaceChar(a3, '\r', "\\r"), ReplaceChar(b3, '\r', "\\r");
    ReplaceCharAppend(a4, b4, '\t', "\\t");
  }

  /** A one-character string whose character is not `c` is left alone. */
  lemma ReplaceOther(x: char, c: char, rep: string)
    requires x != c
    ensures ReplaceChar([x], c, rep) == [x]
  {
    ReplaceCharAbsent([x], c, rep);
  }

  lemma ReplaceTwoAbsent(x: char, y: char, c: char, rep: string)
    requires x != c && y != c
    ensures ReplaceChar([x, y], c, rep) == [x, y]
  {
    ReplaceCharAbsent([x, y], c, rep);
  }

  lemma ReplaceHit(x: char, rep: string)
    ensures ReplaceChar([x], x, rep) == rep
  {
    assert ReplaceChar([x], x, rep) == rep + ReplaceChar([], x, rep);
  }

  lemma EscapeOneChar(c: char)
    ensures EscapeJavaString([c]) == EscapeChar(c)
  {
    if c == '\\' {
      ReplaceHit(c, "\\\\");
      ReplaceTwoAbsent('\\', '\\', '"', "\\\"");
      ReplaceTwoAbsent('\\', '\\', '\n', "\\n");
      ReplaceTwoAbsent('\\', '\\', '\r', "\\r");
      ReplaceTwoAbsent('\\', '\\', '\t', "\\t");
    } else if c == '"' {
      ReplaceOther(c, '\\', "\\\\");
      ReplaceHit(c, "\\\"");
      ReplaceTwoAbsent('\\', '"', '\n', "\\n");
      ReplaceTwoAbsent('\\', '"', '\r', "\\r");
      ReplaceTwoAbsent('\\', '"', '\t', "\\t");
    } else if c == '\n' {
      ReplaceOther(c, '\\', "\\\\");
      ReplaceOther(c, '"', "\\\"");
      ReplaceHit(c, "\\n");
      ReplaceTwoAbsent('\\', 'n', '\r', "\\r");
      ReplaceTwoAbsent('\\', 'n', '\t', "\\t");
    } else if c == '\r' {
      ReplaceOther(c, '\\', "\\\\");
      ReplaceOther(c, '"', "\\\"");
      ReplaceOther(c, '\n', "\\n");
      ReplaceHit(c, "\\r");
      ReplaceTwoAbsent('\\', 'r', '\t', "\\t");
    } else if c == '\t' {
      ReplaceOther(c, '\\', "\\\\");
      ReplaceOther(c, '"', "\\\"");
      ReplaceOther(c, '\n', "\\n");
      ReplaceOther(c, '\r', "\\r");
      ReplaceHit(c, "\\t");
    } else {
      ReplaceOther(c, '\\', "\\\\");
      ReplaceOther(c, '"', "\\\"");
      ReplaceOther(c, '\n', "\\n");
      ReplaceOther(c, '\r', "\\r");
      ReplaceOther(c, '\t', "\\t");
    }
  }

  /** Running the five replacements in sequence, backslash first, escapes every
      character exactly once: no replacement rewrites the output of an earlier one. */
  lemma {:induction false} EscapeIsPerCharacter(s: string)
    ensures EscapeJavaString(s) == EscapeEach(s)
  {
    if s == [] {
    } else {
      assert s == [s[0]] + s[1..];
      EscapeAppend([s[0]], s[1..]);
      EscapeOneChar(s[0]);
      EscapeIsPerCharacter(s[1..]);
    }
  }

  // ----- properties of the per-character escape -----

  lemma {:induction false} EscapeEachAppend(a: string, b: string)
    ensures EscapeEach(a + b) == EscapeEach(a) + EscapeEach(b)
  {
    if a == [] {
      assert a + b == b;
    } else {
      assert (a + b)[1..] == a[1..] + b;
      EscapeEachAppend(a[1..], b);
    }
  }

  /** Reading back one escaped character in front of any text. */
  lemma UnescapeCons(c: char, t: string)
    ensures Unescape(EscapeChar(c) + t) ==
      match Unescape(t)
      case Some(rest) => Some([c] + rest)
      case None => None
  {
    var e := EscapeChar(c) + t;
    if IsSpecial(c) {
      assert e[2..] == t;
    } else {
      assert e[1..] == t;
    }
  }

  /** Round trip: the decoder recovers the original text from its escape. */
  lemma {:induction false} UnescapeEscape(s: string)
    ensures Unescape(EscapeJavaString(s)) == Some(s)
  {
    EscapeIsPerCharacter(s);
    UnescapeEachRoundTrip(s);
  }

  lemma {:induction false} UnescapeEachRoundTrip(s: string)
    ensures Unescape(EscapeEach(s)) == Some(s)
  {
    if s != [] {
      UnescapeEachRoundTrip(s[1..]);
      UnescapeCons(s[0], EscapeEach(s[1..]));
      assert [s[0]] + s[1..] == s;
    }
  }

  /** Conversely, every text the decoder accepts is the escape of what it decodes to:
      the escape is a bijection onto the decoder's language. */
  lemma {:induction false} EscapeUnescape(t: string, s: string)
    requires Unescape(t) == Some(s)
    ensures EscapeJavaString(s) == t
  {
    EscapeIsPerCharacter(s);
    EscapeEachOfUnescape(t, s);
  }

  lemma {:induction false} EscapeEachOfUnescape(t: string, s: string)
    requires Unescape(t) == Some(s)
    ensures EscapeEach(s) == t
    decreases |t|
  {
    if t != [] {
      if t[0] == '\\' {
        UnescapeEscapedHead(t, s);
        EscapeEachOfUnescape(t[2..], s[1..]);
        assert t == t[..2] + t[2..];
      } else {
        var rest := Unescape(t[1..]).value;
        EscapeEachOfUnescape(t[1..], rest);
        assert s[1..] == rest;
        assert t == [t[0]] + t[1..];
      }
    }
  }

  /** A decoded text that starts with a backslash starts with the escape of its first
      decoded character, and the rest decodes to the rest. */
  lemma UnescapeEscapedHead(t: string, s: string)
    requires t != [] && t[0] == '\\' && Unescape(t) == Some(s)
    ensures |t| >= 2 && s != [] && EscapeChar(s[0]) == t[..2]
    ensures Unescape(t[2..]) == Some(s[1..])
  {
  }

  /** Inside a Java literal the escaped text ends exactly at the quote placed after it:
      no input can close the literal early. */
  lemma {:induction false} EscapedLiteralCloses(s: string, rest: string)
    ensures ClosingQuote(EscapeJavaString(s) + "\"" + rest) == Some(|EscapeJavaString(s)|)
  {
    EscapeIsPerCharacter(s);
    EachClosesAtQuote(s, rest);
  }

  lemma {:induction false} EachClosesAtQuote(s: string, rest: string)
    ensures ClosingQuote(EscapeEach(s) + "\"" + rest) == Some(|EscapeEach(s)|)
  {
    if s == [] {
      assert EscapeEach(s) + "\"" + rest == "\"" + rest;
    } else {
      EachClosesAtQuote(s[1..], rest);
      var e := EscapeChar(s[0]);
      var tail := EscapeEach(s[1..]) + "\"" + rest;
      assert EscapeEach(s) + "\"" + rest == e + tail;
      if IsSpecial(s[0]) {
        assert (e + tail)[2..] == tail;
      } else {
        assert (e + tail)[1..] == tail;
      }
    }
  }

  /** The escape holds no raw line break or tab, so the literal stays on one line. */
  lemma {:induction false} EscapeHasNoRawBreaks(s: string)
    ensures forall i :: 0 <= i < |EscapeJavaString(s)| ==>
      EscapeJavaString(s)[i] != '\n' && EscapeJavaString(s)[i] != '\r' && EscapeJavaString(s)[i] != '\t'
  {
    EscapeIsPerCharacter(s);
    EachHasNoRawBreaks(s);
  }

  lemma {:induction false} EachHasNoRawBreaks(s: string)
    ensures forall i :: 0 <= i < |EscapeEach(s)| ==>
      EscapeEach(s)[i] != '\n' && EscapeEach(s)[i] != '\r' && EscapeEach(s)[i] != '\t'
  {
    if s != [] {
      EachHasNoRawBreaks(s[1..]);
      var e := EscapeChar(s[0]);
      var t := EscapeEach(s[1..]);
      forall i | 0 <= i < |e + t|
        ensures (e + t)[i] != '\n' && (e + t)[i] != '\r' && (e + t)[i] != '\t'
      {
        if i >= |e| {
          assert (e + t)[i] == t[i - |e|];
        }
      }
    }
  }

  /** The escape is as long as the input plus one per special character. */
  lemma {:induction false} EscapeLength(s: string)
    ensures |EscapeJavaString(s)| == |s| + SpecialCount(s)
  {
    EscapeIsPerCharacter(s);
    EachLength(s);
  }

  lemma {:induction false} EachLength(s: string)
    ensures |EscapeEach(s)| == |s| + SpecialCount(s)
  {
    if s != [] {
      EachLength(s[1..]);
    }
  }

  /** Text without any of the five special characters is left unchanged. */
  lemma {:induction false} EscapePlainIsIdentity(s: string)
    requires forall i :: 0 <= i < |s| ==> !IsSpecial(s[i])
    ensures EscapeJavaString(s) == s
  {
    EscapeIsPerCharacter(s);
    EachPlainIsIdentity(s);
  }

  lemma {:induction false} EachPlainIsIdentity(s: string)
    requires forall i :: 0 <= i < |s| ==> !IsSpecial(s[i])
    ensures EscapeEach(s) == s
  {
    if s != [] {
      EachPlainIsIdentity(s[1..]);
      assert [s[0]] + s[1..] == s;
    }
  }
}
