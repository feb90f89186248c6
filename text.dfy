/** The string operations of the JavaScript runtime that the converter uses:
    the `\s` whitespace class, `trim`, ASCII case mapping, `join` and `split`. */
module Text {

  /** JavaScript's `\s` class: the WhiteSpace and LineTerminator code points of
      ECMA-262. `String.prototype.trim` removes exactly the same set. */
  predicate IsJsWhitespace(c: char)
  {
    || c == ' ' || c == '\t' || c == '\n' || c == '\U{000B}' || c == '\U{000C}' || c == '\r'
    || c == '\U{00A0}' || c == '\U{1680}' || ('\U{2000}' <= c <= '\U{200A}')
    || c == '\U{2028}' || c == '\U{2029}' || c == '\U{202F}' || c == '\U{205F}'
    || c == '\U{3000}' || c == '\U{FEFF}'
  }

  predicate IsAsciiUpper(c: char) { 'A' <= c <= 'Z' }

  predicate IsAsciiLower(c: char) { 'a' <= c <= 'z' }

  predicate IsAsciiDigit(c: char) { '0' <= c <= '9' }

  /** The class `[a-zA-Z0-9_]`: what a sanitised Java identifier is made of. */
  predicate IsIdentChar(c: char)
  {
    IsAsciiUpper(c) || IsAsciiLower(c) || IsAsciiDigit(c) || c == '_'
  }

  /** `toUpperCase` on one character, for ASCII letters; every other character is kept. */
  function ToUpper(c: char): (u: char)
    ensures IsIdentChar(c) <==> IsIdentChar(u)
    ensures IsAsciiLower(c) ==> IsAsciiUpper(u) && ToLower(u) == c
    ensures !IsAsciiLower(c) ==> u == c
  {
    if IsAsciiLower(c) then (c as int - 32) as char else c
  }

  /** `toLowerCase` on one character, for ASCII letters; every other character is kept. */
  function ToLower(c: char): (l: char)
    ensures IsIdentChar(c) <==> IsIdentChar(l)
    ensures !IsAsciiUpper(c) ==> l == c
    ensures IsJsWhitespace(c) <==> IsJsWhitespace(l)
  {
    if IsAsciiUpper(c) then (c as int + 32) as char else c
  }

  lemma UpperOfLower(c: char)
    ensures ToUpper(ToLower(c)) == ToUpper(c)
  {
    if IsAsciiUpper(c) {
      assert ToLower(c) as int == c as int + 32;
    }
  }

  /** `s.toLowerCase()` restricted to ASCII letters. */
  function Lower(s: string): string
  {
    seq(|s|, i requires 0 <= i < |s| => ToLower(s[i]))
  }

  /** `s.startsWith(p)`. */
  predicate StartsWith(s: string, p: string)
  {
    |p| <= |s| && s[..|p|] == p
  }

  /** A string that differs from `p` at a position inside `p` does not start with `p`. */
  lemma DiffersAt(s: string, p: string, k: nat)
    requires k < |p| && k < |s| && s[k] != p[k]
    ensures !StartsWith(s, p)
  {
  }

  lemma StartsWithConcat(p: string, x: string)
    ensures StartsWith(p + x, p)
  {
    assert (p + x)[..|p|] == p;
  }

  /** Leading whitespace removed. */
  function TrimStart(s: string): (r: string)
    ensures |r| <= |s|
  {
    if s != [] && IsJsWhitespace(s[0]) then TrimStart(s[1..]) else s
  }

  /** Trailing whitespace removed. */
  function TrimEnd(s: string): string
  {
    if s != [] && IsJsWhitespace(s[|s| - 1]) then TrimEnd(s[..|s| - 1]) else s
  }

  /** `TrimStart` drops exactly the longest whitespace prefix. */
  lemma {:induction false} TrimStartSpec(s: string)
    ensures |TrimStart(s)| <= |s| && TrimStart(s) == s[|s| - |TrimStart(s)|..]
    ensures forall i :: 0 <= i < |s| - |TrimStart(s)| ==> IsJsWhitespace(s[i])
    ensures TrimStart(s) == [] || !IsJsWhitespace(TrimStart(s)[0])
  {
    if s != [] && IsJsWhitespace(s[0]) {
      TrimStartSpec(s[1..]);
    }
  }

  /** `TrimEnd` drops exactly the longest whitespace suffix. */
  lemma {:induction false} TrimEndSpec(s: string)
    ensures |TrimEnd(s)| <= |s| && TrimEnd(s) == s[..|TrimEnd(s)|]
    ensures forall i :: |TrimEnd(s)| <= i < |s| ==> IsJsWhitespace(s[i])
    ensures TrimEnd(s) == [] || !IsJsWhitespace(TrimEnd(s)[|TrimEnd(s)| - 1])
  {
    if s != [] && IsJsWhitespace(s[|s| - 1]) {
      TrimEndSpec(s[..|s| - 1]);
    }
  }

  /** `s.trim()`. */
  function Trim(s: string): string
  {
    TrimEnd(TrimStart(s))
  }

  /** Trimming leaves nothing exactly when the string is all whitespace. */
  lemma TrimEmptyIff(s: string)
    ensures Trim(s) == [] <==> forall i :: 0 <= i < |s| ==> IsJsWhitespace(s[i])
  {
    var t := TrimStart(s);
    TrimStartSpec(s);
    TrimEndSpec(t);
    if Trim(s) == [] {
      assert t == [];
    } else if t != [] {
      assert !IsJsWhitespace(t[0]);
      assert s[|s| - |t|] == t[0];
    }
  }

  /** `parts.join(sep)`. */
  function Join(parts: seq<string>, sep: string): string
  {
    if |parts| == 0 then ""
    else if |parts| == 1 then parts[0]
    else parts[0] + sep + Join(parts[1..], sep)
  }

  lemma {:induction false} JoinAppend(a: seq<string>, b: seq<string>, sep: string)
    requires |a| > 0 && |b| > 0
    ensures Join(a + b, sep) == Join(a, sep) + sep + Join(b, sep)
  {
    if |a| == 1 {
      assert (a + b)[1..] == b;
    } else {
      assert (a + b)[1..] == a[1..] + b;
      JoinAppend(a[1..], b, sep);
    }
  }

  /** `s.split(c)` for a one-character separator: the pieces between separators,
      including empty ones; the empty string splits into one empty piece. */
  function Split(s: string, c: char): (parts: seq<string>)
    ensures |parts| > 0
  {
    if s == [] then [""]
    else
      var rest := Split(s[1..], c);
      if s[0] == c then [""] + rest else [[s[0]] + rest[0]] + rest[1..]
  }

  lemma {:induction false} SplitWord(w: string, t: string, c: char)
    requires c !in w
    ensures Split(w + [c] + t, c) == [w] + Split(t, c)
    ensures Split(w, c) == [w]
  {
    if w == [] {
      assert w + [c] + t == [c] + t;
      assert ([c] + t)[1..] == t;
    } else {
      assert (w + [c] + t)[1..] == w[1..] + [c] + t;
      SplitWord(w[1..], t, c);
      assert [w[0]] + w[1..] == w;
    }
  }

  /** Splitting a join recovers the parts when no part contains the separator. */
  lemma {:induction false} SplitJoin(parts: seq<string>, c: char)
    requires |parts| > 0
    requires forall k :: 0 <= k < |parts| ==> c !in parts[k]
    ensures Split(Join(parts, [c]), c) == parts
  {
    if |parts| == 1 {
      SplitWord(parts[0], "", c);
    } else {
      SplitJoin(parts[1..], c);
      SplitWord(parts[0], Join(parts[1..], [c]), c);
      assert [parts[0]] + parts[1..] == parts;
    }
  }

  /** Each block joined with `sep`. */
  function JoinEach(blocks: seq<seq<string>>, sep: string): (texts: seq<string>)
    ensures |texts| == |blocks|
    ensures forall i :: 0 <= i < |blocks| ==> texts[i] == Join(blocks[i], sep)
  {
    seq(|blocks|, i requires 0 <= i < |blocks| => Join(blocks[i], sep))
  }

  /** The lines of several blocks in order, with one empty line between neighbours. */
  function BlankSeparated(blocks: seq<seq<string>>): seq<string>
  {
    if |blocks| == 0 then []
    else if |blocks| == 1 then blocks[0]
    else blocks[0] + [""] + BlankSeparated(blocks[1..])
  }

  /** Joining the joined blocks with a doubled separator is joining the blank-separated
      lines with a single one, when no block is empty. */
  lemma {:induction false} JoinBlankSeparated(blocks: seq<seq<string>>, c: char)
    requires forall i :: 0 <= i < |blocks| ==> |blocks[i]| > 0
    ensures Join(JoinEach(blocks, [c]), [c, c]) == Join(BlankSeparated(blocks), [c])
    ensures |blocks| > 0 ==> |BlankSeparated(blocks)| > 0
  {
    if |blocks| > 1 {
      var m, rest := blocks[0], blocks[1..];
      JoinBlankSeparated(rest, c);
      var b := BlankSeparated(rest);
      var texts := JoinEach(blocks, [c]);
      assert m + [""] + b == m + ([""] + b);
      JoinAppend(m, [""] + b, [c]);
      assert ([""] + b)[1..] == b;
      assert texts[1..] == JoinEach(rest, [c]);
    }
  }

  /** No blank-separated line holds `c` when no line of any block does. */
  lemma {:induction false} BlankSeparatedFree(blocks: seq<seq<string>>, c: char)
    requires forall i, k :: 0 <= i < |blocks| && 0 <= k < |blocks[i]| ==> c !in blocks[i][k]
    ensures forall k :: 0 <= k < |BlankSeparated(blocks)| ==> c !in BlankSeparated(blocks)[k]
  {
    if |blocks| > 1 {
      var m, rest := blocks[0], blocks[1..];
      assert forall i :: 0 <= i < |rest| ==> rest[i] == blocks[i + 1];
      BlankSeparatedFree(rest, c);
      var b := BlankSeparated(rest);
      forall k | 0 <= k < |m + [""] + b| ensures c !in (m + [""] + b)[k] {
        if k < |m| {
          assert (m + [""] + b)[k] == m[k];
        } else if k > |m| {
          assert (m + [""] + b)[k] == b[k - |m| - 1];
        }
      }
    }
  }
}
