/**
 * The fallback of the class-name escaper (packages/jss/src/utils/escape.ts): a global
 * regular-expression replace that puts a backslash before every character of
 * `[ ] . # * $ > < + ~ = | ^ : ( ) , " ' `` ` and every whitespace character.
 */
module Escape {

  /** The characters JavaScript's `\s` class matches. */
  predicate IsJsWhitespace(c: char) {
    || c == '\t' || c == '\n' || c == '\U{000B}' || c == '\U{000C}' || c == '\r' || c == ' '
    || c == '\U{00A0}' || c == '\U{1680}' || ('\U{2000}' <= c <= '\U{200A}')
    || c == '\U{2028}' || c == '\U{2029}' || c == '\U{202F}' || c == '\U{205F}'
    || c == '\U{3000}' || c == '\U{FEFF}'
  }

  /** The characters the escape pattern's character class matches. */
  predicate IsSpecial(c: char) {
    c in "[].#*$><+~=|^:(),\"'`" || IsJsWhitespace(c)
  }

  /**
   * The replacement `'\\$1'` for one character: a special character gains one leading
   * backslash, and dropping that backslash gives the character back.
   */
  function EscapeChar(c: char): (r: string)
    ensures |r| == (if IsSpecial(c) then 2 else 1) && r[|r| - 1] == c
    ensures |r| == 2 ==> r[0] == '\\'
    ensures Unescape(r) == [c]
  {
    if IsSpecial(c) then ['\\', c] else [c]
  }

  function CountSpecial(s: string): nat {
    if |s| == 0 then 0 else (if IsSpecial(s[0]) then 1 else 0) + CountSpecial(s[1..])
  }

  /** `str.replace(escapeRegex, '\\$1')`. */
  function Escape(s: string): (r: string)
    ensures |r| == |s| + CountSpecial(s)
  {
    if |s| == 0 then "" else EscapeChar(s[0]) + Escape(s[1..])
  }

  /** Drops each backslash that immediately precedes a special character. */
  function Unescape(t: string): string {
    if |t| == 0 then ""
    else if |t| >= 2 && t[0] == '\\' && IsSpecial(t[1]) then [t[1]] + Unescape(t[2..])
    else [t[0]] + Unescape(t[1..])
  }

  /** A string with no special character comes back unchanged. */
  lemma {:induction false} EscapePlain(s: string)
    requires forall i :: 0 <= i < |s| ==> !IsSpecial(s[i])
    ensures Escape(s) == s
  {
    if |s| > 0 {
      EscapePlain(s[1..]);
      assert [s[0]] + s[1..] == s;
    }
  }

  lemma BackslashIsPlain()
    ensures !IsSpecial('\\')
  {
  }

  /** The replacement works character by character: escaping distributes over concatenation. */
  lemma {:induction false} EscapeAppend(a: string, b: string)
    ensures Escape(a + b) == Escape(a) + Escape(b)
  {
    if |a| == 0 {
      assert a + b == b;
    } else {
      assert (a + b)[0] == a[0];
      assert (a + b)[1..] == a[1..] + b;
      EscapeAppend(a[1..], b);
    }
  }

  /** An escaped string never starts with a special character: a special one always gets its backslash first. */
  lemma EscapedHead(s: string)
    requires |s| > 0
    ensures !IsSpecial(Escape(s)[0])
  {
    var e := EscapeChar(s[0]);
    assert Escape(s) == e + Escape(s[1..]);
    assert Escape(s)[0] == e[0];
    BackslashIsPlain();
  }

  /** Unescaping recovers the input, so the escape never maps two strings to one. */
  lemma {:induction false} UnescapeEscape(s: string)
    ensures Unescape(Escape(s)) == s
  {
    if |s| > 0 {
      var c := s[0];
      var t := Escape(s[1..]);
      UnescapeEscape(s[1..]);
      if IsSpecial(c) {
        assert Escape(s) == ['\\', c] + t;
        assert (['\\', c] + t)[2..] == t;
      } else {
        assert Escape(s) == [c] + t;
        assert ([c] + t)[1..] == t;
        if |t| > 0 {
          EscapedHead(s[1..]);
          assert ([c] + t)[1] == t[0];
        }
      }
    }
  }

  lemma EscapeInjective(a: string, b: string)
    requires Escape(a) == Escape(b)
    ensures a == b
  {
    UnescapeEscape(a);
    UnescapeEscape(b);
  }

  /** The single pass of the global replace, left to right. */
  method EscapeString(s: string) returns (out: string)
    ensures out == Escape(s)
    ensures Unescape(out) == s
  {
    out := "";
    var i := 0;
    while i < |s|
      invariant 0 <= i <= |s|
      invariant out == Escape(s[..i])
    {
      EscapeAppend(s[..i], [s[i]]);
      assert s[..i + 1] == s[..i] + [s[i]];
      assert Escape([s[i]]) == EscapeChar(s[i]) + Escape([]);
      out := out + EscapeChar(s[i]);
      i := i + 1;
    }
    assert s[..i] == s;
    UnescapeEscape(s);
  }
}
