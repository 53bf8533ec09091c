/** The escaper applied to the token and to the profile JSON before they are
    placed between single quotes in the script injected into the web view:
    three global replacements, backslash first, then `'`, then `"`. */
module ScriptEscape {
  import opened Common
  import opened JsLiteral

  /** `s.replace(/c/g, rep)` for a one-character pattern. */
  function ReplaceAll(s: string, c: char, rep: string): (r: string)
    ensures c !in s ==> r == s
    decreases |s|
  {
    if s == [] then []
    else (if s[0] == c then rep else [s[0]]) + ReplaceAll(s[1..], c, rep)
  }

  /** The escaper as written: `\` to `\\`, then `'` to `\'`, then `"` to `\"`. */
  function Escape(s: string): (r: string)
    ensures (forall i :: 0 <= i < |s| ==> !IsSpecial(s[i])) ==> r == s
  {
    ReplaceAll(ReplaceAll(ReplaceAll(s, '\\', "\\\\"), '\'', "\\'"), '"', "\\\"")
  }

  predicate IsSpecial(c: char)
  {
    c == '\\' || c == '\'' || c == '"'
  }

  /** The escape of one character. */
  function EscapeChar(c: char): (r: string)
    ensures IsSpecial(c) ==> r == ['\\', c]
    ensures !IsSpecial(c) ==> r == [c]
  {
    if IsSpecial(c) then ['\\', c] else [c]
  }

  /** Escaping character by character. */
  function EscapeEach(s: string): string
    decreases |s|
  {
    if s == [] then [] else EscapeChar(s[0]) + EscapeEach(s[1..])
  }

  function SpecialCount(s: string): nat
    decreases |s|
  {
    if s == [] then 0 else (if IsSpecial(s[0]) then 1 else 0) + SpecialCount(s[1..])
  }

  lemma {:induction false} ReplaceAllAppend(a: string, b: string, c: char, rep: string)
    ensures ReplaceAll(a + b, c, rep) == ReplaceAll(a, c, rep) + ReplaceAll(b, c, rep)
    decreases |a|
  {
    if a != [] {
      assert (a + b)[1..] == a[1..] + b;
      ReplaceAllAppend(a[1..], b, c, rep);
    } else {
      assert a + b == b;
    }
  }

  /** Because backslashes are doubled first, the three passes amount to
      escaping each character on its own. */
  lemma {:induction false} EscapeIsPerCharacter(s: string)
    ensures Escape(s) == EscapeEach(s)
    decreases |s|
  {
    if s != [] {
      var x, t := s[0], s[1..];
      assert s == [x] + t;
      var r1 := ReplaceAll([x], '\\', "\\\\");
      ReplaceAllAppend([x], t, '\\', "\\\\");
      var r2 := ReplaceAll(r1, '\'', "\\'");
      ReplaceAllAppend(r1, ReplaceAll(t, '\\', "\\\\"), '\'', "\\'");
      ReplaceAllAppend(r2, ReplaceAll(ReplaceAll(t, '\\', "\\\\"), '\'', "\\'"), '"', "\\\"");
      assert ReplaceAll(r2, '"', "\\\"") == EscapeChar(x) by {
        if x == '\\' {
          assert r1 == "\\\\" && r2 == "\\\\";
        } else if x == '\'' {
          assert r1 == "'" && r2 == "\\'";
          assert ReplaceAll(r2[1..], '"', "\\\"") == "'";
        } else if x == '"' {
          assert r1 == "\"" && r2 == "\"";
        } else {
          assert r1 == [x] && r2 == [x];
        }
      }
      EscapeIsPerCharacter(t);
    }
  }

  lemma {:induction false} EscapeEachLength(s: string)
    ensures |EscapeEach(s)| == |s| + SpecialCount(s)
    decreases |s|
  {
    if s != [] {
      EscapeEachLength(s[1..]);
    }
  }

  /** Each of `\`, `'` and `"` gains one backslash; nothing else changes length. */
  lemma EscapeLength(s: string)
    ensures |Escape(s)| == |s| + SpecialCount(s)
  {
    EscapeIsPerCharacter(s);
    EscapeEachLength(s);
  }

  lemma {:induction false} EscapeEachRoundTrip(s: string, rest: string)
    requires forall i :: 0 <= i < |s| ==> !IsLineBreak(s[i])
    ensures ReadSingleQuoted(EscapeEach(s) + "'" + rest) == Some((s, rest))
    decreases |s|
  {
    if s == [] {
      assert EscapeEach(s) + "'" + rest == "'" + rest;
    } else {
      var x, t := s[0], s[1..];
      var tail := EscapeEach(t) + "'" + rest;
      assert EscapeEach(s) + "'" + rest == EscapeChar(x) + tail;
      EscapeEachRoundTrip(t, rest);
      if IsSpecial(x) {
        assert (EscapeChar(x) + tail)[2..] == tail;
      } else {
        assert (EscapeChar(x) + tail)[1..] == tail;
      }
      assert [x] + t == s;
    }
  }

  lemma {:induction false} EscapeEachBreaks(s: string, rest: string)
    requires exists i :: 0 <= i < |s| && IsLineBreak(s[i])
    ensures ReadSingleQuoted(EscapeEach(s) + "'" + rest) == None
    decreases |s|
  {
    var x, t := s[0], s[1..];
    var tail := EscapeEach(t) + "'" + rest;
    assert EscapeEach(s) + "'" + rest == EscapeChar(x) + tail;
    if !IsLineBreak(x) {
      var i :| 0 <= i < |s| && IsLineBreak(s[i]);
      assert IsLineBreak(t[i - 1]);
      EscapeEachBreaks(t, rest);
      if IsSpecial(x) {
        assert (EscapeChar(x) + tail)[2..] == tail;
      } else {
        assert (EscapeChar(x) + tail)[1..] == tail;
      }
    }
  }

  /** Placed between single quotes, the escaped text reads back as exactly
      the original text, and the quote after it is the one that closes the
      literal, as long as the text holds no raw line break; with a line break
      the literal does not read at all. */
  lemma EscapeRoundTrip(s: string, rest: string)
    ensures (forall i :: 0 <= i < |s| ==> !IsLineBreak(s[i])) ==>
      ReadSingleQuoted(Escape(s) + "'" + rest) == Some((s, rest))
    ensures (exists i :: 0 <= i < |s| && IsLineBreak(s[i])) ==>
      ReadSingleQuoted(Escape(s) + "'" + rest) == None
  {
    EscapeIsPerCharacter(s);
    if forall i :: 0 <= i < |s| ==> !IsLineBreak(s[i]) {
      EscapeEachRoundTrip(s, rest);
    } else {
      EscapeEachBreaks(s, rest);
    }
  }
}
