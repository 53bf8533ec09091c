/** Reading a single-quoted string literal as ECMA-262 (section 12.9.4,
    String Literals) defines it: any character but `'`, `\` and a line
    terminator stands for itself; `\` followed by a character is an escape
    sequence; an unescaped `'` ends the literal. The escapes covered are the
    single-character ones (`\'`, `\"`, `\\`, `\b`, `\f`, `\n`, `\r`, `\t`,
    `\v`) and a non-escape character standing for itself; numeric, `\x`,
    `\u` escapes and line continuations are reported as unsupported. */
module JsLiteral {
  import opened Common

  /** Characters that may not appear unescaped inside a string literal
      (LINE SEPARATOR and PARAGRAPH SEPARATOR may, since ECMAScript 2019). */
  predicate IsLineBreak(c: char)
  {
    c == '\n' || c == '\r'
  }

  /** The value of the escape sequence `\c`, or None when it is outside the
      covered subset. */
  function EscapeValue(c: char): (v: Option<char>)
    ensures c == '\'' || c == '"' || c == '\\' ==> v == Some(c)
  {
    if c == '\'' || c == '"' || c == '\\' then Some(c)
    else if c == 'b' then Some('\U{8}')
    else if c == 'f' then Some('\U{C}')
    else if c == 'n' then Some('\n')
    else if c == 'r' then Some('\r')
    else if c == 't' then Some('\t')
    else if c == 'v' then Some('\U{B}')
    else if '0' <= c <= '9' || c == 'x' || c == 'u' || IsLineBreak(c) || c == '\U{2028}' || c == '\U{2029}' then None
    else Some(c)
  }

  /** Reads the characters of a literal whose opening quote has already been
      read: the value, and the text after the closing quote; None when the
      literal is malformed (a raw line break, an unfinished escape, no
      closing quote) or uses an unsupported escape. */
  function ReadSingleQuoted(s: string): Option<(string, string)>
    decreases |s|
  {
    if s == [] then None
    else if s[0] == '\'' then Some(([], s[1..]))
    else if IsLineBreak(s[0]) then None
    else if s[0] == '\\' then
      if |s| < 2 then None
      else match EscapeValue(s[1])
        case None => None
        case Some(v) =>
          match ReadSingleQuoted(s[2..])
          case None => None
          case Some(read) => Some(([v] + read.0, read.1))
    else
      match ReadSingleQuoted(s[1..])
      case None => None
      case Some(read) => Some(([s[0]] + read.0, read.1))
  }
}
