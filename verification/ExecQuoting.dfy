/**
 The quoting of the Exec key of the login entry (src/AutostartSettings.cpp), and a strict reader of
 quoted arguments after section "The Exec key" of the Desktop Entry Specification.
 */
module ExecQuoting {
  /** Every occurrence of a character replaced. */
  function Replace(s: string, c: char, replacement: string): string {
    if s == "" then ""
    else (if s[0] == c then replacement else [s[0]]) + Replace(s[1..], c, replacement)
  }

  /** The characters that must be escaped inside double quotes. */
  predicate Special(c: char) {
    c == '"' || c == '`' || c == '$' || c == '\\'
  }

  /** The escape of each character, in one pass. */
  function Escape(s: string): string {
    if s == "" then ""
    else EscapeChar(s[0]) + Escape(s[1..])
  }

  function EscapeChar(c: char): string {
    if Special(c) then ['\\', c] else DoubleChar(c)
  }

  function DoubleChar(c: char): string {
    if c == '%' then "%%" else [c]
  }

  /** Quotes a path by five replacements in place, backslashes first. */
  method Quote(path: string) returns (quoted: string)
    ensures quoted == "\"" + Escape(path) + "\""
  {
    quoted := path;
    quoted := Replace(quoted, '\\', "\\\\");
    quoted := Replace(quoted, '"', "\\\"");
    quoted := Replace(quoted, '$', "\\$");
    quoted := Replace(quoted, '`', "\\`");
    quoted := Replace(quoted, '%', "%%");
    ReplacementsAreOnePass(path);
    quoted := "\"" + quoted + "\"";
  }

  function Replacements(s: string): string {
    Replace(Replace(Replace(Replace(Replace(s, '\\', "\\\\"), '"', "\\\""), '$', "\\$"), '`', "\\`"), '%', "%%")
  }

  lemma {:induction false} ReplaceConcat(a: string, b: string, c: char, replacement: string)
    ensures Replace(a + b, c, replacement) == Replace(a, c, replacement) + Replace(b, c, replacement)
  {
    if a == "" {
      assert a + b == b;
    } else {
      assert (a + b)[1..] == a[1..] + b;
      ReplaceConcat(a[1..], b, c, replacement);
    }
  }

  lemma ReplacementsConcat(a: string, b: string)
    ensures Replacements(a + b) == Replacements(a) + Replacements(b)
  {
    ReplaceConcat(a, b, '\\', "\\\\");
    var (a1, b1) := (Replace(a, '\\', "\\\\"), Replace(b, '\\', "\\\\"));
    ReplaceConcat(a1, b1, '"', "\\\"");
    var (a2, b2) := (Replace(a1, '"', "\\\""), Replace(b1, '"', "\\\""));
    ReplaceConcat(a2, b2, '$', "\\$");
    var (a3, b3) := (Replace(a2, '$', "\\$"), Replace(b2, '$', "\\$"));
    ReplaceConcat(a3, b3, '`', "\\`");
    var (a4, b4) := (Replace(a3, '`', "\\`"), Replace(b3, '`', "\\`"));
    ReplaceConcat(a4, b4, '%', "%%");
  }

  lemma ReplaceOne(x: char, c: char, replacement: string)
    ensures Replace([x], c, replacement) == if x == c then replacement else [x]
  {
  }

  lemma ReplaceTwo(x: char, y: char, c: char, replacement: string)
    requires x != c && y != c
    ensures Replace([x, y], c, replacement) == [x, y]
  {
    assert [x, y] == [x] + [y];
    ReplaceConcat([x], [y], c, replacement);
    ReplaceOne(x, c, replacement);
    ReplaceOne(y, c, replacement);
  }

  lemma ReplaceSpecial(x: char)
    requires Special(x)
    ensures Replacements([x]) == ['\\', x]
  {
    ReplaceOne(x, '\\', "\\\\");
    if x != '\\' {
      ReplaceOne(x, '"', "\\\"");
    } else {
      ReplaceTwo('\\', x, '"', "\\\"");
    }
    if x != '\\' && x != '"' {
      ReplaceOne(x, '$', "\\$");
    } else {
      ReplaceTwo('\\', x, '$', "\\$");
    }
    if x == '`' {
      ReplaceOne(x, '`', "\\`");
    } else {
      ReplaceTwo('\\', x, '`', "\\`");
    }
    ReplaceTwo('\\', x, '%', "%%");
  }

  lemma ReplaceOrdinary(x: char)
    requires !Special(x)
    ensures Replacements([x]) == if x == '%' then "%%" else [x]
  {
    ReplaceOne(x, '\\', "\\\\");
    ReplaceOne(x, '"', "\\\"");
    ReplaceOne(x, '$', "\\$");
    ReplaceOne(x, '`', "\\`");
    ReplaceOne(x, '%', "%%");
  }

  /** Escaping backslashes first makes the order of the rest immaterial: no replacement touches another's output. */
  lemma {:induction false} ReplacementsAreOnePass(s: string)
    ensures Replacements(s) == Escape(s)
  {
    if s != "" {
      assert s == [s[0]] + s[1..];
      ReplacementsConcat([s[0]], s[1..]);
      ReplacementsAreOnePass(s[1..]);
      if Special(s[0]) {
        ReplaceSpecial(s[0]);
      } else {
        ReplaceOrdinary(s[0]);
      }
    }
  }

  // ---- Reading it back ----

  datatype Argument = Broken | Argument(text: string, rest: string)

  /** Reads up to the closing quote; a special character must be escaped, and nothing else may be. */
  function Unquote(s: string): Argument {
    if s == "" then Broken
    else if s[0] == '"' then Argument("", s[1..])
    else if s[0] == '\\' then
      if |s| > 1 && Special(s[1]) then Prefixed(s[1], Unquote(s[2..])) else Broken
    else if Special(s[0]) then Broken
    else Prefixed(s[0], Unquote(s[1..]))
  }

  function Prefixed(c: char, a: Argument): Argument {
    if a.Broken? then Broken else Argument([c] + a.text, a.rest)
  }

  function ReadArgument(line: string): Argument {
    if line == "" || line[0] != '"' then Broken else Unquote(line[1..])
  }

  datatype Expansion = Undefined | Text(text: string)

  /** Only the field code for a literal percent sign stands for itself here. */
  function Expand(s: string): Expansion {
    if s == "" then Text("")
    else if s[0] != '%' then Joined(s[0], Expand(s[1..]))
    else if |s| > 1 && s[1] == '%' then Joined('%', Expand(s[2..]))
    else Undefined
  }

  function Joined(c: char, e: Expansion): Expansion {
    if e.Undefined? then Undefined else Text([c] + e.text)
  }

  /** The path with its percent signs doubled. */
  function Doubled(path: string): string {
    if path == "" then "" else DoubleChar(path[0]) + Doubled(path[1..])
  }

  // ---- What is read, without the readers ----

  /** A text as it is written between quotes. */
  function Written(text: string): string {
    if text == "" then ""
    else (if text[0] in "\"`$\\" then ['\\', text[0]] else [text[0]]) + Written(text[1..])
  }

  lemma {:induction false} WrittenIsRead(text: string, rest: string)
    ensures Unquote(Written(text) + (['"'] + rest)) == Argument(text, rest)
  {
    var all := Written(text) + (['"'] + rest);
    if text == "" {
      assert all == ['"'] + rest && all[1..] == rest;
    } else {
      WrittenIsRead(text[1..], rest);
      var tail := Written(text[1..]) + (['"'] + rest);
      if Special(text[0]) {
        assert all == ['\\', text[0]] + tail && all[2..] == tail;
      } else {
        assert all == [text[0]] + tail && all[1..] == tail;
      }
      assert text == [text[0]] + text[1..];
    }
  }

  lemma {:induction false} ReadIsWritten(s: string)
    requires Unquote(s).Argument?
    ensures s == Written(Unquote(s).text) + (['"'] + Unquote(s).rest)
  {
    var a := Unquote(s);
    if s[0] == '"' {
      assert s == ['"'] + s[1..];
    } else {
      var n := if s[0] == '\\' then 2 else 1;
      ReadIsWritten(s[n..]);
      assert s == s[..n] + s[n..];
      assert a.text[1..] == Unquote(s[n..]).text;
      assert Written(a.text) == s[..n] + Written(a.text[1..]);
    }
  }

  /** Between quotes exactly what is written of a text is read as that text, and the closing quote ends it. */
  lemma {:induction false} UnquoteExactly(s: string, text: string, rest: string)
    ensures Unquote(s) == Argument(text, rest) <==> s == Written(text) + (['"'] + rest)
  {
    WrittenIsRead(text, rest);
    if Unquote(s).Argument? {
      ReadIsWritten(s);
    }
  }

  lemma {:induction false} ExpandedIsDoubled(s: string)
    requires Expand(s).Text?
    ensures s == Doubled(Expand(s).text)
  {
    if s != "" {
      var n := if s[0] == '%' then 2 else 1;
      ExpandedIsDoubled(s[n..]);
      assert s == s[..n] + s[n..];
      assert Expand(s).text[1..] == Expand(s[n..]).text;
    }
  }

  /** Field codes are expanded to a text exactly if its percent signs were doubled, and nothing else was written. */
  lemma {:induction false} ExpandExactly(s: string, text: string)
    ensures Expand(s) == Text(text) <==> s == Doubled(text)
  {
    ExpandDoubled(text);
    if Expand(s).Text? {
      ExpandedIsDoubled(s);
    }
  }

  lemma UnquoteOne(c: char, tail: string)
    requires Unquote(tail).Argument?
    ensures Unquote(EscapeChar(c) + tail) == Argument(DoubleChar(c) + Unquote(tail).text, Unquote(tail).rest)
  {
    var all := EscapeChar(c) + tail;
    if Special(c) {
      assert all[2..] == tail;
    } else if c == '%' {
      assert all[1..][1..] == tail && all[1..][0] == '%';
      assert ['%'] + (['%'] + Unquote(tail).text) == "%%" + Unquote(tail).text;
    } else {
      assert all[1..] == tail;
    }
  }

  lemma EscapeFirst(path: string, end: string)
    requires path != ""
    ensures Escape(path) + end == EscapeChar(path[0]) + (Escape(path[1..]) + end)
  {
  }

  lemma {:induction false} UnquoteEscaped(path: string, end: string, rest: string)
    requires end == "\"" + rest
    ensures Unquote(Escape(path) + end) == Argument(Doubled(path), rest)
  {
    if path == "" {
      assert "" + end == end && end[1..] == rest;
    } else {
      UnquoteEscaped(path[1..], end, rest);
      EscapeFirst(path, end);
      UnquoteOne(path[0], Escape(path[1..]) + end);
    }
  }

  lemma ExpandOne(c: char, tail: string)
    requires Expand(tail).Text?
    ensures Expand(DoubleChar(c) + tail) == Text([c] + Expand(tail).text)
  {
    var all := DoubleChar(c) + tail;
    assert if c == '%' then all[2..] == tail else all[1..] == tail;
  }

  lemma {:induction false} ExpandDoubled(path: string)
    ensures Expand(Doubled(path)) == Text(path)
  {
    if path != "" {
      ExpandDoubled(path[1..]);
      ExpandOne(path[0], Doubled(path[1..]));
      assert path == [path[0]] + path[1..];
    }
  }

  /** Whatever follows it, the quoted text is read as exactly one argument, and it is the path. */
  lemma QuotingIsFaithful(path: string, rest: string)
    ensures var a := ReadArgument(("\"" + Escape(path) + "\"") + rest);
            a.Argument? && a.rest == rest && Expand(a.text) == Text(path)
  {
    assert (("\"" + Escape(path) + "\"") + rest)[1..] == Escape(path) + ("\"" + rest);
    UnquoteEscaped(path, "\"" + rest, rest);
    ExpandDoubled(path);
  }
}
