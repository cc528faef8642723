/** Byte strings and the trimming and ASCII case mapping the client applies to user text. */
module Text {

  predicate IsSpace(c: char) {
    c == ' ' || ('\t' <= c <= '\r')
  }

  function UpperChar(c: char): char {
    if 'a' <= c <= 'z' then c - 'a' + 'A' else c
  }

  function LowerChar(c: char): char {
    if 'A' <= c <= 'Z' then c - 'A' + 'a' else c
  }

  function Upper(s: string): (r: string)
    ensures |r| == |s|
    ensures forall i :: 0 <= i < |s| ==> r[i] == UpperChar(s[i])
  {
    seq(|s|, i requires 0 <= i < |s| => UpperChar(s[i]))
  }

  function Lower(s: string): (r: string)
    ensures |r| == |s|
    ensures forall i :: 0 <= i < |s| ==> r[i] == LowerChar(s[i])
  {
    seq(|s|, i requires 0 <= i < |s| => LowerChar(s[i]))
  }

  function TrimLeft(s: string): string {
    if s != "" && IsSpace(s[0]) then TrimLeft(s[1..]) else s
  }

  function TrimRight(s: string): string {
    if s != "" && IsSpace(s[|s| - 1]) then TrimRight(s[..|s| - 1]) else s
  }

  function Trim(s: string): string {
    TrimRight(TrimLeft(s))
  }

  /** Only blanks, tabs, line breaks and form feeds. */
  predicate Blank(s: string) {
    forall i :: 0 <= i < |s| ==> s[i] in " \t\n\U{0B}\U{0C}\r"
  }

  lemma {:induction false} LeftIsTrimmed(s: string) returns (before: string)
    ensures Blank(before) && s == before + TrimLeft(s) && (TrimLeft(s) != "" ==> !Blank([TrimLeft(s)[0]]))
  {
    before := "";
    if s != "" && IsSpace(s[0]) {
      before := LeftIsTrimmed(s[1..]);
      before := [s[0]] + before;
    } else if s != "" {
      assert [TrimLeft(s)[0]][0] == s[0];
    }
  }

  lemma {:induction false} RightIsTrimmed(s: string) returns (after: string)
    ensures Blank(after) && s == TrimRight(s) + after && (TrimRight(s) != "" ==> !Blank([TrimRight(s)[|TrimRight(s)| - 1]]))
  {
    after := "";
    if s != "" && IsSpace(s[|s| - 1]) {
      after := RightIsTrimmed(s[..|s| - 1]);
      after := after + [s[|s| - 1]];
    } else if s != "" {
      assert [TrimRight(s)[|s| - 1]][0] == s[|s| - 1];
    }
  }

  /** What trimming takes away is blank, and what it leaves is not blank at either end. */
  lemma TrimTakesBlanks(s: string) returns (before: string, after: string)
    ensures Blank(before) && Blank(after) && s == before + Trim(s) + after
    ensures Trim(s) != "" ==> !Blank([Trim(s)[0]]) && !Blank([Trim(s)[|Trim(s)| - 1]])
  {
    before := LeftIsTrimmed(s);
    after := RightIsTrimmed(TrimLeft(s));
    TrimRightKeepsStart(TrimLeft(s));
    assert Trim(s) != "" ==> [Trim(s)[0]] == [TrimLeft(s)[0]];
  }

  /** No space at either end: the strings trimming leaves alone. */
  predicate Trimmed(s: string) {
    s != "" ==> !IsSpace(s[0]) && !IsSpace(s[|s| - 1])
  }

  lemma {:induction false} TrimLeftStartsClean(s: string)
    ensures TrimLeft(s) != "" ==> !IsSpace(TrimLeft(s)[0])
  {
    if s != "" && IsSpace(s[0]) {
      TrimLeftStartsClean(s[1..]);
    }
  }

  lemma {:induction false} TrimRightKeepsStart(s: string)
    ensures TrimRight(s) != "" ==> s != "" && TrimRight(s)[0] == s[0]
    ensures TrimRight(s) != "" ==> !IsSpace(TrimRight(s)[|TrimRight(s)| - 1])
  {
    if s != "" && IsSpace(s[|s| - 1]) {
      TrimRightKeepsStart(s[..|s| - 1]);
    }
  }

  lemma TrimIsTrimmed(s: string)
    ensures Trimmed(Trim(s))
  {
    TrimLeftStartsClean(s);
    TrimRightKeepsStart(TrimLeft(s));
  }

  lemma TrimKeepsTrimmed(s: string)
    requires Trimmed(s)
    ensures Trim(s) == s
  {
  }

  /** Case mapping neither adds nor removes spaces, so it keeps a trimmed string trimmed. */
  lemma CaseKeepsTrimmed(s: string)
    requires Trimmed(s)
    ensures Trimmed(Upper(s)) && Trimmed(Lower(s))
  {
  }

  /** No lower-case letter: the strings upper-casing leaves alone. */
  predicate IsUpper(s: string) {
    forall i :: 0 <= i < |s| ==> UpperChar(s[i]) == s[i]
  }

  /** A normalized code is trimmed and upper-case, and normalizing it changes nothing. */
  lemma CodeIsNormal(s: string)
    ensures Trimmed(Upper(Trim(s))) && IsUpper(Upper(Trim(s)))
  {
    TrimIsTrimmed(s);
    CaseKeepsTrimmed(Trim(s));
  }

  lemma NormalCodeIsKept(s: string)
    requires Trimmed(s) && IsUpper(s)
    ensures Upper(Trim(s)) == s
  {
    TrimKeepsTrimmed(s);
    assert Upper(s) == s;
  }

  predicate HasBreak(s: string) {
    '\0' in s || '\n' in s || '\r' in s
  }

  /** Every run of spaces becomes one blank. */
  function Collapse(s: string): string {
    if s == "" then ""
    else if !IsSpace(s[0]) then [s[0]] + Collapse(s[1..])
    else if |s| > 1 && IsSpace(s[1]) then Collapse(s[1..])
    else " " + Collapse(s[1..])
  }

  /** Trimmed, with single blanks inside. */
  function Simplified(s: string): string {
    Collapse(Trim(s))
  }

  predicate SingleBlanks(s: string) {
    && (forall i :: 0 <= i < |s| && IsSpace(s[i]) ==> s[i] == ' ')
    && (forall i :: 0 <= i < |s| - 1 && IsSpace(s[i]) ==> !IsSpace(s[i + 1]))
  }

  lemma SingleCons(c: char, s: string)
    requires SingleBlanks(s) && (IsSpace(c) ==> c == ' ' && (s == "" || !IsSpace(s[0])))
    ensures SingleBlanks([c] + s)
  {
  }

  lemma {:induction false} CollapseIsSingle(s: string)
    ensures SingleBlanks(Collapse(s))
    ensures Collapse(s) == "" <==> s == ""
    ensures s != "" ==> (IsSpace(Collapse(s)[0]) <==> IsSpace(s[0]))
  {
    if s != "" {
      var rest := s[1..];
      CollapseIsSingle(rest);
      if !IsSpace(s[0]) {
        SingleCons(s[0], Collapse(rest));
      } else if |s| == 1 || !IsSpace(s[1]) {
        SingleCons(' ', Collapse(rest));
      }
    }
  }

  lemma {:induction false} CollapseKeepsEnd(s: string)
    requires s != ""
    ensures Collapse(s) != "" && (IsSpace(Collapse(s)[|Collapse(s)| - 1]) <==> IsSpace(s[|s| - 1]))
  {
    if |s| > 1 {
      CollapseKeepsEnd(s[1..]);
    }
  }

  lemma {:induction false} CollapseKeepsSingle(s: string)
    requires SingleBlanks(s)
    ensures Collapse(s) == s
  {
    if s != "" {
      assert forall i :: 0 <= i < |s[1..]| ==> s[1..][i] == s[i + 1];
      CollapseKeepsSingle(s[1..]);
      assert s == [s[0]] + s[1..];
    }
  }

  /** The strings simplifying leaves alone. */
  predicate IsSimple(s: string) {
    Trimmed(s) && SingleBlanks(s)
  }

  lemma SimpleIsKept(s: string)
    requires IsSimple(s)
    ensures Simplified(s) == s
  {
    TrimKeepsTrimmed(s);
    CollapseKeepsSingle(s);
  }

  lemma SimplifiedIsSimple(s: string)
    ensures IsSimple(Simplified(s))
  {
    TrimIsTrimmed(s);
    CollapseIsSingle(Trim(s));
    if Trim(s) != "" {
      CollapseKeepsEnd(Trim(s));
    }
  }

  /** A simplified query is simplified again unchanged. */
  lemma SimplifyingTwice(s: string)
    ensures Simplified(Simplified(s)) == Simplified(s)
  {
    SimplifiedIsSimple(s);
    SimpleIsKept(Simplified(s));
  }
}
