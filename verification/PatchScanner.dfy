/**
 The check for trailing whitespace in patches (scripts/check-patch-whitespace.py). Bytes are
 characters here. A scanner with two counters is shown equal to a grammar of unified diffs.
 */
module PatchScanner {
  datatype Result<T> = Ok(value: T) | Err(error: Error)

  datatype Error =
    | BareCarriageReturn
    | MixedLineEndings
    | EndedEarly
    | MalformedHeader(line: nat)
    | MalformedLine(line: nat)
    | TooLong(line: nat)

  // ---- Hunk headers ----

  datatype Counts = NoMatch | Counts(olds: nat, news: nat)

  predicate IsDigit(c: char) {
    '0' <= c <= '9'
  }

  predicate Numeral(s: string) {
    s != "" && forall i :: 0 <= i < |s| ==> IsDigit(s[i])
  }

  /** The longest prefix of digits. */
  function DigitsLength(s: string): (n: nat)
    ensures n <= |s| && (forall i :: 0 <= i < n ==> IsDigit(s[i])) && (n < |s| ==> !IsDigit(s[n]))
  {
    if s == "" || !IsDigit(s[0]) then 0 else 1 + DigitsLength(s[1..])
  }

  function Value(s: string): nat
    requires forall i :: 0 <= i < |s| ==> IsDigit(s[i])
  {
    if s == "" then 0
    else
      assert IsDigit(s[|s| - 1]);
      10 * Value(s[..|s| - 1]) + (s[|s| - 1] as int - '0' as int)
  }

  /** A number as it is written, without leading zeros. */
  function Decimal(n: nat): (s: string)
    ensures Numeral(s)
  {
    if n < 10 then [Digit(n)] else Decimal(n / 10) + [Digit(n % 10)]
  }

  function Digit(d: nat): (c: char)
    requires d < 10
    ensures IsDigit(c) && c as int == '0' as int + d
  {
    '0' + d as char
  }

  function Zeros(n: nat): (s: string)
    ensures |s| == n && forall i :: 0 <= i < n ==> s[i] == '0'
  {
    if n == 0 then "" else Zeros(n - 1) + "0"
  }

  lemma ValueOfLast(s: string, d: char)
    requires (forall i :: 0 <= i < |s| ==> IsDigit(s[i])) && IsDigit(d)
    ensures Value(s + [d]) == 10 * Value(s) + (d as int - '0' as int)
  {
    assert (s + [d])[..|s|] == s;
  }

  lemma {:induction false} ZerosAreNothing(n: nat)
    ensures Value(Zeros(n)) == 0
  {
    if n > 0 {
      ZerosAreNothing(n - 1);
      ValueOfLast(Zeros(n - 1), '0');
    }
  }

  /** What is written of a number, leading zeros or not, is read as the number. */
  lemma {:induction false} ValueReadsDecimal(n: nat, zeros: nat)
    ensures Value(Zeros(zeros) + Decimal(n)) == n
  {
    var (padding, last) := (Zeros(zeros), Digit(n % 10));
    if n < 10 {
      ZerosAreNothing(zeros);
      ValueOfLast(padding, last);
    } else {
      ValueReadsDecimal(n / 10, zeros);
      ValueOfLast(padding + Decimal(n / 10), last);
      assert padding + Decimal(n) == padding + Decimal(n / 10) + [last];
    }
  }

  /** Every numeral is what is written of the number it is read as. */
  lemma {:induction false} NumeralIsDecimal(s: string) returns (zeros: nat)
    requires Numeral(s)
    ensures s == Zeros(zeros) + Decimal(Value(s))
  {
    var (first, d) := (s[..|s| - 1], s[|s| - 1]);
    assert s == first + [d] && IsDigit(d);
    ValueOfLast(first, d);
    if first == "" {
      zeros := 0;
    } else {
      zeros := NumeralIsDecimal(first);
      zeros := DecimalOfLast(first, d, zeros);
    }
  }

  lemma DecimalOfLast(first: string, d: char, padding: nat) returns (zeros: nat)
    requires Numeral(first) && IsDigit(d) && first == Zeros(padding) + Decimal(Value(first))
    ensures first + [d] == Zeros(zeros) + Decimal(10 * Value(first) + (d as int - '0' as int))
  {
    if Value(first) == 0 {
      zeros := padding + 1;
    } else {
      zeros := padding;
      assert (10 * Value(first) + (d as int - '0' as int)) / 10 == Value(first);
    }
  }

  predicate StartsWith(s: string, prefix: string) {
    prefix <= s
  }

  /** What is left after a range "start" or "start,count" and its count, 1 if it is not given. */
  datatype RangeMatch = NoRange | Range(count: nat, rest: string)

  function ParseRange(s: string): RangeMatch {
    var n := DigitsLength(s);
    if n == 0 then NoRange
    else if n < |s| && s[n] == ',' && DigitsLength(s[n + 1..]) > 0 then
      var m := DigitsLength(s[n + 1..]);
      Range(Value(s[n + 1..][..m]), s[n + 1..][m..])
    else Range(1, s[n..])
  }

  /** The text after the second "@@"; a header line may still hold its own line feed. */
  predicate Tail(s: string) {
    var t := if s != "" && s[|s| - 1] == '\n' then s[..|s| - 1] else s;
    t == "" || ((t[0] == ' ' || t[0] == '\t') && '\n' !in t)
  }

  /** Nothing, or a section name after a space or tab. */
  predicate Section(s: string) {
    '\n' !in s && (s == "" || s[0] in " \t")
  }

  /** The section may be followed by the line feed. */
  lemma TailExact(s: string)
    ensures Tail(s) <==> Section(s) || (s != "" && s[|s| - 1] == '\n' && Section(s[..|s| - 1]))
  {
    assert s != "" && s[|s| - 1] == '\n' ==> '\n' in s;
  }

  function ParseHeader(line: string): Counts {
    if !StartsWith(line, "@@ -") then NoMatch
    else match ParseRange(line[4..])
      case NoRange => NoMatch
      case Range(olds, rest) =>
        if !StartsWith(rest, " +") then NoMatch
        else match ParseRange(rest[2..])
          case NoRange => NoMatch
          case Range(news, end) => if StartsWith(end, " @@") && Tail(end[3..]) then Counts(olds, news) else NoMatch
  }

  /** A range as a diff program writes it. */
  datatype RangeText = Start(start: string) | StartAndCount(start: string, count: string) {
    predicate Valid() {
      Numeral(start) && (StartAndCount? ==> Numeral(count))
    }

    function Text(): string {
      if Start? then start else start + "," + count
    }

    function Count(): nat
      requires Valid()
    {
      if Start? then 1 else Value(count)
    }
  }

  lemma {:induction false} DigitsOfNumeral(s: string, rest: string)
    requires Numeral(s) && (rest != "" ==> !IsDigit(rest[0]))
    ensures DigitsLength(s + rest) == |s| && (s + rest)[..|s|] == s && (s + rest)[|s|..] == rest
  {
    assert (s + rest)[1..] == s[1..] + rest;
    if |s| > 1 {
      DigitsOfNumeral(s[1..], rest);
    } else {
      assert s[1..] + rest == rest;
    }
  }

  lemma RangeIsParsed(r: RangeText, rest: string)
    requires r.Valid() && rest != "" && !IsDigit(rest[0]) && rest[0] != ','
    ensures ParseRange(r.Text() + rest) == Range(r.Count(), rest)
  {
    match r
    case Start(start) => DigitsOfNumeral(start, rest);
    case StartAndCount(start, count) =>
      assert r.Text() + rest == start + ("," + (count + rest));
      DigitsOfNumeral(start, "," + (count + rest));
      DigitsOfNumeral(count, rest);
      assert (r.Text() + rest)[|start| + 1..] == count + rest;
  }

  lemma CutTwice(s: string, n: nat, m: nat)
    requires n < |s| && s[n] == ',' && m <= |s| - n - 1
    ensures s == s[..n] + "," + s[n + 1..][..m] + s[n + 1..][m..]
  {
  }

  lemma ParsedRangeIsText(s: string) returns (r: RangeText)
    requires ParseRange(s).Range?
    ensures r.Valid() && s == r.Text() + ParseRange(s).rest && ParseRange(s).count == r.Count()
  {
    var n := DigitsLength(s);
    assert Numeral(s[..n]);
    if n < |s| && s[n] == ',' && DigitsLength(s[n + 1..]) > 0 {
      var m := DigitsLength(s[n + 1..]);
      r := StartAndCount(s[..n], s[n + 1..][..m]);
      CutTwice(s, n, m);
    } else {
      r := Start(s[..n]);
    }
  }

  ghost predicate IsHeader(line: string, olds: RangeText, news: RangeText, tail: string) {
    && olds.Valid() && news.Valid()
    && (Section(tail) || (tail != "" && tail[|tail| - 1] == '\n' && Section(tail[..|tail| - 1])))
    && line == "@@ -" + (olds.Text() + (" +" + (news.Text() + (" @@" + tail))))
  }

  lemma HeaderIsParsed(line: string, olds: RangeText, news: RangeText, tail: string)
    requires IsHeader(line, olds, news, tail)
    ensures ParseHeader(line) == Counts(olds.Count(), news.Count())
  {
    TailExact(tail);
    var end := " @@" + tail;
    var rest := " +" + (news.Text() + end);
    Cut("@@ -", olds.Text() + rest);
    Cut(" +", news.Text() + end);
    Cut(" @@", tail);
    RangeIsParsed(olds, rest);
    RangeIsParsed(news, end);
  }

  lemma Cut(a: string, b: string)
    ensures StartsWith(a + b, a) && (a + b)[|a|..] == b
  {
  }

  lemma ParsedIsHeader(line: string) returns (olds: RangeText, news: RangeText, tail: string)
    ensures ParseHeader(line).Counts? ==>
              IsHeader(line, olds, news, tail) && ParseHeader(line) == Counts(olds.Count(), news.Count())
  {
    olds, news, tail := Start(""), Start(""), "";
    if ParseHeader(line).Counts? {
      var rest := ParseRange(line[4..]).rest;
      var end := ParseRange(rest[2..]).rest;
      olds := ParsedRangeIsText(line[4..]);
      news := ParsedRangeIsText(rest[2..]);
      tail := end[3..];
      TailExact(tail);
      JoinHeader(line, olds.Text(), rest, news.Text(), end);
    }
  }

  lemma JoinHeader(line: string, olds: string, rest: string, news: string, end: string)
    requires StartsWith(line, "@@ -") && line[4..] == olds + rest
    requires StartsWith(rest, " +") && rest[2..] == news + end && StartsWith(end, " @@")
    ensures line == "@@ -" + (olds + (" +" + (news + (" @@" + end[3..]))))
  {
    assert line == line[..4] + line[4..] && rest == rest[..2] + rest[2..] && end == end[..3] + end[3..];
    assert line[..4] == "@@ -" && rest[..2] == " +" && end[..3] == " @@";
  }

  /** A line is read as a header with certain counts exactly if it is one with those counts. */
  lemma HeaderExact(line: string, c: Counts)
    requires c.Counts?
    ensures ParseHeader(line) == c <==> exists olds, news, tail :: HeaderWith(line, olds, news, tail, c)
  {
    if ParseHeader(line) == c {
      var olds, news, tail := ParsedIsHeader(line);
      assert HeaderWith(line, olds, news, tail, c);
    }
    forall olds, news, tail | HeaderWith(line, olds, news, tail, c)
      ensures ParseHeader(line) == c
    {
      HeaderIsParsed(line, olds, news, tail);
    }
  }

  ghost predicate HeaderWith(line: string, olds: RangeText, news: RangeText, tail: string, c: Counts) {
    IsHeader(line, olds, news, tail) && c == Counts(olds.Count(), news.Count())
  }

  // ---- Hunk lines ----

  const NOTICE := "\\ No newline at end of file"

  predicate IsNotice(line: string) {
    StartsWith(line, NOTICE)
  }

  predicate Adds(line: string) {
    line != "" && line[0] == '+'
  }

  predicate Removes(line: string) {
    line != "" && line[0] == '-'
  }

  /** Blank context may be an empty line. */
  predicate IsContext(line: string) {
    line == "" || line[0] == ' '
  }

  predicate TrailingBlank(line: string) {
    Adds(line) && |line| > 1 && (line[|line| - 1] == ' ' || line[|line| - 1] == '\t')
  }

  /** How the scanner sees a line; inside a hunk, other lines are malformed. */
  datatype Kind = Header(counts: Counts) | Notice | Added(blank: bool) | Removed | Context | Other {
    predicate InBody() {
      !Header? && !Other?
    }

    function OldLines(): nat {
      if Removed? || Context? then 1 else 0
    }

    function NewLines(): nat {
      if Added? || Context? then 1 else 0
    }
  }

  function KindOf(line: string): Kind {
    if StartsWith(line, "@@") then Header(ParseHeader(line))
    else if IsNotice(line) then Notice
    else if Adds(line) then Added(TrailingBlank(line))
    else if Removes(line) then Removed
    else if IsContext(line) then Context
    else Other
  }

  // ---- The grammar, over any classification of lines ----

  type Kinds = string -> Kind

  /** A patch is a sequence of lines outside hunks and of hunks. */
  datatype Part = Outside(line: string) | Hunk(header: string, body: seq<string>)

  /** How many of the lines the old version of the file has. */
  function Olds(kind: Kinds, body: seq<string>): nat {
    if body == [] then 0 else kind(body[0]).OldLines() + Olds(kind, body[1..])
  }

  /** How many of the lines the new version of the file has. */
  function News(kind: Kinds, body: seq<string>): nat {
    if body == [] then 0 else kind(body[0]).NewLines() + News(kind, body[1..])
  }

  /** Lines of the old version have a minus or a space first, or are empty. */
  predicate MarkedOld(line: string) {
    line == "" || line[0] == '-' || line[0] == ' '
  }

  /** Lines of the new version have a plus or a space first, or are empty. */
  predicate MarkedNew(line: string) {
    line == "" || line[0] == '+' || line[0] == ' '
  }

  function Positions(body: seq<string>, marked: string -> bool): set<nat> {
    set i: nat | i < |body| && marked(body[i])
  }

  lemma {:induction false} CountsOfLast(kind: Kinds, body: seq<string>, line: string)
    ensures Olds(kind, body + [line]) == Olds(kind, body) + kind(line).OldLines()
    ensures News(kind, body + [line]) == News(kind, body) + kind(line).NewLines()
  {
    if body == [] {
      assert [line][1..] == [] && [] + [line] == [line];
    } else {
      CountsOfLast(kind, body[1..], line);
      assert (body + [line])[1..] == body[1..] + [line];
    }
  }

  /** The first character decides which version of the file has a line: notices and other lines are in neither. */
  lemma {:induction false} MarksAreCounted(body: seq<string>)
    ensures Olds(KindOf, body) == |Positions(body, MarkedOld)| && News(KindOf, body) == |Positions(body, MarkedNew)|
  {
    if body == [] {
      assert Positions(body, MarkedOld) == {} && Positions(body, MarkedNew) == {};
    } else {
      var (before, line) := (body[..|body| - 1], body[|body| - 1]);
      MarksAreCounted(before);
      CountsOfLast(KindOf, before, line);
      PositionsOfLast(before, line, MarkedOld);
      PositionsOfLast(before, line, MarkedNew);
      assert body == before + [line];
    }
  }

  lemma PositionsOfLast(before: seq<string>, line: string, marked: string -> bool)
    ensures |Positions(before + [line], marked)| == |Positions(before, marked)| + if marked(line) then 1 else 0
  {
    assert Positions(before + [line], marked) == Positions(before, marked) + if marked(line) then {|before|} else {};
  }

  /** A complete hunk body: as many old and new lines as declared, and it is over once it has them all. */
  predicate Fills(kind: Kinds, body: seq<string>, olds: int, news: int) {
    && (forall i :: 0 <= i < |body| ==> kind(body[i]).InBody())
    && Olds(kind, body) == olds && News(kind, body) == news
    && forall i :: 0 <= i < |body| ==> Olds(kind, body[..i]) < olds || News(kind, body[..i]) < news
  }

  predicate WellFormed(kind: Kinds, part: Part) {
    match part
    case Outside(line) => !kind(line).Header?
    case Hunk(header, body) =>
      && kind(header).Header? && kind(header).counts.Counts?
      && Fills(kind, body, kind(header).counts.olds, kind(header).counts.news)
  }

  predicate Document(kind: Kinds, parts: seq<Part>) {
    forall i :: 0 <= i < |parts| ==> WellFormed(kind, parts[i])
  }

  function Lines(part: Part): seq<string> {
    match part
    case Outside(line) => [line]
    case Hunk(header, body) => [header] + body
  }

  function Flatten(parts: seq<Part>): seq<string> {
    if parts == [] then [] else Lines(parts[0]) + Flatten(parts[1..])
  }

  function Found(kind: Kind, number: nat): seq<nat> {
    if kind.Added? && kind.blank then [number] else []
  }

  /** The numbers of the lines of a hunk body that add trailing whitespace; the first line has the given number. */
  function BodyFailures(kind: Kinds, body: seq<string>, number: nat): seq<nat> {
    if body == [] then [] else Found(kind(body[0]), number) + BodyFailures(kind, body[1..], number + 1)
  }

  function PartFailures(kind: Kinds, part: Part, number: nat): seq<nat> {
    if part.Hunk? then BodyFailures(kind, part.body, number + 1) else []
  }

  function Failures(kind: Kinds, parts: seq<Part>, number: nat): seq<nat> {
    if parts == [] then []
    else PartFailures(kind, parts[0], number) + Failures(kind, parts[1..], number + |Lines(parts[0])|)
  }

  // ---- The scanner ----

  /** What one line does to the counts an open hunk has left. */
  datatype Turn = Stop(error: Error) | Go(olds: nat, news: nat, failures: seq<nat>)

  function Take(kind: Kind, number: nat, olds: nat, news: nat): Turn {
    if kind.Header? then
      if olds > 0 || news > 0 then Stop(EndedEarly)
      else match kind.counts
        case NoMatch => Stop(MalformedHeader(number))
        case Counts(o, n) => Go(o, n, [])
    else if (olds == 0 && news == 0) || kind.Notice? then Go(olds, news, [])
    else if kind.Other? then Stop(MalformedLine(number))
    else if olds < kind.OldLines() || news < kind.NewLines() then Stop(TooLong(number))
    else Go(olds - kind.OldLines(), news - kind.NewLines(), Found(kind, number))
  }

  function Prepend(failures: seq<nat>, r: Result<seq<nat>>): Result<seq<nat>> {
    if r.Ok? then Ok(failures + r.value) else r
  }

  /** The scanner's verdict on the remaining lines, with the counts the open hunk has left. */
  function Scan(kind: Kinds, lines: seq<string>, number: nat, olds: nat, news: nat): Result<seq<nat>>
    decreases |lines|
  {
    if lines == [] then
      if olds > 0 || news > 0 then Err(EndedEarly) else Ok([])
    else match Take(kind(lines[0]), number, olds, news)
      case Stop(error) => Err(error)
      case Go(o, n, failures) => Prepend(failures, Scan(kind, lines[1..], number + 1, o, n))
  }

  lemma PrependNothing(r: Result<seq<nat>>)
    ensures Prepend([], r) == r
  {
    if r.Ok? {
      assert [] + r.value == r.value;
    }
  }

  lemma PrependTwice(a: seq<nat>, b: seq<nat>, r: Result<seq<nat>>)
    ensures Prepend(a, Prepend(b, r)) == Prepend(a + b, r)
  {
    if r.Ok? {
      assert a + (b + r.value) == a + b + r.value;
    }
  }

  lemma ScanOne(kind: Kinds, lines: seq<string>, i: nat, failures: seq<nat>, olds: nat, news: nat)
    requires i < |lines|
    ensures match Take(kind(lines[i]), i + 1, olds, news)
            case Stop(error) => Prepend(failures, Scan(kind, lines[i..], i + 1, olds, news)) == Err(error)
            case Go(o, n, more) =>
              Prepend(failures, Scan(kind, lines[i..], i + 1, olds, news))
              == Prepend(failures + more, Scan(kind, lines[i + 1..], i + 2, o, n))
  {
    assert lines[i..][0] == lines[i] && lines[i..][1..] == lines[i + 1..];
    var turn := Take(kind(lines[i]), i + 1, olds, news);
    if turn.Go? {
      PrependTwice(failures, turn.failures, Scan(kind, lines[i + 1..], i + 2, turn.olds, turn.news));
    }
  }

  method AddedTrailingWhitespace(lines: seq<string>) returns (r: Result<seq<nat>>)
    ensures r == Scan(KindOf, lines, 1, 0, 0)
  {
    var failures: seq<nat> := [];
    var oldRemaining, newRemaining := 0, 0;
    assert lines[0..] == lines;
    PrependNothing(Scan(KindOf, lines, 1, 0, 0));
    for i := 0 to |lines|
      invariant oldRemaining >= 0 && newRemaining >= 0
      invariant Scan(KindOf, lines, 1, 0, 0) == Prepend(failures, Scan(KindOf, lines[i..], i + 1, oldRemaining, newRemaining))
    {
      ScanOne(KindOf, lines, i, failures, oldRemaining, newRemaining);
      var turn := TakeLine(lines[i], i + 1, oldRemaining, newRemaining);
      if turn.Stop? {
        return Err(turn.error);
      }
      failures := failures + turn.failures;
      oldRemaining, newRemaining := turn.olds, turn.news;
    }
    assert lines[|lines|..] == [] && failures + [] == failures;
    if oldRemaining != 0 || newRemaining != 0 {
      return Err(EndedEarly);
    }
    return Ok(failures);
  }

  /** One turn of the scanner's loop. */
  method TakeLine(line: string, number: nat, olds: nat, news: nat) returns (turn: Turn)
    ensures turn == Take(KindOf(line), number, olds, news)
    ensures if |line| > 1 && line[..2] == "@@" then
              if olds > 0 || news > 0 then turn == Stop(EndedEarly)
              else if ParseHeader(line).NoMatch? then turn == Stop(MalformedHeader(number))
              else turn == Go(ParseHeader(line).olds, ParseHeader(line).news, [])
            else if (olds == 0 && news == 0) || NOTICE <= line then turn == Go(olds, news, [])
            else if line == "" || line[0] == ' ' then
              turn == if olds > 0 && news > 0 then Go(olds - 1, news - 1, []) else Stop(TooLong(number))
            else if line[0] == '-' then turn == if olds > 0 then Go(olds - 1, news, []) else Stop(TooLong(number))
            else if line[0] == '+' then
              turn == if news > 0 then Go(olds, news - 1, if |line| > 1 && line[|line| - 1] in " \t" then [number] else [])
                      else Stop(TooLong(number))
            else turn == Stop(MalformedLine(number))
  {
    var oldRemaining: int, newRemaining: int := olds, news;
    var failures: seq<nat> := [];
    if StartsWith(line, "@@") {
      if oldRemaining != 0 || newRemaining != 0 {
        return Stop(EndedEarly);
      }
      var counts := ParseHeader(line);
      if counts.NoMatch? {
        return Stop(MalformedHeader(number));
      }
      return Go(counts.olds, counts.news, []);
    }
    if oldRemaining == 0 && newRemaining == 0 {
      return Go(0, 0, []);
    }
    if IsNotice(line) {
      return Go(olds, news, []);
    }
    if Adds(line) {
      if TrailingBlank(line) {
        failures := [number];
      }
      newRemaining := newRemaining - 1;
    } else if Removes(line) {
      oldRemaining := oldRemaining - 1;
    } else if IsContext(line) {
      oldRemaining, newRemaining := oldRemaining - 1, newRemaining - 1;
    } else {
      return Stop(MalformedLine(number));
    }
    if oldRemaining < 0 || newRemaining < 0 {
      return Stop(TooLong(number));
    }
    return Go(oldRemaining, newRemaining, failures);
  }

  // ---- The scanner accepts exactly the grammar ----

  /** The lines use up the counts one by one, and the last one is counted. */
  predicate Uses(kind: Kinds, body: seq<string>, olds: int, news: int) {
    if body == [] then olds == 0 && news == 0
    else
      && (olds > 0 || news > 0) && kind(body[0]).InBody()
      && Uses(kind, body[1..], olds - kind(body[0]).OldLines(), news - kind(body[0]).NewLines())
  }

  lemma {:induction false} CountsOfPrefix(kind: Kinds, body: seq<string>, i: nat)
    requires 0 < i <= |body|
    ensures Olds(kind, body[..i]) == kind(body[0]).OldLines() + Olds(kind, body[1..][..i - 1])
    ensures News(kind, body[..i]) == kind(body[0]).NewLines() + News(kind, body[1..][..i - 1])
  {
    assert body[..i][1..] == body[1..][..i - 1];
  }

  /** Counting down line by line recognizes exactly the complete hunk bodies. */
  lemma {:induction false} UsesIsCounting(kind: Kinds, body: seq<string>, olds: int, news: int)
    ensures Uses(kind, body, olds, news) <==> Fills(kind, body, olds, news)
  {
    if body != [] {
      var (o, n) := (olds - kind(body[0]).OldLines(), news - kind(body[0]).NewLines());
      UsesIsCounting(kind, body[1..], o, n);
      if Uses(kind, body, olds, news) {
        forall i | 0 <= i < |body|
          ensures kind(body[i]).InBody() && (Olds(kind, body[..i]) < olds || News(kind, body[..i]) < news)
        {
          if i > 0 {
            CountsOfPrefix(kind, body, i);
            assert body[i] == body[1..][i - 1];
          } else {
            assert body[..0] == [];
          }
        }
      }
      if Fills(kind, body, olds, news) {
        assert body[..0] == [];
        assert Olds(kind, body[..0]) < olds || News(kind, body[..0]) < news;
        forall i | 0 <= i < |body[1..]|
          ensures kind(body[1..][i]).InBody() && (Olds(kind, body[1..][..i]) < o || News(kind, body[1..][..i]) < n)
        {
          CountsOfPrefix(kind, body, i + 1);
          assert body[i + 1] == body[1..][i];
        }
      }
    }
  }

  lemma {:induction false} UsesIsNatural(kind: Kinds, body: seq<string>, olds: int, news: int)
    requires Uses(kind, body, olds, news)
    ensures olds >= 0 && news >= 0
  {
    if body != [] {
      UsesIsNatural(kind, body[1..], olds - kind(body[0]).OldLines(), news - kind(body[0]).NewLines());
    }
  }

  lemma {:induction false} BodyIsAccepted(kind: Kinds, body: seq<string>, rest: seq<string>, number: nat, olds: nat, news: nat)
    requires Uses(kind, body, olds, news)
    ensures Scan(kind, body + rest, number, olds, news)
         == Prepend(BodyFailures(kind, body, number), Scan(kind, rest, number + |body|, 0, 0))
  {
    if body == [] {
      assert body + rest == rest;
      PrependNothing(Scan(kind, rest, number, 0, 0));
    } else {
      var (first, more) := (kind(body[0]), body[1..]);
      var (o, n) := (olds - first.OldLines(), news - first.NewLines());
      assert (body + rest)[1..] == more + rest && (body + rest)[0] == body[0];
      UsesIsNatural(kind, more, o, n);
      BodyIsAccepted(kind, more, rest, number + 1, o, n);
      PrependTwice(Found(first, number), BodyFailures(kind, more, number + 1), Scan(kind, rest, number + |body|, 0, 0));
    }
  }

  lemma {:induction false} PartIsAccepted(kind: Kinds, part: Part, rest: seq<string>, number: nat)
    requires WellFormed(kind, part)
    ensures Scan(kind, Lines(part) + rest, number, 0, 0)
         == Prepend(PartFailures(kind, part, number), Scan(kind, rest, number + |Lines(part)|, 0, 0))
  {
    match part
    case Outside(line) =>
      assert ([line] + rest)[1..] == rest;
    case Hunk(header, body) =>
      var c := kind(header).counts;
      assert (Lines(part) + rest)[1..] == body + rest && (Lines(part) + rest)[0] == header;
      UsesIsCounting(kind, body, c.olds, c.news);
      BodyIsAccepted(kind, body, rest, number + 1, c.olds, c.news);
      PrependNothing(Scan(kind, body + rest, number + 1, c.olds, c.news));
  }

  lemma {:induction false} DocumentIsAccepted(kind: Kinds, parts: seq<Part>, number: nat)
    requires Document(kind, parts)
    ensures Scan(kind, Flatten(parts), number, 0, 0) == Ok(Failures(kind, parts, number))
  {
    if parts != [] {
      assert WellFormed(kind, parts[0]);
      DocumentIsAccepted(kind, parts[1..], number + |Lines(parts[0])|);
      PartIsAccepted(kind, parts[0], Flatten(parts[1..]), number);
    }
  }

  lemma {:induction false} HunkIsWellFormed(kind: Kinds, header: string, body: seq<string>)
    requires kind(header).Header? && kind(header).counts.Counts?
    requires Uses(kind, body, kind(header).counts.olds, kind(header).counts.news)
    ensures WellFormed(kind, Hunk(header, body))
  {
    UsesIsCounting(kind, body, kind(header).counts.olds, kind(header).counts.news);
  }

  lemma UsesMore(kind: Kinds, line: string, number: nat, inner: seq<string>, olds: nat, news: nat)
    requires olds > 0 || news > 0
    requires Take(kind(line), number, olds, news).Go?
    requires Uses(kind, inner, Take(kind(line), number, olds, news).olds, Take(kind(line), number, olds, news).news)
    ensures Uses(kind, [line] + inner, olds, news)
  {
    assert ([line] + inner)[1..] == inner;
  }

  /** A header with what it uses up is a hunk, any other line outside hunks stands alone. */
  lemma PartOf(kind: Kinds, line: string, number: nat, inner: seq<string>) returns (part: Part)
    requires Take(kind(line), number, 0, 0).Go?
    requires Uses(kind, inner, Take(kind(line), number, 0, 0).olds, Take(kind(line), number, 0, 0).news)
    ensures WellFormed(kind, part) && Lines(part) == [line] + inner
  {
    if kind(line).Header? {
      HunkIsWellFormed(kind, line, inner);
      part := Hunk(line, inner);
    } else {
      part := Outside(line);
    }
  }

  lemma {:induction false} AddPart(kind: Kinds, part: Part, parts: seq<Part>)
    requires WellFormed(kind, part) && Document(kind, parts)
    ensures Document(kind, [part] + parts) && Flatten([part] + parts) == Lines(part) + Flatten(parts)
  {
    assert ([part] + parts)[1..] == parts;
  }

  /** The hunk still open ends after some of the remaining lines, and a document follows. */
  lemma {:induction false} AcceptedIsDocument(kind: Kinds, lines: seq<string>, number: nat, olds: nat, news: nat)
      returns (body: seq<string>, parts: seq<Part>)
    requires Scan(kind, lines, number, olds, news).Ok?
    ensures Uses(kind, body, olds, news) && Document(kind, parts) && lines == body + Flatten(parts)
    ensures olds == 0 && news == 0 ==> body == []
    decreases |lines|
  {
    if lines == [] {
      return [], [];
    }
    var (line, rest) := (lines[0], lines[1..]);
    var turn := Take(kind(line), number, olds, news);
    var inner, more := AcceptedIsDocument(kind, rest, number + 1, turn.olds, turn.news);
    assert lines == [line] + inner + Flatten(more);
    if olds > 0 || news > 0 {
      body, parts := [line] + inner, more;
      UsesMore(kind, line, number, inner, olds, news);
    } else {
      var part := PartOf(kind, line, number, inner);
      body, parts := [], [part] + more;
      AddPart(kind, part, more);
    }
  }

  /** Accepted exactly if the lines are outside lines and complete hunks; then exactly their bad lines are reported. */
  lemma ScannerIsGrammar(lines: seq<string>)
    ensures Scan(KindOf, lines, 1, 0, 0).Ok? <==> exists parts :: Document(KindOf, parts) && Flatten(parts) == lines
    ensures forall parts :: Document(KindOf, parts) && Flatten(parts) == lines ==>
              Scan(KindOf, lines, 1, 0, 0) == Ok(Failures(KindOf, parts, 1))
  {
    if Scan(KindOf, lines, 1, 0, 0).Ok? {
      var body, parts := AcceptedIsDocument(KindOf, lines, 1, 0, 0);
      assert Document(KindOf, parts) && Flatten(parts) == lines;
    }
    forall parts | Document(KindOf, parts) && Flatten(parts) == lines
      ensures Scan(KindOf, lines, 1, 0, 0) == Ok(Failures(KindOf, parts, 1))
    {
      DocumentIsAccepted(KindOf, parts, 1);
    }
  }

  // ---- What is reported, by position ----

  predicate Increasing(s: seq<nat>) {
    forall i, j :: 0 <= i < j < |s| ==> s[i] < s[j]
  }

  predicate Within(s: seq<nat>, from: nat, to: nat) {
    forall i :: 0 <= i < |s| ==> from <= s[i] < to
  }

  lemma {:induction false} IncreasingJoin(a: seq<nat>, b: seq<nat>, from: nat, middle: nat, to: nat)
    requires Increasing(a) && Increasing(b) && Within(a, from, middle) && Within(b, middle, to) && from <= middle <= to
    ensures Increasing(a + b) && Within(a + b, from, to)
  {
  }

  predicate AddsBlankAt(kind: Kinds, body: seq<string>, i: int) {
    0 <= i < |body| && kind(body[i]).Added? && kind(body[i]).blank
  }

  /** In a hunk exactly the added lines with trailing whitespace are reported, in increasing order. */
  lemma {:induction false} BodyFailuresExact(kind: Kinds, body: seq<string>, number: nat)
    ensures forall n: nat :: n in BodyFailures(kind, body, number) <==> AddsBlankAt(kind, body, n - number)
    ensures Increasing(BodyFailures(kind, body, number)) && Within(BodyFailures(kind, body, number), number, number + |body|)
  {
    if body != [] {
      var (first, more) := (Found(kind(body[0]), number), BodyFailures(kind, body[1..], number + 1));
      BodyFailuresExact(kind, body[1..], number + 1);
      IncreasingJoin(first, more, number, number + 1, number + |body|);
      forall n: nat ensures n in first + more <==> AddsBlankAt(kind, body, n - number) {
        InEither(first, more, n);
        if n > number {
          assert AddsBlankAt(kind, body, n - number) == AddsBlankAt(kind, body[1..], n - (number + 1));
        }
      }
    }
  }

  lemma {:induction false} PartFailuresIncrease(kind: Kinds, part: Part, number: nat)
    ensures Increasing(PartFailures(kind, part, number))
    ensures Within(PartFailures(kind, part, number), number, number + |Lines(part)|)
  {
    if part.Hunk? {
      BodyFailuresExact(kind, part.body, number + 1);
    }
  }

  /** The reported line numbers increase, and stay inside the patch. */
  lemma {:induction false} FailuresIncrease(kind: Kinds, parts: seq<Part>, number: nat)
    ensures Increasing(Failures(kind, parts, number)) && Within(Failures(kind, parts, number), number, number + |Flatten(parts)|)
  {
    if parts != [] {
      var middle := number + |Lines(parts[0])|;
      FailuresIncrease(kind, parts[1..], middle);
      IncreaseStep(kind, parts, number, middle);
    }
  }

  lemma FlattenLength(parts: seq<Part>)
    requires parts != []
    ensures |Flatten(parts)| == |Lines(parts[0])| + |Flatten(parts[1..])|
  {
  }

  lemma {:induction false} IncreaseStep(kind: Kinds, parts: seq<Part>, number: nat, middle: nat)
    requires parts != [] && middle == number + |Lines(parts[0])|
    requires Increasing(Failures(kind, parts[1..], middle))
    requires Within(Failures(kind, parts[1..], middle), middle, middle + |Flatten(parts[1..])|)
    ensures Increasing(Failures(kind, parts, number)) && Within(Failures(kind, parts, number), number, number + |Flatten(parts)|)
  {
    var (first, rest) := (PartFailures(kind, parts[0], number), Failures(kind, parts[1..], middle));
    var end := middle + |Flatten(parts[1..])|;
    assert Failures(kind, parts, number) == first + rest;
    FlattenLength(parts);
    PartFailuresIncrease(kind, parts[0], number);
    IncreasingJoin(first, rest, number, middle, end);
    assert number + |Flatten(parts)| == end;
  }

  /** The k-th body line of the p-th part is an added line with trailing whitespace. */
  predicate BadAt(kind: Kinds, parts: seq<Part>, p: nat, k: nat) {
    p < |parts| && parts[p].Hunk? && AddsBlankAt(kind, parts[p].body, k)
  }

  /** How many lines of the document stand before that body line. */
  function Before(parts: seq<Part>, p: nat, k: nat): nat
    requires p <= |parts|
  {
    |Flatten(parts[..p])| + 1 + k
  }

  lemma {:induction false} BeforeNext(parts: seq<Part>, p: nat, k: nat)
    requires 0 < p <= |parts|
    ensures Before(parts, p, k) == |Lines(parts[0])| + Before(parts[1..], p - 1, k)
  {
    assert parts[..p][1..] == parts[1..][..p - 1];
  }

  lemma {:induction false} LineOfDocument(parts: seq<Part>, p: nat, k: nat)
    requires p < |parts| && parts[p].Hunk? && k < |parts[p].body|
    ensures Before(parts, p, k) < |Flatten(parts)| && Flatten(parts)[Before(parts, p, k)] == parts[p].body[k]
  {
    var (first, rest) := (Lines(parts[0]), Flatten(parts[1..]));
    if p == 0 {
      assert parts[..0] == [];
      assert (first + rest)[1 + k] == first[1 + k];
    } else {
      var before := Before(parts[1..], p - 1, k);
      BeforeNext(parts, p, k);
      LineOfDocument(parts[1..], p - 1, k);
      assert (first + rest)[|first| + before] == rest[before];
    }
  }

  ghost predicate ReportedFrom(kind: Kinds, parts: seq<Part>, number: nat, n: nat, p: nat, k: nat) {
    BadAt(kind, parts, p, k) && n == number + Before(parts, p, k)
  }

  lemma {:induction false} ReportedFirst(kind: Kinds, parts: seq<Part>, number: nat, n: nat)
    requires parts != []
    ensures n in PartFailures(kind, parts[0], number) <==> exists k: nat :: ReportedFrom(kind, parts, number, n, 0, k)
  {
    assert parts[..0] == [];
    if parts[0].Hunk? {
      BodyFailuresExact(kind, parts[0].body, number + 1);
      if n in PartFailures(kind, parts[0], number) {
        assert ReportedFrom(kind, parts, number, n, 0, n - (number + 1));
      }
    }
  }

  lemma {:induction false} ReportedLater(kind: Kinds, parts: seq<Part>, number: nat, n: nat, p: nat, k: nat)
    requires 0 < p <= |parts|
    ensures ReportedFrom(kind, parts, number, n, p, k) <==> ReportedFrom(kind, parts[1..], number + |Lines(parts[0])|, n, p - 1, k)
  {
    BeforeNext(parts, p, k);
  }

  ghost predicate Reported(kind: Kinds, parts: seq<Part>, number: nat, n: nat) {
    exists p: nat, k: nat :: ReportedFrom(kind, parts, number, n, p, k)
  }

  lemma {:induction false} ReportedSplits(kind: Kinds, parts: seq<Part>, number: nat, n: nat)
    requires parts != []
    ensures Reported(kind, parts, number, n) <==>
              n in PartFailures(kind, parts[0], number) || Reported(kind, parts[1..], number + |Lines(parts[0])|, n)
  {
    ReportedFirst(kind, parts, number, n);
    if Reported(kind, parts[1..], number + |Lines(parts[0])|, n) {
      ReportedInRest(kind, parts, number, n);
    }
    if p: nat, k: nat :| ReportedFrom(kind, parts, number, n, p, k) && p > 0 {
      ReportedLater(kind, parts, number, n, p, k);
    }
  }

  lemma {:induction false} ReportedInRest(kind: Kinds, parts: seq<Part>, number: nat, n: nat)
    requires parts != [] && Reported(kind, parts[1..], number + |Lines(parts[0])|, n)
    ensures Reported(kind, parts, number, n)
  {
    var p: nat, k: nat :| ReportedFrom(kind, parts[1..], number + |Lines(parts[0])|, n, p, k);
    ReportedLater(kind, parts, number, n, p + 1, k);
  }

  lemma {:induction false} ReportedStep(kind: Kinds, parts: seq<Part>, number: nat, n: nat, middle: nat)
    requires parts != [] && middle == number + |Lines(parts[0])|
    requires n in Failures(kind, parts[1..], middle) <==> Reported(kind, parts[1..], middle, n)
    ensures n in Failures(kind, parts, number) <==> Reported(kind, parts, number, n)
  {
    hide Reported, PartFailures;
    ReportedSplits(kind, parts, number, n);
    assert Failures(kind, parts, number) == PartFailures(kind, parts[0], number) + Failures(kind, parts[1..], middle);
    InEither(PartFailures(kind, parts[0], number), Failures(kind, parts[1..], middle), n);
  }

  lemma InEither(a: seq<nat>, b: seq<nat>, n: nat)
    ensures n in a + b <==> n in a || n in b
  {
  }

  /** In a whole document exactly the added lines of hunk bodies with trailing whitespace are reported, by their numbers. */
  lemma {:induction false} FailuresExact(kind: Kinds, parts: seq<Part>, number: nat, n: nat)
    ensures n in Failures(kind, parts, number) <==> Reported(kind, parts, number, n)
  {
    if parts != [] {
      var middle := number + |Lines(parts[0])|;
      FailuresExact(kind, parts[1..], middle, n);
      ReportedStep(kind, parts, number, n, middle);
    }
  }

  lemma {:induction false} BadLineOfDocument(kind: Kinds, parts: seq<Part>, p: nat, k: nat)
    requires BadAt(kind, parts, p, k)
    ensures AddsBlankAt(kind, Flatten(parts), Before(parts, p, k))
  {
    LineOfDocument(parts, p, k);
  }

  /** A reported number is that of a line of the document which the classification calls bad. */
  lemma {:induction false} ReportedLine(kind: Kinds, parts: seq<Part>, n: nat, p: nat, k: nat)
    requires ReportedFrom(kind, parts, 1, n, p, k)
    ensures AddsBlankAt(kind, Flatten(parts), n - 1)
  {
    BadLineOfDocument(kind, parts, p, k);
  }

  /** What the classification calls bad is an added line that ends in a space or tab. */
  lemma BadMeansTrailing(lines: seq<string>, i: int)
    ensures AddsBlankAt(KindOf, lines, i) <==>
              0 <= i < |lines| && |lines[i]| > 1 && lines[i][0] == '+' && lines[i][|lines[i]| - 1] in " \t"
  {
  }

  /** The report on a patch: the numbers, in increasing order, of the lines in hunks that add trailing whitespace. */
  lemma {:induction false} ReportIsExact(kind: Kinds, parts: seq<Part>, report: seq<nat>, n: nat)
    requires Document(kind, parts) && Scan(kind, Flatten(parts), 1, 0, 0) == Ok(report)
    ensures n in report <==> Reported(kind, parts, 1, n)
    ensures n in report ==> AddsBlankAt(kind, Flatten(parts), n - 1)
    ensures Increasing(report)
  {
    DocumentIsAccepted(kind, parts, 1);
    FailuresIncrease(kind, parts, 1);
    FailuresExact(kind, parts, 1, n);
    if p: nat, k: nat :| ReportedFrom(kind, parts, 1, n, p, k) {
      ReportedLine(kind, parts, n, p, k);
    }
  }

  // ---- Splitting into lines ----

  const CR := '\r'
  const LF := '\n'

  /** All non-overlapping "\r\n" replaced, from the left. */
  function ReplaceCrLf(s: string, filler: string): string {
    if s == "" then ""
    else if |s| > 1 && s[0] == CR && s[1] == LF then filler + ReplaceCrLf(s[2..], filler)
    else [s[0]] + ReplaceCrLf(s[1..], filler)
  }

  predicate HasCrLf(s: string) {
    exists i :: 0 <= i < |s| - 1 && s[i] == CR && s[i + 1] == LF
  }

  function Split(s: string): (lines: seq<string>)
    ensures |lines| > 0
  {
    if s == "" then [""]
    else if s[0] == LF then [""] + Split(s[1..])
    else var rest := Split(s[1..]); [[s[0]] + rest[0]] + rest[1..]
  }

  predicate EndsLine(s: string) {
    s != "" && s[|s| - 1] == LF
  }

  method PatchLines(data: string) returns (r: Result<seq<string>>)
    ensures if HasBareCr(data) then r == Err(BareCarriageReturn)
            else if HasCrLf(data) && HasBareLf(data) then r == Err(MixedLineEndings)
            else r.Ok? && PlainLines(r.value) && data == Rejoin(r.value, if HasCrLf(data) then "\r\n" else "\n", EndsLine(data))
  {
    var withoutCrLf := ReplaceCrLf(data, "");
    WithoutCrLf(data);
    if CR in withoutCrLf {
      return Err(BareCarriageReturn);
    }
    if HasCrLf(data) && LF in withoutCrLf {
      return Err(MixedLineEndings);
    }
    var normalized := if HasCrLf(data) then ReplaceCrLf(data, "\n") else data;
    var lines := Split(normalized);
    LinesRejoin(data, normalized);
    if EndsLine(normalized) {
      lines := lines[..|lines| - 1];
    }
    return Ok(lines);
  }

  /** A carriage return that no line feed follows. */
  predicate HasBareCr(s: string) {
    exists i :: 0 <= i < |s| && s[i] == CR && !(i + 1 < |s| && s[i + 1] == LF)
  }

  /** A line feed that no carriage return precedes. */
  predicate HasBareLf(s: string) {
    exists i :: 0 <= i < |s| && s[i] == LF && !(i > 0 && s[i - 1] == CR)
  }

  predicate PlainLines(lines: seq<string>) {
    forall i :: 0 <= i < |lines| ==> CR !in lines[i] && LF !in lines[i]
  }

  /** The lines with a terminator between them, and after the last one if the file ended its last line. */
  function Rejoin(lines: seq<string>, terminator: string, ended: bool): string {
    if lines == [] then ""
    else if |lines| == 1 then lines[0] + if ended then terminator else ""
    else lines[0] + terminator + Rejoin(lines[1..], terminator, ended)
  }

  lemma BareShifts(s: string, k: nat)
    requires 0 < k <= |s|
    requires k == 1 || (k == 2 && s[0] == CR && s[1] == LF)
    ensures k == 2 ==> HasBareCr(s) == HasBareCr(s[2..]) && HasBareLf(s) == HasBareLf(s[2..])
    ensures k == 1 && !(|s| > 1 && s[0] == CR && s[1] == LF) ==>
              HasBareCr(s) == (s[0] == CR || HasBareCr(s[1..])) && HasBareLf(s) == (s[0] == LF || HasBareLf(s[1..]))
  {
    var t := s[k..];
    if i :| 0 <= i < |t| && t[i] == CR && !(i + 1 < |t| && t[i + 1] == LF) {
      assert s[i + k] == CR && !(i + k + 1 < |s| && s[i + k + 1] == LF);
    }
    if i :| 0 <= i < |t| && t[i] == LF && !(i > 0 && t[i - 1] == CR) {
      assert s[i + k] == LF;
      assert i > 0 ==> s[i + k - 1] == t[i - 1];
    }
    if i :| k <= i < |s| && s[i] == CR && !(i + 1 < |s| && s[i + 1] == LF) {
      assert t[i - k] == CR && !(i - k + 1 < |t| && t[i - k + 1] == LF);
    }
    if i :| k <= i < |s| && s[i] == LF && !(i > 0 && s[i - 1] == CR) {
      assert t[i - k] == LF && !(i - k > 0 && t[i - k - 1] == CR);
    }
  }

  lemma {:induction false} WithoutCrLf(s: string)
    ensures CR in ReplaceCrLf(s, "") <==> HasBareCr(s)
    ensures CR in ReplaceCrLf(s, "\n") <==> HasBareCr(s)
    ensures LF in ReplaceCrLf(s, "") <==> HasBareLf(s)
  {
    if |s| > 1 && s[0] == CR && s[1] == LF {
      WithoutCrLf(s[2..]);
      BareShifts(s, 2);
    } else if s != "" {
      WithoutCrLf(s[1..]);
      BareShifts(s, 1);
    }
  }

  function Join(lines: seq<string>, separator: string): string
    requires lines != []
  {
    if |lines| == 1 then lines[0] else lines[0] + separator + Join(lines[1..], separator)
  }

  lemma JoinFirst(c: char, lines: seq<string>, separator: string)
    requires lines != []
    ensures Join([[c] + lines[0]] + lines[1..], separator) == [c] + Join(lines, separator)
  {
    var longer := [[c] + lines[0]] + lines[1..];
    assert longer[1..] == lines[1..];
    if |lines| > 1 {
      assert [c] + lines[0] + separator + Join(lines[1..], separator) == [c] + (lines[0] + separator + Join(lines[1..], separator));
    }
  }

  lemma JoinEmptyFirst(lines: seq<string>, separator: string)
    requires lines != []
    ensures Join([""] + lines, separator) == separator + Join(lines, separator)
  {
    assert ([""] + lines)[1..] == lines;
    assert "" + separator == separator;
  }

  lemma {:induction false} JoinSplit(s: string)
    ensures Join(Split(s), "\n") == s
  {
    if s != "" {
      JoinSplit(s[1..]);
      if s[0] == LF {
        JoinEmptyFirst(Split(s[1..]), "\n");
      } else {
        JoinFirst(s[0], Split(s[1..]), "\n");
      }
    }
  }

  lemma {:induction false} SplitIsPlain(s: string)
    requires CR !in s
    ensures PlainLines(Split(s))
  {
    if s != "" {
      SplitIsPlain(s[1..]);
    }
  }

  lemma {:induction false} JoinSplitCrLf(s: string)
    requires !HasBareCr(s) && !HasBareLf(s)
    ensures Join(Split(ReplaceCrLf(s, "\n")), "\r\n") == s
  {
    if |s| > 1 && s[0] == CR && s[1] == LF {
      var rest := ReplaceCrLf(s[2..], "\n");
      BareShifts(s, 2);
      JoinSplitCrLf(s[2..]);
      assert ("\n" + rest)[1..] == rest;
      JoinEmptyFirst(Split(rest), "\r\n");
      assert s == "\r\n" + s[2..];
    } else if s != "" {
      var rest := ReplaceCrLf(s[1..], "\n");
      BareShifts(s, 1);
      JoinSplitCrLf(s[1..]);
      assert ([s[0]] + rest)[1..] == rest;
      JoinFirst(s[0], Split(rest), "\r\n");
    }
  }

  lemma {:induction false} ReplaceKeepsEnd(s: string)
    ensures EndsLine(ReplaceCrLf(s, "\n")) == EndsLine(s) && (ReplaceCrLf(s, "\n") == "" <==> s == "")
  {
    if |s| > 1 && s[0] == CR && s[1] == LF {
      ReplaceKeepsEnd(s[2..]);
    } else if s != "" {
      ReplaceKeepsEnd(s[1..]);
    }
  }

  lemma {:induction false} EndedLast(s: string)
    requires EndsLine(s)
    ensures |Split(s)| > 1 && Split(s)[|Split(s)| - 1] == ""
  {
    if |s| > 1 {
      EndedLast(s[1..]);
    }
  }

  lemma {:induction false} RejoinIsJoin(lines: seq<string>, terminator: string)
    requires lines != []
    ensures Rejoin(lines, terminator, true) == Join(lines + [""], terminator)
    ensures Rejoin(lines, terminator, false) == Join(lines, terminator)
  {
    assert (lines + [""])[1..] == lines[1..] + [""];
    if |lines| > 1 {
      RejoinIsJoin(lines[1..], terminator);
    }
  }

  lemma CrIsPaired(s: string, i: nat)
    requires !HasBareCr(s) && i < |s| && s[i] == CR
    ensures HasCrLf(s)
  {
    assert i + 1 < |s| && s[i + 1] == LF;
  }

  lemma NoCrLfIsNoCr(s: string)
    requires !HasBareCr(s) && !HasCrLf(s)
    ensures CR !in s
  {
    forall i | 0 <= i < |s| ensures s[i] != CR {
      if s[i] == CR {
        CrIsPaired(s, i);
      }
    }
  }

  /** The lines, joined with the file's one terminator, are the file again. */
  lemma LinesRejoin(data: string, normalized: string)
    requires !HasBareCr(data) && (HasCrLf(data) ==> !HasBareLf(data))
    requires normalized == if HasCrLf(data) then ReplaceCrLf(data, "\n") else data
    ensures EndsLine(normalized) ==> |Split(normalized)| > 1
    ensures var lines := if EndsLine(normalized) then Split(normalized)[..|Split(normalized)| - 1] else Split(normalized);
            PlainLines(lines) && data == Rejoin(lines, if HasCrLf(data) then "\r\n" else "\n", EndsLine(data))
  {
    JoinSplit(normalized);
    if HasCrLf(data) {
      WithoutCrLf(data);
      JoinSplitCrLf(data);
      ReplaceKeepsEnd(data);
    } else {
      NoCrLfIsNoCr(data);
    }
    SplitIsPlain(normalized);
    var all := Split(normalized);
    if EndsLine(normalized) {
      EndedLast(normalized);
      assert all == all[..|all| - 1] + [""];
      RejoinIsJoin(all[..|all| - 1], if HasCrLf(data) then "\r\n" else "\n");
    } else {
      RejoinIsJoin(all, if HasCrLf(data) then "\r\n" else "\n");
    }
  }
}
