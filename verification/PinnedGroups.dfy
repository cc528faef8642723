/**
 The pinned server groups of the client's settings (src/AppSettings.cpp): how they are normalized,
 stored as text and toggled. Names are byte strings; percent-encoding is that of sections 2.1 and
 2.3 of RFC 3986.
 */
module PinnedGroups {
  import Text
  import ServerGroups

  const MAX_PINNED := 20

  datatype Group = Group(country: string, kind: string, name: string)

  datatype Candidate = NoGroup | Some(group: Group)

  predicate IsBytes(s: string) {
    forall i :: 0 <= i < |s| ==> s[i] as int < 256
  }

  // ---- Percent-encoding ----

  predicate Unreserved(c: char) {
    'A' <= c <= 'Z' || 'a' <= c <= 'z' || '0' <= c <= '9' || c == '-' || c == '.' || c == '_' || c == '~'
  }

  function HexDigit(n: nat): char
    requires n < 16
  {
    if n < 10 then '0' + n as char else 'A' + (n - 10) as char
  }

  predicate IsHexDigit(c: char) {
    '0' <= c <= '9' || 'A' <= c <= 'F' || 'a' <= c <= 'f'
  }

  function HexValue(c: char): (n: nat)
    requires IsHexDigit(c)
    ensures n < 16
  {
    if c <= '9' then c as int - '0' as int
    else if c <= 'F' then c as int - 'A' as int + 10
    else c as int - 'a' as int + 10
  }

  function EncodeByte(c: char): string
    requires c as int < 256
  {
    if Unreserved(c) then [c] else ['%', HexDigit(c as int / 16), HexDigit(c as int % 16)]
  }

  function Encode(s: string): string
    requires IsBytes(s)
  {
    if s == "" then "" else EncodeByte(s[0]) + Encode(s[1..])
  }

  /** Anything that is not a complete escape stands for itself. */
  function Decode(s: string): string {
    if s == "" then ""
    else if s[0] == '%' && |s| > 2 && IsHexDigit(s[1]) && IsHexDigit(s[2]) then
      [(HexValue(s[1]) * 16 + HexValue(s[2])) as char] + Decode(s[3..])
    else [s[0]] + Decode(s[1..])
  }

  lemma DecodeByte(c: char, rest: string)
    requires c as int < 256
    ensures Decode(EncodeByte(c) + rest) == [c] + Decode(rest)
  {
    var all := EncodeByte(c) + rest;
    if Unreserved(c) {
      assert all[1..] == rest;
    } else {
      var (high, low) := (c as int / 16, c as int % 16);
      assert all[3..] == rest && all[0] == '%' && all[1] == HexDigit(high) && all[2] == HexDigit(low);
      assert HexValue(HexDigit(high)) == high && HexValue(HexDigit(low)) == low;
    }
  }

  lemma {:induction false} DecodeEncoded(s: string)
    requires IsBytes(s)
    ensures Decode(Encode(s)) == s
  {
    if s != "" {
      DecodeByte(s[0], Encode(s[1..]));
      DecodeEncoded(s[1..]);
    }
  }

  /** Encoded names use unreserved characters and escapes only, so no separator is among them. */
  lemma {:induction false} EncodedIsPlain(s: string)
    requires IsBytes(s)
    ensures forall i :: 0 <= i < |Encode(s)| ==> Unreserved(Encode(s)[i]) || Encode(s)[i] == '%'
  {
    if s != "" {
      EncodedIsPlain(s[1..]);
    }
  }

  // ---- One group ----

  function Normalize(country: string, kind: string, name: string): Candidate {
    var (c, k, n) := (Text.Upper(Text.Trim(country)), Text.Lower(Text.Trim(kind)), Text.Trim(name));
    if !ServerGroups.IsGroup(c, k, n) then NoGroup else Some(Group(c, k, n))
  }

  /** The groups that can be pinned. */
  predicate Normal(g: Group) {
    ServerGroups.IsGroup(g.country, g.kind, g.name) && Text.Trimmed(g.name) && IsBytes(g.name)
  }

  lemma {:induction false} TrimLeftKeepsBytes(s: string)
    requires IsBytes(s)
    ensures IsBytes(Text.TrimLeft(s))
  {
    if s != "" {
      TrimLeftKeepsBytes(s[1..]);
    }
  }

  lemma {:induction false} TrimRightKeepsBytes(s: string)
    requires IsBytes(s)
    ensures IsBytes(Text.TrimRight(s))
  {
    if s != "" {
      TrimRightKeepsBytes(s[..|s| - 1]);
    }
  }

  lemma NormalizeGivesNormal(country: string, kind: string, name: string)
    requires IsBytes(name)
    ensures Normalize(country, kind, name).Some? ==> Normal(Normalize(country, kind, name).group)
  {
    Text.TrimIsTrimmed(name);
    TrimLeftKeepsBytes(name);
    TrimRightKeepsBytes(Text.TrimLeft(name));
  }

  lemma NormalIsKept(g: Group)
    requires Normal(g)
    ensures Normalize(g.country, g.kind, g.name) == Some(g)
  {
    Text.TrimKeepsTrimmed(g.country);
    Text.TrimKeepsTrimmed(g.kind);
    Text.TrimKeepsTrimmed(g.name);
    assert Text.Upper(g.country) == g.country;
    assert Text.Lower(g.kind) == g.kind;
  }

  // ---- Stored text ----

  /** The first position of a character at or after a start, or -1. */
  function IndexOf(s: string, c: char, from: nat): (i: int)
    requires from <= |s|
    ensures i == -1 || (from <= i < |s| && s[i] == c)
    ensures forall k :: from <= k < (if i == -1 then |s| else i) ==> s[k] != c
    decreases |s| - from
  {
    if from == |s| then -1 else if s[from] == c then from else IndexOf(s, c, from + 1)
  }

  function EncodeGroup(g: Group): string
    requires IsBytes(g.name)
  {
    g.country + "/" + g.kind + "/" + Encode(g.name)
  }

  function DecodeGroup(text: string): Candidate {
    var first := IndexOf(text, '/', 0);
    var second := IndexOf(text, '/', first + 1);
    if first <= 0 || second <= first + 1 then NoGroup
    else Normalize(text[..first], text[first + 1..second], Decode(text[second + 1..]))
  }

  lemma Separator(before: string, part: string, after: string)
    requires '/' !in part
    ensures var text := before + (part + ("/" + after));
            var at := |before| + |part|;
            && at < |text| && IndexOf(text, '/', |before|) == at
            && text[|before|..at] == part && text[at + 1..] == after
  {
    var text := before + (part + ("/" + after));
    var at := |before| + |part|;
    assert text[at] == '/';
    assert forall k :: |before| <= k < at ==> text[k] == part[k - |before|];
    assert text[at + 1..] == after;
  }

  lemma SplitGroup(country: string, kind: string, rest: string)
    requires |country| == 2 && '/' !in country && '/' !in kind && kind != ""
    ensures var text := country + "/" + kind + "/" + rest;
            var second := 3 + |kind|;
            && IndexOf(text, '/', 0) == 2 && IndexOf(text, '/', 3) == second
            && text[..2] == country && text[3..second] == kind && text[second + 1..] == rest
  {
    var text := country + "/" + kind + "/" + rest;
    Separator("", country, kind + ("/" + rest));
    assert text == "" + (country + ("/" + (kind + ("/" + rest))));
    Separator(country + "/", kind, rest);
    assert text == (country + "/") + (kind + ("/" + rest));
  }

  /** Storing a group loses nothing, even if its name holds separators or percent signs. */
  lemma DecodeGroupEncoded(g: Group)
    requires Normal(g)
    ensures DecodeGroup(EncodeGroup(g)) == Some(g)
  {
    SplitGroup(g.country, g.kind, Encode(g.name));
    DecodeEncoded(g.name);
    NormalIsKept(g);
  }

  // ---- The list ----

  predicate Distinct(gs: seq<Group>) {
    forall i, j :: 0 <= i < j < |gs| ==> gs[i] != gs[j]
  }

  predicate Pinnable(gs: seq<Group>) {
    |gs| <= MAX_PINNED && Distinct(gs) && forall i :: 0 <= i < |gs| ==> Normal(gs[i])
  }

  /** How one stored text is read. */
  type Reader = string -> Candidate

  /** The groups the texts stand for, in order. */
  function Decoded(reader: Reader, texts: seq<string>): seq<Group> {
    if texts == [] then []
    else
      var last := reader(texts[|texts| - 1]);
      Decoded(reader, texts[..|texts| - 1]) + if last.Some? then [last.group] else []
  }

  /** Each group at its first occurrence only. */
  function Firsts(gs: seq<Group>): seq<Group> {
    if gs == [] then [] else AddNew(Firsts(gs[..|gs| - 1]), gs[|gs| - 1])
  }

  function AddNew(gs: seq<Group>, g: Group): seq<Group> {
    if g in gs then gs else gs + [g]
  }

  function Limited(gs: seq<Group>): seq<Group> {
    if |gs| <= MAX_PINNED then gs else gs[..MAX_PINNED]
  }

  /** The list the settings show for the stored texts. */
  function Listed(reader: Reader, texts: seq<string>): seq<Group> {
    Limited(Firsts(Decoded(reader, texts)))
  }

  predicate AllBytes(texts: seq<string>) {
    forall i :: 0 <= i < |texts| ==> IsBytes(texts[i])
  }

  method NormalizeGroups(texts: seq<string>) returns (normalized: seq<Group>)
    requires AllBytes(texts)
    ensures normalized == Listed(DecodeGroup, texts) && Pinnable(normalized)
  {
    forall i | 0 <= i < |texts| ensures DecodeGroup(texts[i]).Some? ==> Normal(DecodeGroup(texts[i]).group) {
      DecodedIsNormal(texts[i]);
    }
    normalized := Collect(DecodeGroup, texts);
  }

  method Collect(reader: Reader, texts: seq<string>) returns (normalized: seq<Group>)
    requires forall i :: 0 <= i < |texts| && reader(texts[i]).Some? ==> Normal(reader(texts[i]).group)
    ensures normalized == Listed(reader, texts) && Pinnable(normalized)
  {
    ListedIsPinnable(reader, texts);
    normalized := [];
    for i := 0 to |texts|
      invariant normalized == Firsts(Decoded(reader, texts[..i])) && |normalized| < MAX_PINNED
    {
      FirstsOfNext(reader, texts, i);
      var candidate := reader(texts[i]);
      if candidate.NoGroup? || candidate.group in normalized {
        continue;
      }
      normalized := normalized + [candidate.group];
      if |normalized| == MAX_PINNED {
        FirstsGrow(reader, texts, i + 1, |texts|);
        assert texts[..|texts|] == texts;
        return;
      }
    }
    assert texts[..|texts|] == texts;
  }

  lemma {:induction false} DecodeKeepsBytes(s: string)
    requires IsBytes(s)
    ensures IsBytes(Decode(s))
  {
    if s != "" {
      if s[0] == '%' && |s| > 2 && IsHexDigit(s[1]) && IsHexDigit(s[2]) {
        DecodeKeepsBytes(s[3..]);
      } else {
        DecodeKeepsBytes(s[1..]);
      }
    }
  }

  lemma {:induction false} FirstsAreDistinct(gs: seq<Group>)
    ensures Distinct(Firsts(gs)) && forall i :: 0 <= i < |Firsts(gs)| ==> Firsts(gs)[i] in gs
  {
    if gs != [] {
      FirstsAreDistinct(gs[..|gs| - 1]);
    }
  }

  lemma {:induction false} DecodedAreNormal(reader: Reader, texts: seq<string>)
    requires forall i :: 0 <= i < |texts| && reader(texts[i]).Some? ==> Normal(reader(texts[i]).group)
    ensures forall g :: g in Decoded(reader, texts) ==> Normal(g)
  {
    if texts != [] {
      DecodedAreNormal(reader, texts[..|texts| - 1]);
    }
  }

  /** However the stored list came about, what it lists is distinct, normalized and within the limit. */
  lemma ListedIsPinnable(reader: Reader, texts: seq<string>)
    requires forall i :: 0 <= i < |texts| && reader(texts[i]).Some? ==> Normal(reader(texts[i]).group)
    ensures Pinnable(Listed(reader, texts))
  {
    FirstsAreDistinct(Decoded(reader, texts));
    DecodedAreNormal(reader, texts);
  }

  lemma PiecesGiveNormal(country: string, kind: string, encoded: string)
    requires IsBytes(encoded)
    ensures Normalize(country, kind, Decode(encoded)).Some? ==> Normal(Normalize(country, kind, Decode(encoded)).group)
  {
    DecodeKeepsBytes(encoded);
    NormalizeGivesNormal(country, kind, Decode(encoded));
  }

  lemma DecodedIsNormal(text: string)
    requires IsBytes(text)
    ensures DecodeGroup(text).Some? ==> Normal(DecodeGroup(text).group)
  {
    var first := IndexOf(text, '/', 0);
    var second := IndexOf(text, '/', first + 1);
    if first > 0 && second > first + 1 {
      var (country, kind, name) := (text[..first], text[first + 1..second], text[second + 1..]);
      PiecesGiveNormal(country, kind, name);
      assert DecodeGroup(text) == Normalize(country, kind, Decode(name));
    }
  }

  lemma FirstsOfNext(reader: Reader, texts: seq<string>, i: nat)
    requires i < |texts|
    ensures var (before, candidate) := (Firsts(Decoded(reader, texts[..i])), reader(texts[i]));
            Firsts(Decoded(reader, texts[..i + 1])) == if candidate.NoGroup? then before else AddNew(before, candidate.group)
  {
    var gs := Decoded(reader, texts[..i]);
    assert texts[..i + 1][..i] == texts[..i];
    var candidate := reader(texts[i]);
    if candidate.Some? {
      assert (gs + [candidate.group])[..|gs|] == gs;
    } else {
      assert gs + [] == gs;
    }
  }

  /** Later texts only add groups at the end. */
  lemma {:induction false} FirstsGrow(reader: Reader, texts: seq<string>, m: nat, n: nat)
    requires m <= n <= |texts|
    ensures Firsts(Decoded(reader, texts[..m])) <= Firsts(Decoded(reader, texts[..n]))
  {
    if m < n {
      FirstsGrow(reader, texts, m, n - 1);
      FirstsOfNext(reader, texts, n - 1);
    }
  }

  function EncodeAll(gs: seq<Group>): (texts: seq<string>)
    requires Pinnable(gs)
    ensures |texts| == |gs| && forall i :: 0 <= i < |gs| ==> texts[i] == EncodeGroup(gs[i])
  {
    seq(|gs|, i requires 0 <= i < |gs| => EncodeGroup(gs[i]))
  }

  lemma {:induction false} DecodedEach(reader: Reader, texts: seq<string>, gs: seq<Group>)
    requires |texts| == |gs| && forall i :: 0 <= i < |gs| ==> reader(texts[i]) == Some(gs[i])
    ensures Decoded(reader, texts) == gs
  {
    if gs != [] {
      DecodedEach(reader, texts[..|gs| - 1], gs[..|gs| - 1]);
    }
  }

  lemma {:induction false} FirstsOfDistinct(gs: seq<Group>)
    requires Distinct(gs)
    ensures Firsts(gs) == gs
  {
    if gs != [] {
      FirstsOfDistinct(gs[..|gs| - 1]);
    }
  }

  /** Storing a list of pinned groups and reading it back gives the same list. */
  lemma ListIsKept(gs: seq<Group>)
    requires Pinnable(gs)
    ensures Listed(DecodeGroup, EncodeAll(gs)) == gs
  {
    forall i | 0 <= i < |gs| ensures DecodeGroup(EncodeAll(gs)[i]) == Some(gs[i]) {
      DecodeGroupEncoded(gs[i]);
    }
    DecodedEach(DecodeGroup, EncodeAll(gs), gs);
    FirstsOfDistinct(gs);
  }

  // ---- Toggling ----

  /** Pins a group at the end, or unpins it; a full list takes no more. */
  function Toggled(gs: seq<Group>, g: Group): seq<Group> {
    if g in gs then Without(gs, g) else if |gs| >= MAX_PINNED then gs else gs + [g]
  }

  /** The list without the first occurrence of a group. */
  function Without(gs: seq<Group>, g: Group): (r: seq<Group>)
    requires g in gs
    ensures |r| == |gs| - 1
  {
    if gs[0] == g then gs[1..] else [gs[0]] + Without(gs[1..], g)
  }

  lemma DistinctCons(g: Group, gs: seq<Group>)
    requires g !in gs && Distinct(gs)
    ensures Distinct([g] + gs)
  {
  }

  lemma {:induction false} WithoutRemoves(gs: seq<Group>, g: Group)
    requires g in gs && Distinct(gs)
    ensures forall h :: h in Without(gs, g) <==> h in gs && h != g
    ensures Distinct(Without(gs, g))
  {
    if gs[0] != g {
      WithoutRemoves(gs[1..], g);
      assert gs == [gs[0]] + gs[1..];
      DistinctCons(gs[0], Without(gs[1..], g));
    } else {
      assert forall h :: h in gs[1..] <==> exists i :: 1 <= i < |gs| && gs[i] == h;
    }
  }

  /** Toggling keeps the list distinct, normalized and within its limit. */
  lemma ToggledIsPinnable(gs: seq<Group>, g: Group)
    requires Pinnable(gs) && Normal(g)
    ensures Pinnable(Toggled(gs, g))
    ensures g in Toggled(gs, g) <==> g !in gs && |gs| < MAX_PINNED
    ensures forall h :: h != g ==> (h in Toggled(gs, g) <==> h in gs)
  {
    if g in gs {
      WithoutRemoves(gs, g);
      var r := Without(gs, g);
      assert forall i :: 0 <= i < |r| ==> r[i] in r;
    }
  }

  lemma {:induction false} WithoutLast(gs: seq<Group>, g: Group)
    requires g !in gs
    ensures g in gs + [g] && Without(gs + [g], g) == gs
  {
    if gs != [] {
      WithoutLast(gs[1..], g);
      assert (gs + [g])[1..] == gs[1..] + [g];
    }
  }

  /** Pinning and unpinning a group restores the list. */
  lemma TogglingTwice(gs: seq<Group>, g: Group)
    requires g !in gs && |gs| < MAX_PINNED
    ensures Toggled(Toggled(gs, g), g) == gs
  {
    WithoutLast(gs, g);
  }

  class AppSettings {
    var stored: seq<string>
    var groups: seq<Group>
    var saveFailed: bool

    /** What is shown is what is stored, normalized. */
    ghost predicate Valid()
      reads this
    {
      groups == Listed(DecodeGroup, stored) && Pinnable(groups)
    }

    constructor (stored: seq<string>)
      requires AllBytes(stored)
      ensures Valid() && this.stored == stored && !saveFailed
    {
      this.stored := stored;
      groups := [];
      saveFailed := false;
      new;
      Reload();
    }

    method Reload()
      requires AllBytes(stored)
      modifies `groups
      ensures Valid()
    {
      groups := NormalizeGroups(stored);
    }

    /**
     Writes the entry unless desktop policy fixes it. The store is re-read before (`found`) and after (`after`)
     the write; only a value seen in the store counts as saved, and only such a value is ever shown.
     */
    method WriteSetting(texts: seq<string>, found: seq<string>, immutable: bool, synced: bool, after: seq<string>)
      requires AllBytes(found) && AllBytes(after)
      modifies this
      ensures Valid() && stored == (if immutable then found else after)
      ensures !saveFailed <==> !immutable && synced && stored == texts
    {
      stored := found;
      var saved := false;
      if !immutable {
        stored := after;
        saved := synced && stored == texts;
      }
      saveFailed := !saved;
      Reload();
    }

    method TogglePinnedServerGroup(country: string, kind: string, name: string,
                                   found: seq<string>, immutable: bool, synced: bool, after: seq<string>)
      requires Valid() && IsBytes(name) && AllBytes(found) && AllBytes(after)
      modifies this
      ensures Valid()
      ensures var candidate := Normalize(country, kind, name);
              if candidate.NoGroup? || (candidate.group !in old(groups) && |old(groups)| >= MAX_PINNED) then
                groups == old(groups) && stored == old(stored) && saveFailed == old(saveFailed)
              else
                && (immutable ==> saveFailed && stored == found)
                && (!saveFailed ==> groups == Toggled(old(groups), candidate.group))
    {
      var candidate := Normalize(country, kind, name);
      if candidate.NoGroup? {
        return;
      }
      NormalizeGivesNormal(country, kind, name);
      ToggledIsPinnable(groups, candidate.group);
      var updated := groups;
      if candidate.group !in updated {
        if |updated| >= MAX_PINNED {
          return;
        }
        updated := updated + [candidate.group];
      } else {
        updated := Without(updated, candidate.group);
      }
      ListIsKept(updated);
      WriteSetting(EncodeAll(updated), found, immutable, synced, after);
    }
  }
}
