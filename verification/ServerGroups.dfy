/** What makes a server group, wherever a client checks one: a country code, a kind and a name. */
module ServerGroups {
  import Text

  const MAX_NAME := 256

  predicate IsCountry(code: string) {
    |code| == 2 && 'A' <= code[0] <= 'Z' && 'A' <= code[1] <= 'Z'
  }

  predicate IsKind(kind: string) {
    kind == "location" || kind == "secure-core"
  }

  predicate IsName(name: string) {
    0 < |name| <= MAX_NAME && !Text.HasBreak(name)
  }

  predicate IsGroup(country: string, kind: string, name: string) {
    IsCountry(country) && IsKind(kind) && IsName(name)
  }

  /** Said of the three texts alone. */
  lemma GroupExactly(country: string, kind: string, name: string)
    ensures IsGroup(country, kind, name) <==>
              && |country| == 2 && (forall letter :: letter in country ==> 'A' <= letter <= 'Z')
              && kind in ["location", "secure-core"]
              && 1 <= |name| <= 256 && forall i :: 0 <= i < |name| ==> name[i] !in "\0\n\r"
  {
    if |country| == 2 {
      assert country[0] in country && country[1] in country;
    }
    if !Text.HasBreak(name) {
      assert forall i :: 0 <= i < |name| ==> name[i] in name;
    }
  }
}
