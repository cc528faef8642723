/**
 Lists of server features (src/AgentVpnClient.cpp:26-48, src/AppSettings.cpp:434-456 and, strict,
 src/VpnControllerActions.cpp:32-60): whatever was asked for becomes a list without repetition, in a fixed order.
 */
module Features {
  import Text

  const SUPPORTED: seq<string> := ["p2p", "streaming", "tor", "secure-core"]

  function Normalized(feature: string): string {
    Text.Lower(Text.Trim(feature))
  }

  /** Some entry asks for the feature, whatever its case and surrounding spaces. */
  predicate Asks(features: seq<string>, feature: string) {
    exists i :: 0 <= i < |features| && Normalized(features[i]) == feature
  }

  predicate Distinct(s: seq<string>) {
    forall i, j :: 0 <= i < j < |s| ==> s[i] != s[j]
  }

  /** Earlier entries come earlier in the order. */
  predicate Follows(order: seq<string>, s: seq<string>) {
    forall i, j, p, q :: 0 <= i < j < |s| && 0 <= p < |order| && 0 <= q < |order| && order[p] == s[i] && order[q] == s[j] ==> p < q
  }

  /** Exactly the supported features that are asked for, each once, in the supported order. */
  ghost predicate Selection(features: seq<string>, result: seq<string>) {
    && (forall f :: f in result <==> f in SUPPORTED && Asks(features, f))
    && Follows(SUPPORTED, result) && Distinct(result)
  }

  // ---- The two forms of normalization ----

  /** The client's and the settings' form: unknown features are left out. */
  method NormalizedServerFeatures(features: seq<string>) returns (result: seq<string>)
    ensures Selection(features, result)
  {
    var requested: seq<string> := [];
    for i := 0 to |features|
      invariant forall f :: f in requested <==> f in SUPPORTED && Asks(features[..i], f)
    {
      AsksNext(features, i);
      var normalized := Normalized(features[i]);
      if normalized in SUPPORTED && normalized !in requested {
        requested := requested + [normalized];
      }
    }
    assert features[..|features|] == features;
    result := InSupportedOrder(requested);
  }

  datatype Strict = Rejected | Accepted(features: seq<string>)

  /** The controller's form: a list too long or with an unknown feature is refused. */
  method NormalizeServerFeatures(features: seq<string>) returns (result: Strict)
    ensures result.Accepted? <==> |features| <= |SUPPORTED| && forall i :: 0 <= i < |features| ==> Normalized(features[i]) in SUPPORTED
    ensures result.Accepted? ==> Selection(features, result.features)
  {
    if |features| > |SUPPORTED| {
      return Rejected;
    }
    var requested: seq<string> := [];
    for i := 0 to |features|
      invariant forall k :: 0 <= k < i ==> Normalized(features[k]) in SUPPORTED
      invariant forall f :: f in requested <==> f in SUPPORTED && Asks(features[..i], f)
    {
      AsksNext(features, i);
      var normalized := Normalized(features[i]);
      if normalized !in SUPPORTED {
        return Rejected;
      }
      if normalized !in requested {
        requested := requested + [normalized];
      }
    }
    assert features[..|features|] == features;
    var ordered := InSupportedOrder(requested);
    result := Accepted(ordered);
  }

  lemma AsksNext(features: seq<string>, i: nat)
    requires i < |features|
    ensures forall f :: Asks(features[..i + 1], f) <==> Asks(features[..i], f) || f == Normalized(features[i])
  {
    forall f
      ensures Asks(features[..i + 1], f) <==> Asks(features[..i], f) || f == Normalized(features[i])
    {
      if Asks(features[..i], f) {
        var k :| 0 <= k < i && Normalized(features[..i][k]) == f;
        assert features[..i + 1][k] == features[..i][k];
      }
      if Asks(features[..i + 1], f) {
        var k :| 0 <= k < i + 1 && Normalized(features[..i + 1][k]) == f;
        assert k < i ==> features[..i][k] == features[..i + 1][k];
      }
      assert features[..i + 1][i] == features[i];
    }
  }

  method InSupportedOrder(requested: seq<string>) returns (result: seq<string>)
    ensures forall f :: f in result <==> f in SUPPORTED && f in requested
    ensures Follows(SUPPORTED, result) && Distinct(result)
  {
    result := Ordered(SUPPORTED, requested);
  }

  lemma OrderedNext(order: seq<string>, s: seq<string>, i: nat)
    requires Distinct(order) && i < |order| && Follows(order, s) && Distinct(s)
    requires forall f :: f in s ==> f in order[..i]
    ensures Follows(order, s + [order[i]]) && Distinct(s + [order[i]])
  {
    var longer := s + [order[i]];
    forall k | 0 <= k < |s|
      ensures exists p :: 0 <= p < i && order[p] == longer[k]
    {
      assert s[k] in order[..i];
      var p :| 0 <= p < i && order[..i][p] == s[k];
      assert order[p] == longer[k];
    }
  }

  method Ordered(order: seq<string>, requested: seq<string>) returns (result: seq<string>)
    requires Distinct(order)
    ensures forall f :: f in result <==> f in order && f in requested
    ensures Follows(order, result) && Distinct(result)
  {
    result := [];
    for i := 0 to |order|
      invariant forall f :: f in result <==> f in order[..i] && f in requested
      invariant Follows(order, result) && Distinct(result)
    {
      assert order[..i + 1] == order[..i] + [order[i]];
      if order[i] in requested {
        OrderedNext(order, result, i);
        result := result + [order[i]];
      }
    }
    assert order[..|order|] == order;
  }

  // ---- What a selection is ----

  /** Two lists with the same members in the same order are the same list. */
  lemma {:induction false} OrderDecides(order: seq<string>, a: seq<string>, b: seq<string>)
    requires Distinct(a) && Distinct(b) && Follows(order, a) && Follows(order, b)
    requires forall f :: f in a <==> f in b
    requires forall f :: f in a ==> f in order
    ensures a == b
  {
    assert (a != [] ==> a[0] in b) && (b != [] ==> b[0] in a);
    if a == [] {
      return;
    }
    assert a[0] == b[0];
    forall f
      ensures f in a[1..] <==> f in b[1..]
    {
      TailMembers(a, f);
      TailMembers(b, f);
    }
    OrderDecides(order, a[1..], b[1..]);
    assert a == [a[0]] + a[1..] && b == [b[0]] + b[1..];
  }

  lemma TailMembers(s: seq<string>, f: string)
    requires s != [] && Distinct(s)
    ensures f in s[1..] <==> f in s && f != s[0]
  {
    if f in s[1..] {
      var i :| 0 <= i < |s[1..]| && s[1..][i] == f;
      assert s[i + 1] == f;
    }
  }

  /** What was asked for decides the list: neither order, case, spaces nor repetition matter. */
  lemma SelectionIsUnique(features: seq<string>, others: seq<string>, a: seq<string>, b: seq<string>)
    requires Selection(features, a) && Selection(others, b)
    requires forall f :: f in SUPPORTED ==> (Asks(features, f) <==> Asks(others, f))
    ensures a == b
  {
    OrderDecides(SUPPORTED, a, b);
  }

  lemma SupportedAreNormal()
    ensures forall f :: f in SUPPORTED ==> Normalized(f) == f
  {
    forall i | 0 <= i < |SUPPORTED|
      ensures Normalized(SUPPORTED[i]) == SUPPORTED[i]
    {
      Text.TrimKeepsTrimmed(SUPPORTED[i]);
      assert Text.Lower(SUPPORTED[i]) == SUPPORTED[i];
    }
  }

  /** A stored list is read back unchanged. */
  lemma SelectingTwice(features: seq<string>, once: seq<string>, twice: seq<string>)
    requires Selection(features, once) && Selection(once, twice)
    ensures twice == once
  {
    SupportedAreNormal();
    forall f | f in SUPPORTED
      ensures Asks(features, f) <==> Asks(once, f)
    {
      if f in once {
        var i :| 0 <= i < |once| && once[i] == f;
        assert Normalized(once[i]) == f;
      }
      if Asks(once, f) {
        var i :| 0 <= i < |once| && Normalized(once[i]) == f;
        assert once[i] in once;
      }
    }
    SelectionIsUnique(features, once, once, twice);
  }
}
