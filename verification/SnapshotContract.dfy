/**
 The snapshot contract and the upgrade of version 1 snapshots (src/SnapshotContract.generated.h,
 src/SnapshotCompatibility.h). Numbers of JSON are reals; Extra stands for any name the contract
 does not know.
 */
module SnapshotContract {
  datatype Json = Bool(bool) | Number(number: real) | Text(text: string) | OtherJson

  datatype Key =
    | SchemaVersion | Ready | StartupCompatible | LoggedIn | AuthState | AccountName | PlanTitle | UserTier
    | MaxConnections | Fido2Available | ReconnectEnabled | KillSwitch | Busy | State | ErrorCode | ServerName
    | ServerLocation | ExitCountry | EntryCountry | ForwardedPort | VpnExitIpv4 | VpnExitIpv6 | DeviceIpAtConnect
    | SecureCore | Tor | P2p | Streaming | SmartRouting | PacketCaptureActive | CoreMemoryOptimized | CoreVersion
    | Message
    | Extra(name: string)

  datatype FieldType = Boolean | Integer | String

  datatype Field = Field(key: Key, fieldType: FieldType)

  const SCHEMA_VERSION := 2

  const COMMON_FIRST: seq<Field> := [
    Field(SchemaVersion, Integer), Field(Ready, Boolean), Field(StartupCompatible, Boolean), Field(LoggedIn, Boolean),
    Field(AuthState, String), Field(AccountName, String), Field(PlanTitle, String), Field(UserTier, Integer),
    Field(MaxConnections, Integer), Field(Fido2Available, Boolean), Field(ReconnectEnabled, Boolean),
    Field(KillSwitch, Integer), Field(Busy, Boolean), Field(State, String), Field(ErrorCode, String),
    Field(ServerName, String), Field(ServerLocation, String), Field(ExitCountry, String), Field(EntryCountry, String),
    Field(ForwardedPort, Integer)]

  const ADDED: seq<Field> := [Field(VpnExitIpv4, String), Field(VpnExitIpv6, String), Field(DeviceIpAtConnect, String)]

  const COMMON_LAST: seq<Field> := [
    Field(SecureCore, Boolean), Field(Tor, Boolean), Field(P2p, Boolean), Field(Streaming, Boolean),
    Field(SmartRouting, Boolean), Field(PacketCaptureActive, Boolean), Field(CoreMemoryOptimized, Boolean),
    Field(CoreVersion, String), Field(Message, String)]

  /** The table of 29 fields of version 1. */
  const FIELDS_V1: seq<Field> := COMMON_FIRST + COMMON_LAST

  /** The table of 32 fields of version 2. */
  const FIELDS_V2: seq<Field> := COMMON_FIRST + ADDED + COMMON_LAST

  // ---- What the contract means ----

  predicate Fits(value: Json, fieldType: FieldType) {
    match fieldType
    case Boolean => value.Bool?
    case String => value.Text?
    case Integer => value.Number? && value.number.Floor as real == value.number
  }

  predicate Has(o: map<Key, Json>, field: Field) {
    field.key in o && Fits(o[field.key], field.fieldType)
  }

  function KeysOf(fields: seq<Field>): set<Key> {
    set i | 0 <= i < |fields| :: fields[i].key
  }

  /** Exactly the named fields, each of its type. */
  ghost predicate Conforms(o: map<Key, Json>, fields: seq<Field>) {
    o.Keys == KeysOf(fields) && forall i :: 0 <= i < |fields| ==> Has(o, fields[i])
  }

  predicate Distinct(fields: seq<Field>) {
    forall i, j :: 0 <= i < j < |fields| ==> fields[i].key != fields[j].key
  }

  lemma {:induction false} DistinctKeysCount(fields: seq<Field>)
    requires Distinct(fields)
    ensures |KeysOf(fields)| == |fields|
  {
    if fields != [] {
      var (before, last) := (fields[..|fields| - 1], fields[|fields| - 1]);
      DistinctKeysCount(before);
      KeysOfLast(fields);
      assert last.key !in KeysOf(before);
    }
  }

  lemma KeysOfLast(fields: seq<Field>)
    requires fields != []
    ensures KeysOf(fields) == KeysOf(fields[..|fields| - 1]) + {fields[|fields| - 1].key}
  {
    var before := fields[..|fields| - 1];
    forall key | key in KeysOf(before) ensures key in KeysOf(fields) {
      var i :| 0 <= i < |before| && before[i].key == key;
      assert fields[i].key == key;
    }
    forall key | key in KeysOf(fields) && key != fields[|fields| - 1].key ensures key in KeysOf(before) {
      var i :| 0 <= i < |fields| && fields[i].key == key;
      assert before[i].key == key;
    }
  }

  lemma SubsetOfSameSize<T>(a: set<T>, b: set<T>)
    requires a <= b && |a| == |b|
    ensures a == b
  {
    assert |b - a| == |b| - |a|;
  }

  /** Counting is enough: as many fields as the table, and all of the table's, are exactly the table's. */
  lemma SizeAndNamesSuffice(o: map<Key, Json>, fields: seq<Field>)
    requires Distinct(fields) && |o| == |fields| && forall i :: 0 <= i < |fields| ==> Has(o, fields[i])
    ensures Conforms(o, fields)
  {
    DistinctKeysCount(fields);
    assert forall i :: 0 <= i < |fields| ==> Has(o, fields[i]) && fields[i].key in o;
    SubsetOfSameSize(KeysOf(fields), o.Keys);
  }

  lemma ConformingSize(o: map<Key, Json>, fields: seq<Field>)
    requires Distinct(fields) && Conforms(o, fields)
    ensures |o| == |fields|
  {
    DistinctKeysCount(fields);
  }

  // ---- Validation ----

  datatype Problem = NoProblem | WrongSize | WrongField(key: Key)

  method Validate(o: map<Key, Json>, fields: seq<Field>) returns (valid: bool, problem: Problem)
    requires Distinct(fields)
    ensures valid <==> Conforms(o, fields)
    ensures match problem
            case NoProblem => valid
            case WrongSize => !valid && |o| != |fields|
            case WrongField(key) =>
              !valid && exists n :: 0 <= n < |fields| && fields[n].key == key && !Has(o, fields[n])
                                    && forall i :: 0 <= i < n ==> Has(o, fields[i])
  {
    if |o| != |fields| {
      if Conforms(o, fields) {
        ConformingSize(o, fields);
      }
      return false, WrongSize;
    }
    for n := 0 to |fields|
      invariant forall i :: 0 <= i < n ==> Has(o, fields[i])
    {
      if !Has(o, fields[n]) {
        return false, WrongField(fields[n].key);
      }
    }
    SizeAndNamesSuffice(o, fields);
    return true, NoProblem;
  }

  // ---- The two tables name each field once ----

  /** The position of a name in the table of version 2. */
  function Rank(key: Key): int {
    match key
    case SchemaVersion => 0 case Ready => 1 case StartupCompatible => 2 case LoggedIn => 3
    case AuthState => 4 case AccountName => 5 case PlanTitle => 6 case UserTier => 7
    case MaxConnections => 8 case Fido2Available => 9 case ReconnectEnabled => 10 case KillSwitch => 11
    case Busy => 12 case State => 13 case ErrorCode => 14 case ServerName => 15
    case ServerLocation => 16 case ExitCountry => 17 case EntryCountry => 18 case ForwardedPort => 19
    case VpnExitIpv4 => 20 case VpnExitIpv6 => 21 case DeviceIpAtConnect => 22
    case SecureCore => 23 case Tor => 24 case P2p => 25 case Streaming => 26
    case SmartRouting => 27 case PacketCaptureActive => 28 case CoreMemoryOptimized => 29 case CoreVersion => 30
    case Message => 31
    case Extra(_) => -1
  }

  lemma RanksOfFirst(i: nat)
    ensures i < |COMMON_FIRST| ==> Rank(COMMON_FIRST[i].key) == i
    ensures |COMMON_FIRST| == 20
  {
  }

  lemma RanksOfLast(i: nat)
    ensures i < |COMMON_LAST| ==> Rank(COMMON_LAST[i].key) == 23 + i
    ensures |COMMON_LAST| == 9
  {
  }

  lemma RanksOfTables(i: nat)
    ensures i < |COMMON_FIRST| ==> Rank(COMMON_FIRST[i].key) == i
    ensures i < |ADDED| ==> Rank(ADDED[i].key) == 20 + i
    ensures i < |COMMON_LAST| ==> Rank(COMMON_LAST[i].key) == 23 + i
    ensures |COMMON_FIRST| == 20 && |ADDED| == 3 && |COMMON_LAST| == 9
  {
    RanksOfFirst(i);
    RanksOfLast(i);
  }

  lemma RankOfV2(i: nat)
    requires i < |FIELDS_V2|
    ensures Rank(FIELDS_V2[i].key) == i
  {
    RanksOfTables(i);
    if i >= 20 {
      RanksOfTables(i - 20);
    }
    if i >= 23 {
      RanksOfTables(i - 23);
    }
  }

  lemma RankOfV1(i: nat)
    requires i < |FIELDS_V1|
    ensures Rank(FIELDS_V1[i].key) == if i < 20 then i else i + 3
  {
    RanksOfTables(i);
    if i >= 20 {
      RanksOfTables(i - 20);
    }
  }

  lemma TablesAreDistinct()
    ensures Distinct(FIELDS_V1) && Distinct(FIELDS_V2)
  {
    forall i, j | 0 <= i < j < |FIELDS_V1| ensures FIELDS_V1[i].key != FIELDS_V1[j].key {
      RankOfV1(i);
      RankOfV1(j);
    }
    forall i, j | 0 <= i < j < |FIELDS_V2| ensures FIELDS_V2[i].key != FIELDS_V2[j].key {
      RankOfV2(i);
      RankOfV2(j);
    }
  }

  /** Version 2 adds its three fields and keeps the others. */
  lemma KeysOfV2()
    ensures KeysOf(FIELDS_V2) == KeysOf(FIELDS_V1) + {VpnExitIpv4, VpnExitIpv6, DeviceIpAtConnect}
    ensures SchemaVersion in KeysOf(FIELDS_V1)
    ensures {VpnExitIpv4, VpnExitIpv6, DeviceIpAtConnect} !! KeysOf(FIELDS_V1)
  {
    assert FIELDS_V1[0].key == SchemaVersion;
    KeysOfInserted(COMMON_FIRST, ADDED, COMMON_LAST);
    assert KeysOf(ADDED) == {ADDED[0].key, ADDED[1].key, ADDED[2].key};
    forall key | key in KeysOf(FIELDS_V1) ensures key !in {VpnExitIpv4, VpnExitIpv6, DeviceIpAtConnect} {
      var i :| 0 <= i < |FIELDS_V1| && FIELDS_V1[i].key == key;
      RankOfV1(i);
    }
  }

  // ---- The fields and their types, without the tables ----

  predicate IsFlag(key: Key) {
    match key
    case Ready | StartupCompatible | LoggedIn | Fido2Available | ReconnectEnabled | Busy | SecureCore | Tor | P2p
       | Streaming | SmartRouting | PacketCaptureActive | CoreMemoryOptimized => true
    case _ => false
  }

  predicate IsNumber(key: Key) {
    key.SchemaVersion? || key.UserTier? || key.MaxConnections? || key.KillSwitch? || key.ForwardedPort?
  }

  predicate IsAddress(key: Key) {
    key.VpnExitIpv4? || key.VpnExitIpv6? || key.DeviceIpAtConnect?
  }

  /** A value of the kind its field asks for: truth values, whole numbers, and texts for all other names. */
  ghost predicate WellTyped(key: Key, value: Json) {
    if IsFlag(key) then value.Bool?
    else if IsNumber(key) then value.Number? && value.number == value.number.Floor as real
    else value.Text?
  }

  /** Every name but the unknown ones stands in the table of version 2 at its rank, with its type. */
  lemma FieldOfV2(key: Key)
    requires !key.Extra?
    ensures 0 <= Rank(key) < |FIELDS_V2| && FIELDS_V2[Rank(key)].key == key
    ensures FIELDS_V2[Rank(key)].fieldType == if IsFlag(key) then Boolean else if IsNumber(key) then Integer else String
  {
    var k := Rank(key);
    if k < 20 {
      assert FIELDS_V2[k] == COMMON_FIRST[k];
    } else if k < 23 {
      assert FIELDS_V2[k] == ADDED[k - 20];
    } else {
      assert FIELDS_V2[k] == COMMON_LAST[k - 23];
    }
  }

  lemma FitsItsField(key: Key, value: Json)
    requires !key.Extra?
    ensures 0 <= Rank(key) < |FIELDS_V2| && (Fits(value, FIELDS_V2[Rank(key)].fieldType) <==> WellTyped(key, value))
  {
    FieldOfV2(key);
  }

  /** A snapshot of version 2 is valid exactly if it has all known names and no other, each with a value of its kind. */
  lemma ValidExactly(o: map<Key, Json>)
    ensures Conforms(o, FIELDS_V2) <==>
              (forall key :: key in o <==> !key.Extra?) && forall key :: key in o ==> WellTyped(key, o[key])
  {
    forall i | 0 <= i < |FIELDS_V2| ensures Rank(FIELDS_V2[i].key) == i && !FIELDS_V2[i].key.Extra? {
      RankOfV2(i);
    }
    forall key: Key | !key.Extra? ensures key in KeysOf(FIELDS_V2) && (key in o ==> Has(o, FIELDS_V2[Rank(key)]) == WellTyped(key, o[key])) {
      FieldOfV2(key);
      if key in o {
        FitsItsField(key, o[key]);
      }
    }
  }

  /** So is one of version 1, without the three addresses. */
  lemma ValidV1Exactly(o: map<Key, Json>)
    ensures Conforms(o, FIELDS_V1) <==>
              (forall key :: key in o <==> !key.Extra? && !IsAddress(key)) && forall key :: key in o ==> WellTyped(key, o[key])
  {
    forall i | 0 <= i < |FIELDS_V1| ensures FIELDS_V1[i] == FIELDS_V2[if i < 20 then i else i + 3] {
    }
    forall i | 0 <= i < |FIELDS_V1|
      ensures Rank(FIELDS_V1[i].key) == (if i < 20 then i else i + 3) && !FIELDS_V1[i].key.Extra? && !IsAddress(FIELDS_V1[i].key)
    {
      RankOfV1(i);
    }
    forall key: Key | !key.Extra? && !IsAddress(key)
      ensures key in KeysOf(FIELDS_V1)
      ensures key in o ==> Has(o, FIELDS_V2[Rank(key)]) == WellTyped(key, o[key])
    {
      FieldOfV2(key);
      assert FIELDS_V1[if Rank(key) < 20 then Rank(key) else Rank(key) - 3].key == key;
      if key in o {
        FitsItsField(key, o[key]);
      }
    }
  }

  lemma KeysOfInserted(a: seq<Field>, b: seq<Field>, c: seq<Field>)
    ensures KeysOf(a + b + c) == KeysOf(a + c) + KeysOf(b)
  {
    KeysOfJoin(a + b, c);
    KeysOfJoin(a, b);
    KeysOfJoin(a, c);
  }

  lemma KeysOfJoin(a: seq<Field>, b: seq<Field>)
    ensures KeysOf(a + b) == KeysOf(a) + KeysOf(b)
  {
    assert forall i :: 0 <= i < |a| ==> (a + b)[i] == a[i];
    assert forall i :: 0 <= i < |b| ==> (a + b)[|a| + i] == b[i];
  }

  // ---- The upgrade ----

  datatype Compatibility = Accepted | UnsupportedVersion | InvalidPayload

  /** Reading a number as an integer; anything else reads as 0. */
  function VersionOf(o: map<Key, Json>): int {
    if SchemaVersion in o && o[SchemaVersion].Number? && o[SchemaVersion].number.Floor as real == o[SchemaVersion].number
       && -0x8000_0000 <= o[SchemaVersion].number.Floor < 0x8000_0000
    then o[SchemaVersion].number.Floor else 0
  }

  function Upgraded(o: map<Key, Json>): map<Key, Json> {
    o[SchemaVersion := Number(SCHEMA_VERSION as real)][VpnExitIpv4 := Text("")][VpnExitIpv6 := Text("")][DeviceIpAtConnect := Text("")]
  }

  /** An upgraded snapshot is a snapshot of version 2, and keeps every other field. */
  lemma UpgradeConforms(o: map<Key, Json>)
    requires Conforms(o, FIELDS_V1)
    ensures Conforms(Upgraded(o), FIELDS_V2) && VersionOf(Upgraded(o)) == SCHEMA_VERSION
    ensures forall key :: key in o && key != SchemaVersion ==> key in Upgraded(o) && Upgraded(o)[key] == o[key]
  {
    KeysOfV2();
    var u := Upgraded(o);
    assert u.Keys == o.Keys + {SchemaVersion, VpnExitIpv4, VpnExitIpv6, DeviceIpAtConnect};
    forall i | 0 <= i < |FIELDS_V2| ensures Has(u, FIELDS_V2[i]) {
      var field := FIELDS_V2[i];
      RankOfV2(i);
      if 20 <= i < 23 {
        assert field == ADDED[i - 20];
      } else {
        var k := if i < 20 then i else i - 3;
        assert field == FIELDS_V1[k] && Has(o, FIELDS_V1[k]);
      }
    }
  }

  /** What normalizing gives: the verdict and the object afterwards. */
  ghost function Normalized(o: map<Key, Json>): (Compatibility, map<Key, Json>) {
    var version := VersionOf(o);
    if version == SCHEMA_VERSION then (if Conforms(o, FIELDS_V2) then Accepted else InvalidPayload, o)
    else if version != 1 then (UnsupportedVersion, o)
    else if Conforms(o, FIELDS_V1) then (Accepted, Upgraded(o))
    else (InvalidPayload, o)
  }

  /** Acceptance always means exactly the fields of version 2, and normalizing again changes nothing. */
  lemma NormalizingIsIdempotent(o: map<Key, Json>)
    ensures var (verdict, n) := Normalized(o);
            && (verdict.Accepted? <==> Conforms(n, FIELDS_V2) && VersionOf(n) == SCHEMA_VERSION)
            && (verdict.Accepted? <==> VersionOf(o) in {1, 2} && Conforms(o, if VersionOf(o) == 1 then FIELDS_V1 else FIELDS_V2))
            && Normalized(n) == (verdict, n)
  {
    if VersionOf(o) == 1 && Conforms(o, FIELDS_V1) {
      UpgradeConforms(o);
    }
  }

  class JsonObject {
    var fields: map<Key, Json>

    constructor (fields: map<Key, Json>)
      ensures this.fields == fields
    {
      this.fields := fields;
    }

    method Insert(key: Key, value: Json)
      modifies this
      ensures fields == old(fields)[key := value]
    {
      fields := fields[key := value];
    }
  }

  method NormalizeSnapshot(snapshot: JsonObject?) returns (verdict: Compatibility)
    modifies snapshot
    ensures if snapshot == null then verdict == InvalidPayload
            else (verdict, snapshot.fields) == Normalized(old(snapshot.fields))
  {
    if snapshot == null {
      return InvalidPayload;
    }
    TablesAreDistinct();
    var version := VersionOf(snapshot.fields);
    if version == SCHEMA_VERSION {
      var valid, _ := Validate(snapshot.fields, FIELDS_V2);
      return if valid then Accepted else InvalidPayload;
    }
    if version != 1 {
      return UnsupportedVersion;
    }
    var valid, _ := Validate(snapshot.fields, FIELDS_V1);
    if !valid {
      return InvalidPayload;
    }
    UpgradeConforms(snapshot.fields);
    snapshot.Insert(SchemaVersion, Number(SCHEMA_VERSION as real));
    snapshot.Insert(VpnExitIpv4, Text(""));
    snapshot.Insert(VpnExitIpv6, Text(""));
    snapshot.Insert(DeviceIpAtConnect, Text(""));
    var upgraded, _ := Validate(snapshot.fields, FIELDS_V2);
    return if upgraded then Accepted else InvalidPayload;
  }
}
