/** The codecs of the active pointer and the version record, and exactly when reading undoes writing. */
module JsonRecords {
  import opened Text
  import opened JsonText
  import opened JsonFields
  import opened JsonClash
  import opened JsonReads
  import opened PolicyRecords

  datatype Tag =
    | RecordType | RecordVersion | ResourceKey | Generation | PolicyId | CanonicalHash | SchemaVersion
    | ApiVersion | Kind | VersionKey | YamlKey | SourceType | ApplyId | PreviousGeneration | PreviousPolicyId
    | CommittedAt | CreatedAt

  function Name(t: Tag): string {
    match t
    case RecordType => "recordType"
    case RecordVersion => "recordVersion"
    case ResourceKey => "resourceKey"
    case Generation => "generation"
    case PolicyId => "policyId"
    case CanonicalHash => "canonicalHash"
    case SchemaVersion => "schemaVersion"
    case ApiVersion => "apiVersion"
    case Kind => "kind"
    case VersionKey => "versionKey"
    case YamlKey => "yamlKey"
    case SourceType => "sourceType"
    case ApplyId => "applyId"
    case PreviousGeneration => "previousGeneration"
    case PreviousPolicyId => "previousPolicyId"
    case CommittedAt => "committedAtUnixEpochMs"
    case CreatedAt => "createdAtUnixEpochMs"
  }

  /** The tag of a name, told by its length and first letter. */
  function TagOf(length: nat, first: char): Tag {
    match length
    case 10 =>
      if first == 'r' then RecordType else if first == 'g' then Generation else if first == 'a' then ApiVersion
      else if first == 'v' then VersionKey else SourceType
    case 13 => if first == 'r' then RecordVersion else if first == 'c' then CanonicalHash else SchemaVersion
    case 7 => if first == 'y' then YamlKey else ApplyId
    case 11 => ResourceKey
    case 8 => PolicyId
    case 4 => Kind
    case 18 => PreviousGeneration
    case 16 => PreviousPolicyId
    case 22 => CommittedAt
    case _ => CreatedAt
  }

  lemma ShortNames(t: Tag)
    requires |Name(t)| <= 10
    ensures IsName(Name(t))
  {
  }

  lemma MiddleNames(t: Tag)
    requires 10 < |Name(t)| <= 13
    ensures IsName(Name(t))
  {
  }

  lemma LongNames(t: Tag)
    requires 13 < |Name(t)|
    ensures IsName(Name(t))
  {
  }

  lemma NamesDiffer(t: Tag)
    ensures IsName(Name(t)) && TagOf(|Name(t)|, Name(t)[0]) == t
  {
    if |Name(t)| <= 10 {
      ShortNames(t);
    } else if |Name(t)| <= 13 {
      MiddleNames(t);
    } else {
      LongNames(t);
    }
  }

  // ---- The active pointer ----

  function PointerValue(p: ActivePointer, t: Tag): Value {
    match t
    case RecordType => Str(p.recordType)
    case RecordVersion => Num(p.recordVersion)
    case ResourceKey => Str(p.resourceKey)
    case Generation => Num(p.generation)
    case PolicyId => Str(p.policyId)
    case CanonicalHash => Str(p.canonicalHash)
    case SchemaVersion => Num(p.schemaVersion)
    case ApiVersion => Str(p.apiVersion)
    case Kind => Str(p.kind)
    case VersionKey => Str(p.versionKey)
    case YamlKey => Str(p.yamlKey)
    case SourceType => Str(p.sourceType)
    case ApplyId => Str(p.applyId)
    case PreviousGeneration => Num(p.previousGeneration)
    case PreviousPolicyId => Str(p.previousPolicyId)
    case CommittedAt => Num(p.committedAt)
    case CreatedAt => Num(0)
  }

  /** The fields of a pointer, in printing order. */
  const POINTER_TAGS: seq<Tag> := [
    RecordType, RecordVersion, ResourceKey, Generation, PolicyId, CanonicalHash, SchemaVersion, ApiVersion, Kind,
    VersionKey, YamlKey, SourceType, ApplyId, PreviousGeneration, PreviousPolicyId, CommittedAt]

  /** The fields of a version record, in printing order. */
  const VERSION_TAGS: seq<Tag> := [
    RecordType, RecordVersion, ResourceKey, Generation, PolicyId, CanonicalHash, SchemaVersion, ApiVersion, Kind,
    YamlKey, SourceType, ApplyId, PreviousGeneration, PreviousPolicyId, CreatedAt]

  function VersionValue(v: VersionRecord, t: Tag): Value {
    match t
    case RecordType => Str(v.recordType)
    case RecordVersion => Num(v.recordVersion)
    case ResourceKey => Str(v.resourceKey)
    case Generation => Num(v.generation)
    case PolicyId => Str(v.policyId)
    case CanonicalHash => Str(v.canonicalHash)
    case SchemaVersion => Num(v.schemaVersion)
    case ApiVersion => Str(v.apiVersion)
    case Kind => Str(v.kind)
    case VersionKey => Str("")
    case YamlKey => Str(v.yamlKey)
    case SourceType => Str(v.sourceType)
    case ApplyId => Str(v.applyId)
    case PreviousGeneration => Num(v.previousGeneration)
    case PreviousPolicyId => Str(v.previousPolicyId)
    case CommittedAt => Num(0)
    case CreatedAt => Num(v.createdAt)
  }

  function Fields(tags: seq<Tag>, value: Tag -> Value): seq<Field> {
    seq(|tags|, i requires 0 <= i < |tags| => Field(Name(tags[i]), value(tags[i])))
  }

  function PointerValues(p: ActivePointer): Tag -> Value { t => PointerValue(p, t) }

  function VersionValues(v: VersionRecord): Tag -> Value { t => VersionValue(v, t) }

  function PointerText(p: ActivePointer): string { Printed(Fields(POINTER_TAGS, PointerValues(p))) }

  function VersionText(v: VersionRecord): string { Printed(Fields(VERSION_TAGS, VersionValues(v))) }

  // ---- Reading any field of a printed record ----

  function Rank(t: Tag): nat {
    match t
    case RecordType => 0
    case RecordVersion => 1
    case ResourceKey => 2
    case Generation => 3
    case PolicyId => 4
    case CanonicalHash => 5
    case SchemaVersion => 6
    case ApiVersion => 7
    case Kind => 8
    case VersionKey => 9
    case YamlKey => 10
    case SourceType => 11
    case ApplyId => 12
    case PreviousGeneration => 13
    case PreviousPolicyId => 14
    case CommittedAt => 15
    case CreatedAt => 16
  }

  /** No tag twice, because the tags stand in their order. */
  predicate Ordered(tags: seq<Tag>) { forall i :: 0 < i < |tags| ==> Rank(tags[i - 1]) < Rank(tags[i]) }

  lemma {:induction false} OrderedDistinct(tags: seq<Tag>, i: nat, j: nat)
    requires Ordered(tags) && i < j < |tags|
    ensures Rank(tags[i]) < Rank(tags[j])
  {
    if i + 1 < j {
      OrderedDistinct(tags, i, j - 1);
    }
    assert Rank(tags[j - 1]) < Rank(tags[j]);
  }

  lemma FieldsNamedApart(tags: seq<Tag>, value: Tag -> Value)
    requires Ordered(tags)
    ensures NamedApart(Fields(tags, value))
  {
    var fields := Fields(tags, value);
    forall j | 0 <= j < |fields| ensures IsName(fields[j].key) {
      NamesDiffer(tags[j]);
    }
    forall i, j | 0 <= i < j < |fields| ensures fields[i].key != fields[j].key {
      NamesDiffer(tags[i]);
      NamesDiffer(tags[j]);
      OrderedDistinct(tags, i, j);
    }
  }

  /** The two 32-bit fields are cut to their width. */
  function Cut(t: Tag, n: nat): nat { if t.RecordVersion? || t.SchemaVersion? then n % UINT32 else n }

  function Strings(json: string): Tag -> string { t => GetString(json, Name(t)) }

  function Numbers(json: string): Tag -> Option<nat> { t => GetUint64(json, Name(t)) }

  /** The readers of strings and numbers give the value. */
  predicate Gives(str: Tag -> string, num: Tag -> Option<nat>, v: Value, t: Tag) {
    match v
    case Str(text) => str(t) == text
    case Num(n) => num(t).Some? && Cut(t, num(t).value) == n
  }

  /** The i-th value is what its source line yields: the line after the first earlier string that is its
      key or ends in a quote and its key, or else its own line. */
  predicate Survives(tags: seq<Tag>, value: Tag -> Value, i: nat)
    requires i < |tags|
  {
    var fields := Fields(tags, value);
    var l := SourceLine(fields, i);
    match value(tags[i])
    case Str(text) => LineString(fields, l) == text
    case Num(n) => LineNumber(fields, l).Some? && Cut(tags[i], LineNumber(fields, l).value) == n
  }

  predicate AllSurvive(tags: seq<Tag>, value: Tag -> Value) { forall i :: 0 <= i < |tags| ==> Survives(tags, value, i) }

  lemma GivenIffSurvives(tags: seq<Tag>, value: Tag -> Value, json: string, i: nat)
    requires i < |tags| && Ordered(tags) && json == Printed(Fields(tags, value))
    ensures Gives(Strings(json), Numbers(json), value(tags[i]), tags[i]) <==> Survives(tags, value, i)
  {
    FieldsNamedApart(tags, value);
    if value(tags[i]).Str? {
      StringRead(Fields(tags, value), i);
    } else {
      NumberRead(Fields(tags, value), i);
    }
  }

  lemma TagsOrdered()
    ensures Ordered(POINTER_TAGS) && Ordered(VERSION_TAGS)
  {
  }

  // ---- The codecs ----

  datatype ReadResult<+T> = Read(record: T) | Rejected | Threw

  /** The pointer whose fields are given by readers of strings and numbers. */
  function PointerFrom(str: Tag -> string, num: Tag -> nat): ActivePointer {
    ActivePointer(
      str(RecordType), num(RecordVersion), str(ResourceKey), num(Generation), str(PolicyId), str(CanonicalHash),
      num(SchemaVersion), str(ApiVersion), str(Kind), str(VersionKey), str(YamlKey), str(SourceType),
      str(ApplyId), num(PreviousGeneration), str(PreviousPolicyId), num(CommittedAt))
  }

  function VersionFrom(str: Tag -> string, num: Tag -> nat): VersionRecord {
    VersionRecord(
      str(RecordType), num(RecordVersion), str(ResourceKey), num(Generation), str(PolicyId), str(CanonicalHash),
      num(SchemaVersion), str(ApiVersion), str(Kind), str(YamlKey), str(SourceType), str(ApplyId),
      num(PreviousGeneration), str(PreviousPolicyId), num(CreatedAt))
  }

  /** No number of the record is out of range. */
  predicate InRange(num: Tag -> Option<nat>, last: Tag) {
    num(RecordVersion).Some? && num(SchemaVersion).Some? && num(Generation).Some? && num(PreviousGeneration).Some?
    && num(last).Some?
  }

  function Kept(num: Tag -> Option<nat>): Tag -> nat { t => if num(t).Some? then Cut(t, num(t).value) else 0 }

  function PointerOf(str: Tag -> string, num: Tag -> Option<nat>): ReadResult<ActivePointer> {
    var p := PointerFrom(str, Kept(num));
    if !InRange(num, CommittedAt) then Threw else if ReadablePointer(p) then Read(p) else Rejected
  }

  function VersionOf(str: Tag -> string, num: Tag -> Option<nat>): ReadResult<VersionRecord> {
    var v := VersionFrom(str, Kept(num));
    if !InRange(num, CreatedAt) then Threw else if ReadableVersion(v) then Read(v) else Rejected
  }

  function ParsePointer(json: string): ReadResult<ActivePointer> { PointerOf(Strings(json), Numbers(json)) }

  function ParseVersion(json: string): ReadResult<VersionRecord> { VersionOf(Strings(json), Numbers(json)) }

  method SerializeActivePointer(p: ActivePointer) returns (json: string)
    ensures json == PointerText(p)
  {
    json := PrintRecord(Fields(POINTER_TAGS, PointerValues(p)));
  }

  method SerializeVersionRecord(v: VersionRecord) returns (json: string)
    ensures json == VersionText(v)
  {
    json := PrintRecord(Fields(VERSION_TAGS, VersionValues(v)));
  }

  method ReadString(json: string, t: Tag) returns (r: string)
    ensures r == Strings(json)(t)
  {
    r := GetJsonStringField(json, Name(t));
  }

  /** get_json_uint64_field, and get_json_uint32_field for the narrow fields. */
  method ReadNumber(json: string, t: Tag) returns (ok: bool, r: nat)
    ensures ok <==> Numbers(json)(t).Some?
    ensures ok ==> r == Cut(t, Numbers(json)(t).value)
  {
    var n := GetJsonUint64Field(json, Name(t));
    ok := n.Some?;
    r := if ok then Cut(t, n.value) else 0;
  }

  method DeserializeActivePointer(json: string) returns (r: ReadResult<ActivePointer>)
    ensures r == ParsePointer(json)
  {
    var recordType := ReadString(json, RecordType);
    var recordVersionOk, recordVersion := ReadNumber(json, RecordVersion);
    if !recordVersionOk { return Threw; }
    var resourceKey := ReadString(json, ResourceKey);
    var generationOk, generation := ReadNumber(json, Generation);
    if !generationOk { return Threw; }
    var policyId := ReadString(json, PolicyId);
    var canonicalHash := ReadString(json, CanonicalHash);
    var schemaVersionOk, schemaVersion := ReadNumber(json, SchemaVersion);
    if !schemaVersionOk { return Threw; }
    var apiVersion := ReadString(json, ApiVersion);
    var kind := ReadString(json, Kind);
    var versionKey := ReadString(json, VersionKey);
    var yamlKey := ReadString(json, YamlKey);
    var sourceType := ReadString(json, SourceType);
    var applyId := ReadString(json, ApplyId);
    var previousOk, previous := ReadNumber(json, PreviousGeneration);
    if !previousOk { return Threw; }
    var previousId := ReadString(json, PreviousPolicyId);
    var committedAtOk, committedAt := ReadNumber(json, CommittedAt);
    if !committedAtOk { return Threw; }
    if recordType == "" || generation == 0 || policyId == "" {
      return Rejected;
    }
    r := Read(ActivePointer(recordType, recordVersion, resourceKey, generation, policyId, canonicalHash,
                            schemaVersion, apiVersion, kind, versionKey, yamlKey, sourceType, applyId,
                            previous, previousId, committedAt));
  }

  method DeserializeVersionRecord(json: string) returns (r: ReadResult<VersionRecord>)
    ensures r == ParseVersion(json)
  {
    var recordType := ReadString(json, RecordType);
    var recordVersionOk, recordVersion := ReadNumber(json, RecordVersion);
    if !recordVersionOk { return Threw; }
    var resourceKey := ReadString(json, ResourceKey);
    var generationOk, generation := ReadNumber(json, Generation);
    if !generationOk { return Threw; }
    var policyId := ReadString(json, PolicyId);
    var canonicalHash := ReadString(json, CanonicalHash);
    var schemaVersionOk, schemaVersion := ReadNumber(json, SchemaVersion);
    if !schemaVersionOk { return Threw; }
    var apiVersion := ReadString(json, ApiVersion);
    var kind := ReadString(json, Kind);
    var yamlKey := ReadString(json, YamlKey);
    var sourceType := ReadString(json, SourceType);
    var applyId := ReadString(json, ApplyId);
    var previousOk, previous := ReadNumber(json, PreviousGeneration);
    if !previousOk { return Threw; }
    var previousId := ReadString(json, PreviousPolicyId);
    var createdAtOk, createdAt := ReadNumber(json, CreatedAt);
    if !createdAtOk { return Threw; }
    if recordType == "" || generation == 0 || policyId == "" {
      return Rejected;
    }
    r := Read(VersionRecord(recordType, recordVersion, resourceKey, generation, policyId, canonicalHash,
                            schemaVersion, apiVersion, kind, yamlKey, sourceType, applyId, previous,
                            previousId, createdAt));
  }

  // ---- Round trips ----

  lemma PointerGives(str: Tag -> string, num: Tag -> Option<nat>, p: ActivePointer, t: Tag)
    requires PointerOf(str, num) == Read(p) && t != CreatedAt
    ensures Gives(str, num, PointerValue(p, t), t)
  {
  }

  lemma PointerTexts(str: Tag -> string, num: Tag -> Option<nat>, p: ActivePointer)
    requires forall t: Tag :: t != CreatedAt ==> Gives(str, num, PointerValue(p, t), t)
    ensures str(RecordType) == p.recordType && str(ResourceKey) == p.resourceKey && str(PolicyId) == p.policyId
            && str(CanonicalHash) == p.canonicalHash && str(ApiVersion) == p.apiVersion && str(Kind) == p.kind
            && str(VersionKey) == p.versionKey && str(YamlKey) == p.yamlKey && str(SourceType) == p.sourceType
            && str(ApplyId) == p.applyId && str(PreviousPolicyId) == p.previousPolicyId
  {
    assert Gives(str, num, PointerValue(p, RecordType), RecordType);
    assert Gives(str, num, PointerValue(p, ResourceKey), ResourceKey);
    assert Gives(str, num, PointerValue(p, PolicyId), PolicyId);
    assert Gives(str, num, PointerValue(p, CanonicalHash), CanonicalHash);
    assert Gives(str, num, PointerValue(p, ApiVersion), ApiVersion);
    assert Gives(str, num, PointerValue(p, Kind), Kind);
    assert Gives(str, num, PointerValue(p, VersionKey), VersionKey);
    assert Gives(str, num, PointerValue(p, YamlKey), YamlKey);
    assert Gives(str, num, PointerValue(p, SourceType), SourceType);
    assert Gives(str, num, PointerValue(p, ApplyId), ApplyId);
    assert Gives(str, num, PointerValue(p, PreviousPolicyId), PreviousPolicyId);
  }

  lemma PointerNumbers(str: Tag -> string, num: Tag -> Option<nat>, p: ActivePointer)
    requires forall t: Tag :: t != CreatedAt ==> Gives(str, num, PointerValue(p, t), t)
    ensures InRange(num, CommittedAt)
    ensures Kept(num)(RecordVersion) == p.recordVersion && Kept(num)(Generation) == p.generation
            && Kept(num)(SchemaVersion) == p.schemaVersion && Kept(num)(PreviousGeneration) == p.previousGeneration
            && Kept(num)(CommittedAt) == p.committedAt
  {
    assert Gives(str, num, PointerValue(p, RecordVersion), RecordVersion);
    assert Gives(str, num, PointerValue(p, Generation), Generation);
    assert Gives(str, num, PointerValue(p, SchemaVersion), SchemaVersion);
    assert Gives(str, num, PointerValue(p, PreviousGeneration), PreviousGeneration);
    assert Gives(str, num, PointerValue(p, CommittedAt), CommittedAt);
  }

  lemma PointerGiven(str: Tag -> string, num: Tag -> Option<nat>, p: ActivePointer)
    requires ReadablePointer(p)
    requires forall t: Tag :: t != CreatedAt ==> Gives(str, num, PointerValue(p, t), t)
    ensures PointerOf(str, num) == Read(p)
  {
    PointerTexts(str, num, p);
    PointerNumbers(str, num, p);
  }

  lemma VersionGives(str: Tag -> string, num: Tag -> Option<nat>, v: VersionRecord, t: Tag)
    requires VersionOf(str, num) == Read(v) && t != CommittedAt && t != VersionKey
    ensures Gives(str, num, VersionValue(v, t), t)
  {
  }

  lemma VersionTexts(str: Tag -> string, num: Tag -> Option<nat>, v: VersionRecord)
    requires forall t: Tag :: t != CommittedAt && t != VersionKey ==> Gives(str, num, VersionValue(v, t), t)
    ensures str(RecordType) == v.recordType && str(ResourceKey) == v.resourceKey && str(PolicyId) == v.policyId
            && str(CanonicalHash) == v.canonicalHash && str(ApiVersion) == v.apiVersion && str(Kind) == v.kind
            && str(YamlKey) == v.yamlKey && str(SourceType) == v.sourceType && str(ApplyId) == v.applyId
            && str(PreviousPolicyId) == v.previousPolicyId
  {
    assert Gives(str, num, VersionValue(v, RecordType), RecordType);
    assert Gives(str, num, VersionValue(v, ResourceKey), ResourceKey);
    assert Gives(str, num, VersionValue(v, PolicyId), PolicyId);
    assert Gives(str, num, VersionValue(v, CanonicalHash), CanonicalHash);
    assert Gives(str, num, VersionValue(v, ApiVersion), ApiVersion);
    assert Gives(str, num, VersionValue(v, Kind), Kind);
    assert Gives(str, num, VersionValue(v, YamlKey), YamlKey);
    assert Gives(str, num, VersionValue(v, SourceType), SourceType);
    assert Gives(str, num, VersionValue(v, ApplyId), ApplyId);
    assert Gives(str, num, VersionValue(v, PreviousPolicyId), PreviousPolicyId);
  }

  lemma VersionNumbers(str: Tag -> string, num: Tag -> Option<nat>, v: VersionRecord)
    requires forall t: Tag :: t != CommittedAt && t != VersionKey ==> Gives(str, num, VersionValue(v, t), t)
    ensures InRange(num, CreatedAt)
    ensures Kept(num)(RecordVersion) == v.recordVersion && Kept(num)(Generation) == v.generation
            && Kept(num)(SchemaVersion) == v.schemaVersion && Kept(num)(PreviousGeneration) == v.previousGeneration
            && Kept(num)(CreatedAt) == v.createdAt
  {
    assert Gives(str, num, VersionValue(v, RecordVersion), RecordVersion);
    assert Gives(str, num, VersionValue(v, Generation), Generation);
    assert Gives(str, num, VersionValue(v, SchemaVersion), SchemaVersion);
    assert Gives(str, num, VersionValue(v, PreviousGeneration), PreviousGeneration);
    assert Gives(str, num, VersionValue(v, CreatedAt), CreatedAt);
  }

  lemma VersionGiven(str: Tag -> string, num: Tag -> Option<nat>, v: VersionRecord)
    requires ReadableVersion(v)
    requires forall t: Tag :: t != CommittedAt && t != VersionKey ==> Gives(str, num, VersionValue(v, t), t)
    ensures VersionOf(str, num) == Read(v)
  {
    VersionTexts(str, num, v);
    VersionNumbers(str, num, v);
  }

  lemma TagListed(t: Tag)
    ensures t != CreatedAt ==> t in POINTER_TAGS
    ensures t != CommittedAt && t != VersionKey ==> t in VERSION_TAGS
  {
    assert t != CreatedAt ==> POINTER_TAGS[Rank(t)] == t;
    assert Rank(t) < 9 ==> VERSION_TAGS[Rank(t)] == t;
    assert 9 < Rank(t) < 15 ==> VERSION_TAGS[Rank(t) - 1] == t;
    assert t == CreatedAt ==> VERSION_TAGS[14] == t;
  }

  lemma TagsUnlisted()
    ensures forall i :: 0 <= i < |POINTER_TAGS| ==> POINTER_TAGS[i] != CreatedAt
    ensures forall i :: 0 <= i < |VERSION_TAGS| ==> VERSION_TAGS[i] != CommittedAt && VERSION_TAGS[i] != VersionKey
  {
  }

  /** What a record with these fields must be like to read back. */
  ghost predicate PointerSurvives(p: ActivePointer) {
    ReadablePointer(p) && AllSurvive(POINTER_TAGS, PointerValues(p))
  }

  ghost predicate VersionSurvives(v: VersionRecord) {
    ReadableVersion(v) && AllSurvive(VERSION_TAGS, VersionValues(v))
  }

  ghost predicate AllGiven(json: string, tags: seq<Tag>, value: Tag -> Value) {
    forall t :: t in tags ==> Gives(Strings(json), Numbers(json), value(t), t)
  }

  lemma AllGivenIff(tags: seq<Tag>, value: Tag -> Value, json: string)
    requires Ordered(tags) && json == Printed(Fields(tags, value))
    ensures AllGiven(json, tags, value) <==> AllSurvive(tags, value)
  {
    forall i | 0 <= i < |tags|
      ensures Gives(Strings(json), Numbers(json), value(tags[i]), tags[i]) <==> Survives(tags, value, i)
    {
      GivenIffSurvives(tags, value, json, i);
    }
    if AllGiven(json, tags, value) {
      assert forall i :: 0 <= i < |tags| ==> tags[i] in tags;
    }
  }

  lemma PointerGivenIff(json: string, p: ActivePointer)
    ensures ParsePointer(json) == Read(p) <==> ReadablePointer(p) && AllGiven(json, POINTER_TAGS, PointerValues(p))
  {
    var str, num := Strings(json), Numbers(json);
    TagsUnlisted();
    if ParsePointer(json) == Read(p) {
      forall t | t in POINTER_TAGS ensures Gives(str, num, PointerValues(p)(t), t) {
        PointerGives(str, num, p, t);
      }
    } else if ReadablePointer(p) && AllGiven(json, POINTER_TAGS, PointerValues(p)) {
      forall t: Tag | t != CreatedAt ensures Gives(str, num, PointerValue(p, t), t) {
        TagListed(t);
      }
      PointerGiven(str, num, p);
    }
  }

  lemma VersionGivenIff(json: string, v: VersionRecord)
    ensures ParseVersion(json) == Read(v) <==> ReadableVersion(v) && AllGiven(json, VERSION_TAGS, VersionValues(v))
  {
    var str, num := Strings(json), Numbers(json);
    TagsUnlisted();
    if ParseVersion(json) == Read(v) {
      forall t | t in VERSION_TAGS ensures Gives(str, num, VersionValues(v)(t), t) {
        VersionGives(str, num, v, t);
      }
    } else if ReadableVersion(v) && AllGiven(json, VERSION_TAGS, VersionValues(v)) {
      forall t: Tag | t != CommittedAt && t != VersionKey ensures Gives(str, num, VersionValue(v, t), t) {
        TagListed(t);
      }
      VersionGiven(str, num, v);
    }
  }

  /** Deserializing a serialized active pointer gives the same pointer if and only if none of the three
      refusals applies and the source line of every field yields the field's value. */
  lemma PointerRoundTripIff(p: ActivePointer)
    ensures ParsePointer(PointerText(p)) == Read(p) <==> PointerSurvives(p)
  {
    TagsOrdered();
    AllGivenIff(POINTER_TAGS, PointerValues(p), PointerText(p));
    PointerGivenIff(PointerText(p), p);
  }

  /** The same for a version record. */
  lemma VersionRoundTripIff(v: VersionRecord)
    ensures ParseVersion(VersionText(v)) == Read(v) <==> VersionSurvives(v)
  {
    TagsOrdered();
    AllGivenIff(VERSION_TAGS, VersionValues(v), VersionText(v));
    VersionGivenIff(VersionText(v), v);
  }
}
