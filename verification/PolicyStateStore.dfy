/** The policy state store of one resource: typed maps, one atomic operation per lock section. */
module PolicyStateStore {
  import opened Text
  import opened StateKeys
  import opened PolicyRecords

  datatype ErrorCode =
    | DbOpenFailed
    | DbWriteFailed
    | DbReadFailed
    | VersionNotFound
    | VersionConflict
    | ActivePointerNotFound
    | ActivePointerConflict
    | ActivePointerInvalid
    | ActivePointerTargetMissing
    | AuditWriteFailed

  datatype Result<+T> = Ok(value: T) | Err(code: ErrorCode)

  datatype Version = Version(record: VersionRecord, yaml: string)

  datatype Promotion = Promotion(idempotent: bool)

  /** Whether each access to the underlying database succeeds during one operation. */
  datatype Io = Io(versionRead: bool, yamlRead: bool, activeRead: bool, targetRead: bool, write: bool)

  datatype Store = Store(
    versions: map<nat, VersionRecord>,
    yamls: map<nat, string>,
    active: Option<ActivePointer>,
    audits: map<string, AuditRecord>)

  datatype CommitParams = CommitParams(
    version: VersionRecord,
    yaml: string,
    expected: ExpectedActive,
    next: ActivePointer,
    audit: AuditRecord)

  // ---- Operations as functions on the stored state ----

  function StampVersion(key: ResourceKey, v: VersionRecord): VersionRecord {
    v.(resourceKey := ToString(key), yamlKey := YamlKey(key, v.generation))
  }

  function StampPointer(key: ResourceKey, p: ActivePointer): ActivePointer {
    p.(resourceKey := ToString(key))
  }

  function StampAudit(key: ResourceKey, a: AuditRecord): AuditRecord {
    a.(resourceKey := ToString(key))
  }

  /** The version a write would meet: absent (Ok(true)), the same content (Ok(false)) or a conflict. */
  function VersionSlot(s: Store, v: VersionRecord, yaml: string, io: Io): Result<bool> {
    if !io.versionRead then Err(DbReadFailed)
    else if v.generation !in s.versions then Ok(true)
    else if !ReadableVersion(s.versions[v.generation]) then Err(DbReadFailed)
    else if s.versions[v.generation].canonicalHash != v.canonicalHash then Err(VersionConflict)
    else if !io.yamlRead then Err(DbReadFailed)
    else if v.generation !in s.yamls then Err(VersionConflict)
    else if s.yamls[v.generation] != yaml then Err(VersionConflict)
    else Ok(false)
  }

  function PutVersion(s: Store, key: ResourceKey, v: VersionRecord, yaml: string): Store {
    s.(versions := s.versions[v.generation := StampVersion(key, v)], yamls := s.yamls[v.generation := yaml])
  }

  function StoreVersion(s: Store, key: ResourceKey, v: VersionRecord, yaml: string, io: Io): (Store, Result<()>) {
    match VersionSlot(s, v, yaml, io)
    case Err(c) => (s, Err(c))
    case Ok(false) => (s, Ok(()))
    case Ok(true) => if io.write then (PutVersion(s, key, v, yaml), Ok(())) else (s, Err(DbWriteFailed))
  }

  function LoadVersion(s: Store, generation: nat, io: Io): Result<Version> {
    if !io.versionRead then Err(DbReadFailed)
    else if generation !in s.versions then Err(VersionNotFound)
    else if !ReadableVersion(s.versions[generation]) then Err(DbReadFailed)
    else if !io.yamlRead then Err(DbReadFailed)
    else if generation !in s.yamls then Err(VersionNotFound)
    else Ok(Version(s.versions[generation], s.yamls[generation]))
  }

  function LoadActive(s: Store, io: Io): Result<ActivePointer> {
    if !io.activeRead then Err(DbReadFailed)
    else if s.active.None? then Err(ActivePointerNotFound)
    else if !ReadablePointer(s.active.value) then Err(ActivePointerInvalid)
    else Ok(s.active.value)
  }

  /** A version is stored under the given key. */
  predicate TargetStored(s: Store, key: ResourceKey, versionKey: string) {
    exists g | g in s.versions :: VersionKey(key, g) == versionKey
  }

  /** The compare step: Ok(true) when `next` is already active, Ok(false) when the base matches. */
  function ComparePointer(s: Store, expected: ExpectedActive, next: ActivePointer, io: Io): Result<bool> {
    if !io.activeRead then Err(DbReadFailed)
    else if s.active.None? then if expected.generation != 0 then Err(ActivePointerConflict) else Ok(false)
    else
      var current := s.active.value;
      if !ReadablePointer(current) then Err(ActivePointerInvalid)
      else if current.generation == next.generation && current.policyId == next.policyId then Ok(true)
      else if current.generation != expected.generation || current.policyId != expected.policyId then
        Err(ActivePointerConflict)
      else Ok(false)
  }

  function CheckTarget(s: Store, key: ResourceKey, next: ActivePointer, io: Io): Result<()> {
    if next.versionKey == "" then Err(ActivePointerTargetMissing)
    else if !io.targetRead then Err(DbReadFailed)
    else if !TargetStored(s, key, next.versionKey) then Err(ActivePointerTargetMissing)
    else Ok(())
  }

  function Promote(s: Store, key: ResourceKey, expected: ExpectedActive, next: ActivePointer, io: Io)
    : (Store, Result<Promotion>)
  {
    match ComparePointer(s, expected, next, io)
    case Err(c) => (s, Err(c))
    case Ok(true) => (s, Ok(Promotion(true)))
    case Ok(false) =>
      match CheckTarget(s, key, next, io)
      case Err(c) => (s, Err(c))
      case Ok(_) =>
        if !io.write then (s, Err(DbWriteFailed))
        else (s.(active := Some(StampPointer(key, next))), Ok(Promotion(false)))
  }

  function PutAudit(s: Store, key: ResourceKey, a: AuditRecord): Store {
    s.(audits := s.audits[a.applyId := StampAudit(key, a)])
  }

  /** Everything a commit checks before it writes: Ok(true) when `next` is already active. */
  function CommitChecks(s: Store, key: ResourceKey, p: CommitParams, io: Io): Result<bool> {
    if p.audit.applyId == "" then Err(AuditWriteFailed)
    else
      match VersionSlot(s, p.version, p.yaml, io)
      case Err(c) => Err(c)
      case Ok(writeVersion) =>
        match ComparePointer(s, p.expected, p.next, io)
        case Err(c) => Err(c)
        case Ok(true) => Ok(true)
        case Ok(false) =>
          if p.next.versionKey == "" then Err(ActivePointerTargetMissing)
          else if writeVersion then Ok(false)
          else
            match CheckTarget(s, key, p.next, io)
            case Err(c) => Err(c)
            case Ok(_) => Ok(false)
  }

  function CommitWithAudit(s: Store, key: ResourceKey, p: CommitParams, io: Io): (Store, Result<()>) {
    match CommitChecks(s, key, p, io)
    case Err(c) => (s, Err(c))
    case Ok(already) =>
      if !io.write then (s, Err(DbWriteFailed))
      else if already then (PutAudit(s, key, p.audit), Ok(()))
      else
        var s1 := if p.version.generation !in s.versions then PutVersion(s, key, p.version, p.yaml) else s;
        var s2 := s1.(active := Some(StampPointer(key, p.next)));
        (PutAudit(s2, key, p.audit), Ok(()))
  }

  // ---- Reading back ----

  /** A version that was stored, now or before, loads with the text and the hash it was stored with. */
  lemma LoadReturnsStored(s: Store, key: ResourceKey, v: VersionRecord, yaml: string, io: Io, later: Io)
    requires ReadableVersion(v) && StoreVersion(s, key, v, yaml, io).1.Ok? && later.versionRead && later.yamlRead
    ensures var r := LoadVersion(StoreVersion(s, key, v, yaml, io).0, v.generation, later);
            && r.Ok? && r.value.yaml == yaml && r.value.record.canonicalHash == v.canonicalHash
            && (v.generation !in s.versions ==> r.value.record == StampVersion(key, v))
            && (v.generation in s.versions ==> r.value.record == s.versions[v.generation])
  {
    assert VersionSlot(s, v, yaml, io).Ok?;
  }

  /** A pointer that was promoted loads; one found in place has the same generation and policy id. */
  lemma LoadReturnsPromoted(s: Store, key: ResourceKey, expected: ExpectedActive, next: ActivePointer,
                            io: Io, later: Io)
    requires ReadablePointer(next) && Promote(s, key, expected, next, io).1.Ok? && later.activeRead
    ensures var (t, p) := Promote(s, key, expected, next, io);
            var r := LoadActive(t, later);
            && r.Ok? && r.value.generation == next.generation && r.value.policyId == next.policyId
            && r.value == (if p.value.idempotent then s.active.value else StampPointer(key, next))
  {
    assert ComparePointer(s, expected, next, io).Ok?;
  }

  // ---- The store object ----

  class PolicyStateDb {
    const key: ResourceKey
    const open: bool
    var versions: map<nat, VersionRecord>
    var yamls: map<nat, string>
    var active: Option<ActivePointer>
    var audits: map<string, AuditRecord>

    function State(): Store
      reads this
    {
      Store(versions, yamls, active, audits)
    }

    constructor (key: ResourceKey, open: bool, s: Store)
      ensures State() == s && this.key == key && this.open == open
    {
      this.key, this.open := key, open;
      versions, yamls, active, audits := s.versions, s.yamls, s.active, s.audits;
    }

    method StorePolicyVersion(v: VersionRecord, yaml: string, io: Io) returns (r: Result<()>)
      modifies this
      ensures !open ==> r == Err(DbOpenFailed) && State() == old(State())
      ensures open ==> (State(), r) == StoreVersion(old(State()), key, v, yaml, io)
    {
      if !open { return Err(DbOpenFailed); }
      if !io.versionRead { return Err(DbReadFailed); }
      if v.generation in versions {
        var existing := versions[v.generation];
        if !ReadableVersion(existing) { return Err(DbReadFailed); }
        if existing.canonicalHash != v.canonicalHash { return Err(VersionConflict); }
        if !io.yamlRead { return Err(DbReadFailed); }
        if v.generation !in yamls { return Err(VersionConflict); }
        if yamls[v.generation] != yaml { return Err(VersionConflict); }
        return Ok(());
      }
      var toStore := v.(resourceKey := ToString(key), yamlKey := YamlKey(key, v.generation));
      if !io.write { return Err(DbWriteFailed); }
      versions := versions[v.generation := toStore];
      yamls := yamls[v.generation := yaml];
      r := Ok(());
    }

    method LoadPolicyVersion(generation: nat, io: Io) returns (r: Result<Version>)
      ensures !open ==> r == Err(DbOpenFailed)
      ensures open ==> r == LoadVersion(State(), generation, io)
    {
      if !open { return Err(DbOpenFailed); }
      if !io.versionRead { return Err(DbReadFailed); }
      if generation !in versions { return Err(VersionNotFound); }
      var record := versions[generation];
      if !ReadableVersion(record) { return Err(DbReadFailed); }
      if !io.yamlRead { return Err(DbReadFailed); }
      if generation !in yamls { return Err(VersionNotFound); }
      r := Ok(Version(record, yamls[generation]));
    }

    method LoadActivePointer(io: Io) returns (r: Result<ActivePointer>)
      ensures !open ==> r == Err(DbOpenFailed)
      ensures open ==> r == LoadActive(State(), io)
    {
      if !open { return Err(DbOpenFailed); }
      if !io.activeRead { return Err(DbReadFailed); }
      if active.None? { return Err(ActivePointerNotFound); }
      if !ReadablePointer(active.value) { return Err(ActivePointerInvalid); }
      r := Ok(active.value);
    }

    method CompareAndPromoteActive(expected: ExpectedActive, next: ActivePointer, io: Io)
      returns (r: Result<Promotion>)
      modifies this
      ensures !open ==> r == Err(DbOpenFailed) && State() == old(State())
      ensures open ==> (State(), r) == Promote(old(State()), key, expected, next, io)
    {
      if !open { return Err(DbOpenFailed); }
      if !io.activeRead { return Err(DbReadFailed); }
      if active.Some? {
        var current := active.value;
        if !ReadablePointer(current) { return Err(ActivePointerInvalid); }
        if current.generation == next.generation && current.policyId == next.policyId {
          return Ok(Promotion(true));
        }
        if current.generation != expected.generation || current.policyId != expected.policyId {
          return Err(ActivePointerConflict);
        }
      } else if expected.generation != 0 {
        return Err(ActivePointerConflict);
      }
      if next.versionKey == "" { return Err(ActivePointerTargetMissing); }
      if !io.targetRead { return Err(DbReadFailed); }
      if !TargetStored(State(), key, next.versionKey) { return Err(ActivePointerTargetMissing); }
      var toStore := next.(resourceKey := ToString(key));
      if !io.write { return Err(DbWriteFailed); }
      active := Some(toStore);
      r := Ok(Promotion(false));
    }

    method CommitPolicyGenerationWithAudit(p: CommitParams, io: Io) returns (r: Result<()>)
      modifies this
      ensures !open ==> r == Err(DbOpenFailed) && State() == old(State())
      ensures open ==> (State(), r) == CommitWithAudit(old(State()), key, p, io)
    {
      if !open { return Err(DbOpenFailed); }
      if p.audit.applyId == "" { return Err(AuditWriteFailed); }
      var g := p.version.generation;
      var writeVersion := false;
      if !io.versionRead { return Err(DbReadFailed); }
      if g in versions {
        var existing := versions[g];
        if !ReadableVersion(existing) { return Err(DbReadFailed); }
        if existing.canonicalHash != p.version.canonicalHash { return Err(VersionConflict); }
        if !io.yamlRead { return Err(DbReadFailed); }
        if g !in yamls { return Err(VersionConflict); }
        if yamls[g] != p.yaml { return Err(VersionConflict); }
      } else {
        writeVersion := true;
      }
      var auditToStore := p.audit.(resourceKey := ToString(key));
      if !io.activeRead { return Err(DbReadFailed); }
      if active.Some? {
        var current := active.value;
        if !ReadablePointer(current) { return Err(ActivePointerInvalid); }
        if current.generation == p.next.generation && current.policyId == p.next.policyId {
          if !io.write { return Err(DbWriteFailed); }
          audits := audits[p.audit.applyId := auditToStore];
          return Ok(());
        }
        if current.generation != p.expected.generation || current.policyId != p.expected.policyId {
          return Err(ActivePointerConflict);
        }
      } else if p.expected.generation != 0 {
        return Err(ActivePointerConflict);
      }
      if p.next.versionKey == "" { return Err(ActivePointerTargetMissing); }
      if !writeVersion {
        if !io.targetRead { return Err(DbReadFailed); }
        if !TargetStored(State(), key, p.next.versionKey) { return Err(ActivePointerTargetMissing); }
      }
      if !io.write { return Err(DbWriteFailed); }
      if writeVersion {
        versions := versions[g := p.version.(resourceKey := ToString(key), yamlKey := YamlKey(key, g))];
        yamls := yamls[g := p.yaml];
      }
      active := Some(p.next.(resourceKey := ToString(key)));
      audits := audits[p.audit.applyId := auditToStore];
      r := Ok(());
    }
  }
}
