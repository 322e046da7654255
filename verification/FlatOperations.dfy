/** The store operations as they are executed: decisions are taken by reading and parsing the flat
    map, and writes go to it in batches. Each gives the result of the typed operation and leaves a
    flat map that holds the typed operation's store. */
module FlatOperations {
  import opened Text
  import opened StateKeys
  import opened PolicyRecords
  import opened PolicyStateStore
  import opened JsonRecords
  import opened FlatStore

  function At(db: Flat, key: ResourceKey, a: Address): Option<string> { Lookup(db, Place(key, a)) }

  // ---- Reading ----

  function FlatLoadVersion(db: Flat, key: ResourceKey, codec: Codec, g: nat, io: Io): Result<Version> {
    if !io.versionRead then Err(DbReadFailed)
    else if At(db, key, VersionAt(g)).None? then Err(VersionNotFound)
    else
      var record := codec.version(At(db, key, VersionAt(g)).value);
      if !record.Read? || !io.yamlRead then Err(DbReadFailed)
      else if At(db, key, YamlAt(g)).None? then Err(VersionNotFound)
      else Ok(Version(record.record, At(db, key, YamlAt(g)).value))
  }

  function FlatLoadActive(db: Flat, key: ResourceKey, codec: Codec, io: Io): Result<ActivePointer> {
    if !io.activeRead then Err(DbReadFailed)
    else if At(db, key, ActiveAt).None? then Err(ActivePointerNotFound)
    else
      var pointer := codec.pointer(At(db, key, ActiveAt).value);
      if pointer.Read? then Ok(pointer.record) else Err(ActivePointerInvalid)
  }

  /** The version a write would meet: absent, the same content, or a conflict. */
  function FlatSlot(db: Flat, key: ResourceKey, codec: Codec, v: VersionRecord, yaml: string, io: Io): Result<bool> {
    if !io.versionRead then Err(DbReadFailed)
    else if At(db, key, VersionAt(v.generation)).None? then Ok(true)
    else
      var existing := codec.version(At(db, key, VersionAt(v.generation)).value);
      if !existing.Read? then Err(DbReadFailed)
      else if existing.record.canonicalHash != v.canonicalHash then Err(VersionConflict)
      else if !io.yamlRead then Err(DbReadFailed)
      else if At(db, key, YamlAt(v.generation)) != Some(yaml) then Err(VersionConflict)
      else Ok(false)
  }

  function FlatCompare(db: Flat, key: ResourceKey, codec: Codec, expected: ExpectedActive, next: ActivePointer, io: Io)
    : Result<bool>
  {
    if !io.activeRead then Err(DbReadFailed)
    else if At(db, key, ActiveAt).None? then if expected.generation != 0 then Err(ActivePointerConflict) else Ok(false)
    else
      var current := codec.pointer(At(db, key, ActiveAt).value);
      if !current.Read? then Err(ActivePointerInvalid)
      else if current.record.generation == next.generation && current.record.policyId == next.policyId then Ok(true)
      else if current.record.generation != expected.generation || current.record.policyId != expected.policyId then
        Err(ActivePointerConflict)
      else Ok(false)
  }

  /** The target is looked up under whatever key the new pointer carries. */
  function FlatTarget(db: Flat, next: ActivePointer, io: Io): Result<()> {
    if next.versionKey == "" then Err(ActivePointerTargetMissing)
    else if !io.targetRead then Err(DbReadFailed)
    else if next.versionKey !in db then Err(ActivePointerTargetMissing)
    else Ok(())
  }

  // ---- Writing ----

  function VersionPuts(key: ResourceKey, v: VersionRecord, yaml: string): seq<Put> {
    [Put(Place(key, VersionAt(v.generation)), VersionText(StampVersion(key, v))),
     Put(Place(key, YamlAt(v.generation)), yaml)]
  }

  function PointerPuts(key: ResourceKey, p: ActivePointer): seq<Put> {
    [Put(Place(key, ActiveAt), PointerText(StampPointer(key, p)))]
  }

  function AuditPuts(key: ResourceKey, codec: Codec, a: AuditRecord): seq<Put> {
    [Put(Place(key, AuditAt(a.applyId)), codec.audit(StampAudit(key, a)))]
  }

  function FlatStoreVersion(db: Flat, key: ResourceKey, codec: Codec, v: VersionRecord, yaml: string, io: Io)
    : (Flat, Result<()>)
  {
    match FlatSlot(db, key, codec, v, yaml, io)
    case Err(c) => (db, Err(c))
    case Ok(false) => (db, Ok(()))
    case Ok(true) =>
      if io.write then (FlatPuts(db, VersionPuts(key, v, yaml)), Ok(())) else (db, Err(DbWriteFailed))
  }

  function FlatPromote(db: Flat, key: ResourceKey, codec: Codec, expected: ExpectedActive, next: ActivePointer, io: Io)
    : (Flat, Result<Promotion>)
  {
    match FlatCompare(db, key, codec, expected, next, io)
    case Err(c) => (db, Err(c))
    case Ok(true) => (db, Ok(Promotion(true)))
    case Ok(false) =>
      match FlatTarget(db, next, io)
      case Err(c) => (db, Err(c))
      case Ok(_) =>
        if io.write then (FlatPuts(db, PointerPuts(key, next)), Ok(Promotion(false))) else (db, Err(DbWriteFailed))
  }

  /** What a commit decides from its reads: the batch it will write. */
  function FlatPlan(db: Flat, key: ResourceKey, codec: Codec, p: CommitParams, io: Io): Result<seq<Put>> {
    if p.audit.applyId == "" then Err(AuditWriteFailed)
    else
      match FlatSlot(db, key, codec, p.version, p.yaml, io)
      case Err(c) => Err(c)
      case Ok(writeVersion) =>
        match FlatCompare(db, key, codec, p.expected, p.next, io)
        case Err(c) => Err(c)
        case Ok(true) => Ok(AuditPuts(key, codec, p.audit))
        case Ok(false) =>
          if p.next.versionKey == "" then Err(ActivePointerTargetMissing)
          else if writeVersion then
            Ok(VersionPuts(key, p.version, p.yaml) + PointerPuts(key, p.next) + AuditPuts(key, codec, p.audit))
          else
            match FlatTarget(db, p.next, io)
            case Err(c) => Err(c)
            case Ok(_) => Ok(PointerPuts(key, p.next) + AuditPuts(key, codec, p.audit))
  }

  function FlatCommit(db: Flat, key: ResourceKey, codec: Codec, p: CommitParams, io: Io): (Flat, Result<()>) {
    match FlatPlan(db, key, codec, p, io)
    case Err(c) => (db, Err(c))
    case Ok(puts) => if io.write then (FlatPuts(db, puts), Ok(())) else (db, Err(DbWriteFailed))
  }

  // ---- The reads agree ----

  lemma LoadVersionAgrees(db: Flat, key: ResourceKey, s: Store, codec: Codec, g: nat, io: Io)
    requires HoldsStore(db, key, s, codec) && g < GENERATION_LIMIT
    ensures FlatLoadVersion(db, key, codec, g, io) == LoadVersion(s, g, io)
  {
    assert RecordStored(db, key, s, codec, g) && YamlStored(db, key, s, g);
  }

  lemma LoadActiveAgrees(db: Flat, key: ResourceKey, s: Store, codec: Codec, io: Io)
    requires HoldsStore(db, key, s, codec)
    ensures FlatLoadActive(db, key, codec, io) == LoadActive(s, io)
  {
  }

  lemma SlotAgrees(db: Flat, key: ResourceKey, s: Store, codec: Codec, v: VersionRecord, yaml: string, io: Io)
    requires HoldsStore(db, key, s, codec) && v.generation < GENERATION_LIMIT
    ensures FlatSlot(db, key, codec, v, yaml, io) == VersionSlot(s, v, yaml, io)
  {
    assert RecordStored(db, key, s, codec, v.generation) && YamlStored(db, key, s, v.generation);
  }

  lemma CompareAgrees(db: Flat, key: ResourceKey, s: Store, codec: Codec, expected: ExpectedActive, next: ActivePointer,
                      io: Io)
    requires HoldsStore(db, key, s, codec)
    ensures FlatCompare(db, key, codec, expected, next, io) == ComparePointer(s, expected, next, io)
  {
  }

  /** The key of a version that is not stored is the key of no other stored version either. */
  lemma TargetAgrees(db: Flat, key: ResourceKey, s: Store, codec: Codec, next: ActivePointer, io: Io)
    requires HoldsStore(db, key, s, codec)
    requires next.versionKey == StateKeys.VersionKey(key, next.generation) && next.generation < GENERATION_LIMIT
    ensures FlatTarget(db, next, io) == CheckTarget(s, key, next, io)
  {
    var g := next.generation;
    assert RecordStored(db, key, s, codec, g);
    assert TextKey(Place(key, VersionAt(g))) == next.versionKey;
    if TargetStored(s, key, next.versionKey) {
      var h :| h in s.versions && StateKeys.VersionKey(key, h) == next.versionKey;
      OneResourceInjective(key, VersionAt(g), VersionAt(h));
    } else {
      assert g !in s.versions;
    }
  }

  // ---- The writes agree ----

  /** A record that its codec reads back. */
  ghost predicate VersionCodes(key: ResourceKey, codec: Codec, v: VersionRecord) {
    && v.generation < GENERATION_LIMIT && ReadableVersion(v)
    && codec.version(VersionText(StampVersion(key, v))) == Read(StampVersion(key, v))
  }

  ghost predicate PointerCodes(key: ResourceKey, codec: Codec, p: ActivePointer) {
    && p.generation < GENERATION_LIMIT && p.versionKey == StateKeys.VersionKey(key, p.generation) && ReadablePointer(p)
    && codec.pointer(PointerText(StampPointer(key, p))) == Read(StampPointer(key, p))
  }

  lemma StoreAgrees(db: Flat, key: ResourceKey, s: Store, codec: Codec, v: VersionRecord, yaml: string, io: Io)
    requires HoldsStore(db, key, s, codec) && VersionCodes(key, codec, v)
    ensures FlatStoreVersion(db, key, codec, v, yaml, io).1 == StoreVersion(s, key, v, yaml, io).1
    ensures HoldsStore(FlatStoreVersion(db, key, codec, v, yaml, io).0, key, StoreVersion(s, key, v, yaml, io).0, codec)
  {
    SlotAgrees(db, key, s, codec, v, yaml, io);
    if VersionSlot(s, v, yaml, io) == Ok(true) {
      VersionWritten(db, key, s, codec, StampVersion(key, v), yaml, VersionText(StampVersion(key, v)));
    }
  }

  lemma PromoteAgrees(db: Flat, key: ResourceKey, s: Store, codec: Codec, expected: ExpectedActive, next: ActivePointer,
                      io: Io)
    requires HoldsStore(db, key, s, codec) && PointerCodes(key, codec, next)
    ensures FlatPromote(db, key, codec, expected, next, io).1 == Promote(s, key, expected, next, io).1
    ensures HoldsStore(FlatPromote(db, key, codec, expected, next, io).0, key,
                       Promote(s, key, expected, next, io).0, codec)
  {
    CompareAgrees(db, key, s, codec, expected, next, io);
    TargetAgrees(db, key, s, codec, next, io);
    PointerWritten(db, key, s, codec, StampPointer(key, next), PointerText(StampPointer(key, next)));
  }

  /** The plan read off the flat map is the batch of the typed commit. */
  lemma PlanAgrees(db: Flat, key: ResourceKey, s: Store, codec: Codec, p: CommitParams, io: Io)
    requires HoldsStore(db, key, s, codec)
    requires p.version.generation < GENERATION_LIMIT && PointerCodes(key, codec, p.next)
    ensures var plan, checks := FlatPlan(db, key, codec, p, io), CommitChecks(s, key, p, io);
            && (plan.Ok? <==> checks.Ok?) && (plan.Err? ==> plan.code == checks.code)
            && (plan.Ok? ==> plan.value == CommitPuts(s, key, codec, p, checks.value))
  {
    SlotAgrees(db, key, s, codec, p.version, p.yaml, io);
    CompareAgrees(db, key, s, codec, p.expected, p.next, io);
    TargetAgrees(db, key, s, codec, p.next, io);
    var v, a := PointerPuts(key, p.next), AuditPuts(key, codec, p.audit);
    assert [] + v + a == v + a;
  }

  /** The puts of a commit whose checks passed. */
  function CommitPuts(s: Store, key: ResourceKey, codec: Codec, p: CommitParams, already: bool): seq<Put> {
    if already then AuditPuts(key, codec, p.audit)
    else
      (if p.version.generation !in s.versions then VersionPuts(key, p.version, p.yaml) else [])
      + PointerPuts(key, p.next) + AuditPuts(key, codec, p.audit)
  }

  lemma CommitWrites(db: Flat, key: ResourceKey, s: Store, codec: Codec, p: CommitParams)
    requires HoldsStore(db, key, s, codec)
    requires VersionCodes(key, codec, p.version) && PointerCodes(key, codec, p.next)
    ensures var s1 := if p.version.generation !in s.versions then PutVersion(s, key, p.version, p.yaml) else s;
      var s2 := s1.(active := Some(StampPointer(key, p.next)));
      HoldsStore(FlatPuts(db, CommitPuts(s, key, codec, p, false)), key, PutAudit(s2, key, p.audit), codec)
  {
    var v := if p.version.generation !in s.versions then VersionPuts(key, p.version, p.yaml) else [];
    var s1 := if p.version.generation !in s.versions then PutVersion(s, key, p.version, p.yaml) else s;
    var s2 := s1.(active := Some(StampPointer(key, p.next)));
    PutsInOrder(db, v + PointerPuts(key, p.next), AuditPuts(key, codec, p.audit));
    PutsInOrder(db, v, PointerPuts(key, p.next));
    if p.version.generation !in s.versions {
      VersionWritten(db, key, s, codec, StampVersion(key, p.version), p.yaml,
                     VersionText(StampVersion(key, p.version)));
    }
    PointerWritten(FlatPuts(db, v), key, s1, codec, StampPointer(key, p.next), PointerText(StampPointer(key, p.next)));
    AuditWritten(FlatPuts(db, v + PointerPuts(key, p.next)), key, s2, codec, p.audit);
  }

  lemma CommitAgrees(db: Flat, key: ResourceKey, s: Store, codec: Codec, p: CommitParams, io: Io)
    requires HoldsStore(db, key, s, codec)
    requires VersionCodes(key, codec, p.version) && PointerCodes(key, codec, p.next)
    ensures FlatCommit(db, key, codec, p, io).1 == CommitWithAudit(s, key, p, io).1
    ensures HoldsStore(FlatCommit(db, key, codec, p, io).0, key, CommitWithAudit(s, key, p, io).0, codec)
  {
    PlanAgrees(db, key, s, codec, p, io);
    var checks := CommitChecks(s, key, p, io);
    if checks.Ok? && io.write {
      if checks.value {
        AuditWritten(db, key, s, codec, p.audit);
      } else {
        CommitWrites(db, key, s, codec, p);
      }
    }
  }

  // ---- With the JSON records ----

  function Json(audit: AuditRecord -> string): Codec { Codec(t => ParseVersion(t), t => ParsePointer(t), audit) }

  /** What the round trips need of a version and of a pointer that is to be stored. */
  ghost predicate VersionWritable(key: ResourceKey, v: VersionRecord) {
    v.generation < GENERATION_LIMIT && VersionSurvives(StampVersion(key, v))
  }

  ghost predicate PointerWritable(key: ResourceKey, p: ActivePointer) {
    p.generation < GENERATION_LIMIT && p.versionKey == StateKeys.VersionKey(key, p.generation) &&
    PointerSurvives(StampPointer(key, p))
  }

  lemma WritableCodes(key: ResourceKey, audit: AuditRecord -> string, v: VersionRecord)
    requires VersionWritable(key, v)
    ensures VersionCodes(key, Json(audit), v)
  {
    VersionRoundTripIff(StampVersion(key, v));
  }

  lemma WritablePointerCodes(key: ResourceKey, audit: AuditRecord -> string, p: ActivePointer)
    requires PointerWritable(key, p)
    ensures PointerCodes(key, Json(audit), p)
  {
    PointerRoundTripIff(StampPointer(key, p));
  }

  /** Storing a version by reading and writing the flat map has the result of the typed operation
      and leaves its store. */
  lemma StoreVersionOnFlat(db: Flat, key: ResourceKey, s: Store, audit: AuditRecord -> string, v: VersionRecord,
                           yaml: string, io: Io)
    requires HoldsStore(db, key, s, Json(audit)) && VersionWritable(key, v)
    ensures var (db', r) := FlatStoreVersion(db, key, Json(audit), v, yaml, io);
            var (s', q) := StoreVersion(s, key, v, yaml, io);
            r == q && HoldsStore(db', key, s', Json(audit))
  {
    WritableCodes(key, audit, v);
    StoreAgrees(db, key, s, Json(audit), v, yaml, io);
  }

  /** The same for a promotion. */
  lemma PromoteOnFlat(db: Flat, key: ResourceKey, s: Store, audit: AuditRecord -> string, expected: ExpectedActive,
                      next: ActivePointer, io: Io)
    requires HoldsStore(db, key, s, Json(audit)) && PointerWritable(key, next)
    ensures var (db', r) := FlatPromote(db, key, Json(audit), expected, next, io);
            var (s', q) := Promote(s, key, expected, next, io);
            r == q && HoldsStore(db', key, s', Json(audit))
  {
    WritablePointerCodes(key, audit, next);
    PromoteAgrees(db, key, s, Json(audit), expected, next, io);
  }

  /** The same for a commit with its audit record. */
  lemma CommitOnFlat(db: Flat, key: ResourceKey, s: Store, audit: AuditRecord -> string, p: CommitParams, io: Io)
    requires HoldsStore(db, key, s, Json(audit))
    requires VersionWritable(key, p.version) && PointerWritable(key, p.next)
    ensures var (db', r) := FlatCommit(db, key, Json(audit), p, io);
            var (s', q) := CommitWithAudit(s, key, p, io);
            r == q && HoldsStore(db', key, s', Json(audit))
  {
    WritableCodes(key, audit, p.version);
    WritablePointerCodes(key, audit, p.next);
    CommitAgrees(db, key, s, Json(audit), p, io);
  }

  /** Loading from the flat map is loading from the typed maps. */
  lemma LoadsOnFlat(db: Flat, key: ResourceKey, s: Store, audit: AuditRecord -> string, g: nat, io: Io)
    requires HoldsStore(db, key, s, Json(audit)) && g < GENERATION_LIMIT
    ensures FlatLoadVersion(db, key, Json(audit), g, io) == LoadVersion(s, g, io)
    ensures FlatLoadActive(db, key, Json(audit), io) == LoadActive(s, io)
  {
    LoadVersionAgrees(db, key, s, Json(audit), g, io);
    LoadActiveAgrees(db, key, s, Json(audit), io);
  }

  lemma PutShows(db: Flat, key: ResourceKey, text: string)
    ensures At(FlatPuts(db, [Put(Place(key, ActiveAt), text)]), key, ActiveAt) == Some(text)
  {
    PutOne(db, Put(Place(key, ActiveAt), text));
  }

  lemma PromotedShows(db: Flat, key: ResourceKey, codec: Codec, expected: ExpectedActive, next: ActivePointer, io: Io)
    requires FlatPromote(db, key, codec, expected, next, io).1 == Ok(Promotion(false))
    ensures At(FlatPromote(db, key, codec, expected, next, io).0, key, ActiveAt)
            == Some(PointerText(StampPointer(key, next)))
  {
    PutShows(db, key, PointerText(StampPointer(key, next)));
  }

  lemma ActiveLoadsIff(db: Flat, key: ResourceKey, audit: AuditRecord -> string, text: string, p: ActivePointer, io: Io)
    requires At(db, key, ActiveAt) == Some(text) && io.activeRead
    ensures FlatLoadActive(db, key, Json(audit), io) == Ok(p) <==> ParsePointer(text) == Read(p)
  {
  }

  /** A pointer that was moved loads as it was written if and only if it survives its codec. */
  lemma PromotedLoadsIff(db: Flat, key: ResourceKey, audit: AuditRecord -> string, expected: ExpectedActive,
                         next: ActivePointer, io: Io, later: Io)
    requires FlatPromote(db, key, Json(audit), expected, next, io).1 == Ok(Promotion(false)) && later.activeRead
    ensures var db' := FlatPromote(db, key, Json(audit), expected, next, io).0;
            FlatLoadActive(db', key, Json(audit), later) == Ok(StampPointer(key, next))
            <==> PointerSurvives(StampPointer(key, next))
  {
    var p := StampPointer(key, next);
    PromotedShows(db, key, Json(audit), expected, next, io);
    ActiveLoadsIff(FlatPromote(db, key, Json(audit), expected, next, io).0, key, audit, PointerText(p), p, later);
    PointerRoundTripIff(p);
  }

  /** The put before a batch's audit record still shows behind it. */
  lemma ShowsBehindAudit(db: Flat, key: ResourceKey, codec: Codec, puts: seq<Put>, text: string, a: AuditRecord)
    ensures At(FlatPuts(db, puts + [Put(Place(key, ActiveAt), text)] + AuditPuts(key, codec, a)), key, ActiveAt)
            == Some(text)
  {
    var front, put := puts + [Put(Place(key, ActiveAt), text)], AuditPuts(key, codec, a)[0];
    PutsInOrder(db, front, [put]);
    PutsInOrder(db, puts, [Put(Place(key, ActiveAt), text)]);
    PutOne(FlatPuts(db, front), put);
    PutInResource(FlatPuts(db, front), key, AuditAt(a.applyId), put.text, ActiveAt);
    PutShows(FlatPuts(db, puts), key, text);
  }

  lemma CommittedShows(db: Flat, key: ResourceKey, codec: Codec, p: CommitParams, io: Io)
    requires FlatCommit(db, key, codec, p, io).1.Ok? && FlatCompare(db, key, codec, p.expected, p.next, io) == Ok(false)
    ensures At(FlatCommit(db, key, codec, p, io).0, key, ActiveAt) == Some(PointerText(StampPointer(key, p.next)))
  {
    PlanShape(db, key, codec, p, io);
    var write := FlatSlot(db, key, codec, p.version, p.yaml, io).value;
    var front := if write then VersionPuts(key, p.version, p.yaml) else [];
    ShowsBehindAudit(db, key, codec, front, PointerText(StampPointer(key, p.next)), p.audit);
  }

  /** A plan that moves the pointer writes it just before the audit record. */
  lemma PlanShape(db: Flat, key: ResourceKey, codec: Codec, p: CommitParams, io: Io)
    requires FlatPlan(db, key, codec, p, io).Ok? && FlatCompare(db, key, codec, p.expected, p.next, io) == Ok(false)
    ensures var slot := FlatSlot(db, key, codec, p.version, p.yaml, io);
            && slot.Ok?
            && var front := if slot.value then VersionPuts(key, p.version, p.yaml) else [];
            FlatPlan(db, key, codec, p, io).value == front + PointerPuts(key, p.next) + AuditPuts(key, codec, p.audit)
  {
    assert [] + PointerPuts(key, p.next) == PointerPuts(key, p.next);
  }

  /** The same for a pointer that a rollback or adopt committed. */
  lemma CommittedLoadsIff(db: Flat, key: ResourceKey, audit: AuditRecord -> string, p: CommitParams, io: Io, later: Io)
    requires FlatCommit(db, key, Json(audit), p, io).1.Ok? && later.activeRead
    requires FlatCompare(db, key, Json(audit), p.expected, p.next, io) == Ok(false)
    ensures var db' := FlatCommit(db, key, Json(audit), p, io).0;
            FlatLoadActive(db', key, Json(audit), later) == Ok(StampPointer(key, p.next))
            <==> PointerSurvives(StampPointer(key, p.next))
  {
    var q := StampPointer(key, p.next);
    CommittedShows(db, key, Json(audit), p, io);
    ActiveLoadsIff(FlatCommit(db, key, Json(audit), p, io).0, key, audit, PointerText(q), q, later);
    PointerRoundTripIff(q);
  }
}
