/** Applies, rollbacks and adopts racing on one resource. Every store operation is one atomic
    step; an actor may be interrupted, or stop for good, between any two of its steps. */
module CommitProtocol {
  import opened Text
  import opened StateKeys
  import opened PolicyRecords
  import opened PolicyStateStore

  // ---- The policy language, left uninterpreted ----

  datatype Document = Document(schemaVersion: nat, apiVersion: string, kind: string, content: string)

  datatype Language = Language(
    load: string -> Option<Document>,
    normalize: Document -> Document,
    emit: Document -> Option<string>,
    fingerprint: Document -> string,
    canonicalHash: string -> string) // the "sha256:" prefix included

  /** What the language is assumed to guarantee: normalizing twice is normalizing once, and
      fingerprints and hashes are never empty. */
  ghost predicate Lawful(L: Language) {
    && (forall d: Document :: L.normalize(L.normalize(d)) == L.normalize(d))
    && (forall d: Document :: L.fingerprint(d) != "")
    && (forall yaml: string :: L.canonicalHash(yaml) != "")
  }

  /** compute_policy_document_identity normalizes before it hashes. */
  function Identity(L: Language, d: Document): string { L.fingerprint(L.normalize(d)) }

  function IdentityOf(L: Language, yaml: string): string {
    match L.load(yaml) case None => "" case Some(d) => Identity(L, d)
  }

  datatype Canonical = Canonical(yaml: string, document: Document)

  /** emit_and_reparse_canonical_policy_yaml. */
  function RoundTrip(L: Language, d: Document): Option<Canonical> {
    match L.emit(L.normalize(d))
    case None => None
    case Some(yaml) =>
      match L.load(yaml)
      case None => None
      case Some(parsed) => Some(Canonical(yaml, L.normalize(parsed)))
  }

  /** The identity computed from a round trip is the identity of the text it leaves behind. */
  lemma RoundTripIdentity(L: Language, d: Document)
    requires Lawful(L) && RoundTrip(L, d).Some?
    ensures L.load(RoundTrip(L, d).value.yaml).Some?
    ensures Identity(L, RoundTrip(L, d).value.document) == IdentityOf(L, RoundTrip(L, d).value.yaml)
  {}

  // ---- Requests ----

  datatype ApplyJob = ApplyJob(jobId: string, sourceType: string, baseGeneration: nat, basePolicyId: string)

  datatype RollbackRequest = RollbackRequest(
    requestId: string, targetGeneration: nat, currentGeneration: nat, currentPolicyId: string)

  datatype AdoptRequest = AdoptRequest(
    requestId: string, currentGeneration: nat, localGeneration: nat, localPolicyId: string, localHash: string)

  /** A runtime's answer to the local policy fetch. */
  datatype Fetched = Fetched(yaml: string, localGeneration: nat)

  datatype Resolved = Resolved(yaml: string, hint: nat, reported: nat)

  /** What the world contributes to a step: the candidate the compiler built, the fetched local
      policy, and the clock. */
  datatype Choice = Choice(candidate: Option<Document>, fetched: Option<Fetched>, now: nat)

  /** A local computation that may refuse with an error code. */
  datatype Checked<+T> = Pass(value: T) | Refuse(code: string)

  // ---- Building records ----

  function VersionFor(L: Language, base: ActivePointer, generation: nat, yaml: string, hash: string, d: Document,
                      sourceType: string, applyId: string, now: nat): VersionRecord {
    VersionRecord("PolicyVersionRecord", 1, "", generation, Identity(L, d), hash, d.schemaVersion, d.apiVersion,
                  d.kind, "", sourceType, applyId, base.generation, base.policyId, now)
  }

  function PointerTo(key: ResourceKey, v: VersionRecord, now: nat): ActivePointer {
    ActivePointer("ActivePolicyPointer", 1, "", v.generation, v.policyId, v.canonicalHash, v.schemaVersion,
                  v.apiVersion, v.kind, VersionKey(key, v.generation), YamlKey(key, v.generation), v.sourceType,
                  v.applyId, v.previousGeneration, v.previousPolicyId, now)
  }

  datatype CommitInput = CommitInput(
    expected: ExpectedActive,
    yaml: string,
    preserve: bool,
    hashOverride: string,
    generationOverride: nat,
    sourceType: string,
    applyId: string)

  /** The part of commit_policy_generation between reading the pointer and the atomic batch. */
  function PrepareCommit(L: Language, key: ResourceKey, active: ActivePointer, input: CommitInput,
                         audit: AuditRecord, now: nat): Checked<CommitParams> {
    if active.generation != input.expected.generation || active.policyId != input.expected.policyId then
      Refuse("MANUAL_OPERATION_PROMOTE_CONFLICT")
    else
      match L.load(input.yaml)
      case None => Refuse("ADOPT_LOCAL_POLICY_INVALID")
      case Some(loaded) =>
        var stored := if input.preserve then Some(Canonical(input.yaml, loaded)) else RoundTrip(L, loaded);
        match stored
        case None => Refuse("ADOPT_LOCAL_POLICY_INVALID")
        case Some(c) =>
          var hash := if input.hashOverride == "" then L.canonicalHash(c.yaml) else input.hashOverride;
          var generation := if input.generationOverride != 0 then input.generationOverride else active.generation + 1;
          var source := if input.sourceType == "" then "unknown" else input.sourceType;
          var v := VersionFor(L, active, generation, c.yaml, hash, c.document, source, input.applyId, now);
          Pass(CommitParams(v, c.yaml, input.expected, PointerTo(key, v, now),
                            audit.(generation := generation, afterGeneration := generation, policyId := v.policyId)))
  }

  function NormalizeHash(hash: string): string {
    if OccursAt(hash, "sha256:", 0) || hash == "" then hash else "sha256:" + hash
  }

  /** fetch_local_policy: canonicalize what the runtime sent and hold it against the request. */
  function ResolveLocal(L: Language, req: AdoptRequest, fetched: Option<Fetched>): Checked<Resolved> {
    if fetched.None? || fetched.value.yaml == "" then Refuse("ADOPT_LOCAL_POLICY_UNAVAILABLE")
    else
      match L.load(fetched.value.yaml)
      case None => Refuse("ADOPT_LOCAL_POLICY_INVALID")
      case Some(d) =>
        match RoundTrip(L, d)
        case None => Refuse("ADOPT_LOCAL_POLICY_INVALID")
        case Some(c) =>
          if req.localPolicyId != "" && req.localPolicyId != Identity(L, c.document) then
            Refuse("ADOPT_LOCAL_POLICY_INVALID")
          else if req.localHash != "" && NormalizeHash(req.localHash) != L.canonicalHash(c.yaml) then
            Refuse("ADOPT_LOCAL_POLICY_INVALID")
          else
            var g := if fetched.value.localGeneration != 0 then fetched.value.localGeneration else req.localGeneration;
            Pass(Resolved(c.yaml, g, g))
  }

  /** The hinted generation if it is ahead and free, or else the next one. */
  function FreeGeneration(active: nat, hint: nat, free: bool): (g: nat)
    ensures g > active
  {
    if hint > active && free then hint else active + 1
  }

  /** resolve_adopt_candidate_generation. */
  function AdoptGeneration(s: Store, active: nat, hint: nat, io: Io): (g: nat)
    ensures g > active
  {
    FreeGeneration(active, hint, LoadVersion(s, hint, io).Err?)
  }

  // ---- Actors ----

  datatype Origin = FromRollback(target: nat) | FromAdopt

  datatype Actor =
    | ApplyStart(job: ApplyJob)
    | ApplyBased(job: ApplyJob, base: ActivePointer)
    | ApplyCandidate(job: ApplyJob, base: ActivePointer, version: VersionRecord, yaml: string)
    | ApplyStored(job: ApplyJob, base: ActivePointer, version: VersionRecord, yaml: string)
    | RollbackStart(rollback: RollbackRequest)
    | RollbackBased(rollback: RollbackRequest, base: ActivePointer)
    | RollbackTargeted(rollback: RollbackRequest, base: ActivePointer, target: Version)
    | AdoptStart(adopt: AdoptRequest)
    | AdoptBased(adopt: AdoptRequest, base: ActivePointer)
    | AdoptResolved(adopt: AdoptRequest, base: ActivePointer, yaml: string, generation: nat, reported: nat)
    | Committing(origin: Origin, base: ActivePointer, params: CommitParams)
    | Committed(generation: nat, policyId: string)
    | Failed(code: string)

  predicate IsStart(a: Actor) { a.ApplyStart? || a.RollbackStart? || a.AdoptStart? }

  predicate IsApply(a: Actor) { a.ApplyStart? || a.ApplyBased? || a.ApplyCandidate? || a.ApplyStored? }

  predicate IsFinished(a: Actor) { a.Committed? || a.Failed? }

  // Each step continues from the answer of the one store operation it makes.

  function ApplyOnActive(job: ApplyJob, answer: Result<ActivePointer>): Actor {
    match answer
    case Err(_) => Failed("POLICY_APPLY_LOAD_ACTIVE_FAILED")
    case Ok(active) =>
      if active.generation != job.baseGeneration || active.policyId != job.basePolicyId then
        Failed("POLICY_APPLY_BASE_MISMATCH")
      else ApplyBased(job, active)
  }

  function ApplyReadActive(s: Store, job: ApplyJob, io: Io): Actor { ApplyOnActive(job, LoadActive(s, io)) }

  function ApplyOnVersion(L: Language, job: ApplyJob, base: ActivePointer, answer: Result<Version>, ch: Choice): Actor {
    match answer
    case Err(_) => Failed("POLICY_APPLY_LOAD_BASE_FAILED")
    case Ok(v) =>
      if L.load(v.yaml).None? then Failed("POLICY_APPLY_LOAD_BASE_FAILED")
      else if ch.candidate.None? then Failed("POLICY_APPLY_COMPILE_FAILED")
      else
        match RoundTrip(L, ch.candidate.value)
        case None => Failed("POLICY_APPLY_CANONICALIZE_FAILED")
        case Some(c) =>
          var source := if job.sourceType == "" then "taperql-apply" else job.sourceType;
          ApplyCandidate(job, base,
                         VersionFor(L, base, base.generation + 1, c.yaml, L.canonicalHash(c.yaml), c.document,
                                    source, job.jobId, ch.now), c.yaml)
  }

  function ApplyBuild(L: Language, s: Store, job: ApplyJob, base: ActivePointer, io: Io, ch: Choice): Actor {
    ApplyOnVersion(L, job, base, LoadVersion(s, base.generation, io), ch)
  }

  function ApplyOnStored(a: Actor, answer: Result<()>): Actor
    requires a.ApplyCandidate?
  {
    match answer
    case Err(_) => Failed("POLICY_APPLY_STORE_VERSION_FAILED")
    case Ok(_) => ApplyStored(a.job, a.base, a.version, a.yaml)
  }

  function ApplyWrite(key: ResourceKey, s: Store, a: Actor, io: Io): (Store, Actor)
    requires a.ApplyCandidate?
  {
    var (s', r) := StoreVersion(s, key, a.version, a.yaml, io);
    (s', ApplyOnStored(a, r))
  }

  function Expect(p: ActivePointer): ExpectedActive { ExpectedActive(p.generation, p.policyId) }

  function ApplyOnPromoted(a: Actor, answer: Result<Promotion>): Actor
    requires a.ApplyStored?
  {
    match answer
    case Err(_) => Failed("POLICY_APPLY_PROMOTE_CONFLICT")
    case Ok(_) => Committed(a.version.generation, a.version.policyId)
  }

  function ApplyPromote(key: ResourceKey, s: Store, a: Actor, io: Io, ch: Choice): (Store, Actor)
    requires a.ApplyStored?
  {
    var (s', r) := Promote(s, key, Expect(a.base), PointerTo(key, a.version, ch.now), io);
    (s', ApplyOnPromoted(a, r))
  }

  function RollbackOnActive(req: RollbackRequest, answer: Result<ActivePointer>): Actor {
    match answer
    case Err(_) => Failed("MANUAL_INVALID_REQUEST")
    case Ok(active) =>
      if active.generation != req.currentGeneration || active.policyId != req.currentPolicyId then
        Failed("ROLLBACK_EXPECTED_CURRENT_MISMATCH")
      else RollbackBased(req, active)
  }

  function RollbackReadActive(s: Store, req: RollbackRequest, io: Io): Actor {
    RollbackOnActive(req, LoadActive(s, io))
  }

  function RollbackOnTarget(req: RollbackRequest, base: ActivePointer, answer: Result<Version>): Actor {
    match answer
    case Err(_) => Failed("ROLLBACK_TARGET_NOT_FOUND")
    case Ok(v) => RollbackTargeted(req, base, v)
  }

  function RollbackReadTarget(s: Store, req: RollbackRequest, base: ActivePointer, io: Io): Actor {
    RollbackOnTarget(req, base, LoadVersion(s, req.targetGeneration, io))
  }

  function AdoptOnActive(req: AdoptRequest, answer: Result<ActivePointer>): Actor {
    match answer
    case Err(_) => Failed("MANUAL_INVALID_REQUEST")
    case Ok(active) =>
      if active.generation != req.currentGeneration then Failed("ROLLBACK_EXPECTED_CURRENT_MISMATCH")
      else AdoptBased(req, active)
  }

  function AdoptReadActive(s: Store, req: AdoptRequest, io: Io): Actor { AdoptOnActive(req, LoadActive(s, io)) }

  function AdoptOnHint(req: AdoptRequest, base: ActivePointer, local: Checked<Resolved>, free: bool): Actor {
    match local
    case Refuse(code) => Failed(code)
    case Pass(r) => AdoptResolved(req, base, r.yaml, FreeGeneration(base.generation, r.hint, free), r.reported)
  }

  function AdoptResolve(L: Language, s: Store, req: AdoptRequest, base: ActivePointer, io: Io, ch: Choice): Actor {
    var local := ResolveLocal(L, req, ch.fetched);
    AdoptOnHint(req, base, local, local.Pass? && LoadVersion(s, local.value.hint, io).Err?)
  }

  function ManualAudit(requestId: string, operation: string, before: nat, target: nat): AuditRecord {
    AuditRecord(requestId, "", target, "", before, target, target, operation)
  }

  function CommitInputOf(a: Actor): CommitInput
    requires a.RollbackTargeted? || a.AdoptResolved?
  {
    match a
    case RollbackTargeted(req, base, target) =>
      CommitInput(Expect(base), target.yaml, true, target.record.canonicalHash, 0, "rollback", req.requestId)
    case AdoptResolved(req, base, yaml, g, _) =>
      CommitInput(Expect(base), yaml, false, "", g, "manual-adopt", req.requestId)
  }

  function AuditOf(a: Actor): AuditRecord
    requires a.RollbackTargeted? || a.AdoptResolved?
  {
    match a
    case RollbackTargeted(req, base, _) =>
      ManualAudit(req.requestId, "rollback", base.generation, req.targetGeneration)
    case AdoptResolved(req, _, _, _, reported) =>
      ManualAudit(req.requestId, "adopt-local", req.currentGeneration, reported)
  }

  function OriginOf(a: Actor): Origin
    requires a.RollbackTargeted? || a.AdoptResolved?
  {
    if a.RollbackTargeted? then FromRollback(a.rollback.targetGeneration) else FromAdopt
  }

  function RereadOnActive(L: Language, key: ResourceKey, a: Actor, answer: Result<ActivePointer>, ch: Choice): Actor
    requires a.RollbackTargeted? || a.AdoptResolved?
  {
    match answer
    case Err(_) => Failed("POLICY_APPLY_LOAD_ACTIVE_FAILED")
    case Ok(active) =>
      match PrepareCommit(L, key, active, CommitInputOf(a), AuditOf(a), ch.now)
      case Refuse(code) => Failed(code)
      case Pass(p) => Committing(OriginOf(a), active, p)
  }

  /** commit_policy_generation reads the pointer a second time before it prepares the batch. */
  function Reread(L: Language, key: ResourceKey, s: Store, a: Actor, io: Io, ch: Choice): Actor
    requires a.RollbackTargeted? || a.AdoptResolved?
  {
    RereadOnActive(L, key, a, LoadActive(s, io), ch)
  }

  /** How commit_policy_generation reports a failed batch. */
  function CommitFailure(code: ErrorCode): string {
    match code
    case AuditWriteFailed => "MANUAL_AUDIT_WRITE_FAILED"
    case VersionConflict => "MANUAL_OPERATION_PROMOTE_CONFLICT"
    case ActivePointerConflict => "MANUAL_OPERATION_PROMOTE_CONFLICT"
    case DbOpenFailed => "POLICY_APPLY_STORE_VERSION_FAILED"
    case DbWriteFailed => "POLICY_APPLY_STORE_VERSION_FAILED"
    case DbReadFailed => "POLICY_APPLY_STORE_VERSION_FAILED"
    case _ => "POLICY_APPLY_PROMOTE_CONFLICT"
  }

  function CommitOnWritten(a: Actor, answer: Result<()>): Actor
    requires a.Committing?
  {
    match answer
    case Err(code) => Failed(CommitFailure(code))
    case Ok(_) => Committed(a.params.version.generation, a.params.version.policyId)
  }

  function CommitStep(key: ResourceKey, s: Store, a: Actor, io: Io): (Store, Actor)
    requires a.Committing?
  {
    var (s', r) := CommitWithAudit(s, key, a.params, io);
    (s', CommitOnWritten(a, r))
  }

  /** One atomic step of one actor. */
  function StepActor(L: Language, key: ResourceKey, s: Store, a: Actor, io: Io, ch: Choice): (Store, Actor) {
    match a
    case ApplyStart(job) => (s, ApplyReadActive(s, job, io))
    case ApplyBased(job, base) => (s, ApplyBuild(L, s, job, base, io, ch))
    case ApplyCandidate(_, _, _, _) => ApplyWrite(key, s, a, io)
    case ApplyStored(_, _, _, _) => ApplyPromote(key, s, a, io, ch)
    case RollbackStart(req) => (s, RollbackReadActive(s, req, io))
    case RollbackBased(req, base) => (s, RollbackReadTarget(s, req, base, io))
    case RollbackTargeted(_, _, _) => (s, Reread(L, key, s, a, io, ch))
    case AdoptStart(req) => (s, AdoptReadActive(s, req, io))
    case AdoptBased(req, base) => (s, AdoptResolve(L, s, req, base, io, ch))
    case AdoptResolved(_, _, _, _, _) => (s, Reread(L, key, s, a, io, ch))
    case Committing(_, _, _) => CommitStep(key, s, a, io)
    case Committed(_, _) => (s, a)
    case Failed(_) => (s, a)
  }

  // ---- Runs ----

  datatype Config = Config(store: Store, actors: map<nat, Actor>)

  datatype Step = Spawn(id: nat, actor: Actor) | Act(id: nat, io: Io, choice: Choice)

  function Exec(L: Language, key: ResourceKey, c: Config, step: Step): Config {
    match step
    case Spawn(id, a) =>
      if id !in c.actors && IsStart(a) then c.(actors := c.actors[id := a]) else c
    case Act(id, io, ch) =>
      if id !in c.actors then c
      else
        var (s', a') := StepActor(L, key, c.store, c.actors[id], io, ch);
        Config(s', c.actors[id := a'])
  }

  function Run(L: Language, key: ResourceKey, c: Config, steps: seq<Step>): Config {
    if steps == [] then c else Exec(L, key, Run(L, key, c, steps[..|steps| - 1]), steps[|steps| - 1])
  }

  /** One consistent version, the pointer to it, and no actor yet. */
  ghost predicate Initial(L: Language, key: ResourceKey, c: Config) {
    && c.actors == map[]
    && c.store.active.Some?
    && var p := c.store.active.value;
    && c.store.versions.Keys == {p.generation} == c.store.yamls.Keys
    && Consistent(L, c.store)
  }

  // ---- What every reachable state satisfies ----

  /** A record describes the text beside it. */
  ghost predicate Describes(L: Language, v: VersionRecord, yaml: string) {
    && ReadableVersion(v)
    && L.load(yaml).Some?
    && v.policyId == IdentityOf(L, yaml)
    && v.canonicalHash == L.canonicalHash(yaml)
  }

  /** The active pointer names a stored version and text, and all three agree. */
  ghost predicate Consistent(L: Language, s: Store) {
    && s.active.Some?
    && var p := s.active.value;
    && ReadablePointer(p)
    && p.generation in s.versions && p.generation in s.yamls
    && var v := s.versions[p.generation];
    && Describes(L, v, s.yamls[p.generation])
    && v.generation == p.generation
    && p.canonicalHash == v.canonicalHash
    && p.policyId == v.policyId
  }

  /** Every stored version, orphans included, describes its text and is at most one ahead. */
  ghost predicate VersionsOk(L: Language, s: Store)
    requires s.active.Some?
  {
    && (forall g :: g in s.versions <==> g in s.yamls)
    && (forall g :: g in s.versions ==> VersionOk(L, s.versions[g], s.yamls[g], g, s.active.value.generation))
  }

  ghost predicate VersionOk(L: Language, v: VersionRecord, yaml: string, g: nat, active: nat) {
    Describes(L, v, yaml) && v.generation == g && g <= active + 1
  }

  ghost predicate StoreOk(L: Language, s: Store) {
    Consistent(L, s) && VersionsOk(L, s)
  }

  /** The pointer an actor read is the current one or an older generation. */
  predicate BaseOk(s: Store, base: ActivePointer) {
    && s.active.Some?
    && base.generation <= s.active.value.generation
    && (base.generation == s.active.value.generation ==> base == s.active.value)
  }

  /** A candidate built on a base. */
  ghost predicate CandidateOk(L: Language, base: ActivePointer, v: VersionRecord, yaml: string) {
    && Describes(L, v, yaml)
    && v.generation > base.generation
    && v.previousGeneration == base.generation
    && v.previousPolicyId == base.policyId
  }

  ghost predicate ParamsOk(L: Language, key: ResourceKey, base: ActivePointer, p: CommitParams) {
    && CandidateOk(L, base, p.version, p.yaml)
    && p.expected == Expect(base)
    && p.next == PointerTo(key, p.version, p.next.committedAt)
    && p.audit.generation == p.version.generation == p.audit.afterGeneration
    && p.audit.policyId == p.version.policyId
  }

  ghost predicate TextAt(s: Store, generation: nat, yaml: string) {
    generation in s.yamls && s.yamls[generation] == yaml
  }

  ghost predicate ActorOk(L: Language, key: ResourceKey, s: Store, a: Actor) {
    match a
    case ApplyBased(_, base) => BaseOk(s, base)
    case ApplyCandidate(_, base, v, yaml) =>
      BaseOk(s, base) && CandidateOk(L, base, v, yaml) && v.generation == base.generation + 1
    case ApplyStored(_, base, v, yaml) =>
      && BaseOk(s, base) && CandidateOk(L, base, v, yaml) && v.generation == base.generation + 1
      && v.generation in s.versions && TextAt(s, v.generation, yaml)
    case RollbackBased(_, base) => BaseOk(s, base)
    case RollbackTargeted(req, base, t) =>
      BaseOk(s, base) && Describes(L, t.record, t.yaml) && TextAt(s, req.targetGeneration, t.yaml)
    case AdoptBased(_, base) => BaseOk(s, base)
    case AdoptResolved(_, base, _, g, _) => BaseOk(s, base) && g > base.generation
    case Committing(origin, base, p) =>
      && BaseOk(s, base) && ParamsOk(L, key, base, p)
      && (origin.FromRollback? ==> p.version.generation == base.generation + 1 && TextAt(s, origin.target, p.yaml))
    case _ => true
  }

  ghost predicate Inv(L: Language, key: ResourceKey, c: Config) {
    && StoreOk(L, c.store)
    && (forall id :: id in c.actors ==> ActorOk(L, key, c.store, c.actors[id]))
  }

  /** How the store may change: versions and texts are kept, the pointer stays or moves up. */
  ghost predicate Grows(s: Store, t: Store) {
    && (forall g :: g in s.versions ==> g in t.versions && t.versions[g] == s.versions[g])
    && (forall g :: g in s.yamls ==> g in t.yamls && t.yamls[g] == s.yamls[g])
    && s.active.Some? && t.active.Some?
    && (t.active == s.active || s.active.value.generation < t.active.value.generation)
  }

  /** What one actor knows survives whatever the others do. */
  lemma ActorStable(L: Language, key: ResourceKey, s: Store, t: Store, a: Actor)
    requires Grows(s, t) && ActorOk(L, key, s, a)
    ensures ActorOk(L, key, t, a)
  {}

  lemma AddVersionKeeps(L: Language, s: Store, v: VersionRecord, yaml: string)
    requires StoreOk(L, s) && Describes(L, v, yaml)
    requires v.generation !in s.versions && v.generation <= s.active.value.generation + 1
    ensures var t := s.(versions := s.versions[v.generation := v], yamls := s.yamls[v.generation := yaml]);
            StoreOk(L, t) && Grows(s, t)
  {
  }

  /** A version slot that is not free holds the same text under an agreeing record. */
  lemma SlotTaken(L: Language, s: Store, v: VersionRecord, yaml: string, io: Io)
    requires StoreOk(L, s) && Describes(L, v, yaml) && VersionSlot(s, v, yaml, io) == Ok(false)
    ensures v.generation in s.versions && TextAt(s, v.generation, yaml)
    ensures s.versions[v.generation].canonicalHash == v.canonicalHash
    ensures s.versions[v.generation].policyId == v.policyId
  {}

  lemma StoreVersionKeeps(L: Language, key: ResourceKey, s: Store, v: VersionRecord, yaml: string, io: Io)
    requires StoreOk(L, s) && Describes(L, v, yaml) && v.generation <= s.active.value.generation + 1
    ensures var (t, r) := StoreVersion(s, key, v, yaml, io);
            && StoreOk(L, t) && Grows(s, t) && t.active == s.active
            && (r.Ok? ==> v.generation in t.versions && TextAt(t, v.generation, yaml))
  {
    match VersionSlot(s, v, yaml, io)
    case Err(_) =>
    case Ok(false) => SlotTaken(L, s, v, yaml, io);
    case Ok(true) =>
      assert Describes(L, StampVersion(key, v), yaml);
      AddVersionKeeps(L, s, StampVersion(key, v), yaml);
  }

  lemma WriteKeeps(L: Language, key: ResourceKey, s: Store, a: Actor, io: Io)
    requires StoreOk(L, s) && a.ApplyCandidate? && ActorOk(L, key, s, a)
    ensures var (t, a') := ApplyWrite(key, s, a, io);
            StoreOk(L, t) && Grows(s, t) && t.active == s.active && ActorOk(L, key, t, a')
  {
    StoreVersionKeeps(L, key, s, a.version, a.yaml, io);
    ActorStable(L, key, s, StoreVersion(s, key, a.version, a.yaml, io).0, a);
  }

  /** A new pointer goes to a stored version above the old pointer. */
  predicate Reaches(s: Store, next: ActivePointer) {
    && s.active.Some? && next.generation > s.active.value.generation
    && ReadablePointer(next)
    && next.generation in s.versions
    && next.canonicalHash == s.versions[next.generation].canonicalHash
    && next.policyId == s.versions[next.generation].policyId
  }

  lemma MovePointerKeeps(L: Language, s: Store, next: ActivePointer)
    requires StoreOk(L, s) && Reaches(s, next)
    ensures StoreOk(L, s.(active := Some(next))) && Grows(s, s.(active := Some(next)))
  {}

  /** A passed comparison leaves no doubt about the base. */
  lemma CompareMeansBase(s: Store, base: ActivePointer, next: ActivePointer, io: Io)
    requires BaseOk(s, base)
    requires ComparePointer(s, Expect(base), next, io) == Ok(false)
    ensures s.active == Some(base)
  {}

  lemma PromoteKeeps(L: Language, key: ResourceKey, s: Store, base: ActivePointer, next: ActivePointer, io: Io)
    requires StoreOk(L, s) && BaseOk(s, base)
    requires next.generation > base.generation
    requires s.active == Some(base) ==> Reaches(s, StampPointer(key, next))
    ensures var t := Promote(s, key, Expect(base), next, io).0; StoreOk(L, t) && Grows(s, t)
  {
    if ComparePointer(s, Expect(base), next, io) == Ok(false) {
      CompareMeansBase(s, base, next, io);
      MovePointerKeeps(L, s, StampPointer(key, next));
    }
  }

  lemma PromoteStepKeeps(L: Language, key: ResourceKey, s: Store, a: Actor, io: Io, ch: Choice)
    requires StoreOk(L, s) && a.ApplyStored? && ActorOk(L, key, s, a)
    ensures var (t, a') := ApplyPromote(key, s, a, io, ch);
            StoreOk(L, t) && Grows(s, t) && ActorOk(L, key, t, a')
  {
    PromoteKeeps(L, key, s, a.base, PointerTo(key, a.version, ch.now), io);
  }

  /** Moving version, text and pointer together, as one batch does. */
  lemma CommitVersionKeeps(L: Language, s: Store, v: VersionRecord, yaml: string, next: ActivePointer)
    requires StoreOk(L, s) && Describes(L, v, yaml) && v.generation > s.active.value.generation
    requires v.generation !in s.versions
    requires ReadablePointer(next) && next.generation == v.generation
    requires next.canonicalHash == v.canonicalHash && next.policyId == v.policyId
    ensures var t := s.(versions := s.versions[v.generation := v], yamls := s.yamls[v.generation := yaml],
                        active := Some(next));
            StoreOk(L, t) && Grows(s, t)
  {
  }

  lemma AuditKeeps(L: Language, key: ResourceKey, s: Store, t: Store, a: AuditRecord)
    requires StoreOk(L, t) && Grows(s, t)
    ensures StoreOk(L, PutAudit(t, key, a)) && Grows(s, PutAudit(t, key, a))
  {}

  lemma CommitKeeps(L: Language, key: ResourceKey, s: Store, base: ActivePointer, p: CommitParams, io: Io)
    requires StoreOk(L, s) && BaseOk(s, base) && ParamsOk(L, key, base, p)
    ensures var t := CommitWithAudit(s, key, p, io).0; StoreOk(L, t) && Grows(s, t)
  {
    match CommitChecks(s, key, p, io)
    case Err(_) =>
    case Ok(true) => AuditKeeps(L, key, s, s, p.audit);
    case Ok(false) =>
      CompareMeansBase(s, base, p.next, io);
      CommitMoves(L, key, s, base, p, io);
  }

  /** The batch of a commit whose checks passed. */
  lemma CommitMoves(L: Language, key: ResourceKey, s: Store, base: ActivePointer, p: CommitParams, io: Io)
    requires StoreOk(L, s) && s.active == Some(base) && ParamsOk(L, key, base, p)
    requires CommitChecks(s, key, p, io) == Ok(false)
    ensures var t := CommitWithAudit(s, key, p, io).0; StoreOk(L, t) && Grows(s, t)
  {
    var next := StampPointer(key, p.next);
    var v := StampVersion(key, p.version);
    if p.version.generation !in s.versions {
      assert Describes(L, v, p.yaml) && v.generation == p.version.generation;
      CommitVersionKeeps(L, s, v, p.yaml, next);
      AuditKeeps(L, key, s, PutVersion(s, key, p.version, p.yaml).(active := Some(next)), p.audit);
    } else {
      SlotTaken(L, s, p.version, p.yaml, io);
      MovePointerKeeps(L, s, next);
      AuditKeeps(L, key, s, s.(active := Some(next)), p.audit);
    }
  }

  lemma ReadActiveOk(L: Language, s: Store, io: Io)
    requires StoreOk(L, s) && LoadActive(s, io).Ok?
    ensures BaseOk(s, LoadActive(s, io).value)
  {}

  lemma BuildOk(L: Language, key: ResourceKey, s: Store, job: ApplyJob, base: ActivePointer, io: Io, ch: Choice)
    requires Lawful(L) && BaseOk(s, base)
    ensures ActorOk(L, key, s, ApplyBuild(L, s, job, base, io, ch))
  {
    if ch.candidate.Some? && RoundTrip(L, ch.candidate.value).Some? {
      RoundTripIdentity(L, ch.candidate.value);
    }
  }

  /** Whatever passes the second look at the pointer is a well-formed commit on that pointer. */
  lemma PrepareOk(L: Language, key: ResourceKey, base: ActivePointer, input: CommitInput, audit: AuditRecord, now: nat)
    requires Lawful(L) && PrepareCommit(L, key, base, input, audit, now).Pass?
    requires input.generationOverride == 0 || input.generationOverride > base.generation
    requires input.hashOverride == "" || (input.preserve && input.hashOverride == L.canonicalHash(input.yaml))
    ensures var p := PrepareCommit(L, key, base, input, audit, now).value;
            && ParamsOk(L, key, base, p)
            && (input.preserve ==> p.yaml == input.yaml)
            && (input.generationOverride == 0 ==> p.version.generation == base.generation + 1)
  {
    var loaded := L.load(input.yaml).value;
    if !input.preserve {
      RoundTripIdentity(L, loaded);
    }
  }

  lemma RereadOk(L: Language, key: ResourceKey, s: Store, a: Actor, io: Io, ch: Choice)
    requires Lawful(L) && StoreOk(L, s) && (a.RollbackTargeted? || a.AdoptResolved?) && ActorOk(L, key, s, a)
    ensures ActorOk(L, key, s, Reread(L, key, s, a, io, ch))
  {
    if LoadActive(s, io).Ok? {
      var active := LoadActive(s, io).value;
      ReadActiveOk(L, s, io);
      var input, audit := CommitInputOf(a), AuditOf(a);
      var r := PrepareCommit(L, key, active, input, audit, ch.now);
      if r.Pass? {
        assert active.generation == a.base.generation;
        PrepareOk(L, key, active, input, audit, ch.now);
        assert ActorOk(L, key, s, Committing(OriginOf(a), active, r.value));
      }
    }
  }

  lemma ReadApplyOk(L: Language, key: ResourceKey, s: Store, job: ApplyJob, io: Io)
    requires StoreOk(L, s)
    ensures ActorOk(L, key, s, ApplyReadActive(s, job, io))
  {}

  lemma ReadRollbackOk(L: Language, key: ResourceKey, s: Store, req: RollbackRequest, io: Io)
    requires StoreOk(L, s)
    ensures ActorOk(L, key, s, RollbackReadActive(s, req, io))
  {}

  lemma ReadTargetOk(L: Language, key: ResourceKey, s: Store, req: RollbackRequest, base: ActivePointer, io: Io)
    requires StoreOk(L, s) && BaseOk(s, base)
    ensures ActorOk(L, key, s, RollbackReadTarget(s, req, base, io))
  {}

  lemma ReadAdoptOk(L: Language, key: ResourceKey, s: Store, req: AdoptRequest, io: Io)
    requires StoreOk(L, s)
    ensures ActorOk(L, key, s, AdoptReadActive(s, req, io))
  {}

  lemma ResolveOk(L: Language, key: ResourceKey, s: Store, req: AdoptRequest, base: ActivePointer, io: Io, ch: Choice)
    requires BaseOk(s, base)
    ensures ActorOk(L, key, s, AdoptResolve(L, s, req, base, io, ch))
  {}

  /** One step keeps the store sound, only adds to it, and leaves the actor sound. */
  ghost predicate StepSound(L: Language, key: ResourceKey, s: Store, r: (Store, Actor)) {
    StoreOk(L, r.0) && Grows(s, r.0) && ActorOk(L, key, r.0, r.1)
  }

  lemma ApplyStepKeeps(L: Language, key: ResourceKey, s: Store, a: Actor, io: Io, ch: Choice)
    requires Lawful(L) && StoreOk(L, s) && ActorOk(L, key, s, a) && IsApply(a)
    ensures StepSound(L, key, s, StepActor(L, key, s, a, io, ch))
  {
    match a
    case ApplyStart(job) => ReadApplyOk(L, key, s, job, io);
    case ApplyBased(job, base) => BuildOk(L, key, s, job, base, io, ch);
    case ApplyCandidate(_, _, _, _) => WriteKeeps(L, key, s, a, io);
    case ApplyStored(_, _, _, _) => PromoteStepKeeps(L, key, s, a, io, ch);
  }

  lemma ManualReadKeeps(L: Language, key: ResourceKey, s: Store, a: Actor, io: Io, ch: Choice)
    requires Lawful(L) && StoreOk(L, s) && ActorOk(L, key, s, a)
    requires !IsApply(a) && !IsFinished(a) && !a.Committing?
    ensures StepSound(L, key, s, StepActor(L, key, s, a, io, ch))
  {
    match a
    case RollbackStart(req) => ReadRollbackOk(L, key, s, req, io);
    case RollbackBased(req, base) => ReadTargetOk(L, key, s, req, base, io);
    case RollbackTargeted(_, _, _) => RereadOk(L, key, s, a, io, ch);
    case AdoptStart(req) => ReadAdoptOk(L, key, s, req, io);
    case AdoptBased(req, base) => ResolveOk(L, key, s, req, base, io, ch);
    case AdoptResolved(_, _, _, _, _) => RereadOk(L, key, s, a, io, ch);
  }

  lemma CommitStepKeeps(L: Language, key: ResourceKey, s: Store, a: Actor, io: Io, ch: Choice)
    requires StoreOk(L, s) && ActorOk(L, key, s, a) && a.Committing?
    ensures StepSound(L, key, s, StepActor(L, key, s, a, io, ch))
  {
    CommitKeeps(L, key, s, a.base, a.params, io);
    CommitFinishes(key, s, a, io);
    assert StepActor(L, key, s, a, io, ch) == CommitStep(key, s, a, io);
  }

  lemma CommitFinishes(key: ResourceKey, s: Store, a: Actor, io: Io)
    requires a.Committing?
    ensures IsFinished(CommitStep(key, s, a, io).1)
  {
  }

  lemma FinishedStepKeeps(L: Language, key: ResourceKey, s: Store, a: Actor, io: Io, ch: Choice)
    requires StoreOk(L, s) && IsFinished(a)
    ensures StepSound(L, key, s, StepActor(L, key, s, a, io, ch))
  {
    assert StepActor(L, key, s, a, io, ch) == (s, a);
  }

  /** Every step of every actor is sound. */
  lemma StepKeeps(L: Language, key: ResourceKey, s: Store, a: Actor, io: Io, ch: Choice)
    requires Lawful(L) && StoreOk(L, s) && ActorOk(L, key, s, a)
    ensures StepSound(L, key, s, StepActor(L, key, s, a, io, ch))
  {
    if IsApply(a) {
      ApplyStepKeeps(L, key, s, a, io, ch);
    } else if a.Committing? {
      CommitStepKeeps(L, key, s, a, io, ch);
    } else if IsFinished(a) {
      FinishedStepKeeps(L, key, s, a, io, ch);
    } else {
      ManualReadKeeps(L, key, s, a, io, ch);
    }
  }
}
