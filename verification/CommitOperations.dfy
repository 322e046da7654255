/** The apply, rollback and adopt operations as the control plane executes them. Each is its actor
    of the commit protocol run to the end, so it keeps a sound store sound and ends as the
    protocol says. */
module CommitOperations {
  import opened Text
  import opened StateKeys
  import opened PolicyRecords
  import opened PolicyStateStore
  import opened CommitProtocol
  import opened CommitOutcomes

  datatype JobState = Queued | Processing | CandidateBuilt | VersionStored | ActivePromoted | JobCommitted | JobFailed

  /** A job the worker executes. */
  class UpdateJob {
    const request: ApplyJob
    var state: JobState
    var candidateGeneration: nat
    var candidatePolicyId: string
    var candidateHash: string
    var failureCode: string

    constructor (request: ApplyJob)
      ensures this.request == request && state == Queued
    {
      this.request := request;
      state, candidateGeneration, candidatePolicyId, candidateHash := Queued, 0, "", "";
      failureCode := "";
    }

    method MakeFailure(code: string) returns (r: Actor)
      modifies this
      ensures r == Failed(code) && failureCode == code && state == JobFailed
      ensures candidateGeneration == old(candidateGeneration) && candidatePolicyId == old(candidatePolicyId)
      ensures candidateHash == old(candidateHash)
    {
      failureCode := code;
      state := JobFailed;
      r := Failed(code);
    }
  }

  /** An apply from its validated base on. */
  function ApplyOn(L: Language, key: ResourceKey, s: Store, job: ApplyJob, base: ActivePointer, io2: Io, io3: Io,
                   io4: Io, ch: Choice)
    : (Store, Actor)
  {
    var a2 := ApplyBuild(L, s, job, base, io2, ch);
    if !a2.ApplyCandidate? then (s, a2) else WriteAndPromote(key, s, a2, io3, io4, ch)
  }

  lemma ApplyEnds(L: Language, key: ResourceKey, s: Store, job: ApplyJob, ios: (Io, Io, Io, Io), ch: Choice)
    ensures ApplyWhole(L, key, s, job, ios, ch) == FourSteps(L, key, s, ApplyStart(job), ios, ch)
    ensures var (t, r) := ApplyWhole(L, key, s, job, ios, ch);
            Lawful(L) && StoreOk(L, s) ==>
              StoreOk(L, t) && Grows(s, t) && ((r.Failed? && OrphanAtMost(s, t)) || Applied(L, s, t, r, job, ch))
  {
    ApplyIsFourSteps(L, key, s, job, ios, ch);
    if Lawful(L) && StoreOk(L, s) {
      ApplyOutcome(L, key, s, job, ios, ch);
    }
  }

  lemma RollbackEnds(L: Language, key: ResourceKey, s: Store, req: RollbackRequest, ios: (Io, Io, Io, Io), ch: Choice)
    ensures RollbackWhole(L, key, s, req, ios, ch) == FourSteps(L, key, s, RollbackStart(req), ios, ch)
    ensures var (t, r) := RollbackWhole(L, key, s, req, ios, ch);
            Lawful(L) && StoreOk(L, s) ==>
              StoreOk(L, t) && Grows(s, t) && ((r.Failed? && t == s) || RolledBack(L, s, t, r, req))
  {
    RollbackIsFourSteps(L, key, s, req, ios, ch);
    if Lawful(L) && StoreOk(L, s) {
      RollbackOutcome(L, key, s, req, ios, ch);
    }
  }

  lemma AdoptEnds(L: Language, key: ResourceKey, s: Store, req: AdoptRequest, ios: (Io, Io, Io, Io), ch: Choice)
    ensures AdoptWhole(L, key, s, req, ios, ch) == FourSteps(L, key, s, AdoptStart(req), ios, ch)
    ensures var (t, r) := AdoptWhole(L, key, s, req, ios, ch);
            Lawful(L) && StoreOk(L, s) ==>
              StoreOk(L, t) && Grows(s, t) && ((r.Failed? && t == s) || Adopted(L, s, t, r, req, ch))
  {
    AdoptIsFourSteps(L, key, s, req, ios, ch);
    if Lawful(L) && StoreOk(L, s) {
      AdoptOutcome(L, key, s, req, ios, ch);
    }
  }

  /** PolicyApplyTransaction::execute. */
  method ExecuteApply(L: Language, db: PolicyStateDb, job: UpdateJob, ios: (Io, Io, Io, Io), ch: Choice)
    returns (r: Actor)
    modifies db, job
    ensures db.open ==> (db.State(), r) == FourSteps(L, db.key, old(db.State()), ApplyStart(job.request), ios, ch)
    ensures !db.open ==> r.Failed? && db.State() == old(db.State())
    ensures db.open && Lawful(L) && StoreOk(L, old(db.State())) ==>
              && StoreOk(L, db.State()) && Grows(old(db.State()), db.State())
              && ((r.Failed? && OrphanAtMost(old(db.State()), db.State()))
                  || Applied(L, old(db.State()), db.State(), r, job.request, ch))
    ensures r.Committed? ==> job.state == JobCommitted
                             && job.candidateGeneration == r.generation && job.candidatePolicyId == r.policyId
    ensures r.Failed? ==> job.state == JobFailed && job.failureCode == r.code
  {
    ApplyEnds(L, db.key, db.State(), job.request, ios, ch);
    job.state := Processing;
    var activeRes := db.LoadActivePointer(ios.0);
    if activeRes.Err? {
      r := job.MakeFailure("POLICY_APPLY_LOAD_ACTIVE_FAILED");
      return;
    }
    var active := activeRes.value;
    if active.generation != job.request.baseGeneration || active.policyId != job.request.basePolicyId {
      r := job.MakeFailure("POLICY_APPLY_BASE_MISMATCH");
      return;
    }
    r := ApplyOnBase(L, db, job, active, ios.1, ios.2, ios.3, ch);
  }

  /** From the validated base to the candidate. */
  method BuildCandidate(L: Language, db: PolicyStateDb, job: UpdateJob, active: ActivePointer, io2: Io, ch: Choice)
    returns (r: Actor)
    requires db.open
    modifies job
    ensures r == ApplyBuild(L, db.State(), job.request, active, io2, ch)
    ensures r.ApplyCandidate? ==>
              job.candidateGeneration == r.version.generation && job.candidatePolicyId == r.version.policyId
    ensures r.Failed? ==> job.state == JobFailed && job.failureCode == r.code
    ensures r.ApplyCandidate? || r.Failed?
  {
    var baseRes := db.LoadPolicyVersion(active.generation, io2);
    if baseRes.Err? || L.load(baseRes.value.yaml).None? {
      r := job.MakeFailure("POLICY_APPLY_LOAD_BASE_FAILED");
      return;
    }
    if ch.candidate.None? {
      r := job.MakeFailure("POLICY_APPLY_COMPILE_FAILED");
      return;
    }
    job.state := CandidateBuilt;
    var roundTrip := RoundTrip(L, ch.candidate.value);
    if roundTrip.None? {
      r := job.MakeFailure("POLICY_APPLY_CANONICALIZE_FAILED");
      return;
    }
    var yaml, document := roundTrip.value.yaml, roundTrip.value.document;
    var policyId := Identity(L, document);
    var hash := L.canonicalHash(yaml);
    var generation := active.generation + 1;
    job.candidateGeneration, job.candidatePolicyId, job.candidateHash := generation, policyId, hash;
    var source := if job.request.sourceType == "" then "taperql-apply" else job.request.sourceType;
    var version := VersionFor(L, active, generation, yaml, hash, document, source, job.request.jobId, ch.now);
    r := ApplyCandidate(job.request, active, version, yaml);
  }

  /** The transaction after its base is validated. */
  method ApplyOnBase(L: Language, db: PolicyStateDb, job: UpdateJob, active: ActivePointer, io2: Io, io3: Io, io4: Io,
                     ch: Choice)
    returns (r: Actor)
    requires db.open
    modifies db, job
    ensures (db.State(), r) == ApplyOn(L, db.key, old(db.State()), job.request, active, io2, io3, io4, ch)
    ensures r.Committed? ==> job.state == JobCommitted
                             && job.candidateGeneration == r.generation && job.candidatePolicyId == r.policyId
    ensures r.Failed? ==> job.state == JobFailed && job.failureCode == r.code
    ensures r.Committed? || r.Failed?
  {
    r := BuildCandidate(L, db, job, active, io2, ch);
    if r.ApplyCandidate? {
      assert r == ApplyCandidate(job.request, active, r.version, r.yaml);
      r := StoreAndPromote(db, job, active, r.version, r.yaml, io3, io4, ch);
    }
  }

  /** The two writes of the transaction. */
  method StoreAndPromote(db: PolicyStateDb, job: UpdateJob, active: ActivePointer, version: VersionRecord, yaml: string,
                         io3: Io, io4: Io, ch: Choice)
    returns (r: Actor)
    requires db.open
    modifies db, job
    ensures (db.State(), r) ==
            WriteAndPromote(db.key, old(db.State()), ApplyCandidate(job.request, active, version, yaml), io3, io4, ch)
    ensures job.candidateGeneration == old(job.candidateGeneration) &&
            job.candidatePolicyId == old(job.candidatePolicyId)
    ensures r.Committed? ==> job.state == JobCommitted && r == Committed(version.generation, version.policyId)
    ensures r.Failed? ==> job.state == JobFailed && job.failureCode == r.code
    ensures r.Committed? || r.Failed?
  {
    var storeRes := db.StorePolicyVersion(version, yaml, io3);
    if storeRes.Err? {
      r := job.MakeFailure("POLICY_APPLY_STORE_VERSION_FAILED");
      return;
    }
    job.state := VersionStored;
    var promoteRes := db.CompareAndPromoteActive(Expect(active), PointerTo(db.key, version, ch.now), io4);
    if promoteRes.Err? {
      r := job.MakeFailure("POLICY_APPLY_PROMOTE_CONFLICT");
      return;
    }
    job.state := ActivePromoted;
    job.state := JobCommitted;
    r := Committed(version.generation, version.policyId);
  }

  /** commit_policy_generation on the audited path. */
  method CommitPolicyGeneration(L: Language, db: PolicyStateDb, a: Actor, io3: Io, io4: Io, ch: Choice)
    returns (r: Actor)
    requires db.open && (a.RollbackTargeted? || a.AdoptResolved?)
    modifies db
    ensures (db.State(), r) == CommitWhole(L, db.key, old(db.State()), a, io3, io4, ch)
  {
    var activeRes := db.LoadActivePointer(io3);
    if activeRes.Err? {
      return Failed("POLICY_APPLY_LOAD_ACTIVE_FAILED");
    }
    var prepared := PrepareCommit(L, db.key, activeRes.value, CommitInputOf(a), AuditOf(a), ch.now);
    if prepared.Refuse? {
      return Failed(prepared.code);
    }
    var params := prepared.value;
    var commitRes := db.CommitPolicyGenerationWithAudit(params, io4);
    if commitRes.Err? {
      return Failed(CommitFailure(commitRes.code));
    }
    r := Committed(params.version.generation, params.version.policyId);
  }

  /** PolicyRollbackOperation::execute. */
  method ExecuteRollback(L: Language, db: PolicyStateDb, req: RollbackRequest, ios: (Io, Io, Io, Io), ch: Choice)
    returns (r: Actor)
    modifies db
    ensures db.open ==> (db.State(), r) == FourSteps(L, db.key, old(db.State()), RollbackStart(req), ios, ch)
    ensures !db.open ==> r.Failed? && db.State() == old(db.State())
    ensures db.open && Lawful(L) && StoreOk(L, old(db.State())) ==>
              && StoreOk(L, db.State()) && Grows(old(db.State()), db.State())
              && ((r.Failed? && db.State() == old(db.State())) || RolledBack(L, old(db.State()), db.State(), r, req))
  {
    RollbackEnds(L, db.key, db.State(), req, ios, ch);
    var activeRes := db.LoadActivePointer(ios.0);
    if activeRes.Err? {
      return Failed("MANUAL_INVALID_REQUEST");
    }
    var active := activeRes.value;
    if active.generation != req.currentGeneration || active.policyId != req.currentPolicyId {
      return Failed("ROLLBACK_EXPECTED_CURRENT_MISMATCH");
    }
    var targetRes := db.LoadPolicyVersion(req.targetGeneration, ios.1);
    if targetRes.Err? {
      return Failed("ROLLBACK_TARGET_NOT_FOUND");
    }
    r := CommitPolicyGeneration(L, db, RollbackTargeted(req, active, targetRes.value), ios.2, ios.3, ch);
  }

  /** resolve_adopt_candidate_generation: the runtime's generation if it is ahead and not stored. */
  method ResolveAdoptGeneration(db: PolicyStateDb, active: nat, hint: nat, io: Io) returns (g: nat)
    requires db.open
    ensures g == AdoptGeneration(db.State(), active, hint, io)
  {
    g := active + 1;
    if hint > active {
      var existing := db.LoadPolicyVersion(hint, io);
      if existing.Err? {
        g := hint;
      }
    }
  }

  /** PolicyAdoptOperation::execute. */
  method ExecuteAdopt(L: Language, db: PolicyStateDb, req: AdoptRequest, ios: (Io, Io, Io, Io), ch: Choice)
    returns (r: Actor)
    modifies db
    ensures db.open ==> (db.State(), r) == FourSteps(L, db.key, old(db.State()), AdoptStart(req), ios, ch)
    ensures !db.open ==> r.Failed? && db.State() == old(db.State())
    ensures db.open && Lawful(L) && StoreOk(L, old(db.State())) ==>
              && StoreOk(L, db.State()) && Grows(old(db.State()), db.State())
              && ((r.Failed? && db.State() == old(db.State())) || Adopted(L, old(db.State()), db.State(), r, req, ch))
  {
    AdoptEnds(L, db.key, db.State(), req, ios, ch);
    var activeRes := db.LoadActivePointer(ios.0);
    if activeRes.Err? {
      return Failed("MANUAL_INVALID_REQUEST");
    }
    var active := activeRes.value;
    if active.generation != req.currentGeneration {
      return Failed("ROLLBACK_EXPECTED_CURRENT_MISMATCH");
    }
    var local := ResolveLocal(L, req, ch.fetched);
    if local.Refuse? {
      return Failed(local.code);
    }
    var candidate := ResolveAdoptGeneration(db, active.generation, local.value.hint, ios.1);
    r := CommitPolicyGeneration(L, db, AdoptResolved(req, active, local.value.yaml, candidate, local.value.reported),
                                ios.2, ios.3, ch);
  }
}
