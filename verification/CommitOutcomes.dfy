/** What an operation leaves behind when nobody interferes. */
module CommitOutcomes {
  import opened Text
  import opened StateKeys
  import opened PolicyRecords
  import opened PolicyStateStore
  import opened CommitProtocol
  import opened CommitRuns

  /** Two consecutive steps of one actor with nobody in between. */
  function TwoSteps(L: Language, key: ResourceKey, s: Store, a: Actor, io1: Io, io2: Io, ch: Choice): (Store, Actor) {
    var r := StepActor(L, key, s, a, io1, ch);
    StepActor(L, key, r.0, r.1, io2, ch)
  }

  // ---- The halves of an operation, without the program counter ----

  /** The two reads of an apply. */
  function ApplyRead(L: Language, s: Store, job: ApplyJob, io1: Io, io2: Io, ch: Choice): Actor {
    var a := ApplyReadActive(s, job, io1);
    if a.ApplyBased? then ApplyBuild(L, s, job, a.base, io2, ch) else a
  }

  /** The two writes of an apply. */
  function WriteAndPromote(key: ResourceKey, s: Store, a: Actor, io3: Io, io4: Io, ch: Choice): (Store, Actor)
    requires a.ApplyCandidate?
  {
    var r3 := ApplyWrite(key, s, a, io3);
    if !r3.1.ApplyStored? then r3 else ApplyPromote(key, r3.0, r3.1, io4, ch)
  }

  function RollbackRead(s: Store, req: RollbackRequest, io1: Io, io2: Io): Actor {
    var a := RollbackReadActive(s, req, io1);
    if a.RollbackBased? then RollbackReadTarget(s, req, a.base, io2) else a
  }

  function AdoptRead(L: Language, s: Store, req: AdoptRequest, io1: Io, io2: Io, ch: Choice): Actor {
    var a := AdoptReadActive(s, req, io1);
    if a.AdoptBased? then AdoptResolve(L, s, req, a.base, io2, ch) else a
  }

  /** The second read and the batch of a rollback or an adopt. */
  function CommitWhole(L: Language, key: ResourceKey, s: Store, a: Actor, io3: Io, io4: Io, ch: Choice): (Store, Actor)
    requires a.RollbackTargeted? || a.AdoptResolved?
  {
    var a3 := Reread(L, key, s, a, io3, ch);
    if !a3.Committing? then (s, a3) else CommitStep(key, s, a3, io4)
  }

  lemma ApplyReadIs(L: Language, key: ResourceKey, s: Store, job: ApplyJob, io1: Io, io2: Io, ch: Choice)
    ensures TwoSteps(L, key, s, ApplyStart(job), io1, io2, ch) == (s, ApplyRead(L, s, job, io1, io2, ch))
  {
    assert StepActor(L, key, s, ApplyStart(job), io1, ch) == (s, ApplyReadActive(s, job, io1));
  }

  lemma WriteAndPromoteIs(L: Language, key: ResourceKey, s: Store, a: Actor, io3: Io, io4: Io, ch: Choice)
    requires a.ApplyCandidate?
    ensures TwoSteps(L, key, s, a, io3, io4, ch) == WriteAndPromote(key, s, a, io3, io4, ch)
  {
    assert StepActor(L, key, s, a, io3, ch) == ApplyWrite(key, s, a, io3);
  }

  lemma RollbackReadIs(L: Language, key: ResourceKey, s: Store, req: RollbackRequest, io1: Io, io2: Io, ch: Choice)
    ensures TwoSteps(L, key, s, RollbackStart(req), io1, io2, ch) == (s, RollbackRead(s, req, io1, io2))
  {
    assert StepActor(L, key, s, RollbackStart(req), io1, ch) == (s, RollbackReadActive(s, req, io1));
  }

  lemma AdoptReadIs(L: Language, key: ResourceKey, s: Store, req: AdoptRequest, io1: Io, io2: Io, ch: Choice)
    ensures TwoSteps(L, key, s, AdoptStart(req), io1, io2, ch) == (s, AdoptRead(L, s, req, io1, io2, ch))
  {
    assert StepActor(L, key, s, AdoptStart(req), io1, ch) == (s, AdoptReadActive(s, req, io1));
  }

  lemma CommitWholeIs(L: Language, key: ResourceKey, s: Store, a: Actor, io3: Io, io4: Io, ch: Choice)
    requires a.RollbackTargeted? || a.AdoptResolved?
    ensures TwoSteps(L, key, s, a, io3, io4, ch) == CommitWhole(L, key, s, a, io3, io4, ch)
  {
    var a' := Reread(L, key, s, a, io3, ch);
    RereadEnds(L, key, s, a, io3, ch);
    assert StepActor(L, key, s, a, io3, ch) == (s, a');
    ThenCommits(L, key, s, a', io4, ch);
  }

  lemma ThenCommits(L: Language, key: ResourceKey, s: Store, a: Actor, io: Io, ch: Choice)
    requires a.Committing? || a.Failed?
    ensures StepActor(L, key, s, a, io, ch) == if a.Committing? then CommitStep(key, s, a, io) else (s, a)
  {
  }

  lemma RereadEnds(L: Language, key: ResourceKey, s: Store, a: Actor, io: Io, ch: Choice)
    requires a.RollbackTargeted? || a.AdoptResolved?
    ensures var a' := Reread(L, key, s, a, io, ch); a'.Committing? || a'.Failed?
  {
  }

  /** Four consecutive steps of one actor with nobody in between: every operation takes four. */
  function FourSteps(L: Language, key: ResourceKey, s: Store, a: Actor, ios: (Io, Io, Io, Io), ch: Choice)
    : (Store, Actor)
  {
    var r := TwoSteps(L, key, s, a, ios.0, ios.1, ch);
    TwoSteps(L, key, r.0, r.1, ios.2, ios.3, ch)
  }

  lemma FinishedStays(L: Language, key: ResourceKey, s: Store, a: Actor, io3: Io, io4: Io, ch: Choice)
    requires IsFinished(a)
    ensures TwoSteps(L, key, s, a, io3, io4, ch) == (s, a)
  {
  }

  function ApplyWhole(L: Language, key: ResourceKey, s: Store, job: ApplyJob, ios: (Io, Io, Io, Io), ch: Choice)
    : (Store, Actor)
  {
    var a := ApplyRead(L, s, job, ios.0, ios.1, ch);
    if a.ApplyCandidate? then WriteAndPromote(key, s, a, ios.2, ios.3, ch) else (s, a)
  }

  function RollbackWhole(L: Language, key: ResourceKey, s: Store, req: RollbackRequest, ios: (Io, Io, Io, Io),
                         ch: Choice)
    : (Store, Actor)
  {
    var a := RollbackRead(s, req, ios.0, ios.1);
    if a.RollbackTargeted? then CommitWhole(L, key, s, a, ios.2, ios.3, ch) else (s, a)
  }

  function AdoptWhole(L: Language, key: ResourceKey, s: Store, req: AdoptRequest, ios: (Io, Io, Io, Io), ch: Choice)
    : (Store, Actor)
  {
    var a := AdoptRead(L, s, req, ios.0, ios.1, ch);
    if a.AdoptResolved? then CommitWhole(L, key, s, a, ios.2, ios.3, ch) else (s, a)
  }

  lemma ApplyReadEnds(L: Language, s: Store, job: ApplyJob, io1: Io, io2: Io, ch: Choice)
    ensures var a := ApplyRead(L, s, job, io1, io2, ch); a.ApplyCandidate? || a.Failed?
  {
  }

  lemma AdoptReadEnds(L: Language, s: Store, req: AdoptRequest, io1: Io, io2: Io, ch: Choice)
    ensures var a := AdoptRead(L, s, req, io1, io2, ch); a.AdoptResolved? || a.Failed?
  {
  }

  /** Run without interruption, each operation is four protocol steps. */
  lemma ApplyIsFourSteps(L: Language, key: ResourceKey, s: Store, job: ApplyJob, ios: (Io, Io, Io, Io), ch: Choice)
    ensures FourSteps(L, key, s, ApplyStart(job), ios, ch) == ApplyWhole(L, key, s, job, ios, ch)
  {
    var a := ApplyRead(L, s, job, ios.0, ios.1, ch);
    ApplyReadIs(L, key, s, job, ios.0, ios.1, ch);
    ApplyReadEnds(L, s, job, ios.0, ios.1, ch);
    if a.ApplyCandidate? {
      WriteAndPromoteIs(L, key, s, a, ios.2, ios.3, ch);
    } else {
      FinishedStays(L, key, s, a, ios.2, ios.3, ch);
    }
  }

  lemma RollbackIsFourSteps(L: Language, key: ResourceKey, s: Store, req: RollbackRequest, ios: (Io, Io, Io, Io),
                            ch: Choice)
    ensures FourSteps(L, key, s, RollbackStart(req), ios, ch) == RollbackWhole(L, key, s, req, ios, ch)
  {
    var a := RollbackRead(s, req, ios.0, ios.1);
    RollbackReadIs(L, key, s, req, ios.0, ios.1, ch);
    if a.RollbackTargeted? {
      CommitWholeIs(L, key, s, a, ios.2, ios.3, ch);
    } else {
      FinishedStays(L, key, s, a, ios.2, ios.3, ch);
    }
  }

  lemma AdoptIsFourSteps(L: Language, key: ResourceKey, s: Store, req: AdoptRequest, ios: (Io, Io, Io, Io), ch: Choice)
    ensures FourSteps(L, key, s, AdoptStart(req), ios, ch) == AdoptWhole(L, key, s, req, ios, ch)
  {
    var a := AdoptRead(L, s, req, ios.0, ios.1, ch);
    AdoptReadIs(L, key, s, req, ios.0, ios.1, ch);
    AdoptReadEnds(L, s, req, ios.0, ios.1, ch);
    if a.AdoptResolved? {
      CommitWholeIs(L, key, s, a, ios.2, ios.3, ch);
    } else {
      FinishedStays(L, key, s, a, ios.2, ios.3, ch);
    }
  }

  /** The steps of a run in which one new actor acts four times. */
  function Solo(id: nat, a: Actor, ios: (Io, Io, Io, Io), ch: Choice): seq<Step> {
    [Spawn(id, a)] + [Act(id, ios.0, ch)] + [Act(id, ios.1, ch)] + [Act(id, ios.2, ch)] + [Act(id, ios.3, ch)]
  }

  /** What an actor and the store look like after a run. */
  function Seen(d: Config, id: nat): (Store, Actor)
    requires id in d.actors
  {
    (d.store, d.actors[id])
  }

  lemma ActNext(L: Language, key: ResourceKey, c: Config, steps: seq<Step>, id: nat, io: Io, ch: Choice)
    requires id in Run(L, key, c, steps).actors
    ensures var d, d' := Run(L, key, c, steps), Run(L, key, c, steps + [Act(id, io, ch)]);
            id in d'.actors && Seen(d', id) == StepActor(L, key, d.store, d.actors[id], io, ch)
  {
    RunStep(L, key, c, steps, Act(id, io, ch));
  }

  /** Four steps of a fresh actor are a run of the protocol. */
  lemma FourStepsIsRun(L: Language, key: ResourceKey, c: Config, id: nat, a: Actor, ios: (Io, Io, Io, Io), ch: Choice)
    requires id !in c.actors && IsStart(a)
    ensures var d := Run(L, key, c, Solo(id, a, ios, ch));
            id in d.actors && Seen(d, id) == FourSteps(L, key, c.store, a, ios, ch)
  {
    var s0 := [Spawn(id, a)];
    RunStep(L, key, c, [], Spawn(id, a));
    assert [] + s0 == s0;
    ActNext(L, key, c, s0, id, ios.0, ch);
    ActNext(L, key, c, s0 + [Act(id, ios.0, ch)], id, ios.1, ch);
    ActNext(L, key, c, s0 + [Act(id, ios.0, ch)] + [Act(id, ios.1, ch)], id, ios.2, ch);
    ActNext(L, key, c, s0 + [Act(id, ios.0, ch)] + [Act(id, ios.1, ch)] + [Act(id, ios.2, ch)], id, ios.3, ch);
  }

  // ---- What is left behind ----

  /** The pointer has moved to generation `g`, from the old pointer, and the text there is `yaml`. */
  ghost predicate Advanced(L: Language, s: Store, t: Store, yaml: string, g: nat) {
    && s.active.Some? && t.active.Some?
    && var p, q := s.active.value, t.active.value;
    && q.generation == g > p.generation
    && q.previousGeneration == p.generation && q.previousPolicyId == p.policyId
    && TextAt(t, g, yaml) && q.policyId == IdentityOf(L, yaml) && q.canonicalHash == L.canonicalHash(yaml)
  }

  /** The pointer is where it was, and at most a version one above it was added. */
  ghost predicate OrphanAtMost(s: Store, t: Store) {
    && s.active.Some? && t.active == s.active && t.audits == s.audits
    && forall g :: g in t.versions ==> g in s.versions || g == s.active.value.generation + 1
  }

  /** What an apply's candidate is made of. */
  ghost predicate CandidateOf(L: Language, s: Store, a: Actor, ch: Choice) {
    && a.ApplyCandidate? && s.active == Some(a.base)
    && ch.candidate.Some? && RoundTrip(L, ch.candidate.value).Some?
    && a.yaml == RoundTrip(L, ch.candidate.value).value.yaml
  }

  /** The two reads of an apply change nothing and end in a candidate on the current pointer or in failure. */
  lemma ApplyReads(L: Language, key: ResourceKey, s: Store, job: ApplyJob, io1: Io, io2: Io, ch: Choice)
    requires Lawful(L) && StoreOk(L, s)
    ensures var a := ApplyRead(L, s, job, io1, io2, ch);
            && (a.Failed? || CandidateOf(L, s, a, ch))
            && (a.ApplyCandidate? ==> ActorOk(L, key, s, a) && job.baseGeneration == s.active.value.generation
                                      && job.basePolicyId == s.active.value.policyId)
  {
    var a1 := ApplyReadActive(s, job, io1);
    if a1.ApplyBased? {
      BuildOk(L, key, s, job, a1.base, io2, ch);
    }
  }

  /** The two writes of an apply on the current pointer. */
  lemma ApplyWrites(L: Language, key: ResourceKey, s: Store, a: Actor, io3: Io, io4: Io, ch: Choice)
    requires Lawful(L) && StoreOk(L, s) && a.ApplyCandidate? && ActorOk(L, key, s, a) && s.active == Some(a.base)
    ensures var (t, r) := WriteAndPromote(key, s, a, io3, io4, ch);
            && StoreOk(L, t) && Grows(s, t) && (r.Committed? || r.Failed?)
            && (r.Committed? ==> Advanced(L, s, t, a.yaml, s.active.value.generation + 1)
                                 && r == Committed(t.active.value.generation, t.active.value.policyId))
            && (r.Failed? ==> OrphanAtMost(s, t))
  {
    ApplyStores(L, key, s, a, io3);
    var r3 := ApplyWrite(key, s, a, io3);
    if r3.1.ApplyStored? {
      PromoteStepKeeps(L, key, r3.0, r3.1, io4, ch);
      ApplyPromotes(L, key, r3.0, r3.1, io4, ch);
    }
  }

  lemma ApplyStores(L: Language, key: ResourceKey, s: Store, a: Actor, io: Io)
    requires StoreOk(L, s) && a.ApplyCandidate? && ActorOk(L, key, s, a) && s.active == Some(a.base)
    ensures var (t, r) := ApplyWrite(key, s, a, io);
            && StoreOk(L, t) && Grows(s, t) && OrphanAtMost(s, t) && ActorOk(L, key, t, r)
            && (r.Failed? || r == ApplyStored(a.job, a.base, a.version, a.yaml))
  {
    WriteKeeps(L, key, s, a, io);
    StoredIsOrphan(key, s, a.version, a.yaml, io);
  }

  lemma StoredIsOrphan(key: ResourceKey, s: Store, v: VersionRecord, yaml: string, io: Io)
    requires s.active.Some? && v.generation == s.active.value.generation + 1
    ensures OrphanAtMost(s, StoreVersion(s, key, v, yaml, io).0)
  {
  }

  lemma ApplyPromotes(L: Language, key: ResourceKey, s: Store, a: Actor, io: Io, ch: Choice)
    requires StoreOk(L, s) && a.ApplyStored? && ActorOk(L, key, s, a) && s.active == Some(a.base)
    ensures var (t, r) := ApplyPromote(key, s, a, io, ch);
            && (r.Failed? ==> t == s)
            && (r.Committed? ==> t == s.(active := Some(StampPointer(key, PointerTo(key, a.version, ch.now))))
                                 && Advanced(L, s, t, a.yaml, s.active.value.generation + 1)
                                 && r == Committed(t.active.value.generation, t.active.value.policyId))
            && (r.Committed? || r.Failed?)
  {
  }

  /** An apply that got through: the pointer is one further, from its base to its own text. */
  ghost predicate Applied(L: Language, s: Store, t: Store, r: Actor, job: ApplyJob, ch: Choice) {
    && s.active.Some? && ch.candidate.Some? && RoundTrip(L, ch.candidate.value).Some?
    && job.baseGeneration == s.active.value.generation && job.basePolicyId == s.active.value.policyId
    && Advanced(L, s, t, RoundTrip(L, ch.candidate.value).value.yaml, s.active.value.generation + 1)
    && r == Committed(t.active.value.generation, t.active.value.policyId)
  }

  /** An uninterrupted apply moves the pointer to its own text, one above, or leaves the pointer and
      at most an orphan. */
  lemma ApplyOutcome(L: Language, key: ResourceKey, s: Store, job: ApplyJob, ios: (Io, Io, Io, Io), ch: Choice)
    requires Lawful(L) && StoreOk(L, s)
    ensures var (t, r) := FourSteps(L, key, s, ApplyStart(job), ios, ch);
            && StoreOk(L, t) && Grows(s, t)
            && ((r.Failed? && OrphanAtMost(s, t)) || Applied(L, s, t, r, job, ch))
  {
    ApplyIsFourSteps(L, key, s, job, ios, ch);
    ApplyReads(L, key, s, job, ios.0, ios.1, ch);
    var a := ApplyRead(L, s, job, ios.0, ios.1, ch);
    if a.ApplyCandidate? {
      ApplyWrites(L, key, s, a, ios.2, ios.3, ch);
    }
  }

  /** Whatever an actor does alone keeps the store sound and only adds to it. */
  lemma FourStepsKeep(L: Language, key: ResourceKey, s: Store, a: Actor, ios: (Io, Io, Io, Io), ch: Choice)
    requires Lawful(L) && StoreOk(L, s) && IsStart(a)
    ensures var t := FourSteps(L, key, s, a, ios, ch).0; StoreOk(L, t) && Grows(s, t)
  {
    var c := Config(s, map[]);
    FourStepsIsRun(L, key, c, 0, a, ios, ch);
    RunKeeps(L, key, c, Solo(0, a, ios, ch));
  }

  /** A commit that got through: pointer, text and audit record are the prepared ones. */
  ghost predicate Done(L: Language, key: ResourceKey, s: Store, t: Store, r: Actor, p: CommitParams) {
    && Advanced(L, s, t, p.yaml, p.version.generation)
    && r == Committed(t.active.value.generation, t.active.value.policyId)
    && p.audit.applyId in t.audits && t.audits[p.audit.applyId] == StampAudit(key, p.audit)
  }

  /** The second half of a rollback or adopt: all of it or nothing. */
  lemma CommitTwoSteps(L: Language, key: ResourceKey, s: Store, a: Actor, io3: Io, io4: Io, ch: Choice)
    requires Lawful(L) && StoreOk(L, s) && (a.RollbackTargeted? || a.AdoptResolved?)
    requires ActorOk(L, key, s, a) && s.active == Some(a.base)
    ensures var (t, r) := CommitWhole(L, key, s, a, io3, io4, ch);
            var p := PrepareCommit(L, key, a.base, CommitInputOf(a), AuditOf(a), ch.now);
            (r.Failed? && t == s) || (p.Pass? && Done(L, key, s, t, r, p.value))
  {
    RereadPrepares(L, key, s, a, io3, ch);
    var a3 := Reread(L, key, s, a, io3, ch);
    if a3.Committing? {
      CommitPrepared(L, key, s, a3, io4);
    }
  }

  lemma RereadPrepares(L: Language, key: ResourceKey, s: Store, a: Actor, io: Io, ch: Choice)
    requires Lawful(L) && StoreOk(L, s) && (a.RollbackTargeted? || a.AdoptResolved?)
    requires ActorOk(L, key, s, a) && s.active == Some(a.base)
    ensures var a' := Reread(L, key, s, a, io, ch);
            var p := PrepareCommit(L, key, a.base, CommitInputOf(a), AuditOf(a), ch.now);
            && (a'.Failed? || (p.Pass? && a' == Committing(OriginOf(a), a.base, p.value)))
            && ActorOk(L, key, s, a')
  {
    RereadOk(L, key, s, a, io, ch);
  }

  lemma CommitPrepared(L: Language, key: ResourceKey, s: Store, a: Actor, io: Io)
    requires StoreOk(L, s) && a.Committing? && ActorOk(L, key, s, a) && s.active == Some(a.base)
    ensures var (t, r) := CommitStep(key, s, a, io); (r.Failed? && t == s) || Done(L, key, s, t, r, a.params)
  {
    CommitAllOrNothing(L, key, s, a.base, a.params, io);
    if CommitStep(key, s, a, io).1.Committed? {
      CommitSucceeds(L, key, s, a, io);
    }
  }

  // ---- Rollbacks ----

  lemma RollbackReads(L: Language, key: ResourceKey, s: Store, req: RollbackRequest, io1: Io, io2: Io)
    requires Lawful(L) && StoreOk(L, s)
    ensures var a := RollbackRead(s, req, io1, io2);
            && (a.Failed? || a.RollbackTargeted?)
            && (a.RollbackTargeted? ==>
                  && a.rollback == req && s.active == Some(a.base) && ActorOk(L, key, s, a)
                  && TextAt(s, req.targetGeneration, a.target.yaml))
  {
    var a1 := RollbackReadActive(s, req, io1);
    if a1.RollbackBased? {
      ReadTargetOk(L, key, s, req, a1.base, io2);
    }
  }

  /** What a rollback prepares: the target's own text, one above the pointer. */
  lemma RollbackPrepares(L: Language, key: ResourceKey, s: Store, a: Actor, now: nat)
    requires Lawful(L) && StoreOk(L, s) && a.RollbackTargeted? && ActorOk(L, key, s, a)
    ensures var p := PrepareCommit(L, key, a.base, CommitInputOf(a), AuditOf(a), now);
            && p.Pass? && p.value.yaml == a.target.yaml && p.value.version.generation == a.base.generation + 1
            && p.value.audit.applyId == a.rollback.requestId && ParamsOk(L, key, a.base, p.value)
  {
    PrepareOk(L, key, a.base, CommitInputOf(a), AuditOf(a), now);
  }

  /** An uninterrupted rollback makes the target's text active again, one generation above, with
      its audit record, or changes nothing. */
  lemma RollbackOutcome(L: Language, key: ResourceKey, s: Store, req: RollbackRequest,
                        ios: (Io, Io, Io, Io), ch: Choice)
    requires Lawful(L) && StoreOk(L, s)
    ensures var (t, r) := FourSteps(L, key, s, RollbackStart(req), ios, ch);
            StoreOk(L, t) && Grows(s, t) && ((r.Failed? && t == s) || RolledBack(L, s, t, r, req))
  {
    FourStepsKeep(L, key, s, RollbackStart(req), ios, ch);
    RollbackIsFourSteps(L, key, s, req, ios, ch);
    RollbackReads(L, key, s, req, ios.0, ios.1);
    var a := RollbackRead(s, req, ios.0, ios.1);
    if a.RollbackTargeted? {
      RollbackPrepares(L, key, s, a, ch.now);
      CommitTwoSteps(L, key, s, a, ios.2, ios.3, ch);
    }
  }

  ghost predicate RolledBack(L: Language, s: Store, t: Store, r: Actor, req: RollbackRequest) {
    && s.active.Some? && req.targetGeneration in s.yamls && req.requestId in t.audits
    && Advanced(L, s, t, s.yamls[req.targetGeneration], s.active.value.generation + 1)
    && r == Committed(t.active.value.generation, t.active.value.policyId)
  }

  // ---- Adopts ----

  /** The text an adopt stores: the resolved text canonicalized once more. */
  function AdoptedText(L: Language, yaml: string): Option<string> {
    match L.load(yaml)
    case None => None
    case Some(d) => (match RoundTrip(L, d) case None => None case Some(c) => Some(c.yaml))
  }

  lemma AdoptReads(L: Language, key: ResourceKey, s: Store, req: AdoptRequest, io1: Io, io2: Io, ch: Choice)
    requires Lawful(L) && StoreOk(L, s)
    ensures var a := AdoptRead(L, s, req, io1, io2, ch);
            var local := ResolveLocal(L, req, ch.fetched);
            && (a.Failed? || a.AdoptResolved?)
            && (a.AdoptResolved? ==>
                  && local.Pass? && s.active == Some(a.base) && ActorOk(L, key, s, a)
                  && a == AdoptResolved(req, a.base, local.value.yaml,
                                        AdoptGeneration(s, a.base.generation, local.value.hint, io2),
                                        local.value.reported))
  {
    var a1 := AdoptReadActive(s, req, io1);
    if a1.AdoptBased? {
      ResolveOk(L, key, s, req, a1.base, io2, ch);
    }
  }

  lemma AdoptPrepares(L: Language, key: ResourceKey, s: Store, a: Actor, now: nat)
    requires Lawful(L) && StoreOk(L, s) && a.AdoptResolved? && ActorOk(L, key, s, a)
    ensures var p := PrepareCommit(L, key, a.base, CommitInputOf(a), AuditOf(a), now);
            && (p.Pass? <==> AdoptedText(L, a.yaml).Some?)
            && (p.Pass? ==> p.value.yaml == AdoptedText(L, a.yaml).value && p.value.version.generation == a.generation
                            && p.value.audit.applyId == a.adopt.requestId && ParamsOk(L, key, a.base, p.value))
  {
    if PrepareCommit(L, key, a.base, CommitInputOf(a), AuditOf(a), now).Pass? {
      PrepareOk(L, key, a.base, CommitInputOf(a), AuditOf(a), now);
    }
  }

  ghost predicate Adopted(L: Language, s: Store, t: Store, r: Actor, req: AdoptRequest, ch: Choice) {
    var local := ResolveLocal(L, req, ch.fetched);
    && s.active.Some? && r.Committed? && local.Pass? && AdoptedText(L, local.value.yaml).Some?
    && req.requestId in t.audits
    && Advanced(L, s, t, AdoptedText(L, local.value.yaml).value, r.generation)
    && (r.generation == s.active.value.generation + 1
        || (r.generation == local.value.hint && r.generation !in s.versions))
  }

  /** An uninterrupted adopt makes the fetched text active, at the next generation or at the free one
      the runtime named, with its audit record, or changes nothing. */
  lemma AdoptOutcome(L: Language, key: ResourceKey, s: Store, req: AdoptRequest, ios: (Io, Io, Io, Io), ch: Choice)
    requires Lawful(L) && StoreOk(L, s)
    ensures var (t, r) := FourSteps(L, key, s, AdoptStart(req), ios, ch);
            StoreOk(L, t) && Grows(s, t) && ((r.Failed? && t == s) || Adopted(L, s, t, r, req, ch))
  {
    FourStepsKeep(L, key, s, AdoptStart(req), ios, ch);
    AdoptIsFourSteps(L, key, s, req, ios, ch);
    AdoptReads(L, key, s, req, ios.0, ios.1, ch);
    var a := AdoptRead(L, s, req, ios.0, ios.1, ch);
    if a.AdoptResolved? {
      AdoptPrepares(L, key, s, a, ch.now);
      CommitTwoSteps(L, key, s, a, ios.2, ios.3, ch);
    }
  }
}
