/** Exactly when an undisturbed operation commits, and what an orphan version then blocks. */
module CommitAlone {
  import opened Text
  import opened StateKeys
  import opened PolicyRecords
  import opened PolicyStateStore
  import opened CommitProtocol
  import opened CommitRuns
  import opened CommitOutcomes

  const ALL_OK := Io(true, true, true, true, true)

  /** An apply with nobody in between and every access succeeding. */
  function ApplyAlone(L: Language, key: ResourceKey, s: Store, job: ApplyJob, ch: Choice): (Store, Actor) {
    FourSteps(L, key, s, ApplyStart(job), (ALL_OK, ALL_OK, ALL_OK, ALL_OK), ch)
  }

  /** The slot after the active generation is free, or an orphan there has the same text. */
  predicate SlotOpen(s: Store, yaml: string)
    requires s.active.Some?
  {
    var g := s.active.value.generation + 1;
    g !in s.versions || (g in s.yamls && s.yamls[g] == yaml)
  }

  /** On a sound store a version write succeeds exactly when the slot is free or holds the text. */
  lemma StoreVersionSucceedsIff(L: Language, key: ResourceKey, s: Store, v: VersionRecord, yaml: string)
    requires StoreOk(L, s) && Describes(L, v, yaml)
    ensures StoreVersion(s, key, v, yaml, ALL_OK).1.Ok? <==>
            v.generation !in s.versions || (v.generation in s.yamls && s.yamls[v.generation] == yaml)
  {
    if v.generation in s.versions {
      assert VersionOk(L, s.versions[v.generation], s.yamls[v.generation], v.generation, s.active.value.generation);
    }
  }

  /** The outcome of an undisturbed apply: it commits exactly when its base is current, the
      candidate canonicalizes, and no orphan with another text sits in the next generation. An
      apply that stopped after storing its version therefore blocks every later apply with another
      text, until a commit jumps over it. */
  lemma ApplyAloneCommitsIff(L: Language, key: ResourceKey, s: Store, job: ApplyJob, ch: Choice)
    requires Lawful(L) && StoreOk(L, s)
    ensures ApplyAlone(L, key, s, job, ch).1.Committed? <==>
            && job.baseGeneration == s.active.value.generation
            && job.basePolicyId == s.active.value.policyId
            && ch.candidate.Some?
            && RoundTrip(L, ch.candidate.value).Some?
            && SlotOpen(s, RoundTrip(L, ch.candidate.value).value.yaml)
  {
    var p := s.active.value;
    ApplyIsFourSteps(L, key, s, job, (ALL_OK, ALL_OK, ALL_OK, ALL_OK), ch);
    if job.baseGeneration == p.generation && job.basePolicyId == p.policyId {
      ApplyBuiltIff(L, key, s, job, ch);
      var a := ApplyBuild(L, s, job, p, ALL_OK, ch);
      if a.ApplyCandidate? {
        ApplyFinishesIff(L, key, s, a, ch);
      }
    }
  }

  lemma ApplyBuiltIff(L: Language, key: ResourceKey, s: Store, job: ApplyJob, ch: Choice)
    requires Lawful(L) && StoreOk(L, s)
    ensures var a := ApplyBuild(L, s, job, s.active.value, ALL_OK, ch);
            && (a.ApplyCandidate? || a.Failed?)
            && (a.ApplyCandidate? <==> ch.candidate.Some? && RoundTrip(L, ch.candidate.value).Some?)
            && (a.ApplyCandidate? ==> a.base == s.active.value
                                      && a.yaml == RoundTrip(L, ch.candidate.value).value.yaml
                                      && ActorOk(L, key, s, a))
  {
    BuildOk(L, key, s, job, s.active.value, ALL_OK, ch);
  }

  lemma ApplyFinishesIff(L: Language, key: ResourceKey, s: Store, a: Actor, ch: Choice)
    requires Lawful(L) && StoreOk(L, s) && a.ApplyCandidate? && ActorOk(L, key, s, a) && s.active == Some(a.base)
    ensures WriteAndPromote(key, s, a, ALL_OK, ALL_OK, ch).1.Committed? <==> SlotOpen(s, a.yaml)
  {
    StoreVersionSucceedsIff(L, key, s, a.version, a.yaml);
    WriteKeeps(L, key, s, a, ALL_OK);
    var r3 := ApplyWrite(key, s, a, ALL_OK);
    if r3.1.ApplyStored? {
      PromoteAloneCommits(L, key, r3.0, r3.1, ch);
    }
  }

  lemma PromoteAloneCommits(L: Language, key: ResourceKey, s: Store, a: Actor, ch: Choice)
    requires StoreOk(L, s) && a.ApplyStored? && ActorOk(L, key, s, a) && s.active == Some(a.base)
    ensures ApplyPromote(key, s, a, ALL_OK, ch).1.Committed?
  {
    var g := a.version.generation;
    assert g in s.versions && VersionKey(key, g) == PointerTo(key, a.version, ch.now).versionKey;
    assert TargetStored(s, key, VersionKey(key, g));
  }

  // ---- Rollbacks and adopts ----

  lemma VersionSlotOpenIff(L: Language, s: Store, v: VersionRecord, yaml: string)
    requires StoreOk(L, s) && Describes(L, v, yaml)
    ensures VersionSlot(s, v, yaml, ALL_OK).Ok? <==> v.generation !in s.versions || TextAt(s, v.generation, yaml)
  {
    if v.generation in s.versions {
      assert VersionOk(L, s.versions[v.generation], s.yamls[v.generation], v.generation, s.active.value.generation);
    }
  }

  /** A prepared batch on the current pointer is written exactly when it has an audit id and its
      version slot is free or holds its text. */
  lemma CommitWrittenIff(L: Language, key: ResourceKey, s: Store, p: CommitParams)
    requires StoreOk(L, s) && ParamsOk(L, key, s.active.value, p)
    ensures CommitWithAudit(s, key, p, ALL_OK).1.Ok? <==>
            p.audit.applyId != "" && (p.version.generation !in s.versions || TextAt(s, p.version.generation, p.yaml))
  {
    VersionSlotOpenIff(L, s, p.version, p.yaml);
    var g := p.version.generation;
    assert p.next.versionKey == VersionKey(key, g);
    assert g in s.versions ==> TargetStored(s, key, VersionKey(key, g));
  }

  lemma CommitAloneIff(L: Language, key: ResourceKey, s: Store, a: Actor, ch: Choice)
    requires Lawful(L) && StoreOk(L, s) && (a.RollbackTargeted? || a.AdoptResolved?)
    requires ActorOk(L, key, s, a) && s.active == Some(a.base)
    requires var p := PrepareCommit(L, key, a.base, CommitInputOf(a), AuditOf(a), ch.now);
             p.Pass? ==> ParamsOk(L, key, a.base, p.value)
    ensures var p := PrepareCommit(L, key, a.base, CommitInputOf(a), AuditOf(a), ch.now);
            CommitWhole(L, key, s, a, ALL_OK, ALL_OK, ch).1.Committed? <==>
            p.Pass? && p.value.audit.applyId != ""
            && (p.value.version.generation !in s.versions || TextAt(s, p.value.version.generation, p.value.yaml))
  {
    var p := PrepareCommit(L, key, a.base, CommitInputOf(a), AuditOf(a), ch.now);
    RereadIs(L, key, s, a, ch);
    ThenCommitsIff(L, key, s, a, ch);
    if p.Pass? {
      CommitWrittenIff(L, key, s, p.value);
    }
  }

  lemma ThenCommitsIff(L: Language, key: ResourceKey, s: Store, a: Actor, ch: Choice)
    requires a.RollbackTargeted? || a.AdoptResolved?
    ensures var a' := Reread(L, key, s, a, ALL_OK, ch);
            CommitWhole(L, key, s, a, ALL_OK, ALL_OK, ch).1.Committed? <==>
            a'.Committing? && CommitWithAudit(s, key, a'.params, ALL_OK).1.Ok?
  {
    RereadEnds(L, key, s, a, ALL_OK, ch);
  }

  lemma RereadIs(L: Language, key: ResourceKey, s: Store, a: Actor, ch: Choice)
    requires StoreOk(L, s) && (a.RollbackTargeted? || a.AdoptResolved?) && s.active == Some(a.base)
    ensures var p := PrepareCommit(L, key, a.base, CommitInputOf(a), AuditOf(a), ch.now);
            && (p.Pass? ==> Reread(L, key, s, a, ALL_OK, ch) == Committing(OriginOf(a), a.base, p.value))
            && (p.Refuse? ==> Reread(L, key, s, a, ALL_OK, ch).Failed?)
  {
  }

  function RollbackAlone(L: Language, key: ResourceKey, s: Store, req: RollbackRequest, ch: Choice): (Store, Actor) {
    FourSteps(L, key, s, RollbackStart(req), (ALL_OK, ALL_OK, ALL_OK, ALL_OK), ch)
  }

  /** An undisturbed rollback commits exactly when it names the current pointer, a stored target and
      a request id, and no orphan with another text sits in the next generation. */
  lemma RollbackAloneCommitsIff(L: Language, key: ResourceKey, s: Store, req: RollbackRequest, ch: Choice)
    requires Lawful(L) && StoreOk(L, s)
    ensures RollbackAlone(L, key, s, req, ch).1.Committed? <==>
            && req.currentGeneration == s.active.value.generation
            && req.currentPolicyId == s.active.value.policyId
            && req.targetGeneration in s.yamls && req.requestId != ""
            && SlotOpen(s, s.yamls[req.targetGeneration])
  {
    RollbackIsFourSteps(L, key, s, req, (ALL_OK, ALL_OK, ALL_OK, ALL_OK), ch);
    RollbackReadsIff(L, key, s, req);
    var a := RollbackRead(s, req, ALL_OK, ALL_OK);
    if a.RollbackTargeted? {
      RollbackPrepares(L, key, s, a, ch.now);
      CommitAloneIff(L, key, s, a, ch);
    }
  }

  lemma RollbackReadsIff(L: Language, key: ResourceKey, s: Store, req: RollbackRequest)
    requires Lawful(L) && StoreOk(L, s)
    ensures var a := RollbackRead(s, req, ALL_OK, ALL_OK);
            && (a.Failed? || a.RollbackTargeted?)
            && (a.RollbackTargeted? <==> req.currentGeneration == s.active.value.generation
                                         && req.currentPolicyId == s.active.value.policyId
                                         && req.targetGeneration in s.yamls)
            && (a.RollbackTargeted? ==> a.rollback == req && s.active == Some(a.base) && ActorOk(L, key, s, a)
                                        && TextAt(s, req.targetGeneration, a.target.yaml))
  {
    RollbackReads(L, key, s, req, ALL_OK, ALL_OK);
    if req.targetGeneration in s.versions {
      assert VersionOk(L, s.versions[req.targetGeneration], s.yamls[req.targetGeneration], req.targetGeneration,
                       s.active.value.generation);
    }
  }

  function AdoptAlone(L: Language, key: ResourceKey, s: Store, req: AdoptRequest, ch: Choice): (Store, Actor) {
    FourSteps(L, key, s, AdoptStart(req), (ALL_OK, ALL_OK, ALL_OK, ALL_OK), ch)
  }

  /** The runtime named a generation above the next one, which is always free. */
  predicate Jumps(s: Store, hint: nat)
    requires s.active.Some?
  {
    hint > s.active.value.generation && hint !in s.versions
  }

  /** An undisturbed adopt commits exactly when it names the current generation and a request id, the
      fetched text resolves and canonicalizes, and it jumps or finds the next slot open to its text. */
  lemma AdoptAloneCommitsIff(L: Language, key: ResourceKey, s: Store, req: AdoptRequest, ch: Choice)
    requires Lawful(L) && StoreOk(L, s)
    ensures AdoptAlone(L, key, s, req, ch).1.Committed? <==>
            && var local := ResolveLocal(L, req, ch.fetched);
            && req.currentGeneration == s.active.value.generation && req.requestId != ""
            && local.Pass? && AdoptedText(L, local.value.yaml).Some?
            && (Jumps(s, local.value.hint) || SlotOpen(s, AdoptedText(L, local.value.yaml).value))
  {
    AdoptIsFourSteps(L, key, s, req, (ALL_OK, ALL_OK, ALL_OK, ALL_OK), ch);
    AdoptReadsIff(L, key, s, req, ch);
    var a := AdoptRead(L, s, req, ALL_OK, ALL_OK, ch);
    if a.AdoptResolved? {
      AdoptPrepares(L, key, s, a, ch.now);
      CommitAloneIff(L, key, s, a, ch);
    }
  }

  lemma AdoptReadsIff(L: Language, key: ResourceKey, s: Store, req: AdoptRequest, ch: Choice)
    requires Lawful(L) && StoreOk(L, s)
    ensures var a := AdoptRead(L, s, req, ALL_OK, ALL_OK, ch);
            var local := ResolveLocal(L, req, ch.fetched);
            && (a.Failed? || a.AdoptResolved?)
            && (a.AdoptResolved? <==> req.currentGeneration == s.active.value.generation && local.Pass?)
            && (a.AdoptResolved? ==>
                  && s.active == Some(a.base) && ActorOk(L, key, s, a) && a.adopt == req
                  && a.yaml == local.value.yaml
                  && a.generation == if Jumps(s, local.value.hint) then local.value.hint
                                     else s.active.value.generation + 1)
  {
    AdoptReads(L, key, s, req, ALL_OK, ALL_OK, ch);
    AdoptGenerationIs(L, s, ResolveLocal(L, req, ch.fetched));
  }

  lemma AdoptGenerationIs(L: Language, s: Store, local: Checked<Resolved>)
    requires StoreOk(L, s)
    ensures local.Pass? ==>
              (AdoptGeneration(s, s.active.value.generation, local.value.hint, ALL_OK)
               == if Jumps(s, local.value.hint) then local.value.hint else s.active.value.generation + 1)
  {
    if local.Pass? && local.value.hint in s.versions {
      var g := local.value.hint;
      assert VersionOk(L, s.versions[g], s.yamls[g], g, s.active.value.generation);
    }
  }

  // ---- Orphans ----

  /** From a store with an orphan in the next generation the pointer moves only onto the orphan's own
      text, or over it by an adopt that jumps. */
  lemma OrphanDecides(L: Language, key: ResourceKey, c: Config, steps: seq<Step>, step: Step)
    requires Lawful(L) && Initial(L, key, c)
    requires Run(L, key, c, steps + [step]).store.active != Run(L, key, c, steps).store.active
    requires var s := Run(L, key, c, steps).store; s.active.Some? && s.active.value.generation + 1 in s.yamls
    ensures var s, t := Run(L, key, c, steps).store, Run(L, key, c, steps + [step]).store;
            var g := s.active.value.generation + 1;
            && t.active.Some?
            && (t.active.value.generation == g ==> TextAt(t, g, s.yamls[g]))
            && (t.active.value.generation == g
                || (t.active.value.generation > g && step.Act? && step.id in Run(L, key, c, steps).actors
                    && IsAdoptCommit(Run(L, key, c, steps).actors[step.id])))
  {
    NoLostUpdate(L, key, c, steps, step);
    InitialInv(L, key, c);
    RunKeeps(L, key, c, steps);
    RunStep(L, key, c, steps, step);
    ExecKeeps(L, key, Run(L, key, c, steps), step);
    CommitsOnly(L, key, Run(L, key, c, steps), step);
  }

  predicate IsAdoptCommit(a: Actor) { a.Committing? && a.origin.FromAdopt? }

  lemma CommitsOnly(L: Language, key: ResourceKey, d: Config, step: Step)
    requires step.Act? && step.id in d.actors && Exec(L, key, d, step).store.active != d.store.active
    ensures d.actors[step.id].ApplyStored? || d.actors[step.id].Committing?
  {
    if !d.actors[step.id].ApplyStored? && !d.actors[step.id].Committing? {
      OthersKeepPointer(L, key, d.store, d.actors[step.id], step.io, step.choice);
    }
  }

  /** An apply that stops after its first write. */
  function Abandoned(job: ApplyJob, ch: Choice): seq<Step> {
    [Spawn(0, ApplyStart(job))] + [Act(0, ALL_OK, ch)] + [Act(0, ALL_OK, ch)] + [Act(0, ALL_OK, ch)]
  }

  ghost predicate HasOrphan(L: Language, s: Store, yaml: string) {
    && StoreOk(L, s) && s.active.value.generation + 1 in s.versions
    && TextAt(s, s.active.value.generation + 1, yaml)
  }

  /** It leaves the pointer and an orphan with its text in the next generation. */
  lemma AbandonedLeavesOrphan(L: Language, key: ResourceKey, c: Config, job: ApplyJob, ch: Choice)
    requires Lawful(L) && Initial(L, key, c) && ch.candidate.Some? && RoundTrip(L, ch.candidate.value).Some?
    requires job.baseGeneration == c.store.active.value.generation && job.basePolicyId == c.store.active.value.policyId
    ensures var s := Run(L, key, c, Abandoned(job, ch)).store;
            s.active == c.store.active && HasOrphan(L, s, RoundTrip(L, ch.candidate.value).value.yaml)
  {
    InitialInv(L, key, c);
    RunKeeps(L, key, c, Abandoned(job, ch));
    var s, p := c.store, c.store.active.value;
    var a2 := ApplyBuild(L, s, job, p, ALL_OK, ch);
    AbandonedRun(L, key, c, job, ch);
    ApplyBuiltIff(L, key, s, job, ch);
    assert p.generation + 1 !in s.versions.Keys;
    StoreVersionSucceedsIff(L, key, s, a2.version, a2.yaml);
    StoreVersionKeeps(L, key, s, a2.version, a2.yaml, ALL_OK);
  }

  lemma AbandonedRun(L: Language, key: ResourceKey, c: Config, job: ApplyJob, ch: Choice)
    requires Lawful(L) && Initial(L, key, c)
    requires job.baseGeneration == c.store.active.value.generation && job.basePolicyId == c.store.active.value.policyId
    ensures var s := c.store;
            Run(L, key, c, Abandoned(job, ch)).store
            == StepActor(L, key, s, ApplyBuild(L, s, job, s.active.value, ALL_OK, ch), ALL_OK, ch).0
  {
    var s0, act := [Spawn(0, ApplyStart(job))], Act(0, ALL_OK, ch);
    RunStep(L, key, c, [], Spawn(0, ApplyStart(job)));
    assert [] + s0 == s0;
    ActNext(L, key, c, s0, 0, ALL_OK, ch);
    ActNext(L, key, c, s0 + [act], 0, ALL_OK, ch);
    ActNext(L, key, c, s0 + [act] + [act], 0, ALL_OK, ch);
    assert StepActor(L, key, c.store, ApplyStart(job), ALL_OK, ch) == (c.store, ApplyBased(job, c.store.active.value));
  }

  function CandidateText(L: Language, ch: Choice): Option<string> {
    if ch.candidate.None? then None
    else (match RoundTrip(L, ch.candidate.value) case None => None case Some(c) => Some(c.yaml))
  }

  lemma ApplyBlocked(L: Language, key: ResourceKey, s: Store, orphan: string, job: ApplyJob, ch: Choice)
    requires Lawful(L) && HasOrphan(L, s, orphan) && CandidateText(L, ch) != Some(orphan)
    ensures ApplyAlone(L, key, s, job, ch).1.Failed?
  {
    ApplyAloneCommitsIff(L, key, s, job, ch);
    ApplyOutcome(L, key, s, job, (ALL_OK, ALL_OK, ALL_OK, ALL_OK), ch);
  }

  lemma RollbackBlocked(L: Language, key: ResourceKey, s: Store, orphan: string, req: RollbackRequest, ch: Choice)
    requires Lawful(L) && HasOrphan(L, s, orphan)
    requires req.targetGeneration in s.yamls && s.yamls[req.targetGeneration] != orphan
    ensures RollbackAlone(L, key, s, req, ch).1.Failed?
  {
    RollbackAloneCommitsIff(L, key, s, req, ch);
    RollbackOutcome(L, key, s, req, (ALL_OK, ALL_OK, ALL_OK, ALL_OK), ch);
  }

  /** In that state, reached by a run, every apply and every rollback with another text fails, though
      its base is current. */
  lemma OrphanBlocks(L: Language, key: ResourceKey, c: Config, job: ApplyJob, ch: Choice, ch': Choice,
                     job': ApplyJob, req: RollbackRequest)
    requires Lawful(L) && Initial(L, key, c) && ch.candidate.Some? && RoundTrip(L, ch.candidate.value).Some?
    requires job.baseGeneration == c.store.active.value.generation && job.basePolicyId == c.store.active.value.policyId
    ensures var s := Run(L, key, c, Abandoned(job, ch)).store;
            var orphan := RoundTrip(L, ch.candidate.value).value.yaml;
            && (CandidateText(L, ch') != Some(orphan) ==> ApplyAlone(L, key, s, job', ch').1.Failed?)
            && (req.targetGeneration in s.yamls && s.yamls[req.targetGeneration] != orphan ==>
                  RollbackAlone(L, key, s, req, ch').1.Failed?)
  {
    AbandonedLeavesOrphan(L, key, c, job, ch);
    var s, orphan := Run(L, key, c, Abandoned(job, ch)).store, RoundTrip(L, ch.candidate.value).value.yaml;
    if CandidateText(L, ch') != Some(orphan) {
      ApplyBlocked(L, key, s, orphan, job', ch');
    }
    if req.targetGeneration in s.yamls && s.yamls[req.targetGeneration] != orphan {
      RollbackBlocked(L, key, s, orphan, req, ch');
    }
  }

  /** The smallest language: a text is its own document. */
  const ECHO: Language := Language(
    (y: string) => Some(Document(0, "", "", y)), (d: Document) => d, (d: Document) => Some(d.content),
    (d: Document) => "id:" + d.content, (y: string) => "sha256:" + y)

  function EchoConfig(): Config {
    var v := VersionRecord("PolicyVersionRecord", 1, "", 1, "id:a", "sha256:a", 0, "", "", "", "", "", 0, "", 0);
    Config(Store(map[1 := v], map[1 := "a"], Some(PointerTo(ResourceKey("n", "p"), v, 0)), map[]), map[])
  }

  lemma EchoOk()
    ensures Lawful(ECHO) && Initial(ECHO, ResourceKey("n", "p"), EchoConfig())
  {
  }

  /** A reachable store on which an apply with a current base and a sound candidate fails. */
  lemma ApplyBlockedSomewhere() returns (steps: seq<Step>, job: ApplyJob, ch: Choice)
    ensures var key := ResourceKey("n", "p");
            var s := Run(ECHO, key, EchoConfig(), steps).store;
            && Lawful(ECHO) && Initial(ECHO, key, EchoConfig()) && s.active.Some?
            && job.baseGeneration == s.active.value.generation && job.basePolicyId == s.active.value.policyId
            && ch.candidate.Some? && RoundTrip(ECHO, ch.candidate.value).Some?
            && ApplyAlone(ECHO, key, s, job, ch).1.Failed?
  {
    var key, c := ResourceKey("n", "p"), EchoConfig();
    job := ApplyJob("j", "yaml", 1, "id:a");
    var first := Choice(Some(Document(0, "", "", "b")), None, 0);
    ch := Choice(Some(Document(0, "", "", "c")), None, 0);
    steps := Abandoned(job, first);
    EchoOk();
    AbandonedLeavesOrphan(ECHO, key, c, job, first);
    OrphanBlocks(ECHO, key, c, job, first, ch, job, RollbackRequest("", 0, 0, ""));
  }
}
