/** Which requests keep a run on the flat database within what its keys and records can hold: conditions on what
    is submitted, on the policy language and on the length of the run only. */
module FlatRequests {
  import opened Text
  import opened StateKeys
  import opened PolicyRecords
  import opened PolicyStateStore
  import opened JsonText
  import opened JsonFields
  import opened JsonRecords
  import opened JsonRoundTrips
  import opened FlatStore
  import opened FlatOperations
  import opened CommitProtocol
  import opened CommitRuns
  import opened FlatProtocol

  // ---- Texts and numbers that every record can hold ----

  /** Printable, no field name, and no end in a quote and a field name. */
  ghost predicate Tame(text: string) { Printable(text) && forall t: Tag :: Clear(text, Name(t)) }

  ghost predicate TameValue(t: Tag, v: Value) {
    match v
    case Str(text) => Tame(text)
    case Num(n) => n < UINT64 && Cut(t, n) == n
  }

  lemma TameReadable(tags: seq<Tag>, value: Tag -> Value)
    requires forall t: Tag :: TameValue(t, value(t))
    ensures AllReadable(tags, value)
  {
    forall j | 0 <= j < |tags| ensures Readable(tags, value, j) {
      assert TameValue(tags[j], value(tags[j]));
    }
  }

  lemma QuoteFreeClear(text: string, k: string)
    requires QUOTE !in text && text != k
    ensures Clear(text, k)
  {
    if |text| > |k| {
      assert text[|text| - |k| - 1..][0] == text[|text| - |k| - 1];
    }
  }

  lemma NameStartsLow(t: Tag)
    ensures Name(t) != "" && 'a' <= Name(t)[0] <= 'z'
  {
  }

  lemma UpperCaseTame(text: string)
    requires text != "" && 'A' <= text[0] <= 'Z' && QUOTE !in text && Printable(text)
    ensures Tame(text)
  {
    forall t: Tag ensures Clear(text, Name(t)) {
      NameStartsLow(t);
      QuoteFreeClear(text, Name(t));
    }
  }

  lemma TypesTame()
    ensures Tame("PolicyVersionRecord") && Tame("ActivePolicyPointer")
  {
    UpperCaseTame("PolicyVersionRecord");
    UpperCaseTame("ActivePolicyPointer");
  }

  lemma OtherWordsTame(text: string)
    requires QUOTE !in text && Printable(text) && forall t: Tag :: text != Name(t)
    ensures Tame(text)
  {
    forall t: Tag ensures Clear(text, Name(t)) {
      QuoteFreeClear(text, Name(t));
    }
  }

  lemma SourcesTame()
    ensures Tame("") && Tame("unknown") && Tame("rollback") && Tame("manual-adopt") && Tame("taperql-apply")
  {
    OtherWordsTame("");
    OtherWordsTame("unknown");
    OtherWordsTame("rollback");
    OtherWordsTame("manual-adopt");
    OtherWordsTame("taperql-apply");
  }

  // ---- The keys a record carries ----

  lemma SlashIsNoName(text: string, t: Tag)
    requires '/' in text
    ensures text != Name(t)
  {
    NamesDiffer(t);
    assert forall i :: 0 <= i < |Name(t)| ==> IsLetter(Name(t)[i]);
  }

  lemma DigitEndClear(text: string, t: Tag)
    requires text != "" && IsDigit(text[|text| - 1])
    ensures NoQuotedEnd(text, Name(t))
  {
    var k := Name(t);
    NamesDiffer(t);
    if |text| > |k| {
      var end := text[|text| - |k| - 1..];
      assert end[|k|] == text[|text| - 1];
      assert ([QUOTE] + k)[|k|] == k[|k| - 1] && IsLetter(k[|k| - 1]);
    }
  }

  lemma SlashEndClear(text: string, t: Tag)
    requires |text| >= 5 && text[|text| - 5] == '/'
    ensures NoQuotedEnd(text, Name(t))
  {
    var k := Name(t);
    NamesDiffer(t);
    NameLength(t);
    if |text| > |k| {
      var end, i := text[|text| - |k| - 1..], |k| - 4;
      assert end[i] == text[|text| - 5];
      assert i > 0 ==> ([QUOTE] + k)[i] == k[i - 1] && IsLetter(k[i - 1]);
    }
  }

  lemma PrefixPrintable(key: ResourceKey)
    requires Printable(ToString(key))
    ensures Printable(key.namespaceName) && Printable(key.policyName) && Printable(PolicyPrefix(key))
  {
    var n, m, text := key.namespaceName, key.policyName, ToString(key);
    assert forall i :: 0 <= i < |n| ==> n[i] == text[7 + i];
    assert forall i :: 0 <= i < |m| ==> m[i] == text[8 + |n| + i];
  }

  lemma VersionKeyTame(key: ResourceKey, g: nat)
    requires Printable(ToString(key))
    ensures Tame(StateKeys.VersionKey(key, g))
  {
    var f := FormatGeneration(g);
    var text := PolicyPrefix(key) + "/versions/" + f;
    PrefixPrintable(key);
    assert text[|text| - 1] == f[|f| - 1] && IsDigit(f[|f| - 1]);
    assert text[|PolicyPrefix(key)|] == '/';
    assert forall i :: 0 <= i < |f| ==> IsDigit(f[i]);
    forall t: Tag ensures Clear(text, Name(t)) {
      SlashIsNoName(text, t);
      DigitEndClear(text, t);
    }
  }

  lemma YamlKeyTame(key: ResourceKey, g: nat)
    requires Printable(ToString(key))
    ensures Tame(StateKeys.YamlKey(key, g))
  {
    var v := StateKeys.VersionKey(key, g);
    var text := v + "/yaml";
    VersionKeyTame(key, g);
    assert text[|v|] == '/' && |text| - 5 == |v|;
    forall t: Tag ensures Clear(text, Name(t)) {
      SlashIsNoName(text, t);
      SlashEndClear(text, t);
    }
  }

  // ---- Versions and pointers ----

  /** A version the protocol builds from tame parts. */
  ghost predicate TameVersion(v: VersionRecord) {
    && v.recordType == "PolicyVersionRecord" && v.recordVersion == 1 && v.generation > 0
    && v.schemaVersion < UINT32 && v.createdAt < UINT64
    && v.policyId != "" && Tame(v.policyId) && Tame(v.canonicalHash) && Tame(v.apiVersion) && Tame(v.kind)
    && Tame(v.sourceType) && Tame(v.applyId) && Tame(v.previousPolicyId)
  }

  predicate VersionUpTo(v: VersionRecord, n: nat) { v.generation <= n && v.previousGeneration <= n }

  ghost predicate TameKey(key: ResourceKey) { Tame(ToString(key)) }

  ghost predicate TameRecord(v: VersionRecord) {
    && Tame(v.recordType) && Tame(v.resourceKey) && Tame(v.policyId) && Tame(v.canonicalHash) && Tame(v.apiVersion)
    && Tame(v.kind) && Tame(v.yamlKey) && Tame(v.sourceType) && Tame(v.applyId) && Tame(v.previousPolicyId)
    && v.recordVersion < UINT32 && v.schemaVersion < UINT32 && v.generation < UINT64
    && v.previousGeneration < UINT64 && v.createdAt < UINT64
  }

  lemma VersionValuesTame(v: VersionRecord)
    requires TameRecord(v) && Tame("")
    ensures forall t: Tag :: TameValue(t, VersionValues(v)(t))
  {
  }

  lemma VersionFits(key: ResourceKey, v: VersionRecord, n: nat)
    requires TameKey(key) && TameVersion(v) && VersionUpTo(v, n) && n < GENERATION_LIMIT
    ensures VersionWritable(key, v)
  {
    var w := StampVersion(key, v);
    TypesTame();
    SourcesTame();
    YamlKeyTame(key, v.generation);
    VersionValuesTame(w);
    TameReadable(VERSION_TAGS, VersionValues(w));
    AllReadableSurvive(VERSION_TAGS, VersionValues(w));
  }

  ghost predicate TamePointer(p: ActivePointer) {
    && Tame(p.recordType) && Tame(p.resourceKey) && Tame(p.policyId) && Tame(p.canonicalHash) && Tame(p.apiVersion)
    && Tame(p.kind) && Tame(p.versionKey) && Tame(p.yamlKey) && Tame(p.sourceType) && Tame(p.applyId)
    && Tame(p.previousPolicyId) && p.recordVersion < UINT32 && p.schemaVersion < UINT32 && p.generation < UINT64
    && p.previousGeneration < UINT64 && p.committedAt < UINT64
  }

  lemma PointerValuesTame(p: ActivePointer)
    requires TamePointer(p)
    ensures forall t: Tag :: TameValue(t, PointerValues(p)(t))
  {
  }

  lemma BuiltPointerTame(key: ResourceKey, v: VersionRecord, n: nat, now: nat)
    requires TameKey(key) && TameVersion(v) && VersionUpTo(v, n) && n < GENERATION_LIMIT && now < UINT64
    ensures TamePointer(StampPointer(key, PointerTo(key, v, now)))
  {
    TypesTame();
    VersionKeyTame(key, v.generation);
    YamlKeyTame(key, v.generation);
  }

  lemma PointerFits(key: ResourceKey, v: VersionRecord, n: nat, now: nat)
    requires TameKey(key) && TameVersion(v) && VersionUpTo(v, n) && n < GENERATION_LIMIT && now < UINT64
    ensures PointerWritable(key, PointerTo(key, v, now))
  {
    var p := StampPointer(key, PointerTo(key, v, now));
    BuiltPointerTame(key, v, n, now);
    PointerValuesTame(p);
    TameReadable(POINTER_TAGS, PointerValues(p));
    AllReadableSurvive(POINTER_TAGS, PointerValues(p));
  }

  // ---- What is submitted ----

  ghost predicate TameDocument(d: Document) { Tame(d.apiVersion) && Tame(d.kind) && d.schemaVersion < UINT32 }

  /** The language's identities, hashes and document headers are tame. */
  ghost predicate TameLanguage(L: Language) {
    && (forall d: Document :: Tame(L.fingerprint(d)))
    && (forall yaml: string :: Tame(L.canonicalHash(yaml)))
    && (forall yaml: string :: L.load(yaml).Some? ==>
          TameDocument(L.load(yaml).value) && TameDocument(L.normalize(L.load(yaml).value)))
  }

  ghost predicate TameJob(job: ApplyJob) { Tame(job.jobId) && Tame(job.sourceType) }

  ghost predicate TameRollback(req: RollbackRequest) {
    Tame(req.requestId) && req.targetGeneration < GENERATION_LIMIT
  }

  /** The ids of a request are tame, and the clock fits its field. */
  ghost predicate TameStep(step: Step) {
    match step
    case Spawn(_, a) =>
      && (a.ApplyStart? ==> TameJob(a.job)) && (a.RollbackStart? ==> TameRollback(a.rollback))
      && (a.AdoptStart? ==> Tame(a.adopt.requestId))
    case Act(_, _, ch) => ch.now < UINT64
  }

  predicate ChoiceUpTo(ch: Choice, n: nat) { ch.fetched.Some? ==> ch.fetched.value.localGeneration <= n }

  /** No generation that an adopt or a runtime names is above `n`. */
  predicate StepUpTo(step: Step, n: nat) {
    match step
    case Spawn(_, a) => a.AdoptStart? ==> a.adopt.localGeneration <= n
    case Act(_, _, ch) => ChoiceUpTo(ch, n)
  }

  // ---- What the actors then hold ----

  ghost predicate TameActor(key: ResourceKey, a: Actor) {
    match a
    case ApplyStart(job) => TameJob(job)
    case ApplyBased(job, base) => TameJob(job) && Tame(base.policyId)
    case ApplyCandidate(_, _, v, _) => TameVersion(v)
    case ApplyStored(_, _, v, _) => TameVersion(v)
    case RollbackStart(req) => TameRollback(req)
    case RollbackBased(req, _) => TameRollback(req)
    case RollbackTargeted(req, _, t) => TameRollback(req) && Tame(t.record.canonicalHash)
    case AdoptStart(req) => Tame(req.requestId)
    case AdoptBased(req, _) => Tame(req.requestId)
    case AdoptResolved(req, _, _, _, _) => Tame(req.requestId)
    case Committing(_, _, p) =>
      && TameVersion(p.version)
      && p.next == PointerTo(key, p.version, p.next.committedAt) && p.next.committedAt < UINT64
    case _ => true
  }

  /** No generation the actor holds is above `n`. */
  predicate ActorUpTo(a: Actor, n: nat) {
    match a
    case ApplyBased(_, base) => base.generation <= n
    case ApplyCandidate(_, _, v, _) => VersionUpTo(v, n)
    case ApplyStored(_, _, v, _) => VersionUpTo(v, n)
    case AdoptStart(req) => req.localGeneration <= n
    case AdoptBased(req, base) => req.localGeneration <= n && base.generation <= n
    case AdoptResolved(_, _, _, g, _) => g <= n
    case Committing(_, _, p) => VersionUpTo(p.version, n) && p.next.generation <= n
    case _ => true
  }

  ghost predicate TameStore(s: Store) { s.active.Some? ==> Tame(s.active.value.policyId) }

  predicate StoreUpTo(s: Store, n: nat) { s.active.Some? ==> s.active.value.generation <= n }

  /** The call an actor makes next fits. */
  lemma TameCallFits(L: Language, key: ResourceKey, a: Actor, ch: Choice, n: nat)
    requires TameKey(key) && TameActor(key, a) && ActorUpTo(a, n) && n < GENERATION_LIMIT
    requires ch.now < UINT64 && ChoiceUpTo(ch, n)
    ensures CallFits(key, CallOf(L, key, a, ch))
  {
    match a
    case ApplyCandidate(_, _, v, _) => VersionFits(key, v, n);
    case ApplyStored(_, _, v, _) => PointerFits(key, v, n, ch.now);
    case Committing(_, _, p) =>
      VersionFits(key, p.version, n);
      PointerFits(key, p.version, n, p.next.committedAt);
    case _ =>
  }

  // ---- Steps keep the texts tame ----

  lemma BuiltVersionTame(L: Language, base: ActivePointer, g: nat, yaml: string, hash: string, d: Document,
                         source: string, id: string, now: nat)
    requires Lawful(L) && TameLanguage(L) && Tame(base.policyId) && g > 0 && TameDocument(d)
    requires Tame(hash) && Tame(source) && Tame(id) && now < UINT64
    ensures TameVersion(VersionFor(L, base, g, yaml, hash, d, source, id, now))
  {
  }

  lemma BuildTame(L: Language, key: ResourceKey, s: Store, job: ApplyJob, base: ActivePointer, io: Io, ch: Choice)
    requires Lawful(L) && TameLanguage(L) && TameJob(job) && Tame(base.policyId) && ch.now < UINT64
    ensures TameActor(key, ApplyBuild(L, s, job, base, io, ch))
  {
    var a := ApplyBuild(L, s, job, base, io, ch);
    if a.ApplyCandidate? {
      var c := RoundTrip(L, ch.candidate.value).value;
      var source := if job.sourceType == "" then "taperql-apply" else job.sourceType;
      SourcesTame();
      BuiltVersionTame(L, base, base.generation + 1, c.yaml, L.canonicalHash(c.yaml), c.document, source, job.jobId,
                       ch.now);
    }
  }

  lemma PrepareTame(L: Language, key: ResourceKey, active: ActivePointer, input: CommitInput, audit: AuditRecord,
                    now: nat)
    requires Lawful(L) && TameLanguage(L) && Tame(active.policyId) && now < UINT64
    requires Tame(input.hashOverride) && Tame(input.sourceType) && Tame(input.applyId)
    ensures var r := PrepareCommit(L, key, active, input, audit, now);
            r.Pass? ==> TameVersion(r.value.version) && r.value.next == PointerTo(key, r.value.version, now)
  {
    var r := PrepareCommit(L, key, active, input, audit, now);
    if r.Pass? {
      var d := L.load(input.yaml).value;
      var c := if input.preserve then Canonical(input.yaml, d) else RoundTrip(L, d).value;
      var hash := if input.hashOverride == "" then L.canonicalHash(c.yaml) else input.hashOverride;
      var g := if input.generationOverride != 0 then input.generationOverride else active.generation + 1;
      var source := if input.sourceType == "" then "unknown" else input.sourceType;
      SourcesTame();
      BuiltVersionTame(L, active, g, c.yaml, hash, c.document, source, input.applyId, now);
    }
  }

  lemma RereadTame(L: Language, key: ResourceKey, s: Store, a: Actor, io: Io, ch: Choice)
    requires Lawful(L) && TameLanguage(L) && TameStore(s) && TameActor(key, a) && ch.now < UINT64
    requires a.RollbackTargeted? || a.AdoptResolved?
    ensures TameActor(key, Reread(L, key, s, a, io, ch))
  {
    SourcesTame();
    if LoadActive(s, io).Ok? {
      PrepareTame(L, key, LoadActive(s, io).value, CommitInputOf(a), AuditOf(a), ch.now);
    }
  }

  lemma TargetTame(L: Language, key: ResourceKey, s: Store, req: RollbackRequest, base: ActivePointer, io: Io)
    requires TameLanguage(L) && StoreOk(L, s) && TameRollback(req)
    ensures TameActor(key, RollbackReadTarget(s, req, base, io))
  {
    var g := req.targetGeneration;
    if LoadVersion(s, g, io).Ok? {
      assert VersionOk(L, s.versions[g], s.yamls[g], g, s.active.value.generation);
    }
  }

  lemma ReadActiveTame(key: ResourceKey, s: Store, a: Actor, io: Io)
    requires TameStore(s) && TameActor(key, a)
    ensures a.ApplyStart? ==> TameActor(key, ApplyReadActive(s, a.job, io))
    ensures a.RollbackStart? ==> TameActor(key, RollbackReadActive(s, a.rollback, io))
    ensures a.AdoptStart? ==> TameActor(key, AdoptReadActive(s, a.adopt, io))
  {
  }

  ghost predicate TameResult(key: ResourceKey, r: (Store, Actor)) { TameStore(r.0) && TameActor(key, r.1) }

  lemma CommitTame(key: ResourceKey, s: Store, a: Actor, io: Io)
    requires TameStore(s) && TameActor(key, a) && a.Committing?
    ensures TameResult(key, CommitStep(key, s, a, io))
  {
    if CommitWithAudit(s, key, a.params, io).0.active != s.active {
      CommitMovesTo(key, s, a.params, io);
    }
  }

  lemma ApplyWritesTame(key: ResourceKey, s: Store, a: Actor, io: Io, ch: Choice)
    requires TameStore(s) && TameActor(key, a)
    ensures a.ApplyCandidate? ==> TameResult(key, ApplyWrite(key, s, a, io))
    ensures a.ApplyStored? ==> TameResult(key, ApplyPromote(key, s, a, io, ch))
  {
  }

  lemma ApplyStepTame(L: Language, key: ResourceKey, s: Store, a: Actor, io: Io, ch: Choice)
    requires Lawful(L) && TameLanguage(L) && IsApply(a) && TameStore(s) && TameActor(key, a) && ch.now < UINT64
    ensures TameResult(key, StepActor(L, key, s, a, io, ch))
  {
    if a.ApplyStart? {
      ReadActiveTame(key, s, a, io);
    } else if a.ApplyBased? {
      BuildTame(L, key, s, a.job, a.base, io, ch);
    } else {
      ApplyWritesTame(key, s, a, io, ch);
    }
  }

  lemma ManualReadTame(L: Language, key: ResourceKey, s: Store, a: Actor, io: Io, ch: Choice)
    requires Lawful(L) && TameLanguage(L) && StoreOk(L, s) && !IsApply(a) && !IsFinished(a) && !a.Committing?
    requires TameStore(s) && TameActor(key, a) && ch.now < UINT64
    ensures TameResult(key, StepActor(L, key, s, a, io, ch))
  {
    match a
    case RollbackStart(_) => ReadActiveTame(key, s, a, io);
    case RollbackBased(req, base) => TargetTame(L, key, s, req, base, io);
    case RollbackTargeted(_, _, _) => RereadTame(L, key, s, a, io, ch);
    case AdoptStart(_) => ReadActiveTame(key, s, a, io);
    case AdoptBased(_, _) =>
    case AdoptResolved(_, _, _, _, _) => RereadTame(L, key, s, a, io, ch);
  }

  lemma CommitStepTame(L: Language, key: ResourceKey, s: Store, a: Actor, io: Io, ch: Choice)
    requires TameStore(s) && TameActor(key, a) && a.Committing?
    ensures TameResult(key, StepActor(L, key, s, a, io, ch))
  {
    CommitTame(key, s, a, io);
    assert StepActor(L, key, s, a, io, ch) == CommitStep(key, s, a, io);
  }

  lemma FinishedTame(L: Language, key: ResourceKey, s: Store, a: Actor, io: Io, ch: Choice)
    requires TameStore(s) && IsFinished(a)
    ensures TameResult(key, StepActor(L, key, s, a, io, ch))
  {
    assert StepActor(L, key, s, a, io, ch) == (s, a);
  }

  lemma StepTame(L: Language, key: ResourceKey, s: Store, a: Actor, io: Io, ch: Choice)
    requires Lawful(L) && TameLanguage(L) && StoreOk(L, s) && TameStore(s) && TameActor(key, a) && ch.now < UINT64
    ensures TameResult(key, StepActor(L, key, s, a, io, ch))
  {
    if IsApply(a) {
      ApplyStepTame(L, key, s, a, io, ch);
    } else if a.Committing? {
      CommitStepTame(L, key, s, a, io, ch);
    } else if IsFinished(a) {
      FinishedTame(L, key, s, a, io, ch);
    } else {
      ManualReadTame(L, key, s, a, io, ch);
    }
  }

  // ---- Steps raise the generations by at most one ----

  predicate ResultUpTo(r: (Store, Actor), n: nat) { StoreUpTo(r.0, n) && ActorUpTo(r.1, n) }

  lemma RereadUpTo(L: Language, key: ResourceKey, s: Store, a: Actor, io: Io, ch: Choice, n: nat)
    requires StoreUpTo(s, n) && ActorUpTo(a, n) && (a.RollbackTargeted? || a.AdoptResolved?)
    ensures ActorUpTo(Reread(L, key, s, a, io, ch), n + 1)
  {
  }

  lemma CommitUpTo(key: ResourceKey, s: Store, a: Actor, io: Io, n: nat)
    requires StoreUpTo(s, n) && ActorUpTo(a, n) && a.Committing?
    ensures ResultUpTo(CommitStep(key, s, a, io), n)
  {
    if CommitWithAudit(s, key, a.params, io).0.active != s.active {
      CommitMovesTo(key, s, a.params, io);
    }
  }

  lemma ApplyStepUpTo(L: Language, key: ResourceKey, s: Store, a: Actor, io: Io, ch: Choice, n: nat)
    requires StoreUpTo(s, n) && ActorUpTo(a, n) && IsApply(a)
    ensures ResultUpTo(StepActor(L, key, s, a, io, ch), n + 1)
  {
    if a.ApplyBased? {
      BuildUpTo(L, s, a.job, a.base, io, ch);
    } else if !a.ApplyStart? {
      ApplyWritesUpTo(key, s, a, io, ch, n);
    }
  }

  lemma BuildUpTo(L: Language, s: Store, job: ApplyJob, base: ActivePointer, io: Io, ch: Choice)
    ensures ActorUpTo(ApplyBuild(L, s, job, base, io, ch), base.generation + 1)
  {
  }

  lemma ApplyWritesUpTo(key: ResourceKey, s: Store, a: Actor, io: Io, ch: Choice, n: nat)
    requires StoreUpTo(s, n) && ActorUpTo(a, n)
    ensures a.ApplyCandidate? ==> ResultUpTo(ApplyWrite(key, s, a, io), n)
    ensures a.ApplyStored? ==> ResultUpTo(ApplyPromote(key, s, a, io, ch), n)
  {
  }

  lemma StepKeepsUpTo(L: Language, key: ResourceKey, s: Store, a: Actor, io: Io, ch: Choice, n: nat)
    requires StoreUpTo(s, n) && ActorUpTo(a, n) && ChoiceUpTo(ch, n)
    ensures ResultUpTo(StepActor(L, key, s, a, io, ch), n + 1)
  {
    if IsApply(a) {
      ApplyStepUpTo(L, key, s, a, io, ch, n);
    } else if a.Committing? {
      CommitUpTo(key, s, a, io, n);
    } else if a.RollbackTargeted? || a.AdoptResolved? {
      RereadUpTo(L, key, s, a, io, ch, n);
    }
  }

  // ---- Runs ----

  ghost predicate TameConfig(key: ResourceKey, c: Config) {
    TameStore(c.store) && forall id :: id in c.actors ==> TameActor(key, c.actors[id])
  }

  predicate ConfigUpTo(c: Config, n: nat) {
    StoreUpTo(c.store, n) && forall id :: id in c.actors ==> ActorUpTo(c.actors[id], n)
  }

  lemma ExecTame(L: Language, key: ResourceKey, c: Config, step: Step)
    requires Lawful(L) && TameLanguage(L) && StoreOk(L, c.store) && TameConfig(key, c) && TameStep(step)
    ensures TameConfig(key, Exec(L, key, c, step))
  {
    if step.Act? && step.id in c.actors {
      var r := StepActor(L, key, c.store, c.actors[step.id], step.io, step.choice);
      StepTame(L, key, c.store, c.actors[step.id], step.io, step.choice);
      assert Exec(L, key, c, step) == Config(r.0, c.actors[step.id := r.1]);
    }
  }

  lemma ExecUpTo(L: Language, key: ResourceKey, c: Config, step: Step, n: nat, m: nat)
    requires ConfigUpTo(c, n) && StepUpTo(step, n) && n + 1 == m
    ensures ConfigUpTo(Exec(L, key, c, step), m)
  {
    if step.Act? && step.id in c.actors {
      var r := StepActor(L, key, c.store, c.actors[step.id], step.io, step.choice);
      StepKeepsUpTo(L, key, c.store, c.actors[step.id], step.io, step.choice, n);
      assert Exec(L, key, c, step) == Config(r.0, c.actors[step.id := r.1]);
    }
  }

  /** Requests with tame ids that name no generation above `top`. */
  ghost predicate TameSteps(steps: seq<Step>, top: nat) {
    forall i :: 0 <= i < |steps| ==> TameStep(steps[i]) && StepUpTo(steps[i], top)
  }

  lemma {:induction false} RunUpTo(L: Language, key: ResourceKey, c: Config, steps: seq<Step>, top: nat)
    requires ConfigUpTo(c, top) && TameSteps(steps, top)
    ensures ConfigUpTo(Run(L, key, c, steps), top + |steps|)
  {
    if steps != [] {
      var n := |steps| - 1;
      RunUpTo(L, key, c, steps[..n], top);
      ExecUpTo(L, key, Run(L, key, c, steps[..n]), steps[n], top + |steps[..n]|, top + |steps|);
    }
  }

  /** The generations at hand, and those the step names, have room in a version key. */
  predicate Roomy(c: Config, step: Step) {
    ConfigUpTo(c, GENERATION_LIMIT - 1) && StepUpTo(step, GENERATION_LIMIT - 1)
  }

  lemma UpToMore(c: Config, step: Step, m: nat, top: nat, n: nat)
    requires ConfigUpTo(c, m) && StepUpTo(step, top) && top <= n && m <= n
    ensures ConfigUpTo(c, n) && StepUpTo(step, n)
  {
  }

  ghost predicate AllTame(steps: seq<Step>) { forall i :: 0 <= i < |steps| ==> TameStep(steps[i]) }

  lemma {:induction false} RunTame(L: Language, key: ResourceKey, c: Config, steps: seq<Step>)
    requires Lawful(L) && TameLanguage(L) && Inv(L, key, c) && TameConfig(key, c) && AllTame(steps)
    ensures TameConfig(key, Run(L, key, c, steps))
  {
    if steps != [] {
      var n := |steps| - 1;
      RunTame(L, key, c, steps[..n]);
      RunKeeps(L, key, c, steps[..n]);
      ExecTame(L, key, Run(L, key, c, steps[..n]), steps[n]);
    }
  }

  /** A configuration and the step taken in it. */
  ghost predicate Calm(key: ResourceKey, c: Config, step: Step) {
    TameConfig(key, c) && TameStep(step) && Roomy(c, step)
  }

  ghost predicate CalmRun(L: Language, key: ResourceKey, c: Config, steps: seq<Step>) {
    forall i :: 0 <= i < |steps| ==> Calm(key, Run(L, key, c, steps[..i]), steps[i])
  }

  lemma RunIsRoomy(L: Language, key: ResourceKey, c: Config, steps: seq<Step>, top: nat, i: nat)
    requires ConfigUpTo(c, top) && TameSteps(steps, top) && top + |steps| <= GENERATION_LIMIT && i < |steps|
    ensures Roomy(Run(L, key, c, steps[..i]), steps[i])
  {
    RunUpTo(L, key, c, steps[..i], top);
    UpToMore(Run(L, key, c, steps[..i]), steps[i], top + |steps[..i]|, top, GENERATION_LIMIT - 1);
  }

  lemma TameRunIsCalm(L: Language, key: ResourceKey, c: Config, steps: seq<Step>, top: nat)
    requires Lawful(L) && TameLanguage(L) && Inv(L, key, c) && TameConfig(key, c)
    requires ConfigUpTo(c, top) && TameSteps(steps, top) && top + |steps| <= GENERATION_LIMIT
    ensures CalmRun(L, key, c, steps)
  {
    forall i | 0 <= i < |steps| ensures Calm(key, Run(L, key, c, steps[..i]), steps[i]) {
      RunTame(L, key, c, steps[..i]);
      RunIsRoomy(L, key, c, steps, top, i);
    }
  }

  lemma StepFitsTame(L: Language, key: ResourceKey, f: FlatConfig, c: Config, step: Step)
    requires TameKey(key) && f.actors == c.actors && Calm(key, c, step)
    ensures StepFits(L, key, f, step)
  {
    if step.Act? && step.id in c.actors {
      TameCallFits(L, key, c.actors[step.id], step.choice, GENERATION_LIMIT - 1);
    }
  }

  lemma FitsAppend(L: Language, key: ResourceKey, codec: Codec, f: FlatConfig, steps: seq<Step>)
    requires steps != [] && RunFits(L, key, codec, f, steps[..|steps| - 1])
    requires StepFits(L, key, FlatSteps(L, key, codec, f, steps[..|steps| - 1]), steps[|steps| - 1])
    ensures RunFits(L, key, codec, f, steps)
  {
    var rest := steps[..|steps| - 1];
    forall i | 0 <= i < |steps| ensures StepFits(L, key, FlatSteps(L, key, codec, f, steps[..i]), steps[i]) {
      if i < |rest| {
        assert StepFits(L, key, FlatSteps(L, key, codec, f, rest[..i]), rest[i]);
        assert rest[..i] == steps[..i];
      }
    }
  }

  lemma NextFits(L: Language, key: ResourceKey, audit: AuditRecord -> string, f: FlatConfig, c: Config,
                 steps: seq<Step>, step: Step)
    requires Holds(key, audit, f, c) && RunFits(L, key, Json(audit), f, steps)
    requires TameKey(key) && Calm(key, Run(L, key, c, steps), step)
    ensures StepFits(L, key, FlatSteps(L, key, Json(audit), f, steps), step)
  {
    FlatRunIsRun(L, key, audit, f, c, steps);
    StepFitsTame(L, key, FlatSteps(L, key, Json(audit), f, steps), Run(L, key, c, steps), step);
  }

  lemma CalmPrefix(L: Language, key: ResourceKey, c: Config, steps: seq<Step>)
    requires steps != [] && CalmRun(L, key, c, steps)
    ensures CalmRun(L, key, c, steps[..|steps| - 1])
    ensures Calm(key, Run(L, key, c, steps[..|steps| - 1]), steps[|steps| - 1])
  {
    var rest := steps[..|steps| - 1];
    forall i | 0 <= i < |rest| ensures Calm(key, Run(L, key, c, rest[..i]), rest[i]) {
      assert rest[..i] == steps[..i] && Calm(key, Run(L, key, c, steps[..i]), steps[i]);
    }
  }

  lemma {:induction false} CalmRunFits(L: Language, key: ResourceKey, audit: AuditRecord -> string, f: FlatConfig,
                                       c: Config, steps: seq<Step>)
    requires TameKey(key) && Holds(key, audit, f, c) && CalmRun(L, key, c, steps)
    ensures RunFits(L, key, Json(audit), f, steps)
  {
    if steps != [] {
      var n := |steps| - 1;
      CalmPrefix(L, key, c, steps);
      CalmRunFits(L, key, audit, f, c, steps[..n]);
      NextFits(L, key, audit, f, c, steps[..n], steps[n]);
      FitsAppend(L, key, Json(audit), f, steps);
    }
  }

  lemma InitialTame(L: Language, key: ResourceKey, c: Config)
    requires TameLanguage(L) && Initial(L, key, c)
    ensures TameConfig(key, c)
  {
  }

  /** Tame requests keep every call of a run within the flat database, as long as the generations they name and
      the length of the run leave room below 10^15. */
  lemma TameRunFits(L: Language, key: ResourceKey, audit: AuditRecord -> string, f: FlatConfig, c: Config,
                    steps: seq<Step>, top: nat)
    requires Lawful(L) && TameLanguage(L) && TameKey(key) && Initial(L, key, c) && Holds(key, audit, f, c)
    requires c.store.active.value.generation <= top && TameSteps(steps, top) && top + |steps| <= GENERATION_LIMIT
    ensures RunFits(L, key, Json(audit), f, steps)
  {
    InitialInv(L, key, c);
    InitialTame(L, key, c);
    TameRunIsCalm(L, key, c, steps, top);
    CalmRunFits(L, key, audit, f, c, steps);
  }

  /** So under such requests the flat database is consistent at every moment of every interleaving. */
  lemma TameAlwaysConsistent(L: Language, key: ResourceKey, audit: AuditRecord -> string, f: FlatConfig, c: Config,
                             steps: seq<Step>, top: nat, io: Io)
    requires Lawful(L) && TameLanguage(L) && TameKey(key) && Initial(L, key, c) && Holds(key, audit, f, c)
    requires c.store.active.value.generation <= top && TameSteps(steps, top) && top + |steps| <= GENERATION_LIMIT
    requires io.activeRead && io.versionRead && io.yamlRead
    ensures FlatConsistent(L, key, Json(audit), FlatSteps(L, key, Json(audit), f, steps).db, io)
  {
    TameRunFits(L, key, audit, f, c, steps, top);
    FlatAlwaysConsistent(L, key, audit, f, c, steps, io);
  }
}
