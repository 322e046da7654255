/** The commit protocol executed on the flat database. Every actor makes one store operation a step and
    continues from its answer, so a run on the flat database is a run on the typed store. */
module FlatProtocol {
  import opened StateKeys
  import opened PolicyRecords
  import opened PolicyStateStore
  import opened FlatStore
  import opened FlatOperations
  import opened CommitProtocol
  import opened CommitRuns

  // ---- Calls and answers ----

  datatype Call =
    | NoCall
    | GetActive
    | GetVersion(generation: nat)
    | PutNew(version: VersionRecord, yaml: string)
    | MoveActive(expected: ExpectedActive, next: ActivePointer)
    | CommitAll(params: CommitParams)

  datatype Answer =
    | NoAnswer
    | TheActive(active: Result<ActivePointer>)
    | TheVersion(version: Result<Version>)
    | Stored(stored: Result<()>)
    | Moved(moved: Result<Promotion>)

  /** The store operation an actor makes in its next step. */
  function CallOf(L: Language, key: ResourceKey, a: Actor, ch: Choice): Call {
    match a
    case ApplyStart(_) => GetActive
    case ApplyBased(_, base) => GetVersion(base.generation)
    case ApplyCandidate(_, _, v, yaml) => PutNew(v, yaml)
    case ApplyStored(_, base, v, _) => MoveActive(Expect(base), PointerTo(key, v, ch.now))
    case RollbackStart(_) => GetActive
    case RollbackBased(req, _) => GetVersion(req.targetGeneration)
    case RollbackTargeted(_, _, _) => GetActive
    case AdoptStart(_) => GetActive
    case AdoptBased(req, base) =>
      var local := ResolveLocal(L, req, ch.fetched);
      if local.Pass? && local.value.hint > base.generation then GetVersion(local.value.hint) else NoCall
    case AdoptResolved(_, _, _, _, _) => GetActive
    case Committing(_, _, p) => CommitAll(p)
    case Committed(_, _) => NoCall
    case Failed(_) => NoCall
  }

  predicate Answers(call: Call, r: Answer) {
    match call
    case NoCall => r.NoAnswer?
    case GetActive => r.TheActive?
    case GetVersion(_) => r.TheVersion?
    case PutNew(_, _) => r.Stored?
    case MoveActive(_, _) => r.Moved?
    case CommitAll(_) => r.Stored?
  }

  /** Where the answer takes the actor. */
  function Continue(L: Language, key: ResourceKey, a: Actor, r: Answer, ch: Choice): Actor
    requires Answers(CallOf(L, key, a, ch), r)
  {
    match a
    case ApplyStart(job) => ApplyOnActive(job, r.active)
    case ApplyBased(job, base) => ApplyOnVersion(L, job, base, r.version, ch)
    case ApplyCandidate(_, _, _, _) => ApplyOnStored(a, r.stored)
    case ApplyStored(_, _, _, _) => ApplyOnPromoted(a, r.moved)
    case RollbackStart(req) => RollbackOnActive(req, r.active)
    case RollbackBased(req, base) => RollbackOnTarget(req, base, r.version)
    case RollbackTargeted(_, _, _) => RereadOnActive(L, key, a, r.active, ch)
    case AdoptStart(req) => AdoptOnActive(req, r.active)
    case AdoptBased(req, base) =>
      AdoptOnHint(req, base, ResolveLocal(L, req, ch.fetched), r.TheVersion? && r.version.Err?)
    case AdoptResolved(_, _, _, _, _) => RereadOnActive(L, key, a, r.active, ch)
    case Committing(_, _, _) => CommitOnWritten(a, r.stored)
    case Committed(_, _) => a
    case Failed(_) => a
  }

  /** A call on the typed store. */
  function Ask(key: ResourceKey, s: Store, call: Call, io: Io): (r: (Store, Answer))
    ensures Answers(call, r.1)
  {
    match call
    case NoCall => (s, NoAnswer)
    case GetActive => (s, TheActive(LoadActive(s, io)))
    case GetVersion(g) => (s, TheVersion(LoadVersion(s, g, io)))
    case PutNew(v, yaml) => var (t, r) := StoreVersion(s, key, v, yaml, io); (t, Stored(r))
    case MoveActive(expected, next) => var (t, r) := Promote(s, key, expected, next, io); (t, Moved(r))
    case CommitAll(p) => var (t, r) := CommitWithAudit(s, key, p, io); (t, Stored(r))
  }

  /** The same call on the flat database. */
  function FlatAsk(key: ResourceKey, codec: Codec, db: Flat, call: Call, io: Io): (r: (Flat, Answer))
    ensures Answers(call, r.1)
  {
    match call
    case NoCall => (db, NoAnswer)
    case GetActive => (db, TheActive(FlatLoadActive(db, key, codec, io)))
    case GetVersion(g) => (db, TheVersion(FlatLoadVersion(db, key, codec, g, io)))
    case PutNew(v, yaml) => var (t, r) := FlatStoreVersion(db, key, codec, v, yaml, io); (t, Stored(r))
    case MoveActive(expected, next) => var (t, r) := FlatPromote(db, key, codec, expected, next, io); (t, Moved(r))
    case CommitAll(p) => var (t, r) := FlatCommit(db, key, codec, p, io); (t, Stored(r))
  }

  /** A step of an actor is its call and its continuation. */
  lemma StepIsCall(L: Language, key: ResourceKey, s: Store, a: Actor, io: Io, ch: Choice)
    ensures var (t, r) := Ask(key, s, CallOf(L, key, a, ch), io);
            StepActor(L, key, s, a, io, ch) == (t, Continue(L, key, a, r, ch))
  {
  }

  // ---- One call ----

  /** The generations have room in their keys and the records read back. */
  ghost predicate CallFits(key: ResourceKey, call: Call) {
    match call
    case GetVersion(g) => g < GENERATION_LIMIT
    case PutNew(v, _) => VersionWritable(key, v)
    case MoveActive(_, next) => PointerWritable(key, next)
    case CommitAll(p) => VersionWritable(key, p.version) && PointerWritable(key, p.next)
    case _ => true
  }

  lemma AskAgrees(key: ResourceKey, audit: AuditRecord -> string, db: Flat, s: Store, call: Call, io: Io)
    requires HoldsStore(db, key, s, Json(audit)) && CallFits(key, call)
    ensures var (db', r) := FlatAsk(key, Json(audit), db, call, io);
            var (s', q) := Ask(key, s, call, io);
            r == q && HoldsStore(db', key, s', Json(audit))
  {
    match call
    case NoCall =>
    case GetActive => LoadActiveAgrees(db, key, s, Json(audit), io);
    case GetVersion(g) => LoadsOnFlat(db, key, s, audit, g, io);
    case PutNew(v, yaml) => StoreVersionOnFlat(db, key, s, audit, v, yaml, io);
    case MoveActive(expected, next) => PromoteOnFlat(db, key, s, audit, expected, next, io);
    case CommitAll(p) => CommitOnFlat(db, key, s, audit, p, io);
  }

  // ---- Runs ----

  datatype FlatConfig = FlatConfig(db: Flat, actors: map<nat, Actor>)

  function FlatExec(L: Language, key: ResourceKey, codec: Codec, c: FlatConfig, step: Step): FlatConfig {
    match step
    case Spawn(id, a) => if id !in c.actors && IsStart(a) then c.(actors := c.actors[id := a]) else c
    case Act(id, io, ch) =>
      if id !in c.actors then c
      else
        var (db', r) := FlatAsk(key, codec, c.db, CallOf(L, key, c.actors[id], ch), io);
        FlatConfig(db', c.actors[id := Continue(L, key, c.actors[id], r, ch)])
  }

  function FlatSteps(L: Language, key: ResourceKey, codec: Codec, c: FlatConfig, steps: seq<Step>): FlatConfig {
    if steps == [] then c
    else FlatExec(L, key, codec, FlatSteps(L, key, codec, c, steps[..|steps| - 1]), steps[|steps| - 1])
  }

  ghost predicate StepFits(L: Language, key: ResourceKey, c: FlatConfig, step: Step) {
    step.Act? && step.id in c.actors ==> CallFits(key, CallOf(L, key, c.actors[step.id], step.choice))
  }

  /** Every call of the run fits the flat database. */
  ghost predicate RunFits(L: Language, key: ResourceKey, codec: Codec, c: FlatConfig, steps: seq<Step>) {
    forall i :: 0 <= i < |steps| ==> StepFits(L, key, FlatSteps(L, key, codec, c, steps[..i]), steps[i])
  }

  ghost predicate Holds(key: ResourceKey, audit: AuditRecord -> string, f: FlatConfig, c: Config) {
    HoldsStore(f.db, key, c.store, Json(audit)) && f.actors == c.actors
  }

  lemma ExecAgrees(L: Language, key: ResourceKey, audit: AuditRecord -> string, f: FlatConfig, c: Config, step: Step)
    requires Holds(key, audit, f, c) && StepFits(L, key, f, step)
    ensures Holds(key, audit, FlatExec(L, key, Json(audit), f, step), Exec(L, key, c, step))
  {
    if step.Act? && step.id in c.actors {
      var a := c.actors[step.id];
      StepIsCall(L, key, c.store, a, step.io, step.choice);
      AskAgrees(key, audit, f.db, c.store, CallOf(L, key, a, step.choice), step.io);
    }
  }

  lemma PrefixFits(L: Language, key: ResourceKey, codec: Codec, c: FlatConfig, steps: seq<Step>)
    requires steps != [] && RunFits(L, key, codec, c, steps)
    ensures RunFits(L, key, codec, c, steps[..|steps| - 1])
    ensures StepFits(L, key, FlatSteps(L, key, codec, c, steps[..|steps| - 1]), steps[|steps| - 1])
  {
    var rest := steps[..|steps| - 1];
    forall i | 0 <= i < |rest| ensures StepFits(L, key, FlatSteps(L, key, codec, c, rest[..i]), rest[i]) {
      assert rest[..i] == steps[..i] && rest[i] == steps[i];
    }
  }

  /** Any number of applies, rollbacks and adopts on the flat database, in any interleaving, do what they do on
      the typed store, and the flat database holds that store throughout. */
  lemma {:induction false} FlatRunIsRun(L: Language, key: ResourceKey, audit: AuditRecord -> string, f: FlatConfig,
                                        c: Config, steps: seq<Step>)
    requires Holds(key, audit, f, c) && RunFits(L, key, Json(audit), f, steps)
    ensures Holds(key, audit, FlatSteps(L, key, Json(audit), f, steps), Run(L, key, c, steps))
  {
    if steps != [] {
      var n := |steps| - 1;
      PrefixFits(L, key, Json(audit), f, steps);
      FlatRunIsRun(L, key, audit, f, c, steps[..n]);
      ExecAgrees(L, key, audit, FlatSteps(L, key, Json(audit), f, steps[..n]), Run(L, key, c, steps[..n]), steps[n]);
    }
  }

  /** The pointer that is read leads to a version and a text, and hash and identity agree. */
  predicate FlatConsistent(L: Language, key: ResourceKey, codec: Codec, db: Flat, io: Io) {
    var active := FlatLoadActive(db, key, codec, io);
    && active.Ok?
    && var p := active.value;
    && var version := FlatLoadVersion(db, key, codec, p.generation, io);
    && version.Ok?
    && p.canonicalHash == version.value.record.canonicalHash == L.canonicalHash(version.value.yaml)
    && p.policyId == version.value.record.policyId == IdentityOf(L, version.value.yaml)
  }

  /** At every moment of such a run the pointer read from the flat database leads to a version and a text in it,
      and the three agree. */
  lemma FlatAlwaysConsistent(L: Language, key: ResourceKey, audit: AuditRecord -> string, f: FlatConfig, c: Config,
                             steps: seq<Step>, io: Io)
    requires Lawful(L) && Initial(L, key, c) && Holds(key, audit, f, c) && RunFits(L, key, Json(audit), f, steps)
    requires io.activeRead && io.versionRead && io.yamlRead
    ensures FlatConsistent(L, key, Json(audit), FlatSteps(L, key, Json(audit), f, steps).db, io)
  {
    FlatRunIsRun(L, key, audit, f, c, steps);
    InitialInv(L, key, c);
    RunKeeps(L, key, c, steps);
    var db, s := FlatSteps(L, key, Json(audit), f, steps).db, Run(L, key, c, steps).store;
    LoadsOnFlat(db, key, s, audit, s.active.value.generation, io);
  }
}
