/** What holds over whole runs of the commit protocol, for any number of actors. */
module CommitRuns {
  import opened Text
  import opened StateKeys
  import opened PolicyRecords
  import opened PolicyStateStore
  import opened CommitProtocol

  lemma InitialInv(L: Language, key: ResourceKey, c: Config)
    requires Initial(L, key, c)
    ensures Inv(L, key, c)
  {
    var s := c.store;
    var p := s.active.value;
    forall g ensures g in s.versions <==> g in s.yamls {
      assert g in s.versions.Keys <==> g in s.yamls.Keys;
    }
    forall g | g in s.versions ensures VersionOk(L, s.versions[g], s.yamls[g], g, p.generation) {
      assert g in s.versions.Keys;
      assert g == p.generation;
    }
  }

  /** A sound step of one actor leaves the others sound. */
  lemma OthersStay(L: Language, key: ResourceKey, c: Config, id: nat, r: (Store, Actor))
    requires Inv(L, key, c) && StepSound(L, key, c.store, r)
    ensures Inv(L, key, Config(r.0, c.actors[id := r.1]))
  {
    forall other | other in c.actors && other != id ensures ActorOk(L, key, r.0, c.actors[other]) {
      ActorStable(L, key, c.store, r.0, c.actors[other]);
    }
  }

  lemma ExecKeeps(L: Language, key: ResourceKey, c: Config, step: Step)
    requires Lawful(L) && Inv(L, key, c)
    ensures Inv(L, key, Exec(L, key, c, step)) && Grows(c.store, Exec(L, key, c, step).store)
  {
    match step
    case Spawn(id, a) => SpawnKeeps(L, key, c, id, a);
    case Act(id, io, ch) =>
      if id in c.actors {
        StepKeeps(L, key, c.store, c.actors[id], io, ch);
        OthersStay(L, key, c, id, StepActor(L, key, c.store, c.actors[id], io, ch));
      }
  }

  lemma SpawnKeeps(L: Language, key: ResourceKey, c: Config, id: nat, a: Actor)
    requires Inv(L, key, c)
    ensures IsStart(a) ==> Inv(L, key, c.(actors := c.actors[id := a]))
  {
  }

  lemma {:induction false} RunKeeps(L: Language, key: ResourceKey, c: Config, steps: seq<Step>)
    requires Lawful(L) && Inv(L, key, c)
    ensures Inv(L, key, Run(L, key, c, steps)) && Grows(c.store, Run(L, key, c, steps).store)
  {
    if steps != [] {
      var n := |steps| - 1;
      RunKeeps(L, key, c, steps[..n]);
      ExecKeeps(L, key, Run(L, key, c, steps[..n]), steps[n]);
    }
  }

  lemma {:induction false} RunFrom(L: Language, key: ResourceKey, c: Config, steps: seq<Step>, i: nat)
    requires i <= |steps|
    ensures Run(L, key, Run(L, key, c, steps[..i]), steps[i..]) == Run(L, key, c, steps)
    decreases |steps| - i
  {
    if i == |steps| {
      assert steps[..i] == steps;
    } else {
      var n := |steps| - 1;
      RunFrom(L, key, c, steps[..n], i);
      assert steps[..n][..i] == steps[..i];
      assert steps[i..][..n - i] == steps[..n][i..];
    }
  }

  /** From any moment of a run on the store only grows. */
  lemma RunGrows(L: Language, key: ResourceKey, c: Config, steps: seq<Step>, i: nat)
    requires Lawful(L) && Inv(L, key, c) && i <= |steps|
    ensures Grows(Run(L, key, c, steps[..i]).store, Run(L, key, c, steps).store)
  {
    RunKeeps(L, key, c, steps[..i]);
    RunKeeps(L, key, Run(L, key, c, steps[..i]), steps[i..]);
    RunFrom(L, key, c, steps, i);
  }

  /** At every moment of every run the active pointer names a stored version and text; the
      pointer's hash is the record's and the text's, and its policy id is the text's identity. */
  lemma ActiveAlwaysConsistent(L: Language, key: ResourceKey, c: Config, steps: seq<Step>)
    requires Lawful(L) && Initial(L, key, c)
    ensures var s := Run(L, key, c, steps).store;
            && s.active.Some?
            && var p := s.active.value;
            && p.generation in s.versions && p.generation in s.yamls
            && p.canonicalHash == s.versions[p.generation].canonicalHash == L.canonicalHash(s.yamls[p.generation])
            && p.policyId == s.versions[p.generation].policyId == IdentityOf(L, s.yamls[p.generation])
  {
    InitialInv(L, key, c);
    RunKeeps(L, key, c, steps);
  }

  /** Nothing stored is ever changed, and nothing stored, orphans included, is more than one
      generation ahead of the active pointer. */
  lemma VersionsImmutableAndBounded(L: Language, key: ResourceKey, c: Config, steps: seq<Step>, i: nat)
    requires Lawful(L) && Initial(L, key, c) && i <= |steps|
    ensures var s := Run(L, key, c, steps[..i]).store;
            var t := Run(L, key, c, steps).store;
            && (forall g :: g in s.versions ==> g in t.versions && t.versions[g] == s.versions[g])
            && (forall g :: g in s.yamls ==> g in t.yamls && t.yamls[g] == s.yamls[g])
            && t.active.Some?
            && (forall g :: g in t.versions ==> g <= t.active.value.generation + 1)
  {
    InitialInv(L, key, c);
    RunGrows(L, key, c, steps, i);
    RunKeeps(L, key, c, steps);
  }

  /** The second pointer is the first or one of a later generation. */
  predicate NotBefore(p: Option<ActivePointer>, q: Option<ActivePointer>) {
    && p.Some? && q.Some?
    && p.value.generation <= q.value.generation
    && (p.value.generation == q.value.generation ==> p == q)
  }

  lemma GrownNotBefore(s: Store, t: Store)
    requires Grows(s, t)
    ensures NotBefore(s.active, t.active)
  {
  }

  /** The generation of the pointer never falls, and two moments with the same generation have
      the same pointer: a pointer value once left is never seen again. */
  lemma PointerNeverReturns(L: Language, key: ResourceKey, c: Config, steps: seq<Step>, i: nat, j: nat)
    requires Lawful(L) && Inv(L, key, c) && i <= j <= |steps|
    ensures NotBefore(Run(L, key, c, steps[..i]).store.active, Run(L, key, c, steps[..j]).store.active)
  {
    RunGrows(L, key, c, steps[..j], i);
    assert steps[..j][..i] == steps[..i];
    GrownNotBefore(Run(L, key, c, steps[..i]).store, Run(L, key, c, steps[..j]).store);
  }

  // ---- Lost updates ----

  /** The pointer an actor took as its base. */
  function BaseOf(a: Actor): Option<ActivePointer> {
    match a
    case ApplyBased(_, b) => Some(b)
    case ApplyCandidate(_, b, _, _) => Some(b)
    case ApplyStored(_, b, _, _) => Some(b)
    case RollbackBased(_, b) => Some(b)
    case RollbackTargeted(_, b, _) => Some(b)
    case AdoptBased(_, b) => Some(b)
    case AdoptResolved(_, b, _, _, _) => Some(b)
    case Committing(_, b, _) => Some(b)
    case _ => None
  }

  predicate StepsByOne(a: Actor) { IsApply(a) || (a.Committing? && a.origin.FromRollback?) }

  /** `q` replaces exactly what `a` read, says so, and is newer. */
  predicate Succeeds(a: Actor, p: ActivePointer, q: ActivePointer) {
    && BaseOf(a) == Some(p)
    && q.previousGeneration == p.generation
    && q.previousPolicyId == p.policyId
    && q.generation > p.generation
    && (StepsByOne(a) ==> q.generation == p.generation + 1)
  }

  lemma PromoteSucceeds(L: Language, key: ResourceKey, s: Store, a: Actor, io: Io, ch: Choice)
    requires StoreOk(L, s) && a.ApplyStored? && ActorOk(L, key, s, a)
    requires ApplyPromote(key, s, a, io, ch).0.active != s.active
    ensures ApplyPromote(key, s, a, io, ch).0.active.Some?
    ensures Succeeds(a, s.active.value, ApplyPromote(key, s, a, io, ch).0.active.value)
  {
    CompareMeansBase(s, a.base, PointerTo(key, a.version, ch.now), io);
  }

  lemma CommitSucceeds(L: Language, key: ResourceKey, s: Store, a: Actor, io: Io)
    requires StoreOk(L, s) && a.Committing? && ActorOk(L, key, s, a)
    requires CommitStep(key, s, a, io).0.active != s.active
    ensures CommitStep(key, s, a, io).0.active.Some?
    ensures Succeeds(a, s.active.value, CommitStep(key, s, a, io).0.active.value)
  {
    CommitMovesTo(key, s, a.params, io);
    CompareMeansBase(s, a.base, a.params.next, io);
  }

  /** A commit that changes the pointer found its base and left the prepared pointer. */
  lemma CommitMovesTo(key: ResourceKey, s: Store, p: CommitParams, io: Io)
    requires CommitWithAudit(s, key, p, io).0.active != s.active
    ensures CommitWithAudit(s, key, p, io).0.active == Some(StampPointer(key, p.next))
    ensures ComparePointer(s, p.expected, p.next, io) == Ok(false)
  {
  }

  /** Only promotions and commits touch the pointer. */
  lemma OthersKeepPointer(L: Language, key: ResourceKey, s: Store, a: Actor, io: Io, ch: Choice)
    requires !a.ApplyStored? && !a.Committing?
    ensures StepActor(L, key, s, a, io, ch).0.active == s.active
  {}

  lemma ActorMovesPointer(L: Language, key: ResourceKey, s: Store, a: Actor, io: Io, ch: Choice)
    requires StoreOk(L, s) && ActorOk(L, key, s, a)
    requires StepActor(L, key, s, a, io, ch).0.active != s.active
    ensures var q := StepActor(L, key, s, a, io, ch).0.active; q.Some? && Succeeds(a, s.active.value, q.value)
  {
    if a.ApplyStored? {
      PromoteSucceeds(L, key, s, a, io, ch);
    } else if a.Committing? {
      CommitSucceeds(L, key, s, a, io);
    } else {
      OthersKeepPointer(L, key, s, a, io, ch);
    }
  }

  lemma ExecMovesPointer(L: Language, key: ResourceKey, d: Config, step: Step)
    requires Inv(L, key, d) && Exec(L, key, d, step).store.active != d.store.active
    ensures step.Act? && step.id in d.actors && d.store.active.Some?
    ensures var q := Exec(L, key, d, step).store.active;
            q.Some? && Succeeds(d.actors[step.id], d.store.active.value, q.value)
  {
    ActorMovesPointer(L, key, d.store, d.actors[step.id], step.io, step.choice);
  }

  lemma RunStep(L: Language, key: ResourceKey, c: Config, steps: seq<Step>, step: Step)
    ensures Run(L, key, c, steps + [step]) == Exec(L, key, Run(L, key, c, steps), step)
  {
    assert (steps + [step])[..|steps|] == steps;
  }

  /** Until it finishes an actor stays on the pointer it first read: the second read of a
      rollback or adopt goes on only with that very pointer. */
  lemma StepKeepsBase(L: Language, key: ResourceKey, s: Store, a: Actor, io: Io, ch: Choice)
    requires StoreOk(L, s) && ActorOk(L, key, s, a) && BaseOf(a).Some?
    ensures var a' := StepActor(L, key, s, a, io, ch).1; IsFinished(a') || BaseOf(a') == BaseOf(a)
  {
    if a.RollbackTargeted? || a.AdoptResolved? {
      RereadKeepsBase(L, key, s, a, io, ch);
    } else {
      ReadOnceKeepsBase(L, key, s, a, io, ch);
    }
  }

  lemma RereadKeepsBase(L: Language, key: ResourceKey, s: Store, a: Actor, io: Io, ch: Choice)
    requires StoreOk(L, s) && ActorOk(L, key, s, a) && (a.RollbackTargeted? || a.AdoptResolved?)
    ensures var a' := Reread(L, key, s, a, io, ch); IsFinished(a') || BaseOf(a') == BaseOf(a)
  {
    assert BaseOk(s, a.base) && CommitInputOf(a).expected == Expect(a.base);
  }

  lemma ReadOnceKeepsBase(L: Language, key: ResourceKey, s: Store, a: Actor, io: Io, ch: Choice)
    requires BaseOf(a).Some? && !a.RollbackTargeted? && !a.AdoptResolved?
    ensures var a' := StepActor(L, key, s, a, io, ch).1; IsFinished(a') || BaseOf(a') == BaseOf(a)
  {
  }

  /** The actor has finished or has the base it had. */
  predicate KeepsBase(c: Config, d: Config, id: nat)
    requires id in c.actors
  {
    id in d.actors && (IsFinished(d.actors[id]) || BaseOf(d.actors[id]) == BaseOf(c.actors[id]))
  }

  lemma KeptOn(c: Config, d: Config, e: Config, id: nat)
    requires id in c.actors && KeepsBase(c, d, id) && KeepsBase(d, e, id)
    requires IsFinished(d.actors[id]) ==> e.actors[id] == d.actors[id]
    ensures KeepsBase(c, e, id)
  {
  }

  lemma {:induction false} BaseKept(L: Language, key: ResourceKey, c: Config, steps: seq<Step>, id: nat)
    requires Lawful(L) && Inv(L, key, c) && id in c.actors && BaseOf(c.actors[id]).Some?
    ensures KeepsBase(c, Run(L, key, c, steps), id)
  {
    if steps != [] {
      var n := |steps| - 1;
      var d := Run(L, key, c, steps[..n]);
      BaseKept(L, key, c, steps[..n], id);
      RunKeeps(L, key, c, steps[..n]);
      ExecKeepsBase(L, key, d, steps[n], id);
      KeptOn(c, d, Exec(L, key, d, steps[n]), id);
    }
  }

  lemma ExecKeepsBase(L: Language, key: ResourceKey, d: Config, step: Step, id: nat)
    requires Inv(L, key, d) && id in d.actors && (IsFinished(d.actors[id]) || BaseOf(d.actors[id]).Some?)
    ensures KeepsBase(d, Exec(L, key, d, step), id)
    ensures IsFinished(d.actors[id]) ==> Exec(L, key, d, step).actors[id] == d.actors[id]
  {
    if step.Act? && step.id == id && BaseOf(d.actors[id]).Some? {
      StepKeepsBase(L, key, d.store, d.actors[id], step.io, step.choice);
    }
  }

  /** The pointer an actor had taken as its base after the first i steps. */
  function BaseAt(L: Language, key: ResourceKey, c: Config, steps: seq<Step>, i: nat, id: nat): Option<ActivePointer>
    requires i <= |steps|
  {
    var d := Run(L, key, c, steps[..i]);
    if id in d.actors then BaseOf(d.actors[id]) else None
  }

  lemma BaseAtLast(L: Language, key: ResourceKey, c: Config, steps: seq<Step>, i: nat, id: nat)
    requires Lawful(L) && Inv(L, key, c) && i <= |steps| && BaseAt(L, key, c, steps, i, id).Some?
    ensures var d := Run(L, key, c, steps);
            && id in d.actors
            && (IsFinished(d.actors[id]) || BaseOf(d.actors[id]) == BaseAt(L, key, c, steps, i, id))
  {
    RunKeeps(L, key, c, steps[..i]);
    RunFrom(L, key, c, steps, i);
    BaseKept(L, key, Run(L, key, c, steps[..i]), steps[i..], id);
  }

  /** No lost update: in every run, a step that moves the pointer replaces exactly the pointer its
      actor read, at its first read as at any later moment. */
  lemma NoLostUpdate(L: Language, key: ResourceKey, c: Config, steps: seq<Step>, step: Step)
    requires Lawful(L) && Initial(L, key, c)
    requires Run(L, key, c, steps + [step]).store.active != Run(L, key, c, steps).store.active
    ensures var d := Run(L, key, c, steps);
            var q := Run(L, key, c, steps + [step]).store.active;
            && step.Act? && step.id in d.actors && d.store.active.Some? && q.Some?
            && Succeeds(d.actors[step.id], d.store.active.value, q.value)
            && (forall i: nat :: i <= |steps| && BaseAt(L, key, c, steps, i, step.id).Some? ==>
                  BaseAt(L, key, c, steps, i, step.id) == d.store.active)
  {
    InitialInv(L, key, c);
    RunKeeps(L, key, c, steps);
    RunStep(L, key, c, steps, step);
    ExecMovesPointer(L, key, Run(L, key, c, steps), step);
    OneBaseOnly(L, key, c, steps, step.id);
  }

  /** An actor with a base has never had another. */
  lemma OneBaseOnly(L: Language, key: ResourceKey, c: Config, steps: seq<Step>, id: nat)
    requires Lawful(L) && Inv(L, key, c) && id in Run(L, key, c, steps).actors
    requires BaseOf(Run(L, key, c, steps).actors[id]).Some?
    ensures forall i: nat :: i <= |steps| && BaseAt(L, key, c, steps, i, id).Some? ==>
              BaseAt(L, key, c, steps, i, id) == BaseOf(Run(L, key, c, steps).actors[id])
  {
    forall i: nat | i <= |steps| && BaseAt(L, key, c, steps, i, id).Some?
      ensures BaseAt(L, key, c, steps, i, id) == BaseOf(Run(L, key, c, steps).actors[id])
    {
      BaseAtLast(L, key, c, steps, i, id);
    }
  }

  /** No ABA: when an actor that had read `b` by moment `i` moves the pointer, the pointer was `b`
      at every moment in between. */
  lemma NoAba(L: Language, key: ResourceKey, c: Config, steps: seq<Step>, step: Step, i: nat, j: nat, b: ActivePointer)
    requires Lawful(L) && Initial(L, key, c) && i <= j <= |steps|
    requires step.Act? && BaseAt(L, key, c, steps, i, step.id) == Some(b)
    requires Run(L, key, c, steps + [step]).store.active != Run(L, key, c, steps).store.active
    ensures Run(L, key, c, steps[..j]).store.active == Some(b)
  {
    InitialInv(L, key, c);
    NoLostUpdate(L, key, c, steps, step);
    RunKeeps(L, key, c, steps[..i]);
    assert BaseOk(Run(L, key, c, steps[..i]).store, b);
    assert steps[..|steps|] == steps;
    PointerNeverReturns(L, key, c, steps, i, j);
    PointerNeverReturns(L, key, c, steps, j, |steps|);
  }

  /** A version that loads at one moment of a run loads the same at every later one. */
  lemma LoadsTheSameLater(L: Language, key: ResourceKey, c: Config, steps: seq<Step>, i: nat, g: nat, io: Io)
    requires Lawful(L) && Initial(L, key, c) && i <= |steps| && LoadVersion(Run(L, key, c, steps[..i]).store, g, io).Ok?
    ensures LoadVersion(Run(L, key, c, steps).store, g, io) == LoadVersion(Run(L, key, c, steps[..i]).store, g, io)
  {
    VersionsImmutableAndBounded(L, key, c, steps, i);
  }

  /** Whatever loads is sound: the record describes the text beside it. */
  lemma LoadedIsSound(L: Language, key: ResourceKey, c: Config, steps: seq<Step>, g: nat, io: Io)
    requires Lawful(L) && Initial(L, key, c) && LoadVersion(Run(L, key, c, steps).store, g, io).Ok?
    ensures var v := LoadVersion(Run(L, key, c, steps).store, g, io).value;
            Describes(L, v.record, v.yaml) && v.record.generation == g
  {
    InitialInv(L, key, c);
    RunKeeps(L, key, c, steps);
  }

  // ---- All or nothing ----

  /** A step that fails its actor writes nothing. */
  lemma FailureWritesNothing(L: Language, key: ResourceKey, s: Store, a: Actor, io: Io, ch: Choice)
    requires StepActor(L, key, s, a, io, ch).1.Failed?
    ensures StepActor(L, key, s, a, io, ch).0 == s
  {
    match a
    case ApplyCandidate(_, _, v, yaml) => assert StoreVersion(s, key, v, yaml, io).1.Err?;
    case ApplyStored(_, base, v, _) => assert Promote(s, key, Expect(base), PointerTo(key, v, ch.now), io).1.Err?;
    case Committing(_, _, p) => assert CommitWithAudit(s, key, p, io).1.Err?;
    case _ =>
  }

  /** Version, text, pointer and audit record of a commit are all in place. */
  ghost predicate Installed(key: ResourceKey, t: Store, p: CommitParams) {
    var g := p.version.generation;
    && t.active.Some? && t.active.value.generation == g && t.active.value.policyId == p.version.policyId
    && g in t.versions && t.versions[g].canonicalHash == p.version.canonicalHash
    && TextAt(t, g, p.yaml)
    && p.audit.applyId in t.audits && t.audits[p.audit.applyId] == StampAudit(key, p.audit)
  }

  /** A commit that reports success has put the whole request in place, and one that does not
      has changed nothing. */
  lemma CommitAllOrNothing(L: Language, key: ResourceKey, s: Store, base: ActivePointer, p: CommitParams, io: Io)
    requires StoreOk(L, s) && ParamsOk(L, key, base, p)
    ensures var (t, r) := CommitWithAudit(s, key, p, io);
            (r.Ok? ==> Installed(key, t, p)) && (r.Err? ==> t == s)
  {
    if CommitChecks(s, key, p, io).Ok? {
      CheckedSlot(L, key, s, base, p, io);
    }
  }

  /** A commit that passed its checks finds its slot free or with its own content. */
  lemma CheckedSlot(L: Language, key: ResourceKey, s: Store, base: ActivePointer, p: CommitParams, io: Io)
    requires StoreOk(L, s) && ParamsOk(L, key, base, p) && CommitChecks(s, key, p, io).Ok?
    ensures CommitChecks(s, key, p, io).value ==> p.version.generation in s.versions
    ensures var g := p.version.generation;
            g in s.versions ==> TextAt(s, g, p.yaml) && s.versions[g].canonicalHash == p.version.canonicalHash
  {
    if p.version.generation in s.versions {
      SlotTaken(L, s, p.version, p.yaml, io);
    }
  }

  /** A rollback that reports success leaves the target's text active, byte for byte, one
      generation above the pointer it started from. */
  lemma RollbackRestoresTarget(L: Language, key: ResourceKey, c: Config, steps: seq<Step>, step: Step)
    requires Lawful(L) && Initial(L, key, c) && step.Act?
    requires var d := Run(L, key, c, steps);
             step.id in d.actors && d.actors[step.id].Committing? && d.actors[step.id].origin.FromRollback?
    requires Run(L, key, c, steps + [step]).actors[step.id].Committed?
    ensures var a := Run(L, key, c, steps).actors[step.id];
            var t := Run(L, key, c, steps + [step]).store;
            && t.active.Some?
            && t.active.value.generation == a.base.generation + 1
            && t.active.value.generation in t.yamls && a.origin.target in t.yamls
            && t.yamls[t.active.value.generation] == t.yamls[a.origin.target]
  {
    InitialInv(L, key, c);
    RunKeeps(L, key, c, steps);
    RunStep(L, key, c, steps, step);
    var d := Run(L, key, c, steps);
    var a := d.actors[step.id];
    CommitAllOrNothing(L, key, d.store, a.base, a.params, step.io);
    CommitKeeps(L, key, d.store, a.base, a.params, step.io);
  }

  // ---- Where an apply's text comes from ----

  /** The step built the candidate `yaml` for the actor. */
  predicate Builds(L: Language, step: Step, id: nat, yaml: string) {
    && step.Act? && step.id == id && step.choice.candidate.Some?
    && var r := RoundTrip(L, step.choice.candidate.value);
    && r.Some? && r.value.yaml == yaml
  }

  predicate HasCandidate(a: Actor) { a.ApplyCandidate? || a.ApplyStored? }

  /** The text an apply stores and promotes is the canonical form of the candidate built in a step of its own. */
  lemma {:induction false} CandidateWasBuilt(L: Language, key: ResourceKey, c: Config, steps: seq<Step>, id: nat)
    returns (i: nat)
    requires c.actors == map[]
    requires var d := Run(L, key, c, steps); id in d.actors && HasCandidate(d.actors[id])
    ensures i < |steps| && Builds(L, steps[i], id, Run(L, key, c, steps).actors[id].yaml)
  {
    var n := |steps| - 1;
    var d := Run(L, key, c, steps[..n]);
    CandidateSource(L, key, d, steps[n], id);
    if Builds(L, steps[n], id, Run(L, key, c, steps).actors[id].yaml) {
      i := n;
    } else {
      i := CandidateWasBuilt(L, key, c, steps[..n], id);
    }
  }

  lemma CandidateSource(L: Language, key: ResourceKey, d: Config, step: Step, id: nat)
    requires var e := Exec(L, key, d, step); id in e.actors && HasCandidate(e.actors[id])
    ensures var a := Exec(L, key, d, step).actors[id];
            || Builds(L, step, id, a.yaml)
            || (id in d.actors && HasCandidate(d.actors[id]) && d.actors[id].yaml == a.yaml)
  {
  }

  // ---- What a success means ----

  /** An actor's step in a run, from a sound state. */
  lemma ActsSoundly(L: Language, key: ResourceKey, c: Config, steps: seq<Step>, step: Step)
    requires Lawful(L) && Initial(L, key, c) && step.Act? && step.id in Run(L, key, c, steps).actors
    ensures var d, e := Run(L, key, c, steps), Run(L, key, c, steps + [step]);
            && Inv(L, key, d) && Inv(L, key, e) && step.id in e.actors
            && (e.store, e.actors[step.id])
               == StepActor(L, key, d.store, d.actors[step.id], step.io, step.choice)
  {
    InitialInv(L, key, c);
    RunKeeps(L, key, c, steps);
    RunKeeps(L, key, c, steps + [step]);
    RunStep(L, key, c, steps, step);
  }

  /** The pointer is at generation `g` with the text `yaml`. */
  ghost predicate ActiveIs(L: Language, s: Store, g: nat, yaml: string) {
    && s.active.Some? && s.active.value.generation == g && TextAt(s, g, yaml)
    && s.active.value.policyId == IdentityOf(L, yaml) && s.active.value.canonicalHash == L.canonicalHash(yaml)
  }

  lemma ActiveTextIs(L: Language, s: Store, g: nat, yaml: string)
    requires StoreOk(L, s) && s.active.value.generation == g && TextAt(s, g, yaml)
    ensures ActiveIs(L, s, g, yaml)
  {
  }

  lemma PromotedOrThere(L: Language, key: ResourceKey, s: Store, a: Actor, io: Io, ch: Choice)
    requires StoreOk(L, s) && a.ApplyStored? && ActorOk(L, key, s, a)
    requires ApplyPromote(key, s, a, io, ch).1.Committed?
    ensures var t := ApplyPromote(key, s, a, io, ch).0;
            && t.active.Some? && t.active.value.generation == a.base.generation + 1 == a.version.generation
            && TextAt(t, a.version.generation, a.yaml)
  {
  }

  /** An apply that reports success leaves its own text active, one generation above the pointer it started
      from, also when the pointer was already there; the text is that of the candidate it built. */
  lemma ApplyInstallsCandidate(L: Language, key: ResourceKey, c: Config, steps: seq<Step>, step: Step) returns (i: nat)
    requires Lawful(L) && Initial(L, key, c) && step.Act?
    requires var d := Run(L, key, c, steps); step.id in d.actors && IsApply(d.actors[step.id])
    requires Run(L, key, c, steps + [step]).actors[step.id].Committed?
    ensures var a, t := Run(L, key, c, steps).actors[step.id], Run(L, key, c, steps + [step]).store;
            && a.ApplyStored? && ActiveIs(L, t, a.base.generation + 1, a.yaml)
            && i < |steps| && Builds(L, steps[i], step.id, a.yaml)
  {
    ActsSoundly(L, key, c, steps, step);
    var d, e := Run(L, key, c, steps), Run(L, key, c, steps + [step]);
    var a := d.actors[step.id];
    OnlyPromoteCommits(L, key, d.store, a, step.io, step.choice);
    PromotedOrThere(L, key, d.store, a, step.io, step.choice);
    ActiveTextIs(L, e.store, a.base.generation + 1, a.yaml);
    i := CandidateWasBuilt(L, key, c, steps, step.id);
  }

  lemma OnlyPromoteCommits(L: Language, key: ResourceKey, s: Store, a: Actor, io: Io, ch: Choice)
    requires IsApply(a) && StepActor(L, key, s, a, io, ch).1.Committed?
    ensures a.ApplyStored? && StepActor(L, key, s, a, io, ch) == ApplyPromote(key, s, a, io, ch)
  {
  }

  /** An adopt that reports success leaves the text it prepared active at the generation it prepared. */
  lemma AdoptInstallsText(L: Language, key: ResourceKey, c: Config, steps: seq<Step>, step: Step)
    requires Lawful(L) && Initial(L, key, c) && step.Act?
    requires var d := Run(L, key, c, steps);
             step.id in d.actors && d.actors[step.id].Committing? && d.actors[step.id].origin.FromAdopt?
    requires Run(L, key, c, steps + [step]).actors[step.id].Committed?
    ensures var a, t := Run(L, key, c, steps).actors[step.id], Run(L, key, c, steps + [step]).store;
            ActiveIs(L, t, a.params.version.generation, a.params.yaml) && a.params.audit.applyId in t.audits
  {
    ActsSoundly(L, key, c, steps, step);
    var d, e := Run(L, key, c, steps), Run(L, key, c, steps + [step]);
    var a := d.actors[step.id];
    CommitAllOrNothing(L, key, d.store, a.base, a.params, step.io);
    ActiveTextIs(L, e.store, a.params.version.generation, a.params.yaml);
  }
}
