/** Whole runs of the update queue with any number of workers. A worker claims a shard, pops until
    it finds the deque empty, and releases; other threads may act between any two of these. */
module UpdateRuns {
  import opened Text
  import opened UpdateQueue

  /** Where a worker is in its loop. `Leaving` has seen the deque empty but not yet released. */
  datatype Worker = Resting | Looking(shard: nat) | Running(shard: nat, job: Job) | Leaving(shard: nat)

  datatype Step =
    | Submit(jobId: string, resourceKey: string, persisted: bool)
    | ClaimBy(worker: nat)
    | PopBy(worker: nat)
    | FinishBy(worker: nat)
    | ReleaseBy(worker: nat)
    | Drain

  /** The queue, the workers, and per shard what was accepted and finished, in order. */
  datatype World =
    World(queue: Queue, workers: seq<Worker>, accepted: seq<seq<Job>>, finished: seq<seq<Job>>, next: nat)

  datatype Config = Config(shards: nat, workers: nat, maxDepth: nat, hash: string -> nat)

  predicate ConfigOk(c: Config) { c.shards > 0 }

  function Start(c: Config): World {
    World(Queue(false, [], seq(c.shards, _ => Shard(Idle, []))), seq(c.workers, _ => Resting),
          seq(c.shards, _ => []), seq(c.shards, _ => []), 0)
  }

  predicate HoldsShard(w: Worker, s: nat) { !w.Resting? && w.shard == s }

  predicate Shaped(c: Config, w: World) {
    && ConfigOk(c)
    && |w.queue.shards| == |w.accepted| == |w.finished| == c.shards
    && |w.workers| == c.workers
    && WellFormed(w.queue)
    && forall i :: 0 <= i < |w.workers| ==> w.workers[i].Resting? || w.workers[i].shard < c.shards
  }

  function SubmitStep(c: Config, w: World, jobId: string, resourceKey: string, persisted: bool): World
    requires Shaped(c, w)
  {
    var s := ShardOf(c.hash, resourceKey, c.shards);
    var job := Job(jobId, resourceKey, w.next);
    var r := Enqueue(w.queue, s, job, c.maxDepth, persisted);
    if r.1.Refused? then w
    else w.(queue := r.0, accepted := w.accepted[s := w.accepted[s] + [job]], next := w.next + 1)
  }

  function ClaimStep(w: World, i: nat): World
    requires WellFormed(w.queue) && i < |w.workers|
  {
    var r := TryClaim(w.queue);
    w.(queue := r.0, workers := if r.1.None? then w.workers else w.workers[i := Looking(r.1.value)])
  }

  function PopStep(w: World, i: nat): World
    requires i < |w.workers| && w.workers[i].Looking? && w.workers[i].shard < |w.queue.shards|
  {
    var s := w.workers[i].shard;
    var r := Pop(w.queue, s);
    w.(queue := r.0, workers := w.workers[i := if r.1.None? then Leaving(s) else Running(s, r.1.value)])
  }

  function FinishStep(w: World, i: nat): World
    requires i < |w.workers| && w.workers[i].Running? && w.workers[i].shard < |w.finished|
  {
    var s := w.workers[i].shard;
    w.(workers := w.workers[i := Looking(s)], finished := w.finished[s := w.finished[s] + [w.workers[i].job]])
  }

  function ReleaseStep(w: World, i: nat): World
    requires i < |w.workers| && w.workers[i].Leaving? && w.workers[i].shard < |w.queue.shards|
  {
    w.(queue := Release(w.queue, w.workers[i].shard), workers := w.workers[i := Resting])
  }

  function Exec(c: Config, w: World, step: Step): World
    requires Shaped(c, w)
  {
    match step
    case Submit(id, key, persisted) => SubmitStep(c, w, id, key, persisted)
    case ClaimBy(i) => if i < |w.workers| && w.workers[i].Resting? then ClaimStep(w, i) else w
    case PopBy(i) => if i < |w.workers| && w.workers[i].Looking? then PopStep(w, i) else w
    case FinishBy(i) => if i < |w.workers| && w.workers[i].Running? then FinishStep(w, i) else w
    case ReleaseBy(i) => if i < |w.workers| && w.workers[i].Leaving? then ReleaseStep(w, i) else w
    case Drain => w.(queue := BeginDraining(w.queue))
  }

  lemma ExecShaped(c: Config, w: World, step: Step)
    requires Shaped(c, w)
    ensures Shaped(c, Exec(c, w, step))
  {
    if step.Drain? {
      var q := BeginDraining(w.queue);
      forall i | 0 <= i < |q.ready| ensures q.ready[i] < |q.shards| {
        ReadyAfterContents(w.queue, |w.queue.shards|, q.ready[i]);
        assert q.ready[i] in q.ready;
      }
    }
  }

  function Run(c: Config, steps: seq<Step>): (w: World)
    requires ConfigOk(c)
    ensures Shaped(c, w)
  {
    if steps == [] then Start(c)
    else
      var w := Run(c, steps[..|steps| - 1]);
      ExecShaped(c, w, steps[|steps| - 1]);
      Exec(c, w, steps[|steps| - 1])
  }

  // ---- Scheduling ----

  ghost predicate Held(workers: seq<Worker>, s: nat) {
    exists i :: 0 <= i < |workers| && HoldsShard(workers[i], s)
  }

  predicate NoDuplicates(ready: seq<nat>) {
    forall i, j :: 0 <= i < j < |ready| ==> ready[i] != ready[j]
  }

  /** A shard with jobs is on the ready list, where it can be claimed, or in a worker's hands. */
  ghost predicate Served(w: World, s: nat)
    requires s < |w.queue.shards|
  {
    var shard := w.queue.shards[s];
    && (shard.jobs != [] ==> s in w.queue.ready || Held(w.workers, s))
    && (shard.jobs != [] && s in w.queue.ready ==> Claimable(shard))
    && shard.state != Stopped
  }

  /** Before draining a shard is in exactly one of three places: idle, ready or held. */
  ghost predicate Placed(w: World, s: nat)
    requires s < |w.queue.shards|
  {
    var shard := w.queue.shards[s];
    && shard.state != Draining
    && (s in w.queue.ready ==> shard.state == Queued && shard.jobs != [] && !Held(w.workers, s))
    && (Held(w.workers, s) ==> shard.state != Idle)
    && (s !in w.queue.ready && !Held(w.workers, s) ==> shard.state == Idle)
  }

  ghost predicate OneHolder(workers: seq<Worker>) {
    forall i, j :: 0 <= i < j < |workers| && !workers[i].Resting? && !workers[j].Resting? ==>
      workers[i].shard != workers[j].shard
  }

  ghost predicate ShardOk(w: World, s: nat)
    requires s < |w.queue.shards|
  {
    Served(w, s) && (!w.queue.draining ==> Placed(w, s))
  }

  ghost predicate Scheduled(c: Config, w: World) {
    && Shaped(c, w)
    && NoDuplicates(w.queue.ready)
    && (!w.queue.draining ==> OneHolder(w.workers))
    && forall s :: 0 <= s < c.shards ==> ShardOk(w, s)
  }

  /** Changing one worker changes who holds only the shards it held or holds. */
  lemma HeldUpdate(workers: seq<Worker>, i: nat, x: Worker, s: nat)
    requires i < |workers|
    ensures HoldsShard(x, s) ==> Held(workers[i := x], s)
    ensures HoldsShard(workers[i], s) ==> Held(workers, s)
    ensures !HoldsShard(workers[i], s) && !HoldsShard(x, s) ==> (Held(workers[i := x], s) <==> Held(workers, s))
  {
    var t := workers[i := x];
    assert HoldsShard(x, s) ==> HoldsShard(t[i], s);
    if !HoldsShard(workers[i], s) && !HoldsShard(x, s) {
      forall k | 0 <= k < |t| ensures HoldsShard(t[k], s) == HoldsShard(workers[k], s) {}
    }
  }

  lemma SubmitScheduled(c: Config, w: World, step: Step)
    requires Scheduled(c, w) && step.Submit?
    ensures Scheduled(c, Exec(c, w, step))
  {
    ExecShaped(c, w, step);
    var w' := Exec(c, w, step);
    forall s | 0 <= s < c.shards ensures ShardOk(w', s) {
      assert ShardOk(w, s);
    }
    assert ShardOk(w, ShardOf(c.hash, step.resourceKey, c.shards));
  }

  /** A claim takes the first claimable shard off the list; whatever else leaves the list had
      nothing to claim, and nothing joins it. */
  lemma {:induction false} ClaimEffect(shards: seq<Shard>, ready: seq<nat>, s: nat)
    requires forall i :: 0 <= i < |ready| ==> ready[i] < |shards|
    requires NoDuplicates(ready) && s < |shards|
    ensures var (shards', ready', r) := Claim(shards, ready);
            && NoDuplicates(ready') && (s in ready' ==> s in ready)
            && shards'[s].jobs == shards[s].jobs
            && (r == Some(s) ==> s in ready && s !in ready' && Claimable(shards[s]) && shards'[s].state == Processing)
            && (r != Some(s) && s in ready && Claimable(shards[s]) ==> s in ready')
            && (r != Some(s) ==> shards'[s] == shards[s] || (s in ready && shards'[s] == Dropped(shards[s])))
    decreases |ready|
  {
    if ready != [] {
      var h := ready[0];
      assert ready == [h] + ready[1..];
      if !Claimable(shards[h]) {
        ClaimEffect(shards[h := Dropped(shards[h])], ready[1..], s);
      }
    }
  }

  lemma ClaimScheduled(c: Config, w: World, i: nat)
    requires Scheduled(c, w) && i < |w.workers| && w.workers[i].Resting?
    ensures Scheduled(c, ClaimStep(w, i))
  {
    ExecShaped(c, w, ClaimBy(i));
    var w' := ClaimStep(w, i);
    var r := TryClaim(w.queue);
    ClaimEffect(w.queue.shards, w.queue.ready, 0);
    forall s | 0 <= s < c.shards ensures ShardOk(w', s) {
      ClaimShardOk(c, w, i, s);
    }
    if r.1.Some? && !w.queue.draining {
      var s := r.1.value;
      ClaimEffect(w.queue.shards, w.queue.ready, s);
      assert ShardOk(w, s);
      assert !Held(w.workers, s);
      ClaimOneHolder(w.workers, i, s);
    }
  }

  lemma ClaimOneHolder(workers: seq<Worker>, i: nat, s: nat)
    requires OneHolder(workers) && i < |workers| && workers[i].Resting? && !Held(workers, s)
    ensures OneHolder(workers[i := Looking(s)])
  {
    forall k | 0 <= k < |workers| ensures !HoldsShard(workers[k], s) {}
  }

  lemma ClaimShardOk(c: Config, w: World, i: nat, s: nat)
    requires Scheduled(c, w) && i < |w.workers| && w.workers[i].Resting? && s < c.shards
    ensures ShardOk(ClaimStep(w, i), s)
  {
    assert ShardOk(w, s);
    ClaimEffect(w.queue.shards, w.queue.ready, s);
    var r := TryClaim(w.queue);
    if r.1.Some? {
      HeldUpdate(w.workers, i, Looking(r.1.value), s);
    }
  }

  lemma SameShardWorker(c: Config, w: World, i: nat, x: Worker)
    requires Scheduled(c, w) && i < |w.workers| && !w.workers[i].Resting? && !x.Resting? &&
             x.shard == w.workers[i].shard
    ensures forall s :: 0 <= s < c.shards ==> (Held(w.workers[i := x], s) <==> Held(w.workers, s))
    ensures OneHolder(w.workers) ==> OneHolder(w.workers[i := x])
  {
    forall s | 0 <= s < c.shards ensures Held(w.workers[i := x], s) <==> Held(w.workers, s) {
      HeldUpdate(w.workers, i, x, s);
    }
  }

  lemma PopScheduled(c: Config, w: World, i: nat)
    requires Scheduled(c, w) && i < |w.workers| && w.workers[i].Looking?
    ensures Scheduled(c, PopStep(w, i))
  {
    ExecShaped(c, w, PopBy(i));
    var w' := PopStep(w, i);
    SameShardWorker(c, w, i, w'.workers[i]);
    forall s | 0 <= s < c.shards ensures ShardOk(w', s) {
      assert ShardOk(w, s);
      HeldUpdate(w.workers, i, w'.workers[i], s);
    }
  }

  lemma FinishScheduled(c: Config, w: World, i: nat)
    requires Scheduled(c, w) && i < |w.workers| && w.workers[i].Running?
    ensures Scheduled(c, FinishStep(w, i))
  {
    var w' := FinishStep(w, i);
    SameShardWorker(c, w, i, w'.workers[i]);
    forall s | 0 <= s < c.shards ensures ShardOk(w', s) {
      assert ShardOk(w, s);
    }
  }

  lemma ReleaseScheduled(c: Config, w: World, i: nat)
    requires Scheduled(c, w) && i < |w.workers| && w.workers[i].Leaving?
    ensures Scheduled(c, ReleaseStep(w, i))
  {
    ExecShaped(c, w, ReleaseBy(i));
    var w' := ReleaseStep(w, i);
    var t := w.workers[i].shard;
    forall s | 0 <= s < c.shards ensures ShardOk(w', s) {
      assert ShardOk(w, s);
      HeldUpdate(w.workers, i, Resting, s);
      if s == t && !w.queue.draining {
        ReleasedNotHeld(w.workers, i);
      }
    }
  }

  lemma ReleasedNotHeld(workers: seq<Worker>, i: nat)
    requires OneHolder(workers) && i < |workers| && workers[i].Leaving?
    ensures !Held(workers[i := Resting], workers[i].shard)
  {}

  lemma DrainScheduled(c: Config, w: World)
    requires Scheduled(c, w)
    ensures Scheduled(c, w.(queue := BeginDraining(w.queue)))
  {
    ExecShaped(c, w, Drain);
    var w' := w.(queue := BeginDraining(w.queue));
    ReadyAfterDistinct(w.queue, |w.queue.shards|);
    forall s | 0 <= s < c.shards ensures ShardOk(w', s) {
      assert ShardOk(w, s);
      ReadyAfterContents(w.queue, |w.queue.shards|, s);
    }
  }

  lemma {:induction false} ReadyAfterDistinct(q: Queue, n: nat)
    requires n <= |q.shards| && NoDuplicates(q.ready)
    ensures NoDuplicates(ReadyAfter(q, n))
  {
    if n > 0 {
      ReadyAfterDistinct(q, n - 1);
    }
  }

  lemma ExecScheduled(c: Config, w: World, step: Step)
    requires Scheduled(c, w)
    ensures Scheduled(c, Exec(c, w, step))
  {
    match step
    case Submit(_, _, _) => SubmitScheduled(c, w, step);
    case ClaimBy(i) => if i < |w.workers| && w.workers[i].Resting? { ClaimScheduled(c, w, i); }
    case PopBy(i) => if i < |w.workers| && w.workers[i].Looking? { PopScheduled(c, w, i); }
    case FinishBy(i) => if i < |w.workers| && w.workers[i].Running? { FinishScheduled(c, w, i); }
    case ReleaseBy(i) => if i < |w.workers| && w.workers[i].Leaving? { ReleaseScheduled(c, w, i); }
    case Drain => DrainScheduled(c, w);
  }

  lemma {:induction false} RunScheduled(c: Config, steps: seq<Step>)
    requires ConfigOk(c)
    ensures Scheduled(c, Run(c, steps))
  {
    if steps != [] {
      RunScheduled(c, steps[..|steps| - 1]);
      ExecScheduled(c, Run(c, steps[..|steps| - 1]), steps[|steps| - 1]);
    }
  }

  /** No accepted job is stranded: in every run, draining included, a shard with queued jobs is on
      the ready list and can be claimed from it, or a worker is on it. */
  lemma NoShardStranded(c: Config, steps: seq<Step>, s: nat)
    requires ConfigOk(c) && s < c.shards && Run(c, steps).queue.shards[s].jobs != []
    ensures var w := Run(c, steps);
            (s in w.queue.ready && Claimable(w.queue.shards[s])) || Held(w.workers, s)
  {
    RunScheduled(c, steps);
    assert ShardOk(Run(c, steps), s);
  }

  lemma ExecDraining(c: Config, w: World, step: Step)
    requires ConfigOk(c) && Shaped(c, w)
    ensures Exec(c, w, step).queue.draining <==> w.queue.draining || step == Drain
  {
  }

  lemma {:induction false} DrainingIff(c: Config, steps: seq<Step>)
    requires ConfigOk(c)
    ensures Run(c, steps).queue.draining <==> Drain in steps
  {
    if steps != [] {
      var n := |steps| - 1;
      DrainingIff(c, steps[..n]);
      ExecDraining(c, Run(c, steps[..n]), steps[n]);
      assert steps == steps[..n] + [steps[n]];
    }
  }

  // ---- Exclusive ownership ----

  /** A shard on the ready list is in nobody's hands, and a held shard is not idle. */
  ghost predicate Owned(w: World, s: nat)
    requires s < |w.queue.shards|
  {
    Held(w.workers, s) ==> s !in w.queue.ready && w.queue.shards[s].state != Idle
  }

  ghost predicate Exclusive(c: Config, w: World) {
    Shaped(c, w) && OneHolder(w.workers) && forall s :: 0 <= s < c.shards ==> Owned(w, s)
  }

  /** No shard that a worker is on has queued jobs, which is what draining must find. */
  ghost predicate NoneInterrupted(w: World) {
    forall s :: 0 <= s < |w.queue.shards| && Held(w.workers, s) ==> w.queue.shards[s].jobs == []
  }

  lemma ClaimExclusive(c: Config, w: World, i: nat)
    requires Scheduled(c, w) && Exclusive(c, w) && i < |w.workers| && w.workers[i].Resting?
    ensures Exclusive(c, ClaimStep(w, i))
  {
    ExecShaped(c, w, ClaimBy(i));
    var w', r := ClaimStep(w, i), TryClaim(w.queue);
    forall s | 0 <= s < c.shards ensures Owned(w', s) {
      assert Owned(w, s);
      ClaimEffect(w.queue.shards, w.queue.ready, s);
      if r.1.Some? {
        HeldUpdate(w.workers, i, Looking(r.1.value), s);
      }
    }
    if r.1.Some? {
      ClaimEffect(w.queue.shards, w.queue.ready, r.1.value);
      assert Owned(w, r.1.value);
      ClaimOneHolder(w.workers, i, r.1.value);
    }
  }

  lemma StayExclusive(c: Config, w: World, i: nat, step: Step)
    requires Scheduled(c, w) && Exclusive(c, w) && i < |w.workers|
    requires (step == PopBy(i) && w.workers[i].Looking?) || (step == FinishBy(i) && w.workers[i].Running?)
    ensures Exclusive(c, Exec(c, w, step))
  {
    ExecShaped(c, w, step);
    var w' := Exec(c, w, step);
    SameShardWorker(c, w, i, w'.workers[i]);
    forall s | 0 <= s < c.shards ensures Owned(w', s) {
      assert Owned(w, s);
    }
  }

  lemma ReleaseExclusive(c: Config, w: World, i: nat)
    requires Scheduled(c, w) && Exclusive(c, w) && i < |w.workers| && w.workers[i].Leaving?
    ensures Exclusive(c, ReleaseStep(w, i))
  {
    ExecShaped(c, w, ReleaseBy(i));
    var w' := ReleaseStep(w, i);
    ReleasedNotHeld(w.workers, i);
    forall s | 0 <= s < c.shards ensures Owned(w', s) {
      assert Owned(w, s);
      HeldUpdate(w.workers, i, Resting, s);
    }
  }

  lemma SubmitExclusive(c: Config, w: World, step: Step)
    requires Exclusive(c, w) && step.Submit?
    ensures Exclusive(c, Exec(c, w, step))
  {
    ExecShaped(c, w, step);
    forall s | 0 <= s < c.shards ensures Owned(Exec(c, w, step), s) {
      assert Owned(w, s);
    }
  }

  /** What draining does to a shard that a worker is on: it goes on the ready list exactly if it
      has queued jobs. */
  lemma DrainReadiesHeld(c: Config, w: World, s: nat)
    requires Scheduled(c, w) && Exclusive(c, w) && s < c.shards && Held(w.workers, s)
    ensures s in BeginDraining(w.queue).ready <==> w.queue.shards[s].jobs != []
  {
    ReadyAfterContents(w.queue, |w.queue.shards|, s);
    assert Owned(w, s) && ShardOk(w, s);
  }

  /** Draining keeps shards exclusive exactly when no held shard has queued jobs. */
  lemma DrainExclusiveIff(c: Config, w: World)
    requires Scheduled(c, w) && Exclusive(c, w)
    ensures Exclusive(c, Exec(c, w, Drain)) <==> NoneInterrupted(w)
  {
    ExecShaped(c, w, Drain);
    var w' := Exec(c, w, Drain);
    if NoneInterrupted(w) {
      forall s | 0 <= s < c.shards ensures Owned(w', s) {
        assert Owned(w, s) && ShardOk(w, s);
        if Held(w.workers, s) { DrainReadiesHeld(c, w, s); }
      }
    } else {
      var s :| 0 <= s < |w.queue.shards| && Held(w.workers, s) && w.queue.shards[s].jobs != [];
      DrainReadiesHeld(c, w, s);
      assert !Owned(w', s);
    }
  }

  lemma ExecExclusiveIff(c: Config, w: World, step: Step)
    requires Scheduled(c, w) && Exclusive(c, w)
    ensures Exclusive(c, Exec(c, w, step)) <==> (step.Drain? ==> NoneInterrupted(w))
  {
    match step
    case Submit(_, _, _) => SubmitExclusive(c, w, step);
    case ClaimBy(i) => if i < |w.workers| && w.workers[i].Resting? { ClaimExclusive(c, w, i); }
    case PopBy(i) => if i < |w.workers| && w.workers[i].Looking? { StayExclusive(c, w, i, step); }
    case FinishBy(i) => if i < |w.workers| && w.workers[i].Running? { StayExclusive(c, w, i, step); }
    case ReleaseBy(i) => if i < |w.workers| && w.workers[i].Leaving? { ReleaseExclusive(c, w, i); }
    case Drain => DrainExclusiveIff(c, w);
  }

  /** Whenever draining is begun, no shard that a worker is on has queued jobs. */
  ghost predicate DrainsInterruptNone(c: Config, steps: seq<Step>)
    requires ConfigOk(c)
  {
    forall i :: 0 <= i < |steps| && steps[i].Drain? ==> NoneInterrupted(Run(c, steps[..i]))
  }

  /** Every state of the run is exclusive. */
  ghost predicate AlwaysExclusive(c: Config, steps: seq<Step>)
    requires ConfigOk(c)
  {
    forall i :: 0 <= i <= |steps| ==> Exclusive(c, Run(c, steps[..i]))
  }

  lemma DrainsPrefix(c: Config, steps: seq<Step>, n: nat)
    requires ConfigOk(c) && n <= |steps| && DrainsInterruptNone(c, steps)
    ensures DrainsInterruptNone(c, steps[..n])
  {
    forall i | 0 <= i < n && steps[..n][i].Drain? ensures NoneInterrupted(Run(c, steps[..n][..i])) {
      assert steps[..n][..i] == steps[..i];
    }
  }

  lemma {:induction false} RunExclusive(c: Config, steps: seq<Step>)
    requires ConfigOk(c) && DrainsInterruptNone(c, steps)
    ensures Exclusive(c, Run(c, steps))
  {
    if steps != [] {
      var n := |steps| - 1;
      DrainsPrefix(c, steps, n);
      RunExclusive(c, steps[..n]);
      RunScheduled(c, steps[..n]);
      ExecExclusiveIff(c, Run(c, steps[..n]), steps[n]);
    }
  }

  /** A run keeps every shard in at most one worker's hands, and off the ready list while it is
      there, if and only if draining is never begun while a held shard has queued jobs. */
  lemma ExclusiveIff(c: Config, steps: seq<Step>)
    requires ConfigOk(c)
    ensures AlwaysExclusive(c, steps) <==> DrainsInterruptNone(c, steps)
  {
    if DrainsInterruptNone(c, steps) {
      forall i | 0 <= i <= |steps| ensures Exclusive(c, Run(c, steps[..i])) {
        DrainsPrefix(c, steps, i);
        RunExclusive(c, steps[..i]);
      }
    }
    if AlwaysExclusive(c, steps) {
      forall i | 0 <= i < |steps| && steps[i].Drain? ensures NoneInterrupted(Run(c, steps[..i])) {
        ExclusiveBefore(c, steps, i);
      }
    }
  }

  lemma ExclusiveBefore(c: Config, steps: seq<Step>, i: nat)
    requires ConfigOk(c) && AlwaysExclusive(c, steps) && i < |steps| && steps[i].Drain?
    ensures NoneInterrupted(Run(c, steps[..i]))
  {
    assert Exclusive(c, Run(c, steps[..i])) && Exclusive(c, Run(c, steps[..i + 1]));
    assert steps[..i + 1][..i] == steps[..i];
    RunScheduled(c, steps[..i]);
    ExecExclusiveIff(c, Run(c, steps[..i]), steps[i]);
  }

  /** As long as draining interrupts no worker, and so in every run before it begins, no two
      workers are on one shard and the ready list has no duplicates. */
  lemma ShardsAreExclusive(c: Config, steps: seq<Step>)
    requires ConfigOk(c) && DrainsInterruptNone(c, steps)
    ensures OneHolder(Run(c, steps).workers) && NoDuplicates(Run(c, steps).queue.ready)
    ensures forall s :: s in Run(c, steps).queue.ready ==> !Held(Run(c, steps).workers, s)
  {
    RunScheduled(c, steps);
    RunExclusive(c, steps);
    var w := Run(c, steps);
    forall s | s in w.queue.ready ensures !Held(w.workers, s) {
      assert Owned(w, s);
    }
  }

  /** Before draining there is nothing to interrupt. */
  lemma UndrainedInterruptsNone(c: Config, steps: seq<Step>)
    requires ConfigOk(c) && Drain !in steps
    ensures DrainsInterruptNone(c, steps)
  {
    assert forall i :: 0 <= i < |steps| ==> steps[i] in steps;
  }
}
