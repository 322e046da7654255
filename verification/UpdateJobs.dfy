/** Where the jobs of the update queue are: each in one place in every run, and executed one at a
    time in order of acceptance until draining begins. */
module UpdateJobs {
  import opened Text
  import opened UpdateQueue
  import opened UpdateRuns

  predicate Busy(w: Worker, s: nat) { w.Running? && w.shard == s }

  function HandOf(w: Worker, s: nat): seq<Job> { if Busy(w, s) then [w.job] else [] }

  /** The jobs of shard `s` that the first n workers are executing. */
  function HandsTo(workers: seq<Worker>, n: nat, s: nat): seq<Job>
    requires n <= |workers|
  {
    if n == 0 then [] else HandsTo(workers, n - 1, s) + HandOf(workers[n - 1], s)
  }

  /** The jobs of shard `s` that workers are executing. */
  function InHands(workers: seq<Worker>, s: nat): seq<Job> { HandsTo(workers, |workers|, s) }

  lemma SwapLast(a: multiset<Job>, b: multiset<Job>, c: multiset<Job>)
    ensures a + b + c == a + c + b
  {
  }

  lemma AddToBoth(a: multiset<Job>, b: multiset<Job>, c: multiset<Job>, d: multiset<Job>, more: multiset<Job>)
    requires a + b == c + d
    ensures a + more + b == c + more + d
  {
    assert a + more + b == (a + b) + more && c + more + d == (c + d) + more;
  }

  lemma {:induction false} HandsUpdateTo(workers: seq<Worker>, i: nat, x: Worker, s: nat, n: nat)
    requires i < n <= |workers|
    ensures multiset(HandsTo(workers[i := x], n, s)) + multiset(HandOf(workers[i], s)) ==
            multiset(HandsTo(workers, n, s)) + multiset(HandOf(x, s))
  {
    var t := workers[i := x];
    if i == n - 1 {
      HandsSameTo(workers, i, x, s, n - 1);
      SwapLast(multiset(HandsTo(workers, n - 1, s)), multiset(HandOf(x, s)), multiset(HandOf(workers[i], s)));
    } else {
      HandsUpdateTo(workers, i, x, s, n - 1);
      AddToBoth(multiset(HandsTo(t, n - 1, s)), multiset(HandOf(workers[i], s)), multiset(HandsTo(workers, n - 1, s)),
                multiset(HandOf(x, s)), multiset(HandOf(workers[n - 1], s)));
    }
  }

  lemma HandsUpdate(workers: seq<Worker>, i: nat, x: Worker, s: nat)
    requires i < |workers|
    ensures multiset(InHands(workers[i := x], s)) + multiset(HandOf(workers[i], s)) ==
            multiset(InHands(workers, s)) + multiset(HandOf(x, s))
  {
    HandsUpdateTo(workers, i, x, s, |workers|);
  }

  lemma {:induction false} HandsSameTo(workers: seq<Worker>, i: nat, x: Worker, s: nat, n: nat)
    requires i < |workers| && n <= |workers| && (i < n ==> HandOf(x, s) == HandOf(workers[i], s))
    ensures HandsTo(workers[i := x], n, s) == HandsTo(workers, n, s)
  {
    if n > 0 {
      HandsSameTo(workers, i, x, s, n - 1);
    }
  }

  lemma HandsSame(workers: seq<Worker>, i: nat, x: Worker, s: nat)
    requires i < |workers| && HandOf(x, s) == HandOf(workers[i], s)
    ensures InHands(workers[i := x], s) == InHands(workers, s)
  {
    HandsSameTo(workers, i, x, s, |workers|);
  }

  lemma {:induction false} HandsNoneTo(workers: seq<Worker>, s: nat, n: nat)
    requires n <= |workers| && forall k :: 0 <= k < n ==> !Busy(workers[k], s)
    ensures HandsTo(workers, n, s) == []
  {
    if n > 0 {
      HandsNoneTo(workers, s, n - 1);
    }
  }

  lemma HandsNone(workers: seq<Worker>, s: nat)
    requires forall k :: 0 <= k < |workers| ==> !Busy(workers[k], s)
    ensures InHands(workers, s) == []
  {
    HandsNoneTo(workers, s, |workers|);
  }

  lemma {:induction false} HandsSoleTo(workers: seq<Worker>, i: nat, s: nat, n: nat)
    requires i < n <= |workers| && forall k :: 0 <= k < n && k != i ==> !Busy(workers[k], s)
    ensures HandsTo(workers, n, s) == HandOf(workers[i], s)
  {
    if i == n - 1 {
      HandsNoneTo(workers, s, n - 1);
      assert [] + HandOf(workers[i], s) == HandOf(workers[i], s);
    } else {
      HandsSoleTo(workers, i, s, n - 1);
      assert !Busy(workers[n - 1], s);
      assert HandOf(workers[i], s) + [] == HandOf(workers[i], s);
    }
  }

  /** With a single worker on the shard, its hand is all there is. */
  lemma HandsSole(workers: seq<Worker>, i: nat, s: nat)
    requires i < |workers| && forall k :: 0 <= k < |workers| && k != i ==> !Busy(workers[k], s)
    ensures InHands(workers, s) == HandOf(workers[i], s)
  {
    HandsSoleTo(workers, i, s, |workers|);
  }

  // ---- Each accepted job is in one place ----

  ghost predicate Conserved(w: World, s: nat)
    requires s < |w.queue.shards| == |w.accepted| == |w.finished|
  {
    multiset(w.accepted[s]) ==
    multiset(w.finished[s]) + multiset(InHands(w.workers, s)) + multiset(w.queue.shards[s].jobs)
  }

  /** Tickets rise in order of acceptance and jobs lie in the shard of their resource. */
  ghost predicate Ticketed(c: Config, w: World, s: nat)
    requires ConfigOk(c) && s < |w.accepted|
  {
    && (forall a, b :: 0 <= a < b < |w.accepted[s]| ==> w.accepted[s][a].ticket < w.accepted[s][b].ticket)
    && (forall a :: 0 <= a < |w.accepted[s]| ==>
          w.accepted[s][a].ticket < w.next && ShardOf(c.hash, w.accepted[s][a].resourceKey, c.shards) == s)
  }

  ghost predicate Accounted(c: Config, w: World) {
    Shaped(c, w) && forall s :: 0 <= s < c.shards ==> Conserved(w, s) && Ticketed(c, w, s)
  }

  lemma {:induction false} ClaimJobs(shards: seq<Shard>, ready: seq<nat>, s: nat)
    requires forall i :: 0 <= i < |ready| ==> ready[i] < |shards|
    requires s < |shards|
    ensures Claim(shards, ready).0[s].jobs == shards[s].jobs
    decreases |ready|
  {
    if ready != [] && !Claimable(shards[ready[0]]) {
      ClaimJobs(shards[ready[0] := Dropped(shards[ready[0]])], ready[1..], s);
    }
  }

  lemma MoveToHands(all: multiset<Job>, done: multiset<Job>, hands: multiset<Job>, hands': multiset<Job>,
                    jobs: seq<Job>)
    requires jobs != [] && all == done + hands + multiset(jobs) && hands' == hands + multiset{jobs[0]}
    ensures all == done + hands' + multiset(jobs[1..])
  {
    assert jobs == [jobs[0]] + jobs[1..];
    assert multiset(jobs) == multiset{jobs[0]} + multiset(jobs[1..]);
  }

  lemma TakenUp(workers: seq<Worker>, i: nat, s: nat, job: Job)
    requires i < |workers| && workers[i].Looking?
    ensures multiset(InHands(workers[i := Running(s, job)], s)) == multiset(InHands(workers, s)) + multiset{job}
  {
    HandsUpdate(workers, i, Running(s, job), s);
    assert HandOf(Running(s, job), s) == [job] && HandOf(workers[i], s) == [];
  }

  lemma PopConserves(w: World, i: nat, s: nat)
    requires i < |w.workers| && w.workers[i].Looking? && w.workers[i].shard < |w.queue.shards|
    requires s < |w.queue.shards| == |w.accepted| == |w.finished| && Conserved(w, s)
    ensures Conserved(PopStep(w, i), s)
  {
    var t := w.workers[i].shard;
    var jobs := w.queue.shards[t].jobs;
    var x := if jobs == [] then Leaving(t) else Running(t, jobs[0]);
    if s == t && jobs != [] {
      TakenUp(w.workers, i, s, jobs[0]);
      MoveToHands(multiset(w.accepted[s]), multiset(w.finished[s]), multiset(InHands(w.workers, s)),
                  multiset(InHands(w.workers[i := x], s)), jobs);
    } else {
      HandsSame(w.workers, i, x, s);
    }
  }

  lemma MoveToFinished(all: multiset<Job>, done: seq<Job>, hands: multiset<Job>, hands': multiset<Job>,
                       jobs: multiset<Job>, x: Job)
    requires all == multiset(done) + hands + jobs && hands' + multiset{x} == hands
    ensures all == multiset(done + [x]) + hands' + jobs
  {
    assert multiset(done + [x]) == multiset(done) + multiset{x};
  }

  lemma FinishConserves(w: World, i: nat, s: nat)
    requires i < |w.workers| && w.workers[i].Running? && w.workers[i].shard < |w.queue.shards|
    requires s < |w.queue.shards| == |w.accepted| == |w.finished| && Conserved(w, s)
    ensures Conserved(FinishStep(w, i), s)
  {
    var t := w.workers[i].shard;
    var x := Looking(t);
    if s == t {
      HandsUpdate(w.workers, i, x, s);
      var hands := multiset(InHands(w.workers, s));
      assert multiset(HandOf(w.workers[i], s)) == multiset{w.workers[i].job} && multiset(HandOf(x, s)) == multiset{};
      assert hands + multiset{} == hands;
      MoveToFinished(multiset(w.accepted[s]), w.finished[s], hands, multiset(InHands(w.workers[i := x], s)),
                     multiset(w.queue.shards[s].jobs), w.workers[i].job);
    } else {
      HandsSame(w.workers, i, x, s);
    }
  }

  lemma SubmitConserves(c: Config, w: World, step: Step, s: nat)
    requires Accounted(c, w) && s < c.shards && step.Submit?
    ensures Shaped(c, Exec(c, w, step)) && Conserved(Exec(c, w, step), s)
  {
    ExecShaped(c, w, step);
    var t := ShardOf(c.hash, step.resourceKey, c.shards);
    var job := Job(step.jobId, step.resourceKey, w.next);
    assert Conserved(w, s);
    if s == t {
      assert multiset(w.accepted[s] + [job]) == multiset(w.accepted[s]) + multiset{job};
      assert multiset(w.queue.shards[s].jobs + [job]) == multiset(w.queue.shards[s].jobs) + multiset{job};
    }
  }

  /** Nothing that is counted changes. */
  ghost predicate SameJobs(w: World, w': World, s: nat)
    requires s < |w.queue.shards| == |w.accepted| == |w.finished|
    requires s < |w'.queue.shards| == |w'.accepted| == |w'.finished|
  {
    && w'.accepted[s] == w.accepted[s] && w'.finished[s] == w.finished[s]
    && w'.queue.shards[s].jobs == w.queue.shards[s].jobs && InHands(w'.workers, s) == InHands(w.workers, s)
  }

  lemma OtherStepsSameJobs(c: Config, w: World, step: Step, s: nat)
    requires Shaped(c, w) && s < c.shards && (step.ClaimBy? || step.ReleaseBy? || step.Drain?)
    ensures Shaped(c, Exec(c, w, step)) && SameJobs(w, Exec(c, w, step), s)
  {
    ExecShaped(c, w, step);
    if step.ClaimBy? && step.worker < |w.workers| && w.workers[step.worker].Resting? {
      ClaimJobs(w.queue.shards, w.queue.ready, s);
      ClaimHands(w, step.worker, s);
    } else if step.ReleaseBy? && step.worker < |w.workers| && w.workers[step.worker].Leaving? {
      HandsSame(w.workers, step.worker, Resting, s);
    }
  }

  lemma ExecConserves(c: Config, w: World, step: Step, s: nat)
    requires Accounted(c, w) && s < c.shards
    ensures Shaped(c, Exec(c, w, step)) && Conserved(Exec(c, w, step), s)
  {
    ExecShaped(c, w, step);
    assert Conserved(w, s);
    match step
    case Submit(_, _, _) => SubmitConserves(c, w, step, s);
    case PopBy(i) => if i < |w.workers| && w.workers[i].Looking? { PopConserves(w, i, s); }
    case FinishBy(i) => if i < |w.workers| && w.workers[i].Running? { FinishConserves(w, i, s); }
    case _ => OtherStepsSameJobs(c, w, step, s);
  }

  lemma ClaimHands(w: World, i: nat, s: nat)
    requires WellFormed(w.queue) && i < |w.workers| && w.workers[i].Resting?
    ensures InHands(ClaimStep(w, i).workers, s) == InHands(w.workers, s)
  {
    var r := TryClaim(w.queue);
    if r.1.Some? {
      HandsSame(w.workers, i, Looking(r.1.value), s);
    }
  }

  lemma ExecTicketed(c: Config, w: World, step: Step, s: nat)
    requires Accounted(c, w) && s < c.shards
    ensures s < |Exec(c, w, step).accepted| && Ticketed(c, Exec(c, w, step), s)
  {
    assert Ticketed(c, w, s);
  }

  lemma {:induction false} RunAccounted(c: Config, steps: seq<Step>)
    requires ConfigOk(c)
    ensures Accounted(c, Run(c, steps))
  {
    if steps == [] {
      forall s | 0 <= s < c.shards ensures Conserved(Start(c), s) {
        HandsNone(Start(c).workers, s);
      }
    } else {
      var n := |steps| - 1;
      RunAccounted(c, steps[..n]);
      var w := Run(c, steps[..n]);
      forall s | 0 <= s < c.shards ensures Conserved(Exec(c, w, steps[n]), s) && Ticketed(c, Exec(c, w, steps[n]), s) {
        ExecConserves(c, w, steps[n], s);
        ExecTicketed(c, w, steps[n], s);
      }
    }
  }

  lemma {:induction false} DistinctOnce(jobs: seq<Job>, x: Job)
    requires forall a, b :: 0 <= a < b < |jobs| ==> jobs[a].ticket < jobs[b].ticket
    requires x in jobs
    ensures multiset(jobs)[x] == 1
  {
    var n := |jobs| - 1;
    assert jobs == jobs[..n] + [jobs[n]];
    if x == jobs[n] {
      assert x !in jobs[..n];
    } else {
      DistinctOnce(jobs[..n], x);
    }
  }

  /** In every run, draining included, an accepted job is in exactly one of its shard's deque, one
      worker's hands, or the finished jobs, and there once. */
  lemma EachJobInOnePlace(c: Config, steps: seq<Step>, s: nat, x: Job)
    requires ConfigOk(c) && s < c.shards && x in Run(c, steps).accepted[s]
    ensures var w := Run(c, steps);
            multiset(w.finished[s])[x] + multiset(InHands(w.workers, s))[x] + multiset(w.queue.shards[s].jobs)[x] == 1
  {
    RunAccounted(c, steps);
    assert Conserved(Run(c, steps), s) && Ticketed(c, Run(c, steps), s);
    DistinctOnce(Run(c, steps).accepted[s], x);
  }

  // ---- One at a time, in order ----

  /** What was accepted is what was finished, then what is being executed, then what is queued. */
  ghost predicate InOrder(w: World, s: nat)
    requires s < |w.queue.shards| == |w.accepted| == |w.finished|
  {
    w.accepted[s] == w.finished[s] + InHands(w.workers, s) + w.queue.shards[s].jobs
  }

  ghost predicate AllInOrder(c: Config, w: World) {
    Shaped(c, w) && forall s :: 0 <= s < c.shards ==> InOrder(w, s)
  }

  lemma SoleHolder(workers: seq<Worker>, i: nat)
    requires OneHolder(workers) && i < |workers| && !workers[i].Resting?
    ensures forall k :: 0 <= k < |workers| && k != i ==> !Busy(workers[k], workers[i].shard)
  {}

  lemma TakeFirst(f: seq<Job>, jobs: seq<Job>)
    requires jobs != []
    ensures f + [] + jobs == f + [jobs[0]] + jobs[1..]
  {
    assert jobs == [jobs[0]] + jobs[1..];
  }

  lemma PopInOrder(w: World, i: nat, s: nat)
    requires i < |w.workers| && w.workers[i].Looking? && w.workers[i].shard < |w.queue.shards| && OneHolder(w.workers)
    requires s < |w.queue.shards| == |w.accepted| == |w.finished| && InOrder(w, s)
    ensures InOrder(PopStep(w, i), s)
  {
    var t := w.workers[i].shard;
    var jobs := w.queue.shards[t].jobs;
    var x := if jobs == [] then Leaving(t) else Running(t, jobs[0]);
    if s == t && jobs != [] {
      SoleHolder(w.workers, i);
      HandsSole(w.workers, i, s);
      HandsSole(w.workers[i := x], i, s);
      TakeFirst(w.finished[s], jobs);
    } else {
      HandsSame(w.workers, i, x, s);
    }
  }

  lemma FinishInOrder(w: World, i: nat, s: nat)
    requires i < |w.workers| && w.workers[i].Running? && w.workers[i].shard < |w.queue.shards| && OneHolder(w.workers)
    requires s < |w.queue.shards| == |w.accepted| == |w.finished| && InOrder(w, s)
    ensures InOrder(FinishStep(w, i), s)
  {
    var w' := FinishStep(w, i);
    if s == w.workers[i].shard {
      SoleHolder(w.workers, i);
      HandsSole(w.workers, i, s);
      HandsSole(w'.workers, i, s);
    } else {
      HandsSame(w.workers, i, w'.workers[i], s);
    }
  }

  lemma ExecInOrder(c: Config, w: World, step: Step, s: nat)
    requires OneHolder(w.workers) && AllInOrder(c, w) && s < c.shards
    ensures Shaped(c, Exec(c, w, step)) && InOrder(Exec(c, w, step), s)
  {
    ExecShaped(c, w, step);
    assert InOrder(w, s);
    match step
    case Submit(_, _, _) =>
    case PopBy(i) => if i < |w.workers| && w.workers[i].Looking? { PopInOrder(w, i, s); }
    case FinishBy(i) => if i < |w.workers| && w.workers[i].Running? { FinishInOrder(w, i, s); }
    case _ => OtherStepsSameJobs(c, w, step, s);
  }

  lemma {:induction false} RunInOrder(c: Config, steps: seq<Step>)
    requires ConfigOk(c) && DrainsInterruptNone(c, steps)
    ensures AllInOrder(c, Run(c, steps))
  {
    if steps == [] {
      forall s | 0 <= s < c.shards ensures InOrder(Start(c), s) {
        HandsNone(Start(c).workers, s);
      }
    } else {
      var n := |steps| - 1;
      DrainsPrefix(c, steps, n);
      RunInOrder(c, steps[..n]);
      RunExclusive(c, steps[..n]);
      var w := Run(c, steps[..n]);
      forall s | 0 <= s < c.shards ensures InOrder(Exec(c, w, steps[n]), s) {
        ExecInOrder(c, w, steps[n], s);
      }
    }
  }

  lemma {:induction false} HandMemberTo(workers: seq<Worker>, i: nat, n: nat)
    requires i < n <= |workers| && workers[i].Running?
    ensures workers[i].job in HandsTo(workers, n, workers[i].shard)
  {
    if i < n - 1 {
      HandMemberTo(workers, i, n - 1);
    }
  }

  lemma HandMember(workers: seq<Worker>, i: nat)
    requires i < |workers| && workers[i].Running?
    ensures workers[i].job in InHands(workers, workers[i].shard)
  {
    HandMemberTo(workers, i, |workers|);
  }

  lemma {:induction false} HandsAtMostOne(workers: seq<Worker>, s: nat)
    requires OneHolder(workers)
    ensures |InHands(workers, s)| <= 1
  {
    if i :| 0 <= i < |workers| && Busy(workers[i], s) {
      SoleHolder(workers, i);
      HandsSole(workers, i, s);
    } else {
      HandsNone(workers, s);
    }
  }

  /** Finished, in hand and queued jobs in order of acceptance: what precedes a job taken up has finished. */
  lemma EarlierComesFirst(f: seq<Job>, h: seq<Job>, queued: seq<Job>, all: seq<Job>, a: nat, b: nat)
    requires all == f + h + queued && |h| <= 1 && a < b < |all| && (all[b] in f || all[b] in h)
    requires forall i, j :: 0 <= i < j < |all| ==> all[i] != all[j]
    ensures a < |f| && f[a] == all[a]
  {
    if all[b] in f {
      var k :| 0 <= k < |f| && f[k] == all[b];
      assert all[k] == f[k];
    } else {
      assert h[0] == all[b] && all[|f|] == h[0];
    }
  }

  /** As long as draining interrupts no worker, and so in every run before it begins, jobs of one
      resource are executed one at a time in the order they were accepted: when the later of two has been
      taken up, the earlier one has finished. */
  lemma EarlierJobFinished(c: Config, steps: seq<Step>, s: nat, a: nat, b: nat)
    requires ConfigOk(c) && DrainsInterruptNone(c, steps) && s < c.shards
    requires a < b < |Run(c, steps).accepted[s]|
    requires var w := Run(c, steps);
             w.accepted[s][b] in w.finished[s] || w.accepted[s][b] in InHands(w.workers, s)
    ensures var w := Run(c, steps);
            a < |w.finished[s]| && w.finished[s][a] == w.accepted[s][a]
  {
    var w := Run(c, steps);
    RunInOrder(c, steps);
    RunAccounted(c, steps);
    RunExclusive(c, steps);
    assert InOrder(w, s) && Ticketed(c, w, s);
    HandsAtMostOne(w.workers, s);
    EarlierComesFirst(w.finished[s], InHands(w.workers, s), w.queue.shards[s].jobs, w.accepted[s], a, b);
  }

  /** A job in a worker's hands was accepted into the shard the worker is on. */
  lemma RunningWasAccepted(c: Config, w: World, i: nat)
    requires Accounted(c, w) && i < |w.workers| && w.workers[i].Running?
    ensures w.workers[i].shard < c.shards && w.workers[i].job in w.accepted[w.workers[i].shard]
    ensures w.workers[i].shard == ShardOf(c.hash, w.workers[i].job.resourceKey, c.shards)
  {
    var s, y := w.workers[i].shard, w.workers[i].job;
    assert Conserved(w, s) && Ticketed(c, w, s);
    HandMember(w.workers, i);
    assert multiset(InHands(w.workers, s))[y] > 0;
    assert multiset(w.accepted[s])[y] > 0;
  }

  /** Where a running job and an earlier one of its resource stand among the accepted ones. */
  lemma AcceptedBefore(c: Config, w: World, x: Job, i: nat) returns (a: nat, b: nat)
    requires Accounted(c, w) && i < |w.workers| && w.workers[i].Running?
    requires x.resourceKey == w.workers[i].job.resourceKey && x.ticket < w.workers[i].job.ticket
    requires x in w.accepted[ShardOf(c.hash, x.resourceKey, c.shards)]
    ensures var s, y := ShardOf(c.hash, x.resourceKey, c.shards), w.workers[i].job;
            && a < b < |w.accepted[s]| && w.accepted[s][a] == x && w.accepted[s][b] == y
            && y in InHands(w.workers, s)
  {
    var s, y := ShardOf(c.hash, x.resourceKey, c.shards), w.workers[i].job;
    RunningWasAccepted(c, w, i);
    assert Ticketed(c, w, s);
    a :| 0 <= a < |w.accepted[s]| && w.accepted[s][a] == x;
    b :| 0 <= b < |w.accepted[s]| && w.accepted[s][b] == y;
    HandMember(w.workers, i);
  }

  /** The same said of a resource: while a worker executes `y`, every earlier job `x` of that
      resource has finished. */
  lemma ResourceJobsInOrder(c: Config, steps: seq<Step>, x: Job, y: Job, i: nat)
    requires ConfigOk(c) && DrainsInterruptNone(c, steps) && x.resourceKey == y.resourceKey && x.ticket < y.ticket
    requires x in Run(c, steps).accepted[ShardOf(c.hash, x.resourceKey, c.shards)]
    requires i < |Run(c, steps).workers| && Run(c, steps).workers[i].Running? && Run(c, steps).workers[i].job == y
    ensures x in Run(c, steps).finished[ShardOf(c.hash, x.resourceKey, c.shards)]
  {
    RunAccounted(c, steps);
    var a, b := AcceptedBefore(c, Run(c, steps), x, i);
    EarlierJobFinished(c, steps, ShardOf(c.hash, x.resourceKey, c.shards), a, b);
  }

  /** One shard, two workers. */
  const PAIR: Config := Config(1, 2, 8, _ => 0)

  lemma RunAppend(c: Config, steps: seq<Step>, step: Step)
    requires ConfigOk(c)
    ensures Run(c, steps + [step]) == Exec(c, Run(c, steps), step)
  {
    assert (steps + [step])[..|steps|] == steps;
  }

  /** One worker takes up the first of two jobs while the second arrives. */
  lemma FirstJobTaken() returns (steps: seq<Step>)
    ensures Run(PAIR, steps).queue == Queue(false, [], [Shard(Queued, [Job("j2", "policy/a/b", 1)])])
    ensures Run(PAIR, steps).workers == [Running(0, Job("j1", "policy/a/b", 0)), Resting]
  {
    var j1, j2 := Job("j1", "policy/a/b", 0), Job("j2", "policy/a/b", 1);
    steps := FirstJobClaimed();
    RunAppend(PAIR, steps, PopBy(0));
    steps := steps + [PopBy(0)];
    assert Run(PAIR, steps).queue.shards[0].jobs == [];
    assert Run(PAIR, steps).queue.shards == [Shard(Processing, [])];
    RunAppend(PAIR, steps, Submit("j2", "policy/a/b", true));
    steps := steps + [Submit("j2", "policy/a/b", true)];
    assert Run(PAIR, steps).queue.shards[0].jobs == [j2];
    assert Run(PAIR, steps).queue.shards == [Shard(Queued, [j2])];
  }

  lemma FirstJobClaimed() returns (steps: seq<Step>)
    ensures Run(PAIR, steps).queue == Queue(false, [], [Shard(Processing, [Job("j1", "policy/a/b", 0)])])
    ensures Run(PAIR, steps).workers == [Looking(0), Resting] && Run(PAIR, steps).next == 1
  {
    var j1 := Job("j1", "policy/a/b", 0);
    steps := [];
    RunAppend(PAIR, steps, Submit("j1", "policy/a/b", true));
    steps := steps + [Submit("j1", "policy/a/b", true)];
    assert Run(PAIR, steps).queue.shards[0].jobs == [j1] && Run(PAIR, steps).queue.ready == [0];
    assert Run(PAIR, steps).queue.shards == [Shard(Queued, [j1])];
    RunAppend(PAIR, steps, ClaimBy(0));
    steps := steps + [ClaimBy(0)];
  }

  /** Draining gives up exclusivity: it puts a shard that a worker is on back on the ready list, and
      a second worker then executes a later job of the same resource beside the first. */
  lemma DrainingBreaksExclusivity() returns (steps: seq<Step>)
    ensures Run(PAIR, steps).workers ==
            [Running(0, Job("j1", "policy/a/b", 0)), Running(0, Job("j2", "policy/a/b", 1))]
  {
    var j2 := Job("j2", "policy/a/b", 1);
    steps := FirstJobTaken();
    RunAppend(PAIR, steps, Drain);
    steps := steps + [Drain];
    assert ReadyAfter(Queue(false, [], [Shard(Queued, [j2])]), 1) == [0];
    assert Run(PAIR, steps).queue.shards == [Shard(Draining, [j2])];
    RunAppend(PAIR, steps, ClaimBy(1));
    steps := steps + [ClaimBy(1)];
    RunAppend(PAIR, steps, PopBy(1));
    steps := steps + [PopBy(1)];
  }
}
