/** The policy update queue: logical shards, each a deque of jobs, and a list of ready shards. */
module UpdateQueue {
  import opened Text

  datatype ShardState = Idle | Queued | Processing | Draining | Stopped

  /** `ticket` numbers the submissions of a run; the source tells jobs apart by their id only. */
  datatype Job = Job(jobId: string, resourceKey: string, ticket: nat)

  datatype Shard = Shard(state: ShardState, jobs: seq<Job>)

  datatype Queue = Queue(draining: bool, ready: seq<nat>, shards: seq<Shard>)

  datatype EnqueueError = JobIdMissing | ResourceKeyMissing | QueueStopped | QueueDraining | QueueFull | StoreFailed

  datatype EnqueueResult = Accepted(shard: nat) | Refused(error: EnqueueError)

  predicate WellFormed(q: Queue) {
    q.shards != [] && forall i :: 0 <= i < |q.ready| ==> q.ready[i] < |q.shards|
  }

  function ShardOf(hash: string -> nat, resourceKey: string, count: nat): (s: nat)
    requires count > 0
    ensures s < count
  {
    hash(resourceKey) % count
  }

  function PushReady(ready: seq<nat>, s: nat): seq<nat> { if s in ready then ready else ready + [s] }

  // ---- Operations, one lock section each ----

  function EnqueueCheck(q: Queue, s: nat, job: Job, maxDepth: nat, persisted: bool): Option<EnqueueError>
    requires s < |q.shards|
  {
    if job.jobId == "" then Some(JobIdMissing)
    else if job.resourceKey == "" then Some(ResourceKeyMissing)
    else if q.shards[s].state == Stopped then Some(QueueStopped)
    else if q.draining || q.shards[s].state == Draining then Some(QueueDraining)
    else if |q.shards[s].jobs| >= maxDepth then Some(QueueFull)
    else if !persisted then Some(StoreFailed)
    else None
  }

  function Append(q: Queue, s: nat, job: Job): Queue
    requires s < |q.shards|
  {
    q.(shards := q.shards[s := Shard(Queued, q.shards[s].jobs + [job])],
       ready := if q.shards[s].state == Idle then q.ready + [s] else q.ready)
  }

  function Enqueue(q: Queue, s: nat, job: Job, maxDepth: nat, persisted: bool): (Queue, EnqueueResult)
    requires s < |q.shards|
  {
    match EnqueueCheck(q, s, job, maxDepth, persisted)
    case Some(e) => (q, Refused(e))
    case None => (Append(q, s, job), Accepted(s))
  }

  predicate Claimable(s: Shard) { (s.state == Queued || s.state == Draining) && s.jobs != [] }

  /** A shard dropped from the ready list without being claimed. */
  function Dropped(s: Shard): Shard {
    if s.jobs == [] && (s.state == Queued || s.state == Draining) then s.(state := Idle) else s
  }

  /** The scan of the ready list: unclaimable shards are dropped, the first claimable one is taken. */
  function Claim(shards: seq<Shard>, ready: seq<nat>): (r: (seq<Shard>, seq<nat>, Option<nat>))
    requires forall i :: 0 <= i < |ready| ==> ready[i] < |shards|
    ensures |r.0| == |shards|
    ensures r.2.Some? ==> r.2.value < |shards|
    ensures forall i :: 0 <= i < |r.1| ==> r.1[i] < |shards|
    decreases |ready|
  {
    if ready == [] then (shards, [], None)
    else
      var s := ready[0];
      if Claimable(shards[s]) then (shards[s := shards[s].(state := Processing)], ready[1..], Some(s))
      else Claim(shards[s := Dropped(shards[s])], ready[1..])
  }

  function TryClaim(q: Queue): (Queue, Option<nat>)
    requires WellFormed(q)
  {
    var r := Claim(q.shards, q.ready);
    (q.(shards := r.0, ready := r.1), r.2)
  }

  function Release(q: Queue, s: nat): Queue
    requires s < |q.shards|
  {
    if q.shards[s].jobs == [] then q.(shards := q.shards[s := q.shards[s].(state := Idle)])
    else
      q.(shards := q.shards[s := q.shards[s].(state := if q.draining then Draining else Queued)],
         ready := PushReady(q.ready, s))
  }

  function Pop(q: Queue, s: nat): (Queue, Option<Job>)
    requires s < |q.shards|
  {
    var jobs := q.shards[s].jobs;
    if jobs == [] then (q, None)
    else (q.(shards := q.shards[s := q.shards[s].(jobs := jobs[1..])]), Some(jobs[0]))
  }

  /** What draining does to one shard. */
  function Drained(s: Shard): Shard {
    if s.jobs != [] && (s.state == Queued || s.state == Processing) then s.(state := Draining) else s
  }

  predicate ReadyOnDrain(s: Shard) { s.jobs != [] && Drained(s).state == Draining }

  /** The ready list after the first n shards were looked at. */
  function ReadyAfter(q: Queue, n: nat): seq<nat>
    requires n <= |q.shards|
  {
    if n == 0 then q.ready
    else if ReadyOnDrain(q.shards[n - 1]) then PushReady(ReadyAfter(q, n - 1), n - 1)
    else ReadyAfter(q, n - 1)
  }

  function BeginDraining(q: Queue): Queue {
    Queue(true, ReadyAfter(q, |q.shards|), seq(|q.shards|, i requires 0 <= i < |q.shards| => Drained(q.shards[i])))
  }

  /** A shard is on the list after draining begins exactly if it was before or has jobs to drain. */
  lemma {:induction false} ReadyAfterContents(q: Queue, n: nat, s: nat)
    requires n <= |q.shards|
    ensures s in ReadyAfter(q, n) <==> s in q.ready || (s < n && ReadyOnDrain(q.shards[s]))
  {
    if n > 0 {
      ReadyAfterContents(q, n - 1, s);
    }
  }

  // ---- The queue object ----

  class PolicyUpdateQueue {
    const maxDepth: nat
    const hash: string -> nat
    var draining: bool
    var ready: seq<nat>
    var shards: seq<Shard>

    function State(): Queue
      reads this
    {
      Queue(draining, ready, shards)
    }

    constructor (shardCount: nat, maxDepth: nat, hash: string -> nat)
      ensures WellFormed(State()) && this.maxDepth == maxDepth && this.hash == hash
      ensures !draining && ready == [] && |shards| == if shardCount == 0 then 256 else shardCount
      ensures forall i :: 0 <= i < |shards| ==> shards[i] == Shard(Idle, [])
    {
      this.maxDepth, this.hash := maxDepth, hash;
      var count := if shardCount == 0 then 256 else shardCount;
      var built: seq<Shard> := [];
      for i := 0 to count
        invariant |built| == i && forall j :: 0 <= j < i ==> built[j] == Shard(Idle, [])
      {
        built := built + [Shard(Idle, [])];
      }
      draining, ready, shards := false, [], built;
    }

    method Submit(job: Job, persisted: bool) returns (r: EnqueueResult)
      requires WellFormed(State())
      modifies this
      ensures (State(), r) ==
              Enqueue(old(State()), ShardOf(hash, job.resourceKey, |old(shards)|), job, maxDepth, persisted)
      ensures WellFormed(State())
    {
      if job.jobId == "" { return Refused(JobIdMissing); }
      if job.resourceKey == "" { return Refused(ResourceKeyMissing); }
      var s := ShardOf(hash, job.resourceKey, |shards|);
      if shards[s].state == Stopped { return Refused(QueueStopped); }
      if draining || shards[s].state == Draining { return Refused(QueueDraining); }
      if |shards[s].jobs| >= maxDepth { return Refused(QueueFull); }
      if !persisted { return Refused(StoreFailed); }
      var wasIdle := shards[s].state == Idle;
      shards := shards[s := Shard(Queued, shards[s].jobs + [job])];
      if wasIdle {
        ready := ready + [s];
      }
      r := Accepted(s);
    }

    method TryClaimShard() returns (r: Option<nat>)
      requires WellFormed(State())
      modifies this
      ensures (State(), r) == TryClaim(old(State()))
      ensures WellFormed(State())
    {
      ghost var q := State();
      while ready != []
        invariant WellFormed(State()) && draining == q.draining
        invariant Claim(shards, ready) == Claim(q.shards, q.ready)
        decreases |ready|
      {
        var s := ready[0];
        ready := ready[1..];
        if (shards[s].state == Queued || shards[s].state == Draining) && shards[s].jobs != [] {
          shards := shards[s := shards[s].(state := Processing)];
          return Some(s);
        }
        if shards[s].jobs == [] && (shards[s].state == Queued || shards[s].state == Draining) {
          shards := shards[s := shards[s].(state := Idle)];
        } else {
          assert shards[s := shards[s]] == shards;
        }
      }
      r := None;
    }

    method ReleaseShard(s: nat)
      requires WellFormed(State()) && s < |shards|
      modifies this
      ensures State() == Release(old(State()), s)
      ensures WellFormed(State())
    {
      if shards[s].jobs == [] {
        shards := shards[s := shards[s].(state := Idle)];
      } else {
        shards := shards[s := shards[s].(state := if draining then Draining else Queued)];
        if s !in ready {
          ready := ready + [s];
        }
      }
    }

    method PopJob(s: nat) returns (r: Option<Job>)
      requires WellFormed(State()) && s < |shards|
      modifies this
      ensures (State(), r) == Pop(old(State()), s)
      ensures WellFormed(State())
    {
      if shards[s].jobs == [] { return None; }
      r := Some(shards[s].jobs[0]);
      shards := shards[s := shards[s].(jobs := shards[s].jobs[1..])];
    }

    method StartDraining()
      requires WellFormed(State())
      modifies this
      ensures State() == BeginDraining(old(State()))
    {
      ghost var q := State();
      draining := true;
      var n := 0;
      while n < |shards|
        invariant 0 <= n <= |shards| == |q.shards| && draining
        invariant ready == ReadyAfter(q, n)
        invariant forall i :: 0 <= i < n ==> shards[i] == Drained(q.shards[i])
        invariant forall i :: n <= i < |shards| ==> shards[i] == q.shards[i]
      {
        if shards[n].jobs != [] {
          if shards[n].state == Queued || shards[n].state == Processing {
            shards := shards[n := shards[n].(state := Draining)];
          }
          if shards[n].state == Draining && n !in ready {
            ready := ready + [n];
          }
        }
        n := n + 1;
      }
    }

    /** One round of the worker loop on a claimed shard with nobody else about: every queued job is
        taken in order and the shard is given back idle. */
    method WorkShard(s: nat) returns (executed: seq<Job>)
      requires WellFormed(State()) && s < |shards|
      modifies this
      ensures executed == old(shards[s].jobs)
      ensures State() == old(State()).(shards := old(shards)[s := Shard(Idle, [])])
    {
      executed := [];
      ghost var before := shards;
      var more := true;
      while more
        invariant WellFormed(State()) && |shards| == |before| && draining == old(draining) && ready == old(ready)
        invariant executed + shards[s].jobs == before[s].jobs
        invariant forall i :: 0 <= i < |shards| && i != s ==> shards[i] == before[i]
        invariant !more ==> shards[s].jobs == []
        decreases more, |shards[s].jobs|
      {
        var job := PopJob(s);
        if job.None? {
          more := false;
        } else {
          executed := executed + [job.value];
        }
      }
      ReleaseShard(s);
      assert shards == before[s := Shard(Idle, [])];
    }
  }
}
