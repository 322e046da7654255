/** Leaders of the in-flight registry over whole runs: their generations, what a late completion
    can still reach, and the waiter count. */
module RegistryLeaders {
  import opened Text
  import opened InFlightRegistry
  import opened RegistryRuns

  // ---- Leader generations ----

  /** The grants of one slot carry strictly increasing generations. */
  ghost predicate GrantsIncrease(log: seq<Event>) {
    forall p, q :: 0 <= p < q < |log| && log[p].Granted? && log[q].Granted? && log[p].slot == log[q].slot ==>
      log[p].generation < log[q].generation
  }

  lemma ExecGrantsIncrease(hash: Hash, w: World, op: Op)
    requires Inv(hash, w) && GrantsIncrease(w.log)
    ensures GrantsIncrease(Exec(hash, w, op).log)
  {
    var log := Exec(hash, w, op).log;
    if op.Request? && Register(w.slots, hash, op.key, op.now, op.window, op.cap).1.role.Leader? {
      RegisterLeads(hash, w.slots, op.key, op.now, op.window, op.cap);
      forall p, q | 0 <= p < q < |log| && log[p].Granted? && log[q].Granted? && log[p].slot == log[q].slot
        ensures log[p].generation < log[q].generation
      {
        assert log[p] == w.log[p];
        assert EventOk(w.slots, w.log[p]);
      }
    }
  }

  lemma {:induction false} LeaderGenerationsIncrease(hash: Hash, ops: seq<Op>)
    ensures GrantsIncrease(Run(hash, ops).log)
  {
    if ops != [] {
      RunKeeps(hash, ops[..|ops| - 1]);
      LeaderGenerationsIncrease(hash, ops[..|ops| - 1]);
      ExecGrantsIncrease(hash, Run(hash, ops[..|ops| - 1]), ops[|ops| - 1]);
    }
  }

  // ---- Late completions ----

  /** The entry now active for the key is not the one this leader was granted. */
  predicate Superseded(slots: seq<Entry>, hash: Hash, s: nat, g: nat, key: string)
    requires |slots| == CAPACITY
  {
    match Find(slots, hash, key)
    case None => true
    case Some(j) => !(j == s && slots[j].generation == g)
  }

  /** A leader that has been superseded still completes the current entry exactly when that entry
      lies in another slot whose own counter happens to stand at the same number: generations
      are counted per slot, not per key. In its own slot a late completion changes nothing. */
  lemma LateCompletionIff(hash: Hash, ops: seq<Op>, n: nat, state: Completion, now: nat)
    requires n < |Run(hash, ops).log| && Run(hash, ops).log[n].Granted?
    requires var w := Run(hash, ops); Superseded(w.slots, hash, w.log[n].slot, w.log[n].generation, w.log[n].key)
    ensures var w := Run(hash, ops);
            var e := w.log[n];
            var found := Find(w.slots, hash, e.key);
            var r := CompleteIfGeneration(w.slots, hash, e.key, e.generation, state, now);
            && (r.1 <==> found.Some? && found.value != e.slot && w.slots[found.value].generation == e.generation)
            && (!r.1 ==> r.0 == w.slots)
            && e.slot < CAPACITY && r.0[e.slot] == w.slots[e.slot]
  {
    RunKeeps(hash, ops);
    assert EventOk(Run(hash, ops).slots, Run(hash, ops).log[n]);
  }

  /** The leader that has not been superseded does complete its entry, and no other. */
  lemma CurrentCompletionLands(hash: Hash, slots: seq<Entry>, s: nat, g: nat, key: string, state: Completion, now: nat)
    requires |slots| == CAPACITY && g != 0 && !Superseded(slots, hash, s, g, key)
    ensures CompleteIfGeneration(slots, hash, key, g, state, now) ==
            (slots[s := slots[s].(state := state, completed := now)], true)
  {}

  lemma RunAppend(hash: Hash, ops: seq<Op>, op: Op)
    ensures Run(hash, ops + [op]) == Exec(hash, Run(hash, ops), op)
  {
    assert (ops + [op])[..|ops|] == ops;
  }

  /** A request for a new key takes the first slot of its shard when that is free. */
  lemma FirstSlotGranted(hash: Hash, w: World, key: string, now: nat)
    requires |w.slots| == CAPACITY && Find(w.slots, hash, key).None? && Reusable(w.slots[ShardBase(hash, key)], now, 10)
    ensures var j := ShardBase(hash, key);
            Exec(hash, w, Request(key, now, 10, 1)) ==
            w.(slots := w.slots[j := Fresh(w.slots[j], key, now)], clock := now,
               log := w.log + [Granted(j, w.slots[j].generation + 1, key, now)])
  {
    var j := ShardBase(hash, key);
    assert FreeSlot(w.slots, now, 10, j, j + SLOTS) == Some(j);
    var t := w.slots[j := Fresh(w.slots[j], key, now)];
    assert Find(t, hash, key) == Some(j);
  }

  /** The first leader of `a` is at work and one request waits on its slot. */
  lemma SlotWaitedOn(hash: Hash, a: string) returns (w: World, ops: seq<Op>)
    ensures w == Run(hash, ops)
    ensures w.slots == Start().slots[ShardBase(hash, a) := Entry(a, 0, 0, 0, true, InFlight, 1, None)]
    ensures w.log == [Granted(ShardBase(hash, a), 1, a, 0)] && w.waiting == map[0 := Waiting(ShardBase(hash, a), a, 0)]
  {
    ops := [];
    FirstSlotGranted(hash, Start(), a, 0);
    RunAppend(hash, ops, Request(a, 0, 10, 1));
    ops := ops + [Request(a, 0, 10, 1)];
    w := Run(hash, ops);
    assert Find(w.slots, hash, a) == Some(ShardBase(hash, a));
    RunAppend(hash, ops, BeginWait(0, a, 0));
    ops := ops + [BeginWait(0, a, 0)];
    w := Run(hash, ops);
  }

  /** The first leader of `a` has finished. */
  lemma SlotFinished(hash: Hash, a: string) returns (w: World, ops: seq<Op>)
    ensures w == Run(hash, ops)
    ensures w.slots == Start().slots[ShardBase(hash, a) := Entry(a, 0, 0, 0, true, L1Ready, 1, None)]
    ensures w.log == [Granted(ShardBase(hash, a), 1, a, 0)] && w.waiting == map[0 := Waiting(ShardBase(hash, a), a, 0)]
  {
    w, ops := SlotWaitedOn(hash, a);
    assert Find(w.slots, hash, a) == Some(ShardBase(hash, a));
    RunAppend(hash, ops, FinishFor(a, 1, L1Ready, 0));
    ops := ops + [FinishFor(a, 1, L1Ready, 0)];
    w := Run(hash, ops);
  }

  /** Two different keys of one shard. */
  predicate Neighbours(hash: Hash, a: string, b: string) { a != b && ShardBase(hash, a) == ShardBase(hash, b) }

  /** A registry in which the first slot of the shard went from `a` to `b`. */
  lemma SlotTakenOver(hash: Hash, a: string, b: string) returns (w: World, ops: seq<Op>)
    requires Neighbours(hash, a, b)
    ensures w == Run(hash, ops)
    ensures w.slots == Start().slots[ShardBase(hash, a) := Entry(b, 10, 0, 0, true, InFlight, 2, None)]
    ensures w.log == [Granted(ShardBase(hash, a), 1, a, 0), Granted(ShardBase(hash, a), 2, b, 10)]
    ensures w.waiting == map[0 := Waiting(ShardBase(hash, a), a, 0)]
  {
    w, ops := SlotFinished(hash, a);
    assert Find(w.slots, hash, b).None?;
    FirstSlotGranted(hash, w, b, 10);
    RunAppend(hash, ops, Request(b, 10, 10, 1));
    ops := ops + [Request(b, 10, 10, 1)];
    w := Run(hash, ops);
  }

  /** With the first slot of its shard taken, a new key gets the second. */
  lemma SecondSlotGranted(hash: Hash, w: World, key: string, now: nat)
    requires |w.slots| == CAPACITY && Find(w.slots, hash, key).None?
    requires var j := ShardBase(hash, key); !Reusable(w.slots[j], now, 10) && Reusable(w.slots[j + 1], now, 10)
    ensures var j := ShardBase(hash, key) + 1;
            Exec(hash, w, Request(key, now, 10, 1)) ==
            w.(slots := w.slots[j := Fresh(w.slots[j], key, now)], clock := now,
               log := w.log + [Granted(j, w.slots[j].generation + 1, key, now)])
  {
    var j := ShardBase(hash, key);
    assert FreeSlot(w.slots, now, 10, j, j + SLOTS) == FreeSlot(w.slots, now, 10, j + 1, j + SLOTS) == Some(j + 1);
    var t := w.slots[j + 1 := Fresh(w.slots[j + 1], key, now)];
    assert !Holds(t[j], key);
    assert Find(t, hash, key) == FindSlot(t, key, j + 1, j + SLOTS) == Some(j + 1);
  }

  /** The unwanted case happens under every hash, to any two keys of one shard: after the first leader
      of `a` has finished and its slot went to `b`, a new leader of `a` sits in another slot with the
      same number, and a second completion by the first leader lands on it. */
  lemma LateCompletionCanLand(hash: Hash, a: string, b: string) returns (ops: seq<Op>)
    requires Neighbours(hash, a, b)
    ensures var w, j := Run(hash, ops), ShardBase(hash, a);
            && w.log == [Granted(j, 1, a, 0), Granted(j, 2, b, 10), Granted(j + 1, 1, a, 10)]
            && Superseded(w.slots, hash, j, 1, a)
            && CompleteIfGeneration(w.slots, hash, a, 1, Failed, 10).1
            && CompleteIfGeneration(w.slots, hash, a, 1, Failed, 10).0[j + 1].state.Failed?
  {
    var w: World;
    var j := ShardBase(hash, a);
    w, ops := SlotTakenOver(hash, a, b);
    assert Find(w.slots, hash, a).None?;
    SecondSlotGranted(hash, w, a, 10);
    RunAppend(hash, ops, Request(a, 10, 10, 1));
    ops := ops + [Request(a, 10, 10, 1)];
    w := Run(hash, ops);
    assert !Holds(w.slots[j], a) && Holds(w.slots[j + 1], a);
    assert Find(w.slots, hash, a) == FindSlot(w.slots, a, j + 1, j + SLOTS) == Some(j + 1);
  }

  /** A waiter that names no generation gets the response of whatever life its slot is in: what it is
      given was published for its own key if and only if the slot still holds that key. */
  lemma ZeroGenerationOwnIff(hash: Hash, ops: seq<Op>, id: nat, r: Response)
    requires var w := Run(hash, ops);
             && id in w.waiting && w.waiting[id].generation == 0 && w.waiting[id].slot < CAPACITY
             && WaitResume(w.slots[w.waiting[id].slot], 0) == SharedResponseReady(r)
    ensures var w := Run(hash, ops);
            var j := w.waiting[id].slot;
            && Published(j, w.slots[j].generation, w.slots[j].key, r) in w.log
            && (Published(j, w.slots[j].generation, w.waiting[id].key, r) in w.log
                <==> w.slots[j].key == w.waiting[id].key)
  {
    RunKeeps(hash, ops);
  }

  /** It happens under every hash, to any two keys of one shard. */
  lemma ZeroGenerationGetsForeignSnapshot(hash: Hash, a: string, b: string, r: Response) returns (ops: seq<Op>)
    requires Neighbours(hash, a, b) && |r.body| <= SHARED_BODY_MAX
    ensures var w, j := Run(hash, ops), ShardBase(hash, a);
            && 0 in w.waiting && w.waiting[0] == Waiting(j, a, 0)
            && WaitResume(w.slots[j], 0) == SharedResponseReady(Snapshot(r))
            && forall n :: 0 <= n < |w.log| && w.log[n].Published? ==> w.log[n].key == b
  {
    var w: World;
    w, ops := SlotTakenOver(hash, a, b);
    RunAppend(hash, ops, Respond(b, r, 10));
    ops := ops + [Respond(b, r, 10)];
    assert Find(w.slots, hash, b) == Some(ShardBase(hash, b));
    w := Run(hash, ops);
  }

  // ---- The waiter count ----

  /** Tickets of the followers of generation `g` of slot `j` that have not left. */
  function Outstanding(log: seq<Event>, j: nat, g: nat): set<nat> {
    set n: nat | n < |log| && log[n].Followed? && log[n].slot == j && log[n].generation == g && Departed(n) !in log
  }

  /** Tickets exist before they are handed back. */
  ghost predicate DeparturesOk(log: seq<Event>) {
    forall n :: 0 <= n < |log| && log[n].Departed? ==> log[n].ticket < n
  }

  ghost predicate CountsOk(w: World) {
    && DeparturesOk(w.log)
    && forall j :: 0 <= j < |w.slots| && w.slots[j].active ==>
         w.slots[j].waiters <= |Outstanding(w.log, j, w.slots[j].generation)|
  }

  /** Events other than followers and departures leave the outstanding tickets alone. */
  lemma OutstandingSame(log: seq<Event>, events: seq<Event>, j: nat, g: nat)
    requires forall n :: 0 <= n < |events| ==> !events[n].Departed?
    requires forall n :: 0 <= n < |events| ==>
               !(events[n].Followed? && events[n].slot == j && events[n].generation == g)
    ensures Outstanding(log + events, j, g) == Outstanding(log, j, g)
  {
    var all := log + events;
    forall n: nat ensures n in Outstanding(all, j, g) <==> n in Outstanding(log, j, g) {
      if n < |log| {
        assert all[n] == log[n];
        assert Departed(n) in all <==> Departed(n) in log;
      } else if n < |all| {
        assert all[n] == events[n - |log|];
      }
    }
  }

  lemma OutstandingJoins(log: seq<Event>, j: nat, g: nat, key: string)
    requires DeparturesOk(log)
    ensures |Outstanding(log + [Followed(j, g, key)], j, g)| == |Outstanding(log, j, g)| + 1
  {
    var all := log + [Followed(j, g, key)];
    var n := |log|;
    assert Departed(n) !in all;
    forall m: nat ensures m in Outstanding(all, j, g) <==> m in Outstanding(log, j, g) + {n} {
      if m < n {
        assert all[m] == log[m];
        assert Departed(m) in all <==> Departed(m) in log;
      }
    }
    assert Outstanding(all, j, g) == Outstanding(log, j, g) + {n};
    assert n !in Outstanding(log, j, g);
  }

  lemma OutstandingLeaves(log: seq<Event>, t: nat, j: nat, g: nat)
    ensures Outstanding(log + [Departed(t)], j, g) == Outstanding(log, j, g) - {t}
  {
    var all := log + [Departed(t)];
    forall m: nat ensures m in Outstanding(all, j, g) <==> m in Outstanding(log, j, g) && m != t {
      if m < |log| {
        assert all[m] == log[m];
        assert Departed(m) in all <==> Departed(m) in log || m == t;
      }
    }
  }

  lemma RequestCounts(hash: Hash, w: World, op: Op)
    requires Inv(hash, w) && CountsOk(w) && op.Request?
    ensures CountsOk(Exec(hash, w, op))
  {
    var w' := Exec(hash, w, op);
    var (t, r) := Register(w.slots, hash, op.key, op.now, op.window, op.cap);
    var events := RequestEvents(hash, t, op.key, op.now, r);
    if r.role.Leader? {
      RegisterLeads(hash, w.slots, op.key, op.now, op.window, op.cap);
    } else {
      RegisterFollows(hash, w.slots, op.key, op.now, op.window, op.cap);
    }
    forall j | 0 <= j < CAPACITY && w'.slots[j].active
      ensures w'.slots[j].waiters <= |Outstanding(w'.log, j, w'.slots[j].generation)|
    {
      var g := w'.slots[j].generation;
      if r.role.Follower? && Find(t, hash, op.key) == Some(j) {
        assert events == [Followed(j, g, op.key)];
        OutstandingJoins(w.log, j, g, op.key);
      } else {
        OutstandingSame(w.log, events, j, g);
      }
    }
  }

  lemma CompletionCounts(hash: Hash, w: World, op: Op)
    requires Inv(hash, w) && CountsOk(w) && (op.Finish? || op.FinishFor? || op.Respond?)
    ensures CountsOk(Exec(hash, w, op))
  {
    var w' := Exec(hash, w, op);
    var events := w'.log[|w.log|..];
    assert w'.log == w.log + events;
    forall j | 0 <= j < CAPACITY && w'.slots[j].active
      ensures w'.slots[j].waiters <= |Outstanding(w'.log, j, w'.slots[j].generation)|
    {
      OutstandingSame(w.log, events, j, w'.slots[j].generation);
      assert w'.slots[j].waiters == w.slots[j].waiters && KeepsLife(w.slots[j], w'.slots[j]);
    }
  }

  lemma QuitCounts(hash: Hash, w: World, op: Op)
    requires Inv(hash, w) && CountsOk(w) && op.Quit?
    ensures CountsOk(Exec(hash, w, op))
  {
    var w' := Exec(hash, w, op);
    var t := op.ticket;
    if t < |w.log| && w.log[t].Followed? {
      var e := w.log[t];
      assert EventOk(w.slots, e);
      forall j | 0 <= j < CAPACITY && w'.slots[j].active
        ensures w'.slots[j].waiters <= |Outstanding(w'.log, j, w'.slots[j].generation)|
      {
        var g := w.slots[j].generation;
        assert w'.slots[j].generation == g && w.slots[j].active;
        OutstandingLeaves(w.log, t, j, g);
        if t in Outstanding(w.log, j, g) {
          assert Holds(w.slots[j], e.key);
          FindUnique(hash, w.slots, e.key, j);
        } else {
          assert Outstanding(w.log, j, g) - {t} == Outstanding(w.log, j, g);
        }
      }
    }
  }

  lemma ExecCounts(hash: Hash, w: World, op: Op)
    requires Inv(hash, w) && CountsOk(w)
    ensures CountsOk(Exec(hash, w, op))
  {
    if op.Request? {
      RequestCounts(hash, w, op);
    } else if op.Quit? {
      QuitCounts(hash, w, op);
    } else if op.Finish? || op.FinishFor? || op.Respond? {
      CompletionCounts(hash, w, op);
    }
  }

  lemma {:induction false} RunCounts(hash: Hash, ops: seq<Op>)
    ensures CountsOk(Run(hash, ops))
  {
    if ops != [] {
      RunKeeps(hash, ops[..|ops| - 1]);
      RunCounts(hash, ops[..|ops| - 1]);
      ExecCounts(hash, Run(hash, ops[..|ops| - 1]), ops[|ops| - 1]);
    }
  }

  ghost predicate UniformCap(ops: seq<Op>, cap: nat) {
    forall n :: 0 <= n < |ops| && ops[n].Request? ==> ops[n].cap == cap
  }

  predicate Capped(slots: seq<Entry>, cap: nat) { forall j :: 0 <= j < |slots| ==> slots[j].waiters <= cap }

  lemma ExecCap(hash: Hash, w: World, op: Op, cap: nat)
    requires Inv(hash, w) && Capped(w.slots, cap) && (op.Request? ==> op.cap == cap)
    ensures Capped(Exec(hash, w, op).slots, cap)
  {
    if op.Request? {
      if Register(w.slots, hash, op.key, op.now, op.window, op.cap).1.role.Leader? {
        RegisterLeads(hash, w.slots, op.key, op.now, op.window, op.cap);
      } else {
        RegisterFollows(hash, w.slots, op.key, op.now, op.window, op.cap);
      }
    }
  }

  lemma {:induction false} RunCap(hash: Hash, ops: seq<Op>, cap: nat)
    requires UniformCap(ops, cap)
    ensures Capped(Run(hash, ops).slots, cap)
  {
    if ops != [] {
      var n := |ops| - 1;
      RunCap(hash, ops[..n], cap);
      RunKeeps(hash, ops[..n]);
      ExecCap(hash, Run(hash, ops[..n]), ops[n], cap);
    }
  }

  /** With one cap for all requests, an entry never counts more waiters than the cap or than the
      followers of its current generation that have not left. */
  lemma WaiterCountBounded(hash: Hash, ops: seq<Op>, cap: nat, j: nat)
    requires UniformCap(ops, cap) && j < CAPACITY && Run(hash, ops).slots[j].active
    ensures var w := Run(hash, ops);
            w.slots[j].waiters <= cap && w.slots[j].waiters <= |Outstanding(w.log, j, w.slots[j].generation)|
  {
    RunCap(hash, ops, cap);
    RunCounts(hash, ops);
  }
}
