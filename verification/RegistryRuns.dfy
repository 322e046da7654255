/** Whole runs of the in-flight registry: any mix of requests, completions, waits and departures,
    with a wait split into its two mutex sections and anything in between. */
module RegistryRuns {
  import opened Text
  import opened InFlightRegistry

  datatype Op =
    | Request(key: string, now: nat, window: nat, cap: nat)
    | Finish(key: string, state: Completion, now: nat)
    | FinishFor(key: string, generation: nat, state: Completion, now: nat)
    | Respond(key: string, response: Response, now: nat)
    | Quit(ticket: nat)
    | BeginWait(id: nat, key: string, generation: nat)
    | EndWait(id: nat)

  /** What the log of a run records. A follower's ticket is the position of its Followed event. */
  datatype Event =
    | Granted(slot: nat, generation: nat, key: string, time: nat)
    | Followed(slot: nat, generation: nat, key: string)
    | Published(slot: nat, generation: nat, key: string, response: Response)
    | Softened(key: string)
    | Departed(ticket: nat)

  datatype Waiting = Waiting(slot: nat, key: string, generation: nat)

  datatype World = World(slots: seq<Entry>, clock: nat, log: seq<Event>, waiting: map<nat, Waiting>)

  function Start(): World { World(seq(CAPACITY, _ => EMPTY_ENTRY), 0, [], map[]) }

  predicate IsSoft(s: Completion) { s.NotCacheable? || s.Failed? }

  function Softening(hit: bool, key: string, s: Completion): seq<Event> {
    if hit && IsSoft(s) then [Softened(key)] else []
  }

  function RequestEvents(hash: Hash, slots: seq<Entry>, key: string, now: nat, r: Registration): seq<Event>
    requires |slots| == CAPACITY
  {
    match Find(slots, hash, key)
    case None => []
    case Some(j) =>
      match r.role
      case Leader => [Granted(j, r.generation, key, now)]
      case Follower => [Followed(j, r.generation, key)]
      case Reject => []
  }

  function RespondEvents(hash: Hash, slots: seq<Entry>, key: string, response: Response): seq<Event>
    requires |slots| == CAPACITY
  {
    match Find(slots, hash, key)
    case None => []
    case Some(j) =>
      if |response.body| > SHARED_BODY_MAX then [Softened(key)]
      else [Published(j, slots[j].generation, key, Snapshot(response))]
  }

  function Exec(hash: Hash, w: World, op: Op): (w': World)
    requires |w.slots| == CAPACITY
    ensures |w'.slots| == CAPACITY
  {
    match op
    case Request(key, now, window, cap) =>
      var r := Register(w.slots, hash, key, now, window, cap);
      w.(slots := r.0, clock := now, log := w.log + RequestEvents(hash, r.0, key, now, r.1))
    case Finish(key, state, now) =>
      var r := CompleteState(w.slots, hash, key, state, now);
      w.(slots := r.0, clock := now, log := w.log + Softening(r.1, key, state))
    case FinishFor(key, generation, state, now) =>
      var r := CompleteIfGeneration(w.slots, hash, key, generation, state, now);
      w.(slots := r.0, clock := now, log := w.log + Softening(r.1, key, state))
    case Respond(key, response, now) =>
      w.(slots := CompleteWithResponse(w.slots, hash, key, response, now).0, clock := now,
         log := w.log + RespondEvents(hash, w.slots, key, response))
    case Quit(t) =>
      if t < |w.log| && w.log[t].Followed? then
        w.(slots := RemoveWaiter(w.slots, hash, w.log[t].key), log := w.log + [Departed(t)])
      else w
    case BeginWait(id, key, generation) =>
      var found := WaitFind(w.slots, hash, key, generation);
      if found.Answered? then w else w.(waiting := w.waiting[id := Waiting(found.slot, key, generation)])
    case EndWait(id) => w.(waiting := w.waiting - {id})
  }

  function Run(hash: Hash, ops: seq<Op>): (w: World)
    ensures |w.slots| == CAPACITY
  {
    if ops == [] then Start() else Exec(hash, Run(hash, ops[..|ops| - 1]), ops[|ops| - 1])
  }

  // ---- One slot at a time ----

  predicate InShard(hash: Hash, j: nat, key: string) {
    ShardBase(hash, key) <= j < ShardBase(hash, key) + SLOTS
  }

  /** Every active slot lies in its key's shard, has been granted, and no other slot holds its key. */
  ghost predicate SlotsOk(hash: Hash, slots: seq<Entry>) {
    && |slots| == CAPACITY
    && (forall j :: 0 <= j < CAPACITY && slots[j].active ==>
          InShard(hash, j, slots[j].key) && slots[j].generation >= 1)
    && (forall i, j :: 0 <= i < j < CAPACITY && slots[i].active && slots[j].active ==> slots[i].key != slots[j].key)
  }

  predicate KeepsLife(e: Entry, f: Entry) { f.key == e.key && f.active == e.active && f.generation == e.generation }

  predicate StartsLife(e: Entry, f: Entry) {
    && f.active && f.generation == e.generation + 1
    && f.shared.None? && f.waiters == 0 && f.state.InFlight?
  }

  /** An operation changes one slot, within its lifecycle or into the next one. */
  predicate Touches(slots: seq<Entry>, slots': seq<Entry>, j: nat) {
    && |slots| == |slots'| == CAPACITY && j < CAPACITY
    && slots' == slots[j := slots'[j]]
    && (KeepsLife(slots[j], slots'[j]) || StartsLife(slots[j], slots'[j]))
  }

  lemma FindUnique(hash: Hash, slots: seq<Entry>, key: string, j: nat)
    requires SlotsOk(hash, slots) && j < CAPACITY && Holds(slots[j], key)
    ensures Find(slots, hash, key) == Some(j)
  {
    assert InShard(hash, j, key);
    var r := Find(slots, hash, key);
    assert r.Some? && Holds(slots[r.value], key);
  }

  lemma FindNone(hash: Hash, slots: seq<Entry>, key: string)
    requires SlotsOk(hash, slots) && Find(slots, hash, key).None?
    ensures forall j :: 0 <= j < CAPACITY ==> !Holds(slots[j], key)
  {
    forall j | 0 <= j < CAPACITY ensures !Holds(slots[j], key) {
      if Holds(slots[j], key) {
        FindUnique(hash, slots, key, j);
      }
    }
  }

  lemma KeepLifeSlotsOk(hash: Hash, slots: seq<Entry>, j: nat, f: Entry)
    requires SlotsOk(hash, slots) && j < CAPACITY && KeepsLife(slots[j], f)
    ensures SlotsOk(hash, slots[j := f])
  {}

  lemma NewKeySlotsOk(hash: Hash, slots: seq<Entry>, j: nat, f: Entry)
    requires SlotsOk(hash, slots) && j < CAPACITY
    requires f.active && f.generation >= 1 && InShard(hash, j, f.key)
    requires forall i :: 0 <= i < CAPACITY && i != j ==> !Holds(slots[i], f.key)
    ensures SlotsOk(hash, slots[j := f])
  {}

  /** A grant starts a new life of one slot, for the requested key, at the requested time. */
  lemma RegisterLeads(hash: Hash, slots: seq<Entry>, key: string, now: nat, window: nat, cap: nat)
    requires SlotsOk(hash, slots) && Register(slots, hash, key, now, window, cap).1.role.Leader?
    ensures var (t, r) := Register(slots, hash, key, now, window, cap);
            && SlotsOk(hash, t)
            && Find(t, hash, key).Some?
            && var j := Find(t, hash, key).value;
            && Touches(slots, t, j) && StartsLife(slots[j], t[j])
            && t[j].key == key && t[j].created == now && r.generation == t[j].generation
            && (Holds(slots[j], key) || (Reusable(slots[j], now, window) && Find(slots, hash, key).None?))
            && (Holds(slots[j], key) ==> RoleAt(slots[j], now, window, cap).Leader?)
  {
    var (t, r) := Register(slots, hash, key, now, window, cap);
    var base := ShardBase(hash, key);
    var found := Find(slots, hash, key);
    var j := if found.Some? then found.value else FreeSlot(slots, now, window, base, base + SLOTS).value;
    if found.None? {
      FindNone(hash, slots, key);
    } else {
      assert Holds(slots[j], key);
    }
    assert t == slots[j := t[j]];
    NewKeySlotsOk(hash, slots, j, t[j]);
    FindUnique(hash, t, key, j);
  }

  /** A follower only raises the waiter count of the entry it joins; a rejection changes nothing. */
  lemma RegisterFollows(hash: Hash, slots: seq<Entry>, key: string, now: nat, window: nat, cap: nat)
    requires SlotsOk(hash, slots) && !Register(slots, hash, key, now, window, cap).1.role.Leader?
    ensures var (t, r) := Register(slots, hash, key, now, window, cap);
            && SlotsOk(hash, t)
            && (r.role.Reject? ==> t == slots)
            && (r.role.Follower? ==>
                  && Find(slots, hash, key).Some? && Find(t, hash, key) == Find(slots, hash, key)
                  && var j := Find(slots, hash, key).value;
                  && t == slots[j := slots[j].(waiters := slots[j].waiters + 1)]
                  && slots[j].waiters < cap && r.generation == slots[j].generation)
  {
    var (t, r) := Register(slots, hash, key, now, window, cap);
    var found := Find(slots, hash, key);
    if found.Some? {
      var j := found.value;
      assert t == slots[j := t[j]];
      KeepLifeSlotsOk(hash, slots, j, t[j]);
      FindUnique(hash, t, key, j);
    }
  }

  /** Completions and departures change at most the one slot that holds the key, and keep its life. */
  lemma OthersKeepLife(hash: Hash, slots: seq<Entry>, key: string, f: Entry)
    requires SlotsOk(hash, slots) && Find(slots, hash, key).Some?
    requires KeepsLife(slots[Find(slots, hash, key).value], f)
    ensures var j := Find(slots, hash, key).value;
            SlotsOk(hash, slots[j := f]) && Touches(slots, slots[j := f], j)
  {
    KeepLifeSlotsOk(hash, slots, Find(slots, hash, key).value, f);
  }

  // ---- Marks: what is known about a lifecycle stays true ----

  /** Generation `g` of slot `j` belongs, or belonged, to `key`. */
  predicate Mark(slots: seq<Entry>, j: nat, g: nat, key: string) {
    j < |slots| && 1 <= g <= slots[j].generation && (g == slots[j].generation ==> Holds(slots[j], key))
  }

  lemma MarkStable(slots: seq<Entry>, slots': seq<Entry>, i: nat, j: nat, g: nat, key: string)
    requires Touches(slots, slots', i) && Mark(slots, j, g, key)
    ensures Mark(slots', j, g, key)
  {}

  ghost predicate EventOk(slots: seq<Entry>, e: Event) {
    match e
    case Granted(j, g, k, _) => Mark(slots, j, g, k)
    case Followed(j, g, k) => Mark(slots, j, g, k)
    case Published(j, g, k, _) => Mark(slots, j, g, k)
    case _ => true
  }

  ghost predicate LogOk(slots: seq<Entry>, log: seq<Event>) {
    forall n :: 0 <= n < |log| ==> EventOk(slots, log[n])
  }

  /** Every snapshot on display was published for this key in this generation of this slot. */
  ghost predicate SnapshotsOk(slots: seq<Entry>, log: seq<Event>) {
    forall j :: 0 <= j < |slots| && slots[j].active && slots[j].shared.Some? ==>
      Published(j, slots[j].generation, slots[j].key, slots[j].shared.value) in log
  }

  ghost predicate WaitingOk(slots: seq<Entry>, waiting: map<nat, Waiting>) {
    forall id :: id in waiting ==>
      && waiting[id].slot < |slots|
      && (waiting[id].generation != 0 ==> Mark(slots, waiting[id].slot, waiting[id].generation, waiting[id].key))
  }

  ghost predicate Inv(hash: Hash, w: World) {
    && SlotsOk(hash, w.slots)
    && LogOk(w.slots, w.log)
    && SnapshotsOk(w.slots, w.log)
    && WaitingOk(w.slots, w.waiting)
  }

  /** A change of one slot with the events it causes keeps everything known. */
  lemma TouchKeeps(hash: Hash, w: World, slots': seq<Entry>, j: nat, events: seq<Event>)
    requires Inv(hash, w) && Touches(w.slots, slots', j)
    requires LogOk(slots', events)
    requires slots'[j].shared.Some? ==>
               || (KeepsLife(w.slots[j], slots'[j]) && slots'[j].shared == w.slots[j].shared)
               || Published(j, slots'[j].generation, slots'[j].key, slots'[j].shared.value) in events
    ensures LogOk(slots', w.log + events) && SnapshotsOk(slots', w.log + events) && WaitingOk(slots', w.waiting)
  {
    var log := w.log + events;
    forall n | 0 <= n < |log| ensures EventOk(slots', log[n]) {
      if n < |w.log| {
        EventStable(w.slots, slots', j, w.log[n]);
      } else {
        assert log[n] == events[n - |w.log|];
      }
    }
    forall i | 0 <= i < |slots'| && slots'[i].active && slots'[i].shared.Some?
      ensures Published(i, slots'[i].generation, slots'[i].key, slots'[i].shared.value) in log
    {
      if i != j {
        assert slots'[i] == w.slots[i];
      }
    }
    forall id | id in w.waiting && w.waiting[id].generation != 0
      ensures Mark(slots', w.waiting[id].slot, w.waiting[id].generation, w.waiting[id].key)
    {
      MarkStable(w.slots, slots', j, w.waiting[id].slot, w.waiting[id].generation, w.waiting[id].key);
    }
  }

  lemma EventStable(slots: seq<Entry>, slots': seq<Entry>, i: nat, e: Event)
    requires Touches(slots, slots', i) && EventOk(slots, e)
    ensures EventOk(slots', e)
  {}

  lemma RequestKeeps(hash: Hash, w: World, op: Op)
    requires Inv(hash, w) && op.Request?
    ensures Inv(hash, Exec(hash, w, op))
  {
    var (t, r) := Register(w.slots, hash, op.key, op.now, op.window, op.cap);
    var events := RequestEvents(hash, t, op.key, op.now, r);
    if r.role.Leader? {
      RegisterLeads(hash, w.slots, op.key, op.now, op.window, op.cap);
      TouchKeeps(hash, w, t, Find(t, hash, op.key).value, events);
    } else {
      RegisterFollows(hash, w.slots, op.key, op.now, op.window, op.cap);
      if r.role.Follower? {
        var j := Find(t, hash, op.key).value;
        TouchKeeps(hash, w, t, j, events);
      } else {
        assert w.log + events == w.log;
      }
    }
  }

  lemma UnchangedKeeps(hash: Hash, w: World, events: seq<Event>)
    requires Inv(hash, w) && forall n :: 0 <= n < |events| ==> events[n].Softened? || events[n].Departed?
    ensures LogOk(w.slots, w.log + events) && SnapshotsOk(w.slots, w.log + events)
  {}

  lemma FinishKeeps(hash: Hash, w: World, op: Op)
    requires Inv(hash, w) && (op.Finish? || op.FinishFor?)
    ensures Inv(hash, Exec(hash, w, op))
  {
    var w' := Exec(hash, w, op);
    var events := w'.log[|w.log|..];
    assert w'.log == w.log + events;
    if w'.slots == w.slots {
      UnchangedKeeps(hash, w, events);
    } else {
      var j := Find(w.slots, hash, op.key).value;
      var f := w.slots[j].(state := op.state, completed := op.now);
      assert w'.slots == w.slots[j := f];
      OthersKeepLife(hash, w.slots, op.key, f);
      TouchKeeps(hash, w, w'.slots, j, events);
    }
  }

  lemma RespondKeeps(hash: Hash, w: World, op: Op)
    requires Inv(hash, w) && op.Respond?
    ensures Inv(hash, Exec(hash, w, op))
  {
    var w' := Exec(hash, w, op);
    var events := RespondEvents(hash, w.slots, op.key, op.response);
    if Find(w.slots, hash, op.key).Some? {
      var j := Find(w.slots, hash, op.key).value;
      var f := w'.slots[j];
      assert w'.slots == w.slots[j := f];
      OthersKeepLife(hash, w.slots, op.key, f);
      TouchKeeps(hash, w, w'.slots, j, events);
    } else {
      assert w.log + events == w.log;
    }
  }

  lemma QuitKeeps(hash: Hash, w: World, op: Op)
    requires Inv(hash, w) && op.Quit?
    ensures Inv(hash, Exec(hash, w, op))
  {
    var w' := Exec(hash, w, op);
    if op.ticket < |w.log| && w.log[op.ticket].Followed? {
      var key := w.log[op.ticket].key;
      if w'.slots == w.slots {
        UnchangedKeeps(hash, w, [Departed(op.ticket)]);
      } else {
        var j := Find(w.slots, hash, key).value;
        var f := w'.slots[j];
        assert w'.slots == w.slots[j := f];
        OthersKeepLife(hash, w.slots, key, f);
        TouchKeeps(hash, w, w'.slots, j, [Departed(op.ticket)]);
      }
    }
  }

  lemma WaitKeeps(hash: Hash, w: World, op: Op)
    requires Inv(hash, w) && (op.BeginWait? || op.EndWait?)
    ensures Inv(hash, Exec(hash, w, op))
  {}

  lemma ExecKeeps(hash: Hash, w: World, op: Op)
    requires Inv(hash, w)
    ensures Inv(hash, Exec(hash, w, op))
  {
    match op
    case Request(_, _, _, _) => RequestKeeps(hash, w, op);
    case Finish(_, _, _) => FinishKeeps(hash, w, op);
    case FinishFor(_, _, _, _) => FinishKeeps(hash, w, op);
    case Respond(_, _, _) => RespondKeeps(hash, w, op);
    case Quit(_) => QuitKeeps(hash, w, op);
    case BeginWait(_, _, _) => WaitKeeps(hash, w, op);
    case EndWait(_) => WaitKeeps(hash, w, op);
  }

  lemma {:induction false} RunKeeps(hash: Hash, ops: seq<Op>)
    ensures Inv(hash, Run(hash, ops))
  {
    if ops != [] {
      RunKeeps(hash, ops[..|ops| - 1]);
      ExecKeeps(hash, Run(hash, ops[..|ops| - 1]), ops[|ops| - 1]);
    }
  }

  // ---- What followers are given ----

  /** A follower with a nonzero generation that is woken with a response gets one that was
      published for its own key, in the very generation of the very slot it waited on. */
  lemma FollowerGetsOwnSnapshot(hash: Hash, ops: seq<Op>, id: nat, r: Response)
    requires var w := Run(hash, ops);
             && id in w.waiting && w.waiting[id].generation != 0 && w.waiting[id].slot < CAPACITY
             && WaitResume(w.slots[w.waiting[id].slot], w.waiting[id].generation) == SharedResponseReady(r)
    ensures var w := Run(hash, ops);
            Published(w.waiting[id].slot, w.waiting[id].generation, w.waiting[id].key, r) in w.log
  {
    RunKeeps(hash, ops);
  }

  /** The same when the answer is there at once. */
  lemma PromptSnapshotIsOwn(hash: Hash, ops: seq<Op>, key: string, generation: nat, r: Response)
    requires generation != 0
    requires WaitFind(Run(hash, ops).slots, hash, key, generation) == Answered(SharedResponseReady(r))
    ensures var w := Run(hash, ops);
            Find(w.slots, hash, key).Some? && Published(Find(w.slots, hash, key).value, generation, key, r) in w.log
  {
    RunKeeps(hash, ops);
    AnsweredFromLog(hash, Run(hash, ops), key, generation, r);
  }

  lemma AnsweredFromLog(hash: Hash, w: World, key: string, generation: nat, r: Response)
    requires Inv(hash, w) && generation != 0
    requires WaitFind(w.slots, hash, key, generation) == Answered(SharedResponseReady(r))
    ensures Find(w.slots, hash, key).Some? && Published(Find(w.slots, hash, key).value, generation, key, r) in w.log
  {
  }

  /** In every reachable state a key has at most one active slot, in the shard its hash selects. */
  lemma OneActiveSlotPerKey(hash: Hash, ops: seq<Op>, i: nat, j: nat, key: string)
    requires i < CAPACITY && j < CAPACITY
    requires Holds(Run(hash, ops).slots[i], key) && Holds(Run(hash, ops).slots[j], key)
    ensures i == j && InShard(hash, i, key)
  {
    RunKeeps(hash, ops);
  }
}
