/** The in-flight request registry: eight shards of sixteen slots, kept here as one row of 128
    slots in which shard s owns the positions 16s to 16s+15. Every function is one mutex section. */
module InFlightRegistry {
  import opened Text

  const SHARDS: nat := 8
  const SLOTS: nat := 16
  const CAPACITY: nat := SHARDS * SLOTS
  const CONTENT_TYPE_MAX: nat := 63
  const SHARED_BODY_MAX: nat := 65536

  datatype Role = Leader | Follower | Reject

  datatype Registration = Registration(role: Role, generation: nat)

  datatype Completion = InFlight | Stored | NotCacheable | Failed | L1Ready | L2Ready | TooLargeForHandoff

  datatype Response = Response(status: nat, contentType: string, body: string)

  /** `shared` is the snapshot once it is ready. */
  datatype Entry = Entry(
    key: string,
    created: nat,
    completed: nat,
    waiters: nat,
    active: bool,
    state: Completion,
    generation: nat,
    shared: Option<Response>)

  datatype WaitResult =
    | SharedResponseReady(response: Response)
    | StoredButNoSnapshot
    | WasNotCacheable
    | LeaderFailed
    | Timeout
    | Missing
    | IsL1Ready
    | Expired
    | IsL2Ready
    | IsTooLarge

  predicate IsTerminal(s: Completion) { s != InFlight }

  const EMPTY_ENTRY := Entry("", 0, 0, 0, false, InFlight, 0, None)

  type Hash = string -> nat

  /** The first slot of the shard that owns a key. */
  function ShardBase(hash: Hash, key: string): (b: nat)
    ensures b + SLOTS <= CAPACITY
  {
    SLOTS * (hash(key) % SHARDS)
  }

  predicate Holds(e: Entry, key: string) { e.active && e.key == key }

  /** The first slot in [from, end) that holds the key. */
  function FindSlot(slots: seq<Entry>, key: string, from: nat, end: nat): (r: Option<nat>)
    requires from <= end <= |slots|
    ensures r.Some? ==> from <= r.value < end && Holds(slots[r.value], key)
    ensures r.Some? ==> forall i :: from <= i < r.value ==> !Holds(slots[i], key)
    ensures r.None? ==> forall i :: from <= i < end ==> !Holds(slots[i], key)
    decreases end - from
  {
    if from == end then None
    else if Holds(slots[from], key) then Some(from)
    else FindSlot(slots, key, from + 1, end)
  }

  function Find(slots: seq<Entry>, hash: Hash, key: string): (r: Option<nat>)
    requires |slots| == CAPACITY
  {
    FindSlot(slots, key, ShardBase(hash, key), ShardBase(hash, key) + SLOTS)
  }

  predicate TerminalExpired(e: Entry, now: nat, window: nat) {
    e.active && IsTerminal(e.state) && e.waiters == 0 && now >= e.completed + window
  }

  predicate Reusable(e: Entry, now: nat, window: nat) { !e.active || TerminalExpired(e, now, window) }

  /** The first slot in [from, end) a new key may take. */
  function FreeSlot(slots: seq<Entry>, now: nat, window: nat, from: nat, end: nat): (r: Option<nat>)
    requires from <= end <= |slots|
    ensures r.Some? ==> from <= r.value < end && Reusable(slots[r.value], now, window)
    ensures r.Some? ==> forall i :: from <= i < r.value ==> !Reusable(slots[i], now, window)
    ensures r.None? ==> forall i :: from <= i < end ==> !Reusable(slots[i], now, window)
    decreases end - from
  {
    if from == end then None
    else if Reusable(slots[from], now, window) then Some(from)
    else FreeSlot(slots, now, window, from + 1, end)
  }

  // ---- Registration ----

  function Restart(e: Entry, now: nat): Entry {
    e.(state := InFlight, shared := None, created := now, waiters := 0, active := true, generation := e.generation + 1)
  }

  function Fresh(e: Entry, key: string, now: nat): Entry {
    Entry(key, now, 0, 0, true, InFlight, e.generation + 1, None)
  }

  /** What a request for the key of an active entry becomes. */
  function RoleAt(e: Entry, now: nat, window: nat, cap: nat): Role {
    var stale :=
      match e.state
      case Stored => now >= e.completed + window
      case L1Ready => now >= e.completed + window
      case NotCacheable => true
      case Failed => true
      case InFlight => now >= e.created + window
      case L2Ready => now >= e.created + window
      case TooLargeForHandoff => now >= e.created + window;
    if stale then Leader else if e.waiters < cap then Follower else Reject
  }

  function Joined(e: Entry, now: nat, window: nat, cap: nat): Entry {
    match RoleAt(e, now, window, cap)
    case Leader => Restart(e, now)
    case Follower => e.(waiters := e.waiters + 1)
    case Reject => e
  }

  function Register(slots: seq<Entry>, hash: Hash, key: string, now: nat, window: nat, cap: nat)
    : (r: (seq<Entry>, Registration))
    requires |slots| == CAPACITY
    ensures |r.0| == CAPACITY
  {
    var base := ShardBase(hash, key);
    match Find(slots, hash, key)
    case Some(j) =>
      var role := RoleAt(slots[j], now, window, cap);
      var e := Joined(slots[j], now, window, cap);
      (slots[j := e], Registration(role, if role.Reject? then 0 else e.generation))
    case None =>
      match FreeSlot(slots, now, window, base, base + SLOTS)
      case Some(j) =>
        var e := Fresh(slots[j], key, now);
        (slots[j := e], Registration(Leader, e.generation))
      case None => (slots, Registration(Reject, 0))
  }

  // ---- Completion ----

  function CompleteState(slots: seq<Entry>, hash: Hash, key: string, state: Completion, now: nat)
    : (r: (seq<Entry>, bool))
    requires |slots| == CAPACITY
    ensures |r.0| == CAPACITY
  {
    match Find(slots, hash, key)
    case Some(j) => (slots[j := slots[j].(state := state, completed := now)], true)
    case None => (slots, false)
  }

  function CompleteIfGeneration(slots: seq<Entry>, hash: Hash, key: string, expected: nat, state: Completion, now: nat)
    : (r: (seq<Entry>, bool))
    requires |slots| == CAPACITY
    ensures |r.0| == CAPACITY
  {
    match Find(slots, hash, key)
    case Some(j) =>
      if expected != 0 && slots[j].generation != expected then (slots, false)
      else (slots[j := slots[j].(state := state, completed := now)], true)
    case None => (slots, false)
  }

  function Clip(s: string, n: nat): string { if |s| <= n then s else s[..n] }

  function Snapshot(r: Response): Response { r.(contentType := Clip(r.contentType, CONTENT_TYPE_MAX)) }

  function CompleteWithResponse(slots: seq<Entry>, hash: Hash, key: string, response: Response, now: nat)
    : (r: (seq<Entry>, bool))
    requires |slots| == CAPACITY
    ensures |r.0| == CAPACITY
  {
    if |response.body| > SHARED_BODY_MAX then CompleteState(slots, hash, key, NotCacheable, now)
    else
      match Find(slots, hash, key)
      case Some(j) =>
        (slots[j := slots[j].(state := Stored, completed := now, shared := Some(Snapshot(response)))], true)
      case None => (slots, false)
  }

  function RemoveWaiter(slots: seq<Entry>, hash: Hash, key: string): (r: seq<Entry>)
    requires |slots| == CAPACITY
    ensures |r| == CAPACITY
  {
    match Find(slots, hash, key)
    case Some(j) =>
      if slots[j].waiters > 0 then slots[j := slots[j].(waiters := slots[j].waiters - 1)] else slots
    case None => slots
  }

  // ---- Waiting ----

  /** What a terminal entry tells its follower. */
  function Outcome(e: Entry): WaitResult {
    match e.state
    case Stored => if e.shared.Some? then SharedResponseReady(e.shared.value) else StoredButNoSnapshot
    case L1Ready => IsL1Ready
    case L2Ready => IsL2Ready
    case TooLargeForHandoff => IsTooLarge
    case NotCacheable => WasNotCacheable
    case Failed => LeaderFailed
    case InFlight => Missing
  }

  datatype WaitStart = Answered(result: WaitResult) | Blocked(slot: nat)

  /** The first section of a wait: find the entry and answer at once if it is terminal. */
  function WaitFind(slots: seq<Entry>, hash: Hash, key: string, expected: nat): (r: WaitStart)
    requires |slots| == CAPACITY
    ensures r.Blocked? ==> r.slot < CAPACITY
  {
    match Find(slots, hash, key)
    case None => Answered(Missing)
    case Some(j) =>
      if expected != 0 && slots[j].generation != expected then Answered(Expired)
      else if IsTerminal(slots[j].state) then Answered(Outcome(slots[j]))
      else Blocked(j)
  }

  /** The second section, when the wait on slot `j` is over: the predicate holds or time ran out. */
  function WaitResume(e: Entry, expected: nat): WaitResult {
    var replaced := !e.active || (expected != 0 && e.generation != expected);
    if !replaced && !IsTerminal(e.state) then Timeout
    else if replaced then if expected != 0 then Expired else Missing
    else Outcome(e)
  }

  // ---- The registry object ----

  class Registry {
    const slots: array<Entry>
    const hash: Hash

    ghost predicate Valid() reads this { slots.Length == CAPACITY }

    constructor (hash: Hash)
      ensures Valid() && fresh(slots) && this.hash == hash
      ensures slots[..] == seq(CAPACITY, _ => EMPTY_ENTRY)
    {
      slots := new Entry[CAPACITY](_ => EMPTY_ENTRY);
      this.hash := hash;
    }

    method FindActive(key: string) returns (r: Option<nat>)
      requires Valid()
      ensures r == Find(slots[..], hash, key)
      ensures r.Some? ==> r.value < CAPACITY && Holds(slots[r.value], key)
    {
      var base := SLOTS * (hash(key) % SHARDS);
      ghost var s := slots[..];
      var j := base;
      while j < base + SLOTS
        invariant base <= j <= base + SLOTS <= CAPACITY
        invariant FindSlot(s, key, j, base + SLOTS) == Find(s, hash, key)
      {
        if slots[j].active && slots[j].key == key {
          return Some(j);
        }
        j := j + 1;
      }
      r := None;
    }

    method RegisterRequest(key: Option<string>, now: nat, window: nat, cap: nat) returns (r: Registration)
      requires Valid()
      modifies slots
      ensures key.None? ==> slots[..] == old(slots[..]) && r == Registration(Reject, 0)
      ensures key.Some? ==> (slots[..], r) == Register(old(slots[..]), hash, key.value, now, window, cap)
    {
      if key.None? { return Registration(Reject, 0); }
      ghost var s := slots[..];
      var found := FindActive(key.value);
      if found.Some? {
        var j := found.value;
        var e := slots[j];
        if e.state == Stored || e.state == L1Ready {
          if now >= e.completed + window {
            slots[j] := Restart(e, now);
            return Registration(Leader, slots[j].generation);
          }
        } else if e.state == NotCacheable || e.state == Failed {
          slots[j] := Restart(e, now);
          return Registration(Leader, slots[j].generation);
        } else if now >= e.created + window {
          slots[j] := Restart(e, now);
          return Registration(Leader, slots[j].generation);
        }
        if e.waiters < cap {
          slots[j] := e.(waiters := e.waiters + 1);
          return Registration(Follower, e.generation);
        }
        assert slots[..] == s[j := e];
        return Registration(Reject, 0);
      }
      r := TakeSlot(key.value, now, window);
    }

    /** The second scan: reclaim an expired terminal entry or take a free slot. */
    method TakeSlot(key: string, now: nat, window: nat) returns (r: Registration)
      requires Valid() && Find(slots[..], hash, key).None?
      modifies slots
      ensures forall cap: nat :: (slots[..], r) == Register(old(slots[..]), hash, key, now, window, cap)
    {
      var base := SLOTS * (hash(key) % SHARDS);
      ghost var s := slots[..];
      var j := base;
      while j < base + SLOTS
        invariant base <= j <= base + SLOTS <= CAPACITY
        invariant slots[..] == s
        invariant FreeSlot(s, now, window, j, base + SLOTS) == FreeSlot(s, now, window, base, base + SLOTS)
      {
        var e := slots[j];
        if !e.active || (IsTerminal(e.state) && e.waiters == 0 && now >= e.completed + window) {
          slots[j] := Entry(key, now, 0, 0, true, InFlight, e.generation + 1, None);
          return Registration(Leader, e.generation + 1);
        }
        j := j + 1;
      }
      r := Registration(Reject, 0);
    }

    method Complete(key: Option<string>, state: Completion, now: nat) returns (ok: bool)
      requires Valid()
      modifies slots
      ensures key.None? ==> slots[..] == old(slots[..]) && !ok
      ensures key.Some? ==> (slots[..], ok) == CompleteState(old(slots[..]), hash, key.value, state, now)
    {
      if key.None? { return false; }
      var found := FindActive(key.value);
      if found.None? { return false; }
      slots[found.value] := slots[found.value].(state := state, completed := now);
      ok := true;
    }

    method CompleteForGeneration(key: Option<string>, expected: nat, state: Completion, now: nat) returns (ok: bool)
      requires Valid()
      modifies slots
      ensures key.None? ==> slots[..] == old(slots[..]) && !ok
      ensures key.Some? ==>
              (slots[..], ok) == CompleteIfGeneration(old(slots[..]), hash, key.value, expected, state, now)
    {
      if key.None? { return false; }
      var found := FindActive(key.value);
      if found.None? { return false; }
      if expected != 0 && slots[found.value].generation != expected { return false; }
      slots[found.value] := slots[found.value].(state := state, completed := now);
      ok := true;
    }

    method CompleteResponse(key: Option<string>, response: Response, now: nat) returns (ok: bool)
      requires Valid()
      modifies slots
      ensures key.None? ==> slots[..] == old(slots[..]) && !ok
      ensures key.Some? ==> (slots[..], ok) == CompleteWithResponse(old(slots[..]), hash, key.value, response, now)
    {
      if key.None? { return false; }
      if |response.body| > SHARED_BODY_MAX {
        ok := Complete(key, NotCacheable, now);
        return;
      }
      var found := FindActive(key.value);
      if found.None? { return false; }
      var j := found.value;
      ghost var s := slots[..];
      slots[j] := slots[j].(state := Stored, completed := now);
      slots[j] := slots[j].(shared := Some(Snapshot(response)));
      assert slots[..] == s[j := slots[j]];
      ok := true;
    }

    method Leave(key: Option<string>)
      requires Valid()
      modifies slots
      ensures key.None? ==> slots[..] == old(slots[..])
      ensures key.Some? ==> slots[..] == RemoveWaiter(old(slots[..]), hash, key.value)
    {
      if key.None? { return; }
      var found := FindActive(key.value);
      if found.Some? && slots[found.value].waiters > 0 {
        slots[found.value] := slots[found.value].(waiters := slots[found.value].waiters - 1);
      }
    }

    method StartWait(key: Option<string>, expected: nat) returns (r: WaitStart)
      requires Valid()
      ensures r == if key.None? then Answered(Missing) else WaitFind(slots[..], hash, key.value, expected)
    {
      if key.None? { return Answered(Missing); }
      var found := FindActive(key.value);
      if found.None? { return Answered(Missing); }
      var e := slots[found.value];
      if expected != 0 && e.generation != expected { return Answered(Expired); }
      if IsTerminal(e.state) { return Answered(Outcome(e)); }
      r := Blocked(found.value);
    }

    method FinishWait(slot: nat, expected: nat) returns (r: WaitResult)
      requires Valid() && slot < CAPACITY
      ensures r == WaitResume(slots[slot], expected)
    {
      var e := slots[slot];
      var replaced := !e.active || (expected != 0 && e.generation != expected);
      if !IsTerminal(e.state) && !replaced { return Timeout; }
      if replaced {
        return if expected != 0 then Expired else Missing;
      }
      r := Outcome(e);
    }
  }
}
