/** What every run of cache operations keeps: the ring cache agrees with a plain history of the
    stores and removals, and its cursor evicts in ring order. */
module L1Runs {
  import opened Text
  import opened CacheNamespace
  import opened L1Cache

  /** A cleanup visits one shard per critical section, so each visit is an operation of its own. */
  datatype Op =
    | Put(e: Entry)
    | PutIfNewer(e: Entry)
    | Remove(key: string)
    | Clean(shard: nat, marker: string, identity: Option<string>)

  type State = seq<Shard>

  predicate StateOk(st: State) { |st| == SHARDS && forall n :: 0 <= n < SHARDS ==> Shaped(st[n]) }

  predicate OpOk(op: Op) {
    match op
    case Put(e) => EntryOk(e)
    case PutIfNewer(e) => EntryOk(e)
    case Remove(_) => true
    case Clean(n, _, _) => n < SHARDS
  }

  predicate OpsOk(ops: seq<Op>) { forall i :: 0 <= i < |ops| ==> OpOk(ops[i]) }

  /** The shard an operation locks. */
  function Home(hash: Hash, op: Op): (n: nat)
    requires OpOk(op)
    ensures n < SHARDS
  {
    match op
    case Put(e) => ShardOf(hash, e.key)
    case PutIfNewer(e) => ShardOf(hash, e.key)
    case Remove(key) => ShardOf(hash, key)
    case Clean(n, _, _) => n
  }

  function StepIn(hash: Hash, s: Shard, op: Op): (r: Shard)
    requires Shaped(s) && OpOk(op)
    ensures Shaped(r)
  {
    match op
    case Put(e) => PutIn(s, hash(e.key), e)
    case PutIfNewer(e) => PutNewerIn(s, hash(e.key), e)
    case Remove(key) => RemoveFrom(s, hash(key), key)
    case Clean(_, marker, identity) => CleanIn(s, marker, identity)
  }

  function Exec(hash: Hash, st: State, op: Op): (r: State)
    requires StateOk(st) && OpOk(op)
    ensures StateOk(r)
  {
    st[Home(hash, op) := StepIn(hash, st[Home(hash, op)], op)]
  }

  function RunFrom(hash: Hash, st: State, ops: seq<Op>): (r: State)
    requires StateOk(st) && OpsOk(ops)
    ensures StateOk(r)
  {
    if ops == [] then st
    else Exec(hash, RunFrom(hash, st, ops[..|ops| - 1]), ops[|ops| - 1])
  }

  function Initial(): (r: State)
    ensures StateOk(r)
  {
    seq(SHARDS, n => EMPTY_SHARD)
  }

  function Run(hash: Hash, ops: seq<Op>): (r: State)
    requires OpsOk(ops)
    ensures StateOk(r)
  {
    RunFrom(hash, Initial(), ops)
  }

  // ---- Distinct keys, each in its own shard ----

  /** A live slot of shard n is filed under its own key's hash. */
  predicate Filed(hash: Hash, n: nat, slot: Slot) {
    Live(slot) ==> slot.keyHash == hash(slot.entry.key) && ShardOf(hash, slot.entry.key) == n
  }

  predicate Apart(a: Slot, b: Slot) { Live(a) && Live(b) ==> a.entry.key != b.entry.key }

  predicate ShardInv(hash: Hash, n: nat, s: Shard) {
    && Shaped(s)
    && (forall i :: 0 <= i < SLOTS ==> Filed(hash, n, s.slots[i]))
    && (forall i, j :: 0 <= i < j < SLOTS ==> Apart(s.slots[i], s.slots[j]))
  }

  lemma AdmitKeeps(hash: Hash, n: nat, s: Shard, e: Entry)
    requires ShardInv(hash, n, s) && EntryOk(e) && Admissible(e) && ShardOf(hash, e.key) == n
    ensures ShardInv(hash, n, Admit(s, hash(e.key), e))
  {
    var h := hash(e.key);
    var t, r := Target(s, h, e.key), Admit(s, h, e);
    forall i, j | 0 <= i < j < SLOTS ensures Apart(r.slots[i], r.slots[j]) {
      assert Filed(hash, n, s.slots[i]) && Filed(hash, n, s.slots[j]) && Apart(s.slots[i], s.slots[j]);
      var at := FindSlot(s.slots, h, e.key, 0);
      assert at.Some? && i != t ==> Apart(s.slots[i], s.slots[t]) || Apart(s.slots[t], s.slots[i]);
      assert at.Some? && j != t ==> Apart(s.slots[j], s.slots[t]) || Apart(s.slots[t], s.slots[j]);
    }
  }

  lemma StepKeeps(hash: Hash, n: nat, s: Shard, op: Op)
    requires OpOk(op) && n == Home(hash, op) && ShardInv(hash, n, s)
    ensures ShardInv(hash, n, StepIn(hash, s, op))
  {
    match op
    case Put(e) => if Admissible(e) { AdmitKeeps(hash, n, s, e); }
    case PutIfNewer(e) => if Accepts(s, hash(e.key), e) { AdmitKeeps(hash, n, s, e); }
    case Remove(key) =>
    case Clean(_, marker, identity) =>
      var r := CleanIn(s, marker, identity);
      forall i, j | 0 <= i < j < SLOTS ensures Apart(r.slots[i], r.slots[j]) {
        assert Apart(s.slots[i], s.slots[j]);
      }
  }

  predicate Inv(hash: Hash, st: State) {
    |st| == SHARDS && forall n :: 0 <= n < SHARDS ==> ShardInv(hash, n, st[n])
  }

  lemma {:induction false} RunFromKeeps(hash: Hash, st: State, ops: seq<Op>)
    requires OpsOk(ops) && Inv(hash, st)
    ensures Inv(hash, RunFrom(hash, st, ops))
  {
    if ops != [] {
      var rest, op := ops[..|ops| - 1], ops[|ops| - 1];
      RunFromKeeps(hash, st, rest);
      StepKeeps(hash, Home(hash, op), RunFrom(hash, st, rest)[Home(hash, op)], op);
    }
  }

  /** In every reachable state two live slots never hold the same key, and every live slot
      stands in the shard its key's hash selects. */
  lemma LiveKeysDistinct(hash: Hash, ops: seq<Op>, m: nat, i: nat, n: nat, j: nat)
    requires OpsOk(ops) && m < SHARDS && n < SHARDS && i < SLOTS && j < SLOTS
    requires Live(Run(hash, ops)[m].slots[i]) && Live(Run(hash, ops)[n].slots[j])
    ensures m == ShardOf(hash, Run(hash, ops)[m].slots[i].entry.key)
    ensures Run(hash, ops)[m].slots[i].keyHash == hash(Run(hash, ops)[m].slots[i].entry.key)
    ensures Run(hash, ops)[m].slots[i].entry.key == Run(hash, ops)[n].slots[j].entry.key ==> m == n && i == j
  {
    RunFromKeeps(hash, Initial(), ops);
    var a, b := Run(hash, ops)[m], Run(hash, ops)[n];
    assert ShardInv(hash, m, a) && ShardInv(hash, n, b);
    assert Filed(hash, m, a.slots[i]) && Filed(hash, n, b.slots[j]);
    assert m == n && i < j ==> Apart(a.slots[i], a.slots[j]);
    assert m == n && j < i ==> Apart(a.slots[j], a.slots[i]);
  }

  // ---- Agreement with a history ----

  /** What an operation does to the last admitted entry of a key; s is the key's shard before it. */
  function Remember(hash: Hash, s: Shard, op: Op, key: string, last: Option<Entry>): Option<Entry> {
    match op
    case Put(e) => if e.key == key && Admissible(e) then Some(Kept(e)) else last
    case PutIfNewer(e) => if e.key == key && Accepts(s, hash(key), e) then Some(Kept(e)) else last
    case Remove(k) => if k == key then None else last
    case Clean(n, marker, identity) =>
      if n == ShardOf(hash, key) && Doomed(key, marker, identity) then None else last
  }

  /** The entry admitted last for a key, if it was not removed since. */
  function Last(hash: Hash, ops: seq<Op>, key: string): Option<Entry>
    requires OpsOk(ops)
  {
    if ops == [] then None
    else
      var rest := ops[..|ops| - 1];
      Remember(hash, Run(hash, rest)[ShardOf(hash, key)], ops[|ops| - 1], key, Last(hash, rest, key))
  }

  predicate Recorded(slot: Slot, last: Option<Entry>) { last == Some(slot.entry) }

  /** One step on the key's own shard: what is live afterwards is what the history says. */
  lemma StepRecorded(hash: Hash, n: nat, s: Shard, op: Op, i: nat, last: Option<Entry>)
    requires OpOk(op) && n == Home(hash, op) && ShardInv(hash, n, s) && i < SLOTS
    requires Live(StepIn(hash, s, op).slots[i])
    requires Live(s.slots[i]) && s.slots[i].entry.key == StepIn(hash, s, op).slots[i].entry.key ==>
               Recorded(s.slots[i], last)
    ensures var slot := StepIn(hash, s, op).slots[i];
            Recorded(slot, Remember(hash, s, op, slot.entry.key, last))
  {
    var r := StepIn(hash, s, op);
    var key := r.slots[i].entry.key;
    assert Filed(hash, n, s.slots[i]);
    match op
    case Put(e) =>
      if Admissible(e) && i != Target(s, hash(e.key), e.key) { OtherKey(hash, n, s, e, i); }
    case PutIfNewer(e) =>
      if Accepts(s, hash(e.key), e) && i != Target(s, hash(e.key), e.key) { OtherKey(hash, n, s, e, i); }
    case Remove(k) =>
      RemovedKey(hash, n, s, k, i);
    case Clean(_, marker, identity) =>
      assert r.slots[i] == Cleaned(s.slots[i], marker, identity);
  }

  /** The slots a put does not write hold other keys. */
  lemma OtherKey(hash: Hash, n: nat, s: Shard, e: Entry, i: nat)
    requires ShardInv(hash, n, s) && i < SLOTS && Live(s.slots[i])
    requires i != Target(s, hash(e.key), e.key)
    ensures s.slots[i].entry.key != e.key
  {
    var t := Target(s, hash(e.key), e.key);
    assert Filed(hash, n, s.slots[i]);
    assert i < t ==> Apart(s.slots[i], s.slots[t]);
    assert t < i ==> Apart(s.slots[t], s.slots[i]);
  }

  lemma RemovedKey(hash: Hash, n: nat, s: Shard, key: string, i: nat)
    requires ShardInv(hash, n, s) && i < SLOTS && Live(RemoveFrom(s, hash(key), key).slots[i])
    ensures RemoveFrom(s, hash(key), key).slots[i] == s.slots[i] && s.slots[i].entry.key != key
  {
    var at := FindSlot(s.slots, hash(key), key, 0);
    assert Filed(hash, n, s.slots[i]);
    assert at.Some? && i < at.value ==> Apart(s.slots[i], s.slots[at.value]);
    assert at.Some? && at.value < i ==> Apart(s.slots[at.value], s.slots[i]);
  }

  lemma {:induction false} LiveIsRecorded(hash: Hash, ops: seq<Op>, n: nat, i: nat)
    requires OpsOk(ops) && n < SHARDS && i < SLOTS && Live(Run(hash, ops)[n].slots[i])
    ensures Recorded(Run(hash, ops)[n].slots[i], Last(hash, ops, Run(hash, ops)[n].slots[i].entry.key))
  {
    if ops != [] {
      var rest, op := ops[..|ops| - 1], ops[|ops| - 1];
      var before, after := Run(hash, rest), Run(hash, ops);
      var key := after[n].slots[i].entry.key;
      RunFromKeeps(hash, Initial(), rest);
      RunFromKeeps(hash, Initial(), ops);
      assert ShardInv(hash, n, before[n]) && ShardInv(hash, n, after[n]);
      assert Filed(hash, n, after[n].slots[i]);
      if Live(before[n].slots[i]) {
        LiveIsRecorded(hash, rest, n, i);
      }
      if n == Home(hash, op) {
        StepRecorded(hash, n, before[n], op, i, Last(hash, rest, key));
      }
    }
  }

  /** A lookup after any run gives exactly the entry admitted last for the key, cut to the
      caller's buffer, if its slot is still there and it has not expired, and otherwise a miss;
      after a removal it is a miss. */
  lemma GetIsLast(hash: Hash, ops: seq<Op>, key: string, now: int, room: nat)
    requires OpsOk(ops)
    ensures var s, last := Run(hash, ops)[ShardOf(hash, key)], Last(hash, ops, key);
      && (Present(s, hash(key), key) ==> last.Some? && KeptOk(last.value))
      && GetFrom(s, hash(key), key, now, room) ==
           if Present(s, hash(key), key) && !(now > 0 && IsExpired(last.value, now))
           then Some(Delivered(last.value, room)) else None
  {
    var n := ShardOf(hash, key);
    var s := Run(hash, ops)[n];
    RunFromKeeps(hash, Initial(), ops);
    assert ShardInv(hash, n, s);
    var at := FindSlot(s.slots, hash(key), key, 0);
    if at.Some? {
      LiveIsRecorded(hash, ops, n, at.value);
    }
    var hit := FindAnswer(s.slots, hash(key), key, now, 0);
    if hit.Some? {
      LiveIsRecorded(hash, ops, n, hit.value);
    }
  }

  /** A promotion never replaces a stored entry by an older one: it either takes over with an entry
      at least as new or leaves the stored one. */
  lemma PromotionNeverAges(hash: Hash, ops: seq<Op>, e: Entry)
    requires OpsOk(ops) && EntryOk(e) && Present(Run(hash, ops)[ShardOf(hash, e.key)], hash(e.key), e.key)
    ensures var before, after := Last(hash, ops, e.key), Last(hash, ops + [PutIfNewer(e)], e.key);
      && before.Some? && after.Some? && after.value.created >= before.value.created
      && (after == before || after == Some(Kept(e)))
      && (after == before <== before.value.created > e.created)
  {
    var n := ShardOf(hash, e.key);
    var s := Run(hash, ops)[n];
    LiveIsRecorded(hash, ops, n, FindSlot(s.slots, hash(e.key), e.key, 0).value);
    assert (ops + [PutIfNewer(e)])[..|ops|] == ops;
  }
}
