/** Eviction order: a shard's cursor counts its fresh admissions, so an entry leaves by the
    sixteenth fresh admission after its own and by nothing earlier but removal. */
module L1Ring {
  import opened CacheNamespace
  import opened L1Cache
  import opened L1Runs

  /** The operation stores a key that shard n does not hold. */
  predicate IsFresh(hash: Hash, st: State, op: Op, n: nat)
    requires StateOk(st) && OpOk(op) && n < SHARDS
  {
    && (op.Put? || op.PutIfNewer?)
    && Home(hash, op) == n && Admissible(op.e) && !Present(st[n], hash(op.e.key), op.e.key)
  }

  /** Fresh admissions to shard n in a run from st. */
  function FreshCount(hash: Hash, st: State, ops: seq<Op>, n: nat): nat
    requires StateOk(st) && OpsOk(ops) && n < SHARDS
  {
    if ops == [] then 0
    else
      var rest := ops[..|ops| - 1];
      FreshCount(hash, st, rest, n) + if IsFresh(hash, RunFrom(hash, st, rest), ops[|ops| - 1], n) then 1 else 0
  }

  /** Only fresh admissions move the cursor, each by one; overwriting a stored key never does. */
  lemma {:induction false} CursorCountsFresh(hash: Hash, st: State, ops: seq<Op>, n: nat)
    requires StateOk(st) && OpsOk(ops) && n < SHARDS
    ensures RunFrom(hash, st, ops)[n].cursor == st[n].cursor + FreshCount(hash, st, ops, n)
  {
    if ops != [] {
      CursorCountsFresh(hash, st, ops[..|ops| - 1], n);
    }
  }

  /** The operation does not remove the key. */
  predicate Spares(hash: Hash, op: Op, key: string) {
    match op
    case Put(_) => true
    case PutIfNewer(_) => true
    case Remove(k) => k != key
    case Clean(n, marker, identity) => !(n == ShardOf(hash, key) && Doomed(key, marker, identity))
  }

  predicate AllSpare(hash: Hash, ops: seq<Op>, key: string) {
    forall i :: 0 <= i < |ops| ==> Spares(hash, ops[i], key)
  }

  predicate Keeps(slot: Slot, key: string) { Live(slot) && slot.entry.key == key }

  lemma RingDistance(c: nat, f: nat)
    requires f < SLOTS - 1
    ensures (c + 1 + f) % SLOTS != c % SLOTS && (c + SLOTS) % SLOTS == c % SLOTS
  {
  }

  /** One operation leaves a slot's key alone unless it removes it or freshly writes that slot. */
  lemma StepSpares(hash: Hash, n: nat, s: Shard, op: Op, p: nat, key: string)
    requires OpOk(op) && n == Home(hash, op) == ShardOf(hash, key) && ShardInv(hash, n, s)
    requires p < SLOTS && Keeps(s.slots[p], key) && Spares(hash, op, key)
    requires (op.Put? || op.PutIfNewer?) && !Present(s, hash(op.e.key), op.e.key) ==> s.cursor % SLOTS != p
    ensures Keeps(StepIn(hash, s, op).slots[p], key)
  {
    match op
    case Put(e) =>
    case PutIfNewer(e) =>
    case Remove(k) =>
    case Clean(_, marker, identity) =>
      assert StepIn(hash, s, op).slots[p] == Cleaned(s.slots[p], marker, identity);
  }

  lemma {:induction false} KeySurvives(hash: Hash, st: State, ops: seq<Op>, c: nat, key: string)
    requires Inv(hash, st) && OpsOk(ops) && AllSpare(hash, ops, key)
    requires var s := st[ShardOf(hash, key)]; s.cursor == c + 1 && Keeps(s.slots[c % SLOTS], key)
    requires FreshCount(hash, st, ops, ShardOf(hash, key)) < SLOTS
    ensures Keeps(RunFrom(hash, st, ops)[ShardOf(hash, key)].slots[c % SLOTS], key)
  {
    if ops != [] {
      var n, rest, op := ShardOf(hash, key), ops[..|ops| - 1], ops[|ops| - 1];
      KeySurvives(hash, st, rest, c, key);
      RunFromKeeps(hash, st, rest);
      CursorCountsFresh(hash, st, rest, n);
      var before := RunFrom(hash, st, rest);
      if IsFresh(hash, before, op, n) {
        RingDistance(c, FreshCount(hash, st, rest, n));
      }
      if Home(hash, op) == n {
        SurviveStep(hash, before, op, c, key);
      }
    }
  }

  lemma SurviveStep(hash: Hash, st: State, op: Op, c: nat, key: string)
    requires Inv(hash, st) && OpOk(op) && Home(hash, op) == ShardOf(hash, key) && Spares(hash, op, key)
    requires Keeps(st[ShardOf(hash, key)].slots[c % SLOTS], key)
    requires IsFresh(hash, st, op, ShardOf(hash, key)) ==> st[ShardOf(hash, key)].cursor % SLOTS != c % SLOTS
    ensures Keeps(Exec(hash, st, op)[ShardOf(hash, key)].slots[c % SLOTS], key)
  {
    var n := ShardOf(hash, key);
    assert ShardInv(hash, n, st[n]);
    if (op.Put? || op.PutIfNewer?) && !Admissible(op.e) {
    } else {
      StepSpares(hash, n, st[n], op, c % SLOTS, key);
    }
  }

  /** Where a fresh admission puts its key. */
  lemma FreshPlaced(hash: Hash, st: State, first: Op)
    requires Inv(hash, st) && OpOk(first) && (first.Put? || first.PutIfNewer?)
    requires IsFresh(hash, st, first, ShardOf(hash, first.e.key))
    ensures var n := ShardOf(hash, first.e.key);
      var s := Exec(hash, st, first)[n];
      Inv(hash, Exec(hash, st, first)) && s.cursor == st[n].cursor + 1
      && Keeps(s.slots[st[n].cursor % SLOTS], first.e.key)
  {
    var n := ShardOf(hash, first.e.key);
    assert ShardInv(hash, n, st[n]);
    assert !Stale(st[n], hash(first.e.key), first.e);
    StepKeeps(hash, n, st[n], first);
  }

  lemma KeptIsPresent(hash: Hash, n: nat, s: Shard, p: nat, key: string)
    requires ShardInv(hash, n, s) && p < SLOTS && Keeps(s.slots[p], key)
    ensures Present(s, hash(key), key)
  {
    assert Filed(hash, n, s.slots[p]);
  }

  /** After a fresh admission, as long as the key is not removed, it is in the cache after any
      operations with at most fifteen fresh admissions to its shard. */
  lemma SurvivesFifteen(hash: Hash, ops: seq<Op>, first: Op, more: seq<Op>)
    requires OpsOk(ops) && OpOk(first) && OpsOk(more) && (first.Put? || first.PutIfNewer?)
    requires IsFresh(hash, Run(hash, ops), first, ShardOf(hash, first.e.key))
    requires AllSpare(hash, more, first.e.key)
    requires FreshCount(hash, Exec(hash, Run(hash, ops), first), more, ShardOf(hash, first.e.key)) < SLOTS
    ensures var later := RunFrom(hash, Exec(hash, Run(hash, ops), first), more);
      Present(later[ShardOf(hash, first.e.key)], hash(first.e.key), first.e.key)
  {
    var key, st := first.e.key, Exec(hash, Run(hash, ops), first);
    var n, c := ShardOf(hash, key), Run(hash, ops)[ShardOf(hash, key)].cursor;
    RunFromKeeps(hash, Initial(), ops);
    FreshPlaced(hash, Run(hash, ops), first);
    KeySurvives(hash, st, more, c, key);
    RunFromKeeps(hash, st, more);
    KeptIsPresent(hash, n, RunFrom(hash, st, more)[n], c % SLOTS, key);
  }

  /** The sixteenth fresh admission takes the slot, and the key is gone. */
  lemma SixteenthEvicts(hash: Hash, ops: seq<Op>, first: Op, more: seq<Op>, op: Op)
    requires OpsOk(ops) && OpOk(first) && OpsOk(more) && OpOk(op) && (first.Put? || first.PutIfNewer?)
    requires IsFresh(hash, Run(hash, ops), first, ShardOf(hash, first.e.key))
    requires AllSpare(hash, more, first.e.key)
    requires FreshCount(hash, Exec(hash, Run(hash, ops), first), more, ShardOf(hash, first.e.key)) == SLOTS - 1
    requires IsFresh(hash, RunFrom(hash, Exec(hash, Run(hash, ops), first), more), op, ShardOf(hash, first.e.key))
    ensures var later := RunFrom(hash, Exec(hash, Run(hash, ops), first), more);
      !Present(Exec(hash, later, op)[ShardOf(hash, first.e.key)], hash(first.e.key), first.e.key)
  {
    var key, st := first.e.key, Exec(hash, Run(hash, ops), first);
    var n, c := ShardOf(hash, key), Run(hash, ops)[ShardOf(hash, key)].cursor;
    RunFromKeeps(hash, Initial(), ops);
    FreshPlaced(hash, Run(hash, ops), first);
    KeySurvives(hash, st, more, c, key);
    RunFromKeeps(hash, st, more);
    CursorCountsFresh(hash, st, more, n);
    FullTurn(hash, RunFrom(hash, st, more), op, c, key);
  }

  /** One full turn of the cursor comes back to the slot. */
  lemma FullTurn(hash: Hash, st: State, op: Op, c: nat, key: string)
    requires Inv(hash, st) && OpOk(op) && IsFresh(hash, st, op, ShardOf(hash, key))
    requires var s := st[ShardOf(hash, key)]; s.cursor == c + SLOTS && Keeps(s.slots[c % SLOTS], key)
    ensures !Present(Exec(hash, st, op)[ShardOf(hash, key)], hash(key), key)
  {
    RingDistance(c, 0);
    var n := ShardOf(hash, key);
    Evicted(hash, n, st[n], op, c % SLOTS, key);
  }

  lemma Evicted(hash: Hash, n: nat, s: Shard, op: Op, p: nat, key: string)
    requires ShardInv(hash, n, s) && p < SLOTS && Keeps(s.slots[p], key) && s.cursor % SLOTS == p
    requires OpOk(op) && (op.Put? || op.PutIfNewer?) && Home(hash, op) == n
    requires Admissible(op.e) && !Present(s, hash(op.e.key), op.e.key)
    ensures !Present(StepIn(hash, s, op), hash(key), key)
  {
    assert Filed(hash, n, s.slots[p]);
    assert !Stale(s, hash(op.e.key), op.e);
    var r := StepIn(hash, s, op);
    assert r.slots[p].entry.key == op.e.key;
    forall i | 0 <= i < SLOTS ensures !Holds(r.slots[i], hash(key), key) {
      assert i < p ==> Apart(s.slots[i], s.slots[p]);
      assert p < i ==> Apart(s.slots[p], s.slots[i]);
    }
  }
}
