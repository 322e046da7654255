/** The first-level cache: 256 shards of 16 slots, each shard a ring with one write cursor.
    Every function on a shard is one mutex section. */
module L1Cache {
  import opened Text
  import opened CacheNamespace

  const SHARDS: nat := 256
  const SLOTS: nat := 16
  const KEY_MAX: nat := 1023
  const MAX_BODY: nat := 3072

  datatype Entry = Entry(
    key: string,
    status: nat,
    contentType: string,
    body: Option<string>,
    bodyLen: nat,
    originalLen: nat,
    removedFields: nat,
    created: int,
    expires: int)

  type Hash = string -> nat

  /** What the C types guarantee of a caller's entry: a terminated key, and a body of the given length. */
  predicate EntryOk(e: Entry) { |e.key| <= KEY_MAX && (e.body.Some? ==> |e.body.value| == e.bodyLen) }

  predicate Admissible(e: Entry) { e.bodyLen <= MAX_BODY && (e.bodyLen > 0 ==> e.body.Some?) }

  /** The entry as a slot keeps it. */
  function Kept(e: Entry): Entry {
    if e.body.None? || e.bodyLen == 0 then e.(body := None, bodyLen := 0) else e
  }

  predicate KeptOk(e: Entry) {
    |e.key| <= KEY_MAX && (e.body.Some? <==> e.bodyLen > 0) &&
    (e.body.Some? ==> |e.body.value| == e.bodyLen <= MAX_BODY)
  }

  predicate IsExpired(e: Entry, now: int) { e.expires != 0 && now >= e.expires }

  datatype Slot = Slot(entry: Entry, generation: nat, keyHash: nat)

  const EMPTY_ENTRY := Entry("", 0, "", None, 0, 0, 0, 0, 0)
  const EMPTY_SLOT := Slot(EMPTY_ENTRY, 0, 0)

  predicate Live(s: Slot) { s.generation > 0 }

  predicate Holds(s: Slot, h: nat, key: string) { Live(s) && s.keyHash == h && s.entry.key == key }

  datatype Shard = Shard(slots: seq<Slot>, cursor: nat)

  predicate Shaped(s: Shard) {
    |s.slots| == SLOTS && forall i :: 0 <= i < SLOTS ==> KeptOk(s.slots[i].entry)
  }

  const EMPTY_SHARD := Shard(seq(SLOTS, i => EMPTY_SLOT), 0)

  /** The first slot from position i on that holds the key. */
  function FindSlot(slots: seq<Slot>, h: nat, key: string, i: nat): (r: Option<nat>)
    requires i <= |slots|
    ensures r.Some? ==> i <= r.value < |slots| && Holds(slots[r.value], h, key)
    ensures r.Some? ==> forall j :: i <= j < r.value ==> !Holds(slots[j], h, key)
    ensures r.None? ==> forall j :: i <= j < |slots| ==> !Holds(slots[j], h, key)
    decreases |slots| - i
  {
    if i == |slots| then None
    else if Holds(slots[i], h, key) then Some(i)
    else FindSlot(slots, h, key, i + 1)
  }

  // ---- Storing ----

  function Target(s: Shard, h: nat, key: string): (t: nat)
    requires Shaped(s)
    ensures t < SLOTS
  {
    var at := FindSlot(s.slots, h, key, 0);
    if at.Some? then at.value else s.cursor % SLOTS
  }

  predicate Present(s: Shard, h: nat, key: string) { FindSlot(s.slots, h, key, 0).Some? }

  function Admit(s: Shard, h: nat, e: Entry): (r: Shard)
    requires Shaped(s) && EntryOk(e) && Admissible(e)
    ensures Shaped(r)
  {
    var t := Target(s, h, e.key);
    Shard(s.slots[t := Slot(Kept(e), s.slots[t].generation + 1, h)],
          if Present(s, h, e.key) then s.cursor else s.cursor + 1)
  }

  function PutIn(s: Shard, h: nat, e: Entry): Shard
    requires Shaped(s) && EntryOk(e)
  {
    if Admissible(e) then Admit(s, h, e) else s
  }

  /** A stored entry of the same key is newer. */
  predicate Stale(s: Shard, h: nat, e: Entry) {
    var at := FindSlot(s.slots, h, e.key, 0);
    at.Some? && s.slots[at.value].entry.created > e.created
  }

  predicate Accepts(s: Shard, h: nat, e: Entry) { Admissible(e) && !Stale(s, h, e) }

  function PutNewerIn(s: Shard, h: nat, e: Entry): Shard
    requires Shaped(s) && EntryOk(e)
  {
    if Accepts(s, h, e) then Admit(s, h, e) else s
  }

  // ---- Looking up ----

  predicate Answers(s: Slot, h: nat, key: string, now: int) {
    Holds(s, h, key) && !(now > 0 && IsExpired(s.entry, now))
  }

  function FindAnswer(slots: seq<Slot>, h: nat, key: string, now: int, i: nat): (r: Option<nat>)
    requires i <= |slots|
    ensures r.Some? ==> i <= r.value < |slots| && Answers(slots[r.value], h, key, now)
    ensures r.None? ==> forall j :: i <= j < |slots| ==> !Answers(slots[j], h, key, now)
    decreases |slots| - i
  {
    if i == |slots| then None
    else if Answers(slots[i], h, key, now) then Some(i)
    else FindAnswer(slots, h, key, now, i + 1)
  }

  /** The entry as the caller gets it, with the body cut to a buffer of `room` bytes. */
  function Delivered(e: Entry, room: nat): Entry
    requires KeptOk(e)
  {
    if e.bodyLen > 0 && room > 0 then
      var n := if e.bodyLen > room then room else e.bodyLen;
      e.(body := Some(e.body.value[..n]), bodyLen := n)
    else e.(body := None, bodyLen := 0)
  }

  function GetFrom(s: Shard, h: nat, key: string, now: int, room: nat): Option<Entry>
    requires Shaped(s)
  {
    var at := FindAnswer(s.slots, h, key, now, 0);
    if at.Some? then Some(Delivered(s.slots[at.value].entry, room)) else None
  }

  // ---- Removing ----

  datatype RemoveResult = Removed | Miss | InvalidArgument

  function RemoveFrom(s: Shard, h: nat, key: string): (r: Shard)
    requires Shaped(s)
    ensures Shaped(r)
  {
    var at := FindSlot(s.slots, h, key, 0);
    if at.Some? then s.(slots := s.slots[at.value := EMPTY_SLOT]) else s
  }

  function Cleaned(slot: Slot, marker: string, identity: Option<string>): Slot {
    if Live(slot) && Doomed(slot.entry.key, marker, identity) then EMPTY_SLOT else slot
  }

  function CleanIn(s: Shard, marker: string, identity: Option<string>): (r: Shard)
    requires Shaped(s)
    ensures Shaped(r)
  {
    s.(slots := seq(SLOTS, i requires 0 <= i < SLOTS => Cleaned(s.slots[i], marker, identity)))
  }

  /** The number of live slots among the first n. */
  function LiveCount(slots: seq<Slot>, n: nat): nat
    requires n <= |slots|
  {
    if n == 0 then 0 else LiveCount(slots, n - 1) + if Live(slots[n - 1]) then 1 else 0
  }

  /** strncmp over the key buffer is equality, because a stored key is terminated within it. */
  predicate SameKey(stored: string, key: string) { Cut(stored, KEY_MAX + 1) == Cut(key, KEY_MAX + 1) }

  class L1Shard {
    const slots: array<Slot>
    var cursor: nat

    function View(): Shard
      reads this, slots
    {
      Shard(slots[..], cursor)
    }

    predicate Valid()
      reads this, slots
    {
      Shaped(View())
    }

    /** One shard as l1_init leaves it. */
    constructor ()
      ensures Valid() && View() == EMPTY_SHARD && fresh(slots)
    {
      slots := new Slot[SLOTS](i => EMPTY_SLOT);
      cursor := 0;
      new;
      assert slots[..] == EMPTY_SHARD.slots;
    }

    method Find(h: nat, key: string) returns (at: Option<nat>)
      requires Valid()
      ensures at == FindSlot(slots[..], h, key, 0)
    {
      var i := 0;
      while i < SLOTS
        invariant 0 <= i <= SLOTS && FindSlot(slots[..], h, key, 0) == FindSlot(slots[..], h, key, i)
      {
        if slots[i].generation > 0 && slots[i].keyHash == h && slots[i].entry.key == key {
          return Some(i);
        }
        i := i + 1;
      }
      at := None;
    }

    /** copy_body_to_slot. */
    method CopyBody(t: nat, e: Entry)
      requires slots.Length == SLOTS && t < SLOTS && EntryOk(e)
      modifies slots
      ensures slots[..] == old(slots[..])[t := old(slots[t]).(entry := old(slots[t].entry).(
                body := if e.body.None? || e.bodyLen == 0 then None else Some(Cut(e.body.value, MAX_BODY)),
                bodyLen := if e.body.None? then 0 else if e.bodyLen > MAX_BODY then MAX_BODY else e.bodyLen))]
    {
      var kept := slots[t].entry;
      if e.body.None? || e.bodyLen == 0 {
        slots[t] := slots[t].(entry := kept.(body := None, bodyLen := 0));
        return;
      }
      var n := if e.bodyLen > MAX_BODY then MAX_BODY else e.bodyLen;
      assert Cut(e.body.value, MAX_BODY) == e.body.value[..n];
      slots[t] := slots[t].(entry := kept.(body := Some(e.body.value[..n]), bodyLen := n));
    }

    /** The writing half of both put operations. */
    method Insert(h: nat, e: Entry, at: Option<nat>)
      requires Valid() && EntryOk(e) && Admissible(e) && at == FindSlot(slots[..], h, e.key, 0)
      modifies this, slots
      ensures Valid() && View() == Admit(old(View()), h, e)
    {
      var t := if at.Some? then at.value else cursor % SLOTS;
      ghost var before := slots[..];
      slots[t] := slots[t].(entry := e);
      CopyBody(t, e);
      slots[t] := slots[t].(keyHash := h);
      slots[t] := slots[t].(generation := slots[t].generation + 1);
      if at.None? {
        cursor := cursor + 1;
      }
      assert slots[t] == Slot(Kept(e), before[t].generation + 1, h);
      assert slots[..] == before[t := Slot(Kept(e), before[t].generation + 1, h)];
    }

    method Put(h: nat, e: Entry)
      requires Valid() && EntryOk(e) && Admissible(e)
      modifies this, slots
      ensures Valid() && View() == Admit(old(View()), h, e)
    {
      var at := Find(h, e.key);
      Insert(h, e, at);
    }

    method PutIfNewer(h: nat, e: Entry) returns (promoted: bool)
      requires Valid() && EntryOk(e) && Admissible(e)
      modifies this, slots
      ensures Valid() && View() == PutNewerIn(old(View()), h, e)
      ensures promoted == Accepts(old(View()), h, e)
    {
      var at := Find(h, e.key);
      if at.Some? && slots[at.value].entry.created > e.created {
        return false;
      }
      Insert(h, e, at);
      promoted := true;
    }

    method Get(h: nat, key: string, now: int, room: nat) returns (r: Option<Entry>)
      requires Valid()
      ensures r == GetFrom(View(), h, key, now, room)
    {
      var i := 0;
      while i < SLOTS
        invariant 0 <= i <= SLOTS && FindAnswer(slots[..], h, key, now, 0) == FindAnswer(slots[..], h, key, now, i)
      {
        var slot := slots[i];
        assert SameKey(slot.entry.key, key) <==> slot.entry.key == key;
        if slot.generation > 0 && slot.keyHash == h && SameKey(slot.entry.key, key)
           && !(now > 0 && IsExpired(slot.entry, now)) {
          var out := slot.entry;
          if out.bodyLen > 0 && room > 0 {
            var n := if out.bodyLen > room then room else out.bodyLen;
            out := out.(body := Some(out.body.value[..n]), bodyLen := n);
          } else {
            out := out.(body := None, bodyLen := 0);
          }
          return Some(out);
        }
        i := i + 1;
      }
      r := None;
    }

    method Remove(h: nat, key: string) returns (r: RemoveResult)
      requires Valid()
      modifies slots
      ensures Valid() && View() == RemoveFrom(old(View()), h, key)
      ensures r == if Present(old(View()), h, key) then Removed else Miss
    {
      var i := 0;
      while i < SLOTS
        invariant 0 <= i <= SLOTS && FindSlot(slots[..], h, key, 0) == FindSlot(slots[..], h, key, i)
        invariant slots[..] == old(slots[..])
      {
        assert SameKey(slots[i].entry.key, key) <==> slots[i].entry.key == key;
        if slots[i].generation > 0 && slots[i].keyHash == h && SameKey(slots[i].entry.key, key) {
          slots[i] := EMPTY_SLOT;
          assert slots[..] == old(slots[..])[i := EMPTY_SLOT];
          return Removed;
        }
        i := i + 1;
      }
      r := Miss;
    }

    method CleanSlot(i: nat, marker: string, identity: Option<string>) returns (removed: bool)
      requires slots.Length == SLOTS && i < SLOTS
      modifies slots
      ensures slots[i] == Cleaned(old(slots[i]), marker, identity)
      ensures forall k :: 0 <= k < SLOTS && k != i ==> slots[k] == old(slots[k])
      ensures removed == (Live(old(slots[i])) && !Live(slots[i]))
    {
      if slots[i].generation == 0 {
        return false;
      }
      removed := KeyIsDoomed(slots[i].entry.key, marker, identity);
      if removed {
        slots[i] := EMPTY_SLOT;
      }
    }

    /** One shard's turn in l1_cleanup_route_namespace. */
    method Clean(marker: string, identity: Option<string>) returns (removed: nat)
      requires Valid()
      modifies slots
      ensures Valid() && View() == CleanIn(old(View()), marker, identity)
      ensures removed == LiveCount(old(slots[..]), SLOTS) - LiveCount(slots[..], SLOTS)
    {
      removed := 0;
      var i := 0;
      ghost var before := slots[..];
      ghost var after := CleanIn(View(), marker, identity).slots;
      while i < SLOTS
        invariant 0 <= i <= SLOTS
        invariant forall k :: 0 <= k < i ==> slots[k] == after[k]
        invariant forall k :: i <= k < SLOTS ==> slots[k] == before[k]
        invariant removed == LiveCount(before, i) - LiveCount(after, i)
      {
        var cleared := CleanSlot(i, marker, identity);
        if cleared {
          removed := removed + 1;
        }
        i := i + 1;
      }
      assert slots[..] == after;
    }
  }

  /** Live slots of the first n shards. */
  function LiveTotal(shards: seq<Shard>, n: nat): nat
    requires n <= |shards| && forall i :: 0 <= i < |shards| ==> Shaped(shards[i])
  {
    if n == 0 then 0 else LiveTotal(shards, n - 1) + LiveCount(shards[n - 1].slots, SLOTS)
  }

  function ShardOf(hash: Hash, key: string): (s: nat)
    ensures s < SHARDS
  {
    hash(key) % SHARDS
  }

  datatype CleanupResult = CleanupResult(ok: bool, removed: nat, error: string)

  class Cache {
    const hash: Hash
    const shards: seq<L1Shard>

    ghost predicate Valid()
      reads this, shards, set s | s in shards :: s.slots
    {
      && |shards| == SHARDS
      && (forall i :: 0 <= i < SHARDS ==> shards[i].Valid())
      && (forall i, j :: 0 <= i < j < SHARDS ==> shards[i] != shards[j] && shards[i].slots != shards[j].slots)
    }

    ghost function Views(): (v: seq<Shard>)
      requires Valid()
      reads this, shards, set s | s in shards :: s.slots
      ensures |v| == SHARDS && forall i :: 0 <= i < SHARDS ==> v[i] == shards[i].View() && Shaped(v[i])
    {
      seq(SHARDS, i requires 0 <= i < SHARDS reads this, shards, set s | s in shards :: s.slots => shards[i].View())
    }

    /** l1_init. */
    constructor (hash: Hash)
      ensures Valid() && this.hash == hash && Views() == seq(SHARDS, i => EMPTY_SHARD)
    {
      var all: seq<L1Shard> := [];
      while |all| < SHARDS
        invariant |all| <= SHARDS
        invariant forall i :: 0 <= i < |all| ==> fresh(all[i]) && fresh(all[i].slots) && all[i].View() == EMPTY_SHARD
        invariant forall i, j :: 0 <= i < j < |all| ==> all[i] != all[j] && all[i].slots != all[j].slots
      {
        var shard := new L1Shard();
        all := all + [shard];
      }
      this.hash := hash;
      shards := all;
    }

    method Put(e: Entry)
      requires Valid() && EntryOk(e)
      modifies shards, set s | s in shards :: s.slots
      ensures Valid()
      ensures Views() == old(Views())[ShardOf(hash, e.key) := PutIn(old(Views())[ShardOf(hash, e.key)], hash(e.key), e)]
    {
      if e.bodyLen > MAX_BODY || (e.bodyLen > 0 && e.body.None?) {
        return;
      }
      var h := hash(e.key);
      shards[h % SHARDS].Put(h, e);
    }

    method PutIfNewer(e: Entry) returns (promoted: bool)
      requires Valid() && EntryOk(e)
      modifies shards, set s | s in shards :: s.slots
      ensures Valid()
      ensures Views() ==
              old(Views())[ShardOf(hash, e.key) := PutNewerIn(old(Views())[ShardOf(hash, e.key)], hash(e.key), e)]
      ensures promoted == Accepts(old(Views())[ShardOf(hash, e.key)], hash(e.key), e)
    {
      if e.bodyLen > MAX_BODY || (e.bodyLen > 0 && e.body.None?) {
        return false;
      }
      var h := hash(e.key);
      promoted := shards[h % SHARDS].PutIfNewer(h, e);
    }

    method Get(key: Option<string>, now: int, room: nat) returns (r: Option<Entry>)
      requires Valid()
      ensures r == if key.None? then None
                   else GetFrom(Views()[ShardOf(hash, key.value)], hash(key.value), key.value, now, room)
    {
      if key.None? {
        return None;
      }
      var h := hash(key.value);
      r := shards[h % SHARDS].Get(h, key.value, now, room);
    }

    method Remove(key: Option<string>) returns (r: RemoveResult)
      requires Valid()
      modifies shards, set s | s in shards :: s.slots
      ensures Valid()
      ensures key.None? ==> r == InvalidArgument && Views() == old(Views())
      ensures key.Some? ==> var s := ShardOf(hash, key.value);
        && Views() == old(Views())[s := RemoveFrom(old(Views())[s], hash(key.value), key.value)]
        && r == if Present(old(Views())[s], hash(key.value), key.value) then Removed else Miss
    {
      if key.None? {
        return InvalidArgument;
      }
      var h := hash(key.value);
      r := shards[h % SHARDS].Remove(h, key.value);
    }

    method CleanupRouteNamespace(request: CleanupRequest) returns (r: CleanupResult)
      requires Valid()
      modifies shards, set s | s in shards :: s.slots
      ensures Valid()
      ensures request.route.None? ==> !r.ok && r.removed == 0 && Views() == old(Views())
      ensures request.route.Some? ==> r.ok && forall s :: 0 <= s < SHARDS ==>
        Views()[s] == CleanIn(old(Views())[s], Marker(request.route.value, request.epoch), request.identity)
      ensures r.removed == LiveTotal(old(Views()), SHARDS) - LiveTotal(Views(), SHARDS)
    {
      if request.route.None? {
        return CleanupResult(false, 0, "null cache or route_id");
      }
      var marker := Marker(request.route.value, request.epoch);
      var removed, s := 0, 0;
      ghost var before := Views();
      while s < SHARDS
        invariant 0 <= s <= SHARDS && Valid()
        invariant forall i :: 0 <= i < s ==> Views()[i] == CleanIn(before[i], marker, request.identity)
        invariant forall i :: s <= i < SHARDS ==> Views()[i] == before[i]
        invariant removed == LiveTotal(before, s) - LiveTotal(Views(), s)
      {
        ghost var now := Views();
        var n := shards[s].Clean(marker, request.identity);
        assert Views() == now[s := CleanIn(now[s], marker, request.identity)];
        LiveTotalNext(before, now, Views(), s);
        removed := removed + n;
        s := s + 1;
      }
      r := CleanupResult(true, removed, "");
    }
  }

  lemma {:induction false} LiveTotalPrefix(a: seq<Shard>, b: seq<Shard>, n: nat)
    requires n <= |a| && n <= |b|
    requires forall i :: 0 <= i < |a| ==> Shaped(a[i])
    requires forall i :: 0 <= i < |b| ==> Shaped(b[i])
    requires forall i :: 0 <= i < n ==> a[i] == b[i]
    ensures LiveTotal(a, n) == LiveTotal(b, n)
  {
    if n > 0 {
      LiveTotalPrefix(a, b, n - 1);
    }
  }

  /** Cleaning shard s moves the difference of the totals by the slots it cleared. */
  lemma LiveTotalNext(before: seq<Shard>, now: seq<Shard>, after: seq<Shard>, s: nat)
    requires s < |before| == |now| == |after|
    requires forall i :: 0 <= i < |now| ==> Shaped(before[i]) && Shaped(now[i]) && Shaped(after[i])
    requires before[s] == now[s] && forall i :: 0 <= i < s ==> now[i] == after[i]
    ensures LiveTotal(before, s + 1) - LiveTotal(after, s + 1)
            == LiveTotal(before, s) - LiveTotal(now, s)
               + LiveCount(now[s].slots, SLOTS) - LiveCount(after[s].slots, SLOTS)
  {
    LiveTotalPrefix(now, after, s);
  }
}
