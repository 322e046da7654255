/** Epoch isolation: a lookup under a route's new epoch never reaches an entry stored under
    another, and cleaning the old epoch finds every key that was built for it. */
module Epochs {
  import opened Text
  import opened CacheKey
  import opened CacheKeyIdentity
  import opened KeyPieces
  import opened CacheNamespace
  import opened CleanupReach
  import opened L1Cache
  import opened L1Runs

  // ---- Isolation ----

  predicate Stores(op: Op, key: string, e: Entry) {
    (op.Put? || op.PutIfNewer?) && op.e.key == key && Kept(op.e) == e
  }

  /** What a history remembers was once stored under that very key. */
  lemma {:induction false} LastWasStored(hash: Hash, ops: seq<Op>, key: string) returns (j: nat)
    requires OpsOk(ops) && Last(hash, ops, key).Some?
    ensures j < |ops| && Stores(ops[j], key, Last(hash, ops, key).value)
  {
    var n := |ops| - 1;
    if Last(hash, ops[..n], key) == Last(hash, ops, key) {
      j := LastWasStored(hash, ops[..n], key);
    } else {
      j := n;
    }
  }

  /** Behind the tag and a common route, equal keys agree. */
  lemma BehindRoute(c: Content, d: Content)
    requires c.route == d.route && Render(c) == Render(d)
    ensures c.variant == d.variant && EpochText(c.epoch) + AfterEpoch(c) == EpochText(d.epoch) + AfterEpoch(d)
  {
    var x, y := EpochText(c.epoch) + AfterEpoch(c), EpochText(d.epoch) + AfterEpoch(d);
    RenderIsSegments(c);
    RenderIsSegments(d);
    TagInjective(c.variant, d.variant);
    TagInjective(d.variant, c.variant);
    SplitUnique(Tag(c.variant), Tag(d.variant), Seg(c.route, x), Seg(d.route, y), '|');
    RouteDropped(c.route, x, y);
  }

  lemma RouteDropped(route: string, x: string, y: string)
    requires Seg(route, x) == Seg(route, y)
    ensures x == y
  {
    assert Seg(route, x)[|route| + 1..] == x && Seg(route, y)[|route| + 1..] == y;
  }

  lemma EpochSplits(m: nat, x: string, n: nat, y: string)
    requires Seg(EpochName(m), x) == Seg(EpochName(n), y)
    ensures m == n && x == y
  {
    DigitsPlain(m);
    DigitsPlain(n);
    SplitUnique(EpochName(m), EpochName(n), x, y, '|');
    assert EpochName(m)[6..] == Decimal(m) && EpochName(n)[6..] == Decimal(n);
    DecimalInjective(m, n);
  }

  /** A path whose first piece reads like the epoch. */
  predicate SpellsEpoch(path: string, epoch: Option<nat>) { epoch.Some? && Split(path)[0] == EpochName(epoch.value) }

  lemma FirstPiece(n: nat, x: string, path: string, rest: string)
    requires Seg(EpochName(n), x) == Seg(path, rest)
    ensures SpellsEpoch(path, Some(n))
  {
    var parts := Split(path);
    SplitJoins(path);
    DigitsPlain(n);
    if |parts| == 1 {
      SplitUnique(EpochName(n), parts[0], x, rest, '|');
    } else {
      SegNests(parts[0], Joined(parts[1..]), rest);
      SplitUnique(EpochName(n), parts[0], x, Seg(Joined(parts[1..]), rest), '|');
    }
  }

  lemma SlashSpellsNothing(path: string, epoch: Option<nat>)
    requires path != "" && path[0] == '/'
    ensures !SpellsEpoch(path, epoch)
  {
    assert Split(path)[0][0] == '/';
  }

  /** Whatever they hold, two equal keys of one route have one epoch, or one of them has none and a path
      that spells the other's. */
  lemma SameEpoch(c: Content, d: Content)
    requires c.route == d.route && Render(c) == Render(d)
    ensures c.variant == d.variant
    ensures || c.epoch == d.epoch
            || (d.epoch.None? && SpellsEpoch(d.path, c.epoch))
            || (c.epoch.None? && SpellsEpoch(c.path, d.epoch))
  {
    BehindRoute(c, d);
    var x, y := AfterEpoch(c), AfterEpoch(d);
    if c.epoch.Some? {
      EpochIsSegment(c.epoch.value, x);
    }
    if d.epoch.Some? {
      EpochIsSegment(d.epoch.value, y);
    }
    if c.epoch.Some? && d.epoch.Some? {
      EpochSplits(c.epoch.value, x, d.epoch.value, y);
    } else if c.epoch.Some? {
      assert "" + y == y;
      FirstPiece(c.epoch.value, x, d.path, Seg(d.query, Seg(List(d.fields), Tail(d))));
    } else if d.epoch.Some? {
      assert "" + x == x;
      FirstPiece(d.epoch.value, y, c.path, Seg(c.query, Seg(List(c.fields), Tail(c))));
    }
  }

  predicate Slashed(input: KeyInput) { OrEmpty(input.path) != "" && OrEmpty(input.path)[0] == '/' }

  lemma SameEpochOfRequests(a: KeyInput, m: nat, b: KeyInput, n: nat)
    requires InputOk(a) && InputOk(b) && a.route == b.route && Built(a, m).Some? && Built(a, m) == Built(b, n)
    ensures a.variant == b.variant
    ensures (a.epoch.Some? && b.epoch.Some?) || (Slashed(a) && Slashed(b)) ==> a.epoch == b.epoch
  {
    SameEpoch(ContentOf(a), ContentOf(b));
    if Slashed(a) && Slashed(b) {
      SlashSpellsNothing(OrEmpty(a.path), b.epoch);
      SlashSpellsNothing(OrEmpty(b.path), a.epoch);
    }
  }

  /** A hit is of an entry that was stored under the very key. */
  lemma HitWasStored(hash: Hash, ops: seq<Op>, key: string, now: int, room: nat) returns (j: nat)
    requires OpsOk(ops) && GetFrom(Run(hash, ops)[ShardOf(hash, key)], hash(key), key, now, room).Some?
    ensures j < |ops| && (ops[j].Put? || ops[j].PutIfNewer?) && KeptOk(Kept(ops[j].e)) && ops[j].e.key == key
    ensures GetFrom(Run(hash, ops)[ShardOf(hash, key)], hash(key), key, now, room)
            == Some(Delivered(Kept(ops[j].e), room))
  {
    GetIsLast(hash, ops, key, now, room);
    j := LastWasStored(hash, ops, key);
  }

  /** Epoch isolation, for all requests: whatever was stored and removed before, a hit for a request is an
      entry stored under a key that was built, if for a request of this route, then for one of this epoch. A
      request without an epoch counts as well if paths start with a slash. */
  lemma HitIsOfSameEpoch(hash: Hash, ops: seq<Op>, a: KeyInput, m: nat, now: int, room: nat) returns (j: nat)
    requires OpsOk(ops) && InputOk(a) && Built(a, m).Some?
    requires var key := Built(a, m).value;
      GetFrom(Run(hash, ops)[ShardOf(hash, key)], hash(key), key, now, room).Some?
    ensures j < |ops| && (ops[j].Put? || ops[j].PutIfNewer?) && KeptOk(Kept(ops[j].e))
    ensures var key := Built(a, m).value;
      GetFrom(Run(hash, ops)[ShardOf(hash, key)], hash(key), key, now, room) == Some(Delivered(Kept(ops[j].e), room))
    ensures forall b: KeyInput, n: nat | InputOk(b) && Built(b, n) == Some(ops[j].e.key) && b.route == a.route ::
      && b.variant == a.variant
      && ((a.epoch.Some? && b.epoch.Some?) || (Slashed(a) && Slashed(b)) ==> b.epoch == a.epoch)
  {
    j := HitWasStored(hash, ops, Built(a, m).value, now, room);
    forall b: KeyInput, n: nat | InputOk(b) && Built(b, n) == Some(ops[j].e.key) && b.route == a.route
      ensures a.variant == b.variant
      ensures (a.epoch.Some? && b.epoch.Some?) || (Slashed(a) && Slashed(b)) ==> a.epoch == b.epoch
    {
      SameEpochOfRequests(a, m, b, n);
    }
  }

  /** For proper requests the entry was stored for a request that agrees in everything. */
  lemma HitIsOfSameRequest(hash: Hash, ops: seq<Op>, a: KeyInput, m: nat, now: int, room: nat) returns (j: nat)
    requires OpsOk(ops) && InputOk(a) && Proper(a) && Built(a, m).Some?
    requires var key := Built(a, m).value;
      GetFrom(Run(hash, ops)[ShardOf(hash, key)], hash(key), key, now, room).Some?
    ensures j < |ops| && (ops[j].Put? || ops[j].PutIfNewer?) && KeptOk(Kept(ops[j].e))
    ensures var key := Built(a, m).value;
      GetFrom(Run(hash, ops)[ShardOf(hash, key)], hash(key), key, now, room) == Some(Delivered(Kept(ops[j].e), room))
    ensures forall b: KeyInput, n: nat | InputOk(b) && Proper(b) && Built(b, n) == Some(ops[j].e.key) ::
      SameRequest(a, b)
  {
    j := HitWasStored(hash, ops, Built(a, m).value, now, room);
    forall b: KeyInput, n: nat | InputOk(b) && Proper(b) && Built(b, n) == Some(ops[j].e.key)
      ensures SameRequest(a, b)
    {
      KeysEqualIff(a, m, b, n);
    }
  }

  /** A path that does not start with a slash can be taken for an epoch and a path. */
  lemma EpochInPath(c: Content, n: nat)
    requires c.epoch == Some(n)
    ensures Render(c) == Render(c.(epoch := None, path := EpochName(n) + "|" + c.path))
  {
    var d := c.(epoch := None, path := EpochName(n) + "|" + c.path);
    RenderIsSegments(c);
    RenderIsSegments(d);
    EpochIsSegment(n, AfterEpoch(c));
    SegNests(EpochName(n), c.path, Seg(c.query, Seg(List(c.fields), Tail(c))));
    assert "" + AfterEpoch(d) == AfterEpoch(d);
  }

  // ---- Finding the old epoch's keys ----

  /** Where the marker of a key's own route and epoch stands. */
  lemma MarkerStands(c: Content)
    requires c.epoch.Some?
    ensures Render(c) == Tag(c.variant) + FullMarker(c.route, c.epoch.value) + AfterEpoch(c)
    ensures FindFrom(Render(c), Marker(c.route, c.epoch.value), 0) == Some(|Tag(c.variant)|)
  {
    MarkerInKey(c);
    TagInjective(c.variant, c.variant);
    CutStands(Tag(c.variant), FullMarker(c.route, c.epoch.value), AfterEpoch(c), Marker(c.route, c.epoch.value));
  }

  lemma MarkerInKey(c: Content)
    requires c.epoch.Some?
    ensures Render(c) == Tag(c.variant) + FullMarker(c.route, c.epoch.value) + AfterEpoch(c)
  {
    var rest := AfterEpoch(c);
    RenderIsSegments(c);
    MarkerRegroups(Tag(c.variant), c.route, Decimal(c.epoch.value), rest);
    assert EpochText(c.epoch) + rest == "epoch:" + Decimal(c.epoch.value) + "|" + rest;
  }

  lemma MarkerRegroups(tag: string, route: string, digits: string, rest: string)
    ensures Seg(tag, Seg(route, "epoch:" + digits + "|" + rest)) ==
            tag + ("|" + route + "|epoch:" + digits + "|") + rest
  {
    var l, r := Seg(tag, Seg(route, "epoch:" + digits + "|" + rest)),
        tag + ("|" + route + "|epoch:" + digits + "|") + rest;
    assert "|epoch:" == ['|'] + "epoch:";
    assert l == tag + ['|'] + route + ['|'] + "epoch:" + digits + "|" + rest;
  }

  /** A cut marker still stands first at the first pipe. */
  lemma CutStands(tag: string, full: string, rest: string, marker: string)
    requires Plain(tag) && full != "" && full[0] == '|' && marker == Cut(full, MARKER_MAX)
    ensures FindFrom(tag + full + rest, marker, 0) == Some(|tag|)
  {
    var key := tag + full + rest;
    assert key[|tag|..|tag| + |marker|] == marker;
    forall i: nat | i < |tag| ensures !OccursAt(key, marker, i) {
      assert key[i] == tag[i];
      if OccursAt(key, marker, i) {
        OccurrenceStarts(key, marker, i);
      }
    }
    FirstOccurrence(key, marker, 0, |tag|);
  }

  // ---- What a cleanup clears ----

  /** The component a cleanup compares with the policy identity: the policy version, unless the
      marker was cut, and then an earlier component. */
  function Compared(c: Content): string
    requires c.epoch.Some?
  {
    if |FullMarker(c.route, c.epoch.value)| <= MARKER_MAX then c.policy
    else if MARKER_MAX <= 1 + |c.route| then c.query
    else List(c.fields)
  }

  /** What follows the marker of a key's own route and epoch, by components. */
  function BehindParts(c: Content): (parts: seq<string>)
    requires c.epoch.Some?
    ensures |parts| >= 4
  {
    var r, e := c.route, EpochName(c.epoch.value);
    if |FullMarker(r, c.epoch.value)| <= MARKER_MAX then BackParts(c)
    else if MARKER_MAX <= 1 + |r| then [r[MARKER_MAX - 1..], e] + BackParts(c)
    else [e[MARKER_MAX - 2 - |r|..]] + BackParts(c)
  }

  lemma FullIsSeg(r: string, n: nat, x: string)
    ensures FullMarker(r, n) + x == ['|'] + Seg(r, Seg(EpochName(n), x))
    ensures |FullMarker(r, n)| == |r| + |EpochName(n)| + 3
  {
    MarkerSpells(r, n);
  }

  lemma DropInRoute(r: string, e: string, x: string, k: nat)
    requires 0 < k <= 1 + |r|
    ensures (['|'] + Seg(r, Seg(e, x)))[k..] == Seg(r[k - 1..], Seg(e, x))
  {
    assert ['|'] + Seg(r, Seg(e, x)) == ['|'] + (r + (['|'] + Seg(e, x)));
  }

  lemma DropInEpoch(r: string, e: string, x: string, k: nat)
    requires 1 + |r| < k <= 2 + |r| + |e|
    ensures (['|'] + Seg(r, Seg(e, x)))[k..] == Seg(e[k - 2 - |r|..], x)
  {
    var head := ['|'] + r + ['|'];
    assert ['|'] + Seg(r, Seg(e, x)) == head + (e + (['|'] + x));
    assert (head + (e + (['|'] + x)))[k..] == (e + (['|'] + x))[k - |head|..];
  }

  lemma DropMarker(r: string, e: string, x: string)
    ensures (['|'] + Seg(r, Seg(e, x)))[|r| + |e| + 3..] == x
  {
    var head := ['|'] + r + ['|'] + e + ['|'];
    assert ['|'] + Seg(r, Seg(e, x)) == head + x;
  }

  lemma BehindJoins(c: Content)
    requires c.epoch.Some?
    ensures var full := FullMarker(c.route, c.epoch.value);
            (full + AfterEpoch(c))[|Marker(c.route, c.epoch.value)|..] == Joined(BehindParts(c))
  {
    var r, e, x := c.route, EpochName(c.epoch.value), AfterEpoch(c);
    FullIsSeg(r, c.epoch.value, x);
    BackJoins(c);
    if |FullMarker(r, c.epoch.value)| <= MARKER_MAX {
      DropMarker(r, e, x);
    } else if MARKER_MAX <= 1 + |r| {
      DropInRoute(r, e, x, MARKER_MAX);
      JoinedTwo(r[MARKER_MAX - 1..], e, BackParts(c));
    } else {
      DropInEpoch(r, e, x, MARKER_MAX);
      JoinedCons(e[MARKER_MAX - 2 - |r|..], BackParts(c));
    }
  }

  lemma FoundAfter(key: string, tag: string, full: string, rest: string, marker: string)
    requires key == tag + full + rest && FindFrom(key, marker, 0) == Some(|tag|) && |marker| <= |full|
    ensures After(key, marker) == Some((full + rest)[|marker|..])
  {
    Regroup(tag, full, rest);
    assert (tag + (full + rest))[|tag| + |marker|..] == (full + rest)[|marker|..];
  }

  /** What follows the first occurrence of its own marker in a key. */
  lemma OwnAfter(c: Content)
    requires c.epoch.Some?
    ensures After(Render(c), Marker(c.route, c.epoch.value)) == Some(Joined(BehindParts(c)))
  {
    MarkerStands(c);
    BehindJoins(c);
    FoundAfter(Render(c), Tag(c.variant), FullMarker(c.route, c.epoch.value), AfterEpoch(c),
               Marker(c.route, c.epoch.value));
  }

  predicate FourthIs(parts: seq<string>, identity: string) { |parts| > 3 && parts[3] == identity }

  lemma DoomedBehind(key: string, marker: string, texts: seq<string>, identity: Option<string>)
    requires texts != [] && After(key, marker) == Some(Joined(texts))
    ensures Doomed(key, marker, identity) <==> Unrestricted(identity) || FourthIs(Pieced(texts), identity.value)
  {
    DoomedIsAfter(key, marker, identity);
    PiecedJoins(texts);
    if !Unrestricted(identity) {
      PolicyIsFourth(Pieced(texts), identity.value);
    }
  }

  /** Exactly which keys of its own route and epoch a cleanup clears, whatever they hold: all of them when it
      names no policy identity, and otherwise those whose fourth piece behind the marker is that identity. */
  lemma DoomedIff(c: Content, identity: Option<string>)
    requires c.epoch.Some?
    ensures Doomed(Render(c), Marker(c.route, c.epoch.value), identity)
            <==> Unrestricted(identity) || FourthIs(Pieced(BehindParts(c)), identity.value)
  {
    OwnAfter(c);
    DoomedBehind(Render(c), Marker(c.route, c.epoch.value), BehindParts(c), identity);
  }

  /** No pipe in the components that can come before the compared one. */
  predicate PlainFront(c: Content)
    requires c.epoch.Some?
  {
    && Plain(c.path) && Plain(c.query) && Plain(List(c.fields)) && Plain(c.policy)
    && (|FullMarker(c.route, c.epoch.value)| <= MARKER_MAX || Plain(c.route))
  }

  lemma {:induction false} PlainPrefixPieced(texts: seq<string>, n: nat)
    requires n <= |texts| && AllPlain(texts[..n])
    ensures |Pieced(texts)| >= n && Pieced(texts)[..n] == texts[..n]
  {
    if n > 0 {
      assert texts[..n][0] == texts[0] && texts[1..][..n - 1] == texts[..n][1..];
      SplitPlain(texts[0]);
      PlainPrefixPieced(texts[1..], n - 1);
      assert Pieced(texts) == [texts[0]] + Pieced(texts[1..]);
      assert texts[..n] == [texts[0]] + texts[1..][..n - 1];
    }
  }

  lemma FrontOfBehind(c: Content)
    requires c.epoch.Some? && PlainFront(c)
    ensures AllPlain(BehindParts(c)[..4]) && BehindParts(c)[3] == Compared(c)
  {
    DigitsPlain(c.epoch.value);
    var parts := BehindParts(c);
    assert parts[..4] == [parts[0], parts[1], parts[2], parts[3]];
  }

  /** Without those pipes it is the compared component. */
  lemma ComparedIff(c: Content, identity: string)
    requires c.epoch.Some? && PlainFront(c)
    ensures FourthIs(Pieced(BehindParts(c)), identity) <==> identity == Compared(c)
  {
    FrontOfBehind(c);
    PlainPrefixPieced(BehindParts(c), 4);
    assert Pieced(BehindParts(c))[3] == Pieced(BehindParts(c))[..4][3] == BehindParts(c)[..4][3];
  }

  /** The cleanup covers the key: it names no identity, or the key's own and its marker fits the buffer, and the
      components before the policy version hold no pipe. */
  predicate Covers(request: CleanupRequest, c: Content) {
    && request.route == Some(c.route) && Some(request.epoch) == c.epoch
    && (Unrestricted(request.identity)
        || (request.identity.value == c.policy && PlainFront(c)
            && |FullMarker(c.route, request.epoch)| <= MARKER_MAX))
  }

  /** A cleanup leaves no entry whose key was built for a request it covers, in whatever state it finds the
      shard. */
  lemma CleanupClears(hash: Hash, s: Shard, input: KeyInput, size: nat, request: CleanupRequest)
    requires Shaped(s) && InputOk(input) && Built(input, size).Some? && Covers(request, ContentOf(input))
    ensures var key := Built(input, size).value;
      !Present(CleanIn(s, Marker(request.route.value, request.epoch), request.identity), hash(key), key)
  {
    var c := ContentOf(input);
    DoomedIff(c, request.identity);
    if !Unrestricted(request.identity) {
      ComparedIff(c, request.identity.value);
    }
    var key, marker := Built(input, size).value, Marker(request.route.value, request.epoch);
    var r := CleanIn(s, marker, request.identity);
    forall i | 0 <= i < SLOTS ensures !Holds(r.slots[i], hash(key), key) {
      assert r.slots[i] == Cleaned(s.slots[i], marker, request.identity);
    }
  }

  /** With a longer marker a named policy's entries stay, unless the component compared
      instead happens to be that name. */
  lemma LongMarkerKeeps(s: Shard, i: nat, c: Content, identity: string)
    requires Shaped(s) && i < SLOTS && c.epoch.Some? && PlainFront(c) && identity != ""
    requires Live(s.slots[i]) && s.slots[i].entry.key == Render(c)
    requires |FullMarker(c.route, c.epoch.value)| > MARKER_MAX
    requires identity != c.query && identity != List(c.fields)
    ensures CleanIn(s, Marker(c.route, c.epoch.value), Some(identity)).slots[i] == s.slots[i]
  {
    DoomedIff(c, Some(identity));
    ComparedIff(c, identity);
    assert CleanIn(s, Marker(c.route, c.epoch.value), Some(identity)).slots[i]
           == Cleaned(s.slots[i], Marker(c.route, c.epoch.value), Some(identity));
  }

  /** A request whose route is too long for the marker. */
  function LongInput(): KeyInput {
    KeyInput(true, Some(seq(600, i => 'r')), Some("/p"), None, None, 0, Some("v1"), Some(1), [], false, None, false)
  }

  lemma LongInputBuilds()
    ensures InputOk(LongInput()) && Proper(LongInput()) && Built(LongInput(), KEY_MAX + 1).Some?
    ensures |FullMarker(LongInput().route.value, 1)| > MARKER_MAX
  {
    var c := ContentOf(LongInput());
    assert Decimal(1) == "1" && EpochText(c.epoch) == "epoch:1|";
    assert c.fields == [] && List(c.fields) == "" && Pairs([]) == [] && VaryText(c.vary) == "";
    assert |HeadText(c.variant, c.route)| == 605;
  }

  /** Its entry survives a cleanup of its own route, epoch and policy. */
  lemma LongMarkerLeavesEntry(s: Shard, i: nat)
    requires Shaped(s) && i < SLOTS && Live(s.slots[i])
    requires Built(LongInput(), KEY_MAX + 1) == Some(s.slots[i].entry.key)
    ensures CleanIn(s, Marker(LongInput().route.value, 1), LongInput().policy).slots[i] == s.slots[i]
  {
    LongInputBuilds();
    var c := ContentOf(LongInput());
    assert c.fields == [] && List(c.fields) == "" && Plain(c.route);
    LongMarkerKeeps(s, i, c, "v1");
  }

  /** After a cleanup of the whole cache every lookup for a request it covers is a miss. */
  lemma CleanupMisses(hash: Hash, before: seq<Shard>, after: seq<Shard>, input: KeyInput, size: nat,
                      request: CleanupRequest, now: int, room: nat)
    requires |before| == |after| == SHARDS && InputOk(input) && Built(input, size).Some?
    requires Covers(request, ContentOf(input))
    requires forall n :: 0 <= n < SHARDS ==> Shaped(before[n]) && Shaped(after[n])
    requires forall n :: 0 <= n < SHARDS ==>
      after[n] == CleanIn(before[n], Marker(request.route.value, request.epoch), request.identity)
    ensures var key := Built(input, size).value;
      GetFrom(after[ShardOf(hash, key)], hash(key), key, now, room) == None
  {
    var key := Built(input, size).value;
    var n := ShardOf(hash, key);
    CleanupClears(hash, before[n], input, size, request);
    assert forall i :: 0 <= i < SLOTS ==> !Holds(after[n].slots[i], hash(key), key);
  }
}
