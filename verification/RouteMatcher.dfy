/** The compiled route matcher: exact routes in an open-addressing table, prefix routes in a list,
    against the linear first-match scan. */
module RouteMatcher {
  import opened Text

  const MAX_ROUTES: nat := 64
  const TABLE_SIZE: nat := 128
  const HASH_THRESHOLD: nat := 8

  datatype MatchKind = Prefix | Exact

  /** A route policy as far as matching goes; a null match text is None. */
  datatype RoutePolicy = RoutePolicy(routeId: string, text: Option<string>, kind: MatchKind)

  datatype Strategy = LinearSmall | ExactHashPrefixLinear | PrefixTrieExperimental

  /** A compiled route; `order` is its position in the policy list. */
  datatype Route = Route(text: string, order: nat)

  predicate TextMatches(kind: MatchKind, text: string, path: string) {
    match kind
    case Exact => path == text
    case Prefix => text <= path
  }

  predicate Matches(p: RoutePolicy, path: string) {
    p.text.Some? && TextMatches(p.kind, p.text.value, path)
  }

  /** match_route_by_path: the first policy that matches. */
  method MatchRouteByPath(policies: seq<RoutePolicy>, path: string) returns (r: Option<nat>)
    ensures r == FirstMatch(policies, path)
  {
    var i := 0;
    while i < |policies|
      invariant 0 <= i <= |policies|
      invariant forall j :: 0 <= j < i ==> !Matches(policies[j], path)
    {
      var p := policies[i];
      if p.text.Some? {
        if p.kind == Exact {
          if path == p.text.value { FirstMatchIs(policies, path, i); return Some(i); }
        } else {
          if p.text.value <= path { FirstMatchIs(policies, path, i); return Some(i); }
        }
      }
      i := i + 1;
    }
    FirstMatchNone(policies, path);
    r := None;
  }

  function FirstMatchFrom(policies: seq<RoutePolicy>, path: string, i: nat): (r: Option<nat>)
    requires i <= |policies|
    ensures r.Some? ==> i <= r.value < |policies| && Matches(policies[r.value], path)
    ensures r.Some? ==> forall j :: i <= j < r.value ==> !Matches(policies[j], path)
    ensures r.None? ==> forall j :: i <= j < |policies| ==> !Matches(policies[j], path)
    decreases |policies| - i
  {
    if i == |policies| then None
    else if Matches(policies[i], path) then Some(i)
    else FirstMatchFrom(policies, path, i + 1)
  }

  function FirstMatch(policies: seq<RoutePolicy>, path: string): (r: Option<nat>)
    ensures r.Some? ==> r.value < |policies| && Matches(policies[r.value], path)
    ensures r.Some? ==> forall j :: 0 <= j < r.value ==> !Matches(policies[j], path)
    ensures r.None? ==> forall j :: 0 <= j < |policies| ==> !Matches(policies[j], path)
  {
    FirstMatchFrom(policies, path, 0)
  }

  lemma FirstMatchIs(policies: seq<RoutePolicy>, path: string, i: nat)
    requires i < |policies| && Matches(policies[i], path)
    requires forall j :: 0 <= j < i ==> !Matches(policies[j], path)
    ensures FirstMatch(policies, path) == Some(i)
  {}

  lemma FirstMatchNone(policies: seq<RoutePolicy>, path: string)
    requires forall j :: 0 <= j < |policies| ==> !Matches(policies[j], path)
    ensures FirstMatch(policies, path) == None
  {}

  // ---- Which routes fit ----

  /** Routes of a kind among the first n policies. */
  function CountKind(policies: seq<RoutePolicy>, n: nat, kind: MatchKind): (c: nat)
    requires n <= |policies|
    ensures c <= n
  {
    if n == 0 then 0
    else CountKind(policies, n - 1, kind) +
         (if policies[n - 1].text.Some? && policies[n - 1].kind == kind then 1 else 0)
  }

  /** A route is compiled if fewer than 64 of its kind come before it. */
  predicate Kept(policies: seq<RoutePolicy>, i: nat)
    requires i < |policies|
  {
    CountKind(policies, i, policies[i].kind) < MAX_ROUTES
  }

  /** What compilation keeps of a policy list: routes beyond the capacity lose their text. */
  function KeptPolicies(policies: seq<RoutePolicy>): (r: seq<RoutePolicy>)
    ensures |r| == |policies|
  {
    seq(|policies|, i requires 0 <= i < |policies| =>
      if Kept(policies, i) then policies[i] else policies[i].(text := None))
  }

  /** Lists of up to 64 routes are kept whole. */
  lemma SmallListsKept(policies: seq<RoutePolicy>)
    requires |policies| <= MAX_ROUTES
    ensures KeptPolicies(policies) == policies
  {
    forall i | 0 <= i < |policies| ensures Kept(policies, i) {
      assert CountKind(policies, i, policies[i].kind) <= i;
    }
  }

  /** Dropping the overflow changes the answer for a path exactly when the first match is dropped. */
  lemma KeptAgreesIff(policies: seq<RoutePolicy>, path: string)
    ensures FirstMatch(KeptPolicies(policies), path) == FirstMatch(policies, path) <==>
            (FirstMatch(policies, path).None? || Kept(policies, FirstMatch(policies, path).value))
  {
    var k := KeptPolicies(policies);
    var r := FirstMatch(policies, path);
    if r.None? {
      FirstMatchNone(k, path);
    } else if Kept(policies, r.value) {
      FirstMatchIs(k, path, r.value);
    }
  }

  lemma {:induction false} CountAll(policies: seq<RoutePolicy>, n: nat, kind: MatchKind)
    requires n <= |policies| && forall i :: 0 <= i < n ==> policies[i].text.Some? && policies[i].kind == kind
    ensures CountKind(policies, n, kind) == n
  {
    if n > 0 {
      CountAll(policies, n - 1, kind);
    }
  }

  /** Sixty-four prefix routes and one more: the last one is dropped, and its paths go unmatched. */
  lemma OverflowDropsRoute() returns (policies: seq<RoutePolicy>, path: string)
    ensures FirstMatch(policies, path) == Some(MAX_ROUTES) && FirstMatch(KeptPolicies(policies), path) == None
  {
    policies := seq(MAX_ROUTES, i => RoutePolicy("first", Some("/a"), Prefix)) +
                [RoutePolicy("last", Some("/b"), Prefix)];
    path := "/b";
    CountAll(policies, MAX_ROUTES, Prefix);
    assert "/a"[1] != path[1];
    FirstMatchIs(policies, path, MAX_ROUTES);
    FirstMatchNone(KeptPolicies(policies), path);
  }

  /** A compiled route stands for a kept policy of its kind. */
  ghost predicate RouteOk(policies: seq<RoutePolicy>, n: nat, kind: MatchKind, r: Route)
    requires n <= |policies|
  {
    r.order < n && policies[r.order].kind == kind && policies[r.order].text == Some(r.text) && Kept(policies, r.order)
  }

  /** Policy `i` must be listed among the routes of a kind. */
  predicate Due(policies: seq<RoutePolicy>, kind: MatchKind, i: nat)
    requires i < |policies|
  {
    policies[i].text.Some? && policies[i].kind == kind && Kept(policies, i)
  }

  ghost predicate Listed(routes: seq<Route>, i: nat) {
    exists k :: 0 <= k < |routes| && routes[k].order == i
  }

  predicate Ascending(routes: seq<Route>) {
    forall k, m :: 0 <= k < m < |routes| ==> routes[k].order < routes[m].order
  }

  function Capped(n: nat): nat { if n < MAX_ROUTES then n else MAX_ROUTES }

  /** `routes` lists, in order, the kept routes of one kind among the first n policies. */
  ghost predicate Lists(policies: seq<RoutePolicy>, n: nat, kind: MatchKind, routes: seq<Route>)
    requires n <= |policies|
  {
    && (forall k :: 0 <= k < |routes| ==> RouteOk(policies, n, kind, routes[k]))
    && Ascending(routes)
    && (forall i :: 0 <= i < n && Due(policies, kind, i) ==> Listed(routes, i))
    && |routes| == Capped(CountKind(policies, n, kind))
  }

  lemma ListsSkip(policies: seq<RoutePolicy>, n: nat, kind: MatchKind, routes: seq<Route>)
    requires n < |policies| && Lists(policies, n, kind, routes)
    requires policies[n].text.None? || policies[n].kind != kind || |routes| == MAX_ROUTES
    ensures Lists(policies, n + 1, kind, routes)
  {
    assert !Due(policies, kind, n);
  }

  function Appended(routes: seq<Route>, kind: MatchKind, p: RoutePolicy, i: nat): seq<Route> {
    if p.text.Some? && p.kind == kind && |routes| < MAX_ROUTES then routes + [Route(p.text.value, i)] else routes
  }

  lemma ListsStep(policies: seq<RoutePolicy>, n: nat, kind: MatchKind, routes: seq<Route>, routes': seq<Route>)
    requires n < |policies| && Lists(policies, n, kind, routes)
    requires routes' == Appended(routes, kind, policies[n], n)
    ensures Lists(policies, n + 1, kind, routes')
  {
    if policies[n].text.Some? && policies[n].kind == kind && |routes| < MAX_ROUTES {
      ListsAdd(policies, n, kind, routes);
    } else {
      ListsSkip(policies, n, kind, routes);
    }
  }

  lemma ListsAdd(policies: seq<RoutePolicy>, n: nat, kind: MatchKind, routes: seq<Route>)
    requires n < |policies| && Lists(policies, n, kind, routes)
    requires policies[n].text.Some? && policies[n].kind == kind && |routes| < MAX_ROUTES
    ensures Lists(policies, n + 1, kind, routes + [Route(policies[n].text.value, n)])
  {
    var all := routes + [Route(policies[n].text.value, n)];
    assert Kept(policies, n);
    forall i | 0 <= i < n + 1 && Due(policies, kind, i) ensures Listed(all, i) {
      if i == n {
        assert all[|routes|].order == i;
      } else {
        assert Listed(routes, i);
        var k :| 0 <= k < |routes| && routes[k].order == i;
        assert all[k].order == i;
      }
    }
    forall k | 0 <= k < |all| ensures RouteOk(policies, n + 1, kind, all[k]) {
      assert k < |routes| ==> all[k] == routes[k];
    }
  }

  // ---- The probe table ----

  type Hash = string -> nat

  function Home(hash: Hash, text: string): (h: nat)
    ensures h < TABLE_SIZE
  {
    hash(text) % TABLE_SIZE
  }

  function NextSlot(s: nat): nat { if s + 1 == TABLE_SIZE then 0 else s + 1 }

  /** The slot d steps after `h`, going round. */
  function SlotAt(h: nat, d: nat): (s: nat)
    requires h < TABLE_SIZE && d < TABLE_SIZE
    ensures s < TABLE_SIZE
  {
    if h + d < TABLE_SIZE then h + d else h + d - TABLE_SIZE
  }

  predicate TakenBefore(e: Option<Route>, order: nat) { e.Some? && e.value.order < order }

  /** The slot of a route: everything before it on its probe path is taken by earlier routes. */
  ghost predicate Reached(table: seq<Option<Route>>, h: nat, r: Route, d: nat)
    requires |table| == TABLE_SIZE && h < TABLE_SIZE
  {
    && d < TABLE_SIZE
    && table[SlotAt(h, d)] == Some(r)
    && forall e: nat :: e < d ==> TakenBefore(table[SlotAt(h, e)], r.order)
  }

  ghost predicate Reachable(table: seq<Option<Route>>, hash: Hash, r: Route)
    requires |table| == TABLE_SIZE
  {
    exists d: nat :: Reached(table, Home(hash, r.text), r, d)
  }

  function Taken(table: seq<Option<Route>>): set<nat> {
    set s: nat | s < |table| && table[s].Some?
  }

  /** The table holds exactly the given routes, each reachable from its hash. */
  ghost predicate TableOk(table: seq<Option<Route>>, hash: Hash, routes: seq<Route>) {
    && |table| == TABLE_SIZE
    && |Taken(table)| == |routes|
    && (forall s :: 0 <= s < TABLE_SIZE && table[s].Some? ==> table[s].value in routes)
    && (forall k :: 0 <= k < |routes| ==> Reachable(table, hash, routes[k]))
  }

  function Below(n: nat): (r: set<nat>)
    ensures |r| == n && forall s: nat :: s in r <==> s < n
  {
    if n == 0 then {} else Below(n - 1) + {n - 1}
  }

  lemma FreeSlot(table: seq<Option<Route>>) returns (s: nat)
    requires |Taken(table)| < |table|
    ensures s < |table| && table[s].None?
  {
    assert Taken(table) != Below(|table|);
    s :| s in Below(|table|) && s !in Taken(table);
  }

  /** A table with fewer routes than slots has a free slot on every probe path. */
  lemma ProbeEnds(table: seq<Option<Route>>, h: nat) returns (d: nat)
    requires |table| == TABLE_SIZE && |Taken(table)| < TABLE_SIZE && h < TABLE_SIZE
    ensures d < TABLE_SIZE && table[SlotAt(h, d)].None?
  {
    var s := FreeSlot(table);
    d := if s >= h then s - h else s + TABLE_SIZE - h;
  }

  lemma ReachableStays(table: seq<Option<Route>>, hash: Hash, r: Route, s: nat, x: Route)
    requires |table| == TABLE_SIZE && s < TABLE_SIZE && table[s].None? && Reachable(table, hash, r)
    ensures Reachable(table[s := Some(x)], hash, r)
  {
    var t, h := table[s := Some(x)], Home(hash, r.text);
    var d: nat :| Reached(table, h, r, d);
    forall e: nat | e < d ensures TakenBefore(t[SlotAt(h, e)], r.order) {
      assert TakenBefore(table[SlotAt(h, e)], r.order);
    }
    assert Reached(t, h, r, d);
  }

  /** Putting a later route into the first free slot of its probe path. */
  lemma InsertKeeps(table: seq<Option<Route>>, hash: Hash, routes: seq<Route>, r: Route, d: nat)
    requires TableOk(table, hash, routes) && d < TABLE_SIZE && Ascending(routes + [r])
    requires table[SlotAt(Home(hash, r.text), d)].None?
    requires forall e: nat :: e < d ==> table[SlotAt(Home(hash, r.text), e)].Some?
    ensures TableOk(table[SlotAt(Home(hash, r.text), d) := Some(r)], hash, routes + [r])
  {
    var h := Home(hash, r.text);
    var s := SlotAt(h, d);
    var t, all := table[s := Some(r)], routes + [r];
    assert Taken(t) == Taken(table) + {s};
    forall k | 0 <= k < |all| ensures Reachable(t, hash, all[k]) {
      if k < |routes| {
        assert all[k] == routes[k];
        ReachableStays(table, hash, routes[k], s, r);
      } else {
        NewReachable(table, h, routes, r, d);
        assert Reached(t, h, r, d);
      }
    }
  }

  lemma NewReachable(table: seq<Option<Route>>, h: nat, routes: seq<Route>, r: Route, d: nat)
    requires |table| == TABLE_SIZE && h < TABLE_SIZE && d < TABLE_SIZE && Ascending(routes + [r])
    requires forall s :: 0 <= s < TABLE_SIZE && table[s].Some? ==> table[s].value in routes
    requires table[SlotAt(h, d)].None? && forall e: nat :: e < d ==> table[SlotAt(h, e)].Some?
    ensures Reached(table[SlotAt(h, d) := Some(r)], h, r, d)
  {
    var t := table[SlotAt(h, d) := Some(r)];
    forall e: nat | e < d ensures TakenBefore(t[SlotAt(h, e)], r.order) {
      var x := table[SlotAt(h, e)].value;
      var k :| 0 <= k < |routes| && routes[k] == x;
      assert (routes + [r])[k] == x && (routes + [r])[|routes|] == r;
    }
  }

  predicate Passed(e: Option<Route>, path: string) { e.Some? && e.value.text != path }

  /** The first route of a text is what probing finds first. */
  lemma ProbeFindsFirst(table: seq<Option<Route>>, hash: Hash, routes: seq<Route>, path: string, d: nat, r: Route)
    requires TableOk(table, hash, routes) && d < TABLE_SIZE
    requires table[SlotAt(Home(hash, path), d)] == Some(r) && r.text == path
    requires forall e: nat :: e < d ==> Passed(table[SlotAt(Home(hash, path), e)], path)
    ensures r in routes
    ensures forall k :: 0 <= k < |routes| && routes[k].text == path ==> r.order <= routes[k].order
  {
    var h := Home(hash, path);
    forall k | 0 <= k < |routes| && routes[k].text == path ensures r.order <= routes[k].order {
      assert Reachable(table, hash, routes[k]);
      var e: nat :| Reached(table, h, routes[k], e);
      var x := table[SlotAt(h, e)];
      assert e < d ==> Passed(x, path);
      assert d < e ==> TakenBefore(Some(r), routes[k].order);
    }
  }

  /** Reaching a free slot means no route has the text. */
  lemma ProbeMisses(table: seq<Option<Route>>, hash: Hash, routes: seq<Route>, path: string, d: nat)
    requires TableOk(table, hash, routes) && d < TABLE_SIZE
    requires table[SlotAt(Home(hash, path), d)].None?
    requires forall e: nat :: e < d ==> Passed(table[SlotAt(Home(hash, path), e)], path)
    ensures forall k :: 0 <= k < |routes| ==> routes[k].text != path
  {
    var h := Home(hash, path);
    forall k | 0 <= k < |routes| ensures routes[k].text != path {
      assert Reachable(table, hash, routes[k]);
      var e: nat :| Reached(table, Home(hash, routes[k].text), routes[k], e);
      var x, y := table[SlotAt(h, e)], table[SlotAt(h, d)];
      var same := routes[k].text == path;
      assert same && e < d ==> Passed(x, path);
      assert same && d < e ==> TakenBefore(y, routes[k].order);
    }
  }

  // ---- Matching against the lists ----

  /** The first listed route that matches is the first kept policy of that kind that does. */
  ghost predicate FirstListed(policies: seq<RoutePolicy>, kind: MatchKind, path: string, r: Option<nat>) {
    match r
    case Some(i) =>
      && i < |policies| && policies[i].kind == kind && Kept(policies, i) && Matches(policies[i], path)
      && forall j :: 0 <= j < i && policies[j].kind == kind && Kept(policies, j) ==> !Matches(policies[j], path)
    case None => forall j :: 0 <= j < |policies| && policies[j].kind == kind && Kept(policies, j) ==>
      !Matches(policies[j], path)
  }

  lemma ListedFirst(policies: seq<RoutePolicy>, kind: MatchKind, routes: seq<Route>, path: string, r: Route)
    requires Lists(policies, |policies|, kind, routes) && r in routes && TextMatches(kind, r.text, path)
    requires forall k :: 0 <= k < |routes| && TextMatches(kind, routes[k].text, path) ==> r.order <= routes[k].order
    ensures FirstListed(policies, kind, path, Some(r.order))
  {
    forall j | 0 <= j < r.order && policies[j].kind == kind && Kept(policies, j) ensures !Matches(policies[j], path) {
      if Due(policies, kind, j) {
        assert Listed(routes, j);
        var k :| 0 <= k < |routes| && routes[k].order == j;
        assert RouteOk(policies, |policies|, kind, routes[k]);
      }
    }
  }

  lemma ListedNone(policies: seq<RoutePolicy>, kind: MatchKind, routes: seq<Route>, path: string)
    requires Lists(policies, |policies|, kind, routes)
    requires forall k :: 0 <= k < |routes| ==> !TextMatches(kind, routes[k].text, path)
    ensures FirstListed(policies, kind, path, None)
  {
    forall j | 0 <= j < |policies| && policies[j].kind == kind && Kept(policies, j)
      ensures !Matches(policies[j], path) {
      if Due(policies, kind, j) {
        assert Listed(routes, j);
        var k :| 0 <= k < |routes| && routes[k].order == j;
        assert RouteOk(policies, |policies|, kind, routes[k]);
      }
    }
  }

  /** The earlier of the first exact and the first prefix match. */
  function Earlier(e: Option<nat>, p: Option<nat>): Option<nat> {
    if e.None? then p else if p.None? then e else if e.value < p.value then e else p
  }

  /** Taking the earlier of the two first matches is matching the kept list in order. */
  lemma EarlierIsFirst(policies: seq<RoutePolicy>, path: string, e: Option<nat>, p: Option<nat>)
    requires FirstListed(policies, Exact, path, e) && FirstListed(policies, Prefix, path, p)
    ensures Earlier(e, p) == FirstMatch(KeptPolicies(policies), path)
  {
    var k := KeptPolicies(policies);
    var r := Earlier(e, p);
    if r.Some? {
      FirstMatchIs(k, path, r.value);
    } else {
      FirstMatchNone(k, path);
    }
  }

  // ---- The matcher object ----

  class CompiledRouteMatcher {
    const hash: Hash
    const exact: array<Route>
    const prefixes: array<Route>
    const table: array<Option<Route>>
    var strategy: Strategy
    var exactCount: nat
    var prefixCount: nat

    ghost predicate Shaped()
      reads this
    {
      && exact.Length == MAX_ROUTES && prefixes.Length == MAX_ROUTES && table.Length == TABLE_SIZE
      && exact != prefixes
      && exactCount <= MAX_ROUTES && prefixCount <= MAX_ROUTES
    }

    /** The matcher is compiled from `policies`. */
    ghost predicate CompiledFrom(policies: seq<RoutePolicy>)
      reads this, exact, prefixes, table
    {
      && Shaped()
      && Lists(policies, |policies|, Exact, exact[..exactCount])
      && Lists(policies, |policies|, Prefix, prefixes[..prefixCount])
      && (strategy == ExactHashPrefixLinear ==> TableOk(table[..], hash, exact[..exactCount]))
    }

    constructor (hash: Hash)
      ensures Shaped() && fresh(exact) && fresh(prefixes) && fresh(table) && this.hash == hash
    {
      this.hash := hash;
      exact := new Route[MAX_ROUTES](_ => Route("", 0));
      prefixes := new Route[MAX_ROUTES](_ => Route("", 0));
      table := new Option<Route>[TABLE_SIZE](_ => None);
      strategy, exactCount, prefixCount := LinearSmall, 0, 0;
    }

    /** compile_route_matcher, with the strategy chosen or forced. */
    method Compile(policies: seq<RoutePolicy>, force: Option<Strategy>)
      requires Shaped()
      modifies this, exact, prefixes, table
      ensures CompiledFrom(policies)
      ensures force.Some? ==> strategy == force.value
      ensures force.None? ==> strategy == if exactCount > HASH_THRESHOLD then ExactHashPrefixLinear else LinearSmall
    {
      SplitRoutes(policies);
      if force.Some? {
        strategy := force.value;
      } else {
        strategy := if exactCount > HASH_THRESHOLD then ExactHashPrefixLinear else LinearSmall;
      }
      if strategy == ExactHashPrefixLinear {
        BuildTable(policies);
      }
    }

    /** One policy's turn: its route is appended to the list of its kind while there is room. */
    method KeepRoute(p: RoutePolicy, i: nat)
      requires Shaped()
      modifies this, exact, prefixes
      ensures Shaped()
      ensures exact[..exactCount] == Appended(old(exact[..exactCount]), Exact, p, i)
      ensures prefixes[..prefixCount] == Appended(old(prefixes[..prefixCount]), Prefix, p, i)
    {
      if p.text.Some? && p.kind == Exact && exactCount < MAX_ROUTES {
        exact[exactCount] := Route(p.text.value, i);
        exactCount := exactCount + 1;
      } else if p.text.Some? && p.kind == Prefix && prefixCount < MAX_ROUTES {
        prefixes[prefixCount] := Route(p.text.value, i);
        prefixCount := prefixCount + 1;
      }
    }

    method SplitRoutes(policies: seq<RoutePolicy>)
      requires Shaped()
      modifies this, exact, prefixes
      ensures Shaped()
      ensures Lists(policies, |policies|, Exact, exact[..exactCount])
      ensures Lists(policies, |policies|, Prefix, prefixes[..prefixCount])
    {
      exactCount, prefixCount := 0, 0;
      var i := 0;
      while i < |policies|
        invariant 0 <= i <= |policies| && Shaped()
        invariant Lists(policies, i, Exact, exact[..exactCount])
        invariant Lists(policies, i, Prefix, prefixes[..prefixCount])
      {
        ghost var e, f := exact[..exactCount], prefixes[..prefixCount];
        KeepRoute(policies[i], i);
        ListsStep(policies, i, Exact, e, exact[..exactCount]);
        ListsStep(policies, i, Prefix, f, prefixes[..prefixCount]);
        i := i + 1;
      }
    }

    method BuildTable(ghost policies: seq<RoutePolicy>)
      requires Shaped() && Lists(policies, |policies|, Exact, exact[..exactCount])
      modifies table
      ensures TableOk(table[..], hash, exact[..exactCount])
    {
      ClearTable();
      var n := 0;
      assert exact[..0] == [];
      while n < exactCount
        invariant 0 <= n <= exactCount
        invariant TableOk(table[..], hash, exact[..n])
      {
        assert exact[..n] + [exact[n]] == exact[..exactCount][..n + 1];
        InsertRoute(n);
        n := n + 1;
      }
    }

    method ClearTable()
      requires Shaped()
      modifies table
      ensures TableOk(table[..], hash, [])
    {
      var i := 0;
      while i < TABLE_SIZE
        invariant 0 <= i <= TABLE_SIZE
        invariant forall s :: 0 <= s < i ==> table[s] == None
      {
        table[i] := None;
        i := i + 1;
      }
      assert Taken(table[..]) == {};
    }

    /** Insert the n-th exact route at the first free slot of its probe path. */
    method InsertRoute(n: nat)
      requires Shaped() && n < exactCount && TableOk(table[..], hash, exact[..n])
      requires Ascending(exact[..n] + [exact[n]])
      modifies table
      ensures TableOk(table[..], hash, exact[..n + 1])
    {
      var e := exact[n];
      ghost var t := table[..];
      ghost var free := ProbeEnds(t, Home(hash, e.text));
      ghost var d := 0;
      var slot := hash(e.text) % TABLE_SIZE;
      while table[slot] != None
        invariant 0 <= d <= free && slot == SlotAt(Home(hash, e.text), d)
        invariant forall c: nat :: c < d ==> t[SlotAt(Home(hash, e.text), c)].Some?
        decreases free - d
      {
        assert t[SlotAt(Home(hash, e.text), d)].Some?;
        slot := NextSlot(slot);
        d := d + 1;
      }
      InsertKeeps(t, hash, exact[..n], e, d);
      table[slot] := Some(e);
      assert table[..] == t[slot := Some(e)];
      assert exact[..n + 1] == exact[..n] + [e];
    }

    /** match_route_compiled: the same answer as the scan, over the routes that fit. */
    method MatchRoute(ghost policies: seq<RoutePolicy>, path: string) returns (r: Option<nat>)
      requires CompiledFrom(policies)
      ensures r == FirstMatch(KeptPolicies(policies), path)
      ensures |policies| <= MAX_ROUTES ==> r == FirstMatch(policies, path)
    {
      var bestExact: Option<nat>;
      if strategy == ExactHashPrefixLinear {
        bestExact := ProbeExact(policies, path);
      } else {
        bestExact := Scan(policies, Exact, exact, exactCount, path);
      }
      var bestPrefix := Scan(policies, Prefix, prefixes, prefixCount, path);
      EarlierIsFirst(policies, path, bestExact, bestPrefix);
      if |policies| <= MAX_ROUTES {
        SmallListsKept(policies);
      }
      r := Earlier(bestExact, bestPrefix);
    }

    method ProbeExact(ghost policies: seq<RoutePolicy>, path: string) returns (r: Option<nat>)
      requires CompiledFrom(policies) && strategy == ExactHashPrefixLinear
      ensures FirstListed(policies, Exact, path, r)
    {
      ghost var t, routes := table[..], exact[..exactCount];
      ghost var free := ProbeEnds(t, Home(hash, path));
      ghost var d := 0;
      var slot := hash(path) % TABLE_SIZE;
      while table[slot] != None
        invariant 0 <= d <= free && slot == SlotAt(Home(hash, path), d)
        invariant forall c: nat :: c < d ==> Passed(t[SlotAt(Home(hash, path), c)], path)
        decreases free - d
      {
        var found := table[slot].value;
        if found.text == path {
          ProbeFindsFirst(t, hash, routes, path, d, found);
          ListedFirst(policies, Exact, routes, path, found);
          return Some(found.order);
        }
        assert Passed(t[SlotAt(Home(hash, path), d)], path);
        slot := NextSlot(slot);
        d := d + 1;
      }
      ProbeMisses(t, hash, routes, path, d);
      ListedNone(policies, Exact, routes, path);
      r := None;
    }
  }

  /** A linear scan of one of the compiled lists. */
  method Scan(ghost policies: seq<RoutePolicy>, kind: MatchKind, routes: array<Route>, count: nat, path: string)
    returns (r: Option<nat>)
    requires count <= routes.Length && Lists(policies, |policies|, kind, routes[..count])
    ensures FirstListed(policies, kind, path, r)
  {
    var i := 0;
    while i < count
      invariant 0 <= i <= count
      invariant forall k :: 0 <= k < i ==> !TextMatches(kind, routes[k].text, path)
    {
      if TextMatches(kind, routes[i].text, path) {
        ghost var all := routes[..count];
        assert all[i] == routes[i] && Ascending(all);
        assert forall k :: 0 <= k < i ==> all[k] == routes[k];
        ListedFirst(policies, kind, all, path, routes[i]);
        return Some(routes[i].order);
      }
      i := i + 1;
    }
    assert forall k :: 0 <= k < count ==> routes[..count][k] == routes[k];
    ListedNone(policies, kind, routes[..count], path);
    r := None;
  }
}
