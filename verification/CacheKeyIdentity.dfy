/** Two cache keys are equal exactly when the requests agree in everything the key is for. */
module CacheKeyIdentity {
  import opened Text
  import opened FieldOrder
  import opened CacheKey

  predicate Plain(s: string) { '|' !in s }

  predicate FieldOk(f: string) { f != "" && ',' !in f && '|' !in f }

  predicate VaryOk(v: (string, string)) {
    '=' !in v.0 && ',' !in v.0 && '|' !in v.0 && ',' !in v.1 && '|' !in v.1
  }

  /** Pipe-free components, a path that starts with a slash, proper field names and vary parts. */
  predicate ContentOk(c: Content) {
    && Plain(c.route) && Plain(c.path) && Plain(c.query) && Plain(c.policy)
    && c.path != "" && c.path[0] == '/'
    && (forall i :: 0 <= i < |c.fields| ==> FieldOk(c.fields[i]))
    && (forall i :: 0 <= i < |c.vary| ==> VaryOk(c.vary[i]))
  }

  /** A component followed by its separator. */
  function Seg(a: string, rest: string): string { a + ['|'] + rest }

  /** What may follow the policy version: nothing, a vary list, a scope, or both. */
  function Extras(vary: seq<(string, string)>, scope: Option<string>): string { VaryText(vary) + ScopeText(scope) }

  function Tail(c: Content): string { c.policy + Extras(c.vary, c.scope) }

  function AfterEpoch(c: Content): string { Seg(c.path, Seg(c.query, Seg(List(c.fields), Tail(c)))) }

  /** The key as a chain of separated components. */
  lemma RenderIsSegments(c: Content)
    ensures Render(c) == Seg(Tag(c.variant), Seg(c.route, EpochText(c.epoch) + AfterEpoch(c)))
  {
    var h, q, b := HeadText(c.variant, c.route),
        RequestText(c.epoch, c.path, c.query), BackText(c.fields, c.policy, c.vary);
    var s, e := ScopeText(c.scope), EpochText(c.epoch);
    BackIsSegment(List(c.fields), c.policy, VaryText(c.vary), s);
    assert b + s == Seg(List(c.fields), Tail(c));
    RequestIsSegments(e, c.path, c.query, b + s);
    HeadIsSegments(Tag(c.variant), c.route, q + (b + s));
    assert h + (q + b) + s == h + (q + (b + s));
  }

  lemma BackIsSegment(fields: string, policy: string, vary: string, scope: string)
    ensures fields + "|" + policy + vary + scope == Seg(fields, policy + (vary + scope))
  {
  }

  lemma RequestIsSegments(epoch: string, path: string, query: string, rest: string)
    ensures epoch + path + "|" + query + "|" + rest == epoch + Seg(path, Seg(query, rest))
  {
  }

  lemma HeadIsSegments(tag: string, route: string, rest: string)
    ensures tag + "|" + route + "|" + rest == Seg(tag, Seg(route, rest))
  {
  }

  // ---- Lists ----

  predicate ItemOk(item: string) { item != "" && ',' !in item }

  predicate CommaFree(parts: seq<string>) { forall i :: 0 <= i < |parts| ==> ItemOk(parts[i]) }

  lemma {:induction false} JoinInjective(a: seq<string>, m: nat, b: seq<string>, n: nat)
    requires CommaFree(a) && CommaFree(b) && m <= |a| && n <= |b|
    requires Join(a, m) == Join(b, n)
    ensures m == n && forall i :: 0 <= i < m ==> a[i] == b[i]
  {
    if m <= 1 || n <= 1 {
      JoinsShort(a, m, b, n);
    } else {
      JoinsSplit(a, m, b, n);
      JoinInjective(a, m - 1, b, n - 1);
    }
  }

  lemma JoinEmpty(a: seq<string>, m: nat)
    requires CommaFree(a) && m <= |a|
    ensures Join(a, m) == "" <==> m == 0
  {
    if m > 0 {
      assert |Join(a, m)| >= |a[m - 1]|;
    }
  }

  lemma JoinLast(a: seq<string>, m: nat)
    requires 2 <= m <= |a|
    ensures Join(a, m) == Join(a, m - 1) + [','] + a[m - 1]
  {
  }

  lemma JoinSingle(a: seq<string>, m: nat)
    requires CommaFree(a) && 1 <= m <= |a|
    ensures ',' !in Join(a, m) <==> m == 1
    ensures m == 1 ==> Join(a, m) == a[0]
  {
    if m == 1 {
      assert Join(a, 0) + a[0] == a[0];
    } else {
      JoinLast(a, m);
      assert Join(a, m)[|Join(a, m - 1)|] == ',';
    }
  }

  lemma JoinsSplit(a: seq<string>, m: nat, b: seq<string>, n: nat)
    requires CommaFree(a) && CommaFree(b) && 2 <= m <= |a| && 2 <= n <= |b| && Join(a, m) == Join(b, n)
    ensures Join(a, m - 1) == Join(b, n - 1) && a[m - 1] == b[n - 1]
  {
    JoinLast(a, m);
    JoinLast(b, n);
    SplitLastUnique(Join(a, m - 1), Join(b, n - 1), a[m - 1], b[n - 1], ',');
  }

  lemma JoinsShort(a: seq<string>, m: nat, b: seq<string>, n: nat)
    requires CommaFree(a) && CommaFree(b) && m <= |a| && n <= |b| && Join(a, m) == Join(b, n)
    requires m <= 1 || n <= 1
    ensures m == n <= 1 && (m == 1 ==> a[0] == b[0])
  {
    JoinEmpty(a, m);
    JoinEmpty(b, n);
    if m > 0 {
      JoinSingle(a, m);
      JoinSingle(b, n);
    }
  }

  lemma ListInjective(a: seq<string>, b: seq<string>)
    requires CommaFree(a) && CommaFree(b) && List(a) == List(b)
    ensures a == b
  {
    JoinInjective(a, |a|, b, |b|);
  }

  lemma {:induction false} JoinPlain(a: seq<string>, m: nat)
    requires m <= |a| && forall i :: 0 <= i < |a| ==> Plain(a[i])
    ensures Plain(Join(a, m))
  {
    if m > 0 {
      JoinPlain(a, m - 1);
    }
  }

  // ---- The vary list and the scope ----

  lemma VaryPartsOk(vary: seq<(string, string)>)
    requires forall i :: 0 <= i < |vary| ==> VaryOk(vary[i])
    ensures CommaFree(VaryParts(vary))
    ensures forall i :: 0 <= i < |vary| ==> Plain(VaryParts(vary)[i])
  {
    var parts := VaryParts(vary);
    forall i | 0 <= i < |vary| ensures ItemOk(parts[i]) && Plain(parts[i]) {
      assert VaryOk(vary[i]);
      assert parts[i] == vary[i].0 + "=" + vary[i].1;
    }
  }

  lemma VaryPartsInjective(a: seq<(string, string)>, b: seq<(string, string)>)
    requires forall i :: 0 <= i < |a| ==> VaryOk(a[i])
    requires forall i :: 0 <= i < |b| ==> VaryOk(b[i])
    requires VaryParts(a) == VaryParts(b)
    ensures a == b
  {
    assert |a| == |VaryParts(a)| == |VaryParts(b)| == |b|;
    forall i | 0 <= i < |a| ensures a[i] == b[i] {
      assert VaryParts(a)[i] == a[i].0 + ['='] + a[i].1 && VaryParts(b)[i] == b[i].0 + ['='] + b[i].1;
      assert VaryOk(a[i]) && VaryOk(b[i]);
      SplitUnique(a[i].0, b[i].0, a[i].1, b[i].1, '=');
    }
  }

  lemma ExtrasStart(vary: seq<(string, string)>, scope: Option<string>)
    ensures Extras(vary, scope) != "" ==> Extras(vary, scope)[0] == '|'
    ensures Extras(vary, scope) == "" <==> vary == [] && scope.None?
  {
  }

  lemma PipeStands(p: string, x: string)
    requires x != "" && x[0] == '|'
    ensures !Plain(p + x)
  {
    assert (p + x)[|p|] == '|';
  }

  lemma PolicyEnds(p: string, x: string, q: string, y: string)
    requires Plain(p) && Plain(q) && p + x == q + y
    requires (x != "" ==> x[0] == '|') && (y != "" ==> y[0] == '|')
    ensures p == q && x == y
  {
    if x == "" {
      assert p + x == p;
      if y == "" {
        assert q + y == q;
      } else {
        PipeStands(q, y);
      }
    } else if y == "" {
      assert q + y == q;
      PipeStands(p, x);
    } else {
      assert p + ['|'] + x[1..] == p + x && q + ['|'] + y[1..] == q + y;
      SplitUnique(p, q, x[1..], y[1..], '|');
      assert x == ['|'] + x[1..] && y == ['|'] + y[1..];
    }
  }

  lemma ExtrasInjective(a: seq<(string, string)>, s: Option<string>, b: seq<(string, string)>, t: Option<string>)
    requires forall i :: 0 <= i < |a| ==> VaryOk(a[i])
    requires forall i :: 0 <= i < |b| ==> VaryOk(b[i])
    requires Extras(a, s) == Extras(b, t)
    ensures a == b && s == t
  {
    ExtrasStart(a, s);
    ExtrasStart(b, t);
    if Extras(a, s) != "" {
      ExtrasKind(a, s);
      ExtrasKind(b, t);
    }
    if a == [] {
      assert VaryText(a) + ScopeText(s) == ScopeText(s) && VaryText(b) + ScopeText(t) == ScopeText(t);
      ScopeInjective(s, t);
    } else {
      var va, vb := List(VaryParts(a)), List(VaryParts(b));
      VaryPartsOk(a);
      VaryPartsOk(b);
      JoinPlain(VaryParts(a), |a|);
      JoinPlain(VaryParts(b), |b|);
      VaryThenScope(va, ScopeText(s), vb, ScopeText(t));
      ListInjective(VaryParts(a), VaryParts(b));
      VaryPartsInjective(a, b);
      ScopeInjective(s, t);
    }
  }

  lemma ScopeInjective(s: Option<string>, t: Option<string>)
    requires ScopeText(s) == ScopeText(t)
    ensures s == t
  {
    assert s.Some? ==> ScopeText(s)[7..] == s.value;
    assert t.Some? ==> ScopeText(t)[7..] == t.value;
  }

  lemma VaryThenScope(va: string, s: string, vb: string, t: string)
    requires Plain(va) && Plain(vb) && (s != "" ==> s[0] == '|') && (t != "" ==> t[0] == '|')
    requires "|vary:" + va + s == "|vary:" + vb + t
    ensures va == vb && s == t
  {
    assert ("|vary:" + va + s)[6..] == va + s && ("|vary:" + vb + t)[6..] == vb + t;
    PolicyEnds(va, s, vb, t);
  }

  lemma ExtrasKind(vary: seq<(string, string)>, scope: Option<string>)
    requires vary != [] || scope.Some?
    ensures |Extras(vary, scope)| >= 2
    ensures Extras(vary, scope)[1] == if vary != [] then 'v' else 's'
  {
  }

  // ---- Whole keys ----

  lemma TagInjective(v: bool, w: bool)
    ensures Plain(Tag(v)) && (Tag(v) == Tag(w) ==> v == w)
  {
    assert |Tag(true)| != |Tag(false)|;
  }

  lemma DigitsPlain(n: nat)
    ensures Plain("epoch:" + Decimal(n))
  {
    assert forall i :: 0 <= i < |Decimal(n)| ==> IsDigit(Decimal(n)[i]);
  }

  lemma EpochIsSegment(n: nat, rest: string)
    ensures EpochText(Some(n)) + rest == Seg("epoch:" + Decimal(n), rest)
  {
  }

  /** An epoch segment cannot be mistaken for a path. */
  lemma EpochInjective(d: Option<nat>, e: Option<nat>, x: string, y: string)
    requires x != "" && x[0] == '/' && y != "" && y[0] == '/'
    requires EpochText(d) + x == EpochText(e) + y
    ensures d == e && x == y
  {
    assert d.None? ==> (EpochText(d) + x)[0] == '/';
    assert e.None? ==> (EpochText(e) + y)[0] == '/';
    assert d.Some? ==> (EpochText(d) + x)[0] == 'e';
    assert e.Some? ==> (EpochText(e) + y)[0] == 'e';
    if d.Some? {
      EpochIsSegment(d.value, x);
      EpochIsSegment(e.value, y);
      DigitsPlain(d.value);
      DigitsPlain(e.value);
      SplitUnique("epoch:" + Decimal(d.value), "epoch:" + Decimal(e.value), x, y, '|');
      assert ("epoch:" + Decimal(d.value))[6..] == Decimal(d.value);
      assert ("epoch:" + Decimal(e.value))[6..] == Decimal(e.value);
      DecimalInjective(d.value, e.value);
    } else {
      assert EpochText(d) + x == x && EpochText(e) + y == y;
    }
  }

  lemma FieldListPlain(c: Content)
    requires ContentOk(c)
    ensures Plain(List(c.fields)) && CommaFree(c.fields)
  {
    forall i | 0 <= i < |c.fields| ensures Plain(c.fields[i]) && ItemOk(c.fields[i]) {
      assert FieldOk(c.fields[i]);
    }
    JoinPlain(c.fields, |c.fields|);
  }

  lemma TailInjective(c: Content, d: Content)
    requires ContentOk(c) && ContentOk(d) && Tail(c) == Tail(d)
    ensures c.policy == d.policy && c.vary == d.vary && c.scope == d.scope
  {
    ExtrasStart(c.vary, c.scope);
    ExtrasStart(d.vary, d.scope);
    PolicyEnds(c.policy, Extras(c.vary, c.scope), d.policy, Extras(d.vary, d.scope));
    ExtrasInjective(c.vary, c.scope, d.vary, d.scope);
  }

  lemma AfterEpochInjective(c: Content, d: Content)
    requires ContentOk(c) && ContentOk(d) && AfterEpoch(c) == AfterEpoch(d)
    ensures c.path == d.path && c.query == d.query && c.fields == d.fields
    ensures c.policy == d.policy && c.vary == d.vary && c.scope == d.scope
  {
    FieldListPlain(c);
    FieldListPlain(d);
    var fc, fd := Seg(List(c.fields), Tail(c)), Seg(List(d.fields), Tail(d));
    SplitUnique(c.path, d.path, Seg(c.query, fc), Seg(d.query, fd), '|');
    SplitUnique(c.query, d.query, fc, fd, '|');
    SplitUnique(List(c.fields), List(d.fields), Tail(c), Tail(d), '|');
    ListInjective(c.fields, d.fields);
    TailInjective(c, d);
  }

  lemma RenderInjective(c: Content, d: Content)
    requires ContentOk(c) && ContentOk(d) && Render(c) == Render(d)
    ensures c == d
  {
    RenderIsSegments(c);
    RenderIsSegments(d);
    TagInjective(c.variant, d.variant);
    TagInjective(d.variant, c.variant);
    var ec, ed := EpochText(c.epoch) + AfterEpoch(c), EpochText(d.epoch) + AfterEpoch(d);
    SplitUnique(Tag(c.variant), Tag(d.variant), Seg(c.route, ec), Seg(d.route, ed), '|');
    SplitUnique(c.route, d.route, ec, ed, '|');
    EpochInjective(c.epoch, d.epoch, AfterEpoch(c), AfterEpoch(d));
    AfterEpochInjective(c, d);
  }

  // ---- Requests ----

  /** The requests agree in everything a key is for; of the fields, in the set of the first sixteen. */
  ghost predicate SameRequest(a: KeyInput, b: KeyInput)
    requires InputOk(a) && InputOk(b)
  {
    && a.variant == b.variant && OrEmpty(a.route) == OrEmpty(b.route) && a.epoch == b.epoch
    && OrEmpty(a.path) == OrEmpty(b.path) && OrEmpty(a.query) == OrEmpty(b.query)
    && SameElements(Rows(a), Rows(b)) && OrEmpty(a.policy) == OrEmpty(b.policy)
    && Pairs(a.vary) == Pairs(b.vary)
    && (if a.isPrivate then a.scope else None) == (if b.isPrivate then b.scope else None)
  }

  predicate Proper(input: KeyInput)
    requires InputOk(input)
  {
    && Plain(OrEmpty(input.route)) && Plain(OrEmpty(input.path)) && Plain(OrEmpty(input.query))
    && Plain(OrEmpty(input.policy))
    && OrEmpty(input.path) != "" && OrEmpty(input.path)[0] == '/'
    && (forall i :: 0 <= i < |Rows(input)| ==> FieldOk(Rows(input)[i]))
    && (forall i :: 0 <= i < |input.vary| ==> VaryOk(Pairs(input.vary)[i]))
  }

  lemma ProperContent(input: KeyInput)
    requires InputOk(input) && Proper(input)
    ensures ContentOk(ContentOf(input))
  {
    var fields := Canonical(Rows(input));
    forall i | 0 <= i < |fields| ensures FieldOk(fields[i]) {
      assert fields[i] in fields;
      assert fields[i] in Rows(input);
    }
  }

  /** Two keys are equal if and only if the requests agree; the order and repetition of the
      selected fields, and the sizes of the buffers, never matter. */
  lemma KeysEqualIff(a: KeyInput, m: nat, b: KeyInput, n: nat)
    requires InputOk(a) && InputOk(b) && Proper(a) && Proper(b)
    requires Built(a, m).Some? && Built(b, n).Some?
    ensures Built(a, m) == Built(b, n) <==> SameRequest(a, b)
  {
    CanonicalIsOfTheSet(Rows(a), Rows(b));
    if Built(a, m) == Built(b, n) {
      ProperContent(a);
      ProperContent(b);
      RenderInjective(ContentOf(a), ContentOf(b));
    }
  }

  function Sample(fields: seq<string>): KeyInput {
    KeyInput(true, Some("r"), Some("/p"), None, Some(fields), |fields|, None, None, [], false, None, false)
  }

  lemma SampleProper(fields: seq<string>)
    requires forall i :: 0 <= i < |fields| ==> FieldOk(fields[i])
    ensures InputOk(Sample(fields)) && Proper(Sample(fields)) && Complete(Sample(fields))
  {
  }

  lemma SeventeenNames() returns (f: seq<string>, g: seq<string>)
    ensures |f| == |g| == 17 && SameElements(f, g) && !SameElements(f[..MAX_FIELDS], g[..MAX_FIELDS])
    ensures forall i :: 0 <= i < 17 ==> FieldOk(f[i]) && FieldOk(g[i])
  {
    var same := seq(16, i => "id");
    f, g := ["name"] + same, same + ["name"];
    assert g[..MAX_FIELDS] == same && "name" !in same;
    assert f[..MAX_FIELDS][0] == "name";
  }

  lemma SamplesDiffer(f: seq<string>, g: seq<string>) returns (size: nat)
    requires |f| == |g| >= MAX_FIELDS && !SameElements(f[..MAX_FIELDS], g[..MAX_FIELDS])
    requires forall i :: 0 <= i < |f| ==> FieldOk(f[i]) && FieldOk(g[i])
    ensures Built(Sample(f), size).Some? && Built(Sample(g), size).Some?
    ensures Built(Sample(f), size) != Built(Sample(g), size)
  {
    SampleProper(f);
    SampleProper(g);
    size := |Render(ContentOf(Sample(f)))| + |Render(ContentOf(Sample(g)))| + 2;
    KeysEqualIff(Sample(f), size, Sample(g), size);
  }

  /** With seventeen fields the order does matter: the last row is dropped before sorting. */
  lemma SeventeenFieldsDiffer() returns (a: KeyInput, b: KeyInput, size: nat)
    ensures InputOk(a) && InputOk(b) && a.fields.Some? && b.fields.Some? && b == a.(fields := b.fields)
    ensures |a.fields.value| == |b.fields.value| == a.fieldCount == 17 && SameElements(a.fields.value, b.fields.value)
    ensures Built(a, size).Some? && Built(b, size).Some? && Built(a, size) != Built(b, size)
  {
    var f, g := SeventeenNames();
    a, b := Sample(f), Sample(g);
    size := SamplesDiffer(f, g);
  }
}
