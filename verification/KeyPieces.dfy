/** A key as the list of its pieces between pipes. Whatever its components hold, a key is determined by its
    pieces, and two keys are equal exactly when their pieces are. */
module KeyPieces {
  import opened Text
  import opened CacheKey
  import opened CacheKeyIdentity

  /** The pieces of a text, separated by pipes. */
  function Split(t: string): (parts: seq<string>)
    ensures parts != []
  {
    if t == "" then [""]
    else
      var rest := Split(t[1..]);
      if t[0] == '|' then [""] + rest else [[t[0]] + rest[0]] + rest[1..]
  }

  function Joined(parts: seq<string>): string
    requires parts != []
  {
    if |parts| == 1 then parts[0] else Seg(parts[0], Joined(parts[1..]))
  }

  predicate AllPlain(parts: seq<string>) { forall i :: 0 <= i < |parts| ==> Plain(parts[i]) }

  lemma JoinedCons(x: string, rest: seq<string>)
    requires rest != []
    ensures Joined([x] + rest) == Seg(x, Joined(rest))
  {
    assert ([x] + rest)[1..] == rest;
  }

  lemma JoinedFirst(c: char, parts: seq<string>)
    requires parts != []
    ensures Joined([[c] + parts[0]] + parts[1..]) == [c] + Joined(parts)
  {
    if |parts| == 1 {
      assert [[c] + parts[0]] + parts[1..] == [[c] + parts[0]];
    } else {
      JoinedCons([c] + parts[0], parts[1..]);
      SegFirst(c, parts[0], Joined(parts[1..]));
    }
  }

  lemma SegFirst(c: char, a: string, t: string)
    ensures [c] + Seg(a, t) == Seg([c] + a, t)
  {
  }

  /** Splitting loses nothing, and no piece holds a pipe. */
  lemma {:induction false} SplitJoins(t: string)
    ensures Joined(Split(t)) == t && AllPlain(Split(t))
  {
    if t != "" {
      var rest := Split(t[1..]);
      SplitJoins(t[1..]);
      assert t == [t[0]] + t[1..];
      if t[0] == '|' {
        JoinedCons("", rest);
        assert Seg("", t[1..]) == t;
      } else {
        JoinedFirst(t[0], rest);
      }
    }
  }

  lemma PipeInJoined(a: seq<string>)
    requires a != [] && AllPlain(a)
    ensures Plain(Joined(a)) <==> |a| == 1
  {
    if |a| > 1 {
      assert Seg(a[0], Joined(a[1..]))[|a[0]|] == '|';
    }
  }

  /** A text has only one list of pieces. */
  lemma {:induction false} JoinedInjective(a: seq<string>, b: seq<string>)
    requires a != [] && b != [] && AllPlain(a) && AllPlain(b) && Joined(a) == Joined(b)
    ensures a == b
  {
    PipeInJoined(a);
    PipeInJoined(b);
    if |a| > 1 {
      SplitUnique(a[0], b[0], Joined(a[1..]), Joined(b[1..]), '|');
      JoinedInjective(a[1..], b[1..]);
      assert a == [a[0]] + a[1..] && b == [b[0]] + b[1..];
    }
  }

  /** The pieces of a list of components. */
  function Pieced(texts: seq<string>): (parts: seq<string>)
    ensures texts != [] ==> parts != []
  {
    if texts == [] then [] else Split(texts[0]) + Pieced(texts[1..])
  }

  lemma {:induction false} JoinedAppend(a: seq<string>, b: seq<string>)
    requires a != [] && b != []
    ensures Joined(a + b) == Seg(Joined(a), Joined(b))
  {
    if |a| == 1 {
      JoinedCons(a[0], b);
      assert a == [a[0]];
    } else {
      JoinedAppend(a[1..], b);
      JoinedCons(a[0], a[1..] + b);
      assert a + b == [a[0]] + (a[1..] + b);
      SegNests(a[0], Joined(a[1..]), Joined(b));
    }
  }

  lemma SegNests(x: string, y: string, z: string)
    ensures Seg(Seg(x, y), z) == Seg(x, Seg(y, z))
  {
  }

  lemma {:induction false} PiecedJoins(texts: seq<string>)
    requires texts != []
    ensures Joined(Pieced(texts)) == Joined(texts) && AllPlain(Pieced(texts))
  {
    SplitJoins(texts[0]);
    if |texts| == 1 {
      assert Pieced(texts[1..]) == [] && Split(texts[0]) + [] == Split(texts[0]);
    } else {
      PiecedJoins(texts[1..]);
      JoinedAppend(Split(texts[0]), Pieced(texts[1..]));
    }
  }

  /** The pieces of a text are those of its components. */
  lemma SplitIsPieced(texts: seq<string>)
    requires texts != []
    ensures Split(Joined(texts)) == Pieced(texts)
  {
    SplitJoins(Joined(texts));
    PiecedJoins(texts);
    JoinedInjective(Split(Joined(texts)), Pieced(texts));
  }

  /** Components without pipes are their own pieces. */
  lemma PlainPieced(texts: seq<string>)
    requires texts != [] && AllPlain(texts)
    ensures Pieced(texts) == texts
  {
    PiecedJoins(texts);
    JoinedInjective(Pieced(texts), texts);
  }

  lemma SplitPlain(t: string)
    requires Plain(t)
    ensures Split(t) == [t]
  {
    SplitJoins(t);
    JoinedInjective(Split(t), [t]);
  }

  // ---- The components of a key ----

  function EpochName(n: nat): string { "epoch:" + Decimal(n) }

  function EpochPart(epoch: Option<nat>): seq<string> { if epoch.Some? then [EpochName(epoch.value)] else [] }

  function VaryPart(c: Content): seq<string> {
    if c.vary == [] then [] else ["vary:" + List(VaryParts(c.vary))]
  }

  function ScopePart(c: Content): seq<string> {
    if c.scope.None? then [] else ["scope:" + c.scope.value]
  }

  function BackParts(c: Content): seq<string> {
    [c.path, c.query, List(c.fields), c.policy] + (VaryPart(c) + ScopePart(c))
  }

  /** The components of a key, in order. */
  function Parts(c: Content): seq<string> { [Tag(c.variant), c.route] + (EpochPart(c.epoch) + BackParts(c)) }

  lemma ScopeJoins(a: string, s: string)
    ensures Joined([a] + ["scope:" + s]) == a + ("|scope:" + s)
  {
    JoinedCons(a, ["scope:" + s]);
    assert "|scope:" == ['|'] + "scope:";
    assert a + (['|'] + "scope:" + s) == Seg(a, "scope:" + s);
  }

  lemma VaryJoins(policy: string, list: string, scope: string)
    ensures policy + ("|vary:" + list + scope) == Seg(policy, "vary:" + list + scope)
  {
    assert "|vary:" == ['|'] + "vary:";
  }

  /** What follows the list of fields. */
  lemma TailJoins(c: Content)
    ensures Tail(c) == Joined([c.policy] + (VaryPart(c) + ScopePart(c)))
  {
    if c.vary == [] {
      assert VaryPart(c) + ScopePart(c) == ScopePart(c);
      if c.scope.Some? {
        ScopeJoins(c.policy, c.scope.value);
        assert "" + ("|scope:" + c.scope.value) == "|scope:" + c.scope.value;
      } else {
        assert [c.policy] + [] == [c.policy];
        assert c.policy + ("" + "") == c.policy;
      }
    } else {
      var list := List(VaryParts(c.vary));
      JoinedCons(c.policy, VaryPart(c) + ScopePart(c));
      VaryJoins(c.policy, list, ScopeText(c.scope));
      if c.scope.Some? {
        ScopeJoins("vary:" + list, c.scope.value);
      } else {
        assert VaryPart(c) + [] == VaryPart(c);
        assert "vary:" + list + "" == "vary:" + list;
      }
    }
  }

  lemma JoinedFour(a: string, b: string, f: string, p: string, rest: seq<string>)
    ensures Joined([a, b, f, p] + rest) == Seg(a, Seg(b, Seg(f, Joined([p] + rest))))
  {
    JoinedCons(f, [p] + rest);
    JoinedCons(b, [f] + ([p] + rest));
    JoinedCons(a, [b] + ([f] + ([p] + rest)));
    assert [a] + ([b] + ([f] + ([p] + rest))) == [a, b, f, p] + rest;
  }

  lemma JoinedTwo(a: string, b: string, rest: seq<string>)
    requires rest != []
    ensures Joined([a, b] + rest) == Seg(a, Seg(b, Joined(rest)))
  {
    JoinedCons(b, rest);
    JoinedCons(a, [b] + rest);
    assert [a] + ([b] + rest) == [a, b] + rest;
  }

  lemma EpochJoins(epoch: Option<nat>, back: seq<string>)
    requires back != []
    ensures Joined(EpochPart(epoch) + back) == EpochText(epoch) + Joined(back)
  {
    if epoch.Some? {
      EpochIsSegment(epoch.value, Joined(back));
      JoinedCons(EpochName(epoch.value), back);
    } else {
      assert [] + back == back;
      assert "" + Joined(back) == Joined(back);
    }
  }

  lemma BackJoins(c: Content)
    ensures Joined(BackParts(c)) == AfterEpoch(c)
  {
    TailJoins(c);
    JoinedFour(c.path, c.query, List(c.fields), c.policy, VaryPart(c) + ScopePart(c));
  }

  lemma PartsJoin(c: Content)
    ensures Joined(Parts(c)) == Render(c)
  {
    RenderIsSegments(c);
    BackJoins(c);
    EpochJoins(c.epoch, BackParts(c));
    JoinedTwo(Tag(c.variant), c.route, EpochPart(c.epoch) + BackParts(c));
  }

  function Pieces(c: Content): (parts: seq<string>)
    ensures parts != []
  {
    Pieced(Parts(c))
  }

  /** Two keys are equal if and only if their components have the same pieces. */
  lemma RenderEqualIff(c: Content, d: Content)
    ensures Render(c) == Render(d) <==> Pieces(c) == Pieces(d)
  {
    PartsJoin(c);
    PartsJoin(d);
    SplitIsPieced(Parts(c));
    SplitIsPieced(Parts(d));
    PiecedJoins(Parts(c));
    PiecedJoins(Parts(d));
  }

  /** For all requests, pipes or not. */
  lemma KeysEqualIffPieces(a: KeyInput, m: nat, b: KeyInput, n: nat)
    requires InputOk(a) && InputOk(b) && Built(a, m).Some? && Built(b, n).Some?
    ensures Built(a, m) == Built(b, n) <==> Pieces(ContentOf(a)) == Pieces(ContentOf(b))
  {
    RenderEqualIff(ContentOf(a), ContentOf(b));
  }

  // ---- Pipes in a path or query ----

  function Piped(path: string, query: Option<string>): KeyInput {
    KeyInput(true, Some("r"), Some(path), query, None, 0, None, None, [], false, None, false)
  }

  lemma PipedRenders(path: string, query: Option<string>)
    ensures var c := ContentOf(Piped(path, query));
            Render(c) == Seg("GET", Seg("r", Seg(path, Seg(OrEmpty(query), Seg("", ""))))) && c.scope.None?
            && c.epoch.None? && Unscoped(c) == Render(c)
  {
    var c := ContentOf(Piped(path, query));
    RenderIsSegments(c);
    assert c.fields == [] && List(c.fields) == "" && Pairs([]) == [] && Tail(c) == "";
    assert "" + AfterEpoch(c) == AfterEpoch(c);
    assert Unscoped(c) + "" == Unscoped(c);
  }

  lemma PipesMove(a: string, b: string, rest: string)
    ensures Seg(a + "|" + b, Seg("", rest)) == Seg(a, Seg(b + "|", rest))
  {
  }

  /** A path with a pipe and no query, and another path with a query: one key for two requests. */
  lemma PipesCollide() returns (a: KeyInput, b: KeyInput, size: nat)
    ensures InputOk(a) && InputOk(b) && !SameRequest(a, b)
    ensures Built(a, size).Some? && Built(a, size) == Built(b, size)
  {
    a, b := Piped("/p" + "|" + "q", None), Piped("/p", Some("q" + "|"));
    PipedRenders("/p" + "|" + "q", None);
    PipedRenders("/p", Some("q" + "|"));
    PipesMove("/p", "q", Seg("", ""));
    size := |Render(ContentOf(a))| + 1;
    assert |"/p" + "|" + "q"| != |"/p"|;
  }
}
