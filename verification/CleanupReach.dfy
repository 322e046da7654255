/** Exactly which keys a namespace cleanup reaches, whatever the key and the marker: those among whose
    components, in order, the components of the marker stand. */
module CleanupReach {
  import opened Text
  import opened CacheKey
  import opened CacheKeyIdentity
  import opened KeyPieces
  import opened CacheNamespace

  /** The text after the first occurrence of a marker. */
  function After(t: string, marker: string): Option<string> {
    var at := FindFrom(t, marker, 0);
    if at.None? then None else Some(t[at.value + |marker|..])
  }

  lemma OccurrenceStarts(text: string, pat: string, i: nat)
    requires OccursAt(text, pat, i) && pat != ""
    ensures text[i] == pat[0]
  {
    assert text[i..i + |pat|][0] == text[i];
  }

  lemma {:induction false} SkipSegment(key: string, p: nat, a: string, rest: string, n: nat)
    requires p <= |key| && key[p..] == Seg(a, rest) && Plain(a) && n > 0
    ensures p + |a| + 1 <= |key| && key[p + |a| + 1..] == rest
    ensures SkipPipes(key, p, n) == SkipPipes(key, p + |a| + 1, n - 1)
    decreases |a|
  {
    assert key[p..][|a| + 1..] == rest;
    assert key[p] == key[p..][0];
    if a != "" {
      assert key[p + 1..] == key[p..][1..] == Seg(a[1..], rest);
      SkipSegment(key, p + 1, a[1..], rest, n);
    }
  }

  lemma SegmentEnds(key: string, p: nat, a: string, x: string)
    requires p <= |key| && key[p..] == a + x && Plain(a) && (x != "" ==> x[0] == '|')
    ensures key[p..SegmentEnd(key, p)] == a
  {
    var q := SegmentEnd(key, p);
    assert |key| == p + |a| + |x|;
    forall i | p <= i < p + |a| ensures key[i] != '|' {
      assert key[i] == key[p..][i - p] == a[i - p];
    }
    assert x != "" ==> key[p..][|a|] == '|';
    forall i | p <= i < q ensures key[i] != '|' {
      assert key[i] == key[p..q][i - p];
    }
    assert q == p + |a|;
    assert key[p..q] == key[p..][..q - p];
  }

  // ---- The identity test depends only on what follows ----

  lemma {:induction false} SkipShift(key: string, p: nat, q: nat, n: nat)
    requires p + q <= |key|
    ensures var r := SkipPipes(key[p..], q, n);
            SkipPipes(key, p + q, n) == if r.Some? then Some(p + r.value) else None
    decreases |key| - p - q
  {
    if n > 0 && p + q < |key| {
      assert key[p..][q] == key[p + q];
      SkipShift(key, p, q + 1, if key[p + q] == '|' then n - 1 else n);
    }
  }

  lemma SegmentShift(key: string, p: nat, q: nat)
    requires p + q <= |key|
    ensures key[p..][q..SegmentEnd(key[p..], q)] == key[p + q..SegmentEnd(key, p + q)]
  {
    var e := SegmentEnd(key, p + q);
    assert key[p..][q..] == key[p + q..e] + key[e..];
    SegmentEnds(key[p..], q, key[p + q..e], key[e..]);
  }

  lemma PolicyShift(key: string, p: nat, identity: string)
    requires p <= |key|
    ensures PolicyIs(key, p, identity) <==> PolicyIs(key[p..], 0, identity)
  {
    SkipShift(key, p, 0, 3);
    var r := SkipPipes(key[p..], 0, 3);
    if r.Some? {
      SegmentShift(key, p, r.value);
    }
  }

  lemma DoomedIsAfter(key: string, marker: string, identity: Option<string>)
    ensures Doomed(key, marker, identity) <==>
            After(key, marker).Some? &&
            (Unrestricted(identity) || PolicyIs(After(key, marker).value, 0, identity.value))
  {
    var at := FindFrom(key, marker, 0);
    if at.Some? && !Unrestricted(identity) {
      PolicyShift(key, at.value + |marker|, identity.value);
    }
  }

  // ---- A text that starts with another ----

  /** The first components are those of `m`, and the one after them starts with the last of `m`. */
  predicate Spells(parts: seq<string>, m: seq<string>)
    requires m != []
  {
    && |m| <= |parts| && m[|m| - 1] <= parts[|m| - 1]
    && forall j :: 0 <= j < |m| - 1 ==> m[j] == parts[j]
  }

  /** A component and its pipe are a prefix of plain components exactly when they are the first. */
  lemma PrefixIsFirst(x: string, rest: string, y: string, t: string)
    requires Plain(x) && Plain(y)
    ensures Seg(x, rest) <= Seg(y, t) <==> x == y && rest <= t
  {
    var l, r := Seg(x, rest), Seg(y, t);
    if l <= r {
      assert r == l + r[|l|..];
      var more := r[|l|..];
      assert l + more == Seg(x, rest + more);
      SplitUnique(x, y, rest + more, t, '|');
    }
  }

  lemma PlainPrefix(x: string, y: string, t: string)
    requires Plain(x)
    ensures x <= Seg(y, t) <==> x <= y
  {
    var r := Seg(y, t);
    assert r[|y|] == '|';
    if |x| <= |y| {
      assert r[..|x|] == y[..|x|];
    } else if x <= r {
      PrefixAgrees(x, r, |y|);
    }
  }

  lemma PrefixAgrees(l: string, t: string, i: nat)
    requires l <= t && i < |l|
    ensures t[i] == l[i]
  {
  }

  lemma PrefixNeedsPipe(x: string, rest: string, t: string)
    requires Plain(t)
    ensures !(Seg(x, rest) <= t)
  {
    var i: nat := |x|;
    assert Seg(x, rest)[i] == '|';
    if Seg(x, rest) <= t {
      PrefixAgrees(Seg(x, rest), t, i);
    }
  }

  lemma SpellsTail(parts: seq<string>, m: seq<string>)
    requires |m| > 1 && |parts| > 1
    ensures Spells(parts, m) <==> parts[0] == m[0] && Spells(parts[1..], m[1..])
  {
    var p, q := parts[1..], m[1..];
    assert q[|q| - 1] == m[|m| - 1] && (|m| <= |parts| ==> p[|q| - 1] == parts[|m| - 1]);
    assert forall j :: 1 <= j < |m| ==> m[j] == q[j - 1];
    assert forall j :: 1 <= j < |parts| ==> parts[j] == p[j - 1];
    assert forall j :: 0 <= j < |q| ==> q[j] == m[j + 1];
    assert forall j :: 0 <= j < |p| ==> p[j] == parts[j + 1];
  }

  lemma {:induction false} PrefixIffSpells(parts: seq<string>, m: seq<string>)
    requires parts != [] && m != [] && AllPlain(parts) && AllPlain(m)
    ensures Joined(m) <= Joined(parts) <==> Spells(parts, m)
  {
    if |m| == 1 {
      if |parts| > 1 {
        PlainPrefix(m[0], parts[0], Joined(parts[1..]));
      }
    } else if |parts| == 1 {
      PrefixNeedsPipe(m[0], Joined(m[1..]), parts[0]);
    } else {
      PrefixIsFirst(m[0], Joined(m[1..]), parts[0], Joined(parts[1..]));
      PrefixIffSpells(parts[1..], m[1..]);
      SpellsTail(parts, m);
    }
  }

  /** The components of what follows. */
  function Remaining(parts: seq<string>, m: seq<string>): (r: seq<string>)
    requires m != [] && Spells(parts, m)
    ensures r != []
  {
    [parts[|m| - 1][|m[|m| - 1]|..]] + parts[|m|..]
  }

  lemma {:induction false} AfterPrefix(parts: seq<string>, m: seq<string>)
    requires m != [] && AllPlain(parts) && AllPlain(m) && Spells(parts, m)
    ensures |Joined(m)| <= |Joined(parts)| && Joined(parts)[|Joined(m)|..] == Joined(Remaining(parts, m))
    ensures AllPlain(Remaining(parts, m))
  {
    PrefixIffSpells(parts, m);
    if |m| == 1 {
      var x := parts[0][|m[0]|..];
      if |parts| > 1 {
        JoinedCons(x, parts[1..]);
        assert Seg(parts[0], Joined(parts[1..]))[|m[0]|..] == Seg(x, Joined(parts[1..]));
      } else {
        assert [x] + parts[1..] == [x];
      }
    } else {
      SpellsTail(parts, m);
      AfterPrefix(parts[1..], m[1..]);
      assert Remaining(parts[1..], m[1..]) == Remaining(parts, m);
      DropBoth(parts[0], Joined(m[1..]), Joined(parts[1..]));
    }
  }

  lemma DropBoth(a: string, x: string, t: string)
    requires |x| <= |t|
    ensures |Seg(a, x)| <= |Seg(a, t)| && Seg(a, t)[|Seg(a, x)|..] == t[|x|..]
  {
  }

  // ---- Where a marker is met ----

  lemma OccursAtPipe(a: string, t: string, b: string)
    ensures OccursAt(Seg(a, t), ['|'] + b, |a|) <==> b <= t
  {
    var s, m := Seg(a, t), ['|'] + b;
    if |a| + |m| <= |s| {
      assert s[|a|..|a| + |m|] == ['|'] + t[..|b|];
      assert (['|'] + t[..|b|])[1..] == t[..|b|] && m[1..] == b;
    }
  }

  lemma NotInside(a: string, t: string, b: string, i: nat)
    requires Plain(a) && i < |a|
    ensures !OccursAt(Seg(a, t), ['|'] + b, i)
  {
    assert Seg(a, t)[i] == a[i];
    if OccursAt(Seg(a, t), ['|'] + b, i) {
      OccurrenceStarts(Seg(a, t), ['|'] + b, i);
    }
  }

  /** A marker is first met after a plain component, or further on. */
  lemma AfterSeg(a: string, t: string, b: string)
    requires Plain(a)
    ensures After(Seg(a, t), ['|'] + b) == if b <= t then Some(t[|b|..]) else After(t, ['|'] + b)
  {
    var s, m := Seg(a, t), ['|'] + b;
    forall i: nat | i < |a| ensures !OccursAt(s, m, i) {
      NotInside(a, t, b, i);
    }
    OccursAtPipe(a, t, b);
    if b <= t {
      FirstOccurrence(s, m, 0, |a|);
      assert s[|a| + |m|..] == t[|b|..];
    } else {
      FurtherOn(a, t, m);
    }
  }

  lemma OccursDropped(s: string, m: string, d: nat, i: nat)
    requires d <= |s|
    ensures OccursAt(s, m, d + i) <==> OccursAt(s[d..], m, i)
  {
    if d + i + |m| <= |s| {
      assert s[d..][i..i + |m|] == s[d + i..d + i + |m|];
    }
  }

  lemma FoundDropped(s: string, m: string, d: nat, at: nat)
    requires d <= |s| && FindFrom(s[d..], m, 0) == Some(at) && forall i: nat :: i < d ==> !OccursAt(s, m, i)
    ensures FindFrom(s, m, 0) == Some(d + at)
  {
    OccursDropped(s, m, d, at);
    forall i: nat | i < d + at ensures !OccursAt(s, m, i) {
      if i >= d {
        OccursDropped(s, m, d, i - d);
      }
    }
    FirstOccurrence(s, m, 0, d + at);
  }

  lemma NoneDropped(s: string, m: string, d: nat)
    requires d <= |s| && FindFrom(s[d..], m, 0) == None && forall i: nat :: i < d ==> !OccursAt(s, m, i)
    ensures FindFrom(s, m, 0) == None
  {
    var at := FindFrom(s, m, 0);
    if at.Some? && at.value >= d {
      OccursDropped(s, m, d, at.value - d);
    }
  }

  lemma FurtherOn(a: string, t: string, m: string)
    requires forall i: nat :: i <= |a| ==> !OccursAt(Seg(a, t), m, i)
    ensures After(Seg(a, t), m) == After(t, m)
  {
    var s, d := Seg(a, t), |a| + 1;
    assert s[d..] == t;
    var r := FindFrom(t, m, 0);
    if r.Some? {
      FoundDropped(s, m, d, r.value);
      assert s[d + r.value + |m|..] == t[r.value + |m|..];
    } else {
      NoneDropped(s, m, d);
    }
  }

  lemma PlainHasNone(t: string, b: string)
    requires Plain(t)
    ensures After(t, ['|'] + b) == None
  {
    var at := FindFrom(t, ['|'] + b, 0);
    if at.Some? {
      OccurrenceStarts(t, ['|'] + b, at.value);
    }
  }

  /** The first component from the i-th on at which the marker's components stand. */
  function FirstSpelled(parts: seq<string>, m: seq<string>, i: nat): (r: Option<nat>)
    requires m != [] && i <= |parts|
    ensures r.Some? ==> i <= r.value < |parts| && Spells(parts[r.value..], m)
    ensures r.Some? ==> forall j :: i <= j < r.value ==> !Spells(parts[j..], m)
    ensures r.None? ==> forall j :: i <= j < |parts| ==> !Spells(parts[j..], m)
    decreases |parts| - i
  {
    if i == |parts| then None
    else if Spells(parts[i..], m) then Some(i)
    else FirstSpelled(parts, m, i + 1)
  }

  lemma {:induction false} AfterIsRemaining(parts: seq<string>, m: seq<string>, i: nat)
    requires m != [] && AllPlain(parts) && AllPlain(m) && 0 < i <= |parts|
    ensures var at := FirstSpelled(parts, m, i);
            After(Joined(parts[i - 1..]), ['|'] + Joined(m))
            == if at.Some? then Some(Joined(Remaining(parts[at.value..], m))) else None
    decreases |parts| - i
  {
    if i == |parts| {
      PlainHasNone(parts[i - 1], Joined(m));
    } else {
      assert parts[i - 1..][1..] == parts[i..];
      AfterSeg(parts[i - 1], Joined(parts[i..]), Joined(m));
      PrefixIffSpells(parts[i..], m);
      if Spells(parts[i..], m) {
        AfterPrefix(parts[i..], m);
      } else {
        AfterIsRemaining(parts, m, i + 1);
      }
    }
  }

  // ---- The identity test ----

  lemma {:induction false} TooFewPipes(t: string, p: nat, n: nat)
    requires p <= |t| && Plain(t[p..]) && n > 0
    ensures SkipPipes(t, p, n) == None
    decreases |t| - p
  {
    if p < |t| {
      assert t[p] == t[p..][0] && t[p + 1..] == t[p..][1..];
      TooFewPipes(t, p + 1, n);
    }
  }

  lemma {:induction false} SkipParts(t: string, p: nat, parts: seq<string>, n: nat)
    requires p <= |t| && parts != [] && AllPlain(parts) && t[p..] == Joined(parts)
    ensures var r := SkipPipes(t, p, n);
            (r.Some? <==> n < |parts|) && (n < |parts| ==> t[r.value..] == Joined(parts[n..]))
    decreases n
  {
    if n == 0 {
      assert parts[n..] == parts;
    } else if |parts| == 1 {
      TooFewPipes(t, p, n);
    } else {
      SkipSegment(t, p, parts[0], Joined(parts[1..]), n);
      SkipParts(t, p + |parts[0]| + 1, parts[1..], n - 1);
      assert n < |parts| ==> parts[1..][n - 1..] == parts[n..];
    }
  }

  lemma FirstEnds(t: string, at: nat, parts: seq<string>)
    requires at <= |t| && parts != [] && AllPlain(parts) && t[at..] == Joined(parts)
    ensures t[at..SegmentEnd(t, at)] == parts[0]
  {
    if |parts| == 1 {
      assert parts[0] + "" == parts[0];
      SegmentEnds(t, at, parts[0], "");
    } else {
      Regroup(parts[0], ['|'], Joined(parts[1..]));
      SegmentEnds(t, at, parts[0], ['|'] + Joined(parts[1..]));
    }
  }

  /** The component compared with a policy identity is the fourth. */
  lemma PolicyIsFourth(parts: seq<string>, identity: string)
    requires parts != [] && AllPlain(parts)
    ensures PolicyIs(Joined(parts), 0, identity) <==> |parts| > 3 && parts[3] == identity
  {
    var t := Joined(parts);
    assert t[0..] == t;
    SkipParts(t, 0, parts, 3);
    if |parts| > 3 {
      FirstEnds(t, SkipPipes(t, 0, 3).value, parts[3..]);
    }
  }

  // ---- Which keys are cleared ----

  /** The key's components, the marker's, and the identity if one is named: the marker stands at component
      i, not the first, and the identity is the third component behind the marker's last. */
  predicate ClearedBy(parts: seq<string>, m: seq<string>, identity: Option<string>)
    requires parts != [] && m != []
  {
    var i := FirstSpelled(parts, m, 1);
    i.Some? && (Unrestricted(identity)
                || (i.value + |m| + 2 < |parts| && parts[i.value + |m| + 2] == identity.value))
  }

  /** For every key, route, epoch and identity, with a whole marker or one cut to its buffer. */
  lemma DoomedIffCleared(key: string, r: string, n: nat, identity: Option<string>)
    ensures Doomed(key, Marker(r, n), identity) <==> ClearedBy(Split(key), Split(Marker(r, n)[1..]), identity)
  {
    var parts, m := Split(key), Split(Marker(r, n)[1..]);
    SplitJoins(key);
    SplitJoins(Marker(r, n)[1..]);
    assert Marker(r, n) == ['|'] + Joined(m);
    assert parts[0..] == parts;
    AfterIsRemaining(parts, m, 1);
    DoomedIsAfter(key, Marker(r, n), identity);
    var i := FirstSpelled(parts, m, 1);
    if i.Some? && !Unrestricted(identity) {
      var rest := Remaining(parts[i.value..], m);
      AfterPrefix(parts[i.value..], m);
      PolicyIsFourth(rest, identity.value);
    }
  }

  // ---- The components of a marker ----

  /** The components of a marker: route, epoch and an empty one, as far as the buffer holds them. */
  function MarkerParts(r: string, n: nat): (m: seq<string>)
    ensures m != []
  {
    if |FullMarker(r, n)| <= MARKER_MAX then [r, EpochName(n), ""]
    else if MARKER_MAX <= 1 + |r| then [r[..MARKER_MAX - 1]]
    else [r, EpochName(n)[..MARKER_MAX - 2 - |r|]]
  }

  lemma MarkerSpells(r: string, n: nat)
    ensures FullMarker(r, n) == ['|'] + Seg(r, Seg(EpochName(n), ""))
  {
    assert "|epoch:" == ['|'] + "epoch:";
  }

  lemma CutSpells(r: string, e: string, k: nat)
    requires k <= |Seg(r, Seg(e, ""))|
    ensures Seg(r, Seg(e, ""))[..k] ==
            if k <= |r| then r[..k] else if k <= 1 + |r| + |e| then Seg(r, e[..k - 1 - |r|]) else Seg(r, Seg(e, ""))
  {
  }

  lemma MarkerPartsJoin(r: string, n: nat)
    ensures Joined(MarkerParts(r, n)) == Marker(r, n)[1..]
  {
    var e := EpochName(n);
    var b := Seg(r, Seg(e, ""));
    MarkerSpells(r, n);
    CutSpells(r, e, if |b| < MARKER_MAX then |b| else MARKER_MAX - 1);
    if |FullMarker(r, n)| <= MARKER_MAX {
      JoinedTwo(r, e, [""]);
      assert MarkerParts(r, n) == [r, e] + [""];
    } else {
      assert Marker(r, n)[1..] == b[..MARKER_MAX - 1];
      if MARKER_MAX > 1 + |r| {
        JoinedCons(r, [e[..MARKER_MAX - 2 - |r|]]);
        assert MarkerParts(r, n) == [r] + [e[..MARKER_MAX - 2 - |r|]];
      }
    }
  }

  /** Exactly which keys a cleanup clears, whatever they hold, also when its marker is cut: those whose pieces,
      after the first, hold the marker's in order, and have the identity in its place. */
  lemma DoomedIffSpelled(c: Content, r: string, n: nat, identity: Option<string>)
    ensures Doomed(Render(c), Marker(r, n), identity) <==> ClearedBy(Pieces(c), Pieced(MarkerParts(r, n)), identity)
  {
    PartsJoin(c);
    SplitIsPieced(Parts(c));
    MarkerPartsJoin(r, n);
    SplitIsPieced(MarkerParts(r, n));
    DoomedIffCleared(Render(c), r, n, identity);
  }

  /** A plain key whose query and field list are the route and epoch of a marker that fits. */
  lemma QuerySpells(c: Content, r: string, n: nat)
    requires AllPlain(Parts(c)) && c.epoch.Some? && c.query == r && List(c.fields) == EpochName(n)
    requires |FullMarker(r, n)| <= MARKER_MAX
    ensures Doomed(Render(c), Marker(r, n), None)
  {
    var parts, m := Parts(c), MarkerParts(r, n);
    PlainPieced(parts);
    DigitsPlain(n);
    assert parts[4] == r && parts[5] == EpochName(n) && |parts| > 6;
    PlainPieced(m);
    assert parts[4..][0] == parts[4] && parts[4..][1] == parts[5];
    assert Spells(parts[4..], m);
    DoomedIffSpelled(c, r, n, None);
  }

  /** A cleanup of route "r" and epoch 5 clears a key of route "x" and epoch 1. */
  lemma CleanupReachesOtherRoute()
    ensures var c := Content(false, "x", Some(1), "/p", "r", ["epoch:5"], "", [], None);
            ContentOk(c) && Doomed(Render(c), Marker("r", 5), None)
  {
    var c := Content(false, "x", Some(1), "/p", "r", ["epoch:5"], "", [], None);
    assert Decimal(5) == "5";
    assert EpochName(5) == "epoch:5" == List(c.fields);
    DigitsPlain(1);
    QuerySpells(c, "r", 5);
  }
}
