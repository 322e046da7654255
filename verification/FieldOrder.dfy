/** The canonical order of selected fields: byte order of C strings, selection sort in place and
    removal of adjacent duplicates. */
module FieldOrder {
  import opened Text

  lemma {:induction false} LessTransitive(a: string, b: string, c: string)
    requires Less(a, b) && Less(b, c)
    ensures Less(a, c)
  {
    if a != "" && a[0] == b[0] == c[0] {
      LessTransitive(a[1..], b[1..], c[1..]);
    }
  }

  lemma {:induction false} LessIrreflexive(a: string)
    ensures !Less(a, a)
  {
    if a != "" {
      LessIrreflexive(a[1..]);
    }
  }

  lemma {:induction false} LessTotal(a: string, b: string)
    ensures a == b || Less(a, b) || Less(b, a)
  {
    if a != "" && b != "" && a[0] == b[0] {
      LessTotal(a[1..], b[1..]);
      assert a == [a[0]] + a[1..] && b == [b[0]] + b[1..];
    }
  }

  /** Not later in the order. */
  predicate AtMost(a: string, b: string) { !Less(b, a) }

  predicate Sorted(s: seq<string>) { forall i, j :: 0 <= i < j < |s| ==> AtMost(s[i], s[j]) }

  predicate StrictlyAscending(s: seq<string>) { forall i, j :: 0 <= i < j < |s| ==> Less(s[i], s[j]) }

  ghost predicate SameElements(a: seq<string>, b: seq<string>) { forall x :: x in a <==> x in b }

  lemma HasElement(s: seq<string>)
    requires s != []
    ensures exists x :: x in s
  {
    assert s[0] in s;
  }

  /** An ascending list is determined by its elements. */
  lemma {:induction false} AscendingUnique(a: seq<string>, b: seq<string>)
    requires StrictlyAscending(a) && StrictlyAscending(b) && SameElements(a, b)
    ensures a == b
  {
    if a == [] {
      if b != [] {
        HasElement(b);
      }
    } else {
      assert a[0] in b;
      SameHead(a, b);
      forall x ensures x in a[1..] <==> x in b[1..] {
        TailElements(a, x);
        TailElements(b, x);
      }
      AscendingUnique(a[1..], b[1..]);
      assert a == [a[0]] + a[1..] && b == [b[0]] + b[1..];
    }
  }

  lemma SameHead(a: seq<string>, b: seq<string>)
    requires StrictlyAscending(a) && StrictlyAscending(b) && SameElements(a, b) && a != [] && b != []
    ensures a[0] == b[0]
  {
    assert a[0] in b && b[0] in a;
    var i :| 0 <= i < |b| && b[i] == a[0];
    var j :| 0 <= j < |a| && a[j] == b[0];
    if i > 0 && j > 0 {
      assert Less(b[0], b[i]) && Less(a[0], a[j]);
      LessTransitive(a[0], b[0], a[0]);
      LessIrreflexive(a[0]);
      assert false;
    }
  }

  lemma TailElements(s: seq<string>, x: string)
    requires StrictlyAscending(s) && s != []
    ensures x in s[1..] <==> x in s && x != s[0]
  {
    assert s == [s[0]] + s[1..];
    if x in s[1..] {
      var i :| 0 <= i < |s[1..]| && s[1..][i] == x;
      assert s[i + 1] == x && Less(s[0], s[i + 1]);
      LessIrreflexive(x);
    }
  }

  // ---- The reference: insertion into an ascending list ----

  function Insert(x: string, s: seq<string>): (r: seq<string>)
    ensures forall y :: y in r <==> y == x || y in s
  {
    if s == [] then [x]
    else if x == s[0] then s
    else if Less(x, s[0]) then [x] + s
    else
      assert s == [s[0]] + s[1..];
      [s[0]] + Insert(x, s[1..])
  }

  lemma {:induction false} InsertAscends(x: string, s: seq<string>)
    requires StrictlyAscending(s)
    ensures StrictlyAscending(Insert(x, s))
  {
    if s != [] && x != s[0] {
      if Less(x, s[0]) {
        forall i | 0 <= i < |s| ensures Less(x, s[i]) {
          if i > 0 { LessTransitive(x, s[0], s[i]); }
        }
      } else {
        LessTotal(x, s[0]);
        InsertAscends(x, s[1..]);
        var t := Insert(x, s[1..]);
        forall i | 0 <= i < |t| ensures Less(s[0], t[i]) {
          assert t[i] in t;
          TailElements(s, t[i]);
        }
      }
    }
  }

  /** The selected fields, sorted and without repetition. */
  function Canonical(fields: seq<string>): (r: seq<string>)
    ensures SameElements(r, fields)
  {
    if fields == [] then []
    else
      assert fields == [fields[0]] + fields[1..];
      Insert(fields[0], Canonical(fields[1..]))
  }

  lemma {:induction false} CanonicalAscends(fields: seq<string>)
    ensures StrictlyAscending(Canonical(fields))
  {
    if fields != [] {
      CanonicalAscends(fields[1..]);
      InsertAscends(fields[0], Canonical(fields[1..]));
    }
  }

  /** Order and repetition of the fields never matter. */
  lemma CanonicalIsOfTheSet(a: seq<string>, b: seq<string>)
    ensures Canonical(a) == Canonical(b) <==> SameElements(a, b)
  {
    CanonicalAscends(a);
    CanonicalAscends(b);
    if SameElements(a, b) {
      AscendingUnique(Canonical(a), Canonical(b));
    }
  }

  // ---- The code: selection sort in place, then one pass that skips repetitions ----

  method FindLeast(a: array<string>, i: nat) returns (least: nat)
    requires i < a.Length
    ensures i <= least < a.Length
    ensures forall q :: i <= q < a.Length ==> AtMost(a[least], a[q])
  {
    least := i;
    LessIrreflexive(a[i]);
    var j := i + 1;
    while j < a.Length
      invariant i <= least < j <= a.Length
      invariant forall q :: i <= q < j ==> AtMost(a[least], a[q])
    {
      LessIrreflexive(a[j]);
      if Less(a[j], a[least]) {
        LessTotal(a[j], a[least]);
        forall q | i <= q < j ensures AtMost(a[j], a[q]) {
          if Less(a[q], a[j]) { LessTransitive(a[q], a[j], a[least]); }
        }
        least := j;
      }
      j := j + 1;
    }
  }

  /** The first i places hold their final values. */
  predicate Settled(s: seq<string>, i: nat)
    requires i <= |s|
  {
    forall p, q :: 0 <= p < i && p < q < |s| ==> AtMost(s[p], s[q])
  }

  lemma SwapSettles(s: seq<string>, i: nat, least: nat)
    requires i <= least < |s| && Settled(s, i)
    requires forall q :: i <= q < |s| ==> AtMost(s[least], s[q])
    ensures var t := s[i := s[least]][least := s[i]]; Settled(t, i + 1) && multiset(t) == multiset(s)
  {
    var t := s[i := s[least]][least := s[i]];
    forall p, q | 0 <= p < i + 1 && p < q < |t| ensures AtMost(t[p], t[q]) {
      var from := if q == least then i else if q == i then least else q;
      assert t[q] == s[from];
    }
  }

  method SelectionSort(a: array<string>)
    modifies a
    ensures Sorted(a[..]) && multiset(a[..]) == multiset(old(a[..]))
  {
    var i := 0;
    while i < a.Length
      invariant 0 <= i <= a.Length && Settled(a[..], i)
      invariant multiset(a[..]) == multiset(old(a[..]))
    {
      var least := FindLeast(a, i);
      SwapSettles(a[..], i, least);
      ghost var s := a[..];
      if least != i {
        a[i], a[least] := a[least], a[i];
      }
      assert a[..] == s[i := s[least]][least := s[i]];
      i := i + 1;
    }
  }

  lemma AscendingAppend(s: seq<string>, x: string)
    requires StrictlyAscending(s) && (s != [] ==> Less(s[|s| - 1], x))
    ensures StrictlyAscending(s + [x])
  {
    forall i | 0 <= i < |s| ensures Less(s[i], x) {
      if i < |s| - 1 { LessTransitive(s[i], s[|s| - 1], x); }
    }
  }

  method SkipRepetitions(a: array<string>) returns (kept: seq<string>)
    requires Sorted(a[..])
    ensures StrictlyAscending(kept) && SameElements(kept, a[..])
  {
    kept := [];
    var i := 0;
    while i < a.Length
      invariant 0 <= i <= a.Length && StrictlyAscending(kept)
      invariant forall x :: x in kept <==> x in a[..i]
      invariant i == 0 ==> kept == []
      invariant i > 0 ==> kept != [] && kept[|kept| - 1] == a[i - 1]
    {
      assert a[..i + 1] == a[..i] + [a[i]];
      if i == 0 || a[i] != a[i - 1] {
        if i > 0 {
          assert AtMost(a[..][i - 1], a[..][i]);
          LessTotal(a[i - 1], a[i]);
        }
        AscendingAppend(kept, a[i]);
        kept := kept + [a[i]];
      }
      i := i + 1;
    }
    assert a[..a.Length] == a[..];
  }

  /** Copy, sort and deduplicate. */
  method CanonicalFields(fields: seq<string>) returns (kept: seq<string>)
    ensures kept == Canonical(fields)
  {
    var temp := new string[|fields|](i requires 0 <= i < |fields| => fields[i]);
    assert temp[..] == fields;
    SelectionSort(temp);
    assert forall x :: x in temp[..] <==> x in multiset(temp[..]);
    assert forall x :: x in fields <==> x in multiset(fields);
    kept := SkipRepetitions(temp);
    CanonicalAscends(fields);
    AscendingUnique(kept, Canonical(fields));
  }
}
