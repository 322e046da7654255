/** Strings as the control plane uses them: substring search, decimal numerals and the
    separator arguments that make delimited texts unambiguous. */
module Text {

  datatype Option<+T> = None | Some(value: T)

  /** `pat` stands in `text` at position `i`. */
  predicate OccursAt(text: string, pat: string, i: nat) {
    i + |pat| <= |text| && text[i..i + |pat|] == pat
  }

  /** The first position at or after `from` where `pat` stands, as std::string::find gives it. */
  function FindFrom(text: string, pat: string, from: nat): (r: Option<nat>)
    ensures r.Some? ==> from <= r.value && OccursAt(text, pat, r.value)
    ensures r.Some? ==> forall i: nat :: from <= i < r.value ==> !OccursAt(text, pat, i)
    ensures r.None? ==> forall i: nat :: from <= i ==> !OccursAt(text, pat, i)
    decreases |text| - from
  {
    if from > |text| then None
    else if OccursAt(text, pat, from) then Some(from)
    else FindFrom(text, pat, from + 1)
  }

  /** Searching is determined by where the first occurrence is. */
  lemma FirstOccurrence(text: string, pat: string, from: nat, at: nat)
    requires from <= at && OccursAt(text, pat, at)
    requires forall i: nat :: from <= i < at ==> !OccursAt(text, pat, i)
    ensures FindFrom(text, pat, from) == Some(at)
  {
    var r := FindFrom(text, pat, from);
    assert r.Some? ==> r.value <= at;
  }

  // ---- Order and concatenation ----

  /** Byte order: strncmp(a, b, n) < 0 for strings that end within n bytes, and the database's key order. */
  predicate Less(a: string, b: string) {
    b != "" && (a == "" || a[0] < b[0] || (a[0] == b[0] && Less(a[1..], b[1..])))
  }

  lemma Regroup(a: string, b: string, c: string)
    ensures a + b + c == a + (b + c)
  {
  }

  // ---- Decimal numerals ----

  predicate IsDigit(c: char) { '0' <= c <= '9' }

  function Digit(d: nat): (c: char)
    requires d < 10
    ensures IsDigit(c)
  {
    ('0' as int + d) as char
  }

  predicate AllDigits(s: string) { forall i :: 0 <= i < |s| ==> IsDigit(s[i]) }

  /** std::to_string, and the digits of a `%llu` conversion. */
  function Decimal(n: nat): (s: string)
    ensures s != "" && AllDigits(s)
  {
    if n < 10 then [Digit(n)] else Decimal(n / 10) + [Digit(n % 10)]
  }

  /** std::stoull on a digit string. */
  function Numeral(s: string): nat
    requires AllDigits(s)
  {
    if s == "" then 0
    else 10 * Numeral(s[..|s| - 1]) + (s[|s| - 1] as int - '0' as int)
  }

  lemma {:induction false} NumeralOfDecimal(n: nat)
    ensures Numeral(Decimal(n)) == n
  {
    var s := Decimal(n);
    if n < 10 {
      assert s[..0] == "";
    } else {
      NumeralOfDecimal(n / 10);
      assert s[..|s| - 1] == Decimal(n / 10);
    }
  }

  lemma DecimalInjective(a: nat, b: nat)
    requires Decimal(a) == Decimal(b)
    ensures a == b
  {
    NumeralOfDecimal(a);
    NumeralOfDecimal(b);
  }

  function Pow10(k: nat): (p: nat)
    ensures p >= 1
  {
    if k == 0 then 1 else 10 * Pow10(k - 1)
  }

  /** A number has at most k digits exactly when it is below 10^k. */
  lemma {:induction false} DecimalWidth(n: nat, k: nat)
    requires k >= 1
    ensures |Decimal(n)| <= k <==> n < Pow10(k)
  {
    if k == 1 {
      assert Pow10(1) == 10 * Pow10(0);
      if n >= 10 {
        assert |Decimal(n / 10)| >= 1;
      }
    } else {
      if n >= 10 {
        DecimalWidth(n / 10, k - 1);
      }
    }
  }

  // ---- Separators ----

  lemma FirstSeparator(a: string, x: string, sep: char)
    requires sep !in a
    ensures (a + [sep] + x)[|a|] == sep
    ensures forall i :: 0 <= i < |a| ==> (a + [sep] + x)[i] != sep
  {
    forall i | 0 <= i < |a| ensures (a + [sep] + x)[i] != sep {
      assert (a + [sep] + x)[i] == a[i];
    }
  }

  /** A text is split by its first separator in only one way. */
  lemma SplitUnique(a: string, b: string, x: string, y: string, sep: char)
    requires sep !in a && sep !in b
    requires a + [sep] + x == b + [sep] + y
    ensures a == b && x == y
  {
    var l := a + [sep] + x;
    var r := b + [sep] + y;
    FirstSeparator(a, x, sep);
    FirstSeparator(b, y, sep);
    assert |a| == |b|;
    assert a == l[..|a|] && b == r[..|b|];
    assert x == l[|a| + 1..] && y == r[|b| + 1..];
  }

  /** A text with the separator is not one without it. */
  lemma SplitAbsent(a: string, x: string, b: string, sep: char)
    requires sep !in b
    ensures a + [sep] + x != b
  {
    assert (a + [sep] + x)[|a|] == sep;
  }

  lemma LastSeparator(a: string, x: string, sep: char)
    requires sep !in x
    ensures (a + [sep] + x)[|a|] == sep
    ensures forall i :: |a| < i < |a + [sep] + x| ==> (a + [sep] + x)[i] != sep
  {
    forall i | |a| < i < |a + [sep] + x| ensures (a + [sep] + x)[i] != sep {
      assert (a + [sep] + x)[i] == x[i - |a| - 1];
    }
  }

  /** A text is split by its last separator in only one way. */
  lemma SplitLastUnique(a: string, b: string, x: string, y: string, sep: char)
    requires sep !in x && sep !in y
    requires a + [sep] + x == b + [sep] + y
    ensures a == b && x == y
  {
    var l := a + [sep] + x;
    var r := b + [sep] + y;
    LastSeparator(a, x, sep);
    LastSeparator(b, y, sep);
    assert |a| == |b|;
    assert a == l[..|a|] && b == r[..|b|];
    assert x == l[|a| + 1..] && y == r[|b| + 1..];
  }
}
