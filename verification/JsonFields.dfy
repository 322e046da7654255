/** Printing a record one field per line, and why the scanner finds each field again. */
module JsonFields {
  import opened Text
  import opened JsonText

  datatype Value = Str(text: string) | Num(n: nat)

  datatype Field = Field(key: string, value: Value)

  function ValueText(v: Value): string {
    match v
    case Str(text) => [QUOTE] + (Escape(text) + [QUOTE])
    case Num(n) => Decimal(n)
  }

  function Comma(last: bool): string { if last then "" else "," }

  /** What stands before the value on a field's line. */
  function Lead(key: string): string { "  " + Quoted(key) + ": " }

  function Line(f: Field, last: bool): string { Lead(f.key) + (ValueText(f.value) + Comma(last)) }

  function LinesOf(fields: seq<Field>): seq<string> {
    seq(|fields|, i requires 0 <= i < |fields| => Line(fields[i], i + 1 == |fields|))
  }

  /** The opening brace and the first n lines, without the newline after them. */
  function Opened(lines: seq<string>, n: nat): string
    requires n <= |lines|
  {
    if n == 0 then "{" else Opened(lines, n - 1) + ['\n'] + lines[n - 1]
  }

  function Printed(fields: seq<Field>): string { Opened(LinesOf(fields), |fields|) + ['\n'] + "}\n" }

  predicate IsLine(text: string, f: Field, last: bool) { text == Line(f, last) }

  /** The step-by-step appending of serialize_active_pointer and serialize_version_record. */
  method PrintRecord(fields: seq<Field>) returns (json: string)
    ensures json == Printed(fields)
  {
    json := PrintLines(fields, LinesOf(fields));
    json := json + "}\n";
  }

  method PrintLines(fields: seq<Field>, ghost lines: seq<string>) returns (json: string)
    requires |lines| == |fields| && forall i :: 0 <= i < |fields| ==> IsLine(lines[i], fields[i], i + 1 == |fields|)
    ensures json == Opened(lines, |fields|) + ['\n']
  {
    json := "{" + ['\n'];
    var i := 0;
    while i < |fields|
      invariant 0 <= i <= |fields| && json == Opened(lines, i) + ['\n']
    {
      var line := PrintLine(fields[i], i + 1 == |fields|, lines[i]);
      json := json + line + ['\n'];
      i := i + 1;
    }
  }

  method PrintLine(f: Field, last: bool, ghost text: string) returns (line: string)
    requires IsLine(text, f, last)
    ensures line == text
  {
    var value;
    match f.value {
      case Str(s) =>
        var escaped := EscapeJsonString(s);
        value := [QUOTE] + (escaped + [QUOTE]);
      case Num(n) =>
        value := Decimal(n);
    }
    line := "  " + Quoted(f.key) + ": " + (value + if last then "" else ",");
  }

  // ---- Where a quoted key can stand ----

  predicate IsLetter(c: char) { 'a' <= c <= 'z' || 'A' <= c <= 'Z' }

  predicate IsName(k: string) { k != "" && forall i :: 0 <= i < |k| ==> IsLetter(k[i]) }

  ghost predicate Free(text: string, pat: string) { forall p: nat :: !OccursAt(text, pat, p) }

  /** An occurrence, letter by letter. */
  lemma OccursMeans(text: string, k: string, p: nat)
    requires OccursAt(text, Quoted(k), p)
    ensures p + |k| + 2 <= |text| && text[p] == QUOTE && text[p + 1 + |k|] == QUOTE
    ensures forall j :: 0 <= j < |k| ==> text[p + 1 + j] == k[j]
  {
    var q := Quoted(k);
    assert forall j :: 0 <= j < |q| ==> text[p..p + |q|][j] == q[j];
    assert text[p] == q[0] && text[p + 1 + |k|] == q[1 + |k|];
    forall j | 0 <= j < |k| ensures text[p + 1 + j] == k[j] {
      assert text[p..p + |q|][1 + j] == q[1 + j] == k[j];
    }
  }

  lemma InOccurrence(text: string, pat: string, p: nat, q: nat)
    requires OccursAt(text, pat, p) && p <= q < p + |pat|
    ensures text[q] in pat
  {
    assert text[p..p + |pat|][q - p] == text[q];
  }

  lemma NameHasNoNewline(k: string)
    requires IsName(k)
    ensures '\n' !in Quoted(k)
  {
  }

  /** No occurrence of a quoted name crosses a newline. */
  lemma FreeAcrossLines(a: string, b: string, k: string, p: nat)
    requires IsName(k) && OccursAt(a + ['\n'] + b, Quoted(k), p)
    ensures OccursAt(a, Quoted(k), p) || (p > |a| && OccursAt(b, Quoted(k), p - |a| - 1))
  {
    var text, n := a + ['\n'] + b, |Quoted(k)|;
    NameHasNoNewline(k);
    assert text[|a|] == '\n';
    if p <= |a| < p + n {
      InOccurrence(text, Quoted(k), p, |a|);
    }
    if p + n <= |a| {
      assert a[p..p + n] == text[p..p + n];
    } else {
      assert p > |a|;
      assert b[p - |a| - 1..p - |a| - 1 + n] == text[p..p + n];
    }
  }

  // ---- Inside a string value ----

  /** The rest of a string value's line, after its opening quote. */
  function Closing(text: string, tail: string): string { Escape(text) + ([QUOTE] + tail) }

  /** Reading a name and a quote out of an escaped text means the text is that name. */
  lemma {:induction false} NameThenQuote(k: string, text: string, tail: string)
    requires forall i :: 0 <= i < |k| ==> IsLetter(k[i])
    requires k + [QUOTE] <= Closing(text, tail)
    ensures text == k
  {
    if text == "" {
      assert Closing(text, tail) == [QUOTE] + tail;
      assert (k + [QUOTE])[0] == QUOTE;
    } else {
      ClosingUnfolds(text, tail);
      FirstLetter(k, text[0], Closing(text[1..], tail));
      NameThenQuote(k[1..], text[1..], tail);
      assert k == [k[0]] + k[1..] && text == [text[0]] + text[1..];
    }
  }

  lemma ClosingUnfolds(text: string, tail: string)
    requires text != ""
    ensures Closing(text, tail) == EscapeChar(text[0]) + Closing(text[1..], tail)
  {
    Regroup(EscapeChar(text[0]), Escape(text[1..]), [QUOTE] + tail);
  }

  lemma FirstLetter(k: string, c: char, rest: string)
    requires forall i :: 0 <= i < |k| ==> IsLetter(k[i])
    requires k + [QUOTE] <= EscapeChar(c) + rest
    ensures k != "" && k[0] == c && k[1..] + [QUOTE] <= rest
  {
    var e := EscapeChar(c);
    assert (k + [QUOTE])[0] == (e + rest)[0] == e[0];
    assert k != "" && e == [c];
    assert k[1..] + [QUOTE] == (k + [QUOTE])[1..];
    assert rest == (e + rest)[1..];
  }

  predicate NoQuotedEnd(text: string, k: string) {
    !(|text| > |k| && text[|text| - |k| - 1..] == [QUOTE] + k)
  }

  /** The text is not the name and does not end in a quote and the name. */
  predicate Clear(text: string, k: string) { text != k && NoQuotedEnd(text, k) }

  lemma OnlyQuoteEscapesToQuote(c: char, p: nat)
    requires p < |EscapeChar(c)| && EscapeChar(c)[p] == QUOTE
    ensures c == QUOTE && p == 1 && |EscapeChar(c)| == 2
  {
  }

  lemma {:induction false} ClosingFree(text: string, tail: string, k: string)
    requires IsName(k) && NoQuotedEnd(text, k) && |tail| <= 1
    ensures Free(Closing(text, tail), Quoted(k))
  {
    var c := Closing(text, tail);
    if text == "" {
      assert |c| <= 2;
    } else {
      var e, rest := EscapeChar(text[0]), Closing(text[1..], tail);
      assert c == e + rest;
      assert |text| - 1 > |k| ==> text[1..][|text| - 1 - |k| - 1..] == text[|text| - |k| - 1..];
      ClosingFree(text[1..], tail, k);
      forall p: nat ensures !OccursAt(c, Quoted(k), p) {
        if OccursAt(c, Quoted(k), p) {
          EscapedOccurrence(text, tail, k, p);
        }
      }
    }
  }

  lemma PrefixAfter(e: string, rest: string, k: string)
    requires |e| + |k| < |e + rest| && (e + rest)[|e| + |k|] == QUOTE
    requires forall j :: 0 <= j < |k| ==> (e + rest)[|e| + j] == k[j]
    ensures k + [QUOTE] <= rest
  {
    assert forall j :: 0 <= j <= |k| ==> rest[j] == (e + rest)[|e| + j];
  }

  lemma OccursLater(a: string, b: string, pat: string, p: nat)
    requires p >= |a| && OccursAt(a + b, pat, p)
    ensures OccursAt(b, pat, p - |a|)
  {
    assert (a + b)[p..p + |pat|] == b[p - |a|..p - |a| + |pat|];
  }

  lemma AtEscapedQuote(c: char, rest: string, k: string, p: nat)
    requires IsName(k) && p < |EscapeChar(c)| && OccursAt(EscapeChar(c) + rest, Quoted(k), p)
    ensures c == QUOTE && k + [QUOTE] <= rest
  {
    var e := EscapeChar(c);
    OccursMeans(e + rest, k, p);
    assert (e + rest)[p] == e[p];
    OnlyQuoteEscapesToQuote(c, p);
    PrefixAfter(e, rest, k);
  }

  /** An occurrence lies in the rest of the text or starts at an escaped quote. */
  lemma EscapedOccurrence(text: string, tail: string, k: string, p: nat)
    requires text != "" && IsName(k) && OccursAt(Closing(text, tail), Quoted(k), p)
    ensures (p >= |EscapeChar(text[0])| && OccursAt(Closing(text[1..], tail), Quoted(k), p - |EscapeChar(text[0])|))
            || text == [QUOTE] + k
  {
    var e, rest := EscapeChar(text[0]), Closing(text[1..], tail);
    ClosingUnfolds(text, tail);
    if p >= |e| {
      OccursLater(e, rest, Quoted(k), p);
    } else {
      AtEscapedQuote(text[0], rest, k, p);
      NameThenQuote(k, text[1..], tail);
      assert text == [text[0]] + text[1..];
    }
  }

  // ---- Inside a line ----

  predicate ValueClear(v: Value, k: string) { v.Str? ==> Clear(v.text, k) }

  lemma ValueFree(v: Value, last: bool, k: string)
    requires IsName(k) && ValueClear(v, k)
    ensures Free(ValueText(v) + Comma(last), Quoted(k))
  {
    var x := ValueText(v) + Comma(last);
    match v
    case Num(n) =>
      assert forall i :: 0 <= i < |Decimal(n)| ==> IsDigit(Decimal(n)[i]);
      forall p: nat ensures !OccursAt(x, Quoted(k), p) {
        if OccursAt(x, Quoted(k), p) {
          OccursMeans(x, k, p);
        }
      }
    case Str(text) =>
      var c := Closing(text, Comma(last));
      assert x == [QUOTE] + c;
      ClosingFree(text, Comma(last), k);
      forall p: nat ensures !OccursAt(x, Quoted(k), p) {
        if OccursAt(x, Quoted(k), p) {
          OpenedOccurrence(text, Comma(last), k, p);
        }
      }
  }

  lemma OpenedOccurrence(text: string, tail: string, k: string, p: nat)
    requires IsName(k) && OccursAt([QUOTE] + Closing(text, tail), Quoted(k), p)
    ensures text == k || (p >= 1 && OccursAt(Closing(text, tail), Quoted(k), p - 1))
  {
    var c := Closing(text, tail);
    var x := [QUOTE] + c;
    if p == 0 {
      OccursMeans(x, k, p);
      PrefixAfter([QUOTE], c, k);
      NameThenQuote(k, text, tail);
    } else {
      assert x[p..p + |Quoted(k)|] == c[p - 1..p - 1 + |Quoted(k)|];
    }
  }

  /** Characters of the part before the value. */
  lemma LeadChars(key: string, rest: string, p: nat)
    requires IsName(key) && p < |Lead(key)|
    ensures |Lead(key)| == |key| + 6
    ensures var c := (Lead(key) + rest)[p];
      (c == QUOTE <==> p == 2 || p == |key| + 3) && (3 <= p < |key| + 3 ==> c == key[p - 3])
      && (p == |key| + 4 ==> c == ':')
  {
    assert Lead(key) == "  " + [QUOTE] + key + [QUOTE] + ": ";
    assert (Lead(key) + rest)[p] == Lead(key)[p];
    assert 3 <= p < |key| + 3 ==> IsLetter(key[p - 3]);
  }

  lemma LeadOccurrence(key: string, rest: string, k: string, p: nat)
    requires IsName(key) && IsName(k) && OccursAt(Lead(key) + rest, Quoted(k), p)
    ensures k == key || (p >= |Lead(key)| && OccursAt(rest, Quoted(k), p - |Lead(key)|))
  {
    var x := Lead(key) + rest;
    if p >= |Lead(key)| {
      assert x[p..p + |Quoted(k)|] == rest[p - |Lead(key)|..p - |Lead(key)| + |Quoted(k)|];
    } else {
      OccursMeans(x, k, p);
      LeadChars(key, rest, p);
      LeadChars(key, rest, |key| + 3);
      LeadChars(key, rest, |key| + 4);
      assert IsLetter(k[0]) && x[p + 1] == k[0];
      assert p == 2;
      SameName(key, rest, k);
    }
  }

  lemma SameName(key: string, rest: string, k: string)
    requires IsName(key) && IsName(k)
    requires var x := Lead(key) + rest;
      |k| + 4 <= |x| && x[3 + |k|] == QUOTE && forall j :: 0 <= j < |k| ==> x[3 + j] == k[j]
    ensures k == key
  {
    var x := Lead(key) + rest;
    if |key| < |k| {
      assert x[3 + |key|] == k[|key|];
    }
    LeadChars(key, rest, |key| + 3);
    if |k| < |key| {
      LeadChars(key, rest, |k| + 3);
    }
    assert |k| == |key|;
    forall j | 0 <= j < |k| ensures k[j] == key[j] {
      LeadChars(key, rest, 3 + j);
    }
  }

  lemma LineFree(f: Field, last: bool, k: string)
    requires IsName(k) && IsName(f.key) && f.key != k && ValueClear(f.value, k)
    ensures Free(Line(f, last), Quoted(k))
  {
    ValueFree(f.value, last, k);
    forall p: nat ensures !OccursAt(Line(f, last), Quoted(k), p) {
      if OccursAt(Line(f, last), Quoted(k), p) {
        LeadOccurrence(f.key, ValueText(f.value) + Comma(last), k, p);
      }
    }
  }

  /** No earlier field has the name, or a value that could be taken for it. */
  predicate Passes(f: Field, k: string) { IsName(f.key) && f.key != k && ValueClear(f.value, k) }

  lemma {:induction false} OpenedFree(lines: seq<string>, n: nat, k: string)
    requires n <= |lines| && IsName(k) && forall j :: 0 <= j < n ==> Free(lines[j], Quoted(k))
    ensures Free(Opened(lines, n), Quoted(k))
  {
    if n == 0 {
      assert |Quoted(k)| > 1;
    } else {
      var before, line := Opened(lines, n - 1), lines[n - 1];
      OpenedFree(lines, n - 1, k);
      forall p: nat ensures !OccursAt(before + ['\n'] + line, Quoted(k), p) {
        if OccursAt(before + ['\n'] + line, Quoted(k), p) {
          FreeAcrossLines(before, line, k, p);
        }
      }
    }
  }

  // ---- The text around a line ----

  /** The lines from the n-th on, with the newlines after them, and the closing brace. */
  function Rest(lines: seq<string>, n: nat): string
    requires n <= |lines|
    decreases |lines| - n
  {
    if n == |lines| then "}\n" else lines[n] + (['\n'] + Rest(lines, n + 1))
  }

  lemma {:induction false} OpenedRest(lines: seq<string>, n: nat)
    requires n <= |lines|
    ensures Opened(lines, |lines|) + ['\n'] + "}\n" == Opened(lines, n) + ['\n'] + Rest(lines, n)
    decreases |lines| - n
  {
    if n < |lines| {
      OpenedRest(lines, n + 1);
      RegroupLine(Opened(lines, n), lines[n], Rest(lines, n + 1));
    }
  }

  lemma RegroupLine(a: string, line: string, tail: string)
    ensures a + ['\n'] + line + ['\n'] + tail == a + ['\n'] + (line + (['\n'] + tail))
  {
  }

  /** A field's value as it is printed. */
  function ValueOn(fields: seq<Field>, i: nat): string
    requires i < |fields|
  {
    ValueText(fields[i].value) + Comma(i + 1 == |fields|)
  }

  /** What follows the newline after a field's line. */
  function After(fields: seq<Field>, i: nat): string
    requires i < |fields|
  {
    Rest(LinesOf(fields), i + 1)
  }

  lemma RestIsLine(fields: seq<Field>, i: nat)
    requires i < |fields|
    ensures Rest(LinesOf(fields), i) == Lead(fields[i].key) + (ValueOn(fields, i) + (['\n'] + After(fields, i)))
  {
    var lines := LinesOf(fields);
    assert lines[i] == Lead(fields[i].key) + ValueOn(fields, i);
    Regroup(Lead(fields[i].key), ValueOn(fields, i), ['\n'] + After(fields, i));
  }

  lemma EarlierLinesFree(fields: seq<Field>, i: nat, k: string)
    requires i <= |fields| && IsName(k) && forall j :: 0 <= j < i ==> Passes(fields[j], k)
    ensures Free(Opened(LinesOf(fields), i), Quoted(k))
  {
    var lines := LinesOf(fields);
    forall j | 0 <= j < i ensures Free(lines[j], Quoted(k)) {
      assert Passes(fields[j], k);
      LineFree(fields[j], j + 1 == |fields|, k);
    }
    OpenedFree(lines, i, k);
  }
}
