/** Where the scanner stops: at the field's own line, or in the first earlier string that is the key or
    ends in a quote and the key. The colon it takes is then that of the next line. */
module JsonClash {
  import opened Text
  import opened JsonText
  import opened JsonFields

  lemma {:induction false} EscapeAppend(a: string, b: string)
    ensures Escape(a + b) == Escape(a) + Escape(b)
  {
    if a == "" {
      assert a + b == b;
    } else {
      assert (a + b)[1..] == a[1..] + b;
      EscapeAppend(a[1..], b);
      Regroup(EscapeChar(a[0]), Escape(a[1..]), Escape(b));
    }
  }

  lemma {:induction false} EscapeLetters(k: string)
    requires forall i :: 0 <= i < |k| ==> IsLetter(k[i])
    ensures Escape(k) == k
  {
    if k != "" {
      assert IsLetter(k[0]);
      EscapeLetters(k[1..]);
      assert k == [k[0]] + k[1..];
    }
  }

  lemma OccursWithin(a: string, pat: string, b: string)
    ensures OccursAt(a + pat + b, pat, |a|)
  {
  }

  /** A value that is the name, or ends in a quote and the name, prints the quoted name. */
  lemma ClashOccurs(text: string, k: string, tail: string) returns (p: nat)
    requires IsName(k) && !Clear(text, k)
    ensures OccursAt([QUOTE] + Closing(text, tail), Quoted(k), p)
  {
    EscapeLetters(k);
    if text == k {
      p := 0;
      assert [QUOTE] + Closing(text, tail) == "" + Quoted(k) + tail;
      OccursWithin("", Quoted(k), tail);
    } else {
      var before := text[..|text| - |k| - 1];
      assert text == before + ([QUOTE] + k);
      EscapeAppend(before, [QUOTE] + k);
      EscapeAppend([QUOTE], k);
      assert Escape([QUOTE]) == [BACKSLASH, QUOTE];
      p := |Escape(before)| + 2;
      QuotedEnd(Escape(before), k, tail);
      OccursWithin([QUOTE] + Escape(before) + [BACKSLASH], Quoted(k), tail);
    }
  }

  lemma QuotedEnd(before: string, k: string, tail: string)
    ensures [QUOTE] + (before + ([BACKSLASH, QUOTE] + k) + ([QUOTE] + tail))
            == [QUOTE] + before + [BACKSLASH] + Quoted(k) + tail
  {
  }

  lemma OccursInside(a: string, b: string, c: string, pat: string, p: nat)
    requires OccursAt(b, pat, p)
    ensures OccursAt(a + (b + c), pat, |a| + p)
  {
    var text := a + (b + c);
    assert text[|a| + p..|a| + p + |pat|] == b[p..p + |pat|];
  }

  // ---- A quoted name in a value ends with the value ----

  lemma {:induction false} EndsClosing(text: string, tail: string, k: string, p: nat)
    requires IsName(k) && |tail| <= 1 && OccursAt(Closing(text, tail), Quoted(k), p)
    ensures p + |Quoted(k)| == |Escape(text)| + 1
  {
    if text != "" {
      var e := EscapeChar(text[0]);
      EscapedOccurrence(text, tail, k, p);
      if p >= |e| && OccursAt(Closing(text[1..], tail), Quoted(k), p - |e|) {
        EndsClosing(text[1..], tail, k, p - |e|);
      } else {
        QuotedNameAt(k, tail, p);
      }
    }
  }

  /** In the text that is a quote and a name there is only one place. */
  lemma QuotedNameAt(k: string, tail: string, p: nat)
    requires IsName(k) && OccursAt(Closing([QUOTE] + k, tail), Quoted(k), p) && |tail| <= 1
    ensures p + |Quoted(k)| == |Escape([QUOTE] + k)| + 1
  {
    EscapeAppend([QUOTE], k);
    EscapeLetters(k);
    var c := Closing([QUOTE] + k, tail);
    assert Escape([QUOTE]) == [BACKSLASH, QUOTE];
    assert c == [BACKSLASH, QUOTE] + k + [QUOTE] + tail;
    OccursMeans(c, k, p);
    assert c[0] == BACKSLASH;
    assert p <= 2;
    assert IsLetter(k[0]);
  }

  /** The opening quote, the escaped text and the closing quote of a string value. */
  lemma EndsValue(text: string, tail: string, k: string, p: nat)
    requires IsName(k) && |tail| <= 1 && OccursAt([QUOTE] + Closing(text, tail), Quoted(k), p)
    ensures p + |Quoted(k)| == |ValueText(Str(text))|
  {
    OpenedOccurrence(text, tail, k, p);
    if p >= 1 && OccursAt(Closing(text, tail), Quoted(k), p - 1) {
      EndsClosing(text, tail, k, p - 1);
    } else {
      EscapeLetters(k);
      NameAlone(k, tail, p);
    }
  }

  lemma NameAlone(k: string, tail: string, p: nat)
    requires IsName(k) && |tail| <= 1 && OccursAt([QUOTE] + Closing(k, tail), Quoted(k), p)
    ensures p + |Quoted(k)| == |Escape(k)| + 2
  {
    EscapeLetters(k);
    var c := [QUOTE] + Closing(k, tail);
    assert c == [QUOTE] + k + [QUOTE] + tail;
    OccursMeans(c, k, p);
    assert p <= 1;
    assert IsLetter(k[0]);
  }

  // ---- The line a field is read from ----

  /** The line after the first of the lines from j on that clashes with the key, or line i. */
  function LineFrom(fields: seq<Field>, k: string, j: nat, i: nat): (l: nat)
    requires j <= i < |fields|
    ensures j <= l <= i
    decreases i - j
  {
    if j == i then i
    else if !ValueClear(fields[j].value, k) then j + 1
    else LineFrom(fields, k, j + 1, i)
  }

  /** The line from which the i-th field is read. */
  function SourceLine(fields: seq<Field>, i: nat): (l: nat)
    requires i < |fields|
    ensures l <= i
  {
    LineFrom(fields, fields[i].key, 0, i)
  }

  lemma {:induction false} LineFromMeans(fields: seq<Field>, k: string, j: nat, i: nat)
    requires j <= i < |fields|
    ensures var l := LineFrom(fields, k, j, i);
            || (l == i && forall n :: j <= n < i ==> ValueClear(fields[n].value, k))
            || (j < l && !ValueClear(fields[l - 1].value, k)
                && forall n :: j <= n < l - 1 ==> ValueClear(fields[n].value, k))
    decreases i - j
  {
    if j < i && ValueClear(fields[j].value, k) {
      LineFromMeans(fields, k, j + 1, i);
    }
  }

  predicate NamedApart(fields: seq<Field>) {
    && (forall j :: 0 <= j < |fields| ==> IsName(fields[j].key))
    && (forall i, j :: 0 <= i < j < |fields| ==> fields[i].key != fields[j].key)
  }

  /** Every quoted name on the line of a clashing string ends with the string. */
  lemma EndsLine(key: string, text: string, k: string, p: nat)
    requires IsName(k) && IsName(key) && k != key
    requires OccursAt(Lead(key) + ([QUOTE] + Closing(text, ",")), Quoted(k), p)
    ensures p + |Quoted(k)| == |Lead(key)| + |ValueText(Str(text))|
  {
    LeadOccurrence(key, [QUOTE] + Closing(text, ","), k, p);
    EndsValue(text, ",", k, p - |Lead(key)|);
  }

  lemma ClashOnLine(key: string, text: string, k: string) returns (p: nat)
    requires IsName(k) && !Clear(text, k)
    ensures OccursAt(Lead(key) + ([QUOTE] + Closing(text, ",")), Quoted(k), p)
  {
    var value := [QUOTE] + Closing(text, ",");
    p := ClashOccurs(text, k, ",");
    OccursInside(Lead(key), value, "", Quoted(k), p);
    assert value + "" == value;
    p := |Lead(key)| + p;
  }

  /** The text stands on the line only so that one more character follows. */
  ghost predicate StandsAtEnd(line: string, q: string) {
    && |q| < |line| && OccursAt(line, q, |line| - 1 - |q|)
    && forall p: nat :: OccursAt(line, q, p) ==> p + |q| + 1 == |line|
  }

  lemma ClashLine(key: string, text: string, k: string)
    requires IsName(k) && IsName(key) && k != key && !Clear(text, k)
    ensures StandsAtEnd(Lead(key) + ([QUOTE] + Closing(text, ",")), Quoted(k))
  {
    var line := Lead(key) + ([QUOTE] + Closing(text, ","));
    assert |line| == |Lead(key)| + |ValueText(Str(text))| + 1;
    forall p: nat | OccursAt(line, Quoted(k), p) ensures p + |Quoted(k)| + 1 == |line| {
      EndsLine(key, text, k, p);
    }
    var at := ClashOnLine(key, text, k);
  }

  lemma OccursOnLine(a: string, line: string, b: string, q: string, p: nat)
    requires OccursAt(a + (line + b), q, p) && |a| <= p && p + |q| <= |a| + |line|
    ensures OccursAt(line, q, p - |a|)
  {
    var text := a + (line + b);
    assert line[p - |a|..p - |a| + |q|] == text[p..p + |q|];
  }

  lemma OccursBefore(a: string, b: string, q: string, p: nat)
    requires OccursAt(a + b, q, p) && p + |q| <= |a|
    ensures OccursAt(a, q, p)
  {
    assert a[p..p + |q|] == (a + b)[p..p + |q|];
  }

  /** A line with text before and after it. */
  predicate Around(json: string, before: string, line: string, rest: string) {
    json == before + ['\n'] + (line + (['\n'] + rest))
  }

  lemma NotEarlier(json: string, before: string, line: string, rest: string, q: string, p: nat)
    requires Around(json, before, line, rest)
    requires '\n' !in q && q != "" && Free(before, q) && StandsAtEnd(line, q) && p < |before| + |line| - |q|
    ensures !OccursAt(json, q, p)
  {
    if OccursAt(json, q, p) {
      assert json[|before|] == '\n';
      if p + |q| <= |before| {
        OccursBefore(before, ['\n'] + (line + (['\n'] + rest)), q, p);
      } else if p <= |before| {
        InOccurrence(json, q, p, |before|);
      } else {
        OccursOnLine(before + ['\n'], line, ['\n'] + rest, q, p);
      }
    }
  }

  lemma AtLineEnd(json: string, before: string, line: string, rest: string, q: string)
    requires Around(json, before, line, rest) && StandsAtEnd(line, q)
    ensures OccursAt(json, q, |before| + |line| - |q|)
  {
    OccursInside(before + ['\n'], line, ['\n'] + rest, q, |line| - 1 - |q|);
  }

  /** What stands only at the end of a line, and not before that line, is found there. */
  lemma FoundAtEnd(json: string, before: string, line: string, rest: string, q: string)
    requires Around(json, before, line, rest)
    requires '\n' !in q && q != "" && Free(before, q) && StandsAtEnd(line, q)
    ensures FindFrom(json, q, 0) == Some(|before| + |line| - |q|)
  {
    AtLineEnd(json, before, line, rest, q);
    forall p: nat | p < |before| + |line| - |q| ensures !OccursAt(json, q, p) {
      NotEarlier(json, before, line, rest, q, p);
    }
    FirstOccurrence(json, q, 0, |before| + |line| - |q|);
  }

  // ---- From the quoted name to the colon ----

  lemma FirstChar(json: string, c: char, from: nat, at: nat)
    requires from <= at < |json| && json[at] == c && forall p :: from <= p < at ==> json[p] != c
    ensures FindFrom(json, [c], from) == Some(at)
  {
    assert json[at..at + 1] == [c];
    forall p: nat | from <= p < at ensures !OccursAt(json, [c], p) {
      assert json[p..p + 1] == [json[p]];
    }
    FirstOccurrence(json, [c], from, at);
  }

  lemma FirstAfter(json: string, from: nat, between: string, c: char, rest: string)
    requires from <= |json| && json[from..] == between + ([c] + rest) && c !in between
    ensures FindFrom(json, [c], from) == Some(from + |between|) && json[from + |between|..] == [c] + rest
  {
    var at, tail := from + |between|, json[from..];
    assert json[at..] == tail[|between|..];
    assert json[at] == tail[|between|] == c;
    forall p | from <= p < at ensures json[p] != c {
      assert json[p] == tail[p - from] == between[p - from];
    }
    FirstChar(json, c, from, at);
  }

  lemma ColonFrom(json: string, k: string, at: nat)
    requires FindFrom(json, Quoted(k), 0) == Some(at)
    ensures FindColon(json, k) == FindFrom(json, [':'], at + |Quoted(k)|)
  {
  }

  /** Looking for the key ends at a colon with this text behind it. */
  predicate LeadsTo(json: string, k: string, rest: string) {
    FindColon(json, k).Some? && json[FindColon(json, k).value..] == [':'] + rest
  }

  /** What stands behind the colon of a field's line. */
  function BehindColon(fields: seq<Field>, l: nat): string
    requires l < |fields|
  {
    [' '] + (ValueOn(fields, l) + (['\n'] + After(fields, l)))
  }

  lemma LeadSplits(key: string, rest: string)
    ensures Lead(key) + rest == "  " + Quoted(key) + ([':'] + ([' '] + rest))
  {
  }

  lemma RestSplits(fields: seq<Field>, l: nat)
    requires l < |fields|
    ensures Rest(LinesOf(fields), l) == "  " + Quoted(fields[l].key) + ([':'] + BehindColon(fields, l))
  {
    RestIsLine(fields, l);
    LeadSplits(fields[l].key, ValueOn(fields, l) + (['\n'] + After(fields, l)));
  }

  // ---- The field's own line ----

  lemma NotBefore(before: string, line: string, k: string, p: nat)
    requires IsName(k) && Free(before, Quoted(k)) && p < |before| + 3
    requires |line| >= 2 && line[0] == ' ' && line[1] == ' '
    ensures !OccursAt(before + ['\n'] + line, Quoted(k), p)
  {
    var json := before + ['\n'] + line;
    assert json[|before| + 1] == ' ' && json[|before| + 2] == ' ';
    if OccursAt(json, Quoted(k), p) {
      FreeAcrossLines(before, line, k, p);
      OccursMeans(json, k, p);
    }
  }

  lemma Stands(before: string, q: string, rest: string)
    ensures OccursAt(before + ['\n'] + ("  " + q + rest), q, |before| + 3)
  {
    var json := before + ['\n'] + ("  " + q + rest);
    assert json == before + ['\n', ' ', ' '] + q + rest;
  }

  /** The first occurrence of the quoted name. */
  lemma FirstNamedAt(before: string, k: string, rest: string)
    requires IsName(k) && Free(before, Quoted(k))
    ensures FindFrom(before + ['\n'] + ("  " + Quoted(k) + rest), Quoted(k), 0) == Some(|before| + 3)
  {
    var q := Quoted(k);
    var line := "  " + q + rest;
    Stands(before, q, rest);
    forall p: nat | p < |before| + 3 ensures !OccursAt(before + ['\n'] + line, q, p) {
      NotBefore(before, line, k, p);
    }
    FirstOccurrence(before + ['\n'] + line, q, 0, |before| + 3);
  }

  lemma AfterName(before: string, q: string, rest: string)
    ensures (before + ['\n'] + ("  " + q + rest))[|before| + 3 + |q|..] == rest
  {
    assert before + ['\n'] + ("  " + q + rest) == before + ['\n', ' ', ' '] + q + rest;
  }

  lemma OwnColon(json: string, before: string, k: string, rest: string)
    requires IsName(k) && Free(before, Quoted(k))
    requires json == before + ['\n'] + ("  " + Quoted(k) + ([':'] + rest))
    ensures LeadsTo(json, k, rest)
  {
    FirstNamedAt(before, k, [':'] + rest);
    AfterName(before, Quoted(k), [':'] + rest);
    ColonFrom(json, k, |before| + 3);
    FirstAfter(json, |before| + 3 + |Quoted(k)|, "", ':', rest);
  }

  lemma EarlierPass(fields: seq<Field>, j: nat, i: nat)
    requires j <= i < |fields| && NamedApart(fields)
    requires forall n :: 0 <= n < j ==> ValueClear(fields[n].value, fields[i].key)
    ensures forall n :: 0 <= n < j ==> Passes(fields[n], fields[i].key)
  {
  }

  lemma OwnLine(fields: seq<Field>, i: nat)
    requires i < |fields| && NamedApart(fields) && forall j :: 0 <= j < i ==> ValueClear(fields[j].value, fields[i].key)
    ensures LeadsTo(Printed(fields), fields[i].key, BehindColon(fields, i))
  {
    EarlierPass(fields, i, i);
    OpenedRest(LinesOf(fields), i);
    RestSplits(fields, i);
    EarlierLinesFree(fields, i, fields[i].key);
    OwnColon(Printed(fields), Opened(LinesOf(fields), i), fields[i].key, BehindColon(fields, i));
  }

  // ---- The line after a clash ----

  lemma NameBeforeColon(key: string)
    requires IsName(key)
    ensures ':' !in ",\n  " + Quoted(key)
  {
  }

  predicate EndsInComma(line: string) { line != "" && line[|line| - 1] == ',' }

  lemma NextColon(json: string, before: string, line: string, k: string, key: string, rest: string)
    requires IsName(k) && IsName(key) && Free(before, Quoted(k)) && StandsAtEnd(line, Quoted(k)) && EndsInComma(line)
    requires Around(json, before, line, "  " + Quoted(key) + ([':'] + rest))
    ensures LeadsTo(json, k, rest)
  {
    NameHasNoNewline(k);
    FoundAtEnd(json, before, line, "  " + Quoted(key) + ([':'] + rest), Quoted(k));
    ColonFrom(json, k, |before| + |line| - |Quoted(k)|);
    CommaAfter(json, before, line, Quoted(key), rest);
    NameBeforeColon(key);
    FirstAfter(json, |before| + |line|, ",\n  " + Quoted(key), ':', rest);
  }

  lemma CommaAfter(json: string, before: string, line: string, q: string, rest: string)
    requires Around(json, before, line, "  " + q + ([':'] + rest)) && EndsInComma(line)
    ensures |before| + |line| <= |json|
    ensures json[|before| + |line|..] == ",\n  " + q + ([':'] + rest)
  {
    var tail, head := "  " + q + ([':'] + rest), line[..|line| - 1];
    assert line == head + ",";
    assert json == (before + ['\n'] + head) + ("," + (['\n'] + tail));
    assert "," + (['\n'] + tail) == ",\n  " + q + ([':'] + rest);
  }

  lemma ClashLineText(fields: seq<Field>, j: nat)
    requires j + 1 < |fields| && fields[j].value.Str?
    ensures LinesOf(fields)[j] == Lead(fields[j].key) + ([QUOTE] + Closing(fields[j].value.text, ","))
    ensures EndsInComma(LinesOf(fields)[j])
  {
    var text := fields[j].value.text;
    assert [QUOTE] + (Escape(text) + [QUOTE]) + "," == [QUOTE] + Closing(text, ",");
  }

  /** The first clashing line holds the quoted key at its end, and no earlier text holds it. */
  lemma ClashStands(fields: seq<Field>, j: nat, i: nat)
    requires j < i < |fields| && NamedApart(fields) && !ValueClear(fields[j].value, fields[i].key)
    requires forall n :: 0 <= n < j ==> ValueClear(fields[n].value, fields[i].key)
    ensures Free(Opened(LinesOf(fields), j), Quoted(fields[i].key))
    ensures StandsAtEnd(LinesOf(fields)[j], Quoted(fields[i].key)) && EndsInComma(LinesOf(fields)[j])
  {
    EarlierPass(fields, j, i);
    EarlierLinesFree(fields, j, fields[i].key);
    ClashLineText(fields, j);
    ClashLine(fields[j].key, fields[j].value.text, fields[i].key);
  }

  /** A line that is not the last, and the next. */
  lemma LineAround(fields: seq<Field>, j: nat)
    requires j + 1 < |fields|
    ensures Around(Printed(fields), Opened(LinesOf(fields), j), LinesOf(fields)[j],
                   "  " + Quoted(fields[j + 1].key) + ([':'] + BehindColon(fields, j + 1)))
  {
    OpenedRest(LinesOf(fields), j);
    RestSplits(fields, j + 1);
  }

  lemma NextLine(fields: seq<Field>, j: nat, i: nat)
    requires j < i < |fields| && NamedApart(fields) && !ValueClear(fields[j].value, fields[i].key)
    requires forall n :: 0 <= n < j ==> ValueClear(fields[n].value, fields[i].key)
    ensures LeadsTo(Printed(fields), fields[i].key, BehindColon(fields, j + 1))
  {
    var lines := LinesOf(fields);
    ClashStands(fields, j, i);
    LineAround(fields, j);
    NextColon(Printed(fields), Opened(lines, j), lines[j], fields[i].key, fields[j + 1].key,
              BehindColon(fields, j + 1));
  }

  /** The colon the scanner takes for a field is that of its source line. */
  lemma SourceColon(fields: seq<Field>, i: nat)
    requires i < |fields| && NamedApart(fields)
    ensures LeadsTo(Printed(fields), fields[i].key, BehindColon(fields, SourceLine(fields, i)))
  {
    LineFromMeans(fields, fields[i].key, 0, i);
    if forall n :: 0 <= n < i ==> ValueClear(fields[n].value, fields[i].key) {
      OwnLine(fields, i);
    } else {
      NextLine(fields, SourceLine(fields, i) - 1, i);
    }
  }

  // ---- Where the search stops ----

  lemma {:induction false} OpenedGrows(lines: seq<string>, j: nat, i: nat)
    requires j < i <= |lines|
    ensures |Opened(lines, j)| + |lines[j]| < |Opened(lines, i)|
  {
    if j + 1 < i {
      OpenedGrows(lines, j, i - 1);
    }
  }

  /** The first quoted occurrence of the i-th key is the one on its own line. */
  predicate AtOwnLine(fields: seq<Field>, i: nat)
    requires i < |fields|
  {
    FindFrom(Printed(fields), Quoted(fields[i].key), 0) == Some(|Opened(LinesOf(fields), i)| + 3)
  }

  lemma OwnFound(fields: seq<Field>, i: nat)
    requires i < |fields| && NamedApart(fields) && forall j :: 0 <= j < i ==> ValueClear(fields[j].value, fields[i].key)
    ensures AtOwnLine(fields, i)
  {
    EarlierPass(fields, i, i);
    OpenedRest(LinesOf(fields), i);
    RestSplits(fields, i);
    EarlierLinesFree(fields, i, fields[i].key);
    FirstNamedAt(Opened(LinesOf(fields), i), fields[i].key, [':'] + BehindColon(fields, i));
  }

  lemma ClashStopsEarly(fields: seq<Field>, j: nat, i: nat)
    requires j < i < |fields| && NamedApart(fields) && !ValueClear(fields[j].value, fields[i].key)
    requires forall n :: 0 <= n < j ==> ValueClear(fields[n].value, fields[i].key)
    ensures !AtOwnLine(fields, i)
  {
    var k, lines := fields[i].key, LinesOf(fields);
    ClashStands(fields, j, i);
    OpenedRest(lines, j);
    NameHasNoNewline(k);
    FoundAtEnd(Printed(fields), Opened(lines, j), lines[j], Rest(lines, j + 1), Quoted(k));
    OpenedGrows(lines, j, i);
  }

  /** The scanner finds a field at its own line if and only if no earlier string is the key or
      ends in a quote and the key. */
  lemma FoundAtOwnLineIff(fields: seq<Field>, i: nat)
    requires i < |fields| && NamedApart(fields)
    ensures AtOwnLine(fields, i) <==> forall j :: 0 <= j < i ==> ValueClear(fields[j].value, fields[i].key)
  {
    LineFromMeans(fields, fields[i].key, 0, i);
    if forall j :: 0 <= j < i ==> ValueClear(fields[j].value, fields[i].key) {
      OwnFound(fields, i);
    } else {
      ClashStopsEarly(fields, SourceLine(fields, i) - 1, i);
    }
  }
}
