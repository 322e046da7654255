/** What the scanner reads for a field of a printed record: the value of its source line, as far as that
    can be read as a string or as a number. */
module JsonReads {
  import opened Text
  import opened JsonText
  import opened JsonFields
  import opened JsonClash

  /** A line read as a string. On a number's line the next quoted text is the key of the line after it. */
  function LineString(fields: seq<Field>, l: nat): string
    requires l < |fields|
  {
    match fields[l].value
    case Str(text) => Garbled(text)
    case Num(_) => if l + 1 < |fields| then fields[l + 1].key else ""
  }

  function Trimmed(text: string): string { if text != "" && text[0] == ' ' then Trimmed(text[1..]) else text }

  function LeadingDigits(text: string): (d: string)
    ensures AllDigits(d)
  {
    if text != "" && IsDigit(text[0]) then [text[0]] + LeadingDigits(text[1..]) else ""
  }

  /** A line read as a number: of a string, its leading digits behind spaces, or zero. */
  function LineNumber(fields: seq<Field>, l: nat): Option<nat>
    requires l < |fields|
  {
    match fields[l].value
    case Num(n) => Ranged(n)
    case Str(text) => Ranged(Numeral(LeadingDigits(Trimmed(text))))
  }

  // ---- Strings ----

  lemma QuoteFrom(json: string, from: nat, between: string, body: string)
    requires from <= |json| && json[from..] == between + ([QUOTE] + body) && QUOTE !in between
    ensures StringAt(json, from) == Decode(body)
  {
    FirstAfter(json, from, between, QUOTE, body);
    var at := from + |between|;
    assert json[at + 1..] == json[at..][1..] == body;
  }

  lemma QuoteAfter(json: string, k: string, between: string, body: string)
    requires LeadsTo(json, k, between + ([QUOTE] + body)) && QUOTE !in between
    ensures GetString(json, k) == Decode(body)
  {
    Regroup([':'], between, [QUOTE] + body);
    QuoteFrom(json, FindColon(json, k).value, [':'] + between, body);
  }

  lemma StringBehind(json: string, k: string, text: string, comma: string, rest: string)
    requires LeadsTo(json, k, [' '] + (ValueText(Str(text)) + comma + rest))
    ensures GetString(json, k) == Garbled(text)
  {
    RegroupValue(Escape(text), comma, rest);
    QuoteAfter(json, k, " ", Escape(text) + ([QUOTE] + (comma + rest)));
    DecodeEscaped(text, comma + rest);
  }

  lemma RegroupValue(text: string, comma: string, rest: string)
    ensures [' '] + ([QUOTE] + (text + [QUOTE]) + comma + rest)
            == " " + ([QUOTE] + (text + ([QUOTE] + (comma + rest))))
  {
  }

  lemma NextKeyRead(json: string, k: string, digits: string, key: string, rest: string)
    requires IsName(key) && AllDigits(digits)
    requires LeadsTo(json, k, [' '] + (digits + "," + (['\n'] + ("  " + Quoted(key) + rest))))
    ensures GetString(json, k) == key
  {
    RegroupKey(digits, key, rest);
    QuoteAfter(json, k, " " + digits + ",\n  ", key + ([QUOTE] + rest));
    EscapeLetters(key);
    DecodeEscaped(key, rest);
    GarbledIff(key);
  }

  lemma RegroupKey(digits: string, key: string, rest: string)
    ensures [' '] + (digits + "," + (['\n'] + ("  " + Quoted(key) + rest)))
            == " " + digits + ",\n  " + ([QUOTE] + (key + ([QUOTE] + rest)))
  {
  }

  /** A string field is read as its source line. */
  lemma StringRead(fields: seq<Field>, i: nat)
    requires i < |fields| && NamedApart(fields) && fields[i].value.Str?
    ensures GetString(Printed(fields), fields[i].key) == LineString(fields, SourceLine(fields, i))
  {
    var json, k, l := Printed(fields), fields[i].key, SourceLine(fields, i);
    SourceColon(fields, i);
    match fields[l].value
    case Str(text) =>
      StringBehind(json, k, text, Comma(l + 1 == |fields|), ['\n'] + After(fields, l));
    case Num(n) =>
      RestSplits(fields, l + 1);
      NextKeyRead(json, k, Decimal(n), fields[l + 1].key, [':'] + BehindColon(fields, l + 1));
  }

  // ---- Numbers ----

  predicate Skipped(c: char) { IsBlank(c) || c == QUOTE }

  lemma {:induction false} SkipsTo(json: string, i: nat, pre: string, rest: string)
    requires i <= |json| && json[i..] == pre + rest && rest != "" && !Skipped(rest[0])
    requires forall j :: 0 <= j < |pre| ==> Skipped(pre[j])
    ensures SkipBlank(json, i) == i + |pre|
    decreases |pre|
  {
    assert json[i] == json[i..][0];
    if pre != "" {
      assert json[i + 1..] == json[i..][1..] == pre[1..] + rest;
      SkipsTo(json, i + 1, pre[1..], rest);
    }
  }

  lemma {:induction false} DigitsStop(json: string, i: nat, digits: string, rest: string)
    requires i <= |json| && json[i..] == digits + rest
    requires AllDigits(digits) && rest != "" && !IsDigit(rest[0])
    ensures DigitsEnd(json, i) == i + |digits|
    decreases |digits|
  {
    assert json[i] == json[i..][0];
    if digits != "" {
      assert json[i + 1..] == json[i..][1..] == digits[1..] + rest;
      DigitsStop(json, i + 1, digits[1..], rest);
    }
  }

  lemma DigitsFrom(json: string, start: nat, digits: string, rest: string)
    requires start <= |json| && json[start..] == digits + rest && AllDigits(digits)
    requires rest != "" && !IsDigit(rest[0])
    ensures json[start..DigitsEnd(json, start)] == digits
  {
    DigitsStop(json, start, digits, rest);
    assert json[start..start + |digits|] == json[start..][..|digits|];
  }

  lemma NumberFrom(json: string, from: nat, pre: string, digits: string, rest: string)
    requires from <= |json| && json[from..] == pre + (digits + rest) && AllDigits(digits)
    requires forall j :: 0 <= j < |pre| ==> Skipped(pre[j])
    requires rest != "" && !IsDigit(rest[0]) && (digits == "" ==> !Skipped(rest[0]))
    ensures NumberAt(json, from) == Ranged(Numeral(digits))
  {
    SkipsTo(json, from, pre, digits + rest);
    assert json[from + |pre|..] == json[from..][|pre|..];
    DigitsFrom(json, from + |pre|, digits, rest);
  }

  lemma NumberAfter(json: string, k: string, pre: string, digits: string, rest: string)
    requires LeadsTo(json, k, pre + (digits + rest)) && AllDigits(digits)
    requires forall j :: 0 <= j < |pre| ==> Skipped(pre[j])
    requires rest != "" && !IsDigit(rest[0]) && (digits == "" ==> !Skipped(rest[0]))
    ensures GetUint64(json, k) == Ranged(Numeral(digits))
  {
    var colon := FindColon(json, k).value;
    assert json[colon + 1..] == json[colon..][1..] == pre + (digits + rest);
    NumberFrom(json, colon + 1, pre, digits, rest);
  }

  predicate Spaces(pre: string) { forall j :: 0 <= j < |pre| ==> pre[j] == ' ' }

  /** A text begins with spaces, then digits. */
  lemma {:induction false} TrimSplits(text: string) returns (pre: string)
    ensures text == pre + Trimmed(text) && Spaces(pre)
    ensures Trimmed(text) != "" ==> Trimmed(text)[0] != ' '
  {
    if text != "" && text[0] == ' ' {
      pre := TrimSplits(text[1..]);
      pre := " " + pre;
    } else {
      pre := "";
    }
  }

  lemma {:induction false} DigitsSplit(text: string) returns (rest: string)
    ensures text == LeadingDigits(text) + rest && (rest != "" ==> !IsDigit(rest[0]))
  {
    if text != "" && IsDigit(text[0]) {
      rest := DigitsSplit(text[1..]);
      assert text == [text[0]] + text[1..];
    } else {
      rest := text;
    }
  }

  predicate Plainly(c: char) { c == ' ' || IsDigit(c) }

  lemma {:induction false} EscapePlain(s: string)
    requires forall j :: 0 <= j < |s| ==> Plainly(s[j])
    ensures Escape(s) == s
  {
    if s != "" {
      assert Plainly(s[0]);
      EscapePlain(s[1..]);
      assert s == [s[0]] + s[1..];
    }
  }

  lemma SpacesSkipped(pre: string)
    requires Spaces(pre)
    ensures forall j :: 0 <= j < |[' '] + ([QUOTE] + pre)| ==> Skipped(([' '] + ([QUOTE] + pre))[j])
    ensures forall j :: 0 <= j < |[' '] + ([QUOTE] + pre) + [QUOTE]| ==> Skipped(([' '] + ([QUOTE] + pre) + [QUOTE])[j])
  {
  }

  lemma EscapeStarts(rest: string)
    requires rest != "" && !IsDigit(rest[0])
    ensures Escape(rest) != "" && !IsDigit(Escape(rest)[0]) && (rest[0] != ' ' ==> !Skipped(Escape(rest)[0]))
  {
    assert EscapeChar(rest[0])[0] == BACKSLASH || EscapeChar(rest[0]) == [rest[0]];
  }

  lemma RegroupBlank(pre: string, tail: string)
    ensures [' '] + ([QUOTE] + (pre + [QUOTE]) + "," + tail) == [' '] + ([QUOTE] + pre) + [QUOTE] + ("" + ("," + tail))
  {
  }

  lemma RegroupDigits(pre: string, digits: string, rest: string, tail: string)
    ensures [' '] + ([QUOTE] + (pre + (digits + rest) + [QUOTE]) + "," + tail)
            == [' '] + ([QUOTE] + pre) + (digits + (rest + ([QUOTE] + ("," + tail))))
  {
  }

  lemma BlankBehind(json: string, k: string, pre: string, tail: string)
    requires Spaces(pre) && LeadsTo(json, k, [' '] + ([QUOTE] + (pre + [QUOTE]) + "," + tail))
    ensures GetUint64(json, k) == Ranged(Numeral(""))
  {
    RegroupBlank(pre, tail);
    SpacesSkipped(pre);
    NumberAfter(json, k, [' '] + ([QUOTE] + pre) + [QUOTE], "", "," + tail);
  }

  /** What may stand behind the digits of an escaped text. */
  predicate Stops(digits: string, e: string) {
    if e == "" then digits != "" else !IsDigit(e[0]) && (digits == "" ==> !Skipped(e[0]))
  }

  lemma DigitsBehind(json: string, k: string, pre: string, digits: string, e: string, tail: string)
    requires Spaces(pre) && AllDigits(digits) && Stops(digits, e)
    requires LeadsTo(json, k, [' '] + ([QUOTE] + (pre + (digits + e) + [QUOTE]) + "," + tail))
    ensures GetUint64(json, k) == Ranged(Numeral(digits))
  {
    RegroupDigits(pre, digits, e, tail);
    SpacesSkipped(pre);
    var rest := e + ([QUOTE] + ("," + tail));
    assert rest[0] == if e == "" then QUOTE else e[0];
    NumberAfter(json, k, [' '] + ([QUOTE] + pre), digits, rest);
  }

  lemma EscapeSplits(text: string) returns (pre: string, e: string)
    ensures Spaces(pre) && Escape(text) == pre + (LeadingDigits(Trimmed(text)) + e)
    ensures Stops(LeadingDigits(Trimmed(text)), e) || (LeadingDigits(Trimmed(text)) == "" && e == "")
  {
    pre := TrimSplits(text);
    var rest := DigitsSplit(Trimmed(text));
    EscapePlain(pre);
    EscapePlain(LeadingDigits(Trimmed(text)));
    EscapeAppend(pre, Trimmed(text));
    EscapeAppend(LeadingDigits(Trimmed(text)), rest);
    e := Escape(rest);
    if rest != "" {
      EscapeStarts(rest);
    }
  }

  /** The number read from a string's line. */
  lemma NumberBehind(json: string, k: string, text: string, tail: string)
    requires LeadsTo(json, k, [' '] + (ValueText(Str(text)) + "," + tail))
    ensures GetUint64(json, k) == Ranged(Numeral(LeadingDigits(Trimmed(text))))
  {
    var pre, e := EscapeSplits(text);
    var digits := LeadingDigits(Trimmed(text));
    if Stops(digits, e) {
      DigitsBehind(json, k, pre, digits, e, tail);
    } else {
      assert pre + ("" + "") == pre;
      BlankBehind(json, k, pre, tail);
    }
  }

  lemma RegroupNumber(digits: string, comma: string, tail: string)
    ensures [' '] + (digits + comma + tail) == [' '] + (digits + (comma + tail))
  {
  }

  /** A number field is read as its source line. */
  lemma NumberRead(fields: seq<Field>, i: nat)
    requires i < |fields| && NamedApart(fields) && fields[i].value.Num?
    ensures GetUint64(Printed(fields), fields[i].key) == LineNumber(fields, SourceLine(fields, i))
  {
    var json, k, l := Printed(fields), fields[i].key, SourceLine(fields, i);
    var comma, tail := Comma(l + 1 == |fields|), ['\n'] + After(fields, l);
    SourceColon(fields, i);
    match fields[l].value
    case Num(n) =>
      RegroupNumber(Decimal(n), comma, tail);
      NumberAfter(json, k, [' '], Decimal(n), comma + tail);
      NumeralOfDecimal(n);
    case Str(text) =>
      NumberBehind(json, k, text, tail);
  }

  lemma ClashSource(fields: seq<Field>, j: nat, i: nat)
    requires j < i < |fields| && !ValueClear(fields[j].value, fields[i].key)
    requires forall n :: 0 <= n < j ==> ValueClear(fields[n].value, fields[i].key)
    ensures SourceLine(fields, i) == j + 1
  {
    LineFromMeans(fields, fields[i].key, 0, i);
  }

  /** After a first clash on line j a field is read from line j + 1. If that is its own line no harm is done. */
  lemma ClashReadsNext(fields: seq<Field>, j: nat, i: nat)
    requires j < i < |fields| && NamedApart(fields) && !ValueClear(fields[j].value, fields[i].key)
    requires forall n :: 0 <= n < j ==> ValueClear(fields[n].value, fields[i].key)
    ensures fields[i].value.Str? ==> GetString(Printed(fields), fields[i].key) == LineString(fields, j + 1)
    ensures fields[i].value.Num? ==> GetUint64(Printed(fields), fields[i].key) == LineNumber(fields, j + 1)
  {
    ClashSource(fields, j, i);
    if fields[i].value.Str? {
      StringRead(fields, i);
    } else {
      NumberRead(fields, i);
    }
  }
}
