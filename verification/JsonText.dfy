/** The hand-written JSON of the state records: escaping, printing one field per line, and the
    scanner that looks for the first quoted occurrence of a key. */
module JsonText {
  import opened Text

  const QUOTE: char := '"'
  const BACKSLASH: char := '\\'
  const UINT64: nat := 0x1_0000_0000_0000_0000
  const UINT32: nat := 0x1_0000_0000

  function HexDigit(d: nat): char
    requires d < 16
  {
    if d < 10 then ('0' as int + d) as char else ('a' as int + d - 10) as char
  }

  /** The digits after the backslash of a control character. */
  function UnicodeText(c: char): string
    requires c as int < 32
  {
    "u00" + [HexDigit(c as int / 16), HexDigit(c as int % 16)]
  }

  function EscapeChar(c: char): (r: string)
    ensures r != ""
  {
    if c == QUOTE then [BACKSLASH, QUOTE]
    else if c == BACKSLASH then [BACKSLASH, BACKSLASH]
    else if c == '\n' then [BACKSLASH, 'n']
    else if c == '\t' then [BACKSLASH, 't']
    else if c == '\r' then [BACKSLASH, 'r']
    else if c as int < 32 then [BACKSLASH] + UnicodeText(c)
    else [c]
  }

  function Escape(s: string): string {
    if s == "" then "" else EscapeChar(s[0]) + Escape(s[1..])
  }

  method EscapeOne(c: char) returns (out: string)
    ensures out == EscapeChar(c)
  {
    if c == QUOTE {
      out := [BACKSLASH, QUOTE];
    } else if c == BACKSLASH {
      out := [BACKSLASH, BACKSLASH];
    } else if c == '\n' {
      out := [BACKSLASH, 'n'];
    } else if c == '\t' {
      out := [BACKSLASH, 't'];
    } else if c == '\r' {
      out := [BACKSLASH, 'r'];
    } else if c as int < 32 {
      out := [BACKSLASH] + UnicodeText(c);
    } else {
      out := [c];
    }
  }

  method EscapeJsonString(input: string) returns (out: string)
    ensures out == Escape(input)
  {
    out := "";
    var i := 0;
    while i < |input|
      invariant 0 <= i <= |input| && out + Escape(input[i..]) == Escape(input)
    {
      assert input[i..][1..] == input[i + 1..];
      var text := EscapeOne(input[i]);
      Regroup(out, text, Escape(input[i + 1..]));
      out := out + text;
      i := i + 1;
    }
    assert out + "" == out;
  }

  // ---- The scanner ----

  function Unescape(next: char): char {
    if next == 'n' then '\n' else if next == 't' then '\t' else if next == 'r' then '\r' else next
  }

  /** The string value whose text starts here and runs to the next bare quote. */
  function Decode(t: string): string {
    if t == "" || t[0] == QUOTE then ""
    else if t[0] == BACKSLASH && |t| > 1 then [Unescape(t[1])] + Decode(t[2..])
    else [t[0]] + Decode(t[1..])
  }

  function Quoted(key: string): string { [QUOTE] + key + [QUOTE] }

  /** The position of the colon after the first quoted occurrence of a key. */
  function FindColon(json: string, key: string): (r: Option<nat>)
    ensures r.Some? ==> r.value < |json|
  {
    var pos := FindFrom(json, Quoted(key), 0);
    if pos.None? then None else FindFrom(json, ":", pos.value + |Quoted(key)|)
  }

  /** The string value behind a colon. */
  function StringAt(json: string, colon: nat): string {
    var quote := FindFrom(json, [QUOTE], colon);
    if quote.None? then "" else Decode(json[quote.value + 1..])
  }

  function GetString(json: string, key: string): string {
    var colon := FindColon(json, key);
    if colon.None? then "" else StringAt(json, colon.value)
  }

  predicate IsBlank(c: char) { c == ' ' || 9 <= c as int <= 13 }

  function SkipBlank(json: string, i: nat): (r: nat)
    requires i <= |json|
    ensures i <= r <= |json|
    decreases |json| - i
  {
    if i < |json| && (IsBlank(json[i]) || json[i] == QUOTE) then SkipBlank(json, i + 1) else i
  }

  function DigitsEnd(json: string, i: nat): (r: nat)
    requires i <= |json|
    ensures i <= r <= |json| && AllDigits(json[i..r])
    decreases |json| - i
  {
    if i < |json| && IsDigit(json[i]) then
      var r := DigitsEnd(json, i + 1);
      assert json[i..r] == [json[i]] + json[i + 1..r];
      r
    else i
  }

  /** std::stoull; None stands for the exception of an out-of-range number. */
  function Ranged(n: nat): Option<nat> { if n < UINT64 then Some(n) else None }

  /** The number behind a colon, zero when there are no digits. */
  function NumberAt(json: string, i: nat): Option<nat>
    requires i <= |json|
  {
    var start := SkipBlank(json, i);
    Ranged(Numeral(json[start..DigitsEnd(json, start)]))
  }

  /** An unsigned field, zero when absent. */
  function GetUint64(json: string, key: string): Option<nat> {
    var colon := FindColon(json, key);
    if colon.None? then Some(0) else NumberAt(json, colon.value + 1)
  }

  method GetJsonStringField(json: string, key: string) returns (val: string)
    ensures val == GetString(json, key)
  {
    var colon := FindColon(json, key);
    if colon.None? {
      return "";
    }
    var quote := FindFrom(json, [QUOTE], colon.value);
    if quote.None? {
      return "";
    }
    val := DecodeValue(json, quote.value + 1);
  }

  lemma DecodeStep(json: string, i: nat)
    requires i < |json| && json[i] != QUOTE
    ensures Decode(json[i..]) ==
            if json[i] == BACKSLASH && i + 1 < |json| then [Unescape(json[i + 1])] + Decode(json[i + 2..])
            else [json[i]] + Decode(json[i + 1..])
  {
    if json[i] == BACKSLASH && i + 1 < |json| {
      assert json[i..][2..] == json[i + 2..] && json[i..][1] == json[i + 1];
    } else {
      assert json[i..][1..] == json[i + 1..];
    }
  }

  /** The loop that collects the value up to its closing quote. */
  method DecodeValue(json: string, start: nat) returns (val: string)
    requires start <= |json|
    ensures val == Decode(json[start..])
  {
    val := "";
    var end := start;
    while end < |json| && json[end] != QUOTE
      invariant start <= end <= |json| && val + Decode(json[end..]) == Decode(json[start..])
      decreases |json| - end
    {
      DecodeStep(json, end);
      if json[end] == BACKSLASH && end + 1 < |json| {
        Regroup(val, [Unescape(json[end + 1])], Decode(json[end + 2..]));
        val := val + [Unescape(json[end + 1])];
        end := end + 2;
      } else {
        Regroup(val, [json[end]], Decode(json[end + 1..]));
        val := val + [json[end]];
        end := end + 1;
      }
    }
    assert val + "" == val;
  }

  method ScanBlank(json: string, i: nat) returns (start: nat)
    requires i <= |json|
    ensures start == SkipBlank(json, i)
  {
    start := i;
    while start < |json| && (IsBlank(json[start]) || json[start] == QUOTE)
      invariant i <= start <= |json| && SkipBlank(json, start) == SkipBlank(json, i)
      decreases |json| - start
    {
      start := start + 1;
    }
  }

  method ScanDigits(json: string, i: nat) returns (end: nat)
    requires i <= |json|
    ensures end == DigitsEnd(json, i)
  {
    end := i;
    while end < |json| && IsDigit(json[end])
      invariant i <= end <= |json| && DigitsEnd(json, end) == DigitsEnd(json, i)
      decreases |json| - end
    {
      end := end + 1;
    }
  }

  method GetJsonUint64Field(json: string, key: string) returns (r: Option<nat>)
    ensures r == GetUint64(json, key)
  {
    var colon := FindColon(json, key);
    if colon.None? {
      return Some(0);
    }
    var start := ScanBlank(json, colon.value + 1);
    var end := ScanDigits(json, start);
    if end == start {
      return Some(0);
    }
    r := Ranged(Numeral(json[start..end]));
  }

  // ---- Escaping is undone exactly for printable text ----

  /** A control character that is not newline, tab or carriage return. */
  predicate Lossy(c: char) { c as int < 32 && c != '\n' && c != '\t' && c != '\r' }

  predicate Printable(s: string) { forall i :: 0 <= i < |s| ==> !Lossy(s[i]) }

  /** What reading back makes of a text. */
  function Garbled(s: string): string {
    if s == "" then ""
    else (if Lossy(s[0]) then UnicodeText(s[0]) else [s[0]]) + Garbled(s[1..])
  }

  predicate Bare(c: char) { c != QUOTE && c != BACKSLASH }

  lemma DecodePlain(c: char, t: string)
    requires Bare(c)
    ensures Decode([c] + t) == [c] + Decode(t)
  {
    assert ([c] + t)[1..] == t;
  }

  lemma {:induction false} DecodeBare(s: string, t: string)
    requires forall i :: 0 <= i < |s| ==> Bare(s[i])
    ensures Decode(s + t) == s + Decode(t)
  {
    if s == "" {
      assert s + t == t;
    } else {
      assert s + t == [s[0]] + (s[1..] + t);
      DecodePlain(s[0], s[1..] + t);
      DecodeBare(s[1..], t);
    }
  }

  lemma DecodeUnicode(c: char, t: string)
    requires Lossy(c)
    ensures Decode(EscapeChar(c) + t) == UnicodeText(c) + Decode(t)
  {
    HexIsBare(c as int / 16);
    HexIsBare(c as int % 16);
    DecodeHex(HexDigit(c as int / 16), HexDigit(c as int % 16), t);
  }

  lemma DecodeHex(h: char, l: char, t: string)
    requires Bare(h) && Bare(l)
    ensures Decode([BACKSLASH] + ("u00" + [h, l]) + t) == "u00" + [h, l] + Decode(t)
  {
    var digits := ['0', '0', h, l];
    DecodeBare(digits, t);
    DecodeEscape('u', digits + t);
    assert "u00" + [h, l] == ['u'] + digits;
    assert [BACKSLASH] + (['u'] + digits) + t == [BACKSLASH, 'u'] + (digits + t);
    assert ['u'] + (digits + Decode(t)) == ['u'] + digits + Decode(t);
  }

  lemma HexIsBare(d: nat)
    requires d < 16
    ensures Bare(HexDigit(d))
  {
  }

  lemma DecodeEscape(next: char, t: string)
    ensures Decode([BACKSLASH, next] + t) == [Unescape(next)] + Decode(t)
  {
    assert ([BACKSLASH, next] + t)[2..] == t;
  }

  lemma DecodeEscapedChar(c: char, t: string)
    ensures Decode(EscapeChar(c) + t) == (if Lossy(c) then UnicodeText(c) else [c]) + Decode(t)
  {
    var u := EscapeChar(c) + t;
    if Lossy(c) {
      DecodeUnicode(c, t);
    } else if c == QUOTE || c == BACKSLASH || c == '\n' || c == '\t' || c == '\r' {
      assert u[2..] == t;
    } else {
      DecodePlain(c, t);
    }
  }

  lemma {:induction false} DecodeEscaped(s: string, rest: string)
    ensures Decode(Escape(s) + ([QUOTE] + rest)) == Garbled(s)
  {
    if s == "" {
      assert Escape(s) + ([QUOTE] + rest) == [QUOTE] + rest;
    } else {
      var t := Escape(s[1..]) + ([QUOTE] + rest);
      assert Escape(s) + ([QUOTE] + rest) == EscapeChar(s[0]) + t;
      DecodeEscapedChar(s[0], t);
      DecodeEscaped(s[1..], rest);
    }
  }

  lemma {:induction false} GarbledIff(s: string)
    ensures |Garbled(s)| >= |s| && (|Garbled(s)| == |s| <==> Printable(s)) && (Printable(s) ==> Garbled(s) == s)
  {
    if s != "" {
      GarbledIff(s[1..]);
      assert s == [s[0]] + s[1..];
      assert Printable(s) <==> !Lossy(s[0]) && Printable(s[1..]) by {
        assert forall i :: 0 <= i < |s[1..]| ==> s[1..][i] == s[i + 1];
        assert forall i :: 1 <= i < |s| ==> s[i] == s[1..][i - 1];
      }
    }
  }

  /** A string survives printing and reading exactly when it holds no control character other
      than newline, tab and carriage return. */
  lemma EscapeRoundTripIff(s: string, rest: string)
    ensures Decode(Escape(s) + ([QUOTE] + rest)) == s <==> Printable(s)
  {
    DecodeEscaped(s, rest);
    GarbledIff(s);
  }
}
