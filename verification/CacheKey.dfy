/** The canonical cache key: what it is made of, how it is written into a bounded buffer, and
    that it tells apart exactly the requests that differ. */
module CacheKey {
  import opened Text
  import opened FieldOrder

  const MAX_FIELDS: nat := 16
  const EPOCH_BUFFER: nat := 32

  datatype VaryPart = VaryPart(name: Option<string>, value: Option<string>)

  datatype KeyInput = KeyInput(
    isGet: bool,
    route: Option<string>,
    path: Option<string>,
    query: Option<string>,
    fields: Option<seq<string>>,
    fieldCount: nat,
    policy: Option<string>,
    epoch: Option<nat>,
    vary: seq<VaryPart>,
    isPrivate: bool,
    scope: Option<string>,
    variant: bool)

  /** A field table has at least the rows counted. */
  predicate InputOk(input: KeyInput) { input.fields.Some? ==> input.fieldCount <= |input.fields.value| }

  /** The rows that take part: the first sixteen, empty names when there is no table. */
  function Rows(input: KeyInput): seq<string>
    requires InputOk(input)
  {
    var n := if input.fieldCount < MAX_FIELDS then input.fieldCount else MAX_FIELDS;
    if input.fields.Some? then input.fields.value[..n] else seq(n, i => "")
  }

  function OrEmpty(s: Option<string>): string { if s.Some? then s.value else "" }

  // ---- The text of a key ----

  datatype Content = Content(
    variant: bool,
    route: string,
    epoch: Option<nat>,
    path: string,
    query: string,
    fields: seq<string>,
    policy: string,
    vary: seq<(string, string)>,
    scope: Option<string>)

  /** The first n parts of a list, with commas between them. */
  function Join(parts: seq<string>, n: nat): string
    requires n <= |parts|
  {
    if n == 0 then "" else if n == 1 then parts[0] else Join(parts, n - 1) + "," + parts[n - 1]
  }

  function Item(first: bool, item: string): string { if first then item else "," + item }

  function List(parts: seq<string>): string { Join(parts, |parts|) }

  function Tag(variant: bool): string { if variant then "var:GET" else "GET" }

  function EpochText(epoch: Option<nat>): string {
    if epoch.Some? then "epoch:" + Decimal(epoch.value) + "|" else ""
  }

  function VaryParts(vary: seq<(string, string)>): seq<string> {
    seq(|vary|, i requires 0 <= i < |vary| => vary[i].0 + "=" + vary[i].1)
  }

  function VaryText(vary: seq<(string, string)>): string {
    if vary == [] then "" else "|vary:" + List(VaryParts(vary))
  }

  function ScopeText(scope: Option<string>): string {
    if scope.Some? then "|scope:" + scope.value else ""
  }

  function HeadText(variant: bool, route: string): string { Tag(variant) + "|" + route + "|" }

  function RequestText(epoch: Option<nat>, path: string, query: string): string {
    EpochText(epoch) + path + "|" + query + "|"
  }

  function BackText(fields: seq<string>, policy: string, vary: seq<(string, string)>): string {
    List(fields) + "|" + policy + VaryText(vary)
  }

  function Unscoped(c: Content): string {
    HeadText(c.variant, c.route) + (RequestText(c.epoch, c.path, c.query) + BackText(c.fields, c.policy, c.vary))
  }

  function Render(c: Content): string { Unscoped(c) + ScopeText(c.scope) }

  // ---- When a key is built ----

  predicate Named(part: VaryPart) { part.name.Some? && part.value.Some? }

  predicate AllNamed(vary: seq<VaryPart>) { forall i :: 0 <= i < |vary| ==> Named(vary[i]) }

  function PartText(part: VaryPart): string { OrEmpty(part.name) + "=" + OrEmpty(part.value) }

  predicate Complete(input: KeyInput) {
    && input.isGet && input.route.Some? && input.path.Some?
    && AllNamed(input.vary)
    && (input.isPrivate ==> OrEmpty(input.scope) != "")
  }

  function Pairs(vary: seq<VaryPart>): (r: seq<(string, string)>)
    ensures |r| == |vary|
  {
    seq(|vary|, i requires 0 <= i < |vary| => (OrEmpty(vary[i].name), OrEmpty(vary[i].value)))
  }

  function ContentOf(input: KeyInput): Content
    requires InputOk(input)
  {
    Content(input.variant, OrEmpty(input.route), input.epoch, OrEmpty(input.path), OrEmpty(input.query),
            Canonical(Rows(input)), OrEmpty(input.policy), Pairs(input.vary),
            if input.isPrivate then input.scope else None)
  }

  /** The buffer is large enough; a scope needs one byte more than the rest of the key would. */
  predicate Fits(c: Content, size: nat) {
    && |EpochText(c.epoch)| < EPOCH_BUFFER
    && |Unscoped(c)| < size
    && (c.scope.Some? ==> |Render(c)| + 1 < size)
  }

  function Built(input: KeyInput, size: nat): Option<string>
    requires InputOk(input)
  {
    if Complete(input) && Fits(ContentOf(input), size) then Some(Render(ContentOf(input))) else None
  }

  // ---- Writing into the buffer ----

  predicate Follows(before: string, after: string, first: bool, item: string) { after == before + Item(first, item) }

  /** `texts[i]` is the list of the first i items. */
  ghost predicate Accumulates(items: seq<string>, texts: seq<string>) {
    && |texts| == |items| + 1 && texts[0] == ""
    && (forall i :: 0 <= i < |items| ==> Follows(texts[i], texts[i + 1], i == 0, items[i]))
    && (forall i :: 0 <= i < |texts| ==> |texts[i]| <= |texts[|items|]|)
  }

  lemma JoinNext(items: seq<string>, i: nat)
    requires i < |items|
    ensures Follows(Join(items, i), Join(items, i + 1), i == 0, items[i])
  {
    if i > 0 {
      Regroup(Join(items, i), ",", items[i]);
    }
  }

  lemma JoinAccumulates(items: seq<string>) returns (texts: seq<string>)
    ensures Accumulates(items, texts) && texts[|items|] == List(items)
  {
    texts := seq(|items| + 1, i requires 0 <= i <= |items| => Join(items, i));
    forall i | 0 <= i < |items| ensures Follows(texts[i], texts[i + 1], i == 0, items[i]) {
      JoinNext(items, i);
    }
    forall i | 0 <= i < |texts| ensures |texts[i]| <= |texts[|items|]| {
      JoinGrows(items, i, |items|);
    }
  }

  lemma RegroupHead(start: string, prefix: string, route: string)
    ensures start + prefix + "GET|" + route + "|" == start + (prefix + "GET" + "|" + route + "|")
    ensures start + "GET|" + route + "|" == start + ("" + "GET" + "|" + route + "|")
    ensures |prefix + "GET" + "|" + route + "|"| == |prefix| + |route| + 5
  {
    assert "GET" + "|" == "GET|";
  }

  lemma RegroupPart(start: string, comma: string, name: string, value: string)
    ensures start + comma + name + "=" + value == start + (comma + (name + "=" + value))
    ensures start + name + "=" + value == start + (name + "=" + value)
    ensures |comma + (name + "=" + value)| == |comma| + |name| + |value| + 1
  {
  }

  lemma RegroupTarget(start: string, epoch: string, path: string, query: string)
    ensures start + epoch + path + "|" + query + "|" == start + (epoch + path + "|" + query + "|")
    ensures |epoch + path + "|" + query + "|"| == |epoch| + |path| + |query| + 2
  {
  }

  lemma RegroupBack(start: string, fields: string, policy: string, vary: string)
    ensures start + fields + "|" + policy + vary == start + (fields + "|" + policy + vary)
    ensures start + fields + "|" + vary == start + (fields + "|" + "" + vary)
    ensures |fields + "|" + policy + vary| == |fields| + 1 + |policy| + |vary|
  {
  }

  lemma RegroupAll(head: string, request: string, back: string)
    ensures head + request + back == head + (request + back)
    ensures |head + (request + back)| == |head| + |request| + |back|
  {
  }

  class KeyWriter {
    const buffer: array<char>
    var pos: nat
    var remaining: nat

    predicate Valid()
      reads this
    {
      pos + remaining + 1 == buffer.Length
    }

    function Text(): string
      requires Valid()
      reads this, buffer
    {
      buffer[..pos]
    }

    constructor (buffer: array<char>)
      requires buffer.Length > 0
      ensures Valid() && this.buffer == buffer && pos == 0
    {
      this.buffer := buffer;
      pos, remaining := 0, buffer.Length - 1;
    }

    /** key_append. */
    method Append(s: string) returns (ok: bool)
      requires Valid()
      modifies this, buffer
      ensures Valid() && ok == (|s| <= old(remaining))
      ensures Text() == old(Text()) + if ok then s else ""
    {
      if |s| > remaining {
        return false;
      }
      forall k | 0 <= k < |s| {
        buffer[pos + k] := s[k];
      }
      pos, remaining := pos + |s|, remaining - |s|;
      assert buffer[..pos] == old(buffer[..pos]) + s;
      ok := true;
    }

    method WriteHead(variant: bool, route: string) returns (ok: bool)
      requires Valid()
      modifies this, buffer
      ensures Valid() && ok == (|HeadText(variant, route)| <= old(remaining))
      ensures ok ==> Text() == old(Text()) + HeadText(variant, route)
    {
      RegroupHead(Text(), if variant then "var:" else "", route);
      if variant {
        ok := Append("var:");
        if !ok { return; }
      }
      ok := Append("GET|");
      if !ok { return; }
      ok := Append(route);
      if !ok { return; }
      ok := Append("|");
      assert Tag(variant) == (if variant then "var:" else "") + "GET";
    }

    method WriteEpoch(epoch: Option<nat>) returns (ok: bool)
      requires Valid()
      modifies this, buffer
      ensures Valid() && ok == (|EpochText(epoch)| < EPOCH_BUFFER && |EpochText(epoch)| <= old(remaining))
      ensures ok ==> Text() == old(Text()) + EpochText(epoch)
    {
      ok := true;
      if epoch.Some? {
        var text := "epoch:" + Decimal(epoch.value) + "|";
        if |text| >= EPOCH_BUFFER {
          return false;
        }
        ok := Append(text);
      }
    }

    method WriteTarget(path: string, query: Option<string>) returns (ok: bool)
      requires Valid()
      modifies this, buffer
      ensures Valid() && ok == (|path| + |OrEmpty(query)| + 2 <= old(remaining))
      ensures ok ==> Text() == old(Text()) + path + "|" + OrEmpty(query) + "|"
    {
      ok := Append(path);
      if !ok { return; }
      ok := Append("|");
      if !ok { return; }
      if query.Some? && query.value != "" {
        ok := Append(query.value);
        if !ok { return; }
      }
      ok := Append("|");
    }

    /** One list item, after a comma unless it is the first. */
    method WriteItem(first: bool, item: string) returns (ok: bool)
      requires Valid()
      modifies this, buffer
      ensures Valid() && ok == (|Item(first, item)| <= old(remaining)) && pos + remaining == old(pos + remaining)
      ensures ok ==> Text() == old(Text()) + Item(first, item)
    {
      if !first {
        ok := Append(",");
        if !ok { return; }
      }
      ok := Append(item);
    }

    method WriteItems(fields: seq<string>, ghost texts: seq<string>) returns (ok: bool)
      requires Valid() && Accumulates(fields, texts)
      modifies this, buffer
      ensures Valid() && ok == (|texts[|fields|]| <= old(remaining)) && pos + remaining == old(pos + remaining)
      ensures ok ==> Text() == old(Text()) + texts[|fields|]
    {
      var i := 0;
      ghost var start := Text();
      while i < |fields|
        invariant 0 <= i <= |fields| && Valid() && pos + remaining == old(pos + remaining)
        invariant Text() == start + texts[i]
      {
        assert Follows(texts[i], texts[i + 1], i == 0, fields[i]) && |texts[i + 1]| <= |texts[|fields|]|;
        Regroup(start, texts[i], Item(i == 0, fields[i]));
        ok := WriteItem(i == 0, fields[i]);
        if !ok { return; }
        i := i + 1;
      }
      ok := true;
    }

    method WriteFields(fields: seq<string>) returns (ok: bool)
      requires Valid()
      modifies this, buffer
      ensures Valid() && ok == (|List(fields)| + 1 <= old(remaining))
      ensures ok ==> Text() == old(Text()) + List(fields) + "|"
    {
      ghost var texts := JoinAccumulates(fields);
      ok := WriteItems(fields, texts);
      if !ok { return; }
      ok := Append("|");
    }

    method WritePart(first: bool, part: VaryPart) returns (ok: bool)
      requires Valid()
      modifies this, buffer
      ensures Valid() && pos + remaining == old(pos + remaining)
      ensures ok == (Named(part) && |Item(first, PartText(part))| <= old(remaining))
      ensures ok ==> Text() == old(Text()) + Item(first, PartText(part))
    {
      RegroupPart(Text(), if first then "" else ",", OrEmpty(part.name), OrEmpty(part.value));
      if !first {
        ok := Append(",");
        if !ok { return; }
      }
      if part.name.None? || part.value.None? {
        return false;
      }
      ok := Append(part.name.value);
      if !ok { return; }
      ok := Append("=");
      if !ok { return; }
      ok := Append(part.value.value);
    }

    method WriteParts(vary: seq<VaryPart>, ghost parts: seq<string>, ghost texts: seq<string>) returns (ok: bool)
      requires Valid() && |parts| == |vary| && Accumulates(parts, texts)
      requires forall i :: 0 <= i < |vary| ==> parts[i] == PartText(vary[i])
      modifies this, buffer
      ensures Valid() && pos + remaining == old(pos + remaining)
      ensures ok == (AllNamed(vary) && |texts[|parts|]| <= old(remaining))
      ensures ok ==> Text() == old(Text()) + texts[|parts|]
    {
      var i := 0;
      ghost var start := Text();
      while i < |vary|
        invariant 0 <= i <= |vary| && Valid() && pos + remaining == old(pos + remaining)
        invariant forall k :: 0 <= k < i ==> Named(vary[k])
        invariant Text() == start + texts[i]
      {
        assert Follows(texts[i], texts[i + 1], i == 0, parts[i]) && |texts[i + 1]| <= |texts[|parts|]|;
        Regroup(start, texts[i], Item(i == 0, parts[i]));
        ok := WritePart(i == 0, vary[i]);
        if !ok { return; }
        i := i + 1;
      }
      ok := true;
    }

    method WriteVary(vary: seq<VaryPart>) returns (ok: bool)
      requires Valid()
      modifies this, buffer
      ensures Valid()
      ensures ok == (AllNamed(vary) && |VaryText(Pairs(vary))| <= old(remaining))
      ensures ok ==> Text() == old(Text()) + VaryText(Pairs(vary))
    {
      if vary == [] {
        return true;
      }
      ok := Append("|vary:");
      if !ok { return; }
      ghost var parts := VaryParts(Pairs(vary));
      ghost var texts := JoinAccumulates(parts);
      Regroup(old(Text()), "|vary:", texts[|parts|]);
      ok := WriteParts(vary, parts, texts);
    }

    /** The snprintf of the scope, which counts its terminator against the remaining bytes. */
    method WriteScope(isPrivate: bool, scope: Option<string>) returns (ok: bool)
      requires Valid()
      modifies this, buffer
      ensures Valid()
      ensures ok == (!isPrivate || (OrEmpty(scope) != "" && |ScopeText(scope)| < old(remaining)))
      ensures ok ==> Text() == old(Text()) + ScopeText(if isPrivate then scope else None)
    {
      if !isPrivate {
        return true;
      }
      if scope.None? || scope.value == "" {
        return false;
      }
      var text := "|scope:" + scope.value;
      if |text| >= remaining {
        return false;
      }
      ok := Append(text);
    }
  }

  lemma {:induction false} JoinGrows(parts: seq<string>, m: nat, n: nat)
    requires m <= n <= |parts|
    ensures |Join(parts, m)| <= |Join(parts, n)|
  {
    if m < n {
      JoinGrows(parts, m, n - 1);
    }
  }

  method WriteRequest(w: KeyWriter, epoch: Option<nat>, path: string, query: Option<string>) returns (ok: bool)
    requires w.Valid()
    modifies w, w.buffer
    ensures w.Valid()
    ensures ok == (|EpochText(epoch)| < EPOCH_BUFFER && |RequestText(epoch, path, OrEmpty(query))| <= old(w.remaining))
    ensures ok ==> w.Text() == old(w.Text()) + RequestText(epoch, path, OrEmpty(query))
  {
    ghost var start, e, q := w.Text(), EpochText(epoch), OrEmpty(query);
    RegroupTarget(start, e, path, q);
    ok := w.WriteEpoch(epoch);
    if !ok { return; }
    ok := w.WriteTarget(path, query);
  }

  method WriteBack(w: KeyWriter, fields: seq<string>, policy: Option<string>, vary: seq<VaryPart>) returns (ok: bool)
    requires w.Valid()
    modifies w, w.buffer
    ensures w.Valid()
    ensures ok == (AllNamed(vary) && |BackText(fields, OrEmpty(policy), Pairs(vary))| <= old(w.remaining))
    ensures ok ==> w.Text() == old(w.Text()) + BackText(fields, OrEmpty(policy), Pairs(vary))
  {
    ghost var start, v := w.Text(), VaryText(Pairs(vary));
    RegroupBack(start, List(fields), OrEmpty(policy), v);
    ok := w.WriteFields(fields);
    if !ok { return; }
    if policy.Some? && policy.value != "" {
      ok := w.Append(policy.value);
      if !ok { return; }
    }
    ok := w.WriteVary(vary);
  }

  function FrontText(input: KeyInput, route: string, path: string): string {
    HeadText(input.variant, route) + RequestText(input.epoch, path, OrEmpty(input.query))
  }

  method WriteFront(w: KeyWriter, input: KeyInput, route: string, path: string) returns (ok: bool)
    requires w.Valid() && w.pos == 0
    modifies w, w.buffer
    ensures w.Valid()
    ensures ok == (|EpochText(input.epoch)| < EPOCH_BUFFER && |FrontText(input, route, path)| < w.buffer.Length)
    ensures ok ==> w.Text() == FrontText(input, route, path)
  {
    ghost var head, request := HeadText(input.variant, route), RequestText(input.epoch, path, OrEmpty(input.query));
    assert |FrontText(input, route, path)| == |head| + |request|;
    ok := w.WriteHead(input.variant, route);
    if !ok { return; }
    assert w.Text() == head;
    ok := WriteRequest(w, input.epoch, path, input.query);
  }

  /** build_cache_key. */
  method BuildCacheKey(input: KeyInput, buffer: array?<char>) returns (ok: bool)
    requires InputOk(input)
    modifies buffer
    ensures ok <==> buffer != null && Built(input, buffer.Length).Some?
    ensures ok ==> var key := Built(input, buffer.Length).value;
      |key| < buffer.Length && buffer[..|key|] == key && buffer[|key|] == '\0'
  {
    if !input.isGet || input.route.None? || input.path.None? || buffer == null || buffer.Length == 0 {
      return false;
    }
    var w := new KeyWriter(buffer);
    var fields := CanonicalFields(Rows(input));
    ghost var c := ContentOf(input);
    ghost var head, request, back := HeadText(c.variant, c.route), RequestText(c.epoch, c.path, c.query),
      BackText(c.fields, c.policy, c.vary);
    RegroupAll(head, request, back);
    ok := WriteFront(w, input, input.route.value, input.path.value);
    if !ok { return; }
    ok := WriteBack(w, fields, input.policy, input.vary);
    if !ok { return; }
    ok := w.WriteScope(input.isPrivate, input.scope);
    if !ok { return; }
    ghost var key := w.Text();
    buffer[w.pos] := '\0';
    assert buffer[..w.pos] == key;
  }

  /** Of the requests that can be keyed, exactly the private ones are refused by a buffer their key
      and its terminator would just fill. */
  lemma ExactFitIff(input: KeyInput)
    requires InputOk(input) && Complete(input) && |EpochText(input.epoch)| < EPOCH_BUFFER
    ensures Built(input, |Render(ContentOf(input))| + 1).Some? <==> !input.isPrivate
  {
  }

  /** One such request. */
  lemma ScopedKeyRefused() returns (input: KeyInput)
    ensures InputOk(input) && Complete(input) && Built(input, |Render(ContentOf(input))| + 1).None?
    ensures Built(input, |Render(ContentOf(input))| + 2).Some?
  {
    input := KeyInput(true, Some("r"), Some("/p"), None, None, 0, None, None, [], true, Some("s"), false);
    ExactFitIff(input);
  }
}
