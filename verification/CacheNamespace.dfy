/** Which cached keys belong to a route's old epoch: the text tests of the namespace cleanup. */
module CacheNamespace {
  import opened Text

  const MARKER_MAX: nat := 511

  datatype CleanupRequest = CleanupRequest(route: Option<string>, epoch: nat, identity: Option<string>)

  function Cut(s: string, n: nat): string { if |s| <= n then s else s[..n] }

  function FullMarker(route: string, epoch: nat): string { "|" + route + "|epoch:" + Decimal(epoch) + "|" }

  /** The marker as it fits the 512-byte buffer. */
  function Marker(route: string, epoch: nat): string { Cut(FullMarker(route, epoch), MARKER_MAX) }

  /** The position just after the n-th pipe at or after p. */
  function SkipPipes(key: string, p: nat, n: nat): (r: Option<nat>)
    requires p <= |key|
    ensures r.Some? ==> p <= r.value <= |key|
    decreases |key| - p
  {
    if n == 0 then Some(p)
    else if p == |key| then None
    else SkipPipes(key, p + 1, if key[p] == '|' then n - 1 else n)
  }

  /** The end of the segment that starts at p. */
  function SegmentEnd(key: string, p: nat): (q: nat)
    requires p <= |key|
    ensures p <= q <= |key|
    ensures '|' !in key[p..q] && (q < |key| ==> key[q] == '|')
    decreases |key| - p
  {
    if p == |key| || key[p] == '|' then p
    else
      var q := SegmentEnd(key, p + 1);
      assert key[p..q] == [key[p]] + key[p + 1..q];
      q
  }

  predicate Unrestricted(identity: Option<string>) { identity.None? || identity.value == "" }

  predicate PolicyIs(key: string, p: nat, identity: string)
    requires p <= |key|
  {
    var at := SkipPipes(key, p, 3);
    at.Some? && key[at.value..SegmentEnd(key, at.value)] == identity
  }

  /** The keys a cleanup clears. */
  predicate Doomed(key: string, marker: string, identity: Option<string>) {
    var at := FindFrom(key, marker, 0);
    at.Some? && (Unrestricted(identity) || PolicyIs(key, at.value + |marker|, identity.value))
  }

  method KeyIsDoomed(key: string, marker: string, identity: Option<string>) returns (doomed: bool)
    ensures doomed <==> Doomed(key, marker, identity)
  {
    var at := FindFrom(key, marker, 0);
    if at.None? {
      return false;
    }
    if identity.None? || identity.value == "" {
      return true;
    }
    var p, pipes := at.value + |marker|, 0;
    ghost var start := p;
    while p < |key| && pipes < 3
      invariant start <= p <= |key| && 0 <= pipes <= 3
      invariant SkipPipes(key, start, 3) == SkipPipes(key, p, 3 - pipes)
      decreases |key| - p
    {
      if key[p] == '|' {
        pipes := pipes + 1;
      }
      p := p + 1;
    }
    if pipes < 3 {
      return false;
    }
    var end := p;
    while end < |key| && key[end] != '|'
      invariant p <= end <= |key| && SegmentEnd(key, p) == SegmentEnd(key, end)
      decreases |key| - end
    {
      end := end + 1;
    }
    doomed := key[p..end] == identity.value;
  }
}
