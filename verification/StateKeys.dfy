/** The flat key layout of the policy state database. */
module StateKeys {
  import opened Text

  datatype ResourceKey = ResourceKey(namespaceName: string, policyName: string)

  predicate SlashFree(s: string) { '/' !in s }

  predicate SlashFreeKey(key: ResourceKey) {
    SlashFree(key.namespaceName) && SlashFree(key.policyName)
  }

  /** The generation field is formatted into a 16 byte buffer, so 15 characters survive. */
  const GENERATION_WIDTH := 10
  const GENERATION_BUFFER := 15
  const GENERATION_LIMIT: nat := 1_000_000_000_000_000

  function Zeros(k: nat): (s: string)
    ensures |s| == k && AllDigits(s)
    ensures forall i :: 0 <= i < k ==> s[i] == '0'
  {
    seq(k, _ => '0')
  }

  function Padded(generation: nat): (s: string)
    ensures AllDigits(s) && |s| >= GENERATION_WIDTH
  {
    var d := Decimal(generation);
    if |d| < GENERATION_WIDTH then Zeros(GENERATION_WIDTH - |d|) + d else d
  }

  function FormatGeneration(generation: nat): (s: string)
    ensures AllDigits(s) && GENERATION_WIDTH <= |s| <= GENERATION_BUFFER
  {
    var s := Padded(generation);
    if |s| > GENERATION_BUFFER then s[..GENERATION_BUFFER] else s
  }

  function PolicyPrefix(key: ResourceKey): string {
    "v1/policies/" + key.namespaceName + "/" + key.policyName
  }

  function ToString(key: ResourceKey): string {
    "policy/" + key.namespaceName + "/" + key.policyName
  }

  function ActiveKey(key: ResourceKey): string { PolicyPrefix(key) + "/active" }

  function VersionKey(key: ResourceKey, generation: nat): (s: string)
    ensures s != ""
  {
    PolicyPrefix(key) + "/versions/" + FormatGeneration(generation)
  }

  function YamlKey(key: ResourceKey, generation: nat): string {
    VersionKey(key, generation) + "/yaml"
  }

  function AuditKey(key: ResourceKey, applyId: string): string {
    PolicyPrefix(key) + "/audit/" + applyId
  }

  function JobKey(key: ResourceKey, jobId: string): string {
    PolicyPrefix(key) + "/jobs/" + jobId
  }

  // ---- Generations ----

  lemma {:induction false} NumeralIgnoresZeros(k: nat, s: string)
    requires AllDigits(s)
    ensures AllDigits(Zeros(k) + s) && Numeral(Zeros(k) + s) == Numeral(s)
    decreases k + |s|
  {
    var z := Zeros(k) + s;
    if s != "" {
      NumeralIgnoresZeros(k, s[..|s| - 1]);
      assert z[..|z| - 1] == Zeros(k) + s[..|s| - 1];
    } else if k > 0 {
      NumeralIgnoresZeros(k - 1, "");
      assert Zeros(k - 1) + "" == Zeros(k - 1);
      assert z[..k - 1] == Zeros(k - 1);
      assert z[k - 1] == '0';
    }
  }

  lemma LimitIsPow10()
    ensures GENERATION_LIMIT == Pow10(GENERATION_BUFFER)
  {
    assert Pow10(3) == 1000;
    assert Pow10(6) == 1_000_000;
    assert Pow10(9) == 1_000_000_000;
    assert Pow10(12) == 1_000_000_000_000;
  }

  /** Below the limit nothing is cut off and the formatted field reads back as the generation. */
  lemma FormatReadsBack(g: nat)
    requires g < GENERATION_LIMIT
    ensures Numeral(FormatGeneration(g)) == g
  {
    LimitIsPow10();
    DecimalWidth(g, GENERATION_BUFFER);
    NumeralOfDecimal(g);
    var d := Decimal(g);
    if |d| < GENERATION_WIDTH {
      NumeralIgnoresZeros(GENERATION_WIDTH - |d|, d);
    }
  }

  /** From the limit on, dropping the last digit does not change the formatted field. */
  lemma FormatDropsDigit(g: nat)
    requires g >= GENERATION_LIMIT
    ensures FormatGeneration(g) == FormatGeneration(g / 10)
  {
    LimitIsPow10();
    DecimalWidth(g, GENERATION_BUFFER);
    assert Decimal(g) == Decimal(g / 10) + [Digit(g % 10)];
    assert |Decimal(g / 10)| >= GENERATION_BUFFER;
    assert Decimal(g)[..GENERATION_BUFFER] == Decimal(g / 10)[..GENERATION_BUFFER];
  }

  /** A generation's field is taken from a smaller generation exactly from 10^15 on. */
  lemma FormatCollides(g: nat)
    ensures (exists h: nat :: h < g && FormatGeneration(h) == FormatGeneration(g)) <==> g >= GENERATION_LIMIT
  {
    if g >= GENERATION_LIMIT {
      FormatDropsDigit(g);
      assert g / 10 < g;
    } else if h: nat :| h < g && FormatGeneration(h) == FormatGeneration(g) {
      FormatReadsBack(g);
      FormatReadsBack(h);
    }
  }

  // ---- Order of version keys ----

  lemma {:induction false} LexSnoc(a: string, b: string, x: char, y: char)
    requires |a| == |b|
    ensures Less(a + [x], b + [y]) <==> Less(a, b) || (a == b && x < y)
  {
    if a == "" {
      assert (a + [x])[1..] == "" && (b + [y])[1..] == "";
      assert a + [x] == [x] && b + [y] == [y];
    } else {
      LexSnoc(a[1..], b[1..], x, y);
      assert (a + [x])[1..] == a[1..] + [x];
      assert (b + [y])[1..] == b[1..] + [y];
      assert a == [a[0]] + a[1..] && b == [b[0]] + b[1..];
    }
  }

  lemma {:induction false} LexIsNumeric(a: string, b: string)
    requires AllDigits(a) && AllDigits(b) && |a| == |b|
    ensures Less(a, b) <==> Numeral(a) < Numeral(b)
    ensures a == b <==> Numeral(a) == Numeral(b)
  {
    if a != "" {
      var n := |a| - 1;
      LexIsNumeric(a[..n], b[..n]);
      LexSnoc(a[..n], b[..n], a[n], b[n]);
      assert a == a[..n] + [a[n]] && b == b[..n] + [b[n]];
    }
  }

  lemma {:induction false} LexSamePrefix(p: string, a: string, b: string)
    ensures Less(p + a, p + b) <==> Less(a, b)
  {
    if p == "" {
      assert p + a == a && p + b == b;
    } else {
      LexSamePrefix(p[1..], a, b);
      assert (p + a)[1..] == p[1..] + a;
      assert (p + b)[1..] == p[1..] + b;
    }
  }

  /** Below 10^10 the database iterates a resource's versions in generation order. */
  lemma VersionKeyOrder(key: ResourceKey, g: nat, h: nat)
    requires g < Pow10(GENERATION_WIDTH) && h < Pow10(GENERATION_WIDTH)
    ensures Less(VersionKey(key, g), VersionKey(key, h)) <==> g < h
  {
    DecimalWidth(g, GENERATION_WIDTH);
    DecimalWidth(h, GENERATION_WIDTH);
    assert Pow10(GENERATION_WIDTH) <= GENERATION_LIMIT by {
      assert Pow10(3) == 1000;
      assert Pow10(6) == 1_000_000;
      assert Pow10(9) == 1_000_000_000;
    }
    FormatReadsBack(g);
    FormatReadsBack(h);
    LexIsNumeric(FormatGeneration(g), FormatGeneration(h));
    LexSamePrefix(PolicyPrefix(key) + "/versions/", FormatGeneration(g), FormatGeneration(h));
  }

  // ---- Injectivity and disjointness ----

  /** Every key a resource owns, by what it addresses. */
  datatype Address =
    | ActiveAt
    | VersionAt(generation: nat)
    | YamlAt(generation: nat)
    | AuditAt(applyId: string)
    | JobAt(jobId: string)

  function FlatKey(key: ResourceKey, a: Address): string {
    match a
    case ActiveAt => ActiveKey(key)
    case VersionAt(g) => VersionKey(key, g)
    case YamlAt(g) => YamlKey(key, g)
    case AuditAt(id) => AuditKey(key, id)
    case JobAt(id) => JobKey(key, id)
  }

  /** The addresses the layout keeps apart: generations the field can hold, and any ids. */
  predicate Separable(a: Address) { a.VersionAt? || a.YamlAt? ==> a.generation < GENERATION_LIMIT }

  function Section(a: Address): (s: string)
    ensures SlashFree(s)
  {
    match a
    case ActiveAt => "active"
    case VersionAt(_) => "versions"
    case YamlAt(_) => "versions"
    case AuditAt(_) => "audit"
    case JobAt(_) => "jobs"
  }

  function Rest(a: Address): string {
    match a
    case ActiveAt => ""
    case VersionAt(g) => "/" + FormatGeneration(g)
    case YamlAt(g) => "/" + FormatGeneration(g) + "/yaml"
    case AuditAt(id) => "/" + id
    case JobAt(id) => "/" + id
  }

  lemma PrefixShape(key: ResourceKey, t: string)
    ensures PolicyPrefix(key) + ("/" + t) == "v1/policies/" + (key.namespaceName + "/" + (key.policyName + "/" + t))
  {
    var n, m := key.namespaceName, key.policyName;
    assert n + "/" + (m + "/" + t) == (n + "/" + m) + ("/" + t);
  }

  lemma SuffixShape(p: string, f: string)
    ensures p + "/active" == p + ("/" + ("active" + ""))
    ensures p + "/versions/" + f == p + ("/" + ("versions" + ("/" + f)))
    ensures p + "/versions/" + f + "/yaml" == p + ("/" + ("versions" + ("/" + f + "/yaml")))
    ensures p + "/audit/" + f == p + ("/" + ("audit" + ("/" + f)))
    ensures p + "/jobs/" + f == p + ("/" + ("jobs" + ("/" + f)))
  {
    assert "active" + "" == "active";
    assert "/" + ("versions" + ("/" + f)) == "/versions/" + f;
    assert "/" + ("versions" + ("/" + f + "/yaml")) == "/versions/" + f + "/yaml";
    assert "/" + ("audit" + ("/" + f)) == "/audit/" + f;
    assert "/" + ("jobs" + ("/" + f)) == "/jobs/" + f;
  }

  lemma FlatKeyShape(key: ResourceKey, a: Address)
    ensures FlatKey(key, a) ==
            "v1/policies/" + (key.namespaceName + "/" + (key.policyName + "/" + (Section(a) + Rest(a))))
  {
    PrefixShape(key, Section(a) + Rest(a));
    SuffixShape(PolicyPrefix(key), match a case ActiveAt => "" case VersionAt(g) => FormatGeneration(g)
      case YamlAt(g) => FormatGeneration(g) case AuditAt(id) => id case JobAt(id) => id);
  }

  lemma DigitsSlashFree(s: string)
    requires AllDigits(s)
    ensures SlashFree(s)
  {}

  /** Only the active key has no second segment. */
  lemma TailHasSlash(a: Address)
    ensures '/' in Section(a) + Rest(a) <==> !a.ActiveAt?
    ensures !a.ActiveAt? ==> Rest(a) != "" && Section(a) + Rest(a) == Section(a) + "/" + Rest(a)[1..]
  {
    if a.ActiveAt? {
      assert Section(a) + Rest(a) == "active";
    } else {
      RestStarts(a);
      SlashStands(Section(a), Rest(a));
    }
  }

  lemma RestStarts(a: Address)
    requires !a.ActiveAt?
    ensures Rest(a) != "" && Rest(a)[0] == '/'
  {
  }

  lemma SlashStands(s: string, r: string)
    requires r != "" && r[0] == '/'
    ensures '/' in s + r && s + r == s + "/" + r[1..]
  {
    assert (s + r)[|s|] == '/';
    assert r == "/" + r[1..];
  }

  /** Section and rest determine the address. */
  lemma TailInjective(a: Address, b: Address)
    requires Separable(a) && Separable(b)
    requires Section(a) + Rest(a) == Section(b) + Rest(b)
    ensures a == b
  {
    TailHasSlash(a);
    TailHasSlash(b);
    if !a.ActiveAt? {
      var x, y := Rest(a)[1..], Rest(b)[1..];
      SplitUnique(Section(a), Section(b), x, y, '/');
      SectionsDiffer(a, b);
      RestInjective(a, b);
    }
  }

  lemma RestInjective(a: Address, b: Address)
    requires Separable(a) && Separable(b) && !a.ActiveAt? && !b.ActiveAt?
    requires Section(a) == Section(b) && Rest(a)[1..] == Rest(b)[1..]
    ensures a == b
  {
    SectionsDiffer(a, b);
    if a.VersionAt? || a.YamlAt? {
      VersionRests(a, b);
    } else {
      assert a.AuditAt? ==> Rest(a)[1..] == a.applyId && Rest(b)[1..] == b.applyId;
      assert a.JobAt? ==> Rest(a)[1..] == a.jobId && Rest(b)[1..] == b.jobId;
    }
  }

  lemma SectionsDiffer(a: Address, b: Address)
    requires Section(a) == Section(b)
    ensures a.ActiveAt? <==> b.ActiveAt?
    ensures a.AuditAt? <==> b.AuditAt?
    ensures a.JobAt? <==> b.JobAt?
    ensures a.VersionAt? || a.YamlAt? <==> b.VersionAt? || b.YamlAt?
  {
    assert "active"[1] == 'c' && "versions"[1] == 'e' && "audit"[1] == 'u' && "jobs"[1] == 'o';
  }

  lemma VersionRests(a: Address, b: Address)
    requires Separable(a) && Separable(b)
    requires (a.VersionAt? || a.YamlAt?) && (b.VersionAt? || b.YamlAt?)
    requires Rest(a)[1..] == Rest(b)[1..]
    ensures a == b
  {
    var f, h := FormatGeneration(a.generation), FormatGeneration(b.generation);
    DigitsSlashFree(f);
    DigitsSlashFree(h);
    RestWithoutSlash(a);
    RestWithoutSlash(b);
    YamlSuffix(f, a.YamlAt?, h, b.YamlAt?);
    FormatReadsBack(a.generation);
    FormatReadsBack(b.generation);
  }

  function WithYaml(f: string, yaml: bool): string { if yaml then f + "/" + "yaml" else f }

  lemma RestWithoutSlash(a: Address)
    requires a.VersionAt? || a.YamlAt?
    ensures Rest(a)[1..] == WithYaml(FormatGeneration(a.generation), a.YamlAt?)
  {
    var f := FormatGeneration(a.generation);
    assert ("/" + f)[1..] == f;
    assert ("/" + f + "/yaml")[1..] == f + "/" + "yaml";
  }

  lemma YamlSuffix(f: string, fy: bool, h: string, hy: bool)
    requires SlashFree(f) && SlashFree(h) && WithYaml(f, fy) == WithYaml(h, hy)
    ensures f == h && fy == hy
  {
    SplitAbsent(h, "yaml", f, '/');
    SplitAbsent(f, "yaml", h, '/');
    if fy {
      SplitUnique(f, h, "yaml", "yaml", '/');
    }
  }

  /** Within one resource, whatever its names, equal keys are of one address. */
  lemma OneResourceInjective(k: ResourceKey, a: Address, b: Address)
    requires Separable(a) && Separable(b)
    ensures FlatKey(k, a) == FlatKey(k, b) <==> a == b
  {
    if FlatKey(k, a) == FlatKey(k, b) {
      FlatKeyShape(k, a);
      FlatKeyShape(k, b);
      NamesCancel(k, Section(a) + Rest(a), Section(b) + Rest(b));
      TailInjective(a, b);
    }
  }

  lemma NamesCancel(k: ResourceKey, x: string, y: string)
    requires "v1/policies/" + (k.namespaceName + "/" + (k.policyName + "/" + x))
          == "v1/policies/" + (k.namespaceName + "/" + (k.policyName + "/" + y))
    ensures x == y
  {
    var p := "v1/policies/" + k.namespaceName + "/" + k.policyName + "/";
    assert "v1/policies/" + (k.namespaceName + "/" + (k.policyName + "/" + x)) == p + x;
    assert "v1/policies/" + (k.namespaceName + "/" + (k.policyName + "/" + y)) == p + y;
    assert x == (p + x)[|p|..] && y == (p + y)[|p|..];
  }

  /** Equal keys of resources with slash-free namespaces have one namespace and one tail. */
  lemma NamespaceSplits(k: ResourceKey, x: string, m: ResourceKey, y: string)
    requires SlashFree(k.namespaceName) && SlashFree(m.namespaceName)
    requires "v1/policies/" + (k.namespaceName + "/" + x) == "v1/policies/" + (m.namespaceName + "/" + y)
    ensures k.namespaceName == m.namespaceName && x == y
  {
    var p := "v1/policies/";
    var u, w := k.namespaceName + "/" + x, m.namespaceName + "/" + y;
    assert u == (p + u)[|p|..] && w == (p + w)[|p|..];
    SplitUnique(k.namespaceName, m.namespaceName, x, y, '/');
  }

  /** Two keys of the flat store are equal only for the same resource and the same address:
      the five sections are injective and pairwise disjoint, across resources too. */
  lemma FlatKeyInjective(k: ResourceKey, a: Address, m: ResourceKey, b: Address)
    requires SlashFreeKey(k) && SlashFreeKey(m)
    requires Separable(a) && Separable(b)
    ensures FlatKey(k, a) == FlatKey(m, b) <==> k == m && a == b
  {
    if FlatKey(k, a) == FlatKey(m, b) {
      FlatKeyShape(k, a);
      FlatKeyShape(m, b);
      var x, y := Section(a) + Rest(a), Section(b) + Rest(b);
      NamespaceSplits(k, k.policyName + "/" + x, m, m.policyName + "/" + y);
      SplitUnique(k.policyName, m.policyName, x, y, '/');
      TailInjective(a, b);
    }
  }

  /** With a slash in the namespace two resources can share every key. */
  lemma SlashesCollide(a: Address)
    ensures FlatKey(ResourceKey("a/b", "c"), a) == FlatKey(ResourceKey("a", "b/c"), a)
  {
    assert PolicyPrefix(ResourceKey("a/b", "c")) == "v1/policies/a/b/c" == PolicyPrefix(ResourceKey("a", "b/c"));
  }

  // ---- Policy names with slashes ----

  /** What follows a policy's name and a slash. */
  function AddressText(a: Address): string { Section(a) + Rest(a) }

  /** Audit records and jobs are filed under an id. */
  predicate HasId(a: Address) { a.AuditAt? || a.JobAt? }

  function IdOf(a: Address): string
    requires HasId(a)
  {
    if a.AuditAt? then a.applyId else a.jobId
  }

  /** The name of `k` is that of `m` with its audit or job section and more behind it, and the id at `b` is
      what the key of `a` has behind that section. */
  predicate Shadows(k: ResourceKey, a: Address, m: ResourceKey, b: Address) {
    && k.namespaceName == m.namespaceName && HasId(b)
    && var section := m.policyName + "/" + Section(b);
    && section <= k.policyName
    && "/" + IdOf(b) == k.policyName[|section|..] + "/" + AddressText(a)
  }

  /** Of two names before a slash in one text, the longer goes on with a slash. */
  lemma LongerName(n: string, x: string, o: string, y: string) returns (z: string)
    requires n + "/" + x == o + "/" + y && |n| > |o|
    ensures n == o + "/" + z && y == z + "/" + x
  {
    var t := n + "/" + x;
    assert t[|o|] == (o + "/" + y)[|o|] == '/' && t[|o|] == n[|o|];
    assert n[..|o|] == t[..|o|] == (o + "/" + y)[..|o|] == o;
    z := n[|o| + 1..];
    assert n == o + "/" + z;
    assert y == (o + "/" + y)[|o| + 1..] == t[|o| + 1..] == z + "/" + x;
  }

  lemma SameName(n: string, x: string, o: string, y: string)
    requires n + "/" + x == o + "/" + y && |n| == |o|
    ensures n == o && x == y
  {
    assert n == (n + "/" + x)[..|n|] && o == (o + "/" + y)[..|o|];
    assert x == (n + "/" + x)[|n| + 1..] && y == (o + "/" + y)[|o| + 1..];
  }

  lemma NoShorter(f: string, t: string, z: string, x: string)
    requires SlashFree(f) && f + "/" + t == z + "/" + x
    ensures |z| >= |f|
  {
    var u := z + "/" + x;
    assert u[|z|] == '/';
    assert forall i :: 0 <= i < |f| ==> u[i] == f[i];
  }

  /** A slash-free text before a slash is the other name, or the other name goes on behind it. */
  lemma FirstSegment(f: string, t: string, z: string, x: string) returns (w: string)
    requires SlashFree(f) && f + "/" + t == z + "/" + x
    ensures (z == f && t == x) || (z == f + "/" + w && t == w + "/" + x)
  {
    w := "";
    NoShorter(f, t, z, x);
    if |z| > |f| {
      w := LongerName(z, x, f, t);
    } else {
      SameName(z, x, f, t);
    }
  }

  lemma SectionLetter(a: Address)
    ensures AddressText(a) != "" && (AddressText(a)[0] == 'a' || AddressText(a)[0] == 'v' || AddressText(a)[0] == 'j')
  {
    assert AddressText(a)[0] == Section(a)[0];
  }

  /** Behind a version's field comes no address. */
  lemma FieldIsNoAddress(f: string, yaml: bool, w: string, a: Address)
    requires AllDigits(f) && f != ""
    ensures WithYaml(f, yaml) != AddressText(a) && WithYaml(f, yaml) != w + "/" + AddressText(a)
  {
    var x := AddressText(a);
    SectionLetter(a);
    DigitsSlashFree(f);
    assert WithYaml(f, yaml)[0] == f[0] && IsDigit(f[0]);
    SplitAbsent(w, x, f, '/');
    assert "yaml"[0] == 'y';
    if yaml && f + "/" + "yaml" == w + "/" + x {
      var v := FirstSegment(f, "yaml", w, x);
      SplitAbsent(v, x, "yaml", '/');
    }
  }

  /** A name that goes on with `z` runs into the other's section and its id. */
  lemma RunsIntoSection(z: string, a: Address, b: Address)
    requires AddressText(b) == z + "/" + AddressText(a)
    ensures HasId(b) && Section(b) <= z && "/" + IdOf(b) == z[|Section(b)|..] + "/" + AddressText(a)
  {
    TailHasSlash(b);
    if b.ActiveAt? {
      SplitAbsent(z, AddressText(a), AddressText(b), '/');
    } else {
      var w := FirstSegment(Section(b), Rest(b)[1..], z, AddressText(a));
      if b.VersionAt? || b.YamlAt? {
        RestWithoutSlash(b);
        FieldIsNoAddress(FormatGeneration(b.generation), b.YamlAt?, w, a);
      } else {
        IdBehind(z, Section(b), w, IdOf(b), AddressText(a));
      }
    }
  }

  lemma IdBehind(z: string, section: string, w: string, id: string, x: string)
    requires (z == section && id == x) || (z == section + "/" + w && id == w + "/" + x)
    ensures section <= z && "/" + id == z[|section|..] + "/" + x
  {
    if z == section {
      assert z[|section|..] == "";
    } else {
      assert z[|section|..] == "/" + w;
    }
  }

  lemma NameExtends(o: string, section: string, z: string)
    requires section <= z
    ensures var p := o + "/" + section; p <= o + "/" + z && (o + "/" + z)[|p|..] == z[|section|..]
  {
    assert z == section + z[|section|..];
    assert o + "/" + z == o + "/" + section + z[|section|..];
  }

  /** A longer name with an equal key shadows. */
  lemma LongerShadows(k: ResourceKey, a: Address, m: ResourceKey, b: Address)
    requires k.namespaceName == m.namespaceName && |k.policyName| > |m.policyName|
    requires k.policyName + "/" + AddressText(a) == m.policyName + "/" + AddressText(b)
    ensures Shadows(k, a, m, b)
  {
    var z := LongerName(k.policyName, AddressText(a), m.policyName, AddressText(b));
    RunsIntoSection(z, a, b);
    NameExtends(m.policyName, Section(b), z);
  }

  lemma IdText(b: Address)
    requires HasId(b)
    ensures AddressText(b) == Section(b) + ("/" + IdOf(b))
  {
  }

  lemma ShadowsCollide(k: ResourceKey, a: Address, m: ResourceKey, b: Address)
    requires Shadows(k, a, m, b)
    ensures FlatKey(k, a) == FlatKey(m, b)
  {
    FlatKeyShape(k, a);
    FlatKeyShape(m, b);
    IdText(b);
    ShadowText(k.policyName, AddressText(a), m.policyName, Section(b), IdOf(b));
  }

  lemma ShadowText(n: string, x: string, o: string, section: string, id: string)
    requires o + "/" + section <= n && "/" + id == n[|o + "/" + section|..] + "/" + x
    ensures n + "/" + x == o + "/" + (section + ("/" + id))
  {
    var p := o + "/" + section;
    var y := n[|p|..];
    assert n == p + y;
    assert n + "/" + x == p + (y + "/" + x);
    assert o + "/" + (section + ("/" + id)) == p + ("/" + id);
  }

  /** For any policy names and ids, with slash-free namespaces: two keys collide exactly when one policy's name
      runs into the other's audit or job section, and an id there spells the rest of its key. */
  lemma CollidesIff(k: ResourceKey, a: Address, m: ResourceKey, b: Address)
    requires SlashFree(k.namespaceName) && SlashFree(m.namespaceName) && Separable(a) && Separable(b)
    ensures FlatKey(k, a) == FlatKey(m, b) <==> (k == m && a == b) || Shadows(k, a, m, b) || Shadows(m, b, k, a)
  {
    if FlatKey(k, a) == FlatKey(m, b) {
      FlatKeyShape(k, a);
      FlatKeyShape(m, b);
      NamespaceSplits(k, k.policyName + "/" + AddressText(a), m, m.policyName + "/" + AddressText(b));
      if |k.policyName| > |m.policyName| {
        LongerShadows(k, a, m, b);
      } else if |k.policyName| < |m.policyName| {
        LongerShadows(m, b, k, a);
      } else {
        SameName(k.policyName, AddressText(a), m.policyName, AddressText(b));
        TailInjective(a, b);
      }
    } else if Shadows(k, a, m, b) {
      ShadowsCollide(k, a, m, b);
    } else if Shadows(m, b, k, a) {
      ShadowsCollide(m, b, k, a);
    }
  }

  // ---- Resource keys ----

  /** parse_resource_key: the namespace ends at the first slash after the prefix. */
  method ParseResourceKey(text: string) returns (r: Option<ResourceKey>)
    ensures r == ParsedResourceKey(text)
  {
    var prefix := "policy/";
    if !OccursAt(text, prefix, 0) {
      return None;
    }
    var remainder := text[|prefix|..];
    var slash := FindFrom(remainder, "/", 0);
    if slash.None? || slash.value == 0 || slash.value + 1 >= |remainder| {
      return None;
    }
    var key := ResourceKey(remainder[..slash.value], remainder[slash.value + 1..]);
    r := Some(key);
  }

  function ParsedResourceKey(text: string): (r: Option<ResourceKey>)
    ensures r.Some? ==> ToString(r.value) == text
    ensures r.Some? ==> r.value.namespaceName != "" && SlashFree(r.value.namespaceName) && r.value.policyName != ""
  {
    var p := "policy/";
    if !OccursAt(text, p, 0) then None
    else
      var rest := text[|p|..];
      var slash := FindFrom(rest, "/", 0);
      if slash.None? || slash.value == 0 || slash.value + 1 >= |rest| then None
      else
        var i := slash.value;
        assert rest[i..i + 1] == "/";
        assert rest[i] == '/';
        assert rest == rest[..i] + "/" + rest[i + 1..];
        assert text == p + rest;
        assert forall j :: 0 <= j < i ==> rest[..i][j] != '/' by {
          forall j | 0 <= j < i ensures rest[..i][j] != '/' {
            assert !OccursAt(rest, "/", j);
            assert rest[j..j + 1] == [rest[j]];
          }
        }
        Some(ResourceKey(rest[..i], rest[i + 1..]))
  }

  lemma PrefixDropped(p: string, n: string, m: string)
    ensures (p + n + "/" + m)[|p|..] == n + "/" + m
  {
    assert p + n + "/" + m == p + (n + "/" + m);
  }

  /** Parsing undoes printing exactly for a non-empty slash-free namespace and a non-empty name. */
  lemma ParseInvertsToString(key: ResourceKey)
    ensures ParsedResourceKey(ToString(key)) == Some(key) <==>
            key.namespaceName != "" && SlashFree(key.namespaceName) && key.policyName != ""
  {
    if key.namespaceName != "" && SlashFree(key.namespaceName) && key.policyName != "" {
      var text, p := ToString(key), "policy/";
      var rest := text[|p|..];
      PrefixDropped(p, key.namespaceName, key.policyName);
      var i := |key.namespaceName|;
      assert OccursAt(rest, "/", i);
      forall j: nat | j < i ensures !OccursAt(rest, "/", j) {
        assert rest[j..j + 1] == [key.namespaceName[j]];
      }
      FirstOccurrence(rest, "/", 0, i);
      assert rest[..i] == key.namespaceName && rest[i + 1..] == key.policyName;
    }
  }

  /** Two resources that parse_resource_key lets through, and keys they share. */
  lemma ParsedNamesCollide()
    ensures var k, m := ResourceKey("a", "b/audit"), ResourceKey("a", "b");
            && ParsedResourceKey(ToString(k)) == Some(k) && ParsedResourceKey(ToString(m)) == Some(m)
            && FlatKey(k, ActiveAt) == FlatKey(m, AuditAt("active"))
  {
    var k, m := ResourceKey("a", "b/audit"), ResourceKey("a", "b");
    ParseInvertsToString(k);
    ParseInvertsToString(m);
    assert "b/audit" == "b" + "/" + "audit";
    CollidesIff(k, ActiveAt, m, AuditAt("active"));
  }
}
