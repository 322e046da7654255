/** The database is one flat map from key text to value text. This module shows that it behaves
    as the typed maps of every resource, and that a resource's records can be read back from it. */
module FlatStore {
  import opened Text
  import opened StateKeys
  import opened PolicyRecords
  import opened PolicyStateStore
  import opened JsonRecords

  type Flat = map<string, string>

  // ---- The layout: flat puts are puts of one typed map at one resource ----

  datatype Place = Place(resource: ResourceKey, address: Address)

  type Typed = map<Place, string>

  datatype Put = Put(place: Place, text: string)

  /** A write batch, and whether the database accepted it. */
  datatype Batch = Batch(puts: seq<Put>, accepted: bool)

  predicate Apart(p: Place) { SlashFreeKey(p.resource) && Separable(p.address) }

  predicate BatchOk(b: Batch) { forall i :: 0 <= i < |b.puts| ==> Apart(b.puts[i].place) }

  function TextKey(p: Place): string { FlatKey(p.resource, p.address) }

  function FlatPuts(db: Flat, puts: seq<Put>): Flat {
    if puts == [] then db
    else FlatPuts(db, puts[..|puts| - 1])[TextKey(puts[|puts| - 1].place) := puts[|puts| - 1].text]
  }

  function TypedPuts(m: Typed, puts: seq<Put>): Typed {
    if puts == [] then m
    else TypedPuts(m, puts[..|puts| - 1])[puts[|puts| - 1].place := puts[|puts| - 1].text]
  }

  function FlatRun(db: Flat, run: seq<Batch>): Flat {
    if run == [] then db
    else
      var before, b := FlatRun(db, run[..|run| - 1]), run[|run| - 1];
      if b.accepted then FlatPuts(before, b.puts) else before
  }

  function TypedRun(m: Typed, run: seq<Batch>): Typed {
    if run == [] then m
    else
      var before, b := TypedRun(m, run[..|run| - 1]), run[|run| - 1];
      if b.accepted then TypedPuts(before, b.puts) else before
  }

  function Lookup(db: Flat, p: Place): Option<string> {
    if TextKey(p) in db then Some(db[TextKey(p)]) else None
  }

  function TypedLookup(m: Typed, p: Place): Option<string> { if p in m then Some(m[p]) else None }

  /** Every read of the flat map is the read of the typed map. */
  ghost predicate Refines(db: Flat, m: Typed) {
    forall p: Place :: Apart(p) ==> Lookup(db, p) == TypedLookup(m, p)
  }

  /** A put changes the place it names and no other, of this resource or another. */
  lemma PutAtOnePlace(db: Flat, q: Place, text: string, p: Place)
    requires Apart(q) && Apart(p)
    ensures Lookup(db[TextKey(q) := text], p) == if p == q then Some(text) else Lookup(db, p)
  {
    FlatKeyInjective(q.resource, q.address, p.resource, p.address);
  }

  /** Within one resource this needs nothing of its names. */
  lemma PutInResource(db: Flat, key: ResourceKey, a: Address, text: string, b: Address)
    requires Separable(a) && Separable(b)
    ensures Lookup(db[TextKey(Place(key, a)) := text], Place(key, b))
            == if a == b then Some(text) else Lookup(db, Place(key, b))
  {
    OneResourceInjective(key, a, b);
  }

  lemma {:induction false} PutsRefine(db: Flat, m: Typed, puts: seq<Put>)
    requires Refines(db, m) && forall i :: 0 <= i < |puts| ==> Apart(puts[i].place)
    ensures Refines(FlatPuts(db, puts), TypedPuts(m, puts))
  {
    if puts != [] {
      var rest, last := puts[..|puts| - 1], puts[|puts| - 1];
      PutsRefine(db, m, rest);
      forall p: Place | Apart(p)
        ensures Lookup(FlatPuts(db, puts), p) == TypedLookup(TypedPuts(m, puts), p)
      {
        PutAtOnePlace(FlatPuts(db, rest), last.place, last.text, p);
      }
    }
  }

  /** Over every run of accepted and refused batches the flat store refines the typed maps. */
  lemma {:induction false} FlatRunRefines(db: Flat, m: Typed, run: seq<Batch>)
    requires Refines(db, m) && forall i :: 0 <= i < |run| ==> BatchOk(run[i])
    ensures Refines(FlatRun(db, run), TypedRun(m, run))
  {
    if run != [] {
      FlatRunRefines(db, m, run[..|run| - 1]);
      var b := run[|run| - 1];
      assert BatchOk(b);
      PutsRefine(FlatRun(db, run[..|run| - 1]), TypedRun(m, run[..|run| - 1]), b.puts);
    }
  }

  // ---- The records: one resource's typed store read back from the flat map ----

  /** How record texts are read, and how audit records are written. */
  datatype Codec = Codec(
    version: string -> ReadResult<VersionRecord>,
    pointer: string -> ReadResult<ActivePointer>,
    audit: AuditRecord -> string)

  predicate RecordStored(db: Flat, key: ResourceKey, s: Store, codec: Codec, g: nat) {
    match Lookup(db, Place(key, VersionAt(g)))
    case None => g !in s.versions
    case Some(text) =>
      g in s.versions && ReadableVersion(s.versions[g]) && codec.version(text) == Read(s.versions[g])
  }

  predicate YamlStored(db: Flat, key: ResourceKey, s: Store, g: nat) {
    Lookup(db, Place(key, YamlAt(g))) == if g in s.yamls then Some(s.yamls[g]) else None
  }

  predicate ActiveStored(db: Flat, key: ResourceKey, s: Store, codec: Codec) {
    match Lookup(db, Place(key, ActiveAt))
    case None => s.active.None?
    case Some(text) =>
      s.active.Some? && ReadablePointer(s.active.value) && codec.pointer(text) == Read(s.active.value)
  }

  predicate AuditStored(db: Flat, key: ResourceKey, s: Store, codec: Codec, id: string) {
    Lookup(db, Place(key, AuditAt(id))) == if id in s.audits then Some(codec.audit(s.audits[id])) else None
  }

  /** The flat map holds the store of a resource. */
  ghost predicate HoldsStore(db: Flat, key: ResourceKey, s: Store, codec: Codec) {
    && (forall g :: g in s.versions ==> g < GENERATION_LIMIT)
    && (forall g: nat :: g < GENERATION_LIMIT ==> RecordStored(db, key, s, codec, g))
    && (forall g: nat :: g < GENERATION_LIMIT ==> YamlStored(db, key, s, g))
    && ActiveStored(db, key, s, codec)
    && (forall id :: AuditStored(db, key, s, codec, id))
  }

  lemma PutOne(db: Flat, put: Put)
    ensures FlatPuts(db, [put]) == db[TextKey(put.place) := put.text]
  {
    assert [put][..0] == [];
  }

  lemma {:induction false} PutsInOrder(db: Flat, a: seq<Put>, b: seq<Put>)
    ensures FlatPuts(db, a + b) == FlatPuts(FlatPuts(db, a), b)
  {
    if b == [] {
      assert a + b == a;
    } else {
      assert (a + b)[..|a + b| - 1] == a + b[..|b| - 1];
      PutsInOrder(db, a, b[..|b| - 1]);
    }
  }

  /** A change that leaves the other places of a resource alone. */
  ghost predicate OnlyAt(db: Flat, db': Flat, key: ResourceKey, changed: set<Address>) {
    forall a: Address :: Separable(a) && a !in changed ==> Lookup(db', Place(key, a)) == Lookup(db, Place(key, a))
  }

  /** What a change at some places leaves of a resource's store. */
  lemma RestKept(db: Flat, db': Flat, key: ResourceKey, s: Store, s': Store, codec: Codec, changed: set<Address>)
    requires HoldsStore(db, key, s, codec) && OnlyAt(db, db', key, changed)
    requires forall g: nat :: VersionAt(g) !in changed ==>
      (g in s'.versions <==> g in s.versions) && (g in s.versions ==> s'.versions[g] == s.versions[g])
    requires forall g: nat :: YamlAt(g) !in changed ==>
      (g in s'.yamls <==> g in s.yamls) && (g in s.yamls ==> s'.yamls[g] == s.yamls[g])
    requires ActiveAt !in changed ==> s'.active == s.active
    requires forall id :: AuditAt(id) !in changed ==>
      (id in s'.audits <==> id in s.audits) && (id in s.audits ==> s'.audits[id] == s.audits[id])
    ensures forall g: nat :: g < GENERATION_LIMIT && VersionAt(g) !in changed ==> RecordStored(db', key, s', codec, g)
    ensures forall g: nat :: g < GENERATION_LIMIT && YamlAt(g) !in changed ==> YamlStored(db', key, s', g)
    ensures ActiveAt !in changed ==> ActiveStored(db', key, s', codec)
    ensures forall id :: AuditAt(id) !in changed ==> AuditStored(db', key, s', codec, id)
  {
    forall g: nat | g < GENERATION_LIMIT && VersionAt(g) !in changed ensures RecordStored(db', key, s', codec, g) {
      assert RecordStored(db, key, s, codec, g) && Separable(VersionAt(g));
    }
    forall g: nat | g < GENERATION_LIMIT && YamlAt(g) !in changed ensures YamlStored(db', key, s', g) {
      assert YamlStored(db, key, s, g) && Separable(YamlAt(g));
    }
    assert Separable(ActiveAt);
    forall id | AuditAt(id) !in changed ensures AuditStored(db', key, s', codec, id) {
      assert AuditStored(db, key, s, codec, id) && Separable(AuditAt(id));
    }
  }

  lemma RecordWritten(db: Flat, key: ResourceKey, s: Store, codec: Codec, v: VersionRecord, text: string)
    requires HoldsStore(db, key, s, codec)
    requires v.generation < GENERATION_LIMIT && ReadableVersion(v) && codec.version(text) == Read(v)
    ensures HoldsStore(FlatPuts(db, [Put(Place(key, VersionAt(v.generation)), text)]), key,
                       s.(versions := s.versions[v.generation := v]), codec)
  {
    var g := v.generation;
    var place, s' := Place(key, VersionAt(g)), s.(versions := s.versions[g := v]);
    var db' := db[TextKey(place) := text];
    PutOne(db, Put(place, text));
    forall a: Address | Separable(a)
      ensures Lookup(db', Place(key, a)) == if a == VersionAt(g) then Some(text) else Lookup(db, Place(key, a))
    {
      PutInResource(db, key, place.address, text, a);
    }
    RestKept(db, db', key, s, s', codec, {VersionAt(g)});
    assert Separable(VersionAt(g)) && RecordStored(db', key, s', codec, g);
  }

  lemma YamlWritten(db: Flat, key: ResourceKey, s: Store, codec: Codec, g: nat, yaml: string)
    requires HoldsStore(db, key, s, codec) && g < GENERATION_LIMIT
    ensures HoldsStore(FlatPuts(db, [Put(Place(key, YamlAt(g)), yaml)]), key, s.(yamls := s.yamls[g := yaml]), codec)
  {
    var place, s' := Place(key, YamlAt(g)), s.(yamls := s.yamls[g := yaml]);
    var db' := db[TextKey(place) := yaml];
    PutOne(db, Put(place, yaml));
    forall a: Address | Separable(a)
      ensures Lookup(db', Place(key, a)) == if a == YamlAt(g) then Some(yaml) else Lookup(db, Place(key, a))
    {
      PutInResource(db, key, place.address, yaml, a);
    }
    RestKept(db, db', key, s, s', codec, {YamlAt(g)});
    assert Separable(YamlAt(g)) && YamlStored(db', key, s', g);
  }

  /** Writing a version's two values is adding the version. */
  lemma VersionWritten(db: Flat, key: ResourceKey, s: Store, codec: Codec, v: VersionRecord, yaml: string, text: string)
    requires HoldsStore(db, key, s, codec)
    requires v.generation < GENERATION_LIMIT && ReadableVersion(v) && codec.version(text) == Read(v)
    ensures var puts := [Put(Place(key, VersionAt(v.generation)), text), Put(Place(key, YamlAt(v.generation)), yaml)];
      var s' := s.(versions := s.versions[v.generation := v], yamls := s.yamls[v.generation := yaml]);
      HoldsStore(FlatPuts(db, puts), key, s', codec)
  {
    var p, q := Put(Place(key, VersionAt(v.generation)), text), Put(Place(key, YamlAt(v.generation)), yaml);
    PutsInOrder(db, [p], [q]);
    RecordWritten(db, key, s, codec, v, text);
    YamlWritten(FlatPuts(db, [p]), key, s.(versions := s.versions[v.generation := v]), codec, v.generation, yaml);
    assert [p] + [q] == [p, q];
  }

  /** Writing the pointer's value is moving the active pointer. */
  lemma PointerWritten(db: Flat, key: ResourceKey, s: Store, codec: Codec, p: ActivePointer, text: string)
    requires HoldsStore(db, key, s, codec) && ReadablePointer(p) && codec.pointer(text) == Read(p)
    ensures HoldsStore(FlatPuts(db, [Put(Place(key, ActiveAt), text)]), key, s.(active := Some(p)), codec)
  {
    var place, s' := Place(key, ActiveAt), s.(active := Some(p));
    var db' := db[TextKey(place) := text];
    PutOne(db, Put(place, text));
    forall a: Address | Separable(a)
      ensures Lookup(db', Place(key, a)) == if a == ActiveAt then Some(text) else Lookup(db, Place(key, a))
    {
      PutInResource(db, key, place.address, text, a);
    }
    RestKept(db, db', key, s, s', codec, {ActiveAt});
    assert Separable(ActiveAt);
  }

  lemma AuditWritten(db: Flat, key: ResourceKey, s: Store, codec: Codec, a: AuditRecord)
    requires HoldsStore(db, key, s, codec)
    ensures HoldsStore(FlatPuts(db, [Put(Place(key, AuditAt(a.applyId)), codec.audit(StampAudit(key, a)))]), key,
                       PutAudit(s, key, a), codec)
  {
    var put, s' := Put(Place(key, AuditAt(a.applyId)), codec.audit(StampAudit(key, a))), PutAudit(s, key, a);
    var db' := db[TextKey(put.place) := put.text];
    PutOne(db, put);
    forall b: Address | Separable(b)
      ensures Lookup(db', Place(key, b)) ==
              if b == AuditAt(a.applyId) then Some(put.text) else Lookup(db, Place(key, b))
    {
      PutInResource(db, key, put.place.address, put.text, b);
    }
    RestKept(db, db', key, s, s', codec, {AuditAt(a.applyId)});
    assert Separable(AuditAt(a.applyId));
  }

  /** A batch for one resource leaves every other resource's store as it was. */
  lemma {:induction false} OthersKept(db: Flat, puts: seq<Put>, key: ResourceKey, other: ResourceKey,
                                      s: Store, codec: Codec)
    requires SlashFreeKey(key) && SlashFreeKey(other) && key != other && HoldsStore(db, other, s, codec)
    requires forall i :: 0 <= i < |puts| ==> puts[i].place.resource == key && Separable(puts[i].place.address)
    ensures HoldsStore(FlatPuts(db, puts), other, s, codec)
  {
    if puts != [] {
      var rest, last := puts[..|puts| - 1], puts[|puts| - 1];
      OthersKept(db, rest, key, other, s, codec);
      var before := FlatPuts(db, rest);
      forall a: Address | Separable(a) && a !in {}
        ensures Lookup(FlatPuts(db, puts), Place(other, a)) == Lookup(before, Place(other, a))
      {
        PutAtOnePlace(before, last.place, last.text, Place(other, a));
      }
      RestKept(before, FlatPuts(db, puts), other, s, s, codec, {});
    }
  }
}
