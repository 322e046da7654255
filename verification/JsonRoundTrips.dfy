/** The record round trips for plain fields, and ids at which they fail and do not fail. */
module JsonRoundTrips {
  import opened JsonText
  import opened JsonFields
  import opened JsonClash
  import opened JsonReads
  import opened PolicyRecords
  import opened JsonRecords

  /** The j-th value fits its width; a string is printable and is not taken for a key printed after the
      next line. */
  predicate Readable(tags: seq<Tag>, value: Tag -> Value, j: nat)
    requires j < |tags|
  {
    match value(tags[j])
    case Num(n) => n < UINT64 && Cut(tags[j], n) == n
    case Str(text) => Printable(text) && forall i :: j + 1 < i < |tags| ==> Clear(text, Name(tags[i]))
  }

  predicate AllReadable(tags: seq<Tag>, value: Tag -> Value) {
    forall j :: 0 <= j < |tags| ==> Readable(tags, value, j)
  }

  /** A string that is the key of the very next line does no harm. */
  lemma OwnSource(tags: seq<Tag>, value: Tag -> Value, i: nat)
    requires i < |tags| && AllReadable(tags, value)
    ensures SourceLine(Fields(tags, value), i) == i
  {
    var fields := Fields(tags, value);
    var l := SourceLine(fields, i);
    LineFromMeans(fields, fields[i].key, 0, i);
    if l > 0 {
      assert Readable(tags, value, l - 1);
    }
  }

  lemma ReadableSurvives(tags: seq<Tag>, value: Tag -> Value, i: nat)
    requires i < |tags| && AllReadable(tags, value)
    ensures Survives(tags, value, i)
  {
    OwnSource(tags, value, i);
    assert Readable(tags, value, i);
    if value(tags[i]).Str? {
      GarbledIff(value(tags[i]).text);
    }
  }

  lemma AllReadableSurvive(tags: seq<Tag>, value: Tag -> Value)
    requires AllReadable(tags, value)
    ensures AllSurvive(tags, value)
  {
    forall i | 0 <= i < |tags| ensures Survives(tags, value, i) {
      ReadableSurvives(tags, value, i);
    }
  }

  /** Deserializing a serialized active pointer gives the same pointer. */
  lemma PointerRoundTrip(p: ActivePointer)
    requires ReadablePointer(p) && AllReadable(POINTER_TAGS, PointerValues(p))
    ensures ParsePointer(PointerText(p)) == Read(p)
  {
    AllReadableSurvive(POINTER_TAGS, PointerValues(p));
    PointerRoundTripIff(p);
  }

  /** Deserializing a serialized version record gives the same record. */
  lemma VersionRoundTrip(v: VersionRecord)
    requires ReadableVersion(v) && AllReadable(VERSION_TAGS, VersionValues(v))
    ensures ParseVersion(VersionText(v)) == Read(v)
  {
    AllReadableSurvive(VERSION_TAGS, VersionValues(v));
    VersionRoundTripIff(v);
  }

  // ---- Request ids that are keys ----

  /** A pointer whose other strings are too short for a key. */
  function Sample(applyId: string): ActivePointer {
    ActivePointer("a", 1, "r", 7, "p", "h", 1, "1", "k", "v", "y", "s", applyId, 6, "q", 1000)
  }

  lemma NameLength(t: Tag)
    ensures |Name(t)| >= 4
  {
  }

  lemma ShortClear(text: string, t: Tag)
    requires |text| < 4
    ensures Clear(text, Name(t))
  {
    NameLength(t);
  }

  lemma SampleShort(applyId: string, t: Tag)
    requires t != ApplyId && PointerValue(Sample(applyId), t).Str?
    ensures |PointerValue(Sample(applyId), t).text| == 1 && Printable(PointerValue(Sample(applyId), t).text)
  {
  }

  /** The last four lines of a pointer. */
  lemma LastLines(p: ActivePointer)
    ensures var fields := Fields(POINTER_TAGS, PointerValues(p));
            && |fields| == 16 && fields[12].value == Str(p.applyId) && fields[13].value == Num(p.previousGeneration)
            && fields[15] == Field(Name(CommittedAt), Num(p.committedAt))
            && forall j :: 0 <= j < 12 ==> fields[j].value == PointerValue(p, POINTER_TAGS[j])
  {
  }

  /** The commit time of a pointer whose apply id is the name of that field is read from the line after the
      apply id, where the previous generation stands. */
  lemma CommitTimeMisread(p: ActivePointer)
    requires p.applyId == Name(CommittedAt)
    requires forall j :: 0 <= j < 12 ==> ValueClear(PointerValue(p, POINTER_TAGS[j]), Name(CommittedAt))
    ensures GetUint64(PointerText(p), Name(CommittedAt)) == Ranged(p.previousGeneration)
  {
    TagsOrdered();
    FieldsNamedApart(POINTER_TAGS, PointerValues(p));
    LastLines(p);
    ClashReadsNext(Fields(POINTER_TAGS, PointerValues(p)), 12, 15);
  }

  lemma SampleClear(applyId: string)
    ensures forall j :: 0 <= j < 12 ==> ValueClear(PointerValue(Sample(applyId), POINTER_TAGS[j]), Name(CommittedAt))
  {
    forall j | 0 <= j < 12
      ensures ValueClear(PointerValue(Sample(applyId), POINTER_TAGS[j]), Name(CommittedAt))
    {
      assert POINTER_TAGS[j] != ApplyId;
      if PointerValue(Sample(applyId), POINTER_TAGS[j]).Str? {
        SampleShort(applyId, POINTER_TAGS[j]);
        ShortClear(PointerValue(Sample(applyId), POINTER_TAGS[j]).text, CommittedAt);
      }
    }
  }

  lemma WrongTime(json: string, p: ActivePointer)
    requires GetUint64(json, Name(CommittedAt)) == Ranged(p.previousGeneration) && p.previousGeneration != p.committedAt
    ensures ParsePointer(json) != Read(p)
  {
    if ParsePointer(json) == Read(p) {
      PointerGives(Strings(json), Numbers(json), p, CommittedAt);
    }
  }

  /** A request id at which the round trip fails. */
  lemma PointerMisread()
    ensures ParsePointer(PointerText(Sample(Name(CommittedAt)))) != Read(Sample(Name(CommittedAt)))
  {
    var p := Sample(Name(CommittedAt));
    SampleClear(p.applyId);
    CommitTimeMisread(p);
    WrongTime(PointerText(p), p);
  }

  lemma NamesClear(a: Tag, b: Tag)
    requires a != b
    ensures Printable(Name(a)) && Clear(Name(a), Name(b))
  {
    NamesDiffer(a);
    NamesDiffer(b);
    LettersClear(Name(a), Name(b));
  }

  lemma LettersClear(name: string, k: string)
    requires IsName(name) && name != k
    ensures Printable(name) && Clear(name, k)
  {
    assert forall i :: 0 <= i < |name| ==> IsLetter(name[i]);
    assert |name| > |k| ==> name[|name| - |k| - 1..][0] == name[|name| - |k| - 1];
  }

  lemma SampleReadable(id: string, j: nat)
    requires j < |POINTER_TAGS| && POINTER_TAGS[j] != ApplyId
    ensures Readable(POINTER_TAGS, PointerValues(Sample(id)), j)
  {
    var t := POINTER_TAGS[j];
    if PointerValue(Sample(id), t).Str? {
      SampleShort(id, t);
      forall i | j + 1 < i < |POINTER_TAGS| ensures Clear(PointerValue(Sample(id), t).text, Name(POINTER_TAGS[i])) {
        ShortClear(PointerValue(Sample(id), t).text, POINTER_TAGS[i]);
      }
    }
  }

  lemma OnlyApplyId(j: nat)
    requires j < |POINTER_TAGS| && j != 12
    ensures POINTER_TAGS[j] != ApplyId
  {
  }

  lemma LateTags(i: nat)
    requires 13 < i < |POINTER_TAGS|
    ensures POINTER_TAGS[i] != PreviousGeneration && POINTER_TAGS[12] == ApplyId
  {
  }

  lemma ApplyIdReadable(p: ActivePointer)
    requires p.applyId == Name(PreviousGeneration)
    ensures Readable(POINTER_TAGS, PointerValues(p), 12)
  {
    forall i | 13 < i < |POINTER_TAGS| ensures Clear(p.applyId, Name(POINTER_TAGS[i])) {
      LateTags(i);
      NamesClear(PreviousGeneration, POINTER_TAGS[i]);
    }
    NamesClear(PreviousGeneration, CommittedAt);
  }

  /** The name of the very next field is a harmless id. */
  lemma NextNameReads()
    ensures var p := Sample(Name(PreviousGeneration)); ParsePointer(PointerText(p)) == Read(p)
  {
    var p := Sample(Name(PreviousGeneration));
    forall j | 0 <= j < |POINTER_TAGS| ensures Readable(POINTER_TAGS, PointerValues(p), j) {
      if j == 12 {
        ApplyIdReadable(p);
      } else {
        OnlyApplyId(j);
        SampleReadable(p.applyId, j);
      }
    }
    PointerRoundTrip(p);
  }
}
