/**
 Assembly does not depend on the order in which a source lists its records, blobs and dataset ids
 (packages/archive/src/assemble.ts).
 */
module ArchiveOrder {
  import opened Base
  import opened Text
  import opened Json
  import opened Records
  import opened Sorting
  import opened ArchiveFormat
  import opened ArchiveAssemble

  /** Records that sort under one key, which is their id when they have one, are the same record. */
  ghost predicate KeysTell(records: seq<Record>) {
    forall a, b :: a in records && b in records && SortKey(a) == SortKey(b) ==> a == b
  }

  predicate OpenEnd(events: seq<Record>, e: Record) {
    "eventHash" in e && e["eventHash"].Str? && e["eventHash"].s !in Links(events)
  }

  /** At most one event links to nothing and at most one is linked to by none, as in a chain. */
  ghost predicate OneRootOneTail(events: seq<Record>) {
    && (forall e, f :: e in events && f in events && NullLink(e) && NullLink(f) ==>
          OrNull(Prop(e, "eventHash")) == OrNull(Prop(f, "eventHash")))
    && (forall e, f :: e in events && f in events && OpenEnd(events, e) && OpenEnd(events, f) ==>
         e["eventHash"] == f["eventHash"])
  }

  /** `b` lists what `a` lists, in any order. */
  ghost predicate Reordered(a: Source, b: Source) {
    && b == a.(datasetIds := b.datasetIds, records := b.records, blobs := b.blobs)
    && multiset(a.datasetIds) == multiset(b.datasetIds) && multiset(a.blobs) == multiset(b.blobs)
    && forall kind :: multiset(Of(a.records, kind)) == multiset(Of(b.records, kind))
  }

  // ---------- sorting ----------

  lemma KeyOrder<T(!new)>(leq: (string, string) -> bool, key: T -> string, le: (T, T) -> bool)
    requires TotalOrder(leq) && forall a, b :: le(a, b) == leq(key(a), key(b))
    ensures TotalPreorder(le)
    ensures forall a, b :: le(a, b) && le(b, a) ==> key(a) == key(b)
  {
    forall a, b ensures le(a, b) || le(b, a) {
      assert leq(key(a), key(b)) || leq(key(b), key(a));
    }
    forall a, b, c | le(a, b) && le(b, c) ensures le(a, c) {
      assert leq(key(a), key(b)) && leq(key(b), key(c));
    }
    forall a, b | le(a, b) && le(b, a) ensures key(a) == key(b) {
      assert leq(key(a), key(b)) && leq(key(b), key(a));
    }
  }

  /** Records with text ids are written in the order of their ids, and the checksum file in that of the paths. */
  lemma FilesInOrder(p: Platform, records: seq<Record>, files: Entries)
    requires TotalOrder(p.leq)
    requires forall r: Record :: r in records ==> "id" in r && r["id"].Str?
    ensures var sorted := SortedRecords(p, records);
            && multiset(sorted) == multiset(records)
            && (forall i :: 0 <= i < |sorted| ==> "id" in sorted[i] && sorted[i]["id"].Str?)
            && forall i, j :: 0 <= i < j < |sorted| ==> p.leq(sorted[i]["id"].s, sorted[j]["id"].s)
    ensures var paths := OrderedPaths(p, files);
            forall i, j :: 0 <= i < j < |paths| ==> p.leq(paths[i], paths[j])
  {
    var sorted := SortedRecords(p, records);
    KeyOrder(p.leq, (r: Record) => SortKey(r), RecordOrder(p.leq));
    SortSorted(RecordOrder(p.leq), records);
    SortSorted(p.leq, SortedKeys(files.Keys));
    SameMembers(sorted, records);
    forall i | 0 <= i < |sorted| ensures "id" in sorted[i] && sorted[i]["id"] == Str(SortKey(sorted[i])) {
      assert sorted[i] in records;
    }
    hide SortKey;
    hide Sort;
  }

  lemma SameRecordFile(p: Platform, a: seq<Record>, b: seq<Record>)
    requires TotalOrder(p.leq) && KeysTell(a) && multiset(a) == multiset(b)
    ensures RecordFile(p, a) == RecordFile(p, b) && |a| == |b| && (a == [] <==> b == [])
  {
    KeyOrder(p.leq, (r: Record) => SortKey(r), RecordOrder(p.leq));
    hide SortKey;
    SortForgetsOrder(RecordOrder(p.leq), a, b);
    SameMembers(a, b);
  }

  lemma {:induction false} SameRecordFiles(p: Platform, a: RecordSet, b: RecordSet, n: nat)
    requires n <= |ALL_KINDS| && TotalOrder(p.leq)
    requires forall kind :: KeysTell(Of(a, kind)) && multiset(Of(a, kind)) == multiset(Of(b, kind))
    ensures RecordFiles(p, a, n) == RecordFiles(p, b, n) && RecordCounts(a, n) == RecordCounts(b, n)
  {
    hide KeysTell;
    hide TotalOrder;
    hide RecordFile;
    if n > 0 {
      SameRecordFiles(p, a, b, n - 1);
      SameRecordFile(p, Of(a, ALL_KINDS[n - 1]), Of(b, ALL_KINDS[n - 1]));
    }
  }

  lemma SameBlobOrder(p: Platform, a: seq<BlobInput>, b: seq<BlobInput>)
    requires TotalOrder(p.leq) && multiset(a) == multiset(b) && Distinct(Map(DigestOf(), a))
    ensures Sort(BlobOrder(p.leq), a) == Sort(BlobOrder(p.leq), b)
  {
    KeyOrder(p.leq, DigestOf(), BlobOrder(p.leq));
    var digests := Map(DigestOf(), a);
    forall x, y | x in a && y in a && x.sha256 == y.sha256 ensures x == y {
      var i :| 0 <= i < |a| && a[i] == x;
      var j :| 0 <= j < |a| && a[j] == y;
      assert digests[i] == digests[j];
    }
    SortForgetsOrder(BlobOrder(p.leq), a, b);
  }

  lemma SameDatasetIds(a: seq<string>, b: seq<string>)
    requires multiset(a) == multiset(b)
    ensures Sort(CodeUnitOrder(), a) == Sort(CodeUnitOrder(), b)
  {
    CodeUnitsOrder();
    SortForgetsOrder(CodeUnitOrder(), a, b);
  }

  // ---------- the lineage ----------

  lemma {:induction false} FirstHashIs(events: seq<Record>, e: Record)
    requires e in events && NullLink(e)
    requires forall f :: f in events && NullLink(f) ==> OrNull(Prop(f, "eventHash")) == OrNull(Prop(e, "eventHash"))
    ensures FirstHash(events) == OrNull(Prop(e, "eventHash"))
  {
    hide NullLink;
    assert events[0] in events;
    if !NullLink(events[0]) {
      assert events == [events[0]] + events[1..];
      assert forall f :: f in events[1..] ==> f in events;
      FirstHashIs(events[1..], e);
    }
  }

  lemma {:induction false} NoFirstHash(events: seq<Record>)
    requires forall f :: f in events ==> !NullLink(f)
    ensures FirstHash(events) == Null
  {
    hide NullLink;
    if events != [] {
      assert events[0] in events;
      assert forall f :: f in events[1..] ==> f in events;
      NoFirstHash(events[1..]);
    }
  }

  lemma SameFirstHash(a: seq<Record>, b: seq<Record>)
    requires (forall e :: e in a <==> e in b) && OneRootOneTail(a)
    ensures FirstHash(a) == FirstHash(b)
  {
    hide NullLink;
    if e :| e in a && NullLink(e) {
      FirstHashIs(a, e);
      FirstHashIs(b, e);
    } else {
      NoFirstHash(a);
      NoFirstHash(b);
    }
  }

  predicate EndOf(links: set<string>, e: Record) {
    "eventHash" in e && e["eventHash"].Str? && e["eventHash"].s !in links
  }

  lemma {:induction false} LastHashIs(events: seq<Record>, links: set<string>, e: Record)
    requires e in events && EndOf(links, e) && forall f :: f in events && EndOf(links, f) ==>
               f["eventHash"] == e["eventHash"]
    ensures LastHash(events, links) == e["eventHash"]
  {
    assert events[0] in events;
    if !EndOf(links, events[0]) {
      assert events == [events[0]] + events[1..];
      assert forall f :: f in events[1..] ==> f in events;
      LastHashIs(events[1..], links, e);
    }
  }

  lemma {:induction false} NoLastHash(events: seq<Record>, links: set<string>)
    requires forall f :: f in events ==> !EndOf(links, f)
    ensures LastHash(events, links) == Null
  {
    if events != [] {
      assert events[0] in events;
      assert forall f :: f in events[1..] ==> f in events;
      NoLastHash(events[1..], links);
    }
  }

  lemma SameLastHash(a: seq<Record>, b: seq<Record>)
    requires (forall e :: e in a <==> e in b) && OneRootOneTail(a)
    ensures LastHash(a, Links(a)) == LastHash(b, Links(b))
  {
    assert Links(a) == Links(b);
    assert forall e :: OpenEnd(a, e) <==> EndOf(Links(a), e);
    hide Links;
    if e :| e in a && EndOf(Links(a), e) {
      LastHashIs(a, Links(a), e);
      LastHashIs(b, Links(a), e);
    } else {
      NoLastHash(a, Links(a));
      NoLastHash(b, Links(a));
    }
  }

  lemma SameManifest(p: Platform, a: Source, b: Source)
    requires TotalOrder(p.leq) && Reordered(a, b)
    requires (forall kind :: KeysTell(Of(a.records, kind))) && OneRootOneTail(Of(a.records, AuditEvents))
    ensures Manifest(a) == Manifest(b)
  {
    hide KeysTell;
    hide OneRootOneTail;
    hide FirstHash;
    hide LastHash;
    hide RecordCounts;
    SameRecordFiles(p, a.records, b.records, |ALL_KINDS|);
    SameDatasetIds(a.datasetIds, b.datasetIds);
    SumPermutes(ByteLength(), a.blobs, b.blobs);
    SameMembers(a.blobs, b.blobs);
    var x, y := Of(a.records, AuditEvents), Of(b.records, AuditEvents);
    SameMembers(x, y);
    SameFirstHash(x, y);
    SameLastHash(x, y);
    assert AuditLineage(a) == AuditLineage(b);
  }

  /** Reordering a source changes neither whether it assembles nor any entry of the archive. */
  lemma AssemblyForgetsOrder(p: Platform, a: Source, b: Source)
    requires TotalOrder(p.leq) && Reordered(a, b)
    requires (forall kind :: KeysTell(Of(a.records, kind))) && OneRootOneTail(Of(a.records, AuditEvents))
    ensures Assembles(p, a) <==> Assembles(p, b)
    ensures Assembles(p, a) ==> Assembled(p, a) == Assembled(p, b)
  {
    hide KeysTell;
    hide OneRootOneTail;
    hide Manifest;
    hide BlobOk;
    hide Distinct;
    hide TotalOrder;
    hide ChecksumFile;
    hide ManifestFile;
    SameMembers(a.blobs, b.blobs);
    MapPermutes(DigestOf(), a.blobs, b.blobs);
    DistinctPermutes(Map(DigestOf(), a.blobs), Map(DigestOf(), b.blobs));
    if Assembles(p, a) {
      SameManifest(p, a, b);
      SameRecordFiles(p, a.records, b.records, |ALL_KINDS|);
      SameBlobOrder(p, a.blobs, b.blobs);
    }
  }
}
