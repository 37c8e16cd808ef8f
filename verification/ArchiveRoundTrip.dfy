/**
 What assembly writes, verification accepts and returns (packages/archive/src/assemble.ts,
 verify.ts): the same manifest, and the same records sorted by id.
 */
module ArchiveRoundTrip {
  import opened Base
  import opened Digest
  import opened Paths
  import opened Text
  import opened Json
  import opened Records
  import opened Sorting
  import opened ImportGraph
  import opened ArchiveFormat
  import opened ArchiveAssemble
  import opened ArchiveVerify
  import opened ArchiveReadback
  import opened ArchiveOrder

  // ---------- sources that round trip ----------

  ghost predicate ScopedSource(source: Source) {
    && (forall kind, r :: r in Of(source.records, kind) && "workspaceId" in r ==>
         r["workspaceId"] == Str(source.workspaceId))
    && (forall r :: r in Of(source.records, Revisions) ==> RevisionLinksOk(source.records, r))
  }

  /** The digest a blob record names. */
  function NamedDigest(): Record -> string {
    (r: Record) => if HasText(r, "sha256") then r["sha256"].s else ""
  }

  predicate RecordFits(blob: BlobInput, r: Record) {
    IsText(r, "sha256", blob.sha256) && Prop(r, "byteLength") == Some(Int(blob.byteLength))
  }

  /** Blob records and blobs correspond one to one. */
  ghost predicate BlobsMatch(source: Source) {
    var records := Of(source.records, Records.Blobs);
    && (forall r :: r in records ==> exists b :: b in source.blobs && RecordFits(b, r))
    && multiset(Map(NamedDigest(), records)) == multiset(Map(DigestOf(), source.blobs))
  }

  /** The audit events are one chain, and its root has no link at all: an empty one would not count as a root here. */
  ghost predicate ChainedSource(source: Source) {
    var events := Of(source.records, AuditEvents);
    && |events| <= MAX_SAFE_INTEGER
    && (events != [] ==>
          && Lineage.HashesOk(Lineage.Nodes(events)) && (exists order :: Lineage.IsChain(Lineage.Nodes(events), order))
          && forall e :: e in events ==> Prop(e, "previousEventHash") != Some(Str("")))
  }

  ghost predicate WellScoped(p: Platform, source: Source) {
    Assembles(p, source) && ScopedSource(source) && BlobsMatch(source) && ChainedSource(source)
  }

  // ---------- entries that carry a source ----------

  /** The manifest says about the source what assembly says. */
  ghost predicate Describes(m: Json, source: Source) {
    && m.Obj? && HeaderOk(m)
    && Field(Some(m), "workspaceId") == Some(Str(source.workspaceId))
    && Field(Some(m), "recordCounts") == Some(Obj(RecordCounts(source.records, |ALL_KINDS|)))
    && Field(Some(m), "auditLineage") == Some(AuditLineage(source))
    && Field(Some(m), "blobCount") == Some(Int(|source.blobs|))
    && Field(Some(m), "totalBlobBytes") == Some(Int(Sum(ByteLength(), source.blobs)))
  }

  /** The entries hold the source's payload, the manifest and their checksums; anything else is a signature. */
  ghost predicate Carries(p: Platform, source: Source, m: Json, entries: Entries) {
    var files := Covered(p, Payload(p, source), m);
    && (forall path :: path in files ==> path in entries && entries[path] == files[path])
    && (forall path :: path in entries ==> path in files || Unchecked(path))
    && CHECKSUMS in entries && entries[CHECKSUMS] == ChecksumFile(p, files)
  }

  lemma CoveredPlain(p: Platform, source: Source, m: Json)
    ensures AllPlain(Covered(p, Payload(p, source), m))
    ensures forall path :: path in Covered(p, Payload(p, source), m) ==> !Unchecked(path)
  {
    hide PlainPath;
    hide Payload;
    FixedPathsShape();
    forall path | path in Covered(p, Payload(p, source), m) ensures PlainPath(path) && !Unchecked(path) {
      if path != MANIFEST && path != README {
        PayloadPaths(p, source, path);
      }
      assert path[0] != 'c' && path[0] != 's';
    }
  }

  lemma ChecksumsOk(p: Platform, source: Source, m: Json, entries: Entries)
    requires Lawful(p) && Carries(p, source, m, entries)
    ensures SumFileOk(p, entries) && SumsHold(p, entries, StatedSums(p, entries))
  {
    hide Lawful;
    hide ChecksumFile;
    hide SumFileOk;
    hide AllPlain;
    var files := Covered(p, Payload(p, source), m);
    CoveredPlain(p, source, m);
    assert MANIFEST in files;
    hide Covered;
    ChecksumsReadBack(p, files, entries);
  }

  lemma ManifestCarried(p: Platform, source: Source, m: Json, entries: Entries)
    requires Lawful(p) && Carries(p, source, m, entries) && Describes(m, source)
    ensures ReadManifest(p, entries) == Some(m) && ManifestOk(p, entries)
  {
    hide Lawful;
    hide Payload;
    hide HeaderOk;
    hide ManifestFile;
    var files := Covered(p, Payload(p, source), m);
    assert files[MANIFEST] == ManifestFile(p, m);
    ManifestReadBack(p, entries, m);
  }

  // ---------- records ----------

  lemma KindIndex(kind: Kind) returns (k: nat)
    ensures k < |ALL_KINDS| && ALL_KINDS[k] == kind
  {
    AllKindsComplete(kind);
    k :| 0 <= k < |ALL_KINDS| && ALL_KINDS[k] == kind;
  }

  lemma RecordsCarried(p: Platform, source: Source, m: Json, entries: Entries, kind: Kind)
    requires Carries(p, source, m, entries)
    ensures RecordPath(kind) in entries <==> Of(source.records, kind) != []
    ensures RecordPath(kind) in entries ==> entries[RecordPath(kind)] == RecordFile(p, Of(source.records, kind))
  {
    hide RecordFile;
    hide PlainPath;
    hide ChecksumFile;
    var path, files := RecordPath(kind), Covered(p, Payload(p, source), m);
    RecordPathShape(kind);
    hide RecordPath;
    FixedPathsShape();
    assert !Unchecked(path);
    if Of(source.records, kind) != [] {
      var k := KindIndex(kind);
      RecordFileOf(p, source.records, |ALL_KINDS|, k);
      assert path in files;
    } else {
      NoRecordFile(p, source, kind);
    }
  }

  lemma NoRecordFile(p: Platform, source: Source, kind: Kind)
    requires Of(source.records, kind) == []
    ensures RecordPath(kind) !in Payload(p, source)
  {
    hide RecordFiles;
    hide BlobFiles;
    hide PlainPath;
    RecordPathShape(kind);
    BlobFilesStart(Sort(BlobOrder(p.leq), source.blobs), RecordPath(kind));
    FileMeansRecords(p, source.records, kind);
  }

  lemma {:induction false} CountOf(records: RecordSet, n: nat, k: nat)
    requires k < n <= |ALL_KINDS|
    ensures KindName(ALL_KINDS[k]) in RecordCounts(records, n)
    ensures RecordCounts(records, n)[KindName(ALL_KINDS[k])] == Int(|Of(records, ALL_KINDS[k])|)
  {
    hide KindName;
    if k < n - 1 {
      CountOf(records, n - 1, k);
      KindsDistinct(k, n - 1);
      if KindName(ALL_KINDS[k]) == KindName(ALL_KINDS[n - 1]) {
        KindNameInjective(ALL_KINDS[k], ALL_KINDS[n - 1]);
      }
    }
  }

  /** What verification finds of a kind. */
  lemma KindReadBack(p: Platform, source: Source, m: Json, entries: Entries, kind: Kind)
    requires Lawful(p) && Carries(p, source, m, entries) && Describes(m, source)
    ensures FileOk(p, entries, m, kind)
    ensures HasRecords(p, entries, kind) <==> Of(source.records, kind) != []
    ensures kind in AllRecords(p, entries) ==>
              AllRecords(p, entries)[kind] == Objects(SortedRecords(p, Of(source.records, kind)))
  {
    hide Lawful;
    hide Carries;
    hide HeaderOk;
    hide RecordFile;
    hide RecordPath;
    hide KindName;
    hide RecordCounts;
    hide ReadRecords;
    RecordsCarried(p, source, m, entries, kind);
    var k := KindIndex(kind);
    CountOf(source.records, |ALL_KINDS|, k);
    if Of(source.records, kind) != [] {
      RecordsReadBack(p, Of(source.records, kind));
      SameMembers(SortedRecords(p, Of(source.records, kind)), Of(source.records, kind));
    }
  }

  /** Verification sees exactly the source's records, sorted. */
  lemma RecordsSeen(p: Platform, source: Source, m: Json, entries: Entries, kind: Kind)
    requires Lawful(p) && Carries(p, source, m, entries) && Describes(m, source)
    ensures Of(RecordsOf(AllRecords(p, entries)), kind) == SortedRecords(p, Of(source.records, kind))
  {
    hide Lawful;
    hide Carries;
    hide Describes;
    hide ReadRecords;
    hide RecordPath;
    KindReadBack(p, source, m, entries, kind);
    hide HasRecords;
    var records := Of(source.records, kind);
    if records != [] {
      assert AsRecords(Objects(SortedRecords(p, records))) == SortedRecords(p, records);
    }
  }

  lemma SortedSame(p: Platform, records: seq<Record>)
    ensures multiset(SortedRecords(p, records)) == multiset(records) && |SortedRecords(p, records)| == |records|
    ensures forall r :: r in SortedRecords(p, records) <==> r in records
  {
    SameMembers(SortedRecords(p, records), records);
  }

  lemma NothingThrown(p: Platform, source: Source, m: Json, entries: Entries)
    requires Lawful(p) && Carries(p, source, m, entries) && Describes(m, source)
    requires Lineage.LineageOk(BoundaryOf(m), Lineage.Nodes(Of(RecordsOf(AllRecords(p, entries)), AuditEvents)))
    ensures !Throws(p, entries)
  {
    Lineage.OkNeverThrows(BoundaryOf(m), Of(RecordsOf(AllRecords(p, entries)), AuditEvents));
    hide Lineage.LineageOk;
    hide Lineage.LineageThrows;
    hide RecordsOf;
    hide Lawful;
    hide Carries;
    hide Describes;
    hide AllRecords;
    hide RecordPath;
    hide AnyPrimitive;
    hide Counts;
    hide SortedRecords;
    ManifestCarried(p, source, m, entries);
    hide ReadManifest;
    CountsPresent(m, source);
    forall kind | kind in AllRecords(p, entries) ensures !AnyPrimitive(AllRecords(p, entries)[kind]) {
      KindReadBack(p, source, m, entries, kind);
      ObjectsNotPrimitive(SortedRecords(p, Of(source.records, kind)));
    }
  }

  lemma CountsPresent(m: Json, source: Source)
    requires Describes(m, source)
    ensures !Nullish(Counts(m))
  {
    hide HeaderOk;
    hide RecordCounts;
  }

  lemma ObjectsNotPrimitive(records: seq<Record>)
    ensures !AnyPrimitive(Objects(records))
  {
  }

  // ---------- scope ----------

  lemma ScopeHolds(p: Platform, source: Source, m: Json, entries: Entries)
    requires Lawful(p) && Carries(p, source, m, entries) && Describes(m, source) && ScopedSource(source)
    ensures BoundaryOk(m, RecordsOf(AllRecords(p, entries)))
  {
    hide Lawful;
    hide Carries;
    hide HeaderOk;
    hide AllRecords;
    hide SortedRecords;
    hide RevisionLinksOk;
    var records := RecordsOf(AllRecords(p, entries));
    forall kind ensures (forall r :: r in Of(records, kind) <==> r in Of(source.records, kind)) {
      RecordsSeen(p, source, m, entries, kind);
      SortedSame(p, Of(source.records, kind));
    }
    forall kind ensures KindInWorkspace(m, records, kind) {
    }
    SameLinks(source.records, records);
  }

  lemma SameLinks(a: RecordSet, b: RecordSet)
    requires forall kind, r :: r in Of(a, kind) <==> r in Of(b, kind)
    ensures forall r :: RevisionLinksOk(a, r) <==> RevisionLinksOk(b, r)
  {
    assert Ids(a, Resources) == Ids(b, Resources) && Ids(a, Revisions) == Ids(b, Revisions);
  }

  // ---------- lineage ----------

  function NodeOf(): Record -> Lineage.Node {
    (e: Record) => Lineage.Node(Lineage.HashOf(e), Lineage.LinkOf(e))
  }

  lemma NodesMap(events: seq<Record>)
    ensures Lineage.Nodes(events) == Map(NodeOf(), events)
  {
    hide Lineage.HashOf;
    hide Lineage.LinkOf;
  }

  function HashIn(): Lineage.Node -> string { (n: Lineage.Node) => n.hash }

  lemma HashesPermute(a: seq<Lineage.Node>, b: seq<Lineage.Node>)
    requires Lineage.HashesOk(a) && multiset(a) == multiset(b)
    ensures Lineage.HashesOk(b)
  {
    hide IsHexDigest;
    SameMembers(a, b);
    MapPermutes(HashIn(), a, b);
    DistinctPermutes(Map(HashIn(), a), Map(HashIn(), b));
    assert Distinct(Map(HashIn(), a));
    assert forall i, j :: 0 <= i < j < |b| ==> Map(HashIn(), b)[i] != Map(HashIn(), b)[j];
    forall i | 0 <= i < |b| ensures IsHexDigest(b[i].hash) {
      assert b[i] in b;
      assert b[i] in a;
    }
  }

  ghost function PlaceOf(b: seq<Lineage.Node>, x: Lineage.Node): (i: int)
    requires x in b
    ensures 0 <= i < |b| && b[i] == x
  {
    var i :| 0 <= i < |b| && b[i] == x;
    i
  }

  /** A chain stays a chain when its events are listed in another order. */
  lemma ChainPermutes(a: seq<Lineage.Node>, b: seq<Lineage.Node>, order: seq<int>) returns (order': seq<int>)
    requires Lineage.HashesOk(a) && multiset(a) == multiset(b) && a != [] && Lineage.IsChain(a, order)
    ensures |order'| == |order| == |b| && Lineage.IsChain(b, order')
    ensures b[order'[0]] == a[order[0]] && b[order'[|order'| - 1]] == a[order[|order| - 1]]
  {
    hide Lineage.HashesOk;
    SameMembers(a, b);
    assert forall k :: 0 <= k < |order| ==> a[order[k]] in a;
    order' := seq(|order|, k requires 0 <= k < |order| => assert a[order[k]] in a; PlaceOf(b, a[order[k]]));
    forall i, j | 0 <= i < j < |order'| ensures order'[i] != order'[j] {
      assert b[order'[i]] == a[order[i]] && b[order'[j]] == a[order[j]];
      DifferentNodes(a, order[i], order[j]);
    }
    forall k | 0 < k < |order'| ensures Lineage.LinksBack(b, order', k) {
      assert Lineage.LinksBack(a, order, k);
    }
  }

  lemma DifferentNodes(a: seq<Lineage.Node>, i: int, j: int)
    requires Lineage.HashesOk(a) && 0 <= i < |a| && 0 <= j < |a| && i != j
    ensures a[i] != a[j]
  {
    assert a[i].hash != a[j].hash;
  }

  lemma RootFound(events: seq<Record>, order: seq<int>)
    requires events != [] && Lineage.HashesOk(Lineage.Nodes(events)) && Lineage.IsChain(Lineage.Nodes(events), order)
    requires forall e :: e in events ==> Prop(e, "previousEventHash") != Some(Str(""))
    ensures FirstHash(events) == Str(Lineage.Nodes(events)[order[0]].hash)
  {
    hide Lineage.HashesOk;
    hide Lineage.Roots;
    var nodes := Lineage.Nodes(events);
    var e := events[order[0]];
    Lineage.RootOfChain(nodes, order);
    Lineage.RawHash(events, order[0]);
    assert e in events;
    forall f | f in events && NullLink(f) ensures OrNull(Prop(f, "eventHash")) == OrNull(Prop(e, "eventHash")) {
      var i :| 0 <= i < |events| && events[i] == f;
      RootIndex(nodes, i);
    }
    FirstHashIs(events, e);
  }

  lemma RootIndex(nodes: seq<Lineage.Node>, i: nat)
    requires i < |nodes| && nodes[i].link == Lineage.Root
    ensures i in Lineage.Roots(nodes)
  {
  }

  lemma LinksReferences(events: seq<Record>, h: string)
    requires h != ""
    ensures h in Links(events) <==> h in Lineage.References(Lineage.Nodes(events))
  {
    hide Lineage.References;
    var nodes := Lineage.Nodes(events);
    Lineage.ReferenceIff(nodes, h);
    if h in Links(events) {
      var e: Record :| e in events && "previousEventHash" in e && e["previousEventHash"] == Str(h);
      var i :| 0 <= i < |events| && events[i] == e;
      assert nodes[i].link == Lineage.To(h);
    }
    if i :| 0 <= i < |nodes| && nodes[i].link == Lineage.To(h) {
      assert events[i] in events && events[i]["previousEventHash"] == Str(h);
    }
  }

  lemma TailFound(events: seq<Record>, order: seq<int>)
    requires events != [] && Lineage.HashesOk(Lineage.Nodes(events)) && Lineage.IsChain(Lineage.Nodes(events), order)
    ensures LastHash(events, Links(events)) == Str(Lineage.Nodes(events)[order[|order| - 1]].hash)
  {
    hide Links;
    hide Lineage.IsChain;
    hide Lineage.References;
    var nodes, links := Lineage.Nodes(events), Links(events);
    ChainRange(nodes, order);
    var t := order[|order| - 1];
    var e := events[t];
    assert e in events;
    EndIs(events, order, t);
    forall f | f in events && EndOf(links, f) ensures f["eventHash"] == e["eventHash"] {
      var i :| 0 <= i < |events| && events[i] == f;
      EndIs(events, order, i);
    }
    LastHashIs(events, links, e);
    Lineage.RawHash(events, t);
  }

  lemma ChainRange(nodes: seq<Lineage.Node>, order: seq<int>)
    requires Lineage.IsChain(nodes, order) && nodes != []
    ensures |order| == |nodes| && 0 <= order[|order| - 1] < |nodes| && 0 <= order[0] < |nodes|
  {
  }

  /** In a chain an event is an open end exactly when it is the last. */
  lemma EndIs(events: seq<Record>, order: seq<int>, i: nat)
    requires events != [] && Lineage.HashesOk(Lineage.Nodes(events)) && Lineage.IsChain(Lineage.Nodes(events), order)
    requires i < |events|
    ensures EndOf(Links(events), events[i]) <==> i == order[|order| - 1]
  {
    hide Links;
    hide Lineage.IsChain;
    hide Lineage.References;
    var nodes := Lineage.Nodes(events);
    ChainRange(nodes, order);
    Lineage.RawHash(events, i);
    Lineage.ReferencedIff(nodes, order, i);
    assert IsHexDigest(nodes[i].hash);
    LinksReferences(events, nodes[i].hash);
  }

  lemma BoundaryFields(m: Json, source: Source)
    requires Describes(m, source)
    ensures var events := Of(source.records, AuditEvents);
            BoundaryOf(m) ==
            Lineage.Boundary(Some(Int(|events|)), Some(FirstHash(events)), Some(LastHash(events, Links(events))))
  {
    hide HeaderOk;
    hide FirstHash;
    hide LastHash;
    hide Links;
  }

  lemma LineageHolds(p: Platform, source: Source, m: Json, entries: Entries)
    requires Lawful(p) && Carries(p, source, m, entries) && Describes(m, source) && ChainedSource(source)
    ensures Lineage.LineageOk(BoundaryOf(m), Lineage.Nodes(Of(RecordsOf(AllRecords(p, entries)), AuditEvents)))
  {
    hide Lawful;
    hide Carries;
    hide Describes;
    hide BoundaryOf;
    hide AllRecords;
    hide FirstHash;
    hide LastHash;
    hide Links;
    hide Lineage.IsChain;
    hide Lineage.HashesOk;
    BoundaryFields(m, source);
    RecordsSeen(p, source, m, entries, AuditEvents);
    var events := Of(source.records, AuditEvents);
    var sorted := SortedRecords(p, events);
    SortedSame(p, events);
    hide SortedRecords;
    if events == [] {
      NoEvents();
    } else {
      var a, b := Lineage.Nodes(events), Lineage.Nodes(sorted);
      var order :| Lineage.IsChain(a, order);
      ChainRange(a, order);
      NodesMap(events);
      NodesMap(sorted);
      MapPermutes(NodeOf(), events, sorted);
      HashesPermute(a, b);
      var order' := ChainPermutes(a, b, order);
      RootFound(events, order);
      TailFound(events, order);
      assert Lineage.OneChain(BoundaryOf(m), b, order');
    }
  }

  lemma NoEvents()
    ensures FirstHash([]) == Null && LastHash([], Links([])) == Null
  {
  }

  // ---------- blobs ----------

  lemma BlobCarried(p: Platform, source: Source, m: Json, entries: Entries, b: BlobInput)
    requires Carries(p, source, m, entries) && Assembles(p, source) && b in source.blobs
    ensures BlobArchivePath(b.sha256).Some? && BlobArchivePath(b.sha256).value in entries
    ensures entries[BlobArchivePath(b.sha256).value] == b.bytes
  {
    hide ChecksumFile;
    hide Payload;
    hide Distinct;
    hide PlainPath;
    assert BlobOk(p, b);
    BlobInPayload(p, source, b);
    BlobPathShape(b.sha256);
    FixedPathsShape();
    var path := BlobArchivePath(b.sha256).value;
    hide BlobArchivePath;
    var files := Covered(p, Payload(p, source), m);
    assert path in files && files[path] == b.bytes;
  }

  lemma BlobInPayload(p: Platform, source: Source, b: BlobInput)
    requires Assembles(p, source) && b in source.blobs
    ensures BlobArchivePath(b.sha256).Some? && BlobArchivePath(b.sha256).value in Payload(p, source)
    ensures Payload(p, source)[BlobArchivePath(b.sha256).value] == b.bytes
  {
    hide RecordFiles;
    hide PlainPath;
    hide Distinct;
    hide BlobFiles;
    var blobs := Sort(BlobOrder(p.leq), source.blobs);
    SameMembers(blobs, source.blobs);
    assert BlobOk(p, b);
    OneBlobEach(source.blobs, b);
    BlobFileOf(blobs, b);
    BlobPathShape(b.sha256);
    RecordFilesStart(p, source.records, BlobArchivePath(b.sha256).value);
  }

  lemma OneBlobEach(blobs: seq<BlobInput>, b: BlobInput)
    requires Distinct(Map(DigestOf(), blobs)) && b in blobs
    ensures forall c :: c in blobs && c.sha256 == b.sha256 ==> c == b
  {
    var digests := Map(DigestOf(), blobs);
    var i :| 0 <= i < |blobs| && blobs[i] == b;
    forall c | c in blobs && c.sha256 == b.sha256 ensures c == b {
      var j :| 0 <= j < |blobs| && blobs[j] == c;
      assert digests[i] == digests[j];
    }
  }

  /** The size of the entry that holds a digest. */
  function SizeAt(entries: Entries): string -> int {
    (d: string) =>
      match BlobArchivePath(d)
      case Some(path) => if path in entries then |entries[path]| else 0
      case None => 0
  }

  lemma SizeOfRecord(entries: Entries, r: Record)
    requires BytesOf(entries, r).Some?
    ensures SizeAt(entries)(NamedDigest()(r)) == |BytesOf(entries, r).value|
  {
    hide BlobArchivePath;
  }

  lemma {:induction false} TotalByDigest(entries: Entries, records: seq<Record>)
    requires forall r :: r in records ==> BytesOf(entries, r).Some?
    ensures BlobTotal(entries, records) == Sum(SizeAt(entries), Map(NamedDigest(), records))
  {
    hide BytesOf;
    hide SizeAt;
    hide NamedDigest;
    if records != [] {
      var n := |records| - 1;
      assert forall r :: r in records[..n] ==> r in records;
      assert records[n] in records;
      SizeOfRecord(entries, records[n]);
      TotalByDigest(entries, records[..n]);
      assert Map(NamedDigest(), records)[..n] == Map(NamedDigest(), records[..n]);
    }
  }

  lemma {:induction false} LengthsByDigest(entries: Entries, blobs: seq<BlobInput>)
    requires forall b :: b in blobs ==> SizeAt(entries)(b.sha256) == b.byteLength
    ensures Sum(ByteLength(), blobs) == Sum(SizeAt(entries), Map(DigestOf(), blobs))
  {
    hide BlobArchivePath;
    if blobs != [] {
      var n := |blobs| - 1;
      assert forall b :: b in blobs[..n] ==> b in blobs;
      assert blobs[n] in blobs;
      LengthsByDigest(entries, blobs[..n]);
      assert Map(DigestOf(), blobs)[..n] == Map(DigestOf(), blobs[..n]);
    }
  }

  lemma BlobRecordHolds(p: Platform, source: Source, m: Json, entries: Entries, r: Record)
    requires Carries(p, source, m, entries) && Assembles(p, source) && BlobsMatch(source)
    requires r in Of(source.records, Records.Blobs)
    ensures BytesOf(entries, r).Some? && BlobRecordOk(p, entries, r)
  {
    hide Carries;
    hide BlobArchivePath;
    hide Distinct;
    var b :| b in source.blobs && RecordFits(b, r);
    BlobCarried(p, source, m, entries, b);
    assert BlobOk(p, b);
  }

  lemma TotalsAgree(p: Platform, source: Source, m: Json, entries: Entries, records: seq<Record>)
    requires Carries(p, source, m, entries) && Assembles(p, source) && BlobsMatch(source)
    requires multiset(records) == multiset(Of(source.records, Records.Blobs))
    ensures BlobTotal(entries, records) == Sum(ByteLength(), source.blobs) && |records| == |source.blobs|
  {
    hide Carries;
    hide BlobArchivePath;
    hide Distinct;
    hide BytesOf;
    hide BlobRecordOk;
    var own := Of(source.records, Records.Blobs);
    SameMembers(records, own);
    forall r | r in records ensures BytesOf(entries, r).Some? {
      BlobRecordHolds(p, source, m, entries, r);
    }
    TotalByDigest(entries, records);
    forall b | b in source.blobs ensures SizeAt(entries)(b.sha256) == b.byteLength {
      BlobCarried(p, source, m, entries, b);
      assert BlobOk(p, b);
    }
    LengthsByDigest(entries, source.blobs);
    MapPermutes(NamedDigest(), records, own);
    SumPermutes(SizeAt(entries), Map(NamedDigest(), records), Map(DigestOf(), source.blobs));
    SameMembers(Map(NamedDigest(), records), Map(DigestOf(), source.blobs));
  }

  lemma BlobsHold(p: Platform, source: Source, m: Json, entries: Entries)
    requires Lawful(p) && Carries(p, source, m, entries) && Describes(m, source)
    requires Assembles(p, source) && BlobsMatch(source)
    ensures BlobsOk(p, entries, m, Of(RecordsOf(AllRecords(p, entries)), Records.Blobs))
  {
    hide Lawful;
    hide Carries;
    hide HeaderOk;
    hide AllRecords;
    hide BlobsMatch;
    hide Assembles;
    hide BlobRecordOk;
    hide BlobTotal;
    RecordsSeen(p, source, m, entries, Records.Blobs);
    var own := Of(source.records, Records.Blobs);
    SortedSame(p, own);
    hide SortedRecords;
    var sorted := SortedRecords(p, own);
    forall r | r in sorted ensures BlobRecordOk(p, entries, r) {
      BlobRecordHolds(p, source, m, entries, r);
    }
    TotalsAgree(p, source, m, entries, sorted);
  }

  // ---------- the round trip ----------

  /** Entries that carry a well-scoped source pass every check on their content. */
  lemma CarriedVerifies(p: Platform, source: Source, m: Json, entries: Entries)
    requires Lawful(p) && WellScoped(p, source) && Carries(p, source, m, entries) && Describes(m, source)
    ensures SumFileOk(p, entries) && SumsHold(p, entries, StatedSums(p, entries))
    ensures ManifestOk(p, entries) && ReadManifest(p, entries) == Some(m)
    ensures RecordsOk(p, entries, m) && !Throws(p, entries)
    ensures forall kind :: Of(RecordsOf(AllRecords(p, entries)), kind) == SortedRecords(p, Of(source.records, kind))
  {
    hide Lawful;
    hide Carries;
    hide Describes;
    hide SumFileOk;
    hide SumsHold;
    hide ManifestOk;
    hide Throws;
    hide AllRecords;
    hide SortedRecords;
    hide FileOk;
    hide BoundaryOk;
    hide BlobsOk;
    hide ScopedSource;
    hide BlobsMatch;
    hide ChainedSource;
    hide Assembles;
    ChecksumsOk(p, source, m, entries);
    ManifestCarried(p, source, m, entries);
    LineageHolds(p, source, m, entries);
    NothingThrown(p, source, m, entries);
    forall kind ensures FileOk(p, entries, m, kind) {
      KindReadBack(p, source, m, entries, kind);
    }
    ScopeHolds(p, source, m, entries);
    BlobsHold(p, source, m, entries);
    forall kind ensures Of(RecordsOf(AllRecords(p, entries)), kind) == SortedRecords(p, Of(source.records, kind)) {
      RecordsSeen(p, source, m, entries, kind);
    }
  }

  lemma ManifestHeader(source: Source)
    requires ChainedSource(source)
    ensures HeaderOk(Manifest(source))
  {
    hide RecordCounts;
    hide FirstHash;
    hide LastHash;
    hide Links;
    hide Sort;
    hide Sum;
    hide Texts;
    EventsCounted(source);
    hide ChainedSource;
  }

  lemma EventsCounted(source: Source)
    requires ChainedSource(source)
    ensures |Of(source.records, AuditEvents)| <= MAX_SAFE_INTEGER
  {
    hide Lineage.HashesOk;
    hide Lineage.IsChain;
  }

  lemma ManifestDescribes(source: Source)
    requires ChainedSource(source)
    ensures Describes(Manifest(source), source)
  {
    hide RecordCounts;
    hide AuditLineage;
    hide Texts;
    hide Sort;
    hide Sum;
    hide HeaderOk;
    ManifestHeader(source);
    hide ChainedSource;
  }

  lemma UncheckedPaths()
    ensures Unchecked(CHECKSUMS) && Unchecked(SIGNATURE) && CHECKSUMS != SIGNATURE
  {
  }

  lemma AssembledCarries(p: Platform, source: Source)
    ensures Carries(p, source, Manifest(source), Assembled(p, source).entries)
    ensures SIGNATURE !in Assembled(p, source).entries
  {
    hide Manifest;
    hide ChecksumFile;
    hide AllPlain;
    hide Unchecked;
    UncheckedPaths();
    CoveredPlain(p, source, Manifest(source));
    hide Covered;
  }

  /** What a reader of the manifest learns about the source. */
  ghost predicate Tells(m: Json, source: Source) {
    var v := Some(m);
    && Field(v, "exportId") == Some(Str(source.exportId)) && Field(v, "workspaceId") == Some(Str(source.workspaceId))
    && Field(v, "createdAt") == Some(Str(source.createdAt)) && Field(v, "createdBy") == Some(Str(source.createdBy))
    && Field(v, "sourceVersion") == Some(Str(source.sourceVersion))
    && (exists ids :: Field(v, "datasetIds") == Some(Arr(Texts(ids))) && Rearranged(source.datasetIds, ids))
    && forall kind :: Field(Field(v, "recordCounts"), KindName(kind)) == Some(Int(|Of(source.records, kind)|))
  }

  /** The same ids in code unit order. */
  ghost predicate Rearranged(ids: seq<string>, sorted: seq<string>) {
    multiset(sorted) == multiset(ids) && Sorted(CodeUnitOrder(), sorted)
  }

  lemma ManifestTells(source: Source)
    ensures Tells(Manifest(source), source)
  {
    var ids := Sort(CodeUnitOrder(), source.datasetIds);
    CodeUnitsOrder();
    SortSorted(CodeUnitOrder(), source.datasetIds);
    assert Rearranged(source.datasetIds, ids);
    hide Rearranged;
    hide Sort;
    hide AuditLineage;
    hide Sum;
    ManifestTexts(source);
    forall kind
      ensures Field(Field(Some(Manifest(source)), "recordCounts"), KindName(kind)) ==
              Some(Int(|Of(source.records, kind)|))
    {
      hide Manifest;
      hide KindName;
      var k := KindIndex(kind);
      CountOf(source.records, |ALL_KINDS|, k);
    }
    hide Manifest;
  }

  lemma ManifestTexts(source: Source)
    ensures var v := Some(Manifest(source));
            && Field(v, "exportId") == Some(Str(source.exportId))
            && Field(v, "workspaceId") == Some(Str(source.workspaceId))
            && Field(v, "createdAt") == Some(Str(source.createdAt))
            && Field(v, "createdBy") == Some(Str(source.createdBy))
            && Field(v, "sourceVersion") == Some(Str(source.sourceVersion))
            && Field(v, "datasetIds") == Some(Arr(Texts(Sort(CodeUnitOrder(), source.datasetIds))))
            && Field(v, "recordCounts") == Some(Obj(RecordCounts(source.records, |ALL_KINDS|)))
  {
    hide Sort;
    hide AuditLineage;
    hide Sum;
    hide RecordCounts;
    hide Texts;
  }

  /**
   Assemble, then verify: a well-scoped source within the limits gives a valid archive, and
   verification returns its manifest and its records, sorted by id.
   */
  lemma AssembleThenVerify(p: Platform, limits: Limits, source: Source)
    requires Lawful(p) && WellScoped(p, source) && LimitsOk(limits, Assembled(p, source).entries)
    ensures var entries := Assembled(p, source).entries;
            && !Throws(p, entries) && ArchiveOk(p, limits, entries, false)
            && ReadManifest(p, entries) == Some(Assembled(p, source).manifest)
            && forall kind :: Of(RecordsOf(AllRecords(p, entries)), kind) == SortedRecords(p, Of(source.records, kind))
  {
    hide Lawful;
    hide Carries;
    hide Describes;
    hide SumFileOk;
    hide SumsHold;
    hide ManifestOk;
    hide Throws;
    hide AllRecords;
    hide SortedRecords;
    hide RecordsOk;
    hide LimitsOk;
    hide ReadManifest;
    ManifestDescribes(source);
    AssembledCarries(p, source);
    ManifestUnsigned(source);
    hide WithChecksums;
    hide Manifest;
    CarriedVerifies(p, source, Manifest(source), Assembled(p, source).entries);
  }

  lemma ManifestUnsigned(source: Source)
    ensures Unsigned(Manifest(source))
  {
  }
}
