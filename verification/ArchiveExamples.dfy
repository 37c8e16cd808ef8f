/** Sources that round trip, and archives on which verification throws (packages/archive/src/verify.ts). */
module ArchiveExamples {
  import opened Base
  import opened Digest
  import opened Text
  import opened Json
  import opened Records
  import opened Sorting
  import opened ArchiveFormat
  import opened ArchiveAssemble
  import opened ArchiveVerify
  import opened ArchiveReadback
  import opened ArchiveRoundTrip

  // ---------- a source that round trips ----------

  function Hash(c: char): (h: string)
    requires IsHex(c)
    ensures IsHexDigest(h) && h[0] == c
  {
    seq(64, i requires 0 <= i < 64 => c)
  }

  /** Two events, listed with the later one first. */
  function Events(): seq<Record> {
    [map["eventHash" := Str(Hash('1')), "previousEventHash" := Str(Hash('0'))],
     map["eventHash" := Str(Hash('0')), "previousEventHash" := Null]]
  }

  function Blob(p: Platform, bytes: Bytes): BlobInput {
    BlobInput(p.sha256(bytes), |bytes|, bytes)
  }

  function BlobRecord(p: Platform, bytes: Bytes): Record {
    map["sha256" := Str(p.sha256(bytes)), "byteLength" := Int(|bytes|)]
  }

  function SmallSource(p: Platform, bytes: Bytes): Source {
    Source("e", "w", [], "t", "u", "v", map[AuditEvents := Events(), Records.Blobs := [BlobRecord(p, bytes)]],
           [Blob(p, bytes)])
  }

  lemma EventsChain(source: Source)
    requires Of(source.records, AuditEvents) == Events()
    ensures ChainedSource(source)
  {
    var nodes := Lineage.Nodes(Events());
    assert nodes[0] == Lineage.Node(Hash('1'), Lineage.To(Hash('0')));
    assert nodes[1] == Lineage.Node(Hash('0'), Lineage.Root);
    hide Hash;
    assert Lineage.LinksBack(nodes, [1, 0], 1);
    assert Lineage.IsChain(nodes, [1, 0]);
  }

  lemma BlobFits(p: Platform, bytes: Bytes)
    requires Lawful(p)
    ensures var source := SmallSource(p, bytes);
            Assembles(p, source) && BlobsMatch(source)
  {
    hide Events;
    var source := SmallSource(p, bytes);
    Hexadecimal(p, bytes);
    hide Lawful;
    assert BlobOk(p, source.blobs[0]);
    var records := Of(source.records, Records.Blobs);
    assert RecordFits(source.blobs[0], records[0]) && source.blobs[0] in source.blobs;
    assert Map(NamedDigest(), records) == [p.sha256(bytes)] == Map(DigestOf(), source.blobs);
  }

  /** A source with a blob and two audit events is well scoped. */
  lemma SmallSourceIsWellScoped(p: Platform, bytes: Bytes)
    requires Lawful(p)
    ensures WellScoped(p, SmallSource(p, bytes))
  {
    hide Lawful;
    hide Assembles;
    hide BlobsMatch;
    hide ChainedSource;
    hide ScopedSource;
    BlobFits(p, bytes);
    EventsChain(SmallSource(p, bytes));
    SmallSourceScoped(p, bytes);
  }

  lemma SmallSourceScoped(p: Platform, bytes: Bytes)
    ensures ScopedSource(SmallSource(p, bytes))
  {
    hide Hash;
    hide RevisionLinksOk;
  }

  // ---------- archives on which verification throws ----------

  /** The manifest of the small source is good, so there is such a manifest. */
  lemma SmallManifest(p: Platform, bytes: Bytes)
    ensures Manifest(SmallSource(p, bytes)).Obj? && HeaderOk(Manifest(SmallSource(p, bytes)))
  {
    hide HeaderOk;
    hide Events;
    EventsChain(SmallSource(p, bytes));
    ManifestHeader(SmallSource(p, bytes));
  }

  function Uncounted(m: Json): Json
    requires m.Obj?
  {
    Obj(m.fields - {"recordCounts"})
  }

  lemma UncountedHeader(m: Json)
    requires m.Obj? && HeaderOk(m)
    ensures HeaderOk(Uncounted(m)) && Counts(Uncounted(m)) == None
  {
    hide HeaderOk;
    assert forall name :: name != "recordCounts" ==> Field(Some(Uncounted(m)), name) == Field(Some(m), name);
    SameHeader(m, Uncounted(m));
  }

  /** The form of a manifest does not depend on its record counts. */
  lemma SameHeader(a: Json, b: Json)
    requires HeaderOk(a) && forall name :: name != "recordCounts" ==> Field(Some(b), name) == Field(Some(a), name)
    ensures HeaderOk(b)
  {
    hide Field;
  }

  /** Any good manifest without its record counts, and record files missing. */
  lemma UncountedThrows(p: Platform, m: Json)
    requires Lawful(p) && m.Obj? && HeaderOk(m)
    ensures Throws(p, map[MANIFEST := ManifestFile(p, Uncounted(m))])
  {
    hide Lawful;
    hide HeaderOk;
    hide ManifestFile;
    hide ReadManifest;
    hide AllRecords;
    hide Counts;
    hide RecordPath;
    var entries := map[MANIFEST := ManifestFile(p, Uncounted(m))];
    UncountedHeader(m);
    ManifestReadBack(p, entries, Uncounted(m));
    PathsDiffer(Datasets);
    assert RecordPath(Datasets) !in entries;
  }

  /** A file with the one line "null". */
  function NullFile(p: Platform): Bytes {
    p.encode(Join('\n', ["null"]) + "\n")
  }

  lemma OneLineParses(p: Platform, line: string, v: Json)
    requires p.parse(line) == Some(v)
    ensures ParseAll(p, [line]) == Some([v])
  {
    var lines := [line];
    assert lines[..0] == [] && ParseAll(p, lines[..0]) == Some([]);
    assert [] + [v] == [v];
  }

  lemma NullFileReads(p: Platform)
    requires Lawful(p)
    ensures ReadRecords(p, NullFile(p)) == Some([Null])
  {
    hide Lawful;
    hide ParseAll;
    LinesReadBack(p, ["null"]);
    LinesNonEmpty(["null"]);
    Parses(p, Null);
    OneLineParses(p, "null", Null);
  }

  lemma NullFound(p: Platform, entries: Entries, kind: Kind)
    requires Lawful(p) && RecordPath(kind) in entries && entries[RecordPath(kind)] == NullFile(p)
    ensures HasRecords(p, entries, kind) && AllRecords(p, entries)[kind] == [Null]
  {
    hide Lawful;
    hide NullFile;
    hide ReadRecords;
    hide RecordPath;
    NullFileReads(p);
  }

  lemma PathsDiffer(kind: Kind)
    ensures RecordPath(kind) != MANIFEST
  {
    RecordPathShape(kind);
    FixedPathsShape();
  }

  /** A record line that is neither an object nor an array, under any good manifest. */
  lemma PrimitiveThrows(p: Platform, m: Json, kind: Kind)
    requires Lawful(p) && m.Obj? && HeaderOk(m)
    ensures Throws(p, map[MANIFEST := ManifestFile(p, m), RecordPath(kind) := NullFile(p)])
  {
    hide Lawful;
    hide HeaderOk;
    hide ManifestFile;
    hide ReadManifest;
    hide NullFile;
    hide RecordPath;
    hide AllRecords;
    hide HasRecords;
    hide Counts;
    PathsDiffer(kind);
    var entries := map[MANIFEST := ManifestFile(p, m), RecordPath(kind) := NullFile(p)];
    ManifestReadBack(p, entries, m);
    NullFound(p, entries, kind);
    KindFound(p, entries, kind);
    assert Primitive(Null) && Null in AllRecords(p, entries)[kind];
  }

  lemma KindFound(p: Platform, entries: Entries, kind: Kind)
    requires HasRecords(p, entries, kind)
    ensures kind in AllRecords(p, entries)
  {
  }

  /** An event whose hash has no text. */
  function OddEvent(): Record {
    map["eventHash" := Obj(map["toString" := Int(0)])]
  }

  /** A lone event is the tail of its archive. */
  lemma OddEventThrows()
    ensures Lineage.LineageThrows([OddEvent()])
  {
    var events := [OddEvent()];
    var nodes := Lineage.Nodes(events);
    assert nodes == [Lineage.Node("", Lineage.Root)];
    Lineage.ReferenceIff(nodes, "");
    var tails := Lineage.Tails(nodes);
    assert 0 in tails;
    forall k | 0 <= k < |tails| ensures tails[k] == 0 {
      assert tails[k] in tails;
    }
    assert Distinct(tails) && |tails| == 1;
    assert Lineage.TextlessHash(events[0]);
  }

  /** An audit event whose hash has no text, under any good manifest. */
  lemma TextlessHashThrows(p: Platform, m: Json)
    requires Lawful(p) && m.Obj? && HeaderOk(m)
    ensures Throws(p, map[MANIFEST := ManifestFile(p, m), RecordPath(AuditEvents) := RecordFile(p, [OddEvent()])])
  {
    hide Lawful;
    hide HeaderOk;
    hide ManifestFile;
    hide ReadManifest;
    hide RecordFile;
    hide RecordPath;
    hide Counts;
    hide OddEvent;
    hide SomePrimitive;
    hide Lineage.LineageThrows;
    PathsDiffer(AuditEvents);
    var entries := map[MANIFEST := ManifestFile(p, m), RecordPath(AuditEvents) := RecordFile(p, [OddEvent()])];
    ManifestReadBack(p, entries, m);
    RecordsReadBack(p, [OddEvent()]);
    hide ReadRecords;
    OneSorted(p, OddEvent());
    assert AllRecords(p, entries)[AuditEvents] == [Obj(OddEvent())];
    assert Of(RecordsOf(AllRecords(p, entries)), AuditEvents) == [OddEvent()];
    OddEventThrows();
  }

  lemma OneSorted(p: Platform, r: Record)
    ensures SortedRecords(p, [r]) == [r]
  {
    SameMembers(SortedRecords(p, [r]), [r]);
  }

  /** A blob record that is null, in an archive without a manifest. */
  lemma NullBlobThrows(p: Platform)
    requires Lawful(p)
    ensures Throws(p, map[RecordPath(Records.Blobs) := NullFile(p)])
  {
    hide Lawful;
    hide NullFile;
    hide RecordPath;
    hide AllRecords;
    hide HasRecords;
    PathsDiffer(Records.Blobs);
    var entries := map[RecordPath(Records.Blobs) := NullFile(p)];
    NullFound(p, entries, Records.Blobs);
    KindFound(p, entries, Records.Blobs);
    assert Null in AllRecords(p, entries)[Records.Blobs];
  }
}
