/** Assembly of an archive's entries from a source (packages/archive/src/assemble.ts). */
module ArchiveAssemble {
  import opened Base
  import opened Digest
  import opened Text
  import opened Paths
  import opened Json
  import opened Records
  import opened Sorting
  import opened ArchiveFormat

  datatype BlobInput = BlobInput(sha256: string, byteLength: int, bytes: Bytes)

  datatype Source = Source(
    exportId: string, workspaceId: string, datasetIds: seq<string>, createdAt: string, createdBy: string,
    sourceVersion: string, records: RecordSet, blobs: seq<BlobInput>)

  datatype ArchiveSet = ArchiveSet(entries: Entries, manifest: Json)

  datatype AssembleError = BlobLengthMismatch | BlobDigestMismatch | BlobDigestInvalid | UnsafePath | DuplicatePath

  // ---------- the manifest ----------

  predicate NullLink(event: Record) {
    Prop(event, "previousEventHash") == None || Prop(event, "previousEventHash") == Some(Null)
  }

  function OrNull(v: Option<Json>): Json {
    match v
    case Some(j) => j
    case None => Null
  }

  /** The hash of the first event that links to nothing. */
  function FirstHash(events: seq<Record>): Json {
    if events == [] then Null
    else if NullLink(events[0]) then OrNull(Prop(events[0], "eventHash"))
    else FirstHash(events[1..])
  }

  function Links(events: seq<Record>): set<string> {
    set e: Record | e in events && "previousEventHash" in e && e["previousEventHash"].Str? :: e["previousEventHash"].s
  }

  /** The first hash that no event links to. */
  function LastHash(events: seq<Record>, links: set<string>): Json {
    if events == [] then Null
    else
      match Prop(events[0], "eventHash")
      case Some(Str(h)) => if h in links then LastHash(events[1..], links) else Str(h)
      case _ => LastHash(events[1..], links)
  }

  function AuditLineage(source: Source): Json {
    var events := Of(source.records, AuditEvents);
    Obj(map["mode" := Str("source_chain"), "sourceWorkspaceId" := Str(source.workspaceId),
            "eventCount" := Int(|events|),
            "firstEventHash" := FirstHash(events), "lastEventHash" := LastHash(events, Links(events))])
  }

  /** The number of records of the first `n` kinds, by kind name. */
  function RecordCounts(records: RecordSet, n: nat): map<string, Json>
    requires n <= |ALL_KINDS|
  {
    if n == 0 then map[]
      else RecordCounts(records, n - 1)[KindName(ALL_KINDS[n - 1]) := Int(|Of(records, ALL_KINDS[n - 1])|)]
  }

  function ByteLength(): BlobInput -> int { (b: BlobInput) => b.byteLength }

  function DigestOf(): BlobInput -> string { (b: BlobInput) => b.sha256 }

  function Texts(ids: seq<string>): seq<Json> {
    seq(|ids|, i requires 0 <= i < |ids| => Str(ids[i]))
  }

  function Manifest(source: Source): Json {
    Obj(map[
      "format" := Str("trustarchive"), "formatVersion" := Str("0.2"), "exportId" := Str(source.exportId),
      "workspaceId" := Str(source.workspaceId), "datasetIds" := Arr(Texts(Sort(CodeUnitOrder(), source.datasetIds))),
      "createdAt" := Str(source.createdAt), "createdBy" := Str(source.createdBy),
      "sourceVersion" := Str(source.sourceVersion), "checksumAlgorithm" := Str("sha256"),
      "canonicalJsonProfile" := Str("trust-core-canonical-json-v1"), "signatureProfile" := Str("unsigned"),
      "auditLineage" := AuditLineage(source), "recordCounts" := Obj(RecordCounts(source.records, |ALL_KINDS|)),
      "blobCount" := Int(|source.blobs|), "totalBlobBytes" := Int(Sum(ByteLength(), source.blobs))])
  }

  // ---------- the entries ----------

  predicate BlobOk(p: Platform, b: BlobInput) {
    BlobArchivePath(b.sha256).Some? && |b.bytes| == b.byteLength && p.sha256(b.bytes) == b.sha256
  }

  /** The sources that assemble: every blob is what it claims, and none is given twice. */
  ghost predicate Assembles(p: Platform, source: Source) {
    (forall b :: b in source.blobs ==> BlobOk(p, b)) && Distinct(Map(DigestOf(), source.blobs))
  }

  function BlobOrder(leq: (string, string) -> bool): (BlobInput, BlobInput) -> bool {
    (a: BlobInput, b: BlobInput) => leq(a.sha256, b.sha256)
  }

  function BlobFiles(blobs: seq<BlobInput>): Entries {
    if blobs == [] then map[]
    else
      var n := |blobs| - 1;
      match BlobArchivePath(blobs[n].sha256)
      case None => BlobFiles(blobs[..n])
      case Some(path) => BlobFiles(blobs[..n])[path := blobs[n].bytes]
  }

  /** The record files of the first `n` kinds; a kind without records has none. */
  function RecordFiles(p: Platform, records: RecordSet, n: nat): Entries
    requires n <= |ALL_KINDS|
  {
    if n == 0 then map[]
    else
      var kind := ALL_KINDS[n - 1];
      if Of(records, kind) == [] then RecordFiles(p, records, n - 1)
      else RecordFiles(p, records, n - 1)[RecordPath(kind) := RecordFile(p, Of(records, kind))]
  }

  const README_TEXT := "Trust Core portable archive\nVerify checksums before reading or importing records.\n"

  /** The records and blobs of an archive, and its readme. */
  function Payload(p: Platform, source: Source): Entries {
    BlobFiles(Sort(BlobOrder(p.leq), source.blobs)) + RecordFiles(p, source.records, |ALL_KINDS|)
  }

  /** A payload with a manifest, everything the checksum file covers. */
  function Covered(p: Platform, payload: Entries, manifest: Json): Entries {
    payload[MANIFEST := ManifestFile(p, manifest)][README := p.encode(README_TEXT)]
  }

  function WithChecksums(p: Platform, files: Entries): Entries {
    files[CHECKSUMS := ChecksumFile(p, files)]
  }

  function Assembled(p: Platform, source: Source): ArchiveSet {
    ArchiveSet(WithChecksums(p, Covered(p, Payload(p, source), Manifest(source))), Manifest(source))
  }

  // ---------- where the paths lie ----------

  lemma BlobPathShape(digest: string)
    requires IsHexDigest(digest)
    ensures var path := BlobArchivePath(digest).value;
            |path| == 73 && path[0] == 'b' && path[9..] == digest && PlainPath(path)
  {
    var path := BlobArchivePath(digest).value;
    JoinFew('/', "blobs", digest[..2], digest);
    assert forall i :: 0 <= i < 64 ==> IsHex(digest[i]);
    assert digest[..2][0] != '.' && PlainChars(digest) && PlainChars(digest[..2]) && PlainChars("blobs");
    assert path == Join('/', ["blobs", digest[..2], digest]);
    ShortPathSafe(["blobs", digest[..2], digest]);
  }

  lemma KindNamePlain(kind: Kind)
    ensures PlainChars(KindName(kind)) && |KindName(kind)| <= 15
  {
    match kind
    case Workspaces => case SchemaPackages => case Datasets => case Resources => case Revisions =>
    case RevisionBlobs => case Blobs => case Relations => case Tombstones => case AuditEvents => case Retention =>
  }

  lemma KindFileName(kind: Kind)
    ensures PlainName(KindName(kind) + ".jsonl")
  {
    hide KindName;
    KindNamePlain(kind);
    assert PlainChars(".jsonl");
  }

  lemma RecordPathShape(kind: Kind)
    ensures |RecordPath(kind)| > 2 && RecordPath(kind)[0] == 'r' && PlainPath(RecordPath(kind))
  {
    hide KindName;
    KindFileName(kind);
    assert PlainName("records");
    JoinFew('/', "records", KindName(kind) + ".jsonl", "");
    assert RecordPath(kind) == Join('/', ["records", KindName(kind) + ".jsonl"]);
    hide PlainName;
    hide PlainPath;
    ShortPathSafe(["records", KindName(kind) + ".jsonl"]);
  }

  lemma RecordPathsDiffer(a: Kind, b: Kind)
    requires RecordPath(a) == RecordPath(b)
    ensures a == b
  {
    var x, y := RecordPath(a), RecordPath(b);
    var n, m := KindName(a), KindName(b);
    hide KindName;
    assert x == "records/" + n + ".jsonl" && y == "records/" + m + ".jsonl";
    assert n == x[8..|x| - 6] && m == y[8..|y| - 6];
    KindNameInjective(a, b);
  }

  lemma FixedPathsShape()
    ensures PlainPath(MANIFEST) && PlainPath(README) && PlainPath(CHECKSUMS) && PlainPath(SIGNATURE)
    ensures MANIFEST[0] == 'm' && README[0] == 'R' && CHECKSUMS[0] == 'c' && SIGNATURE[0] == 's'
  {
    hide PlainPath;
    hide PlainName;
    FixedNames();
    NamePath(MANIFEST);
    NamePath(README);
    NamesPath("checksums", "sha256sums.txt");
    NamesPath("signatures", "manifest-signature.json");
    assert CHECKSUMS == "checksums" + "/" + "sha256sums.txt";
    assert SIGNATURE == "signatures" + "/" + "manifest-signature.json";
  }

  lemma FixedNames()
    ensures PlainName(MANIFEST) && PlainName(README) && PlainName("checksums") && PlainName("sha256sums.txt")
    ensures PlainName("signatures") && PlainName("manifest-signature.json")
  {
    FolderNames();
    hide PlainName;
    FileNames();
  }

  lemma FolderNames()
    ensures PlainName("checksums") && PlainName("signatures")
  {
  }

  lemma FileNames()
    ensures PlainName(MANIFEST) && PlainName(README) && PlainName("sha256sums.txt")
    ensures PlainName("manifest-signature.json")
  {
  }

  lemma NamePath(name: string)
    requires PlainName(name)
    ensures PlainPath(name)
  {
    hide PlainName;
    hide PlainPath;
    ShortPathSafe([name]);
  }

  lemma NamesPath(a: string, b: string)
    requires PlainName(a) && PlainName(b)
    ensures PlainPath(a + "/" + b)
  {
    hide PlainName;
    hide PlainPath;
    JoinFew('/', a, b, "");
    ShortPathSafe([a, b]);
  }

  // ---------- what the files are ----------

  predicate FileOf(records: RecordSet, kind: Kind, path: string) {
    Of(records, kind) != [] && path == RecordPath(kind)
  }

  lemma {:induction false} RecordFilesAt(p: Platform, records: RecordSet, n: nat, path: string)
    requires n <= |ALL_KINDS| && path in RecordFiles(p, records, n)
    ensures exists kind :: FileOf(records, kind, path)
  {
    hide RecordPath;
    if n > 0 {
      if path in RecordFiles(p, records, n - 1) {
        RecordFilesAt(p, records, n - 1, path);
      } else {
        assert FileOf(records, ALL_KINDS[n - 1], path);
      }
    }
  }

  lemma {:induction false} RecordFileOf(p: Platform, records: RecordSet, n: nat, k: nat)
    requires k < n <= |ALL_KINDS| && Of(records, ALL_KINDS[k]) != []
    ensures RecordPath(ALL_KINDS[k]) in RecordFiles(p, records, n)
    ensures RecordFiles(p, records, n)[RecordPath(ALL_KINDS[k])] == RecordFile(p, Of(records, ALL_KINDS[k]))
  {
    hide RecordPath;
    hide RecordFile;
    if k < n - 1 {
      RecordFileOf(p, records, n - 1, k);
      KindsDistinct(k, n - 1);
      if RecordPath(ALL_KINDS[k]) == RecordPath(ALL_KINDS[n - 1]) {
        RecordPathsDiffer(ALL_KINDS[k], ALL_KINDS[n - 1]);
      }
    }
  }

  lemma KindsDistinct(i: nat, j: nat)
    requires i < j < |ALL_KINDS|
    ensures ALL_KINDS[i] != ALL_KINDS[j]
  {
  }

  lemma {:induction false} BlobFilesAt(blobs: seq<BlobInput>, path: string)
    ensures path in BlobFiles(blobs) <==> exists b :: b in blobs && BlobArchivePath(b.sha256) == Some(path)
  {
    hide BlobArchivePath;
    if blobs != [] {
      var n := |blobs| - 1;
      BlobFilesAt(blobs[..n], path);
      assert forall b :: b in blobs <==> b in blobs[..n] || b == blobs[n];
    }
  }

  lemma BlobFilesStart(blobs: seq<BlobInput>, path: string)
    ensures path in BlobFiles(blobs) ==> path != "" && path[0] == 'b' && PlainPath(path)
  {
    hide PlainPath;
    if path in BlobFiles(blobs) {
      BlobFilesAt(blobs, path);
      var b :| b in blobs && BlobArchivePath(b.sha256) == Some(path);
      BlobPathShape(b.sha256);
    }
  }

  lemma RecordFilesStart(p: Platform, records: RecordSet, path: string)
    ensures path in RecordFiles(p, records, |ALL_KINDS|) ==> path != "" && path[0] == 'r' && PlainPath(path)
  {
    hide RecordFiles;
    hide PlainPath;
    if path in RecordFiles(p, records, |ALL_KINDS|) {
      RecordFilesAt(p, records, |ALL_KINDS|, path);
      var kind :| FileOf(records, kind, path);
      RecordPathShape(kind);
    }
  }

  /** A kind has a record file only when it has records. */
  lemma FileMeansRecords(p: Platform, records: RecordSet, kind: Kind)
    ensures RecordPath(kind) in RecordFiles(p, records, |ALL_KINDS|) ==> Of(records, kind) != []
  {
    hide RecordFiles;
    if RecordPath(kind) in RecordFiles(p, records, |ALL_KINDS|) {
      RecordFilesAt(p, records, |ALL_KINDS|, RecordPath(kind));
      var other :| FileOf(records, other, RecordPath(kind));
      RecordPathsDiffer(kind, other);
    }
  }

  lemma {:induction false} BlobFileOf(blobs: seq<BlobInput>, b: BlobInput)
    requires b in blobs && IsHexDigest(b.sha256) && forall c :: c in blobs && c.sha256 == b.sha256 ==> c == b
    ensures BlobArchivePath(b.sha256).value in BlobFiles(blobs)
    ensures BlobFiles(blobs)[BlobArchivePath(b.sha256).value] == b.bytes
  {
    var n := |blobs| - 1;
    assert blobs[n] in blobs;
    if blobs[n] != b {
      assert b in blobs[..n];
      assert forall c :: c in blobs[..n] ==> c in blobs;
      BlobFileOf(blobs[..n], b);
      if IsHexDigest(blobs[n].sha256) {
        BlobPathsDiffer(b.sha256, blobs[n].sha256);
      }
    }
  }

  lemma BlobPathsDiffer(a: string, b: string)
    requires IsHexDigest(a) && IsHexDigest(b)
    ensures BlobArchivePath(a) == BlobArchivePath(b) ==> a == b
  {
    BlobPathShape(a);
    BlobPathShape(b);
  }

  // ---------- the assembler ----------

  method Add(entries: Entries, path: string, bytes: Bytes) returns (r: Result<Entries, AssembleError>)
    ensures r == if !SafePath(path) then Err(UnsafePath) else if path in entries then Err(DuplicatePath)
            else Ok(entries[path := bytes])
  {
    if !SafePath(path) {
      return Err(UnsafePath);
    }
    if path in entries {
      return Err(DuplicatePath);
    }
    r := Ok(entries[path := bytes]);
  }

  lemma DistinctSnoc(blobs: seq<BlobInput>, i: nat)
    requires i < |blobs| && (forall k :: 0 <= k <= i ==> BlobArchivePath(blobs[k].sha256).Some?)
    requires Distinct(Map(DigestOf(), blobs[..i]))
    ensures Distinct(Map(DigestOf(), blobs[..i + 1])) <==>
            BlobArchivePath(blobs[i].sha256).value !in BlobFiles(blobs[..i])
  {
    var path := BlobArchivePath(blobs[i].sha256).value;
    BlobFilesAt(blobs[..i], path);
    var some, more := Map(DigestOf(), blobs[..i]), Map(DigestOf(), blobs[..i + 1]);
    assert more == some + [blobs[i].sha256];
    if b :| b in blobs[..i] && BlobArchivePath(b.sha256) == Some(path) {
      var k :| 0 <= k < i && blobs[..i][k] == b;
      BlobPathsDiffer(b.sha256, blobs[i].sha256);
      assert more[k] == more[i];
    } else {
      forall k | 0 <= k < i ensures some[k] != blobs[i].sha256 {
        assert blobs[..i][k] in blobs[..i];
      }
    }
  }

  lemma DistinctPrefix(blobs: seq<BlobInput>, i: nat)
    requires i <= |blobs| && Distinct(Map(DigestOf(), blobs))
    ensures Distinct(Map(DigestOf(), blobs[..i]))
  {
    assert Map(DigestOf(), blobs[..i]) == Map(DigestOf(), blobs)[..i];
  }

  method AddBlobs(p: Platform, blobs: seq<BlobInput>) returns (r: Result<Entries, AssembleError>)
    ensures match r
            case Ok(entries) => entries == BlobFiles(blobs) && (forall b :: b in blobs ==> BlobOk(p, b))
              && Distinct(Map(DigestOf(), blobs))
            case Err(_) => !((forall b :: b in blobs ==> BlobOk(p, b)) && Distinct(Map(DigestOf(), blobs)))
  {
    hide BlobArchivePath;
    hide SafePath;
    hide Distinct;
    hide Map;
    var entries: Entries := map[];
    NoBlobs();
    for i := 0 to |blobs|
      invariant entries == BlobFiles(blobs[..i])
      invariant forall k :: 0 <= k < i ==> BlobOk(p, blobs[k])
      invariant Distinct(Map(DigestOf(), blobs[..i]))
    {
      var blob := blobs[i];
      assert blob in blobs;
      if |blob.bytes| != blob.byteLength {
        return Err(BlobLengthMismatch);
      }
      if p.sha256(blob.bytes) != blob.sha256 {
        return Err(BlobDigestMismatch);
      }
      var path := BlobArchivePath(blob.sha256);
      if path == None {
        return Err(BlobDigestInvalid);
      }
      BlobPathSafe(blob.sha256);
      DistinctSnoc(blobs, i);
      assert blobs[..i + 1][..i] == blobs[..i];
      var added := Add(entries, path.value, blob.bytes);
      if added.Err? {
        if Distinct(Map(DigestOf(), blobs)) {
          DistinctPrefix(blobs, i + 1);
        }
        return Err(added.error);
      }
      entries := added.value;
    }
    assert blobs[..|blobs|] == blobs;
    r := Ok(entries);
  }

  lemma NoBlobs()
    ensures Distinct(Map(DigestOf(), []))
  {
  }

  lemma BlobPathSafe(digest: string)
    ensures BlobArchivePath(digest).Some? ==> SafePath(BlobArchivePath(digest).value)
  {
    if IsHexDigest(digest) {
      BlobPathShape(digest);
    }
  }

  method AddRecords(p: Platform, blobs: seq<BlobInput>, records: RecordSet) returns (r: Entries)
    ensures r == BlobFiles(blobs) + RecordFiles(p, records, |ALL_KINDS|)
  {
    hide RecordPath;
    hide SafePath;
    hide RecordFile;
    hide BlobFiles;
    var entries := BlobFiles(blobs);
    for k := 0 to |ALL_KINDS|
      invariant entries == BlobFiles(blobs) + RecordFiles(p, records, k)
    {
      var kind := ALL_KINDS[k];
      if Of(records, kind) != [] {
        RecordPathNew(p, blobs, records, k);
        var added := Add(entries, RecordPath(kind), RecordFile(p, Of(records, kind)));
        entries := added.value;
      }
    }
    r := entries;
  }

  /** No record file collides with an earlier one or with a blob. */
  lemma RecordPathNew(p: Platform, blobs: seq<BlobInput>, records: RecordSet, k: nat)
    requires k < |ALL_KINDS|
    ensures SafePath(RecordPath(ALL_KINDS[k]))
    ensures RecordPath(ALL_KINDS[k]) !in BlobFiles(blobs) && RecordPath(ALL_KINDS[k]) !in RecordFiles(p, records, k)
  {
    hide SafePath;
    hide RecordFile;
    var path := RecordPath(ALL_KINDS[k]);
    RecordPathShape(ALL_KINDS[k]);
    hide RecordPath;
    BlobFilesStart(blobs, path);
    EarlierFiles(p, records, k, k);
  }

  lemma {:induction false} EarlierFiles(p: Platform, records: RecordSet, n: nat, k: nat)
    requires n <= k < |ALL_KINDS|
    ensures RecordPath(ALL_KINDS[k]) !in RecordFiles(p, records, n)
  {
    hide RecordPath;
    hide RecordFile;
    if n > 0 {
      EarlierFiles(p, records, n - 1, k);
      KindsDistinct(n - 1, k);
      if RecordPath(ALL_KINDS[k]) == RecordPath(ALL_KINDS[n - 1]) {
        RecordPathsDiffer(ALL_KINDS[k], ALL_KINDS[n - 1]);
      }
    }
  }

  /** None of the fixed paths is a blob or a record file. */
  lemma PayloadPaths(p: Platform, source: Source, path: string)
    requires path in Payload(p, source)
    ensures path != "" && PlainPath(path) && (path[0] == 'b' || path[0] == 'r')
  {
    hide PlainPath;
    var blobs := Sort(BlobOrder(p.leq), source.blobs);
    BlobFilesStart(blobs, path);
    RecordFilesStart(p, source.records, path);
  }

  lemma PayloadFresh(p: Platform, source: Source)
    ensures MANIFEST !in Payload(p, source) && README !in Payload(p, source) && CHECKSUMS !in Payload(p, source)
  {
    hide Payload;
    hide PlainPath;
    FixedPathsShape();
    forall path | path in Payload(p, source) ensures path != "" && (path[0] == 'b' || path[0] == 'r') {
      PayloadPaths(p, source, path);
    }
  }

  /** Succeeds exactly on the sources that assemble, with the entries and manifest they have. */
  method AssembleArchiveEntries(p: Platform, source: Source) returns (r: Result<ArchiveSet, AssembleError>)
    ensures match r
            case Ok(archive) => Assembles(p, source) && archive == Assembled(p, source)
            case Err(_) => !Assembles(p, source)
  {
    hide SafePath;
    hide BlobOk;
    hide Distinct;
    hide Map;
    hide RecordFiles;
    hide BlobFiles;
    hide ChecksumFile;
    hide Manifest;
    hide ManifestFile;
    var blobs := Sort(BlobOrder(p.leq), source.blobs);
    SameMembers(blobs, source.blobs);
    MapPermutes(DigestOf(), blobs, source.blobs);
    DistinctPermutes(Map(DigestOf(), blobs), Map(DigestOf(), source.blobs));
    var added := AddBlobs(p, blobs);
    if added.Err? {
      return Err(added.error);
    }
    var entries := AddRecords(p, blobs, source.records);
    var manifest := Manifest(source);
    PayloadFresh(p, source);
    FixedPathsSafe();
    added := Add(entries, MANIFEST, ManifestFile(p, manifest));
    added := Add(added.value, README, p.encode(README_TEXT));
    added := Add(added.value, CHECKSUMS, ChecksumFile(p, added.value));
    r := Ok(ArchiveSet(added.value, manifest));
  }

  lemma FixedPathsSafe()
    ensures SafePath(MANIFEST) && SafePath(README) && SafePath(CHECKSUMS)
    ensures MANIFEST != README && MANIFEST != CHECKSUMS && README != CHECKSUMS
  {
    hide SafePath;
    FixedPathsShape();
  }
}
