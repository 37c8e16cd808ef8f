/** Verification of an archive's entries (packages/archive/src/verify.ts). */
module ArchiveVerify {
  import opened Base
  import opened Digest
  import opened Text
  import opened Paths
  import opened Json
  import opened Records
  import opened ArchiveFormat
  import opened ImportGraph
  import Lineage

  datatype Limits = Limits(maxEntries: int, maxEntryBytes: int, maxTotalBytes: int)

  datatype Code =
    | EntryLimit | PathUnsafe | EntryTooLarge | TotalTooLarge
    | ChecksumFileMissing | ChecksumFileInvalid | ChecksumDuplicate | EntryMissing | ChecksumInvalid | EntryUnchecked
    | ManifestMissing | ManifestInvalid | ManifestNonCanonical | SignatureProfileUnknown
    | SignatureVerifierRequired | SignatureUnexpected
    | RecordFileMissing | RecordInvalid | RecordCountInvalid
    | WorkspaceBoundary | ReferenceBroken | AuditLineageInvalid
    | BlobRecordInvalid | BlobMissing | BlobInvalid | BlobCountInvalid
    | SignatureIssue

  type Found = map<Kind, seq<Json>>

  /** Verification reports what it found, or throws on values no exporter writes. */
  datatype Outcome =
    | Threw
    | Report(valid: bool, manifest: Option<Json>, records: Found, checkedEntries: nat, issues: seq<Code>)

  // ---------- limits ----------

  function TotalBytes(entries: Entries, paths: seq<string>): nat
    requires forall path :: path in paths ==> path in entries
  {
    if paths == [] then 0
    else
      var n := |paths| - 1;
      TotalBytes(entries, paths[..n]) + |entries[paths[n]]|
  }

  predicate EntryOk(limits: Limits, path: string, bytes: Bytes) {
    SafePath(path) && |bytes| <= limits.maxEntryBytes
  }

  ghost predicate LimitsOk(limits: Limits, entries: Entries) {
    && |entries| <= limits.maxEntries
    && (forall path :: path in entries ==> EntryOk(limits, path, entries[path]))
    && TotalBytes(entries, SortedKeys(entries.Keys)) <= limits.maxTotalBytes
  }

  method CheckLimits(limits: Limits, entries: Entries) returns (issues: seq<Code>)
    ensures issues == [] <==> LimitsOk(limits, entries)
  {
    hide EntryOk;
    hide TotalBytes;
    hide SortedKeys;
    hide StrictlySorted;
    issues := if |entries| > limits.maxEntries then [EntryLimit] else [];
    var total, more := CheckEntries(limits, entries, SortedKeys(entries.Keys));
    issues := issues + more;
    if total > limits.maxTotalBytes {
      issues := issues + [TotalTooLarge];
    }
  }

  method CheckEntries(limits: Limits, entries: Entries, paths: seq<string>) returns (total: nat, issues: seq<Code>)
    requires forall path :: path in paths ==> path in entries
    ensures total == TotalBytes(entries, paths)
    ensures issues == [] <==> forall path :: path in paths ==> EntryOk(limits, path, entries[path])
  {
    hide SafePath;
    total, issues := 0, [];
    for i := 0 to |paths|
      invariant total == TotalBytes(entries, paths[..i])
      invariant issues == [] <==> forall k :: 0 <= k < i ==> EntryOk(limits, paths[k], entries[paths[k]])
    {
      assert paths[..i + 1][..i] == paths[..i];
      var path := paths[i];
      if !SafePath(path) {
        issues := issues + [PathUnsafe];
      }
      total := total + |entries[path]|;
      if |entries[path]| > limits.maxEntryBytes {
        issues := issues + [EntryTooLarge];
      }
    }
    assert paths[..|paths|] == paths;
  }

  // ---------- checksums ----------

  /** A character that `.` does not match in a regular expression. */
  predicate IsTerminator(c: char) { c in ['\n', '\r', '\U{2028}', '\U{2029}'] }

  /** A checksum line as (path, digest). */
  function ParseLine(line: string): Option<(string, string)> {
    if |line| > 66 && IsHexDigest(line[..64]) && line[64] == ' ' && line[65] == ' '
       && forall i :: 66 <= i < |line| ==> !IsTerminator(line[i])
    then Some((line[66..], line[..64])) else None
  }

  predicate LineOk(line: string) {
    ParseLine(line).Some? && SafePath(ParseLine(line).value.0)
  }

  /** The lines of the checksum file, when it is present and readable. */
  function SumLines(p: Platform, entries: Entries): Option<seq<string>> {
    if CHECKSUMS !in entries then None
    else
      match p.decode(entries[CHECKSUMS])
      case None => None
      case Some(text) => Some(Split('\n', TrimEnd(text)))
  }

  /** The digests that the good lines state; of several for one path, the last. */
  function Sums(lines: seq<string>): map<string, string> {
    if lines == [] then map[]
    else
      var n := |lines| - 1;
      var sums := Sums(lines[..n]);
      if LineOk(lines[n]) then sums[ParseLine(lines[n]).value.0 := ParseLine(lines[n]).value.1] else sums
  }

  ghost predicate LinesOk(lines: seq<string>) {
    && (forall i :: 0 <= i < |lines| ==> LineOk(lines[i]))
    && (forall i, j :: 0 <= i < j < |lines| ==> ParseLine(lines[i]).value.0 != ParseLine(lines[j]).value.0)
  }

  function StatedSums(p: Platform, entries: Entries): map<string, string> {
    match SumLines(p, entries)
    case None => map[]
    case Some(lines) => Sums(lines)
  }

  ghost predicate SumFileOk(p: Platform, entries: Entries) {
    SumLines(p, entries).Some? && LinesOk(SumLines(p, entries).value)
  }

  predicate SumHolds(p: Platform, entries: Entries, path: string, digest: string) {
    path in entries && p.sha256(entries[path]) == digest
  }

  /** Every stated digest is that of its entry, and every entry outside the signatures has one. */
  ghost predicate SumsHold(p: Platform, entries: Entries, sums: map<string, string>) {
    && (forall path :: path in sums ==> SumHolds(p, entries, path, sums[path]))
    && (forall path :: path in entries ==> Unchecked(path) || path in sums)
  }

  lemma {:induction false} SumsOf(lines: seq<string>)
    ensures forall path :: path in Sums(lines) <==>
              exists i :: 0 <= i < |lines| && LineOk(lines[i]) && ParseLine(lines[i]).value.0 == path
  {
    hide SafePath;
    hide ParseLine;
    if lines != [] {
      var n := |lines| - 1;
      SumsOf(lines[..n]);
      assert forall i :: 0 <= i < n ==> lines[..n][i] == lines[i];
    }
  }

  lemma LinesSnoc(lines: seq<string>, n: nat)
    requires n < |lines|
    ensures LinesOk(lines[..n + 1]) <==>
            LinesOk(lines[..n]) && LineOk(lines[n]) && ParseLine(lines[n]).value.0 !in Sums(lines[..n])
  {
    hide SafePath;
    hide ParseLine;
    SumsOf(lines[..n]);
    var more, some := lines[..n + 1], lines[..n];
    assert forall i :: 0 <= i < n ==> more[i] == some[i] == lines[i];
    assert more[n] == lines[n];
    if LinesOk(some) && LineOk(lines[n]) && ParseLine(lines[n]).value.0 !in Sums(some) {
      forall i, j | 0 <= i < j < |more| ensures ParseLine(more[i]).value.0 != ParseLine(more[j]).value.0 {
        assert j < n ==> ParseLine(some[i]).value.0 != ParseLine(some[j]).value.0;
        assert j == n ==> LineOk(some[i]);
      }
    }
  }

  method ReadChecksums(p: Platform, entries: Entries) returns (sums: map<string, string>, issues: seq<Code>)
    ensures sums == StatedSums(p, entries)
    ensures issues == [] <==> SumFileOk(p, entries)
  {
    hide SafePath;
    hide ParseLine;
    hide LinesOk;
    sums, issues := map[], [];
    if CHECKSUMS !in entries {
      return sums, [ChecksumFileMissing];
    }
    var text := p.decode(entries[CHECKSUMS]);
    if text == None {
      return sums, [ChecksumFileInvalid];
    }
    var lines := Split('\n', TrimEnd(text.value));
    NoLines();
    for i := 0 to |lines|
      invariant sums == Sums(lines[..i])
      invariant issues == [] <==> LinesOk(lines[..i])
    {
      assert lines[..i + 1][..i] == lines[..i];
      LinesSnoc(lines, i);
      var m := ParseLine(lines[i]);
      if m == None {
        issues := issues + [ChecksumFileInvalid];
      } else if !SafePath(m.value.0) {
        issues := issues + [PathUnsafe];
      } else {
        if m.value.0 in sums {
          issues := issues + [ChecksumDuplicate];
        }
        sums := sums[m.value.0 := m.value.1];
      }
    }
    assert lines[..|lines|] == lines;
  }

  lemma NoLines()
    ensures LinesOk([])
  {
  }

  method CheckSums(p: Platform, entries: Entries, sums: map<string, string>) returns (issues: seq<Code>)
    ensures issues == [] <==> SumsHold(p, entries, sums)
  {
    hide Unchecked;
    hide SumHolds;
    hide SortedKeys;
    hide StrictlySorted;
    issues := CheckStated(p, entries, sums, SortedKeys(sums.Keys));
    var more := CheckCovered(entries, sums, SortedKeys(entries.Keys));
    issues := issues + more;
  }

  method CheckStated(p: Platform, entries: Entries, sums: map<string, string>, stated: seq<string>)
    returns (issues: seq<Code>)
    requires forall path :: path in stated ==> path in sums
    ensures issues == [] <==> forall path :: path in stated ==> SumHolds(p, entries, path, sums[path])
  {
    issues := [];
    for i := 0 to |stated|
      invariant issues == [] <==> forall k :: 0 <= k < i ==> SumHolds(p, entries, stated[k], sums[stated[k]])
    {
      if stated[i] !in entries {
        issues := issues + [EntryMissing];
      } else if p.sha256(entries[stated[i]]) != sums[stated[i]] {
        issues := issues + [ChecksumInvalid];
      }
    }
  }

  method CheckCovered(entries: Entries, sums: map<string, string>, paths: seq<string>) returns (issues: seq<Code>)
    ensures issues == [] <==> forall path :: path in paths ==> Unchecked(path) || path in sums
  {
    hide Unchecked;
    issues := [];
    for i := 0 to |paths|
      invariant issues == [] <==> forall k :: 0 <= k < i ==> Unchecked(paths[k]) || paths[k] in sums
    {
      if !Unchecked(paths[i]) && paths[i] !in sums {
        issues := issues + [EntryUnchecked];
      }
    }
  }

  // ---------- the manifest ----------

  predicate Is(value: Option<Json>, text: string) { value == Some(Str(text)) }

  predicate FormatOk(m: Json) {
    var v := Some(m);
    && Is(Field(v, "format"), "trustarchive")
    && (Is(Field(v, "formatVersion"), "0.2") || Is(Field(v, "formatVersion"), "0.3"))
    && Is(Field(v, "checksumAlgorithm"), "sha256")
    && Is(Field(v, "canonicalJsonProfile"), "trust-core-canonical-json-v1")
  }

  predicate Unsigned(m: Json) { Is(Field(Some(m), "signatureProfile"), "unsigned") }

  predicate SignedProfile(profile: Option<Json>) {
    && Is(Field(profile, "name"), "trust-core-manifest-signature-v1") && Is(Field(profile, "algorithm"), "Ed25519")
    && Field(profile, "keyId").Some? && Field(profile, "keyId").value.Str? && Field(profile, "keyId").value.s != ""
  }

  predicate ProfileOk(m: Json) {
    || (Is(Field(Some(m), "formatVersion"), "0.2") && Unsigned(m))
    || (Is(Field(Some(m), "formatVersion"), "0.3") && SignedProfile(Field(Some(m), "signatureProfile")))
  }

  const MAX_SAFE_INTEGER := 0x1F_FFFF_FFFF_FFFF

  predicate LineageHeaderOk(m: Json) {
    var lineage := Field(Some(m), "auditLineage");
    && Is(Field(lineage, "mode"), "source_chain")
    && Identical(Field(lineage, "sourceWorkspaceId"), Field(Some(m), "workspaceId"))
    && match Field(lineage, "eventCount")
       case Some(Int(n)) => 0 <= n <= MAX_SAFE_INTEGER
       case _ => false
  }

  predicate HeaderOk(m: Json) { FormatOk(m) && ProfileOk(m) && LineageHeaderOk(m) }

  /** The manifest that verification goes on with. */
  function ReadManifest(p: Platform, entries: Entries): Option<Json> {
    if MANIFEST !in entries then None
    else
      match p.decode(entries[MANIFEST])
      case None => None
      case Some(text) =>
        match p.parse(text)
        case None => None
        case Some(m) => if HeaderOk(m) then Some(m) else None
  }

  predicate ManifestOk(p: Platform, entries: Entries) {
    match ReadManifest(p, entries)
    case None => false
    case Some(m) => MANIFEST in entries && p.decode(entries[MANIFEST]) == Some(Canonical(m) + "\n")
  }

  method CheckManifest(p: Platform, entries: Entries) returns (manifest: Option<Json>, issues: seq<Code>)
    ensures manifest == ReadManifest(p, entries)
    ensures issues == [] <==> ManifestOk(p, entries)
  {
    hide FormatOk;
    hide ProfileOk;
    hide LineageHeaderOk;
    if MANIFEST !in entries {
      return None, [ManifestMissing];
    }
    var text := p.decode(entries[MANIFEST]);
    if text == None {
      return None, [ManifestInvalid];
    }
    var value := p.parse(text.value);
    if value == None || !FormatOk(value.value) {
      return None, [ManifestInvalid];
    }
    if !ProfileOk(value.value) {
      return None, [SignatureProfileUnknown];
    }
    if !LineageHeaderOk(value.value) {
      return None, [ManifestInvalid];
    }
    manifest := value;
    issues := if text.value != Canonical(value.value) + "\n" then [ManifestNonCanonical] else [];
  }

  /** A signed archive waits for a signature check, an unsigned one carries no signature. */
  predicate SigningOk(m: Json, entries: Entries, deferSigned: bool) {
    if Unsigned(m) then SIGNATURE !in entries else deferSigned
  }

  // ---------- record files ----------

  function ParseAll(p: Platform, lines: seq<string>): Option<seq<Json>> {
    if lines == [] then Some([])
    else
      var n := |lines| - 1;
      match (ParseAll(p, lines[..n]), p.parse(lines[n]))
      case (Some(vs), Some(v)) => Some(vs + [v])
      case _ => None
  }

  function NonEmpty(lines: seq<string>): seq<string> {
    if lines == [] then []
    else
      var n := |lines| - 1;
      NonEmpty(lines[..n]) + if lines[n] == "" then [] else [lines[n]]
  }

  /** The values of a record file; None when it cannot be read. */
  function ReadRecords(p: Platform, bytes: Bytes): Option<seq<Json>> {
    match p.decode(bytes)
    case None => None
    case Some(text) => ParseAll(p, NonEmpty(Split('\n', TrimEnd(text))))
  }

  function Counts(m: Json): Option<Json> { Field(Some(m), "recordCounts") }

  predicate FileOk(p: Platform, entries: Entries, m: Json, kind: Kind) {
    var count := Field(Counts(m), KindName(kind));
    if RecordPath(kind) !in entries then count == None || count == Some(Null) || count == Some(Int(0))
    else
      match ReadRecords(p, entries[RecordPath(kind)])
      case None => false
      case Some(values) => count == Some(Int(|values|))
  }

  predicate HasRecords(p: Platform, entries: Entries, kind: Kind) {
    RecordPath(kind) in entries && ReadRecords(p, entries[RecordPath(kind)]).Some?
  }

  /** The records of every file that could be read. */
  function AllRecords(p: Platform, entries: Entries): Found {
    map kind: Kind | HasRecords(p, entries, kind) :: ReadRecords(p, entries[RecordPath(kind)]).value
  }

  predicate Nullish(v: Option<Json>) { v == None || v == Some(Null) }

  method CheckFiles(p: Platform, entries: Entries, manifest: Option<Json>)
    returns (records: Found, issues: seq<Code>, threw: bool)
    ensures threw <==> manifest.Some? && Nullish(Counts(manifest.value)) && exists kind :: RecordPath(kind) !in entries
    ensures !threw ==> records == AllRecords(p, entries)
    ensures !threw && manifest.Some? ==> (issues == [] <==> forall kind :: FileOk(p, entries, manifest.value, kind))
  {
    hide ReadRecords;
    hide RecordPath;
    hide HasRecords;
    hide FileOk;
    hide Counts;
    records, issues := map[], [];
    for k := 0 to |ALL_KINDS|
      invariant forall kind :: kind in records <==> kind in ALL_KINDS[..k] && HasRecords(p, entries, kind)
      invariant forall kind :: kind in records ==> records[kind] == AllRecords(p, entries)[kind]
      invariant manifest.Some? && Nullish(Counts(manifest.value)) ==>
                  forall kind :: kind in ALL_KINDS[..k] ==> RecordPath(kind) in entries
      invariant manifest.Some? ==>
                (issues == [] <==> forall kind :: kind in ALL_KINDS[..k] ==> FileOk(p, entries, manifest.value, kind))
    {
      var kind := ALL_KINDS[k];
      assert ALL_KINDS[..k + 1] == ALL_KINDS[..k] + [kind];
      var more, found, failed := CheckFile(p, entries, manifest, kind);
      assert forall other :: other in ALL_KINDS[..k + 1] <==> other in ALL_KINDS[..k] || other == kind;
      if failed {
        return records, issues, true;
      }
      if found.Some? {
        records := records[kind := found.value];
      }
      issues := issues + more;
    }
    forall kind ensures kind in ALL_KINDS[..|ALL_KINDS|] {
      AllKindsComplete(kind);
    }
    threw := false;
  }

  method CheckFile(p: Platform, entries: Entries, manifest: Option<Json>, kind: Kind)
    returns (issues: seq<Code>, found: Option<seq<Json>>, threw: bool)
    ensures threw <==> manifest.Some? && Nullish(Counts(manifest.value)) && RecordPath(kind) !in entries
    ensures found.Some? <==> HasRecords(p, entries, kind)
    ensures found == if HasRecords(p, entries, kind) then ReadRecords(p, entries[RecordPath(kind)]) else None
    ensures !threw && manifest.Some? ==> (issues == [] <==> FileOk(p, entries, manifest.value, kind))
  {
    hide ReadRecords;
    issues, found, threw := [], None, false;
    var path := RecordPath(kind);
    if path !in entries {
      if manifest.Some? {
        if Nullish(Counts(manifest.value)) {
          return issues, found, true;
        }
        var count := Field(Counts(manifest.value), KindName(kind));
        if !(Nullish(count) || count == Some(Int(0))) {
          issues := [RecordFileMissing];
        }
      }
      return;
    }
    found := ReadRecords(p, entries[path]);
    if found == None {
      issues := [RecordInvalid];
    } else if manifest.Some? {
      if Nullish(Counts(manifest.value)) {
        issues := [RecordInvalid];
      } else if Field(Counts(manifest.value), KindName(kind)) != Some(Int(|found.value|)) {
        issues := [RecordCountInvalid];
      }
    }
  }

  // ---------- scope and references ----------

  /** What a parsed line offers as a record: the fields of an object; an array has none of them. */
  function AsRecord(v: Json): Record {
    if v.Obj? then v.fields else map[]
  }

  function AsRecords(values: seq<Json>): (r: seq<Record>)
    ensures |r| == |values| && forall i :: 0 <= i < |values| ==> r[i] == AsRecord(values[i])
  {
    seq(|values|, i requires 0 <= i < |values| => AsRecord(values[i]))
  }

  /** Asking such a value whether it has a property throws. */
  predicate Primitive(v: Json) { !v.Obj? && !v.Arr? }

  function RecordsOf(found: Found): RecordSet {
    map kind | kind in found :: AsRecords(found[kind])
  }

  predicate InWorkspace(m: Json, r: Record) {
    "workspaceId" in r ==> Identical(Prop(r, "workspaceId"), Field(Some(m), "workspaceId"))
  }

  predicate RevisionLinksOk(records: RecordSet, r: Record) {
    && RefOk(Ids(records, Resources), r, "resourceId", false)
    && OptionalRefOk(Ids(records, Revisions), r, "parentRevisionId")
  }

  ghost predicate KindInWorkspace(m: Json, records: RecordSet, kind: Kind) {
    forall r :: r in Of(records, kind) ==> InWorkspace(m, r)
  }

  ghost predicate BoundaryOk(m: Json, records: RecordSet) {
    && (forall kind :: KindInWorkspace(m, records, kind))
    && (forall r :: r in Of(records, Revisions) ==> RevisionLinksOk(records, r))
  }

  ghost predicate AnyPrimitive(values: seq<Json>) {
    exists v :: v in values && Primitive(v)
  }

  ghost predicate SomePrimitive(found: Found) {
    exists kind :: kind in found && AnyPrimitive(found[kind])
  }

  method CheckScope(m: Json, found: Found) returns (issues: seq<Code>, threw: bool)
    ensures threw <==> SomePrimitive(found)
    ensures !threw ==> (issues == [] <==> BoundaryOk(m, RecordsOf(found)))
  {
    hide InWorkspace;
    hide RevisionLinksOk;
    hide AsRecords;
    hide AnyPrimitive;
    issues := [];
    var records := RecordsOf(found);
    for k := 0 to |ALL_KINDS|
      invariant forall kind :: kind in ALL_KINDS[..k] && kind in found ==> !AnyPrimitive(found[kind])
      invariant issues == [] <==> forall kind :: kind in ALL_KINDS[..k] ==> KindInWorkspace(m, records, kind)
    {
      var kind := ALL_KINDS[k];
      assert ALL_KINDS[..k + 1] == ALL_KINDS[..k] + [kind];
      assert forall other :: other in ALL_KINDS[..k + 1] <==> other in ALL_KINDS[..k] || other == kind;
      assert Of(records, kind) == if kind in found then AsRecords(found[kind]) else [];
      var more: seq<Code> := [];
      if kind in found {
        var failed;
        more, failed := CheckWorkspaces(m, found[kind]);
        if failed {
          return issues, true;
        }
      }
      assert KindInWorkspace(m, records, kind) <==> more == [];
      issues := issues + more;
    }
    forall kind ensures kind in ALL_KINDS[..|ALL_KINDS|] {
      AllKindsComplete(kind);
    }
    var more := CheckRevisions(records);
    issues := issues + more;
    threw := false;
  }

  method CheckWorkspaces(m: Json, values: seq<Json>) returns (issues: seq<Code>, threw: bool)
    ensures threw <==> AnyPrimitive(values)
    ensures !threw ==> (issues == [] <==> forall r :: r in AsRecords(values) ==> InWorkspace(m, r))
  {
    hide InWorkspace;
    hide AsRecord;
    issues := [];
    var records := AsRecords(values);
    for i := 0 to |values|
      invariant forall k :: 0 <= k < i ==> !Primitive(values[k])
      invariant issues == [] <==> forall k :: 0 <= k < i ==> InWorkspace(m, records[k])
    {
      if Primitive(values[i]) {
        return issues, true;
      }
      if !InWorkspace(m, records[i]) {
        issues := issues + [WorkspaceBoundary];
      }
    }
    threw := false;
  }

  method CheckRevisions(records: RecordSet) returns (issues: seq<Code>)
    ensures issues == [] <==> forall r :: r in Of(records, Revisions) ==> RevisionLinksOk(records, r)
  {
    hide Ids;
    issues := [];
    var revisions, resources, ids := Of(records, Revisions), Ids(records, Resources), Ids(records, Revisions);
    for i := 0 to |revisions|
      invariant issues == [] <==> forall k :: 0 <= k < i ==> RevisionLinksOk(records, revisions[k])
    {
      if !RefOk(resources, revisions[i], "resourceId", false) {
        issues := issues + [ReferenceBroken];
      }
      if !OptionalRefOk(ids, revisions[i], "parentRevisionId") {
        issues := issues + [ReferenceBroken];
      }
    }
  }

  // ---------- lineage and blobs ----------

  function BoundaryOf(m: Json): Lineage.Boundary {
    var lineage := Field(Some(m), "auditLineage");
    Lineage.Boundary(Field(lineage, "eventCount"), Field(lineage, "firstEventHash"), Field(lineage, "lastEventHash"))
  }

  /** The bytes a blob record names, when it names any. */
  function BytesOf(entries: Entries, r: Record): Option<Bytes> {
    if !HasText(r, "sha256") || "byteLength" !in r || !IsNumber(r["byteLength"]) then None
    else
      match BlobArchivePath(r["sha256"].s)
      case None => None
      case Some(path) => if path in entries then Some(entries[path]) else None
  }

  predicate BlobRecordOk(p: Platform, entries: Entries, r: Record) {
    match BytesOf(entries, r)
    case None => false
    case Some(bytes) => r["byteLength"] == Int(|bytes|) && p.sha256(bytes) == r["sha256"].s
  }

  function BlobTotal(entries: Entries, blobs: seq<Record>): nat {
    if blobs == [] then 0
    else
      var n := |blobs| - 1;
      BlobTotal(entries, blobs[..n]) + match BytesOf(entries, blobs[n]) case None => 0 case Some(bytes) => |bytes|
  }

  ghost predicate BlobsOk(p: Platform, entries: Entries, m: Json, blobs: seq<Record>) {
    && (forall r :: r in blobs ==> BlobRecordOk(p, entries, r))
    && Field(Some(m), "blobCount") == Some(Int(|blobs|))
    && Field(Some(m), "totalBlobBytes") == Some(Int(BlobTotal(entries, blobs)))
  }

  method CheckBlobs(p: Platform, entries: Entries, manifest: Option<Json>, blobs: seq<Record>)
    returns (issues: seq<Code>)
    ensures manifest.Some? ==> (issues == [] <==> BlobsOk(p, entries, manifest.value, blobs))
  {
    hide BlobArchivePath;
    issues := [];
    var total := 0;
    for i := 0 to |blobs|
      invariant total == BlobTotal(entries, blobs[..i])
      invariant issues == [] <==> forall k :: 0 <= k < i ==> BlobRecordOk(p, entries, blobs[k])
    {
      assert blobs[..i + 1][..i] == blobs[..i];
      var r := blobs[i];
      if !HasText(r, "sha256") || "byteLength" !in r || !IsNumber(r["byteLength"]) {
        issues := issues + [BlobRecordInvalid];
      } else {
        var path := BlobArchivePath(r["sha256"].s);
        if path == None {
          issues := issues + [BlobRecordInvalid];
        } else if path.value !in entries {
          issues := issues + [BlobMissing];
        } else {
          var bytes := entries[path.value];
          total := total + |bytes|;
          if r["byteLength"] != Int(|bytes|) || p.sha256(bytes) != r["sha256"].s {
            issues := issues + [BlobInvalid];
          }
        }
      }
    }
    assert blobs[..|blobs|] == blobs;
    if manifest.Some?
       && (Field(manifest, "blobCount") != Some(Int(|blobs|)) || Field(manifest, "totalBlobBytes") != Some(Int(total)))
    {
      issues := issues + [BlobCountInvalid];
    }
  }

  // ---------- the whole check ----------

  ghost predicate RecordsOk(p: Platform, entries: Entries, m: Json) {
    var records := RecordsOf(AllRecords(p, entries));
    && (forall kind :: FileOk(p, entries, m, kind))
    && BoundaryOk(m, records)
    && Lineage.LineageOk(BoundaryOf(m), Lineage.Nodes(Of(records, AuditEvents)))
    && BlobsOk(p, entries, m, Of(records, Records.Blobs))
  }

  /** What a valid archive is. */
  ghost predicate ArchiveOk(p: Platform, limits: Limits, entries: Entries, deferSigned: bool) {
    && LimitsOk(limits, entries)
    && SumFileOk(p, entries) && SumsHold(p, entries, StatedSums(p, entries))
    && ManifestOk(p, entries)
    && SigningOk(ReadManifest(p, entries).value, entries, deferSigned)
    && RecordsOk(p, entries, ReadManifest(p, entries).value)
  }

  /** The values that make verification throw instead of reporting. */
  ghost predicate Throws(p: Platform, entries: Entries) {
    match ReadManifest(p, entries)
    case Some(m) =>
      || (Nullish(Counts(m)) && exists kind :: RecordPath(kind) !in entries)
      || SomePrimitive(AllRecords(p, entries))
      || Lineage.LineageThrows(Of(RecordsOf(AllRecords(p, entries)), AuditEvents))
    case None => HasRecords(p, entries, Records.Blobs) && Null in AllRecords(p, entries)[Records.Blobs]
  }

  method VerifyArchiveEntries(p: Platform, limits: Limits, entries: Entries, deferSigned: bool) returns (r: Outcome)
    ensures r.Threw? <==> Throws(p, entries)
    ensures r.Report? ==>
              && (r.valid <==> ArchiveOk(p, limits, entries, deferSigned)) && (r.valid <==> r.issues == [])
              && r.manifest == ReadManifest(p, entries) && r.records == AllRecords(p, entries)
              && r.checkedEntries == |StatedSums(p, entries)|
  {
    hide LimitsOk;
    hide SumFileOk;
    hide SumsHold;
    hide ManifestOk;
    hide StatedSums;
    hide RecordsOk;
    hide SigningOk;
    ManifestRead(p, entries);
    hide ReadManifest;
    var issues := CheckLimits(limits, entries);
    var sums, more := ReadChecksums(p, entries);
    issues := issues + more;
    more := CheckSums(p, entries, sums);
    issues := issues + more;
    var manifest;
    manifest, more := CheckManifest(p, entries);
    issues := issues + more;
    if manifest.Some? && !SigningOk(manifest.value, entries, deferSigned) {
      issues := issues + [if Unsigned(manifest.value) then SignatureUnexpected else SignatureVerifierRequired];
    }
    var records, rest, threw := CheckRecords(p, entries, manifest);
    if threw {
      return Threw;
    }
    issues := issues + rest;
    r := Report(issues == [], manifest, records, |sums|, issues);
  }

  lemma ManifestRead(p: Platform, entries: Entries)
    ensures ManifestOk(p, entries) ==> ReadManifest(p, entries).Some?
  {
  }

  /** Record files, scope, lineage and blobs. */
  method CheckRecords(p: Platform, entries: Entries, manifest: Option<Json>)
    returns (records: Found, issues: seq<Code>, threw: bool)
    requires manifest == ReadManifest(p, entries)
    ensures threw <==> Throws(p, entries)
    ensures !threw ==> records == AllRecords(p, entries)
    ensures !threw && manifest.Some? ==> (issues == [] <==> RecordsOk(p, entries, manifest.value))
  {
    hide ReadManifest;
    hide AllRecords;
    hide FileOk;
    hide BoundaryOk;
    hide SomePrimitive;
    hide BlobsOk;
    hide Counts;
    hide RecordPath;
    hide HasRecords;
    hide Lineage.LineageThrows;
    hide Lineage.LineageOk;
    BlobsPresent(p, entries);
    records, issues, threw := CheckFiles(p, entries, manifest);
    if threw {
      return;
    }
    var all := RecordsOf(records);
    if manifest.Some? {
      var more, failed := CheckScope(manifest.value, records);
      if failed {
        return records, issues, true;
      }
      var lineage, thrown := Lineage.ValidateAuditLineage(BoundaryOf(manifest.value), Of(all, AuditEvents));
      if thrown {
        return records, issues, true;
      }
      issues := issues + more + seq(lineage, _ => AuditLineageInvalid);
    } else if Records.Blobs in records && Null in records[Records.Blobs] {
      return records, issues, true;
    }
    var more := CheckBlobs(p, entries, manifest, Of(all, Records.Blobs));
    issues := issues + more;
  }

  lemma BlobsPresent(p: Platform, entries: Entries)
    ensures Records.Blobs in AllRecords(p, entries) <==> HasRecords(p, entries, Records.Blobs)
  {
  }
}
