/**
 What a valid archive tells a reader (packages/archive/src/verify.ts), in terms of its entries and of the records in
 them, for any archive and not only for assembled ones.
 */
module ArchiveTells {
  import opened Base
  import opened Digest
  import opened Text
  import opened Paths
  import opened Json
  import opened Records
  import opened ArchiveFormat
  import opened ArchiveVerify
  import Lineage

  // ---------- the checksum file ----------

  lemma LineTells(line: string)
    requires LineOk(line)
    ensures line == ParseLine(line).value.1 + "  " + ParseLine(line).value.0
  {
    hide SafePath;
    assert line == line[..64] + [line[64], line[65]] + line[66..];
  }

  lemma {:induction false} SumFrom(lines: seq<string>, path: string)
    requires path in Sums(lines)
    ensures exists i :: 0 <= i < |lines| && LineOk(lines[i]) && ParseLine(lines[i]).value == (path, Sums(lines)[path])
  {
    hide SafePath;
    hide ParseLine;
    var n := |lines| - 1;
    if LineOk(lines[n]) && ParseLine(lines[n]).value.0 == path {
    } else {
      SumFrom(lines[..n], path);
      var i :| 0 <= i < n && LineOk(lines[..n][i]) && ParseLine(lines[..n][i]).value == (path, Sums(lines[..n])[path]);
      assert lines[i] == lines[..n][i];
    }
  }

  /** The line that `sha256sum` prints for a file. */
  function SumLine(p: Platform, entries: Entries, path: string): string
    requires path in entries
  {
    p.sha256(entries[path]) + "  " + path
  }

  /** Every entry outside the signatures has its line in the checksum file, and the file has no other lines. */
  lemma ChecksumsTell(p: Platform, limits: Limits, entries: Entries, deferSigned: bool)
    requires ArchiveOk(p, limits, entries, deferSigned)
    ensures match SumLines(p, entries)
            case None => false
            case Some(lines) =>
              && (forall path :: path in entries && path != CHECKSUMS && !StartsWith(path, "signatures/") ==>
                    SumLine(p, entries, path) in lines)
              && (forall line :: line in lines ==> exists path :: path in entries && line == SumLine(p, entries, path))
  {
    hide SafePath;
    hide ParseLine;
    hide LimitsOk;
    hide ManifestOk;
    hide ReadManifest;
    hide RecordsOk;
    hide SumLines;
    var lines := SumLines(p, entries).value;
    forall path | path in entries && path != CHECKSUMS && !StartsWith(path, "signatures/")
      ensures SumLine(p, entries, path) in lines
    {
      SumFrom(lines, path);
      var i :| 0 <= i < |lines| && LineOk(lines[i]) && ParseLine(lines[i]).value == (path, Sums(lines)[path]);
      LineTells(lines[i]);
      assert SumHolds(p, entries, path, Sums(lines)[path]);
    }
    forall line | line in lines ensures exists path :: path in entries && line == SumLine(p, entries, path) {
      var i :| 0 <= i < |lines| && lines[i] == line;
      assert LineOk(lines[i]);
      var path := ParseLine(line).value.0;
      SumsOf(lines);
      assert path in Sums(lines);
      SumFrom(lines, path);
      var j :| 0 <= j < |lines| && LineOk(lines[j]) && ParseLine(lines[j]).value == (path, Sums(lines)[path]);
      assert i == j;
      LineTells(line);
      assert SumHolds(p, entries, path, Sums(lines)[path]);
    }
  }

  // ---------- limits ----------

  lemma SizesTell(p: Platform, limits: Limits, entries: Entries, deferSigned: bool, path: string)
    requires ArchiveOk(p, limits, entries, deferSigned) && path in entries
    ensures SafePath(path) && |entries[path]| <= limits.maxEntryBytes && |entries[path]| <= limits.maxTotalBytes
    ensures |entries| <= limits.maxEntries
  {
    hide SafePath;
    hide SumFileOk;
    hide SumsHold;
    hide ManifestOk;
    hide RecordsOk;
    hide SigningOk;
    assert EntryOk(limits, path, entries[path]);
    InTotal(entries, SortedKeys(entries.Keys), path);
  }

  lemma {:induction false} InTotal(entries: Entries, paths: seq<string>, path: string)
    requires (forall x :: x in paths ==> x in entries) && path in paths
    ensures |entries[path]| <= TotalBytes(entries, paths)
  {
    var n := |paths| - 1;
    if paths[n] != path {
      assert path in paths[..n];
      InTotal(entries, paths[..n], path);
    }
  }

  // ---------- records ----------

  /** Some record of that kind has the id. */
  ghost predicate Exists(records: RecordSet, kind: Kind, id: Json) {
    exists r: Record :: r in Of(records, kind) && "id" in r && r["id"] == id && id.Str?
  }

  ghost predicate FilesTell(p: Platform, entries: Entries, m: Json, records: RecordSet) {
    forall kind :: FileTells(p, entries, m, records, kind)
  }

  /** A record file holds one value a line, as many as the manifest counts. */
  ghost predicate FileTells(p: Platform, entries: Entries, m: Json, records: RecordSet, kind: Kind) {
    if RecordPath(kind) in entries then
      match p.decode(entries[RecordPath(kind)])
      case None => false
      case Some(text) =>
        var lines := NonEmpty(Split('\n', TrimEnd(text)));
        && Field(Counts(m), KindName(kind)) == Some(Int(|lines|)) && |Of(records, kind)| == |lines|
        && forall i :: 0 <= i < |lines| ==> LineHolds(p, lines[i], Of(records, kind)[i])
    else Of(records, kind) == [] && Field(Counts(m), KindName(kind)) in {None, Some(Null), Some(Int(0))}
  }

  ghost predicate LineHolds(p: Platform, line: string, r: Record) {
    match p.parse(line)
    case Some(Obj(fields)) => fields == r
    case Some(_) => r == map[]
    case None => false
  }

  lemma {:induction false} ParsedLines(p: Platform, lines: seq<string>)
    ensures match ParseAll(p, lines)
            case None => exists i :: 0 <= i < |lines| && p.parse(lines[i]) == None
            case Some(values) =>
              |values| == |lines| && forall i :: 0 <= i < |lines| ==> p.parse(lines[i]) == Some(values[i])
  {
    if lines != [] {
      var n := |lines| - 1;
      ParsedLines(p, lines[..n]);
      if ParseAll(p, lines[..n]) == None {
        var i :| 0 <= i < n && p.parse(lines[..n][i]) == None;
        assert p.parse(lines[i]) == None;
      }
    }
  }

  lemma FileOkTells(p: Platform, entries: Entries, m: Json, kind: Kind)
    requires FileOk(p, entries, m, kind)
    ensures FileTells(p, entries, m, RecordsOf(AllRecords(p, entries)), kind)
  {
    hide RecordPath;
    hide NonEmpty;
    hide Split;
    hide TrimEnd;
    hide ParseAll;
    hide KindName;
    hide Field;
    RecordsAt(p, entries, kind);
    hide RecordsOf;
    hide AllRecords;
    if RecordPath(kind) in entries {
      ParsedLines(p, NonEmpty(Split('\n', TrimEnd(p.decode(entries[RecordPath(kind)]).value))));
    }
  }

  lemma RecordsAt(p: Platform, entries: Entries, kind: Kind)
    ensures Of(RecordsOf(AllRecords(p, entries)), kind) ==
            if HasRecords(p, entries, kind) then AsRecords(ReadRecords(p, entries[RecordPath(kind)]).value) else []
  {
    hide ReadRecords;
    hide RecordPath;
    hide AsRecords;
  }

  /** Records stay in the workspace, and revisions name resources and parents that are there. */
  ghost predicate ScopeTells(m: Json, records: RecordSet) {
    && (forall kind, r: Record :: r in Of(records, kind) && "workspaceId" in r ==>
          Field(Some(m), "workspaceId") == Some(r["workspaceId"]))
    && (forall r: Record :: r in Of(records, Revisions) ==>
          && "resourceId" in r && Exists(records, Resources, r["resourceId"])
          && ("parentRevisionId" in r && r["parentRevisionId"].Str? ==>
                Exists(records, Revisions, r["parentRevisionId"])))
  }

  lemma BoundaryTells(m: Json, records: RecordSet)
    requires BoundaryOk(m, records)
    ensures ScopeTells(m, records)
  {
    forall kind, r: Record | r in Of(records, kind) && "workspaceId" in r
      ensures Field(Some(m), "workspaceId") == Some(r["workspaceId"]) {
      assert KindInWorkspace(m, records, kind);
    }
    forall r: Record | r in Of(records, Revisions)
      ensures "resourceId" in r && Exists(records, Resources, r["resourceId"])
      ensures "parentRevisionId" in r && r["parentRevisionId"].Str? ==>
                Exists(records, Revisions, r["parentRevisionId"])
    {
      assert RevisionLinksOk(records, r);
    }
  }

  // ---------- blobs ----------

  /** What a blob record states is true of the bytes in the archive. */
  ghost predicate BlobTells(p: Platform, entries: Entries, r: Record) {
    && "sha256" in r && r["sha256"].Str? && IsHexDigest(r["sha256"].s) && "byteLength" in r
    && var path := "blobs/" + r["sha256"].s[..2] + "/" + r["sha256"].s;
       path in entries && r["byteLength"] == Int(|entries[path]|) && p.sha256(entries[path]) == r["sha256"].s
  }

  /** The lengths that blob records state, added up. */
  function StatedBytes(blobs: seq<Record>): int {
    if blobs == [] then 0
    else
      var r := blobs[|blobs| - 1];
      StatedBytes(blobs[..|blobs| - 1])
      + if "byteLength" in r && r["byteLength"].Int? then r["byteLength"].n else 0
  }

  lemma {:induction false} TotalsTell(p: Platform, entries: Entries, blobs: seq<Record>)
    requires forall r :: r in blobs ==> BlobRecordOk(p, entries, r)
    ensures BlobTotal(entries, blobs) == StatedBytes(blobs)
  {
    hide BlobArchivePath;
    if blobs != [] {
      var n := |blobs| - 1;
      assert blobs[n] in blobs && forall r :: r in blobs[..n] ==> r in blobs;
      TotalsTell(p, entries, blobs[..n]);
    }
  }

  ghost predicate BlobsTell(p: Platform, entries: Entries, m: Json, blobs: seq<Record>) {
    && (forall r :: r in blobs ==> BlobTells(p, entries, r))
    && Field(Some(m), "blobCount") == Some(Int(|blobs|))
    && Field(Some(m), "totalBlobBytes") == Some(Int(StatedBytes(blobs)))
  }

  lemma BlobsOkTells(p: Platform, entries: Entries, m: Json, blobs: seq<Record>)
    requires BlobsOk(p, entries, m, blobs)
    ensures BlobsTell(p, entries, m, blobs)
  {
    forall r | r in blobs ensures BlobTells(p, entries, r) {
      assert BlobRecordOk(p, entries, r);
    }
    TotalsTell(p, entries, blobs);
  }

  // ---------- the manifest ----------

  /** The manifest is printed canonically and names a known format, signing profile and lineage. */
  ghost predicate ManifestTells(p: Platform, entries: Entries, m: Json) {
    && MANIFEST in entries && p.decode(entries[MANIFEST]) == Some(Canonical(m) + "\n")
    && m.Obj? && Prop(m.fields, "format") == Some(Str("trustarchive"))
    && Prop(m.fields, "checksumAlgorithm") == Some(Str("sha256"))
    && Prop(m.fields, "canonicalJsonProfile") == Some(Str("trust-core-canonical-json-v1"))
    && (match Prop(m.fields, "signatureProfile")
        case Some(Str(s)) => s == "unsigned" && Prop(m.fields, "formatVersion") == Some(Str("0.2"))
        case Some(Obj(profile)) =>
          && Prop(profile, "name") == Some(Str("trust-core-manifest-signature-v1"))
          && Prop(profile, "algorithm") == Some(Str("Ed25519"))
          && (exists key :: key != "" && Prop(profile, "keyId") == Some(Str(key)))
          && Prop(m.fields, "formatVersion") == Some(Str("0.3"))
        case _ => false)
    && match Prop(m.fields, "auditLineage")
       case Some(Obj(lineage)) =>
         && Prop(lineage, "mode") == Some(Str("source_chain"))
         && Prop(lineage, "sourceWorkspaceId") == Prop(m.fields, "workspaceId")
         && (exists n :: 0 <= n <= MAX_SAFE_INTEGER && Prop(lineage, "eventCount") == Some(Int(n)))
       case _ => false
  }

  lemma HeaderTells(p: Platform, entries: Entries)
    requires ManifestOk(p, entries)
    ensures ManifestTells(p, entries, ReadManifest(p, entries).value)
  {
    hide Canonical;
    var m := ReadManifest(p, entries).value;
    assert HeaderOk(m);
    var profile := Field(Some(m), "signatureProfile");
    if SignedProfile(profile) {
      var key := Field(profile, "keyId").value.s;
      assert key != "" && Prop(profile.value.fields, "keyId") == Some(Str(key));
    }
    var count := Field(Field(Some(m), "auditLineage"), "eventCount");
    assert count.Some? && count.value.Int?;
    hide ProfileOk;
  }

  /**
   The manifest is in its one form, record files hold what it counts, records keep to the workspace and name records
   that are there, the audit events are one chain, and blob records describe bytes that are there.
   */
  ghost predicate Tells(p: Platform, entries: Entries, m: Json, records: RecordSet) {
    && ManifestTells(p, entries, m) && FilesTell(p, entries, m, records) && ScopeTells(m, records)
    && BlobsTell(p, entries, m, Of(records, Blobs)) && EventsTell(m, Of(records, AuditEvents))
    && (Field(Some(m), "signatureProfile") == Some(Str("unsigned")) ==> SIGNATURE !in entries)
  }

  ghost predicate EventsTell(m: Json, events: seq<Record>) {
    events != [] ==>
      && (forall i :: 0 <= i < |events| ==> Lineage.HasDigest(events[i]))
      && exists order :: Lineage.RecordChain(BoundaryOf(m), events, order)
  }

  lemma LineageTells(m: Json, events: seq<Record>)
    requires Lineage.LineageOk(BoundaryOf(m), Lineage.Nodes(events))
    ensures EventsTell(m, events)
  {
    Lineage.LineageOfRecords(BoundaryOf(m), events);
    hide Lineage.LineageOk;
    hide Lineage.RecordChain;
    hide Lineage.HasDigest;
    hide BoundaryOf;
  }

  lemma RecordsTell(p: Platform, entries: Entries, m: Json)
    requires RecordsOk(p, entries, m)
    ensures var records := RecordsOf(AllRecords(p, entries));
            && FilesTell(p, entries, m, records) && ScopeTells(m, records)
            && BlobsTell(p, entries, m, Of(records, Blobs)) && EventsTell(m, Of(records, AuditEvents))
  {
    hide FileOk;
    hide FileTells;
    hide BoundaryOk;
    hide ScopeTells;
    hide BlobsOk;
    hide BlobsTell;
    hide Lineage.LineageOk;
    hide EventsTell;
    hide AllRecords;
    var records := RecordsOf(AllRecords(p, entries));
    forall kind ensures FileTells(p, entries, m, records, kind) {
      FileOkTells(p, entries, m, kind);
    }
    BoundaryTells(m, records);
    BlobsOkTells(p, entries, m, Of(records, Blobs));
    LineageTells(m, Of(records, AuditEvents));
  }

  /** A valid archive tells all of this. */
  lemma ValidArchiveTells(p: Platform, limits: Limits, entries: Entries, deferSigned: bool)
    requires ArchiveOk(p, limits, entries, deferSigned)
    ensures match ReadManifest(p, entries)
            case None => false
            case Some(m) => Tells(p, entries, m, RecordsOf(AllRecords(p, entries)))
  {
    hide LimitsOk;
    hide SumFileOk;
    hide SumsHold;
    hide ManifestTells;
    hide FilesTell;
    hide ScopeTells;
    hide BlobsTell;
    hide EventsTell;
    hide AllRecords;
    hide RecordsOk;
    hide ManifestOk;
    hide ReadManifest;
    ManifestRead(p, entries);
    HeaderTells(p, entries);
    RecordsTell(p, entries, ReadManifest(p, entries).value);
  }
}
