/**
 Signing an archive and checking its signature (packages/archive/src/signature.ts, and
 verifyArchiveEntriesWithSignatures in verify.ts). Signer and verifier are parameters.
 */
module ArchiveSigning {
  import opened Base
  import opened Paths
  import opened Json
  import opened Records
  import opened ArchiveFormat
  import opened ArchiveAssemble
  import opened ArchiveVerify
  import opened ArchiveReadback
  import opened ArchiveRoundTrip

  datatype Signer = Signer(algorithm: string, keyId: string, sign: Bytes -> Bytes)

  datatype Verdict = Accepted | Refused | UnknownKey

  /** Key id, signed bytes and signature to a verdict. */
  type Verifier = (string, Bytes, Bytes) -> Verdict

  datatype SignError = NotUnsigned | UnsupportedAlgorithm | KeyIdInvalid | EmptySignature

  const PROFILE := "trust-core-manifest-signature-v1"

  predicate IsKeyChar(c: char) {
    'a' <= c <= 'z' || 'A' <= c <= 'Z' || '0' <= c <= '9' || c in "._:/@-"
  }

  predicate ValidKeyId(v: Option<Json>) {
    match v
    case Some(Str(k)) => 0 < |k| <= 256 && forall i :: 0 <= i < |k| ==> IsKeyChar(k[i])
    case _ => false
  }

  // ---------- signing ----------

  function SignedManifest(m: Json, keyId: string): Json
    requires m.Obj?
  {
    Obj(m.fields["formatVersion" := Str("0.3")]
        ["signatureProfile" := Obj(map["name" := Str(PROFILE), "algorithm" := Str("Ed25519"), "keyId" := Str(keyId)])])
  }

  /** The bytes that are signed: the digests of the manifest and of the checksum file. */
  function SignaturePayload(p: Platform, manifestBytes: Bytes, checksumBytes: Bytes): Bytes {
    p.encode(Canonical(Obj(map[
      "checksumsSha256" := Str(p.sha256(checksumBytes)), "manifestSha256" := Str(p.sha256(manifestBytes)),
      "profile" := Str(PROFILE)])) + "\n")
  }

  function Artifact(keyId: string, signature: string): Json {
    Obj(map["profile" := Str(PROFILE), "algorithm" := Str("Ed25519"), "keyId" := Str(keyId),
            "signedEntries" := Arr([Str(MANIFEST), Str(CHECKSUMS)]), "signatureEncoding" := Str("base64"),
            "signature" := Str(signature)])
  }

  /** The entries with the signed manifest and new checksums, before the signature is added. */
  function Resealed(p: Platform, entries: Entries, m: Json): Entries {
    var files := entries[MANIFEST := ManifestFile(p, m)];
    files[CHECKSUMS := ChecksumFile(p, Checked(files))]
  }

  predicate Signable(m: Json) {
    Is(Field(Some(m), "formatVersion"), "0.2") && Unsigned(m)
  }

  function SignOf(p: Platform, archive: ArchiveSet, signer: Signer): Result<ArchiveSet, SignError> {
    if !Signable(archive.manifest) then Err(NotUnsigned)
    else if signer.algorithm != "Ed25519" then Err(UnsupportedAlgorithm)
    else if !ValidKeyId(Some(Str(signer.keyId))) then Err(KeyIdInvalid)
    else
      var m := SignedManifest(archive.manifest, signer.keyId);
      var sealed := Resealed(p, archive.entries, m);
      var signature := signer.sign(SignaturePayload(p, sealed[MANIFEST], sealed[CHECKSUMS]));
      if signature == [] then Err(EmptySignature)
      else
        Ok(ArchiveSet(
             sealed[SIGNATURE := p.encode(Canonical(Artifact(signer.keyId, p.toBase64(signature))) + "\n")], m))
  }

  predicate CanSign(archive: ArchiveSet, signer: Signer) {
    Signable(archive.manifest) && signer.algorithm == "Ed25519" && ValidKeyId(Some(Str(signer.keyId)))
  }

  /** What the signer is given to sign. */
  function PayloadToSign(p: Platform, archive: ArchiveSet, signer: Signer): Bytes
    requires archive.manifest.Obj?
  {
    var sealed := Resealed(p, archive.entries, SignedManifest(archive.manifest, signer.keyId));
    SignaturePayload(p, sealed[MANIFEST], sealed[CHECKSUMS])
  }

  /** Signing touches three entries and two manifest fields. */
  ghost predicate KeepsRest(before: ArchiveSet, after: ArchiveSet) {
    && after.entries.Keys == before.entries.Keys + {MANIFEST, CHECKSUMS, SIGNATURE}
    && (forall path :: path in before.entries && path !in {MANIFEST, CHECKSUMS, SIGNATURE} ==>
          after.entries[path] == before.entries[path])
    && (forall name :: name !in {"formatVersion", "signatureProfile"} ==>
          Field(Some(after.manifest), name) == Field(Some(before.manifest), name))
  }

  /**
   The manifest reads back, and the artifact names the signer and decodes to a signature of the two signed entries.
   */
  ghost predicate SignatureReadsBack(p: Platform, signer: Signer, signed: ArchiveSet) {
    && MANIFEST in signed.entries && CHECKSUMS in signed.entries && SIGNATURE in signed.entries
    && ReadJson(p, signed.entries[MANIFEST]) == Some(signed.manifest)
    && match ReadArtifact(p, signed.entries[SIGNATURE])
       case None => false
       case Some(artifact) =>
         && SameProfile(artifact, Field(Some(signed.manifest), "signatureProfile"))
         && Field(Some(artifact), "keyId") == Some(Str(signer.keyId))
         && p.fromBase64(Field(Some(artifact), "signature").value.s)
            == Some(signer.sign(SignaturePayload(p, signed.entries[MANIFEST], signed.entries[CHECKSUMS])))
  }

  /** The checksum file states the digests of everything else but the signatures. */
  ghost predicate ChecksumsAgree(p: Platform, entries: Entries) {
    SumFileOk(p, entries) && StatedSums(p, entries) == map path | path in Checked(entries) :: p.sha256(entries[path])
  }

  lemma SignedKeepsRest(p: Platform, archive: ArchiveSet, signer: Signer)
    requires SignOf(p, archive, signer).Ok?
    ensures KeepsRest(archive, SignOf(p, archive, signer).value)
  {
    hide ManifestFile;
    hide ChecksumFile;
    hide SignaturePayload;
    hide Artifact;
    hide Canonical;
    hide ValidKeyId;
    hide PlainPath;
    FixedPathsShape();
  }

  lemma SignedReadsBack(p: Platform, archive: ArchiveSet, signer: Signer)
    requires SignOf(p, archive, signer).Ok? && Lawful(p)
    ensures SignatureReadsBack(p, signer, SignOf(p, archive, signer).value)
  {
    hide Lawful;
    hide Canonical;
    hide SignaturePayload;
    hide ChecksumFile;
    hide ReadArtifact;
    hide ReadJson;
    hide SameProfile;
    hide PlainPath;
    hide ArtifactOk;
    assert archive.manifest.Obj?;
    hide Field;
    hide Signable;
    FixedPathsShape();
    var m := SignedManifest(archive.manifest, signer.keyId);
    var payload := PayloadToSign(p, archive, signer);
    var text := p.toBase64(signer.sign(payload));
    ArtifactReadBack(p, signer.keyId, text);
    ArtifactForm(signer.keyId, text);
    ProfileMatches(archive.manifest, signer.keyId, text);
    Base64Back(p, signer.sign(payload));
    hide ValidKeyId;
    hide Artifact;
    JsonReadBack(p, m);
    hide SignedManifest;
  }

  lemma ProfileMatches(m: Json, keyId: string, signature: string)
    requires m.Obj?
    ensures SameProfile(Artifact(keyId, signature), Field(Some(SignedManifest(m, keyId)), "signatureProfile"))
  {
  }

  lemma JsonReadBack(p: Platform, v: Json)
    requires Lawful(p) && v.Obj?
    ensures ReadJson(p, p.encode(Canonical(v) + "\n")) == Some(v)
  {
    hide Lawful;
    hide Canonical;
    ObjectText(v.fields);
    Decodes(p, Canonical(v) + "\n");
    Parses(p, v);
  }

  lemma SignedChecksumsAgree(p: Platform, archive: ArchiveSet, signer: Signer)
    requires SignOf(p, archive, signer).Ok? && Lawful(p) && AllPlain(Checked(archive.entries))
    ensures ChecksumsAgree(p, SignOf(p, archive, signer).value.entries)
  {
    hide Lawful;
    hide Canonical;
    hide SignaturePayload;
    hide ChecksumFile;
    hide ManifestFile;
    hide SumFileOk;
    hide StatedSums;
    hide PlainPath;
    hide ValidKeyId;
    hide Artifact;
    hide Unchecked;
    FixedPathsShape();
    FixedPathsChecked();
    var files := archive.entries[MANIFEST := ManifestFile(p, SignedManifest(archive.manifest, signer.keyId))];
    var entries := SignOf(p, archive, signer).value.entries;
    assert MANIFEST in Checked(files);
    assert Checked(entries) == Checked(files);
    ChecksumsReadBack(p, Checked(files), entries);
  }

  method SignArchiveEntries(p: Platform, archive: ArchiveSet, signer: Signer) returns (r: Result<ArchiveSet, SignError>)
    ensures r == SignOf(p, archive, signer)
    ensures r.Ok? <==> CanSign(archive, signer) && signer.sign(PayloadToSign(p, archive, signer)) != []
    ensures r.Ok? ==>
              && KeepsRest(archive, r.value)
              && (Lawful(p) ==> SignatureReadsBack(p, signer, r.value))
              && (Lawful(p) && AllPlain(Checked(archive.entries)) ==> ChecksumsAgree(p, r.value.entries))
  {
    hide Lawful;
    hide KeepsRest;
    hide SignatureReadsBack;
    hide ChecksumsAgree;
    hide AllPlain;
    hide Canonical;
    hide ChecksumFile;
    hide ValidKeyId;
    if !Signable(archive.manifest) {
      return Err(NotUnsigned);
    }
    if signer.algorithm != "Ed25519" {
      return Err(UnsupportedAlgorithm);
    }
    if !ValidKeyId(Some(Str(signer.keyId))) {
      return Err(KeyIdInvalid);
    }
    var manifest := SignedManifest(archive.manifest, signer.keyId);
    var manifestBytes := ManifestFile(p, manifest);
    var entries := archive.entries[MANIFEST := manifestBytes];
    var checksumBytes := ChecksumFile(p, Checked(entries));
    entries := entries[CHECKSUMS := checksumBytes];
    var signature := signer.sign(SignaturePayload(p, manifestBytes, checksumBytes));
    if signature == [] {
      return Err(EmptySignature);
    }
    entries := entries[SIGNATURE := p.encode(Canonical(Artifact(signer.keyId, p.toBase64(signature))) + "\n")];
    r := Ok(ArchiveSet(entries, manifest));
    SignedKeepsRest(p, archive, signer);
    if Lawful(p) {
      SignedReadsBack(p, archive, signer);
      if AllPlain(Checked(archive.entries)) {
        SignedChecksumsAgree(p, archive, signer);
      }
    }
  }

  // ---------- checking a signature ----------

  /** The artifact in its one accepted form. */
  predicate ArtifactOk(v: Json) {
    && v.Obj?
    && v.fields.Keys == {"algorithm", "keyId", "profile", "signature", "signatureEncoding", "signedEntries"}
    && Is(Field(Some(v), "profile"), PROFILE) && Is(Field(Some(v), "algorithm"), "Ed25519")
    && ValidKeyId(Field(Some(v), "keyId"))
    && Field(Some(v), "signedEntries") == Some(Arr([Str(MANIFEST), Str(CHECKSUMS)]))
    && Is(Field(Some(v), "signatureEncoding"), "base64")
    && Field(Some(v), "signature").Some? && Field(Some(v), "signature").value.Str?
  }

  function ReadJson(p: Platform, bytes: Bytes): Option<Json> {
    match p.decode(bytes)
    case None => None
    case Some(text) => p.parse(text)
  }

  function ReadArtifact(p: Platform, bytes: Bytes): (r: Option<Json>)
    ensures r.Some? ==> ArtifactOk(r.value)
  {
    match ReadJson(p, bytes)
    case None => None
    case Some(v) => if ArtifactOk(v) then Some(v) else None
  }

  predicate SameProfile(artifact: Json, profile: Option<Json>) {
    && Identical(Field(Some(artifact), "profile"), Field(profile, "name"))
    && Identical(Field(Some(artifact), "algorithm"), Field(profile, "algorithm"))
    && Identical(Field(Some(artifact), "keyId"), Field(profile, "keyId"))
  }

  /** The signature in an accepted artifact decodes and the verifier accepts it. */
  predicate Accepts(p: Platform, verifier: Verifier, entries: Entries, artifact: Json)
    requires ArtifactOk(artifact) && MANIFEST in entries && CHECKSUMS in entries
  {
    match p.fromBase64(Field(Some(artifact), "signature").value.s)
    case None => false
    case Some(signature) =>
      verifier(Field(Some(artifact), "keyId").value.s, SignaturePayload(p, entries[MANIFEST], entries[CHECKSUMS]),
               signature) == Accepted
  }

  /** What the signature check of a signed archive accepts. */
  predicate SignatureOk(p: Platform, verifier: Verifier, entries: Entries, m: Json) {
    var profile := Field(Some(m), "signatureProfile");
    && Is(Field(profile, "name"), PROFILE) && Is(Field(profile, "algorithm"), "Ed25519")
    && SIGNATURE in entries
    && match ReadArtifact(p, entries[SIGNATURE])
       case None => false
       case Some(artifact) =>
         && SameProfile(artifact, profile)
         && (MANIFEST in entries && CHECKSUMS in entries ==> Accepts(p, verifier, entries, artifact))
  }

  method VerifyManifestSignature(p: Platform, verifier: Verifier, entries: Entries, m: Json) returns (issues: seq<Code>)
    ensures issues == [] <==> if Unsigned(m) then SIGNATURE !in entries else SignatureOk(p, verifier, entries, m)
  {
    hide ArtifactOk;
    if Unsigned(m) {
      return if SIGNATURE in entries then [SignatureIssue] else [];
    }
    var profile := Field(Some(m), "signatureProfile");
    if !Is(Field(profile, "name"), PROFILE) || !Is(Field(profile, "algorithm"), "Ed25519") {
      return [SignatureIssue];
    }
    if SIGNATURE !in entries {
      return [SignatureIssue];
    }
    var artifact := ReadArtifact(p, entries[SIGNATURE]);
    if artifact == None || !SameProfile(artifact.value, profile) {
      return [SignatureIssue];
    }
    if MANIFEST !in entries || CHECKSUMS !in entries {
      return [];
    }
    issues := if Accepts(p, verifier, entries, artifact.value) then [] else [SignatureIssue];
  }

  /** A valid archive whose signature, if it claims one, is accepted. */
  ghost predicate SignedArchiveOk(p: Platform, limits: Limits, verifier: Verifier, entries: Entries) {
    && ArchiveOk(p, limits, entries, true)
    && var m := ReadManifest(p, entries).value;
       Unsigned(m) || SignatureOk(p, verifier, entries, m)
  }

  method VerifyWithSignatures(p: Platform, limits: Limits, verifier: Verifier, entries: Entries) returns (r: Outcome)
    ensures r.Threw? <==> Throws(p, entries)
    ensures r.Report? ==>
              && (r.valid <==> SignedArchiveOk(p, limits, verifier, entries))
              && r.manifest == ReadManifest(p, entries) && r.records == AllRecords(p, entries)
  {
    hide ManifestOk;
    hide SignatureOk;
    hide Throws;
    hide RecordsOk;
    hide LimitsOk;
    hide SumsHold;
    hide SumFileOk;
    hide ReadManifest;
    hide AllRecords;
    var report := VerifyArchiveEntries(p, limits, entries, true);
    if report.Threw? {
      return report;
    }
    var issues := report.issues;
    if report.manifest.Some? && !Unsigned(report.manifest.value) {
      var more := VerifyManifestSignature(p, verifier, entries, report.manifest.value);
      issues := issues + more;
    }
    ManifestRead(p, entries);
    r := report.(valid := issues == [], issues := issues);
  }

  // ---------- the signed round trip ----------

  lemma SignedDescribes(source: Source, keyId: string)
    requires Describes(Manifest(source), source) && keyId != ""
    ensures Describes(SignedManifest(Manifest(source), keyId), source)
    ensures !Unsigned(SignedManifest(Manifest(source), keyId))
    ensures var profile := Field(Some(SignedManifest(Manifest(source), keyId)), "signatureProfile");
            Field(profile, "name") == Some(Str(PROFILE)) && Field(profile, "algorithm") == Some(Str("Ed25519"))
            && Field(profile, "keyId") == Some(Str(keyId))
  {
    hide Manifest;
    hide RecordCounts;
    hide AuditLineage;
    var m, signed := Manifest(source), SignedManifest(Manifest(source), keyId);
    assert forall name :: name != "formatVersion" && name != "signatureProfile" ==>
        Field(Some(signed), name) == Field(Some(m), name);
  }

  lemma FixedPathsChecked()
    ensures !Unchecked(MANIFEST) && !Unchecked(README) && Unchecked(CHECKSUMS) && Unchecked(SIGNATURE)
    ensures MANIFEST != README && SIGNATURE != CHECKSUMS
  {
    hide PlainPath;
    FixedPathsShape();
    assert "signatures/"[0] == 's';
  }

  lemma PayloadChecked(p: Platform, source: Source, path: string)
    requires path in Payload(p, source)
    ensures !Unchecked(path)
  {
    hide Payload;
    hide PlainPath;
    PayloadPaths(p, source, path);
  }

  /** Replacing the manifest of an assembled archive leaves its payload, the readme and the new manifest to check. */
  lemma CheckedAgain(p: Platform, source: Source, m: Json)
    ensures Checked(Assembled(p, source).entries[MANIFEST := ManifestFile(p, m)]) == Covered(p, Payload(p, source), m)
  {
    hide Manifest;
    hide ManifestFile;
    hide ChecksumFile;
    hide Unchecked;
    hide Payload;
    FixedPathsChecked();
    forall path | path in Payload(p, source) ensures !Unchecked(path) {
      PayloadChecked(p, source, path);
    }
  }

  /** Resealed and signed entries carry the source under the new manifest. */
  lemma ResealedCarries(p: Platform, source: Source, m: Json, signature: Bytes)
    ensures Carries(p, source, m, Resealed(p, Assembled(p, source).entries, m)[SIGNATURE := signature])
  {
    hide Manifest;
    hide ManifestFile;
    hide ChecksumFile;
    hide Unchecked;
    hide Assembled;
    hide Covered;
    FixedPathsChecked();
    CheckedAgain(p, source, m);
  }

  lemma ArtifactReadBack(p: Platform, keyId: string, signature: string)
    requires Lawful(p) && ValidKeyId(Some(Str(keyId)))
    ensures ReadArtifact(p, p.encode(Canonical(Artifact(keyId, signature)) + "\n")) == Some(Artifact(keyId, signature))
  {
    hide Lawful;
    hide Canonical;
    JsonReadBack(p, Artifact(keyId, signature));
    ArtifactForm(keyId, signature);
  }

  lemma ArtifactForm(keyId: string, signature: string)
    requires ValidKeyId(Some(Str(keyId)))
    ensures ArtifactOk(Artifact(keyId, signature))
    ensures Field(Some(Artifact(keyId, signature)), "keyId") == Some(Str(keyId))
    ensures Field(Some(Artifact(keyId, signature)), "signature") == Some(Str(signature))
    ensures Field(Some(Artifact(keyId, signature)), "profile") == Some(Str(PROFILE))
    ensures Field(Some(Artifact(keyId, signature)), "algorithm") == Some(Str("Ed25519"))
  {
    hide ValidKeyId;
  }

  lemma SignatureHolds(p: Platform, verifier: Verifier, signer: Signer, source: Source, entries: Entries)
    requires Lawful(p) && ValidKeyId(Some(Str(signer.keyId))) && Describes(Manifest(source), source)
    requires MANIFEST in entries && CHECKSUMS in entries && SIGNATURE in entries
    requires var payload := SignaturePayload(p, entries[MANIFEST], entries[CHECKSUMS]);
             && signer.sign(payload) != [] && verifier(signer.keyId, payload, signer.sign(payload)) == Accepted
             && entries[SIGNATURE] ==
                p.encode(Canonical(Artifact(signer.keyId, p.toBase64(signer.sign(payload)))) + "\n")
    ensures SignatureOk(p, verifier, entries, SignedManifest(Manifest(source), signer.keyId))
  {
    hide Describes;
    hide Manifest;
    hide Canonical;
    hide ArtifactOk;
    hide Artifact;
    hide SignaturePayload;
    hide ReadArtifact;
    SignedDescribes(source, signer.keyId);
    hide SignedManifest;
    var payload := SignaturePayload(p, entries[MANIFEST], entries[CHECKSUMS]);
    var text := p.toBase64(signer.sign(payload));
    ArtifactReadBack(p, signer.keyId, text);
    ArtifactForm(signer.keyId, text);
    Base64Back(p, signer.sign(payload));
    hide Lawful;
  }

  lemma Base64Back(p: Platform, b: Bytes)
    requires Lawful(p) && b != []
    ensures p.fromBase64(p.toBase64(b)) == Some(b)
  {
  }

  /** The verifier accepts what the signer makes of this archive. */
  ghost predicate Trusts(p: Platform, verifier: Verifier, signer: Signer, source: Source)
    requires Manifest(source).Obj?
  {
    var sealed := Resealed(p, Assembled(p, source).entries, SignedManifest(Manifest(source), signer.keyId));
    var payload := SignaturePayload(p, sealed[MANIFEST], sealed[CHECKSUMS]);
    signer.sign(payload) != [] && verifier(signer.keyId, payload, signer.sign(payload)) == Accepted
  }

  /**
   Assemble, sign, verify: with a signer the verifier trusts, a well-scoped source within the limits
   gives a signed archive that verifies and returns its manifest and its records, sorted by id.
   */
  lemma SignThenVerify(p: Platform, limits: Limits, verifier: Verifier, signer: Signer, source: Source)
    requires Lawful(p) && WellScoped(p, source)
    requires signer.algorithm == "Ed25519" && ValidKeyId(Some(Str(signer.keyId))) && Trusts(p, verifier, signer, source)
    ensures match SignOf(p, Assembled(p, source), signer)
            case Err(_) => false
            case Ok(archive) =>
              LimitsOk(limits, archive.entries) ==>
                && !Throws(p, archive.entries) && SignedArchiveOk(p, limits, verifier, archive.entries)
                && ReadManifest(p, archive.entries) == Some(archive.manifest)
                && forall kind ::
                     Of(RecordsOf(AllRecords(p, archive.entries)), kind) == SortedRecords(p, Of(source.records, kind))
  {
    hide Lawful;
    hide Carries;
    hide Describes;
    hide SumFileOk;
    hide SumsHold;
    hide ManifestOk;
    hide Throws;
    hide AllRecords;
    hide SortedRecords;
    hide RecordsOk;
    hide LimitsOk;
    hide ReadManifest;
    hide SignatureOk;
    hide SignaturePayload;
    hide Canonical;
    ManifestDescribes(source);
    ManifestSignable(source);
    hide Signable;
    hide WellScoped;
    hide ValidKeyId;
    KeyIdNonEmpty(signer.keyId);
    SignedDescribes(source, signer.keyId);
    hide Manifest;
    hide Field;
    hide Assembled;
    var m := SignedManifest(Manifest(source), signer.keyId);
    hide SignedManifest;
    var sealed := Resealed(p, Assembled(p, source).entries, m);
    ResealedAt(p, Assembled(p, source).entries, m);
    hide Resealed;
    var signature := signer.sign(SignaturePayload(p, sealed[MANIFEST], sealed[CHECKSUMS]));
    var artifact := p.encode(Canonical(Artifact(signer.keyId, p.toBase64(signature))) + "\n");
    var entries := sealed[SIGNATURE := artifact];
    Signs(p, Assembled(p, source), signer);
    hide SignOf;
    hide Artifact;
    ResealedCarries(p, source, m, artifact);
    CarriedVerifies(p, source, m, entries);
    SignatureHolds(p, verifier, signer, source, entries);
  }

  lemma Signs(p: Platform, archive: ArchiveSet, signer: Signer)
    requires archive.manifest.Obj? && Signable(archive.manifest)
    requires signer.algorithm == "Ed25519" && ValidKeyId(Some(Str(signer.keyId)))
    requires var sealed := Resealed(p, archive.entries, SignedManifest(archive.manifest, signer.keyId));
             signer.sign(SignaturePayload(p, sealed[MANIFEST], sealed[CHECKSUMS])) != []
    ensures var m := SignedManifest(archive.manifest, signer.keyId);
            var sealed := Resealed(p, archive.entries, m);
            var signature := signer.sign(SignaturePayload(p, sealed[MANIFEST], sealed[CHECKSUMS]));
            SignOf(p, archive, signer) == Ok(ArchiveSet(
              sealed[SIGNATURE := p.encode(Canonical(Artifact(signer.keyId, p.toBase64(signature))) + "\n")], m))
  {
    hide Resealed;
    hide SignedManifest;
    hide SignaturePayload;
    hide Artifact;
    hide Canonical;
    hide ValidKeyId;
    hide Signable;
  }

  lemma KeyIdNonEmpty(keyId: string)
    requires ValidKeyId(Some(Str(keyId)))
    ensures keyId != ""
  {
  }

  lemma ResealedAt(p: Platform, entries: Entries, m: Json)
    ensures var sealed := Resealed(p, entries, m);
            MANIFEST in sealed && CHECKSUMS in sealed && MANIFEST != SIGNATURE && CHECKSUMS != SIGNATURE
  {
    hide PlainPath;
    FixedPathsShape();
  }

  lemma ManifestSignable(source: Source)
    ensures Manifest(source).Obj? && Signable(Manifest(source))
  {
    hide AuditLineage;
    hide RecordCounts;
    hide Texts;
    var fields := Manifest(source).fields;
    assert fields["formatVersion"] == Str("0.2") && fields["signatureProfile"] == Str("unsigned");
    hide Manifest;
  }
}
