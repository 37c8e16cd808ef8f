/** What a signature commits an archive to (packages/archive/src/signature.ts). */
module ArchiveSigned {
  import opened Base
  import opened Json
  import opened Records
  import opened ArchiveFormat
  import opened ArchiveVerify
  import opened ArchiveReadback
  import opened ArchiveCommitment
  import opened ArchiveSigning

  lemma EncodeInjective(p: Platform, r: Record, s: Record)
    requires Lawful(p) && p.encode(Canonical(Obj(r)) + "\n") == p.encode(Canonical(Obj(s)) + "\n")
    ensures r == s
  {
    hide Lawful;
    ObjectText(r);
    ObjectText(s);
    hide Canonical;
    Decodes(p, Canonical(Obj(r)) + "\n");
    Decodes(p, Canonical(Obj(s)) + "\n");
    ObjectsSelfDelimiting(Obj(r), Obj(s), "\n", "\n");
  }

  /** The signed bytes name the digests of the manifest and of the checksum file, and nothing else varies in them. */
  lemma PayloadCommits(p: Platform, m: Bytes, c: Bytes, m': Bytes, c': Bytes)
    requires Lawful(p)
    ensures SignaturePayload(p, m, c) == SignaturePayload(p, m', c') <==>
            p.sha256(m) == p.sha256(m') && p.sha256(c) == p.sha256(c')
  {
    hide Lawful;
    hide Canonical;
    if SignaturePayload(p, m, c) == SignaturePayload(p, m', c') {
      var r := map["checksumsSha256" := Str(p.sha256(c)), "manifestSha256" := Str(p.sha256(m)),
                   "profile" := Str(PROFILE)];
      var s := map["checksumsSha256" := Str(p.sha256(c')), "manifestSha256" := Str(p.sha256(m')),
                   "profile" := Str(PROFILE)];
      EncodeInjective(p, r, s);
      assert r["checksumsSha256"] == s["checksumsSha256"] && r["manifestSha256"] == s["manifestSha256"];
    }
  }

  /** The bytes that the signature of an archive is checked against. */
  function SignedBytes(p: Platform, entries: Entries): Bytes
    requires MANIFEST in entries && CHECKSUMS in entries
  {
    SignaturePayload(p, entries[MANIFEST], entries[CHECKSUMS])
  }

  lemma HasBoth(p: Platform, limits: Limits, entries: Entries, deferSigned: bool)
    requires ArchiveOk(p, limits, entries, deferSigned)
    ensures MANIFEST in entries && CHECKSUMS in entries
  {
    hide LimitsOk;
    hide SumsHold;
    hide RecordsOk;
    hide LinesOk;
  }

  /**
   Two valid archives of which one signature is checked against the same bytes hold the same paths and bytes outside
   the signatures folder, or a path is exhibited under which they hold different bytes of equal digest.
   */
  lemma SignatureCommits(p: Platform, limits: Limits, a: Entries, b: Entries)
    requires Lawful(p) && ArchiveOk(p, limits, a, true) && ArchiveOk(p, limits, b, true)
    requires MANIFEST in a && CHECKSUMS in a && MANIFEST in b && CHECKSUMS in b
    requires SignedBytes(p, a) == SignedBytes(p, b)
    ensures || (exists path :: Collision(p, a, b, path))
            || forall path :: !InSignatures(path) ==>
                 (path in a <==> path in b) && (path in a && path in b ==> a[path] == b[path])
  {
    hide ArchiveOk;
    hide Lawful;
    hide SignaturePayload;
    PayloadCommits(p, a[MANIFEST], a[CHECKSUMS], b[MANIFEST], b[CHECKSUMS]);
    if a[CHECKSUMS] != b[CHECKSUMS] {
      assert Collision(p, a, b, CHECKSUMS);
    } else {
      ChecksumFileCommits(p, limits, a, b, true, true);
    }
  }

  /** A signature artifact has one form, which leaves open only the key and the signature. */
  lemma ArtifactHasOneForm(v: Json)
    ensures ArtifactOk(v) <==>
            exists keyId, signature :: ValidKeyId(Some(Str(keyId))) && v == Artifact(keyId, signature)
  {
    hide ValidKeyId;
    if ArtifactOk(v) {
      var keyId, signature := v.fields["keyId"], v.fields["signature"];
      KeyIsText(Some(keyId));
      var a := Artifact(keyId.s, signature.s);
      assert v.fields.Keys == a.fields.Keys;
      assert forall f :: f in v.fields ==> v.fields[f] == a.fields[f];
      assert v.fields == a.fields;
    }
  }

  lemma KeyIsText(v: Option<Json>)
    requires ValidKeyId(v)
    ensures v.Some? && v.value.Str?
  {
  }

  /** Under the key that the manifest names the verifier accepts some signature of those bytes. */
  ghost predicate Vouched(p: Platform, verifier: Verifier, entries: Entries, m: Json) {
    && MANIFEST in entries && CHECKSUMS in entries
    && exists keyId, signature ::
         && Field(Field(Some(m), "signatureProfile"), "keyId") == Some(Str(keyId))
         && verifier(keyId, SignedBytes(p, entries), signature) == Accepted
  }

  lemma SignatureVouches(p: Platform, verifier: Verifier, entries: Entries, m: Json)
    requires SignatureOk(p, verifier, entries, m) && MANIFEST in entries && CHECKSUMS in entries
    ensures Vouched(p, verifier, entries, m)
  {
    hide SignaturePayload;
    hide ReadJson;
    var artifact := ReadArtifact(p, entries[SIGNATURE]).value;
    var keyId := Field(Some(artifact), "keyId").value.s;
    var signature := p.fromBase64(Field(Some(artifact), "signature").value.s).value;
    assert verifier(keyId, SignedBytes(p, entries), signature) == Accepted;
  }

  /** An archive that verifies is unsigned, without a signature, or carries one that the verifier accepts. */
  lemma SignedMeansAccepted(p: Platform, limits: Limits, verifier: Verifier, entries: Entries)
    requires SignedArchiveOk(p, limits, verifier, entries)
    ensures match ReadManifest(p, entries)
            case None => false
            case Some(m) =>
              if Field(Some(m), "signatureProfile") == Some(Str("unsigned")) then SIGNATURE !in entries
              else Vouched(p, verifier, entries, m)
  {
    HasBoth(p, limits, entries, true);
    ManifestRead(p, entries);
    hide LimitsOk;
    hide SumsHold;
    hide SumFileOk;
    hide RecordsOk;
    hide SignatureOk;
    hide Vouched;
    hide ManifestOk;
    hide ReadManifest;
    var m := ReadManifest(p, entries).value;
    if !Unsigned(m) {
      SignatureVouches(p, verifier, entries, m);
    }
  }
}
