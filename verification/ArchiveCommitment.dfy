/** What a checksum file commits an archive to (packages/archive/src/verify.ts, the checksum checks). */
module ArchiveCommitment {
  import opened ArchiveFormat
  import opened ArchiveVerify

  /** Two entries with different bytes and one digest. */
  ghost predicate Collision(p: Platform, a: Entries, b: Entries, path: string) {
    path in a && path in b && a[path] != b[path] && p.sha256(a[path]) == p.sha256(b[path])
  }

  ghost predicate InSignatures(path: string) { StartsWith(path, "signatures/") }

  lemma Stated(p: Platform, entries: Entries, path: string)
    requires SumsHold(p, entries, StatedSums(p, entries)) && path in entries && !Unchecked(path)
    ensures path in StatedSums(p, entries) && p.sha256(entries[path]) == StatedSums(p, entries)[path]
  {
    hide Unchecked;
    hide StatedSums;
    assert path in StatedSums(p, entries);
    assert SumHolds(p, entries, path, StatedSums(p, entries)[path]);
  }

  /**
   Two valid archives with one checksum file hold the same paths and bytes outside the signatures
   folder, or a path is exhibited under which they hold different bytes of equal digest.
   */
  lemma ChecksumFileCommits(p: Platform, limits: Limits, a: Entries, b: Entries, deferA: bool, deferB: bool)
    requires ArchiveOk(p, limits, a, deferA) && ArchiveOk(p, limits, b, deferB)
    requires CHECKSUMS in a && CHECKSUMS in b && a[CHECKSUMS] == b[CHECKSUMS]
    ensures (forall path :: !InSignatures(path) ==> (path in a <==> path in b))
    ensures (forall path :: !InSignatures(path) && path in a && path in b ==> a[path] == b[path])
            || exists path :: Collision(p, a, b, path)
  {
    hide LimitsOk;
    hide RecordsOk;
    hide ManifestOk;
    hide SigningOk;
    hide StartsWith;
    var sums := StatedSums(p, a);
    assert StatedSums(p, b) == sums;
    forall path | !InSignatures(path)
      ensures path in a <==> path in b
      ensures path in a && path in b ==> a[path] == b[path] || Collision(p, a, b, path)
    {
      if path != CHECKSUMS {
        if path in a {
          Stated(p, a, path);
          assert SumHolds(p, b, path, sums[path]);
        }
        if path in b {
          Stated(p, b, path);
          assert SumHolds(p, a, path, sums[path]);
        }
      }
    }
  }
}
