/** Archive paths (packages/archive/src/paths.ts). */
module Paths {
  import opened Base
  import opened Digest
  import opened Text

  predicate IsControl(c: char) { c as int < 0x20 || c as int == 0x7f }

  predicate HasDrive(path: string) {
    |path| >= 2 && path[1] == ':' && ('A' <= path[0] <= 'Z' || 'a' <= path[0] <= 'z')
  }

  /** The paths that assertSafeArchivePath lets through. */
  predicate SafePath(path: string) {
    && 0 < |Units(path)| <= 512
    && path[0] != '/' && !HasDrive(path)
    && (forall i :: 0 <= i < |path| ==> path[i] != '\\' && !IsControl(path[i]))
    && (forall part :: part in Split('/', path) ==> part !in ["", ".", ".."])
  }

  /** A folder or file name that stays inside its folder. */
  predicate GoodSegment(s: string) {
    s !in ["", ".", ".."] && forall i :: 0 <= i < |s| ==> s[i] !in "/\\" && !IsControl(s[i])
  }

  /** A safe path is made of names that stay inside their folders, is not too long and names no drive. */
  lemma SafePathMeans(path: string)
    ensures SafePath(path) <==>
            && |Units(path)| <= 512 && !HasDrive(path)
            && exists parts :: parts != [] && path == Join('/', parts) && forall s :: s in parts ==> GoodSegment(s)
  {
    hide Units;
    var parts := Split('/', path);
    JoinSplit('/', path);
    if SafePath(path) {
      forall s | s in parts ensures GoodSegment(s) {
        PartChars(path, s);
      }
    }
    if names :| names != [] && path == Join('/', names) && forall s :: s in names ==> GoodSegment(s) {
      assert forall s :: s in names ==> '/' !in s;
      SplitJoin('/', names);
      GoodPath(names);
    }
    UnitsEmpty();
  }

  lemma UnitsEmpty()
    ensures forall s :: |Units(s)| == 0 ==> s == ""
    ensures |Units("")| == 0
  {
  }

  lemma {:induction false} PartChars(path: string, part: string)
    requires part in Split('/', path)
    ensures forall i :: 0 <= i < |part| ==> part[i] in path
  {
    if path != "" {
      var rest := Split('/', path[1..]);
      assert forall c :: c in path[1..] ==> c in path;
      if part in rest {
        PartChars(path[1..], part);
      } else if path[0] != '/' {
        assert part == [path[0]] + rest[0] && rest[0] in rest;
        PartChars(path[1..], rest[0]);
      }
    }
  }

  /** Good names, joined, begin with no slash and hold no backslash and no control character. */
  lemma {:induction false} GoodPath(names: seq<string>)
    requires names != [] && forall s :: s in names ==> GoodSegment(s)
    ensures var path := Join('/', names);
            path != "" && path[0] != '/' && forall i :: 0 <= i < |path| ==> path[i] != '\\' && !IsControl(path[i])
  {
    assert names[0] in names;
    if |names| > 1 {
      assert forall s :: s in names[1..] ==> s in names;
      GoodPath(names[1..]);
    }
  }

  /** Where the bytes of a digest live; None where the source throws. */
  function BlobArchivePath(digest: string): Option<string> {
    if IsHexDigest(digest) then Some("blobs/" + digest[..2] + "/" + digest) else None
  }

  // ---------- the paths an archive is made of ----------

  predicate IsPlain(c: char) {
    'a' <= c <= 'z' || 'A' <= c <= 'Z' || '0' <= c <= '9' || c == '.' || c == '-'
  }

  /** A path segment of letters, digits, dots and dashes. */
  predicate PlainName(s: string) {
    0 < |s| <= 64 && s !in [".", ".."] && PlainChars(s)
  }

  predicate PlainChars(s: string) {
    forall i :: 0 <= i < |s| ==> IsPlain(s[i])
  }

  /** A safe path without blanks. */
  predicate PlainPath(path: string) {
    SafePath(path) && forall i :: 0 <= i < |path| ==> IsPlain(path[i]) || path[i] == '/'
  }

  /** Plain characters and slashes are one code unit each. */
  lemma {:induction false} UnitsPlain(s: string)
    requires forall i :: 0 <= i < |s| ==> IsPlain(s[i]) || s[i] == '/'
    ensures |Units(s)| == |s|
  {
    if s != "" {
      UnitsPlain(s[1..]);
    }
  }

  lemma {:induction false} JoinPlain(names: seq<string>)
    requires names != [] && forall s :: s in names ==> PlainChars(s)
    ensures var path := Join('/', names);
            (forall i :: 0 <= i < |path| ==> IsPlain(path[i]) || path[i] == '/') && names[0] <= path
  {
    assert names[0] in names;
    if |names| > 1 {
      assert forall s :: s in names[1..] ==> s in names;
      JoinPlain(names[1..]);
    }
  }

  /** A path of plain segments is safe exactly when it is not too long and no segment is empty or made of dots. */
  lemma PlainPathSafe(names: seq<string>)
    requires names != [] && forall s :: s in names ==> PlainChars(s)
    ensures PlainPath(Join('/', names)) <==>
            |Join('/', names)| <= 512 && forall s :: s in names ==> s !in ["", ".", ".."]
  {
    hide Join;
    hide Split;
    hide Units;
    var path := Join('/', names);
    assert forall s :: s in names ==> '/' !in s;
    SplitJoin('/', names);
    JoinPlain(names);
    UnitsPlain(path);
    assert names[0] in names;
    assert !HasDrive(path);
  }

  lemma {:induction false} JoinLength(names: seq<string>)
    requires names != [] && forall s :: s in names ==> |s| <= 64
    ensures |Join('/', names)| <= 65 * |names|
  {
    assert names[0] in names;
    if |names| > 1 {
      assert forall s :: s in names[1..] ==> s in names;
      JoinLength(names[1..]);
    }
  }

  /** A few short plain segments make a safe path. */
  lemma ShortPathSafe(names: seq<string>)
    requires 0 < |names| <= 3 && forall s :: s in names ==> PlainName(s)
    ensures PlainPath(Join('/', names))
  {
    hide Join;
    hide PlainPath;
    JoinLength(names);
    PlainPathSafe(names);
  }
}
