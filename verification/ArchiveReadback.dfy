/** The checksum file, the record files and the manifest read back as what they were written from. */
module ArchiveReadback {
  import opened Base
  import opened Digest
  import opened Text
  import opened Paths
  import opened Json
  import opened Records
  import opened Sorting
  import opened ArchiveFormat
  import opened ArchiveVerify

  lemma Decodes(p: Platform, s: string)
    requires Lawful(p) && s != "" && s[0] != BYTE_ORDER_MARK
    ensures p.decode(p.encode(s)) == Some(s)
  {
  }

  lemma Hexadecimal(p: Platform, b: Bytes)
    requires Lawful(p)
    ensures IsHexDigest(p.sha256(b))
  {
  }

  lemma Parses(p: Platform, v: Json)
    requires Lawful(p)
    ensures p.parse(Canonical(v)) == Some(v) && p.parse(Canonical(v) + "\n") == Some(v)
  {
  }

  /** A line that a file can hold: one line, no byte order mark in front, no blank at the end. */
  predicate GoodLine(line: string) {
    line != "" && '\n' !in line && line[0] != BYTE_ORDER_MARK && !IsSpace(line[|line| - 1])
  }

  // ---------- checksum lines ----------

  lemma PlainNotSpecial(c: char)
    requires IsPlain(c) || c == '/' || IsHex(c)
    ensures !IsSpace(c) && !IsTerminator(c) && c != BYTE_ORDER_MARK && c != '\n'
  {
  }

  /** A checksum line states its path and digest. */
  lemma LineReads(digest: string, path: string)
    requires IsHexDigest(digest) && PlainPath(path)
    ensures var line := digest + "  " + path;
            ParseLine(line) == Some((path, digest)) && LineOk(line) && GoodLine(line)
  {
    hide SafePath;
    var line := digest + "  " + path;
    assert path != "" by { PlainPathNonEmpty(path); }
    assert line[..64] == digest && line[66..] == path;
    assert forall i :: 66 <= i < |line| ==> line[i] == path[i - 66];
    forall i | 0 <= i < |path| ensures !IsSpace(path[i]) && !IsTerminator(path[i]) && path[i] != '\n' {
      PlainNotSpecial(path[i]);
    }
    forall i | 0 <= i < 64 ensures digest[i] != '\n' && digest[i] != BYTE_ORDER_MARK {
      PlainNotSpecial(digest[i]);
    }
    assert line[|line| - 1] == path[|path| - 1];
  }

  lemma PlainPathNonEmpty(path: string)
    requires PlainPath(path)
    ensures path != ""
  {
  }

  ghost predicate AllPlain(files: Entries) {
    forall path :: path in files ==> PlainPath(path)
  }

  /** The checksum lines of some of the paths. */
  function LinesFor(p: Platform, files: Entries, paths: seq<string>): (lines: seq<string>)
    requires forall path :: path in paths ==> path in files
    ensures |lines| == |paths| && forall i :: 0 <= i < |paths| ==> lines[i] == ChecksumLine(p, files, paths[i])
  {
    seq(|paths|, i requires 0 <= i < |paths| => assert paths[i] in paths; ChecksumLine(p, files, paths[i]))
  }

  function DigestsFor(p: Platform, files: Entries, paths: seq<string>): map<string, string>
    requires forall path :: path in paths ==> path in files
  {
    map path | path in paths :: p.sha256(files[path])
  }

  lemma {:induction false} SumsReadBack(p: Platform, files: Entries, paths: seq<string>)
    requires Lawful(p) && AllPlain(files) && forall path :: path in paths ==> path in files
    ensures Sums(LinesFor(p, files, paths)) == DigestsFor(p, files, paths)
  {
    hide Lawful;
    hide PlainPath;
    hide ParseLine;
    hide LineOk;
    if paths != [] {
      var n := |paths| - 1;
      var front, last := paths[..n], paths[n];
      assert last in paths;
      assert forall path :: path in front ==> path in paths;
      SumsReadBack(p, files, front);
      assert LinesFor(p, files, paths)[..n] == LinesFor(p, files, front);
      Hexadecimal(p, files[last]);
      LineReads(p.sha256(files[last]), last);
      hide AllPlain;
      assert forall path :: path in paths <==> path in front || path == last;
      assert DigestsFor(p, files, paths) == DigestsFor(p, files, front)[last := p.sha256(files[last])];
    }
  }

  lemma SortedDistinct(s: seq<string>)
    requires StrictlySorted(s)
    ensures Distinct(s)
  {
    hide Leq;
  }

  lemma PathsDistinct(p: Platform, files: Entries)
    ensures Distinct(OrderedPaths(p, files))
  {
    SortedDistinct(SortedKeys(files.Keys));
    DistinctPermutes(OrderedPaths(p, files), SortedKeys(files.Keys));
  }

  lemma LineAt(p: Platform, files: Entries, i: nat)
    requires Lawful(p) && AllPlain(files) && i < |ChecksumLines(p, files)|
    ensures var line := ChecksumLines(p, files)[i];
            LineOk(line) && ParseLine(line).Some? && ParseLine(line).value.0 == OrderedPaths(p, files)[i]
              && GoodLine(line)
  {
    hide Lawful;
    hide PlainPath;
    hide ParseLine;
    hide LineOk;
    hide OrderedPaths;
    hide GoodLine;
    var paths := OrderedPaths(p, files);
    assert paths[i] in paths;
    Hexadecimal(p, files[paths[i]]);
    LineReads(p.sha256(files[paths[i]]), paths[i]);
  }

  lemma ChecksumLinesOk(p: Platform, files: Entries)
    requires Lawful(p) && AllPlain(files)
    ensures LinesOk(ChecksumLines(p, files))
    ensures forall i :: 0 <= i < |ChecksumLines(p, files)| ==> GoodLine(ChecksumLines(p, files)[i])
  {
    hide Lawful;
    hide ParseLine;
    hide LineOk;
    hide OrderedPaths;
    hide GoodLine;
    hide ChecksumLines;
    hide AllPlain;
    PathsDistinct(p, files);
    forall i | 0 <= i < |ChecksumLines(p, files)|
      ensures var line := ChecksumLines(p, files)[i];
              LineOk(line) && ParseLine(line).Some? && ParseLine(line).value.0 == OrderedPaths(p, files)[i]
                && GoodLine(line)
    {
      LineAt(p, files, i);
    }
  }

  lemma ChecksumSums(p: Platform, files: Entries)
    requires Lawful(p) && AllPlain(files)
    ensures Sums(ChecksumLines(p, files)) == map path | path in files :: p.sha256(files[path])
  {
    hide Lawful;
    hide OrderedPaths;
    hide Sums;
    hide AllPlain;
    var paths := OrderedPaths(p, files);
    SumsReadBack(p, files, paths);
    assert ChecksumLines(p, files) == LinesFor(p, files, paths);
  }

  lemma {:induction false} JoinStart(sep: char, parts: seq<string>)
    requires parts != [] && parts[0] != ""
    ensures Join(sep, parts) != "" && Join(sep, parts)[0] == parts[0][0]
  {
  }

  /** The text of a file of lines decodes and splits into those lines. */
  lemma LinesReadBack(p: Platform, lines: seq<string>)
    requires Lawful(p) && lines != [] && forall i :: 0 <= i < |lines| ==> GoodLine(lines[i])
    ensures match p.decode(p.encode(Join('\n', lines) + "\n"))
            case None => false
            case Some(text) => Split('\n', TrimEnd(text)) == lines
  {
    hide Lawful;
    hide TrimEnd;
    hide Split;
    assert GoodLine(lines[0]) && GoodLine(lines[|lines| - 1]);
    JoinStart('\n', lines);
    hide Join;
    var text := Join('\n', lines) + "\n";
    Decodes(p, text);
    TrimLines(lines);
    assert forall line :: line in lines ==> '\n' !in line;
    SplitJoin('\n', lines);
  }

  /** The checksum file states the digest of every covered file and nothing else. */
  lemma ChecksumsReadBack(p: Platform, files: Entries, entries: Entries)
    requires Lawful(p) && AllPlain(files) && files != map[]
    requires CHECKSUMS in entries && entries[CHECKSUMS] == ChecksumFile(p, files)
    ensures SumFileOk(p, entries) && StatedSums(p, entries) == map path | path in files :: p.sha256(files[path])
  {
    hide Lawful;
    hide PlainPath;
    hide ParseLine;
    hide LineOk;
    hide Sums;
    hide LinesOk;
    hide Split;
    hide TrimEnd;
    hide Join;
    hide GoodLine;
    hide AllPlain;
    ChecksumLinesOk(p, files);
    ChecksumSums(p, files);
    SomeLine(p, files);
    hide ChecksumLines;
    LinesReadBack(p, ChecksumLines(p, files));
  }

  lemma SomeLine(p: Platform, files: Entries)
    requires files != map[]
    ensures ChecksumLines(p, files) != []
  {
    var path :| path in files;
    assert path in OrderedPaths(p, files);
  }

  // ---------- record files ----------

  function Objects(records: seq<Record>): (values: seq<Json>)
    ensures |values| == |records| && forall i :: 0 <= i < |records| ==> values[i] == Obj(records[i])
  {
    seq(|records|, i requires 0 <= i < |records| => Obj(records[i]))
  }

  lemma ObjectText(r: Record)
    ensures var text := Canonical(Obj(r));
            text != "" && text[0] == '{' && GoodLine(text)
  {
    CanonicalPrintable(Obj(r));
    hide Members;
    assert '\n' < ' ';
    assert Canonical(Obj(r))[|Canonical(Obj(r))| - 1] == '}';
  }

  lemma {:induction false} LinesNonEmpty(lines: seq<string>)
    requires forall i :: 0 <= i < |lines| ==> lines[i] != ""
    ensures NonEmpty(lines) == lines
  {
    if lines != [] {
      var n := |lines| - 1;
      LinesNonEmpty(lines[..n]);
      assert lines == lines[..n] + [lines[n]];
    }
  }

  lemma {:induction false} LinesParse(p: Platform, records: seq<Record>)
    requires Lawful(p)
    ensures ParseAll(p, RecordLines(records)) == Some(Objects(records))
  {
    hide Canonical;
    hide Lawful;
    if records != [] {
      var n := |records| - 1;
      Parses(p, Obj(records[n]));
      LinesParse(p, records[..n]);
      assert RecordLines(records)[..n] == RecordLines(records[..n]);
      assert Objects(records) == Objects(records[..n]) + [Obj(records[n])];
    }
  }

  /** A record file holds its records, sorted. */
  lemma RecordsReadBack(p: Platform, records: seq<Record>)
    requires Lawful(p) && records != []
    ensures ReadRecords(p, RecordFile(p, records)) == Some(Objects(SortedRecords(p, records)))
  {
    hide Lawful;
    hide Canonical;
    hide Join;
    hide Split;
    hide TrimEnd;
    hide Sort;
    hide ParseAll;
    hide NonEmpty;
    var sorted := SortedRecords(p, records);
    SameMembers(sorted, records);
    hide SortedRecords;
    var lines := RecordLines(sorted);
    forall i | 0 <= i < |lines|
      ensures GoodLine(lines[i])
    {
      ObjectText(sorted[i]);
    }
    LinesReadBack(p, lines);
    LinesNonEmpty(lines);
    LinesParse(p, sorted);
  }

  // ---------- the manifest ----------

  lemma ManifestReadBack(p: Platform, entries: Entries, m: Json)
    requires Lawful(p) && m.Obj? && HeaderOk(m)
    requires MANIFEST in entries && entries[MANIFEST] == ManifestFile(p, m)
    ensures ReadManifest(p, entries) == Some(m) && ManifestOk(p, entries)
  {
    hide HeaderOk;
    hide Canonical;
    hide Lawful;
    ObjectText(m.fields);
    var text := Canonical(m) + "\n";
    Decodes(p, text);
    Parses(p, m);
  }
}
