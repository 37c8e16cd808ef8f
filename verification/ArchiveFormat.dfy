/**
 The pieces an archive is made of, shared by assembly, signing and verification
 (packages/archive/src/assemble.ts, verify.ts, signature.ts): paths, record files, the checksum file
 and the manifest. What the platform supplies is a parameter, used only through its inverse laws.
 */
module ArchiveFormat {
  import opened Base
  import opened Digest
  import opened Text
  import opened Json
  import opened Records
  import opened Sorting

  datatype Platform = Platform(
    sha256: Bytes -> string,
    encode: string -> Bytes,
    decode: Bytes -> Option<string>,
    parse: string -> Option<Json>,
    leq: (string, string) -> bool,
    toBase64: Bytes -> string,
    fromBase64: string -> Option<Bytes>)

  const BYTE_ORDER_MARK: char := '\U{FEFF}'

  /** UTF-8, JSON and base64 read back what they write; digests are hexadecimal; localeCompare is a total order. */
  ghost predicate Lawful(p: Platform) {
    && (forall b :: IsHexDigest(p.sha256(b)))
    && (forall s: string :: s != "" && s[0] != BYTE_ORDER_MARK ==> p.decode(p.encode(s)) == Some(s))
    && (forall v :: p.parse(Canonical(v)) == Some(v) && p.parse(Canonical(v) + "\n") == Some(v))
    && TotalOrder(p.leq)
    && (forall b :: b != [] ==> p.fromBase64(p.toBase64(b)) == Some(b))
  }

  type Entries = map<string, Bytes>

  // ---------- paths ----------

  const CHECKSUMS := "checksums/sha256sums.txt"
  const MANIFEST := "manifest.json"
  const README := "README.txt"
  const SIGNATURE := "signatures/manifest-signature.json"

  function RecordPath(kind: Kind): string { "records/" + KindName(kind) + ".jsonl" }

  predicate StartsWith(s: string, prefix: string) { prefix <= s }

  /** The entries that the checksum file leaves out. */
  predicate Unchecked(path: string) { path == CHECKSUMS || StartsWith(path, "signatures/") }

  // ---------- record files ----------

  function SortKey(r: Record): string {
    match Prop(r, "id")
    case Some(Str(id)) => id
    case _ => Canonical(Obj(r))
  }

  function RecordOrder(leq: (string, string) -> bool): (Record, Record) -> bool {
    (a: Record, b: Record) => leq(SortKey(a), SortKey(b))
  }

  function SortedRecords(p: Platform, records: seq<Record>): seq<Record> {
    Sort(RecordOrder(p.leq), records)
  }

  function RecordLines(records: seq<Record>): (lines: seq<string>)
    ensures |lines| == |records|
  {
    seq(|records|, i requires 0 <= i < |records| => Canonical(Obj(records[i])))
  }

  function RecordFile(p: Platform, records: seq<Record>): Bytes {
    p.encode(Join('\n', RecordLines(SortedRecords(p, records))) + "\n")
  }

  // ---------- the checksum file ----------

  /** The paths of an archive in the order of the checksum file; any sort of them gives this list. */
  function OrderedPaths(p: Platform, files: Entries): (paths: seq<string>)
    ensures multiset(paths) == multiset(SortedKeys(files.Keys))
    ensures forall path :: path in paths <==> path in files
  {
    var paths := Sort(p.leq, SortedKeys(files.Keys));
    SameMembers(paths, SortedKeys(files.Keys));
    paths
  }

  function ChecksumLine(p: Platform, files: Entries, path: string): string
    requires path in files
  {
    p.sha256(files[path]) + "  " + path
  }

  function ChecksumLines(p: Platform, files: Entries): (lines: seq<string>)
    ensures |lines| == |OrderedPaths(p, files)|
  {
    var paths := OrderedPaths(p, files);
    seq(|paths|, i requires 0 <= i < |paths| => assert paths[i] in paths; ChecksumLine(p, files, paths[i]))
  }

  function ChecksumFile(p: Platform, files: Entries): Bytes {
    p.encode(Join('\n', ChecksumLines(p, files)) + "\n")
  }

  /** The entries the checksum file covers. */
  function Checked(entries: Entries): Entries {
    map path | path in entries && !Unchecked(path) :: entries[path]
  }

  // ---------- the manifest ----------

  function ManifestFile(p: Platform, manifest: Json): Bytes {
    p.encode(Canonical(manifest) + "\n")
  }

  /** `value?.[name]`: the property of an object; other values have none of the properties read here. */
  function Field(value: Option<Json>, name: string): Option<Json> {
    match value
    case Some(Obj(fields)) => Prop(fields, name)
    case _ => None
  }

  // ---------- printed text ----------

  /** Text without control characters. */
  predicate Printable(s: string) { forall i :: 0 <= i < |s| ==> s[i] >= ' ' }

  lemma {:induction false} EscapePrintable(s: string)
    ensures Printable(Escape(s))
  {
    if s != "" {
      EscapePrintable(s[1..]);
      EscapeCharPrintable(s[0]);
    }
  }

  lemma EscapeCharPrintable(c: char)
    ensures Printable(EscapeChar(c))
  {
  }

  lemma NumberPrintable(v: Json)
    requires IsNumber(v)
    ensures Printable(Canonical(v))
  {
    NumeralReadsBack(v);
    assert forall c :: IsNumberChar(c) ==> c >= ' ';
  }

  lemma QuotePrintable(s: string)
    ensures Printable(Quote(s))
  {
    EscapePrintable(s);
  }

  /** Canonical JSON holds no line break and no other control character. */
  lemma {:induction false} CanonicalPrintable(v: Json)
    ensures Printable(Canonical(v))
    decreases v, 1
  {
    match v
    case Null =>
    case Bool(_) =>
    case Int(_) => NumberPrintable(v);
    case Frac(_) => NumberPrintable(v);
    case Str(s) => QuotePrintable(s);
    case Arr(items) => ItemsPrintable(items);
    case Obj(fields) => MembersPrintable(v, SortedKeys(fields.Keys));
  }

  lemma {:induction false} ItemsPrintable(items: seq<Json>)
    ensures Printable(Items(items))
    decreases items, 0
  {
    if items != [] {
      CanonicalPrintable(items[0]);
      if |items| > 1 {
        ItemsPrintable(items[1..]);
      }
    }
  }

  lemma {:induction false} MembersPrintable(v: Json, keys: seq<string>)
    requires v.Obj? && forall k :: k in keys ==> k in v.fields
    ensures Printable(Members(v, keys))
    decreases v, 0, |keys|
  {
    if keys != [] {
      QuotePrintable(keys[0]);
      CanonicalPrintable(v.fields[keys[0]]);
      assert Printable(Quote(keys[0]) + ":" + Canonical(v.fields[keys[0]]));
      if |keys| > 1 {
        MembersPrintable(v, keys[1..]);
      }
    }
  }
}
