/**
 When mapped ids collide (packages/archive/src/import-plan.ts: mappedEntityId): workspace, kind and source id all
 go into the hashed text, and two ids agree only if their digests agree on all bits that an id keeps.
 */
module ImportIds {
  import opened Base
  import opened Digest
  import opened Json
  import opened Records
  import opened ImportGraph
  import opened ImportMapping
  import opened ImportRemap

  // ---------- what goes into an id ----------

  /** Different origins are hashed as different texts. */
  lemma IdTextInjective(w: string, kind: Kind, id: string, w': string, kind': Kind, id': string)
    ensures IdText(w, kind, id) == IdText(w', kind', id') <==> w == w' && kind == kind' && id == id'
  {
    hide Canonical;
    hide KindName;
    if IdText(w, kind, id) == IdText(w', kind', id') {
      var a := map["format" := Str("trust-import-mapped-id-v1"), "workspaceId" := Str(w),
                   "kind" := Str(KindName(kind)), "sourceId" := Str(id)];
      var b := map["format" := Str("trust-import-mapped-id-v1"), "workspaceId" := Str(w'),
                   "kind" := Str(KindName(kind')), "sourceId" := Str(id')];
      CanonicalInjective(Obj(a), Obj(b));
      assert a["workspaceId"] == b["workspaceId"] && a["kind"] == b["kind"] && a["sourceId"] == b["sourceId"];
      KindNameInjective(kind, kind');
    }
  }

  ghost predicate Hexadecimal(h: Hash) {
    forall text :: IsHexDigest(h(text))
  }

  // ---------- what an id keeps ----------

  lemma VariantKeeps(a: string, b: string)
    ensures VariantByte(a) == VariantByte(b) <==> ParseHex(a) % 0x40 == ParseHex(b) % 0x40
  {
    hide ParseHex;
    var x, y := ParseHex(a) % 0x40 + 0x80, ParseHex(b) % 0x40 + 0x80;
    if VariantByte(a) == VariantByte(b) {
      assert VariantByte(a)[0] == VariantByte(b)[0] && VariantByte(a)[1] == VariantByte(b)[1];
      HexInjective(x / 16, y / 16);
      HexInjective(x % 16, y % 16);
    }
  }

  lemma HexInjective(x: nat, y: nat)
    requires x < 16 && y < 16 && Hex(x) == Hex(y)
    ensures x == y
  {
  }

  /** Two ids are equal exactly when their digests agree on the 122 bits that an id keeps. */
  lemma IdKeeps(a: string, b: string)
    requires IsHexDigest(a) && IsHexDigest(b)
    ensures IdOfDigest(a) == IdOfDigest(b) <==> Kept(a) == Kept(b)
  {
    hide ParseHex;
    hide VariantByte;
    MappedIdShape(a);
    MappedIdShape(b);
    VariantKeeps(a[16..18], b[16..18]);
    if Kept(a) == Kept(b) {
      SameId(a, b);
    }
  }

  lemma SameId(a: string, b: string)
    requires IsHexDigest(a) && IsHexDigest(b) && Kept(a) == Kept(b)
    ensures IdOfDigest(a) == IdOfDigest(b)
  {
    hide ParseHex;
    hide VariantByte;
    VariantKeeps(a[16..18], b[16..18]);
    assert a[0..8] == a[..12][..8] && b[0..8] == b[..12][..8];
    assert a[8..12] == a[..12][8..] && b[8..12] == b[..12][8..];
    assert a[18..20] == a[18..32][..2] && b[18..20] == b[18..32][..2];
    assert a[20..32] == a[18..32][2..] && b[20..32] == b[18..32][2..];
  }

  // ---------- collisions ----------

  /** Two digests that an import takes ids from agree where it matters. */
  ghost predicate DigestsAgree(h: Hash, target: string, kind: Kind, a: string, b: string)
    requires Hexadecimal(h)
  {
    Kept(h(IdText(target, kind, a))) == Kept(h(IdText(target, kind, b)))
  }

  /**
   Mapping gives two records of a kind one id exactly when the digests of their two different texts agree on the
   kept bits, or when the archive has a workspace under the old and one under the new id.
   */
  lemma CollisionsAre(h: Hash, records: RecordSet, source: string, target: string)
    requires Hexadecimal(h) && source != target
    ensures NoCollisions(BuildIdMappings(h, records, source, target), records) <==>
            && !(source in Ids(records, Workspaces) && target in Ids(records, Workspaces))
            && forall kind, a, b :: Scoped(kind) && a in Ids(records, kind) && b in Ids(records, kind) && a != b ==>
                 !DigestsAgree(h, target, kind, a, b)
  {
    hide Ids;
    hide IdText;
    hide IdOfDigest;
    hide Kept;
    var m := BuildIdMappings(h, records, source, target);
    forall kind, a, b | a in Ids(records, kind) && b in Ids(records, kind)
      ensures Scoped(kind) ==>
                (MapId(m, kind, a) == MapId(m, kind, b) <==> DigestsAgree(h, target, kind, a, b))
    {
      IdKeeps(h(IdText(target, kind, a)), h(IdText(target, kind, b)));
    }
    hide BuildIdMappings;
    if source in Ids(records, Workspaces) && target in Ids(records, Workspaces) {
      assert MapId(m, Workspaces, source) == MapId(m, Workspaces, target);
    }
    hide MapId;
    assert forall kind, a, b :: a in Ids(records, kind) && b in Ids(records, kind) && !Scoped(kind) ==>
      MapId(m, kind, a) == MapId(m, kind, b) ==>
      a == b || (kind == Workspaces && source in Ids(records, kind) && target in Ids(records, kind)) by {
      forall kind, a, b | a in Ids(records, kind) && b in Ids(records, kind) && !Scoped(kind)
        ensures MapId(m, kind, a) == MapId(m, kind, b) ==>
                a == b || (kind == Workspaces && source in Ids(records, kind) && target in Ids(records, kind))
      {
        Unscoped(m, source, target, kind, a);
        Unscoped(m, source, target, kind, b);
      }
    }
  }

  lemma Unscoped(m: Mapping, source: string, target: string, kind: Kind, id: string)
    requires forall k :: k in m.ids <==> Scoped(k) || k == Workspaces
    requires m.ids[Workspaces] == map[source := target] && !Scoped(kind)
    ensures MapId(m, kind, id) == if kind == Workspaces && id == source then target else id
  {
  }

  // ---------- ids that stay apart ----------

  function Repeated(c: char): string {
    seq(64, i requires 0 <= i < 64 => c)
  }

  /** A digest function that singles out one text. */
  function Telling(text: string): Hash {
    t => if t == text then Repeated('1') else Repeated('0')
  }

  lemma TellingApart(text: string, other: string)
    requires text != other
    ensures Hexadecimal(Telling(text))
    ensures Kept(Telling(text)(text)) != Kept(Telling(text)(other))
    ensures IdOfDigest(Telling(text)(text)) != IdOfDigest(Telling(text)(other))
  {
    var a, b := Repeated('1'), Repeated('0');
    assert IsHexDigest(a) && IsHexDigest(b);
    assert a[..12][0] != b[..12][0];
    IdKeeps(a, b);
  }

  /** Workspace, kind and source id each make a difference: some digest function tells any two origins apart. */
  lemma OriginsCanDiffer(w: string, kind: Kind, id: string, w': string, kind': Kind, id': string)
    requires !(w == w' && kind == kind' && id == id')
    ensures exists h: Hash :: Hexadecimal(h) && MappedEntityId(h, w, kind, id) != MappedEntityId(h, w', kind', id')
  {
    hide IdText;
    hide IdOfDigest;
    hide Kept;
    IdTextInjective(w, kind, id, w', kind', id');
    var text := IdText(w, kind, id);
    TellingApart(text, IdText(w', kind', id'));
    hide Telling;
    assert MappedEntityId(Telling(text), w, kind, id) != MappedEntityId(Telling(text), w', kind', id');
  }

  function Dataset(id: string): Record {
    map["id" := Str(id), "schemaPackageId" := Str("s"), "retentionPolicyId" := Null]
  }

  function ResourceOf(dataset: string): Record {
    map["id" := Str("r"), "datasetId" := Str(dataset), "currentRevisionId" := Null]
  }

  /** Two datasets and a resource of the second. */
  function TwoDatasets(a: string, b: string): RecordSet {
    map[Datasets := [Dataset(a), Dataset(b)],
        Resources := [ResourceOf(b)]]
  }

  lemma TwoDatasetsIds(a: string, b: string)
    ensures Ids(TwoDatasets(a, b), Datasets) == {a, b} && Ids(TwoDatasets(a, b), Resources) == {"r"}
    ensures forall kind :: kind != Datasets && kind != Resources ==> Ids(TwoDatasets(a, b), kind) == {}
  {
    var records := TwoDatasets(a, b);
    var list := Of(records, Datasets);
    assert list[0] in list && list[1] in list;
    assert Of(records, Resources)[0] in Of(records, Resources);
    assert list[0] == Dataset(a) && list[1] == Dataset(b);
    assert a in Ids(records, Datasets) && b in Ids(records, Datasets) && "r" in Ids(records, Resources);
  }

  lemma TwoDatasetsGood(a: string, b: string, source: string)
    ensures GraphOk(TwoDatasets(a, b), source) && RetentionOk(TwoDatasets(a, b))
  {
    TwoDatasetsIds(a, b);
    hide Ids;
  }

  lemma TwoDatasetsApart(a: string, b: string, source: string, target: string)
    requires a != b && source != target
    ensures var h := Telling(IdText(target, Datasets, a));
            && Hexadecimal(h)
            && NoCollisions(BuildIdMappings(h, TwoDatasets(a, b), source, target), TwoDatasets(a, b))
  {
    hide IdText;
    hide Kept;
    hide Ids;
    hide TwoDatasets;
    hide BuildIdMappings;
    hide NoCollisions;
    hide IdOfDigest;
    hide Repeated;
    hide Hexadecimal;
    var first, second := IdText(target, Datasets, a), IdText(target, Datasets, b);
    IdTextInjective(target, Datasets, a, target, Datasets, b);
    TellingApart(first, second);
    hide Telling;
    TwoDatasetsIds(a, b);
    CollisionsAre(Telling(first), TwoDatasets(a, b), source, target);
  }

  /**
   Any two datasets can be carried into another workspace without a collision; their images differ, and the
   resource then belongs to the image of its own dataset.
   */
  lemma TwoDatasetsStayApart(a: string, b: string, source: string, target: string) returns (h: Hash)
    requires a != b && source != target
    ensures var records := TwoDatasets(a, b);
            var m := BuildIdMappings(h, records, source, target);
            var mapped := TransformRecords(m, records);
            && Hexadecimal(h) && NoCollisions(m, records)
            && GraphOk(mapped, target) && RetentionOk(mapped)
            && MapId(m, Datasets, a) != MapId(m, Datasets, b)
            && IsText(MapRecord(m, Resources, ResourceOf(b)), "datasetId", MapId(m, Datasets, b))
            && Find(Of(mapped, Datasets), MapId(m, Datasets, b)) == Some(MapRecord(m, Datasets, Dataset(b)))
  {
    hide *;
    h := Telling(IdText(target, Datasets, a));
    TwoDatasetsApart(a, b, source, target);
    TwoDatasetsGood(a, b, source);
    ImportPreservesGraph(h, TwoDatasets(a, b), source, target);
    BothImages(BuildIdMappings(h, TwoDatasets(a, b), source, target), a, b);
  }

  lemma BothImages(m: Mapping, a: string, b: string)
    requires NoCollisions(m, TwoDatasets(a, b)) && a != b
    ensures MapId(m, Datasets, a) != MapId(m, Datasets, b)
    ensures IsText(MapRecord(m, Resources, ResourceOf(b)), "datasetId", MapId(m, Datasets, b))
    ensures Find(Of(TransformRecords(m, TwoDatasets(a, b)), Datasets), MapId(m, Datasets, b))
         == Some(MapRecord(m, Datasets, Dataset(b)))
  {
    hide MapRecord;
    hide MapId;
    hide TransformRecords;
    hide Ids;
    TwoDatasetsIds(a, b);
    assert Find(Of(TwoDatasets(a, b), Datasets), b) == Some(Dataset(b));
    Resolves(m, TwoDatasets(a, b), Datasets, b);
    TextMapped(m, Resources, ResourceOf(b), "datasetId", Datasets);
  }
}
