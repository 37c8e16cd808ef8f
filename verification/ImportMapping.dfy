/**
 Mapping an archive into another workspace (packages/archive/src/import-plan.ts: buildIdMappings,
 mapRecord, mappedEntityId): the new id of every record and what mapping does to each field.
 */
module ImportMapping {
  import opened Base
  import opened Digest
  import opened Json
  import opened Records
  import opened ImportGraph

  type Hash = string -> string

  // ---------- ids ----------

  /** `text.slice(from, to)` for indices that are not negative. */
  function Slice(text: string, from: nat, to: nat): string
    requires from <= to
  {
    if |text| <= from then "" else if |text| <= to then text[from..] else text[from..to]
  }

  /** `Number.parseInt(text, 16)` of hexadecimal digits. */
  function ParseHex(text: string): nat {
    match Digits(16, text)
    case Some(v) => v
    case None => 0
  }

  /** The byte that carries the variant of section 4.1 of RFC 9562: its two top bits are 10. */
  function VariantByte(text: string): (b: string)
    ensures |b| == 2 && b[0] in "89ab"
  {
    var v := ParseHex(text) % 0x40 + 0x80;
    [Hex(v / 16), Hex(v % 16)]
  }

  /** The text whose digest becomes a mapped id. */
  function IdText(workspaceId: string, kind: Kind, sourceId: string): string {
    Canonical(Obj(map[
      "format" := Str("trust-import-mapped-id-v1"), "workspaceId" := Str(workspaceId),
      "kind" := Str(KindName(kind)), "sourceId" := Str(sourceId)]))
  }

  /** An id shaped as a name-based UUID, with the version field of section 4.2 of RFC 9562 set to 5. */
  function IdOfDigest(digest: string): string {
    Slice(digest, 0, 8) + "-" + Slice(digest, 8, 12) + "-5" + Slice(digest, 13, 16) + "-"
    + VariantByte(Slice(digest, 16, 18)) + Slice(digest, 18, 20) + "-" + Slice(digest, 20, 32)
  }

  function MappedEntityId(h: Hash, workspaceId: string, kind: Kind, sourceId: string): string {
    IdOfDigest(h(IdText(workspaceId, kind, sourceId)))
  }

  /** What an id keeps of its digest: 128 bits less the four of the version and the two of the variant. */
  function Kept(digest: string): (string, string, nat, string)
    requires IsHexDigest(digest)
  {
    (digest[..12], digest[13..16], ParseHex(digest[16..18]) % 0x40, digest[18..32])
  }

  lemma TopBits(x: nat, y: nat)
    requires x < 16 && y < 16
    ensures (x * 16 + y) % 0x40 + 0x80 == (8 + x % 4) * 16 + y
  {
  }

  lemma HexBack(c: char, n: nat)
    requires IsHex(c) && n < 16
    ensures DigitValue(c).Some? && DigitValue(c).value < 16 && Hex(DigitValue(c).value) == c
    ensures DigitValue(Hex(n)) == Some(n)
  {
  }

  lemma ParseTwo(t: string)
    requires |t| == 2 && IsHex(t[0]) && IsHex(t[1])
    ensures DigitValue(t[0]).Some? && DigitValue(t[1]).Some?
    ensures ParseHex(t) == DigitValue(t[0]).value * 16 + DigitValue(t[1]).value
  {
    HexBack(t[0], 0);
    HexBack(t[1], 0);
    assert t[..1] == [t[0]] && t[..1][..0] == "";
    assert Digits(16, t[..1][..0]) == Some(0);
    assert Digits(16, t[..1]) == Some(DigitValue(t[0]).value);
  }

  /** The variant replaces the two top bits of its byte and leaves the others. */
  lemma VariantKeepsBits(t: string)
    requires |t| == 2 && IsHex(t[0]) && IsHex(t[1])
    ensures DigitValue(t[0]).Some? && VariantByte(t)[1] == t[1]
    ensures DigitValue(VariantByte(t)[0]) == Some(8 + DigitValue(t[0]).value % 4)
  {
    ParseTwo(t);
    HexBack(t[0], 0);
    HexBack(t[1], 8 + DigitValue(t[0]).value % 4);
    hide ParseHex;
    hide DigitValue;
    hide Hex;
    TopBits(DigitValue(t[0]).value, DigitValue(t[1]).value);
  }

  /** A mapped id has the layout of a UUID, with the version and variant fields set and the digest around them. */
  lemma MappedIdShape(digest: string)
    requires IsHexDigest(digest)
    ensures var id := IdOfDigest(digest);
            && |id| == 36 && id[8] == '-' && id[13] == '-' && id[18] == '-' && id[23] == '-'
            && id[14] == '5' && id[19] in "89ab"
            && id[..8] + id[9..13] == digest[..12] && id[15..18] == digest[13..16]
            && id[21..23] + id[24..] == digest[18..32]
            && DigitValue(id[19]) == Some(8 + DigitValue(digest[16]).value % 4) && id[20] == digest[17]
            && id[19..21] == VariantByte(digest[16..18])
  {
    VariantKeepsBits(digest[16..18]);
    hide VariantByte;
    hide ParseHex;
    hide DigitValue;
    var v, id := VariantByte(digest[16..18]), IdOfDigest(digest);
    var a, b, c, d, e := digest[0..8], digest[8..12], digest[13..16], digest[18..20], digest[20..32];
    assert id == a + "-" + b + "-5" + c + "-" + v + d + "-" + e;
    Laid(a, b, c, v, d, e);
    assert a + b == digest[..12] && d + e == digest[18..32];
  }

  lemma Laid(a: string, b: string, c: string, v: string, d: string, e: string)
    requires |a| == 8 && |b| == 4 && |c| == 3 && |v| == 2 && |d| == 2 && |e| == 12
    ensures var id := a + "-" + b + "-5" + c + "-" + v + d + "-" + e;
            && |id| == 36 && id[8] == '-' && id[13] == '-' && id[18] == '-' && id[23] == '-' && id[14] == '5'
            && id[..8] == a && id[9..13] == b && id[15..18] == c && id[19..21] == v && id[21..23] == d && id[24..] == e
            && id[19] == v[0] && id[20] == v[1]
  {
  }

  /** The kinds whose ids belong to a workspace and are mapped with it. */
  predicate Scoped(kind: Kind) {
    kind in {Datasets, Resources, Revisions, RevisionBlobs, Blobs, Relations, Tombstones, Retention}
  }

  /** These are all kinds but workspaces, which have a rule of their own, schema packages and audit events. */
  lemma ScopedKinds(kind: Kind)
    ensures Scoped(kind) <==> kind !in {Workspaces, SchemaPackages, AuditEvents}
  {
    match kind
    case Workspaces => case SchemaPackages => case AuditEvents => case _ => AllKindsComplete(kind);
  }

  /** Where an import moves records, and the new id of every scoped record of the archive. */
  datatype Mapping = Mapping(source: string, target: string, ids: map<Kind, map<string, string>>)

  function BuildIdMappings(h: Hash, records: RecordSet, source: string, target: string): (m: Mapping)
    ensures m.source == source && m.target == target
    ensures forall kind :: Scoped(kind) ==> kind in m.ids && m.ids[kind].Keys == Ids(records, kind)
    ensures forall kind, id :: Scoped(kind) && id in Ids(records, kind) ==>
              m.ids[kind][id] == if source == target then id else MappedEntityId(h, target, kind, id)
    ensures forall kind :: kind in m.ids <==> Scoped(kind) || kind == Workspaces
    ensures m.ids[Workspaces] == map[source := target]
  {
    Mapping(source, target,
      (map kind: Kind | Scoped(kind) ::
         map id | id in Ids(records, kind) :: if source == target then id else MappedEntityId(h, target, kind, id))
      [Workspaces := map[source := target]])
  }

  function MapId(m: Mapping, kind: Kind, id: string): string {
    if kind in m.ids && id in m.ids[kind] then m.ids[kind][id] else id
  }

  // ---------- records ----------

  function MapValue(m: Mapping, kind: Kind, value: Json): Json {
    if value.Str? then Str(MapId(m, kind, value.s)) else value
  }

  /** Maps one reference field; a missing field stays missing. */
  function MapField(m: Mapping, record: Record, name: string, kind: Kind): Record {
    if name in record then record[name := MapValue(m, kind, record[name])] else record
  }

  /** The kind a relation or tombstone end refers to, by the name it uses for it. */
  function RelationKind(record: Record, kindName: string): Option<Kind> {
    if IsText(record, kindName, "resource") then Some(Resources)
    else if IsText(record, kindName, "revision") then Some(Revisions)
    else if IsText(record, kindName, "blob") then Some(Blobs)
    else if IsText(record, kindName, "relation") then Some(Relations)
    else if IsText(record, kindName, "dataset") then Some(Datasets)
    else None
  }

  function MapEnd(m: Mapping, record: Record, kindName: string, idName: string): Record {
    match RelationKind(record, kindName)
    case None => record
    case Some(kind) => MapField(m, record, idName, kind)
  }

  function MapMergeParents(m: Mapping, record: Record): Record {
    if "mergeParentRevisionIds" in record && record["mergeParentRevisionIds"].Arr? then
      var items := record["mergeParentRevisionIds"].items;
      record["mergeParentRevisionIds" :=
        Arr(seq(|items|, i requires 0 <= i < |items| => MapValue(m, Revisions, items[i])))]
    else record
  }

  function MapScope(m: Mapping, kind: Kind, record: Record): Record {
    if kind != AuditEvents && IsText(record, "workspaceId", m.source)
    then record["workspaceId" := Str(m.target)] else record
  }

  /** The workspace and the id of a record, then the references its kind has. */
  function MapRecord(m: Mapping, kind: Kind, record: Record): Record {
    MapReferences(m, kind, MapField(m, MapScope(m, kind, record), "id", kind))
  }

  function MapReferences(m: Mapping, kind: Kind, r: Record): Record {
    match kind
    case Datasets => MapField(m, r, "retentionPolicyId", Retention)
    case Resources => MapField(m, MapField(m, r, "datasetId", Datasets), "currentRevisionId", Revisions)
    case Revisions =>
      var a := MapField(m, MapField(m, r, "datasetId", Datasets), "resourceId", Resources);
      var b := MapField(m, a, "parentRevisionId", Revisions);
      MapMergeParents(m, MapField(m, b, "restoredFromRevisionId", Revisions))
    case RevisionBlobs => MapField(m, MapField(m, r, "revisionId", Revisions), "blobObjectId", Blobs)
    case Relations =>
      MapEnd(m, MapEnd(m, MapField(m, r, "datasetId", Datasets), "sourceKind", "sourceId"), "targetKind", "targetId")
    case Tombstones =>
      MapField(m, MapEnd(m, MapField(m, r, "datasetId", Datasets), "subjectKind", "subjectId"), "priorRevisionId",
               Revisions)
    case _ => r
  }

  function MapList(m: Mapping, kind: Kind, list: seq<Record>): (r: seq<Record>)
    ensures |r| == |list| && forall i :: 0 <= i < |list| ==> r[i] == MapRecord(m, kind, list[i])
  {
    seq(|list|, i requires 0 <= i < |list| => MapRecord(m, kind, list[i]))
  }

  function TransformRecords(m: Mapping, records: RecordSet): RecordSet {
    map kind: Kind | true :: MapList(m, kind, Of(records, kind))
  }

  // ---------- what mapping does to the fields the checks read ----------

  /** How a field of a record is mapped: as a reference to some kind, as the workspace, or not at all. */
  datatype Role = Plain | Scope | Reference(kind: Kind)

  function RoleOf(kind: Kind, r: Record, name: string): Role {
    if name == "workspaceId" then (if kind == AuditEvents then Plain else Scope)
    else if name == "id" then Reference(kind)
    else ReferenceRole(kind, r, name)
  }

  function ReferenceRole(kind: Kind, r: Record, name: string): Role {
    match kind
    case Datasets => if name == "retentionPolicyId" then Reference(Retention) else Plain
    case Resources =>
      if name == "datasetId" then Reference(Datasets)
      else if name == "currentRevisionId" then Reference(Revisions) else Plain
    case Revisions =>
      if name == "datasetId" then Reference(Datasets)
      else if name == "resourceId" then Reference(Resources)
      else if name == "parentRevisionId" || name == "restoredFromRevisionId" then Reference(Revisions)
      else Plain
    case RevisionBlobs =>
      if name == "revisionId" then Reference(Revisions)
      else if name == "blobObjectId" then Reference(Blobs) else Plain
    case Relations =>
      if name == "datasetId" then Reference(Datasets)
      else if name == "sourceId" then EndRole(r, "sourceKind")
      else if name == "targetId" then EndRole(r, "targetKind") else Plain
    case Tombstones =>
      if name == "datasetId" then Reference(Datasets)
      else if name == "subjectId" then EndRole(r, "subjectKind")
      else if name == "priorRevisionId" then Reference(Revisions) else Plain
    case _ => Plain
  }

  function EndRole(r: Record, kindName: string): Role {
    match RelationKind(r, kindName)
    case None => Plain
    case Some(kind) => Reference(kind)
  }

  function MapRole(m: Mapping, role: Role, value: Json): Json {
    match role
    case Plain => value
    case Scope => if value == Str(m.source) then Str(m.target) else value
    case Reference(kind) => MapValue(m, kind, value)
  }

  /** `after` is `before` with one field mapped as a reference to `kind`. */
  ghost predicate OneMapped(m: Mapping, before: Record, after: Record, field: string, kind: Kind, name: string) {
    && (name in after <==> name in before)
    && (name in before ==> after[name] == if name == field then MapValue(m, kind, before[name]) else before[name])
  }

  lemma MapFieldAt(m: Mapping, r: Record, field: string, kind: Kind, name: string)
    ensures OneMapped(m, r, MapField(m, r, field, kind), field, kind, name)
  {
  }

  lemma MapEndAt(m: Mapping, r: Record, kindName: string, field: string, name: string)
    ensures match EndRole(r, kindName)
            case Reference(kind) => OneMapped(m, r, MapEnd(m, r, kindName, field), field, kind, name)
            case _ => MapEnd(m, r, kindName, field) == r
  {
    hide RelationKind;
    if RelationKind(r, kindName).Some? {
      MapFieldAt(m, r, field, RelationKind(r, kindName).value, name);
    }
  }

  lemma EndRoleSame(a: Record, b: Record, kindName: string)
    requires Prop(a, kindName) == Prop(b, kindName)
    ensures EndRole(a, kindName) == EndRole(b, kindName)
  {
  }

  /** The references of a record are mapped by their role, and no field is added or removed. */
  ghost predicate MappedAt(m: Mapping, kind: Kind, r: Record, after: Record, name: string) {
    && (name in after <==> name in r)
    && (name in r && name != "mergeParentRevisionIds" ==>
         after[name] == MapRole(m, ReferenceRole(kind, r, name), r[name]))
  }

  lemma RevisionMapped(m: Mapping, r: Record, name: string)
    ensures MappedAt(m, Revisions, r, MapReferences(m, Revisions, r), name)
  {
    hide MapField;
    hide MapValue;
    var a := MapField(m, r, "datasetId", Datasets);
    var b := MapField(m, a, "resourceId", Resources);
    var c := MapField(m, b, "parentRevisionId", Revisions);
    MapFieldAt(m, r, "datasetId", Datasets, name);
    MapFieldAt(m, a, "resourceId", Resources, name);
    MapFieldAt(m, b, "parentRevisionId", Revisions, name);
    MapFieldAt(m, c, "restoredFromRevisionId", Revisions, name);
  }

  lemma RelationMapped(m: Mapping, r: Record, name: string)
    ensures MappedAt(m, Relations, r, MapReferences(m, Relations, r), name)
  {
    hide MapField;
    hide MapEnd;
    hide EndRole;
    hide MapValue;
    var a := MapField(m, r, "datasetId", Datasets);
    var b := MapEnd(m, a, "sourceKind", "sourceId");
    MapFieldAt(m, r, "datasetId", Datasets, name);
    MapFieldAt(m, r, "datasetId", Datasets, "sourceKind");
    MapFieldAt(m, r, "datasetId", Datasets, "targetKind");
    EndRoleSame(r, a, "sourceKind");
    MapEndAt(m, a, "sourceKind", "sourceId", name);
    MapEndAt(m, a, "sourceKind", "sourceId", "targetKind");
    EndRoleSame(r, b, "targetKind");
    MapEndAt(m, b, "targetKind", "targetId", name);
    EndRoleKind(a, "sourceKind");
    EndRoleKind(b, "targetKind");
  }

  lemma TombstoneMapped(m: Mapping, r: Record, name: string)
    ensures MappedAt(m, Tombstones, r, MapReferences(m, Tombstones, r), name)
  {
    hide MapField;
    hide MapEnd;
    hide EndRole;
    hide MapValue;
    var a := MapField(m, r, "datasetId", Datasets);
    var b := MapEnd(m, a, "subjectKind", "subjectId");
    MapFieldAt(m, r, "datasetId", Datasets, name);
    MapFieldAt(m, r, "datasetId", Datasets, "subjectKind");
    EndRoleSame(r, a, "subjectKind");
    MapEndAt(m, a, "subjectKind", "subjectId", name);
    MapFieldAt(m, b, "priorRevisionId", Revisions, name);
    EndRoleKind(a, "subjectKind");
  }

  lemma EndRoleKind(r: Record, kindName: string)
    ensures EndRole(r, kindName).Reference? || EndRole(r, kindName) == Plain
  {
  }

  lemma ReferencesMapped(m: Mapping, kind: Kind, r: Record, name: string)
    ensures MappedAt(m, kind, r, MapReferences(m, kind, r), name)
  {
    hide MapField;
    hide MapValue;
    match kind {
      case Datasets => MapFieldAt(m, r, "retentionPolicyId", Retention, name);
      case Resources =>
        MapFieldAt(m, r, "datasetId", Datasets, name);
        MapFieldAt(m, MapField(m, r, "datasetId", Datasets), "currentRevisionId", Revisions, name);
      case Revisions => RevisionMapped(m, r, name);
      case RevisionBlobs =>
        MapFieldAt(m, r, "revisionId", Revisions, name);
        MapFieldAt(m, MapField(m, r, "revisionId", Revisions), "blobObjectId", Blobs, name);
      case Relations => RelationMapped(m, r, name);
      case Tombstones => TombstoneMapped(m, r, name);
      case _ =>
    }
  }

  /** Mapping a record maps every field by its role and neither adds nor removes one. */
  lemma FieldsMapped(m: Mapping, kind: Kind, r: Record, name: string)
    ensures name in MapRecord(m, kind, r) <==> name in r
    ensures name in r && name != "mergeParentRevisionIds" ==>
              MapRecord(m, kind, r)[name] == MapRole(m, RoleOf(kind, r, name), r[name])
  {
    hide MapReferences;
    hide MapField;
    hide MapValue;
    hide ReferenceRole;
    var scoped := MapScope(m, kind, r);
    var named := MapField(m, scoped, "id", kind);
    MapFieldAt(m, scoped, "id", kind, name);
    MapFieldAt(m, scoped, "id", kind, "sourceKind");
    MapFieldAt(m, scoped, "id", kind, "targetKind");
    MapFieldAt(m, scoped, "id", kind, "subjectKind");
    RoleSame(kind, r, named, name);
    ReferencesMapped(m, kind, named, name);
    IdentityPlain(kind, r);
  }

  lemma RoleSame(kind: Kind, a: Record, b: Record, name: string)
    requires Prop(a, "sourceKind") == Prop(b, "sourceKind") && Prop(a, "targetKind") == Prop(b, "targetKind")
    requires Prop(a, "subjectKind") == Prop(b, "subjectKind")
    ensures ReferenceRole(kind, a, name) == ReferenceRole(kind, b, name)
  {
    hide EndRole;
    EndRoleSame(a, b, "sourceKind");
    EndRoleSame(a, b, "targetKind");
    EndRoleSame(a, b, "subjectKind");
  }

  lemma IdentityPlain(kind: Kind, r: Record)
    ensures ReferenceRole(kind, r, "id") == Plain && ReferenceRole(kind, r, "workspaceId") == Plain
  {
  }

  /** Every merge parent that is a string is mapped as a revision; the rest of the list stays. */
  lemma MergeParentsMapped(m: Mapping, r: Record)
    requires "mergeParentRevisionIds" in r && r["mergeParentRevisionIds"].Arr?
    ensures var before := r["mergeParentRevisionIds"].items;
            var after := MapRecord(m, Revisions, r);
            && "mergeParentRevisionIds" in after && after["mergeParentRevisionIds"].Arr?
            && |after["mergeParentRevisionIds"].items| == |before|
            && forall i :: 0 <= i < |before| ==>
                 after["mergeParentRevisionIds"].items[i] == MapValue(m, Revisions, before[i])
  {
    hide MapId;
  }
}
