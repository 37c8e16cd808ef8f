/** Record kinds and record access (packages/archive/src/types.ts). */
module Records {
  import opened Base
  import opened Json

  type Record = map<string, Json>

  /** `record[name]` in the source; None stands for undefined. */
  function Prop(record: Record, name: string): Option<Json> {
    if name in record then Some(record[name]) else None
  }

  /** `a === b`: composite values are equal only to themselves, which records of two origins never share. */
  predicate Identical(a: Option<Json>, b: Option<Json>) {
    a == b && (a.Some? ==> !a.value.Arr? && !a.value.Obj?)
  }

  datatype Kind =
    | Workspaces | SchemaPackages | Datasets | Resources | Revisions | RevisionBlobs
    | Blobs | Relations | Tombstones | AuditEvents | Retention

  const ALL_KINDS: seq<Kind> := [
    Workspaces, SchemaPackages, Datasets, Resources, Revisions, RevisionBlobs,
    Blobs, Relations, Tombstones, AuditEvents, Retention
  ]

  function KindName(kind: Kind): string {
    match kind
    case Workspaces => "workspaces"
    case SchemaPackages => "schema-packages"
    case Datasets => "datasets"
    case Resources => "resources"
    case Revisions => "revisions"
    case RevisionBlobs => "revision-blobs"
    case Blobs => "blobs"
    case Relations => "relations"
    case Tombstones => "tombstones"
    case AuditEvents => "audit-events"
    case Retention => "retention"
  }

  /** Length, first and third letter tell the kinds apart. */
  function Tag(name: string): (nat, char, char)
    requires |name| > 2
  {
    (|name|, name[0], name[2])
  }

  function KindTag(kind: Kind): (t: (nat, char, char))
    ensures |KindName(kind)| > 2 && t == Tag(KindName(kind))
  {
    match kind
    case Workspaces => (10, 'w', 'r')
    case SchemaPackages => (15, 's', 'h')
    case Datasets => (8, 'd', 't')
    case Resources => (9, 'r', 's')
    case Revisions => (9, 'r', 'v')
    case RevisionBlobs => (14, 'r', 'v')
    case Blobs => (5, 'b', 'o')
    case Relations => (9, 'r', 'l')
    case Tombstones => (10, 't', 'm')
    case AuditEvents => (12, 'a', 'd')
    case Retention => (9, 'r', 't')
  }

  lemma KindTagInjective(a: Kind, b: Kind)
    requires KindTag(a) == KindTag(b)
    ensures a == b
  {
    hide KindName;
  }

  lemma KindNameInjective(a: Kind, b: Kind)
    requires KindName(a) == KindName(b)
    ensures a == b
  {
    hide KindName;
    KindTagInjective(a, b);
  }

  /** Records by kind; a kind without an entry has no records. */
  type RecordSet = map<Kind, seq<Record>>

  function Of(records: RecordSet, kind: Kind): seq<Record> {
    if kind in records then records[kind] else []
  }

  lemma AllKindsComplete(kind: Kind)
    ensures kind in ALL_KINDS
  {
    assert ALL_KINDS == [
      Workspaces, SchemaPackages, Datasets, Resources, Revisions, RevisionBlobs,
      Blobs, Relations, Tombstones, AuditEvents, Retention];
    match kind
    case Workspaces => assert ALL_KINDS[0] == kind;
    case SchemaPackages => assert ALL_KINDS[1] == kind;
    case Datasets => assert ALL_KINDS[2] == kind;
    case Resources => assert ALL_KINDS[3] == kind;
    case Revisions => assert ALL_KINDS[4] == kind;
    case RevisionBlobs => assert ALL_KINDS[5] == kind;
    case Blobs => assert ALL_KINDS[6] == kind;
    case Relations => assert ALL_KINDS[7] == kind;
    case Tombstones => assert ALL_KINDS[8] == kind;
    case AuditEvents => assert ALL_KINDS[9] == kind;
    case Retention => assert ALL_KINDS[10] == kind;
  }
}
