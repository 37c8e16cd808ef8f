/**
 Planning an import (packages/archive/src/import-plan.ts): every record of the archive, mapped into
 the target workspace, becomes an action that is ordered by phase and decided against what the
 target already holds.
 */
module ImportPlan {
  import opened Base
  import opened Text
  import opened Json
  import opened Records
  import opened Sorting
  import opened ImportTypes
  import opened ImportGraph
  import opened ImportMapping

  /** SHA-256 of a text, and `a.localeCompare(b) <= 0`. */
  datatype Env = Env(hash: string -> string, leq: (string, string) -> bool)

  /** What planning reads of a parsed archive. */
  datatype Archive = Archive(valid: bool, manifest: Json, exportId: string, workspaceId: string, records: RecordSet)

  datatype Request = Request(archive: Archive, mode: Mode, conflictMode: ConflictMode, targetWorkspace: Option<string>)

  /** What the target already holds, and for which kinds it lists records at all. */
  datatype Known = Known(records: Inventory, blobs: set<string>, listed: set<Kind>)

  /**
   Planning throws: a record has no stable id, or lacks a field that mapping writes back as undefined, a revision
   number cannot be converted, or an id leads to a function that every object inherits.
   */
  datatype PlanError = Unplannable

  // ---------- the target workspace and the mapped records ----------

  /** The workspace asked for; empty where the source finds none. */
  function Requested(req: Request): string {
    match (req.mode, req.targetWorkspace)
    case (PreserveIds, _) => req.archive.workspaceId
    case (MappedWorkspace, Some(id)) => Trim(id)
    case (MappedWorkspace, None) => ""
  }

  function Destination(req: Request): string {
    if Requested(req) != "" then Requested(req) else req.archive.workspaceId
  }

  predicate ModeConflict(req: Request) {
    req.mode == PreserveIds && req.targetWorkspace.Some? && req.targetWorkspace.value !in ["", req.archive.workspaceId]
  }

  function Mapped(env: Env, req: Request): (r: RecordSet)
    ensures forall kind :: kind in r && |r[kind]| == |Of(req.archive.records, kind)|
  {
    TransformRecords(
      BuildIdMappings(env.hash, req.archive.records, req.archive.workspaceId, Destination(req)), req.archive.records)
  }

  predicate HasId(r: Record) { HasText(r, "id") && r["id"].s != "" }

  /** A record's own id, or for retention policies without one the digest of the record. */
  function RecordId(hash: string -> string, r: Record): string {
    if HasId(r) then r["id"].s else hash(Canonical(Obj(r)))
  }

  /** The fields that mapping assigns whether or not the record has them. */
  function MappedFields(kind: Kind): seq<string> {
    ["id"] +
    match kind
    case Datasets => ["retentionPolicyId"]
    case Resources => ["datasetId", "currentRevisionId"]
    case Revisions => ["datasetId", "resourceId", "parentRevisionId", "restoredFromRevisionId"]
    case RevisionBlobs => ["revisionId", "blobObjectId"]
    case Relations => ["datasetId", "sourceId", "targetId"]
    case Tombstones => ["datasetId", "subjectId", "priorRevisionId"]
    case _ => []
  }

  /** A source record and its image give an action: both have an id and the image can be printed. */
  predicate Plannable(kind: Kind, source: Record, record: Record) {
    && (kind == Retention || (HasId(source) && HasId(record)))
    && forall f :: f in MappedFields(kind) ==> f in source
  }

  ghost predicate AllPlannable(env: Env, req: Request) {
    !GraphThrows(Mapped(env, req)) && forall kind :: KindPlannable(env, req, kind)
  }

  ghost predicate KindPlannable(env: Env, req: Request, kind: Kind) {
    forall i :: 0 <= i < |Of(req.archive.records, kind)| ==>
      Plannable(kind, Of(req.archive.records, kind)[i], Mapped(env, req)[kind][i])
  }

  // ---------- actions ----------

  function Phase(kind: ActionKind): nat {
    match kind
    case RecordOf(Workspaces) => 10
    case RecordOf(SchemaPackages) => 20
    case RecordOf(Retention) => 25
    case RecordOf(Datasets) => 30
    case RecordOf(Blobs) => 40
    case BlobBytes => 45
    case RecordOf(Resources) => 50
    case RecordOf(Revisions) => 60
    case RecordOf(RevisionBlobs) => 70
    case RecordOf(Relations) => 80
    case RecordOf(Tombstones) => 90
    case RecordOf(AuditEvents) => 100
  }

  function ActionKindName(kind: ActionKind): string {
    match kind
    case RecordOf(k) => KindName(k)
    case BlobBytes => "blob-bytes"
  }

  /** How a dependency names the action it waits for. */
  function NameOf(kind: ActionKind, id: string): string {
    ActionKindName(kind) + ":" + id
  }

  function Need(kind: Kind, r: Record, field: string): set<string> {
    if HasText(r, field) then {NameOf(RecordOf(kind), r[field].s)} else {}
  }

  /** The kind a relation end waits for; whatever is not a revision or a blob counts as a resource. */
  function EndKind(r: Record, field: string): Kind {
    if IsText(r, field, "revision") then Revisions else if IsText(r, field, "blob") then Blobs else Resources
  }

  function Needs(kind: Kind, r: Record): set<string> {
    match kind
    case Datasets => Need(SchemaPackages, r, "schemaPackageId")
    case Resources => Need(Datasets, r, "datasetId")
    case Revisions =>
      Need(Resources, r, "resourceId") + Need(Datasets, r, "datasetId")
      + Need(SchemaPackages, r, "schemaPackageId") + Need(Revisions, r, "parentRevisionId")
    case RevisionBlobs => Need(Revisions, r, "revisionId") + Need(Blobs, r, "blobObjectId")
    case Relations => Need(EndKind(r, "sourceKind"), r, "sourceId") + Need(EndKind(r, "targetKind"), r, "targetId")
    case Tombstones => Need(Revisions, r, "priorRevisionId")
    case _ => {}
  }

  function RecordAction(env: Env, req: Request, kind: Kind, source: Record, record: Record): Action {
    Action(
      0, Phase(RecordOf(kind)), RecordOf(kind),
      if kind == Workspaces && req.mode == MappedWorkspace then req.archive.workspaceId else RecordId(env.hash, source),
      RecordId(env.hash, record), Insert, Some(record), SortedKeys(Needs(kind, record)))
  }

  function BlobAction(env: Env, blob: Record): Action
    requires HasText(blob, "sha256")
  {
    Action(0, Phase(BlobBytes), BlobBytes, blob["sha256"].s, blob["sha256"].s, Insert, None,
           [NameOf(RecordOf(Blobs), RecordId(env.hash, blob))])
  }

  function KindActions(env: Env, req: Request, kind: Kind, n: nat): (actions: seq<Action>)
    requires n <= |Of(req.archive.records, kind)|
    ensures |actions| == n
  {
    var sources, records := Of(req.archive.records, kind), Mapped(env, req)[kind];
    seq(n, i requires 0 <= i < n => RecordAction(env, req, kind, sources[i], records[i]))
  }

  /** The actions of the first `n` kinds. */
  function RecordActions(env: Env, req: Request, n: nat): seq<Action>
    requires n <= |ALL_KINDS|
  {
    if n == 0 then []
    else
      var kind := ALL_KINDS[n - 1];
      RecordActions(env, req, n - 1) + KindActions(env, req, kind, |Of(req.archive.records, kind)|)
  }

  function BlobActions(env: Env, blobs: seq<Record>): seq<Action> {
    if blobs == [] then []
    else
      var n := |blobs| - 1;
      BlobActions(env, blobs[..n]) + if HasText(blobs[n], "sha256") then [BlobAction(env, blobs[n])] else []
  }

  /** The actions of an archive, before the target is looked at. */
  function Skeleton(env: Env, req: Request): seq<Action> {
    RecordActions(env, req, |ALL_KINDS|) + BlobActions(env, Mapped(env, req)[Blobs])
  }

  // ---------- decisions ----------

  /** The names under which every JavaScript object holds an inherited function. */
  predicate InheritedFunction(id: string) {
    id in ["constructor", "hasOwnProperty", "isPrototypeOf", "propertyIsEnumerable", "toLocaleString", "toString",
           "valueOf", "__defineGetter__", "__defineSetter__", "__lookupGetter__", "__lookupSetter__"]
  }

  /** The names that a lookup finds on any object; the last holds the empty prototype. */
  predicate Inherited(id: string) {
    InheritedFunction(id) || id == "__proto__"
  }

  /** The target has no record under the id, but looking it up finds something inherited. */
  predicate FindsInherited(known: Known, kind: Kind, id: string) {
    (kind, id) !in known.records.byKey && kind in known.listed && Inherited(id)
  }

  /** The workspace of an import into another workspace is taken as it is. */
  predicate TakenAsIs(mode: Mode, kind: Kind) {
    kind == Workspaces && mode == MappedWorkspace
  }

  /** The record that an action finds under its id, if it finds one. */
  function Existing(known: Known, kind: Kind, id: string): Option<Record> {
    if (kind, id) in known.records.byKey then Some(known.records.byKey[(kind, id)])
    else if FindsInherited(known, kind, id) then Some(map[])
    else None
  }

  function Decision(mode: Mode, known: Known, a: Action): Disposition {
    match a.kind
    case BlobBytes => if a.targetId in known.blobs then AlreadyPresent else Insert
    case RecordOf(kind) =>
      match Existing(known, kind, a.targetId)
      case None => Insert
      case Some(existing) => if TakenAsIs(mode, kind) || SameText(existing, a.record) then AlreadyPresent else Blocked
  }

  /** An inherited function cannot be printed, and comparing the printed forms throws. */
  predicate DecisionThrows(mode: Mode, known: Known, a: Action) {
    && a.kind.RecordOf? && !TakenAsIs(mode, a.kind.kind)
    && FindsInherited(known, a.kind.kind, a.targetId) && InheritedFunction(a.targetId)
  }

  ghost predicate Decidable(mode: Mode, known: Known, actions: seq<Action>) {
    forall i :: 0 <= i < |actions| ==> !DecisionThrows(mode, known, actions[i])
  }

  /** The printed forms agree. */
  predicate SameText(existing: Record, record: Option<Record>) {
    record.Some? && Canonical(Obj(existing)) == Canonical(Obj(record.value))
  }

  function Decided(mode: Mode, known: Known): Action -> Action {
    (a: Action) => a.(disposition := Decision(mode, known, a))
  }

  // ---------- order, counts and identity ----------

  predicate Before(leq: (string, string) -> bool, a: string, b: string) {
    leq(a, b) && !leq(b, a)
  }

  /** compareActions(a, b) <= 0. */
  predicate ActionLeq(leq: (string, string) -> bool, a: Action, b: Action) {
    var k, l := ActionKindName(a.kind), ActionKindName(b.kind);
    || a.phase < b.phase
    || (a.phase == b.phase && (Before(leq, k, l) || (!Before(leq, l, k) && leq(a.targetId, b.targetId))))
  }

  function Comparator(leq: (string, string) -> bool): (Action, Action) -> bool {
    (a: Action, b: Action) => ActionLeq(leq, a, b)
  }

  /** Numbers the actions and, when the whole plan is refused, blocks what it would have inserted. */
  function Finished(actions: seq<Action>, block: bool): (r: seq<Action>)
    ensures |r| == |actions|
  {
    seq(|actions|, i requires 0 <= i < |actions| =>
      actions[i].(index := i,
                  disposition := if block && actions[i].disposition == Insert then Blocked else actions[i].disposition))
  }

  function CountOf(actions: seq<Action>, d: Disposition): nat {
    if actions == [] then 0
    else
      var n := |actions| - 1;
      CountOf(actions[..n], d) + if actions[n].disposition == d then 1 else 0
  }

  function Tally(actions: seq<Action>): Counts {
    Counts(CountOf(actions, Insert), CountOf(actions, AlreadyPresent), CountOf(actions, Blocked))
  }

  /** The part of an action that its plan's identity covers: not its index, not its disposition. */
  function ActionJson(hash: string -> string, a: Action): Json {
    var common := map[
      "phase" := Int(a.phase), "kind" := Str(ActionKindName(a.kind)), "sourceId" := Str(a.sourceId),
      "targetId" := Str(a.targetId),
      "dependsOn" := Arr(seq(|a.dependsOn|, i requires 0 <= i < |a.dependsOn| => Str(a.dependsOn[i])))];
    Obj(match a.record
        case None => common
        case Some(r) => common["recordHash" := Str(hash(Canonical(Obj(r))))])
  }

  function ModeName(mode: Mode): string {
    match mode
    case PreserveIds => "preserve_ids"
    case MappedWorkspace => "mapped_workspace"
  }

  function ConflictModeName(mode: ConflictMode): string {
    match mode
    case RejectOnError => "reject_on_error"
    case ReportOnly => "report_only"
  }

  function ActionsJson(hash: string -> string, actions: seq<Action>): seq<Json> {
    seq(|actions|, i requires 0 <= i < |actions| => ActionJson(hash, actions[i]))
  }

  function PlanId(
    hash: string -> string, archive: Archive, source: string, target: string, mode: Mode, conflictMode: ConflictMode,
    actions: seq<Action>): string
  {
    hash(Canonical(Obj(map[
      "format" := Str("trust-import-plan-v1"), "archiveExportId" := Str(archive.exportId),
      "archiveManifestHash" := Str(hash(Canonical(archive.manifest))), "sourceWorkspaceId" := Str(source),
      "targetWorkspaceId" := Str(target), "mode" := Str(ModeName(mode)),
      "conflictMode" := Str(ConflictModeName(conflictMode)), "actions" := Arr(ActionsJson(hash, actions))])))
  }

  // ---------- schema conflicts ----------

  predicate SameSchema(a: Record, b: Record) {
    && Identical(Prop(a, "namespace"), Prop(b, "namespace"))
    && Identical(Prop(a, "name"), Prop(b, "name"))
    && Identical(Prop(a, "semanticVersion"), Prop(b, "semanticVersion"))
  }

  /** The target's first schema package, in its own order, with the identity of `schema`. */
  function FirstMatch(inv: Inventory, order: seq<Key>, schema: Record): Option<Record> {
    if order == [] then None
    else if order[0].0 == SchemaPackages && order[0] in inv.byKey && SameSchema(inv.byKey[order[0]], schema)
    then Some(inv.byKey[order[0]])
    else FirstMatch(inv, order[1..], schema)
  }

  predicate SchemaOk(inv: Inventory, schema: Record) {
    match FirstMatch(inv, inv.order, schema)
    case None => true
    case Some(found) => Identical(Prop(found, "schemaDigest"), Prop(schema, "schemaDigest"))
  }

  ghost predicate SchemasOk(records: RecordSet, inv: Inventory) {
    forall schema :: schema in Of(records, SchemaPackages) ==> SchemaOk(inv, schema)
  }

  method ValidateSchemaConflicts(records: RecordSet, inv: Inventory, before: seq<Issue>) returns (issues: seq<Issue>)
    ensures before <= issues && (issues == before <==> SchemasOk(records, inv))
  {
    issues := before;
    var schemas := Of(records, SchemaPackages);
    for i := 0 to |schemas|
      invariant before <= issues
      invariant issues == before <==> forall j :: 0 <= j < i ==> SchemaOk(inv, schemas[j])
    {
      if !SchemaOk(inv, schemas[i]) {
        issues := issues + [SchemaConflict];
      }
    }
  }

  // ---------- the plan ----------

  /** No action meets different content under its own id. */
  ghost predicate NoIdConflicts(mode: Mode, known: Known, actions: seq<Action>) {
    forall i :: 0 <= i < |actions| ==> Decision(mode, known, actions[i]) != Blocked
  }

  predicate RequestOk(req: Request) {
    req.archive.valid && Requested(req) != "" && !ModeConflict(req)
  }

  /** An import without issues. */
  ghost predicate Clean(env: Env, req: Request, known: Known) {
    && RequestOk(req)
    && GraphOk(Mapped(env, req), Destination(req)) && RetentionOk(Mapped(env, req))
    && SchemasOk(Mapped(env, req), known.records)
    && NoIdConflicts(req.mode, known, Skeleton(env, req))
  }

  function StatusOf(conflictMode: ConflictMode, clean: bool): Status {
    if conflictMode == ReportOnly then Reported else if clean then Ready else Rejected
  }

  function Ordered(env: Env, req: Request, known: Known): seq<Action> {
    Sort(Comparator(env.leq), Map(Decided(req.mode, known), Skeleton(env, req)))
  }

  function Assembled(env: Env, req: Request, actions: seq<Action>, clean: bool): Plan {
    var done := Finished(actions, req.conflictMode == RejectOnError && !clean);
    Plan(PlanId(env.hash, req.archive, req.archive.workspaceId, Destination(req), req.mode, req.conflictMode, done),
         req.archive.exportId, req.archive.workspaceId, Destination(req), req.mode, req.conflictMode,
         StatusOf(req.conflictMode, clean), done, Tally(done))
  }

  ghost function PlanOf(env: Env, req: Request, known: Known): Result<Plan, PlanError> {
    if AllPlannable(env, req) && Decidable(req.mode, known, Skeleton(env, req))
    then Ok(Assembled(env, req, Ordered(env, req, known), Clean(env, req, known)))
    else Err(Unplannable)
  }

  // ---------- what executing a plan writes ----------

  /** The records to insert, in plan order. */
  function Writes(actions: seq<Action>): seq<(Key, Record)> {
    if actions == [] then []
    else
      var n := |actions| - 1;
      var a := actions[n];
      Writes(actions[..n])
      + if a.disposition == Insert && a.kind.RecordOf? && a.record.Some?
        then [((a.kind.kind, a.targetId), a.record.value)] else []
  }

  /** The digests of the blobs to insert, in plan order. */
  function BlobsToInsert(actions: seq<Action>): seq<string> {
    if actions == [] then []
    else
      var n := |actions| - 1;
      BlobsToInsert(actions[..n])
      + if actions[n].disposition == Insert && actions[n].kind == BlobBytes then [actions[n].sourceId] else []
  }

  /** What the target holds once the plan has been executed. */
  function Executed(known: Known, plan: Plan): Known {
    Known(PutAll(known.records, Writes(plan.actions)), known.blobs + (set d | d in BlobsToInsert(plan.actions)),
          known.listed + set w | w in Writes(plan.actions) :: w.0.0)
  }
}
