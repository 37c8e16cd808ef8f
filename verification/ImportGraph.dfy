/**
 The record graph of an import (packages/archive/src/import-plan.ts): which references between
 records are checked, and how.
 */
module ImportGraph {
  import opened Base
  import opened Json
  import opened Numbers
  import opened Records

  /** The issue codes of import planning. */
  datatype Issue =
    | ArchiveInvalid | TargetWorkspaceRequired | WorkspaceModeConflict | WorkspaceMismatch | ReferenceInvalid
    | RevisionNumberConflict | RevisionParentInvalid | RelationInvalid | TombstoneInvalid
    | RetentionPolicyUnavailable | SchemaConflict | IdConflict

  // ---------- reading records ----------

  predicate HasText(record: Record, name: string) {
    name in record && record[name].Str?
  }

  /** The string ids of the records of one kind. */
  function Ids(records: RecordSet, kind: Kind): set<string> {
    set r: Record | r in Of(records, kind) && HasText(r, "id") :: r["id"].s
  }

  /** The record found under an id: of several with one id, the last. */
  function Find(list: seq<Record>, id: string): Option<Record> {
    if list == [] then None
    else
      var last := list[|list| - 1];
      if HasText(last, "id") && last["id"].s == id then Some(last) else Find(list[..|list| - 1], id)
  }

  /** The position of the record found under an id. */
  function Position(list: seq<Record>, id: string): (r: Option<nat>)
    ensures match r
            case None => Find(list, id) == None
            case Some(k) => k < |list| && Find(list, id) == Some(list[k])
  {
    if list == [] then None
    else
      var n := |list| - 1;
      if HasText(list[n], "id") && list[n]["id"].s == id then Some(n) else Position(list[..n], id)
  }

  // ---------- the checks ----------

  /** A required reference: a string naming a record, or any string when the whole kind may be absent. */
  predicate RefOk(ids: set<string>, record: Record, name: string, allowAbsentKind: bool) {
    HasText(record, name) && (record[name].s in ids || (allowAbsentKind && ids == {}))
  }

  /** An optional reference: checked only when it is a string. */
  predicate OptionalRefOk(ids: set<string>, record: Record, name: string) {
    HasText(record, name) ==> record[name].s in ids
  }

  predicate IsText(record: Record, name: string, text: string) {
    name in record && record[name] == Str(text)
  }

  predicate ScopeOk(record: Record, workspaceId: string) {
    "workspaceId" in record ==> record["workspaceId"] == Str(workspaceId)
  }

  predicate DatasetOk(records: RecordSet, r: Record) {
    RefOk(Ids(records, SchemaPackages), r, "schemaPackageId", true)
  }

  predicate ResourceOk(records: RecordSet, r: Record) {
    && RefOk(Ids(records, Datasets), r, "datasetId", false)
    && ("currentRevisionId" in r && r["currentRevisionId"] != Null ==>
          RefOk(Ids(records, Revisions), r, "currentRevisionId", false))
  }

  /** The number of a revision cannot be converted. */
  predicate NoNumber(r: Record) {
    "revisionNumber" in r && Textless(r["revisionNumber"])
  }

  /**
   The check of revision `i` converts its number and its parent's: once it has found the parent in the same resource.
   */
  predicate Compares(revisions: seq<Record>, i: nat)
    requires i < |revisions|
  {
    var r := revisions[i];
    HasText(r, "parentRevisionId") &&
    match Position(revisions, r["parentRevisionId"].s)
    case None => false
    case Some(k) => k == i || Identical(Prop(revisions[k], "resourceId"), Prop(r, "resourceId"))
  }

  /** Converting one of the two numbers throws. */
  predicate CompareThrows(revisions: seq<Record>, i: nat)
    requires i < |revisions|
  {
    Compares(revisions, i) &&
    (NoNumber(revisions[i]) || NoNumber(Find(revisions, revisions[i]["parentRevisionId"].s).value))
  }

  /** What makes the graph check throw. */
  predicate GraphThrows(records: RecordSet) {
    exists i :: 0 <= i < |Of(records, Revisions)| && CompareThrows(Of(records, Revisions), i)
  }

  /** A parent belongs to the same resource and its number is not at least the child's. */
  predicate ParentOk(records: RecordSet, r: Record) {
    HasText(r, "parentRevisionId") ==>
      match Find(Of(records, Revisions), r["parentRevisionId"].s)
      case None => false
      case Some(parent) =>
        && Prop(parent, "resourceId") == Prop(r, "resourceId") && !NoNumber(parent) && !NoNumber(r)
        && !AtLeast(NumberOf(Prop(parent, "revisionNumber")), NumberOf(Prop(r, "revisionNumber")))
  }

  predicate RevisionOk(records: RecordSet, r: Record) {
    && RefOk(Ids(records, Resources), r, "resourceId", false)
    && RefOk(Ids(records, Datasets), r, "datasetId", false)
    && RefOk(Ids(records, SchemaPackages), r, "schemaPackageId", true)
    && ParentOk(records, r)
  }

  /** The resource and number a revision claims, when it names both. */
  function Claim(r: Record): Option<(string, Json)> {
    if HasText(r, "resourceId") && "revisionNumber" in r && IsNumber(r["revisionNumber"])
    then Some((r["resourceId"].s, r["revisionNumber"])) else None
  }

  /** No two revisions of a resource carry one number. */
  ghost predicate NumbersOk(revisions: seq<Record>) {
    forall i, j :: 0 <= i < j < |revisions| && Claim(revisions[i]).Some? ==> Claim(revisions[i]) != Claim(revisions[j])
  }

  predicate AttachmentOk(records: RecordSet, r: Record) {
    && RefOk(Ids(records, Revisions), r, "revisionId", false)
    && RefOk(Ids(records, Blobs), r, "blobObjectId", false)
  }

  predicate RelationEndOk(records: RecordSet, r: Record, kindName: string, idName: string) {
    if IsText(r, kindName, "resource") then RefOk(Ids(records, Resources), r, idName, false)
    else if IsText(r, kindName, "revision") then RefOk(Ids(records, Revisions), r, idName, false)
    else if IsText(r, kindName, "blob") then RefOk(Ids(records, Blobs), r, idName, false)
    else IsText(r, kindName, "external")
  }

  predicate RelationOk(records: RecordSet, r: Record) {
    RelationEndOk(records, r, "sourceKind", "sourceId") && RelationEndOk(records, r, "targetKind", "targetId")
  }

  predicate SubjectOk(records: RecordSet, r: Record) {
    if IsText(r, "subjectKind", "resource") then RefOk(Ids(records, Resources), r, "subjectId", false)
    else if IsText(r, "subjectKind", "dataset") then RefOk(Ids(records, Datasets), r, "subjectId", false)
    else IsText(r, "subjectKind", "relation") && RefOk(Ids(records, Relations), r, "subjectId", false)
  }

  predicate TombstoneOk(records: RecordSet, r: Record) {
    SubjectOk(records, r) && OptionalRefOk(Ids(records, Revisions), r, "priorRevisionId")
  }

  predicate RecordOk(records: RecordSet, kind: Kind, r: Record) {
    match kind
    case Datasets => DatasetOk(records, r)
    case Resources => ResourceOk(records, r)
    case Revisions => RevisionOk(records, r)
    case RevisionBlobs => AttachmentOk(records, r)
    case Relations => RelationOk(records, r)
    case Tombstones => TombstoneOk(records, r)
    case _ => true
  }

  /** What validateGraph accepts. */
  ghost predicate GraphOk(records: RecordSet, workspaceId: string) {
    (forall kind :: KindOk(records, kind, workspaceId)) && NumbersOk(Of(records, Revisions))
  }

  ghost predicate KindOk(records: RecordSet, kind: Kind, workspaceId: string) {
    forall r :: r in Of(records, kind) ==>
      (kind != AuditEvents ==> ScopeOk(r, workspaceId)) && RecordOk(records, kind, r)
  }

  /** What validateRetentionAssignments accepts. */
  ghost predicate RetentionOk(records: RecordSet) {
    forall r :: r in Of(records, Datasets) ==> OptionalRefOk(Ids(records, Retention), r, "retentionPolicyId")
  }

  // ---------- the validators ----------

  function Require(ok: bool, code: Issue): seq<Issue> {
    if ok then [] else [code]
  }

  predicate RelationKindKnown(r: Record, kindName: string) {
    exists k :: k in ["resource", "revision", "blob", "external"] && IsText(r, kindName, k)
  }

  predicate SubjectKindKnown(r: Record) {
    exists k :: k in ["resource", "dataset", "relation"] && IsText(r, "subjectKind", k)
  }

  /** The issue codes that record `i` of a kind gives rise to; None where the check throws. */
  function RecordIssues(records: RecordSet, kind: Kind, i: nat): (codes: Option<seq<Issue>>)
    requires i < |Of(records, kind)|
    ensures codes == None <==> kind == Revisions && CompareThrows(Of(records, kind), i)
    ensures codes == Some([]) <==> RecordOk(records, kind, Of(records, kind)[i])
  {
    GoodNeverThrows(records, kind, i);
    if kind == Revisions && CompareThrows(Of(records, kind), i) then None
    else Some(IssuesOf(records, kind, Of(records, kind)[i]))
  }

  lemma GoodNeverThrows(records: RecordSet, kind: Kind, i: nat)
    requires i < |Of(records, kind)|
    ensures kind == Revisions && RecordOk(records, kind, Of(records, kind)[i]) ==> !CompareThrows(Of(records, kind), i)
  {
    hide Ids;
    hide Find;
    hide NumberOf;
    hide NoNumber;
  }

  function IssuesOf(records: RecordSet, kind: Kind, r: Record): (codes: seq<Issue>)
    ensures codes == [] <==> RecordOk(records, kind, r)
  {
    match kind
    case Datasets => Require(DatasetOk(records, r), ReferenceInvalid)
    case Resources => ResourceIssues(records, r)
    case Revisions => RevisionIssues(records, r)
    case RevisionBlobs =>
      Require(RefOk(Ids(records, Revisions), r, "revisionId", false), ReferenceInvalid)
      + Require(RefOk(Ids(records, Blobs), r, "blobObjectId", false), ReferenceInvalid)
    case Relations =>
      RelationEndIssues(records, r, "sourceKind", "sourceId") + RelationEndIssues(records, r, "targetKind", "targetId")
    case Tombstones =>
      Require(SubjectOk(records, r), if SubjectKindKnown(r) then ReferenceInvalid else TombstoneInvalid)
      + Require(OptionalRefOk(Ids(records, Revisions), r, "priorRevisionId"), ReferenceInvalid)
    case _ => []
  }

  function ResourceIssues(records: RecordSet, r: Record): (codes: seq<Issue>)
    ensures codes == [] <==> ResourceOk(records, r)
  {
    Require(RefOk(Ids(records, Datasets), r, "datasetId", false), ReferenceInvalid)
    + (if "currentRevisionId" !in r || r["currentRevisionId"] == Null then []
       else Require(RefOk(Ids(records, Revisions), r, "currentRevisionId", false), ReferenceInvalid))
  }

  function RevisionIssues(records: RecordSet, r: Record): (codes: seq<Issue>)
    ensures codes == [] <==> RevisionOk(records, r)
  {
    Require(RefOk(Ids(records, Resources), r, "resourceId", false), ReferenceInvalid)
    + Require(RefOk(Ids(records, Datasets), r, "datasetId", false), ReferenceInvalid)
    + Require(RefOk(Ids(records, SchemaPackages), r, "schemaPackageId", true), ReferenceInvalid)
    + Require(ParentOk(records, r), if ParentKnown(records, r) then RevisionParentInvalid else ReferenceInvalid)
  }

  predicate ParentKnown(records: RecordSet, r: Record) {
    HasText(r, "parentRevisionId") && Find(Of(records, Revisions), r["parentRevisionId"].s).Some?
  }

  function RelationEndIssues(records: RecordSet, r: Record, kindName: string, idName: string): seq<Issue> {
    Require(RelationEndOk(records, r, kindName, idName),
            if RelationKindKnown(r, kindName) then ReferenceInvalid else RelationInvalid)
  }

  method ValidateGraph(records: RecordSet, workspaceId: string, before: seq<Issue>)
    returns (issues: seq<Issue>, threw: bool)
    ensures before <= issues && (threw <==> GraphThrows(records))
    ensures !threw && issues == before <==> GraphOk(records, workspaceId)
  {
    hide KindOk;
    hide NumbersOk;
    hide CompareThrows;
    GoodGraphNeverThrows(records, workspaceId);
    issues, threw := before, false;
    for k := 0 to |ALL_KINDS|
      invariant before <= issues
      invariant Revisions in ALL_KINDS[..k] ==> !GraphThrows(records)
      invariant issues == before <==> forall j :: 0 <= j < k ==> KindOk(records, ALL_KINDS[j], workspaceId)
    {
      assert ALL_KINDS[..k + 1] == ALL_KINDS[..k] + [ALL_KINDS[k]];
      issues, threw := ValidateRecords(records, ALL_KINDS[k], workspaceId, issues);
      if threw {
        return;
      }
    }
    assert ALL_KINDS[4] == Revisions && Revisions in ALL_KINDS[..|ALL_KINDS|];
    AllKindsOk(records, workspaceId);
    issues := ValidateNumbers(Of(records, Revisions), issues);
  }

  lemma GoodGraphNeverThrows(records: RecordSet, workspaceId: string)
    ensures GraphOk(records, workspaceId) ==> !GraphThrows(records)
  {
    hide CompareThrows;
    hide RecordOk;
    hide NumbersOk;
    if GraphOk(records, workspaceId) {
      assert KindOk(records, Revisions, workspaceId);
      forall i | 0 <= i < |Of(records, Revisions)| ensures !CompareThrows(Of(records, Revisions), i) {
        GoodNeverThrows(records, Revisions, i);
      }
    }
  }

  lemma AllKindsOk(records: RecordSet, workspaceId: string)
    ensures (forall j :: 0 <= j < |ALL_KINDS| ==> KindOk(records, ALL_KINDS[j], workspaceId)) <==>
            forall kind :: KindOk(records, kind, workspaceId)
  {
    hide KindOk;
    if forall j :: 0 <= j < |ALL_KINDS| ==> KindOk(records, ALL_KINDS[j], workspaceId) {
      forall kind ensures KindOk(records, kind, workspaceId) {
        AllKindsComplete(kind);
      }
    }
  }

  method ValidateRecords(records: RecordSet, kind: Kind, workspaceId: string, before: seq<Issue>)
    returns (issues: seq<Issue>, threw: bool)
    ensures before <= issues && (threw <==> kind == Revisions && GraphThrows(records))
    ensures !threw ==> (issues == before <==> KindOk(records, kind, workspaceId))
  {
    hide RecordOk;
    hide ScopeOk;
    hide RecordIssues;
    hide CompareThrows;
    issues, threw := before, false;
    var list := Of(records, kind);
    for i := 0 to |list|
      invariant before <= issues
      invariant kind == Revisions ==> forall j :: 0 <= j < i ==> !CompareThrows(list, j)
      invariant issues == before <==>
                forall j :: 0 <= j < i ==>
                  (kind != AuditEvents ==> ScopeOk(list[j], workspaceId)) && RecordOk(records, kind, list[j])
    {
      if kind != AuditEvents && !ScopeOk(list[i], workspaceId) {
        issues := issues + [WorkspaceMismatch];
      }
      var codes := RecordIssues(records, kind, i);
      if codes == None {
        return issues, true;
      }
      issues := issues + codes.value;
    }
  }

  /** Collects the numbers seen for each resource; a number seen before is an issue. */
  method ValidateNumbers(revisions: seq<Record>, before: seq<Issue>) returns (issues: seq<Issue>)
    ensures before <= issues && (issues == before <==> NumbersOk(revisions))
  {
    hide Claim;
    issues := before;
    var resourceRevisions: map<string, set<Json>> := map[];
    for i := 0 to |revisions|
      invariant before <= issues
      invariant forall res, n :: res in resourceRevisions && n in resourceRevisions[res] <==>
                  exists j :: 0 <= j < i && Claim(revisions[j]) == Some((res, n))
      invariant issues == before <==> NumbersOk(revisions[..i])
    {
      NumbersLast(revisions, i);
      var claim := Claim(revisions[i]);
      if claim.Some? {
        var (res, n) := claim.value;
        var numbers := if res in resourceRevisions then resourceRevisions[res] else {};
        if n in numbers {
          issues := issues + [RevisionNumberConflict];
        }
        resourceRevisions := resourceRevisions[res := numbers + {n}];
      }
    }
    assert revisions[..|revisions|] == revisions;
  }

  lemma NumbersLast(revisions: seq<Record>, i: nat)
    requires i < |revisions|
    ensures NumbersOk(revisions[..i + 1]) <==>
            NumbersOk(revisions[..i]) &&
            (Claim(revisions[i]).Some? ==> forall j :: 0 <= j < i ==> Claim(revisions[j]) != Claim(revisions[i]))
  {
    var a, b := revisions[..i + 1], revisions[..i];
    assert forall j :: 0 <= j < i ==> a[j] == b[j] == revisions[j];
  }

  method ValidateRetentionAssignments(records: RecordSet, before: seq<Issue>) returns (issues: seq<Issue>)
    ensures before <= issues && (issues == before <==> RetentionOk(records))
  {
    issues := before;
    var datasets, ids := Of(records, Datasets), Ids(records, Retention);
    for i := 0 to |datasets|
      invariant before <= issues
      invariant issues == before <==> forall j :: 0 <= j < i ==> OptionalRefOk(ids, datasets[j], "retentionPolicyId")
    {
      if !OptionalRefOk(ids, datasets[i], "retentionPolicyId") {
        issues := issues + [RetentionPolicyUnavailable];
      }
    }
  }
}
