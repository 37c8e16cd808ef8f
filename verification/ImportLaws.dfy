/**
 What planning an import guarantees in terms of the request, the archive and the target
 (packages/archive/src/import-plan.ts).
 */
module ImportLaws {
  import opened Base
  import opened Text
  import opened Json
  import opened Records
  import opened Sorting
  import opened ImportTypes
  import opened ImportGraph
  import opened ImportMapping
  import opened ImportPlan
  import opened ImportOrder
  import opened ImportReplan

  // ---------- the request ----------

  /** A preserving import names no other workspace; a mapping one names a workspace that is not blank. */
  lemma RequestMeans(req: Request)
    ensures RequestOk(req) <==>
            && req.archive.valid
            && match req.mode
               case PreserveIds =>
                 && req.archive.workspaceId != ""
                 && (req.targetWorkspace.Some? ==>
                       req.targetWorkspace.value == "" || req.targetWorkspace.value == req.archive.workspaceId)
               case MappedWorkspace =>
                 req.targetWorkspace.Some? && exists c :: c in req.targetWorkspace.value && !IsSpace(c)
    ensures req.mode == PreserveIds ==> Destination(req) == req.archive.workspaceId
    ensures RequestOk(req) && req.mode == MappedWorkspace ==> Destination(req) == Trim(req.targetWorkspace.value)
  {
    hide IsSpace;
    hide Trim;
    var ids := ["", req.archive.workspaceId];
    assert ids[0] in ids && ids[1] in ids;
    if req.mode == MappedWorkspace && req.targetWorkspace.Some? {
      NotBlank(req.targetWorkspace.value);
    }
  }

  lemma NotBlank(t: string)
    ensures Trim(t) != "" <==> exists c :: c in t && !IsSpace(c)
  {
    hide IsSpace;
    var before, after := TrimMeans(t);
    hide Trim;
    if Trim(t) != "" {
      assert t[|before|] == Trim(t)[0];
    } else {
      assert t == before + after;
    }
  }

  // ---------- the order of a plan ----------

  /** The order in which kinds are imported: what is referred to comes before what refers to it. */
  const IMPORT_ORDER: seq<ActionKind> := [
    RecordOf(Workspaces), RecordOf(SchemaPackages), RecordOf(Retention), RecordOf(Datasets), RecordOf(Blobs), BlobBytes,
    RecordOf(Resources), RecordOf(Revisions), RecordOf(RevisionBlobs), RecordOf(Relations), RecordOf(Tombstones),
    RecordOf(AuditEvents)
  ]

  lemma PhasesFollow(i: nat, j: nat)
    requires i < |IMPORT_ORDER| && j < |IMPORT_ORDER|
    ensures Phase(IMPORT_ORDER[i]) <= Phase(IMPORT_ORDER[j]) <==> i <= j
  {
  }

  lemma InImportOrder(kind: ActionKind) returns (i: nat)
    ensures i < |IMPORT_ORDER| && IMPORT_ORDER[i] == kind
  {
    i := match kind
      case RecordOf(Workspaces) => 0
      case RecordOf(SchemaPackages) => 1
      case RecordOf(Retention) => 2
      case RecordOf(Datasets) => 3
      case RecordOf(Blobs) => 4
      case BlobBytes => 5
      case RecordOf(Resources) => 6
      case RecordOf(Revisions) => 7
      case RecordOf(RevisionBlobs) => 8
      case RecordOf(Relations) => 9
      case RecordOf(Tombstones) => 10
      case RecordOf(AuditEvents) => 11;
  }

  /** The actions of a plan come in the import order of their kinds, and within a kind in the order of target ids. */
  lemma PlanInOrder(env: Env, req: Request, known: Known, plan: Plan, i: nat, j: nat)
    requires TotalPreorder(env.leq) && PlanOf(env, req, known) == Ok(plan) && i < j < |plan.actions|
    ensures var a, b := plan.actions[i], plan.actions[j];
            if a.kind == b.kind then env.leq(a.targetId, b.targetId)
            else exists k, l :: 0 <= k < l < |IMPORT_ORDER| && a.kind == IMPORT_ORDER[k] && b.kind == IMPORT_ORDER[l]
  {
    hide PlanOf;
    hide Phase;
    assert plan.actions == ActionsOf(env, req, known);
    ActionsPlanned(env, req, known, i);
    ActionsPlanned(env, req, known, j);
    ActionsSorted(env, req, known, i, j);
    hide ActionsOf;
    hide ActionKindName;
    var a, b := plan.actions[i], plan.actions[j];
    var k := InImportOrder(a.kind);
    var l := InImportOrder(b.kind);
    PhasesFollow(k, l);
    PhasesFollow(l, k);
  }

  lemma ActionsSorted(env: Env, req: Request, known: Known, i: nat, j: nat)
    requires TotalPreorder(env.leq) && i < j < |ActionsOf(env, req, known)|
    ensures ActionLeq(env.leq, ActionsOf(env, req, known)[i], ActionsOf(env, req, known)[j])
  {
    hide Skeleton;
    hide Clean;
    hide ActionKindName;
    ComparatorOrder(env.leq);
    SortSorted(Comparator(env.leq), Map(Decided(req.mode, known), Skeleton(env, req)));
    var sorted := Ordered(env, req, known);
    assert Comparator(env.leq)(sorted[i], sorted[j]);
  }

  // ---------- fields that mapping writes back ----------

  /** The fields a record needs for planning are those that mapping treats as a reference in some record of its kind. */
  lemma MappedFieldsAre(kind: Kind, f: string)
    ensures f in MappedFields(kind) <==> exists r :: RoleOf(kind, r, f).Reference?
  {
    hide EndRole;
    var r: Record := map["sourceKind" := Str("blob"), "targetKind" := Str("blob"), "subjectKind" := Str("dataset")];
    EndsRefer(r);
    assert RoleOf(kind, r, f).Reference? <==> f in MappedFields(kind) by {
      RolesAre(kind, r, f);
    }
    forall other | RoleOf(kind, other, f).Reference? ensures f in MappedFields(kind) {
      RolesAre(kind, other, f);
    }
    hide RoleOf;
  }

  lemma RolesAre(kind: Kind, r: Record, f: string)
    ensures RoleOf(kind, r, f).Reference? ==> f in MappedFields(kind)
    ensures EndRole(r, "sourceKind").Reference? && EndRole(r, "targetKind").Reference? ==>
            EndRole(r, "subjectKind").Reference? ==> f in MappedFields(kind) ==> RoleOf(kind, r, f).Reference?
  {
    hide EndRole;
  }

  lemma EndsRefer(r: Record)
    requires IsText(r, "sourceKind", "blob") && IsText(r, "targetKind", "blob") && IsText(r, "subjectKind", "dataset")
    ensures EndRole(r, "sourceKind").Reference? && EndRole(r, "targetKind").Reference?
    ensures EndRole(r, "subjectKind").Reference?
  {
  }

  // ---------- workspaces ----------

  /** What a ready plan writes belongs to the workspace it was planned for; audit events keep their own. */
  lemma WritesInWorkspace(env: Env, req: Request, known: Known, plan: Plan, w: (Key, Record))
    requires ReadyPlan(env, req, known, plan) && w in Writes(plan.actions)
    ensures w.0.0 != AuditEvents && "workspaceId" in w.1 ==> w.1["workspaceId"] == Str(Destination(req))
  {
    hide *;
    WritesAreNew(env, req, known, plan, w);
    ReadyIsClean(env, req, known, plan);
    InScope(env, req, known, w.0.0, w.1);
  }

  lemma InScope(env: Env, req: Request, known: Known, kind: Kind, r: Record)
    requires Clean(env, req, known) && r in Mapped(env, req)[kind]
    ensures kind != AuditEvents && "workspaceId" in r ==> r["workspaceId"] == Str(Destination(req))
  {
    hide Mapped;
    hide SchemasOk;
    hide RetentionOk;
    hide NoIdConflicts;
    hide RecordOk;
    hide RequestOk;
    assert Of(Mapped(env, req), kind) == Mapped(env, req)[kind];
    assert KindOk(Mapped(env, req), kind, Destination(req));
  }

  // ---------- revision numbers ----------

  /** Two revisions of one resource with one number, as the check sees them. */
  predicate SameNumber(a: Record, b: Record) {
    && "resourceId" in a && "resourceId" in b && a["resourceId"].Str? && a["resourceId"] == b["resourceId"]
    && "revisionNumber" in a && "revisionNumber" in b && (a["revisionNumber"].Int? || a["revisionNumber"].Frac?)
    && a["revisionNumber"] == b["revisionNumber"]
  }

  lemma NumbersMean(revisions: seq<Record>)
    ensures NumbersOk(revisions) <==>
            forall i, j :: 0 <= i < j < |revisions| ==> !SameNumber(revisions[i], revisions[j])
  {
    forall i, j | 0 <= i < j < |revisions|
      ensures SameNumber(revisions[i], revisions[j]) <==>
              Claim(revisions[i]).Some? && Claim(revisions[i]) == Claim(revisions[j])
    {
    }
    hide SameNumber;
    hide Claim;
  }

  /** In a checked archive the parent that a revision names is there and belongs to the same resource. */
  lemma ParentsAreRelatives(records: RecordSet, workspaceId: string, r: Record)
    requires GraphOk(records, workspaceId) && r in Of(records, Revisions) && HasText(r, "parentRevisionId")
    ensures exists parent: Record ::
              && parent in Of(records, Revisions) && IsText(parent, "id", r["parentRevisionId"].s)
              && "resourceId" in parent && "resourceId" in r && parent["resourceId"] == r["resourceId"]
  {
    assert KindOk(records, Revisions, workspaceId);
    assert RevisionOk(records, r);
    FoundHasId(Of(records, Revisions), r["parentRevisionId"].s);
    var parent := Find(Of(records, Revisions), r["parentRevisionId"].s).value;
    assert IsText(parent, "id", r["parentRevisionId"].s);
  }

  lemma {:induction false} FoundHasId(list: seq<Record>, id: string)
    ensures match Find(list, id)
            case None => true
            case Some(r) => r in list && IsText(r, "id", id)
  {
    if list != [] {
      FoundHasId(list[..|list| - 1], id);
    }
  }

  // ---------- schemas ----------

  predicate Primitive(v: Option<Json>) {
    v.Some? ==> !v.value.Arr? && !v.value.Obj?
  }

  /** The two packages have one namespace, name and version. */
  predicate OneIdentity(a: Record, b: Record) {
    forall f :: f in ["namespace", "name", "semanticVersion"] ==> Prop(a, f) == Prop(b, f) && Primitive(Prop(a, f))
  }

  lemma IdentityMeans(a: Record, b: Record)
    ensures SameSchema(a, b) <==> OneIdentity(a, b)
  {
    var fields := ["namespace", "name", "semanticVersion"];
    assert fields[0] in fields && fields[1] in fields && fields[2] in fields;
  }

  /** Schema packages of one identity have one digest. */
  ghost predicate SchemasUnique(inv: Inventory) {
    forall k, l :: k in inv.byKey && l in inv.byKey && k.0 == SchemaPackages && l.0 == SchemaPackages ==>
      OneIdentity(inv.byKey[k], inv.byKey[l]) ==>
      Prop(inv.byKey[k], "schemaDigest") == Prop(inv.byKey[l], "schemaDigest")
  }

  /** In such a target a package is accepted exactly when all packages of its identity have its digest. */
  lemma SchemaOkMeans(inv: Inventory, schema: Record)
    requires ValidInventory(inv) && SchemasUnique(inv)
    ensures SchemaOk(inv, schema) <==>
            forall k :: k in inv.byKey && k.0 == SchemaPackages && OneIdentity(inv.byKey[k], schema) ==>
              && Prop(inv.byKey[k], "schemaDigest") == Prop(schema, "schemaDigest")
              && Primitive(Prop(schema, "schemaDigest"))
  {
    hide SameSchema;
    hide OneIdentity;
    FirstMatchFinds(inv, inv.order, schema);
    forall k | k in inv.byKey ensures SameSchema(inv.byKey[k], schema) <==> OneIdentity(inv.byKey[k], schema) {
      IdentityMeans(inv.byKey[k], schema);
    }
    forall k, l | k in inv.byKey && l in inv.byKey && OneIdentity(inv.byKey[k], schema)
                  && OneIdentity(inv.byKey[l], schema)
      ensures OneIdentity(inv.byKey[k], inv.byKey[l]) {
      Transitive(inv.byKey[k], schema, inv.byKey[l]);
    }
  }

  /** The digest of a target package equals that of an archive package of its identity. */
  lemma DigestAgrees(env: Env, req: Request, known: Known, plan: Plan, schema: Record, k: Key)
    requires ReadyPlan(env, req, known, plan) && ValidInventory(known.records) && SchemasUnique(known.records)
    requires schema in Mapped(env, req)[SchemaPackages] && k in known.records.byKey && k.0 == SchemaPackages
    requires OneIdentity(known.records.byKey[k], schema)
    ensures Prop(known.records.byKey[k], "schemaDigest") == Prop(schema, "schemaDigest")
  {
    hide ReadyPlan;
    hide Mapped;
    hide SameSchema;
    hide OneIdentity;
    var inv := known.records;
    ReadySchema(env, req, known, plan, schema);
    FirstMatchFinds(inv, inv.order, schema);
    IdentityMeans(inv.byKey[k], schema);
    assert MatchAt(inv, k, schema);
    var found := FirstMatch(inv, inv.order, schema).value;
    var l :| l in inv.order && MatchAt(inv, l, schema) && inv.byKey[l] == found;
    IdentityMeans(found, schema);
    Transitive(inv.byKey[k], schema, found);
  }

  lemma Transitive(a: Record, b: Record, c: Record)
    requires OneIdentity(a, b) && OneIdentity(c, b)
    ensures OneIdentity(a, c) && OneIdentity(c, a) && OneIdentity(b, a)
  {
  }

  /** Importing a ready plan never gives a schema package a second digest. */
  lemma SchemasStayUnique(env: Env, req: Request, known: Known, plan: Plan)
    requires ReadyPlan(env, req, known, plan) && ValidInventory(known.records) && SchemasUnique(known.records)
    requires forall a, b :: a in Mapped(env, req)[SchemaPackages] && b in Mapped(env, req)[SchemaPackages] ==>
               OneIdentity(a, b) ==> Prop(a, "schemaDigest") == Prop(b, "schemaDigest")
    ensures SchemasUnique(Executed(known, plan).records)
  {
    hide ReadyPlan;
    hide Mapped;
    hide OneIdentity;
    var before, after, writes := known.records.byKey, Executed(known, plan).records.byKey, Writes(plan.actions);
    OnlyAdds(env, req, known, plan);
    hide Executed;
    forall k, l | k in after && l in after && k.0 == SchemaPackages && l.0 == SchemaPackages
                  && OneIdentity(after[k], after[l])
      ensures Prop(after[k], "schemaDigest") == Prop(after[l], "schemaDigest")
    {
      Transitive(after[k], after[l], after[l]) by {
        Reflexive(after[k], after[l]);
      }
      if k !in before {
        WrittenFrom(writes, k);
        WritesAreNew(env, req, known, plan, (k, after[k]));
      }
      if l !in before {
        WrittenFrom(writes, l);
        WritesAreNew(env, req, known, plan, (l, after[l]));
      }
      if k in before && l !in before {
        DigestAgrees(env, req, known, plan, after[l], k);
      }
      if l in before && k !in before {
        DigestAgrees(env, req, known, plan, after[k], l);
      }
    }
  }

  lemma Reflexive(a: Record, b: Record)
    requires OneIdentity(a, b)
    ensures OneIdentity(b, b)
  {
  }
}
