/**
 Imports that keep every id (packages/archive/src/import-plan.ts in its mode preserve_ids): mapping
 changes no record, and into an empty target whatever passes the checks gives a ready plan.
 */
module ImportPreserved {
  import opened Base
  import opened Json
  import opened Records
  import opened ImportTypes
  import opened ImportGraph
  import opened ImportMapping
  import opened ImportPlan

  /** Without a change of workspace mapping changes no record. */
  lemma MapsToItself(hash: string -> string, records: RecordSet, workspaceId: string, kind: Kind, r: Record)
    ensures MapRecord(BuildIdMappings(hash, records, workspaceId, workspaceId), kind, r) == r
  {
    var m := BuildIdMappings(hash, records, workspaceId, workspaceId);
    forall k, id ensures MapId(m, k, id) == id {
    }
    IdentityMaps(m, kind, r);
  }

  lemma IdentityMaps(m: Mapping, kind: Kind, r: Record)
    requires m.source == m.target && forall k, id :: MapId(m, k, id) == id
    ensures MapRecord(m, kind, r) == r
  {
    hide MapId;
    hide MapField;
    hide MapEnd;
    hide MapScope;
    hide MapMergeParents;
    IdentityScope(m, kind, r);
    forall f, k ensures MapField(m, r, f, k) == r {
      IdentityField(m, r, f, k);
    }
    forall f, g ensures MapEnd(m, r, f, g) == r {
      IdentityEnd(m, r, f, g);
    }
    IdentityMerge(m, r);
  }

  lemma IdentityScope(m: Mapping, kind: Kind, r: Record)
    requires m.source == m.target
    ensures MapScope(m, kind, r) == r
  {
  }

  lemma IdentityField(m: Mapping, r: Record, field: string, kind: Kind)
    requires forall k, id :: MapId(m, k, id) == id
    ensures MapField(m, r, field, kind) == r
  {
    hide MapId;
  }

  lemma IdentityEnd(m: Mapping, r: Record, kindName: string, field: string)
    requires forall k, id :: MapId(m, k, id) == id
    ensures MapEnd(m, r, kindName, field) == r
  {
    hide MapId;
    hide MapField;
    hide RelationKind;
    if RelationKind(r, kindName).Some? {
      IdentityField(m, r, field, RelationKind(r, kindName).value);
    }
  }

  lemma IdentityMerge(m: Mapping, r: Record)
    requires forall k, id :: MapId(m, k, id) == id
    ensures MapMergeParents(m, r) == r
  {
    hide MapId;
    if "mergeParentRevisionIds" in r && r["mergeParentRevisionIds"].Arr? {
      var items := r["mergeParentRevisionIds"].items;
      assert seq(|items|, i requires 0 <= i < |items| => MapValue(m, Revisions, items[i])) == items;
    }
  }


  // ---------- an import into an empty target ----------

  const NOTHING := Known(Inventory([], map[]), {}, {})

  function Preserving(records: RecordSet): Request {
    Request(Archive(true, Null, "e", "w", records), PreserveIds, RejectOnError, None)
  }

  lemma PreservedRecords(env: Env, records: RecordSet, kind: Kind)
    ensures Mapped(env, Preserving(records))[kind] == Of(records, kind)
  {
    hide MapRecord;
    hide BuildIdMappings;
    var m := BuildIdMappings(env.hash, records, "w", "w");
    forall r ensures MapRecord(m, kind, r) == r {
      MapsToItself(env.hash, records, "w", kind, r);
    }
  }

  /** Records that pass every check of an import into workspace "w" under their own ids. */
  ghost predicate Importable(records: RecordSet) {
    && GraphOk(records, "w") && RetentionOk(records)
    && forall kind, r :: r in Of(records, kind) ==> Plannable(kind, r, r)
  }

  lemma PreservedReady(env: Env, records: RecordSet) returns (plan: Plan)
    requires Importable(records)
    ensures PlanOf(env, Preserving(records), NOTHING) == Ok(plan) && plan.status == Ready
  {
    hide Skeleton;
    hide GraphOk;
    hide RetentionOk;
    hide Ordered;
    hide Plannable;
    hide Mapped;
    hide GraphThrows;
    hide Inherited;
    hide InheritedFunction;
    var req := Preserving(records);
    forall kind ensures KindPlannable(env, req, kind) && Of(records, kind) == Of(Mapped(env, req), kind) {
      PreservedRecords(env, records, kind);
    }
    SameGraph(records, Mapped(env, req), "w");
    GoodGraphNeverThrows(Mapped(env, req), "w");
    assert Decidable(req.mode, NOTHING, Skeleton(env, req));
    plan := PlanOf(env, req, NOTHING).value;
  }

  lemma SameGraph(a: RecordSet, b: RecordSet, workspaceId: string)
    requires forall kind :: Of(a, kind) == Of(b, kind)
    requires GraphOk(a, workspaceId) && RetentionOk(a)
    ensures GraphOk(b, workspaceId) && RetentionOk(b)
  {
    assert forall kind :: Ids(a, kind) == Ids(b, kind);
    hide Ids;
    forall kind ensures KindOk(b, kind, workspaceId) {
      assert KindOk(a, kind, workspaceId);
    }
  }
}
