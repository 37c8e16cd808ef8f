/** Imports on which planning throws instead of reporting (packages/archive/src/import-plan.ts). */
module ImportThrows {
  import opened Base
  import opened Json
  import opened Records
  import opened ImportTypes
  import opened ImportGraph
  import opened ImportPlan
  import opened ImportOrder
  import opened ImportPreserved
  import opened ImportCycles

  /** A revision that is its own parent and whose number has no text. */
  function OddRevision(): Record {
    Revision("a", Obj(map["toString" := Null]), Str("a"))
  }

  lemma OddRevisionThrows()
    ensures CompareThrows([OddRevision()], 0)
  {
    var list := [OddRevision()];
    assert Find(list, "a") == Some(list[0]);
    assert Position(list, "a") == Some(0);
  }

  /** Comparing revision numbers throws when one of them has no text, whatever the target holds. */
  lemma TextlessNumberThrows(env: Env, known: Known)
    ensures PlanOf(env, Preserving(OneResource([OddRevision()])), known) == Err(Unplannable)
  {
    hide Mapped;
    hide OddRevision;
    hide KindPlannable;
    hide Skeleton;
    hide CompareThrows;
    var req := Preserving(OneResource([OddRevision()]));
    PreservedRecords(env, OneResource([OddRevision()]), Revisions);
    OddRevisionThrows();
    assert Of(Mapped(env, req), Revisions) == [OddRevision()];
  }

  /** A target that lists datasets, none of them under the id asked for. */
  const LISTED := Known(Inventory([], map[]), {}, {Datasets})

  function DatasetCalled(id: string): RecordSet {
    map[Datasets := [Named(id)]]
  }

  function Named(id: string): Record {
    map["id" := Str(id), "schemaPackageId" := Str("s"), "retentionPolicyId" := Null]
  }

  /** So does comparing with what an id like "constructor" finds on every object. */
  lemma InheritedIdThrows(env: Env, id: string)
    requires InheritedFunction(id)
    ensures PlanOf(env, Preserving(DatasetCalled(id)), LISTED) == Err(Unplannable)
  {
    var req := Preserving(DatasetCalled(id));
    var a := RecordAction(env, req, Datasets, Named(id), Named(id));
    ActionThrows(env, req, id);
    hide InheritedFunction;
    hide RecordAction;
    hide DecisionThrows;
    hide AllPlannable;
    hide Named;
    hide Mapped;
    PreservedRecords(env, DatasetCalled(id), Datasets);
    assert Of(DatasetCalled(id), Datasets) == [Named(id)];
    hide Preserving;
    FirstDataset(env, req, Named(id));
    var k :| 0 <= k < |Skeleton(env, req)| && Skeleton(env, req)[k] == a;
    assert DecisionThrows(req.mode, LISTED, Skeleton(env, req)[k]);
    hide Skeleton;
  }

  lemma ActionThrows(env: Env, req: Request, id: string)
    requires InheritedFunction(id) && req.mode == PreserveIds
    ensures DecisionThrows(req.mode, LISTED, RecordAction(env, req, Datasets, Named(id), Named(id)))
  {
    InheritedNotEmpty(id);
    hide InheritedFunction;
    hide Needs;
  }

  lemma FirstDataset(env: Env, req: Request, r: Record)
    requires Of(req.archive.records, Datasets) == [r] == Mapped(env, req)[Datasets]
    ensures RecordAction(env, req, Datasets, r, r) in Skeleton(env, req)
  {
    hide Mapped;
    hide RecordAction;
    hide BlobActions;
    var a := RecordAction(env, req, Datasets, r, r);
    assert a == KindActions(env, req, Datasets, 1)[0];
    assert ALL_KINDS[2] == Datasets;
    InRecordActions(env, req, |ALL_KINDS|, 2, a);
    hide RecordActions;
  }

  lemma InheritedNotEmpty(id: string)
    requires InheritedFunction(id)
    ensures id != ""
  {
  }
}
