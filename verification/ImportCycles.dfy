/**
 Cycles of dependencies (packages/archive/src/import-plan.ts): the dependencies of a plan have a cycle
 exactly when the revisions have a cycle of parents, and when the checks rule that out.
 */
module ImportCycles {
  import opened Base
  import opened Text
  import opened Json
  import opened Numbers
  import opened Records
  import opened ImportTypes
  import opened ImportGraph
  import opened ImportMapping
  import opened ImportPlan
  import opened ImportOrder
  import opened ImportPreserved
  import ImportRemap

  // ---------- cycles of actions and cycles of parents ----------

  /** Each action of the path waits for the next. */
  ghost predicate IsPath(actions: seq<Action>, path: seq<nat>) {
    forall i :: 0 <= i < |path| - 1 ==> WaitsFor(actions, path[i], path[i + 1])
  }

  ghost predicate Cyclic(actions: seq<Action>) {
    exists path :: |path| >= 2 && IsPath(actions, path) && path[0] == path[|path| - 1]
  }

  /** `child` names `parent` as its parent. */
  predicate Links(child: Record, parent: Record) {
    HasId(parent) && IsText(child, "parentRevisionId", parent["id"].s)
  }

  /** Each of these revisions names the next as its parent. */
  ghost predicate IsLineage(revisions: seq<Record>, chain: seq<Record>) {
    && (forall i :: 0 <= i < |chain| ==> chain[i] in revisions)
    && (forall i :: 0 <= i < |chain| - 1 ==> Links(chain[i], chain[i + 1]))
  }

  ghost predicate ParentCycle(revisions: seq<Record>) {
    exists chain :: |chain| >= 2 && IsLineage(revisions, chain) && chain[0] == chain[|chain| - 1]
  }

  lemma PathStep(actions: seq<Action>, path: seq<nat>, i: nat)
    requires IsPath(actions, path) && i < |path| - 1
    ensures WaitsFor(actions, path[i], path[i + 1]) && path[i] < |actions| && path[i + 1] < |actions|
  {
  }

  /** Along a path phases never rise. */
  lemma {:induction false} PathPhases(env: Env, req: Request, known: Known, path: seq<nat>, i: nat, j: nat)
    requires IsPath(ActionsOf(env, req, known), path) && |path| >= 2 && i <= j < |path|
    ensures path[i] < |ActionsOf(env, req, known)| && path[j] < |ActionsOf(env, req, known)|
    ensures ActionsOf(env, req, known)[path[j]].phase <= ActionsOf(env, req, known)[path[i]].phase
    decreases j - i
  {
    hide *;
    PathStep(ActionsOf(env, req, known), path, if i == 0 then 0 else i - 1);
    if i < j {
      PathStep(ActionsOf(env, req, known), path, i);
      PathPhases(env, req, known, path, i + 1, j);
      StepPhase(env, req, known, path[i], path[i + 1]);
    }
  }

  lemma StepPhase(env: Env, req: Request, known: Known, i: nat, j: nat)
    requires WaitsFor(ActionsOf(env, req, known), i, j)
    ensures var actions := ActionsOf(env, req, known);
            && Planned(env, req, actions[i]) && Planned(env, req, actions[j])
            && (actions[j].phase < actions[i].phase || ParentLink(actions[i], actions[j]))
            && actions[j].phase <= actions[i].phase
  {
    hide ActionsOf;
    ActionsPlanned(env, req, known, i);
    ActionsPlanned(env, req, known, j);
    PhaseDrops(env, req, ActionsOf(env, req, known)[i], ActionsOf(env, req, known)[j]);
  }

  /** Two actions write revisions of which the first names the second as its parent. */
  predicate Linked(actions: seq<Action>, revisions: seq<Record>, i: nat, j: nat) {
    && i < |actions| && actions[i].record.Some? && actions[i].record.value in revisions
    && j < |actions| && actions[j].record.Some? && actions[j].record.value in revisions
    && Links(actions[i].record.value, actions[j].record.value)
  }

  /** A step that stays in its phase goes from a revision to one that it names as its parent. */
  lemma StepLinks(env: Env, req: Request, known: Known, i: nat, j: nat)
    requires AllPlannable(env, req) && WaitsFor(ActionsOf(env, req, known), i, j)
    requires ActionsOf(env, req, known)[i].phase <= ActionsOf(env, req, known)[j].phase
    ensures Linked(ActionsOf(env, req, known), Mapped(env, req)[Revisions], i, j)
  {
    hide ActionsOf;
    hide AllPlannable;
    hide Mapped;
    StepPhase(env, req, known, i, j);
    StableImage(env, req, Revisions, ActionsOf(env, req, known)[j].record.value);
  }

  /** On a cycle no step changes the phase, so each goes from a revision to its parent. */
  lemma CycleStep(env: Env, req: Request, known: Known, path: seq<nat>, i: nat)
    requires AllPlannable(env, req) && IsPath(ActionsOf(env, req, known), path)
    requires i < |path| - 1 && path[0] == path[|path| - 1]
    ensures Linked(ActionsOf(env, req, known), Mapped(env, req)[Revisions], path[i], path[i + 1])
  {
    hide *;
    PathPhases(env, req, known, path, 0, i);
    PathPhases(env, req, known, path, i + 1, |path| - 1);
    PathStep(ActionsOf(env, req, known), path, i);
    StepLinks(env, req, known, path[i], path[i + 1]);
  }

  lemma CycleIsLineage(env: Env, req: Request, known: Known, path: seq<nat>)
    requires AllPlannable(env, req) && IsPath(ActionsOf(env, req, known), path)
    requires |path| >= 2 && path[0] == path[|path| - 1]
    ensures ParentCycle(Mapped(env, req)[Revisions])
  {
    hide ActionsOf;
    hide AllPlannable;
    hide Mapped;
    hide Links;
    hide IsPath;
    hide Linked;
    var actions, revisions := ActionsOf(env, req, known), Mapped(env, req)[Revisions];
    forall i | 0 <= i < |path| - 1 ensures Linked(actions, revisions, path[i], path[i + 1]) {
      CycleStep(env, req, known, path, i);
    }
    LinkedRecords(actions, revisions, path);
  }

  lemma LinkedRecords(actions: seq<Action>, revisions: seq<Record>, path: seq<nat>)
    requires forall i :: 0 <= i < |path| - 1 ==> Linked(actions, revisions, path[i], path[i + 1])
    requires |path| >= 2 && path[0] == path[|path| - 1]
    ensures ParentCycle(revisions)
  {
    hide Links;
    forall i | 0 <= i < |path|
      ensures path[i] < |actions| && actions[path[i]].record.Some? && actions[path[i]].record.value in revisions
    {
      var k := if i < |path| - 1 then i else i - 1;
      assert Linked(actions, revisions, path[k], path[k + 1]);
    }
    var chain := seq(|path|, i requires 0 <= i < |path| => actions[path[i]].record.value);
    assert IsLineage(revisions, chain);
  }

  /** The action of a revision. */
  ghost function ActionFor(env: Env, req: Request, known: Known, r: Record): (i: nat)
    requires r in Mapped(env, req)[Revisions]
    ensures var actions := ActionsOf(env, req, known);
            i < |actions| && actions[i].kind == RecordOf(Revisions) && actions[i].record == Some(r)
  {
    ActionOfRevision(env, req, known, r);
    var i: nat :| IsActionOf(ActionsOf(env, req, known), i, r);
    i
  }

  predicate IsActionOf(actions: seq<Action>, i: nat, r: Record) {
    i < |actions| && actions[i].kind == RecordOf(Revisions) && actions[i].record == Some(r)
  }

  lemma ActionOfRevision(env: Env, req: Request, known: Known, r: Record)
    requires r in Mapped(env, req)[Revisions]
    ensures exists i: nat :: IsActionOf(ActionsOf(env, req, known), i, r)
  {
    hide ActionsOf;
    hide Mapped;
    var k :| 0 <= k < |Mapped(env, req)[Revisions]| && Mapped(env, req)[Revisions][k] == r;
    var i := ActionExists(env, req, known, Revisions, k);
    assert IsActionOf(ActionsOf(env, req, known), i, r);
  }

  /** The action of a revision waits for the action of its parent. */
  lemma ChildWaits(env: Env, req: Request, known: Known, child: Record, parent: Record)
    requires child in Mapped(env, req)[Revisions] && parent in Mapped(env, req)[Revisions] && Links(child, parent)
    ensures WaitsFor(ActionsOf(env, req, known), ActionFor(env, req, known, child), ActionFor(env, req, known, parent))
  {
    hide ActionsOf;
    hide ActionFor;
    hide Mapped;
    hide NameOf;
    hide Needs;
    ActionsPlanned(env, req, known, ActionFor(env, req, known, child));
    ActionsPlanned(env, req, known, ActionFor(env, req, known, parent));
    ParentNamed(child, parent["id"].s);
  }

  lemma ParentNamed(r: Record, id: string)
    requires IsText(r, "parentRevisionId", id)
    ensures NameOf(RecordOf(Revisions), id) in SortedKeys(Needs(Revisions, r))
  {
    hide NameOf;
  }

  lemma LineageIsCycle(env: Env, req: Request, known: Known, chain: seq<Record>)
    requires IsLineage(Mapped(env, req)[Revisions], chain) && |chain| >= 2 && chain[0] == chain[|chain| - 1]
    ensures Cyclic(ActionsOf(env, req, known))
  {
    hide PlanOf;
    hide ActionsOf;
    hide ActionFor;
    hide Mapped;
    hide WaitsFor;
    hide Links;
    var path := seq(|chain|, i requires 0 <= i < |chain| => ActionFor(env, req, known, chain[i]));
    forall i | 0 <= i < |path| - 1 ensures WaitsFor(ActionsOf(env, req, known), path[i], path[i + 1]) {
      assert Links(chain[i], chain[i + 1]);
      ChildWaits(env, req, known, chain[i], chain[i + 1]);
    }
    assert IsPath(ActionsOf(env, req, known), path);
  }

  /**
   In every plan, ready or not, a cycle of dependencies is a cycle of parents among the revisions, and the other way
   round.
   */
  lemma CyclesAreParentCycles(env: Env, req: Request, known: Known, plan: Plan)
    requires PlanOf(env, req, known) == Ok(plan)
    ensures Cyclic(plan.actions) <==> ParentCycle(Mapped(env, req)[Revisions])
  {
    hide ActionsOf;
    hide AllPlannable;
    hide Mapped;
    hide IsPath;
    hide IsLineage;
    assert plan.actions == ActionsOf(env, req, known);
    if Cyclic(plan.actions) {
      var path :| |path| >= 2 && IsPath(plan.actions, path) && path[0] == path[|path| - 1];
      CycleIsLineage(env, req, known, path);
    }
    if ParentCycle(Mapped(env, req)[Revisions]) {
      var chain :| |chain| >= 2 && IsLineage(Mapped(env, req)[Revisions], chain) && chain[0] == chain[|chain| - 1];
      LineageIsCycle(env, req, known, chain);
    }
  }

  // ---------- the archive's own revisions ----------

  /** Mapping makes no parent id equal to a revision id that it was not equal to. */
  ghost predicate KeptApart(m: Mapping, revisions: seq<Record>) {
    forall c: Record, p: Record :: c in revisions && p in revisions ==>
      HasText(c, "parentRevisionId") && HasText(p, "id") ==>
      MapId(m, Revisions, c["parentRevisionId"].s) == MapId(m, Revisions, p["id"].s) ==>
      c["parentRevisionId"].s == p["id"].s
  }

  ghost predicate AllNamed(revisions: seq<Record>) {
    forall r :: r in revisions ==> HasId(r)
  }

  lemma LinksMapped(m: Mapping, revisions: seq<Record>, c: Record, p: Record)
    requires c in revisions && p in revisions && HasId(p) && HasId(MapRecord(m, Revisions, p))
    ensures Links(c, p) ==> Links(MapRecord(m, Revisions, c), MapRecord(m, Revisions, p))
    ensures KeptApart(m, revisions) && Links(MapRecord(m, Revisions, c), MapRecord(m, Revisions, p)) ==> Links(c, p)
  {
    hide MapRecord;
    hide MapId;
    ImportRemap.TextMapped(m, Revisions, c, "parentRevisionId", Revisions);
    ImportRemap.IdOfMapped(m, Revisions, p);
  }

  lemma LineageMapped(m: Mapping, revisions: seq<Record>, chain: seq<Record>)
    requires AllNamed(revisions) && AllNamed(MapList(m, Revisions, revisions)) && IsLineage(revisions, chain)
    ensures IsLineage(MapList(m, Revisions, revisions), MapList(m, Revisions, chain))
  {
    hide MapRecord;
    hide Links;
    hide HasId;
    var mapped := MapList(m, Revisions, revisions);
    forall i | 0 <= i < |chain| ensures MapList(m, Revisions, chain)[i] in mapped {
      var k :| 0 <= k < |revisions| && revisions[k] == chain[i];
      assert mapped[k] in mapped;
    }
    forall i | 0 <= i < |chain| - 1
      ensures Links(MapList(m, Revisions, chain)[i], MapList(m, Revisions, chain)[i + 1]) {
      assert Links(chain[i], chain[i + 1]);
      assert MapList(m, Revisions, chain)[i + 1] in mapped;
      LinksMapped(m, revisions, chain[i], chain[i + 1]);
    }
  }

  /** The first revision whose image is `r`. */
  ghost function Origin(m: Mapping, revisions: seq<Record>, r: Record): (o: Record)
    requires r in MapList(m, Revisions, revisions)
    ensures o in revisions && MapRecord(m, Revisions, o) == r
  {
    var k :| 0 <= k < |revisions| && MapList(m, Revisions, revisions)[k] == r;
    revisions[k]
  }

  lemma LineageUnmapped(m: Mapping, revisions: seq<Record>, chain: seq<Record>)
    requires AllNamed(revisions) && AllNamed(MapList(m, Revisions, revisions)) && KeptApart(m, revisions)
    requires IsLineage(MapList(m, Revisions, revisions), chain) && |chain| >= 2 && chain[0] == chain[|chain| - 1]
    ensures ParentCycle(revisions)
  {
    hide MapRecord;
    hide Links;
    hide HasId;
    hide KeptApart;
    hide Origin;
    var own := seq(|chain|, i requires 0 <= i < |chain| => Origin(m, revisions, chain[i]));
    forall i | 0 <= i < |own| - 1 ensures Links(own[i], own[i + 1]) {
      assert Links(chain[i], chain[i + 1]);
      LinksMapped(m, revisions, own[i], own[i + 1]);
    }
    assert IsLineage(revisions, own);
  }

  function MappingOf(env: Env, req: Request): Mapping {
    BuildIdMappings(env.hash, req.archive.records, req.archive.workspaceId, Destination(req))
  }

  lemma RevisionsNamed(env: Env, req: Request)
    requires AllPlannable(env, req)
    ensures var own := Of(req.archive.records, Revisions);
            && Mapped(env, req)[Revisions] == MapList(MappingOf(env, req), Revisions, own)
            && AllNamed(own) && AllNamed(Mapped(env, req)[Revisions])
  {
    hide MapRecord;
    hide BuildIdMappings;
    assert KindPlannable(env, req, Revisions);
    var own := Of(req.archive.records, Revisions);
    assert forall i :: 0 <= i < |own| ==> Plannable(Revisions, own[i], Mapped(env, req)[Revisions][i]);
  }

  lemma SameWorkspaceApart(env: Env, req: Request)
    requires req.archive.workspaceId == Destination(req)
    ensures KeptApart(MappingOf(env, req), Of(req.archive.records, Revisions))
  {
    var m := MappingOf(env, req);
    assert forall id :: MapId(m, Revisions, id) == id;
  }

  /**
   A cycle of parents in the archive always ends up in the plan; the plan has no other cycle as long as
   mapping keeps the revision ids apart, which it does when the workspace stays the same.
   */
  lemma PlanCyclesAreOwn(env: Env, req: Request, known: Known, plan: Plan)
    requires PlanOf(env, req, known) == Ok(plan)
    ensures ParentCycle(Of(req.archive.records, Revisions)) ==> Cyclic(plan.actions)
    ensures req.archive.workspaceId == Destination(req)
            || KeptApart(MappingOf(env, req), Of(req.archive.records, Revisions)) ==>
              (Cyclic(plan.actions) <==> ParentCycle(Of(req.archive.records, Revisions)))
  {
    hide *;
    PlanExists(env, req, known, plan);
    RevisionsNamed(env, req);
    CyclesAreParentCycles(env, req, known, plan);
    CyclesMapped(MappingOf(env, req), Of(req.archive.records, Revisions));
    if req.archive.workspaceId == Destination(req) {
      SameWorkspaceApart(env, req);
    }
  }

  lemma PlanExists(env: Env, req: Request, known: Known, plan: Plan)
    requires PlanOf(env, req, known) == Ok(plan)
    ensures AllPlannable(env, req)
  {
  }

  lemma CyclesMapped(m: Mapping, revisions: seq<Record>)
    requires AllNamed(revisions) && AllNamed(MapList(m, Revisions, revisions))
    ensures ParentCycle(revisions) ==> ParentCycle(MapList(m, Revisions, revisions))
    ensures KeptApart(m, revisions) && ParentCycle(MapList(m, Revisions, revisions)) ==> ParentCycle(revisions)
  {
    hide IsLineage;
    hide MapRecord;
    hide KeptApart;
    hide AllNamed;
    if ParentCycle(revisions) {
      var chain :| |chain| >= 2 && IsLineage(revisions, chain) && chain[0] == chain[|chain| - 1];
      LineageMapped(m, revisions, chain);
      assert |MapList(m, Revisions, chain)| >= 2;
    }
    if KeptApart(m, revisions) && ParentCycle(MapList(m, Revisions, revisions)) {
      var chain :| |chain| >= 2 && IsLineage(MapList(m, Revisions, revisions), chain) && chain[0] == chain[|chain| - 1];
      LineageUnmapped(m, revisions, chain);
    }
  }

  // ---------- ready plans ----------

  ghost predicate RevisionIdsDistinct(revisions: seq<Record>) {
    forall i, j :: 0 <= i < j < |revisions| && HasId(revisions[i]) && HasId(revisions[j]) ==>
      revisions[i]["id"] != revisions[j]["id"]
  }

  /** Every revision number is, or converts to, a number. */
  ghost predicate AllNumbered(revisions: seq<Record>) {
    forall r: Record :: r in revisions ==> !RevisionNumber(r).NaN?
  }

  function RevisionNumber(r: Record): Number {
    NumberOf(Prop(r, "revisionNumber"))
  }

  /** With distinct ids the record looked up under an id is the only one that has it. */
  lemma {:induction false} FindOnly(list: seq<Record>, r: Record)
    requires RevisionIdsDistinct(list) && r in list && HasId(r)
    ensures Find(list, r["id"].s) == Some(r)
  {
    var n := |list| - 1;
    var k :| 0 <= k < |list| && list[k] == r;
    if k < n {
      assert list[..n][k] == r;
      FindOnly(list[..n], r);
      assert HasId(list[n]) ==> list[k]["id"] != list[n]["id"];
    }
  }

  /**
   Among checked revisions with distinct ids and numbers that are numbers, a parent has a smaller number than its
   child.
   */
  lemma ParentsDecrease(records: RecordSet, workspaceId: string, child: Record, parent: Record)
    requires GraphOk(records, workspaceId)
    requires RevisionIdsDistinct(Of(records, Revisions)) && AllNumbered(Of(records, Revisions))
    requires child in Of(records, Revisions) && parent in Of(records, Revisions) && Links(child, parent)
    ensures Below(RevisionNumber(parent), RevisionNumber(child))
  {
    hide NumbersOk;
    hide NumberOf;
    hide Below;
    assert KindOk(records, Revisions, workspaceId);
    assert RecordOk(records, Revisions, child);
    FindOnly(Of(records, Revisions), parent);
  }

  lemma {:induction false} LineageDecreases(records: RecordSet, workspaceId: string, chain: seq<Record>, j: nat)
    requires GraphOk(records, workspaceId)
    requires RevisionIdsDistinct(Of(records, Revisions)) && AllNumbered(Of(records, Revisions))
    requires IsLineage(Of(records, Revisions), chain) && 0 < j < |chain|
    ensures Below(RevisionNumber(chain[j]), RevisionNumber(chain[0]))
  {
    hide GraphOk;
    hide RevisionIdsDistinct;
    hide AllNumbered;
    hide RevisionNumber;
    hide Links;
    assert Links(chain[j - 1], chain[j - 1 + 1]);
    ParentsDecrease(records, workspaceId, chain[j - 1], chain[j]);
    if j > 1 {
      LineageDecreases(records, workspaceId, chain, j - 1);
    }
  }

  ghost predicate Reliable(env: Env, req: Request) {
    RevisionIdsDistinct(Mapped(env, req)[Revisions]) && AllNumbered(Mapped(env, req)[Revisions])
  }

  lemma ReadyGraph(env: Env, req: Request, known: Known, plan: Plan)
    requires PlanOf(env, req, known) == Ok(plan) && plan.status == Ready
    ensures GraphOk(Mapped(env, req), Destination(req))
  {
    hide GraphOk;
    hide AllPlannable;
    hide Ordered;
    hide Mapped;
  }

  /** The dependencies of a ready plan have no cycle. */
  lemma Acyclic(env: Env, req: Request, known: Known, plan: Plan)
    requires PlanOf(env, req, known) == Ok(plan) && plan.status == Ready && Reliable(env, req)
    ensures !Cyclic(plan.actions)
  {
    hide PlanOf;
    hide Mapped;
    hide Cyclic;
    hide GraphOk;
    hide IsLineage;
    hide RevisionIdsDistinct;
    hide AllNumbered;
    hide RevisionNumber;
    CyclesAreParentCycles(env, req, known, plan);
    ReadyGraph(env, req, known, plan);
    var revisions := Mapped(env, req)[Revisions];
    forall chain | |chain| >= 2 && IsLineage(revisions, chain) ensures chain[0] != chain[|chain| - 1] {
      LineageDecreases(Mapped(env, req), Destination(req), chain, |chain| - 1);
    }
  }

  // ---------- why ids must be distinct and numbers numbers ----------

  function Revision(id: string, number: Json, parent: Json): Record {
    map["id" := Str(id), "revisionNumber" := number, "resourceId" := Str("r"), "datasetId" := Str("d"),
        "schemaPackageId" := Str("s"), "parentRevisionId" := parent, "restoredFromRevisionId" := Null]
  }

  /** Revisions of one resource, in an archive without schema packages. */
  function OneResource(revisions: seq<Record>): RecordSet {
    map[Datasets := [map["id" := Str("d"), "schemaPackageId" := Str("s"), "retentionPolicyId" := Null]],
        Resources := [map["id" := Str("r"), "datasetId" := Str("d"), "currentRevisionId" := Null]],
        Revisions := revisions]
  }

  lemma OneResourceIds(revisions: seq<Record>)
    ensures Ids(OneResource(revisions), Datasets) == {"d"} && Ids(OneResource(revisions), Resources) == {"r"}
    ensures Ids(OneResource(revisions), SchemaPackages) == {}
  {
    var records := OneResource(revisions);
    assert Of(records, Datasets)[0] in Of(records, Datasets);
    assert Of(records, Resources)[0] in Of(records, Resources);
    assert "d" in Ids(records, Datasets) && "r" in Ids(records, Resources);
  }

  ghost predicate IsRevision(r: Record) {
    exists id, number, parent :: id != "" && r == Revision(id, number, parent)
  }

  lemma RevisionFits(revisions: seq<Record>, r: Record)
    requires IsRevision(r) && ParentOk(OneResource(revisions), r)
    ensures ScopeOk(r, "w") && RevisionOk(OneResource(revisions), r) && Plannable(Revisions, r, r)
  {
    OneResourceIds(revisions);
    hide ParentOk;
    hide Ids;
    hide OneResource;
  }

  lemma KindFits(revisions: seq<Record>, kind: Kind)
    requires forall r :: r in revisions ==> IsRevision(r) && ParentOk(OneResource(revisions), r)
    ensures KindOk(OneResource(revisions), kind, "w")
    ensures forall r :: r in Of(OneResource(revisions), kind) ==> Plannable(kind, r, r)
  {
    hide RevisionOk;
    hide ParentOk;
    hide IsRevision;
    OneResourceIds(revisions);
    hide Ids;
    forall r | r in revisions
      ensures ScopeOk(r, "w") && RevisionOk(OneResource(revisions), r) && Plannable(Revisions, r, r) {
      RevisionFits(revisions, r);
    }
  }

  lemma OneResourceImportable(revisions: seq<Record>)
    requires forall r :: r in revisions ==> IsRevision(r) && ParentOk(OneResource(revisions), r)
    requires NumbersOk(revisions)
    ensures Importable(OneResource(revisions))
  {
    hide KindOk;
    hide Plannable;
    hide NumbersOk;
    hide ParentOk;
    hide IsRevision;
    hide Ids;
    forall kind
      ensures KindOk(OneResource(revisions), kind, "w")
      ensures forall r :: r in Of(OneResource(revisions), kind) ==> Plannable(kind, r, r)
    {
      KindFits(revisions, kind);
    }
  }

  /** Two revisions share the id "a"; the check of revision "b" sees only the later of them. */
  function Twins(): seq<Record> {
    [Revision("a", Int(5), Str("b")), Revision("a", Int(1), Null), Revision("b", Int(3), Str("a"))]
  }

  /** Two revisions without a number are each other's parent. */
  function Unnumbered(): seq<Record> {
    [Revision("a", Obj(map[]), Str("b")), Revision("b", Obj(map[]), Str("a"))]
  }

  /** A revision passes when it names no parent, or one whose number is not at least its own. */
  lemma Passes(revisions: seq<Record>, id: string, number: Json, parent: Json, found: Record, n: Json)
    requires id != "" && (parent == Null || (parent.Str? && Find(revisions, parent.s) == Some(found)))
    requires Prop(found, "resourceId") == Some(Str("r")) && Prop(found, "revisionNumber") == Some(n)
    requires !Textless(n) && !Textless(number)
    requires parent == Null || !AtLeast(NumberOf(Some(n)), NumberOf(Some(number)))
    ensures IsRevision(Revision(id, number, parent)) && ParentOk(OneResource(revisions), Revision(id, number, parent))
  {
    hide NumberOf;
    hide AtLeast;
  }

  lemma TwinsImportable()
    ensures Importable(OneResource(Twins()))
  {
    hide Importable;
    hide NumberOf;
    hide ParentOk;
    hide IsRevision;
    hide OneResource;
    var list := Twins();
    var first := list[..2];
    assert Find(list, "b") == Some(list[2]);
    assert Find(first, "a") == Some(list[1]);
    assert Find(list, "a") == Find(first, "a");
    TwinNumbers();
    hide NumbersOk;
    IntegerOrder(1, 3);
    IntegerOrder(3, 5);
    hide AtLeast;
    Passes(list, "a", Int(5), Str("b"), list[2], Int(3));
    Passes(list, "a", Int(1), Null, list[2], Int(3));
    Passes(list, "b", Int(3), Str("a"), list[1], Int(1));
    OneResourceImportable(list);
  }

  lemma TwinNumbers()
    ensures NumbersOk(Twins())
  {
  }

  lemma IntegerOrder(a: int, b: int)
    requires a < b
    ensures !AtLeast(NumberOf(Some(Int(a))), NumberOf(Some(Int(b))))
  {
  }

  lemma UnnumberedImportable()
    ensures Importable(OneResource(Unnumbered()))
  {
    hide Importable;
    hide ParentOk;
    hide IsRevision;
    hide OneResource;
    var list := Unnumbered();
    var first := list[..1];
    assert Find(list, "b") == Some(list[1]);
    assert Find(first, "a") == Some(list[0]);
    assert Find(list, "a") == Find(first, "a");
    assert NumberOf(Some(Obj(map[]))).NaN?;
    hide NumberOf;
    Passes(list, "a", Obj(map[]), Str("b"), list[1], Obj(map[]));
    Passes(list, "b", Obj(map[]), Str("a"), list[0], Obj(map[]));
    OneResourceImportable(list);
  }

  /** Two revisions that are each other's parent wait for each other in a plan that is ready. */
  lemma MutualParents(env: Env, revisions: seq<Record>, a: Record, b: Record) returns (plan: Plan, i: nat, j: nat)
    requires Importable(OneResource(revisions)) && a in revisions && b in revisions && Links(a, b) && Links(b, a)
    ensures PlanOf(env, Preserving(OneResource(revisions)), NOTHING) == Ok(plan) && plan.status == Ready
    ensures WaitsFor(plan.actions, i, j) && WaitsFor(plan.actions, j, i)
  {
    hide Importable;
    hide Mapped;
    hide Links;
    hide Clean;
    hide Ordered;
    hide AllPlannable;
    var req := Preserving(OneResource(revisions));
    PreservedRecords(env, OneResource(revisions), Revisions);
    plan := PreservedReady(env, OneResource(revisions));
    assert plan.actions == ActionsOf(env, req, NOTHING);
    i, j := ActionFor(env, req, NOTHING, a), ActionFor(env, req, NOTHING, b);
    ChildWaits(env, req, NOTHING, a, b);
    ChildWaits(env, req, NOTHING, b, a);
  }

  /** With two revisions of one id a plan can be ready and yet two of its actions wait for each other. */
  lemma TwinsMakeCycles(env: Env) returns (plan: Plan, i: nat, j: nat)
    ensures PlanOf(env, Preserving(OneResource(Twins())), NOTHING) == Ok(plan) && plan.status == Ready
    ensures WaitsFor(plan.actions, i, j) && WaitsFor(plan.actions, j, i)
  {
    hide Importable;
    hide PlanOf;
    TwinsImportable();
    plan, i, j := MutualParents(env, Twins(), Twins()[0], Twins()[2]);
  }

  /** So it can with distinct ids, when revision numbers are no numbers. */
  lemma UnnumberedMakeCycles(env: Env) returns (plan: Plan, i: nat, j: nat)
    ensures RevisionIdsDistinct(Unnumbered())
    ensures PlanOf(env, Preserving(OneResource(Unnumbered())), NOTHING) == Ok(plan) && plan.status == Ready
    ensures WaitsFor(plan.actions, i, j) && WaitsFor(plan.actions, j, i)
  {
    hide Importable;
    hide PlanOf;
    UnnumberedImportable();
    plan, i, j := MutualParents(env, Unnumbered(), Unnumbered()[0], Unnumbered()[1]);
  }
}
