/**
 Planning an import again, at any moment of its execution (packages/archive/src/import-plan.ts, import-executor.ts
 and apps/trust-api/src/portability.ts): plans made at different times share one id and one operation.
 */
module ImportResume {
  import opened Base
  import opened Sorting
  import opened Records
  import opened ImportTypes
  import opened ImportStore
  import opened ImportExecution
  import opened ImportFailure
  import opened ImportConvergence
  import opened ImportExecutor
  import opened ImportGraph
  import opened ImportPlan
  import opened ImportOrder
  import opened ImportReplan
  import opened ImportActions
  import opened ImportPlanner

  /** What a planner sees of a target: it lists the kinds that it holds records of. */
  function KnownOf(t: Target): Known {
    Known(t.records, t.blobs.Keys, set k | k in t.records.byKey :: k.0)
  }

  /** A completed import leaves the target the plan promised. */
  lemma ImportedIsExecuted(
    h: Hash, archive: Archive, plan: Plan, entries: map<string, Bytes>, op: string, start: Target, t: Target)
    requires Intact(h, JobOf(archive, plan, entries)) && Imported(JobOf(archive, plan, entries), op, start, t)
    ensures KnownOf(t) == Executed(KnownOf(start), plan)
  {
    hide BlobOf;
    hide PutAll;
    hide Writes;
    hide BlobsToInsert;
    var blobs := BlobsToInsert(plan.actions);
    assert PlannedBlobs(JobOf(archive, plan, entries)).Keys == set d | d in blobs;
    ListedAfter(start.records, Writes(plan.actions));
  }

  lemma ListedAfter(records: Inventory, writes: seq<(Key, Record)>)
    ensures (set k | k in PutAll(records, writes).byKey :: k.0) ==
            (set k | k in records.byKey :: k.0) + set w | w in writes :: w.0.0
  {
    PutAllMap(records, writes);
    WriteMapKeys(writes);
    hide PutAll;
    hide WriteMap;
  }

  /** What a planner finds of an import in a target. */
  function PresentIn(t: Target): Present {
    Present(t.blobs.Keys, t.records.byKey.Keys)
  }

  /** What a ready plan inserts is not in the target it was made against. */
  lemma FirstPlanIsFresh(env: Env, req: Request, plan: Plan, entries: map<string, Bytes>, start: Target)
    requires ReadyPlan(env, req, KnownOf(start), plan)
    ensures Fresh(JobOf(req.archive, plan, entries), start)
  {
    hide ReadyPlan;
    hide Planned;
    hide Skeleton;
    var writes := Writes(plan.actions);
    WriteMapKeys(writes);
    forall k | k in WriteMap(writes) ensures k !in start.records.byKey {
      var w :| w in writes && w.0 == k;
      WritesAreNew(env, req, KnownOf(start), plan, w);
    }
    forall d | d in BlobsToInsert(plan.actions) ensures d !in start.blobs {
      BlobsOf(plan.actions, d);
      var i :| 0 <= i < |plan.actions| && InsertsBlob(plan.actions[i], d);
      BlobNotThere(env, req, KnownOf(start), plan, i);
    }
  }

  lemma BlobNotThere(env: Env, req: Request, known: Known, plan: Plan, i: nat)
    requires ReadyPlan(env, req, known, plan) && i < |plan.actions|
    requires plan.actions[i].kind == BlobBytes && plan.actions[i].disposition == Insert
    ensures plan.actions[i].sourceId !in known.blobs
  {
    hide ReadyPlan;
    hide Skeleton;
    hide Mapped;
    ActionDecided(env, req, known, plan, i);
  }

  // ---------- two plans of one import ----------

  /** The same actions, of which the second plan inserts those that it does not find. */
  ghost predicate Narrows(a: seq<Action>, b: seq<Action>, here: Present) {
    && |a| == |b|
    && forall i :: 0 <= i < |a| ==> NarrowsAt(a[i], b[i], here)
  }

  predicate NarrowsAt(a: Action, b: Action, here: Present) {
    && b == a.(index := b.index, disposition := b.disposition)
    && (b.disposition == Insert <==>
        a.disposition == Insert &&
        match a.kind
        case BlobBytes => a.sourceId !in here.blobs
        case RecordOf(kind) => (kind, a.targetId) !in here.keys)
  }

  /** What an action adds to the blobs and to the records that are inserted. */
  function BlobWork(a: Action): seq<string> {
    if a.disposition == Insert && a.kind == BlobBytes then [a.sourceId] else []
  }

  function RecordWork(a: Action): seq<(Key, Record)> {
    if a.disposition == Insert && a.kind.RecordOf? && a.record.Some? then [((a.kind.kind, a.targetId), a.record.value)]
      else []
  }

  lemma {:induction false} NarrowedWork(a: seq<Action>, b: seq<Action>, here: Present)
    requires Narrows(a, b, here)
    ensures BlobsToInsert(b) == BlobsLeft(BlobsToInsert(a), here.blobs)
    ensures Writes(b) == WritesLeft(Writes(a), here.keys)
  {
    if a != [] {
      var n := |a| - 1;
      NarrowsFront(a, b, here);
      NarrowedWork(a[..n], b[..n], here);
      WorkOfLast(a);
      WorkOfLast(b);
      hide Narrows;
      hide Writes;
      hide BlobsToInsert;
      hide BlobsLeft;
      hide WritesLeft;
      NarrowedBlob(BlobsToInsert(a[..n]), a[n], b[n], here);
      NarrowedWrite(Writes(a[..n]), a[n], b[n], here);
    }
  }

  lemma NarrowsFront(a: seq<Action>, b: seq<Action>, here: Present)
    requires Narrows(a, b, here) && a != []
    ensures |a| == |b| && Narrows(a[..|a| - 1], b[..|a| - 1], here) && NarrowsAt(a[|a| - 1], b[|a| - 1], here)
  {
    hide NarrowsAt;
  }

  lemma WorkOfLast(actions: seq<Action>)
    requires actions != []
    ensures var n := |actions| - 1;
            && BlobsToInsert(actions) == BlobsToInsert(actions[..n]) + BlobWork(actions[n])
            && Writes(actions) == Writes(actions[..n]) + RecordWork(actions[n])
  {
  }

  lemma NarrowedBlob(blobs: seq<string>, a: Action, b: Action, here: Present)
    requires NarrowsAt(a, b, here)
    ensures BlobsLeft(blobs + BlobWork(a), here.blobs) == BlobsLeft(blobs, here.blobs) + BlobWork(b)
  {
    assert blobs + [] == blobs;
    var all := blobs + [a.sourceId];
    assert all[..|all| - 1] == blobs;
    assert BlobsLeft(all, here.blobs) == BlobsLeft(blobs, here.blobs) + if a.sourceId in here.blobs then []
      else [a.sourceId];
    hide BlobsLeft;
  }

  lemma NarrowedWrite(writes: seq<(Key, Record)>, a: Action, b: Action, here: Present)
    requires NarrowsAt(a, b, here)
    ensures WritesLeft(writes + RecordWork(a), here.keys) == WritesLeft(writes, here.keys) + RecordWork(b)
  {
    assert writes + [] == writes;
    if a.kind.RecordOf? && a.record.Some? {
      var w := ((a.kind.kind, a.targetId), a.record.value);
      var all := writes + [w];
      assert all[..|all| - 1] == writes;
      assert WritesLeft(all, here.keys) == WritesLeft(writes, here.keys) + if w.0 in here.keys then [] else [w];
    }
    hide WritesLeft;
  }

  /** No workspace of the archive would be taken for present because of an inherited name. */
  ghost predicate PlainWorkspaces(env: Env, req: Request) {
    req.mode == PreserveIds || forall r :: r in Mapped(env, req)[Workspaces] ==> !Inherited(RecordId(env.hash, r))
  }

  /** A planner that knows more. */
  ghost predicate KnowsMore(a: Known, b: Known) {
    && a.blobs <= b.blobs && a.records.byKey.Keys <= b.records.byKey.Keys && a.listed <= b.listed
  }

  lemma SortedActions(env: Env, req: Request, known: Known, plan: Plan, i: nat)
    requires ReadyPlan(env, req, known, plan) && i < |Skeleton(env, req)|
    ensures var sorted := Sort(Comparator(env.leq), Skeleton(env, req));
            && |plan.actions| == |sorted| == |Skeleton(env, req)|
            && plan.actions[i] == sorted[i].(index := i, disposition := Decision(req.mode, known, sorted[i]))
  {
    hide ReadyPlan;
    hide Skeleton;
    hide Decision;
    hide Clean;
    hide AllPlannable;
    hide Mapped;
    ReadyIsClean(env, req, known, plan);
    OrderedFromSkeleton(env, req, known);
    SameMembers(Sort(Comparator(env.leq), Skeleton(env, req)), Skeleton(env, req));
  }

  lemma DecisionNarrows(env: Env, req: Request, a: Known, b: Known, first: Plan, second: Plan, i: nat)
    requires ReadyPlan(env, req, a, first) && ReadyPlan(env, req, b, second) && KnowsMore(a, b)
    requires PlainWorkspaces(env, req)
    requires i < |first.actions| == |second.actions|
    requires second.actions[i] ==
             first.actions[i].(index := second.actions[i].index, disposition := second.actions[i].disposition)
    ensures NarrowsAt(first.actions[i], second.actions[i], Present(b.blobs, b.records.byKey.Keys))
  {
    hide ReadyPlan;
    hide Skeleton;
    hide Mapped;
    hide RecordId;
    hide Needs;
    hide Inherited;
    hide InheritedFunction;
    hide AllPlannable;
    hide Clean;
    hide Decision;
    var x, y := first.actions[i], second.actions[i];
    ActionDecided(env, req, a, first, i);
    ActionDecided(env, req, b, second, i);
    if x.kind.RecordOf? {
      DecisionMeans(req.mode, a, x);
      DecisionMeans(req.mode, b, y);
      ReadyIsClean(env, req, b, second);
      NotBlocked(env, req, b, y.(index := 0, disposition := Insert));
      DecisionIgnores(req.mode, b, y, y.(index := 0, disposition := Insert));
      PlannedNotEmpty(env, req, y.kind.kind, y.record.value);
    } else {
      BlobDecision(req.mode, a, x);
      BlobDecision(req.mode, b, y);
    }
  }

  lemma BlobDecision(mode: Mode, known: Known, a: Action)
    requires a.kind == BlobBytes
    ensures Decision(mode, known, a) == if a.targetId in known.blobs then AlreadyPresent else Insert
  {
  }

  /**
   A later plan of the import has the same id, and inserts what the first inserts less what has been put there since.
   */
  lemma PlansShareWork(
    env: Env, req: Request, a: Known, b: Known, first: Plan, second: Plan, entries: map<string, Bytes>)
    requires ReadyPlan(env, req, a, first) && ReadyPlan(env, req, b, second) && KnowsMore(a, b)
    requires PlainWorkspaces(env, req)
    ensures second.planId == first.planId
    ensures JobOf(req.archive, second, entries) ==
            Left(JobOf(req.archive, first, entries), Present(b.blobs, b.records.byKey.Keys))
  {
    hide ReadyPlan;
    hide Skeleton;
    hide PlainWorkspaces;
    hide KnowsMore;
    hide Decision;
    hide NarrowsAt;
    hide PlanOf;
    hide BlobsToInsert;
    hide Writes;
    hide BlobsLeft;
    hide WritesLeft;
    SameLength(env, req, a, first);
    SameLength(env, req, b, second);
    forall i | 0 <= i < |first.actions|
      ensures second.actions[i] ==
              first.actions[i].(index := second.actions[i].index, disposition := second.actions[i].disposition)
      ensures NarrowsAt(first.actions[i], second.actions[i], Present(b.blobs, b.records.byKey.Keys))
    {
      SortedActions(env, req, a, first, i);
      SortedActions(env, req, b, second, i);
      DecisionNarrows(env, req, a, b, first, second, i);
    }
    NarrowedWork(first.actions, second.actions, Present(b.blobs, b.records.byKey.Keys));
    SameIdentity(env.hash, first.actions, second.actions);
    ReadyIsClean(env, req, a, first);
    ReadyIsClean(env, req, b, second);
    SamePlanId(env, req, first, second, a, b);
  }

  lemma SameLength(env: Env, req: Request, known: Known, plan: Plan)
    requires ReadyPlan(env, req, known, plan)
    ensures |plan.actions| == |Skeleton(env, req)|
  {
    hide ReadyPlan;
    hide Skeleton;
    hide Clean;
    hide AllPlannable;
    hide Mapped;
    hide Decision;
    ReadyIsClean(env, req, known, plan);
    OrderedFromSkeleton(env, req, known);
    SameMembers(Sort(Comparator(env.leq), Skeleton(env, req)), Skeleton(env, req));
  }

  // ---------- planning in the middle of an execution ----------

  /** Which blobs a target holds makes no difference to whether a plan is ready. */
  lemma BlobsDoNotBlock(env: Env, req: Request, known: Known, blobs: set<string>)
    requires Clean(env, req, known) && Decidable(req.mode, known, Skeleton(env, req))
    ensures Clean(env, req, known.(blobs := blobs)) && Decidable(req.mode, known.(blobs := blobs), Skeleton(env, req))
  {
    hide Skeleton;
    hide GraphOk;
    hide RetentionOk;
    hide SchemasOk;
    hide Mapped;
    var other := known.(blobs := blobs);
    forall i | 0 <= i < |Skeleton(env, req)|
      ensures Decision(req.mode, other, Skeleton(env, req)[i]) != Blocked
      ensures !DecisionThrows(req.mode, other, Skeleton(env, req)[i])
    {
      SameDecision(req.mode, known, blobs, Skeleton(env, req)[i]);
    }
  }

  lemma SameDecision(mode: Mode, known: Known, blobs: set<string>, a: Action)
    ensures DecisionThrows(mode, known.(blobs := blobs), a) == DecisionThrows(mode, known, a)
    ensures Decision(mode, known, a) != Blocked ==> Decision(mode, known.(blobs := blobs), a) != Blocked
  {
    hide InheritedFunction;
    hide Inherited;
    hide SameText;
  }

  lemma ReadyWithBlobs(env: Env, req: Request, known: Known, plan: Plan, blobs: set<string>) returns (again: Plan)
    requires ReadyPlan(env, req, known, plan)
    ensures ReadyPlan(env, req, known.(blobs := blobs), again)
  {
    hide Skeleton;
    hide Decidable;
    hide AllPlannable;
    hide Ordered;
    ReadyIsClean(env, req, known, plan);
    BlobsDoNotBlock(env, req, known, blobs);
    hide Clean;
    again := PlanOf(env, req, known.(blobs := blobs)).value;
  }

  /** What the import has committed so far is what it staged, under the right digests. */
  lemma PresentIsOk(h: Hash, job: Job, start: Target, w: World)
    requires ExactInv(h, job, start, w) && BlobsAreOwn(job, w) && Fresh(job, start)
    ensures HereOk(h, job, w.target, PresentIn(w.target))
  {
    hide ValidStore;
    hide Reached;
    hide RecordsGuarded;
    hide BlobOf;
    hide PutAll;
    hide ExactProgress;
    hide ExecutorOk;
  }

  /** In the middle of its execution an import has written all of its records or none. */
  lemma KnownInBetween(h: Hash, archive: Archive, plan: Plan, entries: map<string, Bytes>, start: Target, w: World)
    requires ExactInv(h, JobOf(archive, plan, entries), start, w)
    ensures var known, later := KnownOf(start), KnownOf(w.target);
            && KnowsMore(known, later)
            && (later == known.(blobs := later.blobs) || later == Executed(known, plan).(blobs := later.blobs))
  {
    hide Inv;
    hide BlobOf;
    hide ExactProgress;
    hide BlobsToInsert;
    hide PutAll;
    hide Writes;
    PutAllMap(start.records, Writes(plan.actions));
    ListedAfter(start.records, Writes(plan.actions));
    hide WriteMap;
  }

  /** Whatever an interrupted execution has done so far, planning again gives a ready plan. */
  lemma ReadyInBetween(
    env: Env, req: Request, plan: Plan, h: Hash, entries: map<string, Bytes>, start: Target, w: World)
    returns (again: Plan)
    requires ExactInv(h, JobOf(req.archive, plan, entries), start, w)
    requires ReadyPlan(env, req, KnownOf(start), plan) && Consistent(env, req) && ValidInventory(start.records)
    requires SchemasAgree(Mapped(env, req)[SchemaPackages])
    ensures ReadyPlan(env, req, KnownOf(w.target), again) && KnowsMore(KnownOf(start), KnownOf(w.target))
  {
    KnownInBetween(h, req.archive, plan, entries, start, w);
    hide ExactInv;
    hide Consistent;
    hide SchemasAgree;
    hide ValidInventory;
    hide Executed;
    hide KnowsMore;
    var known, later := KnownOf(start), KnownOf(w.target);
    assert ValidInventory(known.records);
    hide KnownOf;
    if later == known.(blobs := later.blobs) {
      hide ReadyPlan;
      again := ReadyWithBlobs(env, req, known, plan, later.blobs);
    } else {
      ReplanIsIdle(env, req, known, plan);
      var idle := PlanOf(env, req, Executed(known, plan)).value;
      assert ReadyPlan(env, req, Executed(known, plan), idle);
      hide ReadyPlan;
      again := ReadyWithBlobs(env, req, Executed(known, plan), idle, later.blobs);
    }
  }

  /**
   Plan an import, execute it with any crashes and resumptions, and plan it again at any moment: the new plan is
   ready and has the same id, and executing it from there completes the import of an intact archive.
   */
  lemma PlanAgainAnyTime(
    env: Env, req: Request, plan: Plan, h: Hash, entries: map<string, Bytes>, w: World, steps: seq<Step>)
    returns (again: Plan)
    requires var job := JobOf(req.archive, plan, entries);
             Initial(job, w) && Legal(h, job, w, steps) && (forall i :: 0 <= i < |steps| ==> !steps[i].Other?)
    requires ReadyPlan(env, req, KnownOf(w.target), plan) && Consistent(env, req) && ValidInventory(w.target.records)
    requires SchemasAgree(Mapped(env, req)[SchemaPackages]) && PlainWorkspaces(env, req)
    ensures var job := JobOf(req.archive, plan, entries);
            var v := Run(h, job, w, steps);
            var here := PresentIn(v.target);
            && PlanOf(env, req, KnownOf(v.target)) == Ok(again) && again.status == Ready && again.planId == plan.planId
            && ValidateInput(env.hash, req.archive, again) == None
            && JobOf(req.archive, again, entries) == Left(job, here)
            && ExactInv(h, job, w.target, Idle(v.store, v.target)) && HereOk(h, job, v.target, here)
            && Fresh(job, w.target)
            && Prepared(Left(job, here), v.store, v.target)
  {
    hide Consistent;
    hide SchemasAgree;
    hide PlainWorkspaces;
    hide Prepared;
    hide KnowsMore;
    hide Left;
    hide HereOk;
    var job := JobOf(req.archive, plan, entries);
    FirstPlanIsFresh(env, req, plan, entries, w.target);
    hide ReadyPlan;
    var v := Run(h, job, w, steps);
    RunsAreExact(h, job, w, steps);
    OnlyOwnBlobs(h, job, w, steps);
    OwnBlobsRuns(h, job, w, steps);
    CrashedRunsResume(h, job, w, steps, PresentIn(v.target));
    hide Run;
    hide Legal;
    hide Initial;
    hide InTime;
    PresentIsOk(h, job, w.target, v);
    hide ExactInv;
    hide Fresh;
    again := ReadyInBetween(env, req, plan, h, entries, w.target, v);
    PlansShareWork(env, req, KnownOf(w.target), KnownOf(v.target), plan, again, entries);
    ReadyMeans(env, req, KnownOf(v.target), again);
    hide PlanOf;
    ReadyIsAccepted(env, req, KnownOf(v.target), again);
  }

  lemma ReadyMeans(env: Env, req: Request, known: Known, plan: Plan)
    requires ReadyPlan(env, req, known, plan)
    ensures PlanOf(env, req, known) == Ok(plan) && plan.status == Ready
  {
  }

  /**
   Plan, execute to completion whatever the interruptions, plan again: no issues, nothing to insert,
   and the same plan id, so a second execution finds its operation completed.
   */
  lemma ReimportIsIdle(
    env: Env, req: Request, plan: Plan, h: Hash, entries: map<string, Bytes>, w: World, steps: seq<Step>)
    requires var job := JobOf(req.archive, plan, entries);
             && Initial(job, w) && Legal(h, job, w, steps) && (forall i :: 0 <= i < |steps| ==> !steps[i].Other?)
             && Intact(h, job) && StoredRank(job, Run(h, job, w, steps)) == 7
    requires ReadyPlan(env, req, KnownOf(w.target), plan) && Consistent(env, req) && ValidInventory(w.target.records)
    requires SchemasAgree(Mapped(env, req)[SchemaPackages])
    ensures var target := Run(h, JobOf(req.archive, plan, entries), w, steps).target;
            match PlanOf(env, req, KnownOf(target))
            case Err(_) => false
            case Ok(again) => NothingToDo(plan, again)
  {
    var job := JobOf(req.archive, plan, entries);
    hide Run;
    hide Legal;
    hide Intact;
    hide Initial;
    hide ReadyPlan;
    hide Consistent;
    hide SchemasAgree;
    hide ValidInventory;
    hide Mapped;
    hide NothingToDo;
    hide PlanOf;
    hide JobOf;
    hide Imported;
    hide Executed;
    FirstPlanIsFresh(env, req, plan, entries, w.target);
    hide Fresh;
    CompletedRunsConverge(h, job, w, steps);
    var v := Run(h, job, w, steps);
    ImportedIsExecuted(h, req.archive, plan, entries, v.store.byPlan[job.planId].id, w.target, v.target);
    ReplanIsIdle(env, req, KnownOf(w.target), plan);
  }

  lemma {:induction false} AllBlobsLeft(blobs: seq<string>)
    ensures BlobsLeft(blobs, {}) == blobs
  {
    if blobs != [] {
      AllBlobsLeft(blobs[..|blobs| - 1]);
    }
  }

  lemma FirstCall(h: Hash, job: Job, store: OpStore, t: Target)
    requires ValidStore(store) && job.planId !in store.byPlan
    ensures ExactInv(h, job, t, Idle(store, t)) && Left(job, NONE) == job && HereOk(h, job, t, NONE)
    ensures Prepared(job, store, t)
  {
    hide ExactInv;
    var w := Idle(store, t);
    RunsAreExact(h, job, w, []);
    assert Run(h, job, w, []) == w;
    AllBlobsLeft(job.blobs);
    AllLeft(job.writes, {});
  }

  /**
   Planning an import and executing the plan: refused, with nothing changed, exactly when the plan is not ready, and
   otherwise an intact archive arrives in the target as planned.
   */
  method PlanThenExecute(
    env: Env, h: Hash, req: Request, entries: map<string, Bytes>, executor: ArchiveImportExecutor,
    requestedBy: string, at: string, newId: string) returns (r: Option<Result<Outcome, Failure>>)
    requires ValidStore(executor.operations.View())
    requires match PlanOf(env, req, KnownOf(executor.target.View()))
             case Ok(plan) => plan.planId !in executor.operations.byPlan
             case Err(_) => true
    requires newId !in executor.operations.byId && newId !in executor.target.staged && newId !in executor.target.audited
    modifies executor.operations, executor.target
    ensures match PlanOf(env, req, old(KnownOf(executor.target.View())))
            case Err(_) => r == None && unchanged(executor.operations) && unchanged(executor.target)
            case Ok(plan) =>
              r.Some? &&
              if plan.status != Ready then
                && r.value.Err? && r.value.error.Refused?
                && executor.operations.View() == old(executor.operations.View())
                && executor.target.View() == old(executor.target.View())
              else if Intact(h, JobOf(req.archive, plan, entries)) then
                && r.value.Ok? && r.value.value.operation.checkpoint == Completed
                && r.value.value.insertedRecords == |Writes(plan.actions)|
                && r.value.value.insertedBlobs == |BlobsToInsert(plan.actions)|
                && Imported(JobOf(req.archive, plan, entries), r.value.value.operation.id,
                            old(executor.target.View()), executor.target.View())
                && KnownOf(executor.target.View()) == Executed(old(KnownOf(executor.target.View())), plan)
              else true
  {
    hide PlanOf;
    hide Clean;
    hide ExactInv;
    hide HereOk;
    hide Intact;
    hide Imported;
    hide KnownOf;
    hide Executed;
    hide Writes;
    hide BlobsToInsert;
    hide Prepared;
    hide InsertedRecords;
    hide ValidStore;
    hide ValidateInput;
    ghost var start, known := executor.target.View(), KnownOf(executor.target.View());
    var planned, issues := PlanArchiveImport(env, req, KnownOf(executor.target.View()));
    if planned.Err? {
      return None;
    }
    var plan := planned.value;
    ghost var job := JobOf(req.archive, plan, entries);
    FirstCall(h, job, executor.operations.View(), start);
    ReadyIsAccepted(env, req, known, plan);
    EveryRecordHere(env, req, known, plan);
    InsertedAreWrites(plan.actions);
    var outcome := executor.Execute(env.hash, h, req.archive, plan, entries, requestedBy, at, newId, job, NONE, start);
    if plan.status == Ready && Intact(h, job) {
      ImportedIsExecuted(h, req.archive, plan, entries, outcome.value.operation.id, start, executor.target.View());
    }
    r := Some(outcome);
  }

  lemma EveryRecordHere(env: Env, req: Request, known: Known, plan: Plan)
    requires PlanOf(env, req, known) == Ok(plan)
    ensures forall i :: 0 <= i < |plan.actions| && plan.actions[i].kind.RecordOf? ==> plan.actions[i].record.Some?
  {
    hide *;
    forall i | 0 <= i < |plan.actions| && plan.actions[i].kind.RecordOf? ensures plan.actions[i].record.Some? {
      ActionHasRecord(env, req, known, plan, i);
      var kind, k :| ComesFrom(env, req, plan.actions[i], kind, k);
      RecordOfOrigin(env, req, plan.actions[i], kind, k);
    }
  }

  lemma RecordOfOrigin(env: Env, req: Request, a: Action, kind: Kind, k: nat)
    requires ComesFrom(env, req, a, kind, k)
    ensures a.record.Some?
  {
    hide Mapped;
  }
}
