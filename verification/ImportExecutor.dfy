/**
 The executor (packages/archive/src/import-executor.ts) on the in-memory store and target
 (apps/trust-api/src/portability.ts). One call carries an import from whatever state earlier,
 interrupted calls left behind to completion.
 */
module ImportExecutor {
  import opened Base
  import opened ImportTypes
  import opened ImportStore
  import opened ImportExecution
  import opened ImportFailure
  import opened ImportConvergence
  import opened ImportPlan

  datatype Refusal = ArchiveNotValid | PlanNotExecutable | PlanArchiveMismatch | PlanIdInvalid

  datatype Failure = Refused(reason: Refusal) | Stopped(error: ExecError)

  datatype Outcome = Outcome(operation: Operation, resumed: bool, insertedRecords: nat, insertedBlobs: nat)

  function JobOf(archive: Archive, plan: Plan, entries: map<string, Bytes>): Job {
    Job(plan.planId, archive.exportId, BlobsToInsert(plan.actions), Writes(plan.actions), entries)
  }

  function ValidateInput(hash: string -> string, archive: Archive, plan: Plan): Option<Refusal> {
    if !archive.valid then Some(ArchiveNotValid)
    else if plan.status != Ready || plan.counts.blocked > 0 then Some(PlanNotExecutable)
    else if plan.archiveExportId != archive.exportId || plan.sourceWorkspaceId != archive.workspaceId
    then Some(PlanArchiveMismatch)
    else if plan.planId != PlanId(hash, archive, plan.sourceWorkspaceId, plan.targetWorkspaceId, plan.mode,
                                  plan.conflictMode, plan.actions)
    then Some(PlanIdInvalid)
    else None
  }

  function InsertedRecords(actions: seq<Action>): nat {
    if actions == [] then 0
    else
      var n := |actions| - 1;
      InsertedRecords(actions[..n]) + if actions[n].kind.RecordOf? && actions[n].disposition == Insert then 1 else 0
  }

  // ---------- one stage ----------

  /** The first `n` effects of a stage, stopping at the first that fails. */
  function Effects(h: Hash, job: Job, t: Target, op: string, c: Checkpoint, n: nat): (Target, Option<ExecError>)
    requires n <= Units(job, c)
  {
    if n == 0 then (t, None)
    else
      var (t', e) := Effects(h, job, t, op, c, n - 1);
      if e.Some? then (t', e)
      else
        match Effect(h, job, t', op, c, n - 1)
        case Err(error) => (t', Some(error))
        case Ok(t'') => (t'', None)
  }

  /** A world with one executor, which has done `n` effects of the stage behind `c`. */
  function Alone(store: OpStore, t: Target, op: string, here: Present, c: Checkpoint, n: nat): World {
    World(store, t, map[0 := Running(op, here, c, n)])
  }

  /** Nobody is at work: the state a crash leaves. */
  function Idle(store: OpStore, t: Target): World {
    World(store, t, map[])
  }

  /** A stage that needs the blobs staged finds them all. */
  ghost predicate StageReady(job: Job, t: Target, op: string, c: Checkpoint) {
    c == TemporaryBlobsStaged || c == StagedBlobsVerified ==> forall d :: d in job.blobs ==> d in StagedOf(t, op)
  }

  lemma {:induction false} EffectsKeep(
    h: Hash, job: Job, here: Present, start: Target, store: OpStore, t: Target, op: string, c: Checkpoint, n: nat)
    requires n <= Units(Left(job, here), c) && ExactInv(h, job, start, Alone(store, t, op, here, c, 0))
    ensures var mine := Left(job, here);
            var (t', e) := Effects(h, mine, t, op, c, n);
            match e
            case None =>
              ExactInv(h, job, start, Alone(store, t', op, here, c, n))
                && (StageReady(mine, t, op, c) ==> StageReady(mine, t', op, c))
            case Some(_) => ExactInv(h, job, start, Idle(store, t')) && (StageReady(mine, t, op, c) ==> !Intact(h, job))
  {
    hide ExactInv;
    hide Effect;
    hide Intact;
    hide StageReady;
    hide Left;
    if n > 0 {
      EffectsKeep(h, job, here, start, store, t, op, c, n - 1);
      var (t', e) := Effects(h, Left(job, here), t, op, c, n - 1);
      if e == None {
        EffectKeepsAlone(h, job, here, start, store, t', op, c, n - 1);
      }
    }
  }

  lemma EffectKeepsAlone(
    h: Hash, job: Job, here: Present, start: Target, store: OpStore, t: Target, op: string, c: Checkpoint, n: nat)
    requires n < Units(Left(job, here), c) && ExactInv(h, job, start, Alone(store, t, op, here, c, n))
    ensures match Effect(h, Left(job, here), t, op, c, n)
            case Ok(t') =>
              && ExactInv(h, job, start, Alone(store, t', op, here, c, n + 1))
              && (StageReady(Left(job, here), t, op, c) ==> StageReady(Left(job, here), t', op, c))
            case Err(_) =>
              ExactInv(h, job, start, Idle(store, t)) && (StageReady(Left(job, here), t, op, c) ==> !Intact(h, job))
  {
    hide Effect;
    hide Exact;
    hide Reached;
    hide StagedIntact;
    hide RecordsGuarded;
    hide ValidStore;
    hide Progress;
    hide ExactProgress;
    hide Intact;
    hide Left;
    hide HereOk;
    var w := Alone(store, t, op, here, c, n);
    ExactEffectStep(h, job, start, w, 0, "");
    assert ExecutorOk(h, job, t, store.byPlan[job.planId], w.executors[0]);
    EffectOfPart(h, job, here, t, op, c, n);
    var w' := Work(h, job, w, 0, "");
    match Effect(h, Left(job, here), t, op, c, n)
    case Ok(t') => assert w' == Alone(store, t', op, here, c, n + 1);
    case Err(e) => Crashed(h, job, start, w');
  }

  /** Crashing every executor keeps the invariant. */
  lemma Crashed(h: Hash, job: Job, start: Target, w: World)
    requires ExactInv(h, job, start, w)
    ensures ExactInv(h, job, start, Idle(w.store, w.target))
  {
    hide Exact;
    hide Reached;
    hide StagedIntact;
    hide RecordsGuarded;
    hide ValidStore;
  }

  class ArchiveImportExecutor {
    const operations: MemoryImportOperations
    const target: MemoryImportTarget

    constructor (operations: MemoryImportOperations, target: MemoryImportTarget)
      ensures this.operations == operations && this.target == target
    {
      this.operations, this.target := operations, target;
    }

    method StageBlobs(h: Hash, job: Job, op: string) returns (e: Option<ExecError>)
      modifies target`staged
      ensures (target.View(), e) == Effects(h, job, old(target.View()), op, TargetRevalidated, |job.blobs|)
    {
      for i := 0 to |job.blobs|
        invariant (target.View(), None) == Effects(h, job, old(target.View()), op, TargetRevalidated, i)
      {
        var digest := job.blobs[i];
        var bytes := BlobOf(job, digest);
        if bytes == None {
          FailsHence(h, job, old(target.View()), op, TargetRevalidated, i);
          return Some(BlobMissing);
        }
        if h(bytes.value) != digest {
          FailsHence(h, job, old(target.View()), op, TargetRevalidated, i);
          return Some(BlobHashMismatch);
        }
        target.Stage(op, digest, bytes.value);
      }
      e := None;
    }

    method VerifyStaged(h: Hash, job: Job, op: string) returns (e: Option<ExecError>)
      ensures (target.View(), e) == Effects(h, job, target.View(), op, TemporaryBlobsStaged, |job.blobs|)
    {
      for i := 0 to |job.blobs|
        invariant (target.View(), None) == Effects(h, job, target.View(), op, TemporaryBlobsStaged, i)
      {
        var bytes := BlobOf(job, job.blobs[i]);
        var ok := false;
        if bytes.Some? {
          ok := target.VerifyStaged(h, op, job.blobs[i], |bytes.value|);
        }
        if !ok {
          FailsHence(h, job, target.View(), op, TemporaryBlobsStaged, i);
          return Some(StagedBlobInvalid);
        }
      }
      e := None;
    }

    method CommitBlobs(h: Hash, job: Job, op: string) returns (e: Option<ExecError>)
      modifies target`blobs
      ensures (target.View(), e) == Effects(h, job, old(target.View()), op, StagedBlobsVerified, |job.blobs|)
    {
      for i := 0 to |job.blobs|
        invariant (target.View(), None) == Effects(h, job, old(target.View()), op, StagedBlobsVerified, i)
      {
        var r := target.Commit(op, job.blobs[i]);
        if r.Err? {
          FailsHence(h, job, old(target.View()), op, StagedBlobsVerified, i);
          return Some(StoreFailure(r.error));
        }
      }
      e := None;
    }

    /** The effects of the stage behind a checkpoint. */
    method Perform(h: Hash, job: Job, op: string, c: Checkpoint) returns (e: Option<ExecError>)
      modifies target
      ensures (target.View(), e) == Effects(h, job, old(target.View()), op, c, Units(job, c))
    {
      e := None;
      match c {
        case TargetRevalidated => e := StageBlobs(h, job, op);
        case TemporaryBlobsStaged => e := VerifyStaged(h, job, op);
        case StagedBlobsVerified => e := CommitBlobs(h, job, op);
        case ImmutableBlobsCommitted =>
          target.CommitRecords(job.writes);
          assert Effects(h, job, old(target.View()), op, c, 0) == (old(target.View()), None);
        case MetadataCommitted =>
          target.Audit(op);
          assert Effects(h, job, old(target.View()), op, c, 0) == (old(target.View()), None);
        case _ =>
      }
    }

    /**
     From any state that crashed runs of an import can leave, one call with its first plan or a later one completes
     the import of an intact archive, and the target then differs from `start` by exactly that import. A refused
     call changes nothing, and a failed one leaves a state from which it can be tried again. Ghost parameters name
     the whole import and what the plan at hand leaves out of it.
     */
    method Execute(
      hash: string -> string, h: Hash, archive: Archive, plan: Plan, entries: map<string, Bytes>,
      requestedBy: string, at: string, newId: string, ghost whole: Job, ghost here: Present, ghost start: Target)
      returns (r: Result<Outcome, Failure>)
      requires ExactInv(h, whole, start, Idle(operations.View(), target.View()))
      requires JobOf(archive, plan, entries) == Left(whole, here) && HereOk(h, whole, target.View(), here)
      requires here == NONE || Fresh(whole, start)
      requires newId !in operations.byId && newId !in target.staged && newId !in target.audited
      modifies operations, target
      ensures ValidateInput(hash, archive, plan).Some? ==>
                && r == Err(Refused(ValidateInput(hash, archive, plan).value))
                && operations.View() == old(operations.View()) && target.View() == old(target.View())
      ensures ExactInv(h, whole, start, Idle(operations.View(), target.View()))
      ensures r.Ok? ==>
                && r.value.operation.checkpoint == Completed
                && plan.planId in operations.byPlan && operations.byPlan[plan.planId] == r.value.operation
                && Imported(whole, r.value.operation.id, start, target.View())
                && r.value.insertedBlobs == |BlobsToInsert(plan.actions)|
                && r.value.insertedRecords == InsertedRecords(plan.actions)
                && (r.value.resumed <==>
                    && plan.planId in old(operations.byPlan)
                    && old(operations.byPlan)[plan.planId].checkpoint != Authorised)
      ensures ValidateInput(hash, archive, plan) == None && Intact(h, whole) ==>
                old(Prepared(Left(whole, here), operations.View(), target.View())) ==> r.Ok?
    {
      hide ExactInv;
      hide Intact;
      hide HereOk;
      hide Fresh;
      hide StageReady;
      var refusal := ValidateInput(hash, archive, plan);
      if refusal.Some? {
        return Err(Refused(refusal.value));
      }
      var job := JobOf(archive, plan, entries);
      assert job.planId == whole.planId == plan.planId && job.exportId == whole.exportId == archive.exportId;
      ghost var world := Idle(operations.View(), target.View());
      ghost var prepared := Prepared(job, operations.View(), target.View());
      var op := operations.Begin(plan.planId, archive.exportId, requestedBy, at, newId);
      Begun(h, whole, here, start, world.store, target.View(), requestedBy, at, newId);
      hide Left;
      var resumed := op.checkpoint != Authorised;
      while op.checkpoint != Completed
        invariant Held(h, whole, here, start, operations.View(), target.View(), op)
        invariant prepared ==> StageReady(job, target.View(), op.id, op.checkpoint)
        decreases 7 - Rank(op.checkpoint)
      {
        ghost var before := target.View();
        var stage := op.checkpoint;
        EffectsKeep(h, whole, here, start, operations.View(), before, op.id, stage, Units(job, stage));
        var e := Perform(h, job, op.id, stage);
        if e.Some? {
          return Err(Stopped(e.value));
        }
        AdvanceAlone(h, whole, here, start, operations.View(), target.View(), op, at);
        var advanced := operations.Advance(op.id, job.planId, stage, After(stage), at);
        op := advanced.value;
      }
      Finish(h, whole, here, start, operations.View(), target.View(), op);
      r := Ok(Outcome(op, resumed, InsertedRecords(plan.actions), |BlobsToInsert(plan.actions)|));
    }
  }

  /** An operation that has passed staging has staged all blobs of the job. */
  ghost predicate Prepared(job: Job, store: OpStore, t: Target) {
    job.planId in store.byPlan ==> StageReady(job, t, store.byPlan[job.planId].id, store.byPlan[job.planId].checkpoint)
  }

  lemma {:induction false} FailsHence(h: Hash, job: Job, t: Target, op: string, c: Checkpoint, i: nat)
    requires i < Units(job, c) && Effects(h, job, t, op, c, i + 1).1.Some?
    ensures Effects(h, job, t, op, c, Units(job, c)) == Effects(h, job, t, op, c, i + 1)
    decreases Units(job, c) - i
  {
    hide Effect;
    FailsUpTo(h, job, t, op, c, i + 1, Units(job, c));
  }

  lemma {:induction false} FailsUpTo(h: Hash, job: Job, t: Target, op: string, c: Checkpoint, i: nat, n: nat)
    requires i <= n <= Units(job, c) && Effects(h, job, t, op, c, i).1.Some?
    ensures Effects(h, job, t, op, c, n) == Effects(h, job, t, op, c, i)
  {
    hide Effect;
    if i < n {
      FailsUpTo(h, job, t, op, c, i, n - 1);
    }
  }

  /** The executor holds the stored operation and is about to start the stage of its checkpoint. */
  ghost predicate Held(h: Hash, job: Job, here: Present, start: Target, store: OpStore, t: Target, op: Operation) {
    && job.planId in store.byPlan && store.byPlan[job.planId] == op
    && ExactInv(h, job, start, World(store, t, map[0 := Resume(op, here)]))
  }

  lemma Begun(
    h: Hash, job: Job, here: Present, start: Target, store: OpStore, t: Target, actor: string, at: string,
    newId: string)
    requires ExactInv(h, job, start, Idle(store, t)) && HereOk(h, job, t, here) && (here == NONE || Fresh(job, start))
    requires newId !in store.byId && newId !in t.staged && newId !in t.audited
    ensures var (store', op) := BeginOp(store, job.planId, job.exportId, actor, at, newId);
            && Held(h, job, here, start, store', t, op)
            && (Prepared(Left(job, here), store, t) ==> StageReady(Left(job, here), t, op.id, op.checkpoint))
  {
    hide ValidStore;
    hide HereOk;
    hide Fresh;
    var step := Start(0, here, actor, at, newId);
    ExactStep(h, job, start, Idle(store, t), step);
    hide ExactInv;
    assert Left(job, here).planId == job.planId;
    hide Left;
  }

  /** The advance at the end of a stage succeeds, leads to a later checkpoint and finds the blobs staged. */
  lemma AdvanceAlone(
    h: Hash, job: Job, here: Present, start: Target, store: OpStore, t: Target, op: Operation, at: string)
    requires job.planId in store.byPlan && store.byPlan[job.planId] == op && op.checkpoint != Completed
    requires ExactInv(h, job, start, Alone(store, t, op.id, here, op.checkpoint, Units(Left(job, here), op.checkpoint)))
    ensures match AdvanceOp(store, op.id, job.planId, op.checkpoint, After(op.checkpoint), at)
            case Err(_) => false
            case Ok((store', op')) =>
              && Held(h, job, here, start, store', t, op') && Rank(op.checkpoint) < Rank(op'.checkpoint) <= 7
              && op'.id == op.id && StageReady(Left(job, here), t, op'.id, op'.checkpoint)
  {
    hide Exact;
    hide Reached;
    hide StagedIntact;
    hide RecordsGuarded;
    hide HereOk;
    hide ExactProgress;
    hide AdvanceOp;
    hide Left;
    var w := Alone(store, t, op.id, here, op.checkpoint, Units(Left(job, here), op.checkpoint));
    AdvanceKeepsStore(store, job.planId, op.checkpoint, at);
    ExactAdvanceStep(h, job, start, w, 0, at);
    assert Work(h, job, w, 0, at).executors.Keys == {0};
    assert ExecutorOk(h, job, t, op, w.executors[0]);
    StagedWhenDone(h, Left(job, here), t, op.id, op.checkpoint);
  }

  lemma StagedWhenDone(h: Hash, job: Job, t: Target, op: string, c: Checkpoint)
    requires c != Completed && Progress(h, job, t, op, c, Units(job, c))
    ensures StageReady(job, t, op, After(c))
  {
    forall d | d in job.blobs ensures exists i :: 0 <= i < |job.blobs| && job.blobs[i] == d {
    }
  }

  lemma Finish(h: Hash, job: Job, here: Present, start: Target, store: OpStore, t: Target, op: Operation)
    requires Held(h, job, here, start, store, t, op) && op.checkpoint == Completed
    ensures Imported(job, op.id, start, t) && ExactInv(h, job, start, Idle(store, t))
  {
    hide Exact;
    hide Reached;
    ExactAtEnd(job, start, t, op.id);
    Crashed(h, job, start, World(store, t, map[0 := Resume(op, here)]));
  }

  /**
   Every run of crashing and resuming executors leaves a state from which `Execute` completes the import: with the
   first plan when all executors used it, and with any plan when the first was made against the start.
   */
  lemma CrashedRunsResume(h: Hash, job: Job, w: World, steps: seq<Step>, here: Present)
    requires Initial(job, w) && Legal(h, job, w, steps) && forall i :: 0 <= i < |steps| ==> !steps[i].Other?
    requires Fresh(job, w.target) || (OnePlan(steps) && here == NONE)
    ensures var v := Run(h, job, w, steps);
            ExactInv(h, job, w.target, Idle(v.store, v.target)) && Prepared(Left(job, here), v.store, v.target)
  {
    RunsAreExact(h, job, w, steps);
    if Fresh(job, w.target) {
      OnlyOwnBlobs(h, job, w, steps);
      OwnBlobsRuns(h, job, w, steps);
    } else {
      OnePlanRuns(h, job, w, steps);
    }
    hide ExactInv;
    hide Run;
    hide Legal;
    hide Initial;
    hide InTime;
    hide Fresh;
    Crashed(h, job, w.target, Run(h, job, w, steps));
    assert forall d :: d in Left(job, here).blobs ==> d in job.blobs;
  }

  lemma {:induction false} OnlyOwnBlobs(h: Hash, job: Job, w: World, steps: seq<Step>)
    requires Fresh(job, w.target) && forall i :: 0 <= i < |steps| ==> !steps[i].Other?
    ensures OwnBlobs(h, job, w, steps)
  {
    if steps != [] {
      OnlyOwnBlobs(h, job, w, steps[..|steps| - 1]);
    }
  }
}
