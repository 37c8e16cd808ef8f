/**
 Why executors of an import fail (packages/archive/src/import-executor.ts): a damaged archive, or a plan made before
 somebody else committed one of its blobs.
 */
module ImportFailure {
  import opened Base
  import opened Digest
  import opened Paths
  import opened ImportTypes
  import opened ImportStore
  import opened ImportExecution

  /** An executor past staging still wants a blob that nobody staged. */
  ghost predicate Outdated(job: Job, w: World, e: int) {
    && e in w.executors && w.executors[e].Running?
    && (w.executors[e].checkpoint == TemporaryBlobsStaged || w.executors[e].checkpoint == StagedBlobsVerified)
    && exists d :: d in Left(job, w.executors[e].here).blobs && d !in StagedOf(w.target, w.executors[e].op)
  }

  /** No executor is ever outdated. */
  ghost predicate InTime(h: Hash, job: Job, w: World, steps: seq<Step>) {
    && (forall e :: !Outdated(job, Run(h, job, w, steps), e))
    && (steps == [] || InTime(h, job, w, steps[..|steps| - 1]))
  }

  ghost predicate FailuresAreDamage(h: Hash, job: Job, w: World) {
    forall e :: e in w.executors && w.executors[e].Failed? ==> !Intact(h, job)
  }

  lemma InTimeStep(h: Hash, job: Job, start: Target, w: World, step: Step)
    requires Inv(h, job, start, w) && Enabled(h, job, w, step) && FailuresAreDamage(h, job, w)
    requires forall e :: !Outdated(job, w, e)
    ensures FailuresAreDamage(h, job, Next(h, job, w, step))
  {
    hide ValidStore;
    hide Reached;
    hide RecordsGuarded;
    hide Intact;
    hide Effect;
    hide AdvanceOp;
    hide Progress;
    hide HereOk;
    hide Left;
    if step.Advance? {
      var x := w.executors[step.e];
      assert ExecutorOk(h, job, w.target, w.store.byPlan[job.planId], x);
      if x.finished < Units(Left(job, x.here), x.checkpoint) {
        EffectOfPart(h, job, x.here, w.target, x.op, x.checkpoint, x.finished);
        assert !Outdated(job, w, step.e);
      } else {
        AdvanceKeeps(h, job, start, w, step.e, step.at);
      }
    }
  }

  /** In runs without outdated executors one fails only when the archive no longer holds a blob it planned to insert. */
  lemma {:induction false} FailureMeansDamage(h: Hash, job: Job, w: World, steps: seq<Step>)
    requires Initial(job, w) && Legal(h, job, w, steps) && InTime(h, job, w, steps)
    ensures FailuresAreDamage(h, job, Run(h, job, w, steps))
  {
    hide Next;
    hide Enabled;
    hide Outdated;
    hide Inv;
    if steps == [] {
      assert w.executors == map[];
    } else {
      hide Initial;
      var n := |steps| - 1;
      FailureMeansDamage(h, job, w, steps[..n]);
      RunsAreSafe(h, job, w, steps[..n]);
      InTimeStep(h, job, w.target, Run(h, job, w, steps[..n]), steps[n]);
    }
  }

  /** An outdated executor fails when it goes on, even with an intact archive. */
  lemma {:induction false} OutdatedFails(h: Hash, job: Job, start: Target, w: World, e: int) returns (steps: seq<Step>)
    requires Inv(h, job, start, w) && Outdated(job, w, e)
    ensures Legal(h, job, w, steps) && e in Run(h, job, w, steps).executors
    ensures Run(h, job, w, steps).executors[e].Failed?
    decreases Units(Left(job, w.executors[e].here), w.executors[e].checkpoint) - w.executors[e].finished
  {
    hide ValidStore;
    hide Reached;
    hide RecordsGuarded;
    hide HereOk;
    hide Left;
    hide Effect;
    var x := w.executors[e];
    var mine := Left(job, x.here);
    assert ExecutorOk(h, job, w.target, w.store.byPlan[job.planId], x);
    var d :| d in mine.blobs && d !in StagedOf(w.target, x.op);
    var i :| 0 <= i < |mine.blobs| && mine.blobs[i] == d;
    assert i >= x.finished;
    hide Progress;
    EffectKeeps(h, job, start, w, e, "");
    var step := Advance(e, "");
    var v := Work(h, job, w, e, "");
    assert [step][..0] == [];
    assert Run(h, job, w, [step]) == Next(h, job, w, step) == v;
    if v.executors[e].Failed? {
      steps := [step];
    } else {
      SameStaged(h, mine, w.target, x.op, x.checkpoint, x.finished);
      var rest := OutdatedFails(h, job, start, v, e);
      steps := [step] + rest;
      RunPrefix(h, job, w, step, rest);
    }
  }

  /** Past staging no effect stages a blob. */
  lemma SameStaged(h: Hash, job: Job, t: Target, op: string, c: Checkpoint, n: nat)
    requires (c == TemporaryBlobsStaged || c == StagedBlobsVerified) && n < Units(job, c)
    requires Effect(h, job, t, op, c, n).Ok?
    ensures StagedOf(Effect(h, job, t, op, c, n).value, op) == StagedOf(t, op)
  {
  }

  lemma {:induction false} RunPrefix(h: Hash, job: Job, w: World, step: Step, rest: seq<Step>)
    requires Enabled(h, job, w, step)
    ensures Run(h, job, w, [step] + rest) == Run(h, job, Next(h, job, w, step), rest)
    ensures Legal(h, job, Next(h, job, w, step), rest) ==> Legal(h, job, w, [step] + rest)
  {
    hide Enabled;
    hide Next;
    var all := [step] + rest;
    if rest == [] {
      assert all == [step] && all[..0] == [];
    } else {
      var n := |rest| - 1;
      RunPrefix(h, job, w, step, rest[..n]);
      assert all[..|all| - 1] == [step] + rest[..n];
    }
  }

  // ---------- plans that are never outdated ----------

  /** Past staging the whole job is staged. */
  ghost predicate AllStaged(job: Job, w: World) {
    job.planId in w.store.byPlan && Rank(w.store.byPlan[job.planId].checkpoint) >= 2 ==>
      forall d :: d in job.blobs ==> d in StagedOf(w.target, w.store.byPlan[job.planId].id)
  }

  /** What an executor's plan leaves out has been staged all the same. */
  ghost predicate HereStaged(job: Job, w: World, e: int) {
    e in w.executors && w.executors[e].Running? ==>
      forall d :: d in w.executors[e].here.blobs && d in job.blobs ==> d in StagedOf(w.target, w.executors[e].op)
  }

  lemma AllStagedStep(h: Hash, job: Job, start: Target, w: World, step: Step)
    requires Inv(h, job, start, w) && Enabled(h, job, w, step) && AllStaged(job, w) && forall e :: HereStaged(job, w, e)
    ensures AllStaged(job, Next(h, job, w, step))
  {
    hide RecordsGuarded;
    hide Reached;
    hide HereOk;
    hide Intact;
    match step
    case Advance(e, at) =>
      var x, op := w.executors[e], w.store.byPlan[job.planId];
      assert ExecutorOk(h, job, w.target, op, x);
      var mine := Left(job, x.here);
      if x.finished < Units(mine, x.checkpoint) {
        hide ValidStore;
        hide AdvanceOp;
        EffectOfPart(h, job, x.here, w.target, x.op, x.checkpoint, x.finished);
        hide Progress;
        hide Effect;
        hide Left;
      } else {
        AdvanceKeepsStore(w.store, job.planId, x.checkpoint, at);
        hide AdvanceOp;
        hide ValidStore;
        if x.checkpoint == TargetRevalidated {
          assert HereStaged(job, w, e);
          assert forall d :: d in job.blobs ==> d in x.here.blobs || d in mine.blobs;
          forall d | d in mine.blobs ensures d in StagedOf(w.target, x.op) {
            var i :| 0 <= i < |mine.blobs| && mine.blobs[i] == d;
          }
        }
      }
    case Start(_, _, _, _, _) =>
    case Crash(_) =>
    case Other(_) =>
  }

  lemma AllStagedInTime(h: Hash, job: Job, start: Target, w: World)
    requires Inv(h, job, start, w) && AllStaged(job, w)
    ensures forall e :: !Outdated(job, w, e)
  {
    hide ValidStore;
    hide Reached;
    hide RecordsGuarded;
    hide StagedIntact;
    hide HereOk;
    hide Progress;
    forall e | e in w.executors && w.executors[e].Running? ensures !Outdated(job, w, e) {
      assert ExecutorOk(h, job, w.target, w.store.byPlan[job.planId], w.executors[e]);
    }
  }

  /** All executors use the first plan. */
  ghost predicate OnePlan(steps: seq<Step>) {
    forall i :: 0 <= i < |steps| && steps[i].Start? ==> steps[i].here == NONE
  }

  /** Nobody else commits a blob of the import, and none was there at the start. */
  ghost predicate OwnBlobs(h: Hash, job: Job, w: World, steps: seq<Step>) {
    if steps == [] then forall d :: d in job.blobs ==> d !in w.target.blobs
    else
      var n := |steps| - 1;
      && OwnBlobs(h, job, w, steps[..n])
      && (steps[n].Other? ==>
            forall d :: d in job.blobs && d in steps[n].target.blobs ==> d in Run(h, job, w, steps[..n]).target.blobs)
  }

  /** With one plan no executor leaves anything out. */
  lemma {:induction false} OnePlanRuns(h: Hash, job: Job, w: World, steps: seq<Step>)
    requires Initial(job, w) && Legal(h, job, w, steps) && OnePlan(steps)
    ensures AllStaged(job, Run(h, job, w, steps)) && InTime(h, job, w, steps)
    ensures var v := Run(h, job, w, steps);
            forall e :: e in v.executors && v.executors[e].Running? ==> v.executors[e].here == NONE
  {
    hide Enabled;
    hide Inv;
    RunsAreSafe(h, job, w, steps);
    if steps != [] {
      var n := |steps| - 1;
      OnePlanRuns(h, job, w, steps[..n]);
      RunsAreSafe(h, job, w, steps[..n]);
      var v := Run(h, job, w, steps[..n]);
      AllStagedStep(h, job, w.target, v, steps[n]);
      HereStays(h, job, w.target, v, steps[n]);
    }
    AllStagedInTime(h, job, w.target, Run(h, job, w, steps));
  }

  /** Executors keep their plans. */
  lemma HereStays(h: Hash, job: Job, start: Target, w: World, step: Step)
    requires Inv(h, job, start, w) && Enabled(h, job, w, step)
    ensures var v := Next(h, job, w, step);
            forall e :: e in v.executors && v.executors[e].Running? ==>
              if e in w.executors then w.executors[e].Running? && v.executors[e].here == w.executors[e].here
              else step.Start? && step.e == e && v.executors[e].here == step.here
  {
    hide Effect;
    hide AdvanceOp;
    hide HereOk;
    hide Inv;
  }

  /** Without foreign commits every blob of the import in the target has been staged by its operation. */
  ghost predicate BlobsAreOwn(job: Job, w: World) {
    forall d :: d in job.blobs && d in w.target.blobs ==>
      job.planId in w.store.byPlan && d in StagedOf(w.target, w.store.byPlan[job.planId].id)
  }

  lemma OwnStep(h: Hash, job: Job, start: Target, w: World, step: Step)
    requires Inv(h, job, start, w) && Enabled(h, job, w, step) && BlobsAreOwn(job, w)
    requires step.Other? ==> forall d :: d in job.blobs && d in step.target.blobs ==> d in w.target.blobs
    ensures BlobsAreOwn(job, Next(h, job, w, step))
  {
    hide RecordsGuarded;
    hide Reached;
    hide HereOk;
    hide Intact;
    match step
    case Advance(e, at) =>
      var x, op := w.executors[e], w.store.byPlan[job.planId];
      assert ExecutorOk(h, job, w.target, op, x);
      if x.finished < Units(Left(job, x.here), x.checkpoint) {
        hide ValidStore;
        EffectOfPart(h, job, x.here, w.target, x.op, x.checkpoint, x.finished);
        CommitsStaged(h, Left(job, x.here), w.target, x.op, x.checkpoint, x.finished);
        hide Progress;
        hide Effect;
        hide Left;
      } else {
        AdvanceKeepsStore(w.store, job.planId, x.checkpoint, at);
        hide AdvanceOp;
        hide ValidStore;
      }
    case Start(_, _, _, _, _) =>
    case Crash(_) =>
    case Other(_) =>
  }

  lemma CommitsStaged(h: Hash, job: Job, t: Target, op: string, c: Checkpoint, n: nat)
    requires n < Units(job, c)
    ensures match Effect(h, job, t, op, c, n)
            case Ok(t') => forall d :: d in t'.blobs ==> d in t.blobs || d in StagedOf(t, op)
            case Err(_) => true
  {
  }

  /** With blobs of its own an import can be planned anew at any time and its executors are never outdated. */
  lemma {:induction false} OwnBlobsRuns(h: Hash, job: Job, w: World, steps: seq<Step>)
    requires Initial(job, w) && Legal(h, job, w, steps) && OwnBlobs(h, job, w, steps)
    ensures AllStaged(job, Run(h, job, w, steps)) && InTime(h, job, w, steps) && BlobsAreOwn(job, Run(h, job, w, steps))
  {
    hide Enabled;
    hide Inv;
    hide Next;
    RunsAreSafe(h, job, w, steps);
    if steps != [] {
      var n := |steps| - 1;
      OwnBlobsRuns(h, job, w, steps[..n]);
      RunsAreSafe(h, job, w, steps[..n]);
      var v := Run(h, job, w, steps[..n]);
      OwnHereStaged(h, job, w.target, v);
      AllStagedStep(h, job, w.target, v, steps[n]);
      OwnStep(h, job, w.target, v, steps[n]);
    }
    AllStagedInTime(h, job, w.target, Run(h, job, w, steps));
  }

  lemma OwnHereStaged(h: Hash, job: Job, start: Target, w: World)
    requires Inv(h, job, start, w) && BlobsAreOwn(job, w)
    ensures forall e :: HereStaged(job, w, e)
  {
    hide ValidStore;
    hide Reached;
    hide RecordsGuarded;
    hide StagedIntact;
    hide Progress;
    hide Left;
    forall e | e in w.executors && w.executors[e].Running? ensures HereStaged(job, w, e) {
      assert ExecutorOk(h, job, w.target, w.store.byPlan[job.planId], w.executors[e]);
    }
  }

  // ---------- an outdated executor ----------

  lemma RunSnoc(h: Hash, job: Job, w: World, steps: seq<Step>, step: Step)
    requires Legal(h, job, w, steps) && Enabled(h, job, Run(h, job, w, steps), step)
    ensures Legal(h, job, w, steps + [step])
    ensures Run(h, job, w, steps + [step]) == Next(h, job, Run(h, job, w, steps), step)
  {
    assert (steps + [step])[..|steps|] == steps;
  }

  /** An import of one blob that the archive holds. */
  function OneBlob(path: string, d: string, bytes: Bytes): Job {
    Job("p", "e", [d], [], map[path := bytes])
  }

  const EMPTY := World(OpStore(map[], map[]), Target(map[], map[], Inventory([], map[]), {}), map[])

  function OperationAt(c: Checkpoint): Operation {
    Operation("o", "p", "e", "u", c, "", "", None)
  }

  /** The blob is in the target, and the operation is at this checkpoint. */
  function Midway(d: string, bytes: Bytes, c: Checkpoint, executors: map<int, Executor>): World {
    World(OpStore(map["p" := OperationAt(c)], map["o" := OperationAt(c)]),
          Target(map[], map[d := bytes], Inventory([], map[]), {}), executors)
  }

  /** The executor of the first plan has started; somebody else commits its blob; a later plan leaves it out. */
  lemma LaterPlanStarts(h: Hash, path: string, d: string, bytes: Bytes) returns (steps: seq<Step>)
    requires h(bytes) == d
    ensures Legal(h, OneBlob(path, d, bytes), EMPTY, steps)
    ensures Run(h, OneBlob(path, d, bytes), EMPTY, steps) ==
            Midway(d, bytes, Authorised,
                   map[0 := Running("o", NONE, Authorised, 0), 1 := Running("o", Present({d}, {}), Authorised, 0)])
  {
    var job := OneBlob(path, d, bytes);
    var s0, s1 := Start(0, NONE, "u", "", "o"), Other(Target(map[], map[d := bytes], Inventory([], map[]), {}));
    var s2 := Start(1, Present({d}, {}), "u", "", "q");
    hide Legal;
    hide Run;
    NoSteps(h, job, EMPTY);
    RunSnoc(h, job, EMPTY, [], s0);
    var w1 := Run(h, job, EMPTY, [] + [s0]);
    assert w1.executors == map[0 := Running("o", NONE, Authorised, 0)];
    RunSnoc(h, job, EMPTY, [] + [s0], s1);
    RunSnoc(h, job, EMPTY, [] + [s0] + [s1], s2);
    steps := [] + [s0] + [s1] + [s2];
  }

  lemma NoSteps(h: Hash, job: Job, w: World)
    ensures Legal(h, job, w, []) && Run(h, job, w, []) == w
  {
  }

  /** A stage without effects is over at once. */
  lemma EmptyStage(h: Hash, job: Job, d: string, bytes: Bytes, c: Checkpoint, x: map<int, Executor>, e: int)
    requires job.planId == "p" && e in x && x[e].Running? && x[e].op == "o" && x[e].finished == 0
    requires x[e].checkpoint != AuditCommitted && x[e].checkpoint != Completed
    requires Units(Left(job, x[e].here), x[e].checkpoint) == 0
    ensures var v := Next(h, job, Midway(d, bytes, c, x), Advance(e, ""));
            if c == x[e].checkpoint
            then v == Midway(d, bytes, After(c), x[e := Resume(OperationAt(After(c)), x[e].here)])
            else v == Midway(d, bytes, c, x[e := Resume(OperationAt(c), x[e].here)])
  {
    hide Left;
  }

  /** From there the first executor gets past staging without having staged its blob. */
  lemma FirstPlanOutdated(h: Hash, path: string, d: string, bytes: Bytes) returns (steps: seq<Step>)
    requires h(bytes) == d
    ensures Legal(h, OneBlob(path, d, bytes), EMPTY, steps)
    ensures Outdated(OneBlob(path, d, bytes), Run(h, OneBlob(path, d, bytes), EMPTY, steps), 0)
  {
    var job := OneBlob(path, d, bytes);
    var here := Present({d}, {});
    steps := LaterPlanStarts(h, path, d, bytes);
    hide Legal;
    hide Run;
    hide Next;
    assert [d][..0] == [] && BlobsLeft([d], {d}) == [];
    assert d in Left(job, NONE).blobs;
    hide Left;
    var x := map[0 := Running("o", NONE, Authorised, 0), 1 := Running("o", here, Authorised, 0)];
    EmptyStage(h, job, d, bytes, Authorised, x, 1);
    RunSnoc(h, job, EMPTY, steps, Advance(1, ""));
    steps := steps + [Advance(1, "")];
    x := x[1 := Running("o", here, TargetRevalidated, 0)];
    EmptyStage(h, job, d, bytes, TargetRevalidated, x, 1);
    RunSnoc(h, job, EMPTY, steps, Advance(1, ""));
    steps := steps + [Advance(1, "")];
    x := x[1 := Running("o", here, TemporaryBlobsStaged, 0)];
    EmptyStage(h, job, d, bytes, TemporaryBlobsStaged, x, 0);
    RunSnoc(h, job, EMPTY, steps, Advance(0, ""));
    steps := steps + [Advance(0, "")];
  }

  lemma OneBlobIntact(h: Hash, d: string, bytes: Bytes)
    requires h(bytes) == d && IsHexDigest(d)
    ensures Intact(h, OneBlob(BlobArchivePath(d).value, d, bytes))
    ensures Initial(OneBlob(BlobArchivePath(d).value, d, bytes), EMPTY)
  {
  }

  /** With an intact archive, and in a run that leaves it so, an executor fails because its plan is outdated. */
  lemma IntactButFails(h: Hash, d: string, bytes: Bytes) returns (job: Job, steps: seq<Step>)
    requires h(bytes) == d && IsHexDigest(d)
    ensures Intact(h, job) && Initial(job, EMPTY) && Legal(h, job, EMPTY, steps)
    ensures var v := Run(h, job, EMPTY, steps); 0 in v.executors && v.executors[0].Failed?
  {
    var path := BlobArchivePath(d).value;
    job := OneBlob(path, d, bytes);
    OneBlobIntact(h, d, bytes);
    hide Intact;
    steps := FirstPlanOutdated(h, path, d, bytes);
    RunsAreSafe(h, job, EMPTY, steps);
    hide Inv;
    hide Outdated;
    hide Legal;
    hide Run;
    var rest := OutdatedFails(h, job, EMPTY.target, Run(h, job, EMPTY, steps), 0);
    RunBoth(h, job, EMPTY, steps, rest);
    steps := steps + rest;
  }

  lemma {:induction false} RunBoth(h: Hash, job: Job, w: World, a: seq<Step>, b: seq<Step>)
    requires Legal(h, job, w, a) && Legal(h, job, Run(h, job, w, a), b)
    ensures Legal(h, job, w, a + b) && Run(h, job, w, a + b) == Run(h, job, Run(h, job, w, a), b)
  {
    hide Enabled;
    hide Next;
    if b == [] {
      assert a + b == a;
    } else {
      var n := |b| - 1;
      RunBoth(h, job, w, a, b[..n]);
      assert a + b == a + b[..n] + [b[n]];
      RunSnoc(h, job, w, a + b[..n], b[n]);
    }
  }
}
