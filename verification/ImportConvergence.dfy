/**
 Every completed import ends the same (packages/archive/src/import-executor.ts on the target of
 apps/trust-api/src/portability.ts): however often it was planned anew, crashed and resumed, the target differs
 from where the import started by exactly its blobs, records and audit mark.
 */
module ImportConvergence {
  import opened Base
  import opened Records
  import opened ImportTypes
  import opened ImportStore
  import opened ImportExecution

  /** The blobs of the import, as the archive holds them. */
  function PlannedBlobs(job: Job): map<string, Bytes> {
    map d | d in job.blobs && BlobOf(job, d).Some? :: BlobOf(job, d).value
  }

  /** What one import adds to a target, for blobs, records and audit marks. */
  ghost predicate Imported(job: Job, op: string, start: Target, t: Target) {
    && t.blobs == start.blobs + PlannedBlobs(job)
    && t.records == PutAll(start.records, job.writes)
    && t.audited == start.audited + {op}
  }

  /** The first plan was made against this target: nothing that it inserts is there. */
  ghost predicate Fresh(job: Job, start: Target) {
    && (forall d :: d in job.blobs ==> d !in start.blobs)
    && (forall k :: k in WriteMap(job.writes) ==> k !in start.records.byKey)
  }

  // ---------- writing what is left ----------

  lemma {:induction false} AllLeft(writes: seq<(Key, Record)>, here: set<Key>)
    requires forall i :: 0 <= i < |writes| ==> writes[i].0 !in here
    ensures WritesLeft(writes, here) == writes
  {
    if writes != [] {
      var n := |writes| - 1;
      AllLeft(writes[..n], here);
      assert WritesLeft(writes, here) == WritesLeft(writes[..n], here) + [writes[n]];
    }
  }

  /** What is left of the writes to a key is all of them. */
  lemma {:induction false} LeftValue(writes: seq<(Key, Record)>, here: set<Key>, k: Key)
    requires k in WriteMap(WritesLeft(writes, here))
    ensures k !in here && k in WriteMap(writes) && WriteMap(writes)[k] == WriteMap(WritesLeft(writes, here))[k]
  {
    if writes != [] {
      var n := |writes| - 1;
      var front := WritesLeft(writes[..n], here);
      if writes[n].0 in here {
        assert WritesLeft(writes, here) == front;
        LeftValue(writes[..n], here, k);
      } else {
        var left := WritesLeft(writes, here);
        assert left == front + [writes[n]] && left[..|left| - 1] == front;
        if writes[n].0 != k {
          LeftValue(writes[..n], here, k);
        }
      }
    }
  }

  /** Writing part of the records once more changes nothing. */
  lemma LeftAgain(inv: Inventory, writes: seq<(Key, Record)>, here: set<Key>)
    ensures PutAll(PutAll(inv, writes), WritesLeft(writes, here)) == PutAll(inv, writes)
  {
    hide PutAll;
    hide WriteMap;
    hide WritesLeft;
    hide ValidInventory;
    var once, left := PutAll(inv, writes), WritesLeft(writes, here);
    PutAllMap(inv, writes);
    PutAllMap(once, left);
    forall k | k in WriteMap(left) ensures k in once.byKey && once.byKey[k] == WriteMap(left)[k] {
      LeftValue(writes, here, k);
    }
    assert once.byKey + WriteMap(left) == once.byKey;
    WrittenKeys(left, once.byKey.Keys);
    PutAllOrder(once, left);
  }

  lemma WrittenKeys(writes: seq<(Key, Record)>, keys: set<Key>)
    requires forall k :: k in WriteMap(writes) ==> k in keys
    ensures forall w :: w in writes ==> w.0 in keys
  {
    WriteMapKeys(writes);
    hide WriteMap;
  }

  // ---------- nothing but the import ----------

  /** The blob is in the target with the archive's bytes. */
  predicate Placed(job: Job, t: Target, d: string) {
    d in t.blobs && BlobOf(job, d) == Some(t.blobs[d])
  }

  /** Every blob is from the start or from the archive, and none is lost. */
  ghost predicate BlobsBetween(job: Job, start: Target, t: Target) {
    && (forall d :: d in start.blobs ==> d in t.blobs)
    && (forall d :: d in t.blobs ==>
          (d in start.blobs && t.blobs[d] == start.blobs[d]) || (d in job.blobs && Placed(job, t, d)))
  }

  /** The records of the import are written. */
  ghost predicate Written(job: Job, start: Target, t: Target) {
    t.records == PutAll(start.records, job.writes)
  }

  /** Nothing but this import has changed the target since `start`. */
  ghost predicate Exact(job: Job, start: Target, t: Target, op: string, rank: nat) {
    && BlobsBetween(job, start, t) && (rank >= 4 ==> forall d :: d in job.blobs ==> Placed(job, t, d))
    && (t.records == start.records || Written(job, start, t)) && (rank >= 5 ==> Written(job, start, t))
    && start.audited <= t.audited <= start.audited + {op} && (rank >= 6 ==> op in t.audited)
  }

  /** What a plan leaves out of the import is in the target as the import puts it there. */
  ghost predicate HereExact(job: Job, start: Target, t: Target, here: Present) {
    && (forall d :: d in here.blobs && d in job.blobs ==> Placed(job, t, d))
    && ((exists k :: k in here.keys && k in WriteMap(job.writes)) ==> Written(job, start, t))
  }

  ghost predicate ExactProgress(job: Job, start: Target, t: Target, op: string, x: Executor) {
    x.Running? ==>
      && HereExact(job, start, t, x.here)
      && (x.checkpoint == StagedBlobsVerified ==> PlacedSoFar(job, Left(job, x.here).blobs, t, x.finished))
      && (x.checkpoint == ImmutableBlobsCommitted && x.finished > 0 ==> Written(job, start, t))
      && (x.checkpoint == MetadataCommitted && x.finished > 0 ==> op in t.audited)
  }

  ghost predicate PlacedSoFar(job: Job, blobs: seq<string>, t: Target, n: nat) {
    forall i :: 0 <= i < n && i < |blobs| ==> Placed(job, t, blobs[i])
  }

  ghost predicate ExactInv(h: Hash, job: Job, start: Target, w: World) {
    && Inv(h, job, start, w)
    && (job.planId !in w.store.byPlan ==> w.target == start)
    && (job.planId in w.store.byPlan ==>
          var op := w.store.byPlan[job.planId];
          && Exact(job, start, w.target, op.id, Rank(op.checkpoint))
          && forall e :: e in w.executors ==> ExactProgress(job, start, w.target, op.id, w.executors[e]))
  }

  ghost predicate ExactGrows(job: Job, start: Target, t: Target, t': Target) {
    && (forall d :: d in job.blobs && Placed(job, t, d) ==> Placed(job, t', d))
    && (Written(job, start, t) ==> Written(job, start, t'))
    && t.audited <= t'.audited
  }

  lemma ProgressGrows(job: Job, start: Target, t: Target, t': Target, op: string, x: Executor)
    requires ExactGrows(job, start, t, t') && ExactProgress(job, start, t, op, x)
    ensures ExactProgress(job, start, t', op, x)
  {
    hide Placed;
    hide Written;
    if x.Running? {
      var blobs := Left(job, x.here).blobs;
      assert forall d :: d in blobs ==> d in job.blobs;
      hide Left;
      assert forall i :: 0 <= i < |blobs| ==> blobs[i] in blobs;
    }
  }

  /** The records are written in full, whichever part of them a plan leaves to do. */
  lemma RecordsWrittenOut(job: Job, start: Target, t: Target, here: Present)
    requires HereExact(job, start, t, here) && (t.records == start.records || Written(job, start, t))
    ensures PutAll(t.records, Left(job, here).writes) == PutAll(start.records, job.writes)
  {
    hide PutAll;
    hide Placed;
    if Written(job, start, t) {
      LeftAgain(start.records, job.writes, here.keys);
    } else {
      WriteMapKeys(job.writes);
      AllLeft(job.writes, here.keys);
    }
  }

  /** A target changed in nothing but its staged blobs. */
  lemma ExactStaging(job: Job, start: Target, t: Target, t': Target, op: string, rank: nat)
    requires t' == t.(staged := t'.staged) && Exact(job, start, t, op, rank)
    ensures ExactGrows(job, start, t, t') && Exact(job, start, t', op, rank)
  {
  }

  lemma ExactCommit(h: Hash, job: Job, start: Target, t: Target, op: string, rank: nat, d: string)
    requires d in job.blobs && StagedIntact(h, job, t, op) && Exact(job, start, t, op, rank) && CommitBlob(t, op, d).Ok?
    ensures var t' := CommitBlob(t, op, d).value;
            ExactGrows(job, start, t, t') && Exact(job, start, t', op, rank) && Placed(job, t', d)
  {
    hide BlobOf;
    hide PutAll;
  }

  lemma ExactRecords(job: Job, start: Target, t: Target, op: string, rank: nat, here: Present)
    requires Exact(job, start, t, op, rank) && HereExact(job, start, t, here)
    ensures var t' := CommitMetadata(t, Left(job, here).writes);
            ExactGrows(job, start, t, t') && Exact(job, start, t', op, rank) && Written(job, start, t')
  {
    hide BlobOf;
    hide PutAll;
    hide Left;
    hide HereExact;
    RecordsWrittenOut(job, start, t, here);
  }

  lemma ExactAudit(job: Job, start: Target, t: Target, op: string, rank: nat)
    requires Exact(job, start, t, op, rank)
    ensures var t' := AppendAudit(t, op);
            ExactGrows(job, start, t, t') && Exact(job, start, t', op, rank) && op in t'.audited
  {
    hide BlobOf;
  }

  lemma ExactEffect(h: Hash, job: Job, start: Target, t: Target, op: string, rank: nat, x: Executor)
    requires x.Running? && x.op == op && x.finished < Units(Left(job, x.here), x.checkpoint)
    requires Rank(x.checkpoint) <= rank
    requires StagedIntact(h, job, t, op) && Exact(job, start, t, op, rank) && ExactProgress(job, start, t, op, x)
    requires Effect(h, Left(job, x.here), t, op, x.checkpoint, x.finished).Ok?
    ensures var t' := Effect(h, Left(job, x.here), t, op, x.checkpoint, x.finished).value;
            && ExactGrows(job, start, t, t') && Exact(job, start, t', op, rank)
            && ExactProgress(job, start, t', op, x.(finished := x.finished + 1))
  {
    hide BlobOf;
    hide StagedIntact;
    hide Exact;
    hide CommitMetadata;
    hide AppendAudit;
    hide CommitBlob;
    hide Placed;
    hide Written;
    hide HereExact;
    var mine := Left(job, x.here);
    var t' := Effect(h, mine, t, op, x.checkpoint, x.finished).value;
    assert forall d :: d in mine.blobs ==> d in job.blobs;
    match x.checkpoint {
      case StagedBlobsVerified =>
        assert mine.blobs[x.finished] in mine.blobs;
        ExactCommit(h, job, start, t, op, rank, mine.blobs[x.finished]);
      case ImmutableBlobsCommitted => ExactRecords(job, start, t, op, rank, x.here);
      case MetadataCommitted => ExactAudit(job, start, t, op, rank);
      case _ => ExactStaging(job, start, t, t', op, rank);
    }
    ProgressGrows(job, start, t, t', op, x);
    hide ExactGrows;
    hide Left;
  }

  /** A plan made against this target or an earlier one finds what the import has put there, and nothing older. */
  lemma HereFits(h: Hash, job: Job, start: Target, w: World, here: Present)
    requires ExactInv(h, job, start, w) && HereOk(h, job, w.target, here) && (here == NONE || Fresh(job, start))
    ensures HereExact(job, start, w.target, here)
  {
    hide Inv;
    hide PutAll;
    hide BlobOf;
  }

  lemma ExactStep(h: Hash, job: Job, start: Target, w: World, step: Step)
    requires ExactInv(h, job, start, w) && Enabled(h, job, w, step) && !step.Other?
    requires step.Start? ==> step.here == NONE || Fresh(job, start)
    ensures ExactInv(h, job, start, Next(h, job, w, step))
  {
    StepKeeps(h, job, start, w, step);
    if step.Advance? {
      hide Inv;
      InvOf(h, job, start, w, step.e);
      if w.executors[step.e].finished < Units(Left(job, w.executors[step.e].here), w.executors[step.e].checkpoint) {
        ExactEffectStep(h, job, start, w, step.e, step.at);
      } else {
        ExactAdvanceStep(h, job, start, w, step.e, step.at);
      }
    } else if step.Start? {
      HereFits(h, job, start, w, step.here);
      hide Inv;
      hide HereOk;
      hide Exact;
      hide HereExact;
      StartExact(job, start, w.target, step.here);
    }
  }

  lemma StartExact(job: Job, start: Target, t: Target, here: Present)
    requires HereExact(job, start, t, here)
    ensures forall op: Operation :: ExactProgress(job, start, t, op.id, Resume(op, here))
    ensures t == start ==> forall op :: Exact(job, start, t, op, 0)
  {
  }

  lemma InvOf(h: Hash, job: Job, start: Target, w: World, e: int)
    requires Inv(h, job, start, w) && e in w.executors
    ensures job.planId in w.store.byPlan
    ensures w.executors[e].Running? ==> ExecutorOk(h, job, w.target, w.store.byPlan[job.planId], w.executors[e])
    ensures StagedIntact(h, job, w.target, w.store.byPlan[job.planId].id) && ValidStore(w.store)
  {
  }

  lemma ExactEffectStep(h: Hash, job: Job, start: Target, w: World, e: int, at: string)
    requires ExactInv(h, job, start, w) && e in w.executors && w.executors[e].Running?
    requires w.executors[e].finished < Units(Left(job, w.executors[e].here), w.executors[e].checkpoint)
    ensures ExactInv(h, job, start, Work(h, job, w, e, at))
  {
    EffectKeeps(h, job, start, w, e, at);
    InvOf(h, job, start, w, e);
    hide Inv;
    hide Exact;
    hide ValidStore;
    hide StagedIntact;
    hide ExactGrows;
    hide Effect;
    hide Left;
    var x, op := w.executors[e], w.store.byPlan[job.planId];
    var w' := Work(h, job, w, e, at);
    assert ExactProgress(job, start, w.target, op.id, x);
    if Effect(h, Left(job, x.here), w.target, x.op, x.checkpoint, x.finished).Ok? {
      ExactEffect(h, job, start, w.target, op.id, Rank(op.checkpoint), x);
      hide ExactProgress;
      forall f | f in w'.executors ensures ExactProgress(job, start, w'.target, op.id, w'.executors[f]) {
        if f != e {
          ProgressGrows(job, start, w.target, w'.target, op.id, w.executors[f]);
        }
      }
    }
  }

  /** The stage that an executor has finished is finished for the whole import. */
  lemma ExactFinished(job: Job, start: Target, t: Target, op: string, rank: nat, x: Executor)
    requires x.Running? && x.finished == Units(Left(job, x.here), x.checkpoint) && x.checkpoint != Completed
    requires Exact(job, start, t, op, rank) && ExactProgress(job, start, t, op, x) && rank <= Rank(After(x.checkpoint))
    requires Rank(x.checkpoint) <= rank
    ensures Exact(job, start, t, op, Rank(After(x.checkpoint)))
  {
    hide Placed;
    hide Written;
    if x.checkpoint == StagedBlobsVerified {
      var mine := Left(job, x.here);
      assert forall d :: d in job.blobs ==> d in x.here.blobs || d in mine.blobs;
      hide Left;
      forall d | d in mine.blobs ensures Placed(job, t, d) {
        var i :| 0 <= i < |mine.blobs| && mine.blobs[i] == d;
      }
    }
  }

  lemma ExactAdvanceStep(h: Hash, job: Job, start: Target, w: World, e: int, at: string)
    requires ExactInv(h, job, start, w) && e in w.executors && w.executors[e].Running?
    requires w.executors[e].finished >= Units(Left(job, w.executors[e].here), w.executors[e].checkpoint)
    ensures ExactInv(h, job, start, Work(h, job, w, e, at))
  {
    InvOf(h, job, start, w, e);
    var x, op := w.executors[e], w.store.byPlan[job.planId];
    AdvanceKeeps(h, job, start, w, e, at);
    AdvanceKeepsStore(w.store, job.planId, x.checkpoint, at);
    hide Inv;
    hide ValidStore;
    hide AdvanceOp;
    hide Exact;
    hide StagedIntact;
    hide ExecutorOk;
    assert ExactProgress(job, start, w.target, op.id, x);
    StartExact(job, start, w.target, x.here);
    hide ExactProgress;
    hide HereExact;
    if op.checkpoint == x.checkpoint {
      ExactFinished(job, start, w.target, op.id, Rank(op.checkpoint), x);
    }
  }

  lemma {:induction false} RunsAreExact(h: Hash, job: Job, w: World, steps: seq<Step>)
    requires Initial(job, w) && Legal(h, job, w, steps) && forall i :: 0 <= i < |steps| ==> !steps[i].Other?
    requires Fresh(job, w.target) || forall i :: 0 <= i < |steps| && steps[i].Start? ==> steps[i].here == NONE
    ensures ExactInv(h, job, w.target, Run(h, job, w, steps))
  {
    hide Enabled;
    hide Fresh;
    if steps != [] {
      hide Next;
      hide ExactInv;
      hide Initial;
      var n := |steps| - 1;
      RunsAreExact(h, job, w, steps[..n]);
      ExactStep(h, job, w.target, Run(h, job, w, steps[..n]), steps[n]);
    }
  }

  lemma ExactAtEnd(job: Job, start: Target, t: Target, op: string)
    requires Exact(job, start, t, op, 7)
    ensures Imported(job, op, start, t)
  {
    assert t.blobs == start.blobs + PlannedBlobs(job);
  }

  /**
   However often executors crashed, resumed and overlapped, and however often the import was planned anew, a
   completed import leaves exactly the blobs, records and audit mark of its first plan in the target it started
   from. When a first plan was no longer up to date with that target, all executors have to use that one.
   */
  lemma CompletedRunsConverge(h: Hash, job: Job, w: World, steps: seq<Step>)
    requires Initial(job, w) && Legal(h, job, w, steps) && forall i :: 0 <= i < |steps| ==> !steps[i].Other?
    requires Fresh(job, w.target) || forall i :: 0 <= i < |steps| && steps[i].Start? ==> steps[i].here == NONE
    requires StoredRank(job, Run(h, job, w, steps)) == 7
    ensures Imported(job, Run(h, job, w, steps).store.byPlan[job.planId].id, w.target, Run(h, job, w, steps).target)
  {
    RunsAreExact(h, job, w, steps);
    hide Inv;
    var v := Run(h, job, w, steps);
    ExactAtEnd(job, w.target, v.target, v.store.byPlan[job.planId].id);
  }
}
