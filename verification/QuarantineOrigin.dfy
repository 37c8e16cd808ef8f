/**
 Where scan records and verdicts come from, in every run (packages/operations/src/quarantine-scan.ts): a record from
 a queueing call, a verdict from an authentic callback of its own workspace.
 */
module QuarantineOrigin {
  import opened Base
  import opened Quarantine

  /** The run received an authentic callback with this outcome. */
  ghost predicate Delivered(steps: seq<Step>, job: string, workspaceId: string, outcome: Outcome) {
    exists i :: 0 <= i < |steps| && steps[i].Receive? && steps[i].callback == Callback(job, workspaceId, outcome, true)
  }

  /** The run had a call that queued this scan. */
  ghost predicate Queued(steps: seq<Step>, r: Record) {
    exists i :: 0 <= i < |steps| &&
      steps[i] == Queue(r.scanJobId, r.workspaceId, r.uploadId, r.storageKey, r.createdAt)
  }

  ghost predicate Backed(steps: seq<Step>, r: Record) {
    && Queued(steps, r)
    && (r.outcome.Some? ==> Delivered(steps, r.scanJobId, r.workspaceId, r.outcome.value))
  }

  ghost predicate BackedCall(steps: seq<Step>, p: Pending) {
    && Backed(steps, p.record) && p.callback.scanJobId == p.record.scanJobId
    && p.callback.workspaceId == p.record.workspaceId
    && Delivered(steps, p.callback.scanJobId, p.callback.workspaceId, p.callback.outcome)
  }

  ghost predicate AllBacked(steps: seq<Step>, w: World) {
    && (forall job :: job in w.records ==> Backed(steps, w.records[job]))
    && (forall job :: job in w.looking ==> Backed(steps, w.looking[job]))
    && (forall job :: job in w.queueing ==> Backed(steps, w.queueing[job]))
    && (forall c :: c in w.pending ==> BackedCall(steps, w.pending[c]))
    && (forall t :: t in w.promoting ==> Backed(steps, w.promoting[t].record))
  }

  lemma BackedOn(steps: seq<Step>, step: Step, r: Record)
    requires Backed(steps, r)
    ensures Backed(steps + [step], r)
  {
    var longer := steps + [step];
    var i :| 0 <= i < |steps| && steps[i] == Queue(r.scanJobId, r.workspaceId, r.uploadId, r.storageKey, r.createdAt);
    assert longer[i] == steps[i];
    if r.outcome.Some? {
      DeliveredOn(steps, step, r.scanJobId, r.workspaceId, r.outcome.value);
    }
  }

  lemma DeliveredOn(steps: seq<Step>, step: Step, job: string, workspaceId: string, outcome: Outcome)
    requires Delivered(steps, job, workspaceId, outcome)
    ensures Delivered(steps + [step], job, workspaceId, outcome)
  {
    var i :| 0 <= i < |steps| && steps[i].Receive? &&
      steps[i].callback == Callback(job, workspaceId, outcome, true);
    assert (steps + [step])[i] == steps[i];
  }

  lemma AllBackedOn(steps: seq<Step>, step: Step, w: World)
    requires AllBacked(steps, w)
    ensures AllBacked(steps + [step], w)
  {
    hide Backed;
    hide Delivered;
    forall r | Backed(steps, r) ensures Backed(steps + [step], r) {
      BackedOn(steps, step, r);
    }
    forall c | c in w.pending ensures BackedCall(steps + [step], w.pending[c]) {
      var cb := w.pending[c].callback;
      DeliveredOn(steps, step, cb.scanJobId, cb.workspaceId, cb.outcome);
    }
  }

  /** The same scan in another state, with the same verdict. */
  lemma SameBacking(steps: seq<Step>, a: Record, b: Record)
    requires Backed(steps, a) && b == a.(state := b.state, updatedAt := b.updatedAt)
    ensures Backed(steps, b)
  {
  }

  /** What a step takes hold of is backed, by what was there before or by the step itself. */
  lemma StepBacked(steps: seq<Step>, w: World, step: Step)
    requires Inv(w) && Enabled(w, step) && AllBacked(steps, w)
    requires |steps| > 0 && steps[|steps| - 1] == step
    ensures AllBacked(steps, Next(w, step))
  {
    hide Inv;
    hide AllBacked;
    hide Enabled;
    hide Next;
    match step {
      case Queue(_, _, _, _, _) => QueueBacked(steps, w, step);
      case Receive(_, _) => ReceiveBacked(steps, w, step);
      case Conclude(c, now) => ConcludeBacked(steps, w, c, now);
      case FinishQueue(job, now) => SaveBacked(steps, w, step);
      case SaveVerdict(c) => SaveBacked(steps, w, step);
      case SavePending(t, now) => SaveBacked(steps, w, step);
      case SavePromoted(t, now) => SaveBacked(steps, w, step);
      case _ => PlainBacked(steps, w, step);
    }
  }

  /** The steps that hand on or forget what is backed already. */
  lemma PlainBacked(steps: seq<Step>, w: World, step: Step)
    requires Enabled(w, step) && AllBacked(steps, w) && (step.WriteQueued? || step.Promote? || step.Restart?)
    ensures AllBacked(steps, Next(w, step))
  {
    hide Backed;
    hide BackedCall;
  }

  /** The steps that save a record which a call holds. */
  lemma SaveBacked(steps: seq<Step>, w: World, step: Step)
    requires Enabled(w, step) && AllBacked(steps, w)
    requires step.FinishQueue? || step.SaveVerdict? || step.SavePending? || step.SavePromoted?
    ensures AllBacked(steps, Next(w, step))
  {
    hide Backed;
    hide Delivered;
    hide Saved;
    SavedKeepsCalls(w);
    match step {
      case FinishQueue(job, now) =>
        var r := w.queueing[job].(state := Scanning, updatedAt := now);
        SameBacking(steps, w.queueing[job], r);
        SavedBacked(steps, w, r);
      case SaveVerdict(c) => SavedBacked(steps, w, w.pending[c].record);
      case SavePending(t, now) =>
        var r := w.promoting[t].record.(state := PromotionPending, updatedAt := now);
        SameBacking(steps, w.promoting[t].record, r);
        SavedBacked(steps, w, r);
      case SavePromoted(t, now) =>
        var r := w.promoting[t].record.(state := Promoted, updatedAt := now);
        SameBacking(steps, w.promoting[t].record, r);
        SavedBacked(steps, w, r);
    }
  }

  lemma SavedKeepsCalls(w: World)
    ensures forall r :: Saved(w, r) == w.(records := Saved(w, r).records)
  {
    hide Save;
  }

  lemma SavedBacked(steps: seq<Step>, w: World, r: Record)
    requires AllBacked(steps, w) && Backed(steps, r)
    ensures AllBacked(steps, Saved(w, r))
  {
    hide Backed;
    hide BackedCall;
    hide LookUp;
  }

  lemma QueueBacked(steps: seq<Step>, w: World, step: Step)
    requires Enabled(w, step) && AllBacked(steps, w) && step.Queue?
    requires |steps| > 0 && steps[|steps| - 1] == step
    ensures AllBacked(steps, Next(w, step))
  {
    var r := Record(step.scanJobId, step.workspaceId, step.uploadId, step.storageKey, ScanQueued, None, step.now,
                    step.now);
    assert Backed(steps, r);
    hide Backed;
    hide BackedCall;
    hide LookUp;
  }

  lemma ReceiveBacked(steps: seq<Step>, w: World, step: Step)
    requires Inv(w) && Enabled(w, step) && AllBacked(steps, w) && step.Receive?
    requires |steps| > 0 && steps[|steps| - 1] == step
    ensures AllBacked(steps, Next(w, step))
  {
    hide Backed;
    var cb := step.callback;
    if Reads(w.records, cb).Ok? {
      assert Delivered(steps, cb.scanJobId, cb.workspaceId, cb.outcome);
      assert w.records[cb.scanJobId].scanJobId == cb.scanJobId;
    }
  }

  lemma ConcludeBacked(steps: seq<Step>, w: World, c: int, now: int)
    requires Inv(w) && Enabled(w, Conclude(c, now)) && AllBacked(steps, w)
    ensures AllBacked(steps, Next(w, Conclude(c, now)))
  {
    hide Delivered;
    hide Inv;
    hide AllBacked;
    assert BackedCall(steps, w.pending[c]) by {
      OneBacked(steps, w, c);
    }
    match Decide(w.processed, w.pending[c].callback, w.pending[c].record, now) {
      case Ok(Some(r)) =>
        assert Backed(steps, r);
        PendingBacked(steps, w, w.pending[c := Judged(w.pending[c].callback, r)], c);
      case _ => FewerBacked(steps, w, c);
    }
  }

  lemma OneBacked(steps: seq<Step>, w: World, c: int)
    requires AllBacked(steps, w) && c in w.pending
    ensures BackedCall(steps, w.pending[c])
  {
  }

  lemma PendingBacked(steps: seq<Step>, w: World, pending: map<int, Pending>, c: int)
    requires AllBacked(steps, w) && c in pending && pending == w.pending[c := pending[c]]
    requires BackedCall(steps, pending[c])
    ensures forall processed :: AllBacked(steps, w.(pending := pending, processed := processed))
  {
    hide BackedCall;
    hide Backed;
  }

  lemma FewerBacked(steps: seq<Step>, w: World, c: int)
    requires AllBacked(steps, w)
    ensures forall processed :: AllBacked(steps, w.(pending := w.pending - {c}, processed := processed))
  {
    hide BackedCall;
    hide Backed;
  }

  lemma {:induction false} RunsBacked(steps: seq<Step>)
    requires Legal(NOTHING, steps)
    ensures AllBacked(steps, Run(NOTHING, steps))
  {
    if steps != [] {
      var n := |steps| - 1;
      RunsBacked(steps[..n]);
      RunsKeep(NOTHING, steps[..n]);
      hide AllBacked;
      hide Inv;
      hide Enabled;
      hide Next;
      AllBackedOn(steps[..n], steps[n], Run(NOTHING, steps[..n]));
      assert steps[..n] + [steps[n]] == steps;
      StepBacked(steps, Run(NOTHING, steps[..n]), steps[n]);
    }
  }

  /**
   In every run from the empty store each record was queued as it stands, and its verdict was reported by an
   authentic callback for its job and workspace: a callback that is not authentic never leaves a verdict.
   */
  lemma VerdictsAreAuthentic(steps: seq<Step>, job: string)
    requires Legal(NOTHING, steps) && job in Run(NOTHING, steps).records
    ensures var r := Run(NOTHING, steps).records[job];
            && Queued(steps, r)
            && (r.outcome.Some? ==> Delivered(steps, job, r.workspaceId, r.outcome.value))
  {
    hide Run;
    hide Legal;
    hide Queued;
    hide Delivered;
    RunsBacked(steps);
    RunsKeep(NOTHING, steps);
  }
}
