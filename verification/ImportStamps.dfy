/**
 What an import operation remembers (apps/trust-api/src/portability.ts): who asked for it and when never changes, and
 it has a time of completion exactly when it is completed.
 */
module ImportStamps {
  import opened Base
  import opened ImportStore
  import opened ImportExecution

  ghost predicate Stamped(s: OpStore) {
    forall id :: id in s.byId ==> (s.byId[id].completedAt.Some? <==> s.byId[id].checkpoint == Completed)
  }

  /** Operations stay, and only their progress changes. */
  ghost predicate Remembers(a: OpStore, b: OpStore) {
    forall id :: id in a.byId ==>
      && id in b.byId
      && b.byId[id] == a.byId[id].(checkpoint := b.byId[id].checkpoint, updatedAt := b.byId[id].updatedAt,
                                   completedAt := b.byId[id].completedAt)
  }

  lemma BeginStamps(s: OpStore, planId: string, exportId: string, actor: string, at: string, newId: string)
    requires Stamped(s) && newId !in s.byId
    ensures var (s', op) := BeginOp(s, planId, exportId, actor, at, newId);
            && Stamped(s') && Remembers(s, s')
            && (planId !in s.byPlan ==>
                  op == Operation(newId, planId, exportId, actor, Authorised, at, at, None) && newId in s'.byId)
  {
  }

  lemma AdvanceStamps(s: OpStore, id: string, planId: string, c: Checkpoint, at: string)
    requires ValidStore(s) && Stamped(s)
    ensures match AdvanceOp(s, id, planId, c, After(c), at)
            case Err(_) => id !in s.byId || s.byId[id].planId != planId
            case Ok((s', op)) =>
              && Stamped(s') && Remembers(s, s')
              && (if s.byId[id].checkpoint == c then op.checkpoint == After(c) && op.updatedAt == at else s' == s)
  {
  }

  lemma WorkStamps(h: Hash, job: Job, w: World, e: int, at: string)
    requires ValidStore(w.store) && Stamped(w.store) && e in w.executors && w.executors[e].Running?
    ensures Stamped(Work(h, job, w, e, at).store) && Remembers(w.store, Work(h, job, w, e, at).store)
  {
    hide Effect;
    hide Left;
    hide Stamped;
    hide ValidStore;
    var x := w.executors[e];
    AdvanceStamps(w.store, x.op, job.planId, x.checkpoint, at);
    hide AdvanceOp;
  }

  /** Over every run of interleaved and crashing executors. */
  lemma {:induction false} RunsStamp(h: Hash, job: Job, w: World, steps: seq<Step>)
    requires Initial(job, w) && Stamped(w.store) && Legal(h, job, w, steps)
    ensures Stamped(Run(h, job, w, steps).store) && Remembers(w.store, Run(h, job, w, steps).store)
  {
    if steps != [] {
      hide Initial;
      var n := |steps| - 1;
      var v := Run(h, job, w, steps[..n]);
      RunsStamp(h, job, w, steps[..n]);
      StoreStaysValid(h, job, w, steps[..n]);
      hide Stamped;
      hide ValidStore;
      hide HereOk;
      hide Tolerates;
      match steps[n] {
        case Start(_, _, actor, at, newId) => BeginStamps(v.store, job.planId, job.exportId, actor, at, newId);
        case Advance(e, at) => WorkStamps(h, job, v, e, at);
        case _ =>
      }
      hide BeginOp;
      hide Work;
      Remembered(w.store, v.store, Next(h, job, v, steps[n]).store);
    }
  }

  lemma Remembered(a: OpStore, b: OpStore, c: OpStore)
    ensures Remembers(b, b)
    ensures Remembers(a, b) && Remembers(b, c) ==> Remembers(a, c)
  {
  }

  lemma StoreStaysValid(h: Hash, job: Job, w: World, steps: seq<Step>)
    requires Initial(job, w) && Legal(h, job, w, steps)
    ensures ValidStore(Run(h, job, w, steps).store)
  {
    hide Initial;
    hide Legal;
    hide Run;
    RunsAreSafe(h, job, w, steps);
  }
}
