/**
 What a plan says and when it may be executed (packages/archive/src/import-plan.ts: the actions and their counts;
 packages/archive/src/import-executor.ts: validateInput).
 */
module ImportActions {
  import opened Base
  import opened Records
  import opened Sorting
  import opened ImportTypes
  import opened ImportGraph
  import opened ImportPlan
  import opened ImportOrder
  import opened ImportReplan
  import opened ImportExecutor

  // ---------- counts ----------

  ghost function Positions(actions: seq<Action>, d: Disposition): set<nat> {
    set i: nat | i < |actions| && actions[i].disposition == d
  }

  lemma {:induction false} CountIs(actions: seq<Action>, d: Disposition)
    ensures CountOf(actions, d) == |Positions(actions, d)|
  {
    if actions != [] {
      var n := |actions| - 1;
      CountIs(actions[..n], d);
      var front := Positions(actions[..n], d);
      assert Positions(actions, d) == if actions[n].disposition == d then front + {n} else front;
    }
  }

  lemma {:induction false} CountsAddUp(actions: seq<Action>)
    ensures var t := Tally(actions);
            t.insert + t.alreadyPresent + t.blocked == |actions|
  {
    if actions != [] {
      CountsAddUp(actions[..|actions| - 1]);
    }
  }

  /** The counts are the numbers of actions by disposition, and every action is counted once. */
  lemma CountsTell(env: Env, req: Request, known: Known, plan: Plan)
    requires PlanOf(env, req, known) == Ok(plan)
    ensures plan.counts == Counts(|Positions(plan.actions, Insert)|, |Positions(plan.actions, AlreadyPresent)|,
                                  |Positions(plan.actions, Blocked)|)
    ensures plan.counts.insert + plan.counts.alreadyPresent + plan.counts.blocked == |plan.actions|
  {
    hide Skeleton;
    hide Clean;
    hide Ordered;
    hide AllPlannable;
    CountIs(plan.actions, Insert);
    CountIs(plan.actions, AlreadyPresent);
    CountIs(plan.actions, Blocked);
    CountsAddUp(plan.actions);
    hide Positions;
    hide CountOf;
    assert plan.counts == Tally(plan.actions);
  }

  /** What execution reports as inserted records is the number of its writes. */
  lemma {:induction false} InsertedAreWrites(actions: seq<Action>)
    requires forall i :: 0 <= i < |actions| && actions[i].kind.RecordOf? ==> actions[i].record.Some?
    ensures InsertedRecords(actions) == |Writes(actions)|
  {
    if actions != [] {
      InsertedAreWrites(actions[..|actions| - 1]);
    }
  }

  // ---------- where actions come from ----------

  /** The action carries the image of record `k` and the ids of both. */
  ghost predicate ComesFrom(env: Env, req: Request, a: Action, kind: Kind, k: nat) {
    && k < |Of(req.archive.records, kind)|
    && var source, image := Of(req.archive.records, kind)[k], Mapped(env, req)[kind][k];
       && a.kind == RecordOf(kind) && a.record == Some(image)
       && (HasId(image) ==> a.targetId == image["id"].s)
       && if TakenAsIs(req.mode, kind) then a.sourceId == req.archive.workspaceId
          else HasId(source) ==> a.sourceId == source["id"].s
  }

  lemma RecordActionComesFrom(env: Env, req: Request, kind: Kind, k: nat, a: Action)
    requires k < |Of(req.archive.records, kind)|
    requires a == RecordAction(env, req, kind, Of(req.archive.records, kind)[k], Mapped(env, req)[kind][k])
                  .(index := a.index, disposition := a.disposition)
    ensures ComesFrom(env, req, a, kind, k)
  {
    hide Mapped;
    hide Needs;
  }

  lemma {:induction false} RecordActionsComeFrom(env: Env, req: Request, n: nat, a: Action)
    requires n <= |ALL_KINDS| && a in RecordActions(env, req, n)
    ensures exists kind, k :: ComesFrom(env, req, a, kind, k)
  {
    hide ComesFrom;
    hide RecordAction;
    hide Mapped;
    if n > 0 {
      if a in RecordActions(env, req, n - 1) {
        RecordActionsComeFrom(env, req, n - 1, a);
      } else {
        var kind := ALL_KINDS[n - 1];
        var all := KindActions(env, req, kind, |Of(req.archive.records, kind)|);
        var k :| 0 <= k < |all| && all[k] == a;
        RecordActionComesFrom(env, req, kind, k, a);
      }
    }
  }

  /** Every record of the archive has an action in the plan. */
  lemma RecordHasAction(env: Env, req: Request, known: Known, plan: Plan, kind: Kind, k: nat)
    requires PlanOf(env, req, known) == Ok(plan) && k < |Of(req.archive.records, kind)|
    ensures exists i :: 0 <= i < |plan.actions| && ComesFrom(env, req, plan.actions[i], kind, k)
  {
    hide *;
    var i := ActionExists(env, req, known, kind, k);
    var actions := ActionsOf(env, req, known);
    RecordActionComesFrom(env, req, kind, k, actions[i]);
  }

  /** Every action that writes a record comes from a record of the archive. */
  lemma ActionHasRecord(env: Env, req: Request, known: Known, plan: Plan, i: nat)
    requires PlanOf(env, req, known) == Ok(plan) && i < |plan.actions| && plan.actions[i].kind.RecordOf?
    ensures exists kind, k :: ComesFrom(env, req, plan.actions[i], kind, k)
  {
    hide *;
    var actions := ActionsOf(env, req, known);
    ActionsPlanned(env, req, known, i);
    var raw := actions[i].(index := 0, disposition := Insert);
    RecordInSkeleton(env, req, raw);
    RecordActionsComeFrom(env, req, |ALL_KINDS|, raw);
    var kind, k :| ComesFrom(env, req, raw, kind, k);
    OriginIgnores(env, req, raw, actions[i], kind, k);
  }

  lemma RecordInSkeleton(env: Env, req: Request, a: Action)
    requires a in Skeleton(env, req) && a.kind.RecordOf?
    ensures a in RecordActions(env, req, |ALL_KINDS|)
  {
    hide RecordActions;
    hide BlobActions;
    hide Mapped;
    if a in BlobActions(env, Mapped(env, req)[Blobs]) {
      BlobActionsFrom(env, Mapped(env, req)[Blobs], a);
    }
  }

  lemma OriginIgnores(env: Env, req: Request, a: Action, b: Action, kind: Kind, k: nat)
    requires ComesFrom(env, req, a, kind, k) && b == a.(index := b.index, disposition := b.disposition)
    ensures ComesFrom(env, req, b, kind, k)
  {
    hide Mapped;
  }

  /** How many records the first `n` kinds have. */
  function Total(records: RecordSet, n: nat): nat
    requires n <= |ALL_KINDS|
  {
    if n == 0 then 0 else Total(records, n - 1) + |Of(records, ALL_KINDS[n - 1])|
  }

  lemma {:induction false} ActionPerRecord(env: Env, req: Request, n: nat)
    requires n <= |ALL_KINDS|
    ensures |RecordActions(env, req, n)| == Total(req.archive.records, n)
  {
    hide Mapped;
    hide RecordAction;
    if n > 0 {
      ActionPerRecord(env, req, n - 1);
    }
  }

  /** How many of some records name the digest of their bytes. */
  function WithDigest(blobs: seq<Record>): nat {
    if blobs == [] then 0
    else WithDigest(blobs[..|blobs| - 1]) + if HasText(blobs[|blobs| - 1], "sha256") then 1 else 0
  }

  lemma {:induction false} ActionPerBlob(env: Env, blobs: seq<Record>)
    ensures |BlobActions(env, blobs)| == WithDigest(blobs)
  {
    if blobs != [] {
      ActionPerBlob(env, blobs[..|blobs| - 1]);
    }
  }

  /** A plan has one action for each record and one for the bytes of each blob with a digest. */
  lemma ActionsAreComplete(env: Env, req: Request, known: Known, plan: Plan)
    requires PlanOf(env, req, known) == Ok(plan)
    ensures |plan.actions| == Total(req.archive.records, |ALL_KINDS|) + WithDigest(Mapped(env, req)[Blobs])
  {
    hide Mapped;
    hide Clean;
    hide AllPlannable;
    hide BlobActions;
    hide RecordActions;
    ActionPerRecord(env, req, |ALL_KINDS|);
    ActionPerBlob(env, Mapped(env, req)[Blobs]);
    OrderedFromSkeleton(env, req, known);
    SameMembers(Sort(Comparator(env.leq), Skeleton(env, req)), Skeleton(env, req));
  }

  // ---------- which plans may be executed ----------

  lemma {:induction false} NoneBlocked(actions: seq<Action>)
    ensures CountOf(actions, Blocked) == 0 <==> forall i :: 0 <= i < |actions| ==> actions[i].disposition != Blocked
  {
    if actions != [] {
      NoneBlocked(actions[..|actions| - 1]);
    }
  }

  /** A plan that counts its own actions is accepted exactly when this holds. */
  lemma AcceptedMeans(hash: string -> string, archive: Archive, plan: Plan)
    requires plan.counts == Tally(plan.actions)
    ensures ValidateInput(hash, archive, plan) == None <==>
            && archive.valid && plan.status == Ready
            && (forall i :: 0 <= i < |plan.actions| ==> plan.actions[i].disposition != Blocked)
            && plan.archiveExportId == archive.exportId && plan.sourceWorkspaceId == archive.workspaceId
            && plan.planId == PlanId(hash, archive, plan.sourceWorkspaceId, plan.targetWorkspaceId, plan.mode,
                                     plan.conflictMode, plan.actions)
  {
    hide PlanId;
    NoneBlocked(plan.actions);
  }

  /** Of the plans made from an archive exactly the ready ones are accepted for it. */
  lemma ReadyIsAccepted(env: Env, req: Request, known: Known, plan: Plan)
    requires PlanOf(env, req, known) == Ok(plan)
    ensures ValidateInput(env.hash, req.archive, plan) == None <==> plan.status == Ready
    ensures plan.status == Ready <==> req.conflictMode == RejectOnError && Clean(env, req, known)
    ensures plan.status == Ready ==> req.archive.valid
  {
    hide PlanId;
    hide Skeleton;
    hide AllPlannable;
    hide Ordered;
    hide GraphOk;
    hide RetentionOk;
    hide SchemasOk;
    hide NoIdConflicts;
    hide ModeConflict;
    if plan.status == Ready {
      ReadyNotBlocked(env, req, known, plan);
      hide Clean;
      NoneBlocked(plan.actions);
    }
  }

  lemma ReadyNotBlocked(env: Env, req: Request, known: Known, plan: Plan)
    requires ReadyPlan(env, req, known, plan)
    ensures forall i :: 0 <= i < |plan.actions| ==> plan.actions[i].disposition != Blocked
  {
    hide ReadyPlan;
    hide Skeleton;
    hide Decision;
    hide Planned;
    hide Clean;
    forall i | 0 <= i < |plan.actions| ensures plan.actions[i].disposition != Blocked {
      ActionDecided(env, req, known, plan, i);
      ReadyIsClean(env, req, known, plan);
      var raw := plan.actions[i].(index := 0, disposition := Insert);
      NotBlocked(env, req, known, raw);
      DecisionIgnores(req.mode, known, raw, plan.actions[i]);
    }
  }

  /** A plan of an import that is not clean, under the strict mode, inserts nothing. */
  lemma RejectedInsertsNothing(env: Env, req: Request, known: Known, plan: Plan)
    requires PlanOf(env, req, known) == Ok(plan) && plan.status == Rejected
    ensures !Clean(env, req, known) && Writes(plan.actions) == [] && BlobsToInsert(plan.actions) == []
  {
    hide Skeleton;
    hide AllPlannable;
    hide Ordered;
    hide Clean;
    NothingInserted(plan.actions);
  }

  lemma {:induction false} NothingInserted(actions: seq<Action>)
    requires forall i :: 0 <= i < |actions| ==> actions[i].disposition != Insert
    ensures Writes(actions) == [] && BlobsToInsert(actions) == []
  {
    if actions != [] {
      NothingInserted(actions[..|actions| - 1]);
    }
  }
}
