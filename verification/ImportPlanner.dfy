/** The planner itself: the loops of planArchiveImport, proved to compute the plan of `ImportPlan`. */
module ImportPlanner {
  import opened Base
  import opened Records
  import opened Sorting
  import opened ImportTypes
  import opened ImportGraph
  import opened ImportPlan

  lemma MapAppend<T, U>(f: T -> U, a: seq<T>, b: seq<T>)
    ensures Map(f, a + b) == Map(f, a) + Map(f, b)
  {
  }

  lemma ConflictsAppend(mode: Mode, known: Known, a: seq<Action>, b: seq<Action>)
    ensures NoIdConflicts(mode, known, a + b) <==> NoIdConflicts(mode, known, a) && NoIdConflicts(mode, known, b)
    ensures Decidable(mode, known, a + b) <==> Decidable(mode, known, a) && Decidable(mode, known, b)
  {
    hide Decision;
    hide DecisionThrows;
    var s := a + b;
    assert forall i :: 0 <= i < |a| ==> s[i] == a[i];
    assert forall i :: 0 <= i < |b| ==> s[|a| + i] == b[i];
  }

  lemma KindActionsNext(env: Env, req: Request, known: Known, kind: Kind, i: nat)
    requires i < |Of(req.archive.records, kind)|
    ensures var action := RecordAction(env, req, kind, Of(req.archive.records, kind)[i], Mapped(env, req)[kind][i]);
            var d, some, more := Decided(req.mode, known), KindActions(env, req, kind, i),
                KindActions(env, req, kind, i + 1);
            && Map(d, more) == Map(d, some) + [d(action)]
            && (NoIdConflicts(req.mode, known, more) <==>
                NoIdConflicts(req.mode, known, some) && Decision(req.mode, known, action) != Blocked)
            && (Decidable(req.mode, known, more) <==>
                Decidable(req.mode, known, some) && !DecisionThrows(req.mode, known, action))
  {
    hide Mapped;
    hide RecordAction;
    hide Decision;
    hide DecisionThrows;
    var action := RecordAction(env, req, kind, Of(req.archive.records, kind)[i], Mapped(env, req)[kind][i]);
    assert KindActions(env, req, kind, i + 1) == KindActions(env, req, kind, i) + [action];
    MapAppend(Decided(req.mode, known), KindActions(env, req, kind, i), [action]);
    ConflictsAppend(req.mode, known, KindActions(env, req, kind, i), [action]);
    assert NoIdConflicts(req.mode, known, [action]) <==> Decision(req.mode, known, [action][0]) != Blocked;
    assert Decidable(req.mode, known, [action]) <==> !DecisionThrows(req.mode, known, [action][0]);
  }

  lemma {:induction false} StillThrows(env: Env, req: Request, known: Known, kind: Kind, i: nat, n: nat)
    requires i <= n <= |Of(req.archive.records, kind)| && !Decidable(req.mode, known, KindActions(env, req, kind, i))
    ensures !Decidable(req.mode, known, KindActions(env, req, kind, n))
  {
    hide Mapped;
    hide RecordAction;
    hide DecisionThrows;
    var some, all := KindActions(env, req, kind, i), KindActions(env, req, kind, n);
    assert forall j :: 0 <= j < i ==> all[j] == some[j];
  }

  /** The actions of one kind, decided; not `ok` where the source throws. */
  method PlanRecords(env: Env, req: Request, known: Known, kind: Kind, before: seq<Issue>)
    returns (actions: seq<Action>, issues: seq<Issue>, ok: bool)
    ensures ok <==>
            KindPlannable(env, req, kind)
            && Decidable(req.mode, known, KindActions(env, req, kind, |Of(req.archive.records, kind)|))
    ensures before <= issues
    ensures ok ==>
              var all := KindActions(env, req, kind, |Of(req.archive.records, kind)|);
              actions == Map(Decided(req.mode, known), all)
                && (issues == before <==> NoIdConflicts(req.mode, known, all))
  {
    hide Plannable;
    hide RecordAction;
    hide Decision;
    hide DecisionThrows;
    hide Mapped;
    hide Map;
    NoActionsNoConflicts(req.mode, known);
    hide NoIdConflicts;
    hide Decidable;
    var sources, records := Of(req.archive.records, kind), Mapped(env, req)[kind];
    actions, issues := [], before;
    for i := 0 to |sources|
      invariant forall j :: 0 <= j < i ==> Plannable(kind, sources[j], records[j])
      invariant before <= issues
      invariant actions == Map(Decided(req.mode, known), KindActions(env, req, kind, i))
      invariant issues == before <==> NoIdConflicts(req.mode, known, KindActions(env, req, kind, i))
      invariant Decidable(req.mode, known, KindActions(env, req, kind, i))
    {
      if !Plannable(kind, sources[i], records[i]) {
        return actions, issues, false;
      }
      KindActionsNext(env, req, known, kind, i);
      var action := RecordAction(env, req, kind, sources[i], records[i]);
      if DecisionThrows(req.mode, known, action) {
        StillThrows(env, req, known, kind, i + 1, |sources|);
        return actions, issues, false;
      }
      var disposition := Decision(req.mode, known, action);
      if disposition == Blocked {
        issues := issues + [IdConflict];
      }
      actions := actions + [action.(disposition := disposition)];
    }
    ok := true;
  }

  method PlanBlobs(env: Env, req: Request, known: Known) returns (actions: seq<Action>)
    ensures actions == Map(Decided(req.mode, known), BlobActions(env, Mapped(env, req)[Blobs]))
    ensures NoIdConflicts(req.mode, known, BlobActions(env, Mapped(env, req)[Blobs]))
    ensures Decidable(req.mode, known, BlobActions(env, Mapped(env, req)[Blobs]))
  {
    hide Mapped;
    actions := [];
    var blobs := Mapped(env, req)[Blobs];
    for i := 0 to |blobs|
      invariant actions == Map(Decided(req.mode, known), BlobActions(env, blobs[..i]))
      invariant NoIdConflicts(req.mode, known, BlobActions(env, blobs[..i]))
      invariant Decidable(req.mode, known, BlobActions(env, blobs[..i]))
    {
      assert blobs[..i + 1][..i] == blobs[..i];
      if HasText(blobs[i], "sha256") {
        var action := BlobAction(env, blobs[i]);
        var disposition := if action.targetId in known.blobs then AlreadyPresent else Insert;
        actions := actions + [action.(disposition := disposition)];
        ConflictsAppend(req.mode, known, BlobActions(env, blobs[..i]), [action]);
      }
    }
    assert blobs[..|blobs|] == blobs;
  }

  method CheckRequest(req: Request) returns (issues: seq<Issue>)
    ensures issues == [] <==> RequestOk(req)
  {
    issues := [];
    if !req.archive.valid {
      issues := issues + [ArchiveInvalid];
    }
    if Requested(req) == "" {
      issues := issues + [TargetWorkspaceRequired];
    }
    if ModeConflict(req) {
      issues := issues + [WorkspaceModeConflict];
    }
  }

  method CheckRecords(env: Env, req: Request, known: Known, before: seq<Issue>)
    returns (issues: seq<Issue>, threw: bool)
    ensures before <= issues && (threw <==> GraphThrows(Mapped(env, req)))
    ensures !threw && issues == before <==>
              && GraphOk(Mapped(env, req), Destination(req)) && RetentionOk(Mapped(env, req))
              && SchemasOk(Mapped(env, req), known.records)
  {
    hide GraphOk;
    hide RetentionOk;
    hide SchemasOk;
    hide Mapped;
    hide GraphThrows;
    var records := Mapped(env, req);
    issues, threw := ValidateGraph(records, Destination(req), before);
    if threw {
      return;
    }
    issues := ValidateRetentionAssignments(records, issues);
    issues := ValidateSchemaConflicts(records, known.records, issues);
  }

  /** All kinds in turn. */
  method PlanKinds(env: Env, req: Request, known: Known, before: seq<Issue>)
    returns (actions: seq<Action>, issues: seq<Issue>, ok: bool)
    ensures ok <==>
            (forall kind :: KindPlannable(env, req, kind))
              && Decidable(req.mode, known, RecordActions(env, req, |ALL_KINDS|))
    ensures before <= issues
    ensures ok ==>
              var all := RecordActions(env, req, |ALL_KINDS|);
              actions == Map(Decided(req.mode, known), all)
                && (issues == before <==> NoIdConflicts(req.mode, known, all))
  {
    hide KindPlannable;
    hide Decision;
    hide KindActions;
    hide DecisionThrows;
    NoActionsNoConflicts(req.mode, known);
    hide NoIdConflicts;
    hide Decidable;
    actions, issues := [], before;
    for k := 0 to |ALL_KINDS|
      invariant forall j :: 0 <= j < k ==> KindPlannable(env, req, ALL_KINDS[j])
      invariant before <= issues
      invariant actions == Map(Decided(req.mode, known), RecordActions(env, req, k))
      invariant issues == before <==> NoIdConflicts(req.mode, known, RecordActions(env, req, k))
      invariant Decidable(req.mode, known, RecordActions(env, req, k))
    {
      var kind := ALL_KINDS[k];
      var more, after, planned := PlanRecords(env, req, known, kind, issues);
      ghost var all := KindActions(env, req, kind, |Of(req.archive.records, kind)|);
      MapAppend(Decided(req.mode, known), RecordActions(env, req, k), all);
      ConflictsAppend(req.mode, known, RecordActions(env, req, k), all);
      if !planned {
        if !Decidable(req.mode, known, all) {
          KindsStillThrow(env, req, known, k + 1, |ALL_KINDS|);
        }
        return actions, after, false;
      }
      actions, issues := actions + more, after;
    }
    forall kind ensures KindPlannable(env, req, kind) {
      AllKindsComplete(kind);
    }
    ok := true;
  }

  lemma {:induction false} KindsStillThrow(env: Env, req: Request, known: Known, k: nat, n: nat)
    requires k <= n <= |ALL_KINDS| && !Decidable(req.mode, known, RecordActions(env, req, k))
    ensures !Decidable(req.mode, known, RecordActions(env, req, n))
  {
    hide KindActions;
    hide Decidable;
    hide NoIdConflicts;
    if k < n {
      KindsStillThrow(env, req, known, k, n - 1);
      var kind := ALL_KINDS[n - 1];
      ConflictsAppend(req.mode, known, RecordActions(env, req, n - 1),
                      KindActions(env, req, kind, |Of(req.archive.records, kind)|));
    }
  }

  lemma NoActionsNoConflicts(mode: Mode, known: Known)
    ensures NoIdConflicts(mode, known, []) && Decidable(mode, known, [])
  {
  }

  /** Computes the plan, and finds no issue exactly when the import is clean. */
  method PlanArchiveImport(env: Env, req: Request, known: Known)
    returns (r: Result<Plan, PlanError>, issues: seq<Issue>)
    ensures r == PlanOf(env, req, known)
    ensures r.Ok? ==> (issues == [] <==> Clean(env, req, known))
  {
    hide KindPlannable;
    hide GraphThrows;
    hide GraphOk;
    hide RetentionOk;
    hide SchemasOk;
    hide RequestOk;
    hide NoIdConflicts;
    hide Decidable;
    hide Mapped;
    hide BlobActions;
    hide RecordActions;
    issues := CheckRequest(req);
    var threw;
    issues, threw := CheckRecords(env, req, known, issues);
    if threw {
      return Err(Unplannable), issues;
    }
    var actions, after, ok := PlanKinds(env, req, known, issues);
    issues := after;
    ghost var records, blobs := RecordActions(env, req, |ALL_KINDS|), BlobActions(env, Mapped(env, req)[Blobs]);
    ConflictsAppend(req.mode, known, records, blobs);
    if !ok {
      return Err(Unplannable), issues;
    }
    var blobActions := PlanBlobs(env, req, known);
    MapAppend(Decided(req.mode, known), records, blobs);
    var ordered := Sort(Comparator(env.leq), actions + blobActions);
    r := Ok(Assembled(env, req, ordered, issues == []));
  }
}
