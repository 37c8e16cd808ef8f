/**
 The order of a plan (packages/archive/src/import-plan.ts: phases, dependencies, compareActions):
 which actions there are, and which wait for which.
 */
module ImportOrder {
  import opened Base
  import opened Text
  import opened Records
  import opened Sorting
  import opened ImportTypes
  import opened ImportGraph
  import opened ImportPlan

  // ---------- names ----------

  predicate NoColon(s: string) { ':' !in s }

  lemma KindNameNoColon(kind: ActionKind)
    ensures NoColon(ActionKindName(kind))
  {
    match kind
    case BlobBytes =>
    case RecordOf(k) =>
      match k {
        case Workspaces => case SchemaPackages => case Datasets => case Resources => case Revisions =>
        case RevisionBlobs => case Blobs => case Relations => case Tombstones => case AuditEvents => case Retention =>
      }
  }

  function ActionTag(kind: ActionKind): (t: (nat, char, char))
    ensures |ActionKindName(kind)| > 2 && t == Tag(ActionKindName(kind))
  {
    match kind
    case BlobBytes => (10, 'b', 'o')
    case RecordOf(k) => KindTag(k)
  }

  lemma ActionTagInjective(a: ActionKind, b: ActionKind)
    requires ActionTag(a) == ActionTag(b)
    ensures a == b
  {
    hide ActionKindName;
    if a.RecordOf? && b.RecordOf? {
      KindTagInjective(a.kind, b.kind);
    }
  }

  lemma ColonSplits(p: string, x: string, q: string, y: string)
    requires NoColon(p) && NoColon(q) && p + ":" + x == q + ":" + y
    ensures p == q && x == y
  {
    var s := p + ":" + x;
    assert s[|p|] == ':' && s[|q|] == ':';
    assert forall i :: 0 <= i < |p| ==> s[i] == p[i] && p[i] in p;
    assert forall i :: 0 <= i < |q| ==> s[i] == q[i] && q[i] in q;
    assert |p| == |q|;
    assert p == s[..|p|] && q == s[..|q|] && x == s[|p| + 1..] && y == s[|q| + 1..];
  }

  /** A dependency names at most one kind and id. */
  lemma NamesInjective(a: ActionKind, x: string, b: ActionKind, y: string)
    requires NameOf(a, x) == NameOf(b, y)
    ensures a == b && x == y
  {
    hide ActionKindName;
    KindNameNoColon(a);
    KindNameNoColon(b);
    ColonSplits(ActionKindName(a), x, ActionKindName(b), y);
    ActionTagInjective(a, b);
  }

  // ---------- what the actions of a plan are ----------

  /** An action made from the archive, whatever its index and disposition. */
  ghost predicate Planned(env: Env, req: Request, a: Action) {
    && a.phase == Phase(a.kind)
    && match a.kind
       case RecordOf(kind) =>
         && a.record.Some? && a.record.value in Mapped(env, req)[kind]
         && a.targetId == RecordId(env.hash, a.record.value) && a.dependsOn == SortedKeys(Needs(kind, a.record.value))
       case BlobBytes =>
         && a.record == None
         && exists blob :: blob in Mapped(env, req)[Blobs] && FromBlob(env, a, blob)
  }

  predicate FromBlob(env: Env, a: Action, blob: Record) {
    HasText(blob, "sha256") && a.targetId == blob["sha256"].s && a.sourceId == a.targetId
    && a.dependsOn == [NameOf(RecordOf(Blobs), RecordId(env.hash, blob))]
  }

  lemma KindActionsPlanned(env: Env, req: Request, kind: Kind, a: Action)
    requires a in KindActions(env, req, kind, |Of(req.archive.records, kind)|)
    ensures Planned(env, req, a)
  {
    hide Mapped;
    hide Needs;
    hide RecordId;
    var records := Mapped(env, req)[kind];
    var i :| 0 <= i < |Of(req.archive.records, kind)| &&
      a == RecordAction(env, req, kind, Of(req.archive.records, kind)[i], records[i]);
    assert records[i] in records;
  }

  lemma {:induction false} RecordActionsPlanned(env: Env, req: Request, n: nat, a: Action)
    requires n <= |ALL_KINDS| && a in RecordActions(env, req, n)
    ensures Planned(env, req, a)
  {
    hide Planned;
    if n > 0 {
      var kind := ALL_KINDS[n - 1];
      if a in RecordActions(env, req, n - 1) {
        RecordActionsPlanned(env, req, n - 1, a);
      } else {
        KindActionsPlanned(env, req, kind, a);
      }
    }
  }

  lemma {:induction false} BlobActionsFrom(env: Env, blobs: seq<Record>, a: Action)
    requires a in BlobActions(env, blobs)
    ensures a.kind == BlobBytes && a.phase == 45 && a.record == None
    ensures exists blob :: blob in blobs && FromBlob(env, a, blob)
  {
    if blobs != [] {
      var n := |blobs| - 1;
      if a in BlobActions(env, blobs[..n]) {
        BlobActionsFrom(env, blobs[..n], a);
        var blob :| blob in blobs[..n] && FromBlob(env, a, blob);
        assert blob in blobs;
      } else {
        assert FromBlob(env, a, blobs[n]);
      }
    }
  }

  lemma SkeletonPlanned(env: Env, req: Request, a: Action)
    requires a in Skeleton(env, req)
    ensures Planned(env, req, a)
  {
    hide RecordActions;
    hide BlobActions;
    hide FromBlob;
    hide Mapped;
    if a in RecordActions(env, req, |ALL_KINDS|) {
      RecordActionsPlanned(env, req, |ALL_KINDS|, a);
    } else {
      BlobActionsFrom(env, Mapped(env, req)[Blobs], a);
    }
  }

  /** The actions of a plan. */
  ghost function ActionsOf(env: Env, req: Request, known: Known): (actions: seq<Action>)
    ensures PlanOf(env, req, known).Ok? ==> actions == PlanOf(env, req, known).value.actions
  {
    Finished(Ordered(env, req, known), req.conflictMode == RejectOnError && !Clean(env, req, known))
  }

  /** Every action of the plan stands for an action of the archive, with its own index. */
  lemma ActionsPlanned(env: Env, req: Request, known: Known, i: nat)
    requires i < |ActionsOf(env, req, known)|
    ensures var a := ActionsOf(env, req, known)[i];
            && a.index == i && Planned(env, req, a)
            && a.(index := 0, disposition := Insert) in Skeleton(env, req)
  {
    hide Planned;
    hide Skeleton;
    hide Clean;
    hide Decision;
    var s := Ordered(env, req, known)[i];
    SkeletonPresent(env, req, known, i);
    var raw := s.(index := 0, disposition := Insert);
    SkeletonPlanned(env, req, raw);
    PlannedIgnores(env, req, raw, ActionsOf(env, req, known)[i]);
  }

  lemma PlannedIgnores(env: Env, req: Request, a: Action, b: Action)
    requires Planned(env, req, a) && b == a.(index := b.index, disposition := b.disposition)
    ensures Planned(env, req, b)
  {
    hide Mapped;
    hide Needs;
    hide RecordId;
    if a.kind == BlobBytes {
      var blob :| blob in Mapped(env, req)[Blobs] && FromBlob(env, a, blob);
      assert FromBlob(env, b, blob);
    }
  }

  /** Every skeleton action has index 0 and asks to insert. */
  lemma {:induction false} SkeletonPlain(env: Env, req: Request, a: Action)
    requires a in Skeleton(env, req)
    ensures a.index == 0 && a.disposition == Insert
  {
    hide Mapped;
    if a in RecordActions(env, req, |ALL_KINDS|) {
      RecordActionsPlain(env, req, |ALL_KINDS|, a);
    } else {
      BlobActionsPlain(env, Mapped(env, req)[Blobs], a);
    }
  }

  lemma {:induction false} RecordActionsPlain(env: Env, req: Request, n: nat, a: Action)
    requires n <= |ALL_KINDS| && a in RecordActions(env, req, n)
    ensures a.index == 0 && a.disposition == Insert
  {
    hide Mapped;
    if n > 0 && a in RecordActions(env, req, n - 1) {
      RecordActionsPlain(env, req, n - 1, a);
    }
  }

  lemma {:induction false} BlobActionsPlain(env: Env, blobs: seq<Record>, a: Action)
    requires a in BlobActions(env, blobs)
    ensures a.index == 0 && a.disposition == Insert
  {
    if blobs != [] && a in BlobActions(env, blobs[..|blobs| - 1]) {
      BlobActionsPlain(env, blobs[..|blobs| - 1], a);
    }
  }

  lemma SkeletonPresent(env: Env, req: Request, known: Known, i: nat)
    requires i < |Ordered(env, req, known)|
    ensures Ordered(env, req, known)[i].(index := 0, disposition := Insert) in Skeleton(env, req)
    ensures Ordered(env, req, known)[i] ==
            Decided(req.mode, known)(Ordered(env, req, known)[i].(index := 0, disposition := Insert))
  {
    hide Skeleton;
    hide Decision;
    var raw := Skeleton(env, req);
    var decided := Map(Decided(req.mode, known), raw);
    var sorted := Sort(Comparator(env.leq), decided);
    SameMembers(sorted, decided);
    assert sorted[i] in decided;
    var k :| 0 <= k < |decided| && decided[k] == sorted[i];
    SkeletonPlain(env, req, raw[k]);
    DecisionIgnores(req.mode, known, raw[k], sorted[i]);
    assert raw[k] == sorted[i].(index := 0, disposition := Insert);
  }

  lemma DecisionIgnores(mode: Mode, known: Known, a: Action, b: Action)
    requires a.kind == b.kind && a.targetId == b.targetId && a.record == b.record
    ensures Decision(mode, known, a) == Decision(mode, known, b)
  {
  }

  // ---------- dependency order ----------

  /** Action `i` names action `j` among the actions it waits for. */
  ghost predicate WaitsFor(actions: seq<Action>, i: nat, j: nat) {
    i < |actions| && j < |actions| && NameOf(actions[j].kind, actions[j].targetId) in actions[i].dependsOn
  }

  /** The one kind of dependency inside a phase: a revision and its parent. */
  predicate ParentLink(child: Action, parent: Action) {
    && child.kind == RecordOf(Revisions) && parent.kind == RecordOf(Revisions)
    && child.record.Some? && IsText(child.record.value, "parentRevisionId", parent.targetId)
  }

  lemma NeedNames(kind: Kind, r: Record, field: string, b: ActionKind, id: string)
    requires NameOf(b, id) in Need(kind, r, field)
    ensures b == RecordOf(kind) && IsText(r, field, id)
  {
    hide ActionKindName;
    NamesInjective(b, id, RecordOf(kind), r[field].s);
  }

  /** What a record waits for comes from an earlier phase, except a revision's parent. */
  lemma NeedsEarlier(kind: Kind, r: Record, b: ActionKind, id: string)
    requires NameOf(b, id) in Needs(kind, r)
    ensures Phase(b) < Phase(RecordOf(kind)) ||
            (kind == Revisions && b == RecordOf(Revisions) && IsText(r, "parentRevisionId", id))
  {
    hide Need;
    hide NameOf;
    var name := NameOf(b, id);
    match kind {
      case Datasets => NeedNames(SchemaPackages, r, "schemaPackageId", b, id);
      case Resources => NeedNames(Datasets, r, "datasetId", b, id);
      case Revisions => RevisionNeeds(r, b, id);
      case RevisionBlobs =>
        if name in Need(Revisions, r, "revisionId") { NeedNames(Revisions, r, "revisionId", b, id); }
        else { NeedNames(Blobs, r, "blobObjectId", b, id); }
      case Relations =>
        if name in Need(EndKind(r, "sourceKind"), r, "sourceId") {
          NeedNames(EndKind(r, "sourceKind"), r, "sourceId", b, id);
        } else {
          NeedNames(EndKind(r, "targetKind"), r, "targetId", b, id);
        }
      case Tombstones => NeedNames(Revisions, r, "priorRevisionId", b, id);
      case _ =>
    }
  }

  lemma RevisionNeeds(r: Record, b: ActionKind, id: string)
    requires NameOf(b, id) in Needs(Revisions, r)
    ensures Phase(b) < 60 || (b == RecordOf(Revisions) && IsText(r, "parentRevisionId", id))
  {
    hide Need;
    hide NameOf;
    var name := NameOf(b, id);
    if name in Need(Resources, r, "resourceId") {
      NeedNames(Resources, r, "resourceId", b, id);
    } else if name in Need(Datasets, r, "datasetId") {
      NeedNames(Datasets, r, "datasetId", b, id);
    } else if name in Need(SchemaPackages, r, "schemaPackageId") {
      NeedNames(SchemaPackages, r, "schemaPackageId", b, id);
    } else {
      NeedNames(Revisions, r, "parentRevisionId", b, id);
    }
  }

  lemma PhaseDrops(env: Env, req: Request, a: Action, b: Action)
    requires Planned(env, req, a) && Planned(env, req, b) && NameOf(b.kind, b.targetId) in a.dependsOn
    ensures b.phase < a.phase || ParentLink(a, b)
  {
    hide NameOf;
    hide Needs;
    hide Mapped;
    hide RecordId;
    match a.kind
    case RecordOf(kind) => NeedsEarlier(kind, a.record.value, b.kind, b.targetId);
    case BlobBytes =>
      var blob :| blob in Mapped(env, req)[Blobs] && FromBlob(env, a, blob);
      NamesInjective(b.kind, b.targetId, RecordOf(Blobs), RecordId(env.hash, blob));
  }

  lemma ComparatorOrder(leq: (string, string) -> bool)
    requires TotalPreorder(leq)
    ensures TotalPreorder(Comparator(leq))
  {
    var le := Comparator(leq);
    forall a, b ensures le(a, b) || le(b, a) {
      assert ActionLeq(leq, a, b) || ActionLeq(leq, b, a);
    }
    forall a, b, c | le(a, b) && le(b, c) ensures le(a, c) {
      LeqTransitive(leq, a, b, c);
    }
  }

  lemma LeqTransitive(leq: (string, string) -> bool, a: Action, b: Action, c: Action)
    requires TotalPreorder(leq) && ActionLeq(leq, a, b) && ActionLeq(leq, b, c)
    ensures ActionLeq(leq, a, c)
  {
    hide ActionKindName;
  }

  /** Actions of later index never have an earlier phase. */
  lemma PhasesAscend(env: Env, req: Request, known: Known, i: nat, j: nat)
    requires TotalPreorder(env.leq) && i < j < |ActionsOf(env, req, known)|
    ensures ActionsOf(env, req, known)[i].phase <= ActionsOf(env, req, known)[j].phase
  {
    hide Skeleton;
    hide Clean;
    hide Decision;
    hide ActionKindName;
    ComparatorOrder(env.leq);
    SortSorted(Comparator(env.leq), Map(Decided(req.mode, known), Skeleton(env, req)));
  }

  /** In every plan a dependency that names an action of the plan has a smaller index, except a revision's parent. */
  lemma DependencyOrder(env: Env, req: Request, known: Known, plan: Plan, i: nat, j: nat)
    requires TotalPreorder(env.leq) && PlanOf(env, req, known) == Ok(plan) && WaitsFor(plan.actions, i, j)
    ensures plan.actions[i].index == i && plan.actions[j].index == j
    ensures j < i || ParentLink(plan.actions[i], plan.actions[j])
  {
    hide Planned;
    hide TotalPreorder;
    hide Skeleton;
    hide ParentLink;
    hide Clean;
    hide AllPlannable;
    hide Ordered;
    hide NameOf;
    assert plan.actions == ActionsOf(env, req, known);
    hide ActionsOf;
    hide PlanOf;
    ActionsPlanned(env, req, known, i);
    ActionsPlanned(env, req, known, j);
    PhaseDrops(env, req, plan.actions[i], plan.actions[j]);
    if i < j {
      PhasesAscend(env, req, known, i, j);
    }
  }

  // ---------- every record has its action ----------

  lemma StableImage(env: Env, req: Request, kind: Kind, r: Record)
    requires AllPlannable(env, req) && kind != Retention && r in Mapped(env, req)[kind]
    ensures HasId(r)
  {
    hide Mapped;
    assert KindPlannable(env, req, kind);
    var k :| 0 <= k < |Mapped(env, req)[kind]| && Mapped(env, req)[kind][k] == r;
    assert Plannable(kind, Of(req.archive.records, kind)[k], r);
  }

  lemma {:induction false} InRecordActions(env: Env, req: Request, n: nat, k: nat, a: Action)
    requires k < n <= |ALL_KINDS|
    requires a in KindActions(env, req, ALL_KINDS[k], |Of(req.archive.records, ALL_KINDS[k])|)
    ensures a in RecordActions(env, req, n)
  {
    hide KindActions;
    if k < n - 1 {
      InRecordActions(env, req, n - 1, k, a);
    }
  }

  /** Every record of the archive has an action in the plan. */
  lemma ActionExists(env: Env, req: Request, known: Known, kind: Kind, k: nat) returns (i: nat)
    requires k < |Of(req.archive.records, kind)|
    ensures i < |ActionsOf(env, req, known)|
    ensures ActionsOf(env, req, known)[i].(index := 0, disposition := Insert) ==
            RecordAction(env, req, kind, Of(req.archive.records, kind)[k], Mapped(env, req)[kind][k])
  {
    hide RecordActions;
    hide BlobActions;
    hide RecordAction;
    hide Mapped;
    var all := KindActions(env, req, kind, |Of(req.archive.records, kind)|);
    var a := all[k];
    AllKindsComplete(kind);
    var n :| 0 <= n < |ALL_KINDS| && ALL_KINDS[n] == kind;
    InRecordActions(env, req, |ALL_KINDS|, n, a);
    SkeletonPlain(env, req, a);
    i := ActionAt(env, req, known, a);
  }

  /** Every skeleton action appears in the plan. */
  lemma ActionAt(env: Env, req: Request, known: Known, a: Action) returns (i: nat)
    requires a in Skeleton(env, req) && a.index == 0 && a.disposition == Insert
    ensures i < |ActionsOf(env, req, known)| && ActionsOf(env, req, known)[i].(index := 0, disposition := Insert) == a
  {
    hide Skeleton;
    hide Clean;
    hide Decision;
    var decided := Map(Decided(req.mode, known), Skeleton(env, req));
    var m :| 0 <= m < |Skeleton(env, req)| && Skeleton(env, req)[m] == a;
    var sorted := Ordered(env, req, known);
    SameMembers(sorted, decided);
    assert decided[m] in sorted;
    i :| 0 <= i < |sorted| && sorted[i] == decided[m];
  }
}
