/**
 Importing again (packages/archive/src/import-plan.ts planning, then the writes that
 apps/trust-api/src/portability.ts commits): executing a ready plan only adds to the target,
 and planning the same archive against the result finds everything in place.
 */
module ImportReplan {
  import opened Base
  import opened Text
  import opened Json
  import opened Records
  import opened Sorting
  import opened ImportTypes
  import opened ImportGraph
  import opened ImportMapping
  import opened ImportPlan
  import opened ImportOrder
  import opened ImportPreserved
  import opened ImportCycles

  predicate SameKey(a: Action, b: Action) {
    a.kind.RecordOf? && a.kind == b.kind && a.targetId == b.targetId
  }

  /** Actions that write under one key write the same record. */
  ghost predicate Consistent(env: Env, req: Request) {
    forall a, b :: a in Skeleton(env, req) && b in Skeleton(env, req) && SameKey(a, b) ==> a.record == b.record
  }

  /** Archive schemas of one identity have one digest. */
  ghost predicate SchemasAgree(schemas: seq<Record>) {
    forall a, b :: a in schemas && b in schemas && SameSchema(a, b) ==>
      Identical(Prop(a, "schemaDigest"), Prop(b, "schemaDigest"))
  }

  /** With target ids unique per kind, actions under one key are one action. */
  lemma UniqueIdsAreConsistent(env: Env, req: Request)
    requires forall kind, a: Record, b: Record ::
               a in Mapped(env, req)[kind] && b in Mapped(env, req)[kind] ==>
               RecordId(env.hash, a) == RecordId(env.hash, b) ==> a == b
    ensures Consistent(env, req)
  {
    hide Skeleton;
    hide Mapped;
    hide RecordId;
    hide Needs;
    forall a, b | a in Skeleton(env, req) && b in Skeleton(env, req) && SameKey(a, b) ensures a.record == b.record {
      SkeletonPlanned(env, req, a);
      SkeletonPlanned(env, req, b);
    }
  }

  // ---------- the writes of a plan ----------

  predicate IsWrite(a: Action, w: (Key, Record)) {
    a.disposition == Insert && a.kind.RecordOf? && a.record == Some(w.1) && w.0 == (a.kind.kind, a.targetId)
  }

  lemma {:induction false} WritesOf(actions: seq<Action>, w: (Key, Record))
    ensures w in Writes(actions) <==> exists i :: 0 <= i < |actions| && IsWrite(actions[i], w)
  {
    if actions != [] {
      var n := |actions| - 1;
      WritesOf(actions[..n], w);
      assert (exists i :: 0 <= i < |actions| && IsWrite(actions[i], w)) <==>
             (exists i :: 0 <= i < n && IsWrite(actions[..n][i], w)) || IsWrite(actions[n], w);
    }
  }

  predicate InsertsBlob(a: Action, d: string) {
    a.disposition == Insert && a.kind == BlobBytes && a.sourceId == d
  }

  lemma {:induction false} BlobsOf(actions: seq<Action>, d: string)
    ensures d in BlobsToInsert(actions) <==> exists i :: 0 <= i < |actions| && InsertsBlob(actions[i], d)
  {
    if actions != [] {
      var n := |actions| - 1;
      BlobsOf(actions[..n], d);
      assert (exists i :: 0 <= i < |actions| && InsertsBlob(actions[i], d)) <==>
             (exists i :: 0 <= i < n && InsertsBlob(actions[..n][i], d)) || InsertsBlob(actions[n], d);
    }
  }

  /** When all writes to a key agree, that is what the key holds. */
  lemma {:induction false} AgreedWrite(writes: seq<(Key, Record)>, k: Key, r: Record)
    requires (k, r) in writes && forall w :: w in writes && w.0 == k ==> w.1 == r
    ensures k in WriteMap(writes) && WriteMap(writes)[k] == r
  {
    var n := |writes| - 1;
    if writes[n].0 == k {
      assert writes[n] in writes;
    } else {
      assert (k, r) in writes[..n];
      assert forall w :: w in writes[..n] ==> w in writes;
      AgreedWrite(writes[..n], k, r);
    }
  }

  /** An entry of the write map comes from a write. */
  lemma {:induction false} WrittenFrom(writes: seq<(Key, Record)>, k: Key)
    requires k in WriteMap(writes)
    ensures (k, WriteMap(writes)[k]) in writes
  {
    var n := |writes| - 1;
    if writes[n].0 != k {
      WrittenFrom(writes[..n], k);
      assert forall w :: w in writes[..n] ==> w in writes;
    } else {
      assert writes[n] == (k, WriteMap(writes)[k]);
    }
  }

  // ---------- ready plans ----------

  ghost predicate ReadyPlan(env: Env, req: Request, known: Known, plan: Plan) {
    PlanOf(env, req, known) == Ok(plan) && plan.status == Ready
  }

  lemma ReadyIsClean(env: Env, req: Request, known: Known, plan: Plan)
    requires ReadyPlan(env, req, known, plan)
    ensures Clean(env, req, known) && req.conflictMode == RejectOnError && AllPlannable(env, req)
    ensures plan.actions == Finished(Ordered(env, req, known), false) == ActionsOf(env, req, known)
    ensures PlanOf(env, req, known) == Ok(plan)
  {
    hide Clean;
    hide Ordered;
    hide AllPlannable;
  }

  /** An action of a ready plan carries the decision taken about it. */
  lemma ActionDecided(env: Env, req: Request, known: Known, plan: Plan, i: nat)
    requires ReadyPlan(env, req, known, plan) && i < |plan.actions|
    ensures var a := plan.actions[i];
            && a.disposition == Decision(req.mode, known, a) && Planned(env, req, a) && a.index == i
            && a.(index := 0, disposition := Insert) in Skeleton(env, req)
  {
    hide Planned;
    hide Skeleton;
    hide Decision;
    hide Clean;
    hide ReadyPlan;
    ReadyIsClean(env, req, known, plan);
    ActionsPlanned(env, req, known, i);
    SkeletonPresent(env, req, known, i);
    DecisionIgnores(req.mode, known, Ordered(env, req, known)[i].(index := 0, disposition := Insert), plan.actions[i]);
  }

  /** Writes go to new keys only, and put a mapped record under its id. */
  lemma WritesAreNew(env: Env, req: Request, known: Known, plan: Plan, w: (Key, Record))
    requires ReadyPlan(env, req, known, plan) && w in Writes(plan.actions)
    ensures w.0 !in known.records.byKey && w.1 in Mapped(env, req)[w.0.0] && w.0.1 == RecordId(env.hash, w.1)
  {
    hide ReadyPlan;
    hide Skeleton;
    hide Mapped;
    hide RecordId;
    hide Needs;
    WritesOf(plan.actions, w);
    var i :| 0 <= i < |plan.actions| && IsWrite(plan.actions[i], w);
    ActionDecided(env, req, known, plan, i);
  }

  /** Executing a ready plan adds keys and changes none. */
  lemma OnlyAdds(env: Env, req: Request, known: Known, plan: Plan)
    requires ReadyPlan(env, req, known, plan)
    ensures var after := Executed(known, plan);
            && (forall k :: k in known.records.byKey ==>
                  k in after.records.byKey && after.records.byKey[k] == known.records.byKey[k])
            && known.records.order <= after.records.order && known.blobs <= after.blobs
            && after.records.byKey == known.records.byKey + WriteMap(Writes(plan.actions))
  {
    hide ReadyPlan;
    var writes := Writes(plan.actions);
    PutAllMap(known.records, writes);
    PutAllOrder(known.records, writes);
    forall k | k in WriteMap(writes) ensures k !in known.records.byKey {
      WrittenFrom(writes, k);
      WritesAreNew(env, req, known, plan, (k, WriteMap(writes)[k]));
    }
  }

  /** After execution every skeleton action is found in place. */
  lemma BlobInPlace(env: Env, req: Request, known: Known, plan: Plan, a: Action)
    requires ReadyPlan(env, req, known, plan)
    requires a in Skeleton(env, req) && a.kind == BlobBytes
    ensures a.targetId in Executed(known, plan).blobs
  {
    hide ReadyPlan;
    hide Skeleton;
    hide Mapped;
    SkeletonPlain(env, req, a);
    ReadyIsClean(env, req, known, plan);
    var i := ActionAt(env, req, known, a);
    ActionDecided(env, req, known, plan, i);
    BlobsOf(plan.actions, a.targetId);
    if a.targetId !in known.blobs {
      assert InsertsBlob(plan.actions[i], a.targetId);
    }
  }

  /** What a record's key holds after execution: the record, or what was there before. */
  ghost predicate InPlace(mode: Mode, known: Known, after: Known, kind: Kind, id: string, record: Record) {
    && (kind, id) in after.records.byKey
    && if (kind, id) in known.records.byKey
       then after.records.byKey[(kind, id)] == known.records.byKey[(kind, id)]
            && (TakenAsIs(mode, kind) || known.records.byKey[(kind, id)] == record)
       else after.records.byKey[(kind, id)] == record
  }

  /** A workspace taken as it is although the target has none under its id, only something inherited. */
  predicate TakenForPresent(mode: Mode, known: Known, kind: Kind, id: string) {
    TakenAsIs(mode, kind) && FindsInherited(known, kind, id)
  }

  lemma WrittenInPlace(env: Env, req: Request, known: Known, plan: Plan, i: nat)
    requires ReadyPlan(env, req, known, plan) && Consistent(env, req) && i < |plan.actions|
    requires plan.actions[i].kind.RecordOf? && plan.actions[i].disposition == Insert
    ensures var a := plan.actions[i];
            var key := (a.kind.kind, a.targetId);
            a.record.Some? && key in WriteMap(Writes(plan.actions))
              && WriteMap(Writes(plan.actions))[key] == a.record.value
  {
    hide ReadyPlan;
    hide Skeleton;
    hide Mapped;
    ActionDecided(env, req, known, plan, i);
    var a, writes := plan.actions[i], Writes(plan.actions);
    var key := (a.kind.kind, a.targetId);
    WritesOf(plan.actions, (key, a.record.value));
    assert IsWrite(a, (key, a.record.value));
    forall w | w in writes && w.0 == key ensures w.1 == a.record.value {
      WritesOf(plan.actions, w);
      var j :| 0 <= j < |plan.actions| && IsWrite(plan.actions[j], w);
      ActionDecided(env, req, known, plan, j);
      var x, y := a.(index := 0, disposition := Insert), plan.actions[j].(index := 0, disposition := Insert);
      assert x.record == y.record;
    }
    AgreedWrite(writes, key, a.record.value);
  }

  /** What deciding about a record means: the printed comparison is equality, and inherited names count as present. */
  lemma DecisionMeans(mode: Mode, known: Known, a: Action)
    requires a.kind.RecordOf? && a.record.Some?
    ensures var kind, key := a.kind.kind, (a.kind.kind, a.targetId);
            && (Decision(mode, known, a) == Insert <==>
                key !in known.records.byKey && !(kind in known.listed && Inherited(a.targetId)))
            && (Decision(mode, known, a) == AlreadyPresent <==>
                Decision(mode, known, a) != Insert &&
                ((kind == Workspaces && mode == MappedWorkspace)
                 || (if key in known.records.byKey then known.records.byKey[key] else map[]) == a.record.value))
            && (DecisionThrows(mode, known, a) <==>
                Decision(mode, known, a) != Insert && !(kind == Workspaces && mode == MappedWorkspace)
                && key !in known.records.byKey && InheritedFunction(a.targetId))
  {
    hide InheritedFunction;
    if Existing(known, a.kind.kind, a.targetId).Some? {
      CanonicalInjective(Obj(Existing(known, a.kind.kind, a.targetId).value), Obj(a.record.value));
    }
  }

  /** A planned record has its id field, so it never equals the empty prototype. */
  lemma PlannedNotEmpty(env: Env, req: Request, kind: Kind, r: Record)
    requires AllPlannable(env, req) && r in Mapped(env, req)[kind]
    ensures r != map[]
  {
    hide BuildIdMappings;
    hide MapRecord;
    assert KindPlannable(env, req, kind);
    var k :| 0 <= k < |Mapped(env, req)[kind]| && Mapped(env, req)[kind][k] == r;
    var source := Of(req.archive.records, kind)[k];
    assert Plannable(kind, source, r);
    assert "id" in MappedFields(kind);
    FieldsMapped(BuildIdMappings(env.hash, req.archive.records, req.archive.workspaceId, Destination(req)), kind,
                 source, "id");
  }

  lemma RecordInPlace(env: Env, req: Request, known: Known, plan: Plan, a: Action)
    requires ReadyPlan(env, req, known, plan) && Consistent(env, req)
    requires a in Skeleton(env, req) && a.kind.RecordOf?
    ensures a.record.Some?
    ensures TakenForPresent(req.mode, known, a.kind.kind, a.targetId)
            || InPlace(req.mode, known, Executed(known, plan), a.kind.kind, a.targetId, a.record.value)
  {
    hide Inherited;
    hide InheritedFunction;
    hide ReadyPlan;
    hide Skeleton;
    hide Consistent;
    hide Mapped;
    hide Decision;
    SkeletonPlain(env, req, a);
    SkeletonPlanned(env, req, a);
    ReadyIsClean(env, req, known, plan);
    var i := ActionAt(env, req, known, a);
    ActionDecided(env, req, known, plan, i);
    DecisionMeans(req.mode, known, plan.actions[i]);
    OnlyAdds(env, req, known, plan);
    if plan.actions[i].disposition == Insert {
      WrittenInPlace(env, req, known, plan, i);
    } else {
      NotBlocked(env, req, known, a);
      DecisionIgnores(req.mode, known, a, plan.actions[i]);
      PlannedNotEmpty(env, req, a.kind.kind, a.record.value);
    }
  }

  lemma NotBlocked(env: Env, req: Request, known: Known, a: Action)
    requires Clean(env, req, known) && a in Skeleton(env, req)
    ensures Decision(req.mode, known, a) != Blocked
  {
    hide Skeleton;
    hide Decision;
    var k :| 0 <= k < |Skeleton(env, req)| && Skeleton(env, req)[k] == a;
  }

  /** Decided again after execution, every action is already present. */
  lemma DecidedAgain(env: Env, req: Request, known: Known, plan: Plan, a: Action)
    requires ReadyPlan(env, req, known, plan) && Consistent(env, req) && a in Skeleton(env, req)
    ensures Decision(req.mode, Executed(known, plan), a) == AlreadyPresent
    ensures !DecisionThrows(req.mode, Executed(known, plan), a)
  {
    hide Inherited;
    hide InheritedFunction;
    ListedGrows(known, plan);
    hide ReadyPlan;
    hide Skeleton;
    hide Consistent;
    hide Executed;
    if a.kind == BlobBytes {
      BlobInPlace(env, req, known, plan, a);
    } else {
      RecordInPlace(env, req, known, plan, a);
      DecisionMeans(req.mode, Executed(known, plan), a);
    }
  }

  lemma ListedGrows(known: Known, plan: Plan)
    ensures known.listed <= Executed(known, plan).listed
  {
  }

  // ---------- schemas ----------

  predicate MatchAt(inv: Inventory, k: Key, schema: Record) {
    k.0 == SchemaPackages && k in inv.byKey && SameSchema(inv.byKey[k], schema)
  }

  lemma {:induction false} FirstMatchFinds(inv: Inventory, order: seq<Key>, schema: Record)
    ensures match FirstMatch(inv, order, schema)
            case None => forall k :: k in order ==> !MatchAt(inv, k, schema)
            case Some(found) => exists k :: k in order && MatchAt(inv, k, schema) && inv.byKey[k] == found
  {
    hide SameSchema;
    if order != [] {
      FirstMatchFinds(inv, order[1..], schema);
      assert order == [order[0]] + order[1..];
      assert order[0] in order;
    }
  }

  /** A match found before is still the first one after more keys were added. */
  lemma {:induction false} FirstMatchStays(a: Inventory, b: Inventory, order: seq<Key>, extra: seq<Key>, schema: Record)
    requires forall k :: k in order ==> k in a.byKey && k in b.byKey && a.byKey[k] == b.byKey[k]
    ensures FirstMatch(a, order, schema).Some? ==> FirstMatch(b, order + extra, schema) == FirstMatch(a, order, schema)
  {
    hide SameSchema;
    if order != [] {
      assert forall k :: k in order[1..] ==> k in order;
      assert order[0] in order;
      FirstMatchStays(a, b, order[1..], extra, schema);
      assert (order + extra)[1..] == order[1..] + extra;
    }
  }

  lemma SchemaStillOk(env: Env, req: Request, known: Known, plan: Plan, schema: Record)
    requires ReadyPlan(env, req, known, plan) && ValidInventory(known.records)
    requires SchemasAgree(Mapped(env, req)[SchemaPackages]) && schema in Mapped(env, req)[SchemaPackages]
    ensures SchemaOk(Executed(known, plan).records, schema)
  {
    hide ReadyPlan;
    hide SameSchema;
    hide Identical;
    hide Mapped;
    hide SchemasAgree;
    var before, after := known.records, Executed(known, plan).records;
    OnlyAdds(env, req, known, plan);
    FirstMatchFinds(before, before.order, schema);
    FirstMatchFinds(after, after.order, schema);
    var extra := after.order[|before.order|..];
    assert after.order == before.order + extra;
    FirstMatchStays(before, after, before.order, extra, schema);
    ReadySchema(env, req, known, plan, schema);
    if FirstMatch(before, before.order, schema) == None && FirstMatch(after, after.order, schema).Some? {
      var k :| k in after.order && MatchAt(after, k, schema)
        && after.byKey[k] == FirstMatch(after, after.order, schema).value;
      assert !MatchAt(before, k, schema);
      WrittenFrom(Writes(plan.actions), k);
      WritesAreNew(env, req, known, plan, (k, after.byKey[k]));
      AgreedDigest(Mapped(env, req)[SchemaPackages], after.byKey[k], schema);
    }
  }

  lemma AgreedDigest(schemas: seq<Record>, a: Record, b: Record)
    requires SchemasAgree(schemas) && a in schemas && b in schemas && SameSchema(a, b)
    ensures Identical(Prop(a, "schemaDigest"), Prop(b, "schemaDigest"))
  {
  }

  lemma ReadySchema(env: Env, req: Request, known: Known, plan: Plan, schema: Record)
    requires ReadyPlan(env, req, known, plan) && schema in Mapped(env, req)[SchemaPackages]
    ensures SchemaOk(known.records, schema)
  {
    hide ReadyPlan;
    hide Mapped;
    hide SchemaOk;
    hide GraphOk;
    hide NoIdConflicts;
    ReadyIsClean(env, req, known, plan);
  }

  // ---------- references ----------

  /** The kind of record that a checked reference field names. */
  function CheckedReference(kind: Kind, r: Record, name: string): Option<Kind> {
    match kind
    case Datasets =>
      if name == "schemaPackageId" then Some(SchemaPackages) else if name == "retentionPolicyId" then Some(Retention)
        else None
    case Resources =>
      if name == "datasetId" then Some(Datasets) else if name == "currentRevisionId" then Some(Revisions) else None
    case Revisions =>
      if name == "resourceId" then Some(Resources)
      else if name == "datasetId" then Some(Datasets)
      else if name == "schemaPackageId" then Some(SchemaPackages)
      else if name == "parentRevisionId" then Some(Revisions) else None
    case RevisionBlobs =>
      if name == "revisionId" then Some(Revisions) else if name == "blobObjectId" then Some(Blobs) else None
    case Relations =>
      if name == "sourceId" then RelationKind(r, "sourceKind")
      else if name == "targetId" then RelationKind(r, "targetKind") else None
    case Tombstones =>
      if name == "subjectId" then RelationKind(r, "subjectKind")
      else if name == "priorRevisionId" then Some(Revisions) else None
    case _ => None
  }

  // ---------- dependencies name references ----------

  /**
   The checked references an action waits for: all but the links that point forward and the subject of a tombstone.
   */
  function Awaits(kind: Kind, r: Record, name: string): Option<Kind> {
    if (kind == Datasets && name == "retentionPolicyId") || (kind == Resources && name == "currentRevisionId")
       || (kind == Tombstones && name == "subjectId")
    then None else CheckedReference(kind, r, name)
  }

  /** An external end of a relation counts as a resource. */
  predicate ExternalEnd(kind: Kind, r: Record, id: string) {
    kind == Relations &&
    ((IsText(r, "sourceKind", "external") && IsText(r, "sourceId", id))
     || (IsText(r, "targetKind", "external") && IsText(r, "targetId", id)))
  }

  ghost predicate WaitsForId(kind: Kind, r: Record, ref: Kind, id: string) {
    || (exists name :: Awaits(kind, r, name) == Some(ref) && IsText(r, name, id))
    || (ref == Resources && ExternalEnd(kind, r, id))
  }

  lemma NeedIff(kind: Kind, r: Record, field: string, ref: Kind, id: string)
    ensures NameOf(RecordOf(ref), id) in Need(kind, r, field) <==> ref == kind && IsText(r, field, id)
  {
    hide NameOf;
    if NameOf(RecordOf(ref), id) in Need(kind, r, field) {
      NeedNames(kind, r, field, RecordOf(ref), id);
    }
  }

  /** A record's dependencies are exactly the records its awaited references name, and external ends. */
  lemma DependenciesAre(records: RecordSet, kind: Kind, r: Record, ref: Kind, id: string)
    requires RecordOk(records, kind, r)
    ensures NameOf(RecordOf(ref), id) in SortedKeys(Needs(kind, r)) <==> WaitsForId(kind, r, ref, id)
  {
    hide NameOf;
    hide Need;
    hide SortedKeys;
    hide Ids;
    hide ParentOk;
    match kind {
      case Datasets => NeedIff(SchemaPackages, r, "schemaPackageId", ref, id);
        assert Awaits(kind, r, "schemaPackageId") == Some(SchemaPackages);
      case Resources => NeedIff(Datasets, r, "datasetId", ref, id);
        assert Awaits(kind, r, "datasetId") == Some(Datasets);
      case Revisions => RevisionDependencies(r, ref, id);
      case RevisionBlobs =>
        NeedIff(Revisions, r, "revisionId", ref, id);
        NeedIff(Blobs, r, "blobObjectId", ref, id);
        assert Awaits(kind, r, "revisionId") == Some(Revisions) && Awaits(kind, r, "blobObjectId") == Some(Blobs);
      case Relations => RelationDependencies(records, r, ref, id);
      case Tombstones => NeedIff(Revisions, r, "priorRevisionId", ref, id);
        assert Awaits(kind, r, "priorRevisionId") == Some(Revisions);
      case _ =>
    }
  }

  lemma RevisionDependencies(r: Record, ref: Kind, id: string)
    ensures NameOf(RecordOf(ref), id) in Needs(Revisions, r) <==> WaitsForId(Revisions, r, ref, id)
  {
    hide NameOf;
    hide Need;
    NeedIff(Resources, r, "resourceId", ref, id);
    NeedIff(Datasets, r, "datasetId", ref, id);
    NeedIff(SchemaPackages, r, "schemaPackageId", ref, id);
    NeedIff(Revisions, r, "parentRevisionId", ref, id);
    assert Awaits(Revisions, r, "resourceId") == Some(Resources) && Awaits(Revisions, r, "datasetId") == Some(Datasets);
    assert Awaits(Revisions, r, "schemaPackageId") == Some(SchemaPackages)
      && Awaits(Revisions, r, "parentRevisionId") == Some(Revisions);
  }

  lemma RelationDependencies(records: RecordSet, r: Record, ref: Kind, id: string)
    requires RelationOk(records, r)
    ensures NameOf(RecordOf(ref), id) in Needs(Relations, r) <==> WaitsForId(Relations, r, ref, id)
  {
    hide NameOf;
    hide Need;
    hide RelationOk;
    hide RelationKind;
    NeedIff(EndKind(r, "sourceKind"), r, "sourceId", ref, id);
    NeedIff(EndKind(r, "targetKind"), r, "targetId", ref, id);
    EndKinds(records, r);
    hide EndKind;
    assert Awaits(Relations, r, "sourceId") == RelationKind(r, "sourceKind");
    assert Awaits(Relations, r, "targetId") == RelationKind(r, "targetKind");
  }

  /** The kind an end waits for is the kind it refers to, or resources for an external end. */
  lemma EndKinds(records: RecordSet, r: Record)
    requires RelationOk(records, r)
    ensures RelationKind(r, "sourceKind") == if IsText(r, "sourceKind", "external") then None
            else Some(EndKind(r, "sourceKind"))
    ensures RelationKind(r, "targetKind") == if IsText(r, "targetKind", "external") then None
            else Some(EndKind(r, "targetKind"))
    ensures IsText(r, "sourceKind", "external") ==> EndKind(r, "sourceKind") == Resources
    ensures IsText(r, "targetKind", "external") ==> EndKind(r, "targetKind") == Resources
  {
    hide RefOk;
  }

  /** A checked reference names a record of the archive, except a schema when the archive has none. */
  lemma CheckedInArchive(records: RecordSet, workspaceId: string, kind: Kind, r: Record, name: string, ref: Kind)
    requires GraphOk(records, workspaceId) && RetentionOk(records) && r in Of(records, kind)
    requires CheckedReference(kind, r, name) == Some(ref) && HasText(r, name)
    ensures r[name].s in Ids(records, ref) || (ref == SchemaPackages && Ids(records, ref) == {})
  {
    hide Ids;
    hide NumbersOk;
    hide RevisionOk;
    hide RelationOk;
    hide TombstoneOk;
    assert KindOk(records, kind, workspaceId);
    assert RecordOk(records, kind, r);
    match kind {
      case Revisions => RevisionRefs(records, r, name, ref);
      case Relations => RelationRefs(records, r, name, ref);
      case Tombstones => TombstoneRefs(records, r, name, ref);
      case _ =>
    }
  }

  lemma RevisionRefs(records: RecordSet, r: Record, name: string, ref: Kind)
    requires RevisionOk(records, r) && CheckedReference(Revisions, r, name) == Some(ref) && HasText(r, name)
    ensures r[name].s in Ids(records, ref) || (ref == SchemaPackages && Ids(records, ref) == {})
  {
    hide Ids;
    hide ParentOk;
    if name == "parentRevisionId" {
      ParentInArchive(records, r);
    }
  }

  lemma RelationRefs(records: RecordSet, r: Record, name: string, ref: Kind)
    requires RelationOk(records, r) && CheckedReference(Relations, r, name) == Some(ref) && HasText(r, name)
    ensures r[name].s in Ids(records, ref)
  {
    hide Ids;
  }

  lemma TombstoneRefs(records: RecordSet, r: Record, name: string, ref: Kind)
    requires TombstoneOk(records, r) && CheckedReference(Tombstones, r, name) == Some(ref) && HasText(r, name)
    ensures r[name].s in Ids(records, ref)
  {
    hide Ids;
  }

  lemma ParentInArchive(records: RecordSet, r: Record)
    requires ParentOk(records, r) && HasText(r, "parentRevisionId")
    ensures r["parentRevisionId"].s in Ids(records, Revisions)
  {
    FoundHasId(Of(records, Revisions), r["parentRevisionId"].s);
  }

  lemma {:induction false} FoundHasId(list: seq<Record>, id: string)
    ensures Find(list, id).Some? ==>
              Find(list, id).value in list && HasText(Find(list, id).value, "id") && Find(list, id).value["id"].s == id
  {
    if list != [] {
      FoundHasId(list[..|list| - 1], id);
      assert list[|list| - 1] in list;
      assert forall r :: r in list[..|list| - 1] ==> r in list;
    }
  }

  /** What a ready plan adds is stored under the id of a mapped record, or as a policy under a digest. */
  lemma AddedKey(env: Env, req: Request, known: Known, plan: Plan, ref: Kind, id: string)
    requires ReadyPlan(env, req, known, plan)
    requires (ref, id) in Executed(known, plan).records.byKey && (ref, id) !in known.records.byKey
    ensures (id != "" && id in Ids(Mapped(env, req), ref)) || (ref == Retention && exists text :: env.hash(text) == id)
  {
    hide ReadyPlan;
    hide Mapped;
    hide AllPlannable;
    hide Executed;
    hide Clean;
    hide ActionsOf;
    hide Writes;
    OnlyAdds(env, req, known, plan);
    var writes := Writes(plan.actions);
    WrittenFrom(writes, (ref, id));
    var record := WriteMap(writes)[(ref, id)];
    hide WriteMap;
    WritesAreNew(env, req, known, plan, ((ref, id), record));
    ReadyIsClean(env, req, known, plan);
    if ref != Retention {
      StableImage(env, req, ref, record);
    }
    IdOf(env, Mapped(env, req), ref, record);
  }

  lemma IdOf(env: Env, records: RecordSet, ref: Kind, r: Record)
    requires r in Of(records, ref)
    ensures if HasId(r) then RecordId(env.hash, r) != "" && RecordId(env.hash, r) in Ids(records, ref)
            else exists text :: env.hash(text) == RecordId(env.hash, r)
  {
    hide Canonical;
    assert env.hash(Canonical(Obj(r))) == env.hash(Canonical(Obj(r)));
  }

  /** The key that an action of a ready plan writes to is there after execution. */
  lemma ActionKeyInPlace(env: Env, req: Request, known: Known, plan: Plan, i: nat)
    requires ReadyPlan(env, req, known, plan) && i < |plan.actions| && plan.actions[i].kind.RecordOf?
    requires plan.actions[i].kind.kind != Workspaces
    ensures (plan.actions[i].kind.kind, plan.actions[i].targetId) in Executed(known, plan).records.byKey
  {
    hide ReadyPlan;
    hide Skeleton;
    hide Mapped;
    hide Needs;
    hide RecordId;
    hide Executed;
    hide Inherited;
    hide InheritedFunction;
    hide Decision;
    var a := plan.actions[i];
    ActionDecided(env, req, known, plan, i);
    OnlyAdds(env, req, known, plan);
    DecisionMeans(req.mode, known, a);
    ReadyIsClean(env, req, known, plan);
    NotBlocked(env, req, known, a.(index := 0, disposition := Insert));
    DecisionIgnores(req.mode, known, a, a.(index := 0, disposition := Insert));
    PlannedNotEmpty(env, req, a.kind.kind, a.record.value);
    if a.disposition == Insert {
      var w := ((a.kind.kind, a.targetId), a.record.value);
      WriteMapKeys(Writes(plan.actions));
      WritesOf(plan.actions, w);
      assert IsWrite(a, w);
    }
  }

  /** Every mapped record's key is there after execution. */
  lemma KeyInPlace(env: Env, req: Request, known: Known, plan: Plan, ref: Kind, s: Record)
    requires ReadyPlan(env, req, known, plan) && s in Mapped(env, req)[ref] && ref != Workspaces
    ensures (ref, RecordId(env.hash, s)) in Executed(known, plan).records.byKey
  {
    hide ReadyPlan;
    hide Mapped;
    hide Needs;
    hide RecordId;
    hide Executed;
    hide ActionsOf;
    hide Clean;
    hide AllPlannable;
    var records := Mapped(env, req);
    var k :| 0 <= k < |records[ref]| && records[ref][k] == s;
    ReadyIsClean(env, req, known, plan);
    var i := ActionExists(env, req, known, ref, k);
    ActionKeyInPlace(env, req, known, plan, i);
  }

  /** The two references that the checks let through although importing brings no record under that id. */
  ghost predicate Unbacked(records: RecordSet, ref: Kind, id: string) {
    (ref == SchemaPackages && Ids(records, ref) == {}) || (ref == Retention && id == "")
  }

  /**
   After execution a checked reference of the archive's records resolves in the target, except a schema of an
   archive without schemas and the empty retention id: those resolve exactly when they did before.
   */
  lemma ReferencesResolve(
    env: Env, req: Request, known: Known, plan: Plan, kind: Kind, r: Record, name: string, ref: Kind)
    requires ReadyPlan(env, req, known, plan) && forall text :: env.hash(text) != ""
    requires r in Mapped(env, req)[kind] && CheckedReference(kind, r, name) == Some(ref) && HasText(r, name)
    ensures (ref, r[name].s) in Executed(known, plan).records.byKey <==>
            (ref, r[name].s) in known.records.byKey || !Unbacked(Mapped(env, req), ref, r[name].s)
  {
    hide ReadyPlan;
    hide Skeleton;
    hide Mapped;
    hide GraphOk;
    hide RetentionOk;
    hide CheckedReference;
    hide NoIdConflicts;
    hide Executed;
    ReadyIsClean(env, req, known, plan);
    var records, id := Mapped(env, req), r[name].s;
    OnlyAdds(env, req, known, plan);
    if Unbacked(records, ref, id) {
      if (ref, id) in Executed(known, plan).records.byKey && (ref, id) !in known.records.byKey {
        AddedKey(env, req, known, plan, ref, id);
      }
    } else {
      NeverWorkspaces(kind, r, name);
      CheckedInArchive(records, Destination(req), kind, r, name, ref);
      var s: Record :| s in Of(records, ref) && HasText(s, "id") && s["id"].s == id;
      if ref != Retention {
        StableImage(env, req, ref, s);
      }
      KeyInPlace(env, req, known, plan, ref, s);
    }
  }

  lemma NeverWorkspaces(kind: Kind, r: Record, name: string)
    ensures CheckedReference(kind, r, name) != Some(Workspaces)
  {
  }

  // ---------- references that stay dangling ----------

  lemma NothingStored(ref: Kind, id: string)
    ensures (ref, id) !in NOTHING.records.byKey
  {
  }

  /** A dataset that names a schema "s", in an archive without schemas, is imported and its schema is not there. */
  lemma SchemaDangles(env: Env) returns (plan: Plan)
    requires forall text :: env.hash(text) != ""
    ensures ReadyPlan(env, Preserving(OneResource([])), NOTHING, plan)
    ensures (Datasets, "d") in Executed(NOTHING, plan).records.byKey
    ensures (SchemaPackages, "s") !in Executed(NOTHING, plan).records.byKey
  {
    hide PlanOf;
    hide Importable;
    hide Mapped;
    hide Executed;
    var records := OneResource([]);
    var r := Of(records, Datasets)[0];
    EmptyNumbers();
    OneResourceImportable([]);
    OneResourceIds([]);
    plan := PreservedReady(env, records);
    Dangles(env, records, plan, r, "schemaPackageId", SchemaPackages);
  }

  lemma EmptyNumbers()
    ensures NumbersOk([])
  {
  }

  /** A dataset's reference that nothing backs does not resolve in a target that was empty. */
  lemma Dangles(env: Env, records: RecordSet, plan: Plan, r: Record, name: string, ref: Kind)
    requires ReadyPlan(env, Preserving(records), NOTHING, plan) && forall text :: env.hash(text) != ""
    requires r in Of(records, Datasets) && HasId(r) && CheckedReference(Datasets, r, name) == Some(ref)
    requires HasText(r, name) && Unbacked(records, ref, r[name].s)
    ensures (Datasets, r["id"].s) in Executed(NOTHING, plan).records.byKey
    ensures (ref, r[name].s) !in Executed(NOTHING, plan).records.byKey
  {
    hide ReadyPlan;
    hide Mapped;
    hide Executed;
    hide CheckedReference;
    var req := Preserving(records);
    PreservedRecords(env, records, Datasets);
    PreservedRecords(env, records, ref);
    KeyInPlace(env, req, NOTHING, plan, Datasets, r);
    assert Ids(Mapped(env, req), ref) == Ids(records, ref);
    ReferencesResolve(env, req, NOTHING, plan, Datasets, r, name, ref);
    NothingStored(ref, r[name].s);
  }

  /** A dataset that names a retention policy by the empty id. */
  function EmptyPolicy(): RecordSet {
    map[Datasets := [map["id" := Str("d"), "schemaPackageId" := Str("s"), "retentionPolicyId" := Str("")]],
        Retention := [map["id" := Str("")]]]
  }

  lemma EmptyPolicyIds()
    ensures Ids(EmptyPolicy(), SchemaPackages) == {} && "" in Ids(EmptyPolicy(), Retention)
  {
    assert Of(EmptyPolicy(), Retention)[0] in Of(EmptyPolicy(), Retention);
  }

  lemma EmptyPolicyKind(kind: Kind)
    ensures KindOk(EmptyPolicy(), kind, "w")
    ensures forall r :: r in Of(EmptyPolicy(), kind) ==> Plannable(kind, r, r)
  {
    EmptyPolicyIds();
    hide Ids;
  }

  lemma EmptyPolicyImportable()
    ensures Importable(EmptyPolicy())
  {
    hide KindOk;
    hide Plannable;
    forall kind
      ensures KindOk(EmptyPolicy(), kind, "w")
      ensures forall r :: r in Of(EmptyPolicy(), kind) ==> Plannable(kind, r, r)
    {
      EmptyPolicyKind(kind);
    }
    EmptyPolicyIds();
    hide Ids;
  }

  /** It is imported, and there is no policy under that id. */
  lemma PolicyDangles(env: Env) returns (plan: Plan)
    requires forall text :: env.hash(text) != ""
    ensures ReadyPlan(env, Preserving(EmptyPolicy()), NOTHING, plan)
    ensures (Datasets, "d") in Executed(NOTHING, plan).records.byKey
    ensures (Retention, "") !in Executed(NOTHING, plan).records.byKey
  {
    hide PlanOf;
    hide Importable;
    hide Mapped;
    hide Executed;
    var r := Of(EmptyPolicy(), Datasets)[0];
    EmptyPolicyImportable();
    plan := PreservedReady(env, EmptyPolicy());
    Dangles(env, EmptyPolicy(), plan, r, "retentionPolicyId", Retention);
  }

  // ---------- planning again ----------

  lemma CleanAgain(env: Env, req: Request, known: Known, plan: Plan)
    requires ReadyPlan(env, req, known, plan) && Consistent(env, req) && ValidInventory(known.records)
    requires SchemasAgree(Mapped(env, req)[SchemaPackages])
    ensures Clean(env, req, Executed(known, plan))
  {
    hide ReadyPlan;
    hide Skeleton;
    hide Consistent;
    hide Mapped;
    hide GraphOk;
    hide RetentionOk;
    hide SchemasAgree;
    hide Decision;
    hide Executed;
    hide SchemaOk;
    ReadyIsClean(env, req, known, plan);
    var after := Executed(known, plan);
    forall schema | schema in Of(Mapped(env, req), SchemaPackages) ensures SchemaOk(after.records, schema) {
      SchemaStillOk(env, req, known, plan, schema);
    }
    forall i | 0 <= i < |Skeleton(env, req)| ensures Decision(req.mode, after, Skeleton(env, req)[i]) != Blocked {
      DecidedAgain(env, req, known, plan, Skeleton(env, req)[i]);
    }
  }

  lemma OrderedFromSkeleton(env: Env, req: Request, known: Known)
    ensures Ordered(env, req, known) == Map(Decided(req.mode, known), Sort(Comparator(env.leq), Skeleton(env, req)))
  {
    hide Skeleton;
    hide Decision;
    hide ActionKindName;
    SortMap(Comparator(env.leq), Decided(req.mode, known), Skeleton(env, req));
  }

  lemma SameIdentity(hash: string -> string, a: seq<Action>, b: seq<Action>)
    requires |a| == |b|
    requires forall i :: 0 <= i < |a| ==> b[i] == a[i].(index := b[i].index, disposition := b[i].disposition)
    ensures ActionsJson(hash, a) == ActionsJson(hash, b)
  {
    forall i | 0 <= i < |a| ensures ActionJson(hash, a[i]) == ActionJson(hash, b[i]) {
    }
  }

  /** The plan of a second import: ready, the same actions under the same identity, and nothing left to do. */
  ghost predicate NothingToDo(plan: Plan, again: Plan) {
    && again.status == Ready && again.planId == plan.planId && |again.actions| == |plan.actions|
    && forall i :: 0 <= i < |plan.actions| ==> again.actions[i] == plan.actions[i].(disposition := AlreadyPresent)
  }

  /** Planning the archive again after a ready plan was executed finds no issue and nothing to insert. */
  lemma ReplanIsIdle(env: Env, req: Request, known: Known, plan: Plan)
    requires ReadyPlan(env, req, known, plan) && Consistent(env, req) && ValidInventory(known.records)
    requires SchemasAgree(Mapped(env, req)[SchemaPackages])
    ensures match PlanOf(env, req, Executed(known, plan))
            case Err(_) => false
            case Ok(again) => NothingToDo(plan, again)
  {
    hide ReadyPlan;
    hide Skeleton;
    hide Consistent;
    hide Mapped;
    hide Decision;
    hide Executed;
    hide Clean;
    hide AllPlannable;
    hide SchemasAgree;
    hide ValidInventory;
    hide Ordered;
    hide ActionsOf;
    hide PlanId;
    hide Tally;
    hide DecisionThrows;
    var after := Executed(known, plan);
    ReadyIsClean(env, req, known, plan);
    CleanAgain(env, req, known, plan);
    SameActions(env, req, known, plan);
    forall i | 0 <= i < |Skeleton(env, req)| ensures !DecisionThrows(req.mode, after, Skeleton(env, req)[i]) {
      DecidedAgain(env, req, known, plan, Skeleton(env, req)[i]);
    }
    var again := PlanOf(env, req, after).value;
    assert again.actions == Finished(Ordered(env, req, after), false);
    SameIdentity(env.hash, plan.actions, again.actions);
    SamePlanId(env, req, plan, again, known, after);
  }

  lemma SamePlanId(env: Env, req: Request, plan: Plan, again: Plan, known: Known, after: Known)
    requires PlanOf(env, req, known) == Ok(plan) && PlanOf(env, req, after) == Ok(again)
    requires ActionsJson(env.hash, plan.actions) == ActionsJson(env.hash, again.actions)
    ensures plan.planId == again.planId
  {
    hide Ordered;
    hide Clean;
    hide AllPlannable;
    hide Finished;
    hide ActionsJson;
    hide Tally;
  }

  lemma SameActions(env: Env, req: Request, known: Known, plan: Plan)
    requires ReadyPlan(env, req, known, plan) && Consistent(env, req)
    ensures var again := Finished(Ordered(env, req, Executed(known, plan)), false);
            |again| == |plan.actions| &&
            forall i :: 0 <= i < |again| ==> again[i] == plan.actions[i].(disposition := AlreadyPresent)
  {
    hide ReadyPlan;
    hide Skeleton;
    hide Consistent;
    hide Mapped;
    hide Decision;
    hide Executed;
    hide Clean;
    hide Ordered;
    hide ActionsOf;
    var after := Executed(known, plan);
    ReadyIsClean(env, req, known, plan);
    OrderedFromSkeleton(env, req, known);
    OrderedFromSkeleton(env, req, after);
    var sorted := Sort(Comparator(env.leq), Skeleton(env, req));
    SameMembers(sorted, Skeleton(env, req));
    forall i | 0 <= i < |sorted| ensures Decision(req.mode, after, sorted[i]) == AlreadyPresent {
      assert sorted[i] in sorted;
      DecidedAgain(env, req, known, plan, sorted[i]);
    }
  }
}
