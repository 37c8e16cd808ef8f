/**
 In which storage the object of a catalogued blob lies (packages/operations/src/object-ingest.ts). Every attempt
 chooses its storage and records the binding of that storage with the blob; the two agree as long as all attempts of
 an operation choose the same one.
 */
module IngestHome {
  import opened Base
  import opened Ingest
  import opened IngestSafety

  /** The object of a blob lies in the storage of the blob's binding. */
  predicate AtHome(env: Env, all: Storages, b: Blob) {
    Stored(env, In(all, b.bindingId), b.workspaceId, b.sha256)
  }

  predicate StoredAt(env: Env, all: Storages, st: Storage, r: Request) {
    Stored(env, In(all, st), r.workspaceId, r.sha256)
  }

  /** The content has been committed to the storage, or uploaded there by the operation. */
  predicate ArrivedAt(env: Env, all: Storages, st: Storage, r: Request, id: string) {
    Uploaded(env, In(all, st), r, id) || StoredAt(env, all, st, r)
  }

  ghost predicate RowsAtHome(env: Env, rows: seq<Blob>, all: Storages) {
    forall i :: 0 <= i < |rows| ==> AtHome(env, all, rows[i])
  }

  /** What an operation's checkpoints say, they say of its home, unless the content was catalogued. */
  ghost predicate OperationAtHome(env: Env, s: Store, id: string, op: Operation) {
    var r := op.request;
    && (BytesReceived in op.checkpoints ==> HasRow(s.rows, r) || ArrivedAt(env, s.storages, op.home, r, id))
    && (ImmutableObjectCommitted in op.checkpoints ==> HasRow(s.rows, r) || StoredAt(env, s.storages, op.home, r))
    && (op.result.Some? ==> AtHome(env, s.storages, op.result.value.0))
  }

  ghost predicate FreshAtHome(env: Env, s: Store, id: string, op: Operation, a: Attempt)
    requires a.Running?
  {
    && (BytesReceived in a.completed || a.place == Mark(BytesReceived) ==>
         ArrivedAt(env, s.storages, op.home, op.request, id))
    && (ImmutableObjectCommitted in a.completed || a.place == Mark(ImmutableObjectCommitted) || a.place.SaveKey? ==>
          StoredAt(env, s.storages, op.home, op.request))
  }

  ghost predicate AttemptAtHome(env: Env, s: Store, id: string, op: Operation, a: Attempt) {
    match a
    case Running(input, _, branch, _, _, _, blob, _, _, _) =>
      && input.bindingId == op.home && (blob.Some? ==> AtHome(env, s.storages, blob.value))
      && (branch == Fresh ==> FreshAtHome(env, s, id, op, a))
    case Returned(blob, _) => AtHome(env, s.storages, blob)
    case Failed(_) => true
  }

  ghost predicate StoreAtHome(env: Env, s: Store) {
    && RowsAtHome(env, s.rows, s.storages)
    && forall id :: id in s.operations ==> OperationAtHome(env, s, id, s.operations[id])
  }

  ghost predicate HomeInv(env: Env, w: World) {
    && Inv(env, w) && StoreAtHome(env, w.store)
    && forall id :: id in w.attempts && id in w.store.operations ==>
         AttemptAtHome(env, w.store, id, w.store.operations[id], w.attempts[id])
  }

  // ---------- growth ----------

  lemma HomeGrows(env: Env, a: Store, b: Store, id: string, st: Storage)
    requires Grows(env, a, b, id)
    ensures forall r: Request :: StoredAt(env, a.storages, st, r) ==> StoredAt(env, b.storages, st, r)
    ensures forall r: Request, other :: other != id && ArrivedAt(env, a.storages, st, r, other) ==>
              ArrivedAt(env, b.storages, st, r, other)
  {
    assert StorageGrows(env, In(a.storages, st), In(b.storages, st), id);
    hide In;
    hide Grows;
    forall r: Request, other | other != id && Uploaded(env, In(a.storages, st), r, other)
      ensures Uploaded(env, In(b.storages, st), r, other)
    {
      assert SameAt(In(a.storages, st), In(b.storages, st), Temporary(r.workspaceId, other));
    }
  }

  lemma BlobStays(env: Env, a: Store, b: Store, id: string, blob: Blob)
    requires Grows(env, a, b, id) && AtHome(env, a.storages, blob)
    ensures AtHome(env, b.storages, blob)
  {
    assert StorageGrows(env, In(a.storages, blob.bindingId), In(b.storages, blob.bindingId), id);
    hide In;
    hide Grows;
    hide Stored;
  }

  lemma RowGrows(a: seq<Blob>, b: seq<Blob>, r: Request)
    requires RowsGrow(a, b) && HasRow(a, r)
    ensures HasRow(b, r)
  {
    var i :| 0 <= i < |a| && SameContent(a[i], r.workspaceId, r.sha256);
    assert SameContent(b[i], r.workspaceId, r.sha256);
  }

  lemma GrowsRows(env: Env, a: Store, b: Store, id: string)
    requires Grows(env, a, b, id)
    ensures RowsGrow(a.rows, b.rows)
  {
  }

  /** An operation and an attempt that the step does not concern. */
  lemma OthersStay(env: Env, a: Store, b: Store, id: string, other: string, op: Operation, x: Attempt)
    requires Grows(env, a, b, id) && other != id
    ensures OperationAtHome(env, a, other, op) ==> OperationAtHome(env, b, other, op)
    ensures AttemptAtHome(env, a, other, op, x) ==> AttemptAtHome(env, b, other, op, x)
  {
    hide AtHome;
    hide StoredAt;
    hide ArrivedAt;
    hide Grows;
    hide HasRow;
    HomeGrows(env, a, b, id, op.home);
    GrowsRows(env, a, b, id);
    if HasRow(a.rows, op.request) {
      RowGrows(a.rows, b.rows, op.request);
    }
    forall blob | AtHome(env, a.storages, blob) ensures AtHome(env, b.storages, blob) {
      BlobStays(env, a, b, id, blob);
    }
  }

  // ---------- own steps ----------

  /** An upsert records a binding only of a storage that has the object. */
  lemma RecordAtHome(env: Env, rows: seq<Blob>, all: Storages, blob: Blob)
    requires RowsAtHome(env, rows, all) && AtHome(env, all, blob)
    ensures RowsAtHome(env, RecordBlob(rows, blob).0, all) && AtHome(env, all, RecordBlob(rows, blob).1)
  {
    hide Stored;
    hide In;
  }

  /** The state after a step on `id` is at home for `id`. */
  ghost predicate StepAtHome(env: Env, s: Store, id: string, s': Store, a': Attempt) {
    && RowsAtHome(env, s'.rows, s'.storages) && id in s'.operations && id in s.operations
    && s'.operations[id].home == s.operations[id].home
    && OperationAtHome(env, s', id, s'.operations[id]) && AttemptAtHome(env, s', id, s'.operations[id], a')
  }

  ghost predicate ReadyAtHome(env: Env, s: Store, id: string, a: Attempt) {
    && Ready(env, s, id, a) && RowsAtHome(env, s.rows, s.storages)
    && OperationAtHome(env, s, id, s.operations[id]) && AttemptAtHome(env, s, id, s.operations[id], a)
  }

  /** The step succeeds in writing an object or a row. */
  predicate Writes(env: Env, s: Store, id: string, a: Attempt)
    requires a.Running? && id in s.operations
  {
    && a.place.At? && a.place.c !in a.completed
    && a.place.c in {BytesReceived, ImmutableObjectCommitted, MetadataCommitted}
    && (a.branch == Fresh || (a.place.c == MetadataCommitted && env.audits))
    && Effect(env, s, id, a, a.place.c).1.Running?
  }

  predicate Quiet(env: Env, s: Store, id: string, a: Attempt) {
    a.Running? && id in s.operations ==> !Writes(env, s, id, a)
  }

  /** Steps that write no object and no row. */
  lemma QuietStep(env: Env, s: Store, id: string, a: Attempt)
    requires ReadyAtHome(env, s, id, a) && Quiet(env, s, id, a)
    requires StepOf(env, s, id, a).0 == s.(operations := StepOf(env, s, id, a).0.operations)
    ensures StepAtHome(env, s, id, StepOf(env, s, id, a).0, StepOf(env, s, id, a).1)
  {
    match a.place {
      case Look =>
        LookAtHome(env, s, id, a);
        hide AttemptAtHome;
        hide OperationAtHome;
        hide Ready;
      case At(c) => QuietAt(env, s, id, a, c);
      case SaveKey(_) =>
        hide Ready;
        hide AtHome;
        hide StoredAt;
        hide ArrivedAt;
        hide HasRow;
      case Mark(c) => QuietMark(env, s, id, a, c);
    }
  }

  lemma QuietAt(env: Env, s: Store, id: string, a: Attempt, c: Checkpoint)
    requires ReadyAtHome(env, s, id, a) && Quiet(env, s, id, a) && a.place == At(c)
    ensures StepAtHome(env, s, id, StepOf(env, s, id, a).0, StepOf(env, s, id, a).1)
  {
    hide AtHome;
    hide StoredAt;
    hide ArrivedAt;
    hide HasRow;
    assert a.Running? && id in s.operations;
    hide Ready;
    if c !in a.completed && (c != Completed || a.blob.Some?) {
      ReadyThere(env, s, id, a);
      QuietEffect(env, s, id, a, c);
    }
    hide Effect;
  }

  /** What an effect that writes no object and no row may change. */
  ghost predicate Unmoved(s: Store, id: string, a: Attempt, s': Store, a': Attempt)
    requires id in s.operations && a.Running?
  {
    && s' == s.(operations := s'.operations) && id in s'.operations
    && (a'.Failed? || (a'.Running? && a'.place.Mark? && a' == a.(place := a'.place, temporaryKey := a'.temporaryKey)))
    && (a'.Running? && a.branch == Fresh ==>
         a'.place != Mark(BytesReceived) && a'.place != Mark(ImmutableObjectCommitted))
    && var op, op' := s.operations[id], s'.operations[id];
       && op' == op.(temporaryKey := op'.temporaryKey, result := op'.result)
       && (op'.result == op.result || (a.blob.Some? && op'.result.Some? && op'.result.value.0 == a.blob.value))
  }

  lemma QuietEffect(env: Env, s: Store, id: string, a: Attempt, c: Checkpoint)
    requires Ready(env, s, id, a) && Quiet(env, s, id, a) && a.place == At(c) && c !in a.completed
    ensures Unmoved(s, id, a, Effect(env, s, id, a, c).0, Effect(env, s, id, a, c).1)
  {
    hide RowsOk;
    hide AuditOk;
    hide OperationOk;
    hide CommitImmutable;
    hide CommitVerified;
    hide SafeId;
    hide HasRow;
    hide BlobOk;
    hide Candidate;
    hide PlaceOk;
    BranchKnown(env, s, id, a, c);
  }

  lemma BranchKnown(env: Env, s: Store, id: string, a: Attempt, c: Checkpoint)
    requires Ready(env, s, id, a) && a.place == At(c)
    ensures c == Authorised || a.branch == Fresh || (a.branch == Existing && a.blob.Some?)
  {
    hide RowsOk;
    hide AuditOk;
    hide OperationOk;
    hide BlobOk;
  }

  lemma QuietMark(env: Env, s: Store, id: string, a: Attempt, c: Checkpoint)
    requires ReadyAtHome(env, s, id, a) && a.place == Mark(c)
    ensures StepAtHome(env, s, id, StepOf(env, s, id, a).0, StepOf(env, s, id, a).1)
  {
    MarkReady(env, s, id, a, c);
    hide AtHome;
    hide StoredAt;
    hide ArrivedAt;
    hide HasRow;
    hide Ready;
  }

  /** What is known of an attempt that is about to record a checkpoint. */
  lemma MarkReady(env: Env, s: Store, id: string, a: Attempt, c: Checkpoint)
    requires Ready(env, s, id, a) && a.place == Mark(c)
    ensures a.Running? && id in s.operations && a.completed == s.operations[id].checkpoints
    ensures c == Authorised || a.branch == Fresh || HasRow(s.rows, s.operations[id].request)
  {
    hide RowsOk;
    hide AuditOk;
    hide OperationOk;
    hide EffectDone;
    if a.branch == Existing {
      RowGivesContent(s.rows, s.operations[id].request, a.blob.value);
    }
    hide HasRow;
    hide BlobOk;
  }

  lemma LookAtHome(env: Env, s: Store, id: string, a: Attempt)
    requires ReadyAtHome(env, s, id, a) && a.place == Look
    ensures AttemptAtHome(env, s, id, s.operations[id], StepOf(env, s, id, a).1)
  {
    hide AtHome;
    hide StoredAt;
    hide ArrivedAt;
    hide RowsOk;
    hide AuditOk;
    hide OperationOk;
    var r := s.operations[id].request;
    if FindByHash(s.rows, r.workspaceId, r.sha256) == None {
      NoRowNoBlob(s.rows, r);
    }
  }

  lemma WriteAtHome(env: Env, s: Store, id: string, a: Attempt)
    requires ReadyAtHome(env, s, id, a) && a.place == At(BytesReceived) && BytesReceived !in a.completed
    requires a.branch == Fresh
    requires Effect(env, s, id, a, BytesReceived).1.Running?
    ensures var (s', a') := Effect(env, s, id, a, BytesReceived); StepAtHome(env, s, id, s', a')
  {
    var st, r := a.input.bindingId, s.operations[id].request;
    assert TemporaryUploadCreated in a.completed;
    var upload := Object(a.input.bytes, a.input.mediaType);
    var objects := In(s.storages, st)[Temporary(r.workspaceId, id) := upload];
    WriteGrows(env, In(s.storages, st), id, r.workspaceId, upload);
    OneStorageGrows(env, s, id, st, objects);
    var s' := s.(storages := s.storages[st := objects]);
    assert In(s'.storages, st) == objects;
    assert ArrivedAt(env, s'.storages, st, r, id);
    OwnFacts(env, s, s', id, st);
    hide RowsOk;
    hide AuditOk;
    hide OperationOk;
    hide AtHome;
    hide StoredAt;
    hide ArrivedAt;
    hide Grows;
    hide HasRow;
    hide BlobOk;
    hide In;
  }

  /** What stays of the facts about an operation's own blobs and home. */
  lemma OwnFacts(env: Env, s: Store, s': Store, id: string, st: Storage)
    requires Grows(env, s, s', id) && s'.rows == s.rows && RowsAtHome(env, s.rows, s.storages)
    ensures RowsAtHome(env, s'.rows, s'.storages)
    ensures forall blob :: AtHome(env, s.storages, blob) ==> AtHome(env, s'.storages, blob)
    ensures forall r: Request :: StoredAt(env, s.storages, st, r) ==> StoredAt(env, s'.storages, st, r)
  {
    hide AtHome;
    hide StoredAt;
    hide ArrivedAt;
    hide Grows;
    HomeGrows(env, s, s', id, st);
    forall blob | AtHome(env, s.storages, blob) ensures AtHome(env, s'.storages, blob) {
      BlobStays(env, s, s', id, blob);
    }
  }

  lemma CommitAtHome(env: Env, s: Store, id: string, a: Attempt)
    requires ReadyAtHome(env, s, id, a) && a.place == At(ImmutableObjectCommitted)
    requires ImmutableObjectCommitted !in a.completed && a.branch == Fresh
    requires Effect(env, s, id, a, ImmutableObjectCommitted).1.Running?
    ensures var (s', a') := Effect(env, s, id, a, ImmutableObjectCommitted); StepAtHome(env, s, id, s', a')
  {
    hide CommitImmutable;
    var st, r := a.input.bindingId, s.operations[id].request;
    assert TemporaryUploadCreated in a.completed;
    assert a.temporaryKey.value == Temporary(r.workspaceId, id);
    ImmutableKeeps(env, In(s.storages, st), id, r, |a.input.bytes|);
    var objects := CommitImmutable(env, In(s.storages, st), a.temporaryKey.value, r, |a.input.bytes|).value;
    hide StorageGrows;
    OneStorageGrows(env, s, id, st, objects);
    var s' := s.(storages := s.storages[st := objects]);
    assert In(s'.storages, st) == objects;
    assert StoredAt(env, s'.storages, st, r);
    OwnFacts(env, s, s', id, st);
    assert ArrivedAt(env, s'.storages, st, r, id);
    hide RowsOk;
    hide AuditOk;
    hide OperationOk;
    hide AtHome;
    hide StoredAt;
    hide ArrivedAt;
    hide Grows;
    hide HasRow;
    hide BlobOk;
    hide In;
  }

  lemma RecordStep(env: Env, s: Store, id: string, a: Attempt, blob: Blob)
    requires ReadyAtHome(env, s, id, a) && a.place == At(MetadataCommitted) && AtHome(env, s.storages, blob)
    requires RowsGrow(s.rows, RecordBlob(s.rows, blob).0)
    ensures var (s', canonical) := CommitVerified(env, s, blob, id);
            StepAtHome(env, s, id, s', a.(place := Mark(MetadataCommitted), blob := Some(canonical)))
  {
    RecordAtHome(env, s.rows, s.storages, blob);
    hide RecordBlob;
    hide AppendOnce;
    hide RowsOk;
    hide AuditOk;
    hide OperationOk;
    hide AtHome;
    hide StoredAt;
    hide ArrivedAt;
    hide BlobOk;
    var (s', canonical) := CommitVerified(env, s, blob, id);
    if HasRow(s.rows, s.operations[id].request) {
      RowGrows(s.rows, s'.rows, s.operations[id].request);
    }
    hide HasRow;
  }

  lemma MetadataAtHome(env: Env, s: Store, id: string, a: Attempt)
    requires ReadyAtHome(env, s, id, a) && a.place == At(MetadataCommitted) && MetadataCommitted !in a.completed
    requires a.branch == Fresh || env.audits
    ensures var (s', a') := Effect(env, s, id, a, MetadataCommitted); StepAtHome(env, s, id, s', a')
  {
    hide CommitVerified;
    hide RowsOk;
    hide AuditOk;
    hide StoredAt;
    hide ArrivedAt;
    hide Kept;
    hide Received;
    hide UploadsOk;
    var r := s.operations[id].request;
    assert ImmutableObjectCommitted in a.completed;
    if a.branch == Existing {
      hide AtHome;
      CataloguedRowOk(env, s.rows, s.storages, a.blob.value);
      RecordKeeps(env, s.rows, s.storages, r, a.blob.value);
      hide RecordBlob;
      RecordStep(env, s, id, a, a.blob.value);
    } else {
      var candidate := Candidate(env, a, a.storageKey.value);
      CandidateAtHome(env, s, id, a);
      hide AtHome;
      RecordKeeps(env, s.rows, s.storages, r, candidate);
      hide RecordBlob;
      RecordStep(env, s, id, a, candidate);
    }
    hide StepAtHome;
  }

  lemma CandidateAtHome(env: Env, s: Store, id: string, a: Attempt)
    requires ReadyAtHome(env, s, id, a) && a.place == At(MetadataCommitted) && a.branch == Fresh && a.storageKey.Some?
    ensures AtHome(env, s.storages, Candidate(env, a, a.storageKey.value))
  {
    hide RowsOk;
    hide AuditOk;
    hide OperationOk;
    hide Stored;
    hide In;
    assert ImmutableObjectCommitted in a.completed;
  }

  lemma OwnStepAtHome(env: Env, s: Store, id: string, a: Attempt)
    requires ReadyAtHome(env, s, id, a)
    ensures StepAtHome(env, s, id, StepOf(env, s, id, a).0, StepOf(env, s, id, a).1)
  {
    hide StepAtHome;
    hide StepOf;
    hide ReadyAtHome;
    if Quiet(env, s, id, a) {
      ReadyThere(env, s, id, a);
      OnlyOperations(env, s, id, a);
      QuietStep(env, s, id, a);
    } else {
      WritingStep(env, s, id, a);
    }
  }

  lemma ReadyThere(env: Env, s: Store, id: string, a: Attempt)
    requires ReadyAtHome(env, s, id, a)
    ensures Ready(env, s, id, a)
  {
  }

  lemma WritingStep(env: Env, s: Store, id: string, a: Attempt)
    requires ReadyAtHome(env, s, id, a) && !Quiet(env, s, id, a)
    ensures StepAtHome(env, s, id, StepOf(env, s, id, a).0, StepOf(env, s, id, a).1)
  {
    hide StepAtHome;
    hide Effect;
    if a.place.c == BytesReceived {
      WriteAtHome(env, s, id, a);
    } else if a.place.c == ImmutableObjectCommitted {
      CommitAtHome(env, s, id, a);
    } else {
      MetadataAtHome(env, s, id, a);
    }
  }

  lemma OnlyOperations(env: Env, s: Store, id: string, a: Attempt)
    requires Ready(env, s, id, a) && Quiet(env, s, id, a)
    ensures StepOf(env, s, id, a).0 == s.(operations := StepOf(env, s, id, a).0.operations)
  {
    hide RowsOk;
    hide AuditOk;
    hide OperationOk;
    hide CommitImmutable;
    hide CommitVerified;
    hide SafeId;
    hide BlobOk;
    hide HasRow;
    hide FindByHash;
    hide Candidate;
  }

  // ---------- runs ----------

  /** An operation is resumed in the storage of its first attempt. */
  ghost predicate SameHome(w: World, step: Step) {
    step.Begin? ==>
      var key := (step.input.workspaceId, step.input.idempotencyKey);
      key in w.store.begun && w.store.begun[key] in w.store.operations ==>
        w.store.operations[w.store.begun[key]].home == step.input.bindingId
  }

  ghost predicate Steady(env: Env, w: World, steps: seq<Step>) {
    steps == [] ||
    var n := |steps| - 1;
    Steady(env, w, steps[..n]) && SameHome(Run(env, w, steps[..n]), steps[n])
  }

  lemma WorkAtHome(env: Env, w: World, id: string)
    requires HomeInv(env, w) && Busy(w, id)
    ensures HomeInv(env, Next(env, w, Work(id)))
  {
    hide Inv;
    hide StepOf;
    hide OperationAtHome;
    hide AttemptAtHome;
    hide RowsAtHome;
    hide Grows;
    hide Ready;
    WorkKeeps(env, w, id);
    WorkIsGood(env, w, id);
    var s, a := w.store, w.attempts[id];
    var (s', a') := StepOf(env, s, id, a);
    assert ReadyAtHome(env, s, id, a);
    OwnStepAtHome(env, s, id, a);
    forall other | other in s'.operations ensures OperationAtHome(env, s', other, s'.operations[other]) {
      if other != id {
        OthersStay(env, s, s', id, other, s.operations[other], a);
      }
    }
    forall other | other in w.attempts && other in s'.operations && other != id
      ensures AttemptAtHome(env, s', other, s'.operations[other], w.attempts[other])
    {
      OthersStay(env, s, s', id, other, s.operations[other], w.attempts[other]);
    }
  }

  lemma WorkIsGood(env: Env, w: World, id: string)
    requires Inv(env, w) && Busy(w, id)
    ensures Ready(env, w.store, id, w.attempts[id]) && id in w.store.operations
    ensures var s' := StepOf(env, w.store, id, w.attempts[id]).0;
            && Grows(env, w.store, s', id) && w.store.operations.Keys == s'.operations.Keys
            && forall other :: other in w.store.operations && other != id ==>
                 s'.operations[other] == w.store.operations[other]
  {
    hide RowsOk;
    hide AuditOk;
    hide OperationOk;
    hide AttemptOk;
    hide StepOf;
    assert AttemptOk(env, w.store, id, w.attempts[id]);
    AttemptHasOperation(env, w.store, id, w.attempts[id]);
    OwnStepKeeps(env, w.store, id, w.attempts[id]);
  }

  lemma BeginAtHome(env: Env, w: World, step: Step)
    requires HomeInv(env, w) && step.Begin? && Enabled(env, w, step) && SameHome(w, step)
    ensures HomeInv(env, Next(env, w, step))
  {
    hide Inv;
    hide AtHome;
    hide ArrivedAt;
    hide StoredAt;
    hide HasRow;
    BeginKeeps(env, w, step);
    AttemptsOwned(env, w);
    var key := (step.input.workspaceId, step.input.idempotencyKey);
    if key in w.store.begun {
      var id := w.store.begun[key];
      assert OperationAtHome(env, w.store, id, w.store.operations[id]);
    } else {
      NewAtHome(env, w, step);
    }
  }

  lemma NewAtHome(env: Env, w: World, step: Step)
    requires StoreAtHome(env, w.store) && step.Begin? && Enabled(env, w, step)
    requires (step.input.workspaceId, step.input.idempotencyKey) !in w.store.begun
    requires forall id :: id in w.attempts ==>
               id in w.store.operations && AttemptAtHome(env, w.store, id, w.store.operations[id], w.attempts[id])
    ensures var v := Next(env, w, step);
            && StoreAtHome(env, v.store)
            && forall id :: id in v.attempts && id in v.store.operations ==>
                 AttemptAtHome(env, v.store, id, v.store.operations[id], v.attempts[id])
  {
    hide AtHome;
    hide ArrivedAt;
    hide StoredAt;
    hide HasRow;
  }

  lemma AttemptsOwned(env: Env, w: World)
    requires Inv(env, w)
    ensures forall id :: id in w.attempts ==> id in w.store.operations
  {
    hide StoreOk;
    hide AttemptOk;
    forall id | id in w.attempts ensures id in w.store.operations {
      AttemptHasOperation(env, w.store, id, w.attempts[id]);
    }
  }

  /** In every run whose operations keep to one storage each, blobs lie in the storage of their binding. */
  lemma {:induction false} RunsStayAtHome(env: Env, w: World, steps: seq<Step>)
    requires HomeInv(env, w) && Legal(env, w, steps) && Steady(env, w, steps)
    ensures HomeInv(env, Run(env, w, steps))
  {
    hide HomeInv;
    hide Enabled;
    hide SameHome;
    if steps != [] {
      var n := |steps| - 1;
      RunsStayAtHome(env, w, steps[..n]);
      hide Run;
      StepAtHomeKeeps(env, Run(env, w, steps[..n]), steps[n]);
      RunLast(env, w, steps);
    }
  }

  lemma RunLast(env: Env, w: World, steps: seq<Step>)
    requires steps != []
    ensures Run(env, w, steps) == Next(env, Run(env, w, steps[..|steps| - 1]), steps[|steps| - 1])
  {
    hide Next;
  }

  lemma StepAtHomeKeeps(env: Env, w: World, step: Step)
    requires HomeInv(env, w) && Enabled(env, w, step) && SameHome(w, step)
    ensures HomeInv(env, Next(env, w, step))
  {
    match step
    case Begin(_, _, _, _) => BeginAtHome(env, w, step);
    case Work(id) => WorkAtHome(env, w, id);
    case Crash(_) =>
      hide StoreOk;
      hide AttemptOk;
      hide StoreAtHome;
      hide AttemptAtHome;
  }

  /** From an empty system: where every catalogued and every returned blob lies. */
  lemma BlobsAreWhereTheySay(env: Env, steps: seq<Step>, id: string)
    requires Legal(env, EMPTY, steps) && Steady(env, EMPTY, steps)
    ensures var w := Run(env, EMPTY, steps);
            && (forall i :: 0 <= i < |w.store.rows| ==> AtHome(env, w.store.storages, w.store.rows[i]))
            && (id in w.attempts && w.attempts[id].Returned? ==> AtHome(env, w.store.storages, w.attempts[id].stored))
  {
    hide Run;
    hide Legal;
    hide Steady;
    EmptyIsSafe(env);
    RunsStayAtHome(env, EMPTY, steps);
    AttemptsOwned(env, Run(env, EMPTY, steps));
    hide Inv;
    hide AtHome;
  }
}
