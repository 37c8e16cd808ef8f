/** What every run of concurrent, crashing ingest attempts keeps. */
module IngestSafety {
  import opened Base
  import opened Ingest

  // ---------- facts about the durable state ----------

  ghost predicate HasRow(rows: seq<Blob>, r: Request) {
    exists i :: 0 <= i < |rows| && SameContent(rows[i], r.workspaceId, r.sha256)
  }

  /** The blob is a row of the catalog, up to the storage binding, which later commits may set. */
  ghost predicate Catalogued(rows: seq<Blob>, blob: Blob) {
    exists i :: 0 <= i < |rows| && rows[i] == blob.(bindingId := rows[i].bindingId)
  }

  /** In one storage the immutable object of a workspace and digest has been committed, under its own digest. */
  predicate Stored(env: Env, objects: map<Key, Object>, workspaceId: string, sha256: string) {
    var key := Immutable(workspaceId, sha256);
    key in objects && env.hash(objects[key].bytes) == sha256
  }

  predicate Uploaded(env: Env, objects: map<Key, Object>, r: Request, id: string) {
    var key := Temporary(r.workspaceId, id);
    key in objects && env.hash(objects[key].bytes) == r.sha256 && objects[key].mediaType == r.mediaType
  }

  /** Some storage has it. */
  ghost predicate Kept(env: Env, all: Storages, workspaceId: string, sha256: string) {
    exists st :: Stored(env, In(all, st), workspaceId, sha256)
  }

  ghost predicate Received(env: Env, all: Storages, r: Request, id: string) {
    exists st :: Uploaded(env, In(all, st), r, id)
  }

  /** Whatever the operation has uploaded is what it was asked to store. */
  ghost predicate UploadsOk(env: Env, all: Storages, r: Request, id: string) {
    forall st :: Temporary(r.workspaceId, id) in In(all, st) ==> Uploaded(env, In(all, st), r, id)
  }

  ghost predicate RowOk(env: Env, all: Storages, b: Blob) {
    b.storageKey == Immutable(b.workspaceId, b.sha256) && Kept(env, all, b.workspaceId, b.sha256)
  }

  /** One row per workspace and hash, and every row's object is there. */
  ghost predicate RowsOk(env: Env, rows: seq<Blob>, all: Storages) {
    && (forall i, j :: 0 <= i < j < |rows| ==> !SameContent(rows[i], rows[j].workspaceId, rows[j].sha256))
    && (forall i :: 0 <= i < |rows| ==> RowOk(env, all, rows[i]))
  }

  /** At most one audit row per operation. */
  ghost predicate AuditOk(env: Env, audit: seq<AuditRow>) {
    && (forall i :: 0 <= i < |audit| ==> audit[i].id == env.auditId(audit[i].operationId))
    && (forall i, j :: 0 <= i < j < |audit| ==> audit[i].operationId != audit[j].operationId)
  }

  /** The operation has its audit row, if the catalog audits. */
  predicate Audited(env: Env, audit: seq<AuditRow>, id: string) {
    env.audits ==> HasAudit(audit, env.auditId(id))
  }

  /**
   The checkpoints of an operation tell the truth; a checkpoint passed without its own work means the content was
   catalogued.
   */
  ghost predicate OperationOk(env: Env, s: Store, id: string, op: Operation) {
    var r := op.request;
    && (op.temporaryKey.Some? ==> op.temporaryKey.value == Temporary(r.workspaceId, id))
    && UploadsOk(env, s.storages, r, id)
    && (op.storageKey.Some? ==>
          op.storageKey.value == Immutable(r.workspaceId, r.sha256) && Kept(env, s.storages, r.workspaceId, r.sha256))
    && (TemporaryUploadCreated in op.checkpoints ==> op.temporaryKey.Some? || HasRow(s.rows, r))
    && (BytesReceived in op.checkpoints ==>
          Received(env, s.storages, r, id) || Kept(env, s.storages, r.workspaceId, r.sha256))
    && (ImmutableObjectCommitted in op.checkpoints ==>
          Kept(env, s.storages, r.workspaceId, r.sha256) && (op.storageKey.Some? || HasRow(s.rows, r)))
    && (MetadataCommitted in op.checkpoints ==> HasRow(s.rows, r) && Audited(env, s.audit, id))
    && (op.result.Some? ==> BlobOk(s.rows, r, op.result.value.0))
  }

  ghost predicate BlobOk(rows: seq<Blob>, r: Request, blob: Blob) {
    Catalogued(rows, blob) && SameContent(blob, r.workspaceId, r.sha256)
  }

  // ---------- facts about an attempt ----------

  predicate Before(c: Checkpoint, completed: set<Checkpoint>) {
    forall d :: Rank(d) < Rank(c) ==> d in completed
  }

  /** The work of a checkpoint about to be recorded is in the durable state. */
  ghost predicate EffectDone(env: Env, s: Store, id: string, op: Operation, a: Attempt, c: Checkpoint)
    requires a.Running?
  {
    var r := op.request;
    match c
    case TemporaryUploadCreated => a.temporaryKey.Some? || HasRow(s.rows, r)
    case BytesReceived => Received(env, s.storages, r, id) || Kept(env, s.storages, r.workspaceId, r.sha256)
    case ImmutableObjectCommitted =>
      Kept(env, s.storages, r.workspaceId, r.sha256) && (a.storageKey.Some? || HasRow(s.rows, r))
    case MetadataCommitted => HasRow(s.rows, r) && Audited(env, s.audit, id) && a.blob.Some?
    case Completed => a.blob.Some?
    case _ => true
  }

  ghost predicate PlaceOk(env: Env, s: Store, id: string, op: Operation, a: Attempt)
    requires a.Running?
  {
    match a.place
    case Look => Authorised in a.completed && a.branch == Undecided
    case At(c) => Before(c, a.completed) && (c == Authorised <==> a.branch == Undecided)
    case SaveKey(key) =>
      && a.branch == Fresh && a.temporaryKey.Some? && Before(ImmutableObjectCommitted, a.completed)
      && key == Immutable(op.request.workspaceId, op.request.sha256)
      && Kept(env, s.storages, op.request.workspaceId, op.request.sha256)
    case Mark(c) =>
      Before(c, a.completed) && (c == Authorised <==> a.branch == Undecided) && EffectDone(env, s, id, op, a, c)
        && FreshMark(a, c)
  }

  /** A fresh attempt holds the keys it will ask for. */
  predicate FreshMark(a: Attempt, c: Checkpoint)
    requires a.Running?
  {
    a.branch == Fresh ==>
      (c == TemporaryUploadCreated ==> a.temporaryKey.Some?) && (c == ImmutableObjectCommitted ==> a.storageKey.Some?)
  }

  predicate FreshOk(a: Attempt)
    requires a.Running?
  {
    a.branch == Fresh ==>
      && (TemporaryUploadCreated in a.completed ==> a.temporaryKey.Some?)
      && (ImmutableObjectCommitted in a.completed ==> a.storageKey.Some?)
      && (MetadataCommitted in a.completed ==> a.blob.Some?)
  }

  ghost predicate AttemptOk(env: Env, s: Store, id: string, a: Attempt) {
    && id in s.operations
    && var op := s.operations[id];
       match a
       case Running(input, _, branch, completed, temporaryKey, storageKey, blob, _, _, _) =>
         && RequestOf(env, input) == op.request
         && completed == op.checkpoints && temporaryKey == op.temporaryKey && storageKey == op.storageKey
         && (blob.Some? ==> BlobOk(s.rows, op.request, blob.value))
         && (branch == Existing ==> blob.Some?) && FreshOk(a) && PlaceOk(env, s, id, op, a)
       case Returned(blob, _) => BlobOk(s.rows, op.request, blob) && Completed in op.checkpoints
       case Failed(error) => error != MissingContext && error != MissingBlob
  }

  ghost predicate StoreOk(env: Env, s: Store) {
    && RowsOk(env, s.rows, s.storages) && AuditOk(env, s.audit)
    && (forall id :: id in s.operations ==> OperationOk(env, s, id, s.operations[id]))
    && (forall key :: key in s.begun ==> s.begun[key] in s.operations)
    && TemporariesOwned(s) && ImmutablesOk(env, s)
  }

  /** Every immutable object lies under its own digest. */
  ghost predicate ImmutablesOk(env: Env, s: Store) {
    forall st, w, h :: Immutable(w, h) in In(s.storages, st) ==> Stored(env, In(s.storages, st), w, h)
  }

  /** Every temporary object belongs to an operation. */
  ghost predicate TemporariesOwned(s: Store) {
    forall st, w, id :: Temporary(w, id) in In(s.storages, st) ==> id in s.operations
  }

  ghost predicate Inv(env: Env, w: World) {
    StoreOk(env, w.store) && forall id :: id in w.attempts ==> AttemptOk(env, w.store, id, w.attempts[id])
  }

  // ---------- growth ----------

  /** Rows only gain, except for their bindings. */
  ghost predicate RowsGrow(a: seq<Blob>, b: seq<Blob>) {
    |a| <= |b| && forall i :: 0 <= i < |a| ==> b[i] == a[i].(bindingId := b[i].bindingId)
  }

  predicate SameAt(a: map<Key, Object>, b: map<Key, Object>, key: Key) {
    (key in a <==> key in b) && (key in a && key in b ==> a[key] == b[key])
  }

  /** Nothing committed is lost, what is committed is right, and other operations' uploads stay. */
  ghost predicate StorageGrows(env: Env, a: map<Key, Object>, b: map<Key, Object>, id: string) {
    && (forall w, h :: Stored(env, a, w, h) ==> Stored(env, b, w, h))
    && (forall w, h :: Immutable(w, h) in b ==> Immutable(w, h) in a || Stored(env, b, w, h))
    && (forall w, other :: other != id ==> SameAt(a, b, Temporary(w, other)))
  }

  lemma KeptGrows(env: Env, a: Store, b: Store, id: string)
    requires Grows(env, a, b, id)
    ensures forall w, h :: Kept(env, a.storages, w, h) ==> Kept(env, b.storages, w, h)
    ensures forall r: Request, other :: other != id ==>
              && (Received(env, a.storages, r, other) ==> Received(env, b.storages, r, other))
              && (UploadsOk(env, a.storages, r, other) ==> UploadsOk(env, b.storages, r, other))
  {
    forall w, h | Kept(env, a.storages, w, h) ensures Kept(env, b.storages, w, h) {
      var st :| Stored(env, In(a.storages, st), w, h);
      assert StorageGrows(env, In(a.storages, st), In(b.storages, st), id);
    }
    forall r: Request, other | other != id
      ensures Received(env, a.storages, r, other) ==> Received(env, b.storages, r, other)
      ensures UploadsOk(env, a.storages, r, other) ==> UploadsOk(env, b.storages, r, other)
    {
      OthersUploads(env, a, b, id, r, other);
    }
  }

  lemma OthersUploads(env: Env, a: Store, b: Store, id: string, r: Request, other: string)
    requires Grows(env, a, b, id) && other != id
    ensures Received(env, a.storages, r, other) ==> Received(env, b.storages, r, other)
    ensures UploadsOk(env, a.storages, r, other) ==> UploadsOk(env, b.storages, r, other)
  {
    hide Stored;
    hide RowsGrow;
    forall st ensures SameAt(In(a.storages, st), In(b.storages, st), Temporary(r.workspaceId, other)) {
      assert StorageGrows(env, In(a.storages, st), In(b.storages, st), id);
    }
    hide In;
    assert forall st :: Uploaded(env, In(a.storages, st), r, other) ==> Uploaded(env, In(b.storages, st), r, other);
  }

  /** What a step on one operation leaves to all others. */
  ghost predicate Grows(env: Env, a: Store, b: Store, id: string) {
    && RowsGrow(a.rows, b.rows) && a.audit <= b.audit
    && (forall st :: StorageGrows(env, In(a.storages, st), In(b.storages, st), id))
    && a.operations.Keys == b.operations.Keys && a.begun == b.begun
    && forall other :: other in a.operations && other != id ==> b.operations[other] == a.operations[other]
  }

  lemma RowsKeep(a: seq<Blob>, b: seq<Blob>, r: Request, blob: Blob)
    requires RowsGrow(a, b)
    ensures HasRow(a, r) ==> HasRow(b, r)
    ensures Catalogued(a, blob) ==> Catalogued(b, blob)
    ensures BlobOk(a, r, blob) ==> BlobOk(b, r, blob)
  {
    if i :| 0 <= i < |a| && SameContent(a[i], r.workspaceId, r.sha256) {
      assert SameContent(b[i], r.workspaceId, r.sha256);
    }
    if i :| 0 <= i < |a| && a[i] == blob.(bindingId := a[i].bindingId) {
      assert b[i] == blob.(bindingId := b[i].bindingId);
    }
  }

  lemma AuditKeeps(env: Env, a: seq<AuditRow>, b: seq<AuditRow>, id: string)
    requires a <= b && Audited(env, a, id)
    ensures Audited(env, b, id)
  {
    if env.audits {
      var i :| 0 <= i < |a| && a[i].id == env.auditId(id);
      assert b[i].id == env.auditId(id);
    }
  }

  lemma OthersKeep(env: Env, a: Store, b: Store, id: string, other: string)
    requires Grows(env, a, b, id) && other != id && other in a.operations
    requires OperationOk(env, a, other, a.operations[other])
    ensures OperationOk(env, b, other, b.operations[other])
  {
    hide HasRow;
    hide Catalogued;
    hide Audited;
    var op := a.operations[other];
    KeptGrows(env, a, b, id);
    hide Kept;
    hide Received;
    hide UploadsOk;
    RowsKeep(a.rows, b.rows, op.request, if op.result.Some? then op.result.value.0
      else Blob("", "", "", 0, "", Temporary("", ""), "", None));
    if MetadataCommitted in op.checkpoints {
      AuditKeeps(env, a.audit, b.audit, other);
    }
  }

  lemma OtherAttemptsKeep(env: Env, a: Store, b: Store, id: string, other: string, x: Attempt)
    requires Grows(env, a, b, id) && other != id && AttemptOk(env, a, other, x)
    ensures AttemptOk(env, b, other, x)
  {
    hide HasRow;
    hide Catalogued;
    hide Audited;
    hide FreshOk;
    var op := a.operations[other];
    var none := Blob("", "", "", 0, "", Temporary("", ""), "", None);
    KeptGrows(env, a, b, id);
    hide Kept;
    hide Received;
    hide UploadsOk;
    match x {
      case Running(_, place, _, _, _, _, blob, _, _, _) =>
        RowsKeep(a.rows, b.rows, op.request, if blob.Some? then blob.value else none);
        if place == Mark(MetadataCommitted) {
          AuditKeeps(env, a.audit, b.audit, other);
        }
      case Returned(blob, _) => RowsKeep(a.rows, b.rows, op.request, blob);
      case Failed(_) =>
    }
  }

  // ---------- the effects ----------

  lemma RowGivesContent(rows: seq<Blob>, r: Request, blob: Blob)
    requires BlobOk(rows, r, blob)
    ensures HasRow(rows, r)
  {
    var i :| 0 <= i < |rows| && rows[i] == blob.(bindingId := rows[i].bindingId);
    assert SameContent(rows[i], r.workspaceId, r.sha256);
  }

  lemma RowIsKept(env: Env, rows: seq<Blob>, all: Storages, r: Request)
    requires RowsOk(env, rows, all) && HasRow(rows, r)
    ensures Kept(env, all, r.workspaceId, r.sha256)
  {
    var i :| 0 <= i < |rows| && SameContent(rows[i], r.workspaceId, r.sha256);
    assert RowOk(env, all, rows[i]);
  }

  lemma RecordKeeps(env: Env, rows: seq<Blob>, all: Storages, r: Request, blob: Blob)
    requires RowsOk(env, rows, all) && SameContent(blob, r.workspaceId, r.sha256) && RowOk(env, all, blob)
    ensures var (rows', canonical) := RecordBlob(rows, blob);
            RowsOk(env, rows', all) && RowsGrow(rows, rows') && BlobOk(rows', r, canonical)
  {
    hide RowOk;
    var (rows', canonical) := RecordBlob(rows, blob);
    match FindByHash(rows, blob.workspaceId, blob.sha256) {
      case None =>
        assert rows'[|rows|] == canonical;
      case Some(i) =>
        assert rows'[i] == canonical;
        RowOkIgnoresBinding(env, all, rows[i], canonical);
        assert forall k :: 0 <= k < |rows| && k != i ==> rows'[k] == rows[k];
    }
  }

  lemma RowOkIgnoresBinding(env: Env, all: Storages, a: Blob, b: Blob)
    requires RowOk(env, all, a) && b == a.(bindingId := b.bindingId)
    ensures RowOk(env, all, b)
  {
  }

  lemma AppendKeeps(env: Env, audit: seq<AuditRow>, id: string, blobId: string)
    requires AuditOk(env, audit)
    ensures var audit' := AppendOnce(audit, AuditRow(env.auditId(id), id, blobId));
            AuditOk(env, audit') && audit <= audit' && HasAudit(audit', env.auditId(id))
  {
    var row := AuditRow(env.auditId(id), id, blobId);
    var audit' := AppendOnce(audit, row);
    if !HasAudit(audit, row.id) {
      assert audit'[|audit|] == row;
    }
  }

  /** Committing verified metadata: a row and an audit row, each once. */
  lemma CommitKeeps(env: Env, s: Store, id: string, r: Request, blob: Blob)
    requires RowsOk(env, s.rows, s.storages) && AuditOk(env, s.audit)
    requires SameContent(blob, r.workspaceId, r.sha256) && RowOk(env, s.storages, blob)
    ensures var (s', canonical) := CommitVerified(env, s, blob, id);
            && RowsOk(env, s'.rows, s'.storages) && AuditOk(env, s'.audit) && Grows(env, s, s', id)
            && BlobOk(s'.rows, r, canonical) && Audited(env, s'.audit, id)
  {
    hide RowsOk;
    hide AuditOk;
    hide RecordBlob;
    hide AppendOnce;
    RecordKeeps(env, s.rows, s.storages, r, blob);
    AppendKeeps(env, s.audit, id, RecordBlob(s.rows, blob).1.id);
  }

  /** Committing an uploaded object leaves it under its digest and touches no other operation's upload. */
  lemma ImmutableKeeps(env: Env, objects: map<Key, Object>, id: string, r: Request, byteLength: nat)
    requires CommitImmutable(env, objects, Temporary(r.workspaceId, id), r, byteLength).Ok?
    ensures var after := CommitImmutable(env, objects, Temporary(r.workspaceId, id), r, byteLength).value;
            && Stored(env, after, r.workspaceId, r.sha256) && StorageGrows(env, objects, after, id)
            && |after[Immutable(r.workspaceId, r.sha256)].bytes| == byteLength
            && forall w :: Temporary(w, id) in after ==>
                 Temporary(w, id) in objects && after[Temporary(w, id)] == objects[Temporary(w, id)]
  {
  }

  /** Changing one storage. */
  lemma OneStorageGrows(env: Env, s: Store, id: string, st: Storage, objects: map<Key, Object>)
    requires StorageGrows(env, In(s.storages, st), objects, id)
    ensures Grows(env, s, s.(storages := s.storages[st := objects]), id)
  {
    var all := s.storages[st := objects];
    forall x ensures StorageGrows(env, In(s.storages, x), In(all, x), id) {
      if x != st {
        assert In(all, x) == In(s.storages, x);
        SameGrows(env, In(all, x), id);
      }
    }
  }

  lemma SameGrows(env: Env, objects: map<Key, Object>, id: string)
    ensures StorageGrows(env, objects, objects, id)
  {
  }

  lemma RowsStay(env: Env, rows: seq<Blob>, a: Storages, b: Storages)
    requires RowsOk(env, rows, a) && forall w, h :: Kept(env, a, w, h) ==> Kept(env, b, w, h)
    ensures RowsOk(env, rows, b)
  {
    hide Kept;
    forall i | 0 <= i < |rows| ensures RowOk(env, b, rows[i]) {
      assert RowOk(env, a, rows[i]);
    }
  }

  // ---------- every step keeps it ----------

  /** The state after a step on `id` is good for `id` and leaves the others alone. */
  ghost predicate StepGood(env: Env, s: Store, id: string, s': Store, a': Attempt) {
    && Grows(env, s, s', id) && RowsOk(env, s'.rows, s'.storages) && AuditOk(env, s'.audit)
    && id in s'.operations && OperationOk(env, s', id, s'.operations[id]) && AttemptOk(env, s', id, a')
  }

  ghost predicate Ready(env: Env, s: Store, id: string, a: Attempt) {
    && RowsOk(env, s.rows, s.storages) && AuditOk(env, s.audit)
    && id in s.operations && OperationOk(env, s, id, s.operations[id]) && AttemptOk(env, s, id, a) && a.Running?
  }

  lemma UpdateGrows(env: Env, s: Store, id: string, op: Operation)
    requires id in s.operations
    ensures Grows(env, s, s.(operations := s.operations[id := op]), id)
  {
  }

  lemma LookKeeps(env: Env, s: Store, id: string, a: Attempt)
    requires Ready(env, s, id, a) && a.place == Look
    ensures var (s', a') := StepOf(env, s, id, a); StepGood(env, s, id, s', a')
  {
    hide RowsOk;
    hide AuditOk;
    var r := s.operations[id].request;
    match FindByHash(s.rows, r.workspaceId, r.sha256) {
      case None =>
        NoRowNoBlob(s.rows, r);
      case Some(i) =>
        assert s.rows[i] == s.rows[i].(bindingId := s.rows[i].bindingId);
        assert Catalogued(s.rows, s.rows[i]);
    }
  }

  lemma NoRowNoBlob(rows: seq<Blob>, r: Request)
    requires FindByHash(rows, r.workspaceId, r.sha256) == None
    ensures !HasRow(rows, r) && forall blob :: !BlobOk(rows, r, blob)
  {
    forall blob ensures !BlobOk(rows, r, blob) {
      if BlobOk(rows, r, blob) {
        RowGivesContent(rows, r, blob);
      }
    }
  }

  lemma SkipKeeps(env: Env, s: Store, id: string, a: Attempt, c: Checkpoint)
    requires Ready(env, s, id, a) && a.place == At(c) && c in a.completed && c != Completed
    ensures StepGood(env, s, id, s, a.(place := After(c)))
  {
    hide RowsOk;
    hide AuditOk;
    hide HasRow;
    hide Audited;
    hide BlobOk;
  }

  lemma SaveKeeps(env: Env, s: Store, id: string, a: Attempt)
    requires Ready(env, s, id, a) && a.place.SaveKey?
    ensures var (s', a') := StepOf(env, s, id, a); StepGood(env, s, id, s', a')
  {
    hide RowsOk;
    hide AuditOk;
    hide HasRow;
    hide Audited;
    hide BlobOk;
  }

  lemma MarkKeeps(env: Env, s: Store, id: string, a: Attempt, c: Checkpoint)
    requires Ready(env, s, id, a) && a.place == Mark(c)
    ensures var (s', a') := StepOf(env, s, id, a); StepGood(env, s, id, s', a')
  {
    hide RowsOk;
    hide AuditOk;
    hide HasRow;
    hide Audited;
    hide BlobOk;
    hide Stored;
    hide Uploaded;
    hide Kept;
    hide Received;
    hide UploadsOk;
    hide Grows;
    var op := s.operations[id];
    UpdateGrows(env, s, id, op.(checkpoints := op.checkpoints + {c}));
    assert c == MetadataCommitted ==> a.blob.Some?;
  }

  /** Passing a checkpoint of catalogued content needs no work. */
  lemma ExistingKeeps(env: Env, s: Store, id: string, a: Attempt, c: Checkpoint)
    requires Ready(env, s, id, a) && a.place == At(c) && a.branch == Existing
    requires c in {TemporaryUploadCreated, BytesReceived, ImmutableObjectCommitted}
    ensures StepGood(env, s, id, s, a.(place := Mark(c)))
  {
    hide AuditOk;
    hide Audited;
    var r := s.operations[id].request;
    RowGivesContent(s.rows, r, a.blob.value);
    RowIsKept(env, s.rows, s.storages, r);
    hide RowsOk;
    hide HasRow;
    hide BlobOk;
  }

  lemma UploadKeeps(env: Env, s: Store, id: string, a: Attempt)
    requires Ready(env, s, id, a) && a.place == At(TemporaryUploadCreated) && TemporaryUploadCreated !in a.completed
    requires a.branch == Fresh
    ensures var (s', a') := Effect(env, s, id, a, TemporaryUploadCreated); StepGood(env, s, id, s', a')
  {
    hide RowsOk;
    hide AuditOk;
    hide Audited;
    hide HasRow;
    hide BlobOk;
    hide Stored;
    hide Uploaded;
    hide SafeId;
    hide Grows;
    NothingGrows(env, s, id);
    UpdateGrows(env, s, id, s.operations[id].(temporaryKey := Some(Temporary(a.input.workspaceId, id))));
  }

  lemma WriteGrows(env: Env, objects: map<Key, Object>, id: string, workspaceId: string, upload: Object)
    ensures StorageGrows(env, objects, objects[Temporary(workspaceId, id) := upload], id)
  {
  }

  /** Replacing the objects of a storage, with nothing committed lost, keeps what is known of an operation. */
  lemma ObjectsKeep(env: Env, s: Store, id: string, op: Operation, st: Storage, objects: map<Key, Object>)
    requires OperationOk(env, s, id, op) && Grows(env, s, s.(storages := s.storages[st := objects]), id)
    requires Temporary(op.request.workspaceId, id) in objects ==> Uploaded(env, objects, op.request, id)
    requires Uploaded(env, objects, op.request, id) || Stored(env, objects, op.request.workspaceId, op.request.sha256)
    ensures OperationOk(env, s.(storages := s.storages[st := objects]), id, op)
    ensures var all := s.storages[st := objects];
            Received(env, all, op.request, id) || Kept(env, all, op.request.workspaceId, op.request.sha256)
  {
    hide Audited;
    hide HasRow;
    hide BlobOk;
    hide Uploaded;
    hide Stored;
    KeptGrows(env, s, s.(storages := s.storages[st := objects]), id);
    hide Grows;
    assert In(s.storages[st := objects], st) == objects;
    assert forall x :: x != st ==> In(s.storages[st := objects], x) == In(s.storages, x);
    hide In;
  }

  lemma ReceiveKeeps(env: Env, s: Store, id: string, a: Attempt)
    requires Ready(env, s, id, a) && a.place == At(BytesReceived) && BytesReceived !in a.completed && a.branch == Fresh
    ensures var (s', a') := Effect(env, s, id, a, BytesReceived); StepGood(env, s, id, s', a')
  {
    hide AuditOk;
    hide Audited;
    hide HasRow;
    hide BlobOk;
    hide RowsOk;
    hide Grows;
    assert TemporaryUploadCreated in a.completed;
    var op, st := s.operations[id], a.input.bindingId;
    var upload := Object(a.input.bytes, a.input.mediaType);
    var objects := In(s.storages, st)[Temporary(op.request.workspaceId, id) := upload];
    WriteGrows(env, In(s.storages, st), id, op.request.workspaceId, upload);
    OneStorageGrows(env, s, id, st, objects);
    KeptGrows(env, s, s.(storages := s.storages[st := objects]), id);
    RowsStay(env, s.rows, s.storages, s.storages[st := objects]);
    ObjectsKeep(env, s, id, op, st, objects);
    NothingGrows(env, s, id);
    hide In;
    hide Kept;
    hide Received;
    hide UploadsOk;
    hide StorageGrows;
  }

  lemma NothingGrows(env: Env, s: Store, id: string)
    ensures Grows(env, s, s, id)
  {
  }

  lemma CommitObjectKeeps(env: Env, s: Store, id: string, a: Attempt)
    requires Ready(env, s, id, a) && a.place == At(ImmutableObjectCommitted) && ImmutableObjectCommitted !in a.completed
    requires a.branch == Fresh
    ensures var (s', a') := Effect(env, s, id, a, ImmutableObjectCommitted); StepGood(env, s, id, s', a')
  {
    hide AuditOk;
    hide Audited;
    hide HasRow;
    hide BlobOk;
    hide RowsOk;
    hide CommitImmutable;
    hide Stored;
    hide Grows;
    hide StorageGrows;
    var op, st := s.operations[id], a.input.bindingId;
    var r := op.request;
    assert TemporaryUploadCreated in a.completed;
    NothingGrows(env, s, id);
    var commit := CommitImmutable(env, In(s.storages, st), a.temporaryKey.value, r, |a.input.bytes|);
    if commit.Ok? {
      ImmutableKeeps(env, In(s.storages, st), id, r, |a.input.bytes|);
      var objects := commit.value;
      OneStorageGrows(env, s, id, st, objects);
      KeptGrows(env, s, s.(storages := s.storages[st := objects]), id);
      RowsStay(env, s.rows, s.storages, s.storages[st := objects]);
      assert Temporary(r.workspaceId, id) in objects ==> Uploaded(env, In(s.storages, st), r, id);
      ObjectsKeep(env, s, id, op, st, objects);
      assert In(s.storages[st := objects], st) == objects;
      assert Kept(env, s.storages[st := objects], r.workspaceId, r.sha256);
      hide In;
      hide Kept;
      hide Received;
      hide UploadsOk;
    } else {
      CommitErrors(env, In(s.storages, st), a.temporaryKey.value, r, |a.input.bytes|);
    }
  }

  lemma CommitErrors(env: Env, objects: map<Key, Object>, temporary: Key, r: Request, byteLength: nat)
    ensures match CommitImmutable(env, objects, temporary, r, byteLength) case Err(e) => e ==
            StorageRefused case Ok(_) => true
  {
  }

  lemma MetadataKeeps(env: Env, s: Store, id: string, a: Attempt)
    requires Ready(env, s, id, a) && a.place == At(MetadataCommitted) && MetadataCommitted !in a.completed
    ensures var (s', a') := Effect(env, s, id, a, MetadataCommitted); StepGood(env, s, id, s', a')
  {
    hide RowsOk;
    hide AuditOk;
    hide HasRow;
    hide Audited;
    hide CommitVerified;
    hide Grows;
    hide Uploaded;
    var r := s.operations[id].request;
    assert ImmutableObjectCommitted in a.completed;
    if a.branch == Existing && !env.audits {
      RowGivesContent(s.rows, r, a.blob.value);
      NothingGrows(env, s, id);
      NothingToAudit(env, s.audit, id);
    } else if a.branch == Existing {
      CataloguedRowOk(env, s.rows, s.storages, a.blob.value);
      CommitKeeps(env, s, id, r, a.blob.value);
      MetadataDone(env, s, id, a, a.blob.value);
    } else {
      assert a.branch == Fresh;
      var candidate := Candidate(env, a, a.storageKey.value);
      CommitKeeps(env, s, id, r, candidate);
      MetadataDone(env, s, id, a, candidate);
    }
  }

  lemma NothingToAudit(env: Env, audit: seq<AuditRow>, id: string)
    requires !env.audits
    ensures Audited(env, audit, id)
  {
  }

  lemma CataloguedRowOk(env: Env, rows: seq<Blob>, all: Storages, blob: Blob)
    requires RowsOk(env, rows, all) && Catalogued(rows, blob)
    ensures RowOk(env, all, blob)
  {
    var i :| 0 <= i < |rows| && rows[i] == blob.(bindingId := rows[i].bindingId);
    assert RowOk(env, all, rows[i]);
  }

  lemma MetadataDone(env: Env, s: Store, id: string, a: Attempt, blob: Blob)
    requires Ready(env, s, id, a) && a.place == At(MetadataCommitted) && a.branch != Undecided
    requires var (s', canonical) := CommitVerified(env, s, blob, id);
             && RowsOk(env, s'.rows, s'.storages) && AuditOk(env, s'.audit) && Grows(env, s, s', id)
             && BlobOk(s'.rows, s.operations[id].request, canonical) && Audited(env, s'.audit, id)
    ensures var (s', canonical) := CommitVerified(env, s, blob, id);
            StepGood(env, s, id, s', a.(place := Mark(MetadataCommitted), blob := Some(canonical)))
  {
    hide RowsOk;
    hide AuditOk;
    hide Audited;
    hide HasRow;
    hide Catalogued;
    hide RecordBlob;
    hide AppendOnce;
    var (s', canonical) := CommitVerified(env, s, blob, id);
    var op := s.operations[id];
    var none := Blob("", "", "", 0, "", Temporary("", ""), "", None);
    RowGivesContent(s'.rows, op.request, canonical);
    RowsKeep(s.rows, s'.rows, op.request, if op.result.Some? then op.result.value.0 else none);
    if MetadataCommitted in op.checkpoints {
      AuditKeeps(env, s.audit, s'.audit, id);
    }
  }

  lemma CompleteKeeps(env: Env, s: Store, id: string, a: Attempt)
    requires Ready(env, s, id, a) && a.place == At(Completed) && a.blob.Some?
    ensures var (s', a') := StepOf(env, s, id, a); StepGood(env, s, id, s', a')
  {
    hide RowsOk;
    hide AuditOk;
    hide Audited;
    hide HasRow;
    hide BlobOk;
    hide Stored;
    hide Uploaded;
    hide Grows;
    NothingGrows(env, s, id);
    UpdateGrows(env, s, id, s.operations[id].(result := Some((a.blob.value, a.deduplicated))));
  }

  /** An attempt that reaches the end knows its blob. */
  lemma BlobKnown(env: Env, s: Store, id: string, a: Attempt)
    requires Ready(env, s, id, a) && a.place == At(Completed)
    ensures a.blob.Some?
  {
    assert MetadataCommitted in a.completed;
  }

  lemma SimpleKeeps(env: Env, s: Store, id: string, a: Attempt, c: Checkpoint)
    requires Ready(env, s, id, a) && a.place == At(c) && c !in a.completed
    requires c in {Authorised, HashVerified, AuditCommitted}
    ensures var (s', a') := Effect(env, s, id, a, c); StepGood(env, s, id, s', a')
  {
    hide RowsOk;
    hide AuditOk;
    hide Audited;
    hide HasRow;
    hide BlobOk;
  }

  lemma OwnStepKeeps(env: Env, s: Store, id: string, a: Attempt)
    requires Ready(env, s, id, a)
    ensures var (s', a') := StepOf(env, s, id, a); StepGood(env, s, id, s', a')
  {
    hide StepGood;
    hide RowsOk;
    hide AuditOk;
    hide OperationOk;
    match a.place {
      case Look => LookKeeps(env, s, id, a);
      case SaveKey(_) => SaveKeeps(env, s, id, a);
      case Mark(c) => MarkKeeps(env, s, id, a, c);
      case At(c) =>
        if c == Completed {
          BlobKnown(env, s, id, a);
          CompleteKeeps(env, s, id, a);
        } else if c in a.completed {
          SkipKeeps(env, s, id, a, c);
        } else {
          EffectKeeps(env, s, id, a, c);
        }
    }
  }

  lemma EffectKeeps(env: Env, s: Store, id: string, a: Attempt, c: Checkpoint)
    requires Ready(env, s, id, a) && a.place == At(c) && c !in a.completed && c != Completed
    ensures var (s', a') := Effect(env, s, id, a, c); StepGood(env, s, id, s', a')
  {
    hide StepGood;
    hide RowsOk;
    hide AuditOk;
    hide OperationOk;
    match c {
      case TemporaryUploadCreated =>
        if a.branch == Existing { ExistingKeeps(env, s, id, a, c); } else { UploadKeeps(env, s, id, a); }
      case BytesReceived =>
        if a.branch == Existing { ExistingKeeps(env, s, id, a, c); } else { ReceiveKeeps(env, s, id, a); }
      case ImmutableObjectCommitted =>
        if a.branch == Existing { ExistingKeeps(env, s, id, a, c); } else { CommitObjectKeeps(env, s, id, a); }
      case MetadataCommitted => MetadataKeeps(env, s, id, a);
      case _ => SimpleKeeps(env, s, id, a, c);
    }
  }

  lemma WorkKeeps(env: Env, w: World, id: string)
    requires Inv(env, w) && Busy(w, id)
    ensures Inv(env, Next(env, w, Work(id)))
  {
    hide RowsOk;
    hide AuditOk;
    hide OperationOk;
    hide AttemptOk;
    hide StepOf;
    assert AttemptOk(env, w.store, id, w.attempts[id]);
    AttemptHasOperation(env, w.store, id, w.attempts[id]);
    OwnStepKeeps(env, w.store, id, w.attempts[id]);
    var (s', a') := StepOf(env, w.store, id, w.attempts[id]);
    hide Grows;
    SpreadGood(env, w, id, s', a');
  }

  lemma AttemptHasOperation(env: Env, s: Store, id: string, a: Attempt)
    requires AttemptOk(env, s, id, a)
    ensures id in s.operations
  {
  }

  lemma SpreadGood(env: Env, w: World, id: string, s': Store, a': Attempt)
    requires Inv(env, w) && StepGood(env, w.store, id, s', a')
    ensures Inv(env, World(s', w.attempts[id := a']))
  {
    hide RowsOk;
    hide AuditOk;
    hide OperationOk;
    hide AttemptOk;
    GrowsSameOperations(env, w.store, s', id);
    GrowsKeepsOwners(env, w.store, s', id);
    forall other | other in s'.operations ensures OperationOk(env, s', other, s'.operations[other]) {
      if other != id {
        OthersKeep(env, w.store, s', id, other);
      }
    }
    forall other | other in w.attempts && other != id ensures AttemptOk(env, s', other, w.attempts[other]) {
      OtherAttemptsKeep(env, w.store, s', id, other, w.attempts[other]);
    }
  }

  lemma GrowsSameOperations(env: Env, a: Store, b: Store, id: string)
    requires Grows(env, a, b, id)
    ensures a.operations.Keys == b.operations.Keys && a.begun == b.begun
  {
  }

  lemma GrowsKeepsOwners(env: Env, a: Store, b: Store, id: string)
    requires Grows(env, a, b, id) && TemporariesOwned(a) && ImmutablesOk(env, a) && id in b.operations
    ensures TemporariesOwned(b) && ImmutablesOk(env, b)
  {
    hide Stored;
    forall st, w, other | Temporary(w, other) in In(b.storages, st) ensures other in b.operations {
      assert StorageGrows(env, In(a.storages, st), In(b.storages, st), id);
      if other != id {
        assert SameAt(In(a.storages, st), In(b.storages, st), Temporary(w, other));
      }
    }
    forall st, w, h | Immutable(w, h) in In(b.storages, st) ensures Stored(env, In(b.storages, st), w, h) {
      assert StorageGrows(env, In(a.storages, st), In(b.storages, st), id);
    }
  }

  lemma BeginKeeps(env: Env, w: World, step: Step)
    requires Inv(env, w) && step.Begin? && Enabled(env, w, step)
    ensures Inv(env, Next(env, w, step))
  {
    hide RowsOk;
    hide AuditOk;
    hide HasRow;
    hide Audited;
    hide BlobOk;
    var input := step.input;
    var key := (input.workspaceId, input.idempotencyKey);
    if key in w.store.begun {
      var id := w.store.begun[key];
      assert OperationOk(env, w.store, id, w.store.operations[id]);
    } else {
      NewKeeps(env, w, step);
    }
  }

  lemma NewKeeps(env: Env, w: World, step: Step)
    requires Inv(env, w) && step.Begin? && Enabled(env, w, step)
    requires (step.input.workspaceId, step.input.idempotencyKey) !in w.store.begun
    ensures Inv(env, Next(env, w, step))
  {
    hide RowsOk;
    hide AuditOk;
    hide OperationOk;
    hide AttemptOk;
    var w' := Next(env, w, step);
    forall id | id in w.attempts ensures AttemptOk(env, w'.store, id, w'.attempts[id]) {
      AttemptHasOperation(env, w.store, id, w.attempts[id]);
      SameStateSameAttempt(env, w.store, w'.store, id, w.attempts[id]);
    }
    forall id | id in w.store.operations ensures OperationOk(env, w'.store, id, w'.store.operations[id]) {
      SameStateSameOperation(env, w.store, w'.store, id, w.store.operations[id]);
    }
    NewOperationOk(env, w'.store, step.newId, step.input, step.newBlobId, step.now);
  }

  lemma NewOperationOk(env: Env, s: Store, id: string, input: Input, newBlobId: string, now: string)
    requires id in s.operations && s.operations[id] == NewOperation(env, input)
    requires forall st, w :: Temporary(w, id) !in In(s.storages, st)
    ensures OperationOk(env, s, id, NewOperation(env, input))
    ensures AttemptOk(env, s, id, Resume(input, NewOperation(env, input), newBlobId, now))
  {
    hide HasRow;
    hide Audited;
    hide BlobOk;
    hide Stored;
    hide Uploaded;
  }

  lemma SameStateSameOperation(env: Env, a: Store, b: Store, id: string, op: Operation)
    requires OperationOk(env, a, id, op) && a.rows == b.rows && a.audit == b.audit && a.storages == b.storages
    ensures OperationOk(env, b, id, op)
  {
  }

  lemma SameStateSameAttempt(env: Env, a: Store, b: Store, id: string, x: Attempt)
    requires AttemptOk(env, a, id, x) && a.rows == b.rows && a.audit == b.audit && a.storages == b.storages
    requires id in b.operations && a.operations[id] == b.operations[id]
    ensures AttemptOk(env, b, id, x)
  {
    hide HasRow;
    hide Audited;
    hide BlobOk;
    hide Stored;
    hide Uploaded;
  }

  lemma StepKeeps(env: Env, w: World, step: Step)
    requires Inv(env, w) && Enabled(env, w, step)
    ensures Inv(env, Next(env, w, step))
  {
    hide StoreOk;
    hide AttemptOk;
    match step
    case Begin(_, _, _, _) => BeginKeeps(env, w, step);
    case Work(id) => WorkKeeps(env, w, id);
    case Crash(_) =>
  }

  /**
   Over every run: the metadata checkpoint implies a catalogued hash, a catalogued hash implies its
   committed object, there is one row per workspace and hash and at most one audit row per operation,
   and no attempt fails for missing context or a missing blob.
   */
  lemma {:induction false} RunsAreSafe(env: Env, w: World, steps: seq<Step>)
    requires Inv(env, w) && Legal(env, w, steps)
    ensures Inv(env, Run(env, w, steps))
  {
    hide Inv;
    hide Enabled;
    hide Next;
    if steps != [] {
      var n := |steps| - 1;
      RunsAreSafe(env, w, steps[..n]);
      StepKeeps(env, Run(env, w, steps[..n]), steps[n]);
    }
  }

  lemma EmptyIsSafe(env: Env)
    ensures Inv(env, EMPTY)
  {
  }

  /** The guarantees of every run from an empty system, spelled out. */
  lemma IngestGuarantees(env: Env, steps: seq<Step>, id: string)
    requires Legal(env, EMPTY, steps)
    ensures var w := Run(env, EMPTY, steps);
            var s := w.store;
            && (id in s.operations && MetadataCommitted in s.operations[id].checkpoints ==>
                  HasRow(s.rows, s.operations[id].request) && (env.audits ==> HasAudit(s.audit, env.auditId(id))))
            && (forall i :: 0 <= i < |s.rows| ==> Kept(env, s.storages, s.rows[i].workspaceId, s.rows[i].sha256))
            && (forall i, j :: 0 <= i < j < |s.rows| ==>
                 !SameContent(s.rows[i], s.rows[j].workspaceId, s.rows[j].sha256))
            && (forall i, j :: 0 <= i < j < |s.audit| ==> s.audit[i].operationId != s.audit[j].operationId)
            && (id in w.attempts ==> w.attempts[id] != Failed(MissingContext) && w.attempts[id] != Failed(MissingBlob))
            && (id in w.attempts && w.attempts[id].Returned? ==> Catalogued(s.rows, w.attempts[id].stored))
  {
    hide Run;
    hide Legal;
    EmptyIsSafe(env);
    RunsAreSafe(env, EMPTY, steps);
    var w := Run(env, EMPTY, steps);
    assert id in w.store.operations ==> OperationOk(env, w.store, id, w.store.operations[id]);
    assert id in w.attempts ==> AttemptOk(env, w.store, id, w.attempts[id]);
    assert forall i :: 0 <= i < |w.store.rows| ==> RowOk(env, w.store.storages, w.store.rows[i]);
  }
}
