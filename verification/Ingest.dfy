/**
 Object ingest (packages/operations/src/object-ingest.ts) as it runs against a durable operation
 store, a blob catalog and an object storage (packages/persistence-postgres/src/operation-store.ts and
 blob-catalog.ts, packages/storage/src/memory-object-storage.ts). One attempt works on one operation;
 attempts of different operations interleave, and any of them may crash between two durable effects.
 */
module Ingest {
  import opened Base
  import opened Text

  datatype Checkpoint =
    | Authorised | TemporaryUploadCreated | BytesReceived | HashVerified
    | ImmutableObjectCommitted | MetadataCommitted | AuditCommitted | Completed

  function Rank(c: Checkpoint): nat {
    match c
    case Authorised => 0
    case TemporaryUploadCreated => 1
    case BytesReceived => 2
    case HashVerified => 3
    case ImmutableObjectCommitted => 4
    case MetadataCommitted => 5
    case AuditCommitted => 6
    case Completed => 7
  }

  /** What an operation is asked to store; its digest is what an idempotency key is bound to. */
  datatype Request = Request(workspaceId: string, mediaType: string, sha256: string)

  datatype Input = Input(
    workspaceId: string, actorId: string, idempotencyKey: string, bytes: Bytes, mediaType: string,
    bindingId: Option<string>)

  /** Object keys: one temporary object per operation, one immutable object per workspace and digest. */
  datatype Key = Temporary(workspaceId: string, operationId: string) | Immutable(workspaceId: string, sha256: string)

  datatype Object = Object(bytes: Bytes, mediaType: string)

  datatype Blob = Blob(
    id: string, workspaceId: string, sha256: string, byteLength: nat, mediaType: string, storageKey: Key,
    createdAt: string,
    bindingId: Option<string>)

  /** `home` notes the storage of the first attempt, which the source does not record. */
  datatype Operation = Operation(
    request: Request, requestHash: string, checkpoints: set<Checkpoint>, temporaryKey: Option<Key>,
    storageKey: Option<Key>,
    result: Option<(Blob, bool)>, home: Option<string>)

  datatype AuditRow = AuditRow(id: string, operationId: string, blobId: string)

  /** The storage of a binding; None is the platform's own. */
  type Storage = Option<string>

  type Storages = map<Storage, map<Key, Object>>

  /** The objects in one storage. */
  function In(storages: Storages, storage: Storage): map<Key, Object> {
    if storage in storages then storages[storage] else map[]
  }

  /** Everything durable. */
  datatype Store = Store(
    begun: map<(string, string), string>, operations: map<string, Operation>, rows: seq<Blob>, audit: seq<AuditRow>,
    storages: Storages)

  /**
   SHA-256 of bytes and of a request, the audit row id derived from an operation id, and whether the catalog
   commits metadata together with an audit row.
   */
  datatype Env = Env(hash: Bytes -> string, requestHash: Request -> string, auditId: string -> string, audits: bool)

  datatype Error =
    | DifferentRequest | Unauthorised | MissingContext | LengthMismatch | StorageRefused | VerificationFailed
    | MissingBlob

  // ---------- the catalog ----------

  predicate SameContent(b: Blob, workspaceId: string, sha256: string) {
    b.workspaceId == workspaceId && b.sha256 == sha256
  }

  function FindByHash(rows: seq<Blob>, workspaceId: string, sha256: string): (r: Option<nat>)
    ensures match r
            case Some(i) => i < |rows| && SameContent(rows[i], workspaceId, sha256)
            case None => forall i :: 0 <= i < |rows| ==> !SameContent(rows[i], workspaceId, sha256)
  {
    if rows == [] then None
    else
      var n := |rows| - 1;
      if SameContent(rows[n], workspaceId, sha256) then Some(n) else FindByHash(rows[..n], workspaceId, sha256)
  }

  /** Inserts a row, or on a row with the same content updates its binding; answers with the row. */
  function RecordBlob(rows: seq<Blob>, blob: Blob): (seq<Blob>, Blob) {
    match FindByHash(rows, blob.workspaceId, blob.sha256)
    case None => (rows + [blob], blob)
    case Some(i) =>
      var row := rows[i].(bindingId := if blob.bindingId.Some? then blob.bindingId else rows[i].bindingId);
      (rows[i := row], row)
  }

  predicate HasAudit(audit: seq<AuditRow>, id: string) {
    exists i :: 0 <= i < |audit| && audit[i].id == id
  }

  /** Inserts the audit row of an operation unless its id is taken. */
  function AppendOnce(audit: seq<AuditRow>, row: AuditRow): seq<AuditRow> {
    if HasAudit(audit, row.id) then audit else audit + [row]
  }

  /** Records the metadata, and in a catalog that audits the audit row with it. */
  function CommitVerified(env: Env, s: Store, blob: Blob, operationId: string): (Store, Blob) {
    var (rows, canonical) := RecordBlob(s.rows, blob);
    var audit := if env.audits then AppendOnce(s.audit, AuditRow(env.auditId(operationId), operationId, canonical.id))
      else s.audit;
    (s.(rows := rows, audit := audit), canonical)
  }

  // ---------- the object storage ----------

  predicate IsIdChar(c: char) { 'a' <= c <= 'z' || 'A' <= c <= 'Z' || '0' <= c <= '9' || c in "_-" }

  predicate SafeId(id: string) { id != "" && forall i :: 0 <= i < |id| ==> IsIdChar(id[i]) }

  function CommitImmutable(env: Env, objects: map<Key, Object>, temporary: Key, request: Request, byteLength: nat)
    : Result<map<Key, Object>, Error>
  {
    var key := Immutable(request.workspaceId, request.sha256);
    if Trim(request.mediaType) == "" || !SafeId(request.workspaceId) then Err(StorageRefused)
    else if temporary !in objects then
      if key in objects && env.hash(objects[key].bytes) == request.sha256 && |objects[key].bytes| == byteLength
      then Ok(objects) else Err(StorageRefused)
    else
      var t := objects[temporary];
      if env.hash(t.bytes) != request.sha256 || |t.bytes| != byteLength || t.mediaType != request.mediaType
        then Err(StorageRefused)
      else if key !in objects then Ok((objects - {temporary})[key := t])
      else if env.hash(objects[key].bytes) == request.sha256 && |objects[key].bytes| == byteLength
      then Ok(objects - {temporary}) else Err(StorageRefused)
  }

  // ---------- one attempt ----------

  datatype Branch = Undecided | Fresh | Existing

  /**
   Where an attempt is: before a checkpoint, between the two effects of the immutable commit, or about to record a
   checkpoint.
   */
  datatype Place = Look | At(c: Checkpoint) | SaveKey(key: Key) | Mark(c: Checkpoint)

  datatype Attempt =
    | Running(
        input: Input, place: Place, branch: Branch, completed: set<Checkpoint>, temporaryKey: Option<Key>,
        storageKey: Option<Key>, blob: Option<Blob>, deduplicated: bool, newBlobId: string, now: string)
    | Returned(stored: Blob, reused: bool)
    | Failed(error: Error)

  function RequestOf(env: Env, input: Input): Request {
    Request(input.workspaceId, input.mediaType, env.hash(input.bytes))
  }

  /** The place after a checkpoint that is done or was done before. */
  function After(c: Checkpoint): Place {
    match c
    case Authorised => Look
    case TemporaryUploadCreated => At(BytesReceived)
    case BytesReceived => At(HashVerified)
    case HashVerified => At(ImmutableObjectCommitted)
    case ImmutableObjectCommitted => At(MetadataCommitted)
    case MetadataCommitted => At(AuditCommitted)
    case AuditCommitted => At(Completed)
    case Completed => At(Completed)
  }

  function Resume(input: Input, op: Operation, newBlobId: string, now: string): Attempt {
    Running(input, At(Authorised), Undecided, op.checkpoints, op.temporaryKey, op.storageKey,
            match op.result case Some(r) => Some(r.0) case None => None,
            match op.result case Some(r) => r.1 case None => false, newBlobId, now)
  }

  predicate Authorisable(input: Input) {
    input.workspaceId != "" && input.actorId != "" && input.idempotencyKey != "" && input.mediaType != ""
  }

  function Candidate(env: Env, a: Attempt, key: Key): Blob
    requires a.Running?
  {
    Blob(a.newBlobId, a.input.workspaceId, env.hash(a.input.bytes), |a.input.bytes|, a.input.mediaType, key, a.now,
         a.input.bindingId)
  }

  /** The effect of a checkpoint that is not yet done, up to its first durable write. */
  function Effect(env: Env, s: Store, id: string, a: Attempt, c: Checkpoint): (Store, Attempt)
    requires a.Running? && id in s.operations
  {
    var op := s.operations[id];
    var done := a.(place := Mark(c));
    match c
    case Authorised => (s, if Authorisable(a.input) then done else Failed(Unauthorised))
    case TemporaryUploadCreated =>
      if a.branch == Existing then (s, done)
      else if !SafeId(a.input.workspaceId) || !SafeId(id) then (s, Failed(StorageRefused))
      else
        var key := Some(Temporary(a.input.workspaceId, id));
        (s.(operations := s.operations[id := op.(temporaryKey := key)]), done.(temporaryKey := key))
    case BytesReceived =>
      if a.branch == Existing then (s, done)
      else if a.temporaryKey == None then (s, Failed(MissingContext))
      else if Trim(a.input.mediaType) == "" then (s, Failed(StorageRefused))
      else
        var upload := Object(a.input.bytes, a.input.mediaType);
        var objects := In(s.storages, a.input.bindingId)[a.temporaryKey.value := upload];
        (s.(storages := s.storages[a.input.bindingId := objects]), done)
    case HashVerified => (s, done)
    case ImmutableObjectCommitted =>
      if a.branch == Existing then (s, done)
      else if a.temporaryKey == None then (s, Failed(MissingContext))
      else
        (match CommitImmutable(
           env, In(s.storages, a.input.bindingId), a.temporaryKey.value, RequestOf(env, a.input), |a.input.bytes|)
         case Err(e) => (s, Failed(e))
         case Ok(objects) =>
           (s.(storages := s.storages[a.input.bindingId := objects]),
            a.(place := SaveKey(Immutable(a.input.workspaceId, env.hash(a.input.bytes))))))
    case MetadataCommitted =>
      if a.branch == Existing then
        if !env.audits then (s, done)
        else if a.blob == None then (s, Failed(MissingBlob))
        else
          var (s', blob) := CommitVerified(env, s, a.blob.value, id);
          (s', done.(blob := Some(blob)))
      else if a.storageKey == None then (s, Failed(MissingContext))
      else
        var (s', blob) := CommitVerified(env, s, Candidate(env, a, a.storageKey.value), id);
        (s', done.(blob := Some(blob)))
    case AuditCommitted => (s, done)
    case Completed =>
      if a.blob == None then (s, Failed(MissingBlob))
      else (s.(operations := s.operations[id := op.(result := Some((a.blob.value, a.deduplicated)))]), done)
  }

  /** One step of an attempt: at most one durable effect. */
  function StepOf(env: Env, s: Store, id: string, a: Attempt): (Store, Attempt)
    requires a.Running? && id in s.operations
  {
    var op := s.operations[id];
    match a.place
    case Look =>
      (match FindByHash(s.rows, a.input.workspaceId, env.hash(a.input.bytes))
       case None => (s, a.(branch := Fresh, place := At(TemporaryUploadCreated)))
       case Some(i) =>
         (s, a.(branch := Existing, blob := Some(s.rows[i]), deduplicated := true,
                place := At(TemporaryUploadCreated))))
    case At(c) =>
      if c == Completed && a.blob == None then (s, Failed(MissingBlob))
      else if c !in a.completed then Effect(env, s, id, a, c)
      else if c == Completed then (s, Returned(a.blob.value, a.deduplicated))
      else (s, a.(place := After(c)))
    case SaveKey(key) =>
      (s.(operations := s.operations[id := op.(storageKey := Some(key))]),
       a.(storageKey := Some(key), place := Mark(ImmutableObjectCommitted)))
    case Mark(c) =>
      var s' := s.(operations := s.operations[id := op.(checkpoints := op.checkpoints + {c})]);
      if c == Completed && a.blob.Some? then (s', Returned(a.blob.value, a.deduplicated))
      else (s', a.(completed := a.completed + {c}, place := After(c)))
  }

  // ---------- the whole system ----------

  datatype World = World(store: Store, attempts: map<string, Attempt>)

  /** Begin an attempt, let one take a step, or lose one in a crash. */
  datatype Step =
    | Begin(input: Input, newId: string, newBlobId: string, now: string)
    | Work(id: string)
    | Crash(id: string)

  predicate Busy(w: World, id: string) { id in w.attempts && w.attempts[id].Running? }

  /**
   New ids are new, an operation has one attempt at a time, and a reused idempotency key whose
   request hash agrees carries the same request: no digest collision between requests.
   */
  ghost predicate Enabled(env: Env, w: World, step: Step) {
    match step
    case Begin(input, newId, newBlobId, _) =>
      var key := (input.workspaceId, input.idempotencyKey);
      if key in w.store.begun then
        var id := w.store.begun[key];
        && !Busy(w, id) && id in w.store.operations
        && (w.store.operations[id].requestHash == env.requestHash(RequestOf(env, input)) ==>
              w.store.operations[id].request == RequestOf(env, input))
      else newId !in w.store.operations && newId !in w.attempts
    case Work(id) => Busy(w, id)
    case Crash(id) => id in w.attempts
  }

  function NewOperation(env: Env, input: Input): Operation {
    Operation(RequestOf(env, input), env.requestHash(RequestOf(env, input)), {}, None, None, None, input.bindingId)
  }

  function Next(env: Env, w: World, step: Step): World {
    match step
    case Begin(input, newId, newBlobId, now) =>
      var key := (input.workspaceId, input.idempotencyKey);
      if key in w.store.begun then
        var id := w.store.begun[key];
        if id !in w.store.operations || w.store.operations[id].requestHash != env.requestHash(RequestOf(env, input))
          then w
        else w.(attempts := w.attempts[id := Resume(input, w.store.operations[id], newBlobId, now)])
      else
        var op := NewOperation(env, input);
        World(w.store.(begun := w.store.begun[key := newId], operations := w.store.operations[newId := op]),
              w.attempts[newId := Resume(input, op, newBlobId, now)])
    case Work(id) =>
      if Busy(w, id) && id in w.store.operations then
        var (s, a) := StepOf(env, w.store, id, w.attempts[id]);
        World(s, w.attempts[id := a])
      else w
    case Crash(id) => w.(attempts := w.attempts - {id})
  }

  function Run(env: Env, w: World, steps: seq<Step>): World {
    if steps == [] then w
    else
      var n := |steps| - 1;
      Next(env, Run(env, w, steps[..n]), steps[n])
  }

  ghost predicate Legal(env: Env, w: World, steps: seq<Step>) {
    steps == [] ||
    var n := |steps| - 1;
    Legal(env, w, steps[..n]) && Enabled(env, Run(env, w, steps[..n]), steps[n])
  }

  const EMPTY := World(Store(map[], map[], [], [], map[]), map[])
}
