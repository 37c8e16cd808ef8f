/** The ingest service (packages/operations/src/object-ingest.ts, ObjectIngestService.ingest) on its durable state. */
module IngestService {
  import opened Base
  import opened Text
  import opened Ingest
  import opened IngestSafety
  import opened IngestHome
  import opened IngestFirst

  datatype Outcome = Outcome(operationId: string, blob: Blob, deduplicated: bool, resumed: bool)

  // ---------- when an ingest cannot fail ----------

  /** Content of one digest has one length: no collision with the content at hand. */
  ghost predicate LengthsAgree(env: Env, objects: map<Key, Object>, bytes: Bytes) {
    forall key :: key in objects && env.hash(objects[key].bytes) == env.hash(bytes) ==> |objects[key].bytes| == |bytes|
  }

  ghost predicate Acceptable(env: Env, s: Store, id: string, input: Input) {
    && Authorisable(input) && SafeId(input.workspaceId) && SafeId(id) && Trim(input.mediaType) != ""
    && LengthsAgree(env, In(s.storages, input.bindingId), input.bytes)
  }

  /** The input is acceptable to its operation, old or new, and its idempotency key is not taken by another request. */
  ghost predicate CanIngest(env: Env, s: Store, input: Input, newId: string) {
    var key := (input.workspaceId, input.idempotencyKey);
    if key in s.begun then
      && s.begun[key] in s.operations && Acceptable(env, s, s.begun[key], input)
      && s.operations[s.begun[key]].requestHash == env.requestHash(RequestOf(env, input))
    else Acceptable(env, s, newId, input)
  }

  lemma CommitSucceeds(env: Env, objects: map<Key, Object>, id: string, r: Request, bytes: Bytes)
    requires r.sha256 == env.hash(bytes) && SafeId(r.workspaceId) && Trim(r.mediaType) != ""
    requires LengthsAgree(env, objects, bytes)
    requires Temporary(r.workspaceId, id) in objects ==> Uploaded(env, objects, r, id)
    requires Immutable(r.workspaceId, r.sha256) in objects ==> Stored(env, objects, r.workspaceId, r.sha256)
    requires Uploaded(env, objects, r, id) || Stored(env, objects, r.workspaceId, r.sha256)
    ensures CommitImmutable(env, objects, Temporary(r.workspaceId, id), r, |bytes|).Ok?
    ensures LengthsAgree(env, CommitImmutable(env, objects, Temporary(r.workspaceId, id), r, |bytes|).value, bytes)
  {
    hide SafeId;
    hide Trim;
  }

  /** At home an attempt finds what it has to commit. */
  lemma CommitReady(env: Env, s: Store, id: string, a: Attempt)
    requires ReadyAtHome(env, s, id, a) && ImmutablesOk(env, s) && Acceptable(env, s, id, a.input)
    requires a.place == At(ImmutableObjectCommitted) && a.branch == Fresh
    ensures var r := s.operations[id].request;
            var commit := CommitImmutable(env, In(s.storages, a.input.bindingId), Temporary(r.workspaceId, id), r,
                                          |a.input.bytes|);
            commit.Ok? && LengthsAgree(env, commit.value, a.input.bytes)
  {
    hide RowsOk;
    hide AuditOk;
    hide HasRow;
    hide Audited;
    hide BlobOk;
    hide SafeId;
    hide Trim;
    hide CommitImmutable;
    hide Stored;
    hide Uploaded;
    var r := s.operations[id].request;
    assert BytesReceived in a.completed;
    CommitSucceeds(env, In(s.storages, a.input.bindingId), id, r, a.input.bytes);
  }

  /** No step of an acceptable input fails at home. */
  lemma StepSucceeds(env: Env, s: Store, id: string, a: Attempt)
    requires ReadyAtHome(env, s, id, a) && ImmutablesOk(env, s) && Acceptable(env, s, id, a.input)
    ensures var (s', a') := StepOf(env, s, id, a);
            !a'.Failed? && (a'.Running? ==> a'.input == a.input && Acceptable(env, s', id, a.input))
  {
    if a.place.At? && a.place.c !in a.completed {
      EffectSucceeds(env, s, id, a, a.place.c);
    }
    if a.place == At(Completed) {
      BlobKnown(env, s, id, a);
    }
    hide Effect;
    hide OperationAtHome;
    hide AttemptAtHome;
    hide RowsAtHome;
    hide RowsOk;
    hide AuditOk;
    hide OperationOk;
    hide AttemptOk;
    hide SafeId;
    hide Trim;
    hide FindByHash;
  }

  lemma EffectSucceeds(env: Env, s: Store, id: string, a: Attempt, c: Checkpoint)
    requires ReadyAtHome(env, s, id, a) && ImmutablesOk(env, s) && Acceptable(env, s, id, a.input)
    requires a.place == At(c) && c !in a.completed
    ensures var (s', a') := Effect(env, s, id, a, c);
            a'.Running? && a'.input == a.input && Acceptable(env, s', id, a.input)
  {
    if c == ImmutableObjectCommitted && a.branch == Fresh {
      CommitReady(env, s, id, a);
    }
    if c == Completed {
      BlobKnown(env, s, id, a);
    }
    CommitKeepsObjects(env, s, id);
    hide OperationAtHome;
    hide AttemptAtHome;
    hide RowsAtHome;
    hide RowsOk;
    hide AuditOk;
    hide HasRow;
    hide Audited;
    hide BlobOk;
    hide CommitImmutable;
    hide CommitVerified;
    hide SafeId;
    hide Trim;
    hide Kept;
    hide Received;
    hide UploadsOk;
    hide Candidate;
    assert c == BytesReceived || c == ImmutableObjectCommitted ==> TemporaryUploadCreated in a.completed;
    assert c == MetadataCommitted ==> ImmutableObjectCommitted in a.completed;
  }

  lemma CommitKeepsObjects(env: Env, s: Store, id: string)
    ensures forall blob :: CommitVerified(env, s, blob, id).0.storages == s.storages
  {
  }

  /** How far an attempt has come. */
  function Position(a: Attempt): nat
    requires a.Running?
  {
    match a.place
    case Look => 2
    case At(c) => 3 * Rank(c)
    case SaveKey(_) => 13
    case Mark(c) => if c == Authorised then 1 else 3 * Rank(c) + 2
  }

  /** Every step brings an attempt closer to its end. */
  lemma StepAdvances(env: Env, s: Store, id: string, a: Attempt)
    requires Ready(env, s, id, a)
    ensures var (s', a') := StepOf(env, s, id, a);
            Position(a) <= 23 && (a'.Running? ==> Position(a) < Position(a') <= 23)
  {
    hide RowsOk;
    hide AuditOk;
    hide OperationOk;
    hide CommitImmutable;
    hide CommitVerified;
    hide Authorisable;
    hide SafeId;
    hide Candidate;
    hide FindByHash;
    hide FreshOk;
    hide BlobOk;
    if a.place == At(Completed) {
      BlobKnown(env, s, id, a);
    }
  }

  class ObjectIngestService {
    var begun: map<(string, string), string>
    var operations: map<string, Operation>
    var rows: seq<Blob>
    var audit: seq<AuditRow>
    var storages: Storages

    constructor ()
      ensures View() == EMPTY.store
    {
      begun, operations, rows, audit, storages := map[], map[], [], [], map[];
    }

    function View(): Store
      reads this
    {
      Store(begun, operations, rows, audit, storages)
    }

    method CommitVerifiedIngest(env: Env, blob: Blob, id: string) returns (canonical: Blob)
      modifies this`rows, this`audit
      ensures (View(), canonical) == CommitVerified(env, old(View()), blob, id)
    {
      var found := FindByHash(rows, blob.workspaceId, blob.sha256);
      if found == None {
        canonical := blob;
        rows := rows + [blob];
      } else {
        canonical := rows[found.value];
        if blob.bindingId.Some? {
          canonical := canonical.(bindingId := blob.bindingId);
        }
        rows := rows[found.value := canonical];
      }
      if env.audits && !HasAudit(audit, env.auditId(id)) {
        audit := audit + [AuditRow(env.auditId(id), id, canonical.id)];
      }
    }

    /** The work of a checkpoint. */
    method Perform(env: Env, id: string, a: Attempt, c: Checkpoint) returns (a': Attempt)
      requires a.Running? && id in operations
      modifies this
      ensures (View(), a') == Effect(env, old(View()), id, a, c)
    {
      hide CommitImmutable;
      hide CommitVerified;
      hide SafeId;
      hide Trim;
      a' := a.(place := Mark(c));
      match c {
        case Authorised =>
          if !Authorisable(a.input) {
            a' := Failed(Unauthorised);
          }
        case TemporaryUploadCreated =>
          if a.branch != Existing {
            if !SafeId(a.input.workspaceId) || !SafeId(id) {
              return Failed(StorageRefused);
            }
            var key := Temporary(a.input.workspaceId, id);
            operations := operations[id := operations[id].(temporaryKey := Some(key))];
            a' := a'.(temporaryKey := Some(key));
          }
        case BytesReceived =>
          if a.branch != Existing {
            if a.temporaryKey == None {
              return Failed(MissingContext);
            }
            if Trim(a.input.mediaType) == "" {
              return Failed(StorageRefused);
            }
            var upload := Object(a.input.bytes, a.input.mediaType);
            var objects := In(storages, a.input.bindingId)[a.temporaryKey.value := upload];
            storages := storages[a.input.bindingId := objects];
          }
        case ImmutableObjectCommitted =>
          if a.branch != Existing {
            if a.temporaryKey == None {
              return Failed(MissingContext);
            }
            var committed := CommitImmutable(
              env, In(storages, a.input.bindingId), a.temporaryKey.value, RequestOf(env, a.input), |a.input.bytes|);
            if committed.Err? {
              return Failed(committed.error);
            }
            storages := storages[a.input.bindingId := committed.value];
            a' := a.(place := SaveKey(Immutable(a.input.workspaceId, env.hash(a.input.bytes))));
          }
        case MetadataCommitted =>
          if a.branch == Existing {
            if !env.audits {
              return;
            }
            if a.blob == None {
              return Failed(MissingBlob);
            }
            var blob := CommitVerifiedIngest(env, a.blob.value, id);
            a' := a'.(blob := Some(blob));
          } else {
            if a.storageKey == None {
              return Failed(MissingContext);
            }
            var blob := CommitVerifiedIngest(env, Candidate(env, a, a.storageKey.value), id);
            a' := a'.(blob := Some(blob));
          }
        case Completed =>
          if a.blob == None {
            return Failed(MissingBlob);
          }
          operations := operations[id := operations[id].(result := Some((a.blob.value, a.deduplicated)))];
        case _ =>
      }
    }

    method Advance(env: Env, id: string, a: Attempt) returns (a': Attempt)
      requires a.Running? && id in operations
      modifies this
      ensures (View(), a') == StepOf(env, old(View()), id, a)
    {
      hide Effect;
      a' := a;
      match a.place {
        case Look =>
          var existing := FindByHash(rows, a.input.workspaceId, env.hash(a.input.bytes));
          if existing == None {
            a' := a.(branch := Fresh, place := At(TemporaryUploadCreated));
          } else {
            a' := a.(branch := Existing, blob := Some(rows[existing.value]), deduplicated := true,
                     place := At(TemporaryUploadCreated));
          }
        case At(c) =>
          if c == Completed && a.blob == None {
            a' := Failed(MissingBlob);
          } else if c !in a.completed {
            a' := Perform(env, id, a, c);
          } else if c == Completed {
            a' := Returned(a.blob.value, a.deduplicated);
          } else {
            a' := a.(place := After(c));
          }
        case SaveKey(key) =>
          operations := operations[id := operations[id].(storageKey := Some(key))];
          a' := a.(storageKey := Some(key), place := Mark(ImmutableObjectCommitted));
        case Mark(c) =>
          operations := operations[id := operations[id].(checkpoints := operations[id].checkpoints + {c})];
          a' := if c == Completed && a.blob.Some? then Returned(a.blob.value, a.deduplicated)
                else a.(completed := a.completed + {c}, place := After(c));
      }
    }

    /**
     From any state that crashed attempts can leave: an ingest never reports missing context or a missing blob and
     keeps the state good. Where the operations have kept to one storage each and this call does too, it keeps that
     so, returns a blob that lies in the storage of its binding, and completes for every acceptable input.
     */
    method Ingest(env: Env, input: Input, newId: string, newBlobId: string, now: string)
      returns (r: Result<Outcome, Error>)
      requires StoreOk(env, View()) && Enabled(env, World(View(), map[]), Begin(input, newId, newBlobId, now))
      modifies this
      ensures StoreOk(env, View())
      ensures r.Ok? ==>
                && r.value.operationId in operations && operations[r.value.operationId].request == RequestOf(env, input)
                && Completed in operations[r.value.operationId].checkpoints
                && BlobOk(rows, RequestOf(env, input), r.value.blob)
                && Kept(env, storages, input.workspaceId, env.hash(input.bytes))
      ensures r.Err? ==> r.error != MissingContext && r.error != MissingBlob
      ensures var key := (input.workspaceId, input.idempotencyKey);
              if key in old(begun) then
                var op := old(operations)[old(begun)[key]];
                && (op.requestHash != env.requestHash(RequestOf(env, input)) ==>
                      r == Err(DifferentRequest) && View() == old(View()))
                && (r.Ok? ==> r.value.operationId == old(begun)[key] && (r.value.resumed <==> op.checkpoints != {}))
              else
                r.Ok? ==>
                  var start := Start(old(rows), newId, input, newBlobId, now);
                  && r.value.operationId == newId && !r.value.resumed
                  && Recorded(env, start, rows, r.value.blob)
                  && (r.value.deduplicated <==> Found(env, start).Some?)
                  && Allowed(input) && (r.value.deduplicated || Storable(input, newId))
      ensures old(StoreAtHome(env, View()) && SameHome(World(View(), map[]), Begin(input, newId, newBlobId, now))) ==>
                && StoreAtHome(env, View()) && (r.Ok? ==> AtHome(env, storages, r.value.blob))
                && (old(CanIngest(env, View(), input, newId)) ==> r.Ok?)
    {
      hide StoreOk;
      hide StoreAtHome;
      hide AttemptOk;
      hide AttemptAtHome;
      hide StepOf;
      hide Acceptable;
      hide Tracks;
      var key := (input.workspaceId, input.idempotencyKey);
      ghost var before := World(View(), map[]);
      ghost var begin := Begin(input, newId, newBlobId, now);
      ghost var home := StoreAtHome(env, View()) && SameHome(before, begin);
      BeginKeeps(env, before, begin);
      if home {
        BeginAtHome(env, before, begin);
      }
      var id := newId;
      if key in begun {
        id := begun[key];
        if operations[id].requestHash != env.requestHash(RequestOf(env, input)) {
          return Err(DifferentRequest);
        }
      } else {
        begun := begun[key := newId];
        operations := operations[newId := NewOperation(env, input)];
      }
      var resumed := operations[id].checkpoints != {};
      var a := Resume(input, operations[id], newBlobId, now);
      ghost var start, first := Start(rows, newId, input, newBlobId, now), key !in old(begun);
      BeginTracks(env, newId, input, newBlobId, now, View());
      ghost var fine := home && Acceptable(env, View(), id, input);
      SameObjects(env, before.store, View(), id, input);
      assert Next(env, before, begin) == World(View(), map[id := a]);
      while a.Running?
        invariant id in operations && Inv(env, World(View(), map[id := a]))
        invariant operations[id].request == RequestOf(env, input)
        invariant home ==> HomeInv(env, World(View(), map[id := a]))
        invariant first ==> Tracks(env, start, View(), a)
        invariant fine ==> !a.Failed? && (a.Running? ==> a.input == input && Acceptable(env, View(), id, input))
        decreases if a.Running? then 24 - Position(a) else 0
      {
        OneStep(env, View(), id, a);
        if first {
          StepTracks(env, start, View(), id, a);
        }
        if home {
          OneStepAtHome(env, View(), id, a);
        }
        a := Advance(env, id, a);
      }
      LastState(env, View(), id, a);
      if home {
        LastAtHome(env, View(), id, a);
      }
      if a.Failed? {
        return Err(a.error);
      }
      if first {
        Answered(env, start, View(), a);
      }
      r := Ok(Outcome(id, a.stored, a.reused, resumed));
    }
  }

  lemma SameObjects(env: Env, a: Store, b: Store, id: string, input: Input)
    requires a.storages == b.storages
    ensures Acceptable(env, a, id, input) <==> Acceptable(env, b, id, input)
  {
  }

  lemma LastState(env: Env, s: Store, id: string, a: Attempt)
    requires id in s.operations && Inv(env, World(s, map[id := a])) && !a.Running?
    ensures StoreOk(env, s) && (a.Failed? ==> a.error != MissingContext && a.error != MissingBlob)
    ensures a.Returned? ==>
              var r := s.operations[id].request;
              && Completed in s.operations[id].checkpoints && BlobOk(s.rows, r, a.stored)
              && Kept(env, s.storages, r.workspaceId, r.sha256)
  {
    var w := World(s, map[id := a]);
    assert AttemptOk(env, s, id, w.attempts[id]);
    hide RowsOk;
    hide AuditOk;
    hide OperationOk;
    hide BlobOk;
    hide Kept;
    if a.Returned? {
      RowGivesContent(s.rows, s.operations[id].request, a.stored);
      RowIsKept(env, s.rows, s.storages, s.operations[id].request);
    }
  }

  lemma LastAtHome(env: Env, s: Store, id: string, a: Attempt)
    requires id in s.operations && HomeInv(env, World(s, map[id := a])) && !a.Running?
    ensures StoreAtHome(env, s) && (a.Returned? ==> AtHome(env, s.storages, a.stored))
  {
    hide Inv;
    hide StoreAtHome;
    hide AtHome;
    var w := World(s, map[id := a]);
    assert AttemptAtHome(env, s, id, s.operations[id], w.attempts[id]);
  }

  /** What one step of a lone attempt gives. */
  lemma OneStep(env: Env, s: Store, id: string, a: Attempt)
    requires id in s.operations && Inv(env, World(s, map[id := a])) && a.Running?
    ensures var (s', a') := StepOf(env, s, id, a);
            && id in s'.operations && Inv(env, World(s', map[id := a']))
            && s'.operations[id].request == s.operations[id].request
            && Position(a) <= 23 && (a'.Running? ==> Position(a) < Position(a') <= 23)
  {
    hide RowsOk;
    hide AuditOk;
    hide OperationOk;
    hide StepOf;
    hide AttemptOk;
    var w := World(s, map[id := a]);
    WorkKeeps(env, w, id);
    assert AttemptOk(env, s, id, w.attempts[id]);
    StepAdvances(env, s, id, a);
    RequestStays(env, s, id, a);
    assert w.attempts[id := StepOf(env, s, id, a).1] == map[id := StepOf(env, s, id, a).1];
  }

  /** What it gives at home. */
  lemma OneStepAtHome(env: Env, s: Store, id: string, a: Attempt)
    requires id in s.operations && HomeInv(env, World(s, map[id := a])) && a.Running?
    ensures var (s', a') := StepOf(env, s, id, a);
            && HomeInv(env, World(s', map[id := a']))
            && (Acceptable(env, s, id, a.input) ==>
                  !a'.Failed? && (a'.Running? ==> a'.input == a.input && Acceptable(env, s', id, a.input)))
  {
    hide RowsOk;
    hide AuditOk;
    hide OperationOk;
    hide StepOf;
    hide AttemptOk;
    hide OperationAtHome;
    hide AttemptAtHome;
    hide RowsAtHome;
    hide Acceptable;
    var w := World(s, map[id := a]);
    WorkAtHome(env, w, id);
    assert w.attempts[id := StepOf(env, s, id, a).1] == map[id := StepOf(env, s, id, a).1];
    assert AttemptOk(env, s, id, w.attempts[id]) && AttemptAtHome(env, s, id, s.operations[id], w.attempts[id]);
    if Acceptable(env, s, id, a.input) {
      StepSucceeds(env, s, id, a);
    }
  }

  lemma RequestStays(env: Env, s: Store, id: string, a: Attempt)
    requires id in s.operations && a.Running?
    ensures var (s', a') := StepOf(env, s, id, a);
            id in s'.operations && s'.operations[id].request == s.operations[id].request
  {
    hide CommitImmutable;
    hide RecordBlob;
    hide AppendOnce;
  }

  /** Every run of interleaved and crashed attempts leaves a state from which `Ingest` can be called. */
  lemma CrashedAttemptsResume(env: Env, steps: seq<Step>)
    requires Legal(env, EMPTY, steps)
    ensures StoreOk(env, Run(env, EMPTY, steps).store)
    ensures Steady(env, EMPTY, steps) ==> StoreAtHome(env, Run(env, EMPTY, steps).store)
  {
    hide StoreOk;
    hide AttemptOk;
    hide Run;
    hide Legal;
    hide Steady;
    EmptyIsSafe(env);
    RunsAreSafe(env, EMPTY, steps);
    if Steady(env, EMPTY, steps) {
      EmptyAtHome(env);
      hide StoreAtHome;
      RunsStayAtHome(env, EMPTY, steps);
    }
  }

  lemma EmptyAtHome(env: Env)
    requires Inv(env, EMPTY)
    ensures HomeInv(env, EMPTY)
  {
    hide Inv;
  }
}
