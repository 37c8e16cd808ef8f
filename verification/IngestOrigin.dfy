/**
 Where catalog rows and audit rows come from, in every run of concurrent, crashing ingest attempts
 (packages/operations/src/object-ingest.ts, packages/persistence-postgres/src/blob-catalog.ts).
 */
module IngestOrigin {
  import opened Base
  import opened Ingest
  import opened IngestSafety

  /** The operation asked for this content under this media type. */
  predicate AskedBy(s: Store, id: string, b: Blob) {
    id in s.operations && s.operations[id].request == Request(b.workspaceId, b.mediaType, b.sha256)
  }

  /** Some operation asked for it, and its length is that of bytes with its digest. */
  ghost predicate Genuine(env: Env, s: Store, b: Blob) {
    && (exists id :: AskedBy(s, id, b))
    && exists bytes :: env.hash(bytes) == b.sha256 && |bytes| == b.byteLength
  }

  /** The audit row of an operation names the row of the content that the operation asked for. */
  ghost predicate Answers(s: Store, audit: AuditRow) {
    && audit.operationId in s.operations
    && var r := s.operations[audit.operationId].request;
       exists j :: 0 <= j < |s.rows| && s.rows[j].id == audit.blobId && SameContent(s.rows[j], r.workspaceId, r.sha256)
  }

  ghost predicate Originates(env: Env, s: Store) {
    && (forall i :: 0 <= i < |s.rows| ==> Genuine(env, s, s.rows[i]))
    && (forall i :: 0 <= i < |s.audit| ==> Answers(s, s.audit[i]))
  }

  /** Operations stay, with their requests. */
  ghost predicate Remembers(a: Store, b: Store) {
    forall id :: id in a.operations ==> id in b.operations && b.operations[id].request == a.operations[id].request
  }

  lemma GenuineStays(env: Env, a: Store, b: Store, blob: Blob, blob': Blob)
    requires Remembers(a, b) && Genuine(env, a, blob) && blob' == blob.(bindingId := blob'.bindingId)
    ensures Genuine(env, b, blob')
  {
    var id :| AskedBy(a, id, blob);
    assert AskedBy(b, id, blob');
  }

  lemma SameRows(env: Env, a: Store, b: Store)
    requires Originates(env, a) && Remembers(a, b) && b.rows == a.rows && b.audit == a.audit
    ensures Originates(env, b)
  {
    forall i | 0 <= i < |b.rows| ensures Genuine(env, b, b.rows[i]) {
      GenuineStays(env, a, b, a.rows[i], b.rows[i]);
    }
    forall i | 0 <= i < |b.audit| ensures Answers(b, b.audit[i]) {
      assert Answers(a, a.audit[i]);
    }
  }

  /**
   Recording a blob adds it when its content has no row. Otherwise the row of that content stays, under the new
   binding if the blob names one. No other row changes.
   */
  lemma RecordMeans(rows: seq<Blob>, blob: Blob)
    ensures var (after, row) := RecordBlob(rows, blob);
            match FindByHash(rows, blob.workspaceId, blob.sha256)
            case None => after == rows + [blob] && row == blob
            case Some(i) =>
              && |after| == |rows| && after[i] == row && (forall k :: 0 <= k < |rows| && k != i ==> after[k] == rows[k])
              && row.id == rows[i].id && row.byteLength == rows[i].byteLength && row.mediaType == rows[i].mediaType
              && row.storageKey == rows[i].storageKey && row.createdAt == rows[i].createdAt
              && SameContent(row, blob.workspaceId, blob.sha256)
              && (blob.bindingId.Some? ==> row.bindingId == blob.bindingId)
              && (blob.bindingId == None ==> row.bindingId == rows[i].bindingId)
  {
    hide FindByHash;
  }

  lemma RowsOriginate(env: Env, s: Store, blob: Blob)
    requires Originates(env, s) && Genuine(env, s, blob)
    ensures var (rows, row) := RecordBlob(s.rows, blob);
            && |s.rows| <= |rows|
            && (forall i :: 0 <= i < |rows| ==> Genuine(env, s, rows[i]))
            && (forall i :: 0 <= i < |s.rows| ==> rows[i] == s.rows[i].(bindingId := rows[i].bindingId))
            && row in rows && SameContent(row, blob.workspaceId, blob.sha256)
  {
    var (rows, row) := RecordBlob(s.rows, blob);
    forall i | 0 <= i < |rows| ensures Genuine(env, s, rows[i]) {
      if i < |s.rows| {
        GenuineStays(env, s, s, s.rows[i], rows[i]);
      }
    }
    match FindByHash(s.rows, blob.workspaceId, blob.sha256)
    case None => assert rows[|s.rows|] == row;
    case Some(i) => assert rows[i] == row;
  }

  lemma CommitOriginates(env: Env, s: Store, blob: Blob, id: string)
    requires Originates(env, s) && Genuine(env, s, blob) && id in s.operations
    requires SameContent(blob, s.operations[id].request.workspaceId, s.operations[id].request.sha256)
    ensures Originates(env, CommitVerified(env, s, blob, id).0)
  {
    RowsOriginate(env, s, blob);
    var (rows, row) := RecordBlob(s.rows, blob);
    hide RecordBlob;
    var s' := CommitVerified(env, s, blob, id).0;
    var j :| 0 <= j < |rows| && rows[j] == row;
    forall i | 0 <= i < |s'.rows| ensures Genuine(env, s', s'.rows[i]) {
      GenuineStays(env, s, s', rows[i], rows[i]);
    }
    forall i | 0 <= i < |s'.audit| ensures Answers(s', s'.audit[i]) {
      if i < |s.audit| {
        assert Answers(s, s.audit[i]);
        var r := s.operations[s.audit[i].operationId].request;
        var k :| 0 <= k < |s.rows| && s.rows[k].id == s.audit[i].blobId
          && SameContent(s.rows[k], r.workspaceId, r.sha256);
        assert s'.rows[k].id == s.rows[k].id && SameContent(s'.rows[k], r.workspaceId, r.sha256);
      } else {
        assert s'.rows[j] == row;
      }
    }
  }

  /** The blob that an attempt commits is genuine. */
  lemma CataloguedIsGenuine(env: Env, s: Store, blob: Blob)
    requires Originates(env, s) && Catalogued(s.rows, blob)
    ensures Genuine(env, s, blob)
  {
    var i :| 0 <= i < |s.rows| && s.rows[i] == blob.(bindingId := s.rows[i].bindingId);
    GenuineStays(env, s, s, s.rows[i], blob);
  }

  lemma MetadataOriginates(env: Env, s: Store, id: string, a: Attempt)
    requires Originates(env, s) && AttemptOk(env, s, id, a) && a.Running? && a.place == At(MetadataCommitted)
    ensures Originates(env, Effect(env, s, id, a, MetadataCommitted).0)
  {
    hide Originates;
    hide PlaceOk;
    hide FreshOk;
    hide CommitVerified;
    if a.branch == Existing {
      CataloguedIsGenuine(env, s, a.blob.value);
      hide Catalogued;
      CommitOriginates(env, s, a.blob.value, id);
    } else if a.storageKey.Some? {
      var blob := Candidate(env, a, a.storageKey.value);
      assert AskedBy(s, id, blob);
      assert env.hash(a.input.bytes) == blob.sha256 && |a.input.bytes| == blob.byteLength;
      CommitOriginates(env, s, blob, id);
    }
  }

  lemma StepOriginates(env: Env, s: Store, id: string, a: Attempt)
    requires Originates(env, s) && AttemptOk(env, s, id, a) && a.Running?
    ensures Originates(env, StepOf(env, s, id, a).0)
  {
    if a.place == At(MetadataCommitted) {
      MetadataOriginates(env, s, id, a);
      hide Effect;
    } else {
      OtherSteps(env, s, id, a);
    }
  }

  lemma OtherSteps(env: Env, s: Store, id: string, a: Attempt)
    requires Originates(env, s) && id in s.operations && a.Running? && a.place != At(MetadataCommitted)
    ensures Originates(env, StepOf(env, s, id, a).0)
  {
    hide Originates;
    hide CommitImmutable;
    hide CommitVerified;
    hide FindByHash;
    var s' := StepOf(env, s, id, a).0;
    assert s'.rows == s.rows && s'.audit == s.audit && Remembers(s, s');
    SameRows(env, s, s');
  }

  lemma NextOriginates(env: Env, w: World, step: Step)
    requires Inv(env, w) && Originates(env, w.store) && Enabled(env, w, step)
    ensures Originates(env, Next(env, w, step).store)
  {
    hide Originates;
    hide StoreOk;
    hide AttemptOk;
    hide StepOf;
    var w' := Next(env, w, step);
    match step {
      case Begin(_, _, _, _) => SameRows(env, w.store, w'.store);
      case Work(id) =>
        AttemptHasOperation(env, w.store, id, w.attempts[id]);
        StepOriginates(env, w.store, id, w.attempts[id]);
      case Crash(_) =>
    }
  }

  lemma {:induction false} RunsOriginate(env: Env, w: World, steps: seq<Step>)
    requires Inv(env, w) && Originates(env, w.store) && Legal(env, w, steps)
    ensures Originates(env, Run(env, w, steps).store)
  {
    hide Originates;
    hide Inv;
    hide Enabled;
    hide Next;
    if steps != [] {
      var n := |steps| - 1;
      RunsOriginate(env, w, steps[..n]);
      RunsAreSafe(env, w, steps[..n]);
      NextOriginates(env, Run(env, w, steps[..n]), steps[n]);
    }
  }

  /**
   In every run from an empty system each row of the catalog has the media type that some operation asked for its
   content and the length of bytes with its digest, and each audit row names the row of its operation's content.
   */
  lemma RowsAreGenuine(env: Env, steps: seq<Step>, i: nat)
    requires Legal(env, EMPTY, steps)
    ensures var s := Run(env, EMPTY, steps).store;
            (i < |s.rows| ==> Genuine(env, s, s.rows[i])) && (i < |s.audit| ==> Answers(s, s.audit[i]))
  {
    EmptyIsSafe(env);
    RunsOriginate(env, EMPTY, steps);
    hide Run;
    hide Legal;
    hide Genuine;
    hide Answers;
  }
}
