/**
 The durable state an import works on (apps/trust-api/src/portability.ts): the operation store
 with its compare-and-advance step, and the target that holds staged blobs, blobs, records and
 audit marks. Each is given as functions on values and as the class whose methods follow them.
 */
module ImportStore {
  import opened Base
  import opened Records
  import opened ImportTypes

  datatype Checkpoint =
    | Authorised | TargetRevalidated | TemporaryBlobsStaged | StagedBlobsVerified
    | ImmutableBlobsCommitted | MetadataCommitted | AuditCommitted | Completed

  function Rank(c: Checkpoint): nat {
    match c
    case Authorised => 0
    case TargetRevalidated => 1
    case TemporaryBlobsStaged => 2
    case StagedBlobsVerified => 3
    case ImmutableBlobsCommitted => 4
    case MetadataCommitted => 5
    case AuditCommitted => 6
    case Completed => 7
  }

  /** The checkpoint after `c`; a completed operation stays where it is. */
  function After(c: Checkpoint): (n: Checkpoint)
    ensures c != Completed ==> Rank(n) == Rank(c) + 1
  {
    match c
    case Authorised => TargetRevalidated
    case TargetRevalidated => TemporaryBlobsStaged
    case TemporaryBlobsStaged => StagedBlobsVerified
    case StagedBlobsVerified => ImmutableBlobsCommitted
    case ImmutableBlobsCommitted => MetadataCommitted
    case MetadataCommitted => AuditCommitted
    case AuditCommitted => Completed
    case Completed => Completed
  }

  datatype Operation = Operation(
    id: string, planId: string, archiveExportId: string, requestedBy: string, checkpoint: Checkpoint,
    createdAt: string, updatedAt: string, completedAt: Option<string>)

  datatype OpStore = OpStore(byPlan: map<string, Operation>, byId: map<string, Operation>)

  datatype StoreError = OperationNotFound | StagedBlobNotFound

  /** Both maps list the same operations, each under its own plan and its own id. */
  ghost predicate ValidStore(s: OpStore) {
    && (forall p :: p in s.byPlan ==>
         s.byPlan[p].planId == p && s.byPlan[p].id in s.byId && s.byId[s.byPlan[p].id] == s.byPlan[p])
    && (forall i :: i in s.byId ==>
         s.byId[i].id == i && s.byId[i].planId in s.byPlan && s.byPlan[s.byId[i].planId] == s.byId[i])
  }

  function BeginOp(
    s: OpStore, planId: string, exportId: string, actor: string, at: string, newId: string): (OpStore, Operation) {
    if planId in s.byPlan then (s, s.byPlan[planId])
    else
      var op := Operation(newId, planId, exportId, actor, Authorised, at, at, None);
      (OpStore(s.byPlan[planId := op], s.byId[newId := op]), op)
  }

  function AdvanceOp(s: OpStore, id: string, planId: string, expected: Checkpoint, next: Checkpoint, at: string)
    : Result<(OpStore, Operation), StoreError>
  {
    if id !in s.byId || s.byId[id].planId != planId then Err(OperationNotFound)
    else
      var current := s.byId[id];
      if current.checkpoint != expected then Ok((s, current))
      else
        var op := current.(
          checkpoint := next, updatedAt := at,
          completedAt := if next == Completed then Some(at) else current.completedAt);
        Ok((OpStore(s.byPlan[op.planId := op], s.byId[op.id := op]), op))
  }

  class MemoryImportOperations {
    var byPlan: map<string, Operation>
    var byId: map<string, Operation>

    constructor ()
      ensures View() == OpStore(map[], map[])
    {
      byPlan, byId := map[], map[];
    }

    function View(): OpStore
      reads this
    {
      OpStore(byPlan, byId)
    }

    method Begin(planId: string, exportId: string, actor: string, at: string, newId: string) returns (op: Operation)
      modifies this
      ensures (View(), op) == BeginOp(old(View()), planId, exportId, actor, at, newId)
    {
      if planId in byPlan {
        return byPlan[planId];
      }
      op := Operation(newId, planId, exportId, actor, Authorised, at, at, None);
      byPlan := byPlan[planId := op];
      byId := byId[op.id := op];
    }

    method Advance(id: string, planId: string, expected: Checkpoint, next: Checkpoint, at: string)
      returns (r: Result<Operation, StoreError>)
      modifies this
      ensures match AdvanceOp(old(View()), id, planId, expected, next, at)
              case Err(e) => r == Err(e) && View() == old(View())
              case Ok(p) => r == Ok(p.1) && View() == p.0
    {
      if id !in byId || byId[id].planId != planId {
        return Err(OperationNotFound);
      }
      var current := byId[id];
      if current.checkpoint != expected {
        return Ok(current);
      }
      var op := current.(checkpoint := next, updatedAt := at);
      if next == Completed {
        op := op.(completedAt := Some(at));
      }
      byPlan := byPlan[op.planId := op];
      byId := byId[op.id := op];
      r := Ok(op);
    }
  }

  lemma BeginKeepsStore(s: OpStore, planId: string, exportId: string, actor: string, at: string, newId: string)
    requires ValidStore(s) && newId !in s.byId
    ensures ValidStore(BeginOp(s, planId, exportId, actor, at, newId).0)
  {
  }

  /**
   Advancing from a checkpoint that is not ahead of the stored one always succeeds, keeps the
   store consistent and answers with an operation that has passed that checkpoint.
   */
  lemma AdvanceKeepsStore(s: OpStore, planId: string, c: Checkpoint, at: string)
    requires ValidStore(s) && planId in s.byPlan && c != Completed && Rank(c) <= Rank(s.byPlan[planId].checkpoint)
    ensures var op := s.byPlan[planId];
            match AdvanceOp(s, op.id, planId, c, After(c), at)
            case Err(_) => false
            case Ok((s', op')) =>
              && ValidStore(s') && planId in s'.byPlan && s'.byPlan[planId] == op' && op'.id == op.id
              && (if op.checkpoint == c then op'.checkpoint == After(c) else op' == op && Rank(c) < Rank(op.checkpoint))
  {
  }

  // ---------- the target ----------

  datatype Target = Target(
    staged: map<string, map<string, Bytes>>, blobs: map<string, Bytes>, records: Inventory, audited: set<string>)

  function StagedOf(t: Target, op: string): map<string, Bytes> {
    if op in t.staged then t.staged[op] else map[]
  }

  function StageBlob(t: Target, op: string, digest: string, bytes: Bytes): Target {
    t.(staged := t.staged[op := StagedOf(t, op)[digest := bytes]])
  }

  predicate StagedBlobValid(h: Bytes -> string, t: Target, op: string, digest: string, length: nat) {
    digest in StagedOf(t, op) && |StagedOf(t, op)[digest]| == length && h(StagedOf(t, op)[digest]) == digest
  }

  function CommitBlob(t: Target, op: string, digest: string): Result<Target, StoreError> {
    if digest in StagedOf(t, op) then Ok(t.(blobs := t.blobs[digest := StagedOf(t, op)[digest]]))
    else Err(StagedBlobNotFound)
  }

  function CommitMetadata(t: Target, writes: seq<(Key, Record)>): Target {
    t.(records := PutAll(t.records, writes))
  }

  function AppendAudit(t: Target, op: string): Target {
    t.(audited := t.audited + {op})
  }

  class MemoryImportTarget {
    var staged: map<string, map<string, Bytes>>
    var blobs: map<string, Bytes>
    var records: Inventory
    var audited: set<string>

    constructor ()
      ensures View() == Target(map[], map[], Inventory([], map[]), {})
    {
      staged, blobs, records, audited := map[], map[], Inventory([], map[]), {};
    }

    function View(): Target
      reads this
    {
      Target(staged, blobs, records, audited)
    }

    method Stage(op: string, digest: string, bytes: Bytes)
      modifies this`staged
      ensures View() == StageBlob(old(View()), op, digest, bytes)
    {
      var values := if op in staged then staged[op] else map[];
      values := values[digest := bytes];
      staged := staged[op := values];
    }

    method VerifyStaged(h: Bytes -> string, op: string, digest: string, length: nat) returns (ok: bool)
      ensures ok <==> StagedBlobValid(h, View(), op, digest, length)
      ensures ok <==>
              op in staged && digest in staged[op] && |staged[op][digest]| == length && h(staged[op][digest]) == digest
    {
      if op !in staged || digest !in staged[op] {
        return false;
      }
      var bytes := staged[op][digest];
      ok := |bytes| == length && h(bytes) == digest;
    }

    method Commit(op: string, digest: string) returns (r: Result<(), StoreError>)
      modifies this`blobs
      ensures match CommitBlob(old(View()), op, digest)
              case Err(e) => r == Err(e) && View() == old(View())
              case Ok(t) => r == Ok(()) && View() == t
    {
      if op !in staged || digest !in staged[op] {
        return Err(StagedBlobNotFound);
      }
      blobs := blobs[digest := staged[op][digest]];
      r := Ok(());
    }

    method CommitRecords(writes: seq<(Key, Record)>)
      modifies this`records
      ensures View() == CommitMetadata(old(View()), writes)
    {
      for i := 0 to |writes|
        invariant records == PutAll(old(records), writes[..i])
      {
        assert writes[..i + 1][..i] == writes[..i];
        records := Put(records, writes[i].0, writes[i].1);
      }
      assert writes[..|writes|] == writes;
    }

    method Audit(op: string)
      modifies this`audited
      ensures View() == AppendAudit(old(View()), op)
    {
      audited := audited + {op};
    }
  }
}
