/**
 What each operation of the history service answers and writes (packages/operations/src/history-service.ts), and how
 long a deletion can be undone.
 */
module HistoryOutcomes {
  import opened Base
  import opened Json
  import opened History
  import opened HistoryService

  predicate Here(repo: Repo, workspaceId: string, id: string) {
    id in repo.resources && repo.resources[id].workspaceId == workspaceId
  }

  lemma HeadIsHere(repo: Repo, id: string)
    requires Linear(repo) && id in repo.resources
    ensures repo.resources[id].id == id
    ensures match repo.resources[id].head
            case None => true
            case Some(h) =>
              && h != "" && h in repo.revisions && repo.revisions[h].id == h
              && repo.revisions[h].workspaceId == repo.resources[id].workspaceId
  {
    hide IsHistory;
    var ids :| IsHistory(repo, repo.resources[id], ids);
    HeadIsLast(repo, repo.resources[id], ids);
  }

  /** The revision that a call writes, the resource it moves and the entry it leaves in the audit. */
  ghost predicate Appends(repo: Repo, repo': Repo, id: string, r: Revision, now: int) {
    && id in repo.resources
    && repo'.revisions == repo.revisions[r.id := r]
    && repo'.resources ==
       repo.resources[id := repo.resources[id].(head := Some(r.id), status := Active, updatedAt := now)]
    && repo'.audit == repo.audit + [AuditEntry(r.workspaceId, id, "revision.created", now)]
    && var resource := repo.resources[id];
       && r.workspaceId == resource.workspaceId && r.datasetId == resource.datasetId && r.resourceId == id
       && r.parent == resource.head && r.createdAt == now
       && match resource.head
          case None => r.number == 1
          case Some(h) => h in repo.revisions && r.number == repo.revisions[h].number + 1
  }

  /** A revision is created exactly when the resource is there and has the expected head. */
  lemma CreateOutcome(
    repo: Repo, workspaceId: string, id: string, expected: Option<string>, draft: Draft, hash: Json -> string,
    newId: string, now: int)
    requires Linear(repo)
    ensures match Transact(repo, Create(workspaceId, id, expected, draft), hash, newId, now)
            case Err(e) =>
              if Here(repo, workspaceId, id) then repo.resources[id].head != expected && e == Conflict
              else e == ResourceMissing
            case Ok(repo') =>
              && Here(repo, workspaceId, id) && repo.resources[id].head == expected
              && newId in repo'.revisions && Appends(repo, repo', id, repo'.revisions[newId], now)
              && repo'.revisions[newId].id == newId && repo'.revisions[newId].draft == draft
              && repo'.revisions[newId].payloadHash == hash(draft.payload) && repo'.tombstones == repo.tombstones
  {
    if id in repo.resources {
      HeadIsHere(repo, id);
    }
    hide Linear;
  }

  /** A resource is deleted exactly when it is there and has the expected head. */
  lemma DeleteOutcome(
    repo: Repo, workspaceId: string, id: string, expected: Option<string>, actorId: string, until: Option<int>,
    hash: Json -> string, newId: string, now: int)
    requires Linear(repo)
    ensures match Transact(repo, Delete(workspaceId, id, expected, actorId, until), hash, newId, now)
            case Err(e) =>
              if Here(repo, workspaceId, id) then repo.resources[id].head != expected && e == Conflict
              else e == ResourceMissing
            case Ok(repo') =>
              && Here(repo, workspaceId, id) && repo.resources[id].head == expected
              && repo'.revisions == repo.revisions
              && repo'.resources ==
                 repo.resources[id := repo.resources[id].(status := DeletedLogically, updatedAt := now)]
              && repo'.tombstones == repo.tombstones + [Tombstone(newId, workspaceId, id, now, until, expected, true)]
              && repo'.audit == repo.audit + [AuditEntry(workspaceId, id, "resource.deleted_logically", now)]
  {
    if id in repo.resources {
      HeadIsHere(repo, id);
    }
    hide Linear;
  }

  predicate Expired(until: Option<int>, now: int) {
    until.Some? && until.value < now
  }

  /** Why a restoration is refused: nothing to restore from, a closed window, or a lost revision. */
  function Refusal(repo: Repo, workspaceId: string, t: Option<Tombstone>, now: int): Option<Error> {
    if t == None || t.value.prior == None || t.value.prior == Some("") then Some(NotRecoverable)
    else if Expired(t.value.recoverUntil, now) then Some(WindowExpired)
    else if GetRevision(repo, workspaceId, t.value.prior.value) == None then Some(RevisionMissing)
    else None
  }

  /** A restoration brings back the revision before the last deletion and closes that deletion's tombstone. */
  lemma RestoreOutcome(
    repo: Repo, workspaceId: string, id: string, actorId: string, hash: Json -> string, newId: string, now: int)
    requires Linear(repo)
    ensures var t := OpenTombstone(repo.tombstones, workspaceId, id);
            match Transact(repo, Restore(workspaceId, id, actorId), hash, newId, now)
            case Err(e) =>
              if Here(repo, workspaceId, id) then Refusal(repo, workspaceId, t, now) == Some(e)
              else e == ResourceMissing
            case Ok(repo') =>
              && Here(repo, workspaceId, id) && Refusal(repo, workspaceId, t, now) == None
              && newId in repo'.revisions && Appends(repo, repo', id, repo'.revisions[newId], now)
              && repo'.revisions[newId].draft == RestoreDraft(repo.revisions[t.value.prior.value], actorId)
              && repo'.tombstones == Close(repo.tombstones, t.value.id)
  {
    hide OpenTombstone;
    hide Close;
    hide RestoreDraft;
    if id in repo.resources {
      HeadIsHere(repo, id);
    }
    hide Linear;
    var t := OpenTombstone(repo.tombstones, workspaceId, id);
    if Here(repo, workspaceId, id) && Refusal(repo, workspaceId, t, now) == None {
      RestoreIs(repo, workspaceId, id, actorId, hash, newId, now);
    }
  }

  /**
   A deletion can be undone as long as it asked for: after it a restoration is refused for its window exactly when
   that has passed, and otherwise succeeds unless the resource never had a revision.
   */
  lemma DeleteThenRestore(
    repo: Repo, workspaceId: string, id: string, expected: Option<string>, actorId: string, until: Option<int>,
    hash: Json -> string, tombstoneId: string, clock: int, now: int, newId: string, later: int)
    requires SequentialInv(repo, clock) && clock < now < later && NewId(repo, tombstoneId)
    requires Here(repo, workspaceId, id) && repo.resources[id].head == expected
    ensures match Transact(repo, Delete(workspaceId, id, expected, actorId, until), hash, tombstoneId, now)
            case Err(_) => false
            case Ok(deleted) =>
              NewId(deleted, newId) ==>
                match Transact(deleted, Restore(workspaceId, id, actorId), hash, newId, later)
                case Err(e) =>
                  if expected == None then e == NotRecoverable else Expired(until, later) && e == WindowExpired
                case Ok(repo') =>
                  && expected.Some? && !Expired(until, later) && expected.value in repo.revisions
                  && Restores(deleted, repo', id, repo.revisions[expected.value], newId)
  {
    hide Linear;
    hide OpenTombstone;
    hide Transact;
    hide TombstonesOk;
    hide Recoverable;
    HeadIsHere(repo, id);
    DeleteOutcome(repo, workspaceId, id, expected, actorId, until, hash, tombstoneId, now);
    TransactKeeps(repo, Delete(workspaceId, id, expected, actorId, until), hash, tombstoneId, clock, now);
    var deleted := Transact(repo, Delete(workspaceId, id, expected, actorId, until), hash, tombstoneId, now).value;
    var t := Tombstone(tombstoneId, workspaceId, id, now, until, expected, true);
    TombstonesSnoc(repo.tombstones, t, clock, now);
    OpenSnocNew(repo.tombstones, t);
    RestoreOutcome(deleted, workspaceId, id, actorId, hash, newId, later);
    if NewId(deleted, newId) && expected.Some? && !Expired(until, later) {
      RestoreSucceeds(deleted, workspaceId, id, actorId, hash, newId, now, later);
    }
  }
}
