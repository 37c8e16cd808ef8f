/**
 The history service called one operation at a time with a strictly increasing clock
 (packages/operations/src/history-service.ts): what deletion and restoration guarantee.
 */
module HistoryService {
  import opened Base
  import opened Json
  import opened History

  /** A transaction that nothing interrupts: its reads and then its writes. */
  function Transact(repo: Repo, request: Request, hash: Json -> string, newId: string, now: int): Result<Repo, Error> {
    var one := ReadOf(repo, Started(request), now);
    var tx := if request.Restore? then ReadOf(repo, ReadOf(repo, one, now), now) else one;
    match tx
    case Failed(e) => Err(e)
    case Prepared(_, _, _, _, _, _) => CommitOf(repo, tx, hash, newId, now)
    case _ => Err(Conflict)
  }

  // ---------- sequential runs ----------

  ghost predicate TombstonesOk(tombstones: seq<Tombstone>, clock: int) {
    && (forall t :: t in tombstones ==> t.deletedAt <= clock)
    && (forall i, j :: 0 <= i < j < |tombstones| ==> tombstones[i].id != tombstones[j].id)
  }

  /** A logically deleted resource that has revisions can be restored to its head. */
  ghost predicate Recoverable(repo: Repo, resource: Resource) {
    resource.status == DeletedLogically && resource.head.Some? ==>
      match OpenTombstone(repo.tombstones, resource.workspaceId, resource.id)
      case None => false
      case Some(t) => t.prior == resource.head
  }

  ghost predicate SequentialInv(repo: Repo, clock: int) {
    && Linear(repo) && TombstonesOk(repo.tombstones, clock)
    && forall id :: id in repo.resources ==> Recoverable(repo, repo.resources[id])
  }

  predicate NewId(repo: Repo, newId: string) {
    newId != "" && newId !in repo.revisions && forall i :: 0 <= i < |repo.tombstones| ==> repo.tombstones[i].id != newId
  }

  /** Resources without revisions are where every sequential run can start. */
  lemma NewResourcesStart(resources: map<string, Resource>, clock: int)
    requires forall id :: id in resources ==> resources[id].id == id && resources[id].head == None
    ensures SequentialInv(Repo(resources, map[], [], []), clock)
  {
    var repo := Repo(resources, map[], [], []);
    forall id | id in repo.resources ensures exists ids :: IsHistory(repo, repo.resources[id], ids) {
      assert IsHistory(repo, repo.resources[id], []);
    }
  }

  // ---------- tombstones ----------

  lemma {:induction false} OpenSnocOther(
    tombstones: seq<Tombstone>, t: Tombstone, workspaceId: string, resourceId: string)
    requires !OpenFor(t, workspaceId, resourceId)
    ensures OpenTombstone(tombstones + [t], workspaceId, resourceId) ==
            OpenTombstone(tombstones, workspaceId, resourceId)
  {
    assert (tombstones + [t])[..|tombstones|] == tombstones;
  }

  lemma OpenSnocNew(tombstones: seq<Tombstone>, t: Tombstone)
    requires t.open && forall u :: u in tombstones ==> u.deletedAt < t.deletedAt
    ensures OpenTombstone(tombstones + [t], t.workspaceId, t.resourceId) == Some(t)
  {
    assert (tombstones + [t])[..|tombstones|] == tombstones;
  }

  /** The open tombstone of a list, from that of all but the last and the last. */
  function LaterOf(best: Option<Tombstone>, last: Tombstone, workspaceId: string, resourceId: string)
    : Option<Tombstone>
  {
    if OpenFor(last, workspaceId, resourceId) && (best == None || best.value.deletedAt <= last.deletedAt)
    then Some(last) else best
  }

  lemma OpenLast(tombstones: seq<Tombstone>, workspaceId: string, resourceId: string)
    requires tombstones != []
    ensures var n := |tombstones| - 1;
            OpenTombstone(tombstones, workspaceId, resourceId) ==
            LaterOf(OpenTombstone(tombstones[..n], workspaceId, resourceId), tombstones[n], workspaceId, resourceId)
  {
  }

  lemma {:induction false} CloseOther(tombstones: seq<Tombstone>, id: string, workspaceId: string, resourceId: string)
    requires forall i :: 0 <= i < |tombstones| ==>
               tombstones[i].id == id ==> !OpenFor(tombstones[i], workspaceId, resourceId)
    ensures OpenTombstone(Close(tombstones, id), workspaceId, resourceId) ==
            OpenTombstone(tombstones, workspaceId, resourceId)
  {
    if tombstones != [] {
      hide OpenTombstone;
      var n := |tombstones| - 1;
      CloseOther(tombstones[..n], id, workspaceId, resourceId);
      assert Close(tombstones, id)[..n] == Close(tombstones[..n], id);
      OpenLast(tombstones, workspaceId, resourceId);
      OpenLast(Close(tombstones, id), workspaceId, resourceId);
    } else {
      assert Close(tombstones, id) == tombstones;
    }
  }

  lemma CloseKeepsIds(tombstones: seq<Tombstone>, id: string, clock: int)
    requires TombstonesOk(tombstones, clock)
    ensures TombstonesOk(Close(tombstones, id), clock)
  {
    forall t | t in Close(tombstones, id) ensures t.deletedAt <= clock {
      var i :| 0 <= i < |tombstones| && Close(tombstones, id)[i] == t;
      assert tombstones[i] in tombstones;
    }
  }

  /** The tombstone with an id is the only one. */
  lemma OneWithId(tombstones: seq<Tombstone>, clock: int, t: Tombstone, u: Tombstone)
    requires TombstonesOk(tombstones, clock) && t in tombstones && u in tombstones && t.id == u.id
    ensures t == u
  {
    var i :| 0 <= i < |tombstones| && tombstones[i] == t;
    var j :| 0 <= j < |tombstones| && tombstones[j] == u;
  }

  // ---------- the operations, one at a time ----------

  /** What reading without interruption prepares. */
  lemma Prepares(repo: Repo, request: Request, hash: Json -> string, newId: string, now: int) returns (tx: Tx)
    requires Linear(repo) && Transact(repo, request, hash, newId, now).Ok?
    ensures tx.Prepared? && TxOk(repo, tx)
    ensures CommitOf(repo, tx, hash, newId, now) == Transact(repo, request, hash, newId, now)
    ensures tx.seen.id == request.resourceId && tx.seen == repo.resources[request.resourceId]
    ensures tx.seen.workspaceId == request.workspaceId
    ensures tx.draft.Some? <==> !request.Delete?
    ensures tx.tombstone.Some? ==>
              request.Restore? && OpenTombstone(repo.tombstones, request.workspaceId, request.resourceId).Some?
              && tx.tombstone.value == OpenTombstone(repo.tombstones, request.workspaceId, request.resourceId).value.id
    ensures request.Restore? ==> tx.tombstone.Some?
  {
    hide CommitOf;
    var one := ReadOf(repo, Started(request), now);
    ReadKeeps(repo, Started(request), now);
    tx := one;
    if request.Restore? {
      var two := ReadOf(repo, one, now);
      ReadKeeps(repo, one, now);
      ReadKeeps(repo, two, now);
      tx := ReadOf(repo, two, now);
    }
    IdsAgree(repo, request.resourceId);
  }

  lemma IdsAgree(repo: Repo, id: string)
    requires Linear(repo)
    ensures id in repo.resources ==> repo.resources[id].id == id
  {
  }

  lemma OthersRecoverable(repo: Repo, repo': Repo, request: Request, id: string)
    requires id in repo.resources && id in repo'.resources && repo'.resources[id] == repo.resources[id]
    requires repo.resources[id].id == id
    requires Recoverable(repo, repo.resources[id])
    requires OpenTombstone(repo'.tombstones, repo.resources[id].workspaceId, id) ==
             OpenTombstone(repo.tombstones, repo.resources[id].workspaceId, id)
    ensures Recoverable(repo', repo'.resources[id])
  {
  }

  lemma CreateKeeps(repo: Repo, request: Request, hash: Json -> string, newId: string, clock: int, now: int)
    requires SequentialInv(repo, clock) && clock < now && NewId(repo, newId) && !request.Delete?
    requires Transact(repo, request, hash, newId, now).Ok?
    ensures SequentialInv(Transact(repo, request, hash, newId, now).value, now)
  {
    hide Linear;
    hide Recoverable;
    hide TombstonesOk;
    hide Transact;
    hide OpenTombstone;
    var tx := Prepares(repo, request, hash, newId, now);
    CommitCreateKeeps(repo, tx, hash, newId, now);
    var repo' := CommitOf(repo, tx, hash, newId, now).value;
    LaterClock(repo.tombstones, clock, now);
    if tx.tombstone.Some? {
      CloseKeepsIds(repo.tombstones, tx.tombstone.value, now);
    }
    forall id | id in repo'.resources ensures Recoverable(repo', repo'.resources[id]) {
      if id == request.resourceId {
        ActiveIsRecoverable(repo', repo'.resources[id]);
      } else {
        IdsAgree(repo, id);
        if tx.tombstone.Some? {
          CloseElsewhere(repo.tombstones, clock, request.workspaceId, request.resourceId,
                         repo.resources[id].workspaceId, id);
        }
        OthersRecoverable(repo, repo', request, id);
      }
    }
  }

  lemma ActiveIsRecoverable(repo: Repo, resource: Resource)
    requires resource.status == Active
    ensures Recoverable(repo, resource)
  {
  }

  lemma LaterClock(tombstones: seq<Tombstone>, clock: int, now: int)
    requires TombstonesOk(tombstones, clock) && clock < now
    ensures TombstonesOk(tombstones, now)
  {
  }

  /** Closing a resource's tombstone does not concern another resource. */
  lemma CloseElsewhere(
    tombstones: seq<Tombstone>, clock: int, workspaceId: string, resourceId: string, otherWorkspace: string,
    other: string)
    requires TombstonesOk(tombstones, clock) && OpenTombstone(tombstones, workspaceId, resourceId).Some?
    requires other != resourceId
    ensures var id := OpenTombstone(tombstones, workspaceId, resourceId).value.id;
            OpenTombstone(Close(tombstones, id), otherWorkspace, other) ==
                OpenTombstone(tombstones, otherWorkspace, other)
  {
    var t := OpenTombstone(tombstones, workspaceId, resourceId).value;
    forall u | u in tombstones && u.id == t.id ensures !OpenFor(u, otherWorkspace, other) {
      OneWithId(tombstones, clock, t, u);
    }
    CloseOther(tombstones, t.id, otherWorkspace, other);
  }

  lemma DeleteKeeps(repo: Repo, request: Request, hash: Json -> string, newId: string, clock: int, now: int)
    requires SequentialInv(repo, clock) && clock < now && NewId(repo, newId) && request.Delete?
    requires Transact(repo, request, hash, newId, now).Ok?
    ensures SequentialInv(Transact(repo, request, hash, newId, now).value, now)
  {
    hide Linear;
    hide Recoverable;
    hide Transact;
    hide OpenTombstone;
    var tx := Prepares(repo, request, hash, newId, now);
    CommitDeleteKeeps(repo, tx, hash, newId, now);
    var repo' := CommitOf(repo, tx, hash, newId, now).value;
    var t := repo'.tombstones[|repo.tombstones|];
    assert repo'.tombstones == repo.tombstones + [t];
    TombstonesSnoc(repo.tombstones, t, clock, now);
    OpenSnocNew(repo.tombstones, t);
    forall id | id in repo'.resources ensures Recoverable(repo', repo'.resources[id]) {
      IdsAgree(repo, id);
      if id == request.resourceId {
        DeletedIsRecoverable(repo', repo'.resources[id], t);
      } else {
        OpenSnocOther(repo.tombstones, t, repo.resources[id].workspaceId, id);
        OthersRecoverable(repo, repo', request, id);
      }
    }
  }

  lemma DeletedIsRecoverable(repo: Repo, resource: Resource, t: Tombstone)
    requires OpenTombstone(repo.tombstones, resource.workspaceId, resource.id) == Some(t) && t.prior == resource.head
    ensures Recoverable(repo, resource)
  {
  }

  lemma TombstonesSnoc(tombstones: seq<Tombstone>, t: Tombstone, clock: int, now: int)
    requires TombstonesOk(tombstones, clock) && clock < now && t.deletedAt == now
    requires forall i :: 0 <= i < |tombstones| ==> tombstones[i].id != t.id
    ensures TombstonesOk(tombstones + [t], now) && forall u :: u in tombstones ==> u.deletedAt < t.deletedAt
  {
  }

  /** Every operation keeps deleted resources recoverable and histories linear. */
  lemma TransactKeeps(repo: Repo, request: Request, hash: Json -> string, newId: string, clock: int, now: int)
    requires SequentialInv(repo, clock) && clock < now && NewId(repo, newId)
    ensures match Transact(repo, request, hash, newId, now)
            case Ok(repo') => SequentialInv(repo', now) && Extends(repo, repo')
            case Err(_) => SequentialInv(repo, now)
  {
    hide Linear;
    hide Recoverable;
    LaterClock(repo.tombstones, clock, now);
    hide TombstonesOk;
    hide Transact;
    if Transact(repo, request, hash, newId, now).Ok? {
      var tx := Prepares(repo, request, hash, newId, now);
      if request.Delete? {
        DeleteKeeps(repo, request, hash, newId, clock, now);
        CommitDeleteKeeps(repo, tx, hash, newId, now);
      } else {
        CreateKeeps(repo, request, hash, newId, clock, now);
        CommitCreateKeeps(repo, tx, hash, newId, now);
      }
    }
  }

  // ---------- restoring ----------

  /** The revision brings back the content of an earlier one under the next number. */
  ghost predicate Restores(repo: Repo, repo': Repo, id: string, prior: Revision, newId: string) {
    && newId in repo'.revisions && id in repo'.resources
    && repo'.resources[id].head == Some(newId) && repo'.resources[id].status == Active
    && var r := repo'.revisions[newId];
       && r.draft.payload == prior.draft.payload && r.draft.schemaPackageId == prior.draft.schemaPackageId
       && r.draft.schemaVersion == prior.draft.schemaVersion && r.draft.restoredFrom == Some(prior.id)
       && r.number == prior.number + 1 && r.parent == Some(prior.id)
  }

  /** Inside its window a deleted resource with revisions is restored to its head. */
  lemma RestoreSucceeds(
    repo: Repo, workspaceId: string, id: string, actorId: string, hash: Json -> string, newId: string, clock: int,
    now: int)
    requires SequentialInv(repo, clock) && clock < now && NewId(repo, newId)
    requires id in repo.resources && repo.resources[id].workspaceId == workspaceId
    requires repo.resources[id].status == DeletedLogically && repo.resources[id].head.Some?
    requires var t := OpenTombstone(repo.tombstones, workspaceId, id);
             t.Some? && t.value.recoverUntil.Some? ==> now <= t.value.recoverUntil.value
    ensures match Transact(repo, Restore(workspaceId, id, actorId), hash, newId, now)
            case Err(_) => false
            case Ok(repo') =>
              && repo.resources[id].head.value in repo.revisions
              && Restores(repo, repo', id, repo.revisions[repo.resources[id].head.value], newId)
  {
    hide IsHistory;
    hide TombstonesOk;
    var resource := repo.resources[id];
    assert Recoverable(repo, resource);
    var ids :| IsHistory(repo, resource, ids);
    HeadIsLast(repo, resource, ids);
    hide OpenTombstone;
    var request := Restore(workspaceId, id, actorId);
    var one := ReadOf(repo, Started(request), now);
    assert one == Located(request, resource.head);
    var prior := repo.revisions[resource.head.value];
    var two := ReadOf(repo, one, now);
    assert two.Found? && two.revived == RestoreDraft(prior, actorId);
    var tx := ReadOf(repo, two, now);
    assert tx.Prepared? && tx.current == Some(prior) && tx.seen == resource;
  }

  // ---------- whole runs ----------

  /** One call of the service, with the id it generates and the time it reads. */
  datatype Call = Call(request: Request, newId: string, now: int)

  /** The repository after the calls; a refused one changes nothing. */
  function After(repo: Repo, hash: Json -> string, calls: seq<Call>): Repo {
    if calls == [] then repo
    else
      var n := |calls| - 1;
      var before, c := After(repo, hash, calls[..n]), calls[n];
      match Transact(before, c.request, hash, c.newId, c.now)
      case Ok(after) => after
      case Err(_) => before
  }

  function ClockAfter(clock: int, calls: seq<Call>): int {
    if calls == [] then clock else calls[|calls| - 1].now
  }

  /** The clock increases from call to call and generated ids are new when they are used. */
  ghost predicate InOrder(repo: Repo, hash: Json -> string, clock: int, calls: seq<Call>) {
    calls == [] ||
    var n := |calls| - 1;
    && InOrder(repo, hash, clock, calls[..n]) && ClockAfter(clock, calls[..n]) < calls[n].now
    && NewId(After(repo, hash, calls[..n]), calls[n].newId)
  }

  lemma ExtendsOn(a: Repo, b: Repo, c: Repo)
    requires Extends(a, b) && Extends(b, c)
    ensures Extends(a, c)
  {
  }

  /** Every sequence of calls keeps histories linear, deletions recoverable and committed revisions unchanged. */
  lemma {:induction false} RunsStayRecoverable(repo: Repo, hash: Json -> string, clock: int, calls: seq<Call>)
    requires SequentialInv(repo, clock) && InOrder(repo, hash, clock, calls)
    ensures SequentialInv(After(repo, hash, calls), ClockAfter(clock, calls)) && Extends(repo, After(repo, hash, calls))
  {
    hide SequentialInv;
    hide Transact;
    hide NewId;
    if calls == [] {
      ExtendsItself(repo);
    } else {
      hide Extends;
      var n := |calls| - 1;
      var before, c := After(repo, hash, calls[..n]), calls[n];
      RunsStayRecoverable(repo, hash, clock, calls[..n]);
      TransactKeeps(before, c.request, hash, c.newId, ClockAfter(clock, calls[..n]), c.now);
      if Transact(before, c.request, hash, c.newId, c.now).Ok? {
        ExtendsOn(repo, before, After(repo, hash, calls));
      }
    }
  }

  lemma ExtendsItself(repo: Repo)
    ensures Extends(repo, repo)
  {
  }

  /**
   From resources without revisions, through any calls: whatever is deleted at the end and has a revision
   has an open tombstone with its head, and inside that tombstone's window restoring it succeeds.
   */
  lemma DeletedCanBeRestored(
    resources: map<string, Resource>, hash: Json -> string, clock: int, calls: seq<Call>,
    id: string, actorId: string, newId: string, now: int)
    requires forall r :: r in resources ==> resources[r].id == r && resources[r].head == None
    requires InOrder(Repo(resources, map[], [], []), hash, clock, calls)
    requires var repo := After(Repo(resources, map[], [], []), hash, calls);
             && id in repo.resources && repo.resources[id].status == DeletedLogically && repo.resources[id].head.Some?
             && ClockAfter(clock, calls) < now && NewId(repo, newId)
    ensures var repo := After(Repo(resources, map[], [], []), hash, calls);
            var workspaceId, head := repo.resources[id].workspaceId, repo.resources[id].head;
            && head.value in repo.revisions
            && match OpenTombstone(repo.tombstones, workspaceId, id)
               case None => false
               case Some(t) =>
                 && t.prior == head
                 && ((t.recoverUntil.Some? ==> now <= t.recoverUntil.value) ==>
                       match Transact(repo, Restore(workspaceId, id, actorId), hash, newId, now)
                       case Err(_) => false
                       case Ok(restored) => Restores(repo, restored, id, repo.revisions[head.value], newId))
  {
    hide InOrder;
    hide Linear;
    hide TombstonesOk;
    hide Transact;
    hide OpenTombstone;
    hide NewId;
    var start := Repo(resources, map[], [], []);
    NewResourcesStart(resources, clock);
    RunsStayRecoverable(start, hash, clock, calls);
    var repo := After(start, hash, calls);
    hide After;
    HeadStored(repo, id);
    assert Recoverable(repo, repo.resources[id]);
    IdsAgree(repo, id);
    var t := OpenTombstone(repo.tombstones, repo.resources[id].workspaceId, id).value;
    if t.recoverUntil.Some? ==> now <= t.recoverUntil.value {
      RestoreSucceeds(repo, repo.resources[id].workspaceId, id, actorId, hash, newId, ClockAfter(clock, calls), now);
    }
  }

  lemma HeadStored(repo: Repo, id: string)
    requires Linear(repo) && id in repo.resources && repo.resources[id].head.Some?
    ensures repo.resources[id].head.value in repo.revisions
  {
    hide IsHistory;
    var ids :| IsHistory(repo, repo.resources[id], ids);
    HeadIsLast(repo, repo.resources[id], ids);
  }

  // ---------- the converse ----------

  /** Only deleted resources have open tombstones. */
  ghost predicate OpenMeansDeleted(repo: Repo) {
    forall id :: id in repo.resources && OpenTombstone(repo.tombstones, repo.resources[id].workspaceId, id).Some? ==>
      repo.resources[id].status == DeletedLogically
  }

  /** Creating a revision keeps the converse exactly when the resource had no open tombstone. */
  lemma CreateKeepsConverse(repo: Repo, request: Request, hash: Json -> string, newId: string, clock: int, now: int)
    requires SequentialInv(repo, clock) && OpenMeansDeleted(repo) && request.Create?
    requires Transact(repo, request, hash, newId, now).Ok?
    ensures OpenMeansDeleted(Transact(repo, request, hash, newId, now).value) <==>
            OpenTombstone(repo.tombstones, request.workspaceId, request.resourceId) == None
  {
    hide Linear;
    hide Recoverable;
    hide TombstonesOk;
    hide Transact;
    hide OpenTombstone;
    var tx := Prepares(repo, request, hash, newId, now);
    var repo' := CommitOf(repo, tx, hash, newId, now).value;
    assert repo'.tombstones == repo.tombstones;
    assert repo'.resources[request.resourceId].status == Active;
  }

  /** Deleting keeps the converse. */
  lemma DeleteKeepsConverse(repo: Repo, request: Request, hash: Json -> string, newId: string, clock: int, now: int)
    requires SequentialInv(repo, clock) && OpenMeansDeleted(repo) && request.Delete?
    requires Transact(repo, request, hash, newId, now).Ok?
    ensures OpenMeansDeleted(Transact(repo, request, hash, newId, now).value)
  {
    hide Linear;
    hide Recoverable;
    hide TombstonesOk;
    hide Transact;
    hide OpenTombstone;
    var tx := Prepares(repo, request, hash, newId, now);
    var repo' := CommitOf(repo, tx, hash, newId, now).value;
    var t := repo'.tombstones[|repo.tombstones|];
    assert repo'.tombstones == repo.tombstones + [t];
    forall id | id in repo'.resources && id != request.resourceId
      ensures OpenTombstone(repo'.tombstones, repo'.resources[id].workspaceId, id)
              == OpenTombstone(repo.tombstones, repo.resources[id].workspaceId, id)
    {
      OpenSnocOther(repo.tombstones, t, repo.resources[id].workspaceId, id);
    }
  }

  /** Restoring keeps the converse exactly when the tombstone it closes was the only open one. */
  lemma RestoreKeepsConverse(repo: Repo, request: Request, hash: Json -> string, newId: string, clock: int, now: int)
    requires SequentialInv(repo, clock) && OpenMeansDeleted(repo) && request.Restore?
    requires Transact(repo, request, hash, newId, now).Ok?
    ensures var t := OpenTombstone(repo.tombstones, request.workspaceId, request.resourceId);
            t.Some? &&
            (OpenMeansDeleted(Transact(repo, request, hash, newId, now).value) <==>
             OpenTombstone(Close(repo.tombstones, t.value.id), request.workspaceId, request.resourceId) == None)
  {
    hide Linear;
    hide Recoverable;
    hide TombstonesOk;
    hide Transact;
    hide OpenTombstone;
    hide Close;
    var tx := Prepares(repo, request, hash, newId, now);
    var t := OpenTombstone(repo.tombstones, request.workspaceId, request.resourceId).value;
    var repo' := CommitOf(repo, tx, hash, newId, now).value;
    assert repo'.tombstones == Close(repo.tombstones, t.id);
    assert repo'.resources[request.resourceId].status == Active;
    forall id | id in repo'.resources && id != request.resourceId
      ensures OpenTombstone(repo'.tombstones, repo'.resources[id].workspaceId, id)
              == OpenTombstone(repo.tombstones, repo.resources[id].workspaceId, id)
    {
      CloseElsewhere(repo.tombstones, clock, request.workspaceId, request.resourceId, repo.resources[id].workspaceId,
                     id);
    }
  }

  const DRAFT := Draft("s", "1", Null, "u", "user", None)

  /** A resource with one revision. */
  function OneRevision(): Repo {
    Repo(map["r" := Resource("r", "w", "d", Active, Some("a"), 0)],
         map["a" := Revision("a", "w", "d", "r", 1, None, DRAFT, "", 0)], [], [])
  }

  /** The converse fails: delete the resource, then create a revision of it, and it is active with an open tombstone. */
  lemma ConverseFails(hash: Json -> string)
    ensures match Transact(OneRevision(), Delete("w", "r", Some("a"), "u", None), hash, "t", 1)
            case Err(_) => false
            case Ok(deleted) =>
              match Transact(deleted, Create("w", "r", Some("a"), DRAFT), hash, "b", 2)
              case Err(_) => false
              case Ok(repo) =>
                "r" in repo.resources && repo.resources["r"].status == Active
                  && OpenTombstone(repo.tombstones, "w", "r").Some?
  {
    var t := Tombstone("t", "w", "r", 1, None, Some("a"), true);
    var deleted := Transact(OneRevision(), Delete("w", "r", Some("a"), "u", None), hash, "t", 1).value;
    assert deleted.tombstones == [t];
    assert t in deleted.tombstones && OpenFor(t, "w", "r");
    hide OpenTombstone;
    var repo := Transact(deleted, Create("w", "r", Some("a"), DRAFT), hash, "b", 2).value;
    assert repo.tombstones == [t];
  }

  function DeleteAgain(): Request {
    Delete("w", "r", Some("a"), "u", None)
  }

  /** So it does after two deletions and one restoration, which closes only the later tombstone. */
  lemma RestoreLeavesOpen(hash: Json -> string)
    ensures match Transact(OneRevision(), DeleteAgain(), hash, "t", 1)
            case Err(_) => false
            case Ok(once) =>
              match Transact(once, DeleteAgain(), hash, "v", 2)
              case Err(_) => false
              case Ok(twice) =>
                match Transact(twice, Restore("w", "r", "u"), hash, "b", 3)
                case Err(_) => false
                case Ok(repo) =>
                  && "r" in repo.resources && repo.resources["r"].status == Active
                  && OpenTombstone(repo.tombstones, "w", "r").Some?
  {
    var t, v := Tombstone("t", "w", "r", 1, None, Some("a"), true), Tombstone("v", "w", "r", 2, None, Some("a"), true);
    var once := Transact(OneRevision(), DeleteAgain(), hash, "t", 1).value;
    var twice := Transact(once, DeleteAgain(), hash, "v", 2).value;
    assert twice.tombstones == [t] + [v];
    OpenSnocNew([t], v);
    hide OpenTombstone;
    RestoreTwice(twice, hash, t, v);
  }

  lemma RestoreTwice(repo: Repo, hash: Json -> string, t: Tombstone, v: Tombstone)
    requires repo.tombstones == [t] + [v] && OpenTombstone([t] + [v], "w", "r") == Some(v) && t.id != v.id
    requires OpenFor(t, "w", "r") && v.prior == Some("a") && v.recoverUntil == None
    requires "r" in repo.resources && repo.resources["r"].id == "r" && repo.resources["r"].workspaceId == "w"
    requires repo.resources["r"].head == Some("a")
    requires repo.revisions == OneRevision().revisions && repo.resources["r"].datasetId == "d"
    ensures match Transact(repo, Restore("w", "r", "u"), hash, "b", 3)
            case Err(_) => false
            case Ok(after) =>
              && "r" in after.resources && after.resources["r"].status == Active
              && OpenTombstone(after.tombstones, "w", "r").Some?
  {
    hide OpenTombstone;
    var after := Transact(repo, Restore("w", "r", "u"), hash, "b", 3).value;
    assert after.tombstones == Close([t] + [v], v.id);
    assert after.tombstones[0] == t;
    StillOpen(after.tombstones, t);
  }

  lemma StillOpen(tombstones: seq<Tombstone>, t: Tombstone)
    requires t in tombstones && OpenFor(t, "w", "r")
    ensures OpenTombstone(tombstones, "w", "r").Some?
  {
  }

  // ---------- the service ----------

  class ResourceHistoryService {
    var resources: map<string, Resource>
    var revisions: map<string, Revision>
    var tombstones: seq<Tombstone>
    var audit: seq<AuditEntry>

    constructor (resources: map<string, Resource>)
      ensures View() == Repo(resources, map[], [], [])
    {
      this.resources, revisions, tombstones, audit := resources, map[], [], [];
    }

    function View(): Repo
      reads this
    {
      Repo(resources, revisions, tombstones, audit)
    }

    /** The compare-and-set of a resource's head. */
    method SetResourceHead(
      workspaceId: string, id: string, expected: Option<string>, next: Option<string>, status: Status, at: int)
      returns (ok: bool)
      modifies this`resources
      ensures ok <==>
              && id in old(resources) && old(resources)[id].workspaceId == workspaceId
              && old(resources)[id].head == expected
      ensures resources ==
              if ok then old(resources)[id := old(resources)[id].(head := next, status := status, updatedAt := at)]
                else old(resources)
    {
      if id !in resources || resources[id].workspaceId != workspaceId || resources[id].head != expected {
        return false;
      }
      resources := resources[id := resources[id].(head := next, status := status, updatedAt := at)];
      ok := true;
    }

    method CloseTombstone(id: string)
      modifies this`tombstones
      ensures tombstones == Close(old(tombstones), id)
    {
      var i := 0;
      while i < |tombstones|
        invariant i <= |tombstones| == |old(tombstones)|
        invariant forall k :: 0 <= k < i ==> tombstones[k] == Close(old(tombstones), id)[k]
        invariant forall k :: i <= k < |tombstones| ==> tombstones[k] == old(tombstones)[k]
      {
        if tombstones[i].id == id {
          tombstones := tombstones[i := tombstones[i].(open := false)];
        }
        i := i + 1;
      }
    }

    method CreateRevisionWithin(
      workspaceId: string, id: string, expected: Option<string>, draft: Draft, hash: Json -> string, newId: string,
      now: int)
      returns (r: Result<Revision, Error>)
      requires id in resources ==> resources[id].id == id
      modifies this`resources, this`revisions, this`audit
      ensures var tx := PrepareCreate(old(View()), Create(workspaceId, id, expected, draft), expected, draft, None);
              match tx
              case Failed(e) => r == Err(e) && View() == old(View())
              case _ =>
                tx.Prepared? &&
                match CommitOf(old(View()), tx, hash, newId, now)
                case Err(e) => r == Err(e) && View() == old(View())
                case Ok(repo) => r == Ok(Propose(tx.seen, tx.current, draft, hash, newId, now)) && View() == repo
    {
      var resource := GetResource(View(), workspaceId, id);
      if resource == None {
        return Err(ResourceMissing);
      }
      var current := CurrentOf(View(), resource.value);
      if current.Err? {
        return Err(current.error);
      }
      if resource.value.head != expected {
        return Err(Conflict);
      }
      var revision := Propose(resource.value, current.value, draft, hash, newId, now);
      if !NextRevision(resource.value, current.value, revision) {
        return Err(BadRevision);
      }
      var swapped := SetResourceHead(workspaceId, id, expected, Some(newId), Active, now);
      revisions := revisions[newId := revision];
      audit := audit + [AuditEntry(workspaceId, id, "revision.created", now)];
      r := Ok(revision);
    }

    method CreateRevision(
      workspaceId: string, id: string, expected: Option<string>, draft: Draft, hash: Json -> string, newId: string,
      now: int,
      ghost clock: int)
      returns (r: Result<Revision, Error>)
      requires SequentialInv(View(), clock) && clock < now && NewId(View(), newId)
      modifies this
      ensures SequentialInv(View(), now) && Extends(old(View()), View())
      ensures match Transact(old(View()), Create(workspaceId, id, expected, draft), hash, newId, now)
              case Err(e) => r == Err(e) && View() == old(View())
              case Ok(repo) =>
                && r.Ok? && View() == repo && newId in revisions && revisions[newId] == r.value
                && r.value.id == newId && r.value.parent == expected && r.value.draft == draft
                && r.value.payloadHash == hash(draft.payload) && r.value.createdAt == now
    {
      hide Linear;
      hide TombstonesOk;
      hide Recoverable;
      hide CommitOf;
      IdsAgree(View(), id);
      TransactKeeps(View(), Create(workspaceId, id, expected, draft), hash, newId, clock, now);
      CommitWrites(View(), Create(workspaceId, id, expected, draft), hash, newId, now);
      r := CreateRevisionWithin(workspaceId, id, expected, draft, hash, newId, now);
    }

    method DeleteResource(
      workspaceId: string, id: string, expected: Option<string>, actorId: string, recoverUntil: Option<int>,
      hash: Json -> string, newId: string, now: int, ghost clock: int)
      returns (r: Result<Tombstone, Error>)
      requires SequentialInv(View(), clock) && clock < now && NewId(View(), newId)
      modifies this
      ensures SequentialInv(View(), now) && Extends(old(View()), View())
      ensures match Transact(old(View()), Delete(workspaceId, id, expected, actorId, recoverUntil), hash, newId, now)
              case Err(e) => r == Err(e) && View() == old(View())
              case Ok(repo) =>
                && r.Ok? && View() == repo && OpenTombstone(tombstones, workspaceId, id) == Some(r.value)
                && r.value == Tombstone(newId, workspaceId, id, now, recoverUntil, expected, true)
    {
      hide Linear;
      hide Recoverable;
      IdsAgree(View(), id);
      TransactKeeps(View(), Delete(workspaceId, id, expected, actorId, recoverUntil), hash, newId, clock, now);
      var resource := GetResource(View(), workspaceId, id);
      if resource == None {
        return Err(ResourceMissing);
      }
      if resource.value.head != expected {
        return Err(Conflict);
      }
      var tombstone := Tombstone(newId, workspaceId, id, now, recoverUntil, resource.value.head, true);
      TombstonesSnoc(tombstones, tombstone, clock, now);
      OpenSnocNew(tombstones, tombstone);
      hide OpenTombstone;
      hide TombstonesOk;
      tombstones := tombstones + [tombstone];
      var swapped := SetResourceHead(workspaceId, id, expected, resource.value.head, DeletedLogically, now);
      audit := audit + [AuditEntry(workspaceId, id, "resource.deleted_logically", now)];
      r := Ok(tombstone);
    }

    method RestoreResource(
      workspaceId: string, id: string, actorId: string, hash: Json -> string, newId: string, now: int, ghost clock: int)
      returns (r: Result<Revision, Error>)
      requires SequentialInv(View(), clock) && clock < now && NewId(View(), newId)
      modifies this
      ensures SequentialInv(View(), now) && Extends(old(View()), View())
      ensures match Transact(old(View()), Restore(workspaceId, id, actorId), hash, newId, now)
              case Err(e) => r == Err(e) && View() == old(View())
              case Ok(repo) => r.Ok? && View() == repo
    {
      hide Linear;
      hide TombstonesOk;
      hide Recoverable;
      hide OpenTombstone;
      hide Close;
      hide NextRevision;
      hide Propose;
      ghost var before := View();
      IdsAgree(View(), id);
      TransactKeeps(View(), Restore(workspaceId, id, actorId), hash, newId, clock, now);
      var resource := GetResource(View(), workspaceId, id);
      if resource == None {
        return Err(ResourceMissing);
      }
      var tombstone := OpenTombstone(tombstones, workspaceId, id);
      if tombstone == None || tombstone.value.prior == None || tombstone.value.prior == Some("") {
        return Err(NotRecoverable);
      }
      if tombstone.value.recoverUntil.Some? && tombstone.value.recoverUntil.value < now {
        return Err(WindowExpired);
      }
      var prior := GetRevision(View(), workspaceId, tombstone.value.prior.value);
      if prior == None {
        return Err(RevisionMissing);
      }
      RestoreIs(before, workspaceId, id, actorId, hash, newId, now);
      hide ReadOf;
      hide Transact;
      r := CreateRevisionWithin(workspaceId, id, resource.value.head, RestoreDraft(prior.value, actorId), hash, newId,
                                now);
      if r.Ok? {
        CloseTombstone(tombstone.value.id);
      }
    }
  }

  /** A restoration is a creation of the restored draft, after which the tombstone is closed. */
  lemma RestoreIs(
    repo: Repo, workspaceId: string, id: string, actorId: string, hash: Json -> string, newId: string, now: int)
    requires id in repo.resources ==> repo.resources[id].id == id
    requires GetResource(repo, workspaceId, id).Some? && OpenTombstone(repo.tombstones, workspaceId, id).Some?
    requires var t := OpenTombstone(repo.tombstones, workspaceId, id).value;
             && t.prior.Some? && t.prior != Some("") && !(t.recoverUntil.Some? && t.recoverUntil.value < now)
             && GetRevision(repo, workspaceId, t.prior.value).Some?
    ensures var t := OpenTombstone(repo.tombstones, workspaceId, id).value;
            var draft := RestoreDraft(GetRevision(repo, workspaceId, t.prior.value).value, actorId);
            var expected := GetResource(repo, workspaceId, id).value.head;
            var tx := PrepareCreate(repo, Create(workspaceId, id, expected, draft), expected, draft, None);
            match tx
            case Failed(e) => Transact(repo, Restore(workspaceId, id, actorId), hash, newId, now) == Err(e)
            case _ =>
              tx.Prepared? &&
              match CommitOf(repo, tx, hash, newId, now)
              case Err(e) => Transact(repo, Restore(workspaceId, id, actorId), hash, newId, now) == Err(e)
              case Ok(repo') =>
                Transact(repo, Restore(workspaceId, id, actorId), hash, newId, now) ==
                    Ok(repo'.(tombstones := Close(repo.tombstones, t.id)))
                && repo'.tombstones == repo.tombstones
  {
    hide OpenTombstone;
    hide Close;
    hide NextRevision;
    hide Propose;
    hide RestoreDraft;
  }

  lemma CommitWrites(repo: Repo, request: Request, hash: Json -> string, newId: string, now: int)
    requires request.Create? && Linear(repo)
    ensures var tx := PrepareCreate(repo, request, request.expected, request.draft, None);
            tx.Prepared? && CommitOf(repo, tx, hash, newId, now).Ok? ==>
              var repo' := CommitOf(repo, tx, hash, newId, now).value;
              && newId in repo'.revisions
              && repo'.revisions[newId] == Propose(tx.seen, tx.current, request.draft, hash, newId, now)
              && repo'.revisions[newId].parent == request.expected
  {
    if request.resourceId in repo.resources {
      hide IsHistory;
      var ids :| IsHistory(repo, repo.resources[request.resourceId], ids);
      HeadIsLast(repo, repo.resources[request.resourceId], ids);
    }
  }
}
