/**
 Resource history (packages/operations/src/history-service.ts on the repository of
 packages/persistence-postgres/src/history-repository.ts). A transaction reads committed state, one
 read at a time, so what it has seen may be stale; its writes take effect together, and only if the
 resource's head is still the one it expects.
 */
module History {
  import opened Base
  import opened Json

  datatype Status = Active | Archived | DeletedLogically | LegalHold

  datatype Resource = Resource(
    id: string, workspaceId: string, datasetId: string, status: Status, head: Option<string>, updatedAt: int)

  datatype Revision = Revision(
    id: string, workspaceId: string, datasetId: string, resourceId: string, number: int, parent: Option<string>,
    draft: Draft,
    payloadHash: string, createdAt: int)

  /** What the author of a revision decides. */
  datatype Draft = Draft(
    schemaPackageId: string, schemaVersion: string, payload: Json, actorId: string, source: string,
    restoredFrom: Option<string>)

  datatype Tombstone = Tombstone(
    id: string, workspaceId: string, resourceId: string, deletedAt: int, recoverUntil: Option<int>,
    prior: Option<string>, open: bool)

  datatype AuditEntry = AuditEntry(workspaceId: string, subjectId: string, action: string, occurredAt: int)

  datatype Repo = Repo(
    resources: map<string, Resource>, revisions: map<string, Revision>, tombstones: seq<Tombstone>,
    audit: seq<AuditEntry>)

  datatype Error = ResourceMissing | RevisionMissing | Conflict | NotRecoverable | WindowExpired | BadRevision

  // ---------- reads ----------

  function GetResource(repo: Repo, workspaceId: string, id: string): Option<Resource> {
    if id in repo.resources && repo.resources[id].workspaceId == workspaceId then Some(repo.resources[id]) else None
  }

  function GetRevision(repo: Repo, workspaceId: string, id: string): Option<Revision> {
    if id in repo.revisions && repo.revisions[id].workspaceId == workspaceId then Some(repo.revisions[id]) else None
  }

  predicate OpenFor(t: Tombstone, workspaceId: string, resourceId: string) {
    t.open && t.workspaceId == workspaceId && t.resourceId == resourceId
  }

  /** The open tombstone of a resource that was deleted last. */
  function OpenTombstone(tombstones: seq<Tombstone>, workspaceId: string, resourceId: string): (r: Option<Tombstone>)
    ensures match r
            case None => forall t :: t in tombstones ==> !OpenFor(t, workspaceId, resourceId)
            case Some(t) =>
              && t in tombstones && OpenFor(t, workspaceId, resourceId)
              && forall u :: u in tombstones && OpenFor(u, workspaceId, resourceId) ==> u.deletedAt <= t.deletedAt
  {
    if tombstones == [] then None
    else
      var n := |tombstones| - 1;
      var last, best := tombstones[n], OpenTombstone(tombstones[..n], workspaceId, resourceId);
      assert forall t :: t in tombstones <==> t in tombstones[..n] || t == last;
      if OpenFor(last, workspaceId, resourceId) && (best == None || best.value.deletedAt <= last.deletedAt)
        then Some(last) else best
  }

  /** The head revision of a resource as seen; a resource without a head has none. */
  function CurrentOf(repo: Repo, resource: Resource): Result<Option<Revision>, Error> {
    if resource.head == None || resource.head == Some("") then Ok(None)
    else
      match GetRevision(repo, resource.workspaceId, resource.head.value)
      case None => Err(RevisionMissing)
      case Some(r) => Ok(Some(r))
  }

  // ---------- the next revision ----------

  function Propose(
    resource: Resource, current: Option<Revision>, draft: Draft, hash: Json -> string, newId: string,
    now: int): Revision {
    Revision(
      newId, resource.workspaceId, resource.datasetId, resource.id,
      (match current case None => 0 case Some(r) => r.number) + 1,
      match current case None => None case Some(r) => Some(r.id),
      draft, hash(draft.payload), now)
  }

  /** assertNextRevision (packages/core/src/invariants.ts). */
  predicate NextRevision(resource: Resource, current: Option<Revision>, proposed: Revision) {
    && proposed.resourceId == resource.id && proposed.workspaceId == resource.workspaceId
    && proposed.datasetId == resource.datasetId
    && match current
       case None => proposed.parent == None && proposed.number == 1
       case Some(r) => resource.head == Some(r.id) && proposed.parent == Some(r.id) && proposed.number == r.number + 1
  }

  // ---------- transactions ----------

  datatype Request =
    | Create(workspaceId: string, resourceId: string, expected: Option<string>, draft: Draft)
    | Delete(workspaceId: string, resourceId: string, expected: Option<string>, actorId: string,
             recoverUntil: Option<int>)
    | Restore(workspaceId: string, resourceId: string, actorId: string)

  /** How far a transaction has come, with what it has read on the way. */
  datatype Tx =
    | Started(request: Request)
    | Located(request: Request, expected: Option<string>)
    | Found(request: Request, expected: Option<string>, revived: Draft, tombstoneId: string)
    | Prepared(request: Request, seen: Resource, current: Option<Revision>, expected: Option<string>,
               draft: Option<Draft>, tombstone: Option<string>)
    | Committed
    | Failed(error: Error)

  function PrepareCreate(
    repo: Repo, request: Request, expected: Option<string>, draft: Draft, tombstone: Option<string>): Tx {
    match GetResource(repo, request.workspaceId, request.resourceId)
    case None => Failed(ResourceMissing)
    case Some(resource) =>
      match CurrentOf(repo, resource)
      case Err(e) => Failed(e)
      case Ok(current) =>
        if resource.head != expected then Failed(Conflict)
        else Prepared(request, resource, current, expected, Some(draft), tombstone)
  }

  function RestoreDraft(prior: Revision, actorId: string): Draft {
    prior.draft.(actorId := actorId, source := "restore", restoredFrom := Some(prior.id))
  }

  function FindDeletion(repo: Repo, tx: Tx, now: int): Tx
    requires tx.Located? && tx.request.Restore?
  {
    match OpenTombstone(repo.tombstones, tx.request.workspaceId, tx.request.resourceId)
    case None => Failed(NotRecoverable)
    case Some(t) =>
      if t.prior == None || t.prior == Some("") then Failed(NotRecoverable)
      else if t.recoverUntil.Some? && t.recoverUntil.value < now then Failed(WindowExpired)
      else
        match GetRevision(repo, tx.request.workspaceId, t.prior.value)
        case None => Failed(RevisionMissing)
        case Some(prior) => Found(tx.request, tx.expected, RestoreDraft(prior, tx.request.actorId), t.id)
  }

  /** The next read of a transaction. */
  function ReadOf(repo: Repo, tx: Tx, now: int): Tx {
    match tx
    case Started(Create(_, _, expected, draft)) => PrepareCreate(repo, tx.request, expected, draft, None)
    case Started(request) =>
      (match GetResource(repo, request.workspaceId, request.resourceId)
       case None => Failed(ResourceMissing)
       case Some(resource) =>
         if request.Restore? then Located(request, resource.head)
         else if request.Delete? && resource.head != request.expected then Failed(Conflict)
         else Prepared(request, resource, None, resource.head, None, None))
    case Located(request, _) => if request.Restore? then FindDeletion(repo, tx, now) else tx
    case Found(request, expected, draft, id) => PrepareCreate(repo, request, expected, draft, Some(id))
    case _ => tx
  }

  function Close(tombstones: seq<Tombstone>, id: string): seq<Tombstone> {
    seq(|tombstones|, i requires 0 <= i < |tombstones| =>
      if tombstones[i].id == id then tombstones[i].(open := false) else tombstones[i])
  }

  /** The writes of a prepared transaction, guarded by the compare-and-set of the head. */
  function CommitOf(repo: Repo, tx: Tx, hash: Json -> string, newId: string, now: int): Result<Repo, Error>
    requires tx.Prepared?
  {
    var id := tx.seen.id;
    match GetResource(repo, tx.seen.workspaceId, id)
    case None => Err(Conflict)
    case Some(resource) =>
      if resource.head != tx.expected then Err(Conflict)
      else
        match tx.draft
        case Some(draft) =>
          var revision := Propose(tx.seen, tx.current, draft, hash, newId, now);
          if !NextRevision(tx.seen, tx.current, revision) then Err(BadRevision)
          else
            Ok(Repo(
              repo.resources[id := resource.(head := Some(newId), status := Active, updatedAt := now)],
              repo.revisions[newId := revision],
              match tx.tombstone case None => repo.tombstones case Some(t) => Close(repo.tombstones, t),
              repo.audit + [AuditEntry(tx.seen.workspaceId, id, "revision.created", now)]))
        case None =>
          Ok(Repo(
            repo.resources[id := resource.(head := tx.seen.head, status := DeletedLogically, updatedAt := now)],
            repo.revisions,
            repo.tombstones + [
              Tombstone(newId, tx.seen.workspaceId, id, now,
                        match tx.request case Delete(_, _, _, _, until) => until case _ => None, tx.seen.head, true)],
            repo.audit + [AuditEntry(tx.seen.workspaceId, id, "resource.deleted_logically", now)]))
  }

  // ---------- interleaved runs ----------

  datatype World = World(repo: Repo, txs: map<int, Tx>)

  datatype Step =
    | Begin(t: int, request: Request)
    | Read(t: int, now: int)
    | Commit(t: int, newId: string, now: int)
    | Abort(t: int)

  /** Ids of new revisions and tombstones are new. */
  ghost predicate Enabled(w: World, step: Step) {
    match step
    case Begin(t, _) => t !in w.txs
    case Read(t, _) => t in w.txs
    case Commit(t, newId, _) => t in w.txs && w.txs[t].Prepared? && newId != "" && newId !in w.repo.revisions
    case Abort(t) => t in w.txs
  }

  function Next(hash: Json -> string, w: World, step: Step): World {
    match step
    case Begin(t, request) => w.(txs := w.txs[t := Started(request)])
    case Read(t, now) => if t in w.txs then w.(txs := w.txs[t := ReadOf(w.repo, w.txs[t], now)]) else w
    case Commit(t, newId, now) =>
      if t in w.txs && w.txs[t].Prepared? then
        match CommitOf(w.repo, w.txs[t], hash, newId, now)
        case Err(e) => w.(txs := w.txs[t := Failed(e)])
        case Ok(repo) => World(repo, w.txs[t := Committed])
      else w
    case Abort(t) => w.(txs := w.txs - {t})
  }

  function Run(hash: Json -> string, w: World, steps: seq<Step>): World {
    if steps == [] then w
    else
      var n := |steps| - 1;
      Next(hash, Run(hash, w, steps[..n]), steps[n])
  }

  ghost predicate Legal(hash: Json -> string, w: World, steps: seq<Step>) {
    steps == [] ||
    var n := |steps| - 1;
    Legal(hash, w, steps[..n]) && Enabled(Run(hash, w, steps[..n]), steps[n])
  }

  // ---------- one chain per resource ----------

  /** Revision `k` of the history stands in its place and links to the one before it. */
  ghost predicate InPlace(repo: Repo, resource: Resource, ids: seq<string>, k: nat)
    requires k < |ids|
  {
    && ids[k] in repo.revisions && ids[k] != ""
    && var r := repo.revisions[ids[k]];
       && r.id == ids[k] && r.resourceId == resource.id && r.workspaceId == resource.workspaceId
       && r.datasetId == resource.datasetId
       && r.number == k + 1 && r.parent == (if k == 0 then None else Some(ids[k - 1]))
  }

  /**
   `ids` are all revisions of the resource, numbered from 1, each the parent of the next, and the head is the last.
   */
  ghost predicate IsHistory(repo: Repo, resource: Resource, ids: seq<string>) {
    && (forall k :: 0 <= k < |ids| ==> InPlace(repo, resource, ids, k))
    && (forall id :: id in repo.revisions && repo.revisions[id].resourceId == resource.id ==> id in ids)
    && resource.head == (if ids == [] then None else Some(ids[|ids| - 1]))
  }

  ghost predicate Linear(repo: Repo) {
    forall id :: id in repo.resources ==>
        repo.resources[id].id == id && exists ids :: IsHistory(repo, repo.resources[id], ids)
  }

  predicate SameIdentity(a: Resource, b: Resource) {
    a.id == b.id && a.workspaceId == b.workspaceId && a.datasetId == b.datasetId
  }

  /** What a prepared transaction holds: the revision it builds on is the committed head it expects. */
  ghost predicate TxOk(repo: Repo, tx: Tx) {
    tx.Prepared? ==>
      && tx.seen.id in repo.resources && SameIdentity(tx.seen, repo.resources[tx.seen.id])
      && tx.seen.head == tx.expected
      && (tx.draft.Some? ==>
            match tx.expected
            case None => tx.current == None
            case Some(h) => h in repo.revisions && tx.current == Some(repo.revisions[h]) && repo.revisions[h].id == h)
  }

  ghost predicate Inv(w: World) {
    Linear(w.repo) && forall t :: t in w.txs ==> TxOk(w.repo, w.txs[t])
  }

  /** Committed revisions and the identity of resources are never changed or lost. */
  ghost predicate Extends(a: Repo, b: Repo) {
    && (forall id :: id in a.revisions ==> id in b.revisions && b.revisions[id] == a.revisions[id])
    && (forall id :: id in a.resources ==> id in b.resources && SameIdentity(a.resources[id], b.resources[id]))
  }

  lemma TxKeeps(a: Repo, b: Repo, tx: Tx)
    requires Extends(a, b) && TxOk(a, tx)
    ensures TxOk(b, tx)
  {
  }

  lemma HeadIsLast(repo: Repo, resource: Resource, ids: seq<string>)
    requires IsHistory(repo, resource, ids)
    ensures match resource.head
            case None => ids == []
            case Some(h) =>
              && h != "" && h in repo.revisions && repo.revisions[h].id == h
              && repo.revisions[h].workspaceId == resource.workspaceId && repo.revisions[h].number == |ids|
  {
    if ids != [] {
      assert InPlace(repo, resource, ids, |ids| - 1);
    }
  }

  lemma ReadKeeps(repo: Repo, tx: Tx, now: int)
    requires Linear(repo) && TxOk(repo, tx)
    ensures TxOk(repo, ReadOf(repo, tx, now))
  {
    hide IsHistory;
    var request :=
      match tx case Started(r) => r case Located(r, _) => r case Found(r, _, _, _) => r case _ => Restore("", "", "");
    if request.resourceId in repo.resources {
      var resource := repo.resources[request.resourceId];
      var ids :| IsHistory(repo, resource, ids);
      HeadIsLast(repo, resource, ids);
    }
  }

  /** Appending a revision built on the head extends the resource's history by one and touches no other. */
  lemma AppendExtends(
    repo: Repo, resource: Resource, ids: seq<string>, revision: Revision, resource': Resource, repo': Repo)
    requires IsHistory(repo, resource, ids) && revision.id != "" && revision.id !in repo.revisions
    requires revision.resourceId == resource.id && revision.workspaceId == resource.workspaceId
    requires revision.datasetId == resource.datasetId
    requires revision.number == |ids| + 1 && revision.parent == resource.head
    requires SameIdentity(resource, resource') && resource'.head == Some(revision.id)
    requires repo'.revisions == repo.revisions[revision.id := revision]
    ensures IsHistory(repo', resource', ids + [revision.id])
  {
    var ids' := ids + [revision.id];
    forall k | 0 <= k < |ids'| ensures InPlace(repo', resource', ids', k) {
      if k < |ids| {
        assert InPlace(repo, resource, ids, k);
        assert ids'[k] == ids[k] && (k > 0 ==> ids'[k - 1] == ids[k - 1]);
      }
    }
  }

  lemma OtherHistory(repo: Repo, resource: Resource, ids: seq<string>, revision: Revision, repo': Repo)
    requires IsHistory(repo, resource, ids) && revision.id !in repo.revisions && revision.resourceId != resource.id
    requires repo'.revisions == repo.revisions[revision.id := revision]
    ensures IsHistory(repo', resource, ids)
  {
    forall k | 0 <= k < |ids| ensures InPlace(repo', resource, ids, k) {
      assert InPlace(repo, resource, ids, k);
    }
  }

  /** A history read with the resource's status changed. */
  lemma SameHistory(repo: Repo, resource: Resource, ids: seq<string>, resource': Resource, repo': Repo)
    requires IsHistory(repo, resource, ids) && repo'.revisions == repo.revisions
    requires SameIdentity(resource, resource') && resource'.head == resource.head
    ensures IsHistory(repo', resource', ids)
  {
    forall k | 0 <= k < |ids| ensures InPlace(repo', resource', ids, k) {
      assert InPlace(repo, resource, ids, k);
    }
  }

  lemma CommitCreateKeeps(repo: Repo, tx: Tx, hash: Json -> string, newId: string, now: int)
    requires Linear(repo) && TxOk(repo, tx) && tx.Prepared? && tx.draft.Some? && newId != "" && newId !in repo.revisions
    requires CommitOf(repo, tx, hash, newId, now).Ok?
    ensures var repo' := CommitOf(repo, tx, hash, newId, now).value; Linear(repo') && Extends(repo, repo')
  {
    hide IsHistory;
    var repo' := CommitOf(repo, tx, hash, newId, now).value;
    var id := tx.seen.id;
    var resource := repo.resources[id];
    var revision := Propose(tx.seen, tx.current, tx.draft.value, hash, newId, now);
    var ids :| IsHistory(repo, resource, ids);
    HeadIsLast(repo, resource, ids);
    AppendExtends(repo, resource, ids, revision, repo'.resources[id], repo');
    forall other | other in repo'.resources && other != id
      ensures repo'.resources[other].id == other && exists more :: IsHistory(repo', repo'.resources[other], more)
    {
      var more :| IsHistory(repo, repo.resources[other], more);
      OtherHistory(repo, repo.resources[other], more, revision, repo');
    }
  }

  lemma CommitDeleteKeeps(repo: Repo, tx: Tx, hash: Json -> string, newId: string, now: int)
    requires Linear(repo) && TxOk(repo, tx) && tx.Prepared? && tx.draft == None
    requires CommitOf(repo, tx, hash, newId, now).Ok?
    ensures var repo' := CommitOf(repo, tx, hash, newId, now).value; Linear(repo') && Extends(repo, repo')
  {
    hide IsHistory;
    var repo' := CommitOf(repo, tx, hash, newId, now).value;
    forall id | id in repo'.resources
      ensures repo'.resources[id].id == id && exists ids :: IsHistory(repo', repo'.resources[id], ids)
    {
      var ids :| IsHistory(repo, repo.resources[id], ids);
      SameHistory(repo, repo.resources[id], ids, repo'.resources[id], repo');
    }
  }

  lemma StepKeeps(hash: Json -> string, w: World, step: Step)
    requires Inv(w) && Enabled(w, step)
    ensures Inv(Next(hash, w, step)) && Extends(w.repo, Next(hash, w, step).repo)
  {
    hide Linear;
    hide CommitOf;
    match step {
      case Read(t, now) => ReadKeeps(w.repo, w.txs[t], now);
      case Commit(t, newId, now) =>
        var tx := w.txs[t];
        if CommitOf(w.repo, tx, hash, newId, now).Ok? {
          if tx.draft.Some? {
            CommitCreateKeeps(w.repo, tx, hash, newId, now);
          } else {
            CommitDeleteKeeps(w.repo, tx, hash, newId, now);
          }
          var w' := Next(hash, w, step);
          forall u | u in w'.txs ensures TxOk(w'.repo, w'.txs[u]) {
            if u != t {
              TxKeeps(w.repo, w'.repo, w.txs[u]);
            }
          }
        }
      case _ =>
    }
  }

  /**
   Whatever create, delete and restore transactions overlap, each resource's committed revisions stay
   one chain numbered from 1 with the head at its end, and no committed revision ever changes.
   */
  lemma {:induction false} HistoriesStayLinear(hash: Json -> string, w: World, steps: seq<Step>)
    requires Inv(w) && Legal(hash, w, steps)
    ensures Inv(Run(hash, w, steps)) && Extends(w.repo, Run(hash, w, steps).repo)
  {
    hide Inv;
    hide Enabled;
    hide Next;
    if steps != [] {
      var n := |steps| - 1;
      HistoriesStayLinear(hash, w, steps[..n]);
      StepKeeps(hash, Run(hash, w, steps[..n]), steps[n]);
    }
  }

  /** In a linear history no two revisions of a resource share a parent or a number. */
  lemma NoSharedParent(repo: Repo, a: string, b: string)
    requires Linear(repo) && a in repo.revisions && b in repo.revisions && a != b
    requires repo.revisions[a].resourceId == repo.revisions[b].resourceId
    requires repo.revisions[a].resourceId in repo.resources
    ensures repo.revisions[a].parent != repo.revisions[b].parent && repo.revisions[a].number != repo.revisions[b].number
  {
    var resource := repo.resources[repo.revisions[a].resourceId];
    var ids :| IsHistory(repo, resource, ids);
    var i :| 0 <= i < |ids| && ids[i] == a;
    var j :| 0 <= j < |ids| && ids[j] == b;
    assert InPlace(repo, resource, ids, i) && InPlace(repo, resource, ids, j);
    assert i > 0 ==> InPlace(repo, resource, ids, i - 1);
    assert j > 0 ==> InPlace(repo, resource, ids, j - 1);
  }

  /** The check before a revision is written never refuses one that was prepared. */
  lemma PreparedIsNext(repo: Repo, tx: Tx, hash: Json -> string, newId: string, now: int)
    requires TxOk(repo, tx) && tx.Prepared?
    ensures CommitOf(repo, tx, hash, newId, now) != Err(BadRevision)
  {
  }
}
