/**
 Any number of executors of one import, interleaved with each other and with other users of the
 target, and crashed between any two steps (packages/archive/src/import-executor.ts driving the
 store and target of apps/trust-api/src/portability.ts). Executors share nothing but that durable
 state: what one of them believes may be out of date by the time it acts. Plans made at different
 times have one id and share one operation, although what they insert differs: a plan leaves out
 what it found in the target.
 */
module ImportExecution {
  import opened Base
  import opened Paths
  import opened Records
  import opened ImportTypes
  import opened ImportStore

  type Hash = Bytes -> string

  /** What an executor takes from a plan and its archive: the blobs and records to insert. */
  datatype Job = Job(planId: string, exportId: string, blobs: seq<string>, writes: seq<(Key, Record)>,
                     entries: map<string, Bytes>)

  /** What a plan found in the target and leaves out. */
  datatype Present = Present(blobs: set<string>, keys: set<Key>)

  const NONE := Present({}, {})

  function BlobsLeft(blobs: seq<string>, here: set<string>): seq<string> {
    if blobs == [] then []
    else
      var n := |blobs| - 1;
      BlobsLeft(blobs[..n], here) + if blobs[n] in here then [] else [blobs[n]]
  }

  function WritesLeft(writes: seq<(Key, Record)>, here: set<Key>): seq<(Key, Record)> {
    if writes == [] then []
    else
      var n := |writes| - 1;
      WritesLeft(writes[..n], here) + if writes[n].0 in here then [] else [writes[n]]
  }

  lemma {:induction false} BlobsLeftAre(blobs: seq<string>, here: set<string>)
    ensures |BlobsLeft(blobs, here)| <= |blobs|
    ensures forall d :: d in BlobsLeft(blobs, here) <==> d in blobs && d !in here
  {
    if blobs != [] {
      var n := |blobs| - 1;
      BlobsLeftAre(blobs[..n], here);
      assert forall d :: d in blobs <==> d in blobs[..n] || d == blobs[n];
    }
  }

  lemma {:induction false} WritesLeftAre(writes: seq<(Key, Record)>, here: set<Key>)
    ensures forall w :: w in WritesLeft(writes, here) <==> w in writes && w.0 !in here
  {
    if writes != [] {
      var n := |writes| - 1;
      WritesLeftAre(writes[..n], here);
      assert forall w :: w in writes <==> w in writes[..n] || w == writes[n];
    }
  }

  /** The job of a plan that leaves out what is present. */
  function Left(job: Job, here: Present): (r: Job)
    ensures |r.blobs| <= |job.blobs| && forall d :: d in r.blobs <==> d in job.blobs && d !in here.blobs
    ensures forall w :: w in r.writes <==> w in job.writes && w.0 !in here.keys
  {
    BlobsLeftAre(job.blobs, here.blobs);
    WritesLeftAre(job.writes, here.keys);
    job.(blobs := BlobsLeft(job.blobs, here.blobs), writes := WritesLeft(job.writes, here.keys))
  }

  lemma KeysLeft(job: Job, here: Present)
    ensures forall k :: k in WriteMap(Left(job, here).writes) <==> k in WriteMap(job.writes) && k !in here.keys
  {
    WriteMapKeys(job.writes);
    WriteMapKeys(Left(job, here).writes);
  }

  function BlobOf(job: Job, digest: string): Option<Bytes> {
    match BlobArchivePath(digest)
    case None => None
    case Some(path) => if path in job.entries then Some(job.entries[path]) else None
  }

  /** Every blob to insert is in the archive, under its own digest. */
  ghost predicate Intact(h: Hash, job: Job) {
    forall d :: d in job.blobs ==> BlobOf(job, d).Some? && h(BlobOf(job, d).value) == d
  }

  datatype ExecError = BlobMissing | BlobHashMismatch | StagedBlobInvalid | StoreFailure(error: StoreError)

  /**
   An executor at work knows its operation, its plan, the checkpoint it last saw and how much of that stage it has
   done.
   */
  datatype Executor =
    | Running(op: string, here: Present, checkpoint: Checkpoint, finished: nat)
    | Done(op: string)
    | Failed(error: ExecError)

  datatype World = World(store: OpStore, target: Target, executors: map<int, Executor>)

  /** How many effects the stage behind a checkpoint has. */
  function Units(job: Job, c: Checkpoint): nat {
    match c
    case TargetRevalidated => |job.blobs|
    case TemporaryBlobsStaged => |job.blobs|
    case StagedBlobsVerified => |job.blobs|
    case ImmutableBlobsCommitted => 1
    case MetadataCommitted => 1
    case _ => 0
  }

  function Effect(h: Hash, job: Job, t: Target, op: string, c: Checkpoint, i: nat): Result<Target, ExecError>
    requires i < Units(job, c)
  {
    match c
    case TargetRevalidated =>
      (match BlobOf(job, job.blobs[i])
       case None => Err(BlobMissing)
       case Some(bytes) =>
         if h(bytes) != job.blobs[i] then Err(BlobHashMismatch) else Ok(StageBlob(t, op, job.blobs[i], bytes)))
    case TemporaryBlobsStaged =>
      (match BlobOf(job, job.blobs[i])
       case None => Err(StagedBlobInvalid)
       case Some(bytes) =>
         if StagedBlobValid(h, t, op, job.blobs[i], |bytes|) then Ok(t) else Err(StagedBlobInvalid))
    case StagedBlobsVerified =>
      (match CommitBlob(t, op, job.blobs[i])
       case Err(e) => Err(StoreFailure(e))
       case Ok(t') => Ok(t'))
    case ImmutableBlobsCommitted => Ok(CommitMetadata(t, job.writes))
    case _ => Ok(AppendAudit(t, op))
  }

  /** One step of an executor: the next effect of its stage, or the advance that ends the stage. */
  function Work(h: Hash, job: Job, w: World, e: int, at: string): World
    requires e in w.executors && w.executors[e].Running?
  {
    var x := w.executors[e];
    var mine := Left(job, x.here);
    if x.finished < Units(mine, x.checkpoint) then
      match Effect(h, mine, w.target, x.op, x.checkpoint, x.finished)
      case Err(error) => w.(executors := w.executors[e := Failed(error)])
      case Ok(t) => w.(target := t, executors := w.executors[e := x.(finished := x.finished + 1)])
    else
      match AdvanceOp(w.store, x.op, job.planId, x.checkpoint, After(x.checkpoint), at)
      case Err(error) => w.(executors := w.executors[e := Failed(StoreFailure(error))])
      case Ok((store, op)) => w.(store := store, executors := w.executors[e := Resume(op, x.here)])
  }

  /** An executor that has just read an operation starts the stage of its checkpoint. */
  function Resume(op: Operation, here: Present): Executor {
    if op.checkpoint == Completed then Done(op.id) else Running(op.id, here, op.checkpoint, 0)
  }

  /** An executor starts with a plan that was made now or earlier: what the plan leaves out is in the target. */
  datatype Step =
    | Start(e: int, here: Present, actor: string, at: string, newId: string)
    | Advance(e: int, at: string)
    | Crash(e: int)
    | Other(target: Target)

  ghost predicate Enabled(h: Hash, job: Job, w: World, step: Step) {
    match step
    case Start(e, here, _, _, newId) =>
      HereOk(h, job, w.target, here) && e !in w.executors && newId !in w.store.byId && newId !in w.target.staged
        && newId !in w.target.audited
    case Advance(e, _) => e in w.executors && w.executors[e].Running?
    case Crash(e) => e in w.executors
    case Other(t) => Tolerates(h, job, w, t)
  }

  /** What a plan leaves out of the job is in the target, its blobs under their own digests. */
  ghost predicate HereOk(h: Hash, job: Job, t: Target, here: Present) {
    && (forall d :: d in here.blobs && d in job.blobs ==> CommittedBlob(h, t, d))
    && (forall k :: k in here.keys && k in WriteMap(job.writes) ==> k in t.records.byKey)
  }

  /**
   What the rest of the system may do to the target: anything but touch this operation's staged
   blobs and audit mark, remove blobs or store them under a foreign digest, or add and remove the
   records this plan inserts.
   */
  ghost predicate Tolerates(h: Hash, job: Job, w: World, t: Target) {
    && (job.planId in w.store.byPlan ==>
          var op := w.store.byPlan[job.planId].id;
          StagedOf(t, op) == StagedOf(w.target, op) && (op in t.audited <==> op in w.target.audited))
    && (forall d :: d in w.target.blobs ==> d in t.blobs)
    && (forall d :: d in t.blobs ==> h(t.blobs[d]) == d || (d in w.target.blobs && t.blobs[d] == w.target.blobs[d]))
    && (forall k :: k in WriteMap(job.writes) ==> (k in t.records.byKey <==> k in w.target.records.byKey))
  }

  function Next(h: Hash, job: Job, w: World, step: Step): World {
    match step
    case Start(e, here, actor, at, newId) =>
      var (store, op) := BeginOp(w.store, job.planId, job.exportId, actor, at, newId);
      w.(store := store, executors := w.executors[e := Resume(op, here)])
    case Advance(e, at) => if e in w.executors && w.executors[e].Running? then Work(h, job, w, e, at) else w
    case Crash(e) => w.(executors := w.executors - {e})
    case Other(t) => w.(target := t)
  }

  function Run(h: Hash, job: Job, w: World, steps: seq<Step>): World {
    if steps == [] then w
    else
      var n := |steps| - 1;
      Next(h, job, Run(h, job, w, steps[..n]), steps[n])
  }

  ghost predicate Legal(h: Hash, job: Job, w: World, steps: seq<Step>) {
    steps == [] ||
    var n := |steps| - 1;
    Legal(h, job, w, steps[..n]) && Enabled(h, job, Run(h, job, w, steps[..n]), steps[n])
  }

  /** Before the first executor starts: the plan has no operation yet. */
  ghost predicate Initial(job: Job, w: World) {
    ValidStore(w.store) && job.planId !in w.store.byPlan && w.executors == map[]
  }

  // ---------- what reaching a checkpoint means ----------

  predicate CommittedBlob(h: Hash, t: Target, d: string) {
    d in t.blobs && h(t.blobs[d]) == d
  }

  ghost predicate BlobsStaged(job: Job, t: Target, op: string, n: nat) {
    forall i :: 0 <= i < n && i < |job.blobs| ==> job.blobs[i] in StagedOf(t, op)
  }

  ghost predicate BlobsCommitted(h: Hash, job: Job, t: Target, n: nat) {
    forall i :: 0 <= i < n && i < |job.blobs| ==> CommittedBlob(h, t, job.blobs[i])
  }

  ghost predicate RecordsWritten(job: Job, t: Target) {
    forall k :: k in WriteMap(job.writes) ==> k in t.records.byKey
  }

  /** The effects of every stage before the checkpoint of this rank are in the target. */
  ghost predicate Reached(h: Hash, job: Job, t: Target, op: string, rank: nat) {
    && (rank >= 2 ==> forall d :: d in job.blobs ==> d in StagedOf(t, op) || CommittedBlob(h, t, d))
    && (rank >= 4 ==> forall d :: d in job.blobs ==> CommittedBlob(h, t, d))
    && (rank >= 5 ==> RecordsWritten(job, t))
    && (rank >= 6 ==> op in t.audited)
  }

  /** The first `n` effects of the stage behind checkpoint `c` are in the target. */
  ghost predicate Progress(h: Hash, job: Job, t: Target, op: string, c: Checkpoint, n: nat) {
    match c
    case TargetRevalidated => BlobsStaged(job, t, op, n)
    case TemporaryBlobsStaged => BlobsStaged(job, t, op, n)
    case StagedBlobsVerified => BlobsStaged(job, t, op, n) && BlobsCommitted(h, job, t, n)
    case ImmutableBlobsCommitted => n > 0 ==> RecordsWritten(job, t)
    case MetadataCommitted => n > 0 ==> op in t.audited
    case _ => true
  }

  /** Staged bytes are the archive's bytes for their digest. */
  ghost predicate StagedIntact(h: Hash, job: Job, t: Target, op: string) {
    forall d :: d in StagedOf(t, op) ==> BlobOf(job, d) == Some(StagedOf(t, op)[d]) && h(StagedOf(t, op)[d]) == d
  }

  /** A record this plan inserts is either older than the import or written after the blobs. */
  ghost predicate RecordsGuarded(job: Job, start: Target, t: Target, rank: nat) {
    forall k :: k in WriteMap(job.writes) && k in t.records.byKey ==> k in start.records.byKey || rank >= 4
  }

  ghost predicate ExecutorOk(h: Hash, job: Job, t: Target, op: Operation, x: Executor) {
    match x
    case Running(o, here, c, n) =>
      && o == op.id && c != Completed && Rank(c) <= Rank(op.checkpoint) && n <= Units(Left(job, here), c)
      && HereOk(h, job, t, here) && Progress(h, Left(job, here), t, o, c, n)
    case Done(o) => o == op.id && op.checkpoint == Completed
    case Failed(error) => !Intact(h, job) || Unstaged(error)
  }

  /** The error of an executor that finds a blob unstaged. */
  predicate Unstaged(error: ExecError) {
    error == StagedBlobInvalid || error == StoreFailure(StagedBlobNotFound)
  }

  ghost predicate Inv(h: Hash, job: Job, start: Target, w: World) {
    && ValidStore(w.store)
    && (job.planId !in w.store.byPlan ==> w.executors == map[] && RecordsGuarded(job, start, w.target, 0))
    && (job.planId in w.store.byPlan ==>
          var op := w.store.byPlan[job.planId];
          && Reached(h, job, w.target, op.id, Rank(op.checkpoint))
          && StagedIntact(h, job, w.target, op.id)
          && RecordsGuarded(job, start, w.target, Rank(op.checkpoint))
          && forall e :: e in w.executors ==> ExecutorOk(h, job, w.target, op, w.executors[e]))
  }

  // ---------- every step keeps it ----------

  /** The target has only gained what the invariant speaks about. */
  ghost predicate Grows(h: Hash, job: Job, op: string, t: Target, t': Target) {
    && (forall d :: d in StagedOf(t, op) ==> d in StagedOf(t', op))
    && (forall d :: CommittedBlob(h, t, d) ==> CommittedBlob(h, t', d))
    && (forall k :: k in WriteMap(job.writes) && k in t.records.byKey ==> k in t'.records.byKey)
    && (op in t.audited ==> op in t'.audited)
  }

  lemma FactsGrow(h: Hash, job: Job, op: string, t: Target, t': Target, rank: nat)
    requires Grows(h, job, op, t, t')
    ensures Reached(h, job, t, op, rank) ==> Reached(h, job, t', op, rank)
  {
  }

  lemma HereGrows(h: Hash, job: Job, op: string, t: Target, t': Target, here: Present, c: Checkpoint, n: nat)
    requires Grows(h, job, op, t, t') && HereOk(h, job, t, here)
    ensures HereOk(h, job, t', here)
    ensures Progress(h, Left(job, here), t, op, c, n) ==> Progress(h, Left(job, here), t', op, c, n)
  {
    KeysLeft(job, here);
    hide Left;
  }

  lemma ExecutorsGrow(h: Hash, job: Job, op: Operation, op': Operation, t: Target, t': Target, x: Executor)
    requires Grows(h, job, op.id, t, t') && op'.id == op.id && Rank(op.checkpoint) <= Rank(op'.checkpoint)
    requires ExecutorOk(h, job, t, op, x)
    ensures ExecutorOk(h, job, t', op', x)
  {
    hide Grows;
    hide HereOk;
    hide Progress;
    hide Left;
    if x.Running? {
      HereGrows(h, job, op.id, t, t', x.here, x.checkpoint, x.finished);
    }
  }

  /** The next blob of the stage is not staged although it should be. */
  ghost predicate Missing(job: Job, t: Target, op: string, c: Checkpoint, n: nat) {
    (c == TemporaryBlobsStaged || c == StagedBlobsVerified) && n < |job.blobs| && job.blobs[n] !in StagedOf(t, op)
  }

  /** An effect in place adds to the progress of its stage and fails only on a damaged archive or an unstaged blob. */
  lemma EffectProgress(h: Hash, job: Job, t: Target, op: string, c: Checkpoint, n: nat)
    requires n < Units(job, c) && Progress(h, job, t, op, c, n) && StagedIntact(h, job, t, op)
    ensures match Effect(h, job, t, op, c, n)
            case Err(error) => !Intact(h, job) || (Unstaged(error) && Missing(job, t, op, c, n))
            case Ok(t') =>
              && Grows(h, job, op, t, t') && Progress(h, job, t', op, c, n + 1) && StagedIntact(h, job, t', op)
              && (Rank(c) < 4 ==> t'.records == t.records) && !Missing(job, t, op, c, n)
  {
    match c {
      case TargetRevalidated => assert job.blobs[n] in job.blobs;
      case TemporaryBlobsStaged => assert job.blobs[n] in job.blobs;
      case StagedBlobsVerified =>
      case ImmutableBlobsCommitted => PutAllMap(t.records, job.writes);
      case _ =>
    }
  }

  /** What an executor of a smaller plan does is good for the whole job. */
  lemma EffectOfPart(h: Hash, job: Job, here: Present, t: Target, op: string, c: Checkpoint, n: nat)
    requires n < Units(Left(job, here), c) && Progress(h, Left(job, here), t, op, c, n) && StagedIntact(h, job, t, op)
    ensures match Effect(h, Left(job, here), t, op, c, n)
            case Err(error) => !Intact(h, job) || (Unstaged(error) && Missing(Left(job, here), t, op, c, n))
            case Ok(t') =>
              && Grows(h, job, op, t, t') && Progress(h, Left(job, here), t', op, c, n + 1)
              && StagedIntact(h, job, t', op)
              && (Rank(c) < 4 ==> t'.records == t.records) && !Missing(Left(job, here), t, op, c, n)
  {
    var mine := Left(job, here);
    EffectProgress(h, mine, t, op, c, n);
    if Effect(h, mine, t, op, c, n).Ok? {
      EffectGrows(h, job, mine.blobs, mine.writes, t, op, c, n);
    }
    hide Progress;
    hide Effect;
  }

  /** No effect takes anything away, whichever part of the job it belongs to. */
  lemma EffectGrows(
    h: Hash, job: Job, blobs: seq<string>, writes: seq<(Key, Record)>, t: Target, op: string, c: Checkpoint, n: nat)
    requires var mine := job.(blobs := blobs, writes := writes);
             n < Units(mine, c) && Effect(h, mine, t, op, c, n).Ok? && StagedIntact(h, job, t, op)
    ensures var mine := job.(blobs := blobs, writes := writes);
            Grows(h, job, op, t, Effect(h, mine, t, op, c, n).value)
  {
    if c == ImmutableBlobsCommitted {
      PutAllMap(t.records, writes);
    }
  }

  /** A finished stage is the next checkpoint reached, for the whole job. */
  lemma StageFinished(h: Hash, job: Job, here: Present, t: Target, op: string, c: Checkpoint)
    requires c != Completed && Reached(h, job, t, op, Rank(c)) && HereOk(h, job, t, here)
    requires Progress(h, Left(job, here), t, op, c, Units(Left(job, here), c))
    ensures Reached(h, job, t, op, Rank(After(c)))
  {
    var mine := Left(job, here);
    KeysLeft(job, here);
    assert forall d :: d in job.blobs ==> d in here.blobs || d in mine.blobs;
    forall d | d in mine.blobs ensures exists i :: 0 <= i < |mine.blobs| && mine.blobs[i] == d {
    }
  }

  lemma ReachedDown(h: Hash, job: Job, t: Target, op: string, high: nat, low: nat)
    requires low <= high && Reached(h, job, t, op, high)
    ensures Reached(h, job, t, op, low)
  {
  }

  lemma EffectKeeps(h: Hash, job: Job, start: Target, w: World, e: int, at: string)
    requires Inv(h, job, start, w) && e in w.executors && w.executors[e].Running?
    requires w.executors[e].finished < Units(Left(job, w.executors[e].here), w.executors[e].checkpoint)
    ensures Inv(h, job, start, Work(h, job, w, e, at)) && Work(h, job, w, e, at).store == w.store
  {
    hide ValidStore;
    hide Progress;
    hide HereOk;
    hide Effect;
    hide Left;
    hide Grows;
    hide Reached;
    hide StagedIntact;
    var x, op := w.executors[e], w.store.byPlan[job.planId];
    assert ExecutorOk(h, job, w.target, op, x);
    EffectOfPart(h, job, x.here, w.target, op.id, x.checkpoint, x.finished);
    var w' := Work(h, job, w, e, at);
    match Effect(h, Left(job, x.here), w.target, x.op, x.checkpoint, x.finished)
    case Err(_) =>
    case Ok(t) =>
      FactsGrow(h, job, op.id, w.target, t, Rank(op.checkpoint));
      HereGrows(h, job, op.id, w.target, t, x.here, x.checkpoint, 0);
      forall f | f in w'.executors ensures ExecutorOk(h, job, t, op, w'.executors[f]) {
        if f != e {
          ExecutorsGrow(h, job, op, op, w.target, t, w.executors[f]);
        }
      }
  }

  lemma GuardUp(job: Job, start: Target, t: Target, low: nat, high: nat)
    requires low <= high && RecordsGuarded(job, start, t, low)
    ensures RecordsGuarded(job, start, t, high)
  {
  }

  /** An advance returns a strictly later checkpoint, whoever wrote it. */
  lemma AdvanceKeeps(h: Hash, job: Job, start: Target, w: World, e: int, at: string)
    requires Inv(h, job, start, w) && e in w.executors && w.executors[e].Running?
    requires w.executors[e].finished == Units(Left(job, w.executors[e].here), w.executors[e].checkpoint)
    ensures var w' := Work(h, job, w, e, at);
            && Inv(h, job, start, w') && w'.target == w.target
            && job.planId in w'.store.byPlan && w'.store.byPlan[job.planId].id == w.store.byPlan[job.planId].id
            && Rank(w.store.byPlan[job.planId].checkpoint) <= Rank(w'.store.byPlan[job.planId].checkpoint)
            && match w'.executors[e]
               case Running(_, here, c, n) =>
                 Rank(c) > Rank(w.executors[e].checkpoint) && n == 0 && here == w.executors[e].here
               case Done(_) => true
               case Failed(_) => false
  {
    hide AdvanceOp;
    hide ValidStore;
    hide Reached;
    hide StagedIntact;
    hide RecordsGuarded;
    hide HereOk;
    hide Progress;
    hide Left;
    var x, op := w.executors[e], w.store.byPlan[job.planId];
    assert ExecutorOk(h, job, w.target, op, x);
    ReachedDown(h, job, w.target, op.id, Rank(op.checkpoint), Rank(x.checkpoint));
    StageFinished(h, job, x.here, w.target, op.id, x.checkpoint);
    AdvanceKeepsStore(w.store, job.planId, x.checkpoint, at);
    var w' := Work(h, job, w, e, at);
    var op' := w'.store.byPlan[job.planId];
    GuardUp(job, start, w.target, Rank(op.checkpoint), Rank(op'.checkpoint));
    NothingGrows(h, job, op.id, w.target);
    ResumeOk(h, job, w.target, op', x.here);
    forall f | f in w'.executors ensures ExecutorOk(h, job, w'.target, op', w'.executors[f]) {
      if f != e {
        ExecutorsGrow(h, job, op, op', w.target, w.target, w.executors[f]);
      }
    }
  }

  lemma NothingGrows(h: Hash, job: Job, op: string, t: Target)
    ensures Grows(h, job, op, t, t)
  {
  }

  lemma ResumeOk(h: Hash, job: Job, t: Target, op: Operation, here: Present)
    requires HereOk(h, job, t, here)
    ensures ExecutorOk(h, job, t, op, Resume(op, here))
  {
  }

  lemma OtherKeeps(h: Hash, job: Job, start: Target, w: World, t: Target)
    requires Inv(h, job, start, w) && Tolerates(h, job, w, t)
    ensures Inv(h, job, start, w.(target := t))
  {
    if job.planId in w.store.byPlan {
      var op := w.store.byPlan[job.planId];
      assert Grows(h, job, op.id, w.target, t);
      FactsGrow(h, job, op.id, w.target, t, Rank(op.checkpoint));
      forall e | e in w.executors ensures ExecutorOk(h, job, t, op, w.executors[e]) {
        ExecutorsGrow(h, job, op, op, w.target, t, w.executors[e]);
      }
    }
  }

  lemma StartKeeps(h: Hash, job: Job, start: Target, w: World, step: Step)
    requires Inv(h, job, start, w) && step.Start? && Enabled(h, job, w, step)
    ensures Inv(h, job, start, Next(h, job, w, step))
  {
    hide ValidStore;
    BeginKeepsStore(w.store, job.planId, job.exportId, step.actor, step.at, step.newId);
    var w' := Next(h, job, w, step);
    var op := w'.store.byPlan[job.planId];
    if job.planId !in w.store.byPlan {
      assert StagedOf(w.target, op.id) == map[];
    }
    ResumeOk(h, job, w.target, op, step.here);
  }

  /** How far the plan's operation has come; 0 while there is none. */
  function StoredRank(job: Job, w: World): nat {
    if job.planId in w.store.byPlan then Rank(w.store.byPlan[job.planId].checkpoint) else 0
  }

  lemma StepKeeps(h: Hash, job: Job, start: Target, w: World, step: Step)
    requires Inv(h, job, start, w) && Enabled(h, job, w, step)
    ensures Inv(h, job, start, Next(h, job, w, step))
    ensures StoredRank(job, w) <= StoredRank(job, Next(h, job, w, step))
  {
    match step
    case Start(_, _, _, _, _) => StartKeeps(h, job, start, w, step);
    case Advance(e, at) =>
      assert job.planId in w.store.byPlan;
      assert ExecutorOk(h, job, w.target, w.store.byPlan[job.planId], w.executors[e]);
      if w.executors[e].finished < Units(Left(job, w.executors[e].here), w.executors[e].checkpoint) {
        EffectKeeps(h, job, start, w, e, at);
      } else {
        AdvanceKeeps(h, job, start, w, e, at);
      }
    case Crash(e) =>
    case Other(t) => OtherKeeps(h, job, start, w, t);
  }

  /**
   Safety of every run, whatever crashes and whoever else is at work: the stored checkpoint never
   moves back, and reaching it means the effects of all earlier stages are in the target.
   */
  lemma {:induction false} RunsAreSafe(h: Hash, job: Job, w: World, steps: seq<Step>)
    requires Initial(job, w) && Legal(h, job, w, steps)
    ensures Inv(h, job, w.target, Run(h, job, w, steps))
    ensures forall i :: 0 <= i <= |steps| ==>
              StoredRank(job, Run(h, job, w, steps[..i])) <= StoredRank(job, Run(h, job, w, steps))
  {
    if steps == [] {
      assert forall i :: 0 <= i <= |steps| ==> steps[..i] == steps;
    } else {
      var n := |steps| - 1;
      RunsAreSafe(h, job, w, steps[..n]);
      StepKeeps(h, job, w.target, Run(h, job, w, steps[..n]), steps[n]);
      forall i | 0 <= i <= |steps|
        ensures StoredRank(job, Run(h, job, w, steps[..i])) <= StoredRank(job, Run(h, job, w, steps))
      {
        if i <= n {
          assert steps[..n][..i] == steps[..i];
        } else {
          assert steps[..i] == steps;
        }
      }
    }
  }

  /** No record the plan inserts appears before every blob it inserts is committed under its own digest. */
  lemma RecordsAfterBlobs(h: Hash, job: Job, w: World, steps: seq<Step>, key: Key, digest: string)
    requires Initial(job, w) && Legal(h, job, w, steps)
    requires key in WriteMap(job.writes) && digest in job.blobs
    requires key !in w.target.records.byKey && key in Run(h, job, w, steps).target.records.byKey
    ensures CommittedBlob(h, Run(h, job, w, steps).target, digest)
  {
    RunsAreSafe(h, job, w, steps);
  }

  // ---------- termination ----------

  function StagesLeft(c: Checkpoint): nat {
    7 - Rank(c)
  }

  /** What is left of a stage of which `n` effects are done. */
  function Rest(job: Job, c: Checkpoint, n: nat): nat {
    if n <= Units(job, c) then Units(job, c) - n else 0
  }

  /** An upper bound on the steps an executor still has to take. */
  function Remaining(job: Job, x: Executor): nat {
    match x
    case Running(_, here, c, n) => StagesLeft(c) * (|job.blobs| + 3) + Rest(Left(job, here), c, n) + 1
    case _ => 0
  }

  /** Every own step brings an executor closer to its end, and no step of anyone else delays it. */
  lemma ExecutorsTerminate(h: Hash, job: Job, w: World, steps: seq<Step>, step: Step, e: int)
    requires Initial(job, w) && Legal(h, job, w, steps + [step])
    requires e in Run(h, job, w, steps).executors && e in Run(h, job, w, steps + [step]).executors
    ensures var before, after := Run(h, job, w, steps).executors[e], Run(h, job, w, steps + [step]).executors[e];
            if step.Advance? && step.e == e then Remaining(job, after) < Remaining(job, before) else after == before
  {
    hide Work;
    hide Inv;
    var all := steps + [step];
    assert all[..|all| - 1] == steps;
    RunsAreSafe(h, job, w, steps);
    var v := Run(h, job, w, steps);
    if step.Advance? && step.e == e {
      OwnStepShortens(h, job, w.target, v, e, step.at);
    } else if step.Advance? {
      OthersUntouched(h, job, v, step.e, e, step.at);
    }
  }

  lemma OthersUntouched(h: Hash, job: Job, w: World, e: int, f: int, at: string)
    requires e in w.executors && w.executors[e].Running? && f in w.executors && f != e
    ensures f in Work(h, job, w, e, at).executors && Work(h, job, w, e, at).executors[f] == w.executors[f]
  {
  }

  lemma OwnStepShortens(h: Hash, job: Job, start: Target, w: World, e: int, at: string)
    requires Inv(h, job, start, w) && e in w.executors && w.executors[e].Running?
    ensures e in Work(h, job, w, e, at).executors
    ensures Remaining(job, Work(h, job, w, e, at).executors[e]) < Remaining(job, w.executors[e])
  {
    hide AdvanceOp;
    hide Effect;
    hide Reached;
    hide Progress;
    hide ValidStore;
    hide StagedIntact;
    hide RecordsGuarded;
    var x := w.executors[e];
    assert ExecutorOk(h, job, w.target, w.store.byPlan[job.planId], x);
    var x' := Work(h, job, w, e, at).executors[e];
    if x.finished == Units(Left(job, x.here), x.checkpoint) {
      AdvanceKeeps(h, job, start, w, e, at);
      if x'.Running? {
        LaterStageIsShorter(job, x, x');
      }
    }
  }

  lemma LaterStageIsShorter(job: Job, x: Executor, x': Executor)
    requires x.Running? && x'.Running? && Rank(x.checkpoint) < Rank(x'.checkpoint) <= 7 && x'.finished == 0
    ensures Remaining(job, x') < Remaining(job, x)
  {
    StageIsShort(job, x'.here, x'.checkpoint);
    hide Rest;
    hide Left;
    FewerStages(StagesLeft(x.checkpoint), StagesLeft(x'.checkpoint), |job.blobs| + 3);
  }

  lemma StageIsShort(job: Job, here: Present, c: Checkpoint)
    ensures Rest(Left(job, here), c, 0) <= |job.blobs| + 1
  {
    assert |Left(job, here).blobs| <= |job.blobs|;
    hide Left;
  }

  lemma FewerStages(p: nat, q: nat, m: nat)
    requires q < p
    ensures p * m >= q * m + m
  {
    assert p * m >= (q + 1) * m == q * m + m;
  }
}
