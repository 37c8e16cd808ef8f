/**
 Quarantine scanning (packages/operations/src/quarantine-scan.ts and quarantine-scan-store.ts, with the
 promotion of apps/trust-api/src/postgres-commands.ts). Queueing and promotion save twice and may be cut
 off in between; the first save of a job looks up and writes in two moments; a callback reads the record,
 decides and saves in three; the set of processed callbacks is lost when the process restarts.
 */
module Quarantine {
  import opened Base

  datatype ScanState =
    | PendingUpload | Uploaded | ScanQueued | Scanning | Accepted | Rejected | ManualReview
    | PromotionPending | Promoted | Failed

  datatype Outcome = Clean | Malicious | Suspicious | Unsupported | ScanError | Timeout

  function Transitions(from: ScanState): set<ScanState> {
    match from
    case PendingUpload => {Uploaded, Failed}
    case Uploaded => {ScanQueued, Failed}
    case ScanQueued => {Scanning, Failed}
    case Scanning => {Accepted, Rejected, ManualReview, Failed}
    case Accepted => {PromotionPending, Failed}
    case Rejected => {}
    case ManualReview => {Accepted, Rejected, Failed}
    case PromotionPending => {Promoted, Failed}
    case Promoted => {}
    case Failed => {ScanQueued}
  }

  function Transition(from: ScanState, to: ScanState): Option<ScanState> {
    if from == to || to in Transitions(from) then Some(to) else None
  }

  function OutcomeState(o: Outcome): ScanState {
    match o
    case Clean => Accepted
    case Malicious => Rejected
    case Suspicious => ManualReview
    case _ => Failed
  }

  datatype Record = Record(
    scanJobId: string, workspaceId: string, uploadId: string, storageKey: string, state: ScanState,
    outcome: Option<Outcome>,
    createdAt: int, updatedAt: int)

  datatype Error = ScanConflict | NotAuthentic | UnknownJob | InvalidTransition

  // ---------- the store ----------

  type Records = map<string, Record>

  predicate ForUpload(r: Record, workspaceId: string, uploadId: string) {
    r.workspaceId == workspaceId && r.uploadId == uploadId
  }

  ghost function GetByUpload(records: Records, workspaceId: string, uploadId: string): (r: Option<Record>)
    ensures match r
            case Some(x) => exists job :: job in records && records[job] == x && ForUpload(x, workspaceId, uploadId)
            case None => forall job :: job in records ==> !ForUpload(records[job], workspaceId, uploadId)
  {
    if exists job :: job in records && ForUpload(records[job], workspaceId, uploadId) then
      var job :| job in records && ForUpload(records[job], workspaceId, uploadId);
      Some(records[job])
    else None
  }

  function GetByJob(records: Records, workspaceId: string, job: string): Option<Record> {
    if job in records && records[job].workspaceId == workspaceId then Some(records[job]) else None
  }

  datatype SaveAction = DoInsert | DoUpdate

  /** What saving a record would do, given the records of its job and of its upload. */
  function ResolveSave(byJob: Option<Record>, byUpload: Option<Record>, r: Record): Result<SaveAction, Error> {
    match byJob
    case Some(e) =>
      if !ForUpload(e, r.workspaceId, r.uploadId) || e.storageKey != r.storageKey || e.createdAt != r.createdAt
      then Err(ScanConflict) else Ok(DoUpdate)
    case None =>
      match byUpload
      case Some(e) =>
        if e.scanJobId != r.scanJobId || e.storageKey != r.storageKey || e.createdAt != r.createdAt
        then Err(ScanConflict) else Ok(DoUpdate)
      case None => Ok(DoInsert)
  }

  /** The first moment of a save: both lookups. */
  ghost function LookUp(records: Records, r: Record): Result<SaveAction, Error> {
    var byJob := if r.scanJobId in records then Some(records[r.scanJobId]) else None;
    ResolveSave(byJob, GetByUpload(records, r.workspaceId, r.uploadId), r)
  }

  /** A save with nothing between its lookups and its write. */
  ghost function Save(records: Records, r: Record): Result<Records, Error> {
    match LookUp(records, r)
    case Err(e) => Err(e)
    case Ok(_) => Ok(records[r.scanJobId := r])
  }

  // ---------- the orchestrator ----------

  datatype Callback = Callback(scanJobId: string, workspaceId: string, outcome: Outcome, authentic: bool)

  /** What a callback makes of the record it has read, or None when it needs no change. */
  function Decide(processed: set<(string, Outcome)>, cb: Callback, r: Record, now: int): Result<Option<Record>, Error> {
    if (cb.scanJobId, cb.outcome) in processed then Ok(None)
    else if r.outcome == Some(cb.outcome) && r.state == OutcomeState(cb.outcome) then Ok(None)
    else if r.state != Scanning then Err(InvalidTransition)
    else
      match Transition(r.state, OutcomeState(cb.outcome))
      case None => Err(InvalidTransition)
      case Some(next) => Ok(Some(r.(state := next, outcome := Some(cb.outcome), updatedAt := now)))
  }

  /** The record a callback reads. */
  function Reads(records: Records, cb: Callback): Result<Record, Error> {
    if !cb.authentic then Err(NotAuthentic)
    else
      match GetByJob(records, cb.workspaceId, cb.scanJobId)
      case None => Err(UnknownJob)
      case Some(r) => Ok(r)
  }

  /** The record a callback that nothing interrupts leads to. */
  function Judge(
    records: Records, processed: set<(string, Outcome)>, cb: Callback, now: int): Result<Option<Record>, Error> {
    match Reads(records, cb)
    case Err(e) => Err(e)
    case Ok(r) => Decide(processed, cb, r, now)
  }

  datatype Promotion = Promotion(record: Record, pendingSaved: bool)

  /** A callback under way: it has read a record, or it has decided and will save one. */
  datatype Pending = Seen(callback: Callback, record: Record) | Judged(callback: Callback, record: Record)

  /**
   The store, the callbacks answered, and the calls under way: queueing calls that have looked up their job and
   upload but not written, those that have saved once, callbacks and promotions.
   */
  datatype World = World(
    records: Records, processed: set<(string, Outcome)>, looking: map<string, Record>, queueing: map<string, Record>,
    pending: map<int, Pending>, promoting: map<int, Promotion>)

  datatype Step =
    | Queue(scanJobId: string, workspaceId: string, uploadId: string, storageKey: string, now: int)
    | WriteQueued(job: string)
    | FinishQueue(job: string, now: int)
    | Receive(c: int, callback: Callback)
    | Conclude(c: int, now: int)
    | SaveVerdict(c: int)
    | Promote(t: int, job: string)
    | SavePending(t: int, now: int)
    | SavePromoted(t: int, now: int)
    | Restart

  /** A queueing call generates its job id: none that looks at the same time has the same one. */
  ghost predicate Enabled(w: World, step: Step) {
    match step
    case Queue(job, _, _, _, _) => job !in w.looking
    case WriteQueued(job) => job in w.looking
    case FinishQueue(job, _) => job in w.queueing
    case Receive(c, _) => c !in w.pending
    case Conclude(c, _) => c in w.pending && w.pending[c].Seen?
    case SaveVerdict(c) => c in w.pending && w.pending[c].Judged?
    case Promote(t, job) => t !in w.promoting && job in w.records && w.records[job].state == Accepted
    case SavePending(t, _) => t in w.promoting && !w.promoting[t].pendingSaved
    case SavePromoted(t, _) => t in w.promoting && w.promoting[t].pendingSaved
    case Restart => true
  }

  /**
   Saving a known job: whatever is written later, its lookups have the same outcome, so one moment stands for both.
   */
  ghost function Saved(w: World, r: Record): World {
    match Save(w.records, r)
    case Err(_) => w
    case Ok(records) => w.(records := records)
  }

  /** A callback decides about the record it read, against the callbacks processed by now. */
  function Concluded(w: World, c: int, now: int): World
    requires c in w.pending && w.pending[c].Seen?
  {
    var cb, key := w.pending[c].callback, (w.pending[c].callback.scanJobId, w.pending[c].callback.outcome);
    match Decide(w.processed, cb, w.pending[c].record, now)
    case Err(_) => w.(pending := w.pending - {c})
    case Ok(None) => w.(processed := w.processed + {key}, pending := w.pending - {c})
    case Ok(Some(r)) => w.(processed := w.processed + {key}, pending := w.pending[c := Judged(cb, r)])
  }

  ghost function Next(w: World, step: Step): World
    requires Enabled(w, step)
  {
    match step
    case Queue(job, ws, upload, key, now) =>
      if GetByJob(w.records, ws, job).Some? then w
      else
        var r := Record(job, ws, upload, key, ScanQueued, None, now, now);
        (match LookUp(w.records, r)
         case Err(_) => w
         case Ok(_) => w.(looking := w.looking[job := r]))
    case WriteQueued(job) =>
      w.(records := w.records[job := w.looking[job]], looking := w.looking - {job},
         queueing := w.queueing[job := w.looking[job]])
    case FinishQueue(job, now) =>
      Saved(w, w.queueing[job].(state := Scanning, updatedAt := now)).(queueing := w.queueing - {job})
    case Receive(c, cb) =>
      (match Reads(w.records, cb)
       case Err(_) => w
       case Ok(r) => w.(pending := w.pending[c := Seen(cb, r)]))
    case Conclude(c, now) => Concluded(w, c, now)
    case SaveVerdict(c) => Saved(w, w.pending[c].record).(pending := w.pending - {c})
    case Promote(t, job) => w.(promoting := w.promoting[t := Promotion(w.records[job], false)])
    case SavePending(t, now) =>
      var r := w.promoting[t].record.(state := PromotionPending, updatedAt := now);
      Saved(w, r).(promoting := w.promoting[t := Promotion(r, true)])
    case SavePromoted(t, now) =>
      Saved(w, w.promoting[t].record.(state := Promoted, updatedAt := now)).(promoting := w.promoting - {t})
    case Restart => World(w.records, {}, map[], map[], map[], map[])
  }

  /** The world after the steps, as far as each can be taken. */
  ghost function Run(w: World, steps: seq<Step>): World {
    if steps == [] then w
    else
      var n := |steps| - 1;
      var before := Run(w, steps[..n]);
      if Enabled(before, steps[n]) then Next(before, steps[n]) else before
  }

  ghost predicate Legal(w: World, steps: seq<Step>) {
    steps == [] ||
    var n := |steps| - 1;
    Legal(w, steps[..n]) && Enabled(Run(w, steps[..n]), steps[n])
  }

  // ---------- what every run keeps ----------

  /** The state of a record agrees with its verdict. */
  predicate VerdictOk(r: Record) {
    match r.state
    case ScanQueued => r.outcome == None
    case Scanning => r.outcome == None
    case Accepted => r.outcome == Some(Clean)
    case Rejected => r.outcome == Some(Malicious)
    case ManualReview => r.outcome == Some(Suspicious)
    case PromotionPending => r.outcome == Some(Clean)
    case Promoted => r.outcome == Some(Clean)
    case Failed => r.outcome in {Some(Unsupported), Some(ScanError), Some(Timeout)}
    case _ => false
  }

  ghost predicate OnePerUpload(records: Records) {
    forall a, b :: a in records && b in records && a != b ==>
      !ForUpload(records[a], records[b].workspaceId, records[b].uploadId)
  }

  predicate SameScan(a: Record, b: Record) {
    && a.scanJobId == b.scanJobId && a.workspaceId == b.workspaceId && a.uploadId == b.uploadId
    && a.storageKey == b.storageKey && a.createdAt == b.createdAt
  }

  ghost predicate JobsOk(records: Records) {
    forall job :: job in records ==> records[job].scanJobId == job && VerdictOk(records[job])
  }

  ghost predicate RecordsOk(records: Records) {
    JobsOk(records) && OnePerUpload(records)
  }

  /** A queueing call that has looked will write the first record of its job. */
  ghost predicate LookingOk(records: Records, looking: map<string, Record>) {
    forall job :: job in looking ==>
      job !in records && looking[job].scanJobId == job && looking[job].state == ScanQueued
        && looking[job].outcome == None
  }

  /** A queueing call holds the record as saved. */
  ghost predicate QueueingOk(records: Records, queueing: map<string, Record>) {
    forall job :: job in queueing ==>
        job in records && records[job] == queueing[job] && records[job].state == ScanQueued
  }

  /** A record that a call under way holds is a version of a stored one that has left the queue. */
  ghost predicate Held(records: Records, r: Record) {
    r.scanJobId in records && SameScan(r, records[r.scanJobId]) && records[r.scanJobId].state != ScanQueued
  }

  ghost predicate PendingOk(records: Records, p: Pending) {
    && VerdictOk(p.record) && p.record.scanJobId == p.callback.scanJobId
    && (p.Judged? || p.record.state == Scanning ==> Held(records, p.record))
    && (p.Judged? ==>
          p.record.outcome == Some(p.callback.outcome) && p.record.state == OutcomeState(p.callback.outcome))
  }

  ghost predicate CallsOk(records: Records, pending: map<int, Pending>, promoting: map<int, Promotion>) {
    && (forall c :: c in pending ==> PendingOk(records, pending[c]))
    && (forall t :: t in promoting ==> Held(records, promoting[t].record) && promoting[t].record.outcome == Some(Clean))
  }

  ghost predicate Inv(w: World) {
    && JobsOk(w.records) && LookingOk(w.records, w.looking) && QueueingOk(w.records, w.queueing)
    && CallsOk(w.records, w.pending, w.promoting)
  }

  /** No record disappears or changes its identity. */
  ghost predicate RecordsStay(a: Records, b: Records) {
    forall job :: job in a ==> job in b && SameScan(a[job], b[job])
  }

  /** Saving a changed version of a stored record succeeds. */
  lemma SaveUpdates(records: Records, r: Record)
    requires r.scanJobId in records && SameScan(r, records[r.scanJobId])
    ensures Save(records, r) == Ok(records[r.scanJobId := r])
  {
  }

  lemma UpdateKeeps(records: Records, r: Record)
    requires JobsOk(records) && r.scanJobId in records && SameScan(r, records[r.scanJobId]) && VerdictOk(r)
    ensures JobsOk(records[r.scanJobId := r])
    ensures OnePerUpload(records) ==> OnePerUpload(records[r.scanJobId := r])
  {
  }

  lemma SaveNewKeeps(records: Records, r: Record)
    requires RecordsOk(records) && VerdictOk(r) && Save(records, r).Ok?
    requires r.scanJobId !in records
    ensures RecordsOk(Save(records, r).value)
  {
    hide VerdictOk;
  }

  /** The calls under way are unaffected by a save that does not put a record back into the queue. */
  lemma CallsKeep(records: Records, r: Record, pending: map<int, Pending>, promoting: map<int, Promotion>)
    requires CallsOk(records, pending, promoting) && r.state != ScanQueued
    requires r.scanJobId in records ==> SameScan(r, records[r.scanJobId])
    ensures CallsOk(records[r.scanJobId := r], pending, promoting)
  {
    hide VerdictOk;
    var after := records[r.scanJobId := r];
    forall x: Record | Held(records, x) ensures Held(after, x) {
    }
    hide Held;
    forall c | c in pending ensures PendingOk(after, pending[c]) {
      assert PendingOk(records, pending[c]);
    }
  }

  /** Saving a version of a stored record that has left the queue. */
  lemma ChangeKeeps(w: World, r: Record)
    requires Inv(w) && Held(w.records, r) && VerdictOk(r) && r.state != ScanQueued
    ensures Saved(w, r) == w.(records := w.records[r.scanJobId := r]) && Inv(Saved(w, r))
    ensures RecordsStay(w.records, Saved(w, r).records)
  {
    hide Save;
    hide CallsOk;
    SaveUpdates(w.records, r);
    UpdateKeeps(w.records, r);
    CallsKeep(w.records, r, w.pending, w.promoting);
    hide JobsOk;
  }

  /** Looking changes no record; it goes on only when neither the job nor the upload has one. */
  lemma QueueKeeps(w: World, step: Step)
    requires Inv(w) && step.Queue? && Enabled(w, step)
    ensures Inv(Next(w, step)) && Next(w, step) == w.(looking := Next(w, step).looking)
    ensures var looking := Next(w, step).looking;
            looking == w.looking ||
            (step.scanJobId in looking && looking == w.looking[step.scanJobId := looking[step.scanJobId]]
             && ForUpload(looking[step.scanJobId], step.workspaceId, step.uploadId)
             && forall job :: job in w.records ==> !ForUpload(w.records[job], step.workspaceId, step.uploadId))
  {
    hide GetByUpload;
    hide PendingOk;
    hide VerdictOk;
  }

  lemma WriteKeeps(w: World, step: Step)
    requires Inv(w) && step.WriteQueued? && Enabled(w, step)
    ensures Inv(Next(w, step)) && step.job !in w.records && w.looking[step.job].scanJobId == step.job
    ensures forall job :: job in w.records ==>
              job in Next(w, step).records && Next(w, step).records[job] == w.records[job]
  {
    hide PendingOk;
    var r := w.looking[step.job];
    assert VerdictOk(r);
    hide VerdictOk;
    NewKeepsCalls(w.records, r, w.pending, w.promoting);
  }

  lemma NewKeepsCalls(records: Records, r: Record, pending: map<int, Pending>, promoting: map<int, Promotion>)
    requires CallsOk(records, pending, promoting) && r.scanJobId !in records
    ensures CallsOk(records[r.scanJobId := r], pending, promoting)
  {
    hide VerdictOk;
    forall c | c in pending ensures PendingOk(records[r.scanJobId := r], pending[c]) {
      assert PendingOk(records, pending[c]);
    }
  }

  lemma FinishKeeps(w: World, step: Step)
    requires Inv(w) && step.FinishQueue? && Enabled(w, step)
    ensures var r := w.queueing[step.job].(state := Scanning, updatedAt := step.now);
            Next(w, step) == w.(records := w.records[step.job := r], queueing := w.queueing - {step.job})
    ensures Inv(Next(w, step)) && RecordsStay(w.records, Next(w, step).records)
    ensures step.job in w.records && w.records[step.job].outcome == None
  {
    hide Save;
    hide CallsOk;
    var r := w.queueing[step.job].(state := Scanning, updatedAt := step.now);
    assert VerdictOk(w.records[step.job]);
    SaveUpdates(w.records, r);
    UpdateKeeps(w.records, r);
    CallsKeep(w.records, r, w.pending, w.promoting);
    hide JobsOk;
  }

  lemma ReceiveKeeps(w: World, step: Step)
    requires Inv(w) && step.Receive? && Enabled(w, step)
    ensures Inv(Next(w, step)) && Next(w, step).records == w.records && Next(w, step).looking == w.looking
  {
    if Reads(w.records, step.callback).Ok? {
      var r := Reads(w.records, step.callback).value;
      assert VerdictOk(w.records[r.scanJobId]);
      assert PendingOk(w.records, Seen(step.callback, r));
      hide VerdictOk;
      hide PendingOk;
    }
  }

  lemma ConcludeKeeps(w: World, step: Step)
    requires Inv(w) && step.Conclude? && Enabled(w, step)
    ensures Inv(Next(w, step)) && Next(w, step).records == w.records && Next(w, step).looking == w.looking
  {
    var p := w.pending[step.c];
    assert PendingOk(w.records, p);
    var decided := Decide(w.processed, p.callback, p.record, step.now);
    if decided.Ok? && decided.value.Some? {
      assert PendingOk(w.records, Judged(p.callback, decided.value.value));
    }
    hide VerdictOk;
    hide PendingOk;
    hide Decide;
    hide JobsOk;
  }

  lemma SaveVerdictKeeps(w: World, step: Step)
    requires Inv(w) && step.SaveVerdict? && Enabled(w, step)
    ensures var r := w.pending[step.c].record;
            && Next(w, step) == w.(records := w.records[r.scanJobId := r], pending := w.pending - {step.c})
            && r.scanJobId in w.records && Next(w, step).records.Keys == w.records.Keys
    ensures Inv(Next(w, step)) && RecordsStay(w.records, Next(w, step).records)
  {
    hide VerdictOk;
    hide JobsOk;
    hide Save;
    var r := w.pending[step.c].record;
    assert PendingOk(w.records, w.pending[step.c]);
    ChangeKeeps(w, r);
  }

  /** Both saves of a promotion store a clean record. */
  lemma PromotionKeeps(w: World, step: Step)
    requires Inv(w) && (step.SavePending? || step.SavePromoted?) && Enabled(w, step)
    ensures Inv(Next(w, step)) && RecordsStay(w.records, Next(w, step).records)
    ensures Next(w, step).pending == w.pending && Next(w, step).looking == w.looking
    ensures var job := w.promoting[step.t].record.scanJobId;
            && job in w.records && Next(w, step).records == w.records[job := Next(w, step).records[job]]
            && Next(w, step).records[job].outcome == Some(Clean)
            && Next(w, step).records[job].state == if step.SavePending? then PromotionPending else Promoted
  {
    hide Save;
    hide JobsOk;
    hide PendingOk;
    var next := if step.SavePending? then PromotionPending else Promoted;
    var r := w.promoting[step.t].record.(state := next, updatedAt := step.now);
    assert Held(w.records, w.promoting[step.t].record);
    assert VerdictOk(r);
    hide VerdictOk;
    ChangeKeeps(w, r);
  }

  lemma PromoteKeeps(w: World, step: Step)
    requires Inv(w) && step.Promote? && Enabled(w, step)
    ensures Inv(Next(w, step)) && Next(w, step).records == w.records && Next(w, step).pending == w.pending
    ensures Next(w, step).looking == w.looking
  {
    hide PendingOk;
    assert VerdictOk(w.records[step.job]);
  }

  lemma StepKeeps(w: World, step: Step)
    requires Inv(w) && Enabled(w, step)
    ensures Inv(Next(w, step)) && RecordsStay(w.records, Next(w, step).records)
    ensures !step.WriteQueued? ==> Next(w, step).records.Keys == w.records.Keys
    ensures !step.Queue? && !step.WriteQueued? && !step.Restart? ==> Next(w, step).looking == w.looking
  {
    StaysItself(w.records);
    hide Inv;
    hide Next;
    match step
    case Queue(_, _, _, _, _) => QueueKeeps(w, step);
    case WriteQueued(_) => WriteKeeps(w, step);
    case FinishQueue(_, _) =>
      FinishKeeps(w, step);
      assert Next(w, step).records.Keys == w.records.Keys;
    case Receive(_, _) => ReceiveKeeps(w, step);
    case Conclude(_, _) => ConcludeKeeps(w, step);
    case SaveVerdict(_) => SaveVerdictKeeps(w, step);
    case Promote(_, _) => PromoteKeeps(w, step);
    case SavePending(_, _) => PromotionKeeps(w, step);
    case SavePromoted(_, _) => PromotionKeeps(w, step);
    case Restart => RestartKeeps(w);
  }

  lemma RestartKeeps(w: World)
    requires Inv(w)
    ensures Inv(Next(w, Restart)) && Next(w, Restart).records == w.records && Next(w, Restart).looking == map[]
  {
  }

  lemma StaysItself(records: Records)
    ensures RecordsStay(records, records) && VerdictsStay(records, records)
  {
  }

  /** In every run, however callbacks and promotions overlap and restarts cut them off, states agree with verdicts. */
  lemma {:induction false} RunsKeep(w: World, steps: seq<Step>)
    requires Inv(w) && Legal(w, steps)
    ensures Inv(Run(w, steps)) && RecordsStay(w.records, Run(w, steps).records)
  {
    hide Inv;
    hide Enabled;
    hide Next;
    if steps != [] {
      var n := |steps| - 1;
      RunsKeep(w, steps[..n]);
      StepKeeps(Run(w, steps[..n]), steps[n]);
    }
  }

  // ---------- verdicts ----------

  /** A stored verdict stays, and no record disappears. */
  ghost predicate VerdictsStay(a: Records, b: Records) {
    forall job :: job in a ==>
      job in b && SameScan(a[job], b[job]) && (a[job].outcome.Some? ==> b[job].outcome == a[job].outcome)
  }

  /** Two callbacks of one job that report different outcomes. */
  predicate Rivals(a: Callback, b: Callback) {
    a.scanJobId == b.scanJobId && a.outcome != b.outcome
  }

  /** A callback that will save unless the process stops. */
  predicate WillSave(w: World, c: int) {
    && c in w.pending
    && (w.pending[c].Judged? ||
        (w.pending[c].record.state == Scanning
          && (w.pending[c].callback.scanJobId, w.pending[c].callback.outcome) !in w.processed))
  }

  /** No two rivals are about to save. */
  ghost predicate NoRivals(w: World) {
    forall c, d :: WillSave(w, c) && WillSave(w, d) ==> !Rivals(w.pending[c].callback, w.pending[d].callback)
  }

  /** A run in which that is so at all times. */
  ghost predicate Orderly(w: World, steps: seq<Step>) {
    NoRivals(Run(w, steps)) && (steps == [] || Orderly(w, steps[..|steps| - 1]))
  }

  /** A callback that will save agrees with the verdict stored for its job, if there is one. */
  ghost predicate Agrees(w: World, c: int) {
    WillSave(w, c) ==>
      var job := w.pending[c].record.scanJobId;
      job in w.records && w.records[job].outcome in {None, Some(w.pending[c].callback.outcome)}
  }

  ghost predicate OrderlyInv(w: World) {
    && Inv(w) && NoRivals(w) && (forall c :: c in w.pending ==> Agrees(w, c))
    && (forall t :: t in w.promoting ==> IsClean(w.records, w.promoting[t].record.scanJobId))
  }

  ghost predicate IsClean(records: Records, job: string) {
    job in records && records[job].outcome == Some(Clean)
  }

  /** A save that keeps the verdict of its job, and agrees with the callbacks of that job, keeps every agreement. */
  lemma AgreementKeeps(w: World, r: Record)
    requires OrderlyInv(w) && r.scanJobId in w.records && SameScan(r, w.records[r.scanJobId])
    requires w.records[r.scanJobId].outcome.Some? ==> r.outcome == w.records[r.scanJobId].outcome
    requires r.outcome.Some? && w.records[r.scanJobId].outcome == None ==>
               forall c :: WillSave(w, c) && w.pending[c].callback.scanJobId == r.scanJobId ==>
                   r.outcome == Some(w.pending[c].callback.outcome)
    ensures VerdictsStay(w.records, w.records[r.scanJobId := r])
    ensures forall c :: c in w.pending ==> Agrees(w.(records := w.records[r.scanJobId := r]), c)
    ensures forall t :: t in w.promoting ==> IsClean(w.records[r.scanJobId := r], w.promoting[t].record.scanJobId)
  {
    hide JobsOk;
    hide QueueingOk;
    hide VerdictOk;
    hide Held;
    var v := w.(records := w.records[r.scanJobId := r]);
    forall c | c in w.pending ensures Agrees(v, c) {
      assert Agrees(w, c) && PendingOk(w.records, w.pending[c]);
      assert WillSave(w, c) <==> WillSave(v, c);
    }
    forall t | t in w.promoting ensures IsClean(v.records, w.promoting[t].record.scanJobId) {
      assert IsClean(w.records, w.promoting[t].record.scanJobId);
    }
  }

  /** A world whose callbacks are among those of another, over the same records, is as orderly. */
  lemma FewerCallbacks(w: World, v: World)
    requires v.processed >= w.processed && forall c :: c in v.pending ==> c in w.pending && v.pending[c] == w.pending[c]
    ensures forall c :: WillSave(v, c) ==> WillSave(w, c)
    ensures NoRivals(w) ==> NoRivals(v)
    ensures v.records == w.records && (forall c :: c in w.pending ==> Agrees(w, c)) ==> forall c :: c in v.pending ==>
              Agrees(v, c)
  {
  }

  lemma OrderlySave(w: World, step: Step)
    requires OrderlyInv(w) && step.SaveVerdict? && Enabled(w, step)
    ensures OrderlyInv(Next(w, step)) && VerdictsStay(w.records, Next(w, step).records)
  {
    hide JobsOk;
    hide QueueingOk;
    hide Held;
    hide VerdictOk;
    hide Next;
    var p := w.pending[step.c];
    assert PendingOk(w.records, p) && Agrees(w, step.c);
    SaveVerdictKeeps(w, step);
    PendingKnown(w.records, p);
    AgreementKeeps(w, p.record);
    FewerCallbacks(w.(records := w.records[p.record.scanJobId := p.record]), Next(w, step));
    FewerCallbacks(w, Next(w, step));
  }

  lemma PendingKnown(records: Records, p: Pending)
    requires PendingOk(records, p) && p.Judged?
    ensures p.record.scanJobId in records && SameScan(p.record, records[p.record.scanJobId])
  {
  }

  lemma OrderlyPromotion(w: World, step: Step)
    requires OrderlyInv(w) && (step.SavePending? || step.SavePromoted?) && Enabled(w, step)
    ensures OrderlyInv(Next(w, step)) && VerdictsStay(w.records, Next(w, step).records)
  {
    hide JobsOk;
    hide QueueingOk;
    hide PendingOk;
    hide VerdictOk;
    var job := w.promoting[step.t].record.scanJobId;
    assert IsClean(w.records, job);
    PromotionKeeps(w, step);
    PromotingSame(w, step);
    hide Next;
    AgreementKeeps(w, Next(w, step).records[job]);
    FewerCallbacks(w.(records := Next(w, step).records), Next(w, step));
    FewerCallbacks(w, Next(w, step));
  }

  lemma PromotingSame(w: World, step: Step)
    requires Inv(w) && (step.SavePending? || step.SavePromoted?) && Enabled(w, step)
    ensures var job := w.promoting[step.t].record.scanJobId;
            && job in Next(w, step).records && Next(w, step).records[job].scanJobId == job
            && Next(w, step).processed == w.processed
            && forall t :: t in Next(w, step).promoting ==>
                 t in w.promoting && Next(w, step).promoting[t].record.scanJobId == w.promoting[t].record.scanJobId
  {
    hide Inv;
    hide Saved;
    PromotionKeeps(w, step);
    var p := w.promoting[step.t].record;
    SavesOnly(w, p.(state := if step.SavePending? then PromotionPending else Promoted, updatedAt := step.now));
    JobKnown(Next(w, step), p.scanJobId);
  }

  /** Saving changes nothing but the records. */
  lemma SavesOnly(w: World, r: Record)
    ensures Saved(w, r) == w.(records := Saved(w, r).records)
  {
    hide Save;
  }

  lemma JobKnown(w: World, job: string)
    requires Inv(w) && job in w.records
    ensures w.records[job].scanJobId == job
  {
  }

  lemma OrderlyQueue(w: World, step: Step)
    requires OrderlyInv(w) && (step.Queue? || step.WriteQueued?) && Enabled(w, step)
    ensures OrderlyInv(Next(w, step)) && VerdictsStay(w.records, Next(w, step).records)
  {
    hide Inv;
    if step.Queue? {
      QueueKeeps(w, step);
    } else {
      WriteKeeps(w, step);
    }
    var v := Next(w, step);
    assert v.processed == w.processed && v.pending == w.pending && v.promoting == w.promoting by { hide Save; }
    hide Next;
    FewerCallbacks(w, v);
    forall c | c in w.pending ensures Agrees(v, c) {
      assert Agrees(w, c);
    }
    forall t | t in w.promoting ensures IsClean(v.records, w.promoting[t].record.scanJobId) {
      assert IsClean(w.records, w.promoting[t].record.scanJobId);
    }
  }

  lemma OrderlyFinish(w: World, step: Step)
    requires OrderlyInv(w) && step.FinishQueue? && Enabled(w, step)
    ensures OrderlyInv(Next(w, step)) && VerdictsStay(w.records, Next(w, step).records)
  {
    hide JobsOk;
    hide PendingOk;
    hide VerdictOk;
    FinishKeeps(w, step);
    var r := w.queueing[step.job].(state := Scanning, updatedAt := step.now);
    QueuedOwn(w, step.job);
    hide Next;
    AgreementKeeps(w, r);
    FewerCallbacks(w.(records := w.records[step.job := r]), Next(w, step));
    FewerCallbacks(w, Next(w, step));
  }

  lemma QueuedOwn(w: World, job: string)
    requires Inv(w) && job in w.queueing
    ensures w.queueing[job].scanJobId == job && w.queueing[job].outcome == None
    ensures SameScan(w.queueing[job], w.records[job])
  {
    assert VerdictOk(w.records[job]);
  }

  lemma OrderlyReceive(w: World, step: Step)
    requires OrderlyInv(w) && step.Receive? && Enabled(w, step) && NoRivals(Next(w, step))
    ensures OrderlyInv(Next(w, step)) && VerdictsStay(w.records, Next(w, step).records)
  {
    ReceiveKeeps(w, step);
    StaysItself(w.records);
    var v := Next(w, step);
    if Reads(w.records, step.callback).Ok? {
      assert VerdictOk(w.records[step.callback.scanJobId]);
      assert Agrees(v, step.c);
    }
    hide VerdictOk;
    hide Inv;
    hide VerdictsStay;
    forall c | c in v.pending && c != step.c ensures Agrees(v, c) {
      assert Agrees(w, c);
    }
  }

  /** Deciding makes no callback save that would not have. */
  lemma ConcludeFewer(w: World, step: Step)
    requires Inv(w) && step.Conclude? && Enabled(w, step)
    ensures var v := Next(w, step);
            && v == w.(processed := v.processed, pending := v.pending)
            && forall c :: WillSave(v, c) ==>
                 && WillSave(w, c) && v.pending[c].callback == w.pending[c].callback
                 && v.pending[c].record.scanJobId == w.pending[c].record.scanJobId
  {
    hide Inv;
  }

  lemma OrderlyConclude(w: World, step: Step)
    requires OrderlyInv(w) && step.Conclude? && Enabled(w, step)
    ensures OrderlyInv(Next(w, step)) && VerdictsStay(w.records, Next(w, step).records)
  {
    hide Inv;
    hide Next;
    hide WillSave;
    ConcludeKeeps(w, step);
    ConcludeFewer(w, step);
    StaysItself(w.records);
    hide VerdictsStay;
    var v := Next(w, step);
    forall c | c in v.pending ensures Agrees(v, c) {
      if WillSave(v, c) {
        PendingThere(w, c);
        assert Agrees(w, c);
      }
    }
  }

  lemma PendingThere(w: World, c: int)
    requires WillSave(w, c)
    ensures c in w.pending
  {
  }

  lemma OrderlyPromote(w: World, step: Step)
    requires OrderlyInv(w) && step.Promote? && Enabled(w, step)
    ensures OrderlyInv(Next(w, step)) && VerdictsStay(w.records, Next(w, step).records)
  {
    PromoteKeeps(w, step);
    StaysItself(w.records);
    FewerCallbacks(w, Next(w, step));
    assert VerdictOk(w.records[step.job]) && w.records[step.job].scanJobId == step.job;
    hide Inv;
    hide VerdictsStay;
    hide Agrees;
    hide NoRivals;
  }

  lemma OtherStepKeeps(w: World, step: Step)
    requires OrderlyInv(w) && Enabled(w, step) && !step.Receive?
    ensures OrderlyInv(Next(w, step)) && VerdictsStay(w.records, Next(w, step).records)
  {
    StaysItself(w.records);
    match step
    case Queue(_, _, _, _, _) => OrderlyQueue(w, step);
    case WriteQueued(_) => OrderlyQueue(w, step);
    case FinishQueue(_, _) => OrderlyFinish(w, step);
    case Conclude(_, _) => OrderlyConclude(w, step);
    case SaveVerdict(_) => OrderlySave(w, step);
    case Promote(_, _) => OrderlyPromote(w, step);
    case SavePending(_, _) => OrderlyPromotion(w, step);
    case SavePromoted(_, _) => OrderlyPromotion(w, step);
    case Restart => StepKeeps(w, step);
  }

  lemma OrderlyKeeps(w: World, step: Step)
    requires OrderlyInv(w) && Enabled(w, step) && NoRivals(Next(w, step))
    ensures OrderlyInv(Next(w, step)) && VerdictsStay(w.records, Next(w, step).records)
  {
    if step.Receive? {
      OrderlyReceive(w, step);
    } else {
      OtherStepKeeps(w, step);
    }
  }

  /**
   Only receiving a callback can bring rivals together; taking the callbacks of a job one at a time rules that out.
   */
  lemma OneAtATime(w: World, step: Step)
    requires OrderlyInv(w) && Enabled(w, step)
    requires step.Receive? ==> forall c :: c in w.pending ==> w.pending[c].callback.scanJobId != step.callback.scanJobId
    ensures NoRivals(Next(w, step))
  {
    if step.Receive? {
      hide Inv;
      var v := Next(w, step);
      forall c, d | WillSave(v, c) && WillSave(v, d) ensures !Rivals(v.pending[c].callback, v.pending[d].callback) {
        assert c != step.c ==> WillSave(w, c);
        assert d != step.c ==> WillSave(w, d);
      }
    } else {
      hide Next;
      OtherStepKeeps(w, step);
    }
  }

  /** In every run in which rivals never are about to save at the same time, a stored verdict never changes. */
  lemma {:induction false} VerdictsStayInOrder(w: World, steps: seq<Step>)
    requires OrderlyInv(w) && Legal(w, steps) && Orderly(w, steps)
    ensures OrderlyInv(Run(w, steps)) && VerdictsStay(w.records, Run(w, steps).records)
  {
    hide OrderlyInv;
    hide Enabled;
    hide Next;
    hide NoRivals;
    if steps == [] {
      StaysItself(w.records);
    } else {
      var n := |steps| - 1;
      VerdictsStayInOrder(w, steps[..n]);
      OrderlyKeeps(Run(w, steps[..n]), steps[n]);
      StayOn(w.records, Run(w, steps[..n]).records, Run(w, steps).records);
    }
  }

  lemma StayOn(a: Records, b: Records, c: Records)
    requires VerdictsStay(a, b) && VerdictsStay(b, c)
    ensures VerdictsStay(a, c)
  {
  }

  // ---------- uploads ----------

  /** No two queueing calls of one upload are between their lookups and their writes. */
  ghost predicate NoTwins(looking: map<string, Record>) {
    forall a, b :: a in looking && b in looking && a != b ==>
      !ForUpload(looking[a], looking[b].workspaceId, looking[b].uploadId)
  }

  /** A run in which that is so at all times. */
  ghost predicate Apart(w: World, steps: seq<Step>) {
    NoTwins(Run(w, steps).looking) && (steps == [] || Apart(w, steps[..|steps| - 1]))
  }

  /** One record per upload, and what a queueing call will write is the first of its upload. */
  ghost predicate UploadsInv(w: World) {
    && OnePerUpload(w.records) && NoTwins(w.looking)
    && forall job, other :: job in w.looking && other in w.records ==>
         !ForUpload(w.records[other], w.looking[job].workspaceId, w.looking[job].uploadId)
  }

  lemma SameUploads(w: World, v: World)
    requires UploadsInv(w) && RecordsStay(w.records, v.records) && v.records.Keys == w.records.Keys
    requires forall job :: job in v.looking ==> job in w.looking && v.looking[job] == w.looking[job]
    ensures UploadsInv(v)
  {
    assert forall job :: job in v.records ==> SameScan(w.records[job], v.records[job]);
  }

  lemma UploadsKeep(w: World, step: Step)
    requires Inv(w) && UploadsInv(w) && Enabled(w, step) && NoTwins(Next(w, step).looking)
    ensures UploadsInv(Next(w, step))
  {
    hide Inv;
    hide Next;
    StepKeeps(w, step);
    match step
    case Queue(_, _, _, _, _) => QueueKeeps(w, step);
    case WriteQueued(_) => UploadsWrite(w, step);
    case Restart =>
      RestartKeeps(w);
      SameUploads(w, Next(w, step));
    case _ => SameUploads(w, Next(w, step));
  }

  lemma UploadsWrite(w: World, step: Step)
    requires Inv(w) && UploadsInv(w) && step.WriteQueued? && Enabled(w, step)
    ensures UploadsInv(Next(w, step))
  {
    hide QueueingOk;
    hide CallsOk;
    hide JobsOk;
    var r := w.looking[step.job];
    forall other | other in w.looking && other != step.job
      ensures !ForUpload(r, w.looking[other].workspaceId, w.looking[other].uploadId)
    {
      assert !ForUpload(w.looking[step.job], w.looking[other].workspaceId, w.looking[other].uploadId);
    }
  }

  /** In every run in which twins never look at the same time, no upload has two records. */
  lemma {:induction false} UploadsStayUnique(w: World, steps: seq<Step>)
    requires Inv(w) && UploadsInv(w) && Legal(w, steps) && Apart(w, steps)
    ensures UploadsInv(Run(w, steps))
  {
    hide Inv;
    hide UploadsInv;
    hide Enabled;
    hide Next;
    hide NoTwins;
    if steps != [] {
      var n := |steps| - 1;
      UploadsStayUnique(w, steps[..n]);
      RunsKeep(w, steps[..n]);
      UploadsKeep(Run(w, steps[..n]), steps[n]);
    }
  }

  /** Only a new queueing call can bring twins together; queueing one upload at a time rules that out. */
  lemma OneUploadAtATime(w: World, step: Step)
    requires Inv(w) && NoTwins(w.looking) && Enabled(w, step)
    requires step.Queue? ==> forall job :: job in w.looking ==>
               !ForUpload(w.looking[job], step.workspaceId, step.uploadId)
    ensures NoTwins(Next(w, step).looking)
  {
    hide Inv;
    StepKeeps(w, step);
    if step.Queue? {
      QueueKeeps(w, step);
      hide Next;
    }
  }

  // ---------- from an empty store ----------

  const NOTHING := World(map[], {}, map[], map[], map[], map[])

  /**
   From an empty store, in every run: a promoted record has a clean verdict and no record disappears. In every
   run without twins no workspace and upload pair has two records. In every orderly run a verdict once stored is
   the same after all further steps.
   */
  lemma QuarantineGuarantees(steps: seq<Step>, more: seq<Step>, job: string)
    requires Legal(NOTHING, steps) && Legal(Run(NOTHING, steps), more) && job in Run(NOTHING, steps).records
    ensures var records, later := Run(NOTHING, steps).records, Run(Run(NOTHING, steps), more).records;
            && (records[job].state == Promoted ==> records[job].outcome == Some(Clean))
            && job in later && SameScan(records[job], later[job])
            && (Apart(NOTHING, steps) ==> OnePerUpload(records))
            && (Orderly(NOTHING, steps) && Orderly(Run(NOTHING, steps), more) && records[job].outcome.Some? ==>
                  later[job].outcome == records[job].outcome)
  {
    hide Run;
    hide Legal;
    hide Orderly;
    hide Apart;
    RunsKeep(NOTHING, steps);
    RunsKeep(Run(NOTHING, steps), more);
    assert VerdictOk(Run(NOTHING, steps).records[job]);
    if Apart(NOTHING, steps) {
      UploadsStayUnique(NOTHING, steps);
    }
    if Orderly(NOTHING, steps) && Orderly(Run(NOTHING, steps), more) {
      VerdictsStayInOrder(NOTHING, steps);
      VerdictsStayInOrder(Run(NOTHING, steps), more);
    }
  }

  /** A judged record is saved and keeps every verdict. */
  lemma JudgedSaves(records: Records, processed: set<(string, Outcome)>, cb: Callback, now: int)
    requires RecordsOk(records)
    ensures VerdictsStay(records, records)
    ensures match Judge(records, processed, cb, now)
            case Ok(Some(r)) =>
              && r.scanJobId == cb.scanJobId && Save(records, r) == Ok(records[cb.scanJobId := r])
              && RecordsOk(records[cb.scanJobId := r]) && VerdictsStay(records, records[cb.scanJobId := r])
            case _ => true
  {
    hide Save;
    match Judge(records, processed, cb, now)
    case Ok(Some(r)) =>
      assert VerdictOk(records[cb.scanJobId]);
      SaveUpdates(records, r);
      UpdateKeeps(records, r);
      hide JobsOk;
    case _ =>
  }
}
