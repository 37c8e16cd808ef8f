/**
 What overlapping calls do to scan records (packages/operations/src/quarantine-scan.ts and
 quarantine-scan-store.ts): rival callbacks overwrite each other's verdicts, and two queueing calls of one upload
 store two records.
 */
module QuarantineOverlap {
  import opened Base
  import opened Quarantine

  // ---------- rivals overwrite each other ----------

  /** The step, if any, after which the callback has decided. */
  function ToDecide(w: World, c: int): seq<Step>
    requires c in w.pending
  {
    if w.pending[c].Seen? then [Conclude(c, 0)] else []
  }

  lemma RunOne(w: World, steps: seq<Step>, step: Step)
    ensures Run(w, steps + [step]) == if Enabled(Run(w, steps), step) then Next(Run(w, steps), step) else Run(w, steps)
    ensures Legal(w, steps + [step]) <==> Legal(w, steps) && Enabled(Run(w, steps), step)
  {
    assert (steps + [step])[..|steps|] == steps;
  }

  lemma {:induction false} RunTwo(w: World, a: seq<Step>, b: seq<Step>)
    ensures Run(w, a + b) == Run(Run(w, a), b)
    ensures Legal(w, a + b) <==> Legal(w, a) && Legal(Run(w, a), b)
  {
    if b == [] {
      assert a + b == a;
    } else {
      var n := |b| - 1;
      RunTwo(w, a, b[..n]);
      assert a + b == (a + b[..n]) + [b[n]] && b == b[..n] + [b[n]];
      RunOne(w, a + b[..n], b[n]);
      RunOne(Run(w, a), b[..n], b[n]);
    }
  }

  /** The callback has decided and nothing else has happened. */
  ghost predicate HasDecided(w: World, v: World, c: int) {
    && v.records == w.records && c in w.pending && c in v.pending
    && v.pending[c].Judged? && v.pending[c].callback == w.pending[c].callback
    && (forall d :: d in w.pending && d != c ==> d in v.pending && v.pending[d] == w.pending[d])
    && v.processed <= w.processed + {(w.pending[c].callback.scanJobId, w.pending[c].callback.outcome)}
  }

  lemma ConcludeDecides(w: World, c: int)
    requires WillSave(w, c) && w.pending[c].Seen?
    ensures HasDecided(w, Concluded(w, c, 0), c)
  {
  }

  lemma Decides(w: World, c: int)
    requires Inv(w) && WillSave(w, c)
    ensures Legal(w, ToDecide(w, c))
    ensures Inv(Run(w, ToDecide(w, c))) && HasDecided(w, Run(w, ToDecide(w, c)), c)
  {
    hide Inv;
    RunStart(w, []);
    if w.pending[c].Seen? {
      hide HasDecided;
      hide Run;
      hide Legal;
      hide Concluded;
      RunOne(w, [], Conclude(c, 0));
      assert [] + [Conclude(c, 0)] == ToDecide(w, c);
      ConcludeKeeps(w, Conclude(c, 0));
      ConcludeDecides(w, c);
    }
  }

  /** While two rivals that will save are under way, the second to save changes the verdict that the first stored. */
  lemma RivalsOverwrite(w: World, c: int, d: int) returns (steps: seq<Step>)
    requires Inv(w) && WillSave(w, c) && WillSave(w, d) && Rivals(w.pending[c].callback, w.pending[d].callback)
    ensures steps != [] && Legal(w, steps)
    ensures !VerdictsStay(Run(w, steps[..|steps| - 1]).records, Run(w, steps).records)
  {
    hide Run;
    hide Legal;
    hide Inv;
    hide VerdictsStay;
    hide ToDecide;
    hide Next;
    Decides(w, c);
    var one := Run(w, ToDecide(w, c));
    Decides(one, d);
    var two := Run(one, ToDecide(one, d));
    var decide := ToDecide(w, c) + ToDecide(one, d);
    RunTwo(w, ToDecide(w, c), ToDecide(one, d));
    RunOne(w, decide, SaveVerdict(c));
    var front := decide + [SaveVerdict(c)];
    SecondSave(two, c, d);
    steps := front + [SaveVerdict(d)];
    RunOne(w, front, SaveVerdict(d));
    assert steps[..|steps| - 1] == front;
  }

  lemma SecondSave(w: World, c: int, d: int)
    requires Inv(w) && c in w.pending && d in w.pending && w.pending[c].Judged? && w.pending[d].Judged?
    requires Rivals(w.pending[c].callback, w.pending[d].callback)
    ensures Enabled(Next(w, SaveVerdict(c)), SaveVerdict(d))
    ensures !VerdictsStay(Next(w, SaveVerdict(c)).records, Next(Next(w, SaveVerdict(c)), SaveVerdict(d)).records)
  {
    hide JobsOk;
    hide QueueingOk;
    hide VerdictOk;
    hide Held;
    var p, q := w.pending[c], w.pending[d];
    assert PendingOk(w.records, p) && PendingOk(w.records, q);
    SaveVerdictKeeps(w, SaveVerdict(c));
    var v := Next(w, SaveVerdict(c));
    SaveVerdictKeeps(v, SaveVerdict(d));
    hide Next;
    hide Inv;
    var job := p.record.scanJobId;
    assert v.records[job].outcome == Some(p.callback.outcome);
    assert Next(v, SaveVerdict(d)).records[job].outcome == Some(q.callback.outcome);
  }

  lemma RunNext(w: World, steps: seq<Step>, k: nat)
    requires k < |steps| && Legal(w, steps[..k]) && Enabled(Run(w, steps[..k]), steps[k])
    ensures Legal(w, steps[..k + 1]) && Run(w, steps[..k + 1]) == Next(Run(w, steps[..k]), steps[k])
  {
    RunOne(w, steps[..k], steps[k]);
    assert steps[..k] + [steps[k]] == steps[..k + 1];
  }

  const MALICIOUS := Callback("j", "w", Malicious, true)
  const CLEAN := Callback("j", "w", Clean, true)

  /** A run from the empty store in which two rivals overlap. */
  function Overlap(): seq<Step> {
    [Queue("j", "w", "u", "k", 0), WriteQueued("j"), FinishQueue("j", 0), Receive(0, MALICIOUS), Receive(1, CLEAN),
     Conclude(0, 0), Conclude(1, 0), SaveVerdict(0), SaveVerdict(1)]
  }

  function ScanOf(state: ScanState, outcome: Option<Outcome>): Record {
    Record("j", "w", "u", "k", state, outcome, 0, 0)
  }

  /** A world in which one job has a record and some callbacks. */
  function OneJob(r: Record, processed: set<(string, Outcome)>, pending: map<int, Pending>): World {
    World(map["j" := r], processed, map[], map[], pending, map[])
  }

  lemma OverlapScanning()
    ensures Legal(NOTHING, Overlap()[..3])
    ensures Run(NOTHING, Overlap()[..3]) == OneJob(ScanOf(Scanning, None), {}, map[])
  {
    hide Next;
    hide Run;
    hide Legal;
    var r := ScanOf(ScanQueued, None);
    RunStart(NOTHING, Overlap());
    RunNext(NOTHING, Overlap(), 0);
    FirstLooks("j");
    QueueKeeps(NOTHING, Overlap()[0]);
    RunNext(NOTHING, Overlap(), 1);
    var w := Run(NOTHING, Overlap()[..2]);
    FirstWritten();
    WriteKeeps(Run(NOTHING, Overlap()[..1]), Overlap()[1]);
    RunNext(NOTHING, Overlap(), 2);
    FinishKeeps(w, Overlap()[2]);
    assert w.records["j" := ScanOf(Scanning, None)] == map["j" := ScanOf(Scanning, None)];
    assert w.queueing - {"j"} == map[];
  }

  lemma RunStart(w: World, steps: seq<Step>)
    ensures Legal(w, steps[..0]) && Run(w, steps[..0]) == w
  {
  }

  lemma FirstLooks(job: string)
    ensures Next(NOTHING, Queue(job, "w", "u", "k", 0)) ==
            NOTHING.(looking := map[job := Record(job, "w", "u", "k", ScanQueued, None, 0, 0)])
  {
    hide GetByUpload;
  }

  lemma FirstWritten()
    ensures var r := ScanOf(ScanQueued, None);
            Next(NOTHING.(looking := map["j" := r]), WriteQueued("j")) ==
            World(map["j" := r], {}, map[], map["j" := r], map[], map[])
  {
    var r := ScanOf(ScanQueued, None);
    assert map["j" := r] - {"j"} == map[];
  }

  /** Both callbacks read the record while it is being scanned. */
  lemma OverlapSeen()
    ensures Legal(NOTHING, Overlap()[..5])
    ensures Run(NOTHING, Overlap()[..5]) ==
            OneJob(ScanOf(Scanning, None), {},
                   map[0 := Seen(MALICIOUS, ScanOf(Scanning, None)), 1 := Seen(CLEAN, ScanOf(Scanning, None))])
  {
    hide Run;
    hide Legal;
    hide Save;
    OverlapScanning();
    RunNext(NOTHING, Overlap(), 3);
    assert Run(NOTHING, Overlap()[..4]).pending == map[0 := Seen(MALICIOUS, ScanOf(Scanning, None))];
    RunNext(NOTHING, Overlap(), 4);
  }

  /** Both decide. */
  lemma OverlapJudged()
    ensures Legal(NOTHING, Overlap()[..7])
    ensures Run(NOTHING, Overlap()[..7]) ==
            OneJob(ScanOf(Scanning, None), {("j", Malicious), ("j", Clean)},
                   map[0 := Judged(MALICIOUS, ScanOf(Rejected, Some(Malicious))),
                       1 := Judged(CLEAN, ScanOf(Accepted, Some(Clean)))])
  {
    hide Run;
    hide Legal;
    hide Save;
    OverlapSeen();
    RunNext(NOTHING, Overlap(), 5);
    assert Run(NOTHING, Overlap()[..6]) ==
           OneJob(ScanOf(Scanning, None), {("j", Malicious)},
                  map[0 := Judged(MALICIOUS, ScanOf(Rejected, Some(Malicious))),
                      1 := Seen(CLEAN, ScanOf(Scanning, None))]);
    RunNext(NOTHING, Overlap(), 6);
  }

  /** A concrete overlap: a malicious verdict is stored and then turned into a clean one. */
  lemma MaliciousOverwritten()
    ensures Legal(NOTHING, Overlap())
    ensures Run(NOTHING, Overlap()[..8]).records == map["j" := ScanOf(Rejected, Some(Malicious))]
    ensures Run(NOTHING, Overlap()).records == map["j" := ScanOf(Accepted, Some(Clean))]
  {
    hide Run;
    hide Legal;
    hide Next;
    OverlapJudged();
    RunsKeep(NOTHING, Overlap()[..7]);
    var w7 := Run(NOTHING, Overlap()[..7]);
    RunNext(NOTHING, Overlap(), 7);
    SaveVerdictKeeps(w7, SaveVerdict(0));
    var w8 := Run(NOTHING, Overlap()[..8]);
    assert w7.records["j" := ScanOf(Rejected, Some(Malicious))] == map["j" := ScanOf(Rejected, Some(Malicious))];
    RunNext(NOTHING, Overlap(), 8);
    SaveVerdictKeeps(w8, SaveVerdict(1));
    assert w8.records["j" := ScanOf(Accepted, Some(Clean))] == map["j" := ScanOf(Accepted, Some(Clean))];
    assert Overlap()[..9] == Overlap();
  }

  // ---------- twins store two records ----------

  /** While two queueing calls of one upload are between lookup and write, both can write. */
  lemma TwinsStoreTwo(w: World, a: string, b: string)
    requires Inv(w) && a in w.looking && b in w.looking && a != b
    requires ForUpload(w.looking[a], w.looking[b].workspaceId, w.looking[b].uploadId)
    ensures Legal(w, [WriteQueued(a), WriteQueued(b)])
    ensures !OnePerUpload(Run(w, [WriteQueued(a), WriteQueued(b)]).records)
  {
    hide Inv;
    hide Run;
    hide Legal;
    var steps := [WriteQueued(a), WriteQueued(b)];
    RunStart(w, steps);
    RunNext(w, steps, 0);
    RunNext(w, steps, 1);
    assert steps[..2] == steps;
    var records := Run(w, steps).records;
    assert records[a] == w.looking[a] && records[b] == w.looking[b];
  }

  /** Two queueing calls of one upload that overlap. */
  function Twice(): seq<Step> {
    [Queue("a", "w", "u", "k", 0), Queue("b", "w", "u", "k", 0), WriteQueued("a"), WriteQueued("b")]
  }

  lemma SecondLooks()
    ensures var a, b := Record("a", "w", "u", "k", ScanQueued, None, 0, 0),
              Record("b", "w", "u", "k", ScanQueued, None, 0, 0);
            Next(NOTHING.(looking := map["a" := a]), Twice()[1]) == NOTHING.(looking := map["a" := a, "b" := b])
  {
    hide GetByUpload;
  }

  /** From the empty store: the upload "u" ends up with two records. */
  lemma UploadQueuedTwice()
    ensures Legal(NOTHING, Twice()) && Run(NOTHING, Twice()).records.Keys == {"a", "b"}
    ensures forall job :: job in Run(NOTHING, Twice()).records ==>
              ForUpload(Run(NOTHING, Twice()).records[job], "w", "u")
  {
    hide Run;
    hide Legal;
    hide Save;
    hide GetByUpload;
    RunStart(NOTHING, Twice());
    RunNext(NOTHING, Twice(), 0);
    FirstLooks("a");
    RunNext(NOTHING, Twice(), 1);
    SecondLooks();
    RunNext(NOTHING, Twice(), 2);
    RunNext(NOTHING, Twice(), 3);
    assert Twice()[..4] == Twice();
  }
}
