/**
 What a save of the scan store allows and what the table of transitions means (packages/operations/src/
 quarantine-scan-store.ts, quarantine-scan.ts).
 */
module QuarantineLaws {
  import opened Base
  import opened Quarantine

  /**
   An uninterrupted save succeeds exactly when writing the record changes no stored scan into another and gives no
   upload a second record.
   */
  lemma SaveExactly(records: Records, r: Record)
    requires RecordsOk(records)
    ensures var written := records[r.scanJobId := r];
            Save(records, r) ==
            if RecordsStay(records, written) && OnePerUpload(written) then Ok(written) else Err(ScanConflict)
  {
    var written := records[r.scanJobId := r];
    if r.scanJobId in records {
      assert RecordsStay(records, written) <==> SameScan(records[r.scanJobId], r);
      if SameScan(records[r.scanJobId], r) {
        SaveUpdates(records, r);
        UploadStays(records, r);
      }
    } else {
      match GetByUpload(records, r.workspaceId, r.uploadId)
      case Some(e) =>
        var job :| job in records && records[job] == e && ForUpload(e, r.workspaceId, r.uploadId);
        assert ForUpload(written[job], written[r.scanJobId].workspaceId, written[r.scanJobId].uploadId);
      case None =>
        hide JobsOk;
    }
  }

  lemma UploadStays(records: Records, r: Record)
    requires OnePerUpload(records) && r.scanJobId in records && SameScan(records[r.scanJobId], r)
    ensures OnePerUpload(records[r.scanJobId := r])
  {
  }

  /** States that follow one another as the table allows. */
  ghost predicate IsPath(path: seq<ScanState>) {
    path != [] && forall i, j :: 0 <= i < j < |path| && j == i + 1 ==> Transition(path[i], path[j]) == Some(path[j])
  }

  lemma {:induction false} FrontOfPath(path: seq<ScanState>)
    requires IsPath(path) && |path| > 1
    ensures var n := |path| - 1;
            IsPath(path[..n]) && (path[n] == path[n - 1] || path[n] in Transitions(path[n - 1]))
  {
    var n := |path| - 1;
    hide Transitions;
    var m := n - 1;
    assert Transition(path[m], path[n]) == Some(path[n]);
  }

  /** Whatever was not accepted before is promoted only after it was accepted, through a pending promotion. */
  lemma {:induction false} PromotedWasAccepted(path: seq<ScanState>)
    requires IsPath(path) && path[0] !in {Accepted, PromotionPending, Promoted}
    ensures path[|path| - 1] in {PromotionPending, Promoted} ==> Accepted in path
    ensures path[|path| - 1] == Promoted ==> PromotionPending in path
  {
    if |path| > 1 {
      FrontOfPath(path);
      var n := |path| - 1;
      PromotedWasAccepted(path[..n]);
      assert path[n - 1] in path && forall s :: s in path[..n] ==> s in path;
    }
  }

  /** A rejected or promoted scan stays as it is. */
  lemma {:induction false} FinalStates(path: seq<ScanState>, i: nat)
    requires IsPath(path) && i < |path| && path[i] in {Rejected, Promoted}
    ensures path[|path| - 1] == path[i]
  {
    if i < |path| - 1 {
      FrontOfPath(path);
      FinalStates(path[..|path| - 1], i);
    }
  }
}
