/**
 The scan store and the orchestrator as classes (packages/operations/src/quarantine-scan-store.ts, quarantine-
 scan.ts).
 */
module QuarantineService {
  import opened Base
  import opened Quarantine

  class InMemoryQuarantineScanStore {
    var byJobId: Records

    constructor ()
      ensures byJobId == map[]
    {
      byJobId := map[];
    }

    method GetByUploadId(workspaceId: string, uploadId: string) returns (r: Option<Record>)
      ensures match r
              case Some(x) => exists job :: job in byJobId && byJobId[job] == x && ForUpload(x, workspaceId, uploadId)
              case None => forall job :: job in byJobId ==> !ForUpload(byJobId[job], workspaceId, uploadId)
      ensures OnePerUpload(byJobId) ==> r == GetByUpload(byJobId, workspaceId, uploadId)
    {
      r := None;
      var left := byJobId.Keys;
      while left != {}
        invariant left <= byJobId.Keys
        invariant forall job :: job in byJobId && job !in left ==> !ForUpload(byJobId[job], workspaceId, uploadId)
        decreases left
      {
        var job :| job in left;
        if ForUpload(byJobId[job], workspaceId, uploadId) {
          return Some(byJobId[job]);
        }
        left := left - {job};
      }
    }

    method SaveRecord(r: Record) returns (e: Option<Error>)
      requires RecordsOk(byJobId)
      modifies this
      ensures match Save(old(byJobId), r)
              case Err(error) => e == Some(error) && byJobId == old(byJobId)
              case Ok(records) => e == None && byJobId == records
    {
      var existing := if r.scanJobId in byJobId then Some(byJobId[r.scanJobId]) else None;
      var byUpload := GetByUploadId(r.workspaceId, r.uploadId);
      var action := ResolveSave(existing, byUpload, r);
      if action.Err? {
        return Some(action.error);
      }
      byJobId := byJobId[r.scanJobId := r];
      e := None;
    }
  }

  class QuarantineScanOrchestrator {
    const store: InMemoryQuarantineScanStore
    var processedCallbacks: set<(string, Outcome)>

    constructor (store: InMemoryQuarantineScanStore)
      ensures this.store == store && processedCallbacks == {}
    {
      this.store, processedCallbacks := store, {};
    }

    /** Both saves of a queueing call with nothing in between. */
    method QueueUploaded(job: string, workspaceId: string, uploadId: string, storageKey: string, now: int)
      returns (r: Result<Record, Error>)
      requires RecordsOk(store.byJobId)
      modifies store
      ensures RecordsOk(store.byJobId) && VerdictsStay(old(store.byJobId), store.byJobId)
      ensures match old(GetByJob(store.byJobId, workspaceId, job))
              case Some(known) => r == Ok(known) && store.byJobId == old(store.byJobId)
              case None =>
                var scanning := Record(job, workspaceId, uploadId, storageKey, Scanning, None, now, now);
                match Save(old(store.byJobId), scanning.(state := ScanQueued))
                case Err(e) => r == Err(e) && store.byJobId == old(store.byJobId)
                case Ok(_) =>
                  && r == Ok(scanning) && job !in old(store.byJobId)
                  && store.byJobId == old(store.byJobId)[job := scanning]
    {
      hide GetByUpload;
      var existing := GetByJob(store.byJobId, workspaceId, job);
      if existing.Some? {
        return Ok(existing.value);
      }
      var record := Record(job, workspaceId, uploadId, storageKey, ScanQueued, None, now, now);
      ghost var before := store.byJobId;
      var failed := store.SaveRecord(record);
      if failed.Some? {
        return Err(failed.value);
      }
      SaveNewKeeps(before, record);
      record := record.(state := Scanning);
      SaveUpdates(store.byJobId, record);
      UpdateKeeps(store.byJobId, record);
      hide RecordsOk;
      failed := store.SaveRecord(record);
      r := Ok(record);
    }

    method HandleCallback(callback: Callback, now: int) returns (r: Result<Record, Error>)
      requires RecordsOk(store.byJobId)
      modifies this, store
      ensures RecordsOk(store.byJobId) && VerdictsStay(old(store.byJobId), store.byJobId)
      ensures match old(Judge(store.byJobId, processedCallbacks, callback, now))
              case Err(e) => r == Err(e) && store.byJobId == old(store.byJobId)
              case Ok(None) => store.byJobId == old(store.byJobId) && r == Ok(store.byJobId[callback.scanJobId])
              case Ok(Some(x)) => r == Ok(x) && store.byJobId == old(store.byJobId)[callback.scanJobId := x]
      ensures !callback.authentic ==> r == Err(NotAuthentic)
      ensures callback.authentic ==>
                match old(GetByJob(store.byJobId, callback.workspaceId, callback.scanJobId))
                case None => r == Err(UnknownJob)
                case Some(known) =>
                  if (callback.scanJobId, callback.outcome) in old(processedCallbacks)
                  then r == Ok(known) && store.byJobId == old(store.byJobId)
                  else
                    if known.state == Scanning then
                      && callback.scanJobId in store.byJobId && r == Ok(store.byJobId[callback.scanJobId])
                      && r.value.outcome == Some(callback.outcome) && r.value.updatedAt == now
                    else store.byJobId == old(store.byJobId)
      ensures r.Err? ==> store.byJobId == old(store.byJobId)
      ensures processedCallbacks ==
              if r.Ok? then old(processedCallbacks) + {(callback.scanJobId, callback.outcome)}
                else old(processedCallbacks)
    {
      hide Save;
      hide RecordsOk;
      JudgedSaves(store.byJobId, processedCallbacks, callback, now);
      hide VerdictsStay;
      if !callback.authentic {
        return Err(NotAuthentic);
      }
      var found := GetByJob(store.byJobId, callback.workspaceId, callback.scanJobId);
      if found == None {
        return Err(UnknownJob);
      }
      var record := found.value;
      if (callback.scanJobId, callback.outcome) in processedCallbacks {
        return Ok(record);
      }
      if record.outcome == Some(callback.outcome) && record.state == OutcomeState(callback.outcome) {
        processedCallbacks := processedCallbacks + {(callback.scanJobId, callback.outcome)};
        return Ok(record);
      }
      if record.state != Scanning {
        return Err(InvalidTransition);
      }
      var updated := record.(state := OutcomeState(callback.outcome), outcome := Some(callback.outcome),
                             updatedAt := now);
      processedCallbacks := processedCallbacks + {(callback.scanJobId, callback.outcome)};
      var failed := store.SaveRecord(updated);
      r := Ok(updated);
    }
  }
}
