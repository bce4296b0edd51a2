/** The two request entry points of the watcher service
    (gcs_watcher_service.go, lines 179-196 and 224-298): `HandleOCN`, which
    turns an object change notification into a task-queue request, and
    `HandleBackupToBQJob`, which turns that request into a BigQuery load job.

    The collaborators these call are parameters: `run` evaluates deferred
    functions, `kindOf` is goon's kind naming, `isImportTarget` is the
    notification's `IsImportTarget` check (given the notification, the
    HTTP request, the bucket name and the kind names), `receiveOCN` is the outcome of
    `ReceiveOCN`, `appID` is `appengine.AppID`, and `newClientErr` the
    outcome of `bigquery.New`. */
module Watcher {
  import opened Wrappers
  import opened Options
  import opened Deferred
  import opened LoadJob

  /** The `*http.Request` a notification arrived in. Opaque: it is only
      passed on to `IsImportTarget`, whose use of it is not modelled. */
  type Request(==)

  /** Go's `int64`. */
  newtype int64 = x: int | -0x8000_0000_0000_0000 <= x < 0x8000_0000_0000_0000

  /** The Go struct `GCSObject`: an object change notification as decoded. */
  datatype GCSObject = GCSObject(
    id: string,
    selfLink: string,
    name: string,
    bucket: string,
    generation: string,
    metaGeneration: string,
    contentType: string,
    updated: Instant,
    size: int64,
    md5Hash: string,
    mediaLink: string,
    crc32c: string,
    etag: string,
    timeCreated: Instant,
    timeDeleted: Instant)

  /** A call of `ReceiveOCN`: the notification, the queue name and the
      URL of the load-job stage. */
  datatype Enqueue = Enqueue(obj: GCSObject, queueName: string, url: string)

  /** What `HandleOCN` leaves behind: the updated service record, the
      returned error, the kind names it asked `IsImportTarget` about (None
      when it did not get that far) and the `ReceiveOCN` call it made. */
  datatype OCNOutcome = OCNOutcome(
    service: Service,
    err: Option<Error>,
    checkedKinds: Option<seq<string>>,
    enqueued: Option<Enqueue>)

  /** `HandleOCN`: the deferred step, then kind conversion, then the
      import-target check against the backup bucket and the kind names, and
      on a match a `ReceiveOCN` call whose error is returned. */
  function HandleOCN(
    s: Service, req: Request, obj: GCSObject,
    run: ContextFunc -> Result<WatcherOption, Error>,
    kindOf: KindDescriptor -> string,
    isImportTarget: (GCSObject, Request, string, seq<string>) -> bool,
    receiveOCN: Enqueue -> Option<Error>): (r: OCNOutcome)
    ensures var p := ProcessWithContext(s, run);
      p.err.Some? ==> r == OCNOutcome(p.service, p.err, None, None)
    ensures var p := ProcessWithContext(s, run);
      p.err.None? ==>
        && r.service == ConvertKind(p.service, kindOf)
        && r.checkedKinds == Some(r.service.importTargetKindNames)
    ensures r.enqueued.Some? <==>
      r.checkedKinds.Some? && isImportTarget(obj, req, r.service.backupBucketName, r.service.importTargetKindNames)
    ensures r.enqueued.Some? ==>
      r.enqueued.value == Enqueue(obj, r.service.queueName, r.service.gcsObjectToBQJobURL)
    ensures r.checkedKinds.Some? ==>
      r.err == (if r.enqueued.Some? then receiveOCN(r.enqueued.value) else None)
  {
    var p := ProcessWithContext(s, run);
    if p.err.Some? then OCNOutcome(p.service, p.err, None, None)
    else
      var c := ConvertKind(p.service, kindOf);
      if !isImportTarget(obj, req, c.backupBucketName, c.importTargetKindNames) then
        OCNOutcome(c, None, Some(c.importTargetKindNames), None)
      else
        var e := Enqueue(obj, c.queueName, c.gcsObjectToBQJobURL);
        OCNOutcome(c, receiveOCN(e), Some(c.importTargetKindNames), Some(e))
  }

  /** A call of `Jobs.Insert`: the project the job is inserted into and
      the job. */
  datatype Insertion = Insertion(projectID: string, job: Job)

  /** What `HandleBackupToBQJob` leaves behind: the updated service record,
      the returned error and the `Jobs.Insert` call it made, if any. */
  datatype BackupOutcome = BackupOutcome(service: Service, err: Option<Error>, submitted: Option<Insertion>)

  /** `HandleBackupToBQJob`: the deferred step; an invalid request is
      acknowledged with nil; a client-construction error is returned; else
      the load job is submitted and nil returned whatever `Jobs.Insert`
      reports (`insertErr`): an insert failure is only logged. */
  function HandleBackupToBQJob(
    s: Service, req: LoadJobRequest,
    run: ContextFunc -> Result<WatcherOption, Error>,
    appID: string,
    newClientErr: Option<Error>,
    insertErr: Option<Error>): (r: BackupOutcome)
    ensures r.service == ProcessWithContext(s, run).service
    ensures var p := ProcessWithContext(s, run);
      r.submitted.Some? <==> p.err.None? && IsValid(req) && newClientErr.None?
    ensures var p := ProcessWithContext(s, run);
      p.err.None? && !IsValid(req) ==> r.err.None?
    ensures r.submitted.Some? ==>
      && r.submitted.value.projectID == appID
      && r.submitted.value.job == BuildLoadJob(req, r.service.datasetID, appID)
    ensures r.submitted.Some? ==> r.err.None?
    ensures var p := ProcessWithContext(s, run);
      p.err.Some? ==> r.err == p.err
    ensures var p := ProcessWithContext(s, run);
      p.err.None? && IsValid(req) ==> r.err == newClientErr
  {
    var p := ProcessWithContext(s, run);
    if p.err.Some? then BackupOutcome(p.service, p.err, None)
    else if !IsValid(req) then BackupOutcome(p.service, None, None)
    else if newClientErr.Some? then BackupOutcome(p.service, newClientErr, None)
    else
      // The insert's outcome `insertErr` is only logged: nil either way.
      var job := BuildLoadJob(req, p.service.datasetID, appID);
      BackupOutcome(p.service, None, Some(Insertion(appID, job)))
  }

  /** On a constructed service, every notification leaves the deferred-step
      flag down and the record otherwise only converted, so the next request
      again skips the deferred functions; the kinds checked are never empty. */
  lemma HandleOCNOnConstructedService(
    opts: seq<WatcherOption>, req: Request, obj: GCSObject,
    run: ContextFunc -> Result<WatcherOption, Error>,
    kindOf: KindDescriptor -> string,
    isImportTarget: (GCSObject, Request, string, seq<string>) -> bool,
    receiveOCN: Enqueue -> Option<Error>)
    requires NewGCSWatcherService(opts).Success?
    ensures var s := NewGCSWatcherService(opts).value;
      var r := HandleOCN(s, req, obj, run, kindOf, isImportTarget, receiveOCN);
      && r.service == ConvertKind(s, kindOf)
      && !r.service.processedWithContext
      && r.checkedKinds.Some? && |r.checkedKinds.value| > 0
      && ProcessWithContext(r.service, run) == Processed(r.service, None, [])
  {
  }

  /** On a constructed service, a request with an empty bucket, file path
      or kind name is acknowledged (nil) and no job is submitted; a valid
      one submits, unless the client cannot be built, a job loading
      `gs://bucket/path` into `(appID, datasetID, kindName)` of the
      configured, non-empty dataset with overwrite semantics. */
  lemma BackupJobOnConstructedService(
    opts: seq<WatcherOption>, req: LoadJobRequest,
    run: ContextFunc -> Result<WatcherOption, Error>,
    appID: string, newClientErr: Option<Error>, insertErr: Option<Error>)
    requires NewGCSWatcherService(opts).Success?
    ensures var s := NewGCSWatcherService(opts).value;
      var r := HandleBackupToBQJob(s, req, run, appID, newClientErr, insertErr);
      && r.service == s
      && (!IsValid(req) ==> r.err.None? && r.submitted.None?)
      && (IsValid(req) ==> r.err == newClientErr)
      && (IsValid(req) && newClientErr.None? ==>
            && r.submitted.Some?
            && r.submitted.value.projectID == appID
            && r.submitted.value.job.sourceUris == [SourceURI(req.bucket, req.filePath)]
            && r.submitted.value.job.destinationTable == TableReference(appID, s.datasetID, req.kindName)
            && s.datasetID != ""
            && r.submitted.value.job.sourceFormat == DatastoreBackup
            && r.submitted.value.job.writeDisposition == WriteTruncate)
  {
  }
}
