/** The load-job request that the first stage enqueues and the second stage
    receives, its validity check, and the BigQuery load job built from it
    (gcs_watcher_service.go, lines 243-249 and 258-290). */
module LoadJob {
  import opened Wrappers

  /** A `time.Time` value: only logged by the modelled code, so opaque. */
  type Instant(==)

  /** The Go struct `GCSObjectToBQJobReq`. */
  datatype LoadJobRequest = LoadJobRequest(bucket: string, filePath: string, kindName: string, timeCreated: Instant)

  /** A request the second stage acts on: bucket, file path and kind name
      are all non-empty. Any other request is acknowledged and dropped. */
  predicate IsValid(req: LoadJobRequest) {
    req.bucket != "" && req.filePath != "" && req.kindName != ""
  }

  const SourceScheme: string := "gs://"
  const DatastoreBackup: string := "DATASTORE_BACKUP"
  const WriteTruncate: string := "WRITE_TRUNCATE"

  /** BigQuery's `TableReference`: project, dataset and table IDs. */
  datatype TableReference = TableReference(projectId: string, datasetId: string, tableId: string)

  /** The parts of BigQuery's `JobConfigurationLoad` the code fills in. */
  datatype Job = Job(
    sourceUris: seq<string>,
    destinationTable: TableReference,
    sourceFormat: string,
    writeDisposition: string)

  /** The Cloud Storage URI of an object: `gs://<bucket>/<path>`. */
  function SourceURI(bucket: string, filePath: string): string {
    SourceScheme + bucket + "/" + filePath
  }

  /** The position of the first `c` in `s`, or `|s|` when there is none. */
  function IndexOf(s: string, c: char): (i: nat)
    ensures i <= |s|
    ensures i < |s| ==> s[i] == c
    ensures forall j :: 0 <= j < i ==> s[j] != c
    decreases |s|
  {
    if |s| == 0 then 0
    else if s[0] == c then 0
    else 1 + IndexOf(s[1..], c)
  }

  /** Splits a `gs://` URI into bucket and object path at the first `/`
      after the scheme; None when the scheme or the separator is missing. */
  function ParseSourceURI(uri: string): Option<(string, string)> {
    if |uri| < |SourceScheme| || uri[..|SourceScheme|] != SourceScheme then None
    else
      var rest := uri[|SourceScheme|..];
      var i := IndexOf(rest, '/');
      if i == |rest| then None else Some((rest[..i], rest[i + 1..]))
  }

  /** The source URI is read back as the bucket and path it was made from,
      for every bucket name without a `/` (Cloud Storage bucket names never
      contain one) and every path, the empty one included. */
  lemma SourceURIRoundTrip(bucket: string, filePath: string)
    requires '/' !in bucket
    ensures ParseSourceURI(SourceURI(bucket, filePath)) == Some((bucket, filePath))
  {
    var uri := SourceURI(bucket, filePath);
    assert uri[..|SourceScheme|] == SourceScheme;
    var rest := uri[|SourceScheme|..];
    assert rest == bucket + "/" + filePath;
    var i := IndexOf(rest, '/');
    assert forall j :: 0 <= j < |bucket| ==> rest[j] == bucket[j] && rest[j] != '/';
    assert rest[|bucket|] == '/';
    assert i == |bucket|;
    assert rest[..i] == bucket;
    assert rest[i + 1..] == filePath;
  }

  /** Two requests with slash-free buckets load the same object only when
      they name the same bucket and path. */
  lemma SourceURIInjective(b1: string, p1: string, b2: string, p2: string)
    requires '/' !in b1 && '/' !in b2
    requires SourceURI(b1, p1) == SourceURI(b2, p2)
    ensures b1 == b2 && p1 == p2
  {
    SourceURIRoundTrip(b1, p1);
    SourceURIRoundTrip(b2, p2);
  }

  /** The load job built for a request: exactly one source, the request's
      object; destination table `(appID, datasetID, kindName)`; a datastore
      backup source replacing the table's contents. `appID` stands for
      `appengine.AppID`. */
  function BuildLoadJob(req: LoadJobRequest, datasetID: string, appID: string): (job: Job)
    ensures |job.sourceUris| == 1
    ensures job.sourceUris[0] == SourceScheme + req.bucket + "/" + req.filePath
    ensures '/' !in req.bucket ==>
      ParseSourceURI(job.sourceUris[0]) == Some((req.bucket, req.filePath))
    ensures job.destinationTable.projectId == appID
    ensures job.destinationTable.datasetId == datasetID
    ensures job.destinationTable.tableId == req.kindName
    ensures job.sourceFormat == DatastoreBackup
    ensures job.writeDisposition == WriteTruncate
  {
    var job := Job([SourceURI(req.bucket, req.filePath)],
                   TableReference(appID, datasetID, req.kindName),
                   DatastoreBackup,
                   WriteTruncate);
    if '/' in req.bucket then job
    else SourceURIRoundTrip(req.bucket, req.filePath); job
  }

  /** The job depends on the request only through bucket, path and kind:
      two requests for the same artifact and kind, created at different
      times, produce the same job, which replaces the same table. */
  lemma BuildLoadJobIgnoresTime(req: LoadJobRequest, t: Instant, datasetID: string, appID: string)
    ensures BuildLoadJob(req.(timeCreated := t), datasetID, appID) == BuildLoadJob(req, datasetID, appID)
  {
  }
}
