# ds2bq GCS watcher: a Dafny model

This project models the configuration and request-shaping core of the ds2bq
GCS watcher service. The service receives Cloud Storage object change
notifications (OCN) for Datastore backups, enqueues a task for each backup
file it should import, and turns each task into a BigQuery load job.

What is modelled:

- **Service construction** (`Options`). The watcher record `gcsWatcherService`
  is a datatype and every `GCSWatcherOption` is a constructor. Each option's
  `implements` method is the pure update `Implements`, and
  `NewGCSWatcherService` is a left fold from the default record followed by
  the invalid-state check. `Resolved` describes the fold's result field by
  field, independently of the fold: the last option for a field wins, the URL
  option skips empty arguments, and after-context functions accumulate in
  order. `ApplyAllResolves` proves that the two agree.
- **The deferred-option step** (`Deferred`). `processWithContext` is modelled
  exactly as written (see Findings). Beside it is the step with the guard
  negated, with its exactly-once property proved. `convertKind` is also here.
- **The load job** (`LoadJob`). This covers request validity and job
  construction: the `gs://bucket/path` source, the
  `(appID, datasetID, kindName)` table, and the `DATASTORE_BACKUP` and
  `WRITE_TRUNCATE` settings. The source URI has a parsing partner and a
  round-trip proof.
- **The two entry points** (`Watcher`). `HandleOCN` and `HandleBackupToBQJob`
  are control-flow skeletons over their collaborators.
- **The standalone handlers** (`Handlers`). `allKinds` keeps the user kinds in
  order and is a loop with invariants. The three HTTP closures are modelled by
  the collaborator calls they make.

Collaborators are parameters:

- `run` evaluates a deferred function in the request's context.
- `kindOf` is goon's `Kind`.
- `isImportTarget` is `GCSObject.IsImportTarget`. It receives the
  notification, the HTTP request (an opaque `Request`), the bucket name and
  the kind names, as in the Go call.
- `receiveOCN` is the outcome of `ReceiveOCN`.
- `appID` is `appengine.AppID`.
- `newClientErr` and `insertErr` are the outcomes of `bigquery.New` and
  `Jobs.Insert`.
- The `__kind__` query result is an input sequence of names.
- A decoded body is a `Result`: `Failure` stands for a JSON decode error.

Opaque types stand for three Go types: `KindDescriptor` for `interface{}`,
`ContextFunc` for the after-context function type, and `Instant` for
`time.Time`.

Notes on the code:

- The default load-job URL is `/tq/gcs/object-to-bq`.
- Target kinds and kind names are ordered lists, not sets.
- The deferred functions never run (see Findings).
- The standalone closures only log a `ReceiveOCN` error. `HandleOCN` returns it.

## Model

| member | source | states |
|---|---|---|
| Options.Implements | gcs_watcher_service.go:28-127 | Each option overwrites only the fields it sets. The URL option sets a URL only when its argument is non-empty. The after-context option appends its function to the end of the list. The deferred-step flag and every other field stay unchanged. |
| Options.ApplyAllSnoc | gcs_watcher_service.go:165-167 | Options apply left to right: one more option at the end is applied to the result of the ones before it. |
| Options.ApplyAllConcat | gcs_watcher_service.go:165-167 | Applying two option lists in turn equals applying their concatenation. |
| Options.ApplyAllResolves | gcs_watcher_service.go:165-167 | The construction loop yields, for each field, the value of the last option that sets it, or the starting value if none does. Deferred functions come out in registration order and the flag is untouched. |
| Options.LastSetWins | gcs_watcher_service.go:165-167 | Once an option sets a field, later options that do not set that field leave its value alone. |
| Options.LaterQueueNameWins | gcs_watcher_service.go:45-58 | A later queue-name option overwrites every earlier one. |
| Options.URLOptionSkipsEmpty | gcs_watcher_service.go:28-35 | An empty API or task-queue URL argument keeps the current URL. A non-empty one replaces it. The two URLs are independent and nothing else changes. |
| Options.AfterContextAppends | gcs_watcher_service.go:125-127 | The after-context option appends its function to the end of `withContextFuncs` and leaves every other field unchanged. |
| Options.NewGCSWatcherService | gcs_watcher_service.go:157-177 | Construction fails with `ErrInvalidState` exactly when, after all options, both the kinds and the kind names are empty, or the dataset ID is empty. Otherwise it returns the record with all options applied to the defaults. |
| Options.ConstructionDefaults | gcs_watcher_service.go:158-163 | Without a URL option, a constructed service has the URLs `/api/gcs/object-change-notification` and `/tq/gcs/object-to-bq`. Queue and bucket names default to empty. The flag starts down. |
| Deferred.RunDeferred | gcs_watcher_service.go:200-206 | The deferred loop calls a prefix of the functions in order and stops at the first error, which it returns. With no error, it calls all of them. |
| Deferred.RunDeferredApplies | gcs_watcher_service.go:200-206 | After the loop, the record has the options of the functions that succeeded applied in order, even when a later function failed. |
| Deferred.ProcessWithContext | gcs_watcher_service.go:198-211 | As written: when the flag is down, the step returns nil, calls no deferred function and leaves the record unchanged. The step never changes the flag. |
| Deferred.ProcessWithContextOnce | gcs_watcher_service.go:198-211 | With the guard negated: the first successful call runs every registered function once, in order, applies their options and raises the flag. After that the step is a no-op. |
| Deferred.ProcessOnceIdempotent | gcs_watcher_service.go:198-211 | After the corrected step succeeds, running it again calls nothing and changes nothing. |
| Deferred.DeferredFunctionsNeverRun | gcs_watcher_service.go:199 | On every constructed service with an after-context option, the step as written calls nothing, while the corrected step calls the registered functions. |
| Deferred.AppendKindNames | gcs_watcher_service.go:219-221 | Appends the kind name of each descriptor, in order, after the existing names. |
| Deferred.ConvertKind | gcs_watcher_service.go:213-222 | If names are set or no descriptors are set, the record is unchanged. Otherwise the names become the descriptors' kind names, in order. No other field changes. |
| Deferred.ConvertKindIdempotent | gcs_watcher_service.go:213-222 | Converting twice gives the same record as converting once. |
| Deferred.ConvertedServiceHasNames | gcs_watcher_service.go:213-222 | After conversion, every constructed service has a non-empty list of kind names. |
| LoadJob.SourceURIRoundTrip | gcs_watcher_service.go:279 | Parsing `gs://bucket/path` gives back the bucket and path when the bucket has no `/`. This includes an empty path. |
| LoadJob.SourceURIInjective | gcs_watcher_service.go:279 | Distinct slash-free buckets or distinct paths give distinct source URIs. |
| LoadJob.BuildLoadJob | gcs_watcher_service.go:275-290 | The job has exactly one source URI, `gs://bucket/path`, which parses back to the request's bucket and path. Its table is `(appID, datasetID, kindName)`, its format `DATASTORE_BACKUP` and its write disposition `WRITE_TRUNCATE`. |
| LoadJob.BuildLoadJobIgnoresTime | gcs_watcher_service.go:275-290 | Requests that differ only in creation time build the same job, so the same table is overwritten the same way. |
| Watcher.HandleOCN | gcs_watcher_service.go:224-241 | The deferred step runs first and its error is returned. Then kind conversion. `ReceiveOCN` is called, with the queue name and the load-job URL, exactly when the import-target check passes for the backup bucket and the converted names. Its error is returned. |
| Watcher.HandleBackupToBQJob | gcs_watcher_service.go:251-298 | An error from the deferred step is returned. A request with an empty bucket, file path or kind name gets nil and no job. A client-construction error is returned. Otherwise `Jobs.Insert` is called once, with the app ID as the project and the job built from the request and the current dataset ID. Nil is returned even when the insert fails. |
| Watcher.HandleOCNOnConstructedService | gcs_watcher_service.go:224-241 | On a constructed service, a notification leaves the flag down, so the next request skips the deferred functions again. The kinds checked are the converted names, and they are non-empty. |
| Watcher.BackupJobOnConstructedService | gcs_watcher_service.go:258-297 | On a constructed service, an invalid request yields nil and no job. A valid request returns exactly the client-construction error, if there is one. Otherwise it inserts, into the app's project, the `gs://` job loading into the non-empty configured dataset with overwrite semantics. |
| Handlers.UserKinds | gcs_watcher_handler.go:98-106 | No kept name starts with `_`. Every queried name not starting with `_`, including the empty name, is kept. The result has as many entries as there are such occurrences in the query result; `Handlers.UserKindsKeepOrder` says which entries they are. |
| Handlers.UserKindsKeepOrder | gcs_watcher_handler.go:98-106 | The kept names are picked from the query result at strictly increasing positions. Those positions are exactly the positions of the names not starting with `_`. So the result keeps query order and every repeated occurrence. |
| Handlers.UserKindPositionsExact | gcs_watcher_handler.go:99-106 | A position of the query result is kept exactly when the name there does not start with `_`. |
| Handlers.UserKindsPicked | gcs_watcher_handler.go:98-106 | Every kept name equals the query name at its position, and the positions strictly increase. |
| Handlers.AllKinds | gcs_watcher_handler.go:92-109 | A failed query returns its error and no names. Otherwise the result is exactly the user kinds in query order, none starting with `_`. |
| Handlers.ReceiveOCNHandle | gcs_watcher_handler.go:39-61 | On a decode error the closure returns without calling anything. Otherwise it makes one `IsImportTarget` call with the notification, request, configured bucket and kinds. After that it makes exactly one `ReceiveOCN` call, with the configured queue name and path, when the check passes, and no call otherwise. |
| Handlers.ReceiveOCNHandleAllKinds | gcs_watcher_handler.go:63-90 | On a decode error the closure calls nothing. Otherwise it queries the kinds and panics if the query fails. On success it makes one kind query and one `IsImportTarget` call against the user kinds. After that it makes exactly one `ReceiveOCN` call, with the configured queue name and path, on a match, and no call otherwise. |
| Handlers.ImportBigQueryHandle | gcs_watcher_handler.go:112-130 | On a decode error the closure calls nothing. Otherwise it makes exactly one `insertImportJob` call with the request and the dataset ID. |
| Handlers.ReceiveOCNHandleAgreesWithHandleOCN | gcs_watcher_handler.go:51-55 | Given the bucket, queue name, load-job URL and kind names of the record `HandleOCN` converts, the standalone closure calls `ReceiveOCN` exactly when `HandleOCN` enqueues, and with the same notification, queue name and URL. |
| Handlers.AllKindsHandlerChecksUserKinds | gcs_watcher_handler.go:75-80 | The all-kinds closure checks a notification against exactly the query's names that do not start with `_`. |

## Left out

- JSON decoding (`DecodeGCSObject`, `DecodeGCSObjectToBQJobReq`) is library behaviour. Decoded records, or a decode failure, are inputs.
- HTTP wiring, header logging and every `log.*` call are left out. They have no effect on results. Errors the closures only log leave no trace in the model.
- The OAuth/urlfetch client, `bigquery.New`, `Jobs.Insert` and `appengine.AppID` are foreign cloud calls. They appear only as outcome or value parameters.
- The datastore `__kind__` query and goon's `Kind` are external lookups. They are an input sequence and a function parameter.
- `IsImportTarget`, `ReceiveOCN` and `insertImportJob` are not part of this model. Their bucket and path conventions and their enqueue format are unknown here, so they are uninterpreted parameters or recorded calls.
- The `time.Time` fields are opaque (`Instant`). The modelled logic only logs them.
- Concurrency is out of scope: the unsynchronised `ProcessedWithContext` flag under concurrent requests is not a sequential concern.
- Handlers.ReceiveOCNHandleAllKinds: `allKinds` is used through its specification `UserKinds`, which `Handlers.AllKinds` is proved to compute. The loop itself is not called from the function.
- Go's nil slices and empty slices are both the empty sequence. The code only ever tests their length.
- Options.NewGCSWatcherService: a nil option in the list panics at gcs_watcher_service.go:166. Options are datatype values here, so no option is nil and the panic is not modelled.
- Deferred.RunDeferred: a deferred function that returns a nil option with a nil error panics when that option is applied (gcs_watcher_service.go:205). Here a deferred function yields an option or an error, never neither, so the panic is not modelled.
- Handlers.ReceiveOCNHandle: a JSON `null` body decodes to a nil notification with a nil error. The closure then calls `IsImportTarget` on nil (gcs_watcher_handler.go:51). A decoded body is a `Result` here and cannot be nil, so this path is not modelled.
- Handlers.ReceiveOCNHandleAllKinds: the same nil notification from a `null` body reaches `IsImportTarget` at gcs_watcher_handler.go:80. This path is not modelled.
- Handlers.ImportBigQueryHandle: a `null` body decodes to a nil request that is passed to `insertImportJob` (gcs_watcher_handler.go:124). This path is not modelled.
- Watcher.HandleOCN: `IsImportTarget` is not part of this model. It gets the notification, the HTTP request, the bucket name and the kind names, and its answer is treated as an arbitrary function of those four arguments.

## Findings

| source | as written | input that shows it | evidently intended | confidence | as-written member | corrected member |
|---|---|---|---|---|---|---|
| gcs_watcher_service.go:199 | `if s.ProcessedWithContext` runs the deferred functions only when the flag is already true. Nothing else sets the flag, so they never run. | A service built with `GCSWatcherWithAfterContext(f)` plus kind names and a dataset ID: no request ever calls `f`. | `if !s.ProcessedWithContext`: run the deferred functions once, on the first request. | high; not executed | Deferred.DeferredFunctionsNeverRun | Deferred.ProcessWithContextOnce |

The entry points `Watcher.HandleOCN` and `Watcher.HandleBackupToBQJob` model
the code as it stands, so they call `Deferred.ProcessWithContext`. The
corrected step is defined beside it, and its exactly-once behaviour is proved
in `Deferred.ProcessWithContextOnce` and `Deferred.ProcessOnceIdempotent`.
