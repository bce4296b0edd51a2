/** The watcher service record, the options that configure it and the
    option-list constructor (gcs_watcher_service.go, lines 18-177).

    Each Go option type has one `implements` method that overwrites one or
    two fields of the service record, or appends to its list of deferred
    functions. Here an option is a constructor of `WatcherOption`,
    `implements` is the pure update `Implements`, and the constructor's loop
    is the left fold `ApplyAll`. `Resolved` is an independent description of
    the fold's result, field by field: "the last option that sets a field
    wins". */
module Options {
  import opened Wrappers

  /** A kind descriptor handed to the target-kinds option: any Go value
      (`interface{}`) whose kind name goon can compute. Opaque here. */
  type KindDescriptor(==)

  /** A function registered with the after-context option, of Go type
      `func(context.Context) (GCSWatcherOption, error)`. Opaque here; where
      one is run, an evaluator is passed in as a parameter. */
  type ContextFunc(==)

  /** The errors the modelled code returns: the package's invalid-state
      error from construction, or an error coming back from a collaborator
      (a deferred function, the BigQuery client, the task queue). */
  datatype Error = ErrInvalidState | External(message: string)

  const DefaultOCNReceiveURL: string := "/api/gcs/object-change-notification"
  const DefaultGCSObjectToBQJobURL: string := "/tq/gcs/object-to-bq"

  /** The Go struct `gcsWatcherService`. */
  datatype Service = Service(
    queueName: string,
    backupBucketName: string,
    importTargetKinds: seq<KindDescriptor>,
    importTargetKindNames: seq<string>,
    datasetID: string,
    withContextFuncs: seq<ContextFunc>,
    processedWithContext: bool,
    ocnReceiveURL: string,
    gcsObjectToBQJobURL: string)

  /** The record `NewGCSWatcherService` starts from: the two URLs have their
      defaults, every other field is Go's zero value. */
  const Default: Service :=
    Service("", "", [], [], "", [], false, DefaultOCNReceiveURL, DefaultGCSObjectToBQJobURL)

  /** One `GCSWatcherOption` per constructor, named after the Go function
      that builds it (`GCSWatcherWithURLs`, `GCSWatcherWithQueueName`, ...). */
  datatype WatcherOption =
    | WithURLs(apiURL: string, tqURL: string)
    | WithQueueName(queueName: string)
    | WithBackupBucketName(bucketName: string)
    | WithTargetKinds(targets: seq<KindDescriptor>)
    | WithTargetKindNames(names: seq<string>)
    | WithDatasetID(id: string)
    | WithAfterContext(f: ContextFunc)

  /** `v`'s value when there is one, otherwise `d`. */
  function Override<T>(v: Option<T>, d: T): T {
    match v
    case Some(x) => x
    case None => d
  }

  // What an option sets each overwritable field to, if it sets it at all.
  // The URL option sets a URL only when its argument is non-empty.

  function OCNURLSet(o: WatcherOption): Option<string> {
    if o.WithURLs? && o.apiURL != "" then Some(o.apiURL) else None
  }

  function JobURLSet(o: WatcherOption): Option<string> {
    if o.WithURLs? && o.tqURL != "" then Some(o.tqURL) else None
  }

  function QueueNameSet(o: WatcherOption): Option<string> {
    if o.WithQueueName? then Some(o.queueName) else None
  }

  function BucketNameSet(o: WatcherOption): Option<string> {
    if o.WithBackupBucketName? then Some(o.bucketName) else None
  }

  function TargetKindsSet(o: WatcherOption): Option<seq<KindDescriptor>> {
    if o.WithTargetKinds? then Some(o.targets) else None
  }

  function TargetKindNamesSet(o: WatcherOption): Option<seq<string>> {
    if o.WithTargetKindNames? then Some(o.names) else None
  }

  function DatasetIDSet(o: WatcherOption): Option<string> {
    if o.WithDatasetID? then Some(o.id) else None
  }

  /** The deferred functions an option registers: one for the after-context
      option, none for the others. */
  function ContextFuncsOf(o: WatcherOption): seq<ContextFunc> {
    if o.WithAfterContext? then [o.f] else []
  }

  /** The `implements` method of each option type: the option overwrites
      the fields it sets, appends the function it registers to the end of
      `withContextFuncs`, and leaves everything else, the
      `processedWithContext` flag included, as it was. */
  function Implements(o: WatcherOption, s: Service): (r: Service)
    ensures r.queueName == Override(QueueNameSet(o), s.queueName)
    ensures r.backupBucketName == Override(BucketNameSet(o), s.backupBucketName)
    ensures r.importTargetKinds == Override(TargetKindsSet(o), s.importTargetKinds)
    ensures r.importTargetKindNames == Override(TargetKindNamesSet(o), s.importTargetKindNames)
    ensures r.datasetID == Override(DatasetIDSet(o), s.datasetID)
    ensures r.withContextFuncs == s.withContextFuncs + ContextFuncsOf(o)
    ensures r.processedWithContext == s.processedWithContext
    ensures r.ocnReceiveURL == Override(OCNURLSet(o), s.ocnReceiveURL)
    ensures r.gcsObjectToBQJobURL == Override(JobURLSet(o), s.gcsObjectToBQJobURL)
  {
    match o
    case WithURLs(apiURL, tqURL) =>
      var s1 := if apiURL != "" then s.(ocnReceiveURL := apiURL) else s;
      if tqURL != "" then s1.(gcsObjectToBQJobURL := tqURL) else s1
    case WithQueueName(q) => s.(queueName := q)
    case WithBackupBucketName(b) => s.(backupBucketName := b)
    case WithTargetKinds(ts) => s.(importTargetKinds := ts)
    case WithTargetKindNames(ns) => s.(importTargetKindNames := ns)
    case WithDatasetID(id) => s.(datasetID := id)
    case WithAfterContext(f) => s.(withContextFuncs := s.withContextFuncs + [f])
  }

  /** The constructor's loop: apply the options to `s` left to right. */
  function ApplyAll(s: Service, opts: seq<WatcherOption>): Service
    decreases |opts|
  {
    if |opts| == 0 then s else ApplyAll(Implements(opts[0], s), opts[1..])
  }

  /** The value given by the LAST option in `opts` that sets the field
      `pick` describes, or `d` when no option sets it. */
  function LastSet<T>(opts: seq<WatcherOption>, pick: WatcherOption -> Option<T>, d: T): T
    decreases |opts|
  {
    if |opts| == 0 then d
    else match pick(opts[|opts| - 1])
      case Some(v) => v
      case None => LastSet(opts[..|opts| - 1], pick, d)
  }

  /** Every deferred function registered by `opts`, in registration order. */
  function ContextFuncs(opts: seq<WatcherOption>): seq<ContextFunc>
    decreases |opts|
  {
    if |opts| == 0 then []
    else ContextFuncs(opts[..|opts| - 1]) + ContextFuncsOf(opts[|opts| - 1])
  }

  /** The record `s` becomes under `opts`, described field by field: the
      last option for a field wins, deferred functions accumulate in order,
      and the flag is untouched. */
  function Resolved(s: Service, opts: seq<WatcherOption>): Service {
    Service(
      LastSet(opts, QueueNameSet, s.queueName),
      LastSet(opts, BucketNameSet, s.backupBucketName),
      LastSet(opts, TargetKindsSet, s.importTargetKinds),
      LastSet(opts, TargetKindNamesSet, s.importTargetKindNames),
      LastSet(opts, DatasetIDSet, s.datasetID),
      s.withContextFuncs + ContextFuncs(opts),
      s.processedWithContext,
      LastSet(opts, OCNURLSet, s.ocnReceiveURL),
      LastSet(opts, JobURLSet, s.gcsObjectToBQJobURL))
  }

  /** Applying one more option after a list is applying it to the list's result. */
  lemma {:induction false} ApplyAllSnoc(s: Service, opts: seq<WatcherOption>, o: WatcherOption)
    ensures ApplyAll(s, opts + [o]) == Implements(o, ApplyAll(s, opts))
    decreases |opts|
  {
    if |opts| == 0 {
      assert opts + [o] == [o];
    } else {
      assert (opts + [o])[1..] == opts[1..] + [o];
      ApplyAllSnoc(Implements(opts[0], s), opts[1..], o);
    }
  }

  /** The constructor's fold computes `Resolved`: options apply left to
      right, the last one for a field wins, and after-context functions are
      appended in registration order. */
  lemma {:induction false} ApplyAllResolves(s: Service, opts: seq<WatcherOption>)
    ensures ApplyAll(s, opts) == Resolved(s, opts)
    decreases |opts|
  {
    if |opts| == 0 {
      assert s.withContextFuncs + [] == s.withContextFuncs;
    } else {
      var init, o := opts[..|opts| - 1], opts[|opts| - 1];
      assert opts == init + [o];
      ApplyAllSnoc(s, init, o);
      ApplyAllResolves(s, init);
      assert s.withContextFuncs + ContextFuncs(opts)
          == (s.withContextFuncs + ContextFuncs(init)) + ContextFuncsOf(o);
    }
  }

  /** Applying two lists in turn is applying their concatenation. */
  lemma {:induction false} ApplyAllConcat(s: Service, a: seq<WatcherOption>, b: seq<WatcherOption>)
    ensures ApplyAll(s, a + b) == ApplyAll(ApplyAll(s, a), b)
    decreases |a|
  {
    if |a| == 0 {
      assert a + b == b;
    } else {
      assert (a + b)[1..] == a[1..] + b;
      ApplyAllConcat(Implements(a[0], s), a[1..], b);
    }
  }

  /** A field that no option in `opts` sets keeps its starting value. */
  lemma {:induction false} LastSetUnset<T>(opts: seq<WatcherOption>, pick: WatcherOption -> Option<T>, d: T)
    requires forall i :: 0 <= i < |opts| ==> pick(opts[i]).None?
    ensures LastSet(opts, pick, d) == d
    decreases |opts|
  {
    if |opts| > 0 {
      LastSetUnset(opts[..|opts| - 1], pick, d);
    }
  }

  /** Last write wins: once an option sets a field, options after it that
      do not set that field leave its value alone. */
  lemma {:induction false} LastSetWins<T>(a: seq<WatcherOption>, o: WatcherOption, b: seq<WatcherOption>,
                                          pick: WatcherOption -> Option<T>, d: T)
    requires pick(o).Some?
    requires forall i :: 0 <= i < |b| ==> pick(b[i]).None?
    ensures LastSet(a + [o] + b, pick, d) == pick(o).value
    decreases |b|
  {
    var all := a + [o] + b;
    if |b| == 0 {
      assert all[..|all| - 1] == a;
    } else {
      assert all[..|all| - 1] == a + [o] + b[..|b| - 1];
      LastSetWins(a, o, b[..|b| - 1], pick, d);
    }
  }

  /** A later queue-name option overwrites every earlier one. The other
      overwritable fields behave the same way, by `ApplyAllResolves` and
      `LastSetWins`. */
  lemma LaterQueueNameWins(s: Service, a: seq<WatcherOption>, q: string, b: seq<WatcherOption>)
    requires forall i :: 0 <= i < |b| ==> !b[i].WithQueueName?
    ensures ApplyAll(s, a + [WithQueueName(q)] + b).queueName == q
  {
    ApplyAllResolves(s, a + [WithQueueName(q)] + b);
    assert forall i :: 0 <= i < |b| ==> QueueNameSet(b[i]).None?;
    LastSetWins(a, WithQueueName(q), b, QueueNameSet, s.queueName);
  }

  /** The URL option with an empty argument leaves that URL as it was and
      with a non-empty one sets it; both URLs are independent. */
  lemma URLOptionSkipsEmpty(s: Service, opts: seq<WatcherOption>, apiURL: string, tqURL: string)
    ensures var before, after := ApplyAll(s, opts), ApplyAll(s, opts + [WithURLs(apiURL, tqURL)]);
      && after.ocnReceiveURL == (if apiURL == "" then before.ocnReceiveURL else apiURL)
      && after.gcsObjectToBQJobURL == (if tqURL == "" then before.gcsObjectToBQJobURL else tqURL)
      && after == before.(ocnReceiveURL := after.ocnReceiveURL,
                          gcsObjectToBQJobURL := after.gcsObjectToBQJobURL)
  {
    ApplyAllSnoc(s, opts, WithURLs(apiURL, tqURL));
  }

  /** An after-context option appends its function to the end of the list
      and changes nothing else. */
  lemma AfterContextAppends(s: Service, opts: seq<WatcherOption>, f: ContextFunc)
    ensures var before := ApplyAll(s, opts);
      ApplyAll(s, opts + [WithAfterContext(f)])
        == before.(withContextFuncs := before.withContextFuncs + [f])
  {
    ApplyAllSnoc(s, opts, WithAfterContext(f));
  }

  /** `NewGCSWatcherService`: apply the options to the default record, then
      fail with `ErrInvalidState` when no target kinds and no target kind
      names are set, or when the dataset ID is empty. */
  function NewGCSWatcherService(opts: seq<WatcherOption>): (r: Result<Service, Error>)
    ensures r.Failure? <==>
      || (LastSet(opts, TargetKindsSet, []) == [] && LastSet(opts, TargetKindNamesSet, []) == [])
      || LastSet(opts, DatasetIDSet, "") == ""
    ensures r.Failure? ==> r.error == ErrInvalidState
    ensures r.Success? ==> r.value == Resolved(Default, opts)
  {
    var s := ApplyAll(Default, opts);
    ApplyAllResolves(Default, opts);
    if |s.importTargetKinds| == 0 && |s.importTargetKindNames| == 0 then
      Failure(ErrInvalidState)
    else if s.datasetID == "" then
      Failure(ErrInvalidState)
    else
      Success(s)
  }

  /** A successfully constructed service has the default URLs unless a URL
      option gave a non-empty replacement, an empty queue and bucket name
      unless set, the deferred functions in registration order, and the
      deferred-step flag down. */
  lemma ConstructionDefaults(opts: seq<WatcherOption>)
    requires NewGCSWatcherService(opts).Success?
    ensures var s := NewGCSWatcherService(opts).value;
      && ((forall i :: 0 <= i < |opts| ==> OCNURLSet(opts[i]).None?) ==> s.ocnReceiveURL == DefaultOCNReceiveURL)
      && ((forall i :: 0 <= i < |opts| ==> JobURLSet(opts[i]).None?) ==> s.gcsObjectToBQJobURL == DefaultGCSObjectToBQJobURL)
      && ((forall i :: 0 <= i < |opts| ==> !opts[i].WithQueueName?) ==> s.queueName == "")
      && ((forall i :: 0 <= i < |opts| ==> !opts[i].WithBackupBucketName?) ==> s.backupBucketName == "")
      && s.withContextFuncs == ContextFuncs(opts)
      && !s.processedWithContext
      && (|s.importTargetKinds| > 0 || |s.importTargetKindNames| > 0)
      && s.datasetID != ""
  {
    if forall i :: 0 <= i < |opts| ==> OCNURLSet(opts[i]).None? {
      LastSetUnset(opts, OCNURLSet, DefaultOCNReceiveURL);
    }
    if forall i :: 0 <= i < |opts| ==> JobURLSet(opts[i]).None? {
      LastSetUnset(opts, JobURLSet, DefaultGCSObjectToBQJobURL);
    }
    if forall i :: 0 <= i < |opts| ==> !opts[i].WithQueueName? {
      assert forall i :: 0 <= i < |opts| ==> QueueNameSet(opts[i]).None?;
      LastSetUnset(opts, QueueNameSet, "");
    }
    if forall i :: 0 <= i < |opts| ==> !opts[i].WithBackupBucketName? {
      assert forall i :: 0 <= i < |opts| ==> BucketNameSet(opts[i]).None?;
      LastSetUnset(opts, BucketNameSet, "");
    }
  }
}
