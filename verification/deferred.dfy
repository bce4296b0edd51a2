/** The two per-request preparation steps of the watcher service
    (gcs_watcher_service.go, lines 198-222): the deferred-option step
    `processWithContext` and the kind-name conversion `convertKind`.

    Both are pointer-receiver methods in Go that update the shared service
    record in place; here each returns the updated record. A deferred
    function is run by the parameter `run`, which stands for calling it with
    the request's context. */
module Deferred {
  import opened Wrappers
  import opened Options

  /** What a deferred step leaves behind: the updated record, the error it
      returns (None for Go's nil), and the deferred functions it called, in
      call order. */
  datatype Processed = Processed(service: Service, err: Option<Error>, ran: seq<ContextFunc>)

  /** The options produced by deferred functions that all succeed. */
  function Produced(fs: seq<ContextFunc>, run: ContextFunc -> Result<WatcherOption, Error>): (opts: seq<WatcherOption>)
    requires forall i :: 0 <= i < |fs| ==> run(fs[i]).Success?
    ensures |opts| == |fs|
    ensures forall i :: 0 <= i < |fs| ==> opts[i] == run(fs[i]).value
    decreases |fs|
  {
    if |fs| == 0 then [] else [run(fs[0]).value] + Produced(fs[1..], run)
  }

  /** The loop over the deferred functions: call each in turn and apply the
      option it produces; stop at the first error. The record keeps the
      options applied before the error, as Go's in-place update does. */
  function RunDeferred(s: Service, fs: seq<ContextFunc>, run: ContextFunc -> Result<WatcherOption, Error>): (r: Processed)
    ensures r.ran <= fs
    ensures r.err.None? ==> r.ran == fs
    ensures r.err.Some? ==> |r.ran| > 0 && run(r.ran[|r.ran| - 1]) == Failure(r.err.value)
    ensures forall i :: 0 <= i < |r.ran| - 1 ==> run(r.ran[i]).Success?
    ensures r.err.None? ==> forall i :: 0 <= i < |fs| ==> run(fs[i]).Success?
    ensures r.service.processedWithContext == s.processedWithContext
    decreases |fs|
  {
    if |fs| == 0 then
      Processed(s, None, [])
    else
      match run(fs[0])
      case Failure(e) => Processed(s, Some(e), [fs[0]])
      case Success(o) =>
        var rest := RunDeferred(Implements(o, s), fs[1..], run);
        Processed(rest.service, rest.err, [fs[0]] + rest.ran)
  }

  /** The number of deferred functions that ran and succeeded. */
  function Succeeded(p: Processed): nat {
    if p.err.Some? && |p.ran| > 0 then |p.ran| - 1 else |p.ran|
  }

  /** The record the loop leaves is the starting record with the options
      of the functions that succeeded applied in order, whether or not a
      later one failed. */
  lemma {:induction false} RunDeferredApplies(s: Service, fs: seq<ContextFunc>, run: ContextFunc -> Result<WatcherOption, Error>)
    ensures var r := RunDeferred(s, fs, run);
      && Succeeded(r) <= |fs|
      && (forall i :: 0 <= i < Succeeded(r) ==> run(fs[i]).Success?)
      && r.service == ApplyAll(s, Produced(fs[..Succeeded(r)], run))
    decreases |fs|
  {
    var r := RunDeferred(s, fs, run);
    if |fs| == 0 {
    } else if run(fs[0]).Failure? {
      assert fs[..0] == [];
    } else {
      var o := run(fs[0]).value;
      var rest := RunDeferred(Implements(o, s), fs[1..], run);
      RunDeferredApplies(Implements(o, s), fs[1..], run);
      var k := Succeeded(rest);
      assert Succeeded(r) == k + 1;
      assert fs[..k + 1] == [fs[0]] + fs[1..][..k];
      var ps := Produced(fs[1..][..k], run);
      assert Produced(fs[..k + 1], run) == [o] + ps;
      assert ([o] + ps)[1..] == ps;
    }
  }

  /** `processWithContext` AS WRITTEN. Its guard tests the flag itself, not
      its negation: the deferred functions run only when the flag is
      already up, yet nothing outside this branch ever raises it. On a
      record whose flag is down (every record the constructor returns) the
      step is a no-op that returns nil. */
  function ProcessWithContext(s: Service, run: ContextFunc -> Result<WatcherOption, Error>): (r: Processed)
    ensures !s.processedWithContext ==> r == Processed(s, None, [])
    ensures r.service.processedWithContext == s.processedWithContext
    ensures r.ran <= s.withContextFuncs
    ensures r.err.Some? ==> |r.ran| > 0 && run(r.ran[|r.ran| - 1]) == Failure(r.err.value)
    ensures s.processedWithContext && r.err.None? ==> r.ran == s.withContextFuncs
  {
    if s.processedWithContext then
      // The range expression is evaluated once: options that a deferred
      // function appends are not visited by this loop.
      var p := RunDeferred(s, s.withContextFuncs, run);
      if p.err.Some? then p
      else Processed(p.service.(processedWithContext := true), None, p.ran)
    else
      Processed(s, None, [])
  }

  /** The deferred-option step with the guard negated, as the step's
      purpose and the flag's name intend: on the first call the deferred
      functions run once each, in registration order, and the flag goes up;
      every later call is a no-op. A failing function aborts the step and
      leaves the flag down. */
  function ProcessWithContextOnce(s: Service, run: ContextFunc -> Result<WatcherOption, Error>): (r: Processed)
    ensures s.processedWithContext ==> r == Processed(s, None, [])
    ensures !s.processedWithContext && r.err.None? ==>
      forall i :: 0 <= i < |s.withContextFuncs| ==> run(s.withContextFuncs[i]).Success?
    ensures !s.processedWithContext && r.err.None? ==>
      && r.ran == s.withContextFuncs
      && r.service == ApplyAll(s, Produced(s.withContextFuncs, run)).(processedWithContext := true)
    ensures r.ran <= s.withContextFuncs
    ensures r.err.Some? ==> |r.ran| > 0 && run(r.ran[|r.ran| - 1]) == Failure(r.err.value)
    ensures r.service.processedWithContext <==> s.processedWithContext || r.err.None?
  {
    if !s.processedWithContext then
      var p := RunDeferred(s, s.withContextFuncs, run);
      RunDeferredApplies(s, s.withContextFuncs, run);
      assert s.withContextFuncs[..|s.withContextFuncs|] == s.withContextFuncs;
      if p.err.Some? then p
      else Processed(p.service.(processedWithContext := true), None, p.ran)
    else
      Processed(s, None, [])
  }

  /** Once the corrected step has succeeded, running it again calls nothing
      and changes nothing. */
  lemma ProcessOnceIdempotent(s: Service, run: ContextFunc -> Result<WatcherOption, Error>)
    requires ProcessWithContextOnce(s, run).err.None?
    ensures var first := ProcessWithContextOnce(s, run);
      ProcessWithContextOnce(first.service, run) == Processed(first.service, None, [])
  {
  }

  /** The discrepancy between the step as written and as intended: on any
      constructed service with at least one after-context option, the
      as-written step calls none of the registered functions, while the
      corrected step calls at least the first. */
  lemma DeferredFunctionsNeverRun(opts: seq<WatcherOption>, run: ContextFunc -> Result<WatcherOption, Error>)
    requires NewGCSWatcherService(opts).Success?
    requires ContextFuncs(opts) != []
    ensures var s := NewGCSWatcherService(opts).value;
      && ProcessWithContext(s, run) == Processed(s, None, [])
      && ProcessWithContextOnce(s, run).ran != []
  {
  }

  /** Appends the goon kind name of each descriptor to `names`, in order. */
  function AppendKindNames(names: seq<string>, kinds: seq<KindDescriptor>, kindOf: KindDescriptor -> string): (r: seq<string>)
    ensures |r| == |names| + |kinds|
    ensures r[..|names|] == names
    ensures forall i :: 0 <= i < |kinds| ==> r[|names| + i] == kindOf(kinds[i])
    decreases |kinds|
  {
    if |kinds| == 0 then names
    else
      var r := AppendKindNames(names + [kindOf(kinds[0])], kinds[1..], kindOf);
      assert r[..|names|] == r[..|names| + 1][..|names|];
      r
  }

  /** `convertKind`: when no kind names are set but kind descriptors are,
      the names become the descriptors' kind names, in order; otherwise the
      record is left as it is. No other field changes. `kindOf` stands for
      goon's `Kind`. */
  function ConvertKind(s: Service, kindOf: KindDescriptor -> string): (r: Service)
    ensures |s.importTargetKindNames| > 0 || |s.importTargetKinds| == 0 ==> r == s
    ensures |s.importTargetKindNames| == 0 && |s.importTargetKinds| > 0 ==>
      && |r.importTargetKindNames| == |s.importTargetKinds|
      && forall i :: 0 <= i < |s.importTargetKinds| ==>
           r.importTargetKindNames[i] == kindOf(s.importTargetKinds[i])
    ensures r == s.(importTargetKindNames := r.importTargetKindNames)
  {
    if |s.importTargetKindNames| > 0 || |s.importTargetKinds| == 0 then s
    else s.(importTargetKindNames := AppendKindNames(s.importTargetKindNames, s.importTargetKinds, kindOf))
  }

  /** Converting twice is converting once. */
  lemma ConvertKindIdempotent(s: Service, kindOf: KindDescriptor -> string)
    ensures ConvertKind(ConvertKind(s, kindOf), kindOf) == ConvertKind(s, kindOf)
  {
  }

  /** Every constructed service has kind names once they are converted:
      construction demands descriptors or names, and conversion turns the
      former into the latter. */
  lemma ConvertedServiceHasNames(opts: seq<WatcherOption>, kindOf: KindDescriptor -> string)
    requires NewGCSWatcherService(opts).Success?
    ensures |ConvertKind(NewGCSWatcherService(opts).value, kindOf).importTargetKindNames| > 0
  {
  }
}
