/** The standalone HTTP handler closures and the user-kind listing
    (gcs_watcher_handler.go, lines 37-130).

    A closure is modelled by the calls it makes to its collaborators and
    by how it exits. The decoded body is an input (`Failure` for a decode
    error); the `__kind__` query's outcome, `IsImportTarget` and the logged
    collaborator errors are parameters or left out. */
module Handlers {
  import opened Wrappers
  import opened Options
  import opened LoadJob
  import opened Deferred
  import opened Watcher

  /** A kind the `__kind__` query reports that the listing skips: its name
      starts with `_` (datastore's internal kinds). */
  predicate IsInternalKind(name: string) {
    |name| > 0 && name[0] == '_'
  }

  /** The names kept from a `__kind__` query result. */
  function UserKinds(names: seq<string>): (r: seq<string>)
    ensures |r| <= |names|
    ensures |r| == CountUserKinds(names)
    ensures forall i :: 0 <= i < |r| ==> !IsInternalKind(r[i])
    ensures forall n :: n in r <==> n in names && !IsInternalKind(n)
    decreases |names|
  {
    if |names| == 0 then []
    else
      var init, last := names[..|names| - 1], names[|names| - 1];
      assert names == init + [last];
      CountSnoc(init, last);
      if IsInternalKind(last) then UserKinds(init) else UserKinds(init) + [last]
  }

  /** `r` is the subsequence of `s` picked by the strictly increasing
      positions `idx`. */
  ghost predicate PickedAt(r: seq<string>, s: seq<string>, idx: seq<nat>) {
    && |idx| == |r|
    && (forall k :: 0 <= k < |idx| ==> idx[k] < |s| && s[idx[k]] == r[k])
    && (forall k, l :: 0 <= k < l < |idx| ==> idx[k] < idx[l])
  }

  /** The positions in `names` of the names `UserKinds` keeps. */
  function UserKindPositions(names: seq<string>): seq<nat>
    decreases |names|
  {
    if |names| == 0 then []
    else if IsInternalKind(names[|names| - 1]) then UserKindPositions(names[..|names| - 1])
    else UserKindPositions(names[..|names| - 1]) + [|names| - 1]
  }

  /** The listing keeps the query's order and every occurrence of a user
      kind: its result is picked from the query result at strictly
      increasing positions, and those positions are exactly the positions
      of the names not starting with `_`, so a repeated name is kept as
      often as it occurs. */
  lemma {:induction false} UserKindsKeepOrder(names: seq<string>)
    ensures PickedAt(UserKinds(names), names, UserKindPositions(names))
    ensures forall k :: k in UserKindPositions(names) <==> 0 <= k < |names| && !IsInternalKind(names[k])
  {
    UserKindsPicked(names);
    UserKindPositionsExact(names);
  }

  /** The listing is picked from the query result at strictly increasing
      positions. */
  lemma {:induction false} UserKindsPicked(names: seq<string>)
    ensures PickedAt(UserKinds(names), names, UserKindPositions(names))
    decreases |names|
  {
    if |names| > 0 {
      var init := names[..|names| - 1];
      UserKindsPicked(init);
      var r0, idx0 := UserKinds(init), UserKindPositions(init);
      assert forall k :: 0 <= k < |idx0| ==> idx0[k] < |init| && names[idx0[k]] == init[idx0[k]];
    }
  }

  /** The kept positions are exactly the positions of user kinds. */
  lemma {:induction false} UserKindPositionsExact(names: seq<string>)
    ensures forall k :: k in UserKindPositions(names) <==> 0 <= k < |names| && !IsInternalKind(names[k])
    decreases |names|
  {
    if |names| > 0 {
      var init := names[..|names| - 1];
      UserKindPositionsExact(init);
      assert forall k :: 0 <= k < |init| ==> names[k] == init[k];
    }
  }

  /** The number of names in `names` that do not start with `_`,
      counted front to back, each occurrence separately. */
  function CountUserKinds(names: seq<string>): nat
    decreases |names|
  {
    if |names| == 0 then 0
    else (if IsInternalKind(names[0]) then 0 else 1) + CountUserKinds(names[1..])
  }

  /** Counting a name appended at the end. */
  lemma {:induction false} CountSnoc(names: seq<string>, n: string)
    ensures CountUserKinds(names + [n]) == CountUserKinds(names) + (if IsInternalKind(n) then 0 else 1)
    decreases |names|
  {
    if |names| == 0 {
      assert names + [n] == [n];
      assert [n][1..] == [];
    } else {
      assert (names + [n])[1..] == names[1..] + [n];
      CountSnoc(names[1..], n);
    }
  }

  /** `allKinds`: a failed query returns its error and no names; otherwise
      every name that does not start with `_` (the empty name included),
      in query order. */
  method AllKinds(query: Result<seq<string>, Error>) returns (r: Result<seq<string>, Error>)
    ensures query.Failure? ==> r == Failure(query.error)
    ensures query.Success? ==> r == Success(UserKinds(query.value))
    ensures r.Success? ==> forall i :: 0 <= i < |r.value| ==> !IsInternalKind(r.value[i])
    ensures r.Success? ==> forall n :: n in query.value && !IsInternalKind(n) ==> n in r.value
  {
    if query.Failure? {
      return Failure(query.error);
    }
    var names := query.value;
    var kinds: seq<string> := [];
    var i := 0;
    while i < |names|
      invariant 0 <= i <= |names|
      invariant kinds == UserKinds(names[..i])
    {
      assert names[..i + 1][..i] == names[..i];
      var n := names[i];
      if !IsInternalKind(n) {
        kinds := kinds + [n];
      }
      i := i + 1;
    }
    assert names[..|names|] == names;
    return Success(kinds);
  }

  /** A collaborator call a handler closure makes. */
  datatype Call =
    | IsImportTargetCall(obj: GCSObject, req: Request, bucketName: string, kindNames: seq<string>)
    | ReceiveOCNCall(obj: GCSObject, queueName: string, path: string)
    | KindQueryCall
    | InsertImportJobCall(job: LoadJobRequest, datasetID: string)

  /** How a closure ends: it returns (every error it meets is only
      logged), or it panics. */
  datatype Exit = Returned | Panicked(err: Error)

  datatype HandlerRun = HandlerRun(calls: seq<Call>, exit: Exit)

  /** The closure of `ReceiveOCNHandleFunc`: decode, check the
      notification against the configured bucket and kinds, and on a match
      call `ReceiveOCN`. */
  function ReceiveOCNHandle(
    bucketName: string, queueName: string, path: string, kindNames: seq<string>,
    req: Request, body: Result<GCSObject, Error>,
    isImportTarget: (GCSObject, Request, string, seq<string>) -> bool): (h: HandlerRun)
    ensures h.exit == Returned
    ensures body.Failure? ==> h.calls == []
    ensures body.Success? ==> |h.calls| > 0 && h.calls[0] == IsImportTargetCall(body.value, req, bucketName, kindNames)
    ensures (exists c :: c in h.calls && c.ReceiveOCNCall?) <==>
      body.Success? && isImportTarget(body.value, req, bucketName, kindNames)
    ensures forall c :: c in h.calls && c.ReceiveOCNCall? ==>
      c == ReceiveOCNCall(body.value, queueName, path)
    ensures body.Success? ==>
      h.calls[1..] == (if isImportTarget(body.value, req, bucketName, kindNames)
                       then [ReceiveOCNCall(body.value, queueName, path)] else [])
  {
    match body
    case Failure(_) => HandlerRun([], Returned)
    case Success(obj) =>
      var check := IsImportTargetCall(obj, req, bucketName, kindNames);
      if !isImportTarget(obj, req, bucketName, kindNames) then HandlerRun([check], Returned)
      else
        var receive := ReceiveOCNCall(obj, queueName, path);
        assert receive in [check, receive];
        HandlerRun([check, receive], Returned)
  }

  /** The closure of `ReceiveOCNHandleAllKindsFunc`: decode, list the user
      kinds (panicking when the `__kind__` query fails), then as above with
      those kinds. */
  function ReceiveOCNHandleAllKinds(
    bucketName: string, queueName: string, path: string,
    req: Request, body: Result<GCSObject, Error>,
    kindQuery: Result<seq<string>, Error>,
    isImportTarget: (GCSObject, Request, string, seq<string>) -> bool): (h: HandlerRun)
    ensures body.Failure? ==> h == HandlerRun([], Returned)
    ensures body.Success? ==> |h.calls| > 0 && h.calls[0] == KindQueryCall
    ensures h.exit.Panicked? <==> body.Success? && kindQuery.Failure?
    ensures h.exit.Panicked? ==> h.calls == [KindQueryCall] && h.exit.err == kindQuery.error
    ensures body.Success? && kindQuery.Success? ==>
      && |h.calls| > 1
      && h.calls[1] == IsImportTargetCall(body.value, req, bucketName, UserKinds(kindQuery.value))
    ensures (exists c :: c in h.calls && c.ReceiveOCNCall?) <==>
      body.Success? && kindQuery.Success? && isImportTarget(body.value, req, bucketName, UserKinds(kindQuery.value))
    ensures forall c :: c in h.calls && c.ReceiveOCNCall? ==>
      c == ReceiveOCNCall(body.value, queueName, path)
    ensures body.Success? && kindQuery.Success? ==>
      h.calls[2..] == (if isImportTarget(body.value, req, bucketName, UserKinds(kindQuery.value))
                       then [ReceiveOCNCall(body.value, queueName, path)] else [])
  {
    match body
    case Failure(_) => HandlerRun([], Returned)
    case Success(obj) =>
      match kindQuery
      case Failure(e) => HandlerRun([KindQueryCall], Panicked(e))
      case Success(names) =>
        var kinds := UserKinds(names);
        var check := IsImportTargetCall(obj, req, bucketName, kinds);
        if !isImportTarget(obj, req, bucketName, kinds) then HandlerRun([KindQueryCall, check], Returned)
        else
          var receive := ReceiveOCNCall(obj, queueName, path);
          assert receive in [KindQueryCall, check, receive];
          HandlerRun([KindQueryCall, check, receive], Returned)
  }

  /** The closure of `ImportBigQueryHandleFunc`: decode, then hand the
      request to `insertImportJob`. */
  function ImportBigQueryHandle(datasetID: string, body: Result<LoadJobRequest, Error>): (h: HandlerRun)
    ensures h.exit == Returned
    ensures body.Failure? ==> h.calls == []
    ensures body.Success? ==> h.calls == [InsertImportJobCall(body.value, datasetID)]
  {
    match body
    case Failure(_) => HandlerRun([], Returned)
    case Success(req) => HandlerRun([InsertImportJobCall(req, datasetID)], Returned)
  }

  /** The kinds the all-kinds closure checks a notification against are
      exactly the user kinds `AllKinds` lists, and none is internal. */
  lemma AllKindsHandlerChecksUserKinds(
    bucketName: string, queueName: string, path: string,
    req: Request, obj: GCSObject, names: seq<string>,
    isImportTarget: (GCSObject, Request, string, seq<string>) -> bool)
    ensures var h := ReceiveOCNHandleAllKinds(bucketName, queueName, path, req, Success(obj), Success(names), isImportTarget);
      && h.calls[1].IsImportTargetCall?
      && (forall n :: n in h.calls[1].kindNames <==> n in names && !IsInternalKind(n))
      && h.exit == Returned
  {
  }

  /** The standalone closure, given the converted record's bucket, queue,
      load-job URL and kind names, enqueues exactly when `HandleOCN` does on
      a record whose deferred step succeeds, and with the same notification,
      queue name and URL. */
  lemma ReceiveOCNHandleAgreesWithHandleOCN(
    s: Service, req: Request, obj: GCSObject,
    run: ContextFunc -> Result<WatcherOption, Error>,
    kindOf: KindDescriptor -> string,
    isImportTarget: (GCSObject, Request, string, seq<string>) -> bool,
    receiveOCN: Enqueue -> Option<Error>)
    requires ProcessWithContext(s, run).err.None?
    ensures var o := HandleOCN(s, req, obj, run, kindOf, isImportTarget, receiveOCN);
      var c := o.service;
      var h := ReceiveOCNHandle(c.backupBucketName, c.queueName, c.gcsObjectToBQJobURL,
                                c.importTargetKindNames, req, Success(obj), isImportTarget);
      && (o.enqueued.Some? <==> ReceiveOCNCall(obj, c.queueName, c.gcsObjectToBQJobURL) in h.calls)
      && (o.enqueued.Some? ==>
            ReceiveOCNCall(o.enqueued.value.obj, o.enqueued.value.queueName, o.enqueued.value.url) in h.calls)
      && (forall k :: k in h.calls && k.ReceiveOCNCall? ==>
            o.enqueued == Some(Enqueue(k.obj, k.queueName, k.path)))
  {
  }
}
