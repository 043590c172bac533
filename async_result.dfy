/** The shared result record of one fanned-out operation (async_result<T>::data)
    and the operations of its two handles: the producer side
    (async_result_handler: set_total, process, complete, check) and the consumer
    side (async_result: connect, wait, error, get, get_one).

    Each method is one critical section of the source, taken as one atomic step;
    a call that blocks until the operation is finished requires `finished`.
    Both handles hold the same record, so their methods are methods of the
    record here. */
module AsyncResult {
  import opened Replies
  import opened Checking

  /** A registered result handler. */
  datatype ResultSink =
    | UserResult(id: nat)              // a consumer's callback, observed through the call log
    | FeedIterator(queue: IterQueue)   // iterator::process bound to an iterator's queue

  /** A registered final handler. */
  datatype FinalSink =
    | UserFinal(id: nat)                   // a consumer's callback, observed through the call log
    | FinishIterator(queue: IterQueue)     // iterator::complete bound to an iterator's queue
    | Aggregate(keeper: Keeper, id: nat)   // aggregator_final_handler bound to a keeper and a batch callback

  /** One invocation of a consumer's callback. */
  datatype Call =
    | OnResult(handler: nat, entry: Entry)
    | OnFinal(handler: nat, error: ErrorInfo)
    | OnBatch(handler: nat, results: seq<Entry>, error: ErrorInfo)

  /** The objects a result handler writes to. */
  function ResultObjects(h: Option<ResultSink>): set<object> {
    match h
    case Some(FeedIterator(q)) => {q}
    case _ => {}
  }

  /** The objects a final handler writes to. */
  function FinalObjects(h: Option<FinalSink>): set<object> {
    match h
    case Some(FinishIterator(q)) => {q}
    case Some(Aggregate(k, _)) => {k}
    case _ => {}
  }

  /** The call a result handler makes when it is handed `e`. */
  ghost function ResultCall(h: ResultSink, e: Entry): (r: seq<Call>) {
    if h.UserResult? then [OnResult(h.id, e)] else []
  }

  /** The calls a result handler makes when it is handed `s` in order: one
      per entry for a consumer's callback, none for an iterator's queue. */
  ghost function ResultCalls(h: ResultSink, s: seq<Entry>): (r: seq<Call>)
  {
    if h.UserResult? then seq(|s|, i requires 0 <= i < |s| => OnResult(h.id, s[i])) else []
  }

  /** Handing one more entry is one more call. */
  lemma ResultCallsSnoc(h: ResultSink, s: seq<Entry>, e: Entry)
    ensures ResultCalls(h, s + [e]) == ResultCalls(h, s) + ResultCall(h, e)
  {
  }

  /** Replaying two pieces one after the other is replaying their concatenation. */
  lemma ResultCallsConcat(h: ResultSink, s: seq<Entry>, t: seq<Entry>)
    ensures ResultCalls(h, s + t) == ResultCalls(h, s) + ResultCalls(h, t)
  {
  }

  /** The call a final handler makes when it fires with `err`; the aggregator
      ignores `err` and reports the stored results and error instead. */
  ghost function FinalCalls(h: FinalSink, err: ErrorInfo, results: seq<Entry>, stored: ErrorInfo): (r: seq<Call>) {
    match h
    case UserFinal(id) => [OnFinal(id, err)]
    case FinishIterator(_) => []
    case Aggregate(_, id) => [OnBatch(id, results, stored)]
  }

  /** How an iterator queue changes when it is fed `fed` and, if `finish` is
      given, completed with that error: nothing happens once it has expired. */
  twostate predicate QueueAfter(q: IterQueue, fed: seq<Entry>, finish: Option<ErrorInfo>)
    reads q
  {
    q.expired == old(q.expired) &&
    q.results == old(q.results) + (if old(q.expired) then [] else fed) &&
    if finish.Some? && !old(q.expired) then q.finished && q.error == finish.value
    else q.finished == old(q.finished) && q.error == old(q.error)
  }

  /** The private state of an iterator (async_result<T>::iterator::data): its own
      FIFO queue of entries, the finished flag and error it was completed with,
      and the policy copied from the result. `process` and `complete` take the
      queue as a weak pointer and do nothing when it no longer locks; `expired`
      is that case. The handlers bound at iterator construction store a shared
      pointer to the queue, so while they are registered it never expires. */
  class IterQueue {
    var results: seq<Entry>
    const policy: bv32
    var finished: bool
    var error: ErrorInfo
    var expired: bool

    constructor (policy: bv32)
      ensures this.policy == policy
      ensures results == [] && !finished && error == NoError && !expired
    {
      this.policy := policy;
      results := [];
      finished := false;
      error := NoError;
      expired := false;
    }

    /** iterator::process: push to the back of the queue, if it still locks. */
    method Process(e: Entry)
      modifies this
      ensures QueueAfter(this, [e], None)
    {
      if !expired {
        results := results + [e];
      }
    }

    /** iterator::complete: mark finished with the error, if it still locks. */
    method Complete(err: ErrorInfo)
      modifies this
      ensures QueueAfter(this, [], Some(err))
    {
      if !expired {
        finished := true;
        error := err;
      }
    }

    /** The queue is gone, so a weak pointer to it no longer locks. Nothing in
        the engine does this while a handler bound to the queue is registered;
        the operation lets the model reach the guarded-out branch. */
    method Release()
      modifies this
      ensures expired
      ensures results == old(results) && finished == old(finished) && error == old(error)
    {
      expired := true;
    }
  }

  /** async_result<T>::data_keeper: holds the record for the aggregator until
      it fires. The record it was made for is fixed; `held` says whether its
      pointer still refers to it or has been swapped out. */
  class Keeper {
    const record: AsyncData
    var held: bool

    constructor (d: AsyncData)
      ensures record == d && DataPtr() == d
    {
      record := d;
      held := true;
    }

    /** The keeper's data_ptr. */
    function DataPtr(): AsyncData?
      reads this
    {
      if held then record else null
    }
  }

  /** async_result<T>::data. The ghost fields are the history the invariant is
      stated over: every reply processed so far (`arrived`), every reply delivered
      live to a result handler (`live`), and every call made to a consumer's
      callback (`calls`). */
  class AsyncData {
    const filter: Entry -> bool
    const checker: (seq<Command>, nat) -> bool
    const policy: bv32

    var results: seq<Entry>
    var statuses: seq<Command>
    var total: nat
    var finished: bool
    var error: ErrorInfo
    var resultHandler: Option<ResultSink>
    var finalHandler: Option<FinalSink>

    ghost var arrived: seq<Entry>
    ghost var live: seq<Entry>
    ghost var calls: seq<Call>

    /** The record's invariant: the error is set only at completion; the status
        list holds one header per terminal reply; every reply the filter keeps is
        either buffered or was delivered live, in arrival order; nothing is
        delivered live before a result handler exists; and a pending aggregator
        still holds this record. */
    ghost predicate Valid()
      reads this
    {
      (!finished ==> error == NoError) &&
      statuses == Terminals(arrived) &&
      results + live == Filtered(filter, arrived) &&
      (resultHandler.None? ==> live == []) &&
      (finalHandler.Some? && finalHandler.value.Aggregate? ==> finalHandler.value.keeper.record == this)
    }

    /** async_result(const session &): a fresh record with the session's filter,
        checker and exceptions policy. */
    constructor (filter: Entry -> bool, checker: (seq<Command>, nat) -> bool, policy: bv32)
      ensures Valid()
      ensures this.filter == filter && this.checker == checker && this.policy == policy
      ensures results == [] && statuses == [] && total == 0 && !finished && error == NoError
      ensures resultHandler.None? && finalHandler.None?
      ensures arrived == [] && live == [] && calls == []
    {
      this.filter := filter;
      this.checker := checker;
      this.policy := policy;
      results := [];
      statuses := [];
      total := 0;
      finished := false;
      error := NoError;
      resultHandler := None;
      finalHandler := None;
      arrived := [];
      live := [];
      calls := [];
    }

    /** async_result_handler::set_total (get_total is the plain read of `total`). */
    method SetTotal(n: nat)
      modifies this`total
      ensures total == n && GetTotal() == n
    {
      total := n;
    }

    function GetTotal(): (n: nat)
      reads this
    {
      total
    }

    /** async_result::error(): the stored error, empty until completion. */
    function ErrorSnapshot(): (e: ErrorInfo)
      reads this
      requires Valid()
      ensures !finished ==> e == NoError
      ensures finished ==> e == error
    {
      error
    }

    /** Hand one reply to a result handler. */
    method InvokeResult(h: ResultSink, e: Entry)
      modifies this`calls, ResultObjects(Some(h))
      ensures calls == old(calls) + ResultCall(h, e)
      ensures h.FeedIterator? ==> QueueAfter(h.queue, [e], None)
    {
      match h
      case UserResult(id) =>
        calls := calls + [OnResult(id, e)];
      case FeedIterator(q) =>
        q.Process(e);
    }

    /** The delivery step of process: a kept reply goes either to the result
        handler or to the end of `results`, never both. */
    method Deliver(e: Entry)
      requires resultHandler.None? ==> live == []
      modifies this, ResultObjects(resultHandler)
      ensures resultHandler == old(resultHandler) && finalHandler == old(finalHandler)
      ensures results == if resultHandler.None? then old(results) + [e] else old(results)
      ensures live == if resultHandler.Some? then old(live) + [e] else old(live)
      ensures calls == old(calls) + (if resultHandler.Some? then ResultCall(resultHandler.value, e) else [])
      ensures resultHandler.Some? && resultHandler.value.FeedIterator? ==>
                QueueAfter(resultHandler.value.queue, [e], None)
      ensures results + live == old(results + live) + [e]
      ensures arrived == old(arrived) && statuses == old(statuses)
      ensures total == old(total) && finished == old(finished) && error == old(error)
    {
      if resultHandler.Some? {
        InvokeResult(resultHandler.value, e);
        live := live + [e];
      } else {
        results := results + [e];
      }
    }

    /** async_result_handler::process: a terminal reply is counted for the
        checker whether or not the filter keeps it; a kept reply goes either to
        the result handler or to the end of `results`, never both. */
    method Process(e: Entry)
      requires Valid()
      modifies this, ResultObjects(resultHandler)
      ensures Valid()
      ensures arrived == old(arrived) + [e]
      ensures statuses == old(statuses) + (if e.IsTerminal() then [e.command] else [])
      ensures results == if filter(e) && resultHandler.None? then old(results) + [e] else old(results)
      ensures live == if filter(e) && resultHandler.Some? then old(live) + [e] else old(live)
      ensures calls == old(calls) + (if filter(e) && resultHandler.Some? then ResultCall(resultHandler.value, e) else [])
      ensures old(resultHandler).Some? && old(resultHandler).value.FeedIterator? ==>
                QueueAfter(old(resultHandler).value.queue, if filter(e) then [e] else [], None)
      ensures resultHandler == old(resultHandler) && finalHandler == old(finalHandler)
      ensures total == old(total) && finished == old(finished) && error == old(error)
    {
      TerminalsSnoc(arrived, e);
      FilteredSnoc(filter, arrived, e);
      if filter(e) {
        Deliver(e);
      }
      if e.IsTerminal() {
        statuses := statuses + [e.command];
      }
      arrived := arrived + [e];
    }

    /** async_result_handler::check: whether the checker accepts the statuses
        and, when an error slot is given, what is written to it: empty on
        success, the synthesized error on failure. */
    method Check(target: Option<ErrorInfo>) returns (ok: bool, written: Option<ErrorInfo>)
      ensures ok == checker(statuses, total)
      ensures target.None? ==> written.None?
      ensures target.Some? && ok ==> written == Some(NoError)
      ensures target.Some? && !ok ==> written == Some(CheckedError(statuses, target.value))
    {
      if !checker(statuses, total) {
        written := target;
        if target.Some? {
          var success, command := ScanStatuses(statuses);
          if success == 0 {
            if command.Some? {
              written := Some(CommandError(command.value));
            } else {
              written := Some(Err(-ENXIO));
            }
          }
        }
        return false, written;
      }
      written := if target.Some? then Some(NoError) else None;
      return true, written;
    }

    /** aggregator_final_handler: take the record out of the keeper, leaving it
        empty, and hand the whole buffer and the stored error to the batch callback. */
    method AggregatorFinalHandler(keeper: Keeper, id: nat)
      requires keeper.record == this
      modifies this`calls, keeper
      ensures keeper.DataPtr() == null
      ensures calls == old(calls) + [OnBatch(id, results, error)]
    {
      var d := keeper.record;
      keeper.held := false;
      calls := calls + [OnBatch(id, d.results, d.error)];
    }

    /** Fire a final handler with `err`. */
    method InvokeFinal(h: FinalSink, err: ErrorInfo)
      requires h.Aggregate? ==> h.keeper.record == this
      modifies this, FinalObjects(Some(h))
      ensures calls == old(calls) + FinalCalls(h, err, results, error)
      ensures h.FinishIterator? ==> QueueAfter(h.queue, [], Some(err))
      ensures h.Aggregate? ==> h.keeper.DataPtr() == null
      ensures results == old(results) && statuses == old(statuses) && total == old(total)
      ensures arrived == old(arrived) && live == old(live)
      ensures resultHandler == old(resultHandler) && finalHandler == old(finalHandler)
      ensures finished == old(finished) && error == old(error)
    {
      match h
      case UserFinal(id) =>
        calls := calls + [OnFinal(id, err)];
      case FinishIterator(q) =>
        q.Complete(err);
      case Aggregate(k, id) =>
        AggregatorFinalHandler(k, id);
    }

    /** async_result_handler::complete, called once by the transport. The
        stored error is the transport's, or, when that is empty, what the
        checker leaves; the final handler is given the transport's error. */
    method Complete(err: ErrorInfo)
      requires Valid() && !finished
      modifies this, FinalObjects(finalHandler)
      ensures Valid() && finished
      ensures error == if err != NoError then err
                       else if checker(statuses, total) then NoError
                       else CheckedError(statuses, NoError)
      ensures results == old(results) && statuses == old(statuses) && total == old(total)
      ensures arrived == old(arrived) && live == old(live)
      ensures resultHandler == old(resultHandler) && finalHandler == old(finalHandler)
      ensures calls == old(calls) + (if finalHandler.Some? then FinalCalls(finalHandler.value, err, results, error) else [])
      ensures old(finalHandler).Some? && old(finalHandler).value.FinishIterator? ==>
                QueueAfter(old(finalHandler).value.queue, [], Some(err))
      ensures finalHandler.Some? && finalHandler.value.Aggregate? ==> finalHandler.value.keeper.DataPtr() == null
    {
      finished := true;
      error := err;
      if err == NoError {
        var ok, written := Check(Some(error));
        error := written.value;
      }
      if finalHandler.Some? {
        InvokeFinal(finalHandler.value, err);
      }
    }

    /** async_result::connect(result_handler, final_handler). A new result
        handler is first handed every buffered entry in order and then receives
        later replies live; a new final handler fires at once, with the stored
        error, when the operation is already finished. */
    method Connect(rh: Option<ResultSink>, fh: Option<FinalSink>)
      requires Valid()
      requires fh.Some? && fh.value.Aggregate? ==> fh.value.keeper.DataPtr() == this
      modifies this, ResultObjects(rh), FinalObjects(fh)
      ensures Valid()
      ensures resultHandler == if rh.Some? then rh else old(resultHandler)
      ensures finalHandler == if fh.Some? then fh else old(finalHandler)
      ensures results == old(results) && statuses == old(statuses) && total == old(total)
      ensures finished == old(finished) && error == old(error)
      ensures arrived == old(arrived) && live == old(live)
      ensures calls == old(calls) + (if rh.Some? then ResultCalls(rh.value, results) else [])
                                  + (if fh.Some? && finished then FinalCalls(fh.value, error, results, error) else [])
      ensures rh.Some? && rh.value.FeedIterator? ==>
                QueueAfter(rh.value.queue, results,
                           if fh == Some(FinishIterator(rh.value.queue)) && finished then Some(error) else None)
      ensures fh.Some? && fh.value.FinishIterator? && rh != Some(FeedIterator(fh.value.queue)) ==>
                QueueAfter(fh.value.queue, [], if finished then Some(error) else None)
      ensures fh.Some? && fh.value.Aggregate? ==>
                fh.value.keeper.DataPtr() == if finished then null else this
    {
      ConnectResult(rh);
      label resultConnected:
      ConnectFinal(fh);
      if rh.Some? && rh.value.FeedIterator? && fh == Some(FinishIterator(rh.value.queue)) {
        assert QueueAfter@resultConnected(rh.value.queue, [], if finished then Some(error) else None);
      }
    }

    /** The result-handler half of connect: store the handler, then replay. */
    method ConnectResult(rh: Option<ResultSink>)
      requires Valid()
      modifies this, ResultObjects(rh)
      ensures Valid()
      ensures resultHandler == if rh.Some? then rh else old(resultHandler)
      ensures results == old(results) && statuses == old(statuses) && total == old(total)
      ensures arrived == old(arrived) && live == old(live) && finalHandler == old(finalHandler)
      ensures finished == old(finished) && error == old(error)
      ensures calls == old(calls) + if rh.Some? then ResultCalls(rh.value, results) else []
      ensures rh.Some? && rh.value.FeedIterator? ==> QueueAfter(rh.value.queue, results, None)
    {
      if rh.Some? {
        resultHandler := rh;
        Replay(rh.value);
      }
    }

    /** The final-handler half of connect: store the handler, and fire it at
        once with the stored error when the operation is already finished. */
    method ConnectFinal(fh: Option<FinalSink>)
      requires Valid()
      requires fh.Some? && fh.value.Aggregate? ==> fh.value.keeper.DataPtr() == this
      modifies this, FinalObjects(fh)
      ensures Valid()
      ensures finalHandler == if fh.Some? then fh else old(finalHandler)
      ensures results == old(results) && statuses == old(statuses) && total == old(total)
      ensures arrived == old(arrived) && live == old(live) && resultHandler == old(resultHandler)
      ensures finished == old(finished) && error == old(error)
      ensures calls == old(calls) + if fh.Some? && finished then FinalCalls(fh.value, error, results, error) else []
      ensures fh.Some? && fh.value.FinishIterator? ==>
                QueueAfter(fh.value.queue, [], if finished then Some(error) else None)
      ensures fh.Some? && fh.value.Aggregate? ==> fh.value.keeper.DataPtr() == if finished then null else this
    {
      if fh.Some? {
        finalHandler := fh;
        if finished {
          InvokeFinal(fh.value, error);
        }
      }
    }

    /** The replay loop of connect: hand every buffered entry, in order, to a
        newly registered result handler. */
    method Replay(h: ResultSink)
      modifies this`calls, ResultObjects(Some(h))
      ensures calls == old(calls) + ResultCalls(h, results)
      ensures h.FeedIterator? ==> QueueAfter(h.queue, results, None)
    {
      var i := 0;
      while i < |results|
        invariant 0 <= i <= |results|
        invariant calls == old(calls) + ResultCalls(h, results[..i])
        invariant h.FeedIterator? ==> QueueAfter(h.queue, results[..i], None)
      {
        InvokeResult(h, results[i]);
        assert results[..i + 1][..i] == results[..i];
        i := i + 1;
      }
      assert results[..i] == results;
    }

    /** async_result::connect(result_array_function): register an aggregator as
        the final handler (and no result handler), so that the batch callback
        receives the whole buffer and the stored error once the operation is
        finished, or at once if it already is. */
    method ConnectBatch(id: nat)
      requires Valid()
      modifies this
      ensures Valid()
      ensures finalHandler.Some? && finalHandler.value.Aggregate? && finalHandler.value.id == id
      ensures fresh(finalHandler.value.keeper)
      ensures finalHandler.value.keeper.DataPtr() == if finished then null else this
      ensures resultHandler == old(resultHandler)
      ensures results == old(results) && statuses == old(statuses) && total == old(total)
      ensures finished == old(finished) && error == old(error)
      ensures calls == old(calls) + (if finished then [OnBatch(id, results, error)] else [])
    {
      var keeper := new Keeper(this);
      Connect(None, Some(Aggregate(keeper, id)));
    }

    /** async_result::wait(policy): once finished, the stored error is thrown
        exactly when the session policy has one of the given bits and there is
        an error. */
    method Wait(bits: bv32) returns (o: Outcome)
      requires finished
      ensures o.Fail? <==> policy & bits != 0 && error != NoError
      ensures o.Fail? ==> o.error == error
    {
      o := Raised(policy, bits, error);
      assert o.Fail? ==> o.error == error;
    }

    /** async_result::wait(): wait with the throw-at-wait bit. */
    method WaitDefault() returns (o: Outcome)
      requires finished
      ensures o.Fail? <==> policy & ThrowAtWait != 0 && error != NoError
      ensures o.Fail? ==> o.error == error
    {
      o := Wait(ThrowAtWait);
    }

    /** async_result::get(): wait with the throw-at-get bit, then the whole buffer. */
    method Get() returns (r: Result<seq<Entry>>)
      requires finished
      ensures r.Failure? <==> policy & ThrowAtGet != 0 && error != NoError
      ensures r.Failure? ==> r.error == error
      ensures r.Success? ==> r.value == results
    {
      var o := Wait(ThrowAtGet);
      if o.Fail? {
        return Failure(o.error);
      }
      return Success(results);
    }

    /** async_result::get(T &entry): wait with the throw-at-get bit, then find
        the first buffered entry with status 0 and a non-empty payload. The
        entry is overwritten only when one is found. */
    method GetInto(entry: Entry) returns (r: Result<bool>, out: Entry)
      requires finished
      ensures r.Failure? <==> policy & ThrowAtGet != 0 && error != NoError
      ensures r.Failure? ==> r.error == error && out == entry
      ensures r == Success(false) ==> out == entry && forall j :: 0 <= j < |results| ==> !results[j].IsUsable()
      ensures r == Success(true) ==> exists k :: 0 <= k < |results| && results[k] == out && out.IsUsable() &&
                                                forall j :: 0 <= j < k ==> !results[j].IsUsable()
    {
      out := entry;
      var o := Wait(ThrowAtGet);
      if o.Fail? {
        return Failure(o.error), out;
      }
      var i := 0;
      while i < |results|
        invariant 0 <= i <= |results|
        invariant forall j :: 0 <= j < i ==> !results[j].IsUsable()
      {
        if results[i].Status() == 0 && |results[i].data| != 0 {
          return Success(true), results[i];
        }
        i := i + 1;
      }
      return Success(false), out;
    }

    /** async_result::get_one(): like get(T &) into a default entry, which is
        returned unchanged when no entry qualifies. */
    method GetOne() returns (r: Result<Entry>)
      requires finished
      ensures r.Failure? <==> policy & ThrowAtGet != 0 && error != NoError
      ensures r.Failure? ==> r.error == error
      ensures r.Success? && (exists k :: 0 <= k < |results| && results[k].IsUsable()) ==>
                exists k :: 0 <= k < |results| && results[k] == r.value && r.value.IsUsable() &&
                            forall j :: 0 <= j < k ==> !results[j].IsUsable()
      ensures r.Success? && (forall j :: 0 <= j < |results| ==> !results[j].IsUsable()) ==> r.value == DefaultEntry
    {
      var found, entry := GetInto(DefaultEntry);
      if found.Failure? {
        return Failure(found.error);
      }
      if found.value {
        assert found == Success(true);
      } else {
        assert found == Success(false);
      }
      return Success(entry);
    }
  }
}
