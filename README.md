# Asynchronous result aggregator of the elliptics C++ bindings

This project models the result engine of `bindings/cpp/async_result.cpp`. One
storage operation fans out to several nodes. Their replies are pushed into a
shared record by the transport through the producer handle
(`async_result_handler`: `set_total`, `process`, `complete`, `check`). A consumer
reads them through the consumer handle (`async_result`: `connect`, `wait`,
`error`, `get`, `get(T &)`, `get_one`) or through a single-pass pull iterator
with its own FIFO queue.

The model is a sequential state machine. Every critical section of the source
is one atomic method call. A call that would block (`wait`, `ensure_data`) has
the unblocking condition as a precondition: the operation is finished, or the
iterator's queue is non-empty or finished.

- `Replies` (`replies.dfy`): reply entries (command status, transaction flags,
  payload), error values, the exceptions-policy bits, and the two views of the
  reply stream:
  - `Filtered`: the replies the session filter keeps;
  - `Terminals`: the headers of the replies that close their transaction.
- `Checking` (`checking.dfy`): the status scan of `check` and the error it
  synthesises when the session checker rejects the statuses.
- `AsyncResult` (`async_result.dfy`):
  - the shared record `AsyncData`, with the producer and consumer handles'
    operations as its methods;
  - the iterator's queue `IterQueue`;
  - the aggregator's `Keeper`.

  Registered handlers are data (`ResultSink`, `FinalSink`). A handler is
  either a consumer's callback, whose invocations are appended to a ghost call
  log, an iterator's queue feed, or the aggregator of `connect(result_array_function)`.
  The record's invariant `Valid` ties the buffer, the live deliveries and the
  status list to the history of everything processed.
- `ResultIterator` (`result_iterator.dfy`): the iterator as a class over its
  queue. `Pending` is the sequence the iterator still has to yield, and the
  twostate predicate `Advanced` is what `ensure_data` promises.
- `Scenarios` (`scenarios.dfy`): whole-protocol consequences proved by driving
  the model as a client would:
  - replay-then-live ordering;
  - the checker's verdict on concrete status lists;
  - iteration to the end;
  - the two versions of iterator assignment.

The filter and the checker of the session are function parameters. A reply's
size and type beyond its status, flags and payload play no part. Policy bits,
`DNET_FLAGS_MORE` and the errno values are constants in `Replies`.

Three behaviours of the code are worth noting:

- `complete` hands the final handler the transport's **incoming** error
  (`bindings/cpp/async_result.cpp:377`), not the checker-derived error it
  stores. The batch aggregator reads the stored error
  (`bindings/cpp/async_result.cpp:301`).
- A consequence, shown by `Scenarios.EarlyIteratorMissesCheckerError`: an
  iterator connected before completion is finished with an empty error even
  when the checker rejected the replies, so reaching its end never throws.
- When the checker rejects the statuses but one of them is 0, the stored error
  stays as `complete` set it, which is empty (`bindings/cpp/async_result.cpp:397`).

## Model

| member | source | states |
|---|---|---|
| `Replies.FilteredConcat` | bindings/cpp/async_result.cpp:359-365 | filtering a stream piece by piece yields the filter's view of the whole stream, in order |
| `Replies.TerminalsCount` | bindings/cpp/async_result.cpp:356-358 | every reply is either recorded in the status list or marked "more follows": the two counts add up to the number of replies |
| `Replies.Raised` | bindings/cpp/async_result.cpp:292-293 | the `if (policy & bit) error.throw_error()` step of `wait` and `ensure_data` (also lines 247-248): it throws exactly when the policy has the bit and the error is not empty, and it throws that error |
| `Checking.Successes` | bindings/cpp/async_result.cpp:390-395 | the success count is at most the number of statuses, and it is zero exactly when no status is 0 |
| `Checking.FirstFailure` | bindings/cpp/async_result.cpp:390-396 | there is no failed command exactly when every status is 0; otherwise the result is a command with non-zero status, and every command before it succeeded |
| `Checking.ScanStatuses` | bindings/cpp/async_result.cpp:387-396 | the loop of `check` computes exactly the success count and the first failed command |
| `Checking.CheckedError` | bindings/cpp/async_result.cpp:397-405 | the error a rejected check leaves: with a success, the current error unchanged; with no success, always a non-empty error with a non-zero code |
| `Checking.NoSuccessFirstIsFailure` | bindings/cpp/async_result.cpp:390-396 | with no success in a non-empty list, the first failed command is the first command |
| `Checking.CheckedErrorCases` | bindings/cpp/async_result.cpp:397-405 | a rejected check: with a success, the error is left as it was; with no success, it is the first status's error (non-zero); with no status at all, it is -ENXIO |
| `Checking.InsufficientOnlyWhenEmpty` | bindings/cpp/async_result.cpp:397-404 | with no success, the "insufficient results" branch is taken exactly when the status list is empty |
| `AsyncResult.ResultCallsSnoc` | bindings/cpp/async_result.cpp:361-362 | handing one more entry to a handler adds exactly that entry's call |
| `AsyncResult.ResultCallsConcat` | bindings/cpp/async_result.cpp:55-58 | replaying two pieces one after the other makes the same calls as replaying their concatenation |
| `AsyncResult.IterQueue.constructor` | bindings/cpp/async_result.cpp:147-150 | a fresh queue is empty, unfinished, without error, and carries the result's policy |
| `AsyncResult.IterQueue.Process` | bindings/cpp/async_result.cpp:257-265 | the entry goes to the back of the queue; a queue whose weak pointer no longer locks is left alone |
| `AsyncResult.IterQueue.Complete` | bindings/cpp/async_result.cpp:267-276 | the queue is marked finished with the given error; a queue whose weak pointer no longer locks is left alone |
| `AsyncResult.IterQueue.Release` | bindings/cpp/async_result.cpp:258-260 | the failed `weak_data.lock()`: the queue expires, and its contents and flags are unchanged |
| `AsyncResult.Keeper.constructor` | bindings/cpp/async_result.cpp:71-72 | the new keeper is bound to the record, and its data pointer refers to it |
| `AsyncResult.AsyncData.constructor` | bindings/cpp/async_result.cpp:30-36 | a fresh record takes the session's filter, checker and policy; it is empty, unfinished, with total 0 and no handlers, and satisfies the invariant |
| `AsyncResult.AsyncData.SetTotal` | bindings/cpp/async_result.cpp:340-350 | the total is set, and `get_total` reads it back |
| `AsyncResult.AsyncData.GetTotal` | bindings/cpp/async_result.cpp:346-350 | the number of expected replies, as last set by `set_total` (`SetTotal` states the read-back) |
| `AsyncResult.AsyncData.ErrorSnapshot` | bindings/cpp/async_result.cpp:89-93 | `error()` is empty until the operation is finished, then the stored error |
| `AsyncResult.AsyncData.InvokeResult` | bindings/cpp/async_result.cpp:362 | calling the stored result handler: a consumer's callback is called once with the entry, and an iterator's bound `process` (lines 151, 257-265) feeds its queue |
| `AsyncResult.AsyncData.InvokeFinal` | bindings/cpp/async_result.cpp:377 | calling the stored final handler: a consumer's callback gets the error, an iterator's bound `complete` (lines 152, 267-276) completes its queue, and the aggregator bound at line 73 empties its keeper and reports the buffer and the stored error |
| `AsyncResult.AsyncData.Deliver` | bindings/cpp/async_result.cpp:361-365 | a kept reply goes to the result handler, if one exists, or else to the end of the buffer, never both |
| `AsyncResult.AsyncData.Process` | bindings/cpp/async_result.cpp:352-366 | the header is appended to the status list exactly when the reply is terminal, whether or not the filter keeps it. A kept reply is either buffered or delivered live. A filtered-out reply changes neither. The invariant is preserved |
| `AsyncResult.AsyncData.Check` | bindings/cpp/async_result.cpp:382-412 | returns the checker's verdict. On acceptance it writes an empty error; on rejection, the synthesised error; with no error slot it writes nothing |
| `AsyncResult.AsyncData.AggregatorFinalHandler` | bindings/cpp/async_result.cpp:296-302 | the keeper is emptied, and the batch callback receives the whole buffer and the stored error |
| `AsyncResult.AsyncData.Complete` | bindings/cpp/async_result.cpp:368-380 | finished. The stored error is the incoming one, or else the checker's outcome. The final handler fires with the incoming error; the aggregator reports the stored one. Buffer and statuses are unchanged, and the invariant is kept |
| `AsyncResult.AsyncData.Connect` | bindings/cpp/async_result.cpp:49-66 | a new result handler is handed the whole buffer in order. A new final handler fires at once with the stored error exactly when the operation is finished. Nothing else in the record changes. An iterator queue registered as both handlers receives the buffer, then the completion |
| `AsyncResult.AsyncData.ConnectResult` | bindings/cpp/async_result.cpp:53-60 | the result handler is stored and replayed the whole buffer, in order |
| `AsyncResult.AsyncData.ConnectFinal` | bindings/cpp/async_result.cpp:61-65 | the final handler is stored, and fires with the stored error exactly when the operation is finished |
| `AsyncResult.AsyncData.Replay` | bindings/cpp/async_result.cpp:55-59 | the handler receives every buffered entry, in order |
| `AsyncResult.AsyncData.ConnectBatch` | bindings/cpp/async_result.cpp:68-74 | an aggregator over a fresh keeper becomes the final handler, and no result handler is added. If finished, the batch callback fires at once with the buffer and the stored error, and the keeper is emptied |
| `AsyncResult.AsyncData.Wait` | bindings/cpp/async_result.cpp:286-294 | once finished, it throws the stored error exactly when the policy has one of the given bits and there is an error |
| `AsyncResult.AsyncData.WaitDefault` | bindings/cpp/async_result.cpp:83-87 | wait with the throw-at-wait bit |
| `AsyncResult.AsyncData.Get` | bindings/cpp/async_result.cpp:95-100 | throws as wait with the throw-at-get bit does; otherwise returns the whole buffer |
| `AsyncResult.AsyncData.GetInto` | bindings/cpp/async_result.cpp:102-113 | true, with the first buffered entry of status 0 and a non-empty payload; false, with the entry untouched, exactly when no entry qualifies. Throws as `get` does |
| `AsyncResult.AsyncData.GetOne` | bindings/cpp/async_result.cpp:115-121 | the first buffered entry with status 0 and a non-empty payload when there is one; otherwise the default entry. It throws as `get` does |
| `ResultIterator.Iterator.End` | bindings/cpp/async_result.cpp:141-144 | the end iterator has no queue and nothing pending |
| `ResultIterator.Iterator.constructor` | bindings/cpp/async_result.cpp:146-153 | a waiting iterator over a fresh queue that holds the result's buffer, registered as both handlers of the result. It is finished with the stored error if the result already is. The result's buffer, statuses, error and calls are unchanged |
| `ResultIterator.Iterator.Duplicate` | bindings/cpp/async_result.cpp:225 | the copy `iterator tmp = *this` of an iterator that is no longer waiting: it shares the queue, state and cached entry, since the copy's own `ensure_data` has nothing to do |
| `ResultIterator.Iterator.Copy` | bindings/cpp/async_result.cpp:155-161 | the source is advanced, and the copy shares its queue, state and pending entries; an error thrown while advancing propagates |
| `ResultIterator.Iterator.Assign` | bindings/cpp/async_result.cpp:168-175 | corrected assignment: the source is advanced, and the target takes its queue, state and cached entry, so both have the same pending entries |
| `ResultIterator.Iterator.AssignAsWritten` | bindings/cpp/async_result.cpp:168-175 | assignment as written: the source is advanced, and the target takes its state and cached entry but keeps its own queue. When advancing the source throws, the error is the source queue's, and a distinct target is left untouched |
| `ResultIterator.Iterator.Equals` | bindings/cpp/async_result.cpp:177-181 | the left operand, then the right, is advanced; they are equal exactly when both or neither are at their end, and the queues' flags are kept. When the operands do not share a queue, or are the same iterator: each is advanced as `ensure_data` advances it, the verdict compares whether each had anything pending, and the call throws exactly when advancing one of them throws |
| `ResultIterator.Iterator.NotEquals` | bindings/cpp/async_result.cpp:183-187 | the negation of `==`, with the same advancing and the same errors |
| `ResultIterator.Iterator.EnsureData` | bindings/cpp/async_result.cpp:237-255 | waiting with a non-empty queue: the front is popped into the cached slot and the state becomes ready. Waiting with an empty, finished queue: at end, throwing the queue's error only under throw-at-iterator-end. Ready or at end: nothing changes. No pending entry is lost or invented |
| `ResultIterator.Iterator.Deref` | bindings/cpp/async_result.cpp:189-197 | the first pending entry; at the end, -ENOENT (or the end-of-sequence error when that is thrown first) |
| `ResultIterator.Iterator.AtEndQuery` | bindings/cpp/async_result.cpp:230-235 | after advancing, true exactly when nothing was pending |
| `ResultIterator.Iterator.Increment` | bindings/cpp/async_result.cpp:209-219 | drops the first pending entry and advances at once to the next entry or the end. -ENOENT when already at the end. Throws the end-of-sequence error when the last entry is dropped and the policy asks for it |
| `ResultIterator.Iterator.PostIncrement` | bindings/cpp/async_result.cpp:221-228 | the returned copy holds the entry that was current, and this iterator moves past it. It fails exactly when nothing was pending, or when the last entry is dropped and the end-of-sequence error is thrown; the error is -ENOENT or the queue's error, as for `++` |
| `Scenarios.PushBuffered` | bindings/cpp/async_result.cpp:359-364 | with no result handler, successive replies are buffered in arrival order, filtered |
| `Scenarios.ProcessBuffered` | bindings/cpp/async_result.cpp:359-364 | with no result handler, one reply is buffered exactly when the filter keeps it, and no callback is called |
| `Scenarios.ProcessLive` | bindings/cpp/async_result.cpp:359-362 | with a callback registered, it is called with one reply exactly when the filter keeps it, and the buffer is unchanged |
| `Scenarios.PushLive` | bindings/cpp/async_result.cpp:359-362 | with a callback registered, successive kept replies reach it in arrival order, and the buffer does not grow |
| `Scenarios.LiveStep` | bindings/cpp/async_result.cpp:359-362 | one more reply adds that reply's call exactly when the filter keeps it |
| `Scenarios.ReplayThenLive` | bindings/cpp/async_result.cpp:53-59 | a callback connected between two batches of replies sees exactly the filtered view of all replies, in arrival order, replayed then live |
| `Scenarios.StatusRepliesTerminals` | bindings/cpp/async_result.cpp:356-358 | replies without the "more" flag each add their header, so the status list holds their codes in order |
| `Scenarios.CompleteWithStatuses` | bindings/cpp/async_result.cpp:368-380 | under an all-must-succeed checker, the stored error is empty on acceptance; on rejection it is the synthesised error, which stays empty when some status is 0 |
| `Scenarios.PartialSuccessKeepsEmptyError` | bindings/cpp/async_result.cpp:397 | statuses 0, 0, 7 rejected: the stored error stays empty |
| `Scenarios.NoSuccessTakesFirstFailure` | bindings/cpp/async_result.cpp:397-399 | a single status 5 rejected: the stored error has code 5 |
| `Scenarios.NoReplyIsInsufficient` | bindings/cpp/async_result.cpp:400-404 | no status while one was expected: the stored error is -ENXIO |
| `Scenarios.EndCheck` | bindings/cpp/async_result.cpp:177-187 | the loop test `it != iterator()` on a finished queue: it no longer waits, keeps the pending entries, and is true exactly when some entry is left. It throws the queue's error exactly when a waiting iterator with nothing pending reaches the end and the error is thrown |
| `Scenarios.Step` | bindings/cpp/async_result.cpp:189-219 | one dereference and increment yields the first pending entry and leaves the rest pending; it throws exactly when the last entry is dropped and the end-of-sequence error is thrown |
| `Scenarios.Collect` | bindings/cpp/async_result.cpp:209-255 | the loop `for (; it != iterator(); ++it)` over a finished queue: the body sees every pending entry in order, whether or not the loop throws. It throws the queue's error exactly when it does not start at the end and the policy has throw-at-iterator-end and the error is not empty |
| `Scenarios.IterateFinished` | bindings/cpp/async_result.cpp:146-153 | iterating a finished result sees exactly the replies the filter kept, in arrival order. It throws exactly when the policy has throw-at-iterator-end and the stored error (the incoming one, or else the checker's) is not empty |
| `Scenarios.EarlyIteratorMissesCheckerError` | bindings/cpp/async_result.cpp:371-378 | an iterator connected before completion sees the incoming empty error, while the record stores the checker's -ENXIO |
| `Scenarios.AssignedEndIteratorHasNoQueue` | bindings/cpp/async_result.cpp:168-175 | an end iterator assigned from a live one is ready but still has no queue |
| `Scenarios.AssignedEndIteratorContinues` | bindings/cpp/async_result.cpp:168-175 | with the corrected assignment it continues with the source's pending entries |

## Left out

- Mutexes, condition variables and `notify_all` are not modelled. Each locked section is one atomic step, and each blocking wait is a precondition (`finished`, or `CanAdvance`/`CanStep` for the iterator). Thread interleavings are not modelled.
- `ResultIterator.Iterator.Equals` and `ResultIterator.Iterator.NotEquals`: two waiting iterators over the same queue are required to have two entries or a finished queue. Otherwise evaluating both `at_end` calls would block. The order in which C++ evaluates the two operands is unspecified; the model advances the left one first. For two distinct iterators sharing one queue, the contracts state only the final states, because advancing the left one pops the entry the right one would have taken.
- `AsyncResult.AsyncData.Complete`: requires the operation not to be finished yet. The transport completes each operation once; a second completion after the aggregator fired would dereference the empty keeper.
- `AsyncResult.AsyncData.AggregatorFinalHandler`: requires only that the keeper is bound to this record, not that it still holds it. The aggregator fires at most once, because `Complete` requires an unfinished operation and `ConnectBatch` makes a fresh keeper.
- `std::shared_ptr` and `weak_ptr` lifetimes are not modelled. Records and keepers are never freed.
- `AsyncResult.IterQueue.Release`: over-approximates. The iterator's constructor binds `process` and `complete` to a copy of its `std::shared_ptr` to the queue (`bindings/cpp/async_result.cpp:151-152`). The record stores those handlers, so the queue stays alive while they are registered. `weak_data.lock()` at lines 260 and 270 then always succeeds. `Release` lets the model take the guarded-out branch anyway. Every property proved holds with or without it.
- The move constructor (`bindings/cpp/async_result.cpp:38-42`), the empty destructors, and the producer handle's copy constructor and assignment are not modelled. They only move or share the record pointer. In the model, both handles are the same `AsyncData`.
- `connect(const async_result_handler<T> &)` (`bindings/cpp/async_result.cpp:76-81`) is not modelled, and neither are `handler_process` and `handler_complete`. Forwarding one result into another's producer handle would need an invariant over chains of records.
- `operator->` behaves exactly as `operator*` and is covered by `Deref`. The conversion to `std::vector<T>` (`bindings/cpp/async_result.cpp:123-127`) is `get()`.
- `error_info`, `create_error` and `throw_error` are in headers that are not part of this model. The model assumes three things about them:
  - an error is a code;
  - `create_error(cmd)` carries `cmd.status`;
  - throwing an empty error does nothing.

  The text of the "insufficient results" message is not modelled.
- `Replies.DefaultEntry`: a default-constructed entry is assumed to carry status 0, no flags and an empty payload. The entry type's constructor is not part of this model. `get_one` (lines 118-120) returns this value when no entry qualifies.
- The values of `DNET_FLAGS_MORE`, the policy bits, `ENOENT` and `ENXIO` are defined in headers outside `bindings/cpp/async_result.cpp`. `Replies` fixes them to the usual values.
- Not modelled: the session's filter and checker implementations. They are function parameters.
- Not modelled: the explicit template instantiations (`bindings/cpp/async_result.cpp:414-428`). They are compile-time plumbing, since the engine treats every entry type alike.
- `tests/new_api_test.cpp`, `tests/srw_test_app.cpp`, `tests/test_base.hpp` and `bindings/python/elliptics/__init__.py` are not part of this model. They are integration tests, a worker application, fixtures and Python re-exports.

## Findings

| source | as written | input that shows it | evidently intended | confidence | as-written member | corrected member |
|---|---|---|---|---|---|---|
| bindings/cpp/async_result.cpp:169-175 | `operator=` copies the source's state and cached entry but not its queue pointer `d` | `iterator e; e = iterator(result);` with one reply buffered and the result finished: `e` is ready with no queue, so `++e` locks a null queue | take `d` along, as the copy constructor at line 156 does, so the target continues where the source is | not executed; high | `Scenarios.AssignedEndIteratorHasNoQueue` (over `ResultIterator.Iterator.AssignAsWritten`) | `Scenarios.AssignedEndIteratorContinues` (over `ResultIterator.Iterator.Assign`) |
