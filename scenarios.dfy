/** Client-side uses of the result engine, as a caller drives it: replies
    pushed before and after a subscription, the checker's verdict on a few
    status lists, iteration to the end, and the two kinds of iterator
    assignment. */
module Scenarios {
  import opened Replies
  import opened Checking
  import opened AsyncResult
  import opened ResultIterator

  /** The transport pushes the replies one after another to a record that has
      no result handler yet: the kept ones are buffered in order. */
  method PushBuffered(s: AsyncData, replies: seq<Entry>)
    requires s.Valid() && s.resultHandler.None?
    modifies s
    ensures s.Valid()
    ensures s.arrived == old(s.arrived) + replies
    ensures s.results == old(s.results) + Filtered(s.filter, replies) && s.calls == old(s.calls)
    ensures s.resultHandler == old(s.resultHandler) && s.finalHandler == old(s.finalHandler)
    ensures s.finished == old(s.finished) && s.error == old(s.error) && s.total == old(s.total)
    decreases |replies|
  {
    if replies != [] {
      var prefix := replies[..|replies| - 1];
      var e := replies[|replies| - 1];
      assert replies == prefix + [e];
      PushBuffered(s, prefix);
      FilteredSnoc(s.filter, prefix, e);
      ProcessBuffered(s, e);
    }
  }

  /** One reply pushed to a record without a result handler: it is buffered
      exactly when the filter keeps it. */
  method ProcessBuffered(s: AsyncData, e: Entry)
    requires s.Valid() && s.resultHandler.None?
    modifies s
    ensures s.Valid()
    ensures s.arrived == old(s.arrived) + [e]
    ensures s.resultHandler == old(s.resultHandler) && s.finalHandler == old(s.finalHandler)
    ensures s.results == old(s.results) + (if s.filter(e) then [e] else []) && s.calls == old(s.calls)
    ensures s.finished == old(s.finished) && s.error == old(s.error) && s.total == old(s.total)
  {
    s.Process(e);
  }

  /** The transport pushes the replies one after another to a record whose
      result handler is a consumer's callback: the kept ones are handed to it
      in order and nothing more is buffered. */
  method PushLive(s: AsyncData, id: nat, replies: seq<Entry>)
    requires s.Valid() && s.resultHandler == Some(UserResult(id))
    modifies s
    ensures s.Valid()
    ensures s.arrived == old(s.arrived) + replies
    ensures s.resultHandler == old(s.resultHandler) && s.finalHandler == old(s.finalHandler)
    ensures s.results == old(s.results)
    ensures s.calls == old(s.calls) + ResultCalls(UserResult(id), Filtered(s.filter, replies))
    ensures s.finished == old(s.finished) && s.error == old(s.error) && s.total == old(s.total)
    decreases |replies|
  {
    if replies != [] {
      var prefix := replies[..|replies| - 1];
      var e := replies[|replies| - 1];
      assert replies == prefix + [e];
      PushLive(s, id, prefix);
      LiveStep(UserResult(id), s.filter, prefix, e);
      ProcessLive(s, id, e);
    }
  }

  /** One reply pushed to a record whose result handler is a consumer's
      callback: the callback is called with it exactly when the filter keeps it. */
  method ProcessLive(s: AsyncData, id: nat, e: Entry)
    requires s.Valid() && s.resultHandler == Some(UserResult(id))
    modifies s
    ensures s.Valid()
    ensures s.arrived == old(s.arrived) + [e]
    ensures s.resultHandler == old(s.resultHandler) && s.finalHandler == old(s.finalHandler)
    ensures s.results == old(s.results)
    ensures s.calls == old(s.calls) + (if s.filter(e) then [OnResult(id, e)] else [])
    ensures s.finished == old(s.finished) && s.error == old(s.error) && s.total == old(s.total)
  {
    s.Process(e);
  }

  /** One more reply adds the call for it, if the filter keeps it. */
  lemma LiveStep(h: ResultSink, f: Entry -> bool, prefix: seq<Entry>, e: Entry)
    ensures ResultCalls(h, Filtered(f, prefix + [e])) ==
            ResultCalls(h, Filtered(f, prefix)) + (if f(e) then ResultCall(h, e) else [])
  {
    FilteredSnoc(f, prefix, e);
    if f(e) {
      ResultCallsSnoc(h, Filtered(f, prefix), e);
    } else {
      assert Filtered(f, prefix) + [] == Filtered(f, prefix);
    }
  }

  /** A subscriber connected after some replies sees, through replay and then
      live delivery, every kept reply exactly once and in arrival order. */
  method ReplayThenLive(f: Entry -> bool, c: (seq<Command>, nat) -> bool, p: bv32,
                        before: seq<Entry>, after: seq<Entry>, id: nat)
    returns (s: AsyncData)
    ensures s.Valid()
    ensures s.calls == ResultCalls(UserResult(id), Filtered(f, before + after))
    ensures s.results == Filtered(f, before)
    ensures s.statuses == Terminals(before + after)
  {
    s := new AsyncData(f, c, p);
    PushBuffered(s, before);
    assert s.arrived == before && s.results == Filtered(f, before) && s.calls == [];
    s.Connect(Some(UserResult(id)), None);
    assert s.resultHandler == Some(UserResult(id));
    assert s.calls == ResultCalls(UserResult(id), Filtered(f, before));
    PushLive(s, id, after);
    assert s.arrived == before + after;
    ResultCallsConcat(UserResult(id), Filtered(f, before), Filtered(f, after));
    FilteredConcat(f, before, after);
  }

  /** The checker accepts only a complete set of successful replies. */
  function AllSucceeded(s: seq<Command>, total: nat): bool {
    |s| == total && forall i :: 0 <= i < |s| ==> s[i].status == 0
  }

  /** Terminal replies with the given status codes and a one-byte payload. */
  function StatusReplies(codes: seq<int>): (r: seq<Entry>)
    ensures |r| == |codes|
    ensures forall i :: 0 <= i < |codes| ==> r[i] == Entry(Command(codes[i], 0), [1])
  {
    if codes == [] then [] else StatusReplies(codes[..|codes| - 1]) + [Entry(Command(codes[|codes| - 1], 0), [1])]
  }

  /** Every such reply is terminal, so the status list has one header per code. */
  lemma {:induction false} StatusRepliesTerminals(codes: seq<int>)
    ensures |Terminals(StatusReplies(codes))| == |codes|
    ensures forall i :: 0 <= i < |codes| ==> Terminals(StatusReplies(codes))[i].status == codes[i]
    decreases |codes|
  {
    if codes != [] {
      var prefix := codes[..|codes| - 1];
      var e := Entry(Command(codes[|codes| - 1], 0), [1]);
      StatusRepliesTerminals(prefix);
      assert e.IsTerminal();
      TerminalsSnoc(StatusReplies(prefix), e);
    }
  }

  /** Push the given terminal statuses, keep every reply, and complete with an
      empty transport error under the all-must-succeed checker. */
  method CompleteWithStatuses(codes: seq<int>, total: nat) returns (s: AsyncData)
    ensures s.Valid() && s.finished
    ensures |s.statuses| == |codes| && forall i :: 0 <= i < |codes| ==> s.statuses[i].status == codes[i]
    ensures s.error == if AllSucceeded(s.statuses, total) then NoError else CheckedError(s.statuses, NoError)
  {
    s := new AsyncData(e => true, AllSucceeded, DefaultExceptions);
    s.SetTotal(total);
    PushBuffered(s, StatusReplies(codes));
    assert s.arrived == StatusReplies(codes);
    StatusRepliesTerminals(codes);
    s.Complete(NoError);
  }

  /** Three replies with statuses 0, 0 and 7 where all must succeed: the check
      fails, but since two succeeded the stored error stays empty. */
  method PartialSuccessKeepsEmptyError() returns (err: ErrorInfo)
    ensures err == NoError
  {
    var s := CompleteWithStatuses([0, 0, 7], 3);
    assert !AllSucceeded(s.statuses, 3) by {
      assert s.statuses[2].status == 7;
    }
    assert Successes(s.statuses) > 0 by {
      assert s.statuses[0].status == 0;
    }
    err := s.error;
  }

  /** One reply with status 5 and no success: the error carries code 5. */
  method NoSuccessTakesFirstFailure() returns (err: ErrorInfo)
    ensures err == Err(5)
  {
    var s := CompleteWithStatuses([5], 1);
    assert !AllSucceeded(s.statuses, 1) by {
      assert s.statuses[0].status == 5;
    }
    CheckedErrorCases(s.statuses, NoError);
    err := s.error;
  }

  /** No terminal reply at all while one was expected: "insufficient results". */
  method NoReplyIsInsufficient() returns (err: ErrorInfo)
    ensures err == Err(-ENXIO)
  {
    var s := CompleteWithStatuses([], 1);
    CheckedErrorCases(s.statuses, NoError);
    err := s.error;
  }

  /** The end test `it != iterator()` of the loop over a finished iterator:
      the iterator is compared with a fresh end iterator. True means the loop
      goes on. */
  method EndCheck(it: Iterator) returns (r: Result<bool>)
    requires it.Valid() && it.d != null && it.d.finished
    modifies it, it.d
    ensures it.Valid() && it.d == old(it.d) && it.d.finished && it.d.error == old(it.d.error)
    ensures it.state != Waiting && it.Pending() == old(it.Pending())
    ensures r.Failure? <==> old(it.state) == Waiting && old(it.Pending()) == [] && it.EndRaises()
    ensures r.Failure? ==> r.error == it.d.error
    ensures r.Success? ==> (r.value <==> it.Pending() != [])
  {
    var end := new Iterator.End();
    r := it.NotEquals(end);
  }

  /** One round of the loop past the end test: read the current entry, then
      increment. */
  method Step(it: Iterator) returns (x: Entry, o: Outcome)
    requires it.Valid() && it.d != null && it.d.finished && it.state != Waiting && it.Pending() != []
    modifies it, it.d
    ensures it.Valid() && it.d == old(it.d) && it.d.finished && it.d.error == old(it.d.error)
    ensures it.state != Waiting && (it.state == AtEnd <==> it.Pending() == [])
    ensures old(it.Pending()) == [x] + it.Pending()
    ensures o.Fail? <==> it.Pending() == [] && it.EndRaises()
    ensures o.Fail? ==> o.error == it.d.error
  {
    var r := it.Deref();
    x := r.value;
    o := it.Increment();
    assert old(it.Pending()) == [x] + old(it.Pending())[1..];
  }

  /** The loop `for (; it != iterator(); ++it)` over an iterator whose source
      is finished: the body sees every pending entry in order. The loop throws
      the queue's error exactly when it does not start at the end and the
      policy asks for it and there is an error: at the end test when nothing
      is pending, or else at the increment past the last entry. */
  method Collect(it: Iterator) returns (got: seq<Entry>, o: Outcome)
    requires it.Valid() && it.d != null && it.d.finished
    modifies it, it.d
    ensures it.Valid() && it.d == old(it.d) && it.d.finished && it.d.error == old(it.d.error)
    ensures got == old(it.Pending())
    ensures o.Fail? <==> old(it.state) != AtEnd && it.EndRaises()
    ensures o.Fail? ==> o.error == it.d.error
    decreases |it.Pending()|
  {
    var goOn := EndCheck(it);
    if goOn.Failure? {
      return [], Fail(goOn.error);
    }
    if !goOn.value {
      return [], Pass;
    }
    var x, step := Step(it);
    if step.Fail? {
      return [x], step;
    }
    var rest;
    rest, o := Collect(it);
    got := [x] + rest;
  }

  /** Iterating a finished result yields exactly the replies the filter kept,
      in arrival order; it throws exactly when the policy has the
      throw-at-iterator-end bit and the stored error is not empty. */
  method IterateFinished(f: Entry -> bool, c: (seq<Command>, nat) -> bool, p: bv32,
                         replies: seq<Entry>, err: ErrorInfo)
    returns (got: seq<Entry>, o: Outcome, stored: ErrorInfo)
    ensures got == Filtered(f, replies)
    ensures stored == if err != NoError then err
                      else if c(Terminals(replies), 0) then NoError
                      else CheckedError(Terminals(replies), NoError)
    ensures o.Fail? <==> p & ThrowAtIteratorEnd != 0 && stored != NoError
    ensures o.Fail? ==> o.error == stored
  {
    var s := new AsyncData(f, c, p);
    PushBuffered(s, replies);
    assert s.arrived == replies;
    assert s.statuses == Terminals(replies) && s.total == 0;
    s.Complete(err);
    stored := s.error;
    var it := new Iterator(s);
    got, o := Collect(it);
  }

  /** An iterator connected before completion is finished with the transport's
      error, not with the checker's: here the checker rejects the (empty)
      status list, the stored error is -ENXIO, and the iterator sees none. */
  method EarlyIteratorMissesCheckerError() returns (stored: ErrorInfo, seen: ErrorInfo)
    ensures stored == Err(-ENXIO) && seen == NoError
  {
    var s := new AsyncData(e => true, (st, t) => false, DefaultExceptions);
    var it := new Iterator(s);
    s.Complete(NoError);
    CheckedErrorCases([], NoError);
    stored := s.error;
    seen := it.d.error;
  }

  /** One kept reply, completed, with an iterator over it. */
  method OneReplyIterator(e: Entry) returns (s: AsyncData, it: Iterator)
    ensures it.Valid() && it.d != null && it.state == Waiting && it.Pending() == [e]
    ensures it.d.finished && !it.d.expired && it.d.error == NoError
    ensures fresh(it) && fresh(it.d)
  {
    s := new AsyncData(x => true, (st, t) => true, DefaultExceptions);
    s.Process(e);
    s.Complete(NoError);
    it := new Iterator(s);
  }

  /** Assigning a live iterator to an end iterator with operator= as written:
      the target takes the ready state but keeps having no queue, so its next
      increment would read through a null queue. */
  method AssignedEndIteratorHasNoQueue(e: Entry) returns (target: Iterator)
    ensures target.d == null && target.state == Ready
  {
    var s, it := OneReplyIterator(e);
    target := new Iterator.End();
    var o := target.AssignAsWritten(it);
  }

  /** The same assignment with the queue taken along: the target continues
      exactly where the source is. */
  method AssignedEndIteratorContinues(e: Entry) returns (target: Iterator)
    ensures target.Valid() && target.d != null && target.state == Ready && target.Pending() == [e]
  {
    var s, it := OneReplyIterator(e);
    target := new Iterator.End();
    var o := target.Assign(it);
  }
}
