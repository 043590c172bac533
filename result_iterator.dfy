/** The pull iterator over a result (async_result<T>::iterator): a single-pass
    cursor fed through connect, with its own FIFO queue, that is waiting (no
    cached entry), ready (one cached entry) or at its end. A call that would
    block until the queue has an entry or is finished requires that it does. */
module ResultIterator {
  import opened Replies
  import opened AsyncResult

  datatype IterState = Waiting | Ready | AtEnd

  class Iterator {
    var d: IterQueue?
    var state: IterState
    var cached: Entry

    /** Only the default-constructed end iterator has no queue. */
    ghost predicate Valid()
      reads this
    {
      d == null ==> state == AtEnd
    }

    /** The entries this iterator has still to yield: none at the end, else the
        cached one, if ready, then the queue. */
    ghost function Pending(): seq<Entry>
      reads this, d
      requires Valid()
    {
      if state == AtEnd then [] else (if state == Ready then [cached] else []) + d.results
    }

    /** Reaching the end throws: the policy asks for it and there is an error. */
    ghost predicate EndRaises()
      reads this, d
    {
      d != null && d.policy & ThrowAtIteratorEnd != 0 && d.error != NoError
    }

    /** ensure_data would not block. */
    ghost predicate CanAdvance()
      reads this, d
      requires Valid()
    {
      state != AtEnd ==> d.finished || |Pending()| >= 1
    }

    /** Advancing past the current entry would not block. */
    ghost predicate CanStep()
      reads this, d
      requires Valid()
    {
      state != AtEnd ==> d.finished || |Pending()| >= 2
    }

    /** The queue's flags are left alone by the cursor. */
    twostate predicate QueueFlagsKept()
      reads this, d
    {
      d == old(d) &&
      (d != null ==> d.finished == old(d.finished) && d.error == old(d.error) && d.expired == old(d.expired))
    }

    /** The effect of ensure_data: no entry is lost or invented, the iterator is
        no longer waiting, and it is at its end exactly when nothing was pending. */
    twostate predicate Advanced()
      reads this, d
    {
      old(Valid()) && Valid() && QueueFlagsKept() &&
      Pending() == old(Pending()) &&
      state != Waiting &&
      (old(state) != Waiting ==> state == old(state) && cached == old(cached)) &&
      (state == AtEnd <==> old(Pending()) == []) &&
      (d != null ==> d.results == if old(state) == Waiting && old(d.results) != [] then old(d.results)[1..]
                                  else old(d.results))
    }

    /** iterator(): the end iterator. */
    constructor End()
      ensures Valid() && d == null && state == AtEnd && Pending() == []
    {
      d := null;
      state := AtEnd;
      cached := DefaultEntry;
    }

    /** iterator(async_result &): a fresh queue connected to the result as both
        its result handler and its final handler, so it receives the buffered
        entries now and the rest live. */
    constructor (r: AsyncData)
      requires r.Valid()
      modifies r
      ensures Valid() && state == Waiting && fresh(d)
      ensures d.policy == r.policy && !d.expired
      ensures Pending() == old(r.results)
      ensures d.finished == old(r.finished)
      ensures d.error == if old(r.finished) then old(r.error) else NoError
      ensures r.Valid()
      ensures r.resultHandler == Some(FeedIterator(d)) && r.finalHandler == Some(FinishIterator(d))
      ensures r.results == old(r.results) && r.statuses == old(r.statuses) && r.total == old(r.total)
      ensures r.finished == old(r.finished) && r.error == old(r.error) && r.calls == old(r.calls)
      ensures r.arrived == old(r.arrived) && r.live == old(r.live)
    {
      var q := new IterQueue(r.policy);
      d := q;
      state := Waiting;
      cached := DefaultEntry;
      new;
      r.Connect(Some(FeedIterator(q)), Some(FinishIterator(q)));
    }

    /** A copy sharing the queue, without advancing. */
    constructor Duplicate(other: Iterator)
      ensures d == other.d && state == other.state && cached == other.cached
    {
      d := other.d;
      state := other.state;
      cached := other.cached;
    }

    /** iterator(const iterator &): advance the source, then share its queue,
        state and cached entry. */
    method Copy() returns (r: Result<Iterator>)
      requires Valid() && CanAdvance()
      modifies this, d
      ensures Advanced()
      ensures r.Failure? <==> old(state) == Waiting && old(Pending()) == [] && EndRaises()
      ensures r.Failure? ==> r.error == d.error
      ensures r.Success? ==> fresh(r.value) && r.value.Valid() && r.value.d == d &&
                             r.value.state == state && r.value.Pending() == Pending()
    {
      var o := EnsureData();
      if o.Fail? {
        return Failure(o.error);
      }
      var copy := new Iterator.Duplicate(this);
      return Success(copy);
    }

    /** operator=, as intended: advance the source, then take its queue, state
        and cached entry, so that this iterator continues where the source is. */
    method Assign(other: Iterator) returns (o: Outcome)
      requires other.Valid() && other.CanAdvance()
      modifies this, other, other.d
      ensures other.Advanced()
      ensures o.Fail? <==> old(other.state) == Waiting && old(other.Pending()) == [] && other.EndRaises()
      ensures o.Fail? ==> o.error == other.d.error
      ensures o.Pass? ==> Valid() && d == other.d && state == other.state && cached == other.cached &&
                          Pending() == other.Pending()
      ensures o.Fail? && this != other ==> d == old(d) && state == old(state) && cached == old(cached)
    {
      o := other.EnsureData();
      if o.Fail? {
        return;
      }
      d := other.d;
      state := other.state;
      cached := other.cached;
    }

    /** operator= as written: it takes the source's state and cached entry but
        keeps its own queue. */
    method AssignAsWritten(other: Iterator) returns (o: Outcome)
      requires other.Valid() && other.CanAdvance()
      modifies this, other, other.d
      ensures other.Advanced()
      ensures o.Fail? <==> old(other.state) == Waiting && old(other.Pending()) == [] && other.EndRaises()
      ensures o.Fail? ==> o.error == other.d.error
      ensures o.Pass? ==> (this != other ==> d == old(d)) && state == other.state && cached == other.cached
      ensures o.Fail? && this != other ==> d == old(d) && state == old(state) && cached == old(cached)
    {
      o := other.EnsureData();
      if o.Fail? {
        return;
      }
      state := other.state;
      cached := other.cached;
    }

    /** operator==: two iterators are equal when both or neither are at their
        end (the left operand is advanced first). When the operands do not
        share a queue, or are the same iterator, each is advanced as
        ensure_data advances it, and the verdict is about their pending entries. */
    method Equals(other: Iterator) returns (r: Result<bool>)
      requires Valid() && other.Valid() && CanAdvance() && other.CanAdvance()
      requires this != other && d != null && d == other.d && state == Waiting && other.state == Waiting ==>
                 d.finished || |d.results| >= 2
      modifies this, d, other, other.d
      ensures Valid() && other.Valid() && d == old(d) && other.d == old(other.d)
      ensures r.Success? ==> state != Waiting && other.state != Waiting &&
                             (r.value <==> (state == AtEnd) == (other.state == AtEnd))
      ensures r.Success? ==> (state == AtEnd <==> old(Pending()) == [])
      ensures r.Failure? ==> (EndRaises() && r.error == d.error) || (other.EndRaises() && r.error == other.d.error)
      ensures old(this == other || d == null || d != other.d) ==>
                (r.Failure? <==> (old(state) == Waiting && old(Pending()) == [] && EndRaises()) ||
                                 (old(other.state) == Waiting && old(other.Pending()) == [] && other.EndRaises()))
      ensures QueueFlagsKept() && other.QueueFlagsKept()
      ensures old(this == other || d == null || d != other.d) ==> Advanced()
      ensures old(this == other || d == null || d != other.d) && r.Success? ==>
                other.Advanced() &&
                (r.value <==> (old(Pending()) == []) == (old(other.Pending()) == []))
    {
      var left := AtEndQuery();
      if left.Failure? {
        return Failure(left.error);
      }
      var right := other.AtEndQuery();
      if right.Failure? {
        return Failure(right.error);
      }
      return Success(left.value == right.value);
    }

    /** operator!=: the negation of operator==. */
    method NotEquals(other: Iterator) returns (r: Result<bool>)
      requires Valid() && other.Valid() && CanAdvance() && other.CanAdvance()
      requires this != other && d != null && d == other.d && state == Waiting && other.state == Waiting ==>
                 d.finished || |d.results| >= 2
      modifies this, d, other, other.d
      ensures Valid() && other.Valid() && d == old(d) && other.d == old(other.d)
      ensures r.Success? ==> state != Waiting && other.state != Waiting &&
                             (r.value <==> (state == AtEnd) != (other.state == AtEnd))
      ensures r.Success? ==> (state == AtEnd <==> old(Pending()) == [])
      ensures r.Failure? ==> (EndRaises() && r.error == d.error) || (other.EndRaises() && r.error == other.d.error)
      ensures old(this == other || d == null || d != other.d) ==>
                (r.Failure? <==> (old(state) == Waiting && old(Pending()) == [] && EndRaises()) ||
                                 (old(other.state) == Waiting && old(other.Pending()) == [] && other.EndRaises()))
      ensures QueueFlagsKept() && other.QueueFlagsKept()
      ensures old(this == other || d == null || d != other.d) ==> Advanced()
      ensures old(this == other || d == null || d != other.d) && r.Success? ==>
                other.Advanced() &&
                (r.value <==> (old(Pending()) == []) != (old(other.Pending()) == []))
    {
      var eq := Equals(other);
      if eq.Failure? {
        return Failure(eq.error);
      }
      return Success(!eq.value);
    }

    /** ensure_data. */
    method EnsureData() returns (o: Outcome)
      requires Valid() && CanAdvance()
      modifies this, d
      ensures Advanced()
      ensures o.Fail? <==> old(state) == Waiting && old(Pending()) == [] && EndRaises()
      ensures o.Fail? ==> o.error == d.error
    {
      o := Pass;
      if state == Waiting {
        if d.results == [] {
          state := AtEnd;
          o := Raised(d.policy, ThrowAtIteratorEnd, d.error);
        } else {
          state := Ready;
          cached := d.results[0];
          d.results := d.results[1..];
        }
      }
    }

    /** operator* (operator-> exposes the same cached entry): the next pending
        entry, or -ENOENT at the end. */
    method Deref() returns (r: Result<Entry>)
      requires Valid() && CanAdvance()
      modifies this, d
      ensures Advanced()
      ensures r.Success? <==> old(Pending()) != []
      ensures r.Success? ==> r.value == old(Pending())[0]
      ensures r.Failure? ==> r.error == if old(state) == Waiting && EndRaises() then d.error else Err(-ENOENT)
    {
      var o := EnsureData();
      if o.Fail? {
        return Failure(o.error);
      }
      if state == AtEnd {
        return Failure(Err(-ENOENT));
      }
      return Success(cached);
    }

    /** at_end(). */
    method AtEndQuery() returns (r: Result<bool>)
      requires Valid() && CanAdvance()
      modifies this, d
      ensures Advanced()
      ensures r.Failure? <==> old(state) == Waiting && old(Pending()) == [] && EndRaises()
      ensures r.Failure? ==> r.error == d.error
      ensures r.Success? ==> (r.value <==> old(Pending()) == [])
    {
      var o := EnsureData();
      if o.Fail? {
        return Failure(o.error);
      }
      return Success(state == AtEnd);
    }

    /** operator++ (prefix): -ENOENT at the end; otherwise drop the current
        entry and advance at once to the next one or to the end. */
    method Increment() returns (o: Outcome)
      requires Valid() && CanStep()
      modifies this, d
      ensures Valid() && QueueFlagsKept() && state != Waiting
      ensures old(Pending()) != [] ==> Pending() == old(Pending())[1..]
      ensures old(Pending()) == [] ==> Pending() == []
      ensures state == AtEnd <==> |old(Pending())| <= 1
      ensures old(Pending()) == [] ==>
                o == Fail(if old(state) == Waiting && EndRaises() then d.error else Err(-ENOENT))
      ensures |old(Pending())| == 1 ==> o == if EndRaises() then Fail(d.error) else Pass
      ensures |old(Pending())| >= 2 ==> o == Pass
    {
      o := EnsureData();
      if o.Fail? {
        return;
      }
      if state == AtEnd {
        return Fail(Err(-ENOENT));
      }
      state := Waiting;
      o := EnsureData();
    }

    /** operator++(int): advance to the current entry, copy the iterator (the
        copy's own ensure_data then has nothing to do), then increment; the copy
        holds the entry that was current. */
    method PostIncrement() returns (r: Result<Iterator>)
      requires Valid() && CanStep()
      modifies this, d
      ensures Valid() && QueueFlagsKept() && state != Waiting
      ensures old(Pending()) != [] ==> Pending() == old(Pending())[1..]
      ensures old(Pending()) == [] ==> Pending() == []
      ensures state == AtEnd <==> |old(Pending())| <= 1
      ensures r.Failure? <==> old(Pending()) == [] || (|old(Pending())| == 1 && EndRaises())
      ensures old(Pending()) == [] ==>
                r.Failure? && r.error == if old(state) == Waiting && EndRaises() then d.error else Err(-ENOENT)
      ensures |old(Pending())| == 1 && r.Failure? ==> r.error == d.error
      ensures r.Success? ==> fresh(r.value) && r.value.d == d
      ensures r.Success? ==> r.value.state == Ready && r.value.cached == old(Pending())[0]
    {
      var o := EnsureData();
      if o.Fail? {
        return Failure(o.error);
      }
      var tmp := new Iterator.Duplicate(this);
      o := Increment();
      if o.Fail? {
        return Failure(o.error);
      }
      return Success(tmp);
    }
  }
}
