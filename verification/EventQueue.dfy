/** The event queue between a run and its reader (packages/core/src/runner.ts, `AsyncEventQueue`). */
module EventQueue {
  /** What a call of `next` has been answered so far. */
  datatype Answer<T> = Pending | Value(value: T) | Done

  /** The queue, and the answers to every call of `next` in call order.  A waiter is named by the
      number of the call that left it. */
  datatype Queue<T> = Queue(values: seq<T>, waiters: seq<nat>, closed: bool, answers: seq<Answer<T>>)

  datatype Op<T> = Push(value: T) | Next | Close

  class AsyncEventQueue<T> {
    var values: seq<T>
    var waiters: seq<nat>
    var closed: bool
    var answers: seq<Answer<T>>
    /** Every call made on the queue, in order. */
    ghost var calls: seq<Op<T>>

    ghost function View(): Queue<T> reads this { Queue(values, waiters, closed, answers) }

    /** The k-th `next` has what is due to it, and the rest is buffered or waits. */
    ghost predicate Valid()
      reads this
    {
      View() == After(calls) && Meets(View(), Accepted(calls), Closed(calls), Asked(calls))
    }

    constructor ()
      ensures Valid() && calls == []
    {
      values, waiters, closed, answers, calls := [], [], false, [], [];
      new;
      History(calls);
    }

    method Push(value: T)
      requires Valid()
      modifies this
      ensures Valid() && calls == old(calls) + [Op.Push(value)]
    {
      hide Meets, Closed;
      Recorded(calls, Op.Push(value));
      calls := calls + [Op.Push(value)];
      if closed { return; }
      if |waiters| > 0 {
        var waiter := waiters[0];
        waiters := waiters[1..];
        answers := answers[waiter := Value(value)];
      } else {
        values := values + [value];
      }
    }

    method Close()
      requires Valid()
      modifies this
      ensures Valid() && calls == old(calls) + [Op.Close]
    {
      hide Meets, Closed;
      Recorded(calls, Op.Close);
      calls := calls + [Op.Close];
      closed := true;
      ghost var asked := answers;
      var i := 0;
      while i < |waiters|
        modifies this`answers
        invariant 0 <= i <= |waiters|
        invariant answers == EndAll(asked, waiters[..i])
      {
        assert waiters[..i + 1][..i] == waiters[..i];
        answers := answers[waiters[i] := Done];
        i := i + 1;
      }
      assert waiters[..i] == waiters;
      EndAllAnswers(asked, waiters);
      waiters := [];
    }

    /** A call of the iterator's `next`; its answer may come later. */
    method Next() returns (call: nat)
      requires Valid()
      modifies this
      ensures Valid() && call == old(|answers|) && calls == old(calls) + [Op.Next]
    {
      hide Meets, Closed;
      Recorded(calls, Op.Next);
      calls := calls + [Op.Next];
      call := |answers|;
      if |values| > 0 {
        answers := answers + [Value(values[0])];
        values := values[1..];
      } else if closed {
        answers := answers + [Done];
      } else {
        answers := answers + [Pending];
        waiters := waiters + [call];
      }
    }
  }

  lemma Recorded<T>(calls: seq<Op<T>>, op: Op<T>)
    ensures After(calls + [op]) == Apply(After(calls), op)
    ensures var all := calls + [op]; Meets(After(all), Accepted(all), Closed(all), Asked(all))
  {
    assert (calls + [op])[..|calls|] == calls;
    History(calls + [op]);
  }

  /** Every waiter is told there is nothing more. */
  function EndAll<T>(answers: seq<Answer<T>>, waiters: seq<nat>): (ended: seq<Answer<T>>)
    requires forall i :: 0 <= i < |waiters| ==> waiters[i] < |answers|
    ensures |ended| == |answers|
  {
    if waiters == [] then answers
    else EndAll(answers, waiters[..|waiters| - 1])[waiters[|waiters| - 1] := Done]
  }

  lemma {:induction false} EndAllAnswers<T>(answers: seq<Answer<T>>, waiters: seq<nat>)
    requires forall i :: 0 <= i < |waiters| ==> waiters[i] < |answers|
    ensures forall k :: 0 <= k < |answers| ==>
      EndAll(answers, waiters)[k] == (if k in waiters then Done else answers[k])
  {
    if waiters != [] {
      var n := |waiters| - 1;
      EndAllAnswers(answers, waiters[..n]);
      assert waiters == waiters[..n] + [waiters[n]];
    }
  }

  predicate Wired<T>(q: Queue<T>) {
    forall i :: 0 <= i < |q.waiters| ==> q.waiters[i] < |q.answers|
  }

  function Apply<T>(q: Queue<T>, op: Op<T>): (q': Queue<T>)
    requires Wired(q)
    ensures Wired(q')
  {
    match op
    case Push(value) =>
      if q.closed then q
      else if q.waiters != [] then q.(waiters := q.waiters[1..], answers := q.answers[q.waiters[0] := Value(value)])
      else q.(values := q.values + [value])
    case Close => Queue(q.values, [], true, EndAll(q.answers, q.waiters))
    case Next =>
      if q.values != [] then q.(values := q.values[1..], answers := q.answers + [Value(q.values[0])])
      else if q.closed then q.(answers := q.answers + [Done])
      else q.(answers := q.answers + [Pending], waiters := q.waiters + [|q.answers|])
  }

  // ----- every sequence of calls -----------------------------------------------------------

  /** The values pushed before the first `close`. */
  function Accepted<T>(ops: seq<Op<T>>): seq<T> {
    if ops == [] then []
    else
      var n := |ops| - 1;
      Accepted(ops[..n]) + (if ops[n].Push? && !Closed(ops[..n]) then [ops[n].value] else [])
  }

  predicate Closed<T>(ops: seq<Op<T>>) {
    exists i :: 0 <= i < |ops| && ops[i].Close?
  }

  function Asked<T>(ops: seq<Op<T>>): nat {
    if ops == [] then 0 else Asked(ops[..|ops| - 1]) + (if ops[|ops| - 1].Next? then 1 else 0)
  }

  /** The queue after a sequence of calls. */
  function After<T>(ops: seq<Op<T>>): (q: Queue<T>)
    ensures Wired(q)
  {
    if ops == [] then Queue([], [], false, []) else Apply(After(ops[..|ops| - 1]), ops[|ops| - 1])
  }

  /** What the k-th call of `next` must have been told. */
  function Due<T>(accepted: seq<T>, closed: bool, k: nat): Answer<T> {
    if k < |accepted| then Value(accepted[k]) else if closed then Done else Pending
  }

  /** The queue that belongs to these values, this closing and this many calls of `next`. */
  ghost predicate Meets<T>(q: Queue<T>, accepted: seq<T>, closed: bool, asked: nat) {
    && q.closed == closed && |q.answers| == asked
    && (forall k: nat :: k < asked ==> q.answers[k] == Due(accepted, closed, k))
    && q.values == (if asked <= |accepted| then accepted[asked..] else [])
    && |q.waiters| == (if closed || asked <= |accepted| then 0 else asked - |accepted|)
    && (forall i :: 0 <= i < |q.waiters| ==> q.waiters[i] == |accepted| + i)
  }

  lemma MeetsNext<T>(q: Queue<T>, accepted: seq<T>, closed: bool, asked: nat)
    requires Meets(q, accepted, closed, asked)
    ensures Wired(q) && Meets(Apply(q, Op.Next), accepted, closed, asked + 1)
  {}

  lemma MeetsPush<T>(q: Queue<T>, accepted: seq<T>, asked: nat, value: T)
    requires Meets(q, accepted, false, asked)
    ensures Wired(q) && Meets(Apply(q, Op.Push(value)), accepted + [value], false, asked)
  {}

  lemma MeetsClose<T>(q: Queue<T>, accepted: seq<T>, closed: bool, asked: nat)
    requires Meets(q, accepted, closed, asked)
    ensures Wired(q) && Meets(Apply(q, Op.Close), accepted, true, asked)
  {
    EndAllAnswers(q.answers, q.waiters);
    forall k: nat | k < asked ensures k in q.waiters <==> !closed && |accepted| <= k {
      if !closed && |accepted| <= k { assert q.waiters[k - |accepted|] == k; }
    }
  }

  /** After every sequence of calls the k-th `next` has the k-th value pushed before the close, or is
      told the end if there were fewer, or is still waiting if nothing was closed; values are buffered
      only while nobody waits. */
  lemma {:induction false} History<T>(ops: seq<Op<T>>)
    ensures Meets(After(ops), Accepted(ops), Closed(ops), Asked(ops))
    ensures After(ops).values == [] || After(ops).waiters == []
  {
    if ops != [] {
      History(ops[..|ops| - 1]);
      HistoryMore(ops[..|ops| - 1], ops[|ops| - 1]);
      assert ops == ops[..|ops| - 1] + [ops[|ops| - 1]];
    }
  }

  lemma HistoryMore<T>(ops: seq<Op<T>>, op: Op<T>)
    requires Meets(After(ops), Accepted(ops), Closed(ops), Asked(ops))
    ensures var all := ops + [op]; Meets(After(all), Accepted(all), Closed(all), Asked(all))
  {
    var q := After(ops);
    OneMore(ops, op);
    hide Meets, After, Accepted, Closed, Asked, Apply;
    match op
    case Next => MeetsNext(q, Accepted(ops), Closed(ops), Asked(ops));
    case Close => MeetsClose(q, Accepted(ops), Closed(ops), Asked(ops));
    case Push(value) =>
      if Closed(ops) {
        PushIgnored(q, Accepted(ops), Asked(ops), value);
      } else {
        MeetsPush(q, Accepted(ops), Asked(ops), value);
      }
  }

  lemma OneMore<T>(ops: seq<Op<T>>, op: Op<T>)
    ensures After(ops + [op]) == Apply(After(ops), op)
    ensures Accepted(ops + [op]) == if op.Push? && !Closed(ops) then Accepted(ops) + [op.value] else Accepted(ops)
    ensures Closed(ops + [op]) <==> Closed(ops) || op.Close?
    ensures Asked(ops + [op]) == if op.Next? then Asked(ops) + 1 else Asked(ops)
  {
    assert (ops + [op])[..|ops|] == ops;
    ClosedMore(ops + [op]);
    hide Closed, Apply;
  }

  lemma PushIgnored<T>(q: Queue<T>, accepted: seq<T>, asked: nat, value: T)
    requires Meets(q, accepted, true, asked)
    ensures Wired(q) && Meets(Apply(q, Op.Push(value)), accepted, true, asked)
  {
  }

  lemma ClosedMore<T>(ops: seq<Op<T>>)
    requires ops != []
    ensures Closed(ops) <==> Closed(ops[..|ops| - 1]) || ops[|ops| - 1].Close?
  {
    var n := |ops| - 1;
    if i :| 0 <= i < n && ops[i].Close? { assert ops[..n][i].Close?; }
  }
}
