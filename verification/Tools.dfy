/** One batch of tool calls (packages/core/src/runner.ts, `#executeTools`). */
module Tools {
  import opened Wrappers
  import opened Messages

  datatype Outcome = Outcome(output: string, isError: bool)

  /** What the host does with one call: whether the tool exists, what the hook says, how the tool ends. */
  datatype Fate =
    | Unknown
    | AbortedBefore
    | HookThrows(abortedByThen: bool, error: string)
    | Blocked(reason: string)
    | ToolThrows(progress: nat, abortedByThen: bool, error: string)
    | ToolReturns(progress: nat, outcome: Outcome)

  datatype ToolEvent =
    | Started(call: Call)
    | Progress(callId: string)
    | Finished(call: Call, outcome: Outcome)
    | Broken(call: Call, error: string)

  function ToolMessage(call: Call, outcome: Outcome): Message {
    ToolResult(call.id, call.name, outcome.output, outcome.isError)
  }

  function Results(calls: seq<Call>, outcomes: seq<Outcome>): (results: seq<Message>)
    requires |calls| == |outcomes|
    ensures |results| == |calls|
    ensures forall i :: 0 <= i < |calls| ==>
      results[i].ToolResult? && results[i].callId == calls[i].id && results[i].toolName == calls[i].name
    ensures forall i :: 0 <= i < |calls| ==>
      results[i].ToolResult? && results[i].output == outcomes[i].output && results[i].isError == outcomes[i].isError
  {
    seq(|calls|, i requires 0 <= i < |calls| => ToolMessage(calls[i], outcomes[i]))
  }

  function Reports(call: Call, n: nat): (es: seq<ToolEvent>)
    ensures |es| == n && forall i :: 0 <= i < n ==> es[i] == Progress(call.id)
  {
    seq(n, i => Progress(call.id))
  }

  function FailedWith(error: string): Outcome { Outcome(error, true) }

  /** What one call emits, and its outcome; no outcome when the abort is passed on. */
  function ExecuteOne(call: Call, fate: Fate): (seq<ToolEvent>, Option<Outcome>) {
    match fate
    case Unknown => ([Started(call), Broken(call, "Unknown tool: " + call.name)],
      Some(FailedWith("Unknown tool: " + call.name)))
    case AbortedBefore => ([Started(call)], None)
    case HookThrows(aborted, error) =>
      if aborted then ([Started(call)], None) else ([Started(call), Broken(call, error)], Some(FailedWith(error)))
    case Blocked(reason) => ([Started(call), Broken(call, reason)], Some(FailedWith(reason)))
    case ToolThrows(n, aborted, error) =>
      if aborted then ([Started(call)] + Reports(call, n), None)
      else ([Started(call)] + Reports(call, n) + [Broken(call, error)], Some(FailedWith(error)))
    case ToolReturns(n, outcome) => ([Started(call)] + Reports(call, n) + [Finished(call, outcome)], Some(outcome))
  }

  /** One start, first; one end, last, which tells the outcome; only progress in between. */
  ghost predicate Lifecycle(call: Call, es: seq<ToolEvent>, outcome: Outcome) {
    && |es| >= 2 && es[0] == Started(call)
    && (forall i :: 0 < i < |es| - 1 ==> es[i] == Progress(call.id))
    && match es[|es| - 1]
       case Finished(c, o) => c == call && o == outcome
       case Broken(c, error) => c == call && outcome == FailedWith(error)
       case _ => false
  }

  lemma OneLifecycle(call: Call, fate: Fate)
    ensures var (es, outcome) := ExecuteOne(call, fate);
      if outcome.Some? then Lifecycle(call, es, outcome.value)
      else |es| >= 1 && es[0] == Started(call) && forall i :: 0 < i < |es| ==> es[i] == Progress(call.id)
  {
    var (es, outcome) := ExecuteOne(call, fate);
    if outcome.Some? {
      var n := |es| - 1;
      assert forall i :: 0 < i < n ==> es[i] == Progress(call.id);
    }
  }

  /** What the model is told of each fate: the tool's own result, or an error that says what went wrong; nothing
      when the abort is passed on. */
  lemma OutcomeOfFate(call: Call, fate: Fate)
    ensures var outcome := ExecuteOne(call, fate).1;
      match fate
      case Unknown => outcome == Some(Outcome("Unknown tool: " + call.name, true))
      case AbortedBefore => outcome == None
      case Blocked(reason) => outcome == Some(Outcome(reason, true))
      case HookThrows(aborted, error) => outcome == if aborted then None else Some(Outcome(error, true))
      case ToolThrows(_, aborted, error) => outcome == if aborted then None else Some(Outcome(error, true))
      case ToolReturns(_, result) => outcome == Some(result)
    ensures var es := ExecuteOne(call, fate).0;
      fate.ToolReturns? || fate.ToolThrows? ==>
        |es| == 1 + fate.progress + (if ExecuteOne(call, fate).1.Some? then 1 else 0)
    ensures var es := ExecuteOne(call, fate).0;
      es[|es| - 1].Finished? <==> fate.ToolReturns?
  {
  }

  // ----- sequential ------------------------------------------------------------------------

  function AllEvents(calls: seq<Call>, fates: seq<Fate>): seq<ToolEvent>
    requires |calls| == |fates|
  {
    if calls == [] then []
    else AllEvents(calls[..|calls| - 1], fates[..|calls| - 1]) + ExecuteOne(calls[|calls| - 1], fates[|calls| - 1]).0
  }

  /** One call's events are out before the next call starts. */
  lemma {:induction false} OneAfterTheOther(calls: seq<Call>, fates: seq<Fate>, k: nat)
    requires k < |calls| == |fates|
    ensures AllEvents(calls, fates) ==
      AllEvents(calls[..k], fates[..k]) + ExecuteOne(calls[k], fates[k]).0 + AllEvents(calls[k + 1..], fates[k + 1..])
    decreases |calls|
  {
    hide ExecuteOne;
    var n := |calls| - 1;
    if k == n {
      assert AllEvents(calls[k + 1..], fates[k + 1..]) == [];
    } else {
      OneAfterTheOther(calls[..n], fates[..n], k);
      assert calls[..n][..k] == calls[..k] && fates[..n][..k] == fates[..k];
      assert calls[..n][k + 1..] == calls[k + 1..][..n - k - 1] && fates[..n][k + 1..] == fates[k + 1..][..n - k - 1];
    }
  }

  /** The first `n` calls all have an outcome. */
  predicate Unaborted(calls: seq<Call>, fates: seq<Fate>, n: nat)
    requires |calls| == |fates| && n <= |calls|
  {
    forall i :: 0 <= i < n ==> ExecuteOne(calls[i], fates[i]).1.Some?
  }

  function Outcomes(calls: seq<Call>, fates: seq<Fate>): (outcomes: seq<Outcome>)
    requires |calls| == |fates| && Unaborted(calls, fates, |calls|)
    ensures |outcomes| == |calls|
  {
    seq(|calls|, i requires 0 <= i < |calls| => ExecuteOne(calls[i], fates[i]).1.value)
  }

  /** One call after the other, stopping at the first that passes an abort on. */
  method ExecuteSequentially(calls: seq<Call>, fates: seq<Fate>)
    returns (results: Option<seq<Message>>, events: seq<ToolEvent>)
    requires |calls| == |fates|
    ensures results.Some? <==> Unaborted(calls, fates, |calls|)
    ensures results.Some? ==> results.value == Results(calls, Outcomes(calls, fates))
    ensures results.Some? ==> events == AllEvents(calls, fates)
    ensures results.None? ==> exists k | 0 <= k < |calls| ::
      ExecuteOne(calls[k], fates[k]).1.None? && Unaborted(calls, fates, k)
      && events == AllEvents(calls[..k + 1], fates[..k + 1])
  {
    var messages: seq<Message> := [];
    events := [];
    for k := 0 to |calls|
      invariant Unaborted(calls, fates, k)
      invariant |messages| == k
      invariant forall i :: 0 <= i < k ==> messages[i] == ToolMessage(calls[i], ExecuteOne(calls[i], fates[i]).1.value)
      invariant events == AllEvents(calls[..k], fates[..k])
    {
      var (es, outcome) := ExecuteOne(calls[k], fates[k]);
      assert calls[..k + 1][..k] == calls[..k] && fates[..k + 1][..k] == fates[..k];
      events := events + es;
      if outcome.None? { return None, events; }
      messages := messages + [ToolMessage(calls[k], outcome.value)];
    }
    assert calls[..|calls|] == calls && fates[..|calls|] == fates;
    assert messages == Results(calls, Outcomes(calls, fates));
    results := Some(messages);
  }

  // ----- parallel --------------------------------------------------------------------------

  /** Every call has emitted the first `at[i]` of its events; `log` holds them as they came, with
      the position of the call that emitted each. */
  datatype Batch = Batch(at: seq<nat>, log: seq<(nat, ToolEvent)>)

  function Script(calls: seq<Call>, fates: seq<Fate>, i: nat): seq<ToolEvent>
    requires |calls| == |fates| && i < |calls|
  {
    ExecuteOne(calls[i], fates[i]).0
  }

  /** Call `i` emits its next event, if it has one. */
  function Advance(calls: seq<Call>, fates: seq<Fate>, b: Batch, i: nat): Batch
    requires |calls| == |fates| == |b.at|
  {
    if i < |calls| && b.at[i] < |Script(calls, fates, i)| then
      Batch(b.at[i := b.at[i] + 1], b.log + [(i, Script(calls, fates, i)[b.at[i]])])
    else b
  }

  function Interleave(calls: seq<Call>, fates: seq<Fate>, b: Batch, schedule: seq<nat>): (b': Batch)
    requires |calls| == |fates| == |b.at|
    ensures |b'.at| == |b.at|
    decreases |schedule|
  {
    if schedule == [] then b
    else Interleave(calls, fates, Advance(calls, fates, b, schedule[0]), schedule[1..])
  }

  function StartBatch(calls: seq<Call>): Batch { Batch(seq(|calls|, i => 0), []) }

  /** The events of call `i` in a log. */
  function EventsOf(log: seq<(nat, ToolEvent)>, i: nat): seq<ToolEvent> {
    if log == [] then []
    else
      var last := log[|log| - 1];
      EventsOf(log[..|log| - 1], i) + (if last.0 == i then [last.1] else [])
  }

  ghost predicate InStep(calls: seq<Call>, fates: seq<Fate>, b: Batch) {
    && |calls| == |fates| == |b.at|
    && forall i :: 0 <= i < |calls| ==>
         b.at[i] <= |Script(calls, fates, i)| && EventsOf(b.log, i) == Script(calls, fates, i)[..b.at[i]]
  }

  lemma {:induction false} InterleaveInStep(calls: seq<Call>, fates: seq<Fate>, b: Batch, schedule: seq<nat>)
    requires InStep(calls, fates, b)
    ensures InStep(calls, fates, Interleave(calls, fates, b, schedule))
    decreases |schedule|
  {
    if schedule != [] {
      var i := schedule[0];
      var b' := Advance(calls, fates, b, i);
      if b' != b {
        forall j | 0 <= j < |calls|
          ensures b'.at[j] <= |Script(calls, fates, j)| && EventsOf(b'.log, j) == Script(calls, fates, j)[..b'.at[j]]
        {
          hide EventsOf;
          EventsOfGrown(b.log, b'.log[|b.log|], j);
        }
      }
      InterleaveInStep(calls, fates, b', schedule[1..]);
    }
  }

  lemma EventsOfGrown(log: seq<(nat, ToolEvent)>, e: (nat, ToolEvent), j: nat)
    ensures EventsOf(log + [e], j) == EventsOf(log, j) + (if e.0 == j then [e.1] else [])
  {
    assert (log + [e])[..|log|] == log;
  }

  ghost predicate AllDone(calls: seq<Call>, fates: seq<Fate>, b: Batch)
    requires |calls| == |fates| == |b.at|
  {
    forall i :: 0 <= i < |calls| ==> b.at[i] == |Script(calls, fates, i)|
  }

  /** However the calls of an unaborted batch interleave, once all are done each has one start and one
      end event, in that order, and the results are one per call, in call order, under the call's id. */
  lemma ParallelBatch(calls: seq<Call>, fates: seq<Fate>, schedule: seq<nat>, i: nat)
    requires |calls| == |fates| && Unaborted(calls, fates, |calls|) && i < |calls|
    requires AllDone(calls, fates, Interleave(calls, fates, StartBatch(calls), schedule))
    ensures var results := Results(calls, Outcomes(calls, fates));
      && |results| == |calls|
      && results[i].ToolResult? && results[i].callId == calls[i].id && results[i].toolName == calls[i].name
      && Outcome(results[i].output, results[i].isError) == Outcomes(calls, fates)[i]
      && Lifecycle(calls[i], EventsOf(Interleave(calls, fates, StartBatch(calls), schedule).log, i),
        Outcomes(calls, fates)[i])
  {
    InterleaveInStep(calls, fates, StartBatch(calls), schedule);
    OneLifecycle(calls[i], fates[i]);
    var script := Script(calls, fates, i);
    assert script[..|script|] == script;
  }
}
