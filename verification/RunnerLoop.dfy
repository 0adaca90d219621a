/** The run loop in place: the variables of `#execute`, updated between its awaits (packages/core/src/runner.ts). */
module RunnerLoop {
  import opened Wrappers
  import opened Messages
  import opened Control
  import opened Runner
  import opened RunLog
  import opened RunnerBudget
  import opened RunnerInvariant
  import opened RunnerKept
  import opened RunnerStory
  import opened RunnerContext

  class AgentRun {
    const request: Request
    const control: AgentRunControl
    var pc: Pc
    var turns: nat
    var context: seq<Entry>
    var requestAborted: bool
    var lastAgentMessage: string
    var emptyFinalRepairIssued: bool
    var allowRepairTurn: bool
    var remainingRepairTurns: nat
    var toolTurns: nat
    var synthesisOnly: bool
    var cloned: seq<Entry>
    var draining: seq<Message>
    var attempts: seq<nat>
    var waited: seq<nat>
    var finalMessage: Option<seq<Block>>
    var failure: Option<Failure>
    var contentEmitted: bool
    var log: seq<Event>
    var accepted: seq<Message>

    function View(): Run
      reads this, control
    {
      Run(pc, turns, context, control.View(), requestAborted, lastAgentMessage, emptyFinalRepairIssued, allowRepairTurn,
          remainingRepairTurns, toolTurns, synthesisOnly, cloned, draining, attempts, waited, finalMessage, failure,
          contentEmitted, log, accepted)
    }

    /** What holds at every await. */
    ghost predicate Valid()
      reads this, control
    {
      Sound(request, View())
    }

    constructor (request: Request)
      ensures Valid() && View() == Initial(request) && this.request == request && fresh(control)
    {
      this.request := request;
      control := new AgentRunControl();
      pc, turns, context, requestAborted, lastAgentMessage := Begin, 0, Entries(request.context, Given), false, "";
      emptyFinalRepairIssued, allowRepairTurn, remainingRepairTurns, toolTurns := false, false, REPAIR_TURNS, 0;
      synthesisOnly, cloned, draining, attempts, waited := false, [], [], [], [];
      finalMessage, failure, contentEmitted, log, accepted := None, None, false, [], [];
      new;
      SoundStart(request);
    }

    // ----- what others do at an await ------------------------------------------------------

    method Steer(message: Message)
      requires Valid()
      modifies this, control
      ensures Valid() && View() == Next(request, old(View()), Action.Steer(message))
    {
      SoundStep(request, View(), Action.Steer(message));
      hide Sound, Next;
      Enqueue(message);
    }

    method Enqueue(message: Message)
      modifies this`accepted, control
      ensures View() == Next(request, old(View()), Action.Steer(message))
    {
      hide Resume, Answers;
      var taken := control.Steer(message);
      if taken { accepted := accepted + [message]; }
    }

    method Cancel()
      requires Valid()
      modifies control
      ensures Valid() && View() == Next(request, old(View()), Action.Cancel)
    {
      SoundStep(request, View(), Action.Cancel);
      hide Sound, Resume, Answers;
      control.Cancel();
    }

    method AbortRequest()
      requires Valid()
      modifies this
      ensures Valid() && View() == Next(request, old(View()), Action.AbortRequest)
    {
      SoundStep(request, View(), Action.AbortRequest);
      hide Sound, Resume, Answers;
      requestAborted := true;
    }

    // ----- pieces --------------------------------------------------------------------------

    method Emit(event: Event)
      modifies this`log
      ensures log == old(log) + [event]
    {
      log := log + [event];
    }

    /** The message is refused, messages join the context, and another turn is asked for. */
    method Repeat(repairs: nat, entries: seq<Entry>)
      modifies this`log, this`context, this`allowRepairTurn, this`pc
      ensures View() == Refuse(old(View()), repairs, entries)
    {
      hide KeepsTurn, KeepsBudget, Logs;
      Emit(FinalRejected(turns, repairs));
      context := context + entries;
      allowRepairTurn, pc := true, Top;
    }

    /** The `catch` block: an aborted run ends cancelled, any other failed. */
    method Catch(aborted: bool)
      modifies this`log, this`pc
      ensures View() == Fail(old(View()), aborted)
    {
      hide KeepsTurn, KeepsBudget, Logs;
      var status := if control.cancelled || requestAborted || aborted then Cancelled else Failed;
      Emit(RunState(status));
      Emit(RunEnded(status));
      pc := Ended(status);
    }

    method CountTurn()
      requires LoopTest(request, View())
      modifies this`remainingRepairTurns, this`allowRepairTurn, this`turns, this`attempts, this`waited
      ensures remainingRepairTurns == old(
        if MaxTurns(request).Some? && turns >= MaxTurns(request).value then remainingRepairTurns - 1
          else remainingRepairTurns)
      ensures !allowRepairTurn && turns == old(turns) + 1 && attempts == old(attempts) + [0]
        && waited == old(waited) + [0]
    {
      var limit := MaxTurns(request);
      if limit.Some? && turns >= limit.value { remainingRepairTurns := remainingRepairTurns - 1; }
      allowRepairTurn := false;
      turns := turns + 1;
      attempts, waited := attempts + [0], waited + [0];
    }

    method CountAttempt()
      requires attempts != []
      modifies this`attempts, this`finalMessage, this`failure, this`contentEmitted
      ensures attempts == old(attempts[|attempts| - 1 := attempts[|attempts| - 1] + 1])
      ensures finalMessage.None? && failure.None? && !contentEmitted
    {
      var n := |attempts| - 1;
      attempts := attempts[n := attempts[n] + 1];
      finalMessage, failure, contentEmitted := None, None, false;
    }

    method CountTools()
      modifies this`toolTurns, this`allowRepairTurn
      ensures toolTurns == old(toolTurns) + 1
        && allowRepairTurn == (old(allowRepairTurn) || BudgetSpent(request, toolTurns))
    {
      toolTurns := toolTurns + 1;
      if request.toolTurnBudget.Some? && toolTurns >= request.toolTurnBudget.value.maximum { allowRepairTurn := true; }
    }

    // ----- the pieces of `Answered`: each stretch of the loop from one await to the next -----------

    method BeginRun()
      modifies this`log, this`pc
      ensures View() == StepBegin(old(View()))
    {
      hide KeepsTurn, KeepsBudget, Logs, Fail;
      if control.cancelled || requestAborted {
        Catch(true);
      } else {
        Emit(RunStarted);
        pc := Announce;
      }
    }

    /** The loop test, the abort check, the turn count and the drain at the top of a turn. */
    method TopOfTurn()
      modifies this, control
      ensures View() == StepTop(request, old(View()))
    {
      hide KeepsTurn, KeepsBudget, Logs, Fail;
      var limit := MaxTurns(request);
      if !(limit.None? || turns < limit.value || (allowRepairTurn && remainingRepairTurns > 0)) {
        Catch(false);
      } else if control.cancelled || requestAborted {
        Catch(true);
      } else {
        OpenTurn();
      }
    }

    method OpenTurn()
      requires LoopTest(request, View())
      requires !Aborted(View())
      modifies this, control
      ensures View() == StepTop(request, old(View()))
    {
      hide KeepsTurn, KeepsBudget, Logs, Fail;
      CountTurn();
      draining := control.DrainSteering();
      pc := TopDrain;
    }

    method AppendDrained()
      requires draining != []
      modifies this`context, this`log, this`draining
      ensures View() == StepDrain(old(View()))
    {
      hide KeepsTurn, KeepsBudget, Logs;
      context := context + [Entry(draining[0], Steered)];
      Emit(SteerAccepted(draining[0]));
      draining := draining[1..];
    }

    method CloneContext(offered: seq<Message>)
      modifies this`synthesisOnly, this`cloned, this`log, this`pc
      ensures View() == StepClone(request, old(View()), offered)
    {
      hide KeepsTurn, KeepsBudget, Logs;
      synthesisOnly := BudgetSpent(request, toolTurns);
      cloned := context;
      var effective := if synthesisOnly then offered + [User(request.toolTurnBudget.value.synthesisPrompt)]
        else offered;
      Emit(TurnStarted(turns, effective, !synthesisOnly));
      pc := Attempt;
    }

    method StartAttempt()
      requires attempts != []
      modifies this`attempts, this`finalMessage, this`failure, this`contentEmitted, this`log, this`pc
      ensures View() == StepAttempt(old(View()))
    {
      hide KeepsTurn, KeepsBudget, Logs, Fail;
      if control.cancelled || requestAborted {
        Catch(true);
      } else {
        CountAttempt();
        pc := Streaming;
      }
    }

    method OnStream(event: StreamEvent)
      requires attempts != []
      modifies this`log, this`contentEmitted, this`finalMessage, this`failure
      ensures View() == StepStream(old(View()), event)
    {
      hide KeepsTurn, KeepsBudget, Logs;
      match event
      case Started => Emit(ModelStarted(turns));
      case Content(kind) => ShowContent(kind);
      case Done(content) => finalMessage := Some(content);
      case Error(error) => failure := Some(error);
    }

    method ShowContent(kind: DeltaKind)
      requires attempts != []
      modifies this`log, this`contentEmitted
      ensures contentEmitted && log == old(log) + [Delta(turns, attempts[|attempts| - 1], kind)]
    {
      contentEmitted := true;
      Emit(Delta(turns, attempts[|attempts| - 1], kind));
    }

    method StreamEnded()
      requires attempts != [] && |waited| == |attempts|
      modifies this`waited, this`log, this`pc
      ensures View() == StepStreamEnds(old(View()))
    {
      hide KeepsTurn, KeepsBudget, Logs, Fail, RetryDelayMs;
      var n := |attempts| - 1;
      var attempt := attempts[n];
      if failure.Some? && failure.value.retryable && !contentEmitted && 1 <= attempt < INFERENCE_MAX_ATTEMPTS {
        waited := waited[n := waited[n] + RetryDelayMs(attempt)];
        pc := Attempt;
      } else if failure.Some? {
        Catch(failure.value.aborted);
      } else if finalMessage.None? {
        Catch(false);
      } else {
        pc := Judge;
      }
    }

    method JudgeMessage()
      requires finalMessage.Some?
      modifies this`emptyFinalRepairIssued, this`log, this`context, this`allowRepairTurn, this`pc
      ensures View() == StepJudge(request, old(View()))
    {
      hide KeepsTurn, KeepsBudget, Logs, Fail, Refuse, Calls, TextOf, Blank;
      var content := finalMessage.value;
      if Calls(content) == [] && Blank(TextOf(content)) {
        if emptyFinalRepairIssued {
          Catch(false);
        } else {
          emptyFinalRepairIssued := true;
          Repeat(1, [Entry(Assistant(content), Model(turns)), Entry(EMPTY_REPAIR, Repair)]);
        }
      } else {
        pc := if Calls(content) == [] && request.reviews then Review else Append;
      }
    }

    method Reviewed(repair: seq<Message>)
      requires finalMessage.Some?
      modifies this`context, this`log, this`allowRepairTurn, this`pc
      ensures View() == StepReview(old(View()), repair)
    {
      hide KeepsTurn, KeepsBudget, Logs, Entries, Refuse;
      if repair != [] {
        Repeat(|repair|, [Entry(Assistant(finalMessage.value), Model(turns))] + Entries(repair, Repair));
      } else {
        pc := Append;
      }
    }

    /** The message joins the context; tools, late steering or the end come next. */
    method AppendMessage()
      requires finalMessage.Some?
      modifies this, control
      ensures View() == StepAppend(old(View()))
    {
      hide KeepsTurn, KeepsBudget, Logs, Calls, TextOf, StepCalls, StepLateSteering, Runner.Answered;
      JoinContext();
      if Calls(finalMessage.value) != [] { CallTools(); } else { DrainLate(); }
    }

    method JoinContext()
      requires finalMessage.Some?
      modifies this`context, this`lastAgentMessage
      ensures View() == Runner.Answered(old(View()))
    {
      hide TextOf;
      var text := TextOf(finalMessage.value);
      context := context + [Entry(Assistant(finalMessage.value), Model(turns))];
      if text != "" { lastAgentMessage := text; }
    }

    method CallTools()
      requires finalMessage.Some?
      modifies this
      ensures View() == StepCalls(old(View()))
    {
      hide KeepsTurn, KeepsBudget, Logs, Refuse;
      if synthesisOnly {
        Repeat(1, [Entry(TOOLS_GONE, Repair)]);
      } else {
        Emit(MessageCompleted(turns, Assistant(finalMessage.value), Commentary));
        Emit(RunState(ExecutingTools));
        pc := RunTools;
      }
    }

    method DrainLate()
      modifies this, control
      ensures View() == StepLateSteering(old(View()))
    {
      hide KeepsTurn, KeepsBudget, Logs;
      var late := control.DrainSteering();
      if late != [] {
        Emit(FinalRejected(turns, |late|));
        draining, pc := late, LateDrain;
      } else {
        pc := BeforeComplete;
      }
    }

    method ToolsReturned(outcomes: seq<Tools.Outcome>)
      requires finalMessage.Some? && |outcomes| == |Calls(finalMessage.value)|
      modifies this`context, this`toolTurns, this`allowRepairTurn, this`log, this`pc
      ensures View() == StepTools(request, old(View()), outcomes)
    {
      hide KeepsTurn, KeepsBudget, Logs, Calls, Tools.Results, Entries, BudgetSpent;
      AppendResults(Tools.Results(Calls(finalMessage.value), outcomes));
    }

    method AppendResults(results: seq<Message>)
      modifies this`context, this`toolTurns, this`allowRepairTurn, this`log, this`pc
      ensures context == old(context) + Entries(results, ToolOutput) && toolTurns == old(toolTurns) + 1 && pc == Top
      ensures allowRepairTurn == (old(allowRepairTurn) || BudgetSpent(request, toolTurns))
      ensures log == old(log) + [RunState(InProgress)]
    {
      hide Entries;
      context := context + Entries(results, ToolOutput);
      CountTools();
      Emit(RunState(InProgress));
      pc := Top;
    }

    method AskedBeforeComplete(outstanding: seq<Message>)
      modifies this`context, this`log, this`allowRepairTurn, this`pc
      ensures View() == StepBeforeComplete(old(View()), outstanding)
    {
      hide KeepsTurn, KeepsBudget, Logs, Refuse, Entries;
      if outstanding != [] { Repeat(|outstanding|, Entries(outstanding, Repair)); } else { pc := Seal; }
    }

    method SealAndComplete()
      requires finalMessage.Some?
      modifies this, control
      ensures View() == StepSeal(old(View()))
    {
      hide KeepsTurn, KeepsBudget, Logs, Refuse;
      var sealed := control.SealSteeringIfEmpty();
      if !sealed {
        Repeat(1, []);
      } else {
        Emit(MessageCompleted(turns, Assistant(finalMessage.value), Final));
        Emit(RunState(Completed));
        Emit(RunEnded(Completed));
        pc := Ended(Completed);
      }
    }

    method Advance(a: Action)
      requires Answers(request, View(), a)
      modifies this, control
      ensures View() == Resume(request, old(View()), a)
    {
      hide KeepsTurn, KeepsBudget, Logs, Fail;
      if a.Throws? {
        Catch(a.aborted);
      } else if pc.Begin? || pc.Announce? || pc.Top? || pc.TopDrain? || pc.Clone? || pc.Attempt? || pc.Streaming? {
        hide Answers, Resume;
        AdvanceToStream(a);
      } else {
        hide Answers, Resume;
        AdvanceToEnd(a);
      }
    }

    method AdvanceToStream(a: Action)
      requires Answers(request, View(), a) && !a.Throws?
      requires pc.Begin? || pc.Announce? || pc.Top? || pc.TopDrain? || pc.Clone? || pc.Attempt? || pc.Streaming?
      modifies this, control
      ensures View() == Resume(request, old(View()), a)
    {
      hide KeepsTurn, KeepsBudget, Logs, MessagesOf, StepBegin, StepTop, StepDrain, StepClone, StepAttempt,
        StepStream, StepStreamEnds;
      if pc.Begin? { BeginRun(); }
      else if pc.Announce? { Emit(RunState(InProgress)); pc := Top; }
      else if pc.Top? { TopOfTurn(); }
      else if pc.TopDrain? { if draining == [] { pc := Clone; } else { AppendDrained(); } }
      else if pc.Clone? { CloneContext(if request.transforms then a.offered else MessagesOf(context)); }
      else if pc.Attempt? { StartAttempt(); }
      else if a.Stream? { OnStream(a.event); }
      else { StreamEnded(); }
    }

    method AdvanceToEnd(a: Action)
      requires Answers(request, View(), a) && !a.Throws?
      requires pc.Judge? || pc.Review? || pc.Append? || pc.RunTools? || pc.LateDrain? || pc.BeforeComplete? || pc.Seal?
      modifies this, control
      ensures View() == Resume(request, old(View()), a)
    {
      hide KeepsTurn, KeepsBudget, Logs, Calls, StepDrain, StepJudge, StepReview, StepAppend, StepTools,
        StepBeforeComplete, StepSeal;
      if pc.Judge? { JudgeMessage(); }
      else if pc.Review? { Reviewed(a.repair); }
      else if pc.Append? { AppendMessage(); }
      else if pc.RunTools? { ToolsReturned(a.outcomes); }
      else if pc.LateDrain? { if draining == [] { allowRepairTurn, pc := true, Top; } else { AppendDrained(); } }
      else if pc.BeforeComplete? { AskedBeforeComplete(if request.asksBeforeComplete then a.messages else []); }
      else { SealAndComplete(); }
    }

    // ----- whole runs ------------------------------------------------------------------------

    /** The awaited party answers, and the run goes on to its next await; what nobody awaits changes nothing. */
    method Answered(a: Action)
      requires Valid() && !a.Steer? && !a.Cancel? && !a.AbortRequest?
      modifies this, control
      ensures Valid() && View() == Next(request, old(View()), a)
    {
      SoundStep(request, View(), a);
      hide Sound, Resume, Answers;
      if Answers(request, View(), a) { Advance(a); }
    }

    method Step(a: Action)
      requires Valid()
      modifies this, control
      ensures Valid() && View() == Next(request, old(View()), a)
    {
      hide Sound, Next;
      match a
      case Steer(message) => Steer(message);
      case Cancel => Cancel();
      case AbortRequest => AbortRequest();
      case _ => Answered(a);
    }
  }

  /**
   * A whole run under any interleaving.  Its variables are those of the transition system; its context and its
   * log are those its answers tell, with the result of every call in its place; no accepted message is lost, the
   * turns are bounded, what is completed is what was kept, and a completed run has read all its steering, takes
   * no more, and ends on the answer it reports.
   */
  method Execute(request: Request, actions: seq<Action>) returns (run: AgentRun)
    ensures fresh(run) && fresh(run.control) && run.request == request && run.Valid()
    ensures run.View() == Exec(request, Initial(request), actions)
    ensures run.context ==
      Entries(request.context, Given) + ContextTold(request, Initial(request), SILENCE, actions)
    ensures run.log == LogTold(request, Initial(request), SILENCE, actions)
    ensures Paired(run.context, Waits(run.pc))
    ensures run.accepted == SteeredIn(run.context) + run.draining + run.control.steering
    ensures MaxTurns(request).Some? ==> run.turns <= MaxTurns(request).value + REPAIR_TURNS
    ensures |run.attempts| == run.turns && forall k :: 0 <= k < run.turns ==> run.attempts[k] <= INFERENCE_MAX_ATTEMPTS
    ensures CompletedMessages(run.log) == Kept(run.context, run.log)
    ensures WithinBudget(request, ToolBatches(run.log))
    ensures run.pc == Ended(Completed) ==>
      && run.control.steering == [] && !run.control.acceptingSteering && run.accepted == SteeredIn(run.cloned)
      && run.context != [] && run.context[|run.context| - 1].message.Assistant? && !Blank(run.lastAgentMessage)
      && run.lastAgentMessage == TextOf(run.context[|run.context| - 1].message.content)
      && Finals(run.log) == 1
  {
    hide Sound, Next, Initial;
    run := new AgentRun(request);
    assert actions[0..] == actions;
    for i := 0 to |actions|
      invariant fresh(run) && fresh(run.control) && run.request == request && run.Valid()
      invariant Exec(request, run.View(), actions[i..]) == Exec(request, Initial(request), actions)
    {
      assert actions[i..][0] == actions[i] && actions[i..][1..] == actions[i + 1..];
      run.Step(actions[i]);
    }
    hide SteeredIn, Kept, CompletedMessages, Finals, TextOf, Blank, ToolBatches, WithinBudget, Exec;
    Promises(request, run.View());
    hide ContextTold, LogTold, Listens, Paired;
    StoryOfRun(request, actions);
    EveryCallAnswered(request, actions);
  }
}
