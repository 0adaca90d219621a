/** The tool-turn budget: tools run in at most that many turns, and a tool-free turn follows. */
module RunnerBudget {
  import opened Messages
  import opened Runner
  import opened RunLog

  /** A turn offers tools exactly while fewer tool batches than the budget have been started. */
  ghost predicate Offers(r: Request, log: seq<Event>) {
    forall i :: 0 <= i < |log| && log[i].TurnStarted? ==> (log[i].tools <==> !BudgetSpent(r, ToolBatches(log[..i])))
  }

  predicate WithinBudget(r: Request, batches: nat) {
    r.toolTurnBudget.Some? ==> batches == 0 || batches <= r.toolTurnBudget.value.maximum
  }

  predicate Judged(pc: Pc) { pc.Attempt? || pc.Streaming? || pc.Judge? || pc.Review? || pc.Append? }

  ghost predicate Budgeted(r: Request, s: Run) {
    && Offers(r, s.log)
    && WithinBudget(r, ToolBatches(s.log))
    && (!s.pc.Ended? ==> ToolBatches(s.log) == s.toolTurns + (if s.pc.RunTools? then 1 else 0))
    && (Judged(s.pc) ==> s.synthesisOnly == BudgetSpent(r, s.toolTurns))
  }

  lemma {:induction false} SameBatches(log: seq<Event>, more: seq<Event>)
    requires forall i :: 0 <= i < |more| ==> !ClassOf(more[i]).ToolRun?
    ensures ToolBatches(log + more) == ToolBatches(log)
  {
    if more == [] {
      assert log + more == log;
    } else {
      var n := |more| - 1;
      SameBatches(log, more[..n]);
      assert log + more == log + more[..n] + [more[n]];
      LoggedToolBatches(log + more[..n], more[n]);
    }
  }

  lemma QuietBatches(s: Run, s': Run)
    requires Logs(s, s', {Plain, EventClass.Content, TurnEnd, Offer})
    ensures ToolBatches(s'.log) == ToolBatches(s.log)
  {
    assert s'.log == s.log + s'.log[|s.log|..];
    SameBatches(s.log, s'.log[|s.log|..]);
  }

  lemma QuietOffers(r: Request, s: Run, s': Run)
    requires Offers(r, s.log) && Logs(s, s', {Plain, EventClass.Content, TurnEnd, ToolRun})
    ensures Offers(r, s'.log)
  {
    forall i | 0 <= i < |s'.log| && s'.log[i].TurnStarted?
      ensures s'.log[i].tools <==> !BudgetSpent(r, ToolBatches(s'.log[..i]))
    {
      assert s'.log[..i] == s.log[..i];
    }
  }

  /** A step that neither offers nor runs tools. */
  lemma BudgetQuiet(r: Request, s: Run, s': Run)
    requires Budgeted(r, s) && Logs(s, s', {Plain, EventClass.Content, TurnEnd}) && s'.toolTurns == s.toolTurns
    requires s'.pc.RunTools? <==> s.pc.RunTools? && !s'.pc.Ended?
    requires Judged(s'.pc) ==> Judged(s.pc) && s'.synthesisOnly == s.synthesisOnly
    requires s.pc.Ended? ==> s'.pc.Ended?
    ensures Budgeted(r, s')
  {
    hide Logs, Offers, ToolBatches;
    LogsMore(s, s', {Plain, EventClass.Content, TurnEnd}, {Plain, EventClass.Content, TurnEnd, Offer});
    LogsMore(s, s', {Plain, EventClass.Content, TurnEnd}, {Plain, EventClass.Content, TurnEnd, ToolRun});
    QuietBatches(s, s');
    QuietOffers(r, s, s');
  }

  lemma BudgetClone(r: Request, s: Run, offered: seq<Message>)
    requires Budgeted(r, s) && s.pc.Clone?
    ensures Budgeted(r, StepClone(r, s, offered))
  {
    hide ToolBatches;
    var s' := StepClone(r, s, offered);
    var e := s'.log[|s.log|];
    LoggedToolBatches(s.log, e);
    forall i | 0 <= i < |s'.log| && s'.log[i].TurnStarted?
      ensures s'.log[i].tools <==> !BudgetSpent(r, ToolBatches(s'.log[..i]))
    {
      assert s'.log[..i] == s.log[..i];
      assert i == |s.log| ==> s.log[..i] == s.log;
    }
  }

  lemma BudgetCalls(r: Request, s: Run)
    requires Budgeted(r, s) && s.pc.Append? && s.finalMessage.Some?
    ensures Budgeted(r, StepCalls(s))
  {
    hide ToolBatches, Offers;
    var s' := StepCalls(s);
    if s.synthesisOnly {
      LogsTurnEnd(s, s');
      BudgetQuiet(r, s, s');
    } else {
      var e := MessageCompleted(s.turns, Assistant(s.finalMessage.value), Commentary);
      LoggedToolBatches(s.log, e);
      LoggedToolBatches(s.log + [e], RunState(ExecutingTools));
      LogsMore(s, s', {TurnEnd, ToolRun}, {Plain, EventClass.Content, TurnEnd, ToolRun});
      QuietOffers(r, s, s');
    }
  }

  lemma LogsTurnEnd(s: Run, s': Run)
    requires s'.log == s.log + [FinalRejected(s.turns, 1)]
    ensures Logs(s, s', {Plain, EventClass.Content, TurnEnd})
  {}

  lemma BudgetAppend(r: Request, s: Run)
    requires Budgeted(r, s) && s.pc.Append? && s.finalMessage.Some?
    ensures Budgeted(r, StepAppend(s))
  {
    hide Budgeted, StepCalls, Logs;
    var s1 := Answered(s);
    SameLog(s, s1);
    LogsMore(s, s1, {Plain}, {Plain, EventClass.Content, TurnEnd});
    BudgetQuiet(r, s, s1);
    if Calls(s.finalMessage.value) != [] {
      BudgetCalls(r, s1);
    } else {
      LogsMore(s1, StepLateSteering(s1), {TurnEnd}, {Plain, EventClass.Content, TurnEnd});
      BudgetQuiet(r, s1, StepLateSteering(s1));
    }
  }

  lemma BudgetTools(r: Request, s: Run, outcomes: seq<Tools.Outcome>)
    requires Budgeted(r, s) && s.pc.RunTools? && s.finalMessage.Some? && |outcomes| == |Calls(s.finalMessage.value)|
    ensures Budgeted(r, StepTools(r, s, outcomes))
  {
    hide ToolBatches, Offers, Logs;
    var s' := StepTools(r, s, outcomes);
    LogsMore(s, s', {Plain}, {Plain, EventClass.Content, TurnEnd, Offer});
    LogsMore(s, s', {Plain}, {Plain, EventClass.Content, TurnEnd, ToolRun});
    QuietBatches(s, s');
    QuietOffers(r, s, s');
  }

  /** The remaining steps keep `toolTurns` and `synthesisOnly`. */
  lemma OthersKeepBudget(r: Request, s: Run, a: Action)
    requires Answers(r, s, a) && !s.pc.Clone? && !s.pc.Append? && !(s.pc.RunTools? && !a.Throws?)
    ensures var s' := Resume(r, s, a);
      s'.toolTurns == s.toolTurns && s'.synthesisOnly == s.synthesisOnly && !s'.pc.RunTools?
      && (Judged(s'.pc) ==> Judged(s.pc))
  {
    hide Logs, StepBegin, StepAnnounce, StepTop, StepDrain, StepAttempt, StepStream, StepStreamEnds, StepJudge,
      StepReview, StepBeforeComplete, StepSeal, Again, Fail;
  }

  lemma BudgetResume(r: Request, s: Run, a: Action)
    requires Budgeted(r, s) && Answers(r, s, a)
    ensures Budgeted(r, Resume(r, s, a))
  {
    hide Budgeted, Logs, StepClone, StepAppend, StepTools, Fail;
    if s.pc.Clone? && !a.Throws? { BudgetClone(r, s, if r.transforms then a.offered else MessagesOf(s.context)); }
    else if s.pc.Append? { BudgetAppend(r, s); }
    else if s.pc.RunTools? && !a.Throws? { BudgetTools(r, s, a.outcomes); }
    else { BudgetOther(r, s, a); }
  }

  lemma BudgetOther(r: Request, s: Run, a: Action)
    requires Budgeted(r, s) && Answers(r, s, a) && !s.pc.Append?
    requires (s.pc.Clone? || s.pc.RunTools?) ==> a.Throws?
    ensures Budgeted(r, Resume(r, s, a))
  {
    hide Budgeted, Logs;
    if a.Throws? {
      LogsMore(s, Fail(s, a.aborted), {Plain}, {Plain, EventClass.Content, TurnEnd});
      BudgetQuiet(r, s, Fail(s, a.aborted));
    } else {
      BudgetSilent(r, s, a);
    }
  }

  lemma BudgetSilent(r: Request, s: Run, a: Action)
    requires Budgeted(r, s) && Answers(r, s, a) && !s.pc.Append? && !s.pc.Clone? && !s.pc.RunTools? && !a.Throws?
    ensures Budgeted(r, Resume(r, s, a))
  {
    hide Budgeted, Logs, Resume;
    OthersKeepBudget(r, s, a);
    ResumeLogs(r, s, a);
    LogsMore(s, Resume(r, s, a), MayLog(s.pc), {Plain, EventClass.Content, TurnEnd});
    BudgetQuiet(r, s, Resume(r, s, a));
  }

  lemma {:induction false} BudgetExec(r: Request, s: Run, actions: seq<Action>)
    requires Budgeted(r, s)
    ensures Budgeted(r, Exec(r, s, actions))
    decreases |actions|
  {
    if actions != [] {
      var a := actions[0];
      hide Resume;
      if !a.Steer? && !a.Cancel? && !a.AbortRequest? && Answers(r, s, a) { BudgetResume(r, s, a); }
      BudgetExec(r, Next(r, s, a), actions[1..]);
    }
  }

  /** Tools run in at most `maximum` turns, and from then on no turn offers any. */
  lemma ToolBudget(r: Request, actions: seq<Action>)
    ensures var s := Exec(r, Initial(r), actions);
      WithinBudget(r, ToolBatches(s.log)) && Offers(r, s.log)
  {
    BudgetExec(r, Initial(r), actions);
  }
}
