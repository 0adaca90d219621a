/** How turns end, whether another one follows, and how a run is signed off. */
module RunnerTurns {
  import opened Wrappers
  import opened Messages
  import opened Runner
  import opened RunnerBounds
  import opened RunnerInvariant
  import opened RunnerStory

  // ----- whether another turn follows ------------------------------------------------------

  /** The event that ended the last turn. */
  function LastEnd(log: seq<Event>): Option<Event> {
    if log == [] then None
    else if log[|log| - 1].MessageCompleted? || log[|log| - 1].FinalRejected? then Some(log[|log| - 1])
    else LastEnd(log[..|log| - 1])
  }

  predicate LastRefused(log: seq<Event>) { LastEnd(log).Some? && LastEnd(log).value.FinalRejected? }

  lemma EndLogged(log: seq<Event>, e: Event)
    ensures LastEnd(log + [e]) == if e.MessageCompleted? || e.FinalRejected? then Some(e) else LastEnd(log)
  {
    assert (log + [e])[..|log|] == log;
  }

  lemma EndsLogged(log: seq<Event>, e: Event, e': Event)
    requires !e'.MessageCompleted? && !e'.FinalRejected?
    ensures LastEnd(log + [e] + [e']) == LastEnd(log + [e])
  {
    EndLogged(log + [e], e');
  }

  /** Another turn may go over the limit exactly after a refused message, or once the tool budget is spent. */
  predicate Owed(r: Request, s: Run) {
    match s.pc
    case Top => s.allowRepairTurn <==> s.turns >= 1 && (LastRefused(s.log) || BudgetSpent(r, s.toolTurns))
    case LateDrain => !s.allowRepairTurn && LastRefused(s.log)
    case RunTools => !s.allowRepairTurn && !LastRefused(s.log)
    case Ended(_) => true
    case _ => !s.allowRepairTurn
  }

  lemma RefuseOwes(r: Request, s: Run, repairs: nat, es: seq<Entry>)
    requires s.turns >= 1
    ensures Owed(r, Refuse(s, repairs, es))
  {
    hide KeepsTurn, KeepsBudget, Logs, LastEnd;
    EndLogged(s.log, FinalRejected(s.turns, repairs));
  }

  lemma EndedOwes(r: Request, s: Run)
    requires s.pc.Ended?
    ensures Owed(r, s)
  {
  }

  lemma OwedFirst(r: Request, s: Run, a: Action)
    requires Owed(r, s) && Answers(r, s, a) && !a.Throws? && (s.pc.Announce? ==> s.turns == 0)
    requires s.pc.Begin? || s.pc.Announce? || s.pc.Top? || s.pc.Clone? || s.pc.Attempt?
    ensures Owed(r, Resume(r, s, a))
  {
    hide KeepsTurn, KeepsBudget, Logs, LastEnd, Fail, LoopTest, MessagesOf, BudgetSpent;
  }

  lemma OwedDrain(r: Request, s: Run, a: Action)
    requires Owed(r, s) && Answers(r, s, a) && !a.Throws? && (s.pc.TopDrain? || s.pc.LateDrain?) && s.turns >= 1
    ensures Owed(r, Resume(r, s, a))
  {
    hide KeepsTurn, KeepsBudget, Logs, LastEnd, BudgetSpent;
    if s.draining != [] { EndLogged(s.log, SteerAccepted(s.draining[0])); }
  }

  lemma OwedStream(r: Request, s: Run, a: Action)
    requires Owed(r, s) && Answers(r, s, a) && !a.Throws? && s.pc.Streaming?
    ensures Owed(r, Resume(r, s, a))
  {
    hide KeepsTurn, KeepsBudget, Logs, LastEnd, Fail, RetryDelayMs, BudgetSpent;
  }

  lemma OwedJudged(r: Request, s: Run, a: Action)
    requires Owed(r, s) && Answers(r, s, a) && !a.Throws? && (s.pc.Judge? || s.pc.Review?) && s.turns >= 1
    ensures Owed(r, Resume(r, s, a))
  {
    hide KeepsTurn, KeepsBudget, Logs, LastEnd, Fail, Refuse, Calls, TextOf, Blank, Entries, BudgetSpent;
    if s.pc.Judge? { RefuseOwes(r, s.(emptyFinalRepairIssued := true), 1, EmptyRepair(s)); }
    else {
      RefuseOwes(r, s, |a.repair|, [Entry(Assistant(s.finalMessage.value), Model(s.turns))]
        + Entries(a.repair, Repair));
    }
  }

  lemma OwedCalls(r: Request, s: Run)
    requires s.finalMessage.Some? && !s.allowRepairTurn && s.turns >= 1
    ensures Owed(r, StepCalls(s)) && Owed(r, StepLateSteering(s))
  {
    hide KeepsTurn, KeepsBudget, Logs, LastEnd, Refuse, BudgetSpent;
    RefuseOwes(r, s, 1, [Entry(TOOLS_GONE, Repair)]);
    EndLogged(s.log, MessageCompleted(s.turns, Assistant(s.finalMessage.value), Commentary));
    EndsLogged(s.log, MessageCompleted(s.turns, Assistant(s.finalMessage.value), Commentary), RunState(ExecutingTools));
    EndLogged(s.log, FinalRejected(s.turns, |s.control.queue|));
  }

  lemma OwedAppend(r: Request, s: Run, a: Action)
    requires Owed(r, s) && Answers(r, s, a) && s.pc.Append? && s.turns >= 1
    ensures Owed(r, Resume(r, s, a))
  {
    hide KeepsTurn, KeepsBudget, Logs, LastEnd, Calls, TextOf, StepCalls, StepLateSteering, Answered, BudgetSpent;
    AnsweredTells(s);
    OwedCalls(r, Answered(s));
  }

  lemma OwedTools(r: Request, s: Run, a: Action)
    requires Owed(r, s) && Answers(r, s, a) && !a.Throws? && s.pc.RunTools? && s.turns >= 1
    ensures Owed(r, Resume(r, s, a))
  {
    hide KeepsTurn, KeepsBudget, Logs, LastEnd, Calls, Tools.Results, Entries, BudgetSpent;
    EndLogged(s.log, RunState(InProgress));
  }

  lemma OwedLast(r: Request, s: Run, a: Action)
    requires Owed(r, s) && Answers(r, s, a) && !a.Throws? && (s.pc.BeforeComplete? || s.pc.Seal?) && s.turns >= 1
    ensures Owed(r, Resume(r, s, a))
  {
    hide KeepsTurn, KeepsBudget, Logs, LastEnd, Refuse, Entries, BudgetSpent;
    if s.pc.Seal? { RefuseOwes(r, s, 1, []); }
    else if r.asksBeforeComplete { RefuseOwes(r, s, |a.messages|, Entries(a.messages, Repair)); }
  }

  lemma TurnsCounted(r: Request, s: Run)
    requires Sound(r, s)
    ensures InTurn(s.pc) ==> s.turns >= 1
    ensures s.pc.Announce? ==> s.turns == 0
  {
    hide RunnerSteering.Conserved, RunnerKept.Ledger, RunnerBudget.Budgeted, RunnerContent.SingleSource, TurnOk,
      CurrentTurnOk;
  }

  lemma OwedStep(r: Request, s: Run, a: Action)
    requires Sound(r, s) && Owed(r, s)
    ensures Owed(r, Next(r, s, a))
  {
    TurnsCounted(r, s);
    if a.Steer? || a.Cancel? || a.AbortRequest? { OthersDoNotAnswer(r, s, a); }
    if !Answers(r, s, a) {
      hide Sound, Answers, Resume, LastEnd, BudgetSpent;
    } else if a.Throws? {
      hide Sound, LastEnd, BudgetSpent, Fail;
      EndedOwes(r, Resume(r, s, a));
    } else {
      hide Sound, Owed, Resume;
      match s.pc
      case TopDrain => OwedDrain(r, s, a);
      case LateDrain => OwedDrain(r, s, a);
      case Streaming => OwedStream(r, s, a);
      case Judge => OwedJudged(r, s, a);
      case Review => OwedJudged(r, s, a);
      case Append => OwedAppend(r, s, a);
      case RunTools => OwedTools(r, s, a);
      case BeforeComplete => OwedLast(r, s, a);
      case Seal => OwedLast(r, s, a);
      case _ => OwedFirst(r, s, a);
    }
  }

  lemma {:induction false} OwedExec(r: Request, s: Run, actions: seq<Action>)
    requires Sound(r, s) && Owed(r, s)
    ensures Sound(r, Exec(r, s, actions)) && Owed(r, Exec(r, s, actions))
    decreases |actions|
  {
    if actions != [] {
      hide Sound, Owed, Next;
      SoundStep(r, s, actions[0]);
      OwedStep(r, s, actions[0]);
      OwedExec(r, Next(r, s, actions[0]), actions[1..]);
    }
  }

  /** The turns beyond the limit that may still be opened. */
  lemma RepairTurnsLeft(r: Request, s: Run)
    requires Sound(r, s)
    ensures MaxTurns(r).Some? && s.turns >= MaxTurns(r).value ==>
      (s.remainingRepairTurns > 0 <==> s.turns < MaxTurns(r).value + 3)
  {
    hide RunnerSteering.Conserved, RunnerKept.Ledger, RunnerBudget.Budgeted, RunnerContent.SingleSource, TurnOk,
      CurrentTurnOk;
  }

  /**
   * A run at the top of its loop that nobody aborted opens another turn exactly when there is no limit, or the
   * limit is not reached, or fewer than three turns went over it and the last message was refused or the tool
   * budget is spent.
   */
  lemma LoopGoesOn(r: Request, actions: seq<Action>)
    requires var s := Exec(r, Initial(r), actions); s.pc.Top? && !s.control.cancelled && !s.requestAborted
    ensures var s := Exec(r, Initial(r), actions);
      var s' := Next(r, s, Go);
      && (s'.pc.TopDrain? <==>
        || r.maxTurns.None? || r.maxTurns.value <= 0 || s.turns < r.maxTurns.value
        || (s.turns < r.maxTurns.value + 3 && (LastRefused(s.log) || BudgetSpent(r, s.toolTurns))))
      && (s'.pc.TopDrain? ==> s'.turns == s.turns + 1)
      && (!s'.pc.TopDrain? ==> s'.pc == Ended(Failed))
  {
    SoundStart(r);
    OwedExec(r, Initial(r), actions);
    var s := Exec(r, Initial(r), actions);
    RepairTurnsLeft(r, s);
    hide Sound, Exec, Initial, LastRefused, BudgetSpent, KeepsTurn, KeepsBudget, Logs;
  }

  // ----- whether the model is asked again within a turn --------------------------------------

  lemma CallsCounted(r: Request, s: Run)
    requires Sound(r, s) && s.pc.Streaming?
    ensures |s.attempts| == |s.waited| == s.turns && s.turns >= 1 && 1 <= s.attempts[s.turns - 1] <= 3
  {
    hide RunnerSteering.Conserved, RunnerKept.Ledger, RunnerBudget.Budgeted, RunnerContent.SingleSource, TotalDelayMs;
  }

  /**
   * When the stream of a model call is over, the model is asked again exactly when it failed with a transient
   * error, nothing was shown of this call, and it was not the third of the turn; its message is judged exactly
   * when there was no error and a message; otherwise the run ends.
   */
  lemma StreamOver(r: Request, actions: seq<Action>)
    requires Exec(r, Initial(r), actions).pc.Streaming?
    ensures var s, h := Exec(r, Initial(r), actions), HearAll(r, Initial(r), SILENCE, actions);
      var pc := Next(r, s, StreamEnds).pc;
      && |s.attempts| == s.turns >= 1
      && (pc.Attempt? <==> h.error.Some? && h.error.value.retryable && !h.content && s.attempts[s.turns - 1] < 3)
      && (pc.Judge? <==> h.error.None? && h.done.Some?)
      && (pc.Attempt? || pc.Judge? || Stopped(pc))
  {
    hide Initial, Exec, HearAll, ContextTold, LogTold, Next;
    var s := Exec(r, Initial(r), actions);
    StoryStart(r);
    StoryFrom(r, Initial(r), SILENCE, actions);
    CallsCounted(r, s);
    hide Sound, Passed;
    StreamLeadsTo(r, s);
  }

  lemma StreamLeadsTo(r: Request, s: Run)
    requires s.pc.Streaming? && s.attempts != [] && |s.waited| == |s.attempts|
    ensures var pc, attempt := Next(r, s, StreamEnds).pc, s.attempts[|s.attempts| - 1];
      && (pc.Attempt? <==> s.failure.Some? && s.failure.value.retryable && !s.contentEmitted && 1 <= attempt < 3)
      && (pc.Judge? <==> s.failure.None? && s.finalMessage.Some?)
      && (pc.Attempt? || pc.Judge? || Stopped(pc))
  {
    hide KeepsTurn, KeepsBudget, Logs, Fail, RetryDelayMs;
  }

  // ----- what a completed run has passed -----------------------------------------------------

  lemma {:induction false} ExecLast(r: Request, s: Run, actions: seq<Action>, a: Action)
    ensures Exec(r, s, actions + [a]) == Next(r, Exec(r, s, actions), a)
    decreases |actions|
  {
    hide Next;
    if actions == [] {
      assert [] + [a] == [a] && [a][1..] == [];
    } else {
      assert (actions + [a])[0] == actions[0] && (actions + [a])[1..] == actions[1..] + [a];
      ExecLast(r, Next(r, s, actions[0]), actions[1..], a);
    }
  }

  lemma {:induction false} HearLast(r: Request, s: Run, h: Heard, actions: seq<Action>, a: Action)
    ensures HearAll(r, s, h, actions + [a]) == Hear(r, Exec(r, s, actions), HearAll(r, s, h, actions), a)
    decreases |actions|
  {
    hide Next, Hear;
    if actions == [] {
      assert [] + [a] == [a] && [a][1..] == [];
    } else {
      assert (actions + [a])[0] == actions[0] && (actions + [a])[1..] == actions[1..] + [a];
      HearLast(r, Next(r, s, actions[0]), Hear(r, s, h, actions[0]), actions[1..], a);
    }
  }

  /** Action `k` is the callback's answer that it has nothing to object, given in turn `turn` at await `at`. */
  predicate Passes(r: Request, actions: seq<Action>, k: nat, at: Pc, turn: nat) {
    && k < |actions|
    && Exec(r, Initial(r), actions[..k]).pc == at && Exec(r, Initial(r), actions[..k]).turns == turn
    && (if at.Review? then actions[k] == Reviewed([]) else actions[k] == Outstanding([]))
  }

  ghost predicate PassedAt(r: Request, actions: seq<Action>, at: Pc, turn: nat) {
    exists k: nat :: Passes(r, actions, k, at, turn)
  }

  lemma PassedStays(r: Request, actions: seq<Action>, a: Action, at: Pc, turn: nat)
    requires PassedAt(r, actions, at, turn)
    ensures PassedAt(r, actions + [a], at, turn)
  {
    hide Exec, Initial;
    var k: nat :| Passes(r, actions, k, at, turn);
    assert (actions + [a])[..k] == actions[..k];
    assert Passes(r, actions + [a], k, at, turn);
  }

  lemma PassedNow(r: Request, actions: seq<Action>, a: Action, at: Pc)
    requires Exec(r, Initial(r), actions).pc == at
    requires if at.Review? then a == Reviewed([]) else a == Outstanding([])
    ensures PassedAt(r, actions + [a], at, Exec(r, Initial(r), actions).turns)
  {
    hide Exec, Initial;
    assert (actions + [a])[..|actions|] == actions;
    assert Passes(r, actions + [a], |actions|, at, Exec(r, Initial(r), actions).turns);
  }

  /** Only the top of the loop counts a turn. */
  lemma TurnsStay(r: Request, s: Run, a: Action)
    requires !s.pc.Top? || !Answers(r, s, a) || a.Throws?
    ensures Next(r, s, a).turns == s.turns
  {
    hide KeepsBudget, Logs, Fail, StepBegin, StepAnnounce, StepDrain, StepClone, StepStream, StepJudge, StepReview,
      StepAppend, StepTools, StepBeforeComplete, StepSeal, Again, StepStreamEnds;
    if s.pc.Streaming? && Answers(r, s, a) { StreamEndsKeeps(s); }
  }

  /** What counts as passed was passed in this turn. */
  ghost predicate Gates(r: Request, actions: seq<Action>, s: Run, h: Heard) {
    && (h.reviewed ==> PassedAt(r, actions, Review, s.turns))
    && (h.cleared ==> PassedAt(r, actions, BeforeComplete, s.turns))
  }

  lemma GatesStep(r: Request, actions: seq<Action>, h: Heard, a: Action)
    requires Gates(r, actions, Exec(r, Initial(r), actions), h)
    ensures var s := Exec(r, Initial(r), actions); Gates(r, actions + [a], Next(r, s, a), Hear(r, s, h, a))
  {
    var s := Exec(r, Initial(r), actions);
    hide Exec, Initial, Next, PassedAt, Calls, TextOf, Blank;
    if h.reviewed { PassedStays(r, actions, a, Review, s.turns); }
    if h.cleared { PassedStays(r, actions, a, BeforeComplete, s.turns); }
    if !s.pc.Top? || !Answers(r, s, a) || a.Throws? {
      TurnsStay(r, s, a);
      if s.pc.Review? && a == Reviewed([]) { PassedNow(r, actions, a, Review); }
      if s.pc.BeforeComplete? && a == Outstanding([]) { PassedNow(r, actions, a, BeforeComplete); }
    }
  }

  lemma {:induction false} GatesExec(r: Request, actions: seq<Action>)
    ensures Gates(r, actions, Exec(r, Initial(r), actions), HearAll(r, Initial(r), SILENCE, actions))
    decreases |actions|
  {
    if actions != [] {
      hide Initial, Gates, Next, Hear;
      var n := |actions| - 1;
      assert actions == actions[..n] + [actions[n]];
      GatesExec(r, actions[..n]);
      ExecLast(r, Initial(r), actions[..n], actions[n]);
      HearLast(r, Initial(r), SILENCE, actions[..n], actions[n]);
      GatesStep(r, actions[..n], HearAll(r, Initial(r), SILENCE, actions[..n]), actions[n]);
    }
  }

  /** No run completes on an answer that `reviewFinal` did not pass, or while something was outstanding: each
      callback that the request gives said so in the last turn. */
  lemma CompletedRunWasPassed(r: Request, actions: seq<Action>)
    requires Exec(r, Initial(r), actions).pc == Ended(Completed)
    ensures r.reviews ==> PassedAt(r, actions, Review, Exec(r, Initial(r), actions).turns)
    ensures r.asksBeforeComplete ==> PassedAt(r, actions, BeforeComplete, Exec(r, Initial(r), actions).turns)
  {
    hide Exec, Initial, HearAll, PassedAt, ContextTold, LogTold;
    GatesExec(r, actions);
    StoryOfRun(r, actions);
  }

  // ----- how a run is signed off -------------------------------------------------------------

  /** The last two events tell the status of a run that is over, and no event tells it before. */
  ghost predicate SignedOff(s: Run) {
    && (forall i :: 0 <= i < |s.log| && s.log[i].RunEnded? ==> s.pc.Ended? && i == |s.log| - 1)
    && (s.pc.Ended? ==>
          |s.log| >= 2 && s.log[|s.log| - 2] == RunState(s.pc.status) && s.log[|s.log| - 1] == RunEnded(s.pc.status))
  }

  /** What is logged ends a run that goes to `pc`, and only then. */
  predicate Signs(es: seq<Event>, pc: Pc) {
    if pc.Ended? then
      && |es| >= 2 && es[|es| - 2..] == [RunState(pc.status), RunEnded(pc.status)]
      && forall i :: 0 <= i < |es| - 1 ==> !es[i].RunEnded?
    else forall i :: 0 <= i < |es| ==> !es[i].RunEnded?
  }

  lemma FarewellSigns(s: Run, aborted: bool)
    ensures Signs(Farewell(s, aborted), Fail(s, aborted).pc)
  {
    hide KeepsTurn, KeepsBudget, Logs;
  }

  lemma SignsEarly(r: Request, s: Run, h: Heard, a: Action)
    requires Listens(r, s, h) && Answers(r, s, a) && !a.Throws?
    requires s.pc.Begin? || s.pc.Announce? || s.pc.Top? || s.pc.TopDrain? || s.pc.Clone? || s.pc.Attempt?
    ensures Signs(Says(r, s, h, a), Resume(r, s, a).pc)
  {
    FarewellSigns(s, true);
    FarewellSigns(s, false);
    FarewellSame(s);
    hide KeepsTurn, KeepsBudget, Logs, Fail, Farewell, Calls, TextOf, Blank, MessagesOf, BudgetSpent, StepDrain,
      Listens, LoopTest;
  }

  lemma SignsStream(r: Request, s: Run, h: Heard, a: Action)
    requires Listens(r, s, h) && Answers(r, s, a) && !a.Throws? && s.pc.Streaming?
    ensures Signs(Says(r, s, h, a), Resume(r, s, a).pc)
  {
    FarewellSigns(s, true);
    FarewellSigns(s, false);
    hide KeepsTurn, KeepsBudget, Logs, Fail, Farewell, Calls, Passed, RetryDelayMs;
  }

  lemma SignsJudge(r: Request, s: Run, h: Heard, a: Action)
    requires Listens(r, s, h) && Answers(r, s, a) && !a.Throws? && (s.pc.Judge? || s.pc.Review?)
    ensures Signs(Says(r, s, h, a), Resume(r, s, a).pc)
  {
    FarewellSigns(s, false);
    hide KeepsTurn, KeepsBudget, Logs, Fail, Farewell, Calls, TextOf, Blank, Refuse, Passed;
  }

  lemma SignsAppend(r: Request, s: Run, h: Heard, a: Action)
    requires Answers(r, s, a) && s.pc.Append?
    ensures Signs(Says(r, s, h, a), Resume(r, s, a).pc)
  {
    hide KeepsTurn, KeepsBudget, Logs, Calls, TextOf, BudgetSpent, StepAppend;
  }

  lemma SignsLate(r: Request, s: Run, h: Heard, a: Action)
    requires Answers(r, s, a) && !a.Throws? && (s.pc.RunTools? || s.pc.LateDrain? || s.pc.BeforeComplete?)
    ensures Signs(Says(r, s, h, a), Resume(r, s, a).pc)
  {
    hide KeepsTurn, KeepsBudget, Logs, Calls, StepTools, StepDrain, Again, StepBeforeComplete;
  }

  lemma SealSigns(s: Run)
    requires s.finalMessage.Some?
    ensures StepSeal(s).pc == if s.control.queue != [] then Top else Ended(Completed)
  {
    hide KeepsTurn, KeepsBudget, Logs, Refuse;
  }

  lemma SignsSeal(r: Request, s: Run, h: Heard, a: Action)
    requires Answers(r, s, a) && s.pc.Seal?
    ensures Signs(Says(r, s, h, a), Resume(r, s, a).pc)
  {
    SealSigns(s);
    hide KeepsTurn, KeepsBudget, Logs, Calls, StepSeal, MessageOf;
  }

  lemma SignedJoin(s: Run, es: seq<Event>, s': Run)
    requires SignedOff(s) && !s.pc.Ended? && s'.log == s.log + es && Signs(es, s'.pc)
    ensures SignedOff(s')
  {
  }

  lemma SignedOthers(r: Request, s: Run, a: Action)
    requires SignedOff(s) && !Answers(r, s, a)
    ensures SignedOff(Next(r, s, a))
  {
    hide Answers, Resume;
  }

  lemma SignedStep(r: Request, s: Run, h: Heard, a: Action)
    requires Sound(r, s) && Listens(r, s, h) && SignedOff(s)
    ensures SignedOff(Next(r, s, a))
  {
    hide Sound, Listens, SignedOff, Answers, Resume, Says, Adds, Signs;
    NextTells(r, s, h, a);
    if a.Steer? || a.Cancel? || a.AbortRequest? { OthersDoNotAnswer(r, s, a); }
    if !Answers(r, s, a) { SignedOthers(r, s, a); }
    else {
      SignsSaid(r, s, h, a);
      SignedJoin(s, Says(r, s, h, a), Next(r, s, a));
    }
  }

  lemma SignsSaid(r: Request, s: Run, h: Heard, a: Action)
    requires Listens(r, s, h) && Answers(r, s, a)
    ensures !s.pc.Ended? && Signs(Says(r, s, h, a), Resume(r, s, a).pc)
  {
    hide Listens, Signs, Says, Resume;
    if a.Throws? { ThrowSigns(r, s, h, a); }
    else {
      match s.pc
      case Streaming => SignsStream(r, s, h, a);
      case Judge => SignsJudge(r, s, h, a);
      case Review => SignsJudge(r, s, h, a);
      case Append => SignsAppend(r, s, h, a);
      case RunTools => SignsLate(r, s, h, a);
      case LateDrain => SignsLate(r, s, h, a);
      case BeforeComplete => SignsLate(r, s, h, a);
      case Seal => SignsSeal(r, s, h, a);
      case _ => SignsEarly(r, s, h, a);
    }
  }

  lemma ThrowSigns(r: Request, s: Run, h: Heard, a: Action)
    requires Answers(r, s, a) && a.Throws?
    ensures !s.pc.Ended? && Signs(Says(r, s, h, a), Resume(r, s, a).pc)
  {
    FarewellSigns(s, a.aborted);
    hide Fail, Farewell, Signs, KeepsTurn, KeepsBudget, Logs;
  }

  lemma {:induction false} SignedFrom(r: Request, s: Run, h: Heard, actions: seq<Action>)
    requires Sound(r, s) && Listens(r, s, h) && SignedOff(s)
    ensures SignedOff(Exec(r, s, actions))
    decreases |actions|
  {
    if actions != [] {
      hide Sound, Listens, SignedOff, Next, Hear, Writes;
      SoundStep(r, s, actions[0]);
      NextTells(r, s, h, actions[0]);
      SignedStep(r, s, h, actions[0]);
      SignedFrom(r, Next(r, s, actions[0]), Hear(r, s, h, actions[0]), actions[1..]);
    }
  }

  /** Every run that is over says so last, once, and with its status. */
  lemma RunSignsOff(r: Request, actions: seq<Action>)
    ensures SignedOff(Exec(r, Initial(r), actions))
  {
    StoryStart(r);
    SignedFrom(r, Initial(r), SILENCE, actions);
  }
}
