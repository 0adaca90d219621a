/** Every run goes on until it is over, and one with a turn limit is over after a bounded number of answers. */
module RunnerProgress {
  import opened Messages
  import opened Runner
  import opened RunnerBounds
  import opened RunnerMessages
  import opened RunnerSteering

  /** What reachable states have in common. */
  lemma Reachable(r: Request, actions: seq<Action>)
    ensures Bounded(r, Exec(r, Initial(r), actions))
    ensures AnswerOk(Exec(r, Initial(r), actions))
    ensures Conserved(Exec(r, Initial(r), actions))
  {
    Start(r);
    hide *;
    BoundedExec(r, Initial(r), actions);
    AnswerExec(r, Initial(r), actions);
    ConservedRun(r, actions);
  }

  lemma Start(r: Request)
    ensures Bounded(r, Initial(r)) && AnswerOk(Initial(r))
  {
  }

  lemma GoesOn(r: Request, s: Run)
    requires Bounded(r, s) && AnswerOk(s) && !s.pc.Ended?
    ensures Answers(r, s, SomeAnswer(r, s))
  {
    hide Bounded, Calls, TextOf, Blank, Answers, SomeAnswer;
    NeverStuck(r, s);
  }

  /** At every await of every run that is not over, some answer of the awaited party takes it on. */
  lemma RunGoesOn(r: Request, actions: seq<Action>)
    requires !Exec(r, Initial(r), actions).pc.Ended?
    ensures exists a :: Answers(r, Exec(r, Initial(r), actions), a)
  {
    hide *;
    Reachable(r, actions);
    GoesOn(r, Exec(r, Initial(r), actions));
  }

  // ----- how many answers a run can take ---------------------------------------------------------

  /** The most answers a turn takes, the pieces of its streams and its drained messages aside. */
  const TURN_ANSWERS := 14

  /** How many answers the turn can take from an await on, when it has made `calls` model calls. */
  function Rank(pc: Pc, calls: nat): int {
    match pc
    case Begin => 3 case Announce => 2 case Top => 1
    case TopDrain => TURN_ANSWERS case Clone => 13
    case Attempt => 12 - 2 * calls case Streaming => 13 - 2 * calls
    case Judge => 6 case Review => 5 case Append => 4 case BeforeComplete => 3
    case RunTools => 2 case LateDrain => 2 case Seal => 2
    case Ended(_) => 0
  }

  function CallsMade(s: Run): nat { if s.attempts == [] then 0 else s.attempts[|s.attempts| - 1] }

  function Waiting(s: Run): nat { |s.draining| + |s.control.queue| }

  /** How many answers the run can take from now on. */
  function Left(r: Request, s: Run): int
    requires MaxTurns(r).Some?
  {
    TURN_ANSWERS * (MaxTurns(r).value + REPAIR_TURNS - s.turns) + Rank(s.pc, CallsMade(s)) + Waiting(s)
  }

  /** The messages on their way to the context stay where they are. */
  predicate KeepsQueue(s: Run, s': Run) {
    s'.draining == s.draining && s'.control.queue == s.control.queue && s'.accepted == s.accepted
  }

  lemma FailKeepsQueue(s: Run)
    ensures forall aborted :: KeepsQueue(s, Fail(s, aborted))
  {
  }

  lemma StreamKeepsQueue(s: Run, e: StreamEvent)
    requires s.attempts != []
    ensures KeepsQueue(s, StepStream(s, e))
  {
  }

  lemma CallsKeepQueue(s: Run)
    requires s.finalMessage.Some?
    ensures KeepsQueue(s, Answered(s)) && KeepsQueue(s, StepCalls(s))
  {
    hide Logs, TextOf;
  }

  lemma EarlyKeepsQueue(r: Request, s: Run, a: Action)
    requires Answers(r, s, a) && !a.Throws?
    requires s.pc.Begin? || s.pc.Announce? || s.pc.Clone? || s.pc.Attempt? || (s.pc.TopDrain? && s.draining == [])
    ensures KeepsQueue(s, Resume(r, s, a))
  {
    hide Logs, MessagesOf, Fail;
    FailKeepsQueue(s);
  }

  lemma JudgeKeepsQueue(r: Request, s: Run)
    requires s.finalMessage.Some?
    ensures KeepsQueue(s, StepJudge(r, s))
  {
    hide Logs, Fail, Calls, TextOf, Blank;
    FailKeepsQueue(s);
  }

  lemma ReviewKeepsQueue(s: Run, messages: seq<Message>)
    requires s.finalMessage.Some?
    ensures KeepsQueue(s, StepReview(s, messages))
  {
    hide Logs;
  }

  lemma BeforeCompleteKeepsQueue(s: Run, messages: seq<Message>)
    ensures KeepsQueue(s, StepBeforeComplete(s, messages))
  {
    hide Logs;
  }

  lemma ToolsKeepQueue(r: Request, s: Run, outcomes: seq<Tools.Outcome>)
    requires s.finalMessage.Some? && |outcomes| == |Calls(s.finalMessage.value)|
    ensures KeepsQueue(s, StepTools(r, s, outcomes))
  {
    hide Logs, Calls, Tools.Results, BudgetSpent;
  }

  lemma SealKeepsQueue(s: Run)
    requires s.finalMessage.Some?
    ensures KeepsQueue(s, StepSeal(s))
  {
    hide Logs;
  }

  lemma AgainKeepsQueue(s: Run)
    ensures KeepsQueue(s, Again(s))
  {
  }

  /** A step within the turn that comes closer to its end. */
  lemma LeftInTurn(r: Request, s: Run, s': Run)
    requires MaxTurns(r).Some? && KeepsTurn(s, s')
      && Rank(s'.pc, CallsMade(s)) + Waiting(s') < Rank(s.pc, CallsMade(s)) + Waiting(s)
    ensures Left(r, s') < Left(r, s)
  {
  }

  lemma LeftTop(r: Request, s: Run)
    requires MaxTurns(r).Some? && s.pc.Top? && s.draining == []
    ensures Left(r, StepTop(r, s)) < Left(r, s) && StepTop(r, s).accepted == s.accepted
  {
    hide Logs, Fail;
    FailKeepsQueue(s);
  }

  lemma LeftAttempt(r: Request, s: Run)
    requires MaxTurns(r).Some? && Bounded(r, s) && s.pc.Attempt? && s.attempts != []
    ensures Left(r, StepAttempt(s)) < Left(r, s) && StepAttempt(s).accepted == s.accepted
  {
    hide Logs, Fail, TotalDelayMs, TurnOk;
    FailKeepsQueue(s);
  }

  lemma LeftStreamEnds(r: Request, s: Run)
    requires MaxTurns(r).Some? && Bounded(r, s) && s.pc.Streaming? && s.attempts != []
    ensures Left(r, StepStreamEnds(s)) < Left(r, s) && StepStreamEnds(s).accepted == s.accepted
  {
    hide Logs, TotalDelayMs, RetryDelayMs, StepStreamEnds;
    StreamEndsKeeps(s);
  }

  lemma LeftDrain(r: Request, s: Run)
    requires MaxTurns(r).Some? && s.draining != []
    ensures Left(r, StepDrain(s)) < Left(r, s) && StepDrain(s).accepted == s.accepted
  {
    hide Logs;
  }

  lemma LeftAppend(r: Request, s: Run)
    requires MaxTurns(r).Some? && s.pc.Append? && s.draining == [] && s.finalMessage.Some?
    ensures Left(r, StepAppend(s)) < Left(r, s) && StepAppend(s).accepted == s.accepted
  {
    hide Logs, KeepsBudget, Calls, StepCalls, StepLateSteering, Answered;
    AnsweredKeeps(s);
    CallsKeepQueue(s);
    if Calls(s.finalMessage.value) != [] { CallsKeepQueue(Answered(s)); } else { LateMoves(Answered(s)); }
  }

  /** Late steering is drained, not lost. */
  lemma LateMoves(s: Run)
    requires s.draining == []
    ensures Waiting(StepLateSteering(s)) == Waiting(s) && StepLateSteering(s).accepted == s.accepted
  {
    hide Logs, KeepsTurn, KeepsBudget;
  }

  lemma AnsweredKeeps(s: Run)
    requires s.finalMessage.Some?
    ensures KeepsTurn(s, Answered(s)) && Answered(s).finalMessage == s.finalMessage && Answered(s).pc == s.pc
  {
    hide TextOf;
  }

  lemma DrainsElsewhere(s: Run)
    requires Conserved(s) && !s.pc.TopDrain? && !s.pc.LateDrain?
    ensures s.draining == []
  {
  }

  lemma RankPositive(r: Request, s: Run)
    requires Bounded(r, s)
    ensures Rank(s.pc, CallsMade(s)) >= (if s.pc.Ended? then 0 else 1)
    ensures s.pc.Streaming? || s.pc.Attempt? ==> Rank(s.pc, CallsMade(s)) >= 7
  {
    hide TotalDelayMs;
  }

  /** The awaits whose step may count a turn or a model call, or move messages towards the context. */
  predicate Counts(s: Run) {
    s.pc.Top? || s.pc.Attempt? || s.pc.Streaming? || s.pc.Append? || s.draining != []
  }

  lemma OthersKeepQueue(r: Request, s: Run, a: Action)
    requires Answers(r, s, a) && (a.Throws? || !Counts(s))
    ensures KeepsQueue(s, Resume(r, s, a))
  {
    hide KeepsQueue, KeepsTurn, KeepsBudget, Logs, MessagesOf, Calls, StepBegin, StepAnnounce, Again, StepClone,
      StepDrain, StepTop, StepAttempt, StepStreamEnds, StepStream, StepJudge, StepReview, StepAppend, StepTools,
      StepBeforeComplete, StepSeal, Fail;
    if a.Throws? {
      FailKeepsQueue(s);
    } else {
      match s.pc
      case Judge => JudgeKeepsQueue(r, s);
      case Review => ReviewKeepsQueue(s, a.repair);
      case RunTools => ToolsKeepQueue(r, s, a.outcomes);
      case LateDrain => AgainKeepsQueue(s);
      case BeforeComplete => BeforeCompleteKeepsQueue(s, if r.asksBeforeComplete then a.messages else []);
      case Seal => SealKeepsQueue(s);
      case _ => EarlyKeepsQueue(r, s, a);
    }
  }

  lemma RankFallsBefore(r: Request, s: Run, a: Action)
    requires Answers(r, s, a) && !a.Throws? && !Counts(s)
      && (s.pc.Begin? || s.pc.Announce? || s.pc.TopDrain? || s.pc.Clone?)
    ensures KeepsTurn(s, Resume(r, s, a)) && Rank(Resume(r, s, a).pc, CallsMade(s)) < Rank(s.pc, CallsMade(s))
  {
    assert KeepsTurn(s, s.(pc := Clone));
    hide KeepsTurn, KeepsBudget, Logs, MessagesOf, Calls, CallsMade, StepBegin, StepAnnounce, Again, StepClone,
      StepDrain, StepTop, StepAttempt, StepStreamEnds, StepStream, StepJudge, StepReview, StepAppend, StepTools,
      StepBeforeComplete, StepSeal, Fail;
  }

  lemma RankFallsAfter(r: Request, s: Run, a: Action)
    requires Answers(r, s, a) && !a.Throws? && !Counts(s)
      && !(s.pc.Begin? || s.pc.Announce? || s.pc.TopDrain? || s.pc.Clone?)
    ensures KeepsTurn(s, Resume(r, s, a)) && Rank(Resume(r, s, a).pc, CallsMade(s)) < Rank(s.pc, CallsMade(s))
  {
    hide KeepsTurn, KeepsBudget, Logs, MessagesOf, Calls, CallsMade, StepBegin, StepAnnounce, Again, StepClone,
      StepDrain, StepTop, StepAttempt, StepStreamEnds, StepStream, StepJudge, StepReview, StepAppend, StepTools,
      StepBeforeComplete, StepSeal, Fail;
  }

  lemma RankFalls(r: Request, s: Run, a: Action)
    requires Answers(r, s, a) && (a.Throws? || !Counts(s)) && Rank(s.pc, CallsMade(s)) >= 1
    ensures KeepsTurn(s, Resume(r, s, a)) && Rank(Resume(r, s, a).pc, CallsMade(s)) < Rank(s.pc, CallsMade(s))
  {
    if a.Throws? {
      hide KeepsTurn, KeepsBudget, Logs, Answers, CallsMade, Fail;
    } else {
      hide Resume, Answers, Rank, Counts, CallsMade, KeepsTurn;
      if s.pc.Begin? || s.pc.Announce? || s.pc.TopDrain? || s.pc.Clone? {
        RankFallsBefore(r, s, a);
      } else {
        RankFallsAfter(r, s, a);
      }
    }
  }

  lemma CountsUsesUp(r: Request, s: Run, a: Action)
    requires MaxTurns(r).Some? && Bounded(r, s) && Conserved(s) && Answers(r, s, a) && !a.Stream? && !a.Throws?
      && Counts(s)
    ensures Left(r, Resume(r, s, a)) < Left(r, s) && Resume(r, s, a).accepted == s.accepted
  {
    if !s.pc.TopDrain? && !s.pc.LateDrain? { DrainsElsewhere(s); }
    hide Bounded, Conserved, Left, KeepsTurn, KeepsBudget, Logs, StepDrain, StepTop, StepAttempt, StepStreamEnds,
      StepAppend;
    match s.pc
    case Top => LeftTop(r, s);
    case Attempt => LeftAttempt(r, s);
    case Streaming => LeftStreamEnds(r, s);
    case Append => LeftAppend(r, s);
    case _ => LeftDrain(r, s);
  }

  /** Whatever an awaited party answers, short of one more piece of a stream, uses up one of the answers left. */
  lemma AnswerUsesUp(r: Request, s: Run, a: Action)
    requires MaxTurns(r).Some? && Bounded(r, s) && Conserved(s) && Answers(r, s, a) && !a.Stream?
    ensures Left(r, Resume(r, s, a)) < Left(r, s) && Resume(r, s, a).accepted == s.accepted
  {
    hide Bounded, Conserved, Answers, Resume, Counts, Left, Rank, CallsMade, KeepsTurn;
    if a.Throws? || !Counts(s) {
      NotOver(r, s, a);
      RankPositive(r, s);
      RankFalls(r, s, a);
      OthersKeepQueue(r, s, a);
      LeftInTurn(r, s, Resume(r, s, a));
    } else {
      CountsUsesUp(r, s, a);
    }
  }

  lemma NotOver(r: Request, s: Run, a: Action)
    requires Answers(r, s, a)
    ensures !s.pc.Ended?
  {
  }

  lemma StreamUsesNothing(r: Request, s: Run, e: StreamEvent)
    requires MaxTurns(r).Some? && s.attempts != []
    ensures Left(r, StepStream(s, e)) == Left(r, s) && StepStream(s, e).accepted == s.accepted
  {
    hide StepStream, Logs;
    StreamKeepsQueue(s, e);
  }

  /** The answers among these actions that the run can take, the pieces of streams aside. */
  function AnswersIn(r: Request, s: Run, actions: seq<Action>): nat
    decreases |actions|
  {
    if actions == [] then 0
    else
      var here := if Answers(r, s, actions[0]) && !actions[0].Stream? then 1 else 0;
      here + AnswersIn(r, Next(r, s, actions[0]), actions[1..])
  }

  /** One action of whatever kind: an answer uses something up, and only an accepted message adds something. */
  lemma StepUsesUp(r: Request, s: Run, a: Action)
    requires MaxTurns(r).Some? && Bounded(r, s) && Conserved(s)
    ensures Left(r, Next(r, s, a)) - |Next(r, s, a).accepted| + (if Answers(r, s, a) && !a.Stream? then 1 else 0)
      <= Left(r, s) - |s.accepted|
  {
    if a.Steer? || a.Cancel? || a.AbortRequest? {
      ControlUsesNothing(r, s, a);
    } else if Answers(r, s, a) {
      hide Bounded, Conserved, Logs, StepStream, Left;
      if a.Stream? { StreamUsesNothing(r, s, a.event); } else { hide Resume; AnswerUsesUp(r, s, a); }
    }
  }

  lemma ControlUsesNothing(r: Request, s: Run, a: Action)
    requires MaxTurns(r).Some? && (a.Steer? || a.Cancel? || a.AbortRequest?)
    ensures Left(r, Next(r, s, a)) - |Next(r, s, a).accepted| <= Left(r, s) - |s.accepted| && !Answers(r, s, a)
  {
    hide Calls;
  }

  lemma {:induction false} RunUsesUp(r: Request, s: Run, actions: seq<Action>)
    requires MaxTurns(r).Some? && Bounded(r, s) && Conserved(s)
    ensures AnswersIn(r, s, actions) <= Left(r, s) + |Exec(r, s, actions).accepted| - |s.accepted|
    decreases |actions|
  {
    if actions == [] {
      LeftIsNatural(r, s);
    } else {
      StepUsesUp(r, s, actions[0]);
      BoundedStep(r, s, actions[0]);
      ConservedStep(r, s, actions[0]);
      hide Bounded, Conserved, Next, Left, Answers;
      RunUsesUp(r, Next(r, s, actions[0]), actions[1..]);
    }
  }

  lemma LeftIsNatural(r: Request, s: Run)
    requires MaxTurns(r).Some? && Bounded(r, s)
    ensures Left(r, s) >= 0
  {
    RankPositive(r, s);
    hide CurrentTurnOk, TurnOk, Rank, CallsMade;
  }

  /**
   * A run with turn limit M takes at most 3 + 14 (M + 3) answers and one more for each message it accepted,
   * whatever else happens at its awaits: it terminates when its streams, callbacks and steering do.
   */
  lemma RunTerminates(r: Request, actions: seq<Action>)
    requires MaxTurns(r).Some?
    ensures AnswersIn(r, Initial(r), actions)
      <= 3 + TURN_ANSWERS * (MaxTurns(r).value + REPAIR_TURNS) + |Exec(r, Initial(r), actions).accepted|
  {
    Start(r);
    assert Left(r, Initial(r)) == 3 + TURN_ANSWERS * (MaxTurns(r).value + REPAIR_TURNS) && Initial(r).accepted == [];
    hide *;
    ConservedStart(r);
    RunUsesUp(r, Initial(r), actions);
  }
}
