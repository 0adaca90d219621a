/** How long a run can go on, and how much it may ask of the model in one turn. */
module RunnerBounds {
  import opened Messages
  import opened Runner

  // ----- turns, model calls and waits ------------------------------------------------------

  predicate InTurn(pc: Pc) {
    !(pc.Begin? || pc.Announce? || pc.Top? || pc.Ended?)
  }

  /** The model calls of one turn and the waits between them. */
  predicate TurnOk(attempts: nat, waited: nat) {
    attempts <= INFERENCE_MAX_ATTEMPTS && waited == TotalDelayMs(if attempts == 0 then 0 else attempts - 1)
  }

  predicate CurrentTurnOk(pc: Pc, attempts: nat, waited: nat) {
    match pc
    case TopDrain => attempts == 0 && waited == 0
    case Clone => attempts == 0 && waited == 0
    case Attempt => attempts < INFERENCE_MAX_ATTEMPTS && waited == TotalDelayMs(attempts)
    case _ => 1 <= attempts && TurnOk(attempts, waited)
  }

  ghost predicate Bounded(r: Request, s: Run) {
    && |s.attempts| == |s.waited| == s.turns
    && s.remainingRepairTurns <= REPAIR_TURNS
    && (s.pc.Begin? || s.pc.Announce? ==> s.turns == 0)
    && (MaxTurns(r).Some? ==>
          if s.turns <= MaxTurns(r).value then s.remainingRepairTurns == REPAIR_TURNS
          else s.turns + s.remainingRepairTurns == MaxTurns(r).value + REPAIR_TURNS)
    && (forall k :: 0 <= k < s.turns - 1 ==> TurnOk(s.attempts[k], s.waited[k]))
    && (InTurn(s.pc) ==> s.turns >= 1 && CurrentTurnOk(s.pc, s.attempts[s.turns - 1], s.waited[s.turns - 1]))
    && (!InTurn(s.pc) && s.turns >= 1 ==>
          s.attempts[s.turns - 1] <= INFERENCE_MAX_ATTEMPTS && s.waited[s.turns - 1] <= 3000)
    && (s.pc.Top? && s.turns >= 1 ==> TurnOk(s.attempts[s.turns - 1], s.waited[s.turns - 1]))
  }

  lemma Delays()
    ensures TotalDelayMs(0) == 0 && TotalDelayMs(1) == 1000 && TotalDelayMs(2) == 3000
  {
    assert RetryDelayMs(1) == 1000 && RetryDelayMs(2) == 2000;
    assert TotalDelayMs(1) == TotalDelayMs(0) + RetryDelayMs(1);
    assert TotalDelayMs(2) == TotalDelayMs(1) + RetryDelayMs(2);
  }

  lemma DelayAtMost(n: nat)
    requires n < INFERENCE_MAX_ATTEMPTS
    ensures TotalDelayMs(n) <= 3000
  {
    Delays();
  }

  lemma LastTurnOk(r: Request, s: Run)
    requires Bounded(r, s) && s.turns >= 1
    ensures s.attempts[s.turns - 1] <= INFERENCE_MAX_ATTEMPTS && s.waited[s.turns - 1] <= 3000
  {
    hide TotalDelayMs;
    Delays();
  }

  /** A step that ends the run and changes none of its counts. */
  lemma BoundedEnd(r: Request, s: Run, s': Run)
    requires Bounded(r, s) && KeepsTurn(s, s') && s'.pc.Ended?
    ensures Bounded(r, s')
  {
    if s.turns >= 1 { LastTurnOk(r, s); }
    hide TurnOk, CurrentTurnOk;
  }

  lemma BoundedFail(r: Request, s: Run, aborted: bool)
    requires Bounded(r, s)
    ensures Bounded(r, Fail(s, aborted))
  {
    hide Bounded, Fail, Logs;
    BoundedEnd(r, s, Fail(s, aborted));
  }

  lemma RetryWaits(s: Run)
    requires s.attempts != [] && |s.waited| == |s.attempts| && StepStreamEnds(s).pc.Attempt?
    ensures var n := |s.attempts| - 1;
      && 1 <= s.attempts[n] < INFERENCE_MAX_ATTEMPTS
      && StepStreamEnds(s) == s.(waited := s.waited[n := s.waited[n] + RetryDelayMs(s.attempts[n])], pc := Attempt)
  {
    hide RetryDelayMs, Fail, Logs, KeepsTurn, KeepsBudget;
  }

  lemma BoundedRetry(r: Request, s: Run)
    requires Bounded(r, s) && s.pc.Streaming? && StepStreamEnds(s).pc.Attempt?
    ensures Bounded(r, StepStreamEnds(s))
  {
    RetryWaits(s);
    var attempt := s.attempts[s.turns - 1];
    assert TotalDelayMs(attempt) == TotalDelayMs(attempt - 1) + RetryDelayMs(attempt);
    hide RetryDelayMs, TotalDelayMs, StepStreamEnds, Logs;
  }

  lemma BoundedJudged(r: Request, s: Run)
    requires Bounded(r, s) && s.pc.Streaming?
    ensures Bounded(r, s.(pc := Judge))
  {
    hide TurnOk, TotalDelayMs;
  }

  lemma BoundedStreamEnds(r: Request, s: Run)
    requires Bounded(r, s) && s.pc.Streaming? && s.attempts != [] && |s.waited| == |s.attempts|
    ensures Bounded(r, StepStreamEnds(s))
  {
    hide RetryDelayMs, TotalDelayMs, Fail, Bounded, Logs;
    var s' := StepStreamEnds(s);
    if s'.pc.Attempt? {
      BoundedRetry(r, s);
    } else if s'.pc.Judge? {
      BoundedJudged(r, s);
    } else {
      BoundedFail(r, s, s.failure.Some? && s.failure.value.aborted);
    }
  }

  lemma BoundedTop(r: Request, s: Run)
    requires Bounded(r, s) && s.pc.Top?
    ensures Bounded(r, StepTop(r, s))
  {
    hide TotalDelayMs, Fail;
    BoundedFail(r, s, true);
    BoundedFail(r, s, false);
    if StepTop(r, s).pc.TopDrain? {
      assert forall k :: 0 <= k < s.turns ==> TurnOk(s.attempts[k], s.waited[k]);
    }
  }

  predicate AfterCall(pc: Pc) {
    InTurn(pc) && !pc.TopDrain? && !pc.Clone? && !pc.Attempt?
  }

  /** Once the model has been called, a step that neither calls it again nor waits nor opens a turn. */
  lemma BoundedQuiet(r: Request, s: Run, s': Run)
    requires Bounded(r, s) && AfterCall(s.pc) && (AfterCall(s'.pc) || s'.pc.Top? || s'.pc.Ended?)
    requires s'.turns == s.turns && s'.attempts == s.attempts && s'.waited == s.waited
    requires s'.remainingRepairTurns == s.remainingRepairTurns
    ensures Bounded(r, s')
  {
    hide TotalDelayMs;
    DelayAtMost(s.attempts[s.turns - 1] - 1);
  }

  /** A step before the turn's first model call. */
  lemma BoundedSame(r: Request, s: Run, s': Run)
    requires Bounded(r, s) && KeepsTurn(s, s')
    requires (s.pc.Begin? && s'.pc.Announce?) || (s.pc.Announce? && s'.pc.Top?)
      || (s.pc.TopDrain? && (s'.pc.TopDrain? || s'.pc.Clone?)) || (s.pc.Clone? && s'.pc.Attempt?)
    ensures Bounded(r, s')
  {
    hide TotalDelayMs, TurnOk;
    Delays();
  }

  lemma BoundedAttempt(r: Request, s: Run)
    requires Bounded(r, s) && s.pc.Attempt? && s.attempts != []
    ensures Bounded(r, StepAttempt(s))
  {
    hide TotalDelayMs, Fail, Logs;
    if Aborted(s) {
      BoundedFail(r, s, true);
    } else {
      assert TurnOk(s.attempts[s.turns - 1] + 1, s.waited[s.turns - 1]);
      hide TurnOk;
    }
  }

  lemma BoundedEarly(r: Request, s: Run, a: Action)
    requires Bounded(r, s) && Answers(r, s, a) && !a.Throws?
    requires s.pc.Begin? || s.pc.Announce? || s.pc.TopDrain? || s.pc.Clone? || s.pc.Attempt?
    ensures Bounded(r, Resume(r, s, a))
  {
    hide Bounded, Fail, MessagesOf, Logs, StepClone, StepDrain, StepAnnounce, StepAttempt;
    if s.pc.Attempt? {
      BoundedAttempt(r, s);
    } else if s.pc.Begin? && Aborted(s) {
      BoundedFail(r, s, true);
    } else {
      BoundedSame(r, s, Resume(r, s, a));
    }
  }

  lemma BoundedResume(r: Request, s: Run, a: Action)
    requires Bounded(r, s) && Answers(r, s, a)
    ensures Bounded(r, Resume(r, s, a))
  {
    hide Bounded, Logs, StepBegin, StepAnnounce, Again, StepStreamEnds, StepTop, StepStream, StepDrain, StepJudge,
      StepReview, StepAppend, StepTools, StepBeforeComplete, StepSeal, Fail;
    if a.Throws? { BoundedFail(r, s, a.aborted); }
    else if s.pc.Top? { BoundedTop(r, s); }
    else if s.pc.Streaming? && a.StreamEnds? { BoundedStreamEnds(r, s); }
    else if AfterCall(s.pc) { BoundedQuiet(r, s, Resume(r, s, a)); }
    else { BoundedEarly(r, s, a); }
  }

  lemma BoundedStep(r: Request, s: Run, a: Action)
    requires Bounded(r, s)
    ensures Bounded(r, Next(r, s, a))
  {
    if !a.Steer? && !a.Cancel? && !a.AbortRequest? && Answers(r, s, a) { BoundedResume(r, s, a); }
  }

  lemma {:induction false} BoundedExec(r: Request, s: Run, actions: seq<Action>)
    requires Bounded(r, s)
    ensures Bounded(r, Exec(r, s, actions))
    decreases |actions|
  {
    if actions != [] {
      BoundedStep(r, s, actions[0]);
      BoundedExec(r, Next(r, s, actions[0]), actions[1..]);
    }
  }

  /** At most three turns beyond the limit, three model calls in a turn, three seconds of waiting
      between them: for every mix of repairs, late steering, tool turns and refusals. */
  lemma RunIsBounded(r: Request, actions: seq<Action>)
    ensures var s := Exec(r, Initial(r), actions);
      && |s.attempts| == |s.waited| == s.turns
      && (MaxTurns(r).Some? ==> s.turns <= MaxTurns(r).value + 3)
      && forall k :: 0 <= k < s.turns ==> s.attempts[k] <= 3 && s.waited[k] <= 3000
  {
    BoundedExec(r, Initial(r), actions);
    var s := Exec(r, Initial(r), actions);
    Delays();
    forall k | 0 <= k < s.turns ensures s.attempts[k] <= 3 && s.waited[k] <= 3000 {
      if k < s.turns - 1 { assert TurnOk(s.attempts[k], s.waited[k]); }
    }
  }

  /** An answer that the awaited party can give. */
  function SomeAnswer(r: Request, s: Run): Action {
    if s.pc.Clone? && r.transforms then Transformed([])
    else if s.pc.Streaming? then StreamEnds
    else if s.pc.Review? then Reviewed([])
    else if s.pc.RunTools? && s.finalMessage.Some? then
      ToolsReturn(seq(|Calls(s.finalMessage.value)|, _ => Tools.Outcome("", false)))
    else if s.pc.BeforeComplete? && r.asksBeforeComplete then Outstanding([])
    else Go
  }

  /** A run that is not over can always be answered. */
  lemma NeverStuck(r: Request, s: Run)
    requires Bounded(r, s) && !s.pc.Ended?
    requires s.pc.Judge? || s.pc.Review? || s.pc.Append? || s.pc.RunTools? || s.pc.Seal? ==> s.finalMessage.Some?
    ensures Answers(r, s, SomeAnswer(r, s))
  {
    hide Calls, TotalDelayMs;
  }
}
