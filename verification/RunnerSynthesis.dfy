/** After the tool batch that spends the budget comes a turn without tools. */
module RunnerSynthesis {
  import opened Messages
  import opened Runner
  import opened RunnerBounds

  predicate NoTurn(log: seq<Event>, from: nat) {
    from <= |log| && forall i :: from <= i < |log| ==> !log[i].TurnStarted?
  }

  /** The first turn announced from here on has this number and no tools. */
  ghost predicate FirstTurn(log: seq<Event>, from: nat, turn: nat) {
    exists i :: from <= i < |log| && log[i].TurnStarted? && log[i].turn == turn && !log[i].tools
      && NoTurn(log[..i], from)
  }

  /** No turn is left of the limit and its repair turns. */
  predicate TurnsSpent(r: Request, turns: nat) { MaxTurns(r).Some? && turns >= MaxTurns(r).value + REPAIR_TURNS }

  /** On the way from the batch that spent the budget, in turn `turn`, to the turn after it. */
  ghost predicate Underway(r: Request, s: Run, from: nat, turn: nat) {
    && NoTurn(s.log, from)
    && (!s.pc.Ended? ==> BudgetSpent(r, s.toolTurns))
    && (s.turns == turn ==> (s.pc.Top? && s.allowRepairTurn) || (Stopped(s.pc) && (Aborted(s) || TurnsSpent(r, turn))))
    && (s.turns != turn ==>
          s.turns == turn + 1 && !TurnsSpent(r, turn)
            && (s.pc.TopDrain? || s.pc.Clone? || (Stopped(s.pc) && r.transforms)))
  }

  ghost predicate Follows(r: Request, s: Run, from: nat, turn: nat) {
    Underway(r, s, from, turn) || (FirstTurn(s.log, from, turn + 1) && s.turns > turn && !TurnsSpent(r, turn))
  }

  lemma NoTurnMore(s: Run, s': Run, from: nat)
    requires NoTurn(s.log, from) && Logs(s, s', {Plain})
    ensures NoTurn(s'.log, from)
  {
  }

  lemma FirstTurnStays(s: Run, s': Run, classes: set<EventClass>, from: nat, turn: nat)
    requires FirstTurn(s.log, from, turn) && Logs(s, s', classes)
    ensures FirstTurn(s'.log, from, turn)
  {
    var i :| from <= i < |s.log| && s.log[i].TurnStarted? && s.log[i].turn == turn && !s.log[i].tools
      && NoTurn(s.log[..i], from);
    assert s'.log[..i] == s.log[..i];
  }

  lemma UnderwayFail(r: Request, s: Run, aborted: bool, from: nat, turn: nat)
    requires Underway(r, s, from, turn)
    requires if s.turns == turn then Aborted(s) || TurnsSpent(r, turn) else r.transforms
    ensures Underway(r, Fail(s, aborted), from, turn)
  {
    hide BudgetSpent, NoTurn, Logs;
    NoTurnMore(s, Fail(s, aborted), from);
  }

  lemma UnderwayTop(r: Request, s: Run, from: nat, turn: nat)
    requires Underway(r, s, from, turn) && Bounded(r, s) && s.pc.Top? && s.turns == turn
    ensures Underway(r, StepTop(r, s), from, turn)
  {
    TurnLeft(r, s);
    hide Bounded, BudgetSpent, Logs, Fail, NoTurn, TurnsSpent;
    if !LoopTest(r, s) {
      UnderwayFail(r, s, false, from, turn);
    } else if Aborted(s) {
      UnderwayFail(r, s, true, from, turn);
    }
  }

  lemma TurnLeft(r: Request, s: Run)
    requires Bounded(r, s) && s.allowRepairTurn
    ensures LoopTest(r, s) <==> !TurnsSpent(r, s.turns)
  {
    hide TurnOk, CurrentTurnOk;
  }

  lemma UnderwayDrain(r: Request, s: Run, from: nat, turn: nat)
    requires Underway(r, s, from, turn) && s.pc.TopDrain? && s.draining != []
    ensures Underway(r, StepDrain(s), from, turn)
  {
    hide BudgetSpent, NoTurn, Logs, StepDrain;
    NoTurnMore(s, StepDrain(s), from);
  }

  lemma UnderwayClone(r: Request, s: Run, offered: seq<Message>, from: nat, turn: nat)
    requires Underway(r, s, from, turn) && s.pc.Clone?
    ensures FirstTurn(StepClone(r, s, offered).log, from, turn + 1) && StepClone(r, s, offered).turns == turn + 1
    ensures !TurnsSpent(r, turn)
  {
    hide Logs;
    var log := StepClone(r, s, offered).log;
    assert log[|s.log|].TurnStarted? && log[..|s.log|] == s.log;
  }

  /** The other awaits do not lie on the way. */
  lemma UnderwayResume(r: Request, s: Run, a: Action, from: nat, turn: nat)
    requires Underway(r, s, from, turn) && Bounded(r, s) && Answers(r, s, a)
    ensures Follows(r, Resume(r, s, a), from, turn)
  {
    if s.pc.Top? {
      assert s.turns == turn;
      hide Underway, Bounded, StepTop, Logs;
      UnderwayTop(r, s, from, turn);
    } else if a.Throws? {
      hide Underway, Bounded, Fail, Logs;
      Started(r, s, a, from, turn);
      UnderwayFail(r, s, a.aborted, from, turn);
    } else if s.pc.Clone? {
      hide Underway, FirstTurn, Bounded, StepClone, Logs, MessagesOf;
      UnderwayClone(r, s, if r.transforms then a.offered else MessagesOf(s.context), from, turn);
    } else if s.draining != [] {
      assert s.pc.TopDrain?;
      hide Underway, Bounded, StepDrain, Logs;
      UnderwayDrain(r, s, from, turn);
    } else {
      hide Bounded, NoTurn, BudgetSpent;
    }
  }

  lemma Started(r: Request, s: Run, a: Action, from: nat, turn: nat)
    requires Underway(r, s, from, turn) && Answers(r, s, a) && a.Throws?
    ensures s.turns != turn && r.transforms
  {
    hide NoTurn, BudgetSpent;
  }

  lemma FollowsStep(r: Request, s: Run, a: Action, from: nat, turn: nat)
    requires Follows(r, s, from, turn) && Bounded(r, s)
    ensures Follows(r, Next(r, s, a), from, turn)
  {
    if a.Steer? || a.Cancel? || a.AbortRequest? {
      hide Bounded, NoTurn, BudgetSpent, FirstTurn, TurnsSpent, Resume, Answers;
    } else if Answers(r, s, a) {
      hide Bounded, Underway, FirstTurn, Resume, Answers, Logs;
      if Underway(r, s, from, turn) {
        UnderwayResume(r, s, a, from, turn);
      } else {
        ResumeLogs(r, s, a);
        TurnsGrow(r, s, a);
        FirstTurnStays(s, Resume(r, s, a), MayLog(s.pc), from, turn + 1);
      }
    }
  }

  lemma TurnsGrow(r: Request, s: Run, a: Action)
    requires Answers(r, s, a)
    ensures Resume(r, s, a).turns >= s.turns
  {
    hide Logs, KeepsBudget, MessagesOf, Calls, StepBegin, StepAnnounce, Again, StepClone, StepDrain, StepTop,
      StepAttempt, StepStream, StepStreamEnds, StepJudge, StepReview, StepAppend, StepTools, StepBeforeComplete,
      StepSeal, Fail;
    if s.pc.Top? { TopOrAttempt(r, s); }
    if s.pc.Attempt? { TopOrAttempt(r, s); }
    if s.pc.Streaming? { StreamEndsKeeps(s); }
  }

  lemma TopOrAttempt(r: Request, s: Run)
    ensures StepTop(r, s).turns >= s.turns
    ensures s.attempts != [] ==> StepAttempt(s).turns == s.turns
  {
    hide Logs, KeepsBudget, Fail, LoopTest;
  }

  lemma {:induction false} FollowsExec(r: Request, s: Run, actions: seq<Action>, from: nat, turn: nat)
    requires Follows(r, s, from, turn) && Bounded(r, s)
    ensures Follows(r, Exec(r, s, actions), from, turn)
    decreases |actions|
  {
    if actions != [] {
      FollowsStep(r, s, actions[0], from, turn);
      BoundedStep(r, s, actions[0]);
      hide Follows, Bounded, Next;
      FollowsExec(r, Next(r, s, actions[0]), actions[1..], from, turn);
    }
  }

  lemma BatchReturns(r: Request, s: Run, outcomes: seq<Tools.Outcome>)
    requires s.pc.RunTools? && Answers(r, s, ToolsReturn(outcomes)) && BudgetSpent(r, s.toolTurns + 1)
    ensures Underway(r, StepTools(r, s, outcomes), |s.log|, s.turns)
  {
    hide Logs, Calls, Tools.Results, Entries;
  }

  /**
   * However a run goes on after the batch that spends its budget: the next turn it announces is the one after
   * that batch, and has no tools.  It goes without that turn only if it is aborted or no turn is left, which is
   * also the only time there is none; and it announces nothing in it only if `transformContext` threw.
   */
  lemma BudgetEndsInAnswer(r: Request, actions: seq<Action>, outcomes: seq<Tools.Outcome>, more: seq<Action>)
    requires Exec(r, Initial(r), actions).pc.RunTools?
      && Answers(r, Exec(r, Initial(r), actions), ToolsReturn(outcomes))
    requires BudgetSpent(r, Exec(r, Initial(r), actions).toolTurns + 1)
    ensures var s := Exec(r, Initial(r), actions);
      var t := Exec(r, Resume(r, s, ToolsReturn(outcomes)), more);
      var silent := NoTurn(t.log, |s.log|);
      && (silent || FirstTurn(t.log, |s.log|, s.turns + 1))
      && (t.turns > s.turns ==> !TurnsSpent(r, s.turns))
      && (t.turns <= s.turns && t.pc.Ended? ==> Aborted(t) || TurnsSpent(r, s.turns))
      && (silent && t.turns > s.turns && t.pc.Ended? ==> r.transforms)
      && (silent && !t.pc.Ended? ==> t.pc.Top? || t.pc.TopDrain? || t.pc.Clone?)
  {
    var s := Exec(r, Initial(r), actions);
    BoundedStart(r);
    hide Exec, Initial, Bounded, Follows, Answers, BudgetSpent, NoTurn, FirstTurn, TurnsSpent, Aborted;
    BoundedExec(r, Initial(r), actions);
    BoundedResume(r, s, ToolsReturn(outcomes));
    BatchReturns(r, s, outcomes);
    ToolsResume(r, s, outcomes);
    FollowsExec(r, Resume(r, s, ToolsReturn(outcomes)), more, |s.log|, s.turns);
    FollowsMeans(r, Exec(r, Resume(r, s, ToolsReturn(outcomes)), more), |s.log|, s.turns);
  }

  lemma FollowsMeans(r: Request, t: Run, from: nat, turn: nat)
    requires Follows(r, t, from, turn)
    ensures NoTurn(t.log, from) || FirstTurn(t.log, from, turn + 1)
    ensures t.turns > turn ==> !TurnsSpent(r, turn)
    ensures t.turns <= turn && t.pc.Ended? ==> Aborted(t) || TurnsSpent(r, turn)
    ensures NoTurn(t.log, from) && t.turns > turn && t.pc.Ended? ==> r.transforms
    ensures NoTurn(t.log, from) && !t.pc.Ended? ==> t.pc.Top? || t.pc.TopDrain? || t.pc.Clone?
  {
  }

  lemma BoundedStart(r: Request)
    ensures Bounded(r, Initial(r))
  {
  }

  lemma ToolsResume(r: Request, s: Run, outcomes: seq<Tools.Outcome>)
    requires s.pc.RunTools? && Answers(r, s, ToolsReturn(outcomes))
      && Underway(r, StepTools(r, s, outcomes), |s.log|, s.turns)
    ensures Follows(r, Resume(r, s, ToolsReturn(outcomes)), |s.log|, s.turns)
  {
    hide Underway, StepTools, Logs;
  }
}
