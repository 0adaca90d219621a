/** What holds at every await of every run, in one invariant. */
module RunnerInvariant {
  import opened Messages
  import opened Runner
  import opened RunLog
  import opened RunnerBounds
  import opened RunnerBudget
  import opened RunnerContent
  import opened RunnerKept
  import opened RunnerSteering

  /** Steering is conserved, turns and model calls are bounded, every turn ends once and with the right message,
      what is completed is what is kept, tools stay within their budget, and content has one source. */
  ghost predicate Sound(r: Request, s: Run) {
    Conserved(s) && Bounded(r, s) && Ledger(s) && Budgeted(r, s) && SingleSource(s)
  }

  lemma SoundStart(r: Request)
    ensures Sound(r, Initial(r))
  {
    ConservedStart(r);
    LedgerInitial(r);
    hide Conserved, Ledger, Entries;
  }

  lemma OneStep(r: Request, s: Run, a: Action)
    ensures Exec(r, s, [a]) == Next(r, s, a)
  {
    assert [a][1..] == [];
  }

  lemma SoundStep(r: Request, s: Run, a: Action)
    requires Sound(r, s)
    ensures Sound(r, Next(r, s, a))
  {
    hide Conserved, Bounded, Ledger, Budgeted, SingleSource, Exec, Next;
    OneStep(r, s, a);
    ConservedStep(r, s, a);
    BoundedStep(r, s, a);
    LedgerStep(r, s, a);
    BudgetExec(r, s, [a]);
    SingleSourceExec(r, s, [a]);
  }

  /** What the invariant says of the run's own variables. */
  lemma Promises(r: Request, s: Run)
    requires Sound(r, s)
    ensures s.accepted == SteeredIn(s.context) + s.draining + s.control.queue
    ensures MaxTurns(r).Some? ==> s.turns <= MaxTurns(r).value + REPAIR_TURNS
    ensures |s.attempts| == |s.waited| == s.turns && forall k :: 0 <= k < s.turns ==>
      s.attempts[k] <= INFERENCE_MAX_ATTEMPTS
    ensures CompletedMessages(s.log) == Kept(s.context, s.log)
    ensures WithinBudget(r, ToolBatches(s.log))
    ensures s.pc == Ended(Completed) ==>
      && s.control.queue == [] && !s.control.accepting && s.accepted == SteeredIn(s.cloned)
      && s.context != [] && s.context[|s.context| - 1].message.Assistant? && !Blank(s.lastAgentMessage)
      && s.lastAgentMessage == TextOf(s.context[|s.context| - 1].message.content)
      && Finals(s.log) == 1
  {
    hide SteeredIn, Announced, Kept, CompletedMessages, Ends, Finals, Calls, TextOf, Blank, ToolBatches, Offers,
      TotalDelayMs, NoDelta;
    if s.pc == Ended(Completed) {
      assert SteeredIn(s.context) + [] + [] == SteeredIn(s.context);
    }
  }
}
