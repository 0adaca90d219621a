/** What a turn shows and offers: content of one model call only, and tools only within their budget. */
module RunnerContent {
  import opened Messages
  import opened Runner
  import opened RunnerBounds

  // ----- visible content -------------------------------------------------------------------

  predicate NoDelta(log: seq<Event>, turn: nat) {
    forall i :: 0 <= i < |log| && log[i].Delta? ==> log[i].turn != turn
  }

  /** Every piece of content belongs to the last model call of its turn. */
  ghost predicate SingleSource(s: Run) {
    && (forall i :: 0 <= i < |s.log| && s.log[i].Delta? ==>
          1 <= s.log[i].turn <= |s.attempts| && s.log[i].attempt == s.attempts[s.log[i].turn - 1])
    && |s.attempts| == s.turns
    && (InTurn(s.pc) ==> s.turns >= 1)
    && (s.pc.TopDrain? || s.pc.Clone? || s.pc.Attempt? || (s.pc.Streaming? && !s.contentEmitted) ==>
          NoDelta(s.log, s.turns))
  }

  lemma SingleSourceQuiet(s: Run, s': Run)
    requires SingleSource(s) && Logs(s, s', {Plain, Offer, ToolRun, TurnEnd}) && s'.turns == s.turns
      && s'.attempts == s.attempts
    requires InTurn(s'.pc) ==> InTurn(s.pc)
    requires s'.pc.TopDrain? || s'.pc.Clone? || s'.pc.Attempt? ==> s.pc.TopDrain? || s.pc.Clone?
    requires s'.pc.Streaming? ==> s.pc.Streaming? && s'.contentEmitted == s.contentEmitted
    ensures SingleSource(s')
  {}

  lemma SingleSourceFail(s: Run, aborted: bool)
    requires SingleSource(s)
    ensures SingleSource(Fail(s, aborted))
  {
    hide Fail;
    SingleSourceQuiet(s, Fail(s, aborted));
  }

  lemma SingleSourceCalls(r: Request, s: Run)
    requires SingleSource(s)
    ensures s.pc.Top? ==> SingleSource(StepTop(r, s))
    ensures s.pc.Attempt? ==> SingleSource(StepAttempt(s))
  {
    hide Fail;
    SingleSourceFail(s, true);
    SingleSourceFail(s, false);
  }

  lemma SingleSourceStream(s: Run, e: StreamEvent)
    requires SingleSource(s) && s.pc.Streaming?
    ensures SingleSource(StepStream(s, e))
  {
    var s' := StepStream(s, e);
    if e.Content? {
      assert forall i :: 0 <= i < |s.log| ==> s'.log[i] == s.log[i];
    } else {
      SingleSourceQuiet(s, s');
    }
  }

  lemma SingleSourceStreamEnds(s: Run)
    requires SingleSource(s) && s.pc.Streaming? && |s.waited| == |s.attempts|
    ensures SingleSource(StepStreamEnds(s))
  {
    StreamEndsKeeps(s);
    hide NoDelta, StepStreamEnds, Logs;
    var s' := StepStreamEnds(s);
    if s'.pc.Ended? {
      FailsAfterStream(s);
      SingleSourceFail(s, true);
      SingleSourceFail(s, false);
    } else {
      RetriesSilently(s);
    }
  }

  lemma FailsAfterStream(s: Run)
    requires s.attempts != [] && |s.waited| == |s.attempts| && StepStreamEnds(s).pc.Ended? && s.pc.Streaming?
    ensures StepStreamEnds(s) == Fail(s, true) || StepStreamEnds(s) == Fail(s, false)
  {
    hide RetryDelayMs, Fail, Logs, KeepsTurn, KeepsBudget;
  }

  lemma RetriesSilently(s: Run)
    requires s.attempts != [] && |s.waited| == |s.attempts| && !StepStreamEnds(s).pc.Ended?
    ensures StepStreamEnds(s).log == s.log && (StepStreamEnds(s).pc.Attempt? ==> !s.contentEmitted)
  {
    hide RetryDelayMs, Fail, Logs, KeepsTurn, KeepsBudget;
  }

  lemma SingleSourceResume(r: Request, s: Run, a: Action)
    requires SingleSource(s) && Answers(r, s, a)
    ensures SingleSource(Resume(r, s, a))
  {
    hide SingleSource, StepTop, StepAttempt, StepStream, StepStreamEnds, Fail, StepDrain, StepJudge, StepReview,
      StepAppend, StepTools, StepBeforeComplete, StepSeal, MessagesOf;
    if a.Throws? { SingleSourceFail(s, a.aborted); }
    else if s.pc.Top? || s.pc.Attempt? { SingleSourceCalls(r, s); }
    else if s.pc.Streaming? { if a.Stream? { SingleSourceStream(s, a.event); } else { SingleSourceStreamEnds(s); } }
    else { SingleSourceOther(r, s, a); }
  }

  lemma SingleSourceOther(r: Request, s: Run, a: Action)
    requires SingleSource(s) && Answers(r, s, a) && !a.Throws? && !s.pc.Top? && !s.pc.Attempt? && !s.pc.Streaming?
    ensures SingleSource(Resume(r, s, a))
  {
    hide SingleSource, Logs, StepBegin, StepAnnounce, Again, Fail, StepClone, StepDrain, StepJudge, StepReview,
      StepAppend, StepTools, StepBeforeComplete, StepSeal, MessagesOf;
    var s' := Resume(r, s, a);
    ResumeLogs(r, s, a);
    LogsMore(s, s', MayLog(s.pc), {Plain, Offer, ToolRun, TurnEnd});
    SingleSourceQuiet(s, s');
  }

  lemma {:induction false} SingleSourceExec(r: Request, s: Run, actions: seq<Action>)
    requires SingleSource(s)
    ensures SingleSource(Exec(r, s, actions))
    decreases |actions|
  {
    if actions != [] {
      var a := actions[0];
      hide Resume;
      if !a.Steer? && !a.Cancel? && !a.AbortRequest? && Answers(r, s, a) { SingleSourceResume(r, s, a); }
      SingleSourceExec(r, Next(r, s, a), actions[1..]);
    }
  }

  /** In every turn all content comes from a single model call, the last one of that turn. */
  lemma ContentFromLastAttempt(r: Request, actions: seq<Action>)
    ensures var s := Exec(r, Initial(r), actions);
      forall i :: 0 <= i < |s.log| && s.log[i].Delta? ==>
        1 <= s.log[i].turn <= |s.attempts| && s.log[i].attempt == s.attempts[s.log[i].turn - 1]
  {
    SingleSourceExec(r, Initial(r), actions);
  }
}
