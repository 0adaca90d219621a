/** How turns end, which message is final, and which messages are kept. */
module RunnerMessages {
  import opened Messages
  import opened Runner
  import opened RunLog

  // ----- every turn ends once --------------------------------------------------------------

  /** The awaits of a turn before its message is accepted or refused. */
  predicate Open(pc: Pc) {
    pc.TopDrain? || pc.Clone? || pc.Attempt? || pc.Streaming? || pc.Judge? || pc.Review? || pc.Append?
    || pc.BeforeComplete? || pc.Seal?
  }

  ghost predicate EndsOnce(s: Run) {
    && (forall t: nat :: 1 <= t < s.turns ==> Ends(s.log, t) == 1)
    && (forall t: nat :: t == 0 || t > s.turns ==> Ends(s.log, t) == 0)
    && Ends(s.log, s.turns) <= 1
    && (Open(s.pc) ==> s.turns >= 1 && Ends(s.log, s.turns) == 0)
    && (s.pc.Begin? || s.pc.Announce? ==> s.turns == 0)
    && (!Open(s.pc) && !Stopped(s.pc) && s.turns >= 1 ==> Ends(s.log, s.turns) == 1)
    && (s.pc.RunTools? || s.pc.LateDrain? || s.pc == Ended(Completed) ==> s.turns >= 1)
    && Finals(s.log) == (if s.pc == Ended(Completed) then 1 else 0)
  }

  lemma {:induction false} SameEnds(log: seq<Event>, more: seq<Event>)
    requires forall i :: 0 <= i < |more| ==> !ClassOf(more[i]).TurnEnd?
    ensures forall t: nat :: Ends(log + more, t) == Ends(log, t)
    ensures Finals(log + more) == Finals(log) && CompletedMessages(log + more) == CompletedMessages(log)
    ensures forall t: nat :: CompletedIn(log + more, t) == CompletedIn(log, t)
  {
    hide Ends, Finals, CompletedMessages;
    if more == [] {
      assert log + more == log;
    } else {
      var n := |more| - 1;
      var log' := log + more[..n];
      SameEnds(log, more[..n]);
      assert log + more == log' + [more[n]];
      LoggedEnds(log', more[n]);
      LoggedFinals(log', more[n]);
      LoggedCompleted(log', more[n]);
      LoggedCompletedIn(log', more[n]);
    }
  }

  const NOT_ENDS := {Plain, EventClass.Content, Offer, ToolRun}

  lemma QuietEnds(s: Run, s': Run)
    requires Logs(s, s', NOT_ENDS)
    ensures forall t: nat :: Ends(s'.log, t) == Ends(s.log, t)
    ensures Finals(s'.log) == Finals(s.log) && CompletedMessages(s'.log) == CompletedMessages(s.log)
    ensures forall t: nat :: CompletedIn(s'.log, t) == CompletedIn(s.log, t)
  {
    hide Ends, Finals, CompletedMessages, CompletedIn;
    assert s'.log == s.log + s'.log[|s.log|..];
    SameEnds(s.log, s'.log[|s.log|..]);
  }

  /** A step that accepts and refuses nothing. */
  lemma EndsQuiet(s: Run, s': Run)
    requires EndsOnce(s) && Logs(s, s', NOT_ENDS) && s'.turns == s.turns && !s.pc.Ended? && s'.pc != Ended(Completed)
    requires s'.pc.Begin? || s'.pc.Announce? ==> s.pc.Begin? || s.pc.Announce?
    requires Stopped(s'.pc) || (Open(s'.pc) <==> Open(s.pc))
    requires s'.pc.RunTools? || s'.pc.LateDrain? ==> s.pc.RunTools? || s.pc.LateDrain?
    ensures EndsOnce(s')
  {
    hide Ends, Finals, CompletedMessages, Logs;
    QuietEnds(s, s');
  }

  /** A step that ends an open turn with one event. */
  lemma EndsClose(s: Run, s': Run, e: Event)
    requires EndsOnce(s) && Open(s.pc) && s'.turns == s.turns && s'.log == s.log + [e] && EndsTurn(e, s.turns)
    requires !Open(s'.pc) && !s'.pc.Begin? && !s'.pc.Announce? && (IsFinal(e) <==> s'.pc == Ended(Completed))
    ensures EndsOnce(s')
  {
    hide Ends, Finals;
    LoggedEnds(s.log, e);
    LoggedFinals(s.log, e);
  }

  lemma EndsFail(s: Run, aborted: bool)
    requires EndsOnce(s) && !s.pc.Ended?
    ensures EndsOnce(Fail(s, aborted))
  {
    hide EndsOnce, Logs;
    var s' := Fail(s, aborted);
    LogsMore(s, s', {Plain}, NOT_ENDS);
    EndsQuiet(s, s');
  }

  lemma EndsTop(r: Request, s: Run)
    requires EndsOnce(s) && s.pc.Top?
    ensures EndsOnce(StepTop(r, s))
  {
    hide Ends, Finals, Logs, Fail;
    EndsFail(s, true);
    EndsFail(s, false);
  }

  lemma EndsJudge(r: Request, s: Run)
    requires EndsOnce(s) && s.pc.Judge? && s.finalMessage.Some?
    ensures EndsOnce(StepJudge(r, s))
  {
    hide EndsOnce, Logs, KeepsBudget, KeepsTurn, Calls, TextOf, Blank, Fail, Refuse;
    RefuseAdds(s.(emptyFinalRepairIssued := true), 1, EmptyRepair(s));
    var s' := StepJudge(r, s);
    if s'.pc.Ended? { EndsFail(s, false); }
    else if s'.pc.Top? { EndsClose(s, s', FinalRejected(s.turns, 1)); }
    else { SameLog(s, s'); LogsMore(s, s', {Plain}, NOT_ENDS); EndsQuiet(s, s'); }
  }

  lemma EndsReview(s: Run, repair: seq<Message>)
    requires EndsOnce(s) && s.pc.Review? && s.finalMessage.Some?
    ensures EndsOnce(StepReview(s, repair))
  {
    hide EndsOnce, Logs;
    var s' := StepReview(s, repair);
    if s'.pc.Top? { EndsClose(s, s', FinalRejected(s.turns, |repair|)); }
    else { SameLog(s, s'); LogsMore(s, s', {Plain}, NOT_ENDS); EndsQuiet(s, s'); }
  }

  lemma EndsCalls(s: Run)
    requires EndsOnce(s) && s.pc.Append? && s.finalMessage.Some?
    ensures EndsOnce(StepCalls(s))
  {
    hide EndsOnce, Logs;
    var s' := StepCalls(s);
    if s.synthesisOnly {
      EndsClose(s, s', FinalRejected(s.turns, 1));
    } else {
      var e := MessageCompleted(s.turns, Assistant(s.finalMessage.value), Commentary);
      var s1 := Emit(s, e).(pc := RunTools);
      EndsClose(s, s1, e);
      OneLogged(s1, s', RunState(ExecutingTools), NOT_ENDS);
      EndsQuiet(s1, s');
    }
  }

  lemma OneLogged(s: Run, s': Run, e: Event, classes: set<EventClass>)
    requires s'.log == s.log + [e] && ClassOf(e) in classes
    ensures Logs(s, s', classes)
  {}

  lemma EndsAppend(s: Run)
    requires EndsOnce(s) && s.pc.Append? && s.finalMessage.Some?
    ensures EndsOnce(StepAppend(s))
  {
    hide EndsOnce, Logs, StepCalls;
    var s1 := Answered(s);
    SameLog(s, s1);
    LogsMore(s, s1, {Plain}, NOT_ENDS);
    EndsQuiet(s, s1);
    if Calls(s.finalMessage.value) != [] {
      EndsCalls(s1);
    } else {
      var s' := StepLateSteering(s1);
      if s'.pc.LateDrain? { EndsClose(s1, s', FinalRejected(s.turns, |s1.control.queue|)); }
      else { SameLog(s1, s'); LogsMore(s1, s', {Plain}, NOT_ENDS); EndsQuiet(s1, s'); }
    }
  }

  lemma EndsBeforeComplete(s: Run, outstanding: seq<Message>)
    requires EndsOnce(s) && s.pc.BeforeComplete?
    ensures EndsOnce(StepBeforeComplete(s, outstanding))
  {
    hide EndsOnce, Logs;
    var s' := StepBeforeComplete(s, outstanding);
    if s'.pc.Top? { EndsClose(s, s', FinalRejected(s.turns, |outstanding|)); }
    else { SameLog(s, s'); LogsMore(s, s', {Plain}, NOT_ENDS); EndsQuiet(s, s'); }
  }

  lemma EndsSeal(s: Run)
    requires EndsOnce(s) && s.pc.Seal? && s.finalMessage.Some?
    ensures EndsOnce(StepSeal(s))
  {
    hide Ends, Finals, Logs;
    var s' := StepSeal(s);
    if s'.pc.Top? {
      EndsClose(s, s', FinalRejected(s.turns, 1));
    } else {
      var e := MessageCompleted(s.turns, Assistant(s.finalMessage.value), Final);
      var s1 := Emit(s, e).(pc := Ended(Completed));
      EndsClose(s, s1, e);
      LoggedEnds(s1.log, RunState(Completed));
      LoggedEnds(s1.log + [RunState(Completed)], RunEnded(Completed));
      LoggedFinals(s1.log, RunState(Completed));
      LoggedFinals(s1.log + [RunState(Completed)], RunEnded(Completed));
    }
  }

  /** The steps that neither open nor end a turn. */
  lemma EndsOther(r: Request, s: Run, a: Action)
    requires EndsOnce(s) && Answers(r, s, a) && !a.Throws?
    requires s.pc.Begin? || s.pc.Announce? || s.pc.TopDrain? || s.pc.Clone? || s.pc.Attempt? || s.pc.Streaming?
             || s.pc.RunTools? || s.pc.LateDrain?
    ensures EndsOnce(Resume(r, s, a))
  {
    hide EndsOnce, Logs, StepBegin, StepAnnounce, StepDrain, StepClone, StepStream, StepTools, Again, Fail,
      MessagesOf, RetryDelayMs;
    var s' := Resume(r, s, a);
    ResumeLogs(r, s, a);
    LogsMore(s, s', MayLog(s.pc), NOT_ENDS);
    EndsQuiet(s, s');
  }

  lemma EndsResume(r: Request, s: Run, a: Action)
    requires EndsOnce(s) && Answers(r, s, a)
    ensures EndsOnce(Resume(r, s, a))
  {
    hide EndsOnce, Logs, StepTop, StepJudge, StepReview, StepAppend, StepBeforeComplete, StepSeal;
    if a.Throws? {
      EndsFail(s, a.aborted);
    } else {
      match s.pc
      case Top => EndsTop(r, s);
      case Judge => EndsJudge(r, s);
      case Review => EndsReview(s, a.repair);
      case Append => EndsAppend(s);
      case BeforeComplete => EndsBeforeComplete(s, if r.asksBeforeComplete then a.messages else []);
      case Seal => EndsSeal(s);
      case _ => EndsOther(r, s, a);
    }
  }

  lemma EndsStep(r: Request, s: Run, a: Action)
    requires EndsOnce(s)
    ensures EndsOnce(Next(r, s, a))
  {
    hide Resume, Answers, Ends, Finals;
    if !a.Steer? && !a.Cancel? && !a.AbortRequest? && Answers(r, s, a) { EndsResume(r, s, a); }
  }

  lemma {:induction false} EndsExec(r: Request, s: Run, actions: seq<Action>)
    requires EndsOnce(s)
    ensures EndsOnce(Exec(r, s, actions))
    decreases |actions|
  {
    if actions != [] {
      var a := actions[0];
      EndsStep(r, s, a);
      hide Next, EndsOnce;
      EndsExec(r, Next(r, s, a), actions[1..]);
    }
  }

  /** Every turn that is over without an error was ended by exactly one accepted or refused message;
      one message is final in a completed run and none in any other. */
  lemma TurnsEndOnce(r: Request, actions: seq<Action>)
    ensures var s := Exec(r, Initial(r), actions);
      && (forall t: nat :: 1 <= t < s.turns ==> Ends(s.log, t) == 1)
      && (s.pc.Top? || s.pc == Ended(Completed) ==> forall t: nat :: 1 <= t <= s.turns ==> Ends(s.log, t) == 1)
      && (forall t: nat :: Ends(s.log, t) <= 1)
      && Finals(s.log) == (if s.pc == Ended(Completed) then 1 else 0)
  {
    EndsExec(r, Initial(r), actions);
  }

  // ----- the final answer ------------------------------------------------------------------

  predicate Answer(s: Run) {
    && s.finalMessage.Some? && s.context != []
    && s.context[|s.context| - 1] == Entry(Assistant(s.finalMessage.value), Model(s.turns))
    && Calls(s.finalMessage.value) == []
    && !Blank(TextOf(s.finalMessage.value))
    && s.lastAgentMessage == TextOf(s.finalMessage.value)
  }

  predicate AnswerOk(s: Run) {
    && (s.pc.Judge? || s.pc.Review? || s.pc.Append? || s.pc.RunTools? ==> s.finalMessage.Some?)
    && (s.pc.Review? || s.pc.Append? ==>
          Calls(s.finalMessage.value) == [] ==> !Blank(TextOf(s.finalMessage.value)))
    && (s.pc.BeforeComplete? || s.pc.Seal? || s.pc == Ended(Completed) ==> Answer(s))
  }

  lemma AnswerLate(s: Run)
    requires s.finalMessage.Some? && Calls(s.finalMessage.value) == [] && !Blank(TextOf(s.finalMessage.value))
    ensures AnswerOk(StepLateSteering(Answered(s)))
  {
    hide Logs, Calls, TextOf;
    assert Blank("");
    hide Blank;
  }

  lemma AnswerAppend(s: Run)
    requires AnswerOk(s) && s.pc.Append?
    ensures AnswerOk(StepAppend(s))
  {
    hide Logs, Calls, TextOf, Blank, StepLateSteering;
    if Calls(s.finalMessage.value) == [] { AnswerLate(s); }
  }

  lemma AnswerJudge(r: Request, s: Run)
    requires AnswerOk(s) && s.pc.Judge?
    ensures AnswerOk(StepJudge(r, s))
  {
    hide Logs, Calls, TextOf, Blank, Fail, Again;
  }

  lemma AnswerReview(s: Run, repair: seq<Message>)
    requires AnswerOk(s) && s.pc.Review?
    ensures AnswerOk(StepReview(s, repair))
  {
    hide Logs, Calls, TextOf, Blank, Again;
  }

  lemma AnswerJudged(r: Request, s: Run, a: Action)
    requires AnswerOk(s) && Answers(r, s, a) && !a.Throws? && (s.pc.Judge? || s.pc.Review?)
    ensures AnswerOk(Resume(r, s, a))
  {
    hide AnswerOk, StepJudge, StepReview;
    if s.pc.Judge? { AnswerJudge(r, s); } else { AnswerReview(s, a.repair); }
  }

  lemma AnswerSeal(s: Run)
    requires AnswerOk(s) && s.pc.Seal? && s.finalMessage.Some?
    ensures AnswerOk(StepSeal(s))
  {
    hide Logs, KeepsTurn, KeepsBudget, Calls, TextOf, Blank, Refuse;
  }

  lemma AnswerBeforeComplete(s: Run, outstanding: seq<Message>)
    requires AnswerOk(s) && s.pc.BeforeComplete?
    ensures AnswerOk(StepBeforeComplete(s, outstanding))
  {
    hide Logs, KeepsTurn, KeepsBudget, Calls, TextOf, Blank, Refuse, Entries;
  }

  lemma AnswerSealed(r: Request, s: Run, a: Action)
    requires AnswerOk(s) && Answers(r, s, a) && !a.Throws? && (s.pc.BeforeComplete? || s.pc.Seal?)
    ensures AnswerOk(Resume(r, s, a))
  {
    hide AnswerOk, Logs, KeepsTurn, KeepsBudget, StepSeal, StepBeforeComplete;
    if s.pc.Seal? { AnswerSeal(s); }
    else { AnswerBeforeComplete(s, if r.asksBeforeComplete then a.messages else []); }
  }

  lemma AnswerStreamEnds(s: Run)
    requires s.attempts != [] && |s.waited| == |s.attempts|
    ensures AnswerOk(StepStreamEnds(s))
  {
    hide Logs, Calls, TextOf, Blank, Fail, RetryDelayMs;
  }

  lemma AnswerResume(r: Request, s: Run, a: Action)
    requires AnswerOk(s) && Answers(r, s, a)
    ensures AnswerOk(Resume(r, s, a))
  {
    hide Logs, Answer, Calls, TextOf, Blank, StepBegin, StepAnnounce, StepTop, StepDrain, StepClone, StepAttempt,
      StepStream, StepStreamEnds, StepJudge, StepReview, StepAppend, StepTools, StepBeforeComplete, StepSeal, Again,
      Fail, MessagesOf;
    if !a.Throws? {
      if s.pc.Append? { AnswerAppend(s); }
      else if s.pc.Judge? || s.pc.Review? { AnswerJudged(r, s, a); }
      else if s.pc.BeforeComplete? || s.pc.Seal? { AnswerSealed(r, s, a); }
      else if s.pc.Streaming? && a.StreamEnds? { AnswerStreamEnds(s); }
    }
  }

  lemma {:induction false} AnswerExec(r: Request, s: Run, actions: seq<Action>)
    requires AnswerOk(s)
    ensures AnswerOk(Exec(r, s, actions))
    decreases |actions|
  {
    if actions != [] {
      var a := actions[0];
      hide Resume, Calls, TextOf, Blank;
      if !a.Steer? && !a.Cancel? && !a.AbortRequest? && Answers(r, s, a) { AnswerResume(r, s, a); }
      AnswerExec(r, Next(r, s, a), actions[1..]);
    }
  }

  /** The completed result's `lastAgentMessage` is the non-blank text of the last message of its
      context, which calls no tools. */
  lemma CompletedRunHasAnswer(r: Request, actions: seq<Action>)
    requires Exec(r, Initial(r), actions).pc == Ended(Completed)
    ensures var s := Exec(r, Initial(r), actions);
      && s.context != [] && s.context[|s.context| - 1].message.Assistant?
      && Calls(s.context[|s.context| - 1].message.content) == []
      && s.lastAgentMessage == TextOf(s.context[|s.context| - 1].message.content)
      && !Blank(s.lastAgentMessage)
  {
    AnswerExec(r, Initial(r), actions);
  }
}
