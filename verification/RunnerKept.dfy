/** Which of the model's messages are kept, and what the host stores of a run. */
module RunnerKept {
  import opened Messages
  import opened Runner
  import opened RunLog
  import opened RunnerMessages

  /** The model's messages in a context whose turn accepted them, in order. */
  ghost function Kept(context: seq<Entry>, log: seq<Event>): seq<Message> {
    if context == [] then []
    else
      var last := context[|context| - 1];
      Kept(context[..|context| - 1], log)
      + (if last.origin.Model? && CompletedIn(log, last.origin.turn) then [last.message] else [])
  }

  lemma KeptGrown(context: seq<Entry>, log: seq<Event>, e: Entry)
    ensures Kept(context + [e], log)
         == Kept(context, log) + (if e.origin.Model? && CompletedIn(log, e.origin.turn) then [e.message] else [])
  {
    assert (context + [e])[..|context|] == context;
  }

  lemma {:induction false} KeptWithOthers(context: seq<Entry>, log: seq<Event>, es: seq<Entry>)
    requires forall i :: 0 <= i < |es| && es[i].origin.Model? ==> !CompletedIn(log, es[i].origin.turn)
    ensures Kept(context + es, log) == Kept(context, log)
  {
    hide Kept, CompletedIn;
    if es == [] {
      assert context + es == context;
    } else {
      var n := |es| - 1;
      KeptWithOthers(context, log, es[..n]);
      assert context + es == context + es[..n] + [es[n]];
      KeptGrown(context + es[..n], log, es[n]);
    }
  }

  lemma {:induction false} KeptSame(context: seq<Entry>, log: seq<Event>, log': seq<Event>)
    requires forall i :: 0 <= i < |context| && context[i].origin.Model? ==>
      CompletedIn(log, context[i].origin.turn) == CompletedIn(log', context[i].origin.turn)
    ensures Kept(context, log) == Kept(context, log')
  {
    if context != [] { KeptSame(context[..|context| - 1], log, log'); }
  }

  /** The model's entries belong to past turns, save the last one once the turn has appended it. */
  ghost predicate Dated(s: Run) {
    forall i :: 0 <= i < |s.context| && s.context[i].origin.Model? ==>
      && 1 <= s.context[i].origin.turn <= s.turns
      && (Open(s.pc) && !(i == |s.context| - 1 && (s.pc.BeforeComplete? || s.pc.Seal?)) ==>
        s.context[i].origin.turn < s.turns)
  }

  ghost predicate KeptOk(s: Run) {
    Dated(s) && CompletedMessages(s.log) == Kept(s.context, s.log)
  }

  /** A step that accepts nothing and adds only entries of other origins. */
  lemma KeptQuiet(s: Run, s': Run, es: seq<Entry>)
    requires KeptOk(s) && Logs(s, s', NOT_ENDS) && s'.context == s.context + es && s'.turns == s.turns
    requires forall i :: 0 <= i < |es| ==> !es[i].origin.Model?
    requires Open(s'.pc) ==> Open(s.pc)
    requires (s.pc.BeforeComplete? || s.pc.Seal?) && Open(s'.pc) ==> (s'.pc.BeforeComplete? || s'.pc.Seal?) && es == []
    ensures KeptOk(s')
  {
    hide Kept, CompletedMessages, CompletedIn, Logs;
    QuietEnds(s, s');
    KeptSame(s.context, s.log, s'.log);
    KeptWithOthers(s.context, s'.log, es);
  }

  /** A step that refuses the message of an open turn, which may join the context first. */
  lemma KeptRefused(s: Run, s': Run, n: nat, es: seq<Entry>)
    requires KeptOk(s) && EndsOnce(s) && Open(s.pc)
    requires s'.log == s.log + [FinalRejected(s.turns, n)] && s'.context == s.context + es && s'.turns == s.turns
    requires forall i :: 0 <= i < |es| && es[i].origin.Model? ==> es[i].origin.turn == s.turns
    requires !Open(s'.pc)
    ensures KeptOk(s')
  {
    hide Kept, CompletedMessages, CompletedIn, Ends, Finals;
    var e := FinalRejected(s.turns, n);
    LoggedCompleted(s.log, e);
    LoggedCompletedIn(s.log, e);
    NoEndNotCompleted(s.log, s.turns);
    KeptSame(s.context, s.log, s'.log);
    KeptWithOthers(s.context, s'.log, es);
  }

  /** A step that accepts the message that is last in the context. */
  lemma KeptAccepted(s: Run, s': Run, phase: Messages.Phase)
    requires CompletedMessages(s.log) == Kept(s.context, s.log) && s.context != []
    requires var last := s.context[|s.context| - 1];
      && last.origin == Model(s.turns)
      && s'.log == s.log + [MessageCompleted(s.turns, last.message, phase)]
    requires forall i :: 0 <= i < |s.context| - 1 && s.context[i].origin.Model? ==>
      1 <= s.context[i].origin.turn < s.turns
    requires !CompletedIn(s.log, s.turns)
    requires s'.context == s.context && s'.turns == s.turns >= 1 && !Open(s'.pc)
    ensures KeptOk(s')
  {
    hide Kept, CompletedMessages, CompletedIn;
    var n := |s.context| - 1;
    var last := s.context[n];
    var e := MessageCompleted(s.turns, last.message, phase);
    LoggedCompleted(s.log, e);
    LoggedCompletedIn(s.log, e);
    assert s.context == s.context[..n] + [last];
    KeptGrown(s.context[..n], s.log, last);
    KeptGrown(s.context[..n], s'.log, last);
    KeptSame(s.context[..n], s.log, s'.log);
  }

  lemma {:induction false} NoEndNotCompleted(log: seq<Event>, turn: nat)
    ensures Ends(log, turn) == 0 ==> !CompletedIn(log, turn) && !Rejected(log, turn)
    ensures Ends(log, turn) == 1 ==> (CompletedIn(log, turn) <==> !Rejected(log, turn))
  {
    if log != [] {
      var n := |log| - 1;
      hide CompletedIn, Rejected;
      NoEndNotCompleted(log[..n], turn);
      assert log == log[..n] + [log[n]];
      LoggedCompletedIn(log[..n], log[n]);
      LoggedRejected(log[..n], log[n]);
    } else {
      assert !CompletedIn([], turn) && !Rejected([], turn);
    }
  }

  ghost predicate Ledger(s: Run) { EndsOnce(s) && AnswerOk(s) && KeptOk(s) }

  lemma KeptFail(s: Run, aborted: bool)
    requires KeptOk(s)
    ensures KeptOk(Fail(s, aborted))
  {
    hide KeptOk, Logs;
    var s' := Fail(s, aborted);
    LogsMore(s, s', {Plain}, NOT_ENDS);
    KeptQuiet(s, s', []);
  }

  /** A step that changes neither log nor context. */
  lemma KeptStill(s: Run, s': Run)
    requires KeptOk(s) && s'.log == s.log && s'.context == s.context && s'.turns == s.turns
    requires Open(s'.pc) ==> Open(s.pc) && (s.pc.BeforeComplete? || s.pc.Seal? ==> s'.pc.BeforeComplete? || s'.pc.Seal?)
    ensures KeptOk(s')
  {}

  lemma KeptTop(r: Request, s: Run)
    requires KeptOk(s) && s.pc.Top?
    ensures KeptOk(StepTop(r, s))
  {
    hide Kept, CompletedMessages, Logs, Fail;
    KeptFail(s, true);
    KeptFail(s, false);
  }

  lemma KeptJudge(r: Request, s: Run)
    requires Ledger(s) && s.pc.Judge? && s.finalMessage.Some?
    ensures KeptOk(StepJudge(r, s))
  {
    hide KeptOk, EndsOnce, AnswerOk, Logs, KeepsTurn, KeepsBudget, Calls, TextOf, Blank, Fail, Refuse;
    RefuseAdds(s.(emptyFinalRepairIssued := true), 1, EmptyRepair(s));
    var s' := StepJudge(r, s);
    if s'.pc.Ended? { KeptFail(s, false); }
    else if s'.pc.Top? { KeptRefused(s, s', 1, EmptyRepair(s)); }
    else { KeptStill(s, s'); }
  }

  lemma KeptReview(s: Run, repair: seq<Message>)
    requires Ledger(s) && s.pc.Review? && s.finalMessage.Some?
    ensures KeptOk(StepReview(s, repair))
  {
    hide KeptOk, EndsOnce, Logs, Calls, TextOf, Blank;
    var s' := StepReview(s, repair);
    if s'.pc.Top? {
      var es := [Entry(Assistant(s.finalMessage.value), Model(s.turns))] + Entries(repair, Repair);
      assert s'.context == s.context + es;
      KeptRefused(s, s', |repair|, es);
    }
    else { KeptStill(s, s'); }
  }

  /** The message has joined the context and its turn is still undecided. */
  lemma KeptAnswered(s: Run)
    requires Ledger(s) && s.pc.Append? && s.finalMessage.Some?
    ensures CompletedMessages(s.log) == Kept(Answered(s).context, s.log) && !CompletedIn(s.log, s.turns) && s.turns >= 1
    ensures forall i :: 0 <= i < |s.context| && s.context[i].origin.Model? ==> 1 <= s.context[i].origin.turn < s.turns
  {
    hide Kept, CompletedMessages, CompletedIn, Ends, Finals, Calls, TextOf, Blank;
    NoEndNotCompleted(s.log, s.turns);
    KeptGrown(s.context, s.log, Entry(Assistant(s.finalMessage.value), Model(s.turns)));
  }

  lemma KeptCalls(s: Run)
    requires Ledger(s) && s.pc.Append? && s.finalMessage.Some?
    ensures KeptOk(StepCalls(Answered(s)))
  {
    hide KeptOk, Kept, CompletedMessages, CompletedIn, EndsOnce, AnswerOk, Logs, TextOf;
    var answer := Entry(Assistant(s.finalMessage.value), Model(s.turns));
    var s1 := Answered(s);
    var s' := StepCalls(s1);
    if s.synthesisOnly {
      assert s'.context == s.context + [answer, Entry(TOOLS_GONE, Repair)];
      KeptRefused(s, s', 1, [answer, Entry(TOOLS_GONE, Repair)]);
    } else {
      KeptAnswered(s);
      assert s1.context[|s.context|] == answer;
      var s2 := Emit(s1, MessageCompleted(s.turns, answer.message, Commentary)).(pc := RunTools);
      KeptAccepted(s1, s2, Commentary);
      OneLogged(s2, s', RunState(ExecutingTools), NOT_ENDS);
      KeptQuiet(s2, s', []);
    }
  }

  lemma KeptLate(s: Run)
    requires Ledger(s) && s.pc.Append? && s.finalMessage.Some?
    ensures KeptOk(StepLateSteering(Answered(s)))
  {
    hide Kept, CompletedMessages, CompletedIn, EndsOnce, AnswerOk, Logs, TextOf;
    var s' := StepLateSteering(Answered(s));
    if s'.pc.LateDrain? {
      KeptRefused(s, s', |s.control.queue|, [Entry(Assistant(s.finalMessage.value), Model(s.turns))]);
    } else {
      KeptAnswered(s);
    }
  }

  lemma KeptBeforeComplete(s: Run, outstanding: seq<Message>)
    requires Ledger(s) && s.pc.BeforeComplete?
    ensures KeptOk(StepBeforeComplete(s, outstanding))
  {
    hide KeptOk, EndsOnce, AnswerOk, Logs;
    var s' := StepBeforeComplete(s, outstanding);
    if s'.pc.Top? { KeptRefused(s, s', |outstanding|, Entries(outstanding, Repair)); } else { KeptStill(s, s'); }
  }

  lemma KeptSealed(s: Run)
    requires Ledger(s) && s.pc.Seal? && s.finalMessage.Some?
    ensures KeptOk(Emit(s, MessageCompleted(s.turns, Assistant(s.finalMessage.value), Final)).(pc := Ended(Completed)))
  {
    hide Kept, CompletedMessages, CompletedIn, Ends, Finals, Calls, TextOf, Blank;
    NoEndNotCompleted(s.log, s.turns);
    var s1 := Emit(s, MessageCompleted(s.turns, Assistant(s.finalMessage.value), Final)).(pc := Ended(Completed));
    KeptAccepted(s, s1, Final);
  }

  lemma KeptSeal(s: Run)
    requires Ledger(s) && s.pc.Seal? && s.finalMessage.Some?
    ensures KeptOk(StepSeal(s))
  {
    hide KeptOk, EndsOnce, AnswerOk, Logs;
    var s' := StepSeal(s);
    if s'.pc.Top? {
      assert s.context + [] == s.context;
      KeptRefused(s, s', 1, []);
    } else {
      KeptSealed(s);
      var s1 := Emit(s, MessageCompleted(s.turns, Assistant(s.finalMessage.value), Final)).(pc := Ended(Completed));
      KeptEnded(s1, s');
    }
  }

  lemma KeptEnded(s: Run, s': Run)
    requires KeptOk(s) && s.pc == s'.pc == Ended(Completed) && s'.context == s.context && s'.turns == s.turns
    requires s'.log == s.log + [RunState(Completed)] + [RunEnded(Completed)]
    ensures KeptOk(s')
  {
    hide KeptOk;
    assert s.context + [] == s.context;
    KeptQuiet(s, s', []);
  }

  lemma KeptDrainOrTools(r: Request, s: Run, a: Action)
    requires KeptOk(s) && Answers(r, s, a) && !a.Throws? && (s.pc.TopDrain? || s.pc.RunTools? || s.pc.LateDrain?)
    ensures KeptOk(Resume(r, s, a))
  {
    hide KeptOk, Logs, Again;
    var s' := Resume(r, s, a);
    ResumeLogs(r, s, a);
    LogsMore(s, s', MayLog(s.pc), NOT_ENDS);
    if s.pc.RunTools? {
      KeptQuiet(s, s', Entries(Tools.Results(Calls(s.finalMessage.value), a.outcomes), ToolOutput));
    } else if s.draining != [] {
      KeptQuiet(s, s', [Entry(s.draining[0], Steered)]);
    } else {
      KeptDrained(s, s');
    }
  }

  lemma KeptDrained(s: Run, s': Run)
    requires KeptOk(s) && s.draining == []
      && ((s.pc.TopDrain? && s' == s.(pc := Clone)) || (s.pc.LateDrain? && s' == Again(s)))
    ensures KeptOk(s')
  {
    hide KeptOk, Logs;
    KeptStill(s, s');
  }

  lemma EarlyFrame(r: Request, s: Run, a: Action)
    requires Answers(r, s, a) && !a.Throws?
    requires s.pc.Begin? || s.pc.Announce? || s.pc.Clone? || s.pc.Attempt? || s.pc.Streaming?
    ensures Resume(r, s, a).context == s.context && Resume(r, s, a).turns == s.turns
    ensures Open(Resume(r, s, a).pc) ==> Open(s.pc)
  {
    hide Logs, MessagesOf, StepStream, StepStreamEnds, StepAttempt, Fail;
    if s.pc.Streaming? {
      if a.Stream? { StreamFrame(s, a.event); } else { StreamEndsKeeps(s); }
    } else if s.pc.Attempt? {
      AttemptFrame(s);
    } else {
      FailFrame(s);
    }
  }

  lemma FailFrame(s: Run)
    ensures forall aborted :: Fail(s, aborted).context == s.context
  {
  }

  lemma StreamFrame(s: Run, e: StreamEvent)
    requires s.attempts != []
    ensures StepStream(s, e).context == s.context
  {
  }

  lemma AttemptFrame(s: Run)
    requires s.attempts != []
    ensures StepAttempt(s).context == s.context && StepAttempt(s).turns == s.turns
  {
    hide Logs, Fail;
    FailFrame(s);
  }

  lemma KeptEarly(r: Request, s: Run, a: Action)
    requires KeptOk(s) && Answers(r, s, a) && !a.Throws?
    requires s.pc.Begin? || s.pc.Announce? || s.pc.Clone? || s.pc.Attempt? || s.pc.Streaming?
    ensures KeptOk(Resume(r, s, a))
  {
    hide KeptOk, Logs, Resume, Answers;
    EarlyFrame(r, s, a);
    var s' := Resume(r, s, a);
    ResumeLogs(r, s, a);
    LogsMore(s, s', MayLog(s.pc), NOT_ENDS);
    assert s.context + [] == s.context;
    KeptQuiet(s, s', []);
  }

  lemma LedgerResume(r: Request, s: Run, a: Action)
    requires Ledger(s) && Answers(r, s, a)
    ensures Ledger(Resume(r, s, a))
  {
    EndsResume(r, s, a);
    AnswerResume(r, s, a);
    hide EndsOnce, AnswerOk, KeptOk, Logs, StepTop, StepJudge, StepReview, StepCalls, StepLateSteering,
      StepBeforeComplete, StepSeal;
    if a.Throws? {
      KeptFail(s, a.aborted);
    } else {
      match s.pc
      case Top => KeptTop(r, s);
      case Judge => KeptJudge(r, s);
      case Review => KeptReview(s, a.repair);
      case Append => if Calls(s.finalMessage.value) != [] { KeptCalls(s); } else { KeptLate(s); }
      case BeforeComplete => KeptBeforeComplete(s, if r.asksBeforeComplete then a.messages else []);
      case Seal => KeptSeal(s);
      case TopDrain => KeptDrainOrTools(r, s, a);
      case RunTools => KeptDrainOrTools(r, s, a);
      case LateDrain => KeptDrainOrTools(r, s, a);
      case _ => KeptEarly(r, s, a);
    }
  }

  /** Steering and cancelling touch only the control. */
  lemma LedgerControl(s: Run, s': Run)
    requires Ledger(s) && s' == s.(control := s'.control, requestAborted := s'.requestAborted, accepted := s'.accepted)
    ensures Ledger(s')
  {
    hide Kept, Ends, Finals, CompletedMessages, Calls, TextOf, Blank;
  }

  lemma LedgerStep(r: Request, s: Run, a: Action)
    requires Ledger(s)
    ensures Ledger(Next(r, s, a))
  {
    hide Ledger, Resume;
    if a.Steer? || a.Cancel? || a.AbortRequest? { LedgerControl(s, Next(r, s, a)); }
    else if Answers(r, s, a) { LedgerResume(r, s, a); }
  }

  lemma {:induction false} LedgerExec(r: Request, s: Run, actions: seq<Action>)
    requires Ledger(s)
    ensures Ledger(Exec(r, s, actions))
    decreases |actions|
  {
    if actions != [] {
      hide Ledger, Next;
      LedgerStep(r, s, actions[0]);
      LedgerExec(r, Next(r, s, actions[0]), actions[1..]);
    }
  }

  /** The given context holds nothing of the model's. */
  lemma NothingKept(messages: seq<Message>)
    ensures Kept(Entries(messages, Given), []) == []
  {
    hide Kept, CompletedIn;
    KeptWithOthers([], [], Entries(messages, Given));
    assert [] + Entries(messages, Given) == Entries(messages, Given);
    NoneKept();
  }

  lemma NoneKept()
    ensures Kept([], []) == []
  {
  }

  lemma EndsInitial(r: Request)
    ensures EndsOnce(Initial(r))
  {
    hide Entries;
    assert forall t: nat :: Ends([], t) == 0;
    assert Finals([]) == 0;
  }

  lemma KeptInitial(r: Request)
    ensures KeptOk(Initial(r))
  {
    NothingKept(r.context);
    assert CompletedMessages([]) == [];
    hide Kept, CompletedMessages;
  }

  lemma LedgerInitial(r: Request)
    ensures Ledger(Initial(r))
  {
    EndsInitial(r);
    KeptInitial(r);
    hide EndsOnce, KeptOk, Entries;
  }

  // ----- what is stored --------------------------------------------------------------------

  /** The model's messages in a context whose turn did not refuse them, in order. */
  ghost function NotRejected(context: seq<Entry>, log: seq<Event>): seq<Message> {
    if context == [] then []
    else
      var last := context[|context| - 1];
      NotRejected(context[..|context| - 1], log)
      + (if last.origin.Model? && !Rejected(log, last.origin.turn) then [last.message] else [])
  }

  /** The model's message at a place of the context belongs to a turn that was decided. */
  predicate Decided(context: seq<Entry>, log: seq<Event>, i: nat)
    requires i < |context|
  {
    context[i].origin.Model? ==> Ends(log, context[i].origin.turn) == 1
  }

  ghost predicate AllDecided(context: seq<Entry>, log: seq<Event>) {
    forall i :: 0 <= i < |context| ==> Decided(context, log, i)
  }

  lemma {:induction false} KeptIsNotRejected(context: seq<Entry>, log: seq<Event>)
    requires AllDecided(context, log)
    ensures Kept(context, log) == NotRejected(context, log)
  {
    if context != [] {
      var n := |context| - 1;
      assert Decided(context, log, n) && forall i :: 0 <= i < n ==>
        Decided(context, log, i) == Decided(context[..n], log, i);
      KeptIsNotRejected(context[..n], log);
      if context[n].origin.Model? { NoEndNotCompleted(log, context[n].origin.turn); }
    }
  }

  /** Where no turn has two ends: an undecided message is not refused, and not kept either. */
  lemma {:induction false} KeptIsFewer(context: seq<Entry>, log: seq<Event>)
    requires forall i :: 0 <= i < |context| && context[i].origin.Model? ==> Ends(log, context[i].origin.turn) <= 1
    ensures |Kept(context, log)| <= |NotRejected(context, log)|
    ensures !AllDecided(context, log) ==> |Kept(context, log)| < |NotRejected(context, log)|
  {
    if context != [] {
      var n := |context| - 1;
      KeptIsFewer(context[..n], log);
      if context[n].origin.Model? { NoEndNotCompleted(log, context[n].origin.turn); }
      if AllDecided(context[..n], log) && Decided(context, log, n) {
        forall i | 0 <= i < |context| ensures Decided(context, log, i) {
          if i < n { assert Decided(context[..n], log, i); }
        }
      }
    }
  }

  /**
   * At every await of every run the completed messages are the model's messages in the context whose turn
   * accepted them; they are all but the refused drafts if and only if every turn with a message is decided,
   * which in a run that goes on is everywhere but between the last message and its acceptance as final.
   */
  lemma StoredMessages(r: Request, actions: seq<Action>)
    ensures var s := Exec(r, Initial(r), actions);
      && CompletedMessages(s.log) == Kept(s.context, s.log)
      && (CompletedMessages(s.log) == NotRejected(s.context, s.log) <==> AllDecided(s.context, s.log))
      && (!s.pc.Ended? ==> (AllDecided(s.context, s.log) <==> !s.pc.BeforeComplete? && !s.pc.Seal?))
      && (s.pc == Ended(Completed) ==> AllDecided(s.context, s.log))
  {
    hide *;
    LedgerInitial(r);
    LedgerExec(r, Initial(r), actions);
    var s := Exec(r, Initial(r), actions);
    StoredIn(s);
    if !s.pc.Ended? { StopDecides(s, s); }
    if s.pc == Ended(Completed) { SealDecides(s); }
  }

  lemma StoredIn(s: Run)
    requires Ledger(s)
    ensures CompletedMessages(s.log) == Kept(s.context, s.log)
    ensures CompletedMessages(s.log) == NotRejected(s.context, s.log) <==> AllDecided(s.context, s.log)
  {
    hide AllDecided, Kept, NotRejected, CompletedMessages, Finals, AnswerOk;
    assert forall t: nat :: Ends(s.log, t) <= 1;
    KeptIsFewer(s.context, s.log);
    if AllDecided(s.context, s.log) { KeptIsNotRejected(s.context, s.log); }
  }

  // ----- runs that are over -----------------------------------------------------------------

  /** The await at which a run was stopped, or where it is if it was not. */
  function StoppedAt(r: Request, s: Run, actions: seq<Action>): Pc
    decreases |actions|
  {
    if actions == [] || Next(r, s, actions[0]).pc.Ended? then s.pc
      else StoppedAt(r, Next(r, s, actions[0]), actions[1..])
  }

  /** A step that ends a run is its completion or the `catch` block. */
  lemma EndsByFailing(r: Request, s: Run, a: Action)
    requires Answers(r, s, a) && Resume(r, s, a).pc.Ended? && !s.pc.Seal?
    ensures Resume(r, s, a) == Fail(s, true) || Resume(r, s, a) == Fail(s, false)
  {
    hide Logs, KeepsTurn, KeepsBudget, LoopTest, MessagesOf, RetryDelayMs, Calls, TextOf, Blank, Fail, StepAnnounce,
      Again, StepClone, StepDrain, StepStream, StepReview, StepAppend, StepTools, StepBeforeComplete, StepSeal;
    if s.pc.Streaming? || s.pc.Judge? {
      hide StepBegin, StepTop, StepAttempt;
    } else {
      hide StepStreamEnds, StepJudge;
    }
  }

  lemma FailSame(s: Run, aborted: bool)
    ensures Fail(s, aborted).context == s.context && Fail(s, aborted).turns == s.turns
    ensures forall t: nat :: Ends(Fail(s, aborted).log, t) == Ends(s.log, t)
  {
    LogsMore(s, Fail(s, aborted), {Plain}, NOT_ENDS);
    QuietEnds(s, Fail(s, aborted));
  }

  /** What was undecided stays so when the run is stopped: the answer `beforeComplete` was asked about. */
  lemma StopDecides(s: Run, s': Run)
    requires Ledger(s) && !s.pc.Ended? && s'.context == s.context
    requires forall t: nat :: Ends(s'.log, t) == Ends(s.log, t)
    ensures AllDecided(s'.context, s'.log) <==> !s.pc.BeforeComplete? && !s.pc.Seal?
  {
    hide Kept, CompletedMessages, Ends, Finals, Calls, TextOf, Blank;
    if s.pc.BeforeComplete? || s.pc.Seal? {
      assert !Decided(s'.context, s'.log, |s'.context| - 1);
    }
  }

  lemma SealDecides(s: Run)
    requires Ledger(s) && s.pc == Ended(Completed)
    ensures AllDecided(s.context, s.log)
  {
    hide Kept, CompletedMessages, Ends, Finals, Calls, TextOf, Blank;
  }

  lemma StopStep(r: Request, s: Run, a: Action)
    requires Ledger(s) && !s.pc.Ended? && Next(r, s, a).pc.Ended?
    ensures AllDecided(Next(r, s, a).context, Next(r, s, a).log) <==> !s.pc.BeforeComplete?
  {
    hide *;
    var s' := Next(r, s, a);
    StopAnswers(r, s, a);
    if s.pc.Seal? {
      LedgerStep(r, s, a);
      SealDecides(s');
    } else {
      EndsByFailing(r, s, a);
      FailSame(s, true);
      FailSame(s, false);
      StopDecides(s, s');
    }
  }

  lemma StopAnswers(r: Request, s: Run, a: Action)
    requires !s.pc.Ended? && Next(r, s, a).pc.Ended?
    ensures Answers(r, s, a) && Next(r, s, a) == Resume(r, s, a)
    ensures s.pc.Seal? ==> Next(r, s, a).pc == Ended(Completed)
  {
    hide KeepsTurn, KeepsBudget, Logs, StepSeal, Calls;
    if !s.pc.Seal? { hide Resume, Answers; }
  }

  /** Nothing is logged or appended once a run is over. */
  lemma {:induction false} OverIsOver(r: Request, s: Run, actions: seq<Action>)
    requires s.pc.Ended?
    ensures var s' := Exec(r, s, actions); s'.pc == s.pc && s'.log == s.log && s'.context == s.context
    decreases |actions|
  {
    if actions != [] {
      OverStays(r, s, actions[0]);
      hide Next;
      OverIsOver(r, Next(r, s, actions[0]), actions[1..]);
    }
  }

  lemma OverStays(r: Request, s: Run, a: Action)
    requires s.pc.Ended?
    ensures Next(r, s, a).pc == s.pc && Next(r, s, a).log == s.log && Next(r, s, a).context == s.context
  {
    hide Resume;
  }

  lemma {:induction false} StoppedDecided(r: Request, s: Run, actions: seq<Action>)
    requires Ledger(s) && !s.pc.Ended? && Exec(r, s, actions).pc.Ended?
    ensures AllDecided(Exec(r, s, actions).context, Exec(r, s, actions).log) <==>
      !StoppedAt(r, s, actions).BeforeComplete?
    decreases |actions|
  {
    var s' := Next(r, s, actions[0]);
    LedgerStep(r, s, actions[0]);
    hide Ledger, Next, AllDecided;
    if s'.pc.Ended? {
      StopStep(r, s, actions[0]);
      OverIsOver(r, s', actions[1..]);
    } else {
      StoppedDecided(r, s', actions[1..]);
    }
  }

  /**
   * Of a run that is over, however it ended, the completed messages are the model's messages in the context
   * without the refused drafts, if and only if the run was not stopped while `beforeComplete` was being asked.
   */
  lemma StoredAtTheEnd(r: Request, actions: seq<Action>)
    requires Exec(r, Initial(r), actions).pc.Ended?
    ensures var s := Exec(r, Initial(r), actions);
      CompletedMessages(s.log) == NotRejected(s.context, s.log) <==> !StoppedAt(r, Initial(r), actions).BeforeComplete?
  {
    assert !Initial(r).pc.Ended?;
    hide *;
    LedgerInitial(r);
    StoppedDecided(r, Initial(r), actions);
    StoredMessages(r, actions);
  }
}
