/** Steering is conserved: no accepted message is lost, repeated, reordered or left unread. */
module RunnerSteering {
  import opened Messages
  import opened Runner
  import opened RunLog

  predicate Drains(pc: Pc) { pc.TopDrain? || pc.LateDrain? }

  /** The awaits between the clone for the model and the end of the turn, late steering aside. */
  predicate AfterClone(pc: Pc) {
    pc.Attempt? || pc.Streaming? || pc.Judge? || pc.Review? || pc.Append? || pc.RunTools?
    || pc.BeforeComplete? || pc.Seal? || pc == Ended(Completed)
  }

  /** Accepted messages are those in the context, then those being drained, then those queued. */
  ghost predicate Conserved(s: Run) {
    && s.accepted == SteeredIn(s.context) + s.draining + s.control.queue
    && Announced(s.log) == SteeredIn(s.context)
    && (s.draining != [] ==> Drains(s.pc))
    && (AfterClone(s.pc) ==> SteeredIn(s.cloned) == SteeredIn(s.context))
    && (s.control.accepting <==> s.pc != Ended(Completed))
    && (s.pc == Ended(Completed) ==> s.control.queue == [])
  }

  lemma ConservedFail(s: Run, aborted: bool)
    requires Conserved(s) && !Drains(s.pc) && !s.pc.Ended?
    ensures Conserved(Fail(s, aborted))
  {
    hide SteeredIn, Announced, Logs;
    var status := if Aborted(s) || aborted then Cancelled else Failed;
    LoggedAnnounced(s.log, RunState(status));
    LoggedAnnounced(s.log + [RunState(status)], RunEnded(status));
  }

  lemma ConservedDrain(s: Run)
    requires Conserved(s) && s.draining != []
    ensures Conserved(StepDrain(s))
  {
    hide SteeredIn, Announced, Logs;
    LoggedAnnounced(s.log, SteerAccepted(s.draining[0]));
    Grown(s.context, Entry(s.draining[0], Steered));
    assert [s.draining[0]] + s.draining[1..] == s.draining;
  }

  lemma ConservedTop(r: Request, s: Run)
    requires Conserved(s) && s.pc.Top?
    ensures Conserved(StepTop(r, s))
  {
    hide SteeredIn, Announced, Logs;
    if !LoopTest(r, s) { ConservedFail(s, false); } else if Aborted(s) { ConservedFail(s, true); }
  }

  lemma ConservedStream(s: Run, e: StreamEvent)
    requires Conserved(s) && s.pc.Streaming? && s.attempts != []
    ensures Conserved(StepStream(s, e))
  {
    hide SteeredIn, Announced, Logs;
    if e.Started? { LoggedAnnounced(s.log, ModelStarted(s.turns)); }
    if e.Content? { LoggedAnnounced(s.log, Delta(s.turns, s.attempts[|s.attempts| - 1], e.kind)); }
  }

  lemma ConservedStreamEnds(s: Run)
    requires Conserved(s) && s.pc.Streaming? && s.attempts != [] && |s.waited| == |s.attempts|
    ensures Conserved(StepStreamEnds(s))
  {
    hide SteeredIn, Announced, RetryDelayMs, Logs, Fail;
    if StepStreamEnds(s).pc.Ended? { ConservedFail(s, s.failure.Some? && s.failure.value.aborted); }
  }

  /** The other awaits up to the model's answer. */
  lemma ConservedEarly(r: Request, s: Run, a: Action)
    requires Conserved(s) && Answers(r, s, a) && !a.Throws?
    requires s.pc.Begin? || s.pc.Announce? || s.pc.Clone? || s.pc.Attempt?
    ensures Conserved(Resume(r, s, a))
  {
    hide SteeredIn, Announced, MessagesOf, Entries;
    var s' := Resume(r, s, a);
    if s'.pc.Ended? {
      ConservedFail(s, true);
    } else if !s.pc.Attempt? {
      LoggedAnnounced(s.log, s'.log[|s.log|]);
    }
  }

  /** A refusal adds nothing that was steered. */
  lemma ConservedRefuse(s: Run, repairs: nat, es: seq<Entry>)
    requires Conserved(s) && !Drains(s.pc) && !s.pc.Ended? && forall i :: 0 <= i < |es| ==> !es[i].origin.Steered?
    ensures Conserved(Refuse(s, repairs, es))
  {
    hide SteeredIn, Announced, Logs;
    LoggedAnnounced(s.log, FinalRejected(s.turns, repairs));
    OthersNotSteered(s.context, es);
  }

  lemma ConservedJudge(r: Request, s: Run)
    requires Conserved(s) && s.pc.Judge? && s.finalMessage.Some?
    ensures Conserved(StepJudge(r, s))
  {
    hide SteeredIn, Announced, Calls, TextOf, Blank, Logs, Fail, Refuse;
    if StepJudge(r, s).pc.Ended? {
      ConservedFail(s, false);
    } else if StepJudge(r, s).pc.Top? {
      ConservedRefuse(s.(emptyFinalRepairIssued := true), 1, EmptyRepair(s));
    }
  }

  lemma ConservedReview(s: Run, repair: seq<Message>)
    requires Conserved(s) && s.pc.Review? && s.finalMessage.Some?
    ensures Conserved(StepReview(s, repair))
  {
    hide SteeredIn, Announced, Logs, Refuse;
    if repair != [] {
      ConservedRefuse(s, |repair|, [Entry(Assistant(s.finalMessage.value), Model(s.turns))] + Entries(repair, Repair));
    }
  }

  lemma ConservedAnswered(s: Run)
    requires Conserved(s) && s.pc.Append? && s.finalMessage.Some?
    ensures Conserved(Answered(s))
  {
    hide SteeredIn, Announced, TextOf;
    Grown(s.context, Entry(Assistant(s.finalMessage.value), Model(s.turns)));
  }

  lemma ConservedCalls(s: Run)
    requires Conserved(s) && s.pc.Append? && s.finalMessage.Some?
    ensures Conserved(StepCalls(s))
  {
    hide SteeredIn, Announced, Logs, Refuse;
    if s.synthesisOnly {
      ConservedRefuse(s, 1, [Entry(TOOLS_GONE, Repair)]);
    } else {
      var e := MessageCompleted(s.turns, Assistant(s.finalMessage.value), Commentary);
      LoggedAnnounced(s.log, e);
      LoggedAnnounced(s.log + [e], RunState(ExecutingTools));
    }
  }

  lemma ConservedLateSteering(s: Run)
    requires Conserved(s) && s.pc.Append?
    ensures Conserved(StepLateSteering(s))
  {
    hide SteeredIn, Announced, Logs;
    LoggedAnnounced(s.log, FinalRejected(s.turns, |s.control.queue|));
  }

  lemma ConservedAppend(s: Run)
    requires Conserved(s) && s.pc.Append? && s.finalMessage.Some?
    ensures Conserved(StepAppend(s))
  {
    hide Conserved, StepCalls, StepLateSteering;
    ConservedAnswered(s);
    if Calls(s.finalMessage.value) != [] { ConservedCalls(Answered(s)); } else { ConservedLateSteering(Answered(s)); }
  }

  lemma ConservedTools(r: Request, s: Run, outcomes: seq<Tools.Outcome>)
    requires Conserved(s) && s.pc.RunTools? && s.finalMessage.Some? && |outcomes| == |Calls(s.finalMessage.value)|
    ensures Conserved(StepTools(r, s, outcomes))
  {
    hide SteeredIn, Announced, Logs;
    LoggedAnnounced(s.log, RunState(InProgress));
    OthersNotSteered(s.context, Entries(Tools.Results(Calls(s.finalMessage.value), outcomes), ToolOutput));
  }

  lemma ConservedBeforeComplete(s: Run, outstanding: seq<Message>)
    requires Conserved(s) && s.pc.BeforeComplete?
    ensures Conserved(StepBeforeComplete(s, outstanding))
  {
    hide SteeredIn, Announced, Logs, Refuse;
    if outstanding != [] { ConservedRefuse(s, |outstanding|, Entries(outstanding, Repair)); }
  }

  lemma ConservedSeal(s: Run)
    requires Conserved(s) && s.pc.Seal? && s.finalMessage.Some?
    ensures Conserved(StepSeal(s))
  {
    hide SteeredIn, Announced, Logs, Refuse;
    ConservedRefuse(s, 1, []);
    var e := MessageCompleted(s.turns, Assistant(s.finalMessage.value), Final);
    LoggedAnnounced(s.log, e);
    LoggedAnnounced(s.log + [e], RunState(Completed));
    LoggedAnnounced(s.log + [e] + [RunState(Completed)], RunEnded(Completed));
  }

  lemma ConservedResume(r: Request, s: Run, a: Action)
    requires Conserved(s) && Answers(r, s, a)
    ensures Conserved(Resume(r, s, a))
  {
    hide SteeredIn, Announced, Logs, MessagesOf, StepBegin, StepAnnounce, StepClone, StepDrain, StepTop, StepAttempt,
      StepStreamEnds, StepStream, StepJudge, StepReview, StepAppend, StepTools, StepBeforeComplete, StepSeal, Fail;
    if a.Throws? {
      ConservedFail(s, a.aborted);
    } else {
      match s.pc
      case TopDrain => if s.draining != [] { ConservedDrain(s); }
      case LateDrain => if s.draining != [] { ConservedDrain(s); }
      case Top => ConservedTop(r, s);
      case Streaming => if a.Stream? { ConservedStream(s, a.event); } else { ConservedStreamEnds(s); }
      case Judge => ConservedJudge(r, s);
      case Review => ConservedReview(s, a.repair);
      case Append => ConservedAppend(s);
      case RunTools => ConservedTools(r, s, a.outcomes);
      case BeforeComplete => ConservedBeforeComplete(s, if r.asksBeforeComplete then a.messages else []);
      case Seal => ConservedSeal(s);
      case _ => ConservedEarly(r, s, a);
    }
  }

  lemma ConservedStep(r: Request, s: Run, a: Action)
    requires Conserved(s)
    ensures Conserved(Next(r, s, a))
  {
    if !a.Steer? && !a.Cancel? && !a.AbortRequest? && Answers(r, s, a) { ConservedResume(r, s, a); }
  }

  lemma {:induction false} ConservedExec(r: Request, s: Run, actions: seq<Action>)
    requires Conserved(s)
    ensures Conserved(Exec(r, s, actions))
    decreases |actions|
  {
    if actions != [] {
      ConservedStep(r, s, actions[0]);
      ConservedExec(r, Next(r, s, actions[0]), actions[1..]);
    }
  }

  lemma ConservedRun(r: Request, actions: seq<Action>)
    ensures Conserved(Exec(r, Initial(r), actions))
  {
    hide *;
    ConservedStart(r);
    ConservedExec(r, Initial(r), actions);
  }

  lemma ConservedStart(r: Request)
    ensures Conserved(Initial(r))
  {
    GivenNotSteered(r.context);
    hide SteeredIn, Entries;
    assert Announced([]) == [];
  }

  lemma GivenNotSteered(messages: seq<Message>)
    ensures SteeredIn(Entries(messages, Given)) == []
  {
    OthersNotSteered([], Entries(messages, Given));
    assert [] + Entries(messages, Given) == Entries(messages, Given);
  }

  /** At every await of every run. */
  lemma SteeringConserved(r: Request, actions: seq<Action>)
    ensures var s := Exec(r, Initial(r), actions);
      && s.accepted == SteeredIn(s.context) + s.draining + s.control.queue
      && Announced(s.log) == SteeredIn(s.context)
  {
    hide Exec, SteeredIn, Announced;
    ConservedRun(r, actions);
  }

  lemma CompletedMeans(r: Request, s: Run, m: Message)
    requires Conserved(s) && s.pc == Ended(Completed)
    ensures s.accepted == SteeredIn(s.cloned) == SteeredIn(s.context)
    ensures s.control.queue == [] && s.draining == []
    ensures Next(r, s, Steer(m)) == s
  {
    hide SteeredIn, Announced, Logs;
    assert SteeredIn(s.context) + [] + [] == SteeredIn(s.context);
  }

  /** A completed run has read everything it accepted, in the context its last turn gave the model,
      and takes nothing any more. */
  lemma CompletedRunReadEverything(r: Request, actions: seq<Action>, m: Message)
    requires Exec(r, Initial(r), actions).pc == Ended(Completed)
    ensures var s := Exec(r, Initial(r), actions);
      && s.accepted == SteeredIn(s.cloned) == SteeredIn(s.context)
      && s.control.queue == [] && s.draining == []
      && Next(r, s, Steer(m)) == s
  {
    hide *;
    ConservedRun(r, actions);
    CompletedMeans(r, Exec(r, Initial(r), actions), m);
  }

  lemma EndedMeans(r: Request, s: Run, m: Message)
    requires Conserved(s) && s.pc.Ended?
    ensures Next(r, s, Steer(m)).accepted == s.accepted + [m] <==> s.pc.status != Completed && !s.control.cancelled
  {
    hide SteeredIn, Announced, Logs;
  }

  /** Only completion closes the queue: a run that ended otherwise still takes a message, which
      nobody will read, unless it was cancelled through its control. */
  lemma FailedRunStillAccepts(r: Request, actions: seq<Action>, m: Message)
    requires var s := Exec(r, Initial(r), actions); s.pc.Ended?
    ensures var s := Exec(r, Initial(r), actions);
      Next(r, s, Steer(m)).accepted == s.accepted + [m] <==> s.pc.status != Completed && !s.control.cancelled
  {
    hide *;
    ConservedRun(r, actions);
    EndedMeans(r, Exec(r, Initial(r), actions), m);
  }
}
