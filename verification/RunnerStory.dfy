/** What a run writes, told from the answers it got: its context and its event log, entry by entry. */
module RunnerStory {
  import opened Wrappers
  import opened Messages
  import opened Runner
  import opened RunnerBounds
  import opened RunnerBudget
  import opened RunnerInvariant
  import opened RunnerMessages
  import opened RunnerKept

  // ----- what has been heard ---------------------------------------------------------------

  /** What the model and the callbacks have said: of the current model call its message, its error and whether it
      showed content; over the run the last text and whether an empty answer was refused; of the current turn
      whether the answer passed its review and nothing was outstanding. */
  datatype Heard = Heard(
    done: Option<seq<Block>>, error: Option<Failure>, content: bool,
    text: string, emptied: bool, reviewed: bool, cleared: bool)

  const SILENCE := Heard(None, None, false, "", false, false, false)

  /** The message of the current model call. */
  function MessageOf(h: Heard): seq<Block> { if h.done.Some? then h.done.value else [] }

  predicate SaysNothing(h: Heard) { Calls(MessageOf(h)) == [] && Blank(TextOf(MessageOf(h))) }

  /** One answer is heard at an await. */
  function Hear(r: Request, s: Run, h: Heard, a: Action): Heard {
    if !Answers(r, s, a) || a.Throws? then h
    else
      match s.pc
      case Top => h.(reviewed := false, cleared := false)
      case Attempt => if Aborted(s) then h else h.(done := None, error := None, content := false)
      case Streaming =>
        if a.StreamEnds? then h
        else
          (match a.event
           case Started => h
           case Content(_) => h.(content := true)
           case Done(content) => h.(done := Some(content))
           case Error(error) => h.(error := Some(error)))
      case Judge => if SaysNothing(h) then h.(emptied := true) else h
      case Review => if a.repair == [] then h.(reviewed := true) else h
      case Append => if TextOf(MessageOf(h)) != "" then h.(text := TextOf(MessageOf(h))) else h
      case BeforeComplete => if r.asksBeforeComplete && a.messages == [] then h.(cleared := true) else h
      case _ => h
  }

  function HearAll(r: Request, s: Run, h: Heard, actions: seq<Action>): Heard
    decreases |actions|
  {
    if actions == [] then h else HearAll(r, Next(r, s, actions[0]), Hear(r, s, h, actions[0]), actions[1..])
  }

  /** The run's variables hold what was heard. */
  predicate Holds(s: Run, h: Heard) {
    && s.finalMessage == h.done && s.failure == h.error && s.contentEmitted == h.content
    && s.lastAgentMessage == h.text && s.emptyFinalRepairIssued == h.emptied
  }

  /** No answer gets past a callback that was not asked, and only a message with calls runs tools. */
  predicate Passed(r: Request, pc: Pc, h: Heard) {
    && (pc.Review? ==> Calls(MessageOf(h)) == [])
    && (pc.RunTools? ==> Calls(MessageOf(h)) != [])
    && (r.reviews && Calls(MessageOf(h)) == [] && (pc.Append? || pc.BeforeComplete? || pc.Seal?) ==> h.reviewed)
    && (r.reviews && pc == Ended(Completed) ==> h.reviewed)
    && (r.asksBeforeComplete && (pc.Seal? || pc == Ended(Completed)) ==> h.cleared)
  }

  ghost predicate Listens(r: Request, s: Run, h: Heard) { Holds(s, h) && Passed(r, s.pc, h) }

  /** At the other awaits nothing has to be passed yet. */
  lemma NothingToPass(r: Request, pc: Pc, h: Heard)
    requires !pc.Review? && !pc.Append? && !pc.RunTools? && !pc.BeforeComplete? && !pc.Seal? && pc != Ended(Completed)
    ensures Passed(r, pc, h)
  {
  }

  // ----- what is written -------------------------------------------------------------------

  /** The results of a batch: one for each call, in call order, under its id and name, with what the tool gave. */
  function ToolEntries(calls: seq<Call>, outcomes: seq<Tools.Outcome>): seq<Entry>
    requires |outcomes| == |calls|
  {
    seq(|calls|, i requires 0 <= i < |calls| =>
      Entry(ToolResult(calls[i].id, calls[i].name, outcomes[i].output, outcomes[i].isError), ToolOutput))
  }

  function Draft(s: Run, h: Heard): Entry { Entry(Assistant(MessageOf(h)), Model(s.turns)) }

  /** What joins the context when an await is answered. */
  function Adds(r: Request, s: Run, h: Heard, a: Action): seq<Entry> {
    if !Answers(r, s, a) || a.Throws? then []
    else
      match s.pc
      case TopDrain => if s.draining == [] then [] else [Entry(s.draining[0], Steered)]
      case LateDrain => if s.draining == [] then [] else [Entry(s.draining[0], Steered)]
      case Judge => if SaysNothing(h) && !h.emptied then [Draft(s, h), Entry(EMPTY_REPAIR, Repair)] else []
      case Review => if a.repair == [] then [] else [Draft(s, h)] + Entries(a.repair, Repair)
      case Append =>
        if Calls(MessageOf(h)) != [] && BudgetSpent(r, s.toolTurns) then [Draft(s, h), Entry(TOOLS_GONE, Repair)]
        else [Draft(s, h)]
      case RunTools => if |a.outcomes| == |Calls(MessageOf(h))| then ToolEntries(Calls(MessageOf(h)), a.outcomes)
        else []
      case BeforeComplete => if r.asksBeforeComplete then Entries(a.messages, Repair) else []
      case _ => []
  }

  /** How a run that does not complete takes its leave. */
  function Farewell(s: Run, aborted: bool): seq<Event> {
    var status := if s.control.cancelled || s.requestAborted || aborted then Cancelled else Failed;
    [RunState(status), RunEnded(status)]
  }

  /** The model call that was made last. */
  function CallNumber(s: Run): nat { if s.attempts == [] then 0 else s.attempts[|s.attempts| - 1] }

  /** Another model call is made in the same turn: the error was transient, nothing was shown, and there were fewer
      than three. */
  predicate TriesAgain(s: Run, h: Heard) {
    h.error.Some? && h.error.value.retryable && !h.content && 1 <= CallNumber(s) < 3
  }

  /** What is logged when an await is answered. */
  function Says(r: Request, s: Run, h: Heard, a: Action): seq<Event> {
    if !Answers(r, s, a) then []
    else if a.Throws? then Farewell(s, a.aborted)
    else
      match s.pc
      case Begin => if Aborted(s) then Farewell(s, true) else [RunStarted]
      case Announce => [RunState(InProgress)]
      case Top => if LoopTest(r, s) && !Aborted(s) then [] else Farewell(s, false)
      case TopDrain => if s.draining == [] then [] else [SteerAccepted(s.draining[0])]
      case LateDrain => if s.draining == [] then [] else [SteerAccepted(s.draining[0])]
      case Clone =>
        var offered := if r.transforms then a.offered else MessagesOf(s.context);
        if BudgetSpent(r, s.toolTurns)
        then [TurnStarted(s.turns, offered + [User(r.toolTurnBudget.value.synthesisPrompt)], false)]
        else [TurnStarted(s.turns, offered, true)]
      case Attempt => if Aborted(s) then Farewell(s, true) else []
      case Streaming =>
        if a.StreamEnds? then
          if TriesAgain(s, h) then []
          else if h.error.Some? then Farewell(s, h.error.value.aborted)
          else if h.done.None? then Farewell(s, false) else []
        else
          (match a.event
           case Started => [ModelStarted(s.turns)]
           case Content(kind) => [Delta(s.turns, CallNumber(s), kind)]
           case Done(_) => []
           case Error(_) => [])
      case Judge =>
        if !SaysNothing(h) then [] else if h.emptied then Farewell(s, false) else [FinalRejected(s.turns, 1)]
      case Review => if a.repair == [] then [] else [FinalRejected(s.turns, |a.repair|)]
      case Append =>
        if Calls(MessageOf(h)) == [] then
          if s.control.queue == [] then [] else [FinalRejected(s.turns, |s.control.queue|)]
        else if BudgetSpent(r, s.toolTurns) then [FinalRejected(s.turns, 1)]
        else [MessageCompleted(s.turns, Assistant(MessageOf(h)), Commentary), RunState(ExecutingTools)]
      case RunTools => [RunState(InProgress)]
      case BeforeComplete =>
        if r.asksBeforeComplete && a.messages != [] then [FinalRejected(s.turns, |a.messages|)] else []
      case Seal =>
        if s.control.queue != [] then [FinalRejected(s.turns, 1)]
        else [MessageCompleted(s.turns, Assistant(MessageOf(h)), Final), RunState(Completed), RunEnded(Completed)]
      case Ended(_) => []
  }

  // ----- one step --------------------------------------------------------------------------

  /** The step writes what the tables say. */
  ghost predicate Writes(r: Request, s: Run, h: Heard, a: Action, s': Run) {
    s'.context == s.context + Adds(r, s, h, a) && s'.log == s.log + Says(r, s, h, a)
  }

  /** The step writes what the tables say, and listens. */
  ghost predicate Tells(r: Request, s: Run, h: Heard, a: Action, s': Run) {
    Writes(r, s, h, a, s') && Listens(r, s', Hear(r, s, h, a))
  }

  lemma FailTells(s: Run, aborted: bool)
    ensures Fail(s, aborted).context == s.context && Fail(s, aborted).log == s.log + Farewell(s, aborted)
    ensures Fail(s, aborted).(pc := s.pc, log := s.log) == s && Stopped(Fail(s, aborted).pc)
  {
    hide KeepsTurn, KeepsBudget, Logs;
  }

  lemma BeginTells(r: Request, s: Run, h: Heard, a: Action)
    requires Listens(r, s, h) && Answers(r, s, a) && !a.Throws? && s.pc.Begin?
    ensures Tells(r, s, h, a, Resume(r, s, a))
  {
    hide KeepsTurn, KeepsBudget, Logs, Fail, Passed, Farewell;
    FailTells(s, true);
    NothingToPass(r, Resume(r, s, a).pc, h);
  }

  lemma AnnounceTells(r: Request, s: Run, h: Heard, a: Action)
    requires Listens(r, s, h) && Answers(r, s, a) && !a.Throws? && s.pc.Announce?
    ensures Tells(r, s, h, a, Resume(r, s, a))
  {
    hide KeepsTurn, KeepsBudget, Logs, Passed;
    NothingToPass(r, Resume(r, s, a).pc, h);
  }

  lemma TopTells(r: Request, s: Run, h: Heard, a: Action)
    requires Listens(r, s, h) && Answers(r, s, a) && !a.Throws? && (s.pc.Top?)
    ensures Tells(r, s, h, a, Resume(r, s, a))
  {
    hide KeepsTurn, KeepsBudget, Logs, Fail, Calls, LoopTest, Farewell;
    FailTells(s, true);
    FailTells(s, false);
    FarewellSame(s);
  }

  lemma FarewellSame(s: Run)
    ensures Aborted(s) ==> Farewell(s, true) == Farewell(s, false)
  {
  }

  lemma DrainWrites(r: Request, s: Run, h: Heard, a: Action)
    requires Listens(r, s, h) && Answers(r, s, a) && !a.Throws? && (s.pc.TopDrain? || s.pc.LateDrain?)
    ensures Writes(r, s, h, a, Resume(r, s, a))
  {
    hide KeepsTurn, KeepsBudget, Logs, Calls, Again;
    AgainTells(s);
    assert s.draining != [] ==> StepDrain(s).context == s.context + [Entry(s.draining[0], Steered)];
  }

  lemma DrainHolds(s: Run, h: Heard)
    requires Holds(s, h)
    ensures s.draining != [] ==> Holds(StepDrain(s), h)
    ensures Holds(Again(s), h)
  {
    hide KeepsTurn, KeepsBudget, Logs;
  }

  lemma DrainListens(r: Request, s: Run, h: Heard, a: Action)
    requires Listens(r, s, h) && Answers(r, s, a) && !a.Throws? && (s.pc.TopDrain? || s.pc.LateDrain?)
    ensures Listens(r, Resume(r, s, a), Hear(r, s, h, a))
  {
    DrainHolds(s, h);
    hide KeepsTurn, KeepsBudget, Logs, Passed, StepDrain, Again;
    NothingToPass(r, Resume(r, s, a).pc, h);
  }

  lemma DrainTells(r: Request, s: Run, h: Heard, a: Action)
    requires Listens(r, s, h) && Answers(r, s, a) && !a.Throws? && (s.pc.TopDrain? || s.pc.LateDrain?)
    ensures Tells(r, s, h, a, Resume(r, s, a))
  {
    hide Writes, Listens, Resume, Answers, Hear;
    DrainWrites(r, s, h, a);
    DrainListens(r, s, h, a);
  }

  lemma AgainTells(s: Run)
    ensures Again(s) == s.(allowRepairTurn := true, pc := Top)
  {
    hide KeepsTurn, KeepsBudget, Logs;
  }

  lemma CloneTells(r: Request, s: Run, h: Heard, a: Action)
    requires Listens(r, s, h) && Answers(r, s, a) && !a.Throws? && (s.pc.Clone?)
    ensures Tells(r, s, h, a, Resume(r, s, a))
  {
    hide KeepsTurn, KeepsBudget, Logs, Calls, MessagesOf;
  }

  lemma AttemptTells(r: Request, s: Run, h: Heard, a: Action)
    requires Listens(r, s, h) && Answers(r, s, a) && !a.Throws? && (s.pc.Attempt?)
    ensures Tells(r, s, h, a, Resume(r, s, a))
  {
    hide KeepsTurn, KeepsBudget, Logs, Fail, Calls, Farewell;
    FailTells(s, true);
    FailTells(s, false);
  }

  lemma StreamLogs(s: Run, e: StreamEvent)
    requires s.attempts != []
    ensures var s' := StepStream(s, e);
      && s'.context == s.context
      && s'.log == s.log + (match e
        case Started => [ModelStarted(s.turns)]
        case Content(kind) => [Delta(s.turns, CallNumber(s), kind)]
        case Done(_) => []
        case Error(_) => [])
  {
    hide KeepsTurn, KeepsBudget, Logs;
  }

  lemma StreamWrites(r: Request, s: Run, h: Heard, a: Action)
    requires Listens(r, s, h) && Answers(r, s, a) && !a.Throws? && s.pc.Streaming? && a.Stream?
    ensures Writes(r, s, h, a, Resume(r, s, a))
  {
    StreamLogs(s, a.event);
    hide KeepsTurn, KeepsBudget, Logs, Listens, StepStream, CallNumber;
  }

  lemma StreamHolds(s: Run, h: Heard, e: StreamEvent)
    requires Holds(s, h) && s.attempts != []
    ensures StepStream(s, e).pc == s.pc
    ensures match e
      case Started => Holds(StepStream(s, e), h)
      case Content(_) => Holds(StepStream(s, e), h.(content := true))
      case Done(content) => Holds(StepStream(s, e), h.(done := Some(content)))
      case Error(error) => Holds(StepStream(s, e), h.(error := Some(error)))
  {
    hide KeepsTurn, KeepsBudget, Logs;
  }

  lemma StreamListens(r: Request, s: Run, h: Heard, a: Action)
    requires Listens(r, s, h) && Answers(r, s, a) && !a.Throws? && s.pc.Streaming? && a.Stream?
    ensures Listens(r, Resume(r, s, a), Hear(r, s, h, a))
  {
    hide KeepsTurn, KeepsBudget, Logs, Passed, Holds, StepStream;
    StreamHolds(s, h, a.event);
    NothingToPass(r, s.pc, Hear(r, s, h, a));
  }

  lemma StreamTells(r: Request, s: Run, h: Heard, a: Action)
    requires Listens(r, s, h) && Answers(r, s, a) && !a.Throws? && s.pc.Streaming? && a.Stream?
    ensures Tells(r, s, h, a, Resume(r, s, a))
  {
    hide Writes, Listens, Resume, Answers, Hear;
    StreamWrites(r, s, h, a);
    StreamListens(r, s, h, a);
  }

  lemma StreamEndsLeadsTo(s: Run, h: Heard)
    requires s.attempts != [] && |s.waited| == |s.attempts| && Holds(s, h)
    ensures var s' := StepStreamEnds(s);
      && s'.context == s.context && Holds(s', h)
      && s'.log == s.log + (
        if TriesAgain(s, h) then []
        else if h.error.Some? then Farewell(s, h.error.value.aborted)
        else if h.done.None? then Farewell(s, false) else [])
  {
    hide KeepsTurn, KeepsBudget, Logs, Fail, Farewell, RetryDelayMs;
    FailTells(s, true);
    FailTells(s, false);
  }

  lemma StreamEndsWrites(r: Request, s: Run, h: Heard, a: Action)
    requires Listens(r, s, h) && Answers(r, s, a) && !a.Throws? && s.pc.Streaming? && a.StreamEnds?
    ensures Writes(r, s, h, a, Resume(r, s, a))
  {
    StreamEndsLeadsTo(s, h);
    hide KeepsTurn, KeepsBudget, Logs, Holds, Passed, StepStreamEnds, Farewell, TriesAgain;
  }

  lemma StreamEndsListens(r: Request, s: Run, h: Heard, a: Action)
    requires Listens(r, s, h) && Answers(r, s, a) && s.pc.Streaming? && a.StreamEnds?
    ensures Listens(r, Resume(r, s, a), Hear(r, s, h, a))
  {
    StreamEndsLeadsTo(s, h);
    NothingToPass(r, StepStreamEnds(s).pc, h);
    hide KeepsTurn, KeepsBudget, Logs, Holds, Passed, StepStreamEnds, TriesAgain, Farewell;
  }

  lemma StreamEndsTells(r: Request, s: Run, h: Heard, a: Action)
    requires Listens(r, s, h) && Answers(r, s, a) && !a.Throws? && s.pc.Streaming? && a.StreamEnds?
    ensures Tells(r, s, h, a, Resume(r, s, a))
  {
    hide Writes, Listens, Resume, Answers, Hear;
    StreamEndsWrites(r, s, h, a);
    StreamEndsListens(r, s, h, a);
  }

  lemma JudgeWrites(r: Request, s: Run, h: Heard, a: Action)
    requires Listens(r, s, h) && Answers(r, s, a) && !a.Throws? && s.pc.Judge?
    ensures Writes(r, s, h, a, Resume(r, s, a))
  {
    hide KeepsTurn, KeepsBudget, Logs, Fail, Calls, TextOf, Blank, Farewell, Refuse;
    FailTells(s, false);
    RefuseTells(s.(emptyFinalRepairIssued := true), 1, EmptyRepair(s));
  }

  lemma JudgeHolds(r: Request, s: Run, h: Heard)
    requires Holds(s, h) && s.finalMessage.Some?
    ensures Holds(StepJudge(r, s), if SaysNothing(h) then h.(emptied := true) else h)
  {
    hide KeepsTurn, KeepsBudget, Logs, Fail, Calls, TextOf, Blank, Farewell, Refuse, EmptyRepair;
    FailTells(s, false);
    RefuseTells(s.(emptyFinalRepairIssued := true), 1, EmptyRepair(s));
  }

  lemma JudgeLeadsTo(r: Request, s: Run, h: Heard)
    requires s.finalMessage.Some? && s.finalMessage == h.done
    ensures Passed(r, StepJudge(r, s).pc, h)
  {
    hide KeepsTurn, KeepsBudget, Logs, Fail, Calls, TextOf, Blank, Refuse, EmptyRepair;
  }

  lemma JudgeListens(r: Request, s: Run, h: Heard, a: Action)
    requires Listens(r, s, h) && Answers(r, s, a) && !a.Throws? && s.pc.Judge?
    ensures Listens(r, Resume(r, s, a), Hear(r, s, h, a))
  {
    JudgeHolds(r, s, h);
    JudgeLeadsTo(r, s, Hear(r, s, h, a));
    hide KeepsTurn, KeepsBudget, Logs, Calls, TextOf, Blank, Passed, StepJudge, SaysNothing;
  }

  lemma JudgeTells(r: Request, s: Run, h: Heard, a: Action)
    requires Listens(r, s, h) && Answers(r, s, a) && !a.Throws? && s.pc.Judge?
    ensures Tells(r, s, h, a, Resume(r, s, a))
  {
    hide Writes, Listens, Resume, Answers, Hear;
    JudgeWrites(r, s, h, a);
    JudgeListens(r, s, h, a);
  }

  lemma RefuseTells(s: Run, repairs: nat, es: seq<Entry>)
    ensures var s' := Refuse(s, repairs, es);
      && s'.context == s.context + es && s'.log == s.log + [FinalRejected(s.turns, repairs)] && s'.pc.Top?
      && s' == s.(context := s'.context, log := s'.log, allowRepairTurn := true, pc := Top)
  {
    hide KeepsTurn, KeepsBudget, Logs;
  }

  lemma ReviewTells(r: Request, s: Run, h: Heard, a: Action)
    requires Listens(r, s, h) && Answers(r, s, a) && !a.Throws? && (s.pc.Review?)
    ensures Tells(r, s, h, a, Resume(r, s, a))
  {
    hide KeepsTurn, KeepsBudget, Logs, Calls, Entries, Refuse;
    RefuseTells(s, |a.repair|, [Entry(Assistant(s.finalMessage.value), Model(s.turns))] + Entries(a.repair, Repair));
  }

  lemma AppendWrites(r: Request, s: Run, h: Heard, a: Action)
    requires Listens(r, s, h) && Answers(r, s, a) && !a.Throws? && s.pc.Append?
    requires s.synthesisOnly == BudgetSpent(r, s.toolTurns)
    ensures Writes(r, s, h, a, Resume(r, s, a))
  {
    hide KeepsTurn, KeepsBudget, Logs, Calls, TextOf, BudgetSpent, Refuse, Answered;
    AnsweredTells(s);
    RefuseTells(Answered(s), 1, [Entry(TOOLS_GONE, Repair)]);
  }

  lemma AppendKeeps(s: Run, h: Heard)
    requires Holds(s, h) && s.finalMessage.Some?
    ensures Holds(StepCalls(s), h) && Holds(StepLateSteering(s), h)
  {
    hide KeepsTurn, KeepsBudget, Logs, Refuse;
    RefuseTells(s, 1, [Entry(TOOLS_GONE, Repair)]);
  }

  lemma AppendHolds(s: Run, h: Heard)
    requires Holds(s, h) && s.finalMessage.Some?
    ensures Holds(StepAppend(s), if TextOf(MessageOf(h)) != "" then h.(text := TextOf(MessageOf(h))) else h)
  {
    hide KeepsTurn, KeepsBudget, Logs, Calls, TextOf, StepCalls, StepLateSteering, Answered;
    AnsweredTells(s);
    AppendKeeps(Answered(s), if TextOf(MessageOf(h)) != "" then h.(text := TextOf(MessageOf(h))) else h);
  }

  lemma AppendLeadsTo(r: Request, s: Run, h: Heard, h': Heard)
    requires s.pc.Append? && s.finalMessage.Some? && Holds(s, h) && Passed(r, s.pc, h)
    requires h'.done == h.done && h'.reviewed == h.reviewed
    ensures Passed(r, StepAppend(s).pc, h')
  {
    hide KeepsTurn, KeepsBudget, Logs, Calls, StepCalls, StepLateSteering, Answered;
    AnsweredTells(s);
  }

  lemma AppendListens(r: Request, s: Run, h: Heard, a: Action)
    requires Listens(r, s, h) && Answers(r, s, a) && !a.Throws? && s.pc.Append?
    ensures Listens(r, Resume(r, s, a), Hear(r, s, h, a))
  {
    hide KeepsTurn, KeepsBudget, Logs, Calls, TextOf, Passed, Holds, StepAppend;
    AppendHolds(s, h);
    AppendLeadsTo(r, s, h, Hear(r, s, h, a));
  }

  lemma AppendTells(r: Request, s: Run, h: Heard, a: Action)
    requires Listens(r, s, h) && Answers(r, s, a) && !a.Throws? && s.pc.Append?
    requires s.synthesisOnly == BudgetSpent(r, s.toolTurns)
    ensures Tells(r, s, h, a, Resume(r, s, a))
  {
    hide Writes, Listens, Resume, Answers, Hear;
    AppendWrites(r, s, h, a);
    AppendListens(r, s, h, a);
  }

  lemma AnsweredTells(s: Run)
    requires s.finalMessage.Some?
    ensures var s' := Answered(s);
      && s'.context == s.context + [Entry(Assistant(s.finalMessage.value), Model(s.turns))] && s'.log == s.log
      && s'.lastAgentMessage ==
        (if TextOf(s.finalMessage.value) != "" then TextOf(s.finalMessage.value) else s.lastAgentMessage)
      && s' == s.(context := s'.context, lastAgentMessage := s'.lastAgentMessage)
  {
    hide TextOf;
  }

  lemma ToolsTell(r: Request, s: Run, h: Heard, a: Action)
    requires Listens(r, s, h) && Answers(r, s, a) && !a.Throws? && (s.pc.RunTools?)
    ensures Tells(r, s, h, a, Resume(r, s, a))
  {
    hide KeepsTurn, KeepsBudget, Logs, Calls, BudgetSpent, Entries;
    var calls := Calls(s.finalMessage.value);
    ToolEntriesAre(calls, a.outcomes);
    hide ToolEntries, Tools.Results;
  }

  lemma ToolEntriesAre(calls: seq<Call>, outcomes: seq<Tools.Outcome>)
    requires |outcomes| == |calls|
    ensures Entries(Tools.Results(calls, outcomes), ToolOutput) == ToolEntries(calls, outcomes)
  {
    var es := Entries(Tools.Results(calls, outcomes), ToolOutput);
    forall i | 0 <= i < |calls| ensures es[i] == ToolEntries(calls, outcomes)[i] { }
  }

  lemma BeforeCompleteTells(r: Request, s: Run, h: Heard, a: Action)
    requires Listens(r, s, h) && Answers(r, s, a) && !a.Throws? && (s.pc.BeforeComplete?)
    ensures Tells(r, s, h, a, Resume(r, s, a))
  {
    hide KeepsTurn, KeepsBudget, Logs, Calls, Entries, Refuse;
    NoEntries(Repair);
    if r.asksBeforeComplete { RefuseTells(s, |a.messages|, Entries(a.messages, Repair)); }
  }

  lemma NoEntries(origin: Origin)
    ensures Entries([], origin) == []
  {
  }

  lemma SealWrites(s: Run)
    requires s.finalMessage.Some?
    ensures var s' := StepSeal(s);
      && s'.context == s.context
      && s'.log == s.log + (if s.control.queue != [] then [FinalRejected(s.turns, 1)]
        else [MessageCompleted(s.turns, Assistant(s.finalMessage.value), Final), RunState(Completed),
              RunEnded(Completed)])
  {
    hide KeepsTurn, KeepsBudget, Logs, Refuse;
    RefuseTells(s, 1, []);
  }

  lemma SealHolds(s: Run, h: Heard)
    requires s.finalMessage.Some? && Holds(s, h)
    ensures Holds(StepSeal(s), h) && (StepSeal(s).pc.Top? || StepSeal(s).pc == Ended(Completed))
  {
    hide KeepsTurn, KeepsBudget, Logs, Refuse;
    RefuseTells(s, 1, []);
  }

  lemma SealTells(r: Request, s: Run, h: Heard, a: Action)
    requires Listens(r, s, h) && Answers(r, s, a) && !a.Throws? && s.pc.Seal? && AnswerOk(s)
    ensures Tells(r, s, h, a, Resume(r, s, a))
  {
    SealWrites(s);
    SealHolds(s, h);
    hide KeepsTurn, KeepsBudget, Logs, Calls, TextOf, Blank, StepSeal;
  }

  lemma ThrowTells(r: Request, s: Run, h: Heard, a: Action)
    requires Listens(r, s, h) && Answers(r, s, a) && a.Throws?
    ensures Tells(r, s, h, a, Resume(r, s, a))
  {
    hide Answers, KeepsTurn, KeepsBudget, Logs, Fail, Passed, Farewell;
    FailTells(s, a.aborted);
    NothingToPass(r, Resume(r, s, a).pc, h);
  }

  /** What the invariant gives at the awaits that need it. */
  lemma SoundHere(r: Request, s: Run)
    requires Sound(r, s)
    ensures AnswerOk(s) && (s.pc.Append? ==> s.synthesisOnly == BudgetSpent(r, s.toolTurns))
  {
    hide RunnerSteering.Conserved, Bounded, EndsOnce, AnswerOk, KeptOk, RunnerContent.SingleSource, Offers,
      WithinBudget, RunLog.ToolBatches;
  }

  lemma ResumeTells(r: Request, s: Run, h: Heard, a: Action)
    requires Sound(r, s) && Listens(r, s, h) && Answers(r, s, a)
    ensures Tells(r, s, h, a, Resume(r, s, a))
  {
    SoundHere(r, s);
    hide Sound, Listens, Tells, Resume, AnswerOk, BudgetSpent;
    if a.Throws? { ThrowTells(r, s, h, a); }
    else {
      match s.pc
      case Begin => BeginTells(r, s, h, a);
      case Announce => AnnounceTells(r, s, h, a);
      case Top => TopTells(r, s, h, a);
      case TopDrain => DrainTells(r, s, h, a);
      case LateDrain => DrainTells(r, s, h, a);
      case Clone => CloneTells(r, s, h, a);
      case Attempt => AttemptTells(r, s, h, a);
      case Streaming => if a.Stream? { StreamTells(r, s, h, a); } else { StreamEndsTells(r, s, h, a); }
      case Judge => JudgeTells(r, s, h, a);
      case Review => ReviewTells(r, s, h, a);
      case Append => AppendTells(r, s, h, a);
      case RunTools => ToolsTell(r, s, h, a);
      case BeforeComplete => BeforeCompleteTells(r, s, h, a);
      case Seal => SealTells(r, s, h, a);
    }
  }

  lemma OthersDoNotAnswer(r: Request, s: Run, a: Action)
    requires a.Steer? || a.Cancel? || a.AbortRequest?
    ensures !Answers(r, s, a)
  {
  }

  /** What is no answer writes nothing. */
  lemma OthersTell(r: Request, s: Run, h: Heard, a: Action)
    requires Listens(r, s, h) && !Answers(r, s, a)
    ensures Tells(r, s, h, a, Next(r, s, a))
  {
    hide Answers, Resume, Passed;
  }

  lemma NextTells(r: Request, s: Run, h: Heard, a: Action)
    requires Sound(r, s) && Listens(r, s, h)
    ensures Tells(r, s, h, a, Next(r, s, a))
  {
    hide Sound, Listens, Tells, Answers, Resume;
    if a.Steer? || a.Cancel? || a.AbortRequest? { OthersDoNotAnswer(r, s, a); }
    if Answers(r, s, a) { ResumeTells(r, s, h, a); } else { OthersTell(r, s, h, a); }
  }

  // ----- whole runs ------------------------------------------------------------------------

  /** What the context gains over a list of actions. */
  function ContextTold(r: Request, s: Run, h: Heard, actions: seq<Action>): seq<Entry>
    decreases |actions|
  {
    if actions == [] then []
    else
      Adds(r, s, h, actions[0]) + ContextTold(r, Next(r, s, actions[0]), Hear(r, s, h, actions[0]), actions[1..])
  }

  function LogTold(r: Request, s: Run, h: Heard, actions: seq<Action>): seq<Event>
    decreases |actions|
  {
    if actions == [] then []
    else Says(r, s, h, actions[0]) + LogTold(r, Next(r, s, actions[0]), Hear(r, s, h, actions[0]), actions[1..])
  }

  /** The run from `s` to `s'` writes what was told, and hears it. */
  ghost predicate Story(r: Request, s: Run, h: Heard, actions: seq<Action>, s': Run) {
    && Listens(r, s', HearAll(r, s, h, actions))
    && s'.context == s.context + ContextTold(r, s, h, actions) && s'.log == s.log + LogTold(r, s, h, actions)
  }

  lemma StoryFirst(r: Request, s: Run, h: Heard, actions: seq<Action>, s': Run)
    requires actions != []
    requires Writes(r, s, h, actions[0], Next(r, s, actions[0]))
    requires Story(r, Next(r, s, actions[0]), Hear(r, s, h, actions[0]), actions[1..], s')
    ensures Story(r, s, h, actions, s')
  {
    hide Listens, Next, Hear, Adds, Says;
  }

  lemma {:induction false} StoryFrom(r: Request, s: Run, h: Heard, actions: seq<Action>)
    requires Sound(r, s) && Listens(r, s, h)
    ensures Sound(r, Exec(r, s, actions)) && Story(r, s, h, actions, Exec(r, s, actions))
    decreases |actions|
  {
    if actions != [] {
      hide Sound, Listens, Next, Hear, Writes, Story;
      SoundStep(r, s, actions[0]);
      NextTells(r, s, h, actions[0]);
      StoryFrom(r, Next(r, s, actions[0]), Hear(r, s, h, actions[0]), actions[1..]);
      StoryFirst(r, s, h, actions, Exec(r, s, actions));
    } else {
      hide Sound, Listens;
    }
  }

  lemma StoryStart(r: Request)
    ensures Sound(r, Initial(r)) && Listens(r, Initial(r), SILENCE)
  {
    SoundStart(r);
    hide Sound, Entries;
  }

  /** The context and the log of every run, from the answers it got. */
  lemma StoryOfRun(r: Request, actions: seq<Action>)
    ensures var s := Exec(r, Initial(r), actions);
      && Listens(r, s, HearAll(r, Initial(r), SILENCE, actions))
      && s.context == Entries(r.context, Given) + ContextTold(r, Initial(r), SILENCE, actions)
      && s.log == LogTold(r, Initial(r), SILENCE, actions)
  {
    StoryStart(r);
    StoryFrom(r, Initial(r), SILENCE, actions);
    hide Sound, Listens, HearAll, ContextTold, LogTold, Exec, Entries;
  }
}
