/**
 The agent run loop (packages/core/src/runner.ts, `#execute`) as a transition system.

 A state is the run at one of its awaits.  An action is either what the awaited party answers, after
 which the run goes on to its next await, or the doing of another party: a steered message or a
 cancellation may arrive at every await.  A list of actions is one interleaving.
 */
module Runner {
  import opened Wrappers
  import opened Messages
  import opened Control
  import Tools

  const INFERENCE_MAX_ATTEMPTS := 3
  const REPAIR_TURNS := 3

  /** 1s, 2s, 4s: the wait after model call number `attempt` of a turn. */
  function RetryDelayMs(attempt: nat): nat
    requires attempt >= 1
  {
    if 1000 * Pow2(attempt - 1) < 4000 then 1000 * Pow2(attempt - 1) else 4000
  }

  function Pow2(n: nat): nat { if n == 0 then 1 else 2 * Pow2(n - 1) }

  /** The waits after the first `n` model calls of a turn. */
  function TotalDelayMs(n: nat): nat { if n == 0 then 0 else TotalDelayMs(n - 1) + RetryDelayMs(n) }

  // ----- requests --------------------------------------------------------------------------

  datatype Budget = Budget(maximum: int, synthesisPrompt: string)

  datatype Request = Request(
    context: seq<Message>,
    maxTurns: Option<int>,
    toolTurnBudget: Option<Budget>,
    transforms: bool,        // `transformContext` is given
    reviews: bool,           // `reviewFinal` is given
    asksBeforeComplete: bool)

  /** `None` is no limit, which is also what a limit that is not positive means. */
  function MaxTurns(r: Request): Option<nat> {
    match r.maxTurns
    case Some(m) => if m > 0 then Some(m) else None
    case None => None
  }

  predicate BudgetSpent(r: Request, toolTurns: nat) {
    r.toolTurnBudget.Some? && toolTurns >= r.toolTurnBudget.value.maximum
  }

  // ----- states ----------------------------------------------------------------------------

  datatype Origin = Given | Steered | Model(turn: nat) | Repair | ToolOutput

  /** A context message and where it came from. */
  datatype Entry = Entry(message: Message, origin: Origin)

  datatype Failure = Failure(aborted: bool, retryable: bool)

  datatype Pc =
    | Begin | Announce | Top | TopDrain | Clone | Attempt | Streaming | Judge | Review | Append
    | RunTools | LateDrain | BeforeComplete | Seal | Ended(status: Status)

  datatype Run = Run(
    pc: Pc,
    turns: nat,
    context: seq<Entry>,
    control: Control,
    requestAborted: bool,
    lastAgentMessage: string,
    emptyFinalRepairIssued: bool,
    allowRepairTurn: bool,
    remainingRepairTurns: nat,
    toolTurns: nat,
    synthesisOnly: bool,
    cloned: seq<Entry>,        // the context as it was cloned for the model in the current turn
    draining: seq<Message>,    // drained from the queue, not yet appended
    attempts: seq<nat>,        // model calls made, turn by turn
    waited: seq<nat>,          // milliseconds waited between them, turn by turn
    finalMessage: Option<seq<Block>>,
    failure: Option<Failure>,
    contentEmitted: bool,
    log: seq<Event>,
    accepted: seq<Message>)    // every message `steer` has taken

  datatype StreamEvent =
    | Started | Content(kind: DeltaKind) | Done(content: seq<Block>) | Error(error: Failure)

  datatype Action =
    | Steer(message: Message)
    | Cancel
    | AbortRequest
    | Go
    | Transformed(offered: seq<Message>)
    | Stream(event: StreamEvent)
    | StreamEnds
    | Reviewed(repair: seq<Message>)
    | ToolsReturn(outcomes: seq<Tools.Outcome>)
    | Outstanding(messages: seq<Message>)
    | Throws(aborted: bool)

  predicate Aborted(s: Run) { s.control.cancelled || s.requestAborted }

  function Entries(messages: seq<Message>, origin: Origin): (es: seq<Entry>)
    ensures |es| == |messages| && forall i :: 0 <= i < |es| ==> es[i] == Entry(messages[i], origin)
  {
    seq(|messages|, i requires 0 <= i < |messages| => Entry(messages[i], origin))
  }

  function MessagesOf(context: seq<Entry>): seq<Message> {
    seq(|context|, i requires 0 <= i < |context| => context[i].message)
  }

  function Initial(r: Request): Run {
    Run(Begin, 0, Entries(r.context, Given), Control([], true, false), false, "", false, false, REPAIR_TURNS, 0,
        false, [], [], [], [], None, None, false, [], [])
  }

  // ----- steps -----------------------------------------------------------------------------

  /** A step within a turn that neither calls the model nor waits. */
  predicate KeepsTurn(s: Run, s': Run) {
    && s'.turns == s.turns && s'.attempts == s.attempts && s'.waited == s.waited
    && s'.remainingRepairTurns == s.remainingRepairTurns
  }

  /** Over without having completed. */
  predicate Stopped(pc: Pc) { pc.Ended? && !pc.status.Completed? }

  predicate KeepsBudget(s: Run, s': Run) { s'.toolTurns == s.toolTurns && s'.synthesisOnly == s.synthesisOnly }

  datatype EventClass = Plain | Content | Offer | ToolRun | TurnEnd

  function ClassOf(e: Event): EventClass {
    match e
    case Delta(_, _, _) => EventClass.Content
    case TurnStarted(_, _, _) => Offer
    case MessageCompleted(_, _, _) => TurnEnd
    case FinalRejected(_, _) => TurnEnd
    case RunState(status) => if status.ExecutingTools? then ToolRun else Plain
    case _ => Plain
  }

  /** The log grows by events of these classes only. */
  predicate Logs(s: Run, s': Run, classes: set<EventClass>) {
    && |s.log| <= |s'.log|
    && (forall i :: 0 <= i < |s.log| ==> s'.log[i] == s.log[i])
    && (forall i :: |s.log| <= i < |s'.log| ==> ClassOf(s'.log[i]) in classes)
  }

  function Emit(s: Run, e: Event): Run { s.(log := s.log + [e]) }

  /** The `catch` block. */
  function Fail(s: Run, aborted: bool): (s': Run)
    ensures KeepsTurn(s, s') && KeepsBudget(s, s') && Logs(s, s', {Plain}) && Stopped(s'.pc)
  {
    var status := if Aborted(s) || aborted then Cancelled else Failed;
    s.(log := s.log + [RunState(status)] + [RunEnded(status)], pc := Ended(status))
  }

  /** The turn's message is refused, messages join the context, and another turn is asked for. */
  function Refuse(s: Run, repairs: nat, es: seq<Entry>): (s': Run)
    ensures KeepsTurn(s, s') && KeepsBudget(s, s') && Logs(s, s', {TurnEnd}) && s'.pc.Top?
  {
    s.(log := s.log + [FinalRejected(s.turns, repairs)], context := s.context + es, allowRepairTurn := true, pc := Top)
  }

  lemma RefuseAdds(s: Run, repairs: nat, es: seq<Entry>)
    ensures var s' := Refuse(s, repairs, es);
      s'.log == s.log + [FinalRejected(s.turns, repairs)] && s'.context == s.context + es && s'.turns == s.turns
  {
    hide KeepsTurn, KeepsBudget, Logs;
  }

  /** Another turn is asked for. */
  function Again(s: Run): (s': Run)
    ensures KeepsTurn(s, s') && KeepsBudget(s, s') && Logs(s, s', {Plain}) && s'.pc.Top?
  {
    s.(allowRepairTurn := true, pc := Top)
  }

  predicate LoopTest(r: Request, s: Run) {
    MaxTurns(r).None? || s.turns < MaxTurns(r).value || (s.allowRepairTurn && s.remainingRepairTurns > 0)
  }

  function StepBegin(s: Run): (s': Run)
    ensures KeepsTurn(s, s') && KeepsBudget(s, s') && Logs(s, s', {Plain}) && (s'.pc.Announce? || Stopped(s'.pc))
  {
    if Aborted(s) then Fail(s, true) else Emit(s, RunStarted).(pc := Announce)
  }

  function StepAnnounce(s: Run): (s': Run)
    ensures KeepsTurn(s, s') && KeepsBudget(s, s') && Logs(s, s', {Plain}) && s'.pc.Top?
  {
    Emit(s, RunState(InProgress)).(pc := Top)
  }

  function StepTop(r: Request, s: Run): (s': Run)
    ensures KeepsBudget(s, s') && Logs(s, s', {Plain}) && (s'.pc.TopDrain? || Stopped(s'.pc))
  {
    if !LoopTest(r, s) then Fail(s, false)
    else if Aborted(s) then Fail(s, true)
    else
      s.(remainingRepairTurns := if MaxTurns(r).Some? && s.turns >= MaxTurns(r).value
                                 then s.remainingRepairTurns - 1 else s.remainingRepairTurns,
         allowRepairTurn := false,
         turns := s.turns + 1,
         attempts := s.attempts + [0],
         waited := s.waited + [0],
         draining := s.control.queue,
         control := s.control.(queue := []),
         pc := TopDrain)
  }

  /** One drained message reaches the context. */
  function StepDrain(s: Run): (s': Run)
    requires s.draining != []
    ensures KeepsTurn(s, s') && KeepsBudget(s, s') && Logs(s, s', {Plain}) && s'.pc == s.pc
      && |s'.draining| < |s.draining|
  {
    s.(context := s.context + [Entry(s.draining[0], Steered)],
       log := s.log + [SteerAccepted(s.draining[0])],
       draining := s.draining[1..])
  }

  function StepClone(r: Request, s: Run, offered: seq<Message>): (s': Run)
    ensures KeepsTurn(s, s') && Logs(s, s', {Offer}) && s'.pc.Attempt?
  {
    var synthesisOnly := BudgetSpent(r, s.toolTurns);
    var effective := if synthesisOnly then offered + [User(r.toolTurnBudget.value.synthesisPrompt)] else offered;
    s.(cloned := s.context, synthesisOnly := synthesisOnly,
       log := s.log + [TurnStarted(s.turns, effective, !synthesisOnly)], pc := Attempt)
  }

  function StepAttempt(s: Run): (s': Run)
    requires s.attempts != []
    ensures KeepsBudget(s, s') && Logs(s, s', {Plain}) && (s'.pc.Streaming? || Stopped(s'.pc))
  {
    var n := |s.attempts| - 1;
    if Aborted(s) then Fail(s, true)
    else s.(attempts := s.attempts[n := s.attempts[n] + 1],
            finalMessage := None, failure := None, contentEmitted := false, pc := Streaming)
  }

  function StepStream(s: Run, e: StreamEvent): (s': Run)
    requires s.attempts != []
    ensures KeepsTurn(s, s') && KeepsBudget(s, s') && Logs(s, s', {Plain, EventClass.Content}) && s'.pc == s.pc
  {
    match e
    case Started => Emit(s, ModelStarted(s.turns))
    case Content(kind) =>
      s.(log := s.log + [Delta(s.turns, s.attempts[|s.attempts| - 1], kind)], contentEmitted := true)
    case Done(content) => s.(finalMessage := Some(content))
    case Error(error) => s.(failure := Some(error))
  }

  function StepStreamEnds(s: Run): (s': Run)
    requires s.attempts != [] && |s.waited| == |s.attempts|
    ensures KeepsBudget(s, s') && Logs(s, s', {Plain}) && (s'.pc.Attempt? || s'.pc.Judge? || Stopped(s'.pc))
  {
    var n := |s.attempts| - 1;
    var attempt := s.attempts[n];
    if s.failure.Some? && s.failure.value.retryable && !s.contentEmitted && 1 <= attempt < INFERENCE_MAX_ATTEMPTS then
      s.(waited := s.waited[n := s.waited[n] + RetryDelayMs(attempt)], pc := Attempt)
    else if s.failure.Some? then Fail(s, s.failure.value.aborted)
    else if s.finalMessage.None? then Fail(s, false)
    else s.(pc := Judge)
  }

  lemma FailKeeps(s: Run)
    ensures forall aborted :: var s' := Fail(s, aborted);
      s'.context == s.context && s'.draining == s.draining && s'.control == s.control && s'.accepted == s.accepted
  {
    hide KeepsTurn, KeepsBudget, Logs;
  }

  lemma StreamEndsKeeps(s: Run)
    requires s.attempts != [] && |s.waited| == |s.attempts|
    ensures var s' := StepStreamEnds(s);
      && s'.turns == s.turns && s'.attempts == s.attempts
      && s'.context == s.context && s'.draining == s.draining && s'.control == s.control && s'.accepted == s.accepted
      && (s'.pc.Attempt? ==> 1 <= s.attempts[|s.attempts| - 1] < INFERENCE_MAX_ATTEMPTS)
  {
    FailKeeps(s);
    hide Logs, KeepsBudget, RetryDelayMs, Fail;
  }

  const EMPTY_REPAIR := User("Return a user-facing final answer.")
  const TOOLS_GONE := User("Tool use is no longer available.")

  /** What joins the context when the message is empty: the message, and what to do instead. */
  function EmptyRepair(s: Run): seq<Entry>
    requires s.finalMessage.Some?
  {
    [Entry(Assistant(s.finalMessage.value), Model(s.turns)), Entry(EMPTY_REPAIR, Repair)]
  }

  function StepJudge(r: Request, s: Run): (s': Run)
    requires s.finalMessage.Some?
    ensures KeepsTurn(s, s') && KeepsBudget(s, s') && Logs(s, s', {TurnEnd, Plain})
      && (s'.pc.Top? || s'.pc.Review? || s'.pc.Append? || Stopped(s'.pc))
  {
    var content := s.finalMessage.value;
    if Calls(content) == [] && Blank(TextOf(content)) then
      if s.emptyFinalRepairIssued then Fail(s, false)
      else
        Refuse(s.(emptyFinalRepairIssued := true), 1, EmptyRepair(s))
    else if Calls(content) == [] && r.reviews then s.(pc := Review)
    else s.(pc := Append)
  }

  function StepReview(s: Run, repair: seq<Message>): (s': Run)
    requires s.finalMessage.Some?
    ensures KeepsTurn(s, s') && KeepsBudget(s, s') && Logs(s, s', {TurnEnd}) && (s'.pc.Top? || s'.pc.Append?)
  {
    if repair == [] then s.(pc := Append)
    else Refuse(s, |repair|, [Entry(Assistant(s.finalMessage.value), Model(s.turns))] + Entries(repair, Repair))
  }

  /** The model's message joins the context. */
  function Answered(s: Run): Run
    requires s.finalMessage.Some?
  {
    var text := TextOf(s.finalMessage.value);
    s.(context := s.context + [Entry(Assistant(s.finalMessage.value), Model(s.turns))],
       lastAgentMessage := if text != "" then text else s.lastAgentMessage)
  }

  function StepCalls(s: Run): (s': Run)
    requires s.finalMessage.Some?
    ensures KeepsTurn(s, s') && KeepsBudget(s, s') && Logs(s, s', {TurnEnd, ToolRun}) && (s'.pc.Top? || s'.pc.RunTools?)
  {
    if s.synthesisOnly then Refuse(s, 1, [Entry(TOOLS_GONE, Repair)])
    else
      s.(log := s.log + [MessageCompleted(s.turns, Assistant(s.finalMessage.value), Commentary)]
        + [RunState(ExecutingTools)],
         pc := RunTools)
  }

  function StepLateSteering(s: Run): (s': Run)
    ensures KeepsTurn(s, s') && KeepsBudget(s, s') && Logs(s, s', {TurnEnd})
      && (s'.pc.LateDrain? || s'.pc.BeforeComplete?)
  {
    if s.control.queue == [] then s.(pc := BeforeComplete)
    else
      s.(log := s.log + [FinalRejected(s.turns, |s.control.queue|)],
         draining := s.control.queue, control := s.control.(queue := []), pc := LateDrain)
  }

  function StepAppend(s: Run): (s': Run)
    requires s.finalMessage.Some?
    ensures KeepsTurn(s, s') && KeepsBudget(s, s') && Logs(s, s', {TurnEnd, ToolRun})
      && (s'.pc.Top? || s'.pc.RunTools? || s'.pc.LateDrain? || s'.pc.BeforeComplete?)
  {
    if Calls(s.finalMessage.value) != [] then StepCalls(Answered(s)) else StepLateSteering(Answered(s))
  }

  function StepTools(r: Request, s: Run, outcomes: seq<Tools.Outcome>): (s': Run)
    requires s.finalMessage.Some? && |outcomes| == |Calls(s.finalMessage.value)|
    ensures KeepsTurn(s, s') && Logs(s, s', {Plain}) && s'.pc.Top?
  {
    s.(context := s.context + Entries(Tools.Results(Calls(s.finalMessage.value), outcomes), ToolOutput),
       log := s.log + [RunState(InProgress)],
       toolTurns := s.toolTurns + 1,
       allowRepairTurn := s.allowRepairTurn || BudgetSpent(r, s.toolTurns + 1),
       pc := Top)
  }

  function StepBeforeComplete(s: Run, outstanding: seq<Message>): (s': Run)
    ensures KeepsTurn(s, s') && KeepsBudget(s, s') && Logs(s, s', {TurnEnd}) && (s'.pc.Top? || s'.pc.Seal?)
  {
    if outstanding == [] then s.(pc := Seal)
    else Refuse(s, |outstanding|, Entries(outstanding, Repair))
  }

  function StepSeal(s: Run): (s': Run)
    requires s.finalMessage.Some?
    ensures KeepsTurn(s, s') && KeepsBudget(s, s') && Logs(s, s', {TurnEnd, Plain})
      && (s'.pc.Top? || s'.pc == Ended(Completed))
  {
    if s.control.queue != [] then Refuse(s, 1, [])
    else
      s.(log := s.log + [MessageCompleted(s.turns, Assistant(s.finalMessage.value), Final)]
           + [RunState(Completed)] + [RunEnded(Completed)],
         control := s.control.(accepting := false), pc := Ended(Completed))
  }

  /** Whether the awaited party can give this answer here. */
  predicate Answers(r: Request, s: Run, a: Action) {
    match s.pc
    case Clone => if r.transforms then a.Transformed? || a.Throws? else a.Go?
    case Attempt => a.Go? && s.attempts != []
    case Streaming =>
      (a.Stream? || a.StreamEnds? || a.Throws?) && s.attempts != [] && |s.waited| == |s.attempts|
    case Review => (a.Reviewed? || a.Throws?) && s.finalMessage.Some?
    case Judge => a.Go? && s.finalMessage.Some?
    case Append => a.Go? && s.finalMessage.Some?
    case RunTools =>
      s.finalMessage.Some? &&
      ((a.ToolsReturn? && |a.outcomes| == |Calls(s.finalMessage.value)|) || (a.Throws? && Aborted(s)))
    case BeforeComplete => if r.asksBeforeComplete then a.Outstanding? || a.Throws? else a.Go?
    case Seal => a.Go? && s.finalMessage.Some?
    case Ended(_) => false
    case _ => a.Go?
  }

  /** The run goes on to its next await. */
  function Resume(r: Request, s: Run, a: Action): Run
    requires Answers(r, s, a)
  {
    if a.Throws? then Fail(s, a.aborted)
    else
      match s.pc
      case Begin => StepBegin(s)
      case Announce => StepAnnounce(s)
      case Top => StepTop(r, s)
      case TopDrain => if s.draining == [] then s.(pc := Clone) else StepDrain(s)
      case Clone => StepClone(r, s, if r.transforms then a.offered else MessagesOf(s.context))
      case Attempt => StepAttempt(s)
      case Streaming => if a.Stream? then StepStream(s, a.event) else StepStreamEnds(s)
      case Judge => StepJudge(r, s)
      case Review => StepReview(s, a.repair)
      case Append => StepAppend(s)
      case RunTools => StepTools(r, s, a.outcomes)
      case LateDrain => if s.draining == [] then Again(s) else StepDrain(s)
      case BeforeComplete => StepBeforeComplete(s, if r.asksBeforeComplete then a.messages else [])
      case Seal => StepSeal(s)
  }

  /** One action; what cannot happen here changes nothing. */
  function Next(r: Request, s: Run, a: Action): Run {
    match a
    case Steer(m) =>
      if Accepts(s.control) then
        s.(control := s.control.(queue := s.control.queue + [m]), accepted := s.accepted + [m])
      else s
    case Cancel => s.(control := s.control.(cancelled := true))
    case AbortRequest => s.(requestAborted := true)
    case _ => if Answers(r, s, a) then Resume(r, s, a) else s
  }

  function Exec(r: Request, s: Run, actions: seq<Action>): Run
    decreases |actions|
  {
    if actions == [] then s else Exec(r, Next(r, s, actions[0]), actions[1..])
  }

  /** What a step from each await may log. */
  function MayLog(pc: Pc): set<EventClass> {
    match pc
    case Clone => {Offer, Plain}
    case Streaming => {Plain, EventClass.Content}
    case Judge => {TurnEnd, Plain}
    case Review => {TurnEnd, Plain}
    case Append => {TurnEnd, ToolRun, Plain}
    case BeforeComplete => {TurnEnd, Plain}
    case Seal => {TurnEnd, Plain}
    case _ => {Plain}
  }

  lemma LogsMore(s: Run, s': Run, classes: set<EventClass>, more: set<EventClass>)
    requires Logs(s, s', classes) && classes <= more
    ensures Logs(s, s', more)
  {}

  lemma SameLog(s: Run, s': Run)
    requires s'.log == s.log
    ensures Logs(s, s', {Plain})
  {}

  lemma ResumeLogs(r: Request, s: Run, a: Action)
    requires Answers(r, s, a)
    ensures Logs(s, Resume(r, s, a), MayLog(s.pc))
  {
    hide Logs, StepBegin, StepAnnounce, StepTop, StepDrain, StepClone, StepAttempt, StepStream, StepStreamEnds,
      StepJudge, StepReview, StepAppend, StepTools, StepBeforeComplete, StepSeal, Again, Fail, MessagesOf;
    var s' := Resume(r, s, a);
    if s'.log == s.log { SameLog(s, s'); LogsMore(s, s', {Plain}, MayLog(s.pc)); }
    else if a.Throws? { LogsMore(s, s', {Plain}, MayLog(s.pc)); }
    else {
      match s.pc
      case Clone => LogsMore(s, s', {Offer}, MayLog(s.pc));
      case Streaming => if a.StreamEnds? { LogsMore(s, s', {Plain}, MayLog(s.pc)); }
      case Review => LogsMore(s, s', {TurnEnd}, MayLog(s.pc));
      case Append => LogsMore(s, s', {TurnEnd, ToolRun}, MayLog(s.pc));
      case BeforeComplete => LogsMore(s, s', {TurnEnd}, MayLog(s.pc));
      case _ =>
    }
  }
}
