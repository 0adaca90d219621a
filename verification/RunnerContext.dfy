/** What a reader of a run's context can rely on. */
module RunnerContext {
  import opened Wrappers
  import opened Messages
  import opened Runner
  import opened RunnerInvariant
  import opened RunnerStory

  // ----- contexts only grow ----------------------------------------------------------------

  lemma {:induction false} ExecSplit(r: Request, s: Run, before: seq<Action>, after: seq<Action>)
    ensures Exec(r, s, before + after) == Exec(r, Exec(r, s, before), after)
    decreases |before|
  {
    hide Next;
    if before == [] {
      assert before + after == after;
    } else {
      assert (before + after)[0] == before[0] && (before + after)[1..] == before[1..] + after;
      ExecSplit(r, Next(r, s, before[0]), before[1..], after);
    }
  }

  /** What is in a context stays where it is, whatever follows. */
  lemma ContextGrows(r: Request, before: seq<Action>, after: seq<Action>)
    ensures var s, s' := Exec(r, Initial(r), before), Exec(r, Initial(r), before + after);
      |s.context| <= |s'.context| && s'.context[..|s.context|] == s.context
  {
    hide Exec, Initial, Sound, Listens, HearAll, ContextTold, LogTold, Next;
    StoryStart(r);
    StoryFrom(r, Initial(r), SILENCE, before);
    ExecSplit(r, Initial(r), before, after);
    StoryFrom(r, Exec(r, Initial(r), before), HearAll(r, Initial(r), SILENCE, before), after);
  }

  /** Every context begins with the request's. */
  lemma ContextBegins(r: Request, actions: seq<Action>)
    ensures var s := Exec(r, Initial(r), actions);
      && |r.context| <= |s.context|
      && forall i :: 0 <= i < |r.context| ==> s.context[i] == Entry(r.context[i], Given)
  {
    hide Exec, Initial, Listens, HearAll, ContextTold, LogTold;
    StoryOfRun(r, actions);
  }

  // ----- every call is answered ------------------------------------------------------------

  predicate IsResult(e: Entry, call: Call) {
    && e.origin.ToolOutput? && e.message.ToolResult?
    && e.message.callId == call.id && e.message.toolName == call.name
  }

  /** The tool calls of an entry of the model. */
  function CallsOf(e: Entry): seq<Call> {
    if e.origin.Model? && e.message.Assistant? then Calls(e.message.content) else []
  }

  /** The results of entry `j`'s calls come right after it, one for each call in call order. */
  predicate HasResults(context: seq<Entry>, j: nat)
    requires j < |context|
  {
    && j + |CallsOf(context[j])| < |context|
    && forall k :: 0 <= k < |CallsOf(context[j])| ==> IsResult(context[j + 1 + k], CallsOf(context[j])[k])
  }

  predicate ToldToolsAreGone(context: seq<Entry>, j: nat) {
    j + 1 < |context| && context[j + 1] == Entry(TOOLS_GONE, Repair)
  }

  /** Entry `j` has its results, or was told that tools are gone, or is the last one and still waits. */
  predicate CallsMet(context: seq<Entry>, waiting: bool, j: nat)
    requires j < |context|
  {
    || CallsOf(context[j]) == []
    || HasResults(context, j)
    || ToldToolsAreGone(context, j)
    || (waiting && j + 1 == |context|)
  }

  /** A tool result at `i` answers a call of the entry `back` places before it. */
  predicate ResultOf(context: seq<Entry>, i: nat, back: nat)
    requires i < |context|
  {
    && 1 <= back <= i && back <= |CallsOf(context[i - back])|
    && IsResult(context[i], CallsOf(context[i - back])[back - 1])
  }

  ghost predicate HasCall(context: seq<Entry>, i: nat)
    requires i < |context|
  {
    exists back: nat :: ResultOf(context, i, back)
  }

  /** Every call has its result in its place, and every result its call. */
  ghost predicate Paired(context: seq<Entry>, waiting: bool) {
    && (forall j :: 0 <= j < |context| ==> CallsMet(context, waiting, j))
    && (forall i :: 0 <= i < |context| && context[i].origin.ToolOutput? ==> HasCall(context, i))
  }

  lemma MetStays(context: seq<Entry>, more: seq<Entry>, waiting: bool, j: nat)
    requires j < |context| && CallsMet(context, false, j)
    ensures CallsMet(context + more, waiting, j)
  {
    hide IsResult, CallsOf;
  }

  lemma CallStays(context: seq<Entry>, more: seq<Entry>, i: nat)
    requires i < |context| && HasCall(context, i)
    ensures HasCall(context + more, i)
  {
    hide IsResult, CallsOf;
    var back: nat :| ResultOf(context, i, back);
    assert ResultOf(context + more, i, back);
  }

  /** Entries that neither call nor answer. */
  predicate Quiet(es: seq<Entry>) {
    forall i :: 0 <= i < |es| ==> CallsOf(es[i]) == [] && !es[i].origin.ToolOutput?
  }

  lemma PairedQuiet(context: seq<Entry>, es: seq<Entry>)
    requires Paired(context, false) && Quiet(es)
    ensures Paired(context + es, false)
  {
    hide CallsOf, HasCall, CallsMet;
    var c := context + es;
    forall j | 0 <= j < |c| ensures CallsMet(c, false, j) {
      if j < |context| { MetStays(context, es, false, j); } else { QuietIsMet(c, j); }
    }
    forall i | 0 <= i < |c| && c[i].origin.ToolOutput? ensures HasCall(c, i) { CallStays(context, es, i); }
  }

  lemma QuietIsMet(context: seq<Entry>, j: nat)
    requires j < |context| && CallsOf(context[j]) == []
    ensures CallsMet(context, false, j)
  {
  }

  lemma WaitingIsMet(context: seq<Entry>, more: seq<Entry>, waiting: bool)
    requires context != [] && ((more == [] && waiting) || ToldToolsAreGone(context + more, |context| - 1))
    ensures CallsMet(context + more, waiting, |context| - 1)
  {
  }

  lemma PairedDraft(context: seq<Entry>, e: Entry)
    requires Paired(context, false) && e.origin.Model?
    ensures Paired(context + [e], true)
    ensures CallsOf(e) == [] ==> Paired(context + [e], false)
  {
    hide CallsOf, HasCall, CallsMet;
    var c := context + [e];
    forall j | 0 <= j < |c| ensures CallsMet(c, true, j) {
      if j < |context| { MetStays(context, [e], true, j); } else { WaitingIsMet(c, [], true); assert c + [] == c; }
    }
    forall i | 0 <= i < |c| && c[i].origin.ToolOutput? ensures HasCall(c, i) { CallStays(context, [e], i); }
    if CallsOf(e) == [] { PairedQuiet(context, [e]); }
  }

  lemma PairedGone(context: seq<Entry>, e: Entry)
    requires Paired(context, false) && e.origin.Model?
    ensures Paired(context + [e, Entry(TOOLS_GONE, Repair)], false)
  {
    hide HasCall, CallsMet;
    var c := context + [e, Entry(TOOLS_GONE, Repair)];
    forall j | 0 <= j < |c| ensures CallsMet(c, false, j) {
      if j < |context| { MetStays(context, [e, Entry(TOOLS_GONE, Repair)], false, j); }
      else if j == |context| {
        assert context + [e] + [Entry(TOOLS_GONE, Repair)] == c;
        WaitingIsMet(context + [e], [Entry(TOOLS_GONE, Repair)], false);
      }
      else { QuietIsMet(c, j); }
    }
    forall i | 0 <= i < |c| && c[i].origin.ToolOutput? ensures HasCall(c, i) {
      CallStays(context, [e, Entry(TOOLS_GONE, Repair)], i);
    }
  }

  /** The results of the last entry's calls close its wait. */
  lemma PairedResults(context: seq<Entry>, e: Entry, outcomes: seq<Tools.Outcome>)
    requires Paired(context + [e], true) && CallsOf(e) != [] && |outcomes| == |CallsOf(e)|
    ensures Paired(context + [e] + ToolEntries(CallsOf(e), outcomes), false)
  {
    hide CallsOf, HasCall;
    var results := ToolEntries(CallsOf(e), outcomes);
    var n := |context|;
    var c := context + [e] + results;
    forall j | 0 <= j < |c| ensures CallsMet(c, false, j) {
      if j < n { assert CallsMet(context + [e], true, j); MetStays(context + [e], results, false, j); }
      else if j == n { assert HasResults(c, n); }
      else { ResultsDoNotCall(CallsOf(e), outcomes, j - n - 1); QuietIsMet(c, j); }
    }
    forall i | 0 <= i < |c| && c[i].origin.ToolOutput? ensures HasCall(c, i) {
      if i <= n { CallStays(context + [e], results, i); } else { ResultHasCall(c, n, i); }
    }
  }

  lemma ResultsDoNotCall(calls: seq<Call>, outcomes: seq<Tools.Outcome>, k: nat)
    requires |outcomes| == |calls| && k < |calls|
    ensures CallsOf(ToolEntries(calls, outcomes)[k]) == []
  {
  }

  lemma ResultHasCall(context: seq<Entry>, n: nat, i: nat)
    requires n < i < |context| && HasResults(context, n) && i <= n + |CallsOf(context[n])|
    ensures HasCall(context, i)
  {
    hide CallsOf, IsResult;
    assert ResultOf(context, i, i - n);
  }

  // ----- over runs -------------------------------------------------------------------------

  /** Calls may still wait for their results: tools are running, or the run stopped. */
  predicate Waits(pc: Pc) { pc.RunTools? || Stopped(pc) }

  /** The context ends with the message whose tools are running. */
  predicate EndsWithCalls(s: Run) {
    && s.finalMessage.Some? && Calls(s.finalMessage.value) != [] && s.context != []
    && s.context[|s.context| - 1] == Entry(Assistant(s.finalMessage.value), Model(s.turns))
  }

  ghost predicate Matched(s: Run) {
    Paired(s.context, Waits(s.pc)) && (s.pc.RunTools? ==> EndsWithCalls(s))
  }

  lemma PairedWaits(context: seq<Entry>, waiting: bool)
    requires Paired(context, waiting)
    ensures Paired(context, true)
  {
    hide HasResults, ToldToolsAreGone, CallsOf, HasCall;
    forall j | 0 <= j < |context| ensures CallsMet(context, true, j) { assert CallsMet(context, waiting, j); }
  }

  lemma PairedMore(context: seq<Entry>, waiting: bool)
    requires Paired(context, false)
    ensures Paired(context, waiting)
  {
    if waiting { PairedWaits(context, false); }
  }

  /** From every await but one the run goes on to something else than tools. */
  lemma NoToolsNext(r: Request, s: Run, a: Action)
    requires Answers(r, s, a) && !s.pc.Append?
    ensures !s.pc.Ended? && !Resume(r, s, a).pc.RunTools?
  {
    hide KeepsTurn, KeepsBudget, Logs, Fail, StepBegin, StepAnnounce, StepTop, StepDrain, StepClone, StepAttempt,
      StepStream, StepStreamEnds, StepJudge, StepReview, StepTools, StepBeforeComplete, StepSeal, Again;
  }

  lemma CallsNext(s: Run)
    requires s.finalMessage.Some?
    ensures StepCalls(s).finalMessage == s.finalMessage && (StepCalls(s).pc.RunTools? <==> !s.synthesisOnly)
    ensures StepLateSteering(s).finalMessage == s.finalMessage
  {
    hide KeepsTurn, KeepsBudget, Logs, Refuse;
    RefuseTells(s, 1, [Entry(TOOLS_GONE, Repair)]);
  }

  lemma ToolsNext(r: Request, s: Run, a: Action)
    requires Answers(r, s, a) && s.pc.Append? && s.synthesisOnly == BudgetSpent(r, s.toolTurns)
    ensures var s' := Resume(r, s, a); var calls := Calls(s.finalMessage.value);
      && (s'.pc.RunTools? <==> calls != [] && !BudgetSpent(r, s.toolTurns))
      && s'.finalMessage == s.finalMessage && s'.turns == s.turns
  {
    AnsweredTells(s);
    CallsNext(Answered(s));
    hide KeepsBudget, Logs, Calls, BudgetSpent, StepCalls, StepLateSteering, Answered, TextOf;
  }

  lemma DraftJoins(r: Request, s: Run, h: Heard, a: Action)
    requires Listens(r, s, h) && Answers(r, s, a) && s.pc.Append?
    ensures var e := Entry(Assistant(s.finalMessage.value), Model(s.turns));
      Adds(r, s, h, a) == if Calls(s.finalMessage.value) != [] && BudgetSpent(r, s.toolTurns)
        then [e, Entry(TOOLS_GONE, Repair)] else [e]
  {
    hide Calls, BudgetSpent, TextOf;
  }

  lemma MatchedAppend(r: Request, s: Run, h: Heard, a: Action)
    requires Matched(s) && Listens(r, s, h) && Answers(r, s, a) && s.pc.Append?
    requires s.synthesisOnly == BudgetSpent(r, s.toolTurns) && Writes(r, s, h, a, Resume(r, s, a))
    ensures Matched(Resume(r, s, a))
  {
    ToolsNext(r, s, a);
    DraftJoins(r, s, h, a);
    var s' := Resume(r, s, a);
    hide Resume, Calls, Paired, BudgetSpent, Listens, Adds, Says;
    var e := Entry(Assistant(s.finalMessage.value), Model(s.turns));
    if s'.pc.RunTools? { PairedDraft(s.context, e); }
    else {
      if Calls(s.finalMessage.value) != [] { PairedGone(s.context, e); } else { PairedDraft(s.context, e); }
      PairedMore(s'.context, Waits(s'.pc));
    }
  }

  lemma AddsQuietly(r: Request, s: Run, h: Heard, a: Action)
    requires Listens(r, s, h) && Answers(r, s, a) && !s.pc.Append? && !s.pc.RunTools?
    ensures Quiet(Adds(r, s, h, a))
  {
    hide Calls, Blank, TextOf;
  }

  lemma MatchedMore(s: Run, es: seq<Entry>, s': Run)
    requires Matched(s) && !Waits(s.pc) && Quiet(es) && s'.context == s.context + es && !s'.pc.RunTools?
    ensures Matched(s')
  {
    hide Paired, Quiet, EndsWithCalls;
    PairedQuiet(s.context, es);
    PairedMore(s'.context, Waits(s'.pc));
  }

  lemma MatchedQuiet(r: Request, s: Run, h: Heard, a: Action)
    requires Matched(s) && Listens(r, s, h) && Answers(r, s, a) && !s.pc.Append? && !s.pc.RunTools?
    requires Writes(r, s, h, a, Resume(r, s, a))
    ensures Matched(Resume(r, s, a))
  {
    hide Matched, Listens, Answers, Resume, Quiet, Adds, Says;
    NoToolsNext(r, s, a);
    AddsQuietly(r, s, h, a);
    MatchedMore(s, Adds(r, s, h, a), Resume(r, s, a));
  }

  lemma MatchedResults(s: Run, outcomes: seq<Tools.Outcome>, s': Run)
    requires Matched(s) && s.pc.RunTools? && !s'.pc.RunTools?
    requires s.finalMessage.Some? && |outcomes| == |Calls(s.finalMessage.value)|
    requires s'.context == s.context + ToolEntries(Calls(s.finalMessage.value), outcomes)
    ensures Matched(s')
  {
    hide Paired, Calls, ToolEntries;
    var n := |s.context| - 1;
    assert s.context == s.context[..n] + [s.context[n]];
    PairedResults(s.context[..n], s.context[n], outcomes);
    PairedMore(s'.context, Waits(s'.pc));
  }

  lemma MatchedStop(s: Run, s': Run)
    requires Matched(s) && Stopped(s'.pc) && s'.context == s.context
    ensures Matched(s')
  {
    hide Paired, EndsWithCalls;
    PairedWaits(s.context, Waits(s.pc));
  }

  lemma MatchedTools(r: Request, s: Run, h: Heard, a: Action)
    requires Sound(r, s) && Matched(s) && Listens(r, s, h) && Answers(r, s, a) && s.pc.RunTools?
    ensures Matched(Resume(r, s, a))
  {
    NoToolsNext(r, s, a);
    if a.Throws? {
      hide Matched, Calls, Fail;
      FailTells(s, a.aborted);
      MatchedStop(s, Resume(r, s, a));
    } else {
      hide Sound, Matched, Listens, Resume, Calls, ToolEntries;
      ToolsJoin(r, s, h, a.outcomes);
      MatchedResults(s, a.outcomes, Resume(r, s, a));
    }
  }

  lemma MatchedOthers(r: Request, s: Run, a: Action)
    requires Matched(s) && !Answers(r, s, a)
    ensures Matched(Next(r, s, a))
  {
    hide Answers, Resume, Paired, Calls;
  }

  lemma MatchedStep(r: Request, s: Run, h: Heard, a: Action)
    requires Sound(r, s) && Listens(r, s, h) && Matched(s)
    ensures Matched(Next(r, s, a))
  {
    NextTells(r, s, h, a);
    SoundHere(r, s);
    hide Sound, Listens, Matched, RunnerMessages.AnswerOk, BudgetSpent, Writes, Answers, Resume;
    if a.Steer? || a.Cancel? || a.AbortRequest? { OthersDoNotAnswer(r, s, a); }
    if !Answers(r, s, a) { MatchedOthers(r, s, a); }
    else if s.pc.Append? { MatchedAppend(r, s, h, a); }
    else if s.pc.RunTools? { MatchedTools(r, s, h, a); }
    else { MatchedQuiet(r, s, h, a); }
  }

  lemma {:induction false} MatchedFrom(r: Request, s: Run, h: Heard, actions: seq<Action>)
    requires Sound(r, s) && Listens(r, s, h) && Matched(s)
    ensures Matched(Exec(r, s, actions))
    decreases |actions|
  {
    if actions != [] {
      hide Sound, Listens, Matched, Next, Hear, Writes;
      SoundStep(r, s, actions[0]);
      NextTells(r, s, h, actions[0]);
      MatchedStep(r, s, h, actions[0]);
      MatchedFrom(r, Next(r, s, actions[0]), Hear(r, s, h, actions[0]), actions[1..]);
    }
  }

  lemma MatchedStart(r: Request)
    ensures Matched(Initial(r))
  {
  }

  /** In the context of every run, each tool call of the model has its result in its place, unless the model was
      told that tools are gone or the run stopped right there; and each tool result answers such a call. */
  lemma EveryCallAnswered(r: Request, actions: seq<Action>)
    ensures Matched(Exec(r, Initial(r), actions))
  {
    MatchedStart(r);
    StoryStart(r);
    hide Sound, Listens, Matched, Initial;
    MatchedFrom(r, Initial(r), SILENCE, actions);
  }

  /** What the tools returned follows the message that called them, in every continuation of the run. */
  lemma ToolResultsFollow(r: Request, before: seq<Action>, outcomes: seq<Tools.Outcome>, after: seq<Action>)
    requires Exec(r, Initial(r), before).pc.RunTools?
    requires var s := Exec(r, Initial(r), before);
      s.finalMessage.Some? && |outcomes| == |Calls(s.finalMessage.value)|
    ensures var s := Exec(r, Initial(r), before);
      var n, calls := |s.context|, Calls(s.finalMessage.value);
      var c := Exec(r, Initial(r), before + [ToolsReturn(outcomes)] + after).context;
      && 1 <= n <= n + |calls| <= |c| && calls != []
      && c[n - 1] == Entry(Assistant(s.finalMessage.value), Model(s.turns))
      && forall i :: 0 <= i < |calls| ==>
        c[n + i] == Entry(ToolResult(calls[i].id, calls[i].name, outcomes[i].output, outcomes[i].isError), ToolOutput)
  {
    hide Exec, Initial, Calls;
    EveryCallAnswered(r, before);
    AfterTools(r, before, outcomes);
    ContextGrows(r, before + [ToolsReturn(outcomes)], after);
    hide Paired;
  }

  lemma AfterTools(r: Request, before: seq<Action>, outcomes: seq<Tools.Outcome>)
    requires Exec(r, Initial(r), before).pc.RunTools?
    requires var s := Exec(r, Initial(r), before);
      s.finalMessage.Some? && |outcomes| == |Calls(s.finalMessage.value)|
    ensures var s := Exec(r, Initial(r), before);
      Exec(r, Initial(r), before + [ToolsReturn(outcomes)]).context ==
      s.context + ToolEntries(Calls(s.finalMessage.value), outcomes)
  {
    hide Exec, Initial, Sound, Listens, HearAll, Next, Calls, ContextTold, LogTold;
    var s := Exec(r, Initial(r), before);
    StoryStart(r);
    StoryFrom(r, Initial(r), SILENCE, before);
    ToolsJoin(r, s, HearAll(r, Initial(r), SILENCE, before), outcomes);
    OneStep(r, s, ToolsReturn(outcomes));
    ExecSplit(r, Initial(r), before, [ToolsReturn(outcomes)]);
  }

  lemma ToolsJoin(r: Request, s: Run, h: Heard, outcomes: seq<Tools.Outcome>)
    requires Sound(r, s) && Listens(r, s, h) && s.pc.RunTools?
    requires s.finalMessage.Some? && |outcomes| == |Calls(s.finalMessage.value)|
    ensures Next(r, s, ToolsReturn(outcomes)).context ==
      s.context + ToolEntries(Calls(s.finalMessage.value), outcomes)
  {
    NextTells(r, s, h, ToolsReturn(outcomes));
    hide Sound, Next, Calls, Resume, ToolEntries;
  }

  // ----- what the model is asked to do over ----------------------------------------------------

  /** The messages of a context that asked the model for something else, in order. */
  function RepairsIn(context: seq<Entry>): seq<Message> {
    if context == [] then []
    else
      var last := context[|context| - 1];
      RepairsIn(context[..|context| - 1]) + (if last.origin.Repair? then [last.message] else [])
  }

  lemma {:induction false} RepairsJoin(context: seq<Entry>, more: seq<Entry>)
    ensures RepairsIn(context + more) == RepairsIn(context) + RepairsIn(more)
    decreases |more|
  {
    if more == [] {
      assert context + more == context;
    } else {
      var n := |more| - 1;
      assert (context + more)[..|context| + n] == context + more[..n];
      RepairsJoin(context, more[..n]);
    }
  }

  lemma {:induction false} AllRepairs(messages: seq<Message>)
    ensures RepairsIn(Entries(messages, Repair)) == messages
    decreases |messages|
  {
    if messages != [] {
      var n := |messages| - 1;
      assert Entries(messages, Repair)[..n] == Entries(messages[..n], Repair);
      AllRepairs(messages[..n]);
      assert messages == messages[..n] + [messages[n]];
    }
  }

  lemma {:induction false} NoRepairs(es: seq<Entry>)
    requires forall i :: 0 <= i < |es| ==> !es[i].origin.Repair?
    ensures RepairsIn(es) == []
    decreases |es|
  {
    if es != [] { NoRepairs(es[..|es| - 1]); }
  }

  /** What an answer asks of the model: what `reviewFinal` and `beforeComplete` gave, and the two prompts. */
  function Asks(r: Request, s: Run, h: Heard, a: Action): seq<Message> {
    if !Answers(r, s, a) then []
    else if a.Reviewed? then a.repair
    else if a.Outstanding? then a.messages
    else if s.pc.Judge? && SaysNothing(h) && !h.emptied then [EMPTY_REPAIR]
    else if s.pc.Append? && Calls(MessageOf(h)) != [] && BudgetSpent(r, s.toolTurns) then [TOOLS_GONE]
    else []
  }

  lemma AsksJoin(r: Request, s: Run, h: Heard, a: Action)
    ensures RepairsIn(Adds(r, s, h, a)) == Asks(r, s, h, a)
  {
    hide Calls, SaysNothing, BudgetSpent, RepairsIn, Entries, ToolEntries;
    var es := Adds(r, s, h, a);
    if !Answers(r, s, a) || a.Throws? { NoRepairs(es); }
    else if s.pc.Review? && a.repair != [] {
      RepairsJoin([Draft(s, h)], Entries(a.repair, Repair));
      NoRepairs([Draft(s, h)]);
      AllRepairs(a.repair);
    } else if s.pc.BeforeComplete? {
      if r.asksBeforeComplete { AllRepairs(a.messages); } else { NoRepairs(es); }
    } else if (s.pc.Judge? || s.pc.Append?) && |es| == 2 {
      DraftAndPrompt(s, h, es[1].message);
    } else {
      PlainAdds(r, s, h, a);
      NoRepairs(es);
    }
  }

  lemma PlainAdds(r: Request, s: Run, h: Heard, a: Action)
    requires Answers(r, s, a) && !a.Throws? && !s.pc.BeforeComplete? && !(s.pc.Review? && a.repair != [])
    requires (s.pc.Judge? || s.pc.Append?) ==> |Adds(r, s, h, a)| != 2
    ensures forall i :: 0 <= i < |Adds(r, s, h, a)| ==> !Adds(r, s, h, a)[i].origin.Repair?
  {
    hide Calls, SaysNothing, BudgetSpent;
  }

  lemma DraftAndPrompt(s: Run, h: Heard, prompt: Message)
    ensures RepairsIn([Draft(s, h), Entry(prompt, Repair)]) == [prompt]
  {
    assert [Draft(s, h), Entry(prompt, Repair)] == [Draft(s, h)] + Entries([prompt], Repair);
    RepairsJoin([Draft(s, h)], Entries([prompt], Repair));
    NoRepairs([Draft(s, h)]);
    AllRepairs([prompt]);
  }

  function AsksTold(r: Request, s: Run, h: Heard, actions: seq<Action>): seq<Message>
    decreases |actions|
  {
    if actions == [] then []
    else Asks(r, s, h, actions[0]) + AsksTold(r, Next(r, s, actions[0]), Hear(r, s, h, actions[0]), actions[1..])
  }

  lemma {:induction false} RepairsFrom(r: Request, s: Run, h: Heard, actions: seq<Action>)
    ensures RepairsIn(ContextTold(r, s, h, actions)) == AsksTold(r, s, h, actions)
    decreases |actions|
  {
    hide RepairsIn, Next, Hear, Adds, Asks;
    if actions == [] { NoRepairs([]); }
    else {
      var s', h' := Next(r, s, actions[0]), Hear(r, s, h, actions[0]);
      RepairsFrom(r, s', h', actions[1..]);
      AsksJoin(r, s, h, actions[0]);
      RepairsJoin(Adds(r, s, h, actions[0]), ContextTold(r, s', h', actions[1..]));
    }
  }

  /** The repair messages in the context of every run are those `reviewFinal` and `beforeComplete` gave and the two
      fixed prompts, in the order they came. */
  lemma RepairsOfRun(r: Request, actions: seq<Action>)
    ensures RepairsIn(Exec(r, Initial(r), actions).context) == AsksTold(r, Initial(r), SILENCE, actions)
  {
    hide Exec, Initial, Listens, HearAll, ContextTold, LogTold, AsksTold, RepairsIn;
    StoryOfRun(r, actions);
    NoRepairs(Entries(r.context, Given));
    RepairsJoin(Entries(r.context, Given), ContextTold(r, Initial(r), SILENCE, actions));
    RepairsFrom(r, Initial(r), SILENCE, actions);
  }
}
