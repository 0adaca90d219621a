/** Two runs that are stopped where a promise stops too. */
module RunnerStops {
  import opened Wrappers
  import opened Messages
  import opened Runner
  import opened RunLog
  import opened RunnerMessages
  import opened RunnerKept

  lemma Step(r: Request, s: Run, a: Action, rest: seq<Action>)
    ensures Exec(r, s, [a] + rest) == Exec(r, Next(r, s, a), rest)
    ensures !Next(r, s, a).pc.Ended? ==> StoppedAt(r, s, [a] + rest) == StoppedAt(r, Next(r, s, a), rest)
    ensures Next(r, s, a).pc.Ended? ==> StoppedAt(r, s, [a] + rest) == s.pc
  {
    assert ([a] + rest)[1..] == rest;
  }

  /** A run that asks nobody, up to its first stream. */
  ghost predicate FirstStream(r: Request, s: Run) {
    && s.pc.Streaming? && s.attempts == [1] && s.waited == [0] && s.finalMessage.None? && s.failure.None?
    && s.turns == 1 && s.context == Entries(r.context, Given) && s.draining == []
    && s.control.accepting && !s.control.cancelled && s.control.queue == [] && !s.requestAborted
  }

  const SIX_STEPS: seq<Action> := [Go, Go, Go, Go, Go, Go]

  lemma ToFirstStream(r: Request) returns (s: Run)
    requires !r.transforms && r.maxTurns.None?
    ensures FirstStream(r, s)
    ensures forall rest ::
      && Exec(r, Initial(r), SIX_STEPS + rest) == Exec(r, s, rest)
      && StoppedAt(r, Initial(r), SIX_STEPS + rest) == StoppedAt(r, s, rest)
  {
    hide Logs, KeepsTurn, KeepsBudget, MessagesOf, Exec, StoppedAt;
    var s0 := Initial(r);
    var s1 := Next(r, s0, Go);
    var s2 := Next(r, s1, Go);
    var s3 := Next(r, s2, Go);
    var s4 := Next(r, s3, Go);
    var s5 := Next(r, s4, Go);
    s := Next(r, s5, Go);
    assert s2.pc.Top? && s3.pc.TopDrain? && s4.pc.Clone? && s5.pc.Attempt?;
    forall rest
      ensures Exec(r, Initial(r), SIX_STEPS + rest) == Exec(r, s, rest)
      ensures StoppedAt(r, Initial(r), SIX_STEPS + rest) == StoppedAt(r, s, rest)
    {
      hide Next, Initial;
      assert SIX_STEPS + rest == [Go] + ([Go] + ([Go] + ([Go] + ([Go] + ([Go] + rest)))));
      Step(r, s0, Go, [Go] + ([Go] + ([Go] + ([Go] + ([Go] + rest)))));
      Step(r, s1, Go, [Go] + ([Go] + ([Go] + ([Go] + rest))));
      Step(r, s2, Go, [Go] + ([Go] + ([Go] + rest)));
      Step(r, s3, Go, [Go] + ([Go] + rest));
      Step(r, s4, Go, [Go] + rest);
      Step(r, s5, Go, rest);
    }
  }

  // ----- an answer that is not stored ------------------------------------------------------------

  const ANSWER: seq<Block> := [Text("done")]

  const ASKING := Request([], None, None, false, false, true)

  const LOST: seq<Action> := [Stream(Done(ANSWER)), StreamEnds, Go, Go, Throws(false)]

  lemma AnswerIsText()
    ensures Calls(ANSWER) == [] && TextOf(ANSWER) == "done" && !Blank("done")
  {
    assert ANSWER[1..] == [] && !IsSpace("done"[0]);
  }

  lemma ToJudge(s: Run) returns (t: Run)
    requires FirstStream(ASKING, s)
    ensures t == Next(ASKING, Next(ASKING, s, Stream(Done(ANSWER))), StreamEnds)
      && !Next(ASKING, s, Stream(Done(ANSWER))).pc.Ended?
    ensures t.pc.Judge? && t.finalMessage == Some(ANSWER) && t.turns == 1 && t.context == [] && t.control.queue == []
    ensures !t.control.cancelled && !t.requestAborted
  {
    hide Logs, KeepsTurn, KeepsBudget;
    t := Next(ASKING, Next(ASKING, s, Stream(Done(ANSWER))), StreamEnds);
  }

  lemma ToStop(s: Run) returns (t: Run)
    requires s.pc.Judge? && s.finalMessage == Some(ANSWER) && s.turns == 1 && s.context == [] && s.control.queue == []
    requires !s.control.cancelled && !s.requestAborted
    ensures t == Next(ASKING, Next(ASKING, s, Go), Go) && !Next(ASKING, s, Go).pc.Ended? && t.pc.BeforeComplete?
    ensures Next(ASKING, t, Throws(false)).pc == Ended(Failed)
    ensures Next(ASKING, t, Throws(false)).context == [Entry(Assistant(ANSWER), Model(1))]
  {
    AnswerIsText();
    hide Logs, KeepsTurn, KeepsBudget, Calls, TextOf, Blank;
    var s1 := Next(ASKING, s, Go);
    assert s1 == s.(pc := Append);
    t := Next(ASKING, s1, Go);
  }

  lemma ToBeforeComplete(s: Run)
    requires FirstStream(ASKING, s)
    ensures var t := Exec(ASKING, s, LOST);
      t.pc == Ended(Failed) && t.context == [Entry(Assistant(ANSWER), Model(1))]
        && StoppedAt(ASKING, s, LOST).BeforeComplete?
  {
    var s2 := ToJudge(s);
    var s4 := ToStop(s2);
    hide Next, Exec, StoppedAt;
    var s1, s3, s5 := Next(ASKING, s, Stream(Done(ANSWER))), Next(ASKING, s2, Go), Next(ASKING, s4, Throws(false));
    Step(ASKING, s, Stream(Done(ANSWER)), [StreamEnds] + ([Go] + ([Go] + ([Throws(false)] + []))));
    Step(ASKING, s1, StreamEnds, [Go] + ([Go] + ([Throws(false)] + [])));
    Step(ASKING, s2, Go, [Go] + ([Throws(false)] + []));
    Step(ASKING, s3, Go, [Throws(false)] + []);
    Step(ASKING, s4, Throws(false), []);
    assert LOST == [Stream(Done(ANSWER))] + ([StreamEnds] + ([Go] + ([Go] + ([Throws(false)] + []))));
    Nothing(ASKING, s5);
  }

  /** What becomes of a single message that is neither kept nor refused. */
  lemma OneMessage(context: seq<Entry>, log: seq<Event>, m: Message)
    requires context == [Entry(m, Model(1))] && Ends(log, 1) <= 1 && Kept(context, log) != NotRejected(context, log)
    ensures Kept(context, log) == [] && NotRejected(context, log) == [m]
  {
    NoEndNotCompleted(log, 1);
    assert context[..0] == [];
  }

  lemma Nothing(r: Request, s: Run)
    ensures Exec(r, s, []) == s
  {
  }

  /**
   * A run whose `beforeComplete` throws: it has failed with the answer in its context, neither refused nor
   * completed, so that no row of it is stored.
   */
  lemma AnswerCanBeLost()
    ensures var t := Exec(ASKING, Initial(ASKING), SIX_STEPS + LOST);
      && t.pc == Ended(Failed)
      && NotRejected(t.context, t.log) == [Assistant(ANSWER)]
      && CompletedMessages(t.log) == []
  {
    var s := ToFirstStream(ASKING);
    ToBeforeComplete(s);
    var t := Exec(ASKING, Initial(ASKING), SIX_STEPS + LOST);
    hide *;
    StoredAtTheEnd(ASKING, SIX_STEPS + LOST);
    StoredMessages(ASKING, SIX_STEPS + LOST);
    TurnsEndOnce(ASKING, SIX_STEPS + LOST);
    OneMessage(t.context, t.log, Assistant(ANSWER));
  }

  // ----- steering that is not read ---------------------------------------------------------------

  const QUIET := Request([], None, None, false, false, false)

  /** A run that failed on its first stream still takes a message. */
  lemma SteeringCanBeLost(m: Message)
    ensures var t := Exec(QUIET, Initial(QUIET), SIX_STEPS + [StreamEnds]);
      && t.pc == Ended(Failed)
      && Next(QUIET, t, Steer(m)).accepted == t.accepted + [m] && Next(QUIET, t, Steer(m)).pc == Ended(Failed)
  {
    var s := ToFirstStream(QUIET);
    hide Logs, KeepsTurn, KeepsBudget;
    assert [StreamEnds] == [StreamEnds] + [];
    Step(QUIET, s, StreamEnds, []);
  }
}
