/** What the host stores of a run's events (packages/agent/src/runtime.ts, `#persistEvent`). */
module Persistence {
  import opened Wrappers
  import opened Messages
  import opened Runner
  import opened RunLog
  import opened RunnerMessages
  import opened RunnerKept
  import opened RunnerStops

  /** A stored assistant message. */
  datatype Row = Row(conversation: string, message: Message, phase: Messages.Phase)

  /** Text and tool-call fragments are not stored; reasoning fragments are. */
  predicate Durable(e: Event) { !(e.Delta? && (e.kind.TextDelta? || e.kind.ToolCallDelta?)) }

  /** `!conversationId`: an empty id is none. */
  predicate InConversation(conversation: Option<string>) { conversation.Some? && conversation.value != "" }

  class Storage {
    var runEvents: seq<Event>
    var rows: seq<Row>

    constructor ()
      ensures runEvents == [] && rows == []
    {
      runEvents, rows := [], [];
    }

    method PersistEvent(event: Event, conversation: Option<string>)
      modifies this
      ensures runEvents == old(runEvents) + (if Durable(event) then [event] else [])
      ensures rows == old(rows) + RowsOf(event, conversation)
    {
      if event.Delta? && (event.kind.TextDelta? || event.kind.ToolCallDelta?) { return; }
      runEvents := runEvents + [event];
      if !InConversation(conversation) || !event.MessageCompleted? { return; }
      rows := rows + [Row(conversation.value, event.message, event.phase)];
    }

    /** A run's events are persisted one by one, in the order it emits them. */
    method PersistRun(log: seq<Event>, conversation: Option<string>)
      modifies this
      ensures runEvents == old(runEvents) + Stored(log)
      ensures rows == old(rows) + Rows(log, conversation)
    {
      var n := 0;
      while n < |log|
        invariant n <= |log|
        invariant runEvents == old(runEvents) + Stored(log[..n])
        invariant rows == old(rows) + Rows(log[..n], conversation)
      {
        assert log[..n + 1][..n] == log[..n];
        PersistEvent(log[n], conversation);
        n := n + 1;
      }
      assert log[..n] == log;
    }
  }

  /** The events of a log that are stored. */
  function Stored(log: seq<Event>): seq<Event> {
    if log == [] then []
    else Stored(log[..|log| - 1]) + (if Durable(log[|log| - 1]) then [log[|log| - 1]] else [])
  }

  function RowsOf(e: Event, conversation: Option<string>): seq<Row> {
    if InConversation(conversation) && e.MessageCompleted? then [Row(conversation.value, e.message, e.phase)] else []
  }

  /** The rows after every event of a log has been persisted in order. */
  function Rows(log: seq<Event>, conversation: Option<string>): seq<Row> {
    if log == [] then [] else Rows(log[..|log| - 1], conversation) + RowsOf(log[|log| - 1], conversation)
  }

  function MessagesIn(rows: seq<Row>): seq<Message> {
    seq(|rows|, i requires 0 <= i < |rows| => rows[i].message)
  }

  function FinalRows(rows: seq<Row>): nat {
    if rows == [] then 0 else FinalRows(rows[..|rows| - 1]) + (if rows[|rows| - 1].phase.Final? then 1 else 0)
  }

  lemma {:induction false} RowsFollowLog(log: seq<Event>, conversation: Option<string>)
    ensures InConversation(conversation) ==> MessagesIn(Rows(log, conversation)) == CompletedMessages(log)
    ensures InConversation(conversation) ==> FinalRows(Rows(log, conversation)) == Finals(log)
    ensures !InConversation(conversation) ==> Rows(log, conversation) == []
  {
    if log != [] {
      var n := |log| - 1;
      RowsFollowLog(log[..n], conversation);
      var before := Rows(log[..n], conversation);
      var now := Rows(log, conversation);
      if InConversation(conversation) && log[n].MessageCompleted? { assert now[..|now| - 1] == before; }
        else { assert now == before; }
    }
  }

  /** Every row carries the conversation of its run and the message and phase of a completed message of the log;
      of the events all are stored but the fragments of texts and tool calls. */
  lemma {:induction false} RowsBelong(log: seq<Event>, conversation: Option<string>)
    ensures forall row :: row in Rows(log, conversation) ==>
      && conversation == Some(row.conversation) && row.conversation != ""
      && exists turn :: MessageCompleted(turn, row.message, row.phase) in log
    ensures forall e :: e in Stored(log) <==> e in log && !(e.Delta? && e.kind != ReasoningDelta)
  {
    if log != [] {
      var n := |log| - 1;
      RowsBelong(log[..n], conversation);
      assert log == log[..n] + [log[n]];
      if InConversation(conversation) && log[n].MessageCompleted? {
        assert MessageCompleted(log[n].turn, log[n].message, log[n].phase) in log;
      }
    }
  }

  /** What is stored of the later events comes after what is stored of the earlier ones. */
  lemma {:induction false} StoredInOrder(log: seq<Event>, more: seq<Event>)
    ensures Stored(log + more) == Stored(log) + Stored(more)
    decreases |more|
  {
    hide Durable;
    if more == [] {
      assert log + more == log;
    } else {
      var n := |more| - 1;
      assert (log + more)[..|log| + n] == log + more[..n];
      StoredInOrder(log, more[..n]);
      var last := if Durable(more[n]) then [more[n]] else [];
      assert Stored(log + more) == Stored(log + more[..n]) + last && Stored(more) == Stored(more[..n]) + last;
    }
  }

  lemma {:induction false} RowsInOrder(log: seq<Event>, more: seq<Event>, conversation: Option<string>)
    ensures Rows(log + more, conversation) == Rows(log, conversation) + Rows(more, conversation)
    decreases |more|
  {
    hide RowsOf;
    if more == [] {
      assert log + more == log;
    } else {
      var n := |more| - 1;
      assert (log + more)[..|log| + n] == log + more[..n];
      RowsInOrder(log, more[..n], conversation);
    }
  }

  /**
   * A run outside any conversation stores no rows.  The rows of a top-level run are, at every await, the
   * model's messages whose turn accepted them, and one of them is final if and only if the run has completed.
   * Of a run that is over, they are the model's messages in its context without the refused drafts, if and only
   * if it was not stopped while `beforeComplete` was being asked.
   */
  lemma RowsOfRun(r: Request, actions: seq<Action>, conversation: Option<string>)
    ensures var s := Exec(r, Initial(r), actions);
      !InConversation(conversation) ==> Rows(s.log, conversation) == []
    ensures var s := Exec(r, Initial(r), actions);
      InConversation(conversation) ==>
        && MessagesIn(Rows(s.log, conversation)) == Kept(s.context, s.log)
        && FinalRows(Rows(s.log, conversation)) == (if s.pc == Ended(Completed) then 1 else 0)
        && (MessagesIn(Rows(s.log, conversation)) == NotRejected(s.context, s.log) <==>
            if s.pc.Ended? then !StoppedAt(r, Initial(r), actions).BeforeComplete?
            else !s.pc.BeforeComplete? && !s.pc.Seal?)
  {
    hide *;
    RowsFollowLog(Exec(r, Initial(r), actions).log, conversation);
    StoredMessages(r, actions);
    TurnsEndOnce(r, actions);
    if Exec(r, Initial(r), actions).pc.Ended? { StoredAtTheEnd(r, actions); }
  }

  /** An answer that is in the context of a failed run, not refused, and in no row of any conversation. */
  lemma RowCanBeMissing(conversation: Option<string>)
    ensures var t := Exec(ASKING, Initial(ASKING), SIX_STEPS + LOST);
      && t.pc == Ended(Failed)
      && NotRejected(t.context, t.log) == [Assistant(ANSWER)]
      && Rows(t.log, conversation) == []
  {
    hide *;
    AnswerCanBeLost();
    var t := Exec(ASKING, Initial(ASKING), SIX_STEPS + LOST);
    RowsFollowLog(t.log, conversation);
    if InConversation(conversation) { NoMessages(Rows(t.log, conversation)); }
  }

  lemma NoMessages(rows: seq<Row>)
    requires MessagesIn(rows) == []
    ensures rows == []
  {
    assert |MessagesIn(rows)| == |rows|;
  }
}
