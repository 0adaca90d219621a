/** What can be read off a run's event log and context. */
module RunLog {
  import opened Messages
  import opened Runner

  /** The steered messages of a context, in order. */
  function SteeredIn(context: seq<Entry>): seq<Message> {
    if context == [] then []
    else
      var last := context[|context| - 1];
      SteeredIn(context[..|context| - 1]) + (if last.origin.Steered? then [last.message] else [])
  }

  /** The messages announced by `steer.accepted` events, in order. */
  function Announced(log: seq<Event>): seq<Message> {
    if log == [] then []
    else Announced(log[..|log| - 1]) + AnnouncedBy(log[|log| - 1])
  }

  function AnnouncedBy(e: Event): seq<Message> { if e.SteerAccepted? then [e.message] else [] }

  /** How often a turn was ended by an accepted or a refused message. */
  function Ends(log: seq<Event>, turn: nat): nat {
    if log == [] then 0 else Ends(log[..|log| - 1], turn) + (if EndsTurn(log[|log| - 1], turn) then 1 else 0)
  }

  predicate EndsTurn(e: Event, turn: nat) { (e.MessageCompleted? || e.FinalRejected?) && e.turn == turn }

  /** How many messages were accepted as final. */
  function Finals(log: seq<Event>): nat {
    if log == [] then 0 else Finals(log[..|log| - 1]) + (if IsFinal(log[|log| - 1]) then 1 else 0)
  }

  predicate IsFinal(e: Event) { e.MessageCompleted? && e.phase.Final? }

  /** How often tools were executed. */
  function ToolBatches(log: seq<Event>): nat {
    if log == [] then 0
    else ToolBatches(log[..|log| - 1]) + (if log[|log| - 1] == RunState(ExecutingTools) then 1 else 0)
  }

  /** The assistant messages that were completed, in order. */
  function CompletedMessages(log: seq<Event>): seq<Message> {
    if log == [] then []
    else CompletedMessages(log[..|log| - 1]) + CompletedBy(log[|log| - 1])
  }

  function CompletedBy(e: Event): seq<Message> { if e.MessageCompleted? then [e.message] else [] }

  predicate Rejected(log: seq<Event>, turn: nat) {
    exists i :: 0 <= i < |log| && log[i].FinalRejected? && log[i].turn == turn
  }

  predicate CompletedIn(log: seq<Event>, turn: nat) {
    exists i :: 0 <= i < |log| && log[i].MessageCompleted? && log[i].turn == turn
  }

  // ----- one more event or entry -----------------------------------------------------------

  lemma LoggedAnnounced(log: seq<Event>, e: Event)
    ensures Announced(log + [e]) == Announced(log) + AnnouncedBy(e)
  {
    assert (log + [e])[..|log|] == log;
  }

  lemma LoggedEnds(log: seq<Event>, e: Event)
    ensures forall t: nat :: Ends(log + [e], t) == Ends(log, t) + (if EndsTurn(e, t) then 1 else 0)
  {
    assert (log + [e])[..|log|] == log;
  }

  lemma LoggedFinals(log: seq<Event>, e: Event)
    ensures Finals(log + [e]) == Finals(log) + (if IsFinal(e) then 1 else 0)
  {
    assert (log + [e])[..|log|] == log;
  }

  lemma LoggedToolBatches(log: seq<Event>, e: Event)
    ensures ToolBatches(log + [e]) == ToolBatches(log) + (if e == RunState(ExecutingTools) then 1 else 0)
  {
    assert (log + [e])[..|log|] == log;
  }

  lemma LoggedCompleted(log: seq<Event>, e: Event)
    ensures CompletedMessages(log + [e]) == CompletedMessages(log) + CompletedBy(e)
  {
    assert (log + [e])[..|log|] == log;
  }

  lemma LoggedRejected(log: seq<Event>, e: Event)
    ensures forall t: nat :: Rejected(log + [e], t) <==> Rejected(log, t) || (e.FinalRejected? && e.turn == t)
  {
    forall t: nat ensures Rejected(log + [e], t) <==> Rejected(log, t) || (e.FinalRejected? && e.turn == t) {
      if i :| 0 <= i < |log| && log[i].FinalRejected? && log[i].turn == t { assert (log + [e])[i] == log[i]; }
      if e.FinalRejected? && e.turn == t { assert (log + [e])[|log|] == e; }
    }
  }

  lemma LoggedCompletedIn(log: seq<Event>, e: Event)
    ensures forall t: nat :: CompletedIn(log + [e], t) <==> CompletedIn(log, t) || (e.MessageCompleted? && e.turn == t)
  {
    forall t: nat ensures CompletedIn(log + [e], t) <==> CompletedIn(log, t) || (e.MessageCompleted? && e.turn == t) {
      if i :| 0 <= i < |log| && log[i].MessageCompleted? && log[i].turn == t { assert (log + [e])[i] == log[i]; }
      if e.MessageCompleted? && e.turn == t { assert (log + [e])[|log|] == e; }
    }
  }

  lemma Grown(context: seq<Entry>, e: Entry)
    ensures SteeredIn(context + [e]) == SteeredIn(context) + (if e.origin.Steered? then [e.message] else [])
  {
    assert (context + [e])[..|context|] == context;
  }

  lemma {:induction false} OthersNotSteered(context: seq<Entry>, es: seq<Entry>)
    requires forall i :: 0 <= i < |es| ==> !es[i].origin.Steered?
    ensures SteeredIn(context + es) == SteeredIn(context)
  {
    if es == [] {
      assert context + es == context;
    } else {
      var n := |es| - 1;
      OthersNotSteered(context, es[..n]);
      assert (context + es)[..|context| + n] == context + es[..n];
      assert (context + es)[|context| + n] == es[n];
    }
  }
}
