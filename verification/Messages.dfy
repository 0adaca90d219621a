/** Messages, events and text as the agent run loop sees them (packages/core/src/types.ts). */
module Messages {

  datatype Call = Call(id: string, name: string)

  datatype Block =
    | Text(text: string)
    | ToolCall(call: Call)
    | Thinking(thought: string)

  datatype Message =
    | User(text: string)
    | Assistant(content: seq<Block>)
    | ToolResult(callId: string, toolName: string, output: string, isError: bool)

  datatype Status = InProgress | ExecutingTools | Completed | Cancelled | Failed

  datatype Phase = Commentary | Final

  datatype DeltaKind = TextDelta | ReasoningDelta | ToolCallDelta

  /** The events of a run.  A delta also carries the number of the model call it came from. */
  datatype Event =
    | RunStarted
    | RunState(status: Status)
    | SteerAccepted(message: Message)
    | TurnStarted(turn: nat, offered: seq<Message>, tools: bool)
    | ModelStarted(turn: nat)
    | Delta(turn: nat, attempt: nat, kind: DeltaKind)
    | MessageCompleted(turn: nat, message: Message, phase: Phase)
    | FinalRejected(turn: nat, repairs: nat)
    | RunEnded(status: Status)

  /** The tool calls of a message, in order. */
  function Calls(content: seq<Block>): seq<Call> {
    if content == [] then []
    else (if content[0].ToolCall? then [content[0].call] else []) + Calls(content[1..])
  }

  function Texts(content: seq<Block>): seq<string> {
    if content == [] then []
    else (if content[0].Text? then [content[0].text] else []) + Texts(content[1..])
  }

  function Join(texts: seq<string>): string {
    if texts == [] then ""
    else if |texts| == 1 then texts[0]
    else texts[0] + "\n" + Join(texts[1..])
  }

  /** The text blocks of a message, joined by newlines. */
  function TextOf(content: seq<Block>): string { Join(Texts(content)) }

  /** A block is a call, a text or neither. */
  lemma OneBlock(block: Block)
    ensures Calls([block]) == if block.ToolCall? then [block.call] else []
    ensures Texts([block]) == if block.Text? then [block.text] else []
  {
    assert [block][1..] == [];
  }

  /** A message made of two parts has the calls of both, in order. */
  lemma {:induction false} CallsOfParts(front: seq<Block>, back: seq<Block>)
    ensures Calls(front + back) == Calls(front) + Calls(back)
  {
    if front == [] {
      assert front + back == back;
    } else {
      assert (front + back)[1..] == front[1..] + back;
      CallsOfParts(front[1..], back);
      var first := if front[0].ToolCall? then [front[0].call] else [];
      assert Calls(front) == first + Calls(front[1..]) && Calls(front + back) == first + Calls(front[1..] + back);
    }
  }

  lemma {:induction false} TextsOfParts(front: seq<Block>, back: seq<Block>)
    ensures Texts(front + back) == Texts(front) + Texts(back)
  {
    if front == [] {
      assert front + back == back;
    } else {
      assert (front + back)[1..] == front[1..] + back;
      TextsOfParts(front[1..], back);
      var first := if front[0].Text? then [front[0].text] else [];
      assert Texts(front) == first + Texts(front[1..]) && Texts(front + back) == first + Texts(front[1..] + back);
    }
  }

  /** A message made of two parts has the text of both, with a newline between them where both have some. */
  lemma TextOfParts(front: seq<Block>, back: seq<Block>)
    ensures TextOf(front + back) ==
      if Texts(front) == [] then TextOf(back) else if Texts(back) == [] then TextOf(front)
      else TextOf(front) + "\n" + TextOf(back)
  {
    TextsOfParts(front, back);
    hide Texts, Join;
    assert Texts(front) + [] == Texts(front) && [] + Texts(back) == Texts(back);
    if Texts(front) != [] && Texts(back) != [] { JoinParts(Texts(front), Texts(back)); }
  }

  lemma {:induction false} JoinParts(front: seq<string>, back: seq<string>)
    requires front != [] && back != []
    ensures Join(front + back) == Join(front) + "\n" + Join(back)
  {
    assert (front + back)[1..] == front[1..] + back;
    if |front| > 1 { JoinParts(front[1..], back); } else { assert front[1..] + back == back; }
  }

  /** The characters that `String.prototype.trim` removes. */
  predicate IsSpace(c: char) {
    '\t' <= c <= '\r' || c == ' ' || c == '\U{A0}' || c == '\U{1680}' || '\U{2000}' <= c <= '\U{200A}'
    || c == '\U{2028}' || c == '\U{2029}' || c == '\U{202F}' || c == '\U{205F}' || c == '\U{3000}' || c == '\U{FEFF}'
  }

  predicate Blank(text: string) {
    forall i :: 0 <= i < |text| ==> IsSpace(text[i])
  }
}
