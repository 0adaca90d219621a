/** The steering queue of a run (packages/core/src/control.ts). */
module Control {
  import opened Messages

  datatype Control = Control(queue: seq<Message>, accepting: bool, cancelled: bool)

  /** Whether `steer` takes a message rather than throwing. */
  predicate Accepts(c: Control) { !c.cancelled && c.accepting }

  class AgentRunControl {
    var steering: seq<Message>
    var acceptingSteering: bool
    var cancelled: bool

    function View(): Control reads this { Control(steering, acceptingSteering, cancelled) }

    constructor ()
      ensures View() == Control([], true, false)
    {
      steering, acceptingSteering, cancelled := [], true, false;
    }

    method Cancel()
      modifies this
      ensures View() == old(View()).(cancelled := true)
    {
      cancelled := true;
    }

    /** A refused message leaves the queue as it was. */
    method Steer(message: Message) returns (accepted: bool)
      modifies this
      ensures accepted <==> !old(cancelled) && old(acceptingSteering)
      ensures View() == if accepted then old(View()).(queue := old(steering) + [message]) else old(View())
    {
      if cancelled { return false; }
      if !acceptingSteering { return false; }
      steering := steering + [message];
      return true;
    }

    method DrainSteering() returns (drained: seq<Message>)
      modifies this`steering
      ensures drained == old(steering) && View() == old(View()).(queue := [])
    {
      drained := steering;
      steering := [];
    }

    /** After `true` nothing is queued and nothing ever will be; `false` changes nothing. */
    method SealSteeringIfEmpty() returns (sealed: bool)
      modifies this`acceptingSteering
      ensures sealed <==> old(steering) == []
      ensures View() == if sealed then Control([], false, old(cancelled)) else old(View())
      ensures sealed ==> !Accepts(View())
    {
      if |steering| != 0 { return false; }
      acceptingSteering := false;
      return true;
    }
  }
}
