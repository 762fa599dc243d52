/** The main task's message queue (mainboard/main/hardware.h, mainboard/main/hardware.c). */
module Messages {
  import opened PadData

  datatype Message =
    | Ps5(frame: Frame)
    | StopMain
    | ReplayEnd
    | ObstructionDetected
    | ObstructionCleared
    | Collision

  const QUEUE_SIZE := 20

  /** Sending never waits: a message for a full queue is lost. */
  function Send(queue: seq<Message>, m: Message): seq<Message> {
    if |queue| < QUEUE_SIZE then queue + [m] else queue
  }

  class MessageQueue {
    var messages: seq<Message>

    constructor ()
      ensures messages == []
    {
      messages := [];
    }

    method Put(m: Message)
      modifies this
      ensures messages == Send(old(messages), m) == old(messages) + if |old(messages)| < 20 then [m] else []
    {
      if |messages| < QUEUE_SIZE {
        messages := messages + [m];
      }
    }

    method Take() returns (m: Message)
      requires messages != []
      modifies this
      ensures [m] + messages == old(messages)
    {
      m := messages[0];
      messages := messages[1..];
    }
  }
}
