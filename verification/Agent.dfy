/** The agent's own state (packages/agent/src/agent.ts): what it makes of the events of a run. */
module AgentState {
  import opened Std
  import opened AgentLog
  import opened MessageQueue

  /** The calls whose execution has started and not ended. */
  function PendingAfter(pending: set<string>, event: AgentEvent): set<string> {
    match event
    case ToolExecutionStart(_, id) => pending + {id}
    case ToolExecutionEnd(_, id) => pending - {id}
    case _ => pending
  }

  class Agent {
    const steeringQueue: PendingMessageQueue<AgentMessage>
    const followUpQueue: PendingMessageQueue<AgentMessage>
    var messages: Transcript
    var streamingMessage: Option<AgentMessage>
    var errorMessage: string
    var pendingToolCalls: set<string>
    var isStreaming: bool
    var activeRun: bool

    constructor (messages: Transcript, steeringMode: QueueMode, followUpMode: QueueMode)
      ensures this.messages == messages && streamingMessage == None && errorMessage == ""
      ensures pendingToolCalls == {} && !isStreaming && !activeRun
      ensures fresh(steeringQueue) && fresh(followUpQueue) && QueuesValid()
    {
      steeringQueue := new PendingMessageQueue(steeringMode);
      followUpQueue := new PendingMessageQueue(followUpMode);
      this.messages, streamingMessage, errorMessage := messages, None, "";
      pendingToolCalls, isStreaming, activeRun := {}, false, false;
    }

    /** The two queues of the agent, each in order. */
    ghost predicate QueuesValid()
      reads steeringQueue, followUpQueue
    {
      steeringQueue != followUpQueue && steeringQueue.Valid() && followUpQueue.Valid()
    }

    /** Reduces one event into the state. */
    method ProcessEvent(event: AgentEvent)
      modifies this`messages, this`streamingMessage, this`errorMessage, this`pendingToolCalls
      ensures messages == old(messages) + (if event.MessageEnd? then [event.message] else [])
      ensures streamingMessage == (if event.MessageStart? || event.MessageUpdate? then Some(event.message)
                                   else if event.MessageEnd? || event.AgentEnd? then None
                                   else old(streamingMessage))
      ensures errorMessage == (if event.TurnEnd? && event.message.role == AssistantRole
                                  && event.message.errorMessage != ""
                               then event.message.errorMessage else old(errorMessage))
      ensures pendingToolCalls == PendingAfter(old(pendingToolCalls), event)
    {
      match event
      case MessageStart(m) => streamingMessage := Some(m);
      case MessageUpdate(m) => streamingMessage := Some(m);
      case MessageEnd(m) =>
        streamingMessage := None;
        messages := messages + [m];
      case ToolExecutionStart(_, id) => pendingToolCalls := pendingToolCalls + {id};
      case ToolExecutionEnd(_, id) => pendingToolCalls := pendingToolCalls - {id};
      case TurnEnd(m, _) =>
        if m.role == AssistantRole && m.errorMessage != "" {
          errorMessage := m.errorMessage;
        }
      case AgentEnd => streamingMessage := None;
      case _ =>
    }

    method FinishRun()
      modifies this`streamingMessage, this`pendingToolCalls, this`isStreaming, this`activeRun
      ensures streamingMessage == None && pendingToolCalls == {} && !isStreaming && !activeRun
    {
      isStreaming, streamingMessage, pendingToolCalls, activeRun := false, None, {}, false;
    }
  }
}
