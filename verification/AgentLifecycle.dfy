/** The lifecycle of one run (packages/agent/src/agent.ts): it is opened, run, closed, and a failure is recorded. */
module AgentLifecycle {
  import opened Std
  import opened Tokens
  import opened AgentLog
  import opened AgentState
  import opened AgentLoop
  import opened AgentRunFacts
  import opened MessageQueue

  datatype Settlement = AlreadyActive | RanThrough | Failed(failure: AgentMessage) | StillOpen

  /** Whether the low-level loop accepts to continue a transcript without a new message. */
  predicate Continuable(messages: Transcript) {
    messages != [] && messages[|messages| - 1].role != AssistantRole
  }

  /**
   * Runs the loop on a fresh context; a transcript that cannot be continued fails at once. The agent's transcript grows
   * by the finished messages, and its queues hand out what the run received of them and what a poll lost to an abort.
   */
  method Execute(agent: Agent, lang: Language, prompts: Transcript, continuing: bool, config: Config,
                 degeneracyGuard: bool, recoverTextToolCalls: bool, skipInitialSteeringPoll: bool)
    returns (outcome: Outcome, aborted: bool, ghost log: Log)
    requires agent.pendingToolCalls == {} && agent.QueuesValid()
    modifies agent`messages, agent`streamingMessage, agent`errorMessage, agent`pendingToolCalls
    modifies agent.steeringQueue, agent.followUpQueue
    ensures agent.QueuesValid()
    ensures agent.steeringQueue.Handed()
         == old(agent.steeringQueue.Handed()) + (Obtained(Steering, log) + Lost(Steering, log))
    ensures agent.followUpQueue.Handed()
         == old(agent.followUpQueue.Handed()) + (Obtained(FollowUp, log) + Lost(FollowUp, log))
    ensures Legal(old(agent.messages), prompts, config, log)
    ensures agent.messages == old(agent.messages) + FinishedMessages(log)
    ensures outcome == RunEnded ==> Finished(Monitor(old(agent.messages), prompts, config, log).value)
    ensures continuing && !Continuable(old(agent.messages)) ==> outcome == RunThrew && log == []
  {
    if continuing && !Continuable(agent.messages) {
      return RunThrew, false, [];
    }
    hide Monitor, Ledger, Contents, AgentRun.Inv;
    ghost var base := agent.messages;
    var run := new AgentRun(agent, lang, prompts, config, degeneracyGuard, recoverTextToolCalls,
                            skipInitialSteeringPoll);
    outcome := run.RunAgentLoop();
    aborted, log := run.aborted, run.log;
    run.IsTold();
    FinishedIsFinished(base, prompts, config, log);
    TakenIsObtainedOrLost(base, prompts, config, log, Steering);
    TakenIsObtainedOrLost(base, prompts, config, log, FollowUp);
  }

  /**
   * Runs `prompts`, or continues the transcript when there are none. However the run comes back, the agent is
   * idle again, with nothing pending, and its transcript has grown by exactly the messages the run finished and,
   * after a failure, one aborted or failed message more. `log` is the history of the run, and `failureEvents` are
   * the events by which a failure is recorded after it.
   */
  method RunWithLifecycle(agent: Agent, lang: Language, prompts: Transcript, continuing: bool, config: Config,
                          degeneracyGuard: bool, recoverTextToolCalls: bool, skipInitialSteeringPoll: bool)
    returns (settlement: Settlement, ghost log: Log, ghost failureEvents: seq<AgentEvent>)
    requires continuing ==> prompts == []
    requires !agent.activeRun ==> agent.pendingToolCalls == {}
    requires agent.QueuesValid()
    modifies agent, agent.steeringQueue, agent.followUpQueue
    ensures agent.QueuesValid()
    ensures agent.steeringQueue.Handed()
         == old(agent.steeringQueue.Handed()) + (Obtained(Steering, log) + Lost(Steering, log))
    ensures agent.followUpQueue.Handed()
         == old(agent.followUpQueue.Handed()) + (Obtained(FollowUp, log) + Lost(FollowUp, log))
    ensures settlement == AlreadyActive <==> old(agent.activeRun)
    ensures settlement == AlreadyActive ==> unchanged(agent)
    ensures settlement != AlreadyActive ==> Legal(old(agent.messages), prompts, config, log)
    ensures settlement == RanThrough || settlement.Failed?
            ==> !agent.activeRun && !agent.isStreaming && agent.streamingMessage == None
                && agent.pendingToolCalls == {}
    ensures settlement == RanThrough
            ==> Finished(Monitor(old(agent.messages), prompts, config, log).value)
                && agent.messages == old(agent.messages) + FinishedMessages(log)
    ensures settlement.Failed?
            ==> agent.messages == old(agent.messages) + FinishedMessages(log) + [settlement.failure]
                && settlement.failure.role == AssistantRole
                && (settlement.failure.stopReason == StopAborted || settlement.failure.stopReason == StopError)
                && agent.errorMessage == settlement.failure.errorMessage
    ensures failureEvents == if settlement.Failed? then FailureEvents(settlement.failure) else []
    ensures continuing && !old(agent.activeRun)
            && (old(agent.messages) == [] || old(agent.messages[|agent.messages| - 1].role) == AssistantRole)
            ==> settlement.Failed? && log == []
  {
    hide Legal, FinishedMessages, Ledger, Contents, Finished;
    log, failureEvents := [], [];
    if agent.activeRun {
      return AlreadyActive, [], [];
    }
    agent.activeRun, agent.isStreaming, agent.streamingMessage, agent.errorMessage := true, true, None, "";
    var outcome, aborted;
    outcome, aborted, log := Execute(agent, lang, prompts, continuing, config, degeneracyGuard,
                                     recoverTextToolCalls, skipInitialSteeringPoll);
    if outcome == StillRunning {
      return StillOpen, log, [];
    }
    settlement := RanThrough;
    if outcome == RunThrew {
      var failure;
      failure, failureEvents := HandleRunFailure(agent, aborted);
      settlement := Failed(failure);
    }
    agent.FinishRun();
  }

  lemma {:induction false} HandedOut<T>(arrived: seq<seq<T>>, delivered: seq<nat>, t: nat, m: T)
    requires Below(delivered, |arrived|) && t in delivered && m in arrived[t]
    ensures m in Contents(arrived, delivered)
    decreases |delivered|
  {
    var n := |delivered| - 1;
    if t != delivered[n] {
      assert delivered == delivered[..n] + [delivered[n]];
      HandedOut(arrived, delivered[..n], t, m);
    }
  }

  /**
   * No queued message vanishes: after a run each one that ever arrived is still waiting, was discarded by its host,
   * was handed out before the run, is part of the run's story, or was lost to an abort that won the run's last poll.
   */
  lemma NoMessageVanishes(queue: PendingMessageQueue<AgentMessage>, before: Transcript, source: Source,
                          prompts: Transcript, log: Log, t: nat, m: AgentMessage)
    requires queue.Valid() && queue.Handed() == before + (Obtained(source, log) + Lost(source, log))
    requires t < |queue.arrived| && m in queue.arrived[t]
    ensures t in queue.waiting || t in queue.discarded || m in before || m in Story(prompts, log)
            || m in Lost(source, log)
  {
    if t in queue.delivered {
      HandedOut(queue.arrived, queue.delivered, t, m);
      if m in Obtained(source, log) {
        ObtainedIsTold(source, prompts, log, m);
      }
    }
  }

  /** The events by which a failure is recorded. */
  ghost function FailureEvents(failure: AgentMessage): seq<AgentEvent> {
    [MessageStart(failure), MessageEnd(failure), AgentEnd]
  }

  /** Records the failure as a message of its own. */
  method HandleRunFailure(agent: Agent, aborted: bool) returns (failure: AgentMessage, ghost events: seq<AgentEvent>)
    modifies agent`messages, agent`streamingMessage, agent`errorMessage, agent`pendingToolCalls
    ensures fresh(failure) && failure.role == AssistantRole
    ensures failure.stopReason == if aborted then StopAborted else StopError
    ensures agent.messages == old(agent.messages) + [failure] && agent.errorMessage == failure.errorMessage
    ensures events == FailureEvents(failure) && agent.streamingMessage == None
  {
    var error: string := *;
    failure := new AgentMessage(AssistantRole, if aborted then StopAborted else StopError, [], error);
    agent.errorMessage := failure.errorMessage;
    agent.ProcessEvent(MessageStart(failure));
    agent.ProcessEvent(MessageEnd(failure));
    agent.ProcessEvent(AgentEnd);
    events := [MessageStart(failure), MessageEnd(failure), AgentEnd];
  }
}
