/**
 * The agent run of packages/agent/src/agent-loop.ts. The environment (provider, tools, hooks, the queues' host and the
 * user's abort) does anything at every await; every emission and every call of the provider or of a message source is
 * written to a ghost history, and each write must be one the monitor of AgentLog allows.
 */
module AgentLoop {
  import opened Std
  import opened Tokens
  import opened AgentLog
  import opened AgentState
  import MessageQueue
  import opened ReasoningLoop
  import opened Degeneracy

  /** How a run came back: to its end, by an exception, or not yet (its environment has not answered further). */
  datatype Outcome = RunEnded | RunThrew | StillRunning

  /** A poll or hook awaited against the abort signal. */
  datatype PostTurn<T> = Settled(value: T) | Rejected | Threw | Skipped

  datatype ProviderEvent =
    | StartEvent
    | TextDelta(block: int, delta: Text)
    | ThinkingDelta(block: int, delta: Text)
    | ToolCallStart
    | OtherUpdate
    | TerminalEvent

  datatype StreamResult = Streamed(message: AgentMessage, decision: Option<Decision>) | StreamFailed

  datatype Next = Return(outcome: Outcome) | Continue(pending: Transcript, hasMoreToolCalls: bool)

  /** What the sources held when the agent would otherwise stop; Over when the loop was ended, or left, instead. */
  datatype More = Messages(messages: Transcript) | Nothing | Over(outcome: Outcome)

  datatype Task = Executing | Settling | Done

  function Rank(tasks: seq<Task>): (r: nat)
    ensures r > 0 <==> exists k :: 0 <= k < |tasks| && tasks[k] != Done
  {
    if tasks == [] then 0
    else
      var r := Rank(tasks[..|tasks| - 1]);
      assert forall k :: 0 <= k < |tasks| ==> tasks[k] == tasks[|tasks| - 1] || tasks[k] == tasks[..|tasks| - 1][k];
      r + match tasks[|tasks| - 1] case Executing => 2 case Settling => 1 case Done => 0
  }

  function OpenIds(calls: seq<CallState>): set<string> {
    set k | 0 <= k < |calls| && calls[k].open :: calls[k].id
  }

  lemma OpenIdsAfter(calls: seq<CallState>, pending: set<string>, event: AgentEvent)
    requires pending <= OpenIds(calls)
    ensures event.ToolExecutionStart? ==> pending + {event.id} <= OpenIds(calls + [CallState(event.id, true)])
    ensures event.ToolExecutionEnd? && event.call < |calls| && calls[event.call].id == event.id
            ==> pending - {event.id} <= OpenIds(calls[event.call := CallState(event.id, false)])
  {
    if event.ToolExecutionStart? {
      var calls' := calls + [CallState(event.id, true)];
      forall id | id in pending + {event.id} ensures id in OpenIds(calls') {
        if id in pending {
          var k :| 0 <= k < |calls| && calls[k].open && calls[k].id == id;
          assert calls'[k].open;
        } else {
          assert calls'[|calls|].open;
        }
      }
    } else if event.ToolExecutionEnd? && event.call < |calls| && calls[event.call].id == event.id {
      var calls' := calls[event.call := CallState(event.id, false)];
      forall id | id in pending - {event.id} ensures id in OpenIds(calls') {
        var k :| 0 <= k < |calls| && calls[k].open && calls[k].id == id;
        assert calls'[k].open;
      }
    }
  }

  /** Between turns no tool call is pending, and within one only calls that are open. */
  ghost predicate PendingFits(mon: Mon, pending: set<string>) {
    pending <= OpenIds(mon.turn.calls) && (mon.phase == BetweenTurns || mon.phase == NotStarted ==> pending == {})
  }

  /** The agent's state after an event is again what the monitor's state makes of it. */
  lemma AgentAfter(base: Transcript, config: Config, mon: Mon, event: AgentEvent, view: View, pending: set<string>)
    requires EventOk(base, config, mon, event, view) && PendingFits(mon, pending)
    ensures AfterEvent(mon, event).finished == mon.finished + (if event.MessageEnd? then [event.message] else [])
    ensures PendingFits(AfterEvent(mon, event), PendingAfter(pending, event))
  {
    OpenIdsAfter(mon.turn.calls, pending, event);
  }

  class AgentRun {
    const agent: Agent
    const lang: Language
    /** The transcript before the run, and the messages that start it. */
    const base: Transcript
    const prompts: Transcript
    const config: Config
    const degeneracyGuard: bool
    const recoverTextToolCalls: bool
    const skipInitialSteeringPoll: bool
    /** What the agent's queues had handed out before the run. */
    ghost const steeringBefore: Transcript
    ghost const followUpBefore: Transcript

    var context: Transcript
    var newMessages: Transcript
    var aborted: bool
    ghost var log: Log
    ghost var mon: Mon

    constructor (agent: Agent, lang: Language, prompts: Transcript, config: Config, degeneracyGuard: bool,
                 recoverTextToolCalls: bool, skipInitialSteeringPoll: bool)
      requires agent.pendingToolCalls == {} && agent.QueuesValid()
      ensures this.agent == agent && this.prompts == prompts && base == agent.messages
      ensures Inv() && log == [] && mon == Start(prompts)
      ensures context == base + prompts && newMessages == prompts
      ensures this.config == config
      ensures steeringBefore == agent.steeringQueue.Handed() && followUpBefore == agent.followUpQueue.Handed()
    {
      this.skipInitialSteeringPoll := skipInitialSteeringPoll;
      steeringBefore, followUpBefore := agent.steeringQueue.Handed(), agent.followUpQueue.Handed();
      this.agent, this.lang, this.prompts, this.base := agent, lang, prompts, agent.messages;
      this.config, this.degeneracyGuard, this.recoverTextToolCalls := config, degeneracyGuard, recoverTextToolCalls;
      context, newMessages, aborted := agent.messages + prompts, prompts, false;
      log, mon := [], Start(prompts);
    }

    /** The history is legal so far, and the agent's state is what the finished messages and open calls make of it. */
    ghost predicate Told()
      reads `log, `mon, agent`messages, agent`pendingToolCalls
    {
      && Monitor(base, prompts, config, log) == Some(mon)
      && agent.messages == base + mon.finished
      && PendingFits(mon, agent.pendingToolCalls)
    }

    /**
     * Since the run began, the agent's queues have handed out what the history took from them, and then `steering`
     * and `followUp`.
     */
    ghost predicate BooksWith(steering: Transcript, followUp: Transcript)
      reads `log, agent.steeringQueue, agent.followUpQueue
    {
      && agent.QueuesValid()
      && agent.steeringQueue.Handed() == steeringBefore + Taken(Steering, log) + steering
      && agent.followUpQueue.Handed() == followUpBefore + Taken(FollowUp, log) + followUp
    }

    ghost predicate Inv()
      reads `log, `mon, agent`messages, agent`pendingToolCalls, agent.steeringQueue, agent.followUpQueue
    {
      Told() && BooksWith([], [])
    }

    /** The loop's own two transcripts hold exactly the finished messages. */
    ghost predicate InStep()
      reads this
    {
      context == base + mon.finished && newMessages == mon.finished
    }

    ghost function CurrentView(): View
      reads this, agent, agent.steeringQueue, agent.followUpQueue
    {
      View(context, newMessages, agent.messages, agent.pendingToolCalls, aborted)
    }

    // ----------------------------------------------------------------------------------------
    // History and environment
    // ----------------------------------------------------------------------------------------

    ghost method Write(entry: Entry)
      requires Monitor(base, prompts, config, log) == Some(mon)
      requires EntryOk(base, config, mon, entry)
      modifies this`log, this`mon
      ensures Monitor(base, prompts, config, log) == Some(mon)
      ensures mon == After(base, config, old(mon), entry) && log == old(log) + [entry]
      ensures old(BooksWith(Takes(Steering, entry), Takes(FollowUp, entry))) ==> BooksWith([], [])
    {
      hide EntryOk, After, Takes, MessageQueue.PendingMessageQueue.Valid, MessageQueue.PendingMessageQueue.Handed;
      assert (log + [entry])[..|log|] == log;
      ghost var steering, followUp := Taken(Steering, log), Taken(FollowUp, log);
      ConcatAssociative(steeringBefore, steering, Takes(Steering, entry));
      ConcatAssociative(followUpBefore, followUp, Takes(FollowUp, entry));
      mon := After(base, config, mon, entry);
      log := log + [entry];
    }

    ghost method Note(entry: Entry)
      requires Inv() && !entry.Emitted? && !entry.TurnEnded? && !entry.PollSkipped? && !entry.PollLost?
      requires entry.Polled? ==> entry.source == GuardMessage || entry.source == Continuation
      requires EntryOk(base, config, mon, entry)
      modifies this`log, this`mon
      ensures Inv() && mon == After(base, config, old(mon), entry) && log == old(log) + [entry]
    {
      hide Monitor, BooksWith;
      Write(entry);
    }

    ghost method NoteAbort(entry: Entry)
      requires aborted && (entry == AbortObserved || entry == AbortedInStopHook)
      requires Inv() && EntryOk(base, config, mon, entry)
      modifies this`log, this`mon
      ensures Inv() && mon == After(base, config, old(mon), entry) && log == old(log) + [entry]
    {
      hide Monitor, BooksWith;
      Write(entry);
    }

    method Emit(event: AgentEvent)
      requires Inv() && EventOk(base, config, mon, event, CurrentView())
      requires mon.end.stopRequested ==> event == AgentEnd
      modifies this`log, this`mon
      modifies agent`messages, agent`streamingMessage, agent`errorMessage, agent`pendingToolCalls
      ensures Inv() && mon == AfterEvent(old(mon), event)
      ensures |log| == |old(log)| + 1 && log[..|old(log)|] == old(log)
      ensures log[|old(log)|].Emitted? && log[|old(log)|].event == event
    {
      hide Monitor, BooksWith, OpenIds, AfterEvent, MessageEndOk, Agree, MayEnd;
      AgentAfter(base, config, mon, event, CurrentView(), agent.pendingToolCalls);
      agent.ProcessEvent(event);
      assert event.AgentEnd? ==> CurrentView() == old(CurrentView());
      Write(Emitted(event, CurrentView()));
    }

    method EmitTurnEnd(event: AgentEvent, ghost facts: TurnFacts)
      requires Inv() && TurnEndOk(base, config, mon, event, CurrentView(), facts) && !mon.end.stopRequested
      requires config.guarded ==> StreakAfter(mon.guard.streak, facts.kind) <= MAX_BAD_TURNS
      modifies this`log, this`mon
      modifies agent`messages, agent`streamingMessage, agent`errorMessage, agent`pendingToolCalls
      ensures Inv() && mon == AfterTurnEnd(old(mon), facts)
    {
      hide Monitor, BooksWith;
      agent.ProcessEvent(event);
      Write(TurnEnded(event, CurrentView(), facts));
    }

    /** Anything may happen while the run awaits; an abort, once there, stays. */
    method AwaitPoint()
      modifies this`aborted
      ensures old(aborted) ==> aborted
    {
      var lands: bool := *;
      aborted := aborted || lands;
    }

    /** Awaits something raced against the abort signal: true when the abort won, as it does when it came first. */
    method Interrupted() returns (lost: bool)
      modifies this`aborted
      ensures old(aborted) ==> aborted && lost
      ensures lost ==> aborted
    {
      if aborted {
        return true;
      }
      AwaitPoint();
      lost := *;
      lost := lost && aborted;
    }

    method AnyAssistantMessage() returns (message: AgentMessage)
      ensures fresh(message) && message.role == AssistantRole
    {
      var stopReason: StopReason := *;
      var toolCalls: seq<ToolCall> := *;
      var errorMessage: string := *;
      message := new AgentMessage(AssistantRole, stopReason, toolCalls, errorMessage);
    }

    /** While nobody looks, others may enqueue, clear or remove messages. */
    method HostActs(queue: MessageQueue.PendingMessageQueue<AgentMessage>)
      requires queue.Valid()
      modifies queue
      ensures queue.Valid() && queue.Handed() == old(queue.Handed())
    {
      var acts: nat := *;
      while acts > 0
        invariant queue.Valid() && queue.Handed() == old(queue.Handed())
        decreases acts
      {
        acts := acts - 1;
        var batch: Transcript := *;
        var role: Role := *;
        if {
          case true => queue.Enqueue(batch);
          case true => queue.Clear();
          case true => var removed := queue.RemoveWhere((m: AgentMessage) => m.role == role);
        }
      }
    }

    /** An aborted run asks no source; a queue that is asked hands out a portion, which may be lost to the abort. */
    method PollMessagesUnlessAborted(queue: MessageQueue.PendingMessageQueue<AgentMessage>)
      returns (r: PostTurn<Transcript>, ghost drained: Transcript)
      requires queue.Valid()
      modifies this`aborted, queue
      ensures queue.Valid() && queue.Handed() == old(queue.Handed()) + drained
      ensures old(aborted) ==> aborted
      ensures r.Skipped? <==> old(aborted)
      ensures r.Rejected? ==> aborted
      ensures r.Settled? ==> drained == r.value
      ensures r.Skipped? || r.Threw? ==> drained == []
    {
      drained := [];
      if aborted {
        return Skipped, drained;
      }
      HostActs(queue);
      var throws: bool := *;
      if throws {
        return Threw, drained;
      }
      var messages := queue.Drain();
      drained := messages;
      var lost := Interrupted();
      r := if lost then Rejected else Settled(messages);
    }

    /** Asks `source` unless the run is aborted, and says so in the history. */
    method Poll(source: Source) returns (r: PostTurn<Transcript>)
      requires source == Steering || source == FollowUp
      requires Inv() && SkipOk(mon) && !mon.end.stopRequested && (!aborted ==> PollOk(mon, source))
      modifies this`aborted, this`log, this`mon, agent.steeringQueue, agent.followUpQueue
      ensures Inv() && (old(aborted) ==> aborted)
      ensures r.Settled? ==> PollOk(old(mon), source) && mon == AfterPoll(old(mon), source, r.value)
      ensures r.Rejected? ==> aborted && mon == old(mon).(end := old(mon.end).(pollLost := true))
      ensures r.Threw? ==> mon == old(mon)
      ensures r.Skipped? ==> mon == old(mon).(noes := old(mon.noes) - {BeforeTurn})
      ensures r.Skipped? <==> old(aborted)
    {
      hide Monitor, MessageQueue.Ledger;
      ghost var drained;
      if source == Steering {
        r, drained := PollMessagesUnlessAborted(agent.steeringQueue);
      } else {
        r, drained := PollMessagesUnlessAborted(agent.followUpQueue);
      }
      NotePoll(source, r, drained);
    }

    /** Enters a poll into the history, and with it what the queue has just handed out. */
    ghost method NotePoll(source: Source, r: PostTurn<Transcript>, drained: Transcript)
      requires source == Steering || source == FollowUp
      requires Told()
      requires if source == Steering then BooksWith(drained, []) else BooksWith([], drained)
      requires r.Skipped? || r.Threw? ==> drained == []
      requires r.Settled? ==> drained == r.value
      requires SkipOk(mon) && !mon.end.stopRequested && (r.Settled? || r.Rejected? ==> PollOk(mon, source))
      modifies this`log, this`mon
      ensures Inv()
      ensures r.Settled? ==> mon == AfterPoll(old(mon), source, r.value)
      ensures r.Rejected? ==> mon == old(mon).(end := old(mon.end).(pollLost := true))
      ensures r.Threw? ==> mon == old(mon)
      ensures r.Skipped? ==> mon == old(mon).(noes := old(mon.noes) - {BeforeTurn})
    {
      hide Monitor, BooksWith, EventOk, TurnEndOk, HookOk, MayTrigger, AfterEvent, AfterTurnEnd;
      if r.Settled? {
        Write(Polled(source, r.value));
      } else if r.Rejected? {
        Write(PollLost(source, drained));
      } else if r.Skipped? {
        Write(PollSkipped(source));
      }
    }

    /** The poll before the first turn, which is waived when steering itself opened the run. */
    method PollInitially() returns (r: PostTurn<Transcript>)
      requires Inv() && mon.phase == TurnOpen && PollOk(mon, Steering) && !mon.end.stopRequested
      modifies this`aborted, this`log, this`mon, agent.steeringQueue, agent.followUpQueue
      ensures Inv() && (old(aborted) ==> aborted)
      ensures r.Settled? ==> mon == old(mon).(owed := r.value, asked := true, emptied := mon.emptied, noes := mon.noes)
      ensures r.Skipped? ==> mon == old(mon).(noes := mon.noes)
      ensures r.Skipped? <==> old(aborted)
    {
      hide Inv;
      if skipInitialSteeringPoll && !aborted {
        Note(PollWaived);
        return Settled([]);
      }
      r := Poll(Steering);
    }

    /** Messages awaited against the abort signal, which wins when the run is aborted already. */
    method AwaitMessages() returns (r: PostTurn<Transcript>)
      modifies this`aborted
      ensures old(aborted) ==> aborted && !r.Settled?
      ensures !r.Skipped? && (r.Rejected? ==> aborted)
    {
      var messages: Transcript := *;
      var throws: bool := *;
      if throws {
        return Threw;
      }
      var lost := Interrupted();
      return if lost then Rejected else Settled(messages);
    }

    /** Asks `shouldStopAfterTurn`, awaited against the abort signal, and notes its answer. */
    method AskAfterTurn() returns (r: PostTurn<bool>)
      requires Inv() && HookOk(mon, AfterTurn) && !mon.end.stopRequested
      modifies this`aborted, this`log, this`mon
      ensures Inv() && (old(aborted) ==> aborted && !r.Settled?)
      ensures !r.Skipped? && (r.Rejected? ==> aborted)
      ensures mon == if r.Settled? then AfterHook(old(mon), AfterTurn, r.value) else old(mon)
    {
      hide Inv;
      var throws, yes: bool := *, *;
      if throws {
        return Threw;
      }
      var lost := Interrupted();
      if lost {
        return Rejected;
      }
      Note(HookAnswered(AfterTurn, yes));
      return Settled(yes);
    }

    /** Asks `shouldStopBeforeTurn`, which answers at once, and notes its answer. */
    method AskBeforeTurn() returns (r: PostTurn<bool>)
      requires Inv() && HookOk(mon, BeforeTurn) && !mon.end.stopRequested
      modifies this`log, this`mon
      ensures Inv() && !r.Rejected? && !r.Skipped?
      ensures mon == if r.Settled? then AfterHook(old(mon), BeforeTurn, r.value) else old(mon)
    {
      hide Inv;
      var throws, yes: bool := *, *;
      if throws {
        return Threw;
      }
      Note(HookAnswered(BeforeTurn, yes));
      return Settled(yes);
    }

    // ----------------------------------------------------------------------------------------
    // The assistant's response
    // ----------------------------------------------------------------------------------------

    /** The guard object and the monitor count the same triggers. */
    ghost predicate GuardInStep(loopGuard: ReasoningLoopGuard?)
      reads this, loopGuard
    {
      && (loopGuard != null <==> config.guarded)
      && (loopGuard != null ==> loopGuard.Valid() && loopGuard.phase == Min(mon.guard.triggers, 2))
    }

    /** A turn in which nothing but the prompt or pending messages happened so far. */
    ghost predicate ReadyToStream()
      reads this, agent, agent.steeringQueue, agent.followUpQueue
    {
      && Inv() && mon.phase == TurnOpen && mon.turn == NEW_TURN && mon.owed == []
      && !GuardStopped(mon.guard) && !mon.guard.due
      && mon.end == RUNNING
      && context == base + mon.finished
    }

    /** The response is being received: a partial message may stand at the end of the context. */
    ghost predicate Streaming(addedPartial: bool)
      reads this, agent, agent.steeringQueue, agent.followUpQueue
    {
      && Inv() && mon.owed == [] && mon.turn.answer.None? && mon.turn.calls == [] && mon.turn.results == 0
      && mon.turn.batch == None && !mon.end.stopRequested
      && (if addedPartial
          then mon.phase.MessageOpen? && |context| == |base| + |mon.finished| + 1
               && context[..|context| - 1] == base + mon.finished
          else mon.phase == TurnOpen && context == base + mon.finished)
    }

    /** The provider was called, and nothing stopped its response so far. */
    ghost predicate Undisturbed()
      reads this
    {
      mon.turn.provider && mon.turn.cause == NoCause && !GuardStopped(mon.guard) && !mon.guard.due
      && !mon.end.stopRequested
    }

    /** The response is complete and everywhere but in `newMessages`. */
    ghost predicate Answered(message: AgentMessage)
      reads this, agent, agent.steeringQueue, agent.followUpQueue
    {
      && Inv() && mon.phase == TurnOpen && mon.owed == [] && mon.turn.answer == Some(message)
      && mon.turn.calls == [] && mon.turn.results == 0 && mon.turn.batch == None
      && |mon.finished| > 0 && mon.finished[|mon.finished| - 1] == message && message.role == AssistantRole
      && context == base + mon.finished
    }

    method CommitAssistantMessage(message: AgentMessage, addedPartial: bool)
      requires Streaming(addedPartial) && message.role == AssistantRole
      modifies this`context, this`log, this`mon
      modifies agent`messages, agent`streamingMessage, agent`errorMessage, agent`pendingToolCalls
      ensures Answered(message) && mon.finished == old(mon.finished) + [message]
      ensures mon.guard == old(mon.guard) && mon.end == old(mon.end) && mon.turn.cause == old(mon.turn.cause)
    {
      hide Inv;
      ghost var before := base + mon.finished;
      if addedPartial {
        context := context[|context| - 1 := message];
      } else {
        context := context + [message];
        Emit(MessageStart(message));
      }
      assert context == before + [message];
      Emit(MessageEnd(message));
      assert before + [message] == base + mon.finished;
    }

    /** The next event of the provider's stream, which sends at most one `start`. */
    method NextEvent(started: bool) returns (event: ProviderEvent)
      ensures started ==> !event.StartEvent?
    {
      event := *;
      if started && event.StartEvent? {
        event := OtherUpdate;
      }
    }

    /** Feeds one update to the reasoning guard, which climbs its ladder when it fires. */
    method ObserveReasoning(event: ProviderEvent, loopGuard: ReasoningLoopGuard?)
      returns (decision: Option<Decision>)
      requires Inv() && Responding(mon) && Undisturbed() && mon.owed == [] && GuardInStep(loopGuard)
      modifies this`log, this`mon, loopGuard
      ensures Inv() && GuardInStep(loopGuard)
      ensures mon == Decided(old(mon), decision)
      ensures loopGuard != null ==> loopGuard.noProgressTurns == old(loopGuard.noProgressTurns)
      ensures decision.Some? ==> config.guarded && decision.value == LADDER[old(mon.guard.triggers)]
      ensures if loopGuard != null && event.ThinkingDelta? then loopGuard.Observed(event.delta, decision.Some?)
              else decision.None?
      ensures loopGuard != null && event.ToolCallStart? ==> loopGuard.sawToolCall
    {
      hide Remembers, ReasoningLoopGuard.Looping, Inv;
      decision := None;
      if loopGuard != null {
        if event.ToolCallStart? {
          loopGuard.NoteToolCallSeen();
        } else if event.ThinkingDelta? {
          var fires := loopGuard.ObserveThinking(event.delta);
          if fires {
            var next := loopGuard.Trigger();
            Note(Triggered(next));
            decision := Some(next);
          }
        }
      }
    }

    /** Puts the newest partial message at the end of the context, appending it when it is the first. */
    method ReceivePartial(event: ProviderEvent, addedPartial: bool) returns (added: bool, toolCalls: seq<ToolCall>)
      requires Streaming(addedPartial) && (addedPartial ==> !event.StartEvent?) && mon.turn.cause == NoCause
      modifies this`context, this`log, this`mon
      modifies agent`messages, agent`streamingMessage, agent`errorMessage, agent`pendingToolCalls
      ensures Streaming(added) && added == (addedPartial || event.StartEvent?)
      ensures mon == old(mon).(phase := mon.phase)
    {
      hide Inv;
      var partial := AnyAssistantMessage();
      added := addedPartial || event.StartEvent?;
      toolCalls := if added then partial.toolCalls else [];
      if event.StartEvent? {
        context := context + [partial];
        Emit(MessageStart(partial));
      } else if addedPartial {
        context := context[|context| - 1 := partial];
        Emit(MessageUpdate(partial));
      }
    }

    /** The guard's tally after a response in which it took `decision`, if any. */
    ghost function TriggeredGuard(g: GuardState, decision: Option<Decision>): GuardState {
      if decision.Some? then g.(triggers := g.triggers + 1, due := decision.value != StopRun) else g
    }

    /** The monitor after the guard took `decision`, if any, on a response. */
    ghost function Decided(m: Mon, decision: Option<Decision>): Mon {
      m.(guard := TriggeredGuard(m.guard, decision),
         turn := if decision.Some? then m.turn.(cause := ByGuard) else m.turn)
    }

    /** What holds when a response was received in full or stopped. */
    ghost predicate StreamDone(before: Mon, message: AgentMessage, decision: Option<Decision>)
      reads this, agent, agent.steeringQueue, agent.followUpQueue, message
    {
      && Answered(message) && mon.finished == before.finished + [message]
      && mon.end == before.end
      && mon.guard.streak == before.guard.streak
      && (decision.Some? ==>
            && mon.guard == TriggeredGuard(before.guard, decision) && config.guarded
            && !GuardStopped(before.guard) && decision.value == LADDER[before.guard.triggers]
            && message.stopReason == StopAborted && message.toolCalls == [])
      && (decision.None? ==> !mon.guard.due && (mon.guard == before.guard || message.stopReason == StopAborted))
      && (decision.Some? <==> mon.turn.cause == ByGuard)
      && (mon.turn.cause == ByDegeneracy ==> message.stopReason == StopAborted)
    }

    /** One event of the stream: what is left of the response, and its result when the event ends it. */
    method ReceiveEvent(addedPartial: bool, partialCalls: seq<ToolCall>,
                        loopGuard: ReasoningLoopGuard?, detector: DegeneracyDetector?)
      returns (added: bool, toolCalls: seq<ToolCall>, r: Option<StreamResult>)
      requires Streaming(addedPartial) && Undisturbed() && GuardInStep(loopGuard)
      requires DetectorInStep(detector)
      modifies this`context, this`aborted, this`log, this`mon
      modifies agent`messages, agent`streamingMessage, agent`errorMessage, agent`pendingToolCalls
      modifies loopGuard, detector
      ensures DetectorInStep(detector)
      ensures old(aborted) ==> aborted
      ensures GuardInStep(loopGuard)
      ensures loopGuard != null ==> loopGuard.noProgressTurns == old(loopGuard.noProgressTurns)
      ensures r.None? ==> Streaming(added) && mon == old(mon).(phase := mon.phase)
      ensures r.Some? ==> Inv()
      ensures r.Some? && r.value.Streamed? ==> fresh(r.value.message)
      ensures r.Some? && r.value.Streamed? ==> StreamDone(old(mon), r.value.message, r.value.decision)
    {
      hide Remembers, Reflects, Inv;
      added, toolCalls := addedPartial, partialCalls;
      var lost := Interrupted();
      if lost {
        var stopped := CommitStopped(partialCalls, addedPartial);
        return added, toolCalls, Some(Streamed(stopped, None));
      }
      var fails: bool := *;
      if fails {
        return added, toolCalls, Some(StreamFailed);
      }
      var event := NextEvent(addedPartial);
      if event.TerminalEvent? {
        AwaitPoint();
        var rejects: bool := *;
        if rejects {
          return added, toolCalls, Some(StreamFailed);
        }
        var final := AnyAssistantMessage();
        CommitAssistantMessage(final, addedPartial);
        return added, toolCalls, Some(Streamed(final, None));
      }
      added, toolCalls := ReceivePartial(event, addedPartial);
      ghost var report, found;
      r, report, found := CutIfLooping(event, added, loopGuard, detector);
    }

    /** A detector watches the response exactly when the guard is on, and stands for what was streamed to it. */
    ghost predicate DetectorInStep(detector: DegeneracyDetector?)
      reads detector
    {
      (detector != null <==> degeneracyGuard) && (detector != null ==> detector.Valid())
    }

    /** Text for a detector that made no report yet; there is none for a detector that is switched off. */
    ghost predicate Watches(detector: DegeneracyDetector?, event: ProviderEvent)
      reads detector
    {
      detector != null && !detector.reported && (event.TextDelta? || event.ThinkingDelta?) && event.delta != []
    }

    /** Feeds assistant prose, and nothing else, to the detector, which reports at most once. */
    method ObserveText(event: ProviderEvent, detector: DegeneracyDetector?)
      returns (report: Option<Report>, ghost found: seq<Text>)
      requires DetectorInStep(detector)
      modifies detector
      ensures DetectorInStep(detector)
      ensures if old(Watches(detector, event)) then detector.Pushed(event.block, event.delta, report, found)
              else report.None? && (detector != null ==> unchanged(detector))
      ensures detector != null && !old(detector.reported) && (event.TextDelta? || event.ThinkingDelta?)
              && event.delta != []
              ==> detector.Pushed(event.block, event.delta, report, found)
    {
      hide Reflects;
      report, found := None, [];
      if detector != null && (event.TextDelta? || event.ThinkingDelta?) {
        report, found := detector.Push(event.block, event.delta);
      }
    }

    /**
     * Stops the response when the text degenerates or the reasoning loops. Degeneracy is looked at first: a decision
     * of the guard in the same event advances the ladder but is not passed on.
     */
    method CutIfLooping(event: ProviderEvent, added: bool, loopGuard: ReasoningLoopGuard?,
                        detector: DegeneracyDetector?)
      returns (r: Option<StreamResult>, ghost report: Option<Report>, ghost found: seq<Text>)
      requires Streaming(added) && Undisturbed() && GuardInStep(loopGuard)
      requires DetectorInStep(detector)
      modifies this`context, this`log, this`mon
      modifies agent`messages, agent`streamingMessage, agent`errorMessage, agent`pendingToolCalls
      modifies loopGuard, detector
      ensures DetectorInStep(detector)
      ensures GuardInStep(loopGuard)
      ensures loopGuard != null ==> loopGuard.noProgressTurns == old(loopGuard.noProgressTurns)
      ensures r.None? ==> Streaming(added) && mon == old(mon)
      ensures r.Some? ==> r.value.Streamed? && fresh(r.value.message)
      ensures r.Some? ==> StreamDone(old(mon), r.value.message, r.value.decision)
      ensures if old(Watches(detector, event)) then detector.Pushed(event.block, event.delta, report, found)
              else report.None?
      ensures if loopGuard != null && event.ThinkingDelta?
              then loopGuard.Observed(event.delta, mon.guard.triggers == old(mon.guard.triggers) + 1)
              else mon.guard.triggers == old(mon.guard.triggers)
      ensures mon.guard.triggers <= old(mon.guard.triggers) + 1
      ensures r.Some? <==> report.Some? || mon.guard.triggers > old(mon.guard.triggers)
      ensures report.Some? ==> r.value.decision.None? && mon.turn.cause == ByDegeneracy && !mon.guard.due
      ensures report.None? && r.Some? ==> r.value.decision.Some?
    {
      hide Remembers, Reflects, ReasoningLoopGuard.Looping, DegeneracyDetector.Pushed, Inv;
      var degeneracy;
      degeneracy, found := ObserveText(event, detector);
      var reasoningLoop := ObserveReasoning(event, loopGuard);
      report := degeneracy;
      if degeneracy.Some? {
        Note(Degenerated);
      }
      if degeneracy.Some? || reasoningLoop.Some? {
        var stopped := CommitStopped([], added);
        r := Some(Streamed(stopped, if degeneracy.Some? then None else reasoningLoop));
      } else {
        r := None;
      }
    }

    method StreamAssistantResponse(loopGuard: ReasoningLoopGuard?) returns (r: StreamResult)
      requires ReadyToStream() && mon.asked && GuardInStep(loopGuard)
      requires loopGuard != null ==> !loopGuard.sawToolCall
      modifies this`context, this`aborted, this`log, this`mon
      modifies agent`messages, agent`streamingMessage, agent`errorMessage, agent`pendingToolCalls
      modifies loopGuard
      ensures Inv() && (old(aborted) ==> aborted) && GuardInStep(loopGuard)
      ensures loopGuard != null ==> loopGuard.noProgressTurns == old(loopGuard.noProgressTurns)
      ensures r.Streamed? ==> fresh(r.message)
      ensures r.Streamed? ==> StreamDone(old(mon), r.message, r.decision)
    {
      hide Remembers, Reflects, Inv;
      var detector: DegeneracyDetector? := null;
      if degeneracyGuard {
        detector := new DegeneracyDetector(lang);
      }
      var lost := aborted;
      if !lost {
        lost := Interrupted();
      }
      if lost {
        var stopped := CommitStopped([], false);
        return Streamed(stopped, None);
      }
      var fails: bool := *;
      if fails {
        return StreamFailed;
      }
      Note(ProviderCalled(context));
      r := ReceiveResponse(loopGuard, detector);
    }

    method ReceiveResponse(loopGuard: ReasoningLoopGuard?, detector: DegeneracyDetector?) returns (r: StreamResult)
      requires Streaming(false) && Undisturbed() && GuardInStep(loopGuard)
      requires DetectorInStep(detector)
      modifies this`context, this`aborted, this`log, this`mon
      modifies agent`messages, agent`streamingMessage, agent`errorMessage, agent`pendingToolCalls
      modifies loopGuard, detector
      ensures DetectorInStep(detector)
      ensures Inv() && (old(aborted) ==> aborted) && GuardInStep(loopGuard)
      ensures loopGuard != null ==> loopGuard.noProgressTurns == old(loopGuard.noProgressTurns)
      ensures r.Streamed? ==> fresh(r.message)
      ensures r.Streamed? ==> StreamDone(old(mon), r.message, r.decision)
    {
      hide Remembers, Reflects, Inv;
      var partialCalls: seq<ToolCall> := [];
      var addedPartial := false;
      var remaining: nat := *;
      while remaining > 0
        invariant Streaming(addedPartial) && (old(aborted) ==> aborted) && GuardInStep(loopGuard)
        invariant DetectorInStep(detector)
        invariant mon == old(mon).(phase := mon.phase)
        invariant loopGuard != null ==> loopGuard.noProgressTurns == old(loopGuard.noProgressTurns)
        decreases remaining
      {
        remaining := remaining - 1;
        var stopped;
        addedPartial, partialCalls, stopped := ReceiveEvent(addedPartial, partialCalls, loopGuard, detector);
        if stopped.Some? {
          return stopped.value;
        }
      }
      var lost := Interrupted();
      if lost {
        var stopped := CommitStopped(partialCalls, addedPartial);
        return Streamed(stopped, None);
      }
      var rejects: bool := *;
      if rejects {
        return StreamFailed;
      }
      var final := AnyAssistantMessage();
      CommitAssistantMessage(final, addedPartial);
      return Streamed(final, None);
    }

    /** Commits the message of a response the loop itself stopped. */
    method CommitStopped(toolCalls: seq<ToolCall>, addedPartial: bool) returns (message: AgentMessage)
      requires Streaming(addedPartial)
      modifies this`context, this`log, this`mon
      modifies agent`messages, agent`streamingMessage, agent`errorMessage, agent`pendingToolCalls
      ensures fresh(message) && message.stopReason == StopAborted && message.toolCalls == toolCalls
      ensures Answered(message) && mon.finished == old(mon.finished) + [message]
      ensures mon.guard == old(mon.guard) && mon.end == old(mon.end) && mon.turn.cause == old(mon.turn.cause)
    {
      hide Inv;
      message := new AgentMessage(AssistantRole, StopAborted, toolCalls, "aborted");
      CommitAssistantMessage(message, addedPartial);
    }

    // ----------------------------------------------------------------------------------------
    // Tool calls
    // ----------------------------------------------------------------------------------------

    /** The message was answered; `n` of its calls were started and `results` are the result messages so far. */
    ghost predicate InBatch(message: AgentMessage, calls: seq<ToolCall>, n: nat, results: Transcript, before: Mon)
      reads this, agent, agent.steeringQueue, agent.followUpQueue
    {
      && Inv() && mon.phase == TurnOpen && n <= |calls| && |results| <= n
      && mon == before.(phase := TurnOpen, turn := mon.turn, finished := mon.finished)
      && mon.finished == before.finished + results
      && before.owed == [] && mon.turn.answer == Some(message) && mon.turn.cause == before.turn.cause
      && mon.turn.batch == before.turn.batch == Some(calls) && mon.end == RUNNING
      && mon.turn.results == |results| && |mon.turn.calls| == n
      && (forall k :: 0 <= k < n ==> mon.turn.calls[k].id == calls[k].id)
      && (forall k :: 0 <= k < |results| ==> results[k].toolCallId == calls[k].id && !mon.turn.calls[k].open)
    }

    method StartCall(message: AgentMessage, calls: seq<ToolCall>, k: nat, results: Transcript, ghost before: Mon)
      requires InBatch(message, calls, k, results, before) && k < |calls|
      requires InSequence(config, calls) ==> !aborted && AllClosed(mon.turn.calls) && |results| == k
      modifies this`log, this`mon
      modifies agent`messages, agent`streamingMessage, agent`errorMessage, agent`pendingToolCalls
      ensures InBatch(message, calls, k + 1, results, before)
      ensures mon.turn.calls == old(mon.turn.calls) + [CallState(calls[k].id, true)]
    {
      hide Inv;
      Emit(ToolExecutionStart(k, calls[k].id));
    }

    method EndCall(message: AgentMessage, calls: seq<ToolCall>, n: nat, k: nat, results: Transcript, ghost before: Mon)
      requires InBatch(message, calls, n, results, before) && k < n && mon.turn.calls[k].open
      modifies this`log, this`mon
      modifies agent`messages, agent`streamingMessage, agent`errorMessage, agent`pendingToolCalls
      ensures InBatch(message, calls, n, results, before)
      ensures mon.turn.calls == old(mon.turn.calls)[k := CallState(calls[k].id, false)]
    {
      hide Inv;
      Emit(ToolExecutionEnd(k, calls[k].id));
    }

    /** Alias lookup, argument checks and the `beforeToolCall` hook: the call may be settled right there. */
    method PrepareToolCall() returns (immediate: bool)
      modifies this`aborted
      ensures old(aborted) ==> aborted
    {
      AwaitPoint();
      immediate := *;
    }

    /** Passes one update of call `k` on, unless the run is aborted. */
    method PassUpdate(message: AgentMessage, calls: seq<ToolCall>, k: nat, results: Transcript, ghost before: Mon)
      requires InBatch(message, calls, k + 1, results, before) && mon.turn.calls[k].open
      modifies this`aborted, this`log, this`mon
      modifies agent`messages, agent`streamingMessage, agent`errorMessage, agent`pendingToolCalls
      ensures InBatch(message, calls, k + 1, results, before) && mon == old(mon) && (old(aborted) ==> aborted)
      ensures OnlyUpdates(old(log), log, k) && (old(aborted) ==> log == old(log))
    {
      hide Inv;
      AwaitPoint();
      if !aborted {
        Emit(ToolExecutionUpdate(k));
      }
    }

    /** Any number of updates while the call executes, none once the run is aborted. */
    method ExecutePreparedToolCall(message: AgentMessage, calls: seq<ToolCall>, k: nat, results: Transcript,
                                   ghost before: Mon)
      requires InBatch(message, calls, k + 1, results, before) && mon.turn.calls[k].open
      modifies this`aborted, this`log, this`mon
      modifies agent`messages, agent`streamingMessage, agent`errorMessage, agent`pendingToolCalls
      ensures InBatch(message, calls, k + 1, results, before) && mon == old(mon) && (old(aborted) ==> aborted)
      ensures OnlyUpdates(old(log), log, k) && (old(aborted) ==> log == old(log))
    {
      hide Inv;
      var updates: nat := *;
      while updates > 0
        invariant InBatch(message, calls, k + 1, results, before) && mon == old(mon) && (old(aborted) ==> aborted)
        invariant OnlyUpdates(old(log), log, k) && (old(aborted) ==> log == old(log))
        decreases updates
      {
        updates := updates - 1;
        ghost var soFar := log;
        PassUpdate(message, calls, k, results, before);
        OnlyUpdatesGrow(old(log), soFar, log, k);
      }
      AwaitPoint();
    }

    method EmitToolResult(message: AgentMessage, calls: seq<ToolCall>, n: nat, results: Transcript, ghost before: Mon)
      returns (results': Transcript, terminates: bool)
      requires InBatch(message, calls, n, results, before)
      requires |results| < n && !mon.turn.calls[|results|].open && (InSequence(config, calls) || n == |calls|)
      modifies this`log, this`mon
      modifies agent`messages, agent`streamingMessage, agent`errorMessage, agent`pendingToolCalls
      ensures InBatch(message, calls, n, results', before)
      ensures |results'| == |results| + 1 && AllAsk(results') == (AllAsk(results) && terminates)
      ensures mon.turn.calls == old(mon.turn.calls)
    {
      hide Inv;
      var bytes: nat := *;
      terminates := *;
      var result := new AgentMessage.ToolResult(calls[|results|].id, bytes, terminates);
      ghost var m := mon;
      Emit(MessageStart(result));
      Emit(MessageEnd(result));
      assert mon == m.(finished := m.finished + [result], turn := m.turn.(results := m.turn.results + 1));
      results' := results + [result];
      AllAskSnoc(results, result);
      ConcatAssociative(before.finished, results, [result]);
    }

    method ExecuteToolCallsSequential(message: AgentMessage, calls: seq<ToolCall>)
      returns (results: Transcript, terminate: bool)
      requires InSequence(config, calls) && InBatch(message, calls, 0, [], mon)
      modifies this`aborted, this`log, this`mon
      modifies agent`messages, agent`streamingMessage, agent`errorMessage, agent`pendingToolCalls
      ensures old(aborted) ==> aborted
      ensures InBatch(message, calls, |results|, results, old(mon)) && AllClosed(mon.turn.calls)
      ensures (|results| == |calls| || aborted) && terminate == AllTerminate(results)
    {
      hide Inv;
      ghost var before := mon;
      results, terminate := [], true;
      var k := 0;
      while k < |calls|
        invariant k <= |calls| && k == |results| && (old(aborted) ==> aborted)
        invariant InBatch(message, calls, k, results, before) && AllClosed(mon.turn.calls)
        invariant terminate == AllAsk(results)
        decreases |calls| - k
      {
        if aborted {
          break;
        }
        var hint;
        results, hint := ExecuteOneCall(message, calls, results, before);
        terminate := terminate && hint;
        k := k + 1;
        AwaitPoint();
        if aborted {
          break;
        }
      }
      terminate := terminate && |results| > 0;
    }

    /** The next call of a sequential batch, from its start to its result message. */
    method ExecuteOneCall(message: AgentMessage, calls: seq<ToolCall>, results: Transcript, ghost before: Mon)
      returns (results': Transcript, terminates: bool)
      requires |results| < |calls| && InBatch(message, calls, |results|, results, before) && AllClosed(mon.turn.calls)
      requires InSequence(config, calls) && !aborted
      modifies this`aborted, this`log, this`mon
      modifies agent`messages, agent`streamingMessage, agent`errorMessage, agent`pendingToolCalls
      ensures old(aborted) ==> aborted
      ensures |results'| == |results| + 1 && InBatch(message, calls, |results'|, results', before)
      ensures AllClosed(mon.turn.calls) && AllAsk(results') == (AllAsk(results) && terminates)
    {
      hide Inv;
      var k := |results|;
      StartCall(message, calls, k, results, before);
      var immediate := PrepareToolCall();
      if !immediate {
        ExecutePreparedToolCall(message, calls, k, results, before);
      }
      EndCall(message, calls, k + 1, k, results, before);
      results', terminates := EmitToolResult(message, calls, k + 1, results, before);
    }

    /** Task `k` runs as long as its call is open. */
    ghost predicate TasksMatch(tasks: seq<Task>, open: seq<CallState>) {
      |tasks| == |open| && forall k :: 0 <= k < |tasks| ==> (tasks[k] == Done <==> !open[k].open)
    }

    /**
     * Starts every call in source order, then lets the started ones run in any interleaving. An update is
     * passed on only while its task still executes and the run is not aborted.
     */
    method ExecuteToolCallsParallel(message: AgentMessage, calls: seq<ToolCall>)
      returns (results: Transcript, terminate: bool)
      requires !InSequence(config, calls) && InBatch(message, calls, 0, [], mon)
      modifies this`aborted, this`log, this`mon
      modifies agent`messages, agent`streamingMessage, agent`errorMessage, agent`pendingToolCalls
      ensures old(aborted) ==> aborted
      ensures InBatch(message, calls, |calls|, results, old(mon)) && AllClosed(mon.turn.calls)
      ensures |results| == |calls| && terminate == AllTerminate(results)
    {
      hide Inv;
      ghost var before := mon;
      var tasks := StartAll(message, calls, before);
      RunTasks(message, calls, tasks, before);
      results, terminate := [], |calls| > 0;
      while |results| < |calls|
        invariant |results| <= |calls| && (old(aborted) ==> aborted)
        invariant InBatch(message, calls, |calls|, results, before) && AllClosed(mon.turn.calls)
        invariant terminate == (|calls| > 0 && AllAsk(results))
        decreases |calls| - |results|
      {
        var hint;
        results, hint := EmitToolResult(message, calls, |calls|, results, before);
        terminate := terminate && hint;
      }
    }

    method StartAll(message: AgentMessage, calls: seq<ToolCall>, ghost before: Mon) returns (tasks: seq<Task>)
      requires !InSequence(config, calls) && InBatch(message, calls, 0, [], before)
      modifies this`aborted, this`log, this`mon
      modifies agent`messages, agent`streamingMessage, agent`errorMessage, agent`pendingToolCalls
      ensures old(aborted) ==> aborted
      ensures InBatch(message, calls, |calls|, [], before) && TasksMatch(tasks, mon.turn.calls)
    {
      hide Inv;
      tasks := [];
      while |tasks| < |calls|
        invariant |tasks| <= |calls| && (old(aborted) ==> aborted)
        invariant InBatch(message, calls, |tasks|, [], before) && TasksMatch(tasks, mon.turn.calls)
        decreases |calls| - |tasks|
      {
        var k := |tasks|;
        StartCall(message, calls, k, [], before);
        var immediate := PrepareToolCall();
        if immediate {
          EndCall(message, calls, k + 1, k, [], before);
          tasks := tasks + [Done];
        } else {
          tasks := tasks + [Executing];
        }
      }
    }

    method RunTasks(message: AgentMessage, calls: seq<ToolCall>, started: seq<Task>, ghost before: Mon)
      requires InBatch(message, calls, |calls|, [], before) && TasksMatch(started, mon.turn.calls)
      modifies this`aborted, this`log, this`mon
      modifies agent`messages, agent`streamingMessage, agent`errorMessage, agent`pendingToolCalls
      ensures old(aborted) ==> aborted
      ensures InBatch(message, calls, |calls|, [], before) && AllClosed(mon.turn.calls)
    {
      hide Inv;
      var tasks := started;
      var updates: nat := *;
      while Rank(tasks) > 0
        invariant InBatch(message, calls, |calls|, [], before) && TasksMatch(tasks, mon.turn.calls)
        invariant old(aborted) ==> aborted
        decreases Rank(tasks), updates
      {
        AwaitPoint();
        var k: nat :| k < |tasks|;
        var update: bool := *;
        if update && updates > 0 {
          updates := updates - 1;
          if tasks[k] == Executing && !aborted {
            Emit(ToolExecutionUpdate(k));
          }
        } else {
          tasks := AdvanceTask(message, calls, tasks, before);
        }
      }
    }

    /** Some unfinished task stops executing, or has its result settled and its call ended. */
    method AdvanceTask(message: AgentMessage, calls: seq<ToolCall>, tasks: seq<Task>, ghost before: Mon)
      returns (tasks': seq<Task>)
      requires InBatch(message, calls, |calls|, [], before) && TasksMatch(tasks, mon.turn.calls) && Rank(tasks) > 0
      modifies this`log, this`mon
      modifies agent`messages, agent`streamingMessage, agent`errorMessage, agent`pendingToolCalls
      ensures InBatch(message, calls, |calls|, [], before) && TasksMatch(tasks', mon.turn.calls)
      ensures Rank(tasks') < Rank(tasks)
    {
      hide Inv;
      var j: nat :| j < |tasks| && tasks[j] != Done;
      RankDrops(tasks, j);
      if tasks[j] == Executing {
        tasks' := tasks[j := Settling];
      } else {
        EndCall(message, calls, |calls|, j, [], before);
        tasks' := tasks[j := Done];
      }
    }

    ghost method OpenBatch(message: AgentMessage)
      requires Answered(message) && message.toolCalls != [] && mon.end == RUNNING
      modifies this`log, this`mon
      ensures InBatch(message, message.toolCalls, 0, [], mon) && mon == Opened(old(mon), message.toolCalls)
    {
      hide Inv, InSequence, TurnEndOk, EventOk, PollOk, HookOk, MayTrigger, AfterEvent;
      assert mon.finished + [] == mon.finished;
      Note(BatchOpened(message.toolCalls));
    }

    /**
     * Runs the message's calls, one by one when the configuration or one of their tools asks for it and side by side
     * otherwise, and gives the results over to both transcripts.
     */
    method ExecuteToolCalls(message: AgentMessage) returns (results: Transcript, hasMore: bool)
      requires Answered(message) && newMessages == mon.finished && message.toolCalls != [] && mon.end == RUNNING
      modifies this`context, this`newMessages, this`aborted, this`log, this`mon
      modifies agent`messages, agent`streamingMessage, agent`errorMessage, agent`pendingToolCalls
      ensures old(aborted) ==> aborted
      ensures InBatch(message, message.toolCalls, |results|, results, Opened(old(mon), message.toolCalls))
      ensures AllClosed(mon.turn.calls) && InStep()
      ensures |results| == |message.toolCalls| || (InSequence(config, message.toolCalls) && aborted)
      ensures hasMore == !AllTerminate(results)
    {
      hide Inv, InSequence;
      OpenBatch(message);
      ghost var before := mon;
      var terminate;
      if InSequence(config, message.toolCalls) {
        results, terminate := ExecuteToolCallsSequential(message, message.toolCalls);
      } else {
        results, terminate := ExecuteToolCallsParallel(message, message.toolCalls);
      }
      hasMore := !terminate;
      context := context + results;
      newMessages := newMessages + results;
      assert base + (before.finished + results) == base + before.finished + results;
    }

    /** The monitor once the calls of the answer are known. */
    ghost function Opened(m: Mon, calls: seq<ToolCall>): Mon {
      m.(turn := m.turn.(batch := Some(calls)))
    }

    // ----------------------------------------------------------------------------------------
    // Turns
    // ----------------------------------------------------------------------------------------

    /** Between two turns, or before the first one: everything agrees, and `pending` waits to be appended. */
    ghost predicate AtBoundary(firstTurn: bool, pending: Transcript, loopGuard: ReasoningLoopGuard?)
      reads this, agent, agent.steeringQueue, agent.followUpQueue, loopGuard
    {
      && Inv() && InStep() && mon.owed == pending && mon.end == RUNNING
      && (if firstTurn then mon.phase == TurnOpen && mon.turn == NEW_TURN
          else mon.phase == BetweenTurns && mon.turn.answer.Some?)
      && GuardInStep(loopGuard) && !GuardStopped(mon.guard) && !mon.guard.due && StreakBounded(loopGuard)
    }

    /** Steering was found empty, no hook objects, and the turn's own wish to go on is `hasMoreToolCalls`. */
    ghost predicate NothingPending(hasMoreToolCalls: bool)
      reads this
    {
      ((mon.asked && Steering in mon.emptied) || aborted)
      && HooksAgree(hasMoreToolCalls)
    }

    /** The turn was completed, and both stop hooks have let the run go on. */
    ghost predicate HooksAgree(hasMoreToolCalls: bool)
      reads this
    {
      && mon.turn.close.Closed? && mon.turn.close.kind.Completed? && mon.turn.close.more == hasMoreToolCalls
      && mon.noes == {AfterTurn, BeforeTurn}
    }

    /** A turn follows because it is the first, or brings messages, or no hook objects. */
    ghost predicate MayOpen(firstTurn: bool, pending: Transcript)
      reads this
    {
      firstTurn || pending != [] || BeforeTurn in mon.noes
    }

    /** Every bad turn but the first of a streak climbed the ladder. */
    ghost predicate StreakBounded(loopGuard: ReasoningLoopGuard?)
      reads this, loopGuard
    {
      loopGuard != null ==>
        mon.guard.streak <= mon.guard.triggers + (if loopGuard.noProgressTurns > 0 then 1 else 0)
    }

    method EndLoop()
      requires Inv() && InStep() && mon.owed == [] && !mon.guard.due
      requires (mon.phase == BetweenTurns && mon.turn.answer.Some? && MayEnd(mon))
               || (mon.phase == Ended && mon.end.agentEnds == 1 && mon.end.stopHookAborted)
      modifies this`log, this`mon
      modifies agent`messages, agent`streamingMessage, agent`errorMessage, agent`pendingToolCalls
      ensures Inv() && mon == old(mon).(phase := Ended, end := old(mon.end).(agentEnds := old(mon.end.agentEnds) + 1))
      ensures |log| == |old(log)| + 1 && log[..|old(log)|] == old(log)
      ensures log[|old(log)|].Emitted? && log[|old(log)|].event == AgentEnd
    {
      hide Monitor, BooksWith;
      Emit(AgentEnd);
    }

    /** A turn is open and nothing has happened in it; the sources' messages are being appended. */
    ghost predicate Injecting(before: Mon, done: Transcript, rest: Transcript)
      reads this, agent, agent.steeringQueue, agent.followUpQueue
    {
      && Inv() && InStep() && mon.end == RUNNING
      && mon == before.(phase := TurnOpen, turn := NEW_TURN, owed := rest, finished := before.finished + done)
    }

    method Inject(message: AgentMessage, ghost before: Mon, ghost done: Transcript, ghost rest: Transcript)
      requires Injecting(before, done, [message] + rest)
      modifies this`context, this`newMessages, this`log, this`mon
      modifies agent`messages, agent`streamingMessage, agent`errorMessage, agent`pendingToolCalls
      ensures Injecting(before, done + [message], rest)
    {
      hide Inv;
      Emit(MessageStart(message));
      Emit(MessageEnd(message));
      context := context + [message];
      newMessages := newMessages + [message];
      assert before.finished + (done + [message]) == before.finished + done + [message];
    }

    /** Opens the turn and appends what was taken from the message sources, in order. */
    method BeginTurn(firstTurn: bool, pending: Transcript, loopGuard: ReasoningLoopGuard?)
      requires AtBoundary(firstTurn, pending, loopGuard) && MayOpen(firstTurn, pending) && !aborted
      modifies this`context, this`newMessages, this`log, this`mon
      modifies agent`messages, agent`streamingMessage, agent`errorMessage, agent`pendingToolCalls
      ensures Injecting(old(mon), pending, [])
    {
      hide Remembers, Inv;
      ghost var before := mon;
      if !firstTurn {
        Emit(TurnStart);
      }
      assert before.finished + pending[..0] == before.finished && pending[0..] == pending;
      for i := 0 to |pending|
        invariant Injecting(before, pending[..i], pending[i..])
      {
        assert pending[i..] == [pending[i]] + pending[i + 1..] && pending[..i + 1] == pending[..i] + [pending[i]];
        Inject(pending[i], before, pending[..i], pending[i + 1..]);
      }
      assert pending[..|pending|] == pending && pending[|pending|..] == [];
    }

    /** One pass of the inner loop. */
    method RunTurn(firstTurn: bool, pending: Transcript, hasMoreToolCalls: bool, loopGuard: ReasoningLoopGuard?)
      returns (next: Next)
      requires AtBoundary(firstTurn, pending, loopGuard) && (mon.asked || aborted) && MayOpen(firstTurn, pending)
      modifies this`context, this`newMessages, this`aborted, this`log, this`mon, loopGuard
      modifies agent.steeringQueue, agent.followUpQueue
      modifies agent`messages, agent`streamingMessage, agent`errorMessage, agent`pendingToolCalls
      ensures Inv()
      ensures next.Continue? ==> AtBoundary(false, next.pending, loopGuard) && (mon.asked || aborted)
      ensures next.Continue? && next.pending == [] ==> NothingPending(next.hasMoreToolCalls)
      ensures next.Return? ==> next.outcome != StillRunning && (next.outcome == RunEnded ==> Finished(mon))
    {
      hide Remembers, Inv;
      if aborted {
        return Return(RunThrew);
      }
      var streamed := StreamTurn(firstTurn, pending, loopGuard);
      if streamed.StreamFailed? {
        return Return(RunThrew);
      }
      next := SettleStreamed(streamed.message, streamed.decision, hasMoreToolCalls, loopGuard);
    }

    /** A response is in all transcripts; `cut` is the guard's decision when the guard stopped it. */
    ghost predicate Received(message: AgentMessage, cut: Option<Decision>, loopGuard: ReasoningLoopGuard?)
      reads this, agent, agent.steeringQueue, agent.followUpQueue, loopGuard, message
    {
      && Answered(message) && InStep() && mon.end == RUNNING && GuardInStep(loopGuard)
      && (config.guarded ==> mon.guard.streak < MAX_BAD_TURNS)
      && (message.stopReason != StopAborted ==> !GuardStopped(mon.guard) && StreakBounded(loopGuard))
      && (cut.Some? <==> mon.turn.cause == ByGuard) && (cut.None? ==> !mon.guard.due)
      && (mon.turn.cause == ByDegeneracy ==> message.stopReason == StopAborted)
      && (cut.Some? ==>
            && message.stopReason == StopAborted && loopGuard != null
            && mon.guard.due == (cut.value != StopRun) && GuardStopped(mon.guard) == (cut.value == StopRun)
            && mon.guard.streak + 1 <= mon.guard.triggers + (if loopGuard.noProgressTurns > 0 then 1 else 0))
    }

    method StreamTurn(firstTurn: bool, pending: Transcript, loopGuard: ReasoningLoopGuard?)
      returns (streamed: StreamResult)
      requires AtBoundary(firstTurn, pending, loopGuard) && mon.asked && MayOpen(firstTurn, pending) && !aborted
      modifies this`context, this`newMessages, this`aborted, this`log, this`mon, loopGuard
      modifies agent`messages, agent`streamingMessage, agent`errorMessage, agent`pendingToolCalls
      ensures Inv()
      ensures streamed.Streamed? ==> fresh(streamed.message)
      ensures streamed.Streamed? ==> Received(streamed.message, streamed.decision, loopGuard)
    {
      hide Remembers, Inv;
      BeginTurn(firstTurn, pending, loopGuard);
      if loopGuard != null {
        loopGuard.BeginTurn();
      }
      ghost var begun := mon;
      streamed := StreamAssistantResponse(loopGuard);
      if streamed.Streamed? {
        if streamed.decision.Some? {
          LadderEndsInStop(begun.guard, streamed.decision.value);
        }
        newMessages := newMessages + [streamed.message];
      }
    }

    /** Where the run goes after a response: a cut climbs the ladder, a stop ends the run, the rest is completed. */
    method SettleStreamed(message: AgentMessage, cut: Option<Decision>, hasMoreToolCalls: bool,
                          loopGuard: ReasoningLoopGuard?)
      returns (next: Next)
      requires Received(message, cut, loopGuard)
      modifies this`context, this`newMessages, this`aborted, this`log, this`mon, loopGuard, message
      modifies agent.steeringQueue, agent.followUpQueue
      modifies agent`messages, agent`streamingMessage, agent`errorMessage, agent`pendingToolCalls
      ensures Inv()
      ensures next.Continue? ==> AtBoundary(false, next.pending, loopGuard) && (mon.asked || aborted)
      ensures next.Continue? && next.pending == [] ==> NothingPending(next.hasMoreToolCalls)
      ensures next.Return? ==> next.outcome != StillRunning && (next.outcome == RunEnded ==> Finished(mon))
      ensures cut.Some? && cut.value != StopRun ==> next.Continue? && |next.pending| == 1
      ensures !(cut.Some? && cut.value != StopRun)
              && (message.stopReason == StopError || message.stopReason == StopAborted)
              ==> next == Return(RunEnded)
    {
      hide Remembers, Inv;
      if cut.Some? && cut.value != StopRun {
        EmitStoppedTurnEnd(message, Cut);
        AwaitPoint();
        var decision := DecisionMessage();
        Note(Polled(GuardMessage, [decision]));
        return Continue([decision], hasMoreToolCalls);
      }
      if message.stopReason == StopError || message.stopReason == StopAborted {
        EmitStoppedTurnEnd(message, if cut.Some? then Cut else Stopped);
        EndLoop();
        return Return(RunEnded);
      }
      next := CompleteTurn(message, loopGuard);
    }

    /** `turn_end` for a response whose tool calls, if any, are not run. */
    method EmitStoppedTurnEnd(message: AgentMessage, ghost kind: TurnKind)
      requires Answered(message) && InStep() && !kind.Completed? && mon.end == RUNNING
      requires (kind == Cut <==> mon.turn.cause == ByGuard) && (mon.turn.cause == ByDegeneracy ==> kind == Stopped)
      requires config.guarded ==> StreakAfter(mon.guard.streak, kind) <= MAX_BAD_TURNS
      modifies this`log, this`mon
      modifies agent`messages, agent`streamingMessage, agent`errorMessage, agent`pendingToolCalls
      ensures Inv() && mon == AfterTurnEnd(old(mon), TurnFacts(kind, message.toolCalls, false))
    {
      hide Monitor, BooksWith;
      EmitTurnEnd(TurnEnd(message, []), TurnFacts(kind, message.toolCalls, false));
    }

    /** Progress matters to the run only in so far as there was any. */
    method ObserveProgress(message: AgentMessage, results: Transcript) returns (progress: TurnProgress)
      requires message.role == AssistantRole
      ensures progress.Any() <==> |message.toolCalls| > 0 || ObservedBytes(results) > 0
    {
      progress := ExtractTurnProgress(lang, message, results);
      ProgressIsAnything(lang, message.toolCalls, results);
    }

    /** Runs the tool calls of a finished response; without any, those it printed as text are recovered first. */
    method RunCalls(message: AgentMessage) returns (results: Transcript, hasMore: bool)
      requires Answered(message) && InStep() && mon.end == RUNNING
      modifies this`context, this`newMessages, this`aborted, this`log, this`mon, message
      modifies agent`messages, agent`streamingMessage, agent`errorMessage, agent`pendingToolCalls
      ensures old(message.toolCalls) != [] || !recoverTextToolCalls ==> message.toolCalls == old(message.toolCalls)
      ensures CallsRan(message, results) && mon.guard == old(mon.guard) && mon.turn.cause == old(mon.turn.cause)
      ensures |results| == |message.toolCalls| || (InSequence(config, message.toolCalls) && aborted)
      ensures hasMore == (message.toolCalls != [] && !AllTerminate(results))
    {
      hide Inv;
      results, hasMore := [], false;
      assert mon.finished + [] == mon.finished;
      if message.toolCalls == [] && recoverTextToolCalls {
        var recovered: seq<ToolCall> := *;
        message.toolCalls := recovered;
      }
      if message.toolCalls != [] {
        results, hasMore := ExecuteToolCalls(message);
      }
    }

    /** The calls of the answer have run, each that was started to its end, and both transcripts hold their results. */
    ghost predicate CallsRan(message: AgentMessage, results: Transcript)
      reads this, agent, agent.steeringQueue, agent.followUpQueue, message
    {
      && Inv() && InStep() && mon.phase == TurnOpen && mon.owed == [] && mon.end == RUNNING
      && mon.turn.answer == Some(message) && AllClosed(mon.turn.calls)
      && message.toolCalls == (if mon.turn.batch.Some? then mon.turn.batch.value else [])
      && |results| == |mon.turn.calls| == mon.turn.results <= |mon.finished|
      && mon.finished[|mon.finished| - |results|..] == results && ResultsAnswer(results, message.toolCalls)
    }

    /** Runs the calls of a finished response and ends its turn. */
    method FinishResponse(message: AgentMessage) returns (progress: TurnProgress, hasMore: bool)
      requires Answered(message) && InStep() && mon.turn.cause == NoCause && mon.end == RUNNING
      requires config.guarded ==> mon.guard.streak + 1 <= MAX_BAD_TURNS
      modifies this`context, this`newMessages, this`aborted, this`log, this`mon, message
      modifies agent`messages, agent`streamingMessage, agent`errorMessage, agent`pendingToolCalls
      ensures Inv() && InStep() && mon.phase == BetweenTurns && mon.owed == [] && mon.turn.answer.Some?
      ensures mon.end == old(mon.end) && mon.noes == {}
      ensures mon.guard == old(mon.guard).(streak := StreakAfter(old(mon.guard.streak), Completed(progress.Any())))
      ensures mon.turn.close == Closed(Completed(progress.Any()), hasMore)
    {
      hide Monitor, BooksWith;
      var toolResults;
      toolResults, hasMore := RunCalls(message);
      progress := ObserveProgress(message, toolResults);
      EmitTurnEnd(TurnEnd(message, toolResults),
                  TurnFacts(Completed(progress.Any()), message.toolCalls, hasMore));
    }

    /** What follows a finished response, up to the next turn boundary. */
    method CompleteTurn(message: AgentMessage, loopGuard: ReasoningLoopGuard?) returns (next: Next)
      requires Answered(message) && InStep() && mon.end == RUNNING && mon.turn.cause == NoCause && !mon.guard.due
      requires GuardInStep(loopGuard) && !GuardStopped(mon.guard) && StreakBounded(loopGuard)
      modifies this`context, this`newMessages, this`aborted, this`log, this`mon, loopGuard, message
      modifies agent.steeringQueue, agent.followUpQueue
      modifies agent`messages, agent`streamingMessage, agent`errorMessage, agent`pendingToolCalls
      ensures Inv()
      ensures next.Continue? ==> AtBoundary(false, next.pending, loopGuard) && (mon.asked || aborted)
      ensures next.Continue? && next.pending == [] ==> NothingPending(next.hasMoreToolCalls)
      ensures next.Return? ==> next.outcome != StillRunning && (next.outcome == RunEnded ==> Finished(mon))
    {
      hide Remembers, Inv;
      var progress, hasMore := FinishResponse(message);
      AwaitPoint();
      if aborted {
        NoteAbort(AbortObserved);
        EndLoop();
        return Return(RunEnded);
      }
      if loopGuard != null {
        var settled := JudgeProgress(progress, hasMore, loopGuard);
        if settled.Some? {
          return settled.value;
        }
      }
      next := PollAfterTurn(hasMore, loopGuard);
    }

    /** A turn has ended; the guard has not yet seen what it did. */
    ghost predicate TurnOver(progress: TurnProgress, hasMore: bool)
      reads this, agent, agent.steeringQueue, agent.followUpQueue
    {
      && Inv() && InStep() && mon.phase == BetweenTurns && mon.owed == [] && mon.turn.answer.Some?
      && mon.end == RUNNING && mon.turn.close == Closed(Completed(progress.Any()), hasMore) && !mon.guard.due
    }

    /** The guard counts the turn; a second one in a row without progress climbs the ladder instead of polling. */
    method JudgeProgress(progress: TurnProgress, hasMore: bool, loopGuard: ReasoningLoopGuard) returns (r: Option<Next>)
      requires TurnOver(progress, hasMore) && GuardInStep(loopGuard) && !GuardStopped(mon.guard)
      requires if progress.Any() then mon.guard.streak == 0
               else mon.guard.streak <= mon.guard.triggers + (if loopGuard.noProgressTurns > 0 then 1 else 0) + 1
      modifies this`log, this`mon, loopGuard
      modifies agent`messages, agent`streamingMessage, agent`errorMessage, agent`pendingToolCalls
      ensures Inv()
      ensures r.Some? <==> !progress.Any() && old(loopGuard.noProgressTurns) + 1 >= 2
      ensures mon.guard.triggers == old(mon.guard.triggers) + (if r.Some? then 1 else 0)
      ensures r.None? ==> AtBoundary(false, [], loopGuard) && mon == old(mon)
      ensures r.Some? && r.value.Continue?
              ==> r.value.pending != [] && AtBoundary(false, r.value.pending, loopGuard) && (mon.asked || aborted)
      ensures r.Some? && r.value.Return? ==> r.value.outcome == RunEnded && Finished(mon)
    {
      hide Remembers, Inv;
      var noProgress := loopGuard.FinishTurn(progress);
      if !noProgress {
        return None;
      }
      var decision := loopGuard.Trigger();
      Note(Triggered(decision));
      if decision == StopRun {
        EndLoop();
        return Some(Return(RunEnded));
      }
      var recovery := DecisionMessage();
      Note(Polled(GuardMessage, [recovery]));
      return Some(Continue([recovery], hasMore));
    }

    /** The stop hooks, and then the steering poll. An abort inside the first hook ends the loop twice over. */
    method PollAfterTurn(hasMore: bool, loopGuard: ReasoningLoopGuard?) returns (next: Next)
      requires AtBoundary(false, [], loopGuard) && mon.noes == {}
      requires mon.turn.close.Closed? && mon.turn.close.kind.Completed? && mon.turn.close.more == hasMore
      modifies this`aborted, this`log, this`mon, agent.steeringQueue, agent.followUpQueue
      modifies agent`messages, agent`streamingMessage, agent`errorMessage, agent`pendingToolCalls
      ensures Inv()
      ensures next.Continue? ==> AtBoundary(false, next.pending, loopGuard) && (mon.asked || aborted)
      ensures next.Continue? && next.pending == [] ==> NothingPending(next.hasMoreToolCalls)
      ensures next.Return? ==> next.outcome != StillRunning && (next.outcome == RunEnded ==> Finished(mon))
    {
      hide Remembers, Inv;
      var shouldStop := AskAfterTurn();
      if shouldStop.Threw? {
        return Return(RunThrew);
      }
      if shouldStop.Rejected? {
        EndTwice();
        return Return(RunEnded);
      }
      if shouldStop.value {
        EndLoop();
        return Return(RunEnded);
      }
      var stopBeforeTurn := AskBeforeTurn();
      if stopBeforeTurn.Threw? {
        return Return(RunThrew);
      }
      if stopBeforeTurn.value {
        EndLoop();
        return Return(RunEnded);
      }
      next := PollSteering(hasMore, loopGuard);
    }

    /** The first stop hook lost to an abort: both the awaiting of it and its caller end the loop. */
    method EndTwice()
      requires Inv() && InStep() && mon.end == RUNNING && HookOk(mon, AfterTurn) && mon.turn.answer.Some? && aborted
      modifies this`log, this`mon
      modifies agent`messages, agent`streamingMessage, agent`errorMessage, agent`pendingToolCalls
      ensures Inv() && Finished(mon) && mon.end.stopHookAborted
      ensures |log| == |old(log)| + 3 && log[..|old(log)|] == old(log) && log[|old(log)|] == AbortedInStopHook
      ensures forall i :: |old(log)| < i < |log| ==> log[i].Emitted? && log[i].event == AgentEnd
    {
      hide Inv;
      NoteAbort(AbortedInStopHook);
      ghost var noted := log;
      EndLoop();
      ghost var ended := log;
      EndLoop();
      assert log[..|old(log)|] == ended[..|noted|][..|old(log)|];
    }

    /** Steering drained here owns the turn boundary; the run is asked to stop only when there was none. */
    method PollSteering(hasMore: bool, loopGuard: ReasoningLoopGuard?) returns (next: Next)
      requires AtBoundary(false, [], loopGuard) && HooksAgree(hasMore)
      modifies this`aborted, this`log, this`mon, agent.steeringQueue, agent.followUpQueue
      modifies agent`messages, agent`streamingMessage, agent`errorMessage, agent`pendingToolCalls
      ensures Inv()
      ensures next.Continue? ==> AtBoundary(false, next.pending, loopGuard) && (mon.asked || aborted)
      ensures next.Continue? && next.pending == [] ==> NothingPending(next.hasMoreToolCalls)
      ensures next.Return? ==> next.outcome != StillRunning && (next.outcome == RunEnded ==> Finished(mon))
      ensures mon.end.stopRequested ==> Steering in mon.emptied || aborted
    {
      hide Remembers, Inv;
      var steering := Poll(Steering);
      if steering.Rejected? || steering.Threw? {
        var outcome := LeaveLoop(steering.Rejected?);
        return Return(outcome);
      }
      var messages := if steering.Settled? then steering.value else [];
      if |messages| == 0 {
        var stopBeforeTurn := AskBeforeTurn();
        if stopBeforeTurn.Threw? {
          return Return(RunThrew);
        }
        if stopBeforeTurn.value {
          EndLoop();
          return Return(RunEnded);
        }
      }
      return Continue(messages, hasMore);
    }

    /** A post-turn poll did not answer: an abort ends the loop, any other failure leaves it. */
    method LeaveLoop(onAbort: bool) returns (outcome: Outcome)
      requires Inv() && InStep() && mon.owed == [] && !mon.guard.due
      requires mon.end == RUNNING.(pollLost := mon.end.pollLost)
      requires mon.phase == BetweenTurns && mon.turn.answer.Some? && (onAbort ==> aborted)
      modifies this`log, this`mon
      modifies agent`messages, agent`streamingMessage, agent`errorMessage, agent`pendingToolCalls
      ensures Inv() && outcome == (if onAbort then RunEnded else RunThrew) && (onAbort ==> Finished(mon))
      ensures !mon.end.stopRequested
    {
      hide Inv;
      if !onAbort {
        return RunThrew;
      }
      NoteAbort(AbortObserved);
      EndLoop();
      return RunEnded;
    }

    /** The first poll, and the guard of the run; no messages at all when the poll failed or lost to an abort. */
    method OpenLoop() returns (pending: Option<Transcript>, loopGuard: ReasoningLoopGuard?)
      requires ReadyToStream() && InStep()
      requires mon.guard == GuardState(0, false, 0)
      modifies this`aborted, this`log, this`mon, agent.steeringQueue, agent.followUpQueue
      ensures Inv()
      ensures loopGuard != null ==> fresh(loopGuard)
      ensures pending.Some? ==> AtBoundary(true, pending.value, loopGuard) && (mon.asked || aborted)
    {
      hide Inv, Remembers;
      loopGuard := null;
      var initial := PollInitially();
      if initial.Rejected? || initial.Threw? {
        return None, loopGuard;
      }
      if config.guarded {
        loopGuard := new ReasoningLoopGuard(lang);
      }
      pending := Some(if initial.Settled? then initial.value else []);
    }

    method RunLoop() returns (outcome: Outcome)
      requires ReadyToStream() && InStep()
      requires mon.guard == GuardState(0, false, 0)
      modifies this`context, this`newMessages, this`aborted, this`log, this`mon
      modifies agent.steeringQueue, agent.followUpQueue
      modifies agent`messages, agent`streamingMessage, agent`errorMessage, agent`pendingToolCalls
      ensures Inv()
      ensures outcome == RunEnded ==> Finished(mon)
    {
      hide Inv, AtBoundary;
      var initial, loopGuard := OpenLoop();
      if initial.None? {
        return RunThrew;
      }
      var pendingMessages := initial.value;
      var firstTurn := true;
      var turns: nat := *;
      while true
        invariant Inv() && AtBoundary(firstTurn, pendingMessages, loopGuard) && (mon.asked || aborted)
        invariant loopGuard != null ==> fresh(loopGuard)
        invariant MayOpen(firstTurn, pendingMessages)
        decreases turns
      {
        if aborted {
          return RunThrew;
        }
        var hasMoreToolCalls := true;
        ghost var left := turns;
        while hasMoreToolCalls || |pendingMessages| > 0
          invariant Inv() && AtBoundary(firstTurn, pendingMessages, loopGuard) && (mon.asked || aborted)
          invariant loopGuard != null ==> fresh(loopGuard)
          invariant turns < left || (turns == left && hasMoreToolCalls)
          invariant MayOpen(firstTurn, pendingMessages)
          invariant !hasMoreToolCalls && pendingMessages == [] ==> !firstTurn && NothingPending(false)
          decreases turns
        {
          if turns == 0 {
            return StillRunning;
          }
          turns := turns - 1;
          var next := RunTurn(firstTurn, pendingMessages, hasMoreToolCalls, loopGuard);
          if next.Return? {
            return next.outcome;
          }
          firstTurn := false;
          pendingMessages, hasMoreToolCalls := next.pending, next.hasMoreToolCalls;
        }
        var more := PollForMore(loopGuard);
        if more.Nothing? {
          break;
        }
        if more.Over? {
          return more.outcome;
        }
        pendingMessages := more.messages;
      }
      EndLoop();
      return RunEnded;
    }

    /** Follow-ups first, and the host's continuations only when there were none. */
    method PollForMore(loopGuard: ReasoningLoopGuard?) returns (more: More)
      requires AtBoundary(false, [], loopGuard) && NothingPending(false)
      modifies this`aborted, this`log, this`mon, agent.steeringQueue, agent.followUpQueue
      modifies agent`messages, agent`streamingMessage, agent`errorMessage, agent`pendingToolCalls
      ensures Inv()
      ensures more.Messages? ==> AtBoundary(false, more.messages, loopGuard) && (mon.asked || aborted)
      ensures more.Messages? ==> more.messages != []
      ensures more.Nothing? ==> MayEndLoop()
      ensures more.Over? ==> more.outcome != StillRunning && (more.outcome == RunEnded ==> Finished(mon))
    {
      hide Remembers, Inv;
      var stopBeforeTurn := AskBeforeTurn();
      if stopBeforeTurn.Threw? {
        return Over(RunThrew);
      }
      if stopBeforeTurn.value {
        return Nothing;
      }
      var followUps := Poll(FollowUp);
      if followUps.Rejected? || followUps.Threw? {
        var outcome := LeaveLoop(followUps.Rejected?);
        return Over(outcome);
      }
      if followUps.Settled? && |followUps.value| > 0 {
        return Messages(followUps.value);
      }
      more := PollContinuations(loopGuard);
    }

    /**
     * The last source, asked unless the run is to stop; without messages from it, nothing is left. Unlike the queues
     * it is asked even when the run is aborted already, but then its answer is lost to the abort.
     */
    method PollContinuations(loopGuard: ReasoningLoopGuard?) returns (more: More)
      requires AtBoundary(false, [], loopGuard) && ({Steering, FollowUp} <= mon.emptied || aborted)
      requires mon.turn.close.Closed? && mon.turn.close.kind.Completed? && mon.noes == {AfterTurn}
      requires mon.asked || aborted
      modifies this`aborted, this`log, this`mon
      modifies agent`messages, agent`streamingMessage, agent`errorMessage, agent`pendingToolCalls
      ensures Inv()
      ensures more.Messages? ==> AtBoundary(false, more.messages, loopGuard) && (mon.asked || aborted)
      ensures more.Messages? ==> more.messages != []
      ensures more.Nothing? ==> MayEndLoop()
      ensures more.Over? ==> more.outcome != StillRunning && (more.outcome == RunEnded ==> Finished(mon))
    {
      hide Remembers, Inv;
      var stopBeforeTurn := AskBeforeTurn();
      if stopBeforeTurn.Threw? {
        return Over(RunThrew);
      }
      if stopBeforeTurn.value {
        return Nothing;
      }
      var continuations := AwaitMessages();
      if !continuations.Settled? {
        var outcome := LeaveLoop(continuations.Rejected?);
        return Over(outcome);
      }
      Note(Polled(Continuation, continuations.value));
      return if |continuations.value| > 0 then Messages(continuations.value) else Nothing;
    }

    ghost predicate MayEndLoop()
      reads this, agent, agent.steeringQueue, agent.followUpQueue
    {
      && Inv() && InStep() && mon.owed == [] && mon.phase == BetweenTurns && mon.turn.answer.Some? && MayEnd(mon)
      && mon.end == RUNNING.(stopRequested := mon.end.stopRequested) && !mon.guard.due
    }

    /** A run that starts with prompts; with none, it continues the transcript as it stands. */
    method RunAgentLoop() returns (outcome: Outcome)
      requires Inv() && mon == Start(prompts) && context == base + prompts && newMessages == prompts
      modifies this`context, this`newMessages, this`aborted, this`log, this`mon
      modifies agent.steeringQueue, agent.followUpQueue
      modifies agent`messages, agent`streamingMessage, agent`errorMessage, agent`pendingToolCalls
      ensures Inv()
      ensures outcome == RunEnded ==> Finished(mon)
    {
      hide Inv;
      Emit(AgentStart);
      Emit(TurnStart);
      EmitPrompts();
      outcome := RunLoop();
    }

    /** The prompts are in both of the loop's transcripts already, so that they only have to be told. */
    method EmitPrompts()
      requires Inv() && mon == Start(prompts).(phase := TurnOpen)
      modifies this`log, this`mon, agent`messages, agent`streamingMessage, agent`errorMessage, agent`pendingToolCalls
      ensures Inv() && mon == Start(prompts).(phase := TurnOpen, owed := [], finished := prompts)
    {
      hide Inv;
      assert prompts[0..] == prompts && prompts[..0] == [];
      for i := 0 to |prompts|
        invariant Inv() && mon == Start(prompts).(phase := TurnOpen, owed := prompts[i..], finished := prompts[..i])
      {
        assert prompts[i..][1..] == prompts[i + 1..] && prompts[..i] + [prompts[i]] == prompts[..i + 1];
        Emit(MessageStart(prompts[i]));
        Emit(MessageEnd(prompts[i]));
      }
      assert prompts[..|prompts|] == prompts && prompts[|prompts|..] == [];
    }

    /** What the invariant says of the world outside the run. */
    lemma IsTold()
      requires Inv()
      ensures Monitor(base, prompts, config, log) == Some(mon)
      ensures agent.messages == base + mon.finished && agent.QueuesValid()
      ensures agent.steeringQueue.Handed() == steeringBefore + Taken(Steering, log)
      ensures agent.followUpQueue.Handed() == followUpBefore + Taken(FollowUp, log)
    {
      assert steeringBefore + Taken(Steering, log) + [] == steeringBefore + Taken(Steering, log);
      assert followUpBefore + Taken(FollowUp, log) + [] == followUpBefore + Taken(FollowUp, log);
    }

    method DecisionMessage() returns (message: AgentMessage)
      ensures fresh(message)
    {
      message := new AgentMessage(UserRole, StopEnd, [], "");
    }
  }

  /** Nothing but updates of call `k` was added to the history. */
  ghost predicate OnlyUpdates(before: Log, after: Log, k: nat) {
    && |before| <= |after| && after[..|before|] == before
    && forall i :: |before| <= i < |after| ==> after[i].Emitted? && after[i].event == ToolExecutionUpdate(k)
  }

  lemma OnlyUpdatesGrow(a: Log, b: Log, c: Log, k: nat)
    requires OnlyUpdates(a, b, k) && OnlyUpdates(b, c, k)
    ensures OnlyUpdates(a, c, k)
  {
    assert c[..|a|] == c[..|b|][..|a|];
    assert forall i :: |a| <= i < |b| ==> c[i] == c[..|b|][i];
  }

  lemma AllAskSnoc(results: Transcript, result: AgentMessage)
    ensures AllAsk(results + [result]) == (AllAsk(results) && result.terminates)
  {
    assert forall k :: 0 <= k < |results| ==> (results + [result])[k] == results[k];
    assert (results + [result])[|results|] == result;
  }

  lemma LadderEndsInStop(g: GuardState, decision: Decision)
    requires !GuardStopped(g) && decision == LADDER[g.triggers]
    ensures decision == StopRun <==> g.triggers + 1 >= 3
  {
  }

  lemma {:induction false} RankDrops(tasks: seq<Task>, j: nat)
    requires j < |tasks| && tasks[j] != Done
    ensures Rank(tasks[j := if tasks[j] == Executing then Settling else Done]) < Rank(tasks)
    decreases |tasks|
  {
    var next := tasks[j := if tasks[j] == Executing then Settling else Done];
    var n := |tasks| - 1;
    if j < n {
      RankDrops(tasks[..n], j);
      assert next[..n] == tasks[..n][j := next[j]];
    } else {
      assert next[..n] == tasks[..n];
    }
  }
}
