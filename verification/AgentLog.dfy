/**
 * The vocabulary of an agent run and the rules its history obeys: a monitor that
 * reads the history of a run step by step and refuses the first illegal step.
 */
module AgentLog {
  import opened Std

  datatype Role = UserRole | AssistantRole | ToolResultRole | CustomRole

  datatype StopReason = StopEnd | StopLength | StopToolUse | StopError | StopAborted

  datatype ToolCall = ToolCall(id: string, name: Text)

  /** A transcript message. Transcripts share messages, and a call recovered from plain text is added in place. */
  class AgentMessage {
    const role: Role
    const stopReason: StopReason
    /** What went wrong; the empty string when nothing did. */
    const errorMessage: string
    var toolCalls: seq<ToolCall>
    /** For tool results: the call answered, the amount of text observed, and whether the tool asked to terminate. */
    const toolCallId: string
    const observationBytes: nat
    const terminates: bool

    constructor (role: Role, stopReason: StopReason, toolCalls: seq<ToolCall>, errorMessage: string)
      ensures this.role == role && this.stopReason == stopReason && this.toolCalls == toolCalls
      ensures this.errorMessage == errorMessage
    {
      this.role, this.stopReason, this.toolCalls, this.errorMessage := role, stopReason, toolCalls, errorMessage;
      this.toolCallId, this.observationBytes, this.terminates := "", 0, false;
    }

    constructor ToolResult(toolCallId: string, bytes: nat, terminates: bool)
      ensures this.toolCallId == toolCallId && this.observationBytes == bytes && this.terminates == terminates
    {
      this.role, this.stopReason, this.toolCalls, this.errorMessage := ToolResultRole, StopEnd, [], "";
      this.toolCallId, this.observationBytes, this.terminates := toolCallId, bytes, terminates;
    }
  }

  type Transcript = seq<AgentMessage>

  /** How a finished turn came to its end. */
  datatype TurnKind =
    | Cut                       // the reasoning-loop guard stopped the generation
    | Stopped                   // error, abort or degeneracy: the run ends
    | Completed(progress: bool) // the response and its tool calls finished

  datatype AgentEvent =
    | AgentStart
    | AgentEnd
    | TurnStart
    | TurnEnd(message: AgentMessage, toolResults: Transcript)
    | MessageStart(message: AgentMessage)
    | MessageUpdate(message: AgentMessage)
    | MessageEnd(message: AgentMessage)
    | ToolExecutionStart(call: nat, id: string)
    | ToolExecutionUpdate(call: nat)
    | ToolExecutionEnd(call: nat, id: string)

  datatype Decision = Steer | AbortAndContinue | StopRun

  datatype Source = Steering | FollowUp | Continuation | GuardMessage

  /** The transcripts, the pending tool calls and the abort signal at the moment of an event. */
  datatype View = View(
    context: Transcript, newMessages: Transcript, agent: Transcript, pending: set<string>, aborted: bool)

  /** What the turn amounted to, recorded with its `turn_end`; `more` asks for another response to its tool results. */
  datatype TurnFacts = TurnFacts(kind: TurnKind, calls: seq<ToolCall>, more: bool)

  /** The host's hooks that may stop a run: after a turn has ended, and before each next step. */
  datatype Hook = AfterTurn | BeforeTurn

  /** What a run is configured with: the guard, and the tools that do not run side by side with others. */
  datatype Config = Config(guarded: bool, sequential: bool, needsSequence: Text -> bool)

  /** Whether the calls of a message run one after the other: all do, or one of their tools asks for it. */
  predicate InSequence(config: Config, calls: seq<ToolCall>) {
    config.sequential || exists k :: 0 <= k < |calls| && config.needsSequence(calls[k].name)
  }

  datatype Entry =
    | Emitted(event: AgentEvent, view: View)
    | TurnEnded(event: AgentEvent, view: View, facts: TurnFacts)
    | Polled(source: Source, messages: Transcript)
    | PollSkipped(source: Source) // the run was aborted already, so the source was not asked
    | PollWaived                  // steering itself opened the run, so that its first poll answers with nothing
    | PollLost(source: Source, messages: Transcript) // an abort won against what the source had handed out
    | ProviderCalled(context: Transcript)
    | Triggered(decision: Decision)
    | Degenerated        // the response was stopped because its text degenerates
    | HookAnswered(hook: Hook, yes: bool) // a stop hook was asked; a yes asks for the end of the run
    | BatchOpened(calls: seq<ToolCall>)   // the calls of a finished response are about to run
    | AbortObserved      // the loop found the run aborted after a turn, and ends it
    | AbortedInStopHook  // an abort landed while `shouldStopAfterTurn` was awaited

  type Log = seq<Entry>

  /** What an entry takes from `source`. */
  function Takes(source: Source, entry: Entry): Transcript {
    match entry
    case Polled(s, messages) => if s == source then messages else []
    case PollLost(s, messages) => if s == source then messages else []
    case _ => []
  }

  /** Everything taken from `source`, in order. */
  function Taken(source: Source, log: Log): Transcript {
    if log == [] then [] else Taken(source, log[..|log| - 1]) + Takes(source, log[|log| - 1])
  }

  // ------------------------------------------------------------------------------------------
  // The monitor
  // ------------------------------------------------------------------------------------------

  datatype Phase = NotStarted | TurnOpen | MessageOpen(started: AgentMessage) | BetweenTurns | Ended

  /** What stopped a response from within the loop; degeneracy is looked at first. */
  datatype Cause = NoCause | ByGuard | ByDegeneracy

  datatype CallState = CallState(id: string, open: bool)

  datatype TurnClose = NotClosed | Closed(kind: TurnKind, more: bool)

  /** The part of the monitor that starts anew with each turn. */
  datatype TurnState = TurnState(
    provider: bool,                 // the provider was called
    answer: Option<AgentMessage>,   // the assistant message, once finished
    batch: Option<seq<ToolCall>>,   // the calls to run, once they are known
    calls: seq<CallState>,          // tool executions, in starting order
    results: nat,                   // tool result messages finished
    cause: Cause,                   // what stopped the response
    close: TurnClose)               // how the turn ended

  datatype GuardState = GuardState(
    triggers: nat,  // decisions taken so far
    due: bool,      // a decision's message is waiting to be delivered
    streak: nat)    // consecutive turns, up to now, that were cut or made no progress

  /** How the run came, or is coming, to its end. */
  datatype EndState = EndState(
    agentEnds: nat, stopHookAborted: bool, stopRequested: bool, abortObserved: bool, pollLost: bool)

  const RUNNING := EndState(0, false, false, false, false)

  datatype Mon = Mon(
    phase: Phase,
    turn: TurnState,
    finished: Transcript,           // messages whose message_end was emitted
    owed: Transcript,               // messages taken from a source and not yet appended
    emptied: set<Source>,           // sources found empty since the last turn ended
    asked: bool,                    // steering, or the guard in its place, was asked since then
    noes: set<Hook>,                // hooks that said no: after the turn, and before the step that comes next
    guard: GuardState,
    end: EndState)

  const NEW_TURN := TurnState(false, None, None, [], 0, NoCause, NotClosed)

  function Start(prompts: Transcript): Mon {
    Mon(NotStarted, NEW_TURN, [], prompts, {}, false, {}, GuardState(0, false, 0), RUNNING)
  }

  /** The recovery ladder: each decision is taken at most once, in this order. */
  const LADDER: seq<Decision> := [Steer, AbortAndContinue, StopRun]

  predicate GuardStopped(g: GuardState) { g.triggers >= 3 }

  /** A turn that brought the run no further. */
  predicate BadTurn(kind: TurnKind) { kind == Cut || kind == Completed(false) }

  function StreakAfter(streak: nat, kind: TurnKind): nat {
    if BadTurn(kind) then streak + 1 else if kind == Completed(true) then 0 else streak
  }

  const MAX_BAD_TURNS: nat := 4

  function ObservedBytes(results: Transcript): nat {
    if results == [] then 0 else ObservedBytes(results[..|results| - 1]) + results[|results| - 1].observationBytes
  }

  predicate AllAsk(results: Transcript) {
    forall k :: 0 <= k < |results| ==> results[k].terminates
  }

  /** A batch ends the round of tool calls when it has results and all of them ask for it. */
  predicate AllTerminate(results: Transcript) {
    results != [] && AllAsk(results)
  }

  /** The three transcripts tell the same story: what was there, then the finished messages in order. */
  predicate Agree(base: Transcript, finished: Transcript, view: View) {
    view.newMessages == finished && view.context == base + finished && view.agent == base + finished
  }

  predicate AllClosed(calls: seq<CallState>) { forall k :: 0 <= k < |calls| ==> !calls[k].open }

  predicate ResultsAnswer(results: Transcript, calls: seq<ToolCall>) {
    |results| <= |calls| && forall k :: 0 <= k < |results| ==> results[k].toolCallId == calls[k].id
  }

  predicate TurnEndOk(base: Transcript, config: Config, mon: Mon, event: AgentEvent, view: View, facts: TurnFacts) {
    && event.TurnEnd? && mon.phase == TurnOpen && mon.owed == []
    && mon.turn.answer == Some(event.message)
    && AllClosed(mon.turn.calls) && view.pending == {}
    && |event.toolResults| == |mon.turn.calls| == mon.turn.results
    && mon.turn.results <= |mon.finished|
    && event.toolResults == mon.finished[|mon.finished| - mon.turn.results..]
    && ResultsAnswer(event.toolResults, facts.calls)
    && (!facts.kind.Completed? ==> event.toolResults == [])
    && (facts.kind.Completed? ==>
          && facts.calls == (if mon.turn.batch.Some? then mon.turn.batch.value else [])
          && (|event.toolResults| == |facts.calls| || (InSequence(config, facts.calls) && view.aborted))
          && facts.kind.progress == (|facts.calls| > 0 || ObservedBytes(event.toolResults) > 0))
    && (facts.kind == Cut <==> mon.turn.cause == ByGuard)
    && (mon.turn.cause == ByDegeneracy ==> facts.kind == Stopped)
    && (facts.kind.Completed? ==> facts.more == (facts.calls != [] && !AllTerminate(event.toolResults)))
    && Agree(base, mon.finished, view)
  }

  const ALL_SOURCES: set<Source> := {Steering, FollowUp, Continuation}

  /** Between turns, a run ends because it was stopped or aborted, or because no source had anything left. */
  predicate MayEnd(mon: Mon) {
    || mon.end.stopRequested || mon.end.abortObserved || mon.end.stopHookAborted || GuardStopped(mon.guard)
    || (mon.turn.close.Closed? && mon.turn.close.kind == Stopped)
    || ALL_SOURCES <= mon.emptied
  }

  /**
   * Whether a finished message may come now: an owed one first, then the answer, then results of closed calls. Only
   * the answer, which grows while it is streamed, may be another object than the one the message started with.
   */
  predicate MessageEndOk(mon: Mon, m: AgentMessage) {
    && mon.phase.MessageOpen? && (m == mon.phase.started || m.role == AssistantRole)
    && (if mon.owed != [] then m == mon.owed[0] == mon.phase.started
        else if mon.turn.answer.None? then m.role == AssistantRole
        else mon.turn.results < |mon.turn.calls| && !mon.turn.calls[mon.turn.results].open
             && m.toolCallId == mon.turn.calls[mon.turn.results].id && m == mon.phase.started)
  }

  /** Tool calls start in source order; those in sequence one at a time, each after the last one's result. */
  predicate StartOk(config: Config, mon: Mon, k: nat, id: string, view: View) {
    && mon.phase == TurnOpen && mon.turn.answer.Some? && k == |mon.turn.calls|
    && mon.turn.batch.Some? && k < |mon.turn.batch.value| && id == mon.turn.batch.value[k].id
    && (InSequence(config, mon.turn.batch.value)
        ==> !view.aborted && AllClosed(mon.turn.calls) && mon.turn.results == k)
  }

  /** Result messages come once there are calls to answer; for calls side by side, once all have been started. */
  predicate ResultsMayCome(config: Config, mon: Mon) {
    && mon.turn.batch.Some?
    && (!InSequence(config, mon.turn.batch.value) ==> |mon.turn.calls| == |mon.turn.batch.value|)
  }

  predicate EventOk(base: Transcript, config: Config, mon: Mon, event: AgentEvent, view: View) {
    match event
    case AgentStart => mon.phase == NotStarted
    case AgentEnd =>
      && ((mon.phase == BetweenTurns && mon.turn.answer.Some? && MayEnd(mon))
          || (mon.phase == Ended && mon.end.agentEnds == 1 && mon.end.stopHookAborted))
      && mon.owed == [] && !mon.guard.due && Agree(base, mon.finished, view)
    case TurnStart =>
      && mon.phase == BetweenTurns && !GuardStopped(mon.guard) && !mon.guard.due
      && !mon.end.pollLost
      && (mon.turn.answer.Some? ==> !view.aborted && (mon.owed != [] || BeforeTurn in mon.noes))
    case TurnEnd(_, _) => false
    case MessageStart(_) =>
      mon.phase == TurnOpen && (mon.owed == [] && mon.turn.answer.Some? ==> ResultsMayCome(config, mon))
    case MessageUpdate(_) => mon.phase.MessageOpen? && mon.turn.cause == NoCause
    case MessageEnd(m) => MessageEndOk(mon, m)
    case ToolExecutionStart(k, id) => StartOk(config, mon, k, id, view)
    case ToolExecutionUpdate(k) =>
      mon.phase == TurnOpen && k < |mon.turn.calls| && mon.turn.calls[k].open && !view.aborted
    case ToolExecutionEnd(k, id) =>
      mon.phase == TurnOpen && k < |mon.turn.calls| && mon.turn.calls[k] == CallState(id, true)
  }

  /**
   * Sources are asked in order: follow-ups only when the turn asked for no other response and steering was empty,
   * continuations only when both were. Between turns every poll comes after a no of the hooks.
   */
  predicate PollOk(mon: Mon, source: Source) {
    && mon.owed == [] && !mon.end.pollLost
    && (mon.phase == BetweenTurns && source != GuardMessage ==> mon.noes == {AfterTurn, BeforeTurn})
    && match source
       case Steering => mon.phase == BetweenTurns || (mon.phase == TurnOpen && mon.turn.answer.None?)
       case FollowUp =>
         mon.phase == BetweenTurns && Steering in mon.emptied && mon.turn.close.Closed? && !mon.turn.close.more
       case Continuation => mon.phase == BetweenTurns && Steering in mon.emptied && FollowUp in mon.emptied
       case GuardMessage => mon.phase == BetweenTurns && mon.guard.due
  }

  predicate SkipOk(mon: Mon) {
    mon.owed == [] && (mon.phase == BetweenTurns || (mon.phase == TurnOpen && mon.turn.answer.None?))
  }

  /** The provider was called and has not finished its response. */
  predicate Responding(mon: Mon) {
    (mon.phase == TurnOpen || mon.phase.MessageOpen?) && mon.turn.provider && mon.turn.answer.None?
  }

  /** The guard decides on a response that nothing stopped yet, or on a finished turn that made no progress. */
  predicate MayTrigger(mon: Mon) {
    && !mon.guard.due && mon.owed == []
    && (if mon.phase == BetweenTurns then mon.turn.close.Closed? && mon.turn.close.kind == Completed(false)
        else Responding(mon) && mon.turn.cause == NoCause)
  }

  /** The first hook is asked once after a completed turn, the second one from then on before every step. */
  predicate HookOk(mon: Mon, hook: Hook) {
    && mon.phase == BetweenTurns && mon.owed == [] && !mon.guard.due && !mon.end.pollLost
    && mon.turn.close.Closed? && mon.turn.close.kind.Completed?
    && (hook == AfterTurn <==> AfterTurn !in mon.noes)
  }

  /** After a yes of a hook nothing but the end may follow. */
  predicate EntryOk(base: Transcript, config: Config, mon: Mon, entry: Entry) {
    && (mon.end.stopRequested ==> entry.Emitted? && entry.event == AgentEnd)
    && StepOk(base, config, mon, entry)
  }

  /** Whether `entry` may follow when no hook has said yes. */
  predicate StepOk(base: Transcript, config: Config, mon: Mon, entry: Entry) {
    match entry
    case Emitted(event, view) => EventOk(base, config, mon, event, view)
    case TurnEnded(event, view, facts) =>
      TurnEndOk(base, config, mon, event, view, facts)
      && (config.guarded ==> StreakAfter(mon.guard.streak, facts.kind) <= MAX_BAD_TURNS)
    case Polled(source, messages) => PollOk(mon, source) && (source == GuardMessage ==> |messages| == 1)
    case PollSkipped(_) => SkipOk(mon)
    case PollWaived => mon.phase == TurnOpen && PollOk(mon, Steering)
    case PollLost(source, _) => PollOk(mon, source) && (source == Steering || source == FollowUp)
    case ProviderCalled(context) =>
      context == base + mon.finished && mon.phase == TurnOpen && mon.asked && mon.owed == []
      && !mon.turn.provider && mon.turn.answer.None?
      && !GuardStopped(mon.guard) && !mon.end.pollLost
    case Triggered(decision) =>
      config.guarded && !GuardStopped(mon.guard) && decision == LADDER[mon.guard.triggers] && MayTrigger(mon)
    case Degenerated => Responding(mon) && mon.turn.cause != ByDegeneracy
    case HookAnswered(hook, _) => HookOk(mon, hook)
    case BatchOpened(calls) =>
      mon.phase == TurnOpen && mon.turn.answer.Some? && mon.turn.batch.None? && mon.turn.calls == [] && calls != []
    case AbortObserved => mon.phase == BetweenTurns && mon.turn.answer.Some?
    case AbortedInStopHook => mon.turn.answer.Some? && HookOk(mon, AfterTurn)
  }

  function AfterMessageEnd(mon: Mon, m: AgentMessage): Mon
    requires MessageEndOk(mon, m)
  {
    var done := mon.(phase := TurnOpen, finished := mon.finished + [m]);
    if mon.owed != [] then done.(owed := mon.owed[1..])
    else if mon.turn.answer.None? then done.(turn := mon.turn.(answer := Some(m)))
    else done.(turn := mon.turn.(results := mon.turn.results + 1))
  }

  function AfterEvent(mon: Mon, event: AgentEvent): Mon
    requires event.MessageEnd? ==> MessageEndOk(mon, event.message)
    requires event.ToolExecutionEnd? ==> event.call < |mon.turn.calls|
  {
    match event
    case AgentStart => mon.(phase := BetweenTurns)
    case AgentEnd => mon.(phase := Ended, end := mon.end.(agentEnds := mon.end.agentEnds + 1))
    case TurnStart => mon.(phase := TurnOpen, turn := NEW_TURN)
    case TurnEnd(_, _) => mon
    case MessageStart(m) => mon.(phase := MessageOpen(m))
    case MessageUpdate(_) => mon
    case MessageEnd(m) => AfterMessageEnd(mon, m)
    case ToolExecutionStart(_, id) =>
      mon.(turn := mon.turn.(calls := mon.turn.calls + [CallState(id, true)]))
    case ToolExecutionUpdate(_) => mon
    case ToolExecutionEnd(k, id) =>
      mon.(turn := mon.turn.(calls := mon.turn.calls[k := CallState(id, false)]))
  }

  function AfterPoll(mon: Mon, source: Source, messages: Transcript): Mon {
    mon.(owed := messages,
         emptied := if messages == [] then mon.emptied + {source} else mon.emptied,
         asked := mon.asked || source == Steering || source == GuardMessage,
         noes := mon.noes - {BeforeTurn},
         guard := if source == GuardMessage then mon.guard.(due := false) else mon.guard)
  }

  function AfterTurnEnd(mon: Mon, facts: TurnFacts): Mon {
    mon.(phase := BetweenTurns, emptied := {}, asked := false, noes := {},
         turn := mon.turn.(close := Closed(facts.kind, facts.more)),
         guard := mon.guard.(streak := StreakAfter(mon.guard.streak, facts.kind)))
  }

  function AfterHook(mon: Mon, hook: Hook, yes: bool): Mon {
    if yes then mon.(end := mon.end.(stopRequested := true)) else mon.(noes := mon.noes + {hook})
  }

  function After(base: Transcript, config: Config, mon: Mon, entry: Entry): Mon
    requires EntryOk(base, config, mon, entry)
  {
    match entry
    case Emitted(event, _) => AfterEvent(mon, event)
    case TurnEnded(_, _, facts) => AfterTurnEnd(mon, facts)
    case Polled(source, messages) => AfterPoll(mon, source, messages)
    case PollSkipped(_) => mon.(noes := mon.noes - {BeforeTurn})
    case PollWaived => mon.(asked := true)
    case PollLost(_, _) => mon.(end := mon.end.(pollLost := true))
    case ProviderCalled(_) => mon.(turn := mon.turn.(provider := true))
    case Triggered(decision) =>
      mon.(guard := mon.guard.(triggers := mon.guard.triggers + 1, due := decision != StopRun),
           turn := if mon.phase == BetweenTurns then mon.turn else mon.turn.(cause := ByGuard))
    case Degenerated => mon.(guard := mon.guard.(due := false), turn := mon.turn.(cause := ByDegeneracy))
    case HookAnswered(hook, yes) => AfterHook(mon, hook, yes)
    case BatchOpened(calls) => mon.(turn := mon.turn.(batch := Some(calls)))
    case AbortObserved => mon.(end := mon.end.(abortObserved := true))
    case AbortedInStopHook => mon.(end := mon.end.(stopHookAborted := true))
  }

  /** The monitor's state after a whole history, or None when some step of it was illegal. */
  function Monitor(base: Transcript, prompts: Transcript, config: Config, log: Log): Option<Mon> {
    if log == [] then Some(Start(prompts))
    else
      match Monitor(base, prompts, config, log[..|log| - 1])
      case None => None
      case Some(mon) =>
        var entry := log[|log| - 1];
        if EntryOk(base, config, mon, entry) then Some(After(base, config, mon, entry)) else None
  }

  /** A history that ends as a run may end: one `agent_end`, or two when an abort landed in the stop hook. */
  predicate Finished(mon: Mon) {
    mon.phase == Ended && mon.owed == [] && mon.end.agentEnds == if mon.end.stopHookAborted then 2 else 1
  }
}
