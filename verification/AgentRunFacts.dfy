/** What it means for a run that the monitor accepts its history, said without the monitor. */
module AgentRunFacts {
  import opened Std
  import opened AgentLog

  ghost predicate Legal(base: Transcript, prompts: Transcript, config: Config, log: Log) {
    Monitor(base, prompts, config, log).Some?
  }

  lemma {:induction false} LegalPrefix(base: Transcript, prompts: Transcript, config: Config, log: Log, i: nat)
    requires Legal(base, prompts, config, log) && i <= |log|
    ensures Legal(base, prompts, config, log[..i])
    decreases |log|
  {
    if i < |log| {
      assert log[..|log| - 1][..i] == log[..i];
      LegalPrefix(base, prompts, config, log[..|log| - 1], i);
    } else {
      assert log[..i] == log;
    }
  }

  /** The monitor's step at position `i`. */
  lemma LegalStep(base: Transcript, prompts: Transcript, config: Config, log: Log, i: nat)
    requires Legal(base, prompts, config, log) && i < |log|
    ensures Legal(base, prompts, config, log[..i])
    ensures EntryOk(base, config, Monitor(base, prompts, config, log[..i]).value, log[i])
  {
    LegalPrefix(base, prompts, config, log, i);
    LegalPrefix(base, prompts, config, log, i + 1);
    assert log[..i + 1][..i] == log[..i];
  }

  /** The event of an entry, if it is one. */
  function EventOf(entry: Entry): Option<AgentEvent> {
    match entry
    case Emitted(event, _) => Some(event)
    case TurnEnded(event, _, _) => Some(event)
    case _ => None
  }

  // ------------------------------------------------------------------------------------------
  // Transcripts
  // ------------------------------------------------------------------------------------------

  /** The messages whose `message_end` stands in the history, in order. */
  function FinishedMessages(log: Log): Transcript {
    if log == [] then []
    else
      var before := FinishedMessages(log[..|log| - 1]);
      match EventOf(log[|log| - 1])
      case Some(MessageEnd(m)) => before + [m]
      case _ => before
  }

  lemma {:induction false} FinishedIsFinished(base: Transcript, prompts: Transcript, config: Config, log: Log)
    requires Legal(base, prompts, config, log)
    ensures Monitor(base, prompts, config, log).value.finished == FinishedMessages(log)
  {
    if log != [] {
      var init := log[..|log| - 1];
      FinishedIsFinished(base, prompts, config, init);
      FinishedStep(base, config, Monitor(base, prompts, config, init).value, log[|log| - 1]);
    }
  }

  lemma FinishedStep(base: Transcript, config: Config, mon: Mon, entry: Entry)
    requires EntryOk(base, config, mon, entry)
    ensures After(base, config, mon, entry).finished
         == match EventOf(entry)
            case Some(MessageEnd(m)) => mon.finished + [m]
            case _ => mon.finished
  {
  }

  /** At every `turn_end` and `agent_end` the three transcripts agree, and at `turn_end` no call is pending. */
  lemma TranscriptsAgree(base: Transcript, prompts: Transcript, config: Config, log: Log, i: nat)
    requires Legal(base, prompts, config, log) && i < |log|
    requires log[i].TurnEnded? || (log[i].Emitted? && log[i].event.AgentEnd?)
    ensures var view := log[i].view;
            && view.newMessages == FinishedMessages(log[..i])
            && view.context == base + view.newMessages && view.agent == view.context
            && (log[i].TurnEnded? ==> view.pending == {})
  {
    LegalStep(base, prompts, config, log, i);
    FinishedIsFinished(base, prompts, config, log[..i]);
  }

  /** The transcript a history tells: the prompts, then every batch taken and every turn's answer and results. */
  function Story(prompts: Transcript, log: Log): Transcript {
    if log == [] then prompts
    else
      var before := Story(prompts, log[..|log| - 1]);
      match log[|log| - 1]
      case Polled(_, messages) => before + messages
      case TurnEnded(TurnEnd(m, results), _, _) => before + [m] + results
      case _ => before
  }

  /** While a turn is open and answered, its answer and results so far come on top of the story. */
  function InProgress(mon: Mon): Option<nat> {
    if (mon.phase == TurnOpen || mon.phase.MessageOpen?) && mon.turn.answer.Some? then Some(mon.turn.results + 1)
    else None
  }

  /** Owed messages come before the answer, and results after it. */
  ghost predicate TurnInOrder(mon: Mon) {
    && (mon.turn.answer.None? ==> mon.turn.results == 0)
    && ((mon.phase == TurnOpen || mon.phase.MessageOpen?) && mon.turn.answer.Some? ==> mon.owed == [])
  }

  lemma {:induction false} TurnsInOrder(base: Transcript, prompts: Transcript, config: Config, log: Log)
    requires Legal(base, prompts, config, log)
    ensures TurnInOrder(Monitor(base, prompts, config, log).value)
  {
    if log != [] {
      var init := log[..|log| - 1];
      TurnsInOrder(base, prompts, config, init);
      TurnInOrderStep(base, config, Monitor(base, prompts, config, init).value, log[|log| - 1]);
    }
  }

  lemma TurnInOrderStep(base: Transcript, config: Config, mon: Mon, entry: Entry)
    requires TurnInOrder(mon) && EntryOk(base, config, mon, entry)
    ensures TurnInOrder(After(base, config, mon, entry))
  {
  }

  ghost predicate TellsStory(mon: Mon, story: Transcript) {
    match InProgress(mon)
    case None => mon.finished + mon.owed == story
    case Some(n) =>
      && mon.owed == [] && n <= |mon.finished|
      && mon.finished[..|mon.finished| - n] == story
      && mon.finished[|mon.finished| - n] == mon.turn.answer.value
  }

  lemma {:induction false} StoryIsTold(base: Transcript, prompts: Transcript, config: Config, log: Log)
    requires Legal(base, prompts, config, log)
    ensures TellsStory(Monitor(base, prompts, config, log).value, Story(prompts, log))
  {
    if log != [] {
      var init, entry := log[..|log| - 1], log[|log| - 1];
      StoryIsTold(base, prompts, config, init);
      var mon := Monitor(base, prompts, config, init).value;
      TurnsInOrder(base, prompts, config, init);
      StoryStep(base, config, mon, entry, Story(prompts, init));
    }
  }

  function StoryAfter(story: Transcript, entry: Entry): Transcript {
    match entry
    case Polled(_, messages) => story + messages
    case TurnEnded(TurnEnd(m, results), _, _) => story + [m] + results
    case _ => story
  }

  lemma StoryStep(base: Transcript, config: Config, mon: Mon, entry: Entry, story: Transcript)
    requires TellsStory(mon, story) && TurnInOrder(mon) && EntryOk(base, config, mon, entry)
    ensures TellsStory(After(base, config, mon, entry), StoryAfter(story, entry))
  {
    hide EventOk, Agree, ResultsAnswer, InSequence, AfterEvent, HookOk, MayTrigger;
    if entry.TurnEnded? {
      StoryOfTurn(mon, entry.event, story);
      assert After(base, config, mon, entry).owed == [] && mon.finished + [] == mon.finished;
    } else if entry.Emitted? {
      StoryOfEvent(base, config, mon, entry.event, entry.view, story);
    } else if entry.Polled? {
      assert mon.owed == [] && mon.finished + [] == mon.finished;
    } else {
      hide EntryOk, After, TellsStory, TurnInOrder;
      QuietStep(base, config, mon, entry);
      SameStory(mon, After(base, config, mon, entry), story);
    }
  }

  /** What a story is told by. */
  ghost predicate SameTelling(x: Mon, y: Mon) {
    x.phase == y.phase && x.finished == y.finished && x.owed == y.owed && x.turn.answer == y.turn.answer
    && x.turn.results == y.turn.results
  }

  lemma QuietStep(base: Transcript, config: Config, mon: Mon, entry: Entry)
    requires !entry.Emitted? && !entry.TurnEnded? && !entry.Polled? && EntryOk(base, config, mon, entry)
    ensures SameTelling(mon, After(base, config, mon, entry))
  {
    hide EntryOk;
  }

  lemma SameStory(x: Mon, y: Mon, story: Transcript)
    requires SameTelling(x, y)
    ensures TellsStory(x, story) <==> TellsStory(y, story)
  {
  }

  lemma StoryOfEvent(base: Transcript, config: Config, mon: Mon, event: AgentEvent, view: View, story: Transcript)
    requires TellsStory(mon, story) && TurnInOrder(mon) && EventOk(base, config, mon, event, view)
    ensures TellsStory(AfterEvent(mon, event), story)
  {
    if event.MessageEnd? {
      StoryOfMessage(mon, event.message, story);
    } else {
      assert InProgress(AfterEvent(mon, event)) == InProgress(mon);
    }
  }

  lemma StoryOfTurn(mon: Mon, event: AgentEvent, story: Transcript)
    requires TellsStory(mon, story) && InProgress(mon) == Some(mon.turn.results + 1)
    requires event.TurnEnd? && mon.turn.answer == Some(event.message)
    requires event.toolResults == mon.finished[|mon.finished| - mon.turn.results..]
    ensures mon.finished == story + [event.message] + event.toolResults
  {
    var n, f := mon.turn.results, mon.finished;
    assert f == f[..|f| - n - 1] + [f[|f| - n - 1]] + f[|f| - n..];
  }

  lemma StoryOfMessage(mon: Mon, m: AgentMessage, story: Transcript)
    requires TellsStory(mon, story) && TurnInOrder(mon) && MessageEndOk(mon, m)
    ensures TellsStory(AfterMessageEnd(mon, m), story)
  {
    var f := mon.finished;
    if mon.owed != [] {
      assert f + mon.owed == f + [mon.owed[0]] + mon.owed[1..];
    } else if mon.turn.answer.None? {
      assert (f + [m])[..|f|] == f && f + [] == f;
    } else {
      var n := mon.turn.results + 1;
      assert (f + [m])[..|f| - n] == f[..|f| - n];
    }
  }

  /** Nothing taken from a source is lost, repeated or moved: the provider is called with the whole story so far. */
  lemma ProviderSeesWholeStory(base: Transcript, prompts: Transcript, config: Config, log: Log, i: nat)
    requires Legal(base, prompts, config, log) && i < |log| && log[i].ProviderCalled?
    ensures log[i].context == base + Story(prompts, log[..i])
    ensures FinishedMessages(log[..i]) == Story(prompts, log[..i])
  {
    LegalStep(base, prompts, config, log, i);
    StoryIsTold(base, prompts, config, log[..i]);
    FinishedIsFinished(base, prompts, config, log[..i]);
  }

  /** What the run reports at its end is the whole story. */
  lemma AgentEndTellsStory(base: Transcript, prompts: Transcript, config: Config, log: Log, i: nat)
    requires Legal(base, prompts, config, log) && i < |log| && log[i].Emitted? && log[i].event.AgentEnd?
    ensures log[i].view.newMessages == Story(prompts, log[..i])
  {
    TranscriptsAgree(base, prompts, config, log, i);
    LegalStep(base, prompts, config, log, i);
    StoryIsTold(base, prompts, config, log[..i]);
    FinishedIsFinished(base, prompts, config, log[..i]);
  }

  // ------------------------------------------------------------------------------------------
  // The outline of a run
  // ------------------------------------------------------------------------------------------

  datatype Mark = RunStarts | TurnStarts | TurnEnds | RunEnds

  /** The history with everything left out but the starts and ends of the run and of its turns. */
  function Outline(log: Log): seq<Mark> {
    if log == [] then [] else Outline(log[..|log| - 1]) + MarkOf(log[|log| - 1])
  }

  function Turns(n: nat): seq<Mark> {
    if n == 0 then [] else Turns(n - 1) + [TurnStarts, TurnEnds]
  }

  function Ends(n: nat): seq<Mark> {
    seq(n, _ => RunEnds)
  }

  function OutlineAt(mon: Mon, turns: nat): seq<Mark> {
    match mon.phase
    case NotStarted => []
    case BetweenTurns => [RunStarts] + Turns(turns)
    case TurnOpen => [RunStarts] + Turns(turns) + [TurnStarts]
    case MessageOpen(_) => [RunStarts] + Turns(turns) + [TurnStarts]
    case Ended => [RunStarts] + Turns(turns) + Ends(mon.end.agentEnds)
  }

  ghost predicate OutlineFits(mon: Mon, turns: nat) {
    && (mon.phase == Ended ==> turns >= 1 && mon.end.agentEnds >= 1)
    && (mon.phase != Ended ==> mon.end.agentEnds == 0)
    && (mon.phase == BetweenTurns && mon.turn.answer.Some? ==> turns >= 1)
    && (mon.phase == NotStarted ==> turns == 0 && mon.turn == NEW_TURN)
  }

  lemma {:induction false} OutlineOfLegal(base: Transcript, prompts: Transcript, config: Config, log: Log)
    returns (turns: nat)
    requires Legal(base, prompts, config, log)
    ensures var mon := Monitor(base, prompts, config, log).value;
            Outline(log) == OutlineAt(mon, turns) && OutlineFits(mon, turns)
  {
    if log == [] {
      turns := 0;
    } else {
      var init, entry := log[..|log| - 1], log[|log| - 1];
      var n := OutlineOfLegal(base, prompts, config, init);
      var mon := Monitor(base, prompts, config, init).value;
      turns := if entry.TurnEnded? then n + 1 else n;
      OutlineStep(base, config, mon, entry, n);
    }
  }

  function MarkOf(entry: Entry): seq<Mark> {
    match EventOf(entry)
    case Some(AgentStart) => [RunStarts]
    case Some(TurnStart) => [TurnStarts]
    case Some(TurnEnd(_, _)) => [TurnEnds]
    case Some(AgentEnd) => [RunEnds]
    case _ => []
  }

  lemma OutlineStep(base: Transcript, config: Config, mon: Mon, entry: Entry, turns: nat)
    requires EntryOk(base, config, mon, entry) && OutlineFits(mon, turns)
    ensures var mon' := After(base, config, mon, entry);
            var turns' := if entry.TurnEnded? then turns + 1 else turns;
            OutlineAt(mon, turns) + MarkOf(entry) == OutlineAt(mon', turns') && OutlineFits(mon', turns')
  {
    match entry
    case TurnEnded(_, _, _) =>
      assert [RunStarts] + Turns(turns) + [TurnStarts] + [TurnEnds] == [RunStarts] + Turns(turns + 1);
    case Emitted(event, view) =>
      OutlineOfEvent(base, config, mon, event, view, turns);
    case _ =>
      assert OutlineAt(mon, turns) + [] == OutlineAt(mon, turns);
  }

  lemma OutlineOfEvent(base: Transcript, config: Config, mon: Mon, event: AgentEvent, view: View, turns: nat)
    requires EventOk(base, config, mon, event, view) && OutlineFits(mon, turns)
    ensures OutlineAt(mon, turns) + MarkOf(Emitted(event, view)) == OutlineAt(AfterEvent(mon, event), turns)
    ensures OutlineFits(AfterEvent(mon, event), turns)
  {
    if event.AgentEnd? {
      EndsFollow(turns, mon.end.agentEnds);
    } else if event.AgentStart? {
      assert [] + [RunStarts] == [RunStarts] + Turns(0);
    } else if !event.TurnStart? {
      assert OutlineAt(mon, turns) + [] == OutlineAt(mon, turns);
    }
  }

  lemma EndsFollow(turns: nat, n: nat)
    ensures [RunStarts] + Turns(turns) + Ends(n) + [RunEnds] == [RunStarts] + Turns(turns) + Ends(n + 1)
    ensures n == 0 ==> [RunStarts] + Turns(turns) + Ends(n) == [RunStarts] + Turns(turns)
  {
    assert Ends(n) + [RunEnds] == Ends(n + 1);
  }

  /** An abort landed while `shouldStopAfterTurn` was awaited. */
  predicate AbortInStopHook(log: Log) {
    log != [] && (log[|log| - 1] == AbortedInStopHook || AbortInStopHook(log[..|log| - 1]))
  }

  /**
   * A run that ended emitted `agent_start`, one or more whole turns, and then `agent_end`: once, or twice
   * exactly when an abort landed while `shouldStopAfterTurn` was awaited.
   */
  lemma RunOutline(base: Transcript, prompts: Transcript, config: Config, log: Log) returns (turns: nat)
    requires Legal(base, prompts, config, log) && Finished(Monitor(base, prompts, config, log).value)
    ensures turns >= 1
    ensures Outline(log) == [RunStarts] + Turns(turns) + Ends(if AbortInStopHook(log) then 2 else 1)
  {
    turns := OutlineOfLegal(base, prompts, config, log);
    StopHookNoted(base, prompts, config, log);
  }

  lemma {:induction false} EndIsFinal(base: Transcript, prompts: Transcript, config: Config, log: Log, i: nat)
    requires Legal(base, prompts, config, log) && i < |log| && EventOf(log[i]) == Some(AgentEnd)
    ensures Monitor(base, prompts, config, log).value.phase == Ended
    decreases |log|
  {
    if i < |log| - 1 {
      EndIsFinal(base, prompts, config, log[..|log| - 1], i);
    }
  }

  /** After the first `agent_end` nothing happens but, perhaps, another one. */
  lemma OnlyEndsFollowEnd(base: Transcript, prompts: Transcript, config: Config, log: Log, i: nat, j: nat)
    requires Legal(base, prompts, config, log) && i < j < |log| && EventOf(log[i]) == Some(AgentEnd)
    ensures EventOf(log[j]) == Some(AgentEnd)
  {
    LegalStep(base, prompts, config, log, j);
    EndIsFinal(base, prompts, config, log[..j], i);
  }

  predicate WithinTurn(event: AgentEvent) {
    || event.MessageStart? || event.MessageUpdate? || event.MessageEnd?
    || event.ToolExecutionStart? || event.ToolExecutionUpdate? || event.ToolExecutionEnd?
  }

  /** Message and tool events happen in turns only: the turn that started last has not ended. */
  lemma EventsWithinTurns(base: Transcript, prompts: Transcript, config: Config, log: Log, i: nat)
    returns (turns: nat)
    requires Legal(base, prompts, config, log) && i < |log|
    requires EventOf(log[i]).Some? && WithinTurn(EventOf(log[i]).value)
    ensures Outline(log[..i]) == [RunStarts] + Turns(turns) + [TurnStarts]
  {
    LegalStep(base, prompts, config, log, i);
    turns := OutlineOfLegal(base, prompts, config, log[..i]);
  }

  /** How many messages of the guard were delivered. */
  function Deliveries(log: Log): nat {
    if log == [] then 0 else Deliveries(log[..|log| - 1]) + (if Delivers(log[|log| - 1]) then 1 else 0)
  }

  predicate Delivers(entry: Entry) {
    entry.Polled? && entry.source == GuardMessage
  }

  lemma LegalSnoc(base: Transcript, prompts: Transcript, config: Config, log: Log, entry: Entry)
    requires Legal(base, prompts, config, log)
    requires EntryOk(base, config, Monitor(base, prompts, config, log).value, entry)
    ensures Legal(base, prompts, config, log + [entry])
    ensures Monitor(base, prompts, config, log + [entry]).value
         == After(base, config, Monitor(base, prompts, config, log).value, entry)
    ensures Deliveries(log + [entry]) == Deliveries(log) + if Delivers(entry) then 1 else 0
  {
    assert (log + [entry])[..|log|] == log;
  }

  /** The start of a run without prompts: a turn is open and the provider was called. */
  lemma OpeningHistory(base: Transcript, config: Config, view: View) returns (log: Log)
    ensures Legal(base, [], config, log)
    ensures var mon := Monitor(base, [], config, log).value;
            mon == Start([]).(phase := TurnOpen, turn := NEW_TURN.(provider := true),
                              asked := true, emptied := {Steering})
    ensures Deliveries(log) == 0
  {
    log := [];
    LegalSnoc(base, [], config, log, Emitted(AgentStart, view));
    log := log + [Emitted(AgentStart, view)];
    LegalSnoc(base, [], config, log, Emitted(TurnStart, view));
    log := log + [Emitted(TurnStart, view)];
    LegalSnoc(base, [], config, log, Polled(Steering, []));
    log := log + [Polled(Steering, [])];
    LegalSnoc(base, [], config, log, ProviderCalled(base));
    log := log + [ProviderCalled(base)];
  }

  /** A run whose first response is finished and calls no tools. */
  lemma OneTurnHistory(base: Transcript, m: AgentMessage, config: Config, view: View) returns (log: Log)
    requires m.role == AssistantRole && view == View(base + [m], [m], base + [m], {}, false)
    ensures Legal(base, [], config, log)
    ensures var mon := Monitor(base, [], config, log).value;
            && HookOk(mon, AfterTurn) && mon.turn.answer.Some? && mon.end == RUNNING && mon.finished == [m]
  {
    hide Monitor;
    log := OpeningHistory(base, config, view);
    LegalSnoc(base, [], config, log, Emitted(MessageStart(m), view));
    log := log + [Emitted(MessageStart(m), view)];
    LegalSnoc(base, [], config, log, Emitted(MessageEnd(m), view));
    log := log + [Emitted(MessageEnd(m), view)];
    var end := TurnEnded(TurnEnd(m, []), view, TurnFacts(Completed(false), [], false));
    LegalSnoc(base, [], config, log, end);
    log := log + [end];
  }

  /** A history in which an abort lands in `shouldStopAfterTurn`, so that the run ends twice over. */
  lemma StopHookAbortEndsTwice(base: Transcript, m: AgentMessage, config: Config) returns (log: Log)
    requires m.role == AssistantRole
    ensures Legal(base, [], config, log) && Finished(Monitor(base, [], config, log).value) && AbortInStopHook(log)
    ensures exists turns: nat :: Outline(log) == [RunStarts] + Turns(turns) + Ends(2)
  {
    hide Monitor;
    var view := View(base + [m], [m], base + [m], {}, false);
    log := OneTurnHistory(base, m, config, view);
    LegalSnoc(base, [], config, log, AbortedInStopHook);
    log := log + [AbortedInStopHook];
    LegalSnoc(base, [], config, log, Emitted(AgentEnd, view));
    log := log + [Emitted(AgentEnd, view)];
    LegalSnoc(base, [], config, log, Emitted(AgentEnd, view));
    log := log + [Emitted(AgentEnd, view)];
    var turns := RunOutline(base, [], config, log);
    StopHookNoted(base, [], config, log);
  }

  lemma {:induction false} StopHookNoted(base: Transcript, prompts: Transcript, config: Config, log: Log)
    requires Legal(base, prompts, config, log)
    ensures Monitor(base, prompts, config, log).value.end.stopHookAborted <==> AbortInStopHook(log)
  {
    if log != [] {
      var init := log[..|log| - 1];
      StopHookNoted(base, prompts, config, init);
      ReasonsStep(base, config, Monitor(base, prompts, config, init).value, log[|log| - 1]);
    }
  }

  /** The sources found empty since the last turn ended. */
  function EmptySinceTurn(log: Log): set<Source> {
    if log == [] then {}
    else
      match log[|log| - 1]
      case TurnEnded(_, _, _) => {}
      case Polled(source, messages) => EmptySinceTurn(log[..|log| - 1]) + (if messages == [] then {source} else {})
      case _ => EmptySinceTurn(log[..|log| - 1])
  }

  /** The last turn came to its end by an error, by an abort or by degeneracy. */
  predicate LastTurnStopped(log: Log) {
    log != [] && (if log[|log| - 1].TurnEnded? then log[|log| - 1].facts.kind == Stopped
                  else LastTurnStopped(log[..|log| - 1]))
  }

  /** A stop hook asked for the end of the run. */
  predicate SaidYes(log: Log) {
    HookAnswered(AfterTurn, true) in log || HookAnswered(BeforeTurn, true) in log
  }

  /** Something told the run to stop: an abort, a stop hook, the guard, or a response that itself was stopped. */
  predicate ToldToStop(log: Log) {
    || AbortObserved in log || AbortedInStopHook in log || SaidYes(log) || Triggered(StopRun) in log
    || LastTurnStopped(log)
  }

  lemma {:induction false} EmptyNoted(base: Transcript, prompts: Transcript, config: Config, log: Log)
    requires Legal(base, prompts, config, log)
    ensures Monitor(base, prompts, config, log).value.emptied == EmptySinceTurn(log)
  {
    if log != [] {
      var init := log[..|log| - 1];
      EmptyNoted(base, prompts, config, init);
      SourcesStep(base, config, Monitor(base, prompts, config, init).value, log[|log| - 1]);
    }
  }

  /** What one step does to what is known of the sources, and of the turn that ended last. */
  lemma SourcesStep(base: Transcript, config: Config, mon: Mon, entry: Entry)
    requires EntryOk(base, config, mon, entry)
    ensures var mon' := After(base, config, mon, entry);
            && mon'.emptied == (match entry
                                case TurnEnded(_, _, _) => {}
                                case Polled(source, messages) =>
                                  mon.emptied + (if messages == [] then {source} else {})
                                case _ => mon.emptied)
            && (mon'.asked <==> match entry
                                case TurnEnded(_, _, _) => false
                                case Polled(source, _) => source == Steering || source == GuardMessage || mon.asked
                                case PollWaived => true
                                case _ => mon.asked)
            && mon'.turn.close == (match entry
                                   case TurnEnded(_, _, facts) => Closed(facts.kind, facts.more)
                                   case Emitted(TurnStart, _) => NotClosed
                                   case _ => mon.turn.close)
  {
  }

  /** A reason to end that the monitor knows of has an entry of its own. */
  ghost predicate ReasonsIn(mon: Mon, log: Log) {
    && (mon.end.abortObserved ==> AbortObserved in log)
    && (mon.end.stopHookAborted ==> AbortedInStopHook in log)
    && (mon.end.stopRequested ==> SaidYes(log))
    && (GuardStopped(mon.guard) ==> Triggered(StopRun) in log)
  }

  lemma ReasonsStep(base: Transcript, config: Config, mon: Mon, entry: Entry)
    requires EntryOk(base, config, mon, entry)
    ensures var mon' := After(base, config, mon, entry);
            && (mon'.end.abortObserved ==> mon.end.abortObserved || entry == AbortObserved)
            && (mon'.end.stopHookAborted <==> mon.end.stopHookAborted || entry == AbortedInStopHook)
            && (mon'.end.stopRequested ==> mon.end.stopRequested || (entry.HookAnswered? && entry.yes))
            && (GuardStopped(mon'.guard) ==> GuardStopped(mon.guard) || entry == Triggered(StopRun))
  {
    hide TurnEndOk, Agree, MayEnd, PollOk, MayTrigger, StartOk, ResultsMayCome, HookOk;
  }

  lemma {:induction false} ReasonsNoted(base: Transcript, prompts: Transcript, config: Config, log: Log)
    requires Legal(base, prompts, config, log)
    ensures ReasonsIn(Monitor(base, prompts, config, log).value, log)
  {
    if log != [] {
      var init, entry := log[..|log| - 1], log[|log| - 1];
      ReasonsNoted(base, prompts, config, init);
      ReasonsStep(base, config, Monitor(base, prompts, config, init).value, entry);
      assert log == init + [entry];
      assert entry in log && forall e :: e in init ==> e in log;
    }
  }

  lemma {:induction false} LastCloseNoted(base: Transcript, prompts: Transcript, config: Config, log: Log)
    requires Legal(base, prompts, config, log)
    requires Monitor(base, prompts, config, log).value.turn.close.Closed?
    ensures Monitor(base, prompts, config, log).value.turn.close.kind == Stopped ==> LastTurnStopped(log)
  {
    var init := log[..|log| - 1];
    SourcesStep(base, config, Monitor(base, prompts, config, init).value, log[|log| - 1]);
    if !log[|log| - 1].TurnEnded? {
      LastCloseNoted(base, prompts, config, init);
    }
  }

  /**
   * No message is left behind: unless something told it to stop, a run ends only when steering, follow-ups and
   * continuations were all found empty since the last turn ended.
   */
  lemma EndsOnlyWhenNothingIsLeft(base: Transcript, prompts: Transcript, config: Config, log: Log, i: nat)
    requires Legal(base, prompts, config, log) && i < |log| && log[i].Emitted? && log[i].event.AgentEnd?
    ensures ToldToStop(log[..i]) || ALL_SOURCES <= EmptySinceTurn(log[..i])
  {
    LegalStep(base, prompts, config, log, i);
    ReasonsNoted(base, prompts, config, log[..i]);
    EmptyNoted(base, prompts, config, log[..i]);
    var mon := Monitor(base, prompts, config, log[..i]).value;
    if mon.turn.close.Closed? {
      LastCloseNoted(base, prompts, config, log[..i]);
    }
  }

  /** How the turn that ended last wished to go on. */
  function WantsMore(log: Log): bool {
    log != [] && (if log[|log| - 1].TurnEnded? then log[|log| - 1].facts.more else WantsMore(log[..|log| - 1]))
  }

  lemma {:induction false} WantsMoreNoted(base: Transcript, prompts: Transcript, config: Config, log: Log)
    requires Legal(base, prompts, config, log)
    requires Monitor(base, prompts, config, log).value.turn.close.Closed?
    ensures Monitor(base, prompts, config, log).value.turn.close.more == WantsMore(log)
  {
    var init := log[..|log| - 1];
    SourcesStep(base, config, Monitor(base, prompts, config, init).value, log[|log| - 1]);
    if !log[|log| - 1].TurnEnded? {
      WantsMoreNoted(base, prompts, config, init);
    }
  }

  /**
   * Sources have their turn: follow-ups are asked only after a turn whose tool calls need no answer and after
   * steering was found empty, continuations only after follow-ups were found empty too.
   */
  lemma SourcesInOrder(base: Transcript, prompts: Transcript, config: Config, log: Log, i: nat)
    requires Legal(base, prompts, config, log) && i < |log| && log[i].Polled?
    ensures log[i].source == FollowUp ==> Steering in EmptySinceTurn(log[..i]) && !WantsMore(log[..i])
    ensures log[i].source == Continuation ==> {Steering, FollowUp} <= EmptySinceTurn(log[..i])
  {
    LegalStep(base, prompts, config, log, i);
    EmptyNoted(base, prompts, config, log[..i]);
    if log[i].source == FollowUp {
      WantsMoreNoted(base, prompts, config, log[..i]);
    }
  }

  /** Steering was asked since the last turn ended, or opened the run, or the guard's message takes its place. */
  predicate SteeringAsked(log: Log) {
    log != [] && match log[|log| - 1]
                 case TurnEnded(_, _, _) => false
                 case Polled(source, _) =>
                   source == Steering || source == GuardMessage || SteeringAsked(log[..|log| - 1])
                 case PollWaived => true
                 case _ => SteeringAsked(log[..|log| - 1])
  }

  lemma {:induction false} AskedNoted(base: Transcript, prompts: Transcript, config: Config, log: Log)
    requires Legal(base, prompts, config, log)
    ensures Monitor(base, prompts, config, log).value.asked <==> SteeringAsked(log)
  {
    if log != [] {
      var init := log[..|log| - 1];
      AskedNoted(base, prompts, config, init);
      SourcesStep(base, config, Monitor(base, prompts, config, init).value, log[|log| - 1]);
    }
  }

  /** Steering is never overtaken: before every provider call it was asked, unless the guard speaks instead. */
  lemma SteeringBeforeProvider(base: Transcript, prompts: Transcript, config: Config, log: Log, i: nat)
    requires Legal(base, prompts, config, log) && i < |log| && log[i].ProviderCalled?
    ensures SteeringAsked(log[..i])
  {
    LegalStep(base, prompts, config, log, i);
    AskedNoted(base, prompts, config, log[..i]);
  }

  // ------------------------------------------------------------------------------------------
  // Stop hooks
  // ------------------------------------------------------------------------------------------

  /** After a hook said yes, the end of the run is all that happens. */
  lemma NothingAfterYes(base: Transcript, prompts: Transcript, config: Config, log: Log, i: nat, j: nat)
    requires Legal(base, prompts, config, log) && i < j < |log| && log[i].HookAnswered? && log[i].yes
    ensures EventOf(log[j]) == Some(AgentEnd)
  {
    LegalStep(base, prompts, config, log, j);
    YesIsFinal(base, prompts, config, log[..j], i);
  }

  lemma {:induction false} YesIsFinal(base: Transcript, prompts: Transcript, config: Config, log: Log, i: nat)
    requires Legal(base, prompts, config, log) && i < |log| && log[i].HookAnswered? && log[i].yes
    ensures Monitor(base, prompts, config, log).value.end.stopRequested
    decreases |log|
  {
    var init := log[..|log| - 1];
    HooksStep(base, config, Monitor(base, prompts, config, init).value, log[|log| - 1]);
    if i < |log| - 1 {
      YesIsFinal(base, prompts, config, init, i);
    }
  }

  /** The hooks that said no: the first since the last turn ended, the second since the last poll or turn end. */
  function Noes(log: Log): set<Hook> {
    if log == [] then {} else NoesAfter(Noes(log[..|log| - 1]), log[|log| - 1])
  }

  function NoesAfter(noes: set<Hook>, entry: Entry): set<Hook> {
    match entry
    case TurnEnded(_, _, _) => {}
    case Polled(_, _) => noes - {BeforeTurn}
    case PollSkipped(_) => noes - {BeforeTurn}
    case HookAnswered(hook, false) => noes + {hook}
    case _ => noes
  }

  lemma HooksStep(base: Transcript, config: Config, mon: Mon, entry: Entry)
    requires EntryOk(base, config, mon, entry)
    ensures After(base, config, mon, entry).noes == NoesAfter(mon.noes, entry)
    ensures After(base, config, mon, entry).end.stopRequested
       <==> mon.end.stopRequested || (entry.HookAnswered? && entry.yes)
  {
  }

  lemma {:induction false} NoesNoted(base: Transcript, prompts: Transcript, config: Config, log: Log)
    requires Legal(base, prompts, config, log)
    ensures Monitor(base, prompts, config, log).value.noes == Noes(log)
  {
    if log != [] {
      hide EntryOk, After;
      var init := log[..|log| - 1];
      NoesNoted(base, prompts, config, init);
      HooksStep(base, config, Monitor(base, prompts, config, init).value, log[|log| - 1]);
    }
  }

  /**
   * Between turns nothing is polled before both hooks have said no, the second one since the poll before. The guard's
   * own message asks nobody.
   */
  lemma HooksBeforePolls(base: Transcript, prompts: Transcript, config: Config, log: Log, i: nat)
    requires Legal(base, prompts, config, log) && i < |log| && !InResponse(log[..i])
    requires (log[i].Polled? || log[i].PollLost?) && log[i].source != GuardMessage
    ensures Noes(log[..i]) == {AfterTurn, BeforeTurn}
  {
    LegalStep(base, prompts, config, log, i);
    NoesNoted(base, prompts, config, log[..i]);
    CauseNoted(base, prompts, config, log[..i]);
  }

  /** What is owed at the end of a history was taken from a source since the last turn ended. */
  predicate TakenSinceTurn(log: Log) {
    log != [] && match log[|log| - 1]
                 case TurnEnded(_, _, _) => false
                 case Polled(_, messages) => messages != [] || TakenSinceTurn(log[..|log| - 1])
                 case _ => TakenSinceTurn(log[..|log| - 1])
  }

  /** Some turn has ended. */
  predicate TurnDone(log: Log) {
    log != [] && (log[|log| - 1].TurnEnded? || TurnDone(log[..|log| - 1]))
  }

  ghost predicate OwedFits(mon: Mon, log: Log) {
    && (mon.phase == BetweenTurns && mon.turn.answer.Some? ==> (mon.owed != [] ==> TakenSinceTurn(log)))
    && (TurnDone(log) && mon.phase == BetweenTurns ==> mon.turn.answer.Some?)
    && (mon.phase == NotStarted ==> !TurnDone(log) && mon.turn.answer.None?)
  }

  lemma {:induction false} OwedNoted(base: Transcript, prompts: Transcript, config: Config, log: Log)
    requires Legal(base, prompts, config, log)
    ensures OwedFits(Monitor(base, prompts, config, log).value, log)
  {
    if log != [] {
      hide EntryOk, After, OwedFits;
      var init, entry := log[..|log| - 1], log[|log| - 1];
      OwedNoted(base, prompts, config, init);
      OwedStep(base, config, Monitor(base, prompts, config, init).value, log);
    } else {
      assert OwedFits(Start(prompts), log);
    }
  }

  lemma OwedStep(base: Transcript, config: Config, mon: Mon, log: Log)
    requires log != [] && OwedFits(mon, log[..|log| - 1]) && EntryOk(base, config, mon, log[|log| - 1])
    ensures OwedFits(After(base, config, mon, log[|log| - 1]), log)
  {
  }

  /** Every turn but the first brings new messages, or starts after the second hook said no. */
  lemma HooksBeforeTurns(base: Transcript, prompts: Transcript, config: Config, log: Log, i: nat)
    requires Legal(base, prompts, config, log) && i < |log| && EventOf(log[i]) == Some(TurnStart)
    requires TurnDone(log[..i])
    ensures TakenSinceTurn(log[..i]) || BeforeTurn in Noes(log[..i])
    ensures log[i].Emitted? && !log[i].view.aborted
  {
    LegalStep(base, prompts, config, log, i);
    NoesNoted(base, prompts, config, log[..i]);
    OwedNoted(base, prompts, config, log[..i]);
  }

  // ------------------------------------------------------------------------------------------
  // What becomes of queued messages
  // ------------------------------------------------------------------------------------------

  /** What the run received from `source`. */
  function Obtained(source: Source, log: Log): Transcript {
    if log == [] then []
    else
      Obtained(source, log[..|log| - 1])
      + (if log[|log| - 1].Polled? then Takes(source, log[|log| - 1]) else [])
  }

  /** What `source` handed out to a poll that lost to an abort. */
  function Lost(source: Source, log: Log): Transcript {
    if log == [] then []
    else
      Lost(source, log[..|log| - 1])
      + (if log[|log| - 1].PollLost? then Takes(source, log[|log| - 1]) else [])
  }

  /** Everything taken from a source was received, but for what the last poll of a run lost to an abort. */
  lemma {:induction false} TakenIsObtainedOrLost(base: Transcript, prompts: Transcript, config: Config, log: Log,
                                                 source: Source)
    requires Legal(base, prompts, config, log)
    ensures Taken(source, log) == Obtained(source, log) + Lost(source, log)
    ensures !Monitor(base, prompts, config, log).value.end.pollLost ==> Lost(source, log) == []
  {
    if log != [] {
      hide EntryOk, After, Taken, Obtained;
      var init, entry := log[..|log| - 1], log[|log| - 1];
      TakenIsObtainedOrLost(base, prompts, config, init, source);
      PollLostStep(base, config, Monitor(base, prompts, config, init).value, entry);
      TakenStep(log, source);
    }
  }

  lemma TakenStep(log: Log, source: Source)
    requires log != [] && (log[|log| - 1].Polled? ==> Lost(source, log[..|log| - 1]) == [])
    requires var init := log[..|log| - 1]; Taken(source, init) == Obtained(source, init) + Lost(source, init)
    ensures Taken(source, log) == Obtained(source, log) + Lost(source, log)
  {
    var init, taken := log[..|log| - 1], Takes(source, log[|log| - 1]);
    ConcatAssociative(Obtained(source, init), Lost(source, init), taken);
    assert Obtained(source, init) + [] == Obtained(source, init) && Lost(source, init) + [] == Lost(source, init);
  }

  lemma PollLostStep(base: Transcript, config: Config, mon: Mon, entry: Entry)
    requires EntryOk(base, config, mon, entry)
    ensures After(base, config, mon, entry).end.pollLost <==> mon.end.pollLost || entry.PollLost?
    ensures mon.end.pollLost ==> !entry.Polled? && !entry.PollLost? && !entry.ProviderCalled?
                                 && EventOf(entry) != Some(TurnStart)
  {
  }

  lemma {:induction false} PollLostNoted(base: Transcript, prompts: Transcript, config: Config, log: Log, i: nat)
    requires Legal(base, prompts, config, log) && i < |log| && log[i].PollLost?
    ensures Monitor(base, prompts, config, log).value.end.pollLost
    decreases |log|
  {
    var init := log[..|log| - 1];
    PollLostStep(base, config, Monitor(base, prompts, config, init).value, log[|log| - 1]);
    if i < |log| - 1 {
      PollLostNoted(base, prompts, config, init, i);
    }
  }

  /** A poll that loses to an abort is the last of its run, and nothing but the run's end comes after it. */
  lemma LostPollIsLast(base: Transcript, prompts: Transcript, config: Config, log: Log, i: nat, j: nat)
    requires Legal(base, prompts, config, log) && i < j < |log| && log[i].PollLost?
    ensures !log[j].Polled? && !log[j].PollLost? && !log[j].ProviderCalled? && EventOf(log[j]) != Some(TurnStart)
  {
    LegalStep(base, prompts, config, log, j);
    PollLostNoted(base, prompts, config, log[..j], i);
    PollLostStep(base, config, Monitor(base, prompts, config, log[..j]).value, log[j]);
  }

  lemma {:induction false} StoryGrows(prompts: Transcript, log: Log, i: nat)
    requires i <= |log|
    ensures Story(prompts, log[..i]) <= Story(prompts, log)
    decreases |log|
  {
    if i < |log| {
      StoryGrows(prompts, log[..|log| - 1], i);
      assert log[..|log| - 1][..i] == log[..i];
    } else {
      assert log[..i] == log;
    }
  }

  /** A batch that was received stands in the story, whole, after all that was in it before. */
  lemma ObtainedInStory(prompts: Transcript, log: Log, i: nat)
    requires i < |log| && log[i].Polled?
    ensures Story(prompts, log[..i]) + log[i].messages <= Story(prompts, log)
  {
    assert log[..i + 1][..i] == log[..i];
    StoryGrows(prompts, log, i + 1);
  }

  lemma {:induction false} ObtainedIsTold(source: Source, prompts: Transcript, log: Log, m: AgentMessage)
    requires m in Obtained(source, log)
    ensures m in Story(prompts, log)
    decreases |log|
  {
    var init, entry := log[..|log| - 1], log[|log| - 1];
    if m in Obtained(source, init) {
      ObtainedIsTold(source, prompts, init, m);
    }
  }

  /** The messages of a history: those started and ended, one started only, and whether starts and ends got mixed up. */
  datatype Messages = Messages(done: seq<(AgentMessage, AgentMessage)>, open: Option<AgentMessage>, mixed: bool)

  function MessagesAfter(ms: Messages, event: AgentEvent): Messages {
    match event
    case MessageStart(m) => if ms.open.None? then ms.(open := Some(m)) else ms.(mixed := true)
    case MessageEnd(m) =>
      if ms.open.Some? then ms.(done := ms.done + [(ms.open.value, m)], open := None) else ms.(mixed := true)
    case _ => ms
  }

  function MessagesOf(log: Log): Messages {
    if log == [] then Messages([], None, false)
    else
      match EventOf(log[|log| - 1])
      case Some(event) => MessagesAfter(MessagesOf(log[..|log| - 1]), event)
      case None => MessagesOf(log[..|log| - 1])
  }

  /** An end is of the message that started, or of the assistant message that took the place of its first part. */
  ghost predicate SameMessage(pair: (AgentMessage, AgentMessage)) {
    pair.0 == pair.1 || pair.1.role == AssistantRole
  }

  function EndedMessages(pairs: seq<(AgentMessage, AgentMessage)>): Transcript {
    seq(|pairs|, k requires 0 <= k < |pairs| => pairs[k].1)
  }

  ghost predicate Paired(mon: Mon, ms: Messages) {
    && !ms.mixed && ms.open == (if mon.phase.MessageOpen? then Some(mon.phase.started) else None)
    && EndedMessages(ms.done) == mon.finished && forall k :: 0 <= k < |ms.done| ==> SameMessage(ms.done[k])
  }

  lemma {:induction false} MessagesPairedSoFar(base: Transcript, prompts: Transcript, config: Config, log: Log)
    requires Legal(base, prompts, config, log)
    ensures Paired(Monitor(base, prompts, config, log).value, MessagesOf(log))
  {
    if log != [] {
      var init, entry := log[..|log| - 1], log[|log| - 1];
      MessagesPairedSoFar(base, prompts, config, init);
      PairedStep(base, config, Monitor(base, prompts, config, init).value, entry, MessagesOf(init));
    }
  }

  lemma PairedStep(base: Transcript, config: Config, mon: Mon, entry: Entry, ms: Messages)
    requires Paired(mon, ms) && EntryOk(base, config, mon, entry)
    ensures Paired(After(base, config, mon, entry),
                   if EventOf(entry).Some? then MessagesAfter(ms, EventOf(entry).value) else ms)
  {
    if entry.Emitted? && entry.event.MessageEnd? {
      var pair := (ms.open.value, entry.event.message);
      assert EndedMessages(ms.done + [pair]) == EndedMessages(ms.done) + [pair.1];
    }
  }

  /** Every message has exactly one start and one end, and at every `turn_end` and `agent_end` all have both. */
  lemma MessagesPaired(base: Transcript, prompts: Transcript, config: Config, log: Log, i: nat)
    requires Legal(base, prompts, config, log) && i < |log|
    requires log[i].TurnEnded? || EventOf(log[i]) == Some(AgentEnd)
    ensures var ms := MessagesOf(log[..i]);
            && !ms.mixed && ms.open == None && EndedMessages(ms.done) == FinishedMessages(log[..i])
            && forall k :: 0 <= k < |ms.done| ==> SameMessage(ms.done[k])
  {
    LegalStep(base, prompts, config, log, i);
    MessagesPairedSoFar(base, prompts, config, log[..i]);
    FinishedIsFinished(base, prompts, config, log[..i]);
  }

  // ------------------------------------------------------------------------------------------
  // Tool calls
  // ------------------------------------------------------------------------------------------

  function TraceAfter(trace: seq<AgentEvent>, event: Option<AgentEvent>, k: nat): seq<AgentEvent> {
    match event
    case Some(TurnStart) => []
    case Some(ToolExecutionStart(c, id)) => if c == k then trace + [ToolExecutionStart(c, id)] else trace
    case Some(ToolExecutionUpdate(c)) => if c == k then trace + [ToolExecutionUpdate(c)] else trace
    case Some(ToolExecutionEnd(c, id)) => if c == k then trace + [ToolExecutionEnd(c, id)] else trace
    case _ => trace
  }

  /** The events of call `k` since the last turn started. */
  function CallTrace(log: Log, k: nat): seq<AgentEvent> {
    if log == [] then [] else TraceAfter(CallTrace(log[..|log| - 1], k), EventOf(log[|log| - 1]), k)
  }

  ghost predicate OpenTrace(trace: seq<AgentEvent>, k: nat, id: string) {
    && |trace| >= 1 && trace[0] == ToolExecutionStart(k, id)
    && forall i :: 1 <= i < |trace| ==> trace[i] == ToolExecutionUpdate(k)
  }

  /** One start, then updates, then one end with the same id, and nothing after it. */
  ghost predicate WholeTrace(trace: seq<AgentEvent>, k: nat, id: string) {
    && |trace| >= 2 && OpenTrace(trace[..|trace| - 1], k, id)
    && trace[|trace| - 1] == ToolExecutionEnd(k, id)
  }

  ghost predicate TraceMatches(trace: seq<AgentEvent>, k: nat, calls: seq<CallState>) {
    if k >= |calls| then trace == []
    else if calls[k].open then OpenTrace(trace, k, calls[k].id)
    else WholeTrace(trace, k, calls[k].id)
  }

  lemma {:induction false} TracesMatch(base: Transcript, prompts: Transcript, config: Config, log: Log, k: nat)
    requires Legal(base, prompts, config, log)
    ensures TraceMatches(CallTrace(log, k), k, Monitor(base, prompts, config, log).value.turn.calls)
  {
    if log != [] {
      var init, entry := log[..|log| - 1], log[|log| - 1];
      TracesMatch(base, prompts, config, init, k);
      TraceStep(base, config, Monitor(base, prompts, config, init).value, entry, CallTrace(init, k), k);
    }
  }

  lemma TraceStep(base: Transcript, config: Config, mon: Mon, entry: Entry, trace: seq<AgentEvent>, k: nat)
    requires EntryOk(base, config, mon, entry) && TraceMatches(trace, k, mon.turn.calls)
    ensures TraceMatches(TraceAfter(trace, EventOf(entry), k), k, After(base, config, mon, entry).turn.calls)
  {
    if entry.Emitted? {
      TraceOfEvent(base, config, mon, entry.event, entry.view, trace, k);
    }
  }

  lemma TraceOfEvent(base: Transcript, config: Config, mon: Mon, event: AgentEvent, view: View,
                     trace: seq<AgentEvent>, k: nat)
    requires EventOk(base, config, mon, event, view) && TraceMatches(trace, k, mon.turn.calls)
    ensures TraceMatches(TraceAfter(trace, Some(event), k), k, AfterEvent(mon, event).turn.calls)
  {
    hide Agree, MayEnd, ResultsMayCome, InSequence, AllClosed;
    var next := TraceAfter(trace, Some(event), k);
    assert |next| > |trace| ==> next[..|next| - 1] == trace;
  }

  /** When a turn ends, each call it started ran through its whole life once, and has its result, in source order. */
  lemma CallsRunOnce(base: Transcript, prompts: Transcript, config: Config, log: Log, i: nat, k: nat)
    requires Legal(base, prompts, config, log) && i < |log| && log[i].TurnEnded? && log[i].event.TurnEnd?
    ensures var results := log[i].event.toolResults;
            if k < |results|
            then k < |log[i].facts.calls| && results[k].toolCallId == log[i].facts.calls[k].id
                 && WholeTrace(CallTrace(log[..i], k), k, results[k].toolCallId)
            else CallTrace(log[..i], k) == []
  {
    LegalStep(base, prompts, config, log, i);
    TracesMatch(base, prompts, config, log[..i], k);
    ResultsNameTheirCalls(base, prompts, config, log[..i]);
  }

  /** When a response was completed, every call has its result, unless a sequential batch was aborted. */
  lemma BatchIsWhole(base: Transcript, prompts: Transcript, config: Config, log: Log, i: nat)
    requires Legal(base, prompts, config, log) && i < |log| && log[i].TurnEnded? && log[i].event.TurnEnd?
    ensures var results, facts := log[i].event.toolResults, log[i].facts;
            if facts.kind.Completed?
            then |results| == |facts.calls|
                 || (log[i].view.aborted && |results| < |facts.calls|
                     && (config.sequential
                         || exists c :: 0 <= c < |facts.calls| && config.needsSequence(facts.calls[c].name)))
            else results == []
  {
    LegalStep(base, prompts, config, log, i);
  }

  /** A call says how it gets on only while it is open and the run was not aborted. */
  lemma UpdatesWhileOpen(base: Transcript, prompts: Transcript, config: Config, log: Log, i: nat)
    requires Legal(base, prompts, config, log) && i < |log| && log[i].Emitted? && log[i].event.ToolExecutionUpdate?
    ensures Legal(base, prompts, config, log[..i]) && !log[i].view.aborted
    ensures var k, calls := log[i].event.call, Monitor(base, prompts, config, log[..i]).value.turn.calls;
            k < |calls| && calls[k].open
  {
    LegalStep(base, prompts, config, log, i);
  }

  /** A completed turn asks for another response when it had calls, unless it has results that all ask to stop. */
  lemma AsksForMore(base: Transcript, prompts: Transcript, config: Config, log: Log, i: nat)
    requires Legal(base, prompts, config, log) && i < |log| && log[i].TurnEnded? && log[i].event.TurnEnd?
    requires log[i].facts.kind.Completed?
    ensures var results, facts := log[i].event.toolResults, log[i].facts;
            facts.more <==> facts.calls != [] && (results == [] || exists m <- results :: !m.terminates)
  {
    LegalStep(base, prompts, config, log, i);
  }

  /** The calls that the turn opened last is to run. */
  function BatchOf(log: Log): Option<seq<ToolCall>> {
    if log == [] then None
    else
      match log[|log| - 1]
      case BatchOpened(calls) => Some(calls)
      case Emitted(TurnStart, _) => None
      case _ => BatchOf(log[..|log| - 1])
  }

  /** The started calls are the first ones of the batch; in sequence, all but the last of them have ended. */
  ghost predicate BatchFits(config: Config, mon: Mon, batch: Option<seq<ToolCall>>) {
    && mon.turn.batch == batch && (batch.None? ==> mon.turn.calls == [])
    && (batch.Some? ==>
          && |mon.turn.calls| <= |batch.value|
          && (forall c :: 0 <= c < |mon.turn.calls| ==> mon.turn.calls[c].id == batch.value[c].id)
          && (InSequence(config, batch.value) ==>
                forall c :: 0 <= c < |mon.turn.calls| - 1 ==> !mon.turn.calls[c].open))
  }

  lemma BatchStep(base: Transcript, config: Config, mon: Mon, entry: Entry, batch: Option<seq<ToolCall>>)
    requires BatchFits(config, mon, batch) && EntryOk(base, config, mon, entry)
    ensures BatchFits(config, After(base, config, mon, entry),
                      match entry
                      case BatchOpened(calls) => Some(calls)
                      case Emitted(TurnStart, _) => None
                      case _ => batch)
  {
  }

  lemma {:induction false} BatchNoted(base: Transcript, prompts: Transcript, config: Config, log: Log)
    requires Legal(base, prompts, config, log)
    ensures BatchFits(config, Monitor(base, prompts, config, log).value, BatchOf(log))
  {
    if log != [] {
      hide EntryOk, After, BatchFits;
      var init, entry := log[..|log| - 1], log[|log| - 1];
      BatchNoted(base, prompts, config, init);
      BatchStep(base, config, Monitor(base, prompts, config, init).value, entry, BatchOf(init));
    } else {
      assert BatchFits(config, Start(prompts), None);
    }
  }

  /**
   * Calls start in source order. Those that run in sequence start only while the run is not aborted, and after every
   * earlier call has run through its whole life and has its result message.
   */
  lemma CallsStartInOrder(base: Transcript, prompts: Transcript, config: Config, log: Log, i: nat, k: nat, id: string)
    requires Legal(base, prompts, config, log) && i < |log| && log[i].Emitted?
    requires log[i].event == ToolExecutionStart(k, id)
    ensures var batch, told := BatchOf(log[..i]), FinishedMessages(log[..i]);
            && batch.Some? && k < |batch.value| && id == batch.value[k].id
            && (config.sequential || (exists c :: 0 <= c < |batch.value| && config.needsSequence(batch.value[c].name))
                ==>
                  && !log[i].view.aborted && k <= |told|
                  && forall c :: 0 <= c < k ==>
                       && WholeTrace(CallTrace(log[..i], c), c, batch.value[c].id)
                       && told[|told| - k + c].toolCallId == batch.value[c].id)
  {
    hide Monitor, FinishedMessages, CallTrace, BatchOf, WholeTrace, OpenTrace;
    LegalStep(base, prompts, config, log, i);
    BatchNoted(base, prompts, config, log[..i]);
    FinishedIsFinished(base, prompts, config, log[..i]);
    ResultsNameTheirCalls(base, prompts, config, log[..i]);
    forall c: nat | c < k
      ensures TraceMatches(CallTrace(log[..i], c), c, Monitor(base, prompts, config, log[..i]).value.turn.calls)
    {
      TracesMatch(base, prompts, config, log[..i], c);
    }
  }

  /** Of calls in sequence at most one is open at any point: a call that has a successor has ended. */
  lemma OneCallAtATime(base: Transcript, prompts: Transcript, config: Config, log: Log, c: nat, d: nat)
    requires Legal(base, prompts, config, log) && c < d && CallTrace(log, d) != []
    ensures var batch := BatchOf(log);
            && batch.Some? && d < |batch.value|
            && (config.sequential || (exists b :: 0 <= b < |batch.value| && config.needsSequence(batch.value[b].name))
                ==> WholeTrace(CallTrace(log, c), c, batch.value[c].id))
  {
    BatchNoted(base, prompts, config, log);
    TracesMatch(base, prompts, config, log, c);
    TracesMatch(base, prompts, config, log, d);
  }

  /** Calls that run side by side have all been started before the first result message comes. */
  lemma CallsStartTogether(base: Transcript, prompts: Transcript, config: Config, log: Log, i: nat, m: AgentMessage,
                           c: nat)
    requires Legal(base, prompts, config, log) && i < |log| && EventOf(log[i]) == Some(MessageStart(m))
    requires BatchOf(log[..i]).Some? && c < |BatchOf(log[..i]).value| && !config.sequential
    requires forall b :: 0 <= b < |BatchOf(log[..i]).value| ==> !config.needsSequence(BatchOf(log[..i]).value[b].name)
    ensures CallTrace(log[..i], c) != []
         && CallTrace(log[..i], c)[0] == ToolExecutionStart(c, BatchOf(log[..i]).value[c].id)
  {
    LegalStep(base, prompts, config, log, i);
    BatchNoted(base, prompts, config, log[..i]);
    BatchAnswered(base, prompts, config, log[..i]);
    TurnsInOrder(base, prompts, config, log[..i]);
    TracesMatch(base, prompts, config, log[..i], c);
  }

  lemma BatchAnswers(base: Transcript, config: Config, mon: Mon, entry: Entry)
    requires EntryOk(base, config, mon, entry) && (mon.turn.batch.Some? ==> mon.turn.answer.Some?)
    ensures var turn := After(base, config, mon, entry).turn; turn.batch.Some? ==> turn.answer.Some?
  {
  }

  lemma {:induction false} BatchAnswered(base: Transcript, prompts: Transcript, config: Config, log: Log)
    requires Legal(base, prompts, config, log)
    ensures var mon := Monitor(base, prompts, config, log).value;
            mon.turn.batch.Some? ==> mon.turn.answer.Some?
  {
    if log != [] {
      hide EntryOk, After;
      BatchAnswered(base, prompts, config, log[..|log| - 1]);
      BatchAnswers(base, config, Monitor(base, prompts, config, log[..|log| - 1]).value, log[|log| - 1]);
    }
  }

  ghost predicate ResultsNamed(mon: Mon) {
    && mon.turn.results <= |mon.finished| && mon.turn.results <= |mon.turn.calls|
    && forall k :: 0 <= k < mon.turn.results ==>
         mon.finished[|mon.finished| - mon.turn.results + k].toolCallId == mon.turn.calls[k].id
  }

  lemma {:induction false} ResultsNameTheirCalls(base: Transcript, prompts: Transcript, config: Config, log: Log)
    requires Legal(base, prompts, config, log)
    ensures ResultsNamed(Monitor(base, prompts, config, log).value)
  {
    if log != [] {
      ResultsNameTheirCalls(base, prompts, config, log[..|log| - 1]);
      var mon := Monitor(base, prompts, config, log[..|log| - 1]).value;
      TurnsInOrder(base, prompts, config, log[..|log| - 1]);
      ResultsNamedStep(base, config, mon, log[|log| - 1]);
    }
  }

  lemma ResultsNamedStep(base: Transcript, config: Config, mon: Mon, entry: Entry)
    requires ResultsNamed(mon) && TurnInOrder(mon) && EntryOk(base, config, mon, entry)
    ensures ResultsNamed(After(base, config, mon, entry))
  {
    if entry.Emitted? {
      ResultsNamedEvent(base, config, mon, entry.event, entry.view);
    }
  }

  lemma ResultsNamedEvent(base: Transcript, config: Config, mon: Mon, event: AgentEvent, view: View)
    requires ResultsNamed(mon) && TurnInOrder(mon) && EventOk(base, config, mon, event, view)
    ensures ResultsNamed(AfterEvent(mon, event))
  {
    if event.MessageEnd? {
      var f, f' := mon.finished, AfterEvent(mon, event).finished;
      assert forall k :: 0 <= k < |f| ==> f'[k] == f[k];
    }
  }

  // ------------------------------------------------------------------------------------------
  // The reasoning-loop guard
  // ------------------------------------------------------------------------------------------

  function Decisions(log: Log): seq<Decision> {
    if log == [] then []
    else if log[|log| - 1].Triggered? then Decisions(log[..|log| - 1]) + [log[|log| - 1].decision]
    else Decisions(log[..|log| - 1])
  }

  /** A run triggers at most three times: steer, abort and continue, stop, in this order. */
  lemma {:induction false} LadderClimbedOnce(base: Transcript, prompts: Transcript, config: Config, log: Log)
    requires Legal(base, prompts, config, log)
    ensures var n := Monitor(base, prompts, config, log).value.guard.triggers;
            n <= 3 && Decisions(log) == [Steer, AbortAndContinue, StopRun][..n]
  {
    if log != [] {
      hide EntryOk, After;
      LadderClimbedOnce(base, prompts, config, log[..|log| - 1]);
      TriggerStep(base, config, Monitor(base, prompts, config, log[..|log| - 1]).value, log[|log| - 1]);
    }
  }

  lemma TriggerStep(base: Transcript, config: Config, mon: Mon, entry: Entry)
    requires EntryOk(base, config, mon, entry) && mon.guard.triggers <= 3
    ensures After(base, config, mon, entry).guard.triggers == mon.guard.triggers + (if entry.Triggered? then 1 else 0)
    ensures entry.Triggered? ==> mon.guard.triggers < 3 && entry.decision == LADDER[mon.guard.triggers]
  {
    hide TurnEndOk, EventOk, PollOk, HookOk, MayTrigger;
  }

  /** What stopped the response of the turn that started last; degeneracy overrides the guard. */
  function CauseOf(log: Log): Cause {
    if log == [] then NoCause
    else
      match log[|log| - 1]
      case Emitted(TurnStart, _) => NoCause
      case Degenerated => ByDegeneracy
      case Triggered(_) => if InResponse(log[..|log| - 1]) then ByGuard else CauseOf(log[..|log| - 1])
      case _ => CauseOf(log[..|log| - 1])
  }

  /** A turn started that has not ended. */
  predicate InResponse(log: Log) {
    log != [] && match log[|log| - 1]
                 case Emitted(TurnStart, _) => true
                 case TurnEnded(_, _, _) => false
                 case _ => InResponse(log[..|log| - 1])
  }

  lemma {:induction false} CauseNoted(base: Transcript, prompts: Transcript, config: Config, log: Log)
    requires Legal(base, prompts, config, log)
    ensures var mon := Monitor(base, prompts, config, log).value;
            mon.turn.cause == CauseOf(log) && ResponseFits(mon.phase, InResponse(log))
  {
    if log != [] {
      hide EntryOk, After;
      var init := log[..|log| - 1];
      CauseNoted(base, prompts, config, init);
      CauseStep(base, config, Monitor(base, prompts, config, init).value, log[|log| - 1], InResponse(init));
    }
  }

  predicate ResponseFits(phase: Phase, inResponse: bool) {
    && (phase == NotStarted || phase == BetweenTurns ==> !inResponse)
    && (phase == TurnOpen || phase.MessageOpen? ==> inResponse)
  }

  lemma CauseStep(base: Transcript, config: Config, mon: Mon, entry: Entry, inResponse: bool)
    requires EntryOk(base, config, mon, entry)
    requires ResponseFits(mon.phase, inResponse)
    ensures After(base, config, mon, entry).turn.cause
         == match entry
            case Emitted(TurnStart, _) => NoCause
            case Degenerated => ByDegeneracy
            case Triggered(_) => if inResponse then ByGuard else mon.turn.cause
            case _ => mon.turn.cause
    ensures ResponseFits(After(base, config, mon, entry).phase, match entry
                                                                case Emitted(TurnStart, _) => true
                                                                case TurnEnded(_, _, _) => false
                                                                case _ => inResponse)
  {
    hide TurnEndOk, Agree, MayEnd, PollOk, StartOk, ResultsMayCome, HookOk;
  }

  /** A turn is cut, so that the guard's decision takes effect, if and only if degeneracy did not stop it as well. */
  lemma CutUnlessDegenerate(base: Transcript, prompts: Transcript, config: Config, log: Log, i: nat)
    requires Legal(base, prompts, config, log) && i < |log| && log[i].TurnEnded?
    ensures log[i].facts.kind == Cut <==> CauseOf(log[..i]) == ByGuard
    ensures CauseOf(log[..i]) == ByDegeneracy ==> log[i].facts.kind == Stopped
  {
    LegalStep(base, prompts, config, log, i);
    CauseNoted(base, prompts, config, log[..i]);
  }

  /** A response in which the guard decides to steer and the text degenerates as well. */
  lemma LostDecision(base: Transcript, config: Config, m: AgentMessage, view: View) returns (log: Log)
    requires m.role == AssistantRole && config.guarded
    ensures Legal(base, [], config, log) && Deliveries(log) == 0
    ensures Monitor(base, [], config, log).value
         == Start([]).(phase := TurnOpen, finished := [m], asked := true, emptied := {Steering},
                       turn := NEW_TURN.(provider := true, answer := Some(m), cause := ByDegeneracy),
                       guard := GuardState(1, false, 0))
  {
    hide Monitor;
    log := OpeningHistory(base, config, view);
    LegalSnoc(base, [], config, log, Triggered(Steer));
    log := log + [Triggered(Steer)];
    LegalSnoc(base, [], config, log, Degenerated);
    log := log + [Degenerated];
    LegalSnoc(base, [], config, log, Emitted(MessageStart(m), view));
    log := log + [Emitted(MessageStart(m), view)];
    LegalSnoc(base, [], config, log, Emitted(MessageEnd(m), view));
    log := log + [Emitted(MessageEnd(m), view)];
  }

  lemma LostDecisionEnds(base: Transcript, config: Config, m: AgentMessage) returns (log: Log)
    requires m.role == AssistantRole && config.guarded
    ensures Legal(base, [], config, log) && Deliveries(log) == 0
    ensures var mon := Monitor(base, [], config, log).value; Finished(mon) && mon.guard.triggers == 1
  {
    hide Monitor;
    var view := View(base + [m], [m], base + [m], {}, false);
    log := LostDecision(base, config, m, view);
    var end := TurnEnded(TurnEnd(m, []), view, TurnFacts(Stopped, [], false));
    LegalSnoc(base, [], config, log, end);
    log := log + [end];
    LegalSnoc(base, [], config, log, Emitted(AgentEnd, view));
    log := log + [Emitted(AgentEnd, view)];
  }

  /** So a run can end with a decision taken and nobody steered. */
  lemma DecisionLostToDegeneracy(base: Transcript, config: Config, m: AgentMessage) returns (log: Log)
    requires m.role == AssistantRole && config.guarded
    ensures Legal(base, [], config, log) && Finished(Monitor(base, [], config, log).value)
    ensures Decisions(log) == [Steer] && Deliveries(log) == 0
  {
    log := LostDecisionEnds(base, config, m);
    LadderClimbedOnce(base, [], config, log);
    assert LADDER[..1] == [Steer];
  }

  /** The next turn starts, or the run ends. */
  predicate Moves(entry: Entry) {
    EventOf(entry) == Some(TurnStart) || EventOf(entry) == Some(AgentEnd)
  }

  /** Where a decision's message is: still due, just delivered, or lost to degeneracy for good. */
  ghost predicate Whereabouts(mon: Mon, since: Log) {
    if Degenerated in since then
      && Deliveries(since) == 0 && !mon.guard.due && mon.turn.cause == ByDegeneracy
      && (mon.phase == TurnOpen || mon.phase.MessageOpen?
          || (mon.phase == BetweenTurns && mon.turn.close.Closed? && mon.turn.close.kind == Stopped))
    else if mon.guard.due then Deliveries(since) == 0
    else Deliveries(since) == 1 && mon.phase == BetweenTurns && mon.owed != []
  }

  lemma WhereaboutsStep(base: Transcript, config: Config, mon: Mon, entry: Entry, since: Log)
    requires Whereabouts(mon, since) && EntryOk(base, config, mon, entry) && !Moves(entry)
    ensures Whereabouts(After(base, config, mon, entry), since + [entry])
  {
    assert (since + [entry])[..|since|] == since;
  }

  lemma WhereaboutsBegin(base: Transcript, config: Config, mon: Mon, entry: Entry)
    requires EntryOk(base, config, mon, entry) && entry.Triggered? && entry.decision != StopRun
    ensures Whereabouts(After(base, config, mon, entry), [entry])
  {
    assert [entry][..0] == [];
  }

  lemma {:induction false} DecisionWhereabouts(base: Transcript, prompts: Transcript, config: Config, log: Log, i: nat,
                                               j: nat)
    requires i < j <= |log| && Legal(base, prompts, config, log[..j])
    requires log[i].Triggered? && log[i].decision != StopRun
    requires forall k :: i < k < j ==> !Moves(log[k])
    ensures Whereabouts(Monitor(base, prompts, config, log[..j]).value, log[i..j])
    decreases j
  {
    hide EntryOk, After, Whereabouts;
    var init := log[..j - 1];
    assert log[..j][..j - 1] == init;
    if i < j - 1 {
      DecisionWhereabouts(base, prompts, config, log, i, j - 1);
      WhereaboutsStep(base, config, Monitor(base, prompts, config, init).value, log[j - 1], log[i..j - 1]);
      assert log[i..j] == log[i..j - 1] + [log[j - 1]];
    } else {
      assert log[i..j] == [log[i]];
      WhereaboutsBegin(base, config, Monitor(base, prompts, config, init).value, log[i]);
    }
  }

  /**
   * Before the next turn starts or the run ends, each of the guard's first two decisions has its message delivered,
   * once, if and only if degeneracy did not stop the same response.
   */
  lemma DecisionDelivered(base: Transcript, prompts: Transcript, config: Config, log: Log, i: nat, j: nat)
    requires Legal(base, prompts, config, log) && i < j < |log| && log[i].Triggered? && log[i].decision != StopRun
    requires Moves(log[j]) && forall k :: i < k < j ==> !Moves(log[k])
    ensures Deliveries(log[i..j]) == if Degenerated in log[i..j] then 0 else 1
  {
    LegalStep(base, prompts, config, log, j);
    DecisionWhereabouts(base, prompts, config, log, i, j);
  }

  lemma {:induction false} StoppedForGood(base: Transcript, prompts: Transcript, config: Config, log: Log, i: nat)
    requires Legal(base, prompts, config, log) && i < |log|
    requires log[i] == Triggered(StopRun) || (log[i].HookAnswered? && log[i].yes)
    ensures var mon := Monitor(base, prompts, config, log).value;
            GuardStopped(mon.guard) || mon.end.stopRequested
    decreases |log|
  {
    var init := log[..|log| - 1];
    StopStep(base, config, Monitor(base, prompts, config, init).value, log[|log| - 1]);
    if i < |log| - 1 {
      StoppedForGood(base, prompts, config, init, i);
    }
  }

  lemma StopStep(base: Transcript, config: Config, mon: Mon, entry: Entry)
    requires EntryOk(base, config, mon, entry)
    ensures var mon' := After(base, config, mon, entry);
            GuardStopped(mon.guard) || mon.end.stopRequested
            || entry == Triggered(StopRun) || (entry.HookAnswered? && entry.yes)
            ==> GuardStopped(mon'.guard) || mon'.end.stopRequested
  {
  }

  /** After the guard's stop, or once a stop hook asked for it, the provider is not called and no turn starts. */
  lemma NothingAfterStop(base: Transcript, prompts: Transcript, config: Config, log: Log, i: nat, j: nat)
    requires Legal(base, prompts, config, log) && i < j < |log|
    requires log[i] == Triggered(StopRun) || (log[i].HookAnswered? && log[i].yes)
    ensures !log[j].ProviderCalled? && EventOf(log[j]) != Some(TurnStart)
  {
    LegalStep(base, prompts, config, log, j);
    StoppedForGood(base, prompts, config, log[..j], i);
  }

  /** How each turn came to its end, in order. */
  function Kinds(log: Log): seq<TurnKind> {
    if log == [] then []
    else if log[|log| - 1].TurnEnded? then Kinds(log[..|log| - 1]) + [log[|log| - 1].facts.kind]
    else Kinds(log[..|log| - 1])
  }

  lemma StreakStep(base: Transcript, config: Config, mon: Mon, entry: Entry)
    requires EntryOk(base, config, mon, entry)
    ensures After(base, config, mon, entry).guard.streak
         == if entry.TurnEnded? then StreakAfter(mon.guard.streak, entry.facts.kind) else mon.guard.streak
    ensures config.guarded && mon.guard.streak <= MAX_BAD_TURNS
            ==> After(base, config, mon, entry).guard.streak <= MAX_BAD_TURNS
  {
  }

  lemma {:induction false} StreakCounts(base: Transcript, prompts: Transcript, config: Config, log: Log, n: nat)
    requires config.guarded && Legal(base, prompts, config, log)
    requires n <= |Kinds(log)| && forall i :: |Kinds(log)| - n <= i < |Kinds(log)| ==> BadTurn(Kinds(log)[i])
    ensures n <= Monitor(base, prompts, config, log).value.guard.streak <= MAX_BAD_TURNS
  {
    if log != [] {
      hide EntryOk, After;
      var init, kinds := log[..|log| - 1], Kinds(log);
      StreakStep(base, config, Monitor(base, prompts, config, init).value, log[|log| - 1]);
      if log[|log| - 1].TurnEnded? && n > 0 {
        assert forall i :: 0 <= i < |Kinds(init)| ==> Kinds(init)[i] == kinds[i];
        assert BadTurn(kinds[|kinds| - 1]);
        StreakCounts(base, prompts, config, init, n - 1);
      } else if log[|log| - 1].TurnEnded? {
        StreakCounts(base, prompts, config, init, 0);
      } else {
        StreakCounts(base, prompts, config, init, n);
      }
    }
  }

  /** With the guard on, five turns in a row are never all cut or without progress. */
  lemma AtMostFourBadTurns(base: Transcript, prompts: Transcript, config: Config, log: Log, i: nat)
    requires config.guarded && Legal(base, prompts, config, log) && i + 5 <= |Kinds(log)|
    ensures exists j :: i <= j < i + 5 && !BadTurn(Kinds(log)[j])
  {
    if forall j :: i <= j < i + 5 ==> BadTurn(Kinds(log)[j]) {
      var m := CutAfterTurn(log, i + 5);
      LegalPrefix(base, prompts, config, log, m);
      StreakCounts(base, prompts, config, log[..m], 5);
    }
  }

  lemma {:induction false} CutAfterTurn(log: Log, n: nat) returns (m: nat)
    requires n <= |Kinds(log)|
    ensures m <= |log| && Kinds(log[..m]) == Kinds(log)[..n]
  {
    if n == |Kinds(log)| {
      m := |log|;
      assert log[..m] == log;
    } else {
      m := CutAfterTurn(log[..|log| - 1], n);
      assert log[..|log| - 1][..m] == log[..m];
    }
  }
}
