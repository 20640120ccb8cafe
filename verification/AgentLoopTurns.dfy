/** The shape of a run's events, and when another turn follows. */
module AgentLoopTurns {
  import opened Wrappers
  import opened Transcript
  import opened ToolBatch
  import opened AgentEvents
  import opened AgentLoop
  import opened AgentLoopProperties
  import opened AgentLoopQueues

  // ---- One message per queue and turn ------------------------------------------------

  ghost predicate Modest(parts: seq<Part>) {
    |From(parts, Steering)| <= 1 && |From(parts, FollowUp)| <= 1
  }

  predicate OneByOne(t: TurnInput) {
    t.before.steerMode == OneAtATime && t.after.steerMode == OneAtATime && t.idle.followMode == OneAtATime
  }

  ghost predicate AllModest(s: LoopState) {
    Modest(s.log.parts) && forall i :: 0 <= i < |s.log.turns| ==> Modest(s.log.turns[i].parts)
  }

  lemma AddPart(parts: seq<Part>, p: Part)
    requires Modest(parts) && |p.messages| <= 1
    requires p.origin == Steering || p.origin == FollowUp
    requires From(parts, p.origin) == []
    ensures Modest(parts + [p])
  {
    hide From;
    PartsConcat(parts, [p], Steering);
    PartsConcat(parts, [p], FollowUp);
    PartsOne(p, Steering);
    PartsOne(p, FollowUp);
  }

  lemma OpenTurnIsModest(s: LoopState, t: TurnInput)
    requires AllModest(s) && Accounted(s) && s.status == Active && !s.skipPoll && OneByOne(t)
    ensures AllModest(OpenTurn(s, t))
  {
    hide From, PartMessages, ReduceAll, Visible;
    if !s.first {
      var update := if t.prepare.Some? then t.prepare.value else TurnUpdate(None, []);
      var p := Part(Hook, update.messages);
      PartsConcat([p], s.log.parts, Steering);
      PartsConcat([p], s.log.parts, FollowUp);
      PartsOne(p, Steering);
      PartsOne(p, FollowUp);
      assert Modest([p] + s.log.parts);
      if s.pending == [] {
        NothingFrom(s.log.parts, Steering);
        AddPart([p] + s.log.parts, Part(Steering, Peek(s.steerQueue + t.before.steer, t.before.steerMode)));
      }
    }
  }

  lemma ScheduleIsModest(s: LoopState, t: TurnInput)
    requires AllModest(s) && s.log.parts == [] && !s.skipPoll && OneByOne(t)
    ensures AllModest(Schedule(PollSteering(s, t.after), t))
  {
    hide From, PartMessages, ReduceAll, Visible;
    PartsEmpty();
    var s1 := PollSteering(s, t.after);
    var p := Part(Steering, s1.pending);
    AddPart([], p);
    assert [] + [p] == [p];
    if !(s1.hasMore || s1.pending != []) {
      PartsOne(p, FollowUp);
      AddPart([p], Part(FollowUp, PollFollowUp(s1, t.idle).pending));
    }
  }

  lemma TurnIsModest(s: LoopState, t: TurnInput)
    requires AllModest(s) && Accounted(s) && s.status == Active && !s.skipPoll && OneByOne(t)
    ensures AllModest(TurnStep(s, t))
  {
    hide From, PartMessages, ReduceAll, Visible, OpenTurn, Declared, Pairs, StreamResponse, TraceEvents, RunBatch,
        Schedule, PollSteering;
    OpenTurnIsModest(s, t);
    TooledAccounts(s, t);
    assert Asked(s, t).log.parts == OpenTurn(s, t).log.parts;
    assert AllModest(Asked(s, t)) && AllModest(Tooled(s, t));
    PartsEmpty();
    if !HardExit(t.final.stop) && Tooled(s, t).status != Waiting {
      assert AllModest(Closed(s, t));
      ScheduleIsModest(Closed(s, t), t);
    }
  }

  /** In one-at-a-time mode no turn of any run takes more than one message from either queue. */
  lemma {:induction false} OneMessagePerTurn(s: LoopState, inputs: seq<TurnInput>)
    requires AllModest(s) && Accounted(s) && !s.skipPoll
    requires forall i :: 0 <= i < |inputs| ==> OneByOne(inputs[i])
    ensures AllModest(Run(s, inputs))
    decreases |inputs|
  {
    hide AllModest, Accounted, TurnStep;
    if inputs != [] && s.status == Active {
      TurnIsModest(s, inputs[0]);
      TurnAccounts(s, inputs[0]);
      assert forall i :: 0 <= i < |inputs[1..]| ==> inputs[1..][i] == inputs[i + 1];
      OneMessagePerTurn(TurnStep(s, inputs[0]), inputs[1..]);
    }
  }

  /** A run starts modestly when it was handed at most one queued message. */
  lemma BeginIsModest(start: Start, prompts: seq<Message>, origin: Origin, a: Arrivals)
    requires a.steerMode == OneAtATime
    requires origin == Prompt || (|prompts| <= 1 && (origin == FollowUp || (origin == Steering && start.skipPoll)))
    ensures AllModest(StartPrompt(start, prompts, origin, a)) && AllModest(StartContinue(start, a))
  {
    hide From, PartMessages, ReduceAll, Declared, Pairs;
    PartsEmpty();
    var p := Part(origin, prompts);
    PartsOne(p, Steering);
    PartsOne(p, FollowUp);
    var q := Part(Steering, Peek(start.steerQueue + a.steer, a.steerMode));
    AddPart([], q);
    assert [] + [q] == [q];
    if origin != Steering {
      AddPart([p], q);
    }
  }

  /** So it holds of every run that a prompt, a queued message or the bare transcript starts. */
  lemma OneMessagePerTurnOfEveryRun(start: Start, prompts: seq<Message>, origin: Origin, a: Arrivals,
      inputs: seq<TurnInput>)
    requires a.steerMode == OneAtATime
    requires origin == Prompt || (|prompts| <= 1 && (origin == FollowUp || (origin == Steering && start.skipPoll)))
    requires forall i :: 0 <= i < |inputs| ==> OneByOne(inputs[i])
    ensures AllModest(Run(StartPrompt(start, prompts, origin, a), inputs))
        && AllModest(Run(StartContinue(start, a), inputs))
  {
    hide AllModest, Run, StartPrompt, StartContinue;
    BeginIsModest(start, prompts, origin, a);
    BeginAccounts(StartPrompt(start, prompts, origin, a), start);
    BeginAccounts(StartContinue(start, a), start);
    OneMessagePerTurn(StartPrompt(start, prompts, origin, a), inputs);
    OneMessagePerTurn(StartContinue(start, a), inputs);
  }

  // ---- The grammar of events ---------------------------------------------------------

  function TurnEvents(l: TurnLog): seq<Event> {
    [TurnStart] + Pairs(l.injected) + l.streamed + l.tooling + [TurnEnd(l.message, l.results)]
  }

  function TurnsEvents(turns: seq<TurnLog>): seq<Event> {
    if turns == [] then [] else TurnsEvents(turns[..|turns| - 1]) + TurnEvents(turns[|turns| - 1])
  }

  lemma TurnsEventsOne(turns: seq<TurnLog>, l: TurnLog)
    ensures TurnsEvents(turns + [l]) == TurnsEvents(turns) + TurnEvents(l)
  {
    assert (turns + [l])[..|turns|] == turns;
  }

  predicate Tooling(e: Event) {
    e.ToolStart? || e.ToolUpdate? || e.ToolEnd? || ((e.MessageStart? || e.MessageEnd?) && e.message.ToolResult?)
  }

  /** One assistant message, streamed; then tool events; the results are the tool messages that ended. */
  ghost predicate WellFormedTurn(l: TurnLog) {
    && l.message.Assistant?
    && StreamShape(l.streamed, l.message)
    && (forall i :: 0 <= i < |l.tooling| ==> Tooling(l.tooling[i]))
    && EndMessages(TurnEvents(l)) == l.injected + [l.message] + l.results
  }

  /** The events after the finished turns. */
  ghost predicate TailShape(s: LoopState, tail: seq<Event>) {
    match s.status
    case Active => tail == if s.first then [TurnStart] + Pairs(s.log.injected) else []
    case Stopped => tail == [AgentEnd(s.newMessages)] && |s.log.turns| > 0
    case Waiting =>
      exists streamed, tooling, message ::
        && tail == [TurnStart] + Pairs(s.log.injected) + streamed + tooling
        && StreamShape(streamed, message)
        && forall i :: 0 <= i < |tooling| ==> Tooling(tooling[i])
  }

  ghost predicate Grammatical(s: LoopState) {
    && (forall i :: 0 <= i < |s.log.turns| ==> WellFormedTurn(s.log.turns[i]))
    && [AgentStart] + TurnsEvents(s.log.turns) <= s.log.events
    && TailShape(s, s.log.events[|[AgentStart] + TurnsEvents(s.log.turns)|..])
    && (s.first <==> s.log.turns == [])
    && (!s.first && s.status == Active ==> s.log.injected == [])
  }

  /** The finished part of the event log. */
  function Finished(turns: seq<TurnLog>): seq<Event> {
    [AgentStart] + TurnsEvents(turns)
  }

  lemma {:induction false} TraceIsTooling(trace: seq<Step>, calls: seq<ToolCall>)
    ensures forall i :: 0 <= i < |TraceEvents(trace, calls)| ==> Tooling(TraceEvents(trace, calls)[i])
  {
    if trace != [] {
      TraceIsTooling(trace[..|trace| - 1], calls);
    }
  }

  /** The events of the turn in progress, once the model has answered. */
  function Opened(injected: seq<Message>, streamed: seq<Event>): seq<Event> {
    [TurnStart] + Pairs(injected) + streamed
  }

  lemma OpenTurnEvents(s: LoopState, t: TurnInput)
    requires Grammatical(s) && s.status == Active
    ensures var r := OpenTurn(s, t);
            && r.log.turns == s.log.turns && r.first == s.first && r.status == Active
            && r.log.events == Finished(s.log.turns) + Opened(r.log.injected, [])
  {
    hide TurnsEvents, ReduceAll, From, PartMessages, WellFormedTurn;
    var r := OpenTurn(s, t);
    assert s.log.events == Finished(s.log.turns) + s.log.events[|Finished(s.log.turns)|..];
    assert r.log.injected == s.log.injected;
    if !s.first {
      assert Pairs([]) == [];
    }
  }

  /** Injected messages come with their events, right behind those injected before. */
  lemma InjectEvents(s: LoopState, finished: seq<Event>)
    requires s.log.events == finished + Opened(s.log.injected, [])
    ensures var r := Inject(s);
            && r.log.turns == s.log.turns && r.first == s.first && r.status == s.status
            && r.log.events == finished + Opened(r.log.injected, [])
  {
    hide ReduceAll, Pairs, Declared;
    PairsConcat(s.log.injected, Declared(s.context.messages, s.context.tools, s.pending));
  }

  lemma AskedEvents(s: LoopState, t: TurnInput)
    requires Grammatical(s) && s.status == Active
    ensures var r := Asked(s, t);
            && r.log.turns == s.log.turns && r.first == s.first && r.status == Active
            && r.log.events == Finished(s.log.turns) + Opened(r.log.injected, StreamedEvents(s, t))
            && StreamShape(StreamedEvents(s, t), t.final)
            && EndMessages(StreamedEvents(s, t)) == [t.final]
  {
    hide Finished, ReduceAll, Pairs, Inject, StreamResponse, OpenTurn, StreamShape, EndMessages, Grammatical;
    OpenTurnEvents(s, t);
    InjectEvents(OpenTurn(s, t), Finished(s.log.turns));
    var s2 := Inject(OpenTurn(s, t));
    var context := if t.request.Some? then t.request.value else s2.context;
    StreamResponseMeaning(context.messages, t.stream, t.final);
  }

  lemma TooledEvents(s: LoopState, t: TurnInput)
    requires Grammatical(s) && s.status == Active
    ensures var r := Tooled(s, t);
            && r.log.turns == s.log.turns && r.first == s.first && r.status != Stopped
            && r.log.injected == Asked(s, t).log.injected
            && r.log.events == Asked(s, t).log.events + ToolEvents(s, t)
            && (forall i :: 0 <= i < |ToolEvents(s, t)| ==> Tooling(ToolEvents(s, t)[i]))
            && EndMessages(ToolEvents(s, t)) == ToolMessages(s, t)
  {
    hide TurnsEvents, ReduceAll, Asked, TraceEvents, RunBatch, EndMessages, WellFormedTurn;
    AskedEvents(s, t);
    EndEmpty();
    if t.final.calls != [] {
      var a := Asked(s, t);
      TraceIsTooling(TurnBatch(a, t).trace, t.final.calls);
      BatchEnds(a.context.tools, t.final.calls, t.final.stop, t.batch);
    }
  }

  lemma TurnEnds(l: TurnLog)
    requires EndMessages(l.streamed) == [l.message] && EndMessages(l.tooling) == l.results
    ensures EndMessages(TurnEvents(l)) == l.injected + [l.message] + l.results
  {
    hide EndMessages, Pairs;
    EndPairs(l.injected);
    EndsOf([TurnStart]);
    EndsOf([TurnEnd(l.message, l.results)]);
    var a := [TurnStart] + Pairs(l.injected);
    var b := a + l.streamed;
    var c := b + l.tooling;
    EndConcat([TurnStart], Pairs(l.injected));
    EndConcat(a, l.streamed);
    EndConcat(b, l.tooling);
    EndConcat(c, [TurnEnd(l.message, l.results)]);
  }

  /** Closing a turn moves its events into the finished part. */
  lemma CloseTurnEvents(s: LoopState, record: TurnLog)
    requires forall i :: 0 <= i < |s.log.turns| ==> WellFormedTurn(s.log.turns[i])
    requires WellFormedTurn(record) && record.injected == s.log.injected && s.status == Active
    requires s.log.events == Finished(s.log.turns) + Opened(s.log.injected, record.streamed) + record.tooling
    ensures var r := CloseTurn(s, record);
            && Grammatical(r) && !r.first && r.status == Active
            && r.log.events == Finished(r.log.turns) && r.log.injected == [] && r.log.turns != []
  {
    hide TurnsEvents, ReduceAll, Pairs, WellFormedTurn;
    var r := CloseTurn(s, record);
    TurnsEventsOne(s.log.turns, record);
    assert r.log.events == Finished(s.log.turns) + TurnEvents(record);
    assert r.log.events == Finished(r.log.turns);
    assert r.log.events[|Finished(r.log.turns)|..] == [];
  }

  lemma EndRunEvents(s: LoopState)
    requires Grammatical(s) && s.log.events == Finished(s.log.turns) && s.log.turns != []
    ensures Grammatical(EndRun(s))
  {
    hide TurnsEvents, ReduceAll, Pairs, WellFormedTurn;
    var r := EndRun(s);
    assert r.log.events[|Finished(r.log.turns)|..] == [AgentEnd(s.newMessages)];
  }

  /** Between two turns, queues and polls have no part in the grammar. */
  lemma SameGrammar(s: LoopState, r: LoopState)
    requires Grammatical(s) && s.status == Active && s.log.events == Finished(s.log.turns)
    requires r.status == s.status && r.first == s.first && r.log.events == s.log.events && r.log.turns == s.log.turns
    requires r.log.injected == s.log.injected
    ensures Grammatical(r)
  {
    hide TurnsEvents, WellFormedTurn;
  }

  lemma ScheduleEvents(s: LoopState, t: TurnInput)
    requires Grammatical(s) && s.log.events == Finished(s.log.turns) && s.log.injected == []
    requires s.status == Active && s.log.turns != []
    ensures Grammatical(Schedule(PollSteering(s, t.after), t))
  {
    hide TurnsEvents, Grammatical, EndRun, Peek, Rest;
    var s1 := PollSteering(s, t.after);
    SameGrammar(s, s1);
    var s2 := PollFollowUp(s1, t.idle);
    SameGrammar(s, s2);
    SameGrammar(s, s2.(hasMore := true));
    EndRunEvents(s2);
  }

  lemma TurnGrammar(s: LoopState, t: TurnInput)
    requires Grammatical(s) && s.status == Active
    ensures Grammatical(TurnStep(s, t))
  {
    hide TurnsEvents, ReduceAll, Pairs, Asked, RunTools, StreamedEvents, ToolEvents, ToolMessages, EndMessages,
        StreamShape, Schedule, PollSteering, EndRun, CloseTurn;
    AskedEvents(s, t);
    TooledEvents(s, t);
    EndEmpty();
    if HardExit(t.final.stop) {
      var record := TurnRecord(Asked(s, t), t, StreamedEvents(s, t), [], []);
      TurnEnds(record);
      assert Opened(record.injected, record.streamed) + [] == Opened(record.injected, record.streamed);
      CloseTurnEvents(Asked(s, t), record);
      EndRunEvents(CloseTurn(Asked(s, t), record));
    } else if Tooled(s, t).status == Waiting {
      WaitingTail(Tooled(s, t), StreamedEvents(s, t), ToolEvents(s, t), t.final);
    } else {
      var record := TurnRecord(Tooled(s, t), t, StreamedEvents(s, t), ToolEvents(s, t), ToolMessages(s, t));
      TurnEnds(record);
      CloseTurnEvents(Tooled(s, t), record);
      EndRunEvents(Closed(s, t));
      ScheduleEvents(Closed(s, t), t);
    }
  }

  lemma WaitingTail(s: LoopState, streamed: seq<Event>, tooling: seq<Event>, message: Message)
    requires s.status == Waiting && (s.first <==> s.log.turns == [])
    requires forall i :: 0 <= i < |s.log.turns| ==> WellFormedTurn(s.log.turns[i])
    requires s.log.events == Finished(s.log.turns) + Opened(s.log.injected, streamed) + tooling
    requires StreamShape(streamed, message)
    requires forall i :: 0 <= i < |tooling| ==> Tooling(tooling[i])
    ensures Grammatical(s)
  {
    hide TurnsEvents, Pairs, WellFormedTurn, StreamShape;
    var tail := s.log.events[|Finished(s.log.turns)|..];
    assert tail == [TurnStart] + Pairs(s.log.injected) + streamed + tooling;
    assert TailShape(s, tail);
  }

  lemma {:induction false} RunGrammar(s: LoopState, inputs: seq<TurnInput>)
    requires Grammatical(s)
    ensures Grammatical(Run(s, inputs))
    decreases |inputs|
  {
    hide Grammatical, TurnStep;
    if inputs != [] && s.status == Active {
      TurnGrammar(s, inputs[0]);
      RunGrammar(TurnStep(s, inputs[0]), inputs[1..]);
    }
  }

  lemma BeginGrammar(s: LoopState, start: Start)
    requires Begins(s, start)
    ensures Grammatical(s)
  {
    hide Grammatical, StartPrompt, StartContinue;
    if a :| s == StartContinue(start, a) {
      StartContinueGrammar(start, a);
    } else {
      var prompts, origin, a :| s == StartPrompt(start, prompts, origin, a);
      StartPromptGrammar(start, prompts, origin, a);
    }
  }

  lemma StartContinueGrammar(start: Start, a: Arrivals)
    ensures Grammatical(StartContinue(start, a))
  {
    hide ReduceAll, From, PartMessages, Peek, Rest;
    assert TurnsEvents([]) == [];
    assert Pairs([]) == [];
    var s := StartContinue(start, a);
    assert s.log.events == [AgentStart, TurnStart];
    assert s.log.events[1..] == [TurnStart];
  }

  lemma StartPromptGrammar(start: Start, prompts: seq<Message>, origin: Origin, a: Arrivals)
    ensures Grammatical(StartPrompt(start, prompts, origin, a))
  {
    hide ReduceAll, Declared, From, PartMessages, Peek, Rest, Pairs;
    assert TurnsEvents([]) == [];
    var s := StartPrompt(start, prompts, origin, a);
    var declared := Declared(start.context.messages, start.context.tools, prompts);
    assert [] + declared == declared;
    assert s.log.injected == declared;
    assert s.log.events == [AgentStart, TurnStart] + Pairs(declared);
    assert s.log.events[1..] == [TurnStart] + Pairs(declared);
  }

  predicate Boundary(e: Event) {
    e.AgentStart? || e.AgentEnd?
  }

  lemma {:induction false} TurnsHaveNoBoundary(turns: seq<TurnLog>)
    requires forall i :: 0 <= i < |turns| ==> WellFormedTurn(turns[i])
    ensures forall i :: 0 <= i < |TurnsEvents(turns)| ==> !Boundary(TurnsEvents(turns)[i])
  {
    if turns != [] {
      var n := |turns| - 1;
      TurnsHaveNoBoundary(turns[..n]);
      PairsHaveNoBoundary(turns[n].injected);
      assert WellFormedTurn(turns[n]);
      var l := turns[n];
      forall i | 0 <= i < |TurnEvents(l)| ensures !Boundary(TurnEvents(l)[i]) {
        var p := 1 + |Pairs(l.injected)|;
        if 1 <= i < p {
          assert TurnEvents(l)[i] == Pairs(l.injected)[i - 1];
        } else if p <= i < p + |l.streamed| {
          assert TurnEvents(l)[i] == l.streamed[i - p];
        } else if p + |l.streamed| <= i < p + |l.streamed| + |l.tooling| {
          assert TurnEvents(l)[i] == l.tooling[i - p - |l.streamed|];
        }
      }
    }
  }

  lemma {:induction false} PairsHaveNoBoundary(messages: seq<Message>)
    ensures forall i :: 0 <= i < |Pairs(messages)| ==> !Boundary(Pairs(messages)[i])
  {
    if messages != [] { PairsHaveNoBoundary(messages[..|messages| - 1]); }
  }

  /**
    The events of every stopped run are one `agent_start`, one or more turns each with exactly one
    streamed assistant message, and one final `agent_end` that carries the new messages.
   */
  lemma EventGrammar(s: LoopState, start: Start, inputs: seq<TurnInput>)
    requires Begins(s, start)
    ensures Grammatical(Run(s, inputs))
    ensures var r := Run(s, inputs);
            r.status == Stopped ==>
              && |r.log.turns| > 0
              && r.log.events == [AgentStart] + TurnsEvents(r.log.turns) + [AgentEnd(r.newMessages)]
              && (forall i :: 0 <= i < |r.log.events| ==> (r.log.events[i].AgentStart? <==> i == 0))
              && (forall i :: 0 <= i < |r.log.events| ==> (r.log.events[i].AgentEnd? <==> i == |r.log.events| - 1))
  {
    hide Run, TurnsEvents, WellFormedTurn, Grammatical, Begins;
    BeginGrammar(s, start);
    RunGrammar(s, inputs);
    if Run(s, inputs).status == Stopped {
      StoppedShape(Run(s, inputs));
    }
  }

  lemma StoppedShape(r: LoopState)
    requires Grammatical(r) && r.status == Stopped
    ensures |r.log.turns| > 0
    ensures r.log.events == [AgentStart] + TurnsEvents(r.log.turns) + [AgentEnd(r.newMessages)]
    ensures forall i :: 0 <= i < |r.log.events| ==> (r.log.events[i].AgentStart? <==> i == 0)
    ensures forall i :: 0 <= i < |r.log.events| ==> (r.log.events[i].AgentEnd? <==> i == |r.log.events| - 1)
  {
    hide TurnsEvents, WellFormedTurn;
    TurnsHaveNoBoundary(r.log.turns);
    var finished, end := Finished(r.log.turns), [AgentEnd(r.newMessages)];
    assert r.log.events == finished + end;
    forall i | 0 <= i < |r.log.events|
      ensures r.log.events[i].AgentStart? <==> i == 0
      ensures r.log.events[i].AgentEnd? <==> i == |r.log.events| - 1
    {
      if 0 < i < |finished| {
        assert r.log.events[i] == TurnsEvents(r.log.turns)[i - 1];
      }
    }
  }

  // ---- From the queues to the transcript ---------------------------------------------

  /** What a sequence of turns adds to the transcript. */
  function TurnsMessages(turns: seq<TurnLog>): seq<Message> {
    if turns == [] then []
    else
      var last := turns[|turns| - 1];
      TurnsMessages(turns[..|turns| - 1]) + (last.injected + [last.message] + last.results)
  }

  lemma {:induction false} EndTurns(turns: seq<TurnLog>)
    requires forall i :: 0 <= i < |turns| ==> WellFormedTurn(turns[i])
    ensures EndMessages(TurnsEvents(turns)) == TurnsMessages(turns)
  {
    hide EndMessages, TurnEvents;
    if turns == [] {
      EndEmpty();
    } else {
      var n := |turns| - 1;
      EndTurns(turns[..n]);
      EndConcat(TurnsEvents(turns[..n]), TurnEvents(turns[n]));
      assert WellFormedTurn(turns[n]);
    }
  }

  lemma StoppedMessages(r: LoopState)
    requires Grammatical(r) && r.status == Stopped
    ensures EndMessages(r.log.events) == TurnsMessages(r.log.turns)
  {
    hide EndMessages, TurnsEvents, TurnsMessages, WellFormedTurn;
    StoppedShape(r);
    EndTurns(r.log.turns);
    EndsOf([AgentStart]);
    EndsOf([AgentEnd(r.newMessages)]);
    EndConcat([AgentStart], TurnsEvents(r.log.turns));
    EndConcat([AgentStart] + TurnsEvents(r.log.turns), [AgentEnd(r.newMessages)]);
  }

  /**
    Queue conservation: the transcript of every stopped run is what each turn injected, its answer and its tool
    results, turn by turn; what a turn injected is what was taken for it; and for each queue, what was enqueued
    is what the turns took from it, in order, followed by what is still queued.
   */
  lemma QueueConservation(s: LoopState, start: Start, inputs: seq<TurnInput>)
    requires Begins(s, start)
    ensures Conserved(Run(s, inputs)) && Accounted(Run(s, inputs))
    ensures var r := Run(s, inputs);
            var turns := r.log.turns;
            r.status == Stopped ==>
              && r.newMessages == TurnsMessages(turns)
              && r.agent.messages == start.agent.messages + TurnsMessages(turns)
              && (forall i :: 0 <= i < |turns| ==> Visible(turns[i].injected) == Visible(PartMessages(turns[i].parts)))
              && r.log.steered == TurnsFrom(turns, Steering) + r.steerQueue
              && r.log.followed == TurnsFrom(turns, FollowUp) + r.followQueue
  {
    hide Begins, Run, TurnsFrom, TurnsMessages, Visible, Conserved, Grammatical;
    TurnsConserve(s, start, inputs);
    EventGrammar(s, start, inputs);
    TranscriptAgreement(s, start, inputs);
    if Run(s, inputs).status == Stopped {
      StoppedMessages(Run(s, inputs));
    }
  }

  // ---- When another turn follows -----------------------------------------------------

  /** The tool batch of the turn asks for another turn. */
  predicate BatchContinues(s: LoopState, t: TurnInput) {
    t.final.calls != [] && !ShouldTerminate(TurnBatch(Asked(s, t), t).finals)
  }

  predicate SteeringWaits(s: LoopState, t: TurnInput) {
    Tooled(s, t).steerQueue + t.after.steer != []
  }

  predicate FollowUpWaits(s: LoopState, t: TurnInput) {
    Tooled(s, t).followQueue + t.after.follow + t.idle.follow != []
  }

  lemma TooledKeepsPoll(s: LoopState, t: TurnInput)
    requires !s.skipPoll
    ensures !Asked(s, t).skipPoll && !Tooled(s, t).skipPoll
  {
    hide ReduceAll, Declared, Pairs, StreamResponse, TraceEvents, RunBatch, Peek, Rest;
  }

  lemma TooledStatus(s: LoopState, t: TurnInput)
    requires s.status == Active
    ensures Asked(s, t).status == Active && (Tooled(s, t).status == Active || Tooled(s, t).status == Waiting)
  {
    hide ReduceAll, Declared, Pairs, StreamResponse, TraceEvents, RunBatch, Peek, Rest;
  }

  lemma SteeringPoll(s: LoopState, a: Arrivals)
    requires !s.skipPoll
    ensures var r := PollSteering(s, a);
            && r.status == s.status && r.hasMore == s.hasMore && r.followQueue == s.followQueue + a.follow
            && (r.pending != [] <==> s.steerQueue + a.steer != [])
  {
  }

  lemma FollowUpPoll(s: LoopState, a: Arrivals)
    ensures var r := PollFollowUp(s, a);
            r.status == s.status && (r.pending != [] <==> s.followQueue + a.follow != [])
  {
  }

  lemma ScheduleStatus(s: LoopState, t: TurnInput)
    requires s.status == Active
    ensures var r := Schedule(s, t);
            && (r.status == Active <==>
                  s.hasMore || s.pending != [] || PollFollowUp(s, t.idle).pending != [] || t.decision == Continue)
            && (r.status == Active || r.status == Stopped)
  {
    hide ReduceAll, PollFollowUp;
    FollowUpPoll(s, t.idle);
  }

  lemma TooledHasMore(s: LoopState, t: TurnInput)
    requires Tooled(s, t).status == Active
    ensures Tooled(s, t).hasMore <==> BatchContinues(s, t)
  {
    hide ReduceAll, Asked, TraceEvents, RunBatch;
  }

  /**
    After a turn that is neither an error nor aborted, another turn follows exactly when `finishTurn`
    did not end the run and there is a non-terminating tool batch, a steering or follow-up message, or
    a continue decision.
   */
  lemma AnotherTurnIff(s: LoopState, t: TurnInput)
    requires s.status == Active && !s.skipPoll
    requires !HardExit(t.final.stop) && Tooled(s, t).status == Active
    ensures TurnStep(s, t).status != Waiting
    ensures TurnStep(s, t).status == Active <==>
              && t.decision != EndNow
              && (BatchContinues(s, t) || SteeringWaits(s, t) || FollowUpWaits(s, t) || t.decision == Continue)
  {
    hide ReduceAll, Tooled, StreamedEvents, ToolEvents, ToolMessages, TurnRecord, BatchContinues, PollSteering,
        PollFollowUp, Schedule;
    TooledKeepsPoll(s, t);
    TooledHasMore(s, t);
    SteeringPoll(Closed(s, t), t.after);
    var s1 := PollSteering(Closed(s, t), t.after);
    FollowUpPoll(s1, t.idle);
    ScheduleStatus(s1, t);
  }

  /** A turn that ends in an error or an abort is the last one. */
  lemma HardExitStops(s: LoopState, t: TurnInput)
    requires HardExit(t.final.stop)
    ensures TurnStep(s, t).status == Stopped
  {
    hide ReduceAll, Asked, StreamedEvents;
  }

  /** A continue decision changes nothing when another turn is due anyway. */
  lemma ContinueAddsNothing(s: LoopState, t: TurnInput)
    requires s.status == Active && !s.skipPoll
    requires BatchContinues(s, t) || SteeringWaits(s, t) || FollowUpWaits(s, t)
    ensures TurnStep(s, t.(decision := Continue)) == TurnStep(s, t.(decision := Undecided))
  {
    hide ReduceAll, TraceEvents, RunBatch, From, Declared, Pairs, StreamResponse, OpenTurn, Schedule, PollSteering,
        CloseTurn;
    var c, u := t.(decision := Continue), t.(decision := Undecided);
    OpenTurnIgnoresDecision(s, c, u);
    OpenTurnIgnoresDecision(s, t, u);
    assert Asked(s, c) == Asked(s, u) == Asked(s, t);
    assert Tooled(s, c) == Tooled(s, u) == Tooled(s, t);
    assert Closed(s, c) == Closed(s, u);
    TooledStatus(s, t);
    if HardExit(t.final.stop) || Tooled(s, t).status == Waiting {
      assert TurnStep(s, c) == TurnStep(s, u);
      return;
    }
    AnotherTurnIff(s, u);
    ScheduleIgnoresContinue(PollSteering(Closed(s, u), t.after), c, u);
  }

  lemma ScheduleIgnoresContinue(s: LoopState, c: TurnInput, u: TurnInput)
    requires c == u.(decision := Continue) && u.decision == Undecided && Schedule(s, u).status == Active
    ensures Schedule(s, c) == Schedule(s, u)
  {
    hide PollFollowUp;
  }

  lemma OpenTurnIgnoresDecision(s: LoopState, t: TurnInput, u: TurnInput)
    requires u == t.(decision := u.decision)
    ensures OpenTurn(s, t) == OpenTurn(s, u)
  {
  }
}
