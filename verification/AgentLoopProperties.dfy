/** What every run of the agent loop keeps, proved by induction over the turns of arbitrary runs. */
module AgentLoopProperties {
  import opened Wrappers
  import opened Transcript
  import opened ToolBatch
  import opened AgentEvents
  import opened AgentLoop

  // ---- Transcript agreement ----------------------------------------------------------

  /** The returned messages, the ended messages and the growth of the agent state are the same sequence. */
  ghost predicate Agrees(s: LoopState, initial: seq<Message>) {
    && EndMessages(s.log.events) == s.newMessages
    && s.agent.messages == initial + s.newMessages
    && (s.status == Stopped ==> |s.log.events| > 0 && s.log.events[|s.log.events| - 1] == AgentEnd(s.newMessages))
  }

  lemma EmitAgrees(s: LoopState, initial: seq<Message>, events: seq<Event>, added: seq<Message>)
    requires EndMessages(s.log.events) + added == s.newMessages
    requires s.agent.messages + added == initial + s.newMessages
    requires EndMessages(events) == added
    ensures var r := Emit(s, events);
            EndMessages(r.log.events) == r.newMessages && r.agent.messages == initial + r.newMessages
  {
    hide EndMessages, ReduceAll;
    EndConcat(s.log.events, events);
    ReducerRebuildsTranscript(s.agent, events);
  }

  lemma EndsOf(events: seq<Event>)
    requires |events| == 1 && !events[0].MessageEnd?
    ensures EndMessages(events) == []
  {
    NoEnds(events);
  }

  lemma OpenTurnAgrees(s: LoopState, t: TurnInput, initial: seq<Message>)
    requires Agrees(s, initial) && s.status == Active
    ensures Agrees(OpenTurn(s, t), initial) && OpenTurn(s, t).status == Active
  {
    hide EndMessages, ReduceAll, PartMessages, From;
    if !s.first {
      EndsOf([TurnStart]);
      var update := if t.prepare.Some? then t.prepare.value else TurnUpdate(None, []);
      var s1 := s.(context := if update.context.Some? then update.context.value else s.context,
                   log := s.log.(parts := [Part(Hook, update.messages)] + s.log.parts));
      var s2 := if s1.pending == [] then PollSteering(s1, t.before) else s1;
      EmitAgrees(s2.(pending := update.messages + s2.pending), initial, [TurnStart], []);
    }
  }

  lemma InjectAgrees(s: LoopState, initial: seq<Message>)
    requires Agrees(s, initial) && s.status == Active
    ensures Agrees(Inject(s), initial) && Inject(s).status == Active
  {
    hide EndMessages, ReduceAll, Declared, Pairs;
    var declared := Declared(s.context.messages, s.context.tools, s.pending);
    EndPairs(declared);
    var s1 := s.(context := s.context.(messages := s.context.messages + declared),
                 newMessages := s.newMessages + declared,
                 pending := [], log := s.log.(injected := s.log.injected + declared));
    EmitAgrees(s1, initial, Pairs(declared), declared);
  }

  lemma AskModelAgrees(s: LoopState, t: TurnInput, initial: seq<Message>)
    requires Agrees(s, initial) && s.status == Active
    ensures Agrees(AskModel(s, t), initial) && AskModel(s, t).status == Active
  {
    hide EndMessages, ReduceAll, StreamResponse;
    var context := if t.request.Some? then t.request.value else s.context;
    StreamResponseMeaning(context.messages, t.stream, t.final);
    var r := StreamResponse(context.messages, t.stream, t.final);
    var s1 := s.(context := context.(messages := r.messages), newMessages := s.newMessages + [t.final],
                 log := s.log.(requests := s.log.requests + [Request(context, t.request.Some?)]));
    EmitAgrees(s1, initial, r.events, [t.final]);
  }

  lemma AskedAgrees(s: LoopState, t: TurnInput, initial: seq<Message>)
    requires Agrees(s, initial) && s.status == Active
    ensures Agrees(Asked(s, t), initial) && Asked(s, t).status == Active
  {
    hide Agrees, OpenTurn, Inject, AskModel;
    OpenTurnAgrees(s, t, initial);
    InjectAgrees(OpenTurn(s, t), initial);
    AskModelAgrees(Inject(OpenTurn(s, t)), t, initial);
  }

  /** The events of a batch end exactly the messages that the batch returns. */
  lemma BatchEnds(tools: seq<AgentTool>, calls: seq<ToolCall>, stop: StopReason, script: BatchScript)
    ensures var r := RunBatch(tools, calls, stop, script);
            EndMessages(TraceEvents(r.trace, calls)) == if r.complete then ResultMessages(r.finals) else []
  {
    hide EndMessages, TraceEvents, RunBatch, LifeOf, ReportedFinals;
    var r := RunBatch(tools, calls, stop, script);
    RunBatchIsOrderly(tools, calls, stop, script);
    forall i: nat | i >= |calls| ensures LifeOf(r.trace, i) == Absent {
      assert Sound(LifeOf(r.trace, i), calls, i);
    }
    WithinByLives(r.trace, calls);
    EndTrace(r.trace, calls);
  }

  lemma RunToolsAgrees(s: LoopState, t: TurnInput, initial: seq<Message>)
    requires Agrees(s, initial) && s.status == Active
    ensures Agrees(RunTools(s, t), initial) && RunTools(s, t).status != Stopped
  {
    hide EndMessages, ReduceAll, TraceEvents, RunBatch;
    if t.final.calls != [] {
      var r := TurnBatch(s, t);
      var results := if r.complete then ResultMessages(r.finals) else [];
      BatchEnds(s.context.tools, t.final.calls, t.final.stop, t.batch);
      var s1 := s.(hasMore := r.complete && !ShouldTerminate(r.finals),
                   context := s.context.(messages := s.context.messages + results),
                   newMessages := s.newMessages + results,
                   status := if r.complete then s.status else Waiting);
      EmitAgrees(s1, initial, TraceEvents(r.trace, t.final.calls), results);
    }
  }

  lemma CloseTurnAgrees(s: LoopState, record: TurnLog, initial: seq<Message>)
    requires Agrees(s, initial) && s.status == Active
    ensures Agrees(CloseTurn(s, record), initial) && CloseTurn(s, record).status == Active
  {
    hide EndMessages, ReduceAll;
    var events := [TurnEnd(record.message, record.results)];
    EndsOf(events);
    EmitAgrees(s.(first := false, log := s.log.(turns := s.log.turns + [record], parts := [], injected := [])),
        initial, events, []);
  }

  lemma EndRunAgrees(s: LoopState, initial: seq<Message>)
    requires Agrees(s, initial) && s.status == Active
    ensures Agrees(EndRun(s), initial)
  {
    hide EndMessages, ReduceAll;
    EndsOf([AgentEnd(s.newMessages)]);
    EmitAgrees(s.(status := Stopped), initial, [AgentEnd(s.newMessages)], []);
  }

  lemma ScheduleAgrees(s: LoopState, t: TurnInput, initial: seq<Message>)
    requires Agrees(s, initial) && s.status == Active
    ensures Agrees(Schedule(s, t), initial)
  {
    hide EndMessages, ReduceAll, EndRun;
    if !(s.hasMore || s.pending != []) {
      EndRunAgrees(PollFollowUp(s, t.idle), initial);
    }
  }

  lemma TurnAgrees(s: LoopState, t: TurnInput, initial: seq<Message>)
    requires Agrees(s, initial) && s.status == Active
    ensures Agrees(TurnStep(s, t), initial)
  {
    hide EndMessages, ReduceAll, Asked, RunTools, CloseTurn, EndRun, Schedule, StreamedEvents, ToolEvents, ToolMessages;
    AskedAgrees(s, t, initial);
    if HardExit(t.final.stop) {
      var record := TurnRecord(Asked(s, t), t, StreamedEvents(s, t), [], []);
      CloseTurnAgrees(Asked(s, t), record, initial);
      EndRunAgrees(CloseTurn(Asked(s, t), record), initial);
    } else {
      RunToolsAgrees(Asked(s, t), t, initial);
      if Tooled(s, t).status != Waiting {
        var record := TurnRecord(Tooled(s, t), t, StreamedEvents(s, t), ToolEvents(s, t), ToolMessages(s, t));
        CloseTurnAgrees(Tooled(s, t), record, initial);
        EndRunAgrees(Closed(s, t), initial);
        ScheduleAgrees(PollSteering(Closed(s, t), t.after), t, initial);
      }
    }
  }

  lemma {:induction false} RunAgrees(s: LoopState, inputs: seq<TurnInput>, initial: seq<Message>)
    requires Agrees(s, initial)
    ensures Agrees(Run(s, inputs), initial)
    decreases |inputs|
  {
    hide Agrees, TurnStep;
    if inputs != [] && s.status == Active {
      TurnAgrees(s, inputs[0], initial);
      RunAgrees(TurnStep(s, inputs[0]), inputs[1..], initial);
    }
  }

  lemma OpeningAgrees(start: Start, parts: seq<Part>, pending: seq<Message>)
    ensures Agrees(Emit(Blank(start, parts).(pending := pending), [AgentStart, TurnStart]), start.agent.messages)
  {
    hide EndMessages, ReduceAll, From, PartMessages;
    EndEmpty();
    NoEnds([AgentStart, TurnStart]);
    EmitAgrees(Blank(start, parts).(pending := pending), start.agent.messages, [AgentStart, TurnStart], []);
  }

  lemma BeginAgrees(s: LoopState, start: Start)
    requires Begins(s, start)
    ensures Agrees(s, start.agent.messages) && s.status == Active
  {
    hide EndMessages, ReduceAll, Inject, From, PartMessages, Blank;
    if a :| s == StartContinue(start, a) {
      assert Blank(start, []).(pending := Blank(start, []).pending) == Blank(start, []);
      BlankIsActive(start, []);
      OpeningAgrees(start, [], Blank(start, []).pending);
    } else {
      var prompts, origin, a :| s == StartPrompt(start, prompts, origin, a);
      var parts := [Part(origin, prompts)];
      BlankIsActive(start, parts);
      OpeningAgrees(start, parts, prompts);
      InjectAgrees(Emit(Blank(start, parts).(pending := prompts), [AgentStart, TurnStart]), start.agent.messages);
    }
  }

  lemma BlankIsActive(start: Start, parts: seq<Part>)
    ensures Blank(start, parts).status == Active && Blank(start, parts).first
  {
  }

  /** Over every run, the four copies of the new transcript agree. */
  lemma TranscriptAgreement(s: LoopState, start: Start, inputs: seq<TurnInput>)
    requires Begins(s, start)
    ensures var r := Run(s, inputs);
            && EndMessages(r.log.events) == r.newMessages
            && r.agent.messages == start.agent.messages + r.newMessages
            && (r.status == Stopped ==>
                  |r.log.events| > 0 && r.log.events[|r.log.events| - 1] == AgentEnd(r.newMessages))
  {
    BeginAgrees(s, start);
    RunAgrees(s, inputs, start.agent.messages);
  }
}
