/**
  The agent and its loop as objects: queues, the event reducer, the nested loops of a run, `prompt` and
  `continue`. Every method is proved against the turn machine of `AgentLoop`.
 */
module AgentRun {
  import opened Wrappers
  import opened Transcript
  import opened ToolBatch
  import opened AgentEvents
  import opened AgentLoop
  import opened AgentLoopQueues

  class PendingMessageQueue {
    var messages: seq<Message>
    var mode: Mode

    constructor (mode: Mode)
      ensures messages == [] && this.mode == mode
    {
      messages := [];
      this.mode := mode;
    }

    method Enqueue(message: Message)
      modifies this`messages
      ensures messages == old(messages) + [message]
    {
      messages := messages + [message];
    }

    method HasItems() returns (some: bool)
      ensures some <==> messages != []
    {
      some := |messages| > 0;
    }

    method PeekMessages() returns (next: seq<Message>)
      ensures next == Peek(messages, mode) && next <= messages
      ensures messages != [] ==> next != []
      ensures mode == OneAtATime ==> |next| <= 1
    {
      if mode == All {
        return messages;
      }
      next := if |messages| > 0 then [messages[0]] else [];
    }

    method Drain() returns (drained: seq<Message>)
      modifies this`messages
      ensures drained == Peek(old(messages), mode) && messages == Rest(old(messages), mode)
      ensures old(messages) == drained + messages
    {
      drained := PeekMessages();
      messages := messages[|drained|..];
    }

    method Clear()
      modifies this`messages
      ensures messages == []
    {
      messages := [];
    }
  }

  class Agent {
    var messages: seq<Message>
    var tools: seq<AgentTool>
    var streaming: Option<Message>
    var pendingCalls: set<string>
    var errorMessage: Option<string>
    var isStreaming: bool
    var active: bool
    const steeringQueue: PendingMessageQueue
    const followUpQueue: PendingMessageQueue

    constructor (messages: seq<Message>, tools: seq<AgentTool>, steeringMode: Mode, followUpMode: Mode)
      ensures this.messages == messages && this.tools == tools && !active
          && State() == AgentState(messages, None, {}, None)
      ensures fresh(steeringQueue) && fresh(followUpQueue) && Valid()
      ensures steeringQueue.messages == [] && followUpQueue.messages == []
    {
      this.messages, this.tools := messages, tools;
      streaming, pendingCalls, errorMessage, isStreaming, active := None, {}, None, false, false;
      var q := new PendingMessageQueue(steeringMode);
      steeringQueue := q;
      var p := new PendingMessageQueue(followUpMode);
      followUpQueue := p;
    }

    ghost predicate Valid() {
      steeringQueue != followUpQueue
    }

    ghost function State(): AgentState
      reads this
    {
      AgentState(messages, streaming, pendingCalls, errorMessage)
    }

    method Steer(message: Message)
      modifies steeringQueue`messages
      ensures steeringQueue.messages == old(steeringQueue.messages) + [message]
    {
      steeringQueue.Enqueue(message);
    }

    method FollowUp(message: Message)
      modifies followUpQueue`messages
      ensures followUpQueue.messages == old(followUpQueue.messages) + [message]
    {
      followUpQueue.Enqueue(message);
    }

    method ProcessEvent(event: Event)
      modifies this`messages, this`streaming, this`pendingCalls, this`errorMessage
      ensures State() == Reduce(old(State()), event)
    {
      match event
      case MessageStart(m) => streaming := Some(m);
      case MessageUpdate(m) => streaming := Some(m);
      case MessageEnd(m) =>
        streaming := None;
        messages := messages + [m];
      case ToolStart(call) => pendingCalls := pendingCalls + {call.id};
      case ToolEnd(final) => pendingCalls := pendingCalls - {final.call.id};
      case TurnEnd(m, _) =>
        if m.Assistant? && m.errorMessage.Some? && m.errorMessage.value != "" {
          errorMessage := m.errorMessage;
        }
      case AgentEnd(_) => streaming := None;
      case AgentStart =>
      case TurnStart =>
      case ToolUpdate(_, _) =>
    }

    method FinishRun()
      modifies this`isStreaming, this`streaming, this`pendingCalls, this`active
      ensures !isStreaming && !active && State() == old(State()).(streaming := None, pendingCalls := {})
    {
      isStreaming := false;
      streaming := None;
      pendingCalls := {};
      active := false;
    }

    /** The guard and the first half of `runWithLifecycle`. */
    method BeginRun()
      requires !active
      modifies this`active, this`isStreaming, this`streaming, this`errorMessage
      ensures active && isStreaming && State() == old(State()).(streaming := None, errorMessage := None)
    {
      active, isStreaming, streaming, errorMessage := true, true, None, None;
    }

    /**
      What the agent shows of a run. The call resolves when the run has stopped; with inputs that end earlier the
      agent is still active.
     */
    ghost predicate Shows(run: LoopState, result: RunResult)
      reads this, steeringQueue, followUpQueue
    {
      && steeringQueue.messages == run.steerQueue && followUpQueue.messages == run.followQueue
      && if run.status == Stopped
         then result == Ran && !active && State() == run.agent.(streaming := None, pendingCalls := {})
         else result == StillRunning && active && State() == run.agent
    }

    /** `prompt`: one run of the loop over the given messages; refused while a run is active. */
    method Prompt(prompts: seq<Message>, arrivals: Arrivals, inputs: seq<TurnInput>)
      returns (result: RunResult, ghost run: LoopState)
      requires Valid()
      modifies this, steeringQueue, followUpQueue
      ensures old(active) <==> result == AlreadyProcessing
      ensures old(active) ==> unchanged(this) && unchanged(steeringQueue) && unchanged(followUpQueue)
      ensures !old(active) ==>
                && Shows(run, result)
                && run == Run(StartPrompt(old(RunStart(false)), prompts, Origin.Prompt, arrivals), inputs)
    {
      run := Blank(Start(Context([], []), State(), [], [], false), []);
      if active {
        return AlreadyProcessing, run;
      }
      result, run := RunPromptMessages(prompts, Origin.Prompt, false, arrivals, inputs);
    }

    /** What a run starts from: a snapshot of the transcript and tools, and the queues. */
    ghost function RunStart(skipPoll: bool): Start
      reads this, steeringQueue, followUpQueue
    {
      Start(Context(messages, tools), State().(streaming := None, errorMessage := None),
            steeringQueue.messages, followUpQueue.messages, skipPoll)
    }

    method RunPromptMessages(
      prompts: seq<Message>, ghost origin: Origin, skipPoll: bool, arrivals: Arrivals, inputs: seq<TurnInput>)
      returns (result: RunResult, ghost run: LoopState)
      requires Valid() && !active
      modifies this, steeringQueue, followUpQueue
      ensures result == Ran || result == StillRunning
      ensures Shows(run, result) && run == Run(StartPrompt(old(RunStart(skipPoll)), prompts, origin, arrivals), inputs)
    {
      hide Run, StartPrompt, Shows;
      ghost var start := RunStart(skipPoll);
      BeginRun();
      var loop := new LoopRun(this, Context(messages, tools), skipPoll, [Part(origin, prompts)]);
      loop.StartWithPrompts(prompts, origin, start, arrivals);
      loop.RunLoop(inputs);
      run := loop.Model();
      result := SettleRun(loop);
    }

    method RunContinuation(arrivals: Arrivals, inputs: seq<TurnInput>) returns (result: RunResult, ghost run: LoopState)
      requires Valid() && !active
      modifies this, steeringQueue, followUpQueue
      ensures result == Ran || result == StillRunning
      ensures Shows(run, result) && run == Run(StartContinue(old(RunStart(false)), arrivals), inputs)
    {
      hide Run, StartContinue, Shows;
      ghost var start := RunStart(false);
      BeginRun();
      var loop := new LoopRun(this, Context(messages, tools), false, []);
      loop.StartBare(start, arrivals);
      loop.RunLoop(inputs);
      run := loop.Model();
      result := SettleRun(loop);
    }

    /** The second half of `runWithLifecycle`, reached only when the loop has returned. */
    method SettleRun(loop: LoopRun) returns (result: RunResult)
      requires loop.agent == this && active
      modifies this`isStreaming, this`streaming, this`pendingCalls, this`active
      ensures Shows(old(loop.Model()), result) && (result == Ran || result == StillRunning)
    {
      if loop.status != Stopped {
        return StillRunning;
      }
      FinishRun();
      result := Ran;
    }

    /**
      `continue`: after an assistant message the queues supply the prompts, steering first; otherwise
      the loop resumes from the transcript.
     */
    method Continue(arrivals: Arrivals, inputs: seq<TurnInput>) returns (result: RunResult, ghost run: LoopState)
      requires Valid()
      modifies this, steeringQueue, followUpQueue
      ensures result == AlreadyProcessing <==> old(active)
      ensures result == NothingToContinue <==> !old(active) && forall i :: 0 <= i < |old(messages)| ==>
          old(messages)[i].System?
      ensures result == CannotContinue <==>
                && !old(active) && old(messages) != [] && old(messages)[|old(messages)| - 1].Assistant?
                && old(steeringQueue.messages) == [] && old(followUpQueue.messages) == []
      ensures result != Ran && result != StillRunning ==>
                unchanged(this) && unchanged(steeringQueue) && unchanged(followUpQueue)
      ensures result == Ran || result == StillRunning ==>
                && Shows(run, result)
                && run == Run(ContinueState(old(RunStart(false)), old(steeringQueue.mode), old(followUpQueue.mode),
                    arrivals), inputs)
    {
      hide Run, StartPrompt, StartContinue, Shows;
      run := Blank(Start(Context([], []), State(), [], [], false), []);
      if active {
        return AlreadyProcessing, run;
      }
      if forall i :: 0 <= i < |messages| ==> messages[i].System? {
        return NothingToContinue, run;
      }
      if messages[|messages| - 1].Assistant? {
        if steeringQueue.messages == [] && followUpQueue.messages == [] {
          return CannotContinue, run;
        }
        result, run := ContinueFromQueues(arrivals, inputs);
        return;
      }
      result, run := RunContinuation(arrivals, inputs);
    }

    /** The prompts that the queues supply, steering first. */
    method ContinueFromQueues(arrivals: Arrivals, inputs: seq<TurnInput>)
      returns (result: RunResult, ghost run: LoopState)
      requires Valid() && !active && messages != [] && messages[|messages| - 1].Assistant?
      requires steeringQueue.messages != [] || followUpQueue.messages != []
      modifies this, steeringQueue, followUpQueue
      ensures result == Ran || result == StillRunning
      ensures Shows(run, result)
      ensures run == Run(ContinueState(old(RunStart(false)), old(steeringQueue.mode), old(followUpQueue.mode),
          arrivals), inputs)
    {
      hide Run, StartPrompt, StartContinue;
      var queuedSteering := steeringQueue.Drain();
      if |queuedSteering| > 0 {
        assert RunStart(true)
            == old(RunStart(false).(steerQueue := Rest(steeringQueue.messages, steeringQueue.mode), skipPoll := true));
        result, run := RunPromptMessages(queuedSteering, Steering, true, arrivals, inputs);
        return;
      }
      var queuedFollowUps := followUpQueue.Drain();
      assert RunStart(false) == old(RunStart(false).(followQueue := Rest(followUpQueue.messages, followUpQueue.mode)));
      result, run := RunPromptMessages(queuedFollowUps, Origin.FollowUp, false, arrivals, inputs);
    }
  }

  datatype RunResult = Ran | StillRunning | AlreadyProcessing | NothingToContinue | CannotContinue

  /** The state in which `continue` enters the loop. */
  function ContinueState(start: Start, steerMode: Mode, followMode: Mode, a: Arrivals): LoopState {
    var messages := start.context.messages;
    if messages != [] && messages[|messages| - 1].Assistant? then
      if start.steerQueue != [] then
        StartPrompt(start.(steerQueue := Rest(start.steerQueue, steerMode), skipPoll := true),
                    Peek(start.steerQueue, steerMode), Steering, a)
      else
        StartPrompt(start.(followQueue := Rest(start.followQueue, followMode)),
                    Peek(start.followQueue, followMode), Origin.FollowUp, a)
    else StartContinue(start, a)
  }

  /** What counts as enqueued when a run begins: queued messages among the prompts, then the queues. */
  lemma EnqueuedAtPrompt(start: Start, prompts: seq<Message>, origin: Origin, a: Arrivals)
    ensures var s := StartPrompt(start, prompts, origin, a);
            && s.log.steered == (if origin == Steering then prompts else []) + start.steerQueue + a.steer
            && s.log.followed == (if origin == Origin.FollowUp then prompts else []) + start.followQueue + a.follow
            && Begins(s, start)
  {
    hide ReduceAll, Declared, Pairs, From, Peek, Rest;
    PartsOne(Part(origin, prompts), Steering);
    PartsOne(Part(origin, prompts), Origin.FollowUp);
  }

  lemma EnqueuedAtStart(start: Start, a: Arrivals)
    ensures var s := StartContinue(start, a);
            s.log.steered == start.steerQueue + a.steer && s.log.followed == start.followQueue + a.follow
                && Begins(s, start)
  {
    hide ReduceAll, Declared, Pairs, From, Peek, Rest;
    PartsEmpty();
  }

  /** `continue` begins a run like any other, and what it drained counts as enqueued before what is left. */
  lemma ContinueBegins(start: Start, steerMode: Mode, followMode: Mode, a: Arrivals)
    ensures var s := ContinueState(start, steerMode, followMode, a);
            && (exists from :: Begins(s, from) && from.agent == start.agent && from.context == start.context)
            && s.log.steered == start.steerQueue + a.steer && s.log.followed == start.followQueue + a.follow
  {
    hide StartPrompt, StartContinue, Begins, Peek;
    var steering, followUps := Peek(start.steerQueue, steerMode), Peek(start.followQueue, followMode);
    PeekAndRest(start.steerQueue, steerMode);
    PeekAndRest(start.followQueue, followMode);
    EnqueuedAtStart(start, a);
    EnqueuedAtPrompt(start.(steerQueue := Rest(start.steerQueue, steerMode), skipPoll := true), steering, Steering, a);
    EnqueuedAtPrompt(start.(followQueue := Rest(start.followQueue, followMode)), followUps, Origin.FollowUp, a);
  }

  lemma PeekAndRest(queue: seq<Message>, mode: Mode)
    ensures Peek(queue, mode) + Rest(queue, mode) == queue
  {
  }

  /** One run of the loop: the local variables of `runLoop` and the configuration that polls the agent's queues. */
  class LoopRun {
    const agent: Agent
    var context: Context
    var newMessages: seq<Message>
    var pendingMessages: seq<Message>
    var lastCompletedTurn: bool
    var hasMoreToolCalls: bool
    var skipInitialSteeringPoll: bool
    var status: Status
    ghost var log: Log

    ghost predicate Valid() {
      agent.Valid()
    }

    /** The turn machine's view of this run. */
    ghost function Model(): LoopState
      reads this, agent, agent.steeringQueue, agent.followUpQueue
    {
      LoopState(context, newMessages, pendingMessages, !lastCompletedTurn, skipInitialSteeringPoll, hasMoreToolCalls,
                agent.steeringQueue.messages, agent.followUpQueue.messages, agent.State(), status, log)
    }

    constructor (agent: Agent, context: Context, skipPoll: bool, ghost parts: seq<Part>)
      requires agent.Valid()
      ensures this.agent == agent && Valid()
      ensures Model() == Blank(Start(context, agent.State(), agent.steeringQueue.messages,
          agent.followUpQueue.messages, skipPoll), parts)
    {
      this.agent, this.context := agent, context;
      newMessages, pendingMessages := [], [];
      lastCompletedTurn, hasMoreToolCalls, skipInitialSteeringPoll := false, true, skipPoll;
      status := Active;
      log := Log([], [], [], parts, [], From(parts, Steering) + agent.steeringQueue.messages,
                 From(parts, Origin.FollowUp) + agent.followUpQueue.messages);
    }

    method EmitEvent(event: Event)
      requires Valid()
      modifies this`log, agent`messages, agent`streaming, agent`pendingCalls, agent`errorMessage
      ensures Model() == Emit(old(Model()), [event])
    {
      agent.ProcessEvent(event);
      log := log.(events := log.events + [event]);
      ReduceOne(old(agent.State()), event);
    }

    /** What users do before a poll: queue messages and choose modes. */
    method ArriveBefore(a: Arrivals)
      requires Valid()
      modifies this`log, agent.steeringQueue, agent.followUpQueue
      ensures Model() == Arrive(old(Model()), a)
      ensures agent.steeringQueue.mode == a.steerMode && agent.followUpQueue.mode == a.followMode
    {
      for i := 0 to |a.steer|
        modifies agent.steeringQueue
        invariant agent.steeringQueue.messages == old(agent.steeringQueue.messages) + a.steer[..i]
      {
        agent.Steer(a.steer[i]);
      }
      for i := 0 to |a.follow|
        modifies agent.followUpQueue
        invariant agent.followUpQueue.messages == old(agent.followUpQueue.messages) + a.follow[..i]
      {
        agent.FollowUp(a.follow[i]);
      }
      assert a.steer[..|a.steer|] == a.steer && a.follow[..|a.follow|] == a.follow;
      agent.steeringQueue.mode := a.steerMode;
      agent.followUpQueue.mode := a.followMode;
      log := log.(steered := log.steered + a.steer, followed := log.followed + a.follow);
    }

    /** `pendingMessages = await getSteeringMessages()`. */
    method PollSteeringMessages(a: Arrivals)
      requires Valid()
      modifies this`log, this`pendingMessages, this`skipInitialSteeringPoll, agent.steeringQueue, agent.followUpQueue
      ensures Model() == PollSteering(old(Model()), a)
    {
      ArriveBefore(a);
      if skipInitialSteeringPoll {
        skipInitialSteeringPoll := false;
        pendingMessages := [];
      } else {
        pendingMessages := agent.steeringQueue.Drain();
        log := log.(parts := log.parts + [Part(Steering, pendingMessages)]);
      }
    }

    method PollFollowUpMessages(a: Arrivals)
      requires Valid()
      modifies this`log, this`pendingMessages, agent.steeringQueue, agent.followUpQueue
      ensures Model() == PollFollowUp(old(Model()), a)
    {
      ArriveBefore(a);
      pendingMessages := agent.followUpQueue.Drain();
      log := log.(parts := log.parts + [Part(Origin.FollowUp, pendingMessages)]);
    }

    method PrepareTurn(t: TurnInput)
      requires Valid()
      modifies this, agent`messages, agent`streaming, agent`pendingCalls, agent`errorMessage, agent.steeringQueue,
          agent.followUpQueue
      ensures Model() == OpenTurn(old(Model()), t)
      ensures status == old(status)
    {
      if lastCompletedTurn {
        var preparedMessages := [];
        if t.prepare.Some? {
          if t.prepare.value.context.Some? {
            context := t.prepare.value.context.value;
          }
          preparedMessages := t.prepare.value.messages;
        }
        log := log.(parts := [Part(Hook, preparedMessages)] + log.parts);
        if |pendingMessages| == 0 {
          PollSteeringMessages(t.before);
        }
        pendingMessages := preparedMessages + pendingMessages;
        EmitEvent(TurnStart);
      }
    }

    /** Declare tool changes, then emit and append every pending message. */
    method InjectPending()
      requires Valid()
      modifies this, agent`messages, agent`streaming, agent`pendingCalls, agent`errorMessage
      ensures Model() == Inject(old(Model()))
      ensures status == old(status) && hasMoreToolCalls == old(hasMoreToolCalls)
    {
      hide ReduceAll, Declared, Pairs, Injected, Emit;
      ghost var before := Model();
      var declared := DeclareToolChanges(context.messages, context.tools, pendingMessages);
      InjectedNone(before);
      for i := 0 to |declared|
        modifies this, agent`messages, agent`streaming, agent`pendingCalls, agent`errorMessage
        invariant status == old(status) && hasMoreToolCalls == old(hasMoreToolCalls)
        invariant Model() == Injected(before, declared[..i])
      {
        InjectedOne(before, declared[..i], declared[i]);
        EmitEvent(MessageStart(declared[i]));
        EmitEvent(MessageEnd(declared[i]));
        context := context.(messages := context.messages + [declared[i]]);
        newMessages := newMessages + [declared[i]];
        log := log.(injected := log.injected + [declared[i]]);
        assert declared[..i + 1] == declared[..i] + [declared[i]];
      }
      assert declared[..|declared|] == declared;
      pendingMessages := [];
      InjectedAll(before, declared);
    }

    method AskForResponse(t: TurnInput)
      requires Valid()
      modifies this, agent`messages, agent`streaming, agent`pendingCalls, agent`errorMessage
      ensures Model() == AskModel(old(Model()), t)
      ensures status == old(status)
    {
      if t.request.Some? {
        context := t.request.value;
      }
      log := log.(requests := log.requests + [Request(context, t.request.Some?)]);
      StreamAssistantResponse(t.stream, t.final);
      newMessages := newMessages + [t.final];
    }

    /** The event loop of `streamAssistantResponse`. */
    method StreamAssistantResponse(stream: seq<StreamEvent>, final: AssistantMessage)
      requires Valid()
      modifies this`context, this`log, agent`messages, agent`streaming, agent`pendingCalls, agent`errorMessage
      ensures var r := StreamResponse(old(context.messages), stream, final);
              Model() == Emit(old(Model()).(context := old(context).(messages := r.messages)), r.events)
    {
      hide ReduceAll, Streaming, Emit, Relevant, StreamAll;
      ghost var before := Model();
      var addedPartial := false;
      var i := 0;
      ghost var seen: seq<StreamEvent> := [];
      StreamingNone(before);
      assert stream[0..] == stream;
      while i < |stream| && !stream[i].StreamEnd?
        modifies this`context, this`log, agent`messages, agent`streaming, agent`pendingCalls, agent`errorMessage
        invariant 0 <= i <= |stream|
        invariant seen + Relevant(stream[i..]) == Relevant(stream)
        invariant addedPartial == StreamAll(before.context.messages, seen).added
        invariant Model() == Streaming(before, StreamAll(before.context.messages, seen))
      {
        ghost var s := StreamAll(before.context.messages, seen);
        StreamingContext(before, s);
        StreamAllOne(before.context.messages, seen, stream[i]);
        RelevantStep(stream, i);
        match stream[i] {
          case StreamStart(partial) =>
            context := context.(messages := context.messages + [partial]);
            addedPartial := true;
            StreamingOne(before, s, context.messages, true, MessageStart(partial));
            EmitEvent(MessageStart(partial));
          case StreamUpdate(partial) =>
            if addedPartial {
              context := context.(messages := context.messages[|context.messages| - 1 := partial]);
              StreamingOne(before, s, context.messages, true, MessageUpdate(partial));
              EmitEvent(MessageUpdate(partial));
            }
        }
        seen := seen + [stream[i]];
        i := i + 1;
      }
      RelevantStops(stream, i);
      assert seen == Relevant(stream);
      ghost var s := StreamAll(before.context.messages, seen);
      StreamingContext(before, s);
      if addedPartial {
        context := context.(messages := context.messages[|context.messages| - 1 := final]);
      } else {
        context := context.(messages := context.messages + [final]);
        StreamingOne(before, s, context.messages, false, MessageStart(final));
        EmitEvent(MessageStart(final));
        s := Streamed(context.messages, false, s.events + [MessageStart(final)]);
        StreamingContext(before, s);
      }
      StreamingOne(before, s, context.messages, true, MessageEnd(final));
      EmitEvent(MessageEnd(final));
      StreamingDone(before, StreamResponse(before.context.messages, stream, final));
    }

    /** Execute the calls of the answer; `complete` is false while some tool has not come back. */
    method RunToolCalls(t: TurnInput) returns (complete: bool, toolResults: seq<Message>)
      requires Valid() && status == Active
      modifies this, agent`messages, agent`streaming, agent`pendingCalls, agent`errorMessage
      ensures Model() == RunTools(old(Model()), t)
      ensures status == if complete then Active else Waiting
      ensures toolResults == if t.final.calls == [] || !complete then []
          else ResultMessages(TurnBatch(old(Model()), t).finals)
      ensures complete <==> t.final.calls == [] || TurnBatch(old(Model()), t).complete
    {
      hide ReduceAll, TraceEvents, RunBatch;
      hasMoreToolCalls := false;
      complete, toolResults := true, [];
      if |t.final.calls| > 0 {
        ghost var before := Model();
        var batch := ExecuteToolCalls(context.tools, t.final.calls, t.final.stop, t.batch);
        EmitTrace(batch.trace, t.final.calls);
        complete := batch.complete;
        if complete {
          hasMoreToolCalls := !ShouldTerminate(batch.finals);
          toolResults := ResultMessages(batch.finals);
          context := context.(messages := context.messages + toolResults);
          newMessages := newMessages + toolResults;
        } else {
          status := Waiting;
          assert context.messages + [] == context.messages && newMessages + [] == newMessages;
        }
      }
    }

    method EmitTrace(trace: seq<Step>, calls: seq<ToolCall>)
      requires Valid()
      modifies this`log, agent`messages, agent`streaming, agent`pendingCalls, agent`errorMessage
      ensures Model() == Emit(old(Model()), TraceEvents(trace, calls))
    {
      ghost var before := Model();
      assert Emit(before, []) == before by { assert before.log.events + [] == before.log.events; }
      for i := 0 to |trace|
        modifies this`log, agent`messages, agent`streaming, agent`pendingCalls, agent`errorMessage
        invariant Model() == Emit(before, TraceEvents(trace[..i], calls))
      {
        var events := StepEvents(trace[i], calls);
        assert trace[..i + 1][..i] == trace[..i];
        ghost var front := TraceEvents(trace[..i], calls);
        if |events| > 0 {
          EmitEvent(events[0]);
          EmitTwice(before, front, [events[0]]);
          if |events| > 1 {
            EmitEvent(events[1]);
            EmitTwice(before, front + [events[0]], [events[1]]);
            assert front + events == front + [events[0]] + [events[1]];
          } else {
            assert events == [events[0]];
          }
        } else {
          assert front + events == front;
        }
      }
      assert trace[..|trace|] == trace;
    }

    /** The bookkeeping of a finished turn, and `turn_end`. */
    method FinishTurn(ghost record: TurnLog, message: Message, results: seq<Message>)
      requires Valid() && record.message == message && record.results == results
      modifies this, agent`messages, agent`streaming, agent`pendingCalls, agent`errorMessage
      ensures Model() == CloseTurn(old(Model()), record)
      ensures status == old(status)
    {
      lastCompletedTurn := true;
      log := log.(turns := log.turns + [record], parts := [], injected := []);
      EmitEvent(TurnEnd(message, results));
    }

    method FinishAgent()
      requires Valid()
      modifies this, agent`messages, agent`streaming, agent`pendingCalls, agent`errorMessage
      ensures Model() == EndRun(old(Model()))
      ensures status == Stopped
    {
      status := Stopped;
      EmitEvent(AgentEnd(newMessages));
    }

    /** One iteration of the inner loop, up to and including the steering poll. */
    method RunTurn(t: TurnInput) returns (more: bool)
      requires Valid() && status == Active
      modifies this, agent`messages, agent`streaming, agent`pendingCalls, agent`errorMessage, agent.steeringQueue,
          agent.followUpQueue
      ensures more <==> status == Active
      ensures !more ==> Model() == TurnStep(old(Model()), t)
      ensures more ==> Schedule(Model(), t) == TurnStep(old(Model()), t)
    {
      hide ReduceAll, OpenTurn, Inject, AskModel, RunTools, RunBatch, CloseTurn, EndRun, PollSteering, Schedule,
          StreamedEvents, ToolEvents;
      ghost var before := Model();
      PrepareTurn(t);
      InjectPending();
      AskForResponse(t);
      assert Model() == Asked(before, t);
      if t.final.stop == Error || t.final.stop == Aborted {
        FinishTurn(TurnRecord(Model(), t, StreamedEvents(before, t), [], []), t.final, []);
        FinishAgent();
        return false;
      }
      var complete, toolResults := RunToolCalls(t);
      assert Model() == Tooled(before, t);
      if !complete {
        return false;
      }
      FinishTurn(TurnRecord(Model(), t, StreamedEvents(before, t), ToolEvents(before, t), ToolMessages(before, t)),
          t.final, toolResults);
      assert Model() == Closed(before, t);
      if t.decision == EndNow {
        FinishAgent();
        return false;
      }
      PollSteeringMessages(t.after);
      more := true;
    }

    /**
      The outer loop of `runLoop`. With the inner loop it computes exactly the turn machine, which has
      neither the nesting nor the continuation flag. The loop pauses where the given inputs end.
     */
    method RunLoop(inputs: seq<TurnInput>)
      requires Valid() && status == Active && hasMoreToolCalls
      modifies this, agent`messages, agent`streaming, agent`pendingCalls, agent`errorMessage, agent.steeringQueue,
          agent.followUpQueue
      ensures Model() == Run(old(Model()), inputs)
    {
      hide Run, PollFollowUp, EndRun;
      if |inputs| == 0 {
        RunNothing(Model(), inputs);
        return;
      }
      ghost var target := Run(Model(), inputs);
      var i := 0;
      var last := inputs[0];
      assert inputs[0..] == inputs;
      while true
        modifies this, agent`messages, agent`streaming, agent`pendingCalls, agent`errorMessage, agent.steeringQueue,
            agent.followUpQueue
        invariant 0 <= i <= |inputs| && status == Active
        invariant Run(Model().(hasMore := true), inputs[i..]) == target
        decreases |inputs| - i
      {
        hasMoreToolCalls := true;
        var paused, explicitContinuation;
        i, last, explicitContinuation, paused := RunInnerLoop(inputs, i, last, target);
        if paused {
          return;
        }
        ScheduleIdle(Model(), last);
        PollFollowUpMessages(last.idle);
        if |pendingMessages| > 0 {
          continue;
        }
        if explicitContinuation {
          continue;
        }
        break;
      }
      FinishAgent();
      RunStopped(Model(), inputs[i..]);
    }

    /**
      The inner loop: turns for as long as tool calls or pending messages ask for them. It is left with
      neither, together with the continuation flag, unless the run is over or paused.
     */
    method RunInnerLoop(inputs: seq<TurnInput>, from: nat, previous: TurnInput, ghost target: LoopState)
      returns (i: nat, last: TurnInput, explicitContinuation: bool, paused: bool)
      requires Valid() && status == Active && hasMoreToolCalls
      requires from <= |inputs| && Run(Model(), inputs[from..]) == target
      modifies this, agent`messages, agent`streaming, agent`pendingCalls, agent`errorMessage, agent.steeringQueue,
          agent.followUpQueue
      ensures paused ==> Model() == target
      ensures !paused ==>
                && from < i <= |inputs| && status == Active && !hasMoreToolCalls && pendingMessages == []
                && Run(Schedule(Model(), last), inputs[i..]) == target
                && (explicitContinuation <==> last.decision == Continue)
    {
      hide Run, Schedule, TurnStep;
      i, last, explicitContinuation, paused := from, previous, false, false;
      ScheduleDue(Model(), last);
      while hasMoreToolCalls || |pendingMessages| > 0
        modifies this, agent`messages, agent`streaming, agent`pendingCalls, agent`errorMessage, agent.steeringQueue,
            agent.followUpQueue
        invariant from <= i <= |inputs| && status == Active && !paused
        invariant i == from ==> hasMoreToolCalls
        invariant explicitContinuation <==> last.decision == Continue && !hasMoreToolCalls && pendingMessages == []
        invariant Run(Schedule(Model(), last), inputs[i..]) == target
        decreases |inputs| - i
      {
        ScheduleDue(Model(), last);
        if i == |inputs| {
          RunNothing(Model(), inputs[i..]);
          paused := true;
          return;
        }
        last := inputs[i];
        RunOne(Model(), inputs, i);
        var more := RunTurn(last);
        i := i + 1;
        if !more {
          RunStopped(Model(), inputs[i..]);
          paused := true;
          return;
        }
        explicitContinuation := last.decision == Continue;
        if hasMoreToolCalls || |pendingMessages| > 0 {
          explicitContinuation := false;
        }
      }
    }

    /** `runAgentLoop` up to the loop. */
    method StartWithPrompts(prompts: seq<Message>, ghost origin: Origin, ghost start: Start, a: Arrivals)
      requires Valid() && Model() == Blank(start, [Part(origin, prompts)])
      modifies this, agent`messages, agent`streaming, agent`pendingCalls, agent`errorMessage, agent.steeringQueue,
          agent.followUpQueue
      ensures Model() == StartPrompt(start, prompts, origin, a)
      ensures status == Active && hasMoreToolCalls
    {
      hide ReduceAll, Inject, PollSteering;
      pendingMessages := prompts;
      ghost var s := Model();
      EmitEvent(AgentStart);
      EmitEvent(TurnStart);
      EmitTwice(s, [AgentStart], [TurnStart]);
      assert [AgentStart] + [TurnStart] == [AgentStart, TurnStart];
      InjectPending();
      PollSteeringMessages(a);
    }

    /** `runAgentLoopContinue` up to the loop. */
    method StartBare(ghost start: Start, a: Arrivals)
      requires Valid() && Model() == Blank(start, [])
      modifies this, agent`messages, agent`streaming, agent`pendingCalls, agent`errorMessage, agent.steeringQueue,
          agent.followUpQueue
      ensures Model() == StartContinue(start, a)
      ensures status == Active && hasMoreToolCalls
    {
      ghost var s := Model();
      EmitEvent(AgentStart);
      EmitEvent(TurnStart);
      EmitTwice(s, [AgentStart], [TurnStart]);
      assert [AgentStart] + [TurnStart] == [AgentStart, TurnStart];
      PollSteeringMessages(a);
    }
  }

  // ---- Facts about the turn machine --------------------------------------------------

  lemma RunNothing(s: LoopState, inputs: seq<TurnInput>)
    requires inputs == []
    ensures Run(s, inputs) == s
  {
  }

  lemma RunStopped(s: LoopState, inputs: seq<TurnInput>)
    requires s.status != Active
    ensures Run(s, inputs) == s
  {
  }

  lemma RunOne(s: LoopState, inputs: seq<TurnInput>, i: nat)
    requires i < |inputs| && s.status == Active
    ensures Run(s, inputs[i..]) == Run(TurnStep(s, inputs[i]), inputs[i + 1..])
  {
    hide TurnStep;
    assert inputs[i..][0] == inputs[i] && inputs[i..][1..] == inputs[i + 1..];
  }

  lemma ScheduleDue(s: LoopState, t: TurnInput)
    requires s.hasMore || s.pending != []
    ensures Schedule(s, t) == s
  {
  }

  lemma ScheduleIdle(s: LoopState, t: TurnInput)
    requires !s.hasMore && s.pending == []
    ensures var s1 := PollFollowUp(s, t.idle);
            && s1.status == s.status
            && Schedule(s, t) == if s1.pending != [] || t.decision == Continue then s1.(hasMore := true) else EndRun(s1)
  {
    hide EndRun;
  }

  // ---- Composition of emissions ------------------------------------------------------

  lemma ReduceOne(a: AgentState, event: Event)
    ensures ReduceAll(a, [event]) == Reduce(a, event)
  {
    assert [event][..0] == [];
    assert ReduceAll(a, []) == a;
  }

  lemma EmitTwice(s: LoopState, a: seq<Event>, b: seq<Event>)
    ensures Emit(Emit(s, a), b) == Emit(s, a + b)
  {
    ReduceConcat(s.agent, a, b);
    assert s.log.events + a + b == s.log.events + (a + b);
  }

  /** The state after some of the declared messages have been injected. */
  ghost function Injected(s: LoopState, declared: seq<Message>): LoopState {
    Emit(s.(context := s.context.(messages := s.context.messages + declared),
            newMessages := s.newMessages + declared,
            log := s.log.(injected := s.log.injected + declared)),
         Pairs(declared))
  }

  lemma InjectedNone(s: LoopState)
    ensures Injected(s, []) == s
  {
    assert s.context.messages + [] == s.context.messages;
    assert s.newMessages + [] == s.newMessages;
    assert s.log.injected + [] == s.log.injected;
    assert Pairs([]) == [];
    assert s.log.events + [] == s.log.events;
  }

  lemma InjectedAll(s: LoopState, declared: seq<Message>)
    requires declared == Declared(s.context.messages, s.context.tools, s.pending)
    ensures Injected(s, declared).(pending := []) == Inject(s)
  {
    hide ReduceAll, Declared, Pairs;
  }

  lemma InjectedOne(s: LoopState, front: seq<Message>, m: Message)
    ensures var r := Emit(Emit(Injected(s, front), [MessageStart(m)]), [MessageEnd(m)]);
            r.(context := r.context.(messages := r.context.messages + [m]), newMessages := r.newMessages + [m],
               log := r.log.(injected := r.log.injected + [m]))
            == Injected(s, front + [m])
  {
    hide ReduceAll;
    assert (front + [m])[..|front|] == front;
    var p := Pairs(front);
    assert Pairs(front + [m]) == p + [MessageStart(m)] + [MessageEnd(m)];
    ReduceConcat(s.agent, p, [MessageStart(m)]);
    ReduceConcat(s.agent, p + [MessageStart(m)], [MessageEnd(m)]);
    assert s.log.events + p + [MessageStart(m)] + [MessageEnd(m)] == s.log.events + Pairs(front + [m]);
    assert s.context.messages + front + [m] == s.context.messages + (front + [m]);
    assert s.newMessages + front + [m] == s.newMessages + (front + [m]);
    assert s.log.injected + front + [m] == s.log.injected + (front + [m]);
  }

  /** The state while a response is being streamed. */
  ghost function Streaming(s: LoopState, r: Streamed): LoopState {
    Emit(s.(context := s.context.(messages := r.messages)), r.events)
  }

  lemma StreamingNone(s: LoopState)
    ensures Streaming(s, StreamAll(s.context.messages, [])) == s && !StreamAll(s.context.messages, []).added
  {
    assert s.log.events + [] == s.log.events;
  }

  lemma StreamingContext(s: LoopState, r: Streamed)
    ensures Streaming(s, r).context == s.context.(messages := r.messages)
  {
  }

  lemma StreamingDone(s: LoopState, r: Streamed)
    ensures Streaming(s, r) == Emit(s.(context := s.context.(messages := r.messages)), r.events)
  {
  }

  lemma StreamAllOne(messages: seq<Message>, seen: seq<StreamEvent>, event: StreamEvent)
    ensures StreamAll(messages, seen + [event]) == StreamStep(StreamAll(messages, seen), event)
  {
    assert (seen + [event])[..|seen|] == seen;
  }

  lemma RelevantStep(stream: seq<StreamEvent>, i: nat)
    requires i < |stream| && !stream[i].StreamEnd?
    ensures Relevant(stream[i..]) == [stream[i]] + Relevant(stream[i + 1..])
  {
    assert stream[i..][1..] == stream[i + 1..];
  }

  lemma RelevantStops(stream: seq<StreamEvent>, i: nat)
    requires i == |stream| || (i < |stream| && stream[i].StreamEnd?)
    ensures Relevant(stream[i..]) == []
  {
  }

  lemma StreamingOne(s: LoopState, r: Streamed, messages: seq<Message>, added: bool, event: Event)
    ensures Emit(Streaming(s, r).(context := s.context.(messages := messages)), [event])
         == Streaming(s, Streamed(messages, added, r.events + [event]))
  {
    ReduceConcat(s.agent, r.events, [event]);
    assert s.log.events + r.events + [event] == s.log.events + (r.events + [event]);
  }
}
