/**
  The agent loop as a machine that takes one turn at a time.

  A turn input fixes what the environment (model stream, tools, hooks, users) does during one turn.
  Runs are the finite prefixes of the loop's executions: a list of turn inputs fixes one of them.
  The nested loops of the source refine this machine; see `AgentRun`.
 */
module AgentLoop {
  import opened Wrappers
  import opened Transcript
  import opened ToolBatch
  import opened AgentEvents

  // ---- Message queues ----------------------------------------------------------------

  datatype Mode = All | OneAtATime

  function Peek(queue: seq<Message>, mode: Mode): seq<Message> {
    if mode == All || queue == [] then queue else [queue[0]]
  }

  function Rest(queue: seq<Message>, mode: Mode): seq<Message> {
    queue[|Peek(queue, mode)|..]
  }

  /** Users' `steer` and `followUp` calls up to some poll, and the queue modes in force at that poll. */
  datatype Arrivals = Arrivals(steer: seq<Message>, follow: seq<Message>, steerMode: Mode, followMode: Mode)

  datatype Origin = Prompt | Hook | Steering | FollowUp

  datatype Part = Part(origin: Origin, messages: seq<Message>)

  function PartMessages(parts: seq<Part>): seq<Message> {
    if parts == [] then [] else PartMessages(parts[..|parts| - 1]) + parts[|parts| - 1].messages
  }

  function From(parts: seq<Part>, origin: Origin): seq<Message> {
    if parts == [] then []
    else
      var last := parts[|parts| - 1];
      From(parts[..|parts| - 1], origin) + (if last.origin == origin then last.messages else [])
  }

  // ---- The environment ---------------------------------------------------------------

  type AssistantMessage = m: Message | m.Assistant? witness Assistant("", [], Stop, None)

  /** Protocol events of the model stream; `done` and `error` both end it. */
  datatype StreamEvent = StreamStart(partial: Message) | StreamUpdate(partial: Message) | StreamEnd

  datatype Context = Context(messages: seq<Message>, tools: seq<AgentTool>)

  datatype TurnUpdate = TurnUpdate(context: Option<Context>, messages: seq<Message>)

  datatype Decision = Undecided | Continue | EndNow

  datatype TurnInput = TurnInput(
    prepare: Option<TurnUpdate>,   // prepareNextTurn
    before: Arrivals,              // up to the poll after prepareNextTurn
    request: Option<Context>,      // the context replaced by prepareRequest, if any
    stream: seq<StreamEvent>,
    final: AssistantMessage,
    batch: BatchScript,
    decision: Decision,            // finishTurn
    after: Arrivals,               // up to the steering poll that ends the turn
    idle: Arrivals)                // up to the follow-up poll, if there is one

  // ---- Streaming an assistant message ------------------------------------------------

  datatype Streamed = Streamed(messages: seq<Message>, added: bool, events: seq<Event>)

  function Relevant(stream: seq<StreamEvent>): seq<StreamEvent> {
    if stream == [] || stream[0].StreamEnd? then [] else [stream[0]] + Relevant(stream[1..])
  }

  function Starts(stream: seq<StreamEvent>): nat {
    if stream == [] then 0
    else Starts(stream[..|stream| - 1]) + (if stream[|stream| - 1].StreamStart? then 1 else 0)
  }

  function StreamStep(s: Streamed, event: StreamEvent): (r: Streamed)
    requires s.added ==> |s.messages| > 0
    ensures r.added ==> |r.messages| > 0
  {
    match event
    case StreamStart(p) => Streamed(s.messages + [p], true, s.events + [MessageStart(p)])
    case StreamUpdate(p) =>
      if s.added then Streamed(s.messages[|s.messages| - 1 := p], true, s.events + [MessageUpdate(p)]) else s
    case StreamEnd => s
  }

  function StreamAll(messages: seq<Message>, stream: seq<StreamEvent>): (r: Streamed)
    ensures r.added ==> |r.messages| > 0
  {
    if stream == [] then Streamed(messages, false, [])
    else StreamStep(StreamAll(messages, stream[..|stream| - 1]), stream[|stream| - 1])
  }

  function StreamClose(s: Streamed, final: Message): Streamed
    requires s.added ==> |s.messages| > 0
  {
    if s.added then Streamed(s.messages[|s.messages| - 1 := final], true, s.events + [MessageEnd(final)])
    else Streamed(s.messages + [final], true, s.events + [MessageStart(final)] + [MessageEnd(final)])
  }

  function StreamResponse(messages: seq<Message>, stream: seq<StreamEvent>, final: Message): Streamed {
    StreamClose(StreamAll(messages, Relevant(stream)), final)
  }

  /** Of the events of a streamed message, only the last ends a message, and none is of another kind. */
  ghost predicate StreamShape(events: seq<Event>, final: Message) {
    && |events| >= 2 && events[0].MessageStart? && events[|events| - 1] == MessageEnd(final)
    && forall i :: 0 <= i < |events| - 1 ==> events[i].MessageStart? || events[i].MessageUpdate?
  }

  lemma {:induction false} StreamAllMeaning(messages: seq<Message>, stream: seq<StreamEvent>)
    ensures var s := StreamAll(messages, stream);
            && (s.added <==> Starts(stream) > 0)
            && |s.messages| == |messages| + Starts(stream)
            && messages <= s.messages
            && (s.added <==> |s.events| > 0)
            && (|s.events| > 0 ==> s.events[0].MessageStart?)
            && forall i :: 0 <= i < |s.events| ==> s.events[i].MessageStart? || s.events[i].MessageUpdate?
  {
    if stream != [] {
      StreamAllMeaning(messages, stream[..|stream| - 1]);
    }
  }

  /**
    The streamed message ends exactly once, and the context grows by exactly that message if and
    only if the stream starts at most once, as its protocol demands.
   */
  lemma StreamResponseMeaning(messages: seq<Message>, stream: seq<StreamEvent>, final: Message)
    ensures StreamShape(StreamResponse(messages, stream, final).events, final)
    ensures EndMessages(StreamResponse(messages, stream, final).events) == [final]
    ensures StreamResponse(messages, stream, final).messages == messages + [final] <==> Starts(Relevant(stream)) <= 1
  {
    hide EndMessages, StreamAll, Starts;
    StreamAllMeaning(messages, Relevant(stream));
    var s := StreamAll(messages, Relevant(stream));
    var r := StreamResponse(messages, stream, final);
    if s.added {
      NoEnds(s.events);
      EndOne(s.events, MessageEnd(final));
      if Starts(Relevant(stream)) == 1 {
        assert s.messages[..|messages|] == messages;
        assert r.messages == messages + [final];
      } else {
        assert |r.messages| != |messages + [final]|;
      }
    } else {
      NoEnds(s.events);
      EndOne(s.events, MessageStart(final));
      EndOne(s.events + [MessageStart(final)], MessageEnd(final));
      assert s.messages == messages;
    }
  }

  lemma {:induction false} NoEnds(events: seq<Event>)
    requires forall i :: 0 <= i < |events| ==> !events[i].MessageEnd?
    ensures EndMessages(events) == []
  {
    if events != [] {
      NoEnds(events[..|events| - 1]);
    }
  }

  // ---- The loop state ----------------------------------------------------------------

  datatype Status = Active | Waiting | Stopped

  /** A model request: its context, and whether `prepareRequest` had replaced that context. */
  datatype Request = Request(context: Context, replaced: bool)

  /** The record of one finished turn. */
  datatype TurnLog = TurnLog(
    parts: seq<Part>, injected: seq<Message>, streamed: seq<Event>, message: Message,
    tooling: seq<Event>, results: seq<Message>)

  datatype LoopState = LoopState(
    context: Context,
    newMessages: seq<Message>,
    pending: seq<Message>,
    first: bool,                // no turn has completed
    skipPoll: bool,             // skipInitialSteeringPoll
    hasMore: bool,              // hasMoreToolCalls
    steerQueue: seq<Message>,
    followQueue: seq<Message>,
    agent: AgentState,
    status: Status,
    log: Log)

  /** What the properties talk about; the loop never reads it. */
  datatype Log = Log(
    events: seq<Event>,
    requests: seq<Request>,
    turns: seq<TurnLog>,
    parts: seq<Part>,           // taken for the coming turn
    injected: seq<Message>,     // already injected into the turn in progress
    steered: seq<Message>,      // everything ever enqueued for steering
    followed: seq<Message>)     // everything ever enqueued as follow-up

  function Emit(s: LoopState, events: seq<Event>): LoopState {
    s.(agent := ReduceAll(s.agent, events), log := s.log.(events := s.log.events + events))
  }

  function Arrive(s: LoopState, a: Arrivals): LoopState {
    s.(steerQueue := s.steerQueue + a.steer, followQueue := s.followQueue + a.follow,
       log := s.log.(steered := s.log.steered + a.steer, followed := s.log.followed + a.follow))
  }

  /** `getSteeringMessages` of the agent, after the given arrivals. */
  function PollSteering(s: LoopState, a: Arrivals): LoopState {
    var s1 := Arrive(s, a);
    if s1.skipPoll then s1.(skipPoll := false, pending := [])
    else
      var taken := Peek(s1.steerQueue, a.steerMode);
      s1.(pending := taken, steerQueue := Rest(s1.steerQueue, a.steerMode),
          log := s1.log.(parts := s1.log.parts + [Part(Steering, taken)]))
  }

  /** `getFollowUpMessages` of the agent, after the given arrivals. */
  function PollFollowUp(s: LoopState, a: Arrivals): LoopState {
    var s1 := Arrive(s, a);
    var taken := Peek(s1.followQueue, a.followMode);
    s1.(pending := taken, followQueue := Rest(s1.followQueue, a.followMode),
        log := s1.log.(parts := s1.log.parts + [Part(FollowUp, taken)]))
  }

  // ---- One turn ----------------------------------------------------------------------

  /** Prepare the next turn: hook, second steering poll, `turn_start`. The first turn is open already. */
  function OpenTurn(s: LoopState, t: TurnInput): LoopState {
    if s.first then s
    else
      var update := if t.prepare.Some? then t.prepare.value else TurnUpdate(None, []);
      var s1 := s.(context := if update.context.Some? then update.context.value else s.context,
                   log := s.log.(parts := [Part(Hook, update.messages)] + s.log.parts));
      var s2 := if s1.pending == [] then PollSteering(s1, t.before) else s1;
      Emit(s2.(pending := update.messages + s2.pending), [TurnStart])
  }

  function Inject(s: LoopState): LoopState {
    var declared := Declared(s.context.messages, s.context.tools, s.pending);
    Emit(s.(context := s.context.(messages := s.context.messages + declared),
            newMessages := s.newMessages + declared,
            pending := [],
            log := s.log.(injected := s.log.injected + declared)),
         Pairs(declared))
  }

  function AskModel(s: LoopState, t: TurnInput): LoopState {
    var context := if t.request.Some? then t.request.value else s.context;
    var r := StreamResponse(context.messages, t.stream, t.final);
    Emit(s.(context := context.(messages := r.messages),
            newMessages := s.newMessages + [t.final],
            log := s.log.(requests := s.log.requests + [Request(context, t.request.Some?)])),
         r.events)
  }

  predicate HardExit(stop: StopReason) {
    stop == Error || stop == Aborted
  }

  function TurnBatch(s: LoopState, t: TurnInput): BatchResult {
    RunBatch(s.context.tools, t.final.calls, t.final.stop, t.batch)
  }

  function RunTools(s: LoopState, t: TurnInput): LoopState {
    if t.final.calls == [] then s.(hasMore := false)
    else
      var r := TurnBatch(s, t);
      var results := if r.complete then ResultMessages(r.finals) else [];
      Emit(s.(hasMore := r.complete && !ShouldTerminate(r.finals),
              context := s.context.(messages := s.context.messages + results),
              newMessages := s.newMessages + results,
              status := if r.complete then s.status else Waiting),
           TraceEvents(r.trace, t.final.calls))
  }

  function TurnRecord(s: LoopState, t: TurnInput, streamed: seq<Event>, tooling: seq<Event>,
      results: seq<Message>): TurnLog {
    TurnLog(s.log.parts, s.log.injected, streamed, t.final, tooling, results)
  }

  /** The end of a turn: its record and `turn_end`. */
  function CloseTurn(s: LoopState, record: TurnLog): LoopState {
    Emit(s.(first := false, log := s.log.(turns := s.log.turns + [record], parts := [], injected := [])),
         [TurnEnd(record.message, record.results)])
  }

  function EndRun(s: LoopState): LoopState {
    Emit(s.(status := Stopped), [AgentEnd(s.newMessages)])
  }

  /** After a turn and its steering poll: the next natural turn, a follow-up, a continuation, or the end. */
  function Schedule(s: LoopState, t: TurnInput): LoopState {
    if s.hasMore || s.pending != [] then s
    else
      var s1 := PollFollowUp(s, t.idle);
      if s1.pending != [] || t.decision == Continue then s1.(hasMore := true) else EndRun(s1)
  }

  /** The turn up to the model's answer. */
  function Asked(s: LoopState, t: TurnInput): LoopState {
    AskModel(Inject(OpenTurn(s, t)), t)
  }

  /** The turn up to its tool results. */
  function Tooled(s: LoopState, t: TurnInput): LoopState {
    RunTools(Asked(s, t), t)
  }

  function StreamedEvents(s: LoopState, t: TurnInput): seq<Event> {
    var context := if t.request.Some? then t.request.value else Inject(OpenTurn(s, t)).context;
    StreamResponse(context.messages, t.stream, t.final).events
  }

  function ToolEvents(s: LoopState, t: TurnInput): seq<Event> {
    if t.final.calls == [] then [] else TraceEvents(TurnBatch(Asked(s, t), t).trace, t.final.calls)
  }

  function ToolMessages(s: LoopState, t: TurnInput): seq<Message> {
    if t.final.calls == [] || !TurnBatch(Asked(s, t), t).complete then []
        else ResultMessages(TurnBatch(Asked(s, t), t).finals)
  }

  function Failed(s: LoopState, t: TurnInput): LoopState {
    EndRun(CloseTurn(Asked(s, t), TurnRecord(Asked(s, t), t, StreamedEvents(s, t), [], [])))
  }

  function Closed(s: LoopState, t: TurnInput): LoopState {
    CloseTurn(Tooled(s, t), TurnRecord(Tooled(s, t), t, StreamedEvents(s, t), ToolEvents(s, t), ToolMessages(s, t)))
  }

  /** One turn, including the decision whether another one follows. */
  function TurnStep(s: LoopState, t: TurnInput): LoopState {
    if HardExit(t.final.stop) then Failed(s, t)
    else if Tooled(s, t).status == Waiting then Tooled(s, t)
    else if t.decision == EndNow then EndRun(Closed(s, t))
    else Schedule(PollSteering(Closed(s, t), t.after), t)
  }

  function Run(s: LoopState, inputs: seq<TurnInput>): LoopState
    decreases |inputs|
  {
    if inputs == [] || s.status != Active then s else Run(TurnStep(s, inputs[0]), inputs[1..])
  }

  // ---- Starting a run ----------------------------------------------------------------

  /** The queues and the agent state in which a run starts. */
  datatype Start = Start(context: Context, agent: AgentState, steerQueue: seq<Message>, followQueue: seq<Message>,
      skipPoll: bool)

  function Blank(start: Start, parts: seq<Part>): LoopState {
    var steered, followed := From(parts, Steering) + start.steerQueue, From(parts, FollowUp) + start.followQueue;
    LoopState(start.context, [], [], true, start.skipPoll, true, start.steerQueue, start.followQueue, start.agent,
              Active, Log([], [], [], parts, [], steered, followed))
  }

  /** `runAgentLoop`: declare and inject the prompts, then poll steering. */
  function StartPrompt(start: Start, prompts: seq<Message>, origin: Origin, a: Arrivals): LoopState {
    var s := Blank(start, [Part(origin, prompts)]);
    PollSteering(Inject(Emit(s.(pending := prompts), [AgentStart, TurnStart])), a)
  }

  /** `runAgentLoopContinue`: no prompts. */
  function StartContinue(start: Start, a: Arrivals): LoopState {
    PollSteering(Emit(Blank(start, []), [AgentStart, TurnStart]), a)
  }

  ghost predicate Begins(s: LoopState, start: Start) {
    || (exists prompts, origin, a :: s == StartPrompt(start, prompts, origin, a))
    || (exists a :: s == StartContinue(start, a))
  }
}
