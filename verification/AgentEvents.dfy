/** The events an agent run emits, and the agent state that is rebuilt from them. */
module AgentEvents {
  import opened Wrappers
  import opened Transcript
  import opened ToolBatch

  datatype Event =
    | AgentStart
    | AgentEnd(messages: seq<Message>)
    | TurnStart
    | TurnEnd(message: Message, results: seq<Message>)
    | MessageStart(message: Message)
    | MessageUpdate(message: Message)
    | MessageEnd(message: Message)
    | ToolStart(call: ToolCall)
    | ToolUpdate(call: ToolCall, partial: string)
    | ToolEnd(final: Finalized)

  /** The messages carried by the `message_end` events, in order. */
  function EndMessages(events: seq<Event>): seq<Message> {
    if events == [] then []
    else
      var last := events[|events| - 1];
      EndMessages(events[..|events| - 1]) + (if last.MessageEnd? then [last.message] else [])
  }

  lemma EndEmpty()
    ensures EndMessages([]) == []
  {
  }

  lemma EndOne(events: seq<Event>, event: Event)
    ensures EndMessages(events + [event]) == EndMessages(events) + if event.MessageEnd? then [event.message] else []
  {
    assert (events + [event])[..|events|] == events;
  }

  lemma {:induction false} EndConcat(a: seq<Event>, b: seq<Event>)
    ensures EndMessages(a + b) == EndMessages(a) + EndMessages(b)
  {
    hide EndMessages;
    if b == [] {
      assert a + b == a;
      EndEmpty();
    } else {
      var n := |b| - 1;
      EndConcat(a, b[..n]);
      assert a + b == (a + b[..n]) + [b[n]];
      EndOne(a + b[..n], b[n]);
      assert b == b[..n] + [b[n]];
      EndOne(b[..n], b[n]);
    }
  }

  /** Start and end events of messages that are not streamed. */
  function Pairs(messages: seq<Message>): seq<Event> {
    if messages == [] then []
    else
      var last := messages[|messages| - 1];
      Pairs(messages[..|messages| - 1]) + [MessageStart(last), MessageEnd(last)]
  }

  lemma {:induction false} EndPairs(messages: seq<Message>)
    ensures EndMessages(Pairs(messages)) == messages
  {
    if messages != [] {
      var n := |messages| - 1;
      EndPairs(messages[..n]);
      var front := Pairs(messages[..n]);
      assert Pairs(messages) == (front + [MessageStart(messages[n])]) + [MessageEnd(messages[n])];
      EndOne(front, MessageStart(messages[n]));
      EndOne(front + [MessageStart(messages[n])], MessageEnd(messages[n]));
    }
  }

  lemma {:induction false} PairsConcat(a: seq<Message>, b: seq<Message>)
    ensures Pairs(a + b) == Pairs(a) + Pairs(b)
  {
    if b == [] {
      assert a + b == a;
    } else {
      var n := |b| - 1;
      PairsConcat(a, b[..n]);
      assert (a + b)[..|a + b| - 1] == a + b[..n];
    }
  }

  /** The events that one batch step emits. */
  function StepEvents(step: Step, calls: seq<ToolCall>): seq<Event> {
    if step.i >= |calls| then []
    else
      match step
      case Started(i) => [ToolStart(calls[i])]
      case Updated(i, partial) => [ToolUpdate(calls[i], partial)]
      case Ended(_, final) => [ToolEnd(final)]
      case Reported(_, final) => [MessageStart(ResultMessage(final)), MessageEnd(ResultMessage(final))]
      case PrepDone(_) => []
      case Executed(_) => []
      case Returned(_) => []
  }

  function TraceEvents(trace: seq<Step>, calls: seq<ToolCall>): seq<Event> {
    if trace == [] then []
    else TraceEvents(trace[..|trace| - 1], calls) + StepEvents(trace[|trace| - 1], calls)
  }

  /** Every step concerns one of the calls. */
  ghost predicate Within(trace: seq<Step>, calls: seq<ToolCall>) {
    forall j :: 0 <= j < |trace| ==> trace[j].i < |calls|
  }

  lemma {:induction false} WithinByLives(trace: seq<Step>, calls: seq<ToolCall>)
    requires forall i: nat :: i >= |calls| ==> LifeOf(trace, i) == Absent
    ensures Within(trace, calls)
  {
    if trace != [] {
      var n := |trace| - 1;
      forall i: nat | i >= |calls| ensures LifeOf(trace[..n], i) == Absent {
        assert LifeOf(trace, i) == Absent;
      }
      WithinByLives(trace[..n], calls);
      assert LifeOf(trace, trace[n].i) != Absent;
    }
  }

  lemma {:induction false} EndTrace(trace: seq<Step>, calls: seq<ToolCall>)
    requires Within(trace, calls)
    ensures EndMessages(TraceEvents(trace, calls)) == ResultMessages(ReportedFinals(trace))
  {
    hide EndMessages;
    if trace == [] {
      EndEmpty();
    } else {
      var n := |trace| - 1;
      EndTrace(trace[..n], calls);
      EndConcat(TraceEvents(trace[..n], calls), StepEvents(trace[n], calls));
      EndStep(trace[n], calls);
    }
  }

  lemma EndStep(step: Step, calls: seq<ToolCall>)
    requires step.i < |calls|
    ensures EndMessages(StepEvents(step, calls)) == if step.Reported? then [ResultMessage(step.final)] else []
  {
    var events := StepEvents(step, calls);
    if step.Reported? {
      EndOne([], events[0]);
      EndOne([] + [events[0]], events[1]);
      assert events == ([] + [events[0]]) + [events[1]];
    } else if events != [] {
      EndOne([], events[0]);
      assert events == [] + [events[0]];
    }
  }

  // ---- The agent state ---------------------------------------------------------------

  datatype AgentState = AgentState(
    messages: seq<Message>, streaming: Option<Message>, pendingCalls: set<string>, errorMessage: Option<string>)

  /** `processEvents` without its listeners. */
  function Reduce(a: AgentState, event: Event): AgentState {
    match event
    case MessageStart(m) => a.(streaming := Some(m))
    case MessageUpdate(m) => a.(streaming := Some(m))
    case MessageEnd(m) => a.(streaming := None, messages := a.messages + [m])
    case ToolStart(call) => a.(pendingCalls := a.pendingCalls + {call.id})
    case ToolEnd(final) => a.(pendingCalls := a.pendingCalls - {final.call.id})
    case TurnEnd(m, _) =>
      if m.Assistant? && m.errorMessage.Some? && m.errorMessage.value != "" then a.(errorMessage := m.errorMessage)
          else a
    case AgentEnd(_) => a.(streaming := None)
    case AgentStart => a
    case TurnStart => a
    case ToolUpdate(_, _) => a
  }

  function ReduceAll(a: AgentState, events: seq<Event>): AgentState {
    if events == [] then a else Reduce(ReduceAll(a, events[..|events| - 1]), events[|events| - 1])
  }

  lemma {:induction false} ReduceConcat(a: AgentState, x: seq<Event>, y: seq<Event>)
    ensures ReduceAll(a, x + y) == ReduceAll(ReduceAll(a, x), y)
  {
    if y == [] {
      assert x + y == x;
    } else {
      var n := |y| - 1;
      ReduceConcat(a, x, y[..n]);
      assert (x + y)[..|x + y| - 1] == x + y[..n];
    }
  }

  /** For every event sequence, the rebuilt transcript grows by exactly the ended messages. */
  lemma {:induction false} ReducerRebuildsTranscript(a: AgentState, events: seq<Event>)
    ensures ReduceAll(a, events).messages == a.messages + EndMessages(events)
  {
    if events != [] {
      ReducerRebuildsTranscript(a, events[..|events| - 1]);
    }
  }

  predicate Live(life: Life) {
    life == Begun || life == Ready || life == Running || life == Settled
  }

  ghost predicate DistinctIds(calls: seq<ToolCall>) {
    forall i, j :: 0 <= i < j < |calls| ==> calls[i].id != calls[j].id
  }

  /** The ids of the calls that have begun and not ended. */
  ghost function LiveIds(trace: seq<Step>, calls: seq<ToolCall>): set<string> {
    set i | 0 <= i < |calls| && Live(LifeOf(trace, i)) :: calls[i].id
  }

  /** A final always belongs to the call whose end carries it. */
  ghost predicate FinalsMatch(trace: seq<Step>, calls: seq<ToolCall>) {
    forall j :: 0 <= j < |trace| && trace[j].Ended? && trace[j].i < |calls| ==> trace[j].final.call == calls[trace[j].i]
  }

  /** The pending tool calls of the agent after a trace. */
  ghost function PendingIds(a: AgentState, trace: seq<Step>, calls: seq<ToolCall>): set<string> {
    ReduceAll(a, TraceEvents(trace, calls)).pendingCalls
  }

  /** A call ends while another call with the same id is executing. */
  ghost predicate Clashes(front: seq<Step>, step: Step, calls: seq<ToolCall>) {
    step.Ended? && step.i < |calls| && LiveElsewhere(front, step.i, calls)
  }

  /** A trace in order: every step concerns a call, ends carry finals of their own call, no step is out of order. */
  ghost predicate InOrder(trace: seq<Step>, calls: seq<ToolCall>) {
    Within(trace, calls) && FinalsMatch(trace, calls) && forall i: nat :: LifeOf(trace, i) != Broken
  }

  lemma InOrderFront(trace: seq<Step>, calls: seq<ToolCall>)
    requires InOrder(trace, calls) && trace != []
    ensures InOrder(trace[..|trace| - 1], calls)
  {
    hide LifeOf;
    var n := |trace| - 1;
    assert trace == trace[..n] + [trace[n]];
    forall i: nat ensures LifeOf(trace[..n], i) != Broken {
      LifeAppend(trace[..n], trace[n], i);
    }
  }

  /** One step changes the pending calls as it changes the executing ones, unless it clashes. */
  lemma PendingAfterStep(a: AgentState, trace: seq<Step>, calls: seq<ToolCall>)
    requires InOrder(trace, calls) && trace != []
    ensures var n := |trace| - 1;
            var id := calls[trace[n].i].id;
            && PendingIds(a, trace, calls)
               == (if trace[n].Started? then PendingIds(a, trace[..n], calls) + {id}
                   else if trace[n].Ended? then PendingIds(a, trace[..n], calls) - {id}
                   else PendingIds(a, trace[..n], calls))
            && LiveIds(trace, calls)
               == (if trace[n].Started? then LiveIds(trace[..n], calls) + {id}
                   else if trace[n].Ended? && !Clashes(trace[..n], trace[n], calls)
                       then LiveIds(trace[..n], calls) - {id}
                   else LiveIds(trace[..n], calls))
            && (Clashes(trace[..n], trace[n], calls) ==> id in LiveIds(trace, calls) && trace[n].Ended?)
  {
    hide ReduceAll, StepEvents, LifeOf, LiveIds, Clashes;
    var n := |trace| - 1;
    var front, step := trace[..n], trace[n];
    assert trace == front + [step];
    ReduceConcat(a, TraceEvents(front, calls), StepEvents(step, calls));
    PendingStep(ReduceAll(a, TraceEvents(front, calls)), step, calls);
    LivesStep(front, step, calls);
  }

  /** At every point of every trace in order, whatever the ids, only executing calls are pending. */
  lemma {:induction false} OnlyLiveArePending(a: AgentState, trace: seq<Step>, calls: seq<ToolCall>)
    requires InOrder(trace, calls) && a.pendingCalls == {}
    ensures PendingIds(a, trace, calls) <= LiveIds(trace, calls)
  {
    hide PendingIds, LiveIds, Clashes, InOrder;
    if trace == [] {
      NothingLive(a, calls);
    } else {
      InOrderFront(trace, calls);
      OnlyLiveArePending(a, trace[..|trace| - 1], calls);
      PendingAfterStep(a, trace, calls);
    }
  }

  ghost predicate AlwaysExact(a: AgentState, trace: seq<Step>, calls: seq<ToolCall>) {
    forall n :: 0 <= n <= |trace| ==> PendingIds(a, trace[..n], calls) == LiveIds(trace[..n], calls)
  }

  ghost predicate NeverClashes(trace: seq<Step>, calls: seq<ToolCall>) {
    forall n :: 0 <= n < |trace| ==> !Clashes(trace[..n], trace[n], calls)
  }

  /**
    The pending tool calls of the agent state are the executing calls at every point of a trace in order if and
    only if no call ends while another one with its id is executing.
   */
  lemma {:induction false} PendingCallsAreLiveIff(a: AgentState, trace: seq<Step>, calls: seq<ToolCall>)
    requires InOrder(trace, calls) && a.pendingCalls == {}
    ensures AlwaysExact(a, trace, calls) <==> NeverClashes(trace, calls)
  {
    hide PendingIds, LiveIds, Clashes, InOrder;
    if trace == [] {
      NothingLive(a, calls);
      assert trace[..0] == [];
    } else {
      var m := |trace| - 1;
      var front := trace[..m];
      InOrderFront(trace, calls);
      PendingCallsAreLiveIff(a, front, calls);
      PendingAfterStep(a, trace, calls);
      assert trace[..m + 1] == trace;
      assert forall n :: 0 <= n <= m ==> trace[..n] == front[..n];
      assert front[..m] == front;
      assert AlwaysExact(a, trace, calls)
        <==> AlwaysExact(a, front, calls) && PendingIds(a, trace, calls) == LiveIds(trace, calls);
      assert NeverClashes(trace, calls) <==> NeverClashes(front, calls) && !Clashes(front, trace[m], calls);
    }
  }

  /** With distinct ids nothing clashes. */
  lemma PendingCallsAreLive(a: AgentState, trace: seq<Step>, calls: seq<ToolCall>)
    requires DistinctIds(calls) && InOrder(trace, calls) && a.pendingCalls == {}
    ensures AlwaysExact(a, trace, calls)
  {
    hide LifeOf, AlwaysExact, InOrder;
    PendingCallsAreLiveIff(a, trace, calls);
  }

  lemma SharedIdTrace(a: AgentState, calls: seq<ToolCall>, final: Finalized)
    requires |calls| == 2 && calls[0].id == calls[1].id && final.call == calls[1] && a.pendingCalls == {}
    ensures var trace := [Started(0), PrepDone(0), Started(1), PrepDone(1), Ended(1, final)];
            && InOrder(trace, calls) && LifeOf(trace, 0) == Ready && PendingIds(a, trace, calls) == {}
            && calls[0].id in LiveIds(trace, calls)
  {
    hide ReduceAll, TraceEvents, LifeOf;
    var t0: seq<Step> := [];
    var t1 := [Started(0)];
    var t2 := [Started(0), PrepDone(0)];
    var t3 := [Started(0), PrepDone(0), Started(1)];
    var t4 := [Started(0), PrepDone(0), Started(1), PrepDone(1)];
    var t5 := [Started(0), PrepDone(0), Started(1), PrepDone(1), Ended(1, final)];
    assert t1 == t0 + [Started(0)] && t2 == t1 + [PrepDone(0)] && t3 == t2 + [Started(1)];
    assert t4 == t3 + [PrepDone(1)] && t5 == t4 + [Ended(1, final)];
    forall i: nat ensures LifeOf(t5, i) == if i == 0 then Ready else if i == 1 then Over(final) else Absent {
      LifeEmpty();
      LifeAppend(t0, Started(0), i);
      LifeAppend(t1, PrepDone(0), i);
      LifeAppend(t2, Started(1), i);
      LifeAppend(t3, PrepDone(1), i);
      LifeAppend(t4, Ended(1, final), i);
    }
    assert InOrder(t5, calls);
    OnlyLiveArePending(a, t5, calls);
    PendingAfterStep(a, t5, calls);
    assert t5[..4] == t4;
    assert LiveIds(t5, calls) <= {calls[0].id};
    assert Live(LifeOf(t5, 0));
  }

  /** The batch of two calls, of which only the first names a tool, before any tool has moved. */
  lemma TwoCallsTrace(tool: AgentTool, c0: ToolCall, c1: ToolCall)
    requires !tool.sequential && c0.name == tool.declaration.name != c1.name
    ensures var final := Finalized(c1, ErrorOutput(ToolNotFound(c1.name)), true);
            RunBatch([tool], [c0, c1], ToolUse, BatchScript(false, [], [])).trace
            == [Started(0), PrepDone(0), Started(1), PrepDone(1), Ended(1, final)]
  {
    var tools, calls, scripts := [tool], [c0, c1], Fit([], 2);
    assert tools[1..] == [];
    assert scripts[0] == DefaultScript() && scripts[1] == DefaultScript();
    assert PrepareToolCall(tools, c0, scripts[0].prepare) == Prepared;
    assert FindTool(tools, c0.name) == Some(tool) && FindTool(tools, c1.name) == None;
    assert PrepareAll(tools, calls, scripts, 0) == EMPTY_BATCH;
    var b1 := PrepareAll(tools, calls, scripts, 1);
    assert b1 == PrepareOne(EMPTY_BATCH, tools, c0, scripts[0]);
    assert b1.trace == [Started(0), PrepDone(0)] && b1.entries == [Queued] && !b1.stopped;
    var b2 := PrepareAll(tools, calls, scripts, 2);
    assert b2 == PrepareOne(b1, tools, c1, scripts[1]);
    assert b2.entries[0] == Queued;
    assert Moves(b2, calls, []) == b2;
  }

  /**
    With a shared id it can: while the first call of this batch waits for its execution, the second one is refused,
    and the agent shows no pending call.
   */
  lemma SharedIdClashes(a: AgentState, tool: AgentTool, c0: ToolCall, c1: ToolCall)
    requires !tool.sequential && c0.name == tool.declaration.name != c1.name && c0.id == c1.id && a.pendingCalls == {}
    ensures var trace := RunBatch([tool], [c0, c1], ToolUse, BatchScript(false, [], [])).trace;
            LifeOf(trace, 0) == Ready && PendingIds(a, trace, [c0, c1]) == {} && c0.id in LiveIds(trace, [c0, c1])
  {
    hide RunBatch, LifeOf, PendingIds, LiveIds;
    TwoCallsTrace(tool, c0, c1);
    SharedIdTrace(a, [c0, c1], Finalized(c1, ErrorOutput(ToolNotFound(c1.name)), true));
  }

  lemma NothingLive(a: AgentState, calls: seq<ToolCall>)
    ensures PendingIds(a, [], calls) == a.pendingCalls && LiveIds([], calls) == {}
  {
  }

  lemma PendingStep(a: AgentState, step: Step, calls: seq<ToolCall>)
    requires step.i < |calls|
    ensures ReduceAll(a, StepEvents(step, calls)).pendingCalls
         == if step.Started? then a.pendingCalls + {calls[step.i].id}
            else if step.Ended? then a.pendingCalls - {step.final.call.id}
            else a.pendingCalls
  {
    var events := StepEvents(step, calls);
    if step.Reported? {
      assert events[..1][..0] == [];
      assert ReduceAll(a, events[..1]) == Reduce(ReduceAll(a, []), events[0]);
    } else if events != [] {
      assert events[..0] == [];
      assert ReduceAll(a, events) == Reduce(ReduceAll(a, []), events[0]);
    }
  }

  lemma LivesStep(front: seq<Step>, step: Step, calls: seq<ToolCall>)
    requires step.i < |calls| && LifeOf(front + [step], step.i) != Broken
    ensures var id := calls[step.i].id;
            && LiveIds(front + [step], calls)
               == (if step.Started? then LiveIds(front, calls) + {id}
                   else if step.Ended? && !Clashes(front, step, calls) then LiveIds(front, calls) - {id}
                   else LiveIds(front, calls))
            && (Clashes(front, step, calls) ==> id in LiveIds(front + [step], calls) && step.Ended?)
  {
    hide LifeOf;
    var trace := front + [step];
    forall i: nat ensures LifeOf(trace, i) == if step.i == i then LifeStep(LifeOf(front, i), step)
        else LifeOf(front, i) {
      LifeAppend(front, step, i);
    }
    var id := calls[step.i].id;
    assert Clashes(front, step, calls) ==> id in LiveIds(front, calls);
    forall x: string
      ensures x != id ==> (x in LiveIds(trace, calls) <==> x in LiveIds(front, calls))
      ensures x == id ==> (x in LiveIds(trace, calls) <==>
                             Live(LifeOf(trace, step.i)) || (LiveElsewhere(front, step.i, calls)))
      ensures x == id ==> (x in LiveIds(front, calls) <==>
                             Live(LifeOf(front, step.i)) || (LiveElsewhere(front, step.i, calls)))
    {
      if x in LiveIds(front, calls) {
        var i: int :| 0 <= i < |calls| && Live(LifeOf(front, i)) && calls[i].id == x;
        assert i != step.i ==> Live(LifeOf(trace, i));
      }
      if x in LiveIds(trace, calls) {
        var i: int :| 0 <= i < |calls| && Live(LifeOf(trace, i)) && calls[i].id == x;
        assert i != step.i ==> Live(LifeOf(front, i));
      }
      if x == id && LiveElsewhere(front, step.i, calls) {
        var j :| 0 <= j < |calls| && j != step.i && calls[j].id == x && Live(LifeOf(front, j));
        assert Live(LifeOf(trace, j));
      }
    }
  }

  /** Another call with the id of call `i` is executing. */
  ghost predicate LiveElsewhere(front: seq<Step>, i: nat, calls: seq<ToolCall>)
    requires i < |calls|
  {
    exists j :: 0 <= j < |calls| && j != i && calls[j].id == calls[i].id && Live(LifeOf(front, j))
  }

  lemma {:induction false} EndsMatch(trace: seq<Step>, calls: seq<ToolCall>)
    requires forall i: nat :: Sound(LifeOf(trace, i), calls, i)
    ensures FinalsMatch(trace, calls)
    ensures forall n :: 0 <= n <= |trace| ==> forall i: nat :: Sound(LifeOf(trace[..n], i), calls, i)
  {
    if trace == [] {
      assert trace[..0] == [];
    } else {
      var m := |trace| - 1;
      var front, step := trace[..m], trace[m];
      assert trace == front + [step];
      forall i: nat ensures Sound(LifeOf(front, i), calls, i) {
        LifeAppend(front, step, i);
        assert Sound(LifeOf(trace, i), calls, i);
      }
      EndsMatch(front, calls);
      LifeAppend(front, step, step.i);
      assert Sound(LifeOf(trace, step.i), calls, step.i);
      forall n | 0 <= n <= |trace| ensures forall i: nat :: Sound(LifeOf(trace[..n], i), calls, i) {
        if n < |trace| { assert trace[..n] == front[..n]; } else { assert trace[..n] == trace; }
      }
    }
  }

  /**
    At every point of every batch only executing calls are pending, exactly these unless a call ends while
    another one with its id executes; and a complete batch leaves no call pending.
   */
  lemma BatchPendingCalls(a: AgentState, tools: seq<AgentTool>, calls: seq<ToolCall>, stop: StopReason,
      script: BatchScript)
    requires a.pendingCalls == {}
    ensures var r := RunBatch(tools, calls, stop, script);
            && (forall n :: 0 <= n <= |r.trace| ==> PendingIds(a, r.trace[..n], calls) <= LiveIds(r.trace[..n], calls))
            && (AlwaysExact(a, r.trace, calls) <==> NeverClashes(r.trace, calls))
            && (r.complete ==> PendingIds(a, r.trace, calls) == {})
  {
    hide LifeOf, PendingIds, RunBatch, AlwaysExact, NeverClashes;
    var r := RunBatch(tools, calls, stop, script);
    RunBatchIsOrderly(tools, calls, stop, script);
    EndsMatch(r.trace, calls);
    forall n | 0 <= n <= |r.trace| ensures InOrder(r.trace[..n], calls) {
      assert forall i: nat :: Sound(LifeOf(r.trace[..n], i), calls, i);
      WithinByLives(r.trace[..n], calls);
      EndsMatch(r.trace[..n], calls);
    }
    forall n | 0 <= n <= |r.trace| ensures PendingIds(a, r.trace[..n], calls) <= LiveIds(r.trace[..n], calls) {
      OnlyLiveArePending(a, r.trace[..n], calls);
    }
    assert r.trace[..|r.trace|] == r.trace;
    PendingCallsAreLiveIff(a, r.trace, calls);
    if r.complete {
      assert forall i :: 0 <= i < |calls| ==> !Live(LifeOf(r.trace, i));
      assert LiveIds(r.trace, calls) == {};
    }
  }
}
