/** Model requests, queue conservation and scheduling over every run of the agent loop. */
module AgentLoopQueues {
  import opened Wrappers
  import opened Transcript
  import opened ToolBatch
  import opened AgentEvents
  import opened AgentLoop

  // ---- Context growth ----------------------------------------------------------------

  /** No hook replaces the context in this turn, and the stream keeps its protocol. */
  predicate KeepsContext(t: TurnInput) {
    && (t.prepare.None? || t.prepare.value.context.None?)
    && t.request.None?
    && Starts(Relevant(t.stream)) <= 1
  }

  ghost predicate Grows(s: LoopState, initial: seq<Message>) {
    s.context.messages == initial + s.newMessages
  }

  lemma AskedGrows(s: LoopState, t: TurnInput, initial: seq<Message>)
    requires Grows(s, initial) && KeepsContext(t)
    ensures Grows(Asked(s, t), initial)
  {
    hide ReduceAll, Declared, Pairs, StreamResponse, From, PartMessages, Starts, Relevant;
    var s1 := OpenTurn(s, t);
    assert s1.context == s.context && s1.newMessages == s.newMessages;
    var s2 := Inject(s1);
    assert Grows(s2, initial);
    StreamResponseMeaning(s2.context.messages, t.stream, t.final);
  }

  lemma TurnGrows(s: LoopState, t: TurnInput, initial: seq<Message>)
    requires Grows(s, initial) && KeepsContext(t)
    ensures Grows(TurnStep(s, t), initial)
  {
    hide ReduceAll, Asked, TraceEvents, RunBatch, StreamedEvents, ToolEvents, ToolMessages, From, PartMessages;
    AskedGrows(s, t, initial);
    assert Grows(Tooled(s, t), initial);
    assert Grows(Closed(s, t), initial);
  }

  /** If no hook replaces the context, the loop context grows by exactly the returned messages. */
  lemma {:induction false} ContextGrowth(s: LoopState, inputs: seq<TurnInput>, initial: seq<Message>)
    requires Grows(s, initial)
    requires forall i :: 0 <= i < |inputs| ==> KeepsContext(inputs[i])
    ensures Grows(Run(s, inputs), initial)
    decreases |inputs|
  {
    hide TurnStep, Grows;
    if inputs != [] && s.status == Active {
      TurnGrows(s, inputs[0], initial);
      assert forall i :: 0 <= i < |inputs[1..]| ==> inputs[1..][i] == inputs[i + 1];
      ContextGrowth(TurnStep(s, inputs[0]), inputs[1..], initial);
    }
  }

  lemma BeginGrows(s: LoopState, start: Start)
    requires Begins(s, start)
    ensures Grows(s, start.context.messages)
  {
    hide ReduceAll, Declared, Pairs, From;
  }

  /** The loop context of a whole run. */
  lemma ContextOfEveryRun(s: LoopState, start: Start, inputs: seq<TurnInput>)
    requires Begins(s, start)
    requires forall i :: 0 <= i < |inputs| ==> KeepsContext(inputs[i])
    ensures var r := Run(s, inputs); r.context.messages == start.context.messages + r.newMessages
  {
    hide Begins, Run, KeepsContext;
    BeginGrows(s, start);
    ContextGrowth(s, inputs, start.context.messages);
  }

  // ---- Tools at every model request --------------------------------------------------

  /** A request whose context was not replaced declares exactly the executable tools. */
  ghost predicate Exact(r: Request) {
    !r.replaced && Consistent(Declarations(r.context.tools)) ==> DeclaresExactly(r.context.messages, r.context.tools)
  }

  ghost predicate AllExact(requests: seq<Request>) {
    forall i :: 0 <= i < |requests| ==> Exact(requests[i])
  }

  lemma AskedRequests(s: LoopState, t: TurnInput)
    ensures exists r :: Asked(s, t).log.requests == s.log.requests + [r] && Exact(r)
  {
    hide ReduceAll, Declared, Pairs, StreamResponse, DeclaresExactly, From, PartMessages;
    var s1 := OpenTurn(s, t);
    assert s1.log.requests == s.log.requests;
    var s2 := Inject(s1);
    var r := Request(if t.request.Some? then t.request.value else s2.context, t.request.Some?);
    if !r.replaced && Consistent(Declarations(r.context.tools)) {
      DeclaringIsExact(s1.context.messages, s1.context.tools, s1.pending);
    }
    assert Exact(r);
    assert Asked(s, t).log.requests == s.log.requests + [r];
  }

  lemma TurnRequests(s: LoopState, t: TurnInput)
    ensures exists r :: TurnStep(s, t).log.requests == s.log.requests + [r] && Exact(r)
  {
    hide ReduceAll, Asked, TraceEvents, RunBatch, StreamedEvents, ToolEvents, ToolMessages, From, PartMessages, Exact;
    AskedRequests(s, t);
    assert Tooled(s, t).log.requests == Asked(s, t).log.requests;
    assert Closed(s, t).log.requests == Asked(s, t).log.requests;
    assert TurnStep(s, t).log.requests == Asked(s, t).log.requests;
  }

  /** At every model request of every run the replayed tools are the executable tools. */
  lemma {:induction false} EveryRequestIsExact(s: LoopState, inputs: seq<TurnInput>)
    requires AllExact(s.log.requests)
    ensures AllExact(Run(s, inputs).log.requests)
    decreases |inputs|
  {
    hide TurnStep, Exact;
    if inputs != [] && s.status == Active {
      TurnRequests(s, inputs[0]);
      EveryRequestIsExact(TurnStep(s, inputs[0]), inputs[1..]);
    }
  }

  lemma BeginRequests(s: LoopState, start: Start)
    requires Begins(s, start)
    ensures s.log.requests == []
  {
  }

  /** The requests of a whole run. */
  lemma RequestsOfEveryRun(s: LoopState, start: Start, inputs: seq<TurnInput>)
    requires Begins(s, start)
    ensures var requests := Run(s, inputs).log.requests;
            forall i :: 0 <= i < |requests| && !requests[i].replaced ==>
              Consistent(Declarations(requests[i].context.tools)) ==>
              DeclaresExactly(requests[i].context.messages, requests[i].context.tools)
  {
    hide Begins, Run, DeclaresExactly, Consistent;
    BeginRequests(s, start);
    EveryRequestIsExact(s, inputs);
    var requests := Run(s, inputs).log.requests;
    forall i | 0 <= i < |requests| ensures Exact(requests[i]) {
    }
  }

  // ---- What reaches the transcript ---------------------------------------------------

  /** Messages without tool fields, leaving out system messages that say nothing else. */
  function Visible(messages: seq<Message>): seq<Message> {
    if messages == [] then []
    else
      var last := Erase(messages[|messages| - 1]);
      Visible(messages[..|messages| - 1]) + (if last == System("", [], []) then [] else [last])
  }

  lemma {:induction false} VisibleConcat(a: seq<Message>, b: seq<Message>)
    ensures Visible(a + b) == Visible(a) + Visible(b)
  {
    if b == [] {
      assert a + b == a;
    } else {
      VisibleConcat(a, b[..|b| - 1]);
      assert (a + b)[..|a + b| - 1] == a + b[..|b| - 1];
    }
  }

  lemma {:induction false} VisibleErased(a: seq<Message>, b: seq<Message>)
    requires EraseAll(a) == EraseAll(b)
    ensures Visible(a) == Visible(b)
  {
    assert |a| == |EraseAll(a)| == |EraseAll(b)| == |b|;
    if a != [] {
      var n := |a| - 1;
      assert EraseAll(a[..n]) == EraseAll(a)[..n] == EraseAll(b)[..n] == EraseAll(b[..n]);
      VisibleErased(a[..n], b[..n]);
      assert EraseAll(a)[n] == EraseAll(b)[n];
    }
  }

  /** Declaring tool changes loses, adds and reorders nothing else. */
  lemma VisibleDeclared(committed: seq<Message>, tools: seq<AgentTool>, pending: seq<Message>)
    ensures Visible(Declared(committed, tools, pending)) == Visible(pending)
  {
    hide Declared;
    var declared := Declared(committed, tools, pending);
    DeclaringKeepsMessages(committed, tools, pending);
    if EraseAll(declared) == EraseAll(pending) {
      VisibleErased(declared, pending);
    } else {
      assert declared == [declared[0]] + pending;
      VisibleConcat([declared[0]], pending);
      assert Visible([declared[0]]) == [] by { assert [declared[0]][..0] == []; }
    }
  }

  lemma PartsConcat(a: seq<Part>, b: seq<Part>, origin: Origin)
    ensures PartMessages(a + b) == PartMessages(a) + PartMessages(b)
    ensures From(a + b, origin) == From(a, origin) + From(b, origin)
  {
    hide PartMessages, From;
    MessagesConcat(a, b);
    FromConcat(a, b, origin);
  }

  /** One more part at the end. */
  lemma PartsSnoc(a: seq<Part>, p: Part, origin: Origin)
    ensures PartMessages(a + [p]) == PartMessages(a) + p.messages
    ensures From(a + [p], origin) == From(a, origin) + if p.origin == origin then p.messages else []
  {
    assert (a + [p])[..|a|] == a;
  }

  lemma {:induction false} MessagesConcat(a: seq<Part>, b: seq<Part>)
    ensures PartMessages(a + b) == PartMessages(a) + PartMessages(b)
  {
    hide PartMessages, From;
    if b == [] {
      assert a + b == a;
      PartsEmpty();
    } else {
      var n := |b| - 1;
      MessagesConcat(a, b[..n]);
      assert a + b == (a + b[..n]) + [b[n]] && b == b[..n] + [b[n]];
      PartsSnoc(a + b[..n], b[n], b[n].origin);
      PartsSnoc(b[..n], b[n], b[n].origin);
    }
  }

  lemma {:induction false} FromConcat(a: seq<Part>, b: seq<Part>, origin: Origin)
    ensures From(a + b, origin) == From(a, origin) + From(b, origin)
  {
    hide PartMessages, From;
    if b == [] {
      assert a + b == a;
      PartsEmpty();
    } else {
      var n := |b| - 1;
      FromConcat(a, b[..n], origin);
      assert a + b == (a + b[..n]) + [b[n]] && b == b[..n] + [b[n]];
      PartsSnoc(a + b[..n], b[n], origin);
      PartsSnoc(b[..n], b[n], origin);
    }
  }

  lemma PartsOne(p: Part, origin: Origin)
    ensures PartMessages([p]) == p.messages
    ensures From([p], origin) == if p.origin == origin then p.messages else []
  {
    assert [p][..0] == [];
  }

  lemma PartsEmpty()
    ensures PartMessages([]) == []
    ensures forall origin :: From([], origin) == []
  {
  }

  // ---- Conservation ------------------------------------------------------------------

  function TurnsFrom(turns: seq<TurnLog>, origin: Origin): seq<Message> {
    if turns == [] then [] else TurnsFrom(turns[..|turns| - 1], origin) + From(turns[|turns| - 1].parts, origin)
  }

  lemma TurnsFromOne(turns: seq<TurnLog>, turn: TurnLog, origin: Origin)
    ensures TurnsFrom(turns + [turn], origin) == TurnsFrom(turns, origin) + From(turn.parts, origin)
  {
    assert (turns + [turn])[..|turns|] == turns;
  }

  /** Everything enqueued is in a finished turn, in the turn at hand, or still queued: in that order, once. */
  ghost predicate Conserved(s: LoopState) {
    && s.log.steered == TurnsFrom(s.log.turns, Steering) + From(s.log.parts, Steering) + s.steerQueue
    && s.log.followed == TurnsFrom(s.log.turns, FollowUp) + From(s.log.parts, FollowUp) + s.followQueue
  }

  lemma ArriveConserves(s: LoopState, a: Arrivals)
    requires Conserved(s)
    ensures Conserved(Arrive(s, a))
  {
    hide TurnsFrom, From, PartMessages;
  }

  lemma PollSteeringConserves(s: LoopState, a: Arrivals)
    requires Conserved(s)
    ensures Conserved(PollSteering(s, a))
  {
    hide TurnsFrom, From, PartMessages;
    var s1 := Arrive(s, a);
    ArriveConserves(s, a);
    if !s1.skipPoll {
      var p := Part(Steering, Peek(s1.steerQueue, a.steerMode));
      PartsSnoc(s1.log.parts, p, Steering);
      PartsSnoc(s1.log.parts, p, FollowUp);
      assert s1.steerQueue == p.messages + Rest(s1.steerQueue, a.steerMode);
    }
  }

  lemma PollFollowUpConserves(s: LoopState, a: Arrivals)
    requires Conserved(s)
    ensures Conserved(PollFollowUp(s, a))
  {
    hide TurnsFrom, From, PartMessages;
    var s1 := Arrive(s, a);
    assert Conserved(s1);
    var p := Part(FollowUp, Peek(s1.followQueue, a.followMode));
    PartsConcat(s1.log.parts, [p], Steering);
    PartsConcat(s1.log.parts, [p], FollowUp);
    PartsOne(p, Steering);
    PartsOne(p, FollowUp);
    assert s1.followQueue == p.messages + Rest(s1.followQueue, a.followMode);
  }

  lemma OpenTurnConserves(s: LoopState, t: TurnInput)
    requires Conserved(s)
    ensures Conserved(OpenTurn(s, t))
  {
    hide TurnsFrom, From, PartMessages, ReduceAll;
    if !s.first {
      var update := if t.prepare.Some? then t.prepare.value else TurnUpdate(None, []);
      var p := Part(Hook, update.messages);
      var s1 := s.(context := if update.context.Some? then update.context.value else s.context,
                   log := s.log.(parts := [p] + s.log.parts));
      PartsConcat([p], s.log.parts, Steering);
      PartsConcat([p], s.log.parts, FollowUp);
      PartsOne(p, Steering);
      PartsOne(p, FollowUp);
      assert Conserved(s1);
      PollSteeringConserves(s1, t.before);
    }
  }

  lemma CloseTurnConserves(s: LoopState, record: TurnLog)
    requires Conserved(s) && record.parts == s.log.parts
    ensures Conserved(CloseTurn(s, record))
  {
    hide TurnsFrom, From, PartMessages, ReduceAll;
    PartsEmpty();
    TurnsFromOne(s.log.turns, record, Steering);
    TurnsFromOne(s.log.turns, record, FollowUp);
  }

  lemma TooledConserves(s: LoopState, t: TurnInput)
    requires Conserved(s)
    ensures Conserved(Asked(s, t)) && Conserved(Tooled(s, t))
  {
    hide TurnsFrom, From, PartMessages, ReduceAll, OpenTurn, Declared, Pairs, StreamResponse, TraceEvents, RunBatch;
    OpenTurnConserves(s, t);
    assert Conserved(Inject(OpenTurn(s, t)));
    assert Conserved(Asked(s, t));
  }

  lemma TurnConserves(s: LoopState, t: TurnInput)
    requires Conserved(s)
    ensures Conserved(TurnStep(s, t))
  {
    hide TurnsFrom, From, PartMessages, ReduceAll, Asked, RunTools, StreamedEvents, ToolEvents, ToolMessages;
    TooledConserves(s, t);
    CloseTurnConserves(Asked(s, t), TurnRecord(Asked(s, t), t, StreamedEvents(s, t), [], []));
    CloseTurnConserves(Tooled(s, t),
        TurnRecord(Tooled(s, t), t, StreamedEvents(s, t), ToolEvents(s, t), ToolMessages(s, t)));
    PollSteeringConserves(Closed(s, t), t.after);
    PollFollowUpConserves(PollSteering(Closed(s, t), t.after), t.idle);
  }

  lemma {:induction false} RunConserves(s: LoopState, inputs: seq<TurnInput>)
    requires Conserved(s)
    ensures Conserved(Run(s, inputs))
    decreases |inputs|
  {
    hide Conserved, TurnStep;
    if inputs != [] && s.status == Active {
      TurnConserves(s, inputs[0]);
      RunConserves(TurnStep(s, inputs[0]), inputs[1..]);
    }
  }

  // ---- Parts are what is injected ----------------------------------------------------

  /**
    Every finished turn injected exactly its parts, and what is injected or pending now is what has
    been taken for the coming turn. A stopped run holds nothing back.
   */
  ghost predicate Accounted(s: LoopState) {
    && (forall i :: 0 <= i < |s.log.turns| ==>
        Visible(s.log.turns[i].injected) == Visible(PartMessages(s.log.turns[i].parts)))
    && Visible(s.log.injected) + Visible(s.pending) == Visible(PartMessages(s.log.parts))
    && (!s.first && s.status == Active ==> s.log.injected == [] && s.pending == PartMessages(s.log.parts))
    && (s.status == Stopped ==> PartMessages(s.log.parts) == [])
  }

  lemma OpenTurnAccounts(s: LoopState, t: TurnInput)
    requires Accounted(s) && s.status == Active && !s.skipPoll
    ensures var r := OpenTurn(s, t);
            && r.status == Active && !r.skipPoll && r.log.turns == s.log.turns
            && Visible(r.log.injected) + Visible(r.pending) == Visible(PartMessages(r.log.parts))
  {
    hide Visible, From, PartMessages, ReduceAll, Peek, Rest;
    if !s.first {
      var update := if t.prepare.Some? then t.prepare.value else TurnUpdate(None, []);
      var p := Part(Hook, update.messages);
      var q := Part(Steering, Peek(s.steerQueue + t.before.steer, t.before.steerMode));
      var r := OpenTurn(s, t);
      PartsConcat([p], s.log.parts, Hook);
      PartsOne(p, Hook);
      PartsConcat([p] + s.log.parts, [q], Hook);
      PartsOne(q, Hook);
      assert r.pending == PartMessages(r.log.parts);
      VisibleConcat([], r.pending);
      assert [] + r.pending == r.pending;
    }
  }

  lemma InjectAccounts(s: LoopState)
    requires Visible(s.log.injected) + Visible(s.pending) == Visible(PartMessages(s.log.parts))
    ensures Visible(Inject(s).log.injected) == Visible(PartMessages(Inject(s).log.parts))
    ensures Inject(s).pending == []
  {
    hide Visible, PartMessages, ReduceAll, Declared, Pairs;
    var declared := Declared(s.context.messages, s.context.tools, s.pending);
    VisibleDeclared(s.context.messages, s.context.tools, s.pending);
    VisibleConcat(s.log.injected, declared);
  }

  /** From the model's answer on, only the record and the status change what is accounted for. */
  lemma TooledAccounts(s: LoopState, t: TurnInput)
    requires Accounted(s) && s.status == Active && !s.skipPoll
    ensures forall r :: r == Asked(s, t) || r == Tooled(s, t) ==>
              && r.log.turns == s.log.turns && !r.skipPoll && r.pending == [] && r.status != Stopped
              && Visible(r.log.injected) == Visible(PartMessages(r.log.parts))
    ensures Asked(s, t).status == Active
  {
    hide Visible, PartMessages, From, ReduceAll, OpenTurn, Declared, Pairs, StreamResponse, TraceEvents, RunBatch;
    OpenTurnAccounts(s, t);
    InjectAccounts(OpenTurn(s, t));
    var a := Asked(s, t);
    assert a.log.injected == Inject(OpenTurn(s, t)).log.injected && a.log.parts == OpenTurn(s, t).log.parts;
  }

  lemma CloseTurnAccounts(s: LoopState, record: TurnLog, turns: seq<TurnLog>)
    requires record.parts == s.log.parts && record.injected == s.log.injected
    requires Visible(s.log.injected) == Visible(PartMessages(s.log.parts))
    requires s.pending == [] && s.log.turns == turns
    requires forall i :: 0 <= i < |turns| ==> Visible(turns[i].injected) == Visible(PartMessages(turns[i].parts))
    ensures Accounted(CloseTurn(s, record))
    ensures PartMessages(CloseTurn(s, record).log.parts) == [] && CloseTurn(s, record).log.injected == []
  {
    hide Visible, PartMessages, From, ReduceAll;
    PartsEmpty();
    VisibleOfNone();
  }

  lemma VisibleOfNone()
    ensures Visible([]) == []
  {
  }

  lemma ScheduleAccounts(s: LoopState, t: TurnInput)
    requires Accounted(s) && s.status == Active && !s.first && !s.skipPoll
    requires s.log.injected == [] && PartMessages(s.log.parts) == []
    ensures Accounted(Schedule(PollSteering(s, t.after), t))
    ensures !Schedule(PollSteering(s, t.after), t).skipPoll
  {
    hide Visible, PartMessages, From, ReduceAll, Peek, Rest;
    VisibleOfNone();
    var s1 := PollSteering(s, t.after);
    var p := Part(Steering, s1.pending);
    PartsConcat(s.log.parts, [p], Steering);
    PartsOne(p, Steering);
    assert PartMessages(s1.log.parts) == s1.pending;
    if !(s1.hasMore || s1.pending != []) {
      var s2 := PollFollowUp(s1, t.idle);
      var q := Part(FollowUp, s2.pending);
      PartsConcat(s1.log.parts, [q], FollowUp);
      PartsOne(q, FollowUp);
      assert PartMessages(s2.log.parts) == s2.pending;
    }
  }

  lemma TurnAccounts(s: LoopState, t: TurnInput)
    requires Accounted(s) && s.status == Active && !s.skipPoll
    ensures Accounted(TurnStep(s, t)) && !TurnStep(s, t).skipPoll
  {
    hide Visible, PartMessages, From, ReduceAll, Asked, RunTools, StreamedEvents, ToolEvents, ToolMessages, Schedule,
        PollSteering;
    TooledAccounts(s, t);
    if HardExit(t.final.stop) {
      CloseTurnAccounts(Asked(s, t), TurnRecord(Asked(s, t), t, StreamedEvents(s, t), [], []), s.log.turns);
    } else if Tooled(s, t).status == Waiting {
      VisibleOfNone();
    } else {
      var record := TurnRecord(Tooled(s, t), t, StreamedEvents(s, t), ToolEvents(s, t), ToolMessages(s, t));
      CloseTurnAccounts(Tooled(s, t), record, s.log.turns);
      ScheduleAccounts(Closed(s, t), t);
    }
  }

  lemma {:induction false} RunAccounts(s: LoopState, inputs: seq<TurnInput>)
    requires Accounted(s) && !s.skipPoll
    ensures Accounted(Run(s, inputs))
    decreases |inputs|
  {
    hide Accounted, TurnStep;
    if inputs != [] && s.status == Active {
      TurnAccounts(s, inputs[0]);
      RunAccounts(TurnStep(s, inputs[0]), inputs[1..]);
    }
  }

  lemma BlankConserves(start: Start, parts: seq<Part>, pending: seq<Message>)
    ensures Conserved(Emit(Blank(start, parts).(pending := pending), [AgentStart, TurnStart]))
  {
    hide From, ReduceAll;
    assert TurnsFrom([], Steering) == [] && TurnsFrom([], FollowUp) == [];
  }

  lemma BeginAccounts(s: LoopState, start: Start)
    requires Begins(s, start)
    ensures Conserved(s) && Accounted(s) && !s.skipPoll
  {
    if a :| s == StartContinue(start, a) {
      StartContinueAccounts(start, a);
    } else {
      var prompts, origin, a :| s == StartPrompt(start, prompts, origin, a);
      StartPromptAccounts(start, prompts, origin, a);
    }
  }

  lemma StartContinueAccounts(start: Start, a: Arrivals)
    ensures var s := StartContinue(start, a); Conserved(s) && Accounted(s) && !s.skipPoll
  {
    hide Visible, PartMessages, From, ReduceAll, Peek, Rest, Conserved, Accounted, PollSteering;
    PartsEmpty();
    var b := Blank(start, []);
    assert b.(pending := []) == b;
    BlankConserves(start, [], []);
    PollSteeringConserves(Emit(b, [AgentStart, TurnStart]), a);
    StartPollAccounts(Emit(b, [AgentStart, TurnStart]), a);
  }

  lemma StartPromptAccounts(start: Start, prompts: seq<Message>, origin: Origin, a: Arrivals)
    ensures var s := StartPrompt(start, prompts, origin, a); Conserved(s) && Accounted(s) && !s.skipPoll
  {
    hide Visible, PartMessages, From, ReduceAll, Declared, Pairs, Peek, Rest, Accounted, PollSteering, TurnsFrom;
    var p := Part(origin, prompts);
    var b := Emit(Blank(start, [p]).(pending := prompts), [AgentStart, TurnStart]);
    PartsOne(p, origin);
    VisibleOfNone();
    InjectAccounts(b);
    BlankConserves(start, [p], prompts);
    assert Conserved(Inject(b));
    PollSteeringConserves(Inject(b), a);
    StartPollAccounts(Inject(b), a);
  }

  lemma StartPollAccounts(s: LoopState, a: Arrivals)
    requires s.pending == [] && s.log.turns == [] && s.first && s.status == Active
    requires Visible(s.log.injected) == Visible(PartMessages(s.log.parts))
    ensures Accounted(PollSteering(s, a)) && !PollSteering(s, a).skipPoll
  {
    hide Visible, PartMessages, From, Peek, Rest;
    VisibleOfNone();
    var r := PollSteering(s, a);
    if !s.skipPoll {
      var p := Part(Steering, r.pending);
      PartsConcat(s.log.parts, [p], Steering);
      PartsOne(p, Steering);
      VisibleConcat(PartMessages(s.log.parts), r.pending);
    }
  }

  /**
    In every run, what was enqueued is what finished turns took, then what the turn at hand took, then what
    is still queued; what a turn took is what it injected; and a stopped run has taken nothing that it did
    not inject.
   */
  lemma TurnsConserve(s: LoopState, start: Start, inputs: seq<TurnInput>)
    requires Begins(s, start)
    ensures Conserved(Run(s, inputs)) && Accounted(Run(s, inputs))
    ensures var r := Run(s, inputs);
            r.status == Stopped ==>
              && r.log.steered == TurnsFrom(r.log.turns, Steering) + r.steerQueue
              && r.log.followed == TurnsFrom(r.log.turns, FollowUp) + r.followQueue
  {
    hide Conserved, Accounted, Run, TurnsFrom;
    BeginAccounts(s, start);
    RunConserves(s, inputs);
    RunAccounts(s, inputs);
    if Run(s, inputs).status == Stopped {
      StoppedHoldsNothing(Run(s, inputs));
    }
  }

  lemma StoppedHoldsNothing(s: LoopState)
    requires Conserved(s) && Accounted(s) && s.status == Stopped
    ensures s.log.steered == TurnsFrom(s.log.turns, Steering) + s.steerQueue
    ensures s.log.followed == TurnsFrom(s.log.turns, FollowUp) + s.followQueue
  {
    hide TurnsFrom, Visible;
    NothingFrom(s.log.parts, Steering);
    NothingFrom(s.log.parts, FollowUp);
  }

  lemma {:induction false} NothingFrom(parts: seq<Part>, origin: Origin)
    requires PartMessages(parts) == []
    ensures From(parts, origin) == []
  {
    if parts != [] {
      NothingFrom(parts[..|parts| - 1], origin);
    }
  }
}
