/**
  Execution of the tool calls of one assistant message: sequential, parallel and truncated batches.

  Tools, hooks and the abort signal belong to the environment. A script fixes what they answer;
  quantifying over scripts quantifies over every environment, and in a parallel batch the list of
  moves is one interleaving of the concurrently running tools.
 */
module ToolBatch {
  import opened Wrappers
  import opened Transcript

  // ---- One call ----------------------------------------------------------------------

  datatype Output = Output(content: Option<Text>, terminate: Option<bool>)

  datatype Finalized = Finalized(call: ToolCall, output: Output, isError: bool)

  function ErrorOutput(message: Text): Output {
    Output(Some(message), None)
  }

  function Else<T>(override: Option<T>, fallback: Option<T>): Option<T> {
    if override.Some? then override else fallback
  }

  /** What `beforeToolCall` answers; an empty reason counts as absent. */
  datatype Before = NoBefore | Pass | Block(reason: string, terminate: bool) | BeforeThrows(message: string)

  /** What `afterToolCall` answers. */
  datatype After =
    | NoAfter
    | Keep
    | Override(content: Option<Text>, isError: Option<bool>, terminate: Option<bool>)
    | AfterThrows(message: string)

  /** A tool's own outcome: a result, or a thrown error turned into a result. */
  datatype Outcome = Returns(output: Output) | Throws(message: string)

  /** The environment of one preparation: argument errors, the hook and the abort flag read after it. */
  datatype PrepareScript = PrepareScript(argumentError: Option<string>, before: Before, aborted: bool)

  datatype Preparation = Immediate(output: Output, isError: bool) | Prepared

  function FindTool(tools: seq<AgentTool>, name: string): Option<AgentTool> {
    if tools == [] then None
    else if tools[0].declaration.name == name then Some(tools[0])
    else FindTool(tools[1..], name)
  }

  function PrepareToolCall(tools: seq<AgentTool>, call: ToolCall, script: PrepareScript): Preparation {
    if FindTool(tools, call.name).None? then Immediate(ErrorOutput(ToolNotFound(call.name)), true)
    else if script.argumentError.Some? then Immediate(ErrorOutput(Given(script.argumentError.value)), true)
    else if script.before.BeforeThrows? then Immediate(ErrorOutput(Given(script.before.message)), true)
    else if script.aborted then Immediate(ErrorOutput(OperationAborted), true)
    else if script.before.Block? then
      var reason := if script.before.reason == "" then ExecutionBlocked else Given(script.before.reason);
      Immediate(Output(Some(reason), if script.before.terminate then Some(true) else None), true)
    else Prepared
  }

  function FinalizeExecuted(call: ToolCall, outcome: Outcome, after: After): Finalized {
    var output := if outcome.Returns? then outcome.output else ErrorOutput(Given(outcome.message));
    match after
    case NoAfter => Finalized(call, output, outcome.Throws?)
    case Keep => Finalized(call, output, outcome.Throws?)
    case Override(content, isError, terminate) =>
      Finalized(call, Output(Else(content, output.content), Else(terminate, output.terminate)),
                if isError.Some? then isError.value else outcome.Throws?)
    case AfterThrows(message) => Finalized(call, ErrorOutput(Given(message)), true)
  }

  function ResultMessage(finalized: Finalized): Message {
    var content := if finalized.output.content.Some? then finalized.output.content.value else NoContent;
    ToolResult(finalized.call.id, finalized.call.name, content, finalized.isError)
  }

  function ResultMessages(finals: seq<Finalized>): (messages: seq<Message>)
    ensures |messages| == |finals|
    ensures forall i :: 0 <= i < |finals| ==> messages[i] == ResultMessage(finals[i])
  {
    seq(|finals|, i requires 0 <= i < |finals| => ResultMessage(finals[i]))
  }

  predicate ShouldTerminate(finals: seq<Finalized>) {
    |finals| > 0 && forall i :: 0 <= i < |finals| ==> finals[i].output.terminate == Some(true)
  }

  // ---- Traces ------------------------------------------------------------------------

  /** What happens in a batch, by index of the call. Only some of these are emitted as agent events. */
  datatype Step =
    | Started(i: nat)
    | PrepDone(i: nat)
    | Executed(i: nat)
    | Updated(i: nat, partial: string)
    | Returned(i: nat)
    | Ended(i: nat, final: Finalized)
    | Reported(i: nat, final: Finalized)

  /** How far one call has come. `Broken` marks a step that is out of order for that call. */
  datatype Life = Absent | Begun | Ready | Running | Settled | Over(final: Finalized) | Told(final: Finalized) | Broken

  function LifeStep(life: Life, step: Step): Life {
    match step
    case Started(_) => if life == Absent then Begun else Broken
    case PrepDone(_) => if life == Begun then Ready else Broken
    case Executed(_) => if life == Ready then Running else Broken
    case Updated(_, _) => if life == Running then Running else Broken
    case Returned(_) => if life == Running then Settled else Broken
    case Ended(_, final) => if life == Begun || life == Ready || life == Settled then Over(final) else Broken
    case Reported(_, final) => if life == Over(final) then Told(final) else Broken
  }

  /** The life of call `i` according to a trace: an independent recogniser of well-ordered traces. */
  function LifeOf(trace: seq<Step>, i: nat): Life {
    if trace == [] then Absent
    else
      var before := LifeOf(trace[..|trace| - 1], i);
      if trace[|trace| - 1].i == i then LifeStep(before, trace[|trace| - 1]) else before
  }

  lemma LifeEmpty()
    ensures ReportedFinals([]) == []
    ensures forall i: nat :: LifeOf([], i) == Absent
  {
  }

  lemma LifeAppend(trace: seq<Step>, step: Step, i: nat)
    ensures LifeOf(trace + [step], i) == if step.i == i then LifeStep(LifeOf(trace, i), step) else LifeOf(trace, i)
  {
    assert (trace + [step])[..|trace|] == trace;
  }

  /** The finals reported by a trace, in the order of reporting. */
  function ReportedFinals(trace: seq<Step>): seq<Finalized> {
    if trace == [] then []
    else
      var last := trace[|trace| - 1];
      ReportedFinals(trace[..|trace| - 1]) + (if last.Reported? then [last.final] else [])
  }

  lemma ReportedAppend(trace: seq<Step>, step: Step)
    ensures ReportedFinals(trace + [step]) == ReportedFinals(trace) + if step.Reported? then [step.final] else []
  {
    assert (trace + [step])[..|trace|] == trace;
  }

  datatype BatchResult = BatchResult(trace: seq<Step>, finals: seq<Finalized>, complete: bool)

  /** The life of call `i` is in order and ends with a final of that very call. */
  predicate Sound(life: Life, calls: seq<ToolCall>, i: nat) {
    && life != Broken
    && (i >= |calls| ==> life == Absent)
    && (life.Over? || life.Told? ==> i < |calls| && life.final.call == calls[i])
  }

  /** What every batch guarantees about its trace and its results. */
  ghost predicate Orderly(calls: seq<ToolCall>, r: BatchResult) {
    && |r.finals| <= |calls|
    && (forall i :: 0 <= i < |r.finals| ==> r.finals[i].call == calls[i])
    && (forall i: nat :: Sound(LifeOf(r.trace, i), calls, i))
    && (r.complete ==> forall i: nat :: LifeOf(r.trace, i) == if i < |r.finals| then Told(r.finals[i]) else Absent)
    && ReportedFinals(r.trace) == if r.complete then r.finals else []
  }

  // ---- Sequential batches ------------------------------------------------------------

  /** The environment of one call; `aborted` is the signal read after the call. */
  datatype CallScript = CallScript(prepare: PrepareScript, updates: seq<string>, outcome: Outcome, after: After,
      aborted: bool)

  function Updates(i: nat, partials: seq<string>): (steps: seq<Step>)
    ensures |steps| == |partials|
    ensures forall k :: 0 <= k < |partials| ==> steps[k] == Updated(i, partials[k])
  {
    seq(|partials|, k requires 0 <= k < |partials| => Updated(i, partials[k]))
  }

  function SequentialFinal(tools: seq<AgentTool>, call: ToolCall, script: CallScript): Finalized {
    match PrepareToolCall(tools, call, script.prepare)
    case Immediate(output, isError) => Finalized(call, output, isError)
    case Prepared => FinalizeExecuted(call, script.outcome, script.after)
  }

  function SequentialSteps(i: nat, tools: seq<AgentTool>, call: ToolCall, script: CallScript): seq<Step> {
    var final := SequentialFinal(tools, call, script);
    [Started(i), PrepDone(i)]
    + (if PrepareToolCall(tools, call, script.prepare).Prepared?
       then [Executed(i)] + Updates(i, script.updates) + [Returned(i)] else [])
    + [Ended(i, final), Reported(i, final)]
  }

  function MinNat(a: nat, b: nat): nat { if a <= b then a else b }

  /** How many calls a batch starts: up to the first one after which the signal is aborted. */
  function Kept(scripts: seq<CallScript>, limit: nat): (n: nat)
    ensures n <= limit && n <= |scripts|
    ensures (forall k :: 0 <= k < |scripts| ==> !scripts[k].aborted) ==> n == MinNat(limit, |scripts|)
    decreases limit
  {
    if limit == 0 || scripts == [] then 0
    else if scripts[0].aborted then 1
    else 1 + Kept(scripts[1..], limit - 1)
  }

  lemma {:induction false} KeptExactly(scripts: seq<CallScript>, limit: nat, n: nat)
    requires n <= limit <= |scripts|
    requires forall k :: 0 <= k < n - 1 ==> !scripts[k].aborted
    requires n < limit ==> n > 0 && scripts[n - 1].aborted
    ensures Kept(scripts, limit) == n
  {
    if n > 1 {
      assert forall k :: 0 <= k < |scripts| - 1 ==> scripts[1..][k] == scripts[k + 1];
      KeptExactly(scripts[1..], limit - 1, n - 1);
    }
  }

  function SequentialTrace(tools: seq<AgentTool>, calls: seq<ToolCall>, scripts: seq<CallScript>, n: nat): seq<Step>
    requires n <= |calls| && n <= |scripts|
  {
    if n == 0 then []
    else
      SequentialTrace(tools, calls, scripts, n - 1) + SequentialSteps(n - 1, tools, calls[n - 1], scripts[n - 1])
  }

  function SequentialFinals(tools: seq<AgentTool>, calls: seq<ToolCall>, scripts: seq<CallScript>,
      n: nat): (finals: seq<Finalized>)
    requires n <= |calls| && n <= |scripts|
    ensures |finals| == n
    ensures forall i :: 0 <= i < n ==> finals[i].call == calls[i]
  {
    seq(n, i requires 0 <= i < n => SequentialFinal(tools, calls[i], scripts[i]))
  }

  function Sequential(tools: seq<AgentTool>, calls: seq<ToolCall>, scripts: seq<CallScript>): BatchResult {
    var n := Kept(scripts, |calls|);
    BatchResult(SequentialTrace(tools, calls, scripts, n), SequentialFinals(tools, calls, scripts, n), true)
  }

  lemma {:induction false} LifeUpdates(trace: seq<Step>, i: nat, partials: seq<string>, k: nat)
    requires LifeOf(trace, i) == Running
    ensures LifeOf(trace + Updates(i, partials), k) == LifeOf(trace, k)
    ensures ReportedFinals(trace + Updates(i, partials)) == ReportedFinals(trace)
    decreases |partials|
  {
    hide LifeOf, ReportedFinals;
    var steps := Updates(i, partials);
    if partials == [] {
      assert trace + steps == trace;
    } else {
      var n := |partials| - 1;
      LifeUpdates(trace, i, partials[..n], k);
      LifeUpdates(trace, i, partials[..n], i);
      var front := trace + Updates(i, partials[..n]);
      assert trace + steps == front + [Updated(i, partials[n])];
      LifeAppend(front, Updated(i, partials[n]), k);
      ReportedAppend(front, Updated(i, partials[n]));
    }
  }

  /** The steps of one sequential call take it from absent to told and touch no other call. */
  lemma SequentialCallLife(trace: seq<Step>, i: nat, tools: seq<AgentTool>, call: ToolCall, script: CallScript, k: nat)
    requires LifeOf(trace, i) == Absent
    ensures LifeOf(trace + SequentialSteps(i, tools, call, script), k)
         == if k == i then Told(SequentialFinal(tools, call, script)) else LifeOf(trace, k)
    ensures ReportedFinals(trace + SequentialSteps(i, tools, call, script))
         == ReportedFinals(trace) + [SequentialFinal(tools, call, script)]
  {
    hide LifeOf, ReportedFinals;
    var final := SequentialFinal(tools, call, script);
    var t2 := trace + [Started(i)] + [PrepDone(i)];
    LifeAppend(trace, Started(i), i);
    LifeAppend(trace + [Started(i)], PrepDone(i), i);
    LifeAppend(trace, Started(i), k);
    LifeAppend(trace + [Started(i)], PrepDone(i), k);
    ReportedAppend(trace, Started(i));
    ReportedAppend(trace + [Started(i)], PrepDone(i));
    var t5 := t2;
    if PrepareToolCall(tools, call, script.prepare).Prepared? {
      var t3 := t2 + [Executed(i)];
      LifeAppend(t2, Executed(i), i);
      LifeAppend(t2, Executed(i), k);
      ReportedAppend(t2, Executed(i));
      var t4 := t3 + Updates(i, script.updates);
      LifeUpdates(t3, i, script.updates, i);
      LifeUpdates(t3, i, script.updates, k);
      t5 := t4 + [Returned(i)];
      LifeAppend(t4, Returned(i), i);
      LifeAppend(t4, Returned(i), k);
      ReportedAppend(t4, Returned(i));
    }
    LifeAppend(t5, Ended(i, final), i);
    LifeAppend(t5, Ended(i, final), k);
    ReportedAppend(t5, Ended(i, final));
    var t6 := t5 + [Ended(i, final)];
    LifeAppend(t6, Reported(i, final), i);
    LifeAppend(t6, Reported(i, final), k);
    ReportedAppend(t6, Reported(i, final));
    assert t6 + [Reported(i, final)] == trace + SequentialSteps(i, tools, call, script);
  }

  lemma {:induction false} SequentialLives(tools: seq<AgentTool>, calls: seq<ToolCall>, scripts: seq<CallScript>,
      n: nat)
    requires n <= |calls| && n <= |scripts|
    ensures var finals := SequentialFinals(tools, calls, scripts, n);
            var trace := SequentialTrace(tools, calls, scripts, n);
            && (forall k: nat :: LifeOf(trace, k) == if k < n then Told(finals[k]) else Absent)
            && ReportedFinals(trace) == finals
  {
    hide LifeOf, ReportedFinals, SequentialSteps, SequentialFinal;
    if n == 0 {
      LifeEmpty();
    } else {
      SequentialLives(tools, calls, scripts, n - 1);
      var trace := SequentialTrace(tools, calls, scripts, n - 1);
      forall k: nat
        ensures LifeOf(SequentialTrace(tools, calls, scripts, n), k)
             == if k < n then Told(SequentialFinals(tools, calls, scripts, n)[k]) else Absent
      {
        SequentialCallLife(trace, n - 1, tools, calls[n - 1], scripts[n - 1], k);
      }
      SequentialCallLife(trace, n - 1, tools, calls[n - 1], scripts[n - 1], n - 1);
      assert SequentialFinals(tools, calls, scripts, n)
          == SequentialFinals(tools, calls, scripts, n - 1) + [SequentialFinal(tools, calls[n - 1], scripts[n - 1])];
    }
  }

  /** A sequential batch is orderly, and reports every call when the signal never aborts. */
  lemma SequentialIsOrderly(tools: seq<AgentTool>, calls: seq<ToolCall>, scripts: seq<CallScript>)
    requires |scripts| == |calls|
    ensures var r := Sequential(tools, calls, scripts);
            && r.complete && Orderly(calls, r)
            && ((forall k :: 0 <= k < |scripts| ==> !scripts[k].aborted) ==> |r.finals| == |calls|)
  {
    SequentialLives(tools, calls, scripts, Kept(scripts, |calls|));
  }

  /** The loop of `executeToolCallsSequential`. */
  method ExecuteSequential(tools: seq<AgentTool>, calls: seq<ToolCall>, scripts: seq<CallScript>)
      returns (r: BatchResult)
    requires |scripts| == |calls|
    ensures r == Sequential(tools, calls, scripts)
  {
    var trace: seq<Step>, finals: seq<Finalized> := [], [];
    var i := 0;
    var aborted := false;
    while i < |calls| && !aborted
      invariant 0 <= i <= |calls|
      invariant forall k :: 0 <= k < i - 1 ==> !scripts[k].aborted
      invariant aborted <==> i > 0 && scripts[i - 1].aborted
      invariant trace == SequentialTrace(tools, calls, scripts, i)
      invariant finals == SequentialFinals(tools, calls, scripts, i)
    {
      var final, steps := ExecuteOne(i, tools, calls[i], scripts[i]);
      trace := trace + steps;
      finals := finals + [final];
      aborted := scripts[i].aborted;
      i := i + 1;
    }
    KeptExactly(scripts, |calls|, i);
    r := BatchResult(trace, finals, true);
  }

  /** The body of that loop: prepare, execute unless decided already, finalize, report. */
  method ExecuteOne(i: nat, tools: seq<AgentTool>, call: ToolCall, script: CallScript)
    returns (final: Finalized, steps: seq<Step>)
    ensures final == SequentialFinal(tools, call, script)
    ensures steps == SequentialSteps(i, tools, call, script)
  {
    steps := [Started(i), PrepDone(i)];
    var preparation := PrepareToolCall(tools, call, script.prepare);
    if preparation.Immediate? {
      final := Finalized(call, preparation.output, preparation.isError);
    } else {
      steps := steps + ([Executed(i)] + Updates(i, script.updates) + [Returned(i)]);
      final := FinalizeExecuted(call, script.outcome, script.after);
    }
    steps := steps + [Ended(i, final), Reported(i, final)];
  }

  // ---- Parallel batches --------------------------------------------------------------

  datatype Entry = Queued | InFlight | Back(outcome: Outcome) | Done(final: Finalized)

  /** A parallel batch: the kept calls, how many thunks were invoked, and the trace so far. */
  datatype Batch = Batch(entries: seq<Entry>, next: nat, stopped: bool, trace: seq<Step>)

  const EMPTY_BATCH := Batch([], 0, false, [])

  /** One iteration of the preparation loop. */
  function PrepareOne(b: Batch, tools: seq<AgentTool>, call: ToolCall, script: CallScript): Batch {
    if b.stopped then b
    else
      var i := |b.entries|;
      var trace := b.trace + [Started(i)] + [PrepDone(i)];
      match PrepareToolCall(tools, call, script.prepare)
      case Immediate(output, isError) =>
        var final := Finalized(call, output, isError);
        Batch(b.entries + [Done(final)], b.next, script.aborted, trace + [Ended(i, final)])
      case Prepared =>
        Batch(b.entries + [Queued], b.next, script.aborted, trace)
  }

  function PrepareAll(tools: seq<AgentTool>, calls: seq<ToolCall>, scripts: seq<CallScript>, n: nat): Batch
    requires n <= |calls| && n <= |scripts|
  {
    if n == 0 then EMPTY_BATCH
    else PrepareOne(PrepareAll(tools, calls, scripts, n - 1), tools, calls[n - 1], scripts[n - 1])
  }

  /** One step of the concurrently running tools; the thunks are invoked in source order. */
  datatype Move =
    | Invoke(aborted: bool)
    | Update(i: nat, partial: string)
    | Settle(i: nat, outcome: Outcome)
    | Finish(i: nat, after: After)

  /** Moves that the code ignores, or that cannot happen yet, leave the batch alone. */
  function MoveStep(b: Batch, calls: seq<ToolCall>, move: Move): Batch
    requires |b.entries| <= |calls|
  {
    match move
    case Invoke(aborted) =>
      var i := b.next;
      if i >= |b.entries| then b
      else if !b.entries[i].Queued? then b.(next := i + 1)
      else if aborted then
        var final := Finalized(calls[i], ErrorOutput(OperationAborted), true);
        b.(next := i + 1, entries := b.entries[i := Done(final)], trace := b.trace + [Ended(i, final)])
      else b.(next := i + 1, entries := b.entries[i := InFlight], trace := b.trace + [Executed(i)])
    case Update(i, partial) =>
      if i < |b.entries| && b.entries[i].InFlight? then b.(trace := b.trace + [Updated(i, partial)]) else b
    case Settle(i, outcome) =>
      if i < |b.entries| && b.entries[i].InFlight?
      then b.(entries := b.entries[i := Back(outcome)], trace := b.trace + [Returned(i)]) else b
    case Finish(i, after) =>
      if i < |b.entries| && b.entries[i].Back? then
        var final := FinalizeExecuted(calls[i], b.entries[i].outcome, after);
        b.(entries := b.entries[i := Done(final)], trace := b.trace + [Ended(i, final)])
      else b
  }

  function Moves(b: Batch, calls: seq<ToolCall>, moves: seq<Move>): (r: Batch)
    requires |b.entries| <= |calls|
    ensures |r.entries| == |b.entries|
  {
    if moves == [] then b
    else MoveStep(Moves(b, calls, moves[..|moves| - 1]), calls, moves[|moves| - 1])
  }

  predicate AllDone(b: Batch) {
    forall i :: 0 <= i < |b.entries| ==> b.entries[i].Done?
  }

  function FinalsOf(b: Batch): (finals: seq<Finalized>)
    requires AllDone(b)
    ensures |finals| == |b.entries|
  {
    seq(|b.entries|, i requires 0 <= i < |b.entries| => b.entries[i].final)
  }

  function ReportSteps(finals: seq<Finalized>, n: nat): seq<Step>
    requires n <= |finals|
  {
    if n == 0 then [] else ReportSteps(finals, n - 1) + [Reported(n - 1, finals[n - 1])]
  }

  function Parallel(tools: seq<AgentTool>, calls: seq<ToolCall>, scripts: seq<CallScript>,
      moves: seq<Move>): BatchResult
    requires |scripts| == |calls|
  {
    PrepareBound(tools, calls, scripts, |calls|);
    var b := Moves(PrepareAll(tools, calls, scripts, |calls|), calls, moves);
    if AllDone(b) then BatchResult(b.trace + ReportSteps(FinalsOf(b), |b.entries|), FinalsOf(b), true)
    else BatchResult(b.trace, [], false)
  }

  function EntryLife(entry: Entry): Life {
    match entry
    case Queued => Ready
    case InFlight => Running
    case Back(_) => Settled
    case Done(final) => Over(final)
  }

  /** The invariant of the prepare loop and of every interleaving of tool steps. */
  ghost predicate BatchInv(b: Batch, calls: seq<ToolCall>) {
    && |b.entries| <= |calls|
    && (forall k: nat :: LifeOf(b.trace, k) == if k < |b.entries| then EntryLife(b.entries[k]) else Absent)
    && (forall k :: 0 <= k < |b.entries| && b.entries[k].Done? ==> b.entries[k].final.call == calls[k])
    && ReportedFinals(b.trace) == []
  }

  lemma {:induction false} PrepareBound(tools: seq<AgentTool>, calls: seq<ToolCall>, scripts: seq<CallScript>, n: nat)
    requires n <= |calls| && n <= |scripts|
    ensures |PrepareAll(tools, calls, scripts, n).entries| <= n
  {
    if n > 0 { PrepareBound(tools, calls, scripts, n - 1); }
  }

  lemma PrepareOneKeepsInv(b: Batch, tools: seq<AgentTool>, calls: seq<ToolCall>, call: ToolCall, script: CallScript)
    requires BatchInv(b, calls) && |b.entries| < |calls| && call == calls[|b.entries|]
    ensures BatchInv(PrepareOne(b, tools, call, script), calls)
  {
    hide LifeOf, ReportedFinals;
    if !b.stopped {
      var i := |b.entries|;
      var r := PrepareOne(b, tools, call, script);
      var t1 := b.trace + [Started(i)];
      var t2 := t1 + [PrepDone(i)];
      ReportedAppend(b.trace, Started(i));
      ReportedAppend(t1, PrepDone(i));
      if PrepareToolCall(tools, call, script.prepare).Immediate? {
        ReportedAppend(t2, r.trace[|t2|]);
      }
      forall k: nat ensures LifeOf(r.trace, k) == if k < |r.entries| then EntryLife(r.entries[k]) else Absent {
        LifeAppend(b.trace, Started(i), k);
        LifeAppend(t1, PrepDone(i), k);
        if PrepareToolCall(tools, call, script.prepare).Immediate? {
          LifeAppend(t2, r.trace[|t2|], k);
        }
      }
    }
  }

  lemma {:induction false} PrepareAllKeepsInv(tools: seq<AgentTool>, calls: seq<ToolCall>, scripts: seq<CallScript>,
      n: nat)
    requires n <= |calls| && |scripts| == |calls|
    ensures BatchInv(PrepareAll(tools, calls, scripts, n), calls)
    ensures !PrepareAll(tools, calls, scripts, n).stopped ==> |PrepareAll(tools, calls, scripts, n).entries| == n
  {
    hide LifeOf, ReportedFinals;
    if n == 0 {
      LifeEmpty();
    } else {
      PrepareAllKeepsInv(tools, calls, scripts, n - 1);
      var b := PrepareAll(tools, calls, scripts, n - 1);
      if !b.stopped {
        PrepareOneKeepsInv(b, tools, calls, calls[n - 1], scripts[n - 1]);
      }
    }
  }

  lemma {:induction false} PrepareAllMeaning(tools: seq<AgentTool>, calls: seq<ToolCall>, scripts: seq<CallScript>,
      n: nat)
    requires n <= |calls| && |scripts| == |calls|
    ensures var b := PrepareAll(tools, calls, scripts, n);
            && |b.entries| == Kept(scripts, n)
            && (b.stopped <==> exists k :: 0 <= k < n && scripts[k].aborted)
            && (!b.stopped ==> |b.entries| == n)
            && (forall j :: 0 <= j < |b.trace| ==> !b.trace[j].Executed?)
            && (forall k: nat :: k < |b.entries| ==> PrepDone(k) in b.trace)
  {
    if n > 0 {
      PrepareAllMeaning(tools, calls, scripts, n - 1);
      KeptStep(scripts, n);
      var a, b := PrepareAll(tools, calls, scripts, n - 1), PrepareAll(tools, calls, scripts, n);
      assert a.trace <= b.trace;
      if !a.stopped {
        assert b.trace[|a.trace| + 1] == PrepDone(n - 1);
      }
    }
  }

  lemma {:induction false} KeptStep(scripts: seq<CallScript>, n: nat)
    requires 0 < n <= |scripts|
    ensures Kept(scripts, n)
         == if forall k :: 0 <= k < n - 1 ==> !scripts[k].aborted then n else Kept(scripts, n - 1)
  {
    if n > 1 && !scripts[0].aborted {
      KeptStep(scripts[1..], n - 1);
      assert forall k :: 0 < k < |scripts| ==> scripts[k] == scripts[1..][k - 1];
      if forall k :: 0 <= k < n - 2 ==> !scripts[1..][k].aborted {
        forall k | 0 <= k < n - 1 ensures !scripts[k].aborted {
          if k > 0 { assert scripts[k] == scripts[1..][k - 1]; }
        }
      } else {
        var k :| 0 <= k < n - 2 && scripts[1..][k].aborted;
        assert scripts[k + 1].aborted;
      }
    }
  }

  lemma MoveKeepsInv(b: Batch, calls: seq<ToolCall>, move: Move)
    requires BatchInv(b, calls)
    ensures BatchInv(MoveStep(b, calls, move), calls)
    ensures b.trace <= MoveStep(b, calls, move).trace
    ensures forall j :: |b.trace| <= j < |MoveStep(b, calls, move).trace| ==>
        !MoveStep(b, calls, move).trace[j].PrepDone?
  {
    hide LifeOf, ReportedFinals;
    var r := MoveStep(b, calls, move);
    if |r.trace| > |b.trace| {
      var step := r.trace[|b.trace|];
      assert r.trace == b.trace + [step];
      ReportedAppend(b.trace, step);
      forall k: nat ensures LifeOf(r.trace, k) == if k < |r.entries| then EntryLife(r.entries[k]) else Absent {
        LifeAppend(b.trace, step, k);
      }
    }
  }

  lemma {:induction false} MovesKeepInv(b: Batch, calls: seq<ToolCall>, moves: seq<Move>)
    requires BatchInv(b, calls)
    ensures var r := Moves(b, calls, moves);
            && BatchInv(r, calls)
            && b.trace <= r.trace
            && forall j :: |b.trace| <= j < |r.trace| ==> !r.trace[j].PrepDone?
  {
    if moves != [] {
      var n := |moves| - 1;
      MovesKeepInv(b, calls, moves[..n]);
      MoveKeepsInv(Moves(b, calls, moves[..n]), calls, moves[n]);
    }
  }

  lemma {:induction false} ReportLives(trace: seq<Step>, finals: seq<Finalized>, n: nat)
    requires n <= |finals|
    requires forall k: nat :: LifeOf(trace, k) == if k < |finals| then Over(finals[k]) else Absent
    requires ReportedFinals(trace) == []
    ensures var t := trace + ReportSteps(finals, n);
            && (forall k: nat :: LifeOf(t, k)
                  == if k < n then Told(finals[k]) else if k < |finals| then Over(finals[k]) else Absent)
            && ReportedFinals(t) == finals[..n]
  {
    hide LifeOf, ReportedFinals;
    if n == 0 {
      assert trace + ReportSteps(finals, n) == trace;
    } else {
      ReportLives(trace, finals, n - 1);
      var front := trace + ReportSteps(finals, n - 1);
      var step := Reported(n - 1, finals[n - 1]);
      assert trace + ReportSteps(finals, n) == front + [step];
      ReportedAppend(front, step);
      forall k: nat
        ensures LifeOf(front + [step], k)
             == if k < n then Told(finals[k]) else if k < |finals| then Over(finals[k]) else Absent
      {
        LifeAppend(front, step, k);
      }
    }
  }

  ghost predicate PreparedBeforeExecuted(trace: seq<Step>) {
    forall j, k | 0 <= j < |trace| && 0 <= k < |trace| && trace[j].PrepDone? && trace[k].Executed? :: j < k
  }

  /**
    For every interleaving: call lives are never out of order, results come back in source order for
    a prefix of the calls, all of them if the signal never aborts during preparation, and no tool
    executes before every kept call is prepared.
   */
  lemma ParallelIsOrderly(tools: seq<AgentTool>, calls: seq<ToolCall>, scripts: seq<CallScript>, moves: seq<Move>)
    requires |scripts| == |calls|
    ensures var r := Parallel(tools, calls, scripts, moves);
            && Orderly(calls, r)
            && (r.complete ==> |r.finals| == Kept(scripts, |calls|))
            && (r.complete && (forall k :: 0 <= k < |scripts| ==> !scripts[k].aborted) ==> |r.finals| == |calls|)
            && PreparedBeforeExecuted(r.trace)
            && (forall k: nat :: k < Kept(scripts, |calls|) ==> PrepDone(k) in r.trace)
  {
    hide LifeOf, ReportedFinals, PrepareAll, Moves, ReportSteps, Kept;
    PrepareAllKeepsInv(tools, calls, scripts, |calls|);
    PrepareAllMeaning(tools, calls, scripts, |calls|);
    var p := PrepareAll(tools, calls, scripts, |calls|);
    MovesKeepInv(p, calls, moves);
    var b := Moves(p, calls, moves);
    var r := Parallel(tools, calls, scripts, moves);
    if AllDone(b) {
      ReportLives(b.trace, FinalsOf(b), |b.entries|);
      assert FinalsOf(b)[..|b.entries|] == FinalsOf(b);
      ReportsOnly(FinalsOf(b), |b.entries|);
      BarrierExtends(p.trace, b.trace, ReportSteps(FinalsOf(b), |b.entries|));
    } else {
      BarrierExtends(p.trace, b.trace, []);
      assert b.trace + [] == b.trace;
    }
  }

  /** No preparation follows the preparation phase, and no execution precedes its end. */
  lemma BarrierExtends(prepared: seq<Step>, moved: seq<Step>, reports: seq<Step>)
    requires prepared <= moved
    requires forall j :: 0 <= j < |prepared| ==> !prepared[j].Executed?
    requires forall j :: |prepared| <= j < |moved| ==> !moved[j].PrepDone?
    requires forall j :: 0 <= j < |reports| ==> reports[j].Reported?
    ensures PreparedBeforeExecuted(moved + reports)
    ensures forall step :: step in prepared ==> step in moved + reports
  {
    var trace := moved + reports;
    assert forall m :: 0 <= m < |prepared| ==> trace[m] == prepared[m];
    forall j, k | 0 <= j < |trace| && 0 <= k < |trace| && trace[j].PrepDone? && trace[k].Executed? ensures j < k {
      assert j < |prepared|;
    }
    forall step | step in prepared ensures step in trace {
      var j :| 0 <= j < |prepared| && prepared[j] == step;
      assert trace[j] == step;
    }
  }

  lemma {:induction false} ReportsOnly(finals: seq<Finalized>, n: nat)
    requires n <= |finals|
    ensures forall j :: 0 <= j < |ReportSteps(finals, n)| ==> ReportSteps(finals, n)[j].Reported?
  {
    if n > 0 { ReportsOnly(finals, n - 1); }
  }

  /** The two loops of `executeToolCallsParallel`, with `Promise.all` in between. */
  method ExecuteParallel(tools: seq<AgentTool>, calls: seq<ToolCall>, scripts: seq<CallScript>, moves: seq<Move>)
    returns (r: BatchResult)
    requires |scripts| == |calls|
    ensures r == Parallel(tools, calls, scripts, moves)
  {
    var entries: seq<Entry>, trace: seq<Step> := [], [];
    var i := 0;
    var aborted := false;
    while i < |calls| && !aborted
      invariant 0 <= i <= |calls|
      invariant |entries| == i
      invariant Batch(entries, 0, aborted, trace) == PrepareAll(tools, calls, scripts, i)
      invariant aborted ==> forall n :: i <= n <= |calls| ==>
          PrepareAll(tools, calls, scripts, n) == PrepareAll(tools, calls, scripts, i)
    {
      trace := trace + [Started(i)] + [PrepDone(i)];
      var preparation := PrepareToolCall(tools, calls[i], scripts[i].prepare);
      if preparation.Immediate? {
        var final := Finalized(calls[i], preparation.output, preparation.isError);
        trace := trace + [Ended(i, final)];
        entries := entries + [Done(final)];
      } else {
        entries := entries + [Queued];
      }
      aborted := scripts[i].aborted;
      i := i + 1;
      if aborted { StoppedStays(tools, calls, scripts, i); }
    }
    PrepareBound(tools, calls, scripts, |calls|);
    var b := Batch(entries, 0, aborted, trace);
    assert b == PrepareAll(tools, calls, scripts, |calls|);
    for m := 0 to |moves|
      invariant |b.entries| <= |calls|
      invariant b == Moves(PrepareAll(tools, calls, scripts, |calls|), calls, moves[..m])
    {
      b := MoveStep(b, calls, moves[m]);
      assert moves[..m + 1][..m] == moves[..m];
    }
    assert moves[..|moves|] == moves;
    if !AllDone(b) {
      return BatchResult(b.trace, [], false);
    }
    var finals := FinalsOf(b);
    trace := b.trace;
    for k := 0 to |finals|
      invariant trace == b.trace + ReportSteps(finals, k)
    {
      trace := trace + [Reported(k, finals[k])];
    }
    r := BatchResult(trace, finals, true);
  }

  lemma {:induction false} StoppedStays(tools: seq<AgentTool>, calls: seq<ToolCall>, scripts: seq<CallScript>, i: nat)
    requires i <= |calls| && |scripts| == |calls| && PrepareAll(tools, calls, scripts, i).stopped
    ensures forall n :: i <= n <= |calls| ==>
        PrepareAll(tools, calls, scripts, n) == PrepareAll(tools, calls, scripts, i)
    decreases |calls| - i
  {
    if i < |calls| {
      assert PrepareAll(tools, calls, scripts, i + 1) == PrepareAll(tools, calls, scripts, i);
      StoppedStays(tools, calls, scripts, i + 1);
    }
  }

  // ---- Truncated messages and dispatch -----------------------------------------------

  function TruncatedFinal(call: ToolCall): Finalized {
    Finalized(call, ErrorOutput(TruncatedCall(call.name)), true)
  }

  function TruncatedTrace(calls: seq<ToolCall>, n: nat): seq<Step>
    requires n <= |calls|
  {
    if n == 0 then []
    else
      var final := TruncatedFinal(calls[n - 1]);
      TruncatedTrace(calls, n - 1) + [Started(n - 1)] + [Ended(n - 1, final)] + [Reported(n - 1, final)]
  }

  function TruncatedFinals(calls: seq<ToolCall>): (finals: seq<Finalized>)
    ensures |finals| == |calls|
  {
    seq(|calls|, i requires 0 <= i < |calls| => TruncatedFinal(calls[i]))
  }

  function Truncated(calls: seq<ToolCall>): BatchResult {
    BatchResult(TruncatedTrace(calls, |calls|), TruncatedFinals(calls), true)
  }

  /** The loop of `failToolCallsFromTruncatedMessage`. */
  method FailTruncated(calls: seq<ToolCall>) returns (r: BatchResult)
    ensures r == Truncated(calls)
  {
    var trace: seq<Step>, finals: seq<Finalized> := [], [];
    for i := 0 to |calls|
      invariant trace == TruncatedTrace(calls, i)
      invariant |finals| == i && forall k :: 0 <= k < i ==> finals[k] == TruncatedFinal(calls[k])
    {
      var final := TruncatedFinal(calls[i]);
      trace := trace + [Started(i)] + [Ended(i, final)] + [Reported(i, final)];
      finals := finals + [final];
    }
    r := BatchResult(trace, finals, true);
  }

  lemma {:induction false} TruncatedLives(calls: seq<ToolCall>, n: nat)
    requires n <= |calls|
    ensures var t := TruncatedTrace(calls, n);
            && (forall k: nat :: LifeOf(t, k) == if k < n then Told(TruncatedFinal(calls[k])) else Absent)
            && ReportedFinals(t) == TruncatedFinals(calls)[..n]
            && forall j :: 0 <= j < |t| ==> !t[j].Executed?
  {
    hide LifeOf, ReportedFinals;
    if n == 0 {
      LifeEmpty();
    } else {
      TruncatedLives(calls, n - 1);
      var t0 := TruncatedTrace(calls, n - 1);
      var final := TruncatedFinal(calls[n - 1]);
      var t1 := t0 + [Started(n - 1)];
      var t2 := t1 + [Ended(n - 1, final)];
      ReportedAppend(t0, Started(n - 1));
      ReportedAppend(t1, Ended(n - 1, final));
      ReportedAppend(t2, Reported(n - 1, final));
      forall k: nat
        ensures LifeOf(TruncatedTrace(calls, n), k) == if k < n then Told(TruncatedFinal(calls[k])) else Absent
      {
        LifeAppend(t0, Started(n - 1), k);
        LifeAppend(t1, Ended(n - 1, final), k);
        LifeAppend(t2, Reported(n - 1, final), k);
      }
    }
  }

  /** A truncated message fails every call and executes none. */
  lemma TruncatedIsOrderly(calls: seq<ToolCall>)
    ensures var r := Truncated(calls);
            && r.complete && Orderly(calls, r) && |r.finals| == |calls| && !ShouldTerminate(r.finals)
            && (forall j :: 0 <= j < |r.trace| ==> !r.trace[j].Executed?)
            && (forall k :: 0 <= k < |calls| ==> r.finals[k].isError)
  {
    hide LifeOf, ReportedFinals, TruncatedTrace;
    TruncatedLives(calls, |calls|);
    assert TruncatedFinals(calls)[..|calls|] == TruncatedFinals(calls);
    if |calls| > 0 { assert Truncated(calls).finals[0].output.terminate == None; }
  }

  /** The environment of one batch. */
  datatype BatchScript = BatchScript(sequentialMode: bool, scripts: seq<CallScript>, moves: seq<Move>)

  predicate UsesSequential(tools: seq<AgentTool>, calls: seq<ToolCall>, sequentialMode: bool) {
    sequentialMode
    || exists i :: 0 <= i < |calls| && FindTool(tools, calls[i].name).Some?
        && FindTool(tools, calls[i].name).value.sequential
  }

  function DefaultScript(): CallScript {
    CallScript(PrepareScript(None, NoBefore, false), [], Throws(""), NoAfter, false)
  }

  /** One call script per call, whatever the length of the given list. */
  function Fit(scripts: seq<CallScript>, n: nat): (fitted: seq<CallScript>)
    ensures |fitted| == n
  {
    seq(n, i requires 0 <= i < n => if i < |scripts| then scripts[i] else DefaultScript())
  }

  /** `executeToolCalls`, or the truncated path when the message hit the token limit. */
  function RunBatch(tools: seq<AgentTool>, calls: seq<ToolCall>, stop: StopReason, script: BatchScript): BatchResult {
    if stop == Length then Truncated(calls)
    else if UsesSequential(tools, calls, script.sequentialMode)
        then Sequential(tools, calls, Fit(script.scripts, |calls|))
    else Parallel(tools, calls, Fit(script.scripts, |calls|), script.moves)
  }

  method ExecuteToolCalls(tools: seq<AgentTool>, calls: seq<ToolCall>, stop: StopReason, script: BatchScript)
    returns (r: BatchResult)
    ensures r == RunBatch(tools, calls, stop, script)
  {
    if stop == Length {
      r := FailTruncated(calls);
    } else if UsesSequential(tools, calls, script.sequentialMode) {
      r := ExecuteSequential(tools, calls, Fit(script.scripts, |calls|));
    } else {
      r := ExecuteParallel(tools, calls, Fit(script.scripts, |calls|), script.moves);
    }
  }

  lemma RunBatchIsOrderly(tools: seq<AgentTool>, calls: seq<ToolCall>, stop: StopReason, script: BatchScript)
    ensures Orderly(calls, RunBatch(tools, calls, stop, script))
  {
    if stop == Length {
      TruncatedIsOrderly(calls);
    } else if UsesSequential(tools, calls, script.sequentialMode) {
      SequentialIsOrderly(tools, calls, Fit(script.scripts, |calls|));
    } else {
      ParallelIsOrderly(tools, calls, Fit(script.scripts, |calls|), script.moves);
    }
  }
}
