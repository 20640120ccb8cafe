/**
  The bounded, ordered write queue of the Unix transport. An action is one callback or continuation of
  the event loop; a list of actions is one interleaving of sends, socket events and closing.
 */
module WriteQueue {
  import opened Wrappers

  type Byte = bv8

  // ---- One write ---------------------------------------------------------------------

  /**
    The local flags of one `#write`, and whether its drain listener is on; `settled` is its promise, and
    `settles` counts settlements.
   */
  datatype Cell = Cell(
    callback: bool,
    drained: bool,
    requiresDrain: Option<bool>,
    draining: bool,
    settled: Option<bool>,
    settles: nat)

  const NEW_CELL := Cell(false, false, None, false, None, 0)

  datatype SocketEvent =
    | Returned(accepted: bool)      // socket.write came back
    | Callback(failed: bool)
    | Drain
    | SocketClosed
    | Thrown                        // socket.write threw

  function Settle(c: Cell, ok: bool): Cell {
    c.(settled := Some(ok), settles := c.settles + 1, draining := false)
  }

  function Fail(c: Cell): Cell {
    if c.settled.Some? then c else Settle(c, false)
  }

  function Finish(c: Cell): Cell {
    if c.settled.Some? || !c.callback || c.requiresDrain.None? then c
    else if c.requiresDrain.value && !c.drained then c
    else Settle(c, true)
  }

  /** The drain listener is put on when the write comes back refused, and is gone after a drain or a settlement. */
  function CellStep(c: Cell, event: SocketEvent): Cell {
    match event
    case Returned(accepted) =>
      if c.requiresDrain.Some? then c
          else Finish(c.(requiresDrain := Some(!accepted), draining := c.draining || !accepted))
    case Callback(failed) => if failed then Fail(c) else Finish(c.(callback := true))
    case Drain => if c.draining then Finish(c.(drained := true, draining := false)) else c
    case SocketClosed => Fail(c)
    case Thrown => Fail(c)
  }

  function CellRun(events: seq<SocketEvent>): Cell {
    if events == [] then NEW_CELL else CellStep(CellRun(events[..|events| - 1]), events[|events| - 1])
  }

  /** A drain was seen after the write had come back refused. */
  ghost predicate DrainedAfterRefusal(events: seq<SocketEvent>) {
    exists i, j :: 0 <= i < j < |events| && events[i] == Returned(false) && events[j] == Drain
  }

  ghost predicate CellInv(c: Cell, events: seq<SocketEvent>) {
    && c.settles == (if c.settled.Some? then 1 else 0)
    && (c.callback ==> Callback(false) in events)
    && (c.requiresDrain.Some? ==> Returned(!c.requiresDrain.value) in events)
    && (c.draining ==> c.requiresDrain == Some(true))
    && (c.drained ==> c.requiresDrain == Some(true) && DrainedAfterRefusal(events))
    && (c.settled == Some(true) ==> c.callback && c.requiresDrain.Some? && (c.requiresDrain.value ==> c.drained))
  }

  lemma DrainAtEnd(front: seq<SocketEvent>)
    requires Returned(false) in front
    ensures DrainedAfterRefusal(front + [Drain])
  {
    var i :| 0 <= i < |front| && front[i] == Returned(false);
    var events := front + [Drain];
    assert events[i] == Returned(false) && events[|front|] == Drain;
  }

  lemma DrainedStays(front: seq<SocketEvent>, event: SocketEvent)
    requires DrainedAfterRefusal(front)
    ensures DrainedAfterRefusal(front + [event])
  {
    var i, j :| 0 <= i < j < |front| && front[i] == Returned(false) && front[j] == Drain;
    assert (front + [event])[i] == front[i] && (front + [event])[j] == front[j];
  }

  lemma CellStepKeepsInv(c: Cell, front: seq<SocketEvent>, event: SocketEvent)
    requires CellInv(c, front)
    ensures CellInv(CellStep(c, event), front + [event])
  {
    hide DrainedAfterRefusal;
    if DrainedAfterRefusal(front) { DrainedStays(front, event); }
    if c.draining && event == Drain { DrainAtEnd(front); }
  }

  lemma {:induction false} CellKeepsInv(events: seq<SocketEvent>)
    ensures CellInv(CellRun(events), events)
  {
    hide CellInv, CellStep;
    if events == [] {
      NewCellInv();
    } else {
      var n := |events| - 1;
      CellKeepsInv(events[..n]);
      assert events == events[..n] + [events[n]];
      CellStepKeepsInv(CellRun(events[..n]), events[..n], events[n]);
    }
  }

  lemma NewCellInv()
    ensures CellInv(NEW_CELL, [])
  {
  }

  /**
    For every sequence of socket events a write settles at most once, and it succeeds only after its
    callback and, if the socket refused the write, a drain behind the refusal.
   */
  lemma WriteSettlesOnce(events: seq<SocketEvent>)
    ensures CellRun(events).settles <= 1
    ensures CellRun(events).settled == Some(true) ==>
              Callback(false) in events && (Returned(true) in events || DrainedAfterRefusal(events))
  {
    CellKeepsInv(events);
  }

  /** The first settlement wins. */
  lemma {:induction false} SettledStays(events: seq<SocketEvent>, more: seq<SocketEvent>)
    requires CellRun(events).settled.Some?
    ensures CellRun(events + more).settled == CellRun(events).settled
  {
    if more == [] {
      assert events + more == events;
    } else {
      SettledStays(events, more[..|more| - 1]);
      assert (events + more)[..|events + more| - 1] == events + more[..|more| - 1];
    }
  }

  // ---- The queue ---------------------------------------------------------------------

  /** A send waits for its turn, is being written, has a settled write, or is settled and released. */
  datatype Status = Waiting | Writing(cell: Cell) | Written(ok: bool) | Settled(ok: bool)

  /** A send, and the socket events that its write has seen. */
  datatype Send = Send(bytes: seq<Byte>, status: Status, events: seq<SocketEvent>)

  datatype Queue = Queue(sends: seq<Send>, pendingBytes: int, limit: nat, closed: bool, written: seq<nat>)

  datatype Action =
    | Submit(bytes: seq<Byte>)
    | Begin(i: nat, writable: bool)           // the turn of send i: the earlier tail has settled
    | OnSocket(i: nat, event: SocketEvent)
    | Release(i: nat)                         // the finally handler of send i
    | Close

  predicate Accepts(q: Queue, bytes: seq<Byte>) {
    !q.closed && q.pendingBytes + |bytes| <= q.limit
  }

  predicate IsTurn(q: Queue, i: nat) {
    i < |q.sends| && q.sends[i].status == Waiting && (i > 0 ==> q.sends[i - 1].status.Settled?)
  }

  function SetStatus(q: Queue, i: nat, status: Status): Queue
    requires i < |q.sends|
  {
    q.(sends := q.sends[i := q.sends[i].(status := status)])
  }

  function Step(q: Queue, action: Action): Queue {
    match action
    case Submit(bytes) =>
      if Accepts(q, bytes)
      then q.(sends := q.sends + [Send(bytes, Waiting, [])], pendingBytes := q.pendingBytes + |bytes|) else q
    case Begin(i, writable) =>
      if !IsTurn(q, i) then q
      else if q.closed || !writable then SetStatus(q, i, Written(false))
      else SetStatus(q, i, Writing(NEW_CELL)).(written := q.written + [i])
    case OnSocket(i, event) =>
      if i < |q.sends| && q.sends[i].status.Writing? then
        var cell := CellStep(q.sends[i].status.cell, event);
        var status := if cell.settled.Some? then Written(cell.settled.value) else Writing(cell);
        q.(sends := q.sends[i := Send(q.sends[i].bytes, status, q.sends[i].events + [event])])
      else q
    case Release(i) =>
      if i < |q.sends| && q.sends[i].status.Written?
      then SetStatus(q, i, Settled(q.sends[i].status.ok)).(pendingBytes := q.pendingBytes - |q.sends[i].bytes|) else q
    case Close => q.(closed := true)
  }

  function Run(q: Queue, actions: seq<Action>): Queue
    decreases |actions|
  {
    if actions == [] then q else Run(Step(q, actions[0]), actions[1..])
  }

  function Initial(limit: nat): Queue {
    Queue([], 0, limit, false, [])
  }

  /** The bytes of accepted sends that have not settled. */
  function Unsettled(sends: seq<Send>): nat {
    if sends == [] then 0
    else
      var last := sends[|sends| - 1];
      Unsettled(sends[..|sends| - 1]) + (if last.status.Settled? then 0 else |last.bytes|)
  }

  lemma {:induction false} UnsettledUpdate(sends: seq<Send>, i: nat, send: Send)
    requires i < |sends| && !sends[i].status.Settled? && send.bytes == sends[i].bytes
    ensures Unsettled(sends[i := send]) == Unsettled(sends) - if send.status.Settled? then |send.bytes| else 0
  {
    var next := sends[i := send];
    var n := |sends| - 1;
    if i == n {
      assert next[..n] == sends[..n];
    } else {
      UnsettledUpdate(sends[..n], i, send);
      assert next[..n] == sends[..n][i := send];
    }
  }

  /** Only the first unsettled send may be past its wait. */
  ghost predicate Ordered(sends: seq<Send>) {
    forall i, j :: 0 <= i < j < |sends| && sends[j].status != Waiting ==> sends[i].status.Settled?
  }

  /** Chunks reached the socket in send order, each after all earlier sends had settled. */
  ghost predicate WrittenInOrder(q: Queue) {
    && (forall a, b :: 0 <= a < b < |q.written| ==> q.written[a] < q.written[b])
    && (forall a :: 0 <= a < |q.written| ==>
          && q.written[a] < |q.sends| && q.sends[q.written[a]].status != Waiting
          && forall j :: 0 <= j < q.written[a] ==> q.sends[j].status.Settled?)
  }

  /** A write that is under way is what its events make of it, and a send succeeded only if its write did. */
  ghost predicate Honest(send: Send) {
    match send.status
    case Waiting => send.events == []
    case Writing(cell) => cell == CellRun(send.events) && cell.settled.None?
    case Written(ok) => ok ==> CellRun(send.events).settled == Some(true)
    case Settled(ok) => ok ==> CellRun(send.events).settled == Some(true)
  }

  ghost predicate Inv(q: Queue) {
    && (forall i :: 0 <= i < |q.sends| ==> Honest(q.sends[i]))
    && q.pendingBytes == Unsettled(q.sends) <= q.limit
    && Ordered(q.sends)
    && WrittenInOrder(q)
  }

  lemma AdvanceKeepsOrder(q: Queue, i: nat, send: Send)
    requires Ordered(q.sends) && WrittenInOrder(q) && i < |q.sends| && send.status != Waiting
    requires q.sends[i].status.Settled? ==> send.status.Settled?
    requires forall j :: 0 <= j < i ==> q.sends[j].status.Settled?
    ensures Ordered(q.sends[i := send]) && WrittenInOrder(q.(sends := q.sends[i := send]))
  {
  }

  lemma TurnIsFirst(q: Queue, i: nat)
    requires Ordered(q.sends) && IsTurn(q, i)
    ensures forall j :: 0 <= j < i ==> q.sends[j].status.Settled?
  {
  }

  lemma BeginKeepsInv(q: Queue, i: nat, writable: bool)
    requires Inv(q) && IsTurn(q, i)
    ensures Inv(Step(q, Begin(i, writable)))
  {
    hide Unsettled, Honest;
    TurnIsFirst(q, i);
    var r := Step(q, Begin(i, writable));
    UnsettledUpdate(q.sends, i, r.sends[i]);
    AdvanceKeepsOrder(q, i, r.sends[i]);
    HonestBeginning(q.sends[i]);
    assert forall a :: 0 <= a < |q.written| ==> q.written[a] < i by {
      forall a | 0 <= a < |q.written| ensures q.written[a] < i {
        assert q.sends[q.written[a]].status != Waiting;
      }
    }
  }

  lemma HonestBeginning(send: Send)
    requires send.status == Waiting && Honest(send)
    ensures Honest(send.(status := Written(false))) && Honest(send.(status := Writing(NEW_CELL)))
  {
  }

  lemma HonestProgress(send: Send, event: SocketEvent)
    requires send.status.Writing? && Honest(send)
    ensures var cell := CellStep(send.status.cell, event);
            Honest(Send(send.bytes, if cell.settled.Some? then Written(cell.settled.value)
                else Writing(cell), send.events + [event]))
  {
    assert (send.events + [event])[..|send.events|] == send.events;
  }

  lemma StepKeepsInv(q: Queue, action: Action)
    requires Inv(q)
    ensures Inv(Step(q, action))
  {
    hide Unsettled, CellStep, Honest;
    var r := Step(q, action);
    match action
    case Submit(bytes) =>
      if Accepts(q, bytes) { SubmitKeepsInv(q, bytes); }
    case Begin(i, writable) =>
      if IsTurn(q, i) { BeginKeepsInv(q, i, writable); }
    case OnSocket(i, event) =>
      if i < |q.sends| && q.sends[i].status.Writing? {
        UnsettledUpdate(q.sends, i, r.sends[i]);
        AdvanceKeepsOrder(q, i, r.sends[i]);
        HonestProgress(q.sends[i], event);
      }
    case Release(i) =>
      if i < |q.sends| && q.sends[i].status.Written? {
        UnsettledUpdate(q.sends, i, r.sends[i]);
        AdvanceKeepsOrder(q, i, r.sends[i]);
        HonestRelease(q.sends[i]);
      }
    case Close =>
  }

  lemma HonestRelease(send: Send)
    requires send.status.Written? && Honest(send)
    ensures Honest(send.(status := Settled(send.status.ok)))
  {
  }

  lemma SubmitKeepsInv(q: Queue, bytes: seq<Byte>)
    requires Inv(q) && Accepts(q, bytes)
    ensures Inv(Step(q, Submit(bytes)))
  {
    var r := Step(q, Submit(bytes));
    assert r.sends[..|q.sends|] == q.sends;
  }

  lemma {:induction false} RunKeepsInv(q: Queue, actions: seq<Action>)
    requires Inv(q)
    ensures Inv(Run(q, actions))
    decreases |actions|
  {
    hide Inv, Step;
    if actions != [] {
      StepKeepsInv(q, actions[0]);
      RunKeepsInv(Step(q, actions[0]), actions[1..]);
    }
  }

  lemma InitialInv(limit: nat)
    ensures Inv(Initial(limit))
  {
  }

  /**
    In every interleaving the pending-byte count is the total length of accepted unsettled sends and
    within the limit, and chunks reach the socket in send order, each after the earlier ones settled.
   */
  lemma EveryInterleaving(limit: nat, actions: seq<Action>)
    ensures var q := Run(Initial(limit), actions);
            && q.pendingBytes == Unsettled(q.sends) <= q.limit
            && WrittenInOrder(q)
            && forall i, j :: 0 <= i < j < |q.sends| && q.sends[j].status != Waiting ==> q.sends[i].status.Settled?
  {
    hide Run, WrittenInOrder, Unsettled;
    InitialInv(limit);
    RunKeepsInv(Initial(limit), actions);
  }

  /** In every run, a send that succeeded saw its callback and, if the socket refused its write, a drain after that. */
  lemma SuccessIsEarned(limit: nat, actions: seq<Action>, i: nat)
    requires i < |Run(Initial(limit), actions).sends|
    requires Run(Initial(limit), actions).sends[i].status == Settled(true)
    ensures var send := Run(Initial(limit), actions).sends[i];
            Callback(false) in send.events && (Returned(true) in send.events || DrainedAfterRefusal(send.events))
  {
    hide Run;
    InitialInv(limit);
    RunKeepsInv(Initial(limit), actions);
    var q := Run(Initial(limit), actions);
    assert Honest(q.sends[i]);
    WriteSettlesOnce(q.sends[i].events);
  }

  /** After closing, no send is accepted and no chunk reaches the socket any more. */
  lemma {:induction false} ClosedIsFinal(q: Queue, actions: seq<Action>)
    requires q.closed
    ensures var r := Run(q, actions); r.closed && r.written == q.written && |r.sends| == |q.sends|
    decreases |actions|
  {
    if actions != [] {
      ClosedIsFinal(Step(q, actions[0]), actions[1..]);
    }
  }

  // ---- One write as an object -----------------------------------------------------------------

  /** The closures of one `#write` over their shared flags. */
  class SocketWrite {
    var callbackComplete: bool
    var drainComplete: bool
    var requiresDrain: Option<bool>
    var drainListener: bool
    var settled: Option<bool>
    var settles: nat

    constructor ()
      ensures Model() == NEW_CELL
    {
      callbackComplete, drainComplete, requiresDrain, drainListener, settled := false, false, None, false, None;
      settles := 0;
    }

    function Model(): Cell
      reads this
    {
      Cell(callbackComplete, drainComplete, requiresDrain, drainListener, settled, settles)
    }

    method SettleWith(ok: bool)
      requires settled == None
      modifies this
      ensures Model() == Settle(old(Model()), ok)
    {
      settled := Some(ok);
      settles := settles + 1;
      drainListener := false;
    }

    method FailWrite()
      modifies this
      ensures Model() == Fail(old(Model()))
    {
      if settled.Some? {
        return;
      }
      SettleWith(false);
    }

    method FinishWrite()
      modifies this
      ensures Model() == Finish(old(Model()))
    {
      if settled.Some? || !callbackComplete || requiresDrain.None? {
        return;
      }
      if requiresDrain.value && !drainComplete {
        return;
      }
      SettleWith(true);
    }

    method OnDrain()
      modifies this
      ensures Model() == CellStep(old(Model()), Drain)
    {
      if !drainListener {
        return;
      }
      drainListener := false;
      drainComplete := true;
      FinishWrite();
    }

    method OnCallback(failed: bool)
      modifies this
      ensures Model() == CellStep(old(Model()), Callback(failed))
    {
      if failed {
        FailWrite();
        return;
      }
      callbackComplete := true;
      FinishWrite();
    }

    /** What follows the call of `write` once it came back. */
    method OnReturned(accepted: bool)
      requires requiresDrain == None
      modifies this
      ensures Model() == CellStep(old(Model()), Returned(accepted))
    {
      requiresDrain := Some(!accepted);
      if requiresDrain.value {
        drainListener := true;
      }
      FinishWrite();
    }

    method OnClose()
      modifies this
      ensures Model() == CellStep(old(Model()), SocketClosed)
    {
      FailWrite();
    }

    method OnThrown()
      modifies this
      ensures Model() == CellStep(old(Model()), Thrown)
    {
      FailWrite();
    }
  }

  // ---- The transport -----------------------------------------------------------------

  class UnixByteTransport {
    const maxPendingBytes: nat
    var closed: bool
    var pendingBytes: int
    var sends: seq<Send>
    var written: seq<nat>
    var write: SocketWrite      // the write under way, if any

    constructor (maxPendingBytes: nat)
      ensures Model() == Initial(maxPendingBytes) && fresh(write)
    {
      this.maxPendingBytes := maxPendingBytes;
      closed, pendingBytes, sends, written := false, 0, [], [];
      write := new SocketWrite();
    }

    ghost function Model(): Queue
      reads this
    {
      Queue(sends, pendingBytes, maxPendingBytes, closed, written)
    }

    /** `send`: the queue keeps its own copy of the chunk, so the caller may reuse the buffer. */
    method SendChunk(chunk: array<Byte>) returns (accepted: bool)
      modifies this`sends, this`pendingBytes
      ensures accepted <==> Accepts(old(Model()), chunk[..])
      ensures Model() == Step(old(Model()), Submit(chunk[..]))
    {
      if closed {
        return false;
      }
      if pendingBytes + chunk.Length > maxPendingBytes {
        return false;
      }
      pendingBytes := pendingBytes + chunk.Length;
      var bytes := chunk[..];
      sends := sends + [Send(bytes, Waiting, [])];
      accepted := true;
    }

    method CloseTransport()
      modifies this`closed
      ensures Model() == Step(old(Model()), Close)
    {
      if closed {
        return;
      }
      closed := true;
    }

    /** The head of `#write`, run when the earlier write has been released. */
    method BeginWrite(i: nat, writable: bool)
      requires IsTurn(Model(), i)
      modifies this`sends, this`written, this`write
      ensures Model() == Step(old(Model()), Begin(i, writable))
      ensures sends[i].status.Writing? ==> fresh(write) && UnderWay(i)
    {
      if closed || !writable {
        sends := sends[i := sends[i].(status := Written(false))];
        return;
      }
      write := new SocketWrite();
      sends := sends[i := sends[i].(status := Writing(NEW_CELL))];
      written := written + [i];
    }

    /** Send `i` is being written by the write at hand. */
    ghost predicate UnderWay(i: nat)
      reads this, write
    {
      i < |sends| && sends[i].status == Writing(write.Model())
    }

    /** An event of the socket reaches the closures of the write at hand; its promise settles the send. */
    method HandleSocketEvent(i: nat, event: SocketEvent)
      requires UnderWay(i) && (event.Returned? ==> write.requiresDrain == None)
      modifies this`sends, write
      ensures Model() == Step(old(Model()), OnSocket(i, event))
      ensures sends[i].status == if write.settled.Some? then Written(write.settled.value) else Writing(write.Model())
      ensures old(Honest(sends[i])) && sends[i].status == Written(true) ==>
                && Callback(false) in sends[i].events
                && (Returned(true) in sends[i].events || DrainedAfterRefusal(sends[i].events))
    {
      hide CellStep, CellRun, DrainedAfterRefusal;
      if Honest(sends[i]) {
        HonestProgress(sends[i], event);
        WriteSettlesOnce(sends[i].events + [event]);
      }
      match event {
        case Returned(accepted) => write.OnReturned(accepted);
        case Callback(failed) => write.OnCallback(failed);
        case Drain => write.OnDrain();
        case SocketClosed => write.OnClose();
        case Thrown => write.OnThrown();
      }
      var status := if write.settled.Some? then Written(write.settled.value) else Writing(write.Model());
      sends := sends[i := Send(sends[i].bytes, status, sends[i].events + [event])];
    }

    method ReleaseSend(i: nat)
      requires i < |sends| && sends[i].status.Written?
      modifies this`sends, this`pendingBytes
      ensures Model() == Step(old(Model()), Release(i))
    {
      pendingBytes := pendingBytes - |sends[i].bytes|;
      sends := sends[i := sends[i].(status := Settled(sends[i].status.ok))];
    }
  }
}
